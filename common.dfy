/** Values shared by every part of the model: optional values and the
    truthiness rules of JavaScript that the `||` fallbacks depend on. */
module Common {

  datatype Option<T> = None | Some(value: T) {
    /** `x ?? d`. */
    function OrDefault(d: T): T {
      if Some? then value else d
    }
  }

  /** A JavaScript string is falsy exactly when it is empty; null and
      undefined are both `None` here. */
  predicate TruthyString(s: Option<string>) {
    s.Some? && s.value != ""
  }

  /** `s || d` for a nullable string `s`. */
  function OrElse(s: Option<string>, d: string): (r: string)
    ensures TruthyString(s) ==> r == s.value
    ensures !TruthyString(s) ==> r == d
  {
    if s.Some? && s.value != "" then s.value else d
  }

  /** `s || null` for a nullable string: an empty string becomes null. */
  function OrNull(s: Option<string>): (r: Option<string>)
    ensures r.Some? <==> TruthyString(s)
    ensures r.Some? ==> r == s
  {
    if s.Some? && s.value != "" then s else None
  }

  /** `b || false` (and plain truthiness) for a nullable boolean. */
  predicate TruthyBool(b: Option<bool>) {
    b == Some(true)
  }
}
