/** `getInitials(name)`, written identically in the participant dialog and
    in the profile header: split on single spaces, take each part's first
    character (an empty part gives the empty string), join them, keep the
    first two characters and upper-case them. */
module Initials {
  import opened Text

  /** `part.charAt(0)`: the first character, or the empty string. */
  function CharAt0(part: string): (r: string)
    ensures |r| <= 1
    ensures part == [] ==> r == ""
    ensures part != [] ==> r == [part[0]]
  {
    if part == [] then "" else [part[0]]
  }

  /** `parts.map(part => part.charAt(0)).join('')`. */
  function Heads(parts: seq<string>): string
  {
    if parts == [] then "" else CharAt0(parts[0]) + Heads(parts[1..])
  }

  /** `s.substring(0, 2)`. */
  function FirstTwo(s: string): (r: string)
    ensures |r| == if |s| < 2 then |s| else 2
    ensures r == s[..|r|]
  {
    if |s| < 2 then s else s[..2]
  }

  /** The characters of `s` that begin a word, in order: a non-space
      character at the very start (when `atStart`) or right after a space. */
  function WordStartChars(s: string, atStart: bool): (r: string)
    ensures |r| <= |s|
    ensures ' ' !in r
  {
    if s == [] then ""
    else (if s[0] != ' ' && atStart then [s[0]] else "") + WordStartChars(s[1..], s[0] == ' ')
  }

  function GetInitials(name: string): (r: string)
    ensures |r| <= 2
    ensures r == Upper(FirstTwo(WordStartChars(name, true)))
  {
    HeadsOfSplit(name);
    Upper(FirstTwo(Heads(Split(name, ' '))))
  }

  /** The first characters of the space-separated parts are exactly the
      characters that begin a word; the parts after the first one hold the
      word starts of the text after the first character. */
  lemma {:induction false} HeadsOfSplit(s: string)
    ensures Heads(Split(s, ' ')) == WordStartChars(s, true)
    ensures Heads(Split(s, ' ')[1..]) == WordStartChars(s, false)
  {
    if s != [] {
      HeadsOfSplit(s[1..]);
      var rest := Split(s[1..], ' ');
      if s[0] == ' ' {
        assert Split(s, ' ') == [""] + rest;
        assert ([""] + rest)[1..] == rest;
      } else {
        var parts := [[s[0]] + rest[0]] + rest[1..];
        assert Split(s, ' ') == parts;
        assert parts[1..] == rest[1..];
        assert CharAt0(parts[0]) == [s[0]];
      }
    }
  }

  /** A name without spaces has the upper-cased first letter as its initial. */
  lemma {:induction false} OneWordInitial(w: string)
    requires w != [] && ' ' !in w
    ensures GetInitials(w) == [UpperChar(w[0])]
  {
    NoWordStartsInside(w[1..]);
    assert WordStartChars(w, true) == [w[0]] + WordStartChars(w[1..], false);
  }

  /** Inside a word, no further word starts. */
  lemma {:induction false} NoWordStartsInside(w: string)
    requires ' ' !in w
    ensures WordStartChars(w, false) == ""
  {
    if w != [] {
      NoWordStartsInside(w[1..]);
    }
  }

  /** Runs of spaces contribute nothing: a blank or empty name has no initials. */
  lemma {:induction false} SpacesHaveNoInitials(s: string, atStart: bool)
    requires forall i :: 0 <= i < |s| ==> s[i] == ' '
    ensures WordStartChars(s, atStart) == ""
  {
    if s != [] {
      SpacesHaveNoInitials(s[1..], true);
    }
  }
}
