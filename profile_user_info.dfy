/** The profile header: the name, handle, avatar initials, join date, bio
    and interests it shows, each with its fallback. */
module ProfileHeader {
  import opened Common
  import opened Initials

  datatype Profile = Profile(
    username: Option<string>,
    fullName: Option<string>,
    avatarUrl: Option<string>,
    createdAt: Option<string>,
    bio: Option<string>,
    interests: Option<seq<string>>)

  const DefaultInterests: seq<string> := ["Design", "Technology", "Music", "Art"]

  const DefaultBio := "Audio enthusiast and product designer. Host of weekly design conversations and tech talks."

  /** `profile.interests || [...]`: an empty list is kept, since an array
      is never falsy; only a missing list takes the default. */
  function Interests(p: Profile): (r: seq<string>)
    ensures p.interests.Some? ==> r == p.interests.value
    ensures p.interests.None? ==> r == DefaultInterests
  {
    if p.interests.Some? then p.interests.value else DefaultInterests
  }

  /** The heading shows the full name, or 'User'. */
  function DisplayName(p: Profile): (r: string)
    ensures TruthyString(p.fullName) ==> r == p.fullName.value
    ensures !TruthyString(p.fullName) ==> r == "User"
  {
    OrElse(p.fullName, "User")
  }

  /** The handle after '@' is the username, or 'username'. */
  function Handle(p: Profile): (r: string)
    ensures TruthyString(p.username) ==> r == p.username.value
    ensures !TruthyString(p.username) ==> r == "username"
  {
    OrElse(p.username, "username")
  }

  /** The avatar's fallback initials come from the full name, else the
      username, else 'User'. */
  function AvatarInitials(p: Profile): (r: string)
    ensures |r| <= 2
    ensures TruthyString(p.fullName) ==> r == GetInitials(p.fullName.value)
    ensures !TruthyString(p.fullName) && TruthyString(p.username) ==> r == GetInitials(p.username.value)
    ensures !TruthyString(p.fullName) && !TruthyString(p.username) ==> r == "U"
  {
    OneWordInitial("User");
    GetInitials(OrElse(p.fullName, OrElse(p.username, "User")))
  }

  function Bio(p: Profile): (r: string)
    ensures TruthyString(p.bio) ==> r == p.bio.value
    ensures !TruthyString(p.bio) ==> r == DefaultBio
  {
    OrElse(p.bio, DefaultBio)
  }

  /** `formatJoinDate(createdAt)`. Without a date, or when formatting it
      fails (`monthYear` is `None`), the text is 'Joined recently';
      otherwise 'Joined ' and the month and year. */
  function FormatJoinDate(createdAt: Option<string>, monthYear: Option<string>): (r: string)
    ensures !TruthyString(createdAt) ==> r == "Joined recently"
    ensures TruthyString(createdAt) && monthYear.None? ==> r == "Joined recently"
    ensures TruthyString(createdAt) && monthYear.Some? ==> r == "Joined " + monthYear.value
  {
    if !TruthyString(createdAt) then "Joined recently"
    else if monthYear.None? then "Joined recently"
    else "Joined " + monthYear.value
  }
}
