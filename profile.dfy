/** The profile page: whose profile is shown, the fallback chain that fills
    it from the fetched row, the signed-in user's own profile and the
    example data, and the follow and save-room toggles. */
module ProfilePage {
  import opened Common

  datatype SavedRoom = SavedRoom(id: string, title: string, host: string, date: string, saved: bool)

  /** The page's user data; the fields the page never changes after
      loading are left out. */
  datatype UserData = UserData(
    id: string,
    name: string,
    username: string,
    avatar: string,
    bio: string,
    followers: int,
    following: int,
    isFollowing: bool,
    isMe: bool,
    savedRooms: seq<SavedRoom>)

  /** A fetched `profiles` row and the auth context's profile, with nullable columns. */
  datatype ProfileRow = ProfileRow(fullName: Option<string>, username: Option<string>, avatarUrl: Option<string>, bio: Option<string>)

  datatype AuthUser = AuthUser(id: string)

  const ExampleUser := UserData(
    "me", "Alex Morgan", "alexmorgan", "https://i.pravatar.cc/150?img=35",
    "Audio enthusiast and product designer. Host of weekly design conversations and tech talks.",
    1243, 382, false, true,
    [SavedRoom("3", "Tech Talk: Voice UX", "David Park", "3 days ago", true)])

  /** The page shows the signed-in user's own profile when the route has no
      id, the id 'me', or the user's own id. */
  function IsOwnProfile(id: Option<string>, user: Option<AuthUser>): (own: bool)
    ensures own <==> !TruthyString(id) || id == Some("me") || (user.Some? && id == Some(user.value.id))
  {
    !TruthyString(id) || id.value == "me" || (user.Some? && id.value == user.value.id)
  }

  /** The profile query runs only for a route id other than 'me'. */
  predicate QueriesProfile(id: Option<string>)
  {
    TruthyString(id) && id.value != "me"
  }

  datatype Column = FullName | Username | AvatarUrl | Bio

  /** `row?.column`: null when there is no row. */
  function Field(row: Option<ProfileRow>, c: Column): Option<string>
  {
    if row.None? then None
    else match c
      case FullName => row.value.fullName
      case Username => row.value.username
      case AvatarUrl => row.value.avatarUrl
      case Bio => row.value.bio
  }

  /** `fetched?.f || auth?.f || example`: the first non-empty one. */
  function Fallback(fetched: Option<string>, auth: Option<string>, example: string): (r: string)
    ensures TruthyString(fetched) ==> r == fetched.value
    ensures !TruthyString(fetched) && TruthyString(auth) ==> r == auth.value
    ensures !TruthyString(fetched) && !TruthyString(auth) ==> r == example
  {
    OrElse(fetched, OrElse(auth, example))
  }

  /** The user data `fetchUserProfile` stores. `answer` is what the profile
      query returned (`None` on an error) and is used only when the query
      runs; everything but the id, the own-profile flag and the four
      displayed fields is the example data. */
  function LoadedUser(id: Option<string>, user: Option<AuthUser>, auth: Option<ProfileRow>, answer: Option<ProfileRow>): (u: UserData)
    ensures u.isMe == IsOwnProfile(id, user)
    ensures u.id == (if IsOwnProfile(id, user) then "me" else id.value)
    ensures var fetched := if QueriesProfile(id) then answer else None;
      && u.name == Fallback(Field(fetched, FullName), Field(auth, FullName), ExampleUser.name)
      && u.username == Fallback(Field(fetched, Username), Field(auth, Username), ExampleUser.username)
      && u.avatar == Fallback(Field(fetched, AvatarUrl), Field(auth, AvatarUrl), ExampleUser.avatar)
      && u.bio == Fallback(Field(fetched, Bio), Field(auth, Bio), ExampleUser.bio)
    ensures u.followers == ExampleUser.followers && u.following == ExampleUser.following
    ensures !u.isFollowing && u.savedRooms == ExampleUser.savedRooms
  {
    var own := IsOwnProfile(id, user);
    var fetched := if QueriesProfile(id) then answer else None;
    ExampleUser.(
      id := if own then "me" else OrElse(id, "unknown"),
      isMe := own,
      name := Fallback(Field(fetched, FullName), Field(auth, FullName), ExampleUser.name),
      username := Fallback(Field(fetched, Username), Field(auth, Username), ExampleUser.username),
      avatar := Fallback(Field(fetched, AvatarUrl), Field(auth, AvatarUrl), ExampleUser.avatar),
      bio := Fallback(Field(fetched, Bio), Field(auth, Bio), ExampleUser.bio))
  }

  /** A profile that is not one's own always has a real route id: the
      'unknown' default of the id is never shown. */
  lemma OtherProfileHasRouteId(id: Option<string>, user: Option<AuthUser>, auth: Option<ProfileRow>, answer: Option<ProfileRow>)
    ensures var u := LoadedUser(id, user, auth, answer);
      !u.isMe ==> QueriesProfile(id) && u.id == id.value && u.id != "me" && u.id != ""
  {
  }

  /** `handleFollow()`: flips the follow flag and moves the follower count
      by one in the matching direction; without user data nothing happens. */
  function Follow(data: Option<UserData>): (r: Option<UserData>)
    ensures data.None? ==> r.None?
    ensures data.Some? ==>
      && r.Some?
      && r.value.isFollowing == !data.value.isFollowing
      && r.value.followers == data.value.followers + (if data.value.isFollowing then -1 else 1)
      && r.value == data.value.(isFollowing := r.value.isFollowing, followers := r.value.followers)
  {
    if data.None? then None
    else
      var d := data.value;
      Some(d.(isFollowing := !d.isFollowing, followers := if d.isFollowing then d.followers - 1 else d.followers + 1))
  }

  /** Following and unfollowing restores the user data. */
  lemma FollowTwice(data: Option<UserData>)
    ensures Follow(Follow(data)) == data
  {
  }

  /** `handleSaveRoom(roomId)` on the saved-room list: the rooms with that id
      flip their saved flag, every other room stays, in the same order. */
  function ToggleSaved(rooms: seq<SavedRoom>, roomId: string): (r: seq<SavedRoom>)
    ensures |r| == |rooms|
    ensures forall i :: 0 <= i < |rooms| && rooms[i].id == roomId ==> r[i] == rooms[i].(saved := !rooms[i].saved)
    ensures forall i :: 0 <= i < |rooms| && rooms[i].id != roomId ==> r[i] == rooms[i]
  {
    seq(|rooms|, i requires 0 <= i < |rooms| =>
      if rooms[i].id == roomId then rooms[i].(saved := !rooms[i].saved) else rooms[i])
  }

  function SaveRoom(data: Option<UserData>, roomId: string): (r: Option<UserData>)
    ensures data.None? ==> r.None?
    ensures data.Some? ==> r == Some(data.value.(savedRooms := ToggleSaved(data.value.savedRooms, roomId)))
  {
    if data.None? then None else Some(data.value.(savedRooms := ToggleSaved(data.value.savedRooms, roomId)))
  }

  /** Saving the same room twice restores the list. */
  lemma SaveRoomTwice(data: Option<UserData>, roomId: string)
    ensures SaveRoom(SaveRoom(data, roomId), roomId) == data
  {
    if data.Some? {
      var rooms := data.value.savedRooms;
      assert ToggleSaved(ToggleSaved(rooms, roomId), roomId) == rooms;
    }
  }

  /** Saving a room that is not in the list changes nothing. */
  lemma SaveAbsentRoom(data: Option<UserData>, roomId: string)
    requires data.Some? ==> forall i :: 0 <= i < |data.value.savedRooms| ==> data.value.savedRooms[i].id != roomId
    ensures SaveRoom(data, roomId) == data
  {
    if data.Some? {
      assert ToggleSaved(data.value.savedRooms, roomId) == data.value.savedRooms;
    }
  }
}
