/** The room page: joining fetched participant and message rows with the
    profiles of their users, the payloads the page writes when the user
    joins, asks to speak, toggles mute or sends a message, and the page
    state those handlers set. */
module RoomPage {
  import opened Common
  import opened Seqs
  import opened Text

  /** A `profiles` row, or the placeholder that stands in for a missing one. */
  datatype UserProfile = UserProfile(id: string, username: Option<string>, fullName: Option<string>, avatarUrl: Option<string>)

  /** A `room_participants` row; the flags are nullable columns. */
  datatype ParticipantRow = ParticipantRow(
    id: string,
    roomId: string,
    userId: string,
    isSpeaker: Option<bool>,
    isModerator: Option<bool>,
    isMuted: Option<bool>,
    pendingRequest: Option<bool>)

  /** `{ ...participant, user }`. */
  datatype RoomParticipant = RoomParticipant(row: ParticipantRow, user: UserProfile)

  /** A `messages` row. */
  datatype MessageRow = MessageRow(id: string, roomId: string, userId: string, content: string)

  datatype Message = Message(row: MessageRow, user: UserProfile)

  /** The signed-in user and that user's own profile, as the auth context holds them. */
  datatype AuthUser = AuthUser(id: string)
  datatype AuthProfile = AuthProfile(username: Option<string>, fullName: Option<string>, avatarUrl: Option<string>)

  datatype RoomRow = RoomRow(id: string, creatorId: string)

  /** Who the profile of a user without a `profiles` row is shown as. */
  function Placeholder(userId: string): (u: UserProfile)
    ensures u.id == userId
    ensures u.username == Some("Unknown") && u.fullName == Some("Unknown User") && u.avatarUrl.None?
  {
    UserProfile(userId, Some("Unknown"), Some("Unknown User"), None)
  }

  /** The map built by `profilesMap.set(profile.id, profile)` for each
      fetched profile in turn: a later profile with the same id replaces an
      earlier one. */
  ghost function ProfilesMap(profiles: seq<UserProfile>): map<string, UserProfile>
  {
    if profiles == [] then map[]
    else ProfilesMap(profiles[..|profiles| - 1])[profiles[|profiles| - 1].id := profiles[|profiles| - 1]]
  }

  /** The profiles map has one key per fetched id. */
  lemma {:induction false} ProfilesMapKeys(profiles: seq<UserProfile>)
    ensures forall k :: k in ProfilesMap(profiles) <==> exists p :: p in profiles && p.id == k
  {
    if profiles != [] {
      var init := profiles[..|profiles| - 1];
      ProfilesMapKeys(init);
      assert forall p :: p in profiles <==> p in init || p == profiles[|profiles| - 1];
    }
  }

  /** Each key holds the last fetched profile with that id. */
  lemma {:induction false} ProfilesMapLast(profiles: seq<UserProfile>, i: nat)
    requires i < |profiles|
    requires forall j :: i < j < |profiles| ==> profiles[j].id != profiles[i].id
    ensures profiles[i].id in ProfilesMap(profiles) && ProfilesMap(profiles)[profiles[i].id] == profiles[i]
  {
    var init := profiles[..|profiles| - 1];
    if i < |profiles| - 1 {
      assert init[i] == profiles[i];
      assert forall j :: i < j < |init| ==> init[j] == profiles[j];
      ProfilesMapLast(init, i);
    }
  }

  /** The `forEach` loop that fills the profiles map. */
  method BuildProfilesMap(profiles: seq<UserProfile>) returns (m: map<string, UserProfile>)
    ensures m == ProfilesMap(profiles)
  {
    m := map[];
    var i := 0;
    while i < |profiles|
      invariant 0 <= i <= |profiles|
      invariant m == ProfilesMap(profiles[..i])
    {
      assert profiles[..i + 1][..i] == profiles[..i];
      m := m[profiles[i].id := profiles[i]];
      i := i + 1;
    }
    assert profiles[..i] == profiles;
  }

  /** `profilesMap.get(userId) || placeholder`. */
  function ProfileFor(profiles: map<string, UserProfile>, userId: string): (u: UserProfile)
    ensures userId in profiles ==> u == profiles[userId]
    ensures userId !in profiles ==> u == Placeholder(userId)
  {
    if userId in profiles then profiles[userId] else Placeholder(userId)
  }

  /** The participants of one group with their profiles: one entry per
      fetched row, in fetched order, each row kept as it was. */
  function JoinParticipants(rows: seq<ParticipantRow>, profiles: map<string, UserProfile>): (r: seq<RoomParticipant>)
    ensures |r| == |rows|
    ensures forall i :: 0 <= i < |rows| ==> r[i].row == rows[i] && r[i].user == ProfileFor(profiles, rows[i].userId)
  {
    seq(|rows|, i requires 0 <= i < |rows| => RoomParticipant(rows[i], ProfileFor(profiles, rows[i].userId)))
  }

  /** The messages with their authors' profiles, in fetched order. */
  function JoinMessages(rows: seq<MessageRow>, profiles: map<string, UserProfile>): (r: seq<Message>)
    ensures |r| == |rows|
    ensures forall i :: 0 <= i < |rows| ==> r[i].row == rows[i] && r[i].user == ProfileFor(profiles, rows[i].userId)
  {
    seq(|rows|, i requires 0 <= i < |rows| => Message(rows[i], ProfileFor(profiles, rows[i].userId)))
  }

  function AuthorIds(rows: seq<MessageRow>): (r: seq<string>)
    ensures |r| == |rows| && forall i :: 0 <= i < |rows| ==> r[i] == rows[i].userId
  {
    seq(|rows|, i requires 0 <= i < |rows| => rows[i].userId)
  }

  /** `[...new Set(messages.map(m => m.user_id))]`: the ids asked for
      name every author once. */
  function MessageAuthorIds(rows: seq<MessageRow>): (r: seq<string>)
    ensures NoDuplicates(r)
    ensures forall id :: id in r <==> exists i :: 0 <= i < |rows| && rows[i].userId == id
    ensures |r| <= |rows|
  {
    var ids := AuthorIds(rows);
    assert forall id :: id in ids <==> exists i :: 0 <= i < |rows| && rows[i].userId == id by {
      forall id | id in ids ensures exists i :: 0 <= i < |rows| && rows[i].userId == id {
        var i :| 0 <= i < |ids| && ids[i] == id;
      }
    }
    Dedup(ids)
  }

  /** When the profile query answers every id it was asked for, no message
      is shown with the placeholder author. */
  lemma AnsweredProfilesNoPlaceholder(rows: seq<MessageRow>, profiles: seq<UserProfile>)
    requires forall id :: id in MessageAuthorIds(rows) ==> exists p :: p in profiles && p.id == id
    ensures forall i :: 0 <= i < |rows| ==>
      rows[i].userId in ProfilesMap(profiles) &&
      JoinMessages(rows, ProfilesMap(profiles))[i].user == ProfilesMap(profiles)[rows[i].userId]
      && ProfilesMap(profiles)[rows[i].userId] in profiles
  {
    ProfilesMapKeys(profiles);
    ProfilesMapValues(profiles);
    forall i | 0 <= i < |rows|
      ensures rows[i].userId in ProfilesMap(profiles)
    {
      assert rows[i].userId in MessageAuthorIds(rows);
    }
  }

  /** Every value of the profiles map is a fetched profile stored under its own id. */
  lemma {:induction false} ProfilesMapValues(profiles: seq<UserProfile>)
    ensures forall k :: k in ProfilesMap(profiles) ==> ProfilesMap(profiles)[k] in profiles && ProfilesMap(profiles)[k].id == k
  {
    if profiles != [] {
      ProfilesMapValues(profiles[..|profiles| - 1]);
    }
  }

  /** The profile the page shows for the signed-in user. */
  function OwnProfile(user: AuthUser, profile: Option<AuthProfile>): (u: UserProfile)
    ensures u.id == user.id
    ensures u.username == Some(if profile.Some? then OrElse(profile.value.username, "You") else "You")
    ensures u.fullName == Some(if profile.Some? then OrElse(profile.value.fullName, "Current User") else "Current User")
    ensures u.avatarUrl == (if profile.Some? then OrNull(profile.value.avatarUrl) else None)
  {
    UserProfile(
      user.id,
      Some(OrElse(if profile.Some? then profile.value.username else None, "You")),
      Some(OrElse(if profile.Some? then profile.value.fullName else None, "Current User")),
      OrNull(if profile.Some? then profile.value.avatarUrl else None))
  }

  /** The row `handleJoinRoom` inserts. */
  datatype JoinInsert = JoinInsert(roomId: string, userId: string, isSpeaker: bool, isModerator: bool, isMuted: bool)

  /** The creator joins as a speaking moderator, everyone else as a
      listener; every joiner starts muted. A room not loaded yet makes
      nobody its creator. */
  function JoinPayload(roomId: string, user: AuthUser, room: Option<RoomRow>): (r: JoinInsert)
    ensures r.roomId == roomId && r.userId == user.id && r.isMuted
    ensures r.isSpeaker == r.isModerator
    ensures r.isSpeaker <==> room.Some? && room.value.creatorId == user.id
  {
    var creator := room.Some? && user.id == room.value.creatorId;
    JoinInsert(roomId, user.id, creator, creator, true)
  }

  /** The update `handleRequestToSpeak` writes: a muted listener with a
      pending request, keeping the moderator flag of the row it fetched. */
  datatype SpeakRequest = SpeakRequest(isSpeaker: bool, isMuted: bool, isModerator: Option<bool>, pendingRequest: bool)

  function RequestToSpeakPayload(fetched: ParticipantRow): (r: SpeakRequest)
    ensures !r.isSpeaker && r.isMuted && r.pendingRequest
    ensures r.isModerator == fetched.isModerator
  {
    SpeakRequest(false, true, fetched.isModerator, true)
  }

  /** The row after the request is written to it: only the speaker, mute
      and request columns change. */
  function ApplySpeakRequest(row: ParticipantRow, u: SpeakRequest): (r: ParticipantRow)
    ensures r.id == row.id && r.roomId == row.roomId && r.userId == row.userId
    ensures r.isSpeaker == Some(u.isSpeaker) && r.isMuted == Some(u.isMuted)
    ensures r.isModerator == u.isModerator && r.pendingRequest == Some(u.pendingRequest)
  {
    row.(isSpeaker := Some(u.isSpeaker), isMuted := Some(u.isMuted), isModerator := u.isModerator,
         pendingRequest := Some(u.pendingRequest))
  }

  /** Writing a request fetched from the same row keeps its moderator flag
      and turns the row into a muted, non-speaking one with a pending request. */
  lemma RequestKeepsModerator(row: ParticipantRow)
    ensures ApplySpeakRequest(row, RequestToSpeakPayload(row))
      == row.(isSpeaker := Some(false), isMuted := Some(true), pendingRequest := Some(true))
  {
  }

  /** The listener count in the heading counts the user in exactly when the
      user has joined without being a speaker. */
  function ListenerCount(listeners: nat, isJoined: bool, isSpeaker: bool): (r: nat)
    ensures r == listeners || r == listeners + 1
    ensures r == listeners + 1 <==> isJoined && !isSpeaker
  {
    listeners + (if isJoined && !isSpeaker then 1 else 0)
  }

  /** `handleSendMessage` goes ahead only for a signed-in user with a
      message that is not blank. */
  predicate MaySend(messageText: string, user: Option<AuthUser>)
  {
    Trim(messageText) != "" && user.Some?
  }

  lemma MaySendIff(messageText: string, user: Option<AuthUser>)
    ensures MaySend(messageText, user) <==> !IsBlank(messageText) && user.Some?
  {
  }

  datatype MessageInsert = MessageInsert(roomId: string, userId: string, content: string)

  /** The state the room page keeps about the signed-in user's place in the room. */
  class RoomView {
    const roomId: string
    var isJoined: bool
    var isSpeaker: bool
    var isModerator: bool
    var isMuted: bool
    var currentParticipant: Option<RoomParticipant>
    var messageText: string

    /** The state before anything is known: not joined, muted. */
    constructor (roomId: string)
      ensures this.roomId == roomId
      ensures !isJoined && !isSpeaker && !isModerator && isMuted && currentParticipant.None? && messageText == ""
    {
      this.roomId := roomId;
      isJoined := false;
      isSpeaker := false;
      isModerator := false;
      isMuted := true;
      currentParticipant := None;
      messageText := "";
    }

    /** The state of someone who is not in the room. */
    ghost predicate Outside()
      reads this
    {
      !isJoined && !isSpeaker && !isModerator && isMuted && currentParticipant.None?
    }

    /** `checkUserParticipation()`, given the row the participant query
        found (`None` when the user has no row; `found` is false when the
        query failed, which changes nothing). A found row sets the flags
        from its columns, the mute flag always to true, and records the
        user's own profile with the request flag made definite. */
    method CheckUserParticipation(user: Option<AuthUser>, roomLoaded: bool, profile: Option<AuthProfile>,
                                  found: bool, data: Option<ParticipantRow>)
      modifies this
      ensures !(user.Some? && roomLoaded && found) ==>
        isJoined == old(isJoined) && isSpeaker == old(isSpeaker) && isModerator == old(isModerator)
        && isMuted == old(isMuted) && currentParticipant == old(currentParticipant)
      ensures user.Some? && roomLoaded && found && data.None? ==> Outside()
      ensures user.Some? && roomLoaded && found && data.Some? ==>
        && isJoined && isMuted
        && isSpeaker == TruthyBool(data.value.isSpeaker) && isModerator == TruthyBool(data.value.isModerator)
        && currentParticipant == Some(RoomParticipant(
             data.value.(pendingRequest := Some(TruthyBool(data.value.pendingRequest))),
             OwnProfile(user.value, profile)))
      ensures messageText == old(messageText)
    {
      if user.None? || !roomLoaded {
        return;
      }
      if !found {
        return;
      }
      if data.Some? {
        isJoined := true;
        isSpeaker := TruthyBool(data.value.isSpeaker);
        isModerator := TruthyBool(data.value.isModerator);
        isMuted := MutedAfterCheck(data.value.isMuted);
        var hasRequested := TruthyBool(data.value.pendingRequest);
        currentParticipant := Some(RoomParticipant(
          data.value.(pendingRequest := Some(hasRequested)), OwnProfile(user.value, profile)));
      } else {
        ResetToOutside();
      }
    }

    /** The five setters run when the user turns out not to be in the room
        and after leaving it. */
    method ResetToOutside()
      modifies this`isJoined, this`isSpeaker, this`isModerator, this`isMuted, this`currentParticipant
      ensures Outside()
    {
      isJoined := false;
      isSpeaker := false;
      isModerator := false;
      isMuted := true;
      currentParticipant := None;
    }

    /** `handleJoinRoom()`: without a user nothing is inserted and the page
        goes to sign-in; otherwise the insert is sent, and when it comes
        back with the new row the user is in the room as creator or
        listener. */
    method JoinRoom(user: Option<AuthUser>, room: Option<RoomRow>, profile: Option<AuthProfile>,
                    inserted: Option<ParticipantRow>)
      returns (payload: Option<JoinInsert>, toSignIn: bool)
      modifies this`isJoined, this`isSpeaker, this`isModerator, this`currentParticipant
      ensures toSignIn <==> user.None?
      ensures user.None? ==> payload.None?
      ensures user.Some? ==> payload == Some(JoinPayload(roomId, user.value, room))
      ensures user.Some? && inserted.Some? ==>
        && isJoined
        && isSpeaker == payload.value.isSpeaker && isModerator == payload.value.isModerator
        && currentParticipant == Some(RoomParticipant(inserted.value, OwnProfile(user.value, profile)))
      ensures !(user.Some? && inserted.Some?) ==>
        isJoined == old(isJoined) && isSpeaker == old(isSpeaker) && isModerator == old(isModerator)
        && currentParticipant == old(currentParticipant)
    {
      if user.None? {
        return None, true;
      }
      var insert := JoinPayload(roomId, user.value, room);
      payload, toSignIn := Some(insert), false;
      if inserted.Some? {
        isJoined := true;
        isSpeaker := insert.isSpeaker;
        isModerator := insert.isModerator;
        currentParticipant := Some(RoomParticipant(inserted.value, OwnProfile(user.value, profile)));
      }
    }

    /** `handleLeaveRoom()`: with a user and a participant row, the row is
        deleted (`deleted` tells whether that succeeded) and the page is
        back outside the room. */
    method LeaveRoom(user: Option<AuthUser>, deleted: bool) returns (deleteId: Option<string>)
      modifies this`isJoined, this`isSpeaker, this`isModerator, this`isMuted, this`currentParticipant
      ensures user.None? || old(currentParticipant).None? ==>
        deleteId.None? && isJoined == old(isJoined) && isSpeaker == old(isSpeaker)
        && isModerator == old(isModerator) && isMuted == old(isMuted) && currentParticipant == old(currentParticipant)
      ensures user.Some? && old(currentParticipant).Some? ==> deleteId == Some(old(currentParticipant).value.row.id)
      ensures user.Some? && old(currentParticipant).Some? && deleted ==> Outside()
      ensures user.Some? && old(currentParticipant).Some? && !deleted ==>
        isJoined == old(isJoined) && isSpeaker == old(isSpeaker)
        && isModerator == old(isModerator) && isMuted == old(isMuted) && currentParticipant == old(currentParticipant)
    {
      if user.None? || currentParticipant.None? {
        return None;
      }
      deleteId := Some(currentParticipant.value.row.id);
      if deleted {
        ResetToOutside();
      }
    }

    /** `handleToggleMute()`: writes the negated mute flag and, when the
        write succeeds, stores it. */
    method ToggleMute(user: Option<AuthUser>, written: bool) returns (newMuted: Option<bool>)
      modifies this`isMuted
      ensures user.None? || currentParticipant.None? ==> newMuted.None? && isMuted == old(isMuted)
      ensures user.Some? && currentParticipant.Some? ==> newMuted == Some(!old(isMuted))
      ensures user.Some? && currentParticipant.Some? ==> isMuted == (if written then !old(isMuted) else old(isMuted))
    {
      if user.None? || currentParticipant.None? {
        return None;
      }
      newMuted := Some(!isMuted);
      if written {
        isMuted := newMuted.value;
      }
    }

    /** `handleRequestToSpeak()`: given the row fetched for the current
        participant, sends the request update and, when it is written,
        marks the current participant as waiting. */
    method RequestToSpeak(user: Option<AuthUser>, fetched: Option<ParticipantRow>, written: bool)
      returns (payload: Option<SpeakRequest>)
      modifies this`currentParticipant
      ensures user.None? || old(currentParticipant).None? || fetched.None? ==>
        payload.None? && currentParticipant == old(currentParticipant)
      ensures user.Some? && old(currentParticipant).Some? && fetched.Some? ==>
        payload == Some(RequestToSpeakPayload(fetched.value))
      ensures user.Some? && old(currentParticipant).Some? && fetched.Some? && written ==>
        currentParticipant == Some(old(currentParticipant).value.(row := old(currentParticipant).value.row.(pendingRequest := Some(true))))
      ensures !written ==> currentParticipant == old(currentParticipant)
    {
      if user.None? || currentParticipant.None? || fetched.None? {
        return None;
      }
      payload := Some(RequestToSpeakPayload(fetched.value));
      if written {
        var cp := currentParticipant.value;
        currentParticipant := Some(cp.(row := cp.row.(pendingRequest := Some(true))));
      }
    }

    /** `handleSendMessage()`: a blank message or a missing user sends
        nothing; otherwise the text is inserted as typed, and the input is
        cleared once the insert succeeds. */
    method SendMessage(user: Option<AuthUser>, inserted: bool) returns (insert: Option<MessageInsert>)
      modifies this`messageText
      ensures !MaySend(old(messageText), user) ==> insert.None? && messageText == old(messageText)
      ensures MaySend(old(messageText), user) ==>
        insert == Some(MessageInsert(roomId, user.value.id, old(messageText)))
        && messageText == (if inserted then "" else old(messageText))
    {
      if !MaySend(messageText, user) {
        return None;
      }
      insert := Some(MessageInsert(roomId, user.value.id, messageText));
      if inserted {
        messageText := "";
      }
    }
  }

  /** `data.is_muted || true`: whatever the stored column holds, the page
      shows the user as muted. */
  function MutedAfterCheck(stored: Option<bool>): (r: bool)
    ensures r
  {
    TruthyBool(stored) || true
  }
}
