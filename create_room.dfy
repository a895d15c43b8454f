/** The create-room form's submit handler: the checks made before anything
    is written, the room row and the creator's participant row it inserts,
    and where the page goes afterwards. */
module CreateRoomPage {
  import opened Common
  import opened Text

  datatype AuthUser = AuthUser(id: string)

  datatype Form = Form(title: string, description: string, topic: string, isScheduled: bool)

  datatype RoomInsert = RoomInsert(creatorId: string, title: string, description: string, topic: string, isActive: bool)

  datatype CreatorInsert = CreatorInsert(roomId: string, userId: string, isSpeaker: bool, isModerator: bool, isMuted: bool)

  /** How a submit ends: turned away with a message before any write, a
      write that failed, or a navigation. */
  datatype Outcome = Rejected(message: string) | Failed | NavigateTo(path: string)

  /** What a submit sent and how it ended. */
  datatype Submission = Submission(room: Option<RoomInsert>, creator: Option<CreatorInsert>, outcome: Outcome)

  /** The checks in the order the handler makes them: a blank title first,
      then a missing topic, then a missing user or profile. */
  function Check(form: Form, user: Option<AuthUser>, hasProfile: bool): (r: Option<string>)
    ensures IsBlank(form.title) ==> r == Some("Please enter a room title")
    ensures !IsBlank(form.title) && form.topic == "" ==> r == Some("Please select a topic")
    ensures !IsBlank(form.title) && form.topic != "" && (user.None? || !hasProfile) ==>
      r == Some("You must be logged in to create a room")
    ensures r.None? <==> !IsBlank(form.title) && form.topic != "" && user.Some? && hasProfile
  {
    if Trim(form.title) == "" then Some("Please enter a room title")
    else if form.topic == "" then Some("Please select a topic")
    else if user.None? || !hasProfile then Some("You must be logged in to create a room")
    else None
  }

  /** The room row: created by the signed-in user, live at once unless it
      is scheduled. */
  function RoomPayload(form: Form, user: AuthUser): (r: RoomInsert)
    ensures r.creatorId == user.id && r.title == form.title && r.description == form.description && r.topic == form.topic
    ensures r.isActive <==> !form.isScheduled
  {
    RoomInsert(user.id, form.title, form.description, form.topic, !form.isScheduled)
  }

  /** The creator enters the room as an unmuted speaking moderator. */
  function CreatorPayload(roomId: string, user: AuthUser): (r: CreatorInsert)
    ensures r.roomId == roomId && r.userId == user.id
    ensures r.isSpeaker && r.isModerator && !r.isMuted
  {
    CreatorInsert(roomId, user.id, true, true, false)
  }

  /** `handleCreateRoom`, given the id of the inserted room (`None` when
      that insert failed) and whether the creator's row was inserted. */
  function CreateRoom(form: Form, user: Option<AuthUser>, hasProfile: bool,
                      createdRoomId: Option<string>, creatorInserted: bool): (s: Submission)
    ensures Check(form, user, hasProfile).Some? ==>
      s == Submission(None, None, Rejected(Check(form, user, hasProfile).value))
    ensures Check(form, user, hasProfile).None? ==>
      && user.Some?
      && s.room == Some(RoomPayload(form, user.value))
      && (createdRoomId.None? ==> s.creator.None? && s.outcome == Failed)
      && (createdRoomId.Some? ==> s.creator == Some(CreatorPayload(createdRoomId.value, user.value)))
      && (createdRoomId.Some? && !creatorInserted ==> s.outcome == Failed)
      && (createdRoomId.Some? && creatorInserted ==>
            s.outcome == NavigateTo(if form.isScheduled then "/" else "/room/" + createdRoomId.value))
  {
    var check := Check(form, user, hasProfile);
    if check.Some? then Submission(None, None, Rejected(check.value))
    else
      var room := RoomPayload(form, user.value);
      if createdRoomId.None? then Submission(Some(room), None, Failed)
      else
        var creator := CreatorPayload(createdRoomId.value, user.value);
        if !creatorInserted then Submission(Some(room), Some(creator), Failed)
        else Submission(Some(room), Some(creator), NavigateTo(if form.isScheduled then "/" else "/room/" + createdRoomId.value))
  }

  /** A room that the page opens right after creating it is live, and its
      creator can speak there at once. */
  lemma OpenedRoomIsLive(form: Form, user: Option<AuthUser>, hasProfile: bool, roomId: string)
    requires CreateRoom(form, user, hasProfile, Some(roomId), true).outcome == NavigateTo("/room/" + roomId)
    ensures var s := CreateRoom(form, user, hasProfile, Some(roomId), true);
      s.room.Some? && s.room.value.isActive && s.creator.Some? && s.creator.value.isSpeaker && !s.creator.value.isMuted
  {
    assert "/room/" + roomId != "/" by {
      assert ("/room/" + roomId)[1] == 'r';
    }
  }
}
