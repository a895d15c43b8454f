/** The moderator's participant dialog: the field updates each moderation
    action sends for one participant row, and the grouping of the room's
    participants into moderators, speakers, listeners and pending requests. */
module Moderation {
  import opened Common
  import opened Seqs

  datatype UserInfo = UserInfo(id: string, username: string, fullName: string, avatarUrl: string)

  /** A `room_participants` row joined with its user. */
  datatype Participant = Participant(
    id: string,
    roomId: string,
    user: UserInfo,
    isModerator: bool,
    isSpeaker: bool,
    isMuted: bool,
    pendingRequest: Option<bool>)

  /** The object literal given to `update(...)`: `Some(v)` for each field it
      names, `None` for each field it leaves alone. */
  datatype Update = Update(
    isModerator: Option<bool>,
    isSpeaker: Option<bool>,
    isMuted: Option<bool>,
    pendingRequest: Option<bool>)

  /** The row after the update is written to it. */
  function Apply(p: Participant, u: Update): (r: Participant)
    ensures r.id == p.id && r.roomId == p.roomId && r.user == p.user
    ensures r.isModerator == (if u.isModerator.Some? then u.isModerator.value else p.isModerator)
    ensures r.isSpeaker == (if u.isSpeaker.Some? then u.isSpeaker.value else p.isSpeaker)
    ensures r.isMuted == (if u.isMuted.Some? then u.isMuted.value else p.isMuted)
    ensures r.pendingRequest == (if u.pendingRequest.Some? then u.pendingRequest else p.pendingRequest)
  {
    Participant(
      p.id, p.roomId, p.user,
      u.isModerator.OrDefault(p.isModerator),
      u.isSpeaker.OrDefault(p.isSpeaker),
      u.isMuted.OrDefault(p.isMuted),
      if u.pendingRequest.Some? then u.pendingRequest else p.pendingRequest)
  }

  // The groups shown in the dialog.

  predicate InModerators(p: Participant) { p.isModerator }
  predicate InSpeakers(p: Participant) { p.isSpeaker && !p.isModerator }
  predicate InListeners(p: Participant) { !p.isSpeaker && !p.isModerator }
  predicate HasPendingRequest(p: Participant) { TruthyBool(p.pendingRequest) }

  /** `handlePromoteToModerator(id, isModerator)`: flips the moderator flag
      it was given and makes the participant a speaker. */
  function ModeratorToggle(isModerator: bool): (u: Update)
    ensures u.isModerator == Some(!isModerator) && u.isSpeaker == Some(true)
    ensures u.isMuted.None? && u.pendingRequest.None?
  {
    Update(Some(!isModerator), Some(true), None, None)
  }

  /** The moderator toggle, applied to the row it was read from, changes
      exactly the moderator flag and the speaker flag. */
  lemma ModeratorToggleEffect(p: Participant)
    ensures Apply(p, ModeratorToggle(p.isModerator)) == p.(isModerator := !p.isModerator, isSpeaker := true)
  {
  }

  /** Toggling the moderator flag twice restores it; the participant stays a speaker. */
  lemma ModeratorToggleTwice(p: Participant)
    ensures var q := Apply(p, ModeratorToggle(p.isModerator));
      Apply(q, ModeratorToggle(q.isModerator)) == p.(isSpeaker := true)
  {
  }

  /** `handleToggleMute(id, isMuted)`: flips the mute flag it was given. */
  function MuteToggle(isMuted: bool): (u: Update)
    ensures u.isMuted == Some(!isMuted)
    ensures u.isModerator.None? && u.isSpeaker.None? && u.pendingRequest.None?
  {
    Update(None, None, Some(!isMuted), None)
  }

  /** Toggling mute twice restores the row. */
  lemma MuteToggleTwice(p: Participant)
    ensures var q := Apply(p, MuteToggle(p.isMuted));
      q == p.(isMuted := !p.isMuted) && Apply(q, MuteToggle(q.isMuted)) == p
  {
  }

  /** `handlePromoteToSpeaker(id)`: a muted speaker whose request is settled. */
  function PromoteToSpeaker(): (u: Update)
    ensures u.isSpeaker == Some(true) && u.isMuted == Some(true) && u.pendingRequest == Some(false)
    ensures u.isModerator.None?
  {
    Update(None, Some(true), Some(true), Some(false))
  }

  /** A promoted participant is in the speakers group unless it is a
      moderator, and its pending request is gone. */
  lemma PromotedLeavesListeners(p: Participant)
    ensures var q := Apply(p, PromoteToSpeaker());
      !InListeners(q) && !HasPendingRequest(q) && (InSpeakers(q) <==> !p.isModerator)
  {
  }

  /** `handleDemoteFromSpeaker(id)`: a muted listener whose request is settled. */
  function DemoteFromSpeaker(): (u: Update)
    ensures u.isSpeaker == Some(false) && u.isMuted == Some(true) && u.pendingRequest == Some(false)
    ensures u.isModerator.None?
  {
    Update(None, Some(false), Some(true), Some(false))
  }

  /** `handleDenySpeakerRequest(id)`: like a demotion, but it also writes
      back the moderator flag of the row it fetched first. */
  function DenySpeakerRequest(fetched: Participant): (u: Update)
    ensures u.isSpeaker == Some(false) && u.isMuted == Some(true) && u.pendingRequest == Some(false)
    ensures u.isModerator == Some(fetched.isModerator)
  {
    Update(Some(fetched.isModerator), Some(false), Some(true), Some(false))
  }

  /** Denying a request leaves the row exactly as a demotion would: writing
      back the fetched moderator flag changes nothing. */
  lemma DenyIsDemote(p: Participant)
    ensures Apply(p, DenySpeakerRequest(p)) == Apply(p, DemoteFromSpeaker())
    ensures Apply(p, DenySpeakerRequest(p)).isModerator == p.isModerator
  {
  }

  /** A demoted or denied participant that is not a moderator is a listener
      without a pending request; a moderator stays a moderator. */
  lemma DemotedJoinsListeners(p: Participant)
    ensures var q := Apply(p, DemoteFromSpeaker());
      !HasPendingRequest(q) && q.isMuted && (InListeners(q) <==> !p.isModerator) && (InModerators(q) <==> p.isModerator)
    ensures var q := Apply(p, DenySpeakerRequest(p));
      !HasPendingRequest(q) && q.isMuted && (InListeners(q) <==> !p.isModerator) && (InModerators(q) <==> p.isModerator)
  {
  }

  /** `.update(u).eq('id', participantId).eq('room_id', roomId)` on the
      stored rows: the rows with that id in that room take the update, every
      other row is left as it was, and no row is added, removed or moved. */
  function UpdateWhere(rows: seq<Participant>, participantId: string, roomId: string, u: Update): (r: seq<Participant>)
    ensures |r| == |rows|
    ensures forall i :: 0 <= i < |rows| && rows[i].id == participantId && rows[i].roomId == roomId ==>
      r[i] == Apply(rows[i], u)
    ensures forall i :: 0 <= i < |rows| && !(rows[i].id == participantId && rows[i].roomId == roomId) ==>
      r[i] == rows[i]
  {
    seq(|rows|, i requires 0 <= i < |rows| =>
      if rows[i].id == participantId && rows[i].roomId == roomId then Apply(rows[i], u) else rows[i])
  }

  /** Every participant is in exactly one of the moderators, speakers and
      listeners groups, so the three lists together are as long as the
      participant list. */
  lemma {:induction false} GroupsPartition(ps: seq<Participant>)
    ensures forall p :: p in ps ==>
      (InModerators(p) || InSpeakers(p) || InListeners(p)) &&
      !(InModerators(p) && InSpeakers(p)) && !(InModerators(p) && InListeners(p)) && !(InSpeakers(p) && InListeners(p))
    ensures |Filter(ps, InModerators)| + |Filter(ps, InSpeakers)| + |Filter(ps, InListeners)| == |ps|
  {
    FilterPartition(ps, InModerators, InSpeakers, InListeners);
  }

  /** The pending requests are the participants whose request flag is set,
      whatever group they are in, kept in participant order. */
  lemma PendingRequests(ps: seq<Participant>)
    ensures forall p :: p in Filter(ps, HasPendingRequest) <==> p in ps && p.pendingRequest == Some(true)
    ensures IsSubsequence(Filter(ps, HasPendingRequest), ps)
  {
    FilterIsSubsequence(ps, HasPendingRequest);
  }
}
