/** The peer-audio session manager (`WebRTCService`): a registry of remote
    participants, the local microphone stream with its mute flag and the
    three observer lists. Observer callbacks are opaque handles; what the
    callbacks receive is recorded in a ghost log of deliveries, one per
    registered callback per notification, in registration order. */
module PeerAudio {
  import opened Common
  import opened Seqs
  import opened Media

  /** The ICE configuration of every peer connection: two STUN servers, no relay. */
  const StunServers: seq<string> := ["stun:stun.l.google.com:19302", "stun:stun1.l.google.com:19302"]

  /** The message of the error raised when the microphone cannot be opened. */
  const MicrophoneError: string := "Could not access microphone"

  /** A `WebRTCParticipant`: the id, the lazily created inbound stream (as
      its list of tracks: the service is the only writer of that stream), the
      connection to that peer and the last inbound track. */
  datatype Participant = Participant(
    id: string,
    stream: Option<seq<MediaTrack>>,
    connection: Option<PeerConnection>,
    audioTrack: Option<MediaTrack>)

  /** An opaque handle for a registered callback. */
  type CallbackId = nat

  datatype Event =
    | ParticipantAdded(participant: Participant)
    | ParticipantRemoved(participantId: string)
    | MuteChanged(muted: bool)

  /** One invocation of one callback with one event. */
  datatype Delivery = Delivery(callback: CallbackId, event: Event)

  /** The invocations `callbacks.forEach(cb => cb(e))` makes, in order. */
  function Fanout(callbacks: seq<CallbackId>, e: Event): seq<Delivery>
  {
    seq(|callbacks|, i requires 0 <= i < |callbacks| => Delivery(callbacks[i], e))
  }

  /** `log` followed by the deliveries of removing each of `ids` in turn. */
  function AfterRemovals(log: seq<Delivery>, callbacks: seq<CallbackId>, ids: seq<string>): seq<Delivery>
  {
    if ids == [] then log
    else AfterRemovals(log, callbacks, ids[..|ids| - 1]) + Fanout(callbacks, ParticipantRemoved(ids[|ids| - 1]))
  }

  /** One more removal extends the log by one fan-out. */
  lemma AfterRemovalsStep(log: seq<Delivery>, callbacks: seq<CallbackId>, ids: seq<string>, i: nat)
    requires i < |ids|
    ensures AfterRemovals(log, callbacks, ids[..i + 1]) ==
      AfterRemovals(log, callbacks, ids[..i]) + Fanout(callbacks, ParticipantRemoved(ids[i]))
  {
    assert ids[..i + 1][..i] == ids[..i];
  }

  datatype Outcome = Pass | Fail(message: string)

  /** The tracks of a participant's inbound stream, in order. */
  function StreamTracks(p: Participant): seq<MediaTrack>
  {
    if p.stream.Some? then p.stream.value else []
  }

  /** `stream.addTrack(track)` on the participant's inbound stream, created
      empty first when it has none: the track is appended unless the stream
      already holds it. */
  function WithTrack(stream: Option<seq<MediaTrack>>, track: MediaTrack): (r: seq<MediaTrack>)
    ensures track in r
    ensures forall t :: t in r ==> t == track || (stream.Some? && t in stream.value)
    ensures stream.None? ==> r == [track]
    ensures stream.Some? ==> |r| == |stream.value| + (if track in stream.value then 0 else 1)
    ensures stream.Some? ==> r[..|stream.value|] == stream.value
  {
    var tracks := if stream.Some? then stream.value else [];
    if track in tracks then tracks else tracks + [track]
  }

  /** `tracks.forEach(t => { t.enabled = on })`. */
  method SetEnabled(tracks: seq<MediaTrack>, on: bool)
    modifies tracks
    ensures forall t :: t in tracks ==> t.enabled == on && t.stopped == old(t.stopped)
  {
    var i := 0;
    while i < |tracks|
      invariant 0 <= i <= |tracks|
      invariant forall j :: 0 <= j < i ==> tracks[j].enabled == on
      invariant forall t :: t in tracks ==> t.stopped == old(t.stopped)
    {
      tracks[i].enabled := on;
      i := i + 1;
    }
  }

  /** `tracks.forEach(t => t.stop())`. */
  method StopTracks(tracks: seq<MediaTrack>)
    modifies tracks
    ensures forall t :: t in tracks ==> t.stopped && t.enabled == old(t.enabled)
  {
    var i := 0;
    while i < |tracks|
      invariant 0 <= i <= |tracks|
      invariant forall j :: 0 <= j < i ==> tracks[j].stopped
      invariant forall t :: t in tracks ==> t.enabled == old(t.enabled)
    {
      tracks[i].Stop();
      i := i + 1;
    }
  }

  /** The registry is keyed by participant id, every entry has its
      connection, and `order` lists each key exactly once. */
  ghost predicate Registry(ps: map<string, Participant>, order: seq<string>)
  {
    && (forall id :: id in ps ==> ps[id].id == id && ps[id].connection.Some?)
    && NoDuplicates(order)
    && (forall id :: id in order <==> id in ps)
  }

  /** Registering a new id at the end of the order keeps the registry well formed. */
  lemma RegistryInsert(ps: map<string, Participant>, order: seq<string>, p: Participant)
    requires Registry(ps, order)
    requires p.id !in ps && p.connection.Some?
    ensures Registry(ps[p.id := p], order + [p.id])
  {
    assert p.id !in order;
  }

  /** Replacing the entry of a registered id by one with the same id keeps it well formed. */
  lemma RegistryReplace(ps: map<string, Participant>, order: seq<string>, p: Participant)
    requires Registry(ps, order)
    requires p.id in ps && p.connection.Some?
    ensures Registry(ps[p.id := p], order)
  {
  }

  /** Deleting a key from the map and from the order keeps it well formed. */
  lemma RegistryRemove(ps: map<string, Participant>, order: seq<string>, id: string)
    requires Registry(ps, order)
    ensures Registry(ps - {id}, Without(order, id))
  {
    WithoutNoDuplicates(order, id);
  }

  /** The connections held by a registry. */
  function ConnectionsOf(ps: map<string, Participant>): set<PeerConnection>
  {
    set id | id in ps && ps[id].connection.Some? :: ps[id].connection.value
  }

  /** The inbound tracks held by a registry. */
  function TracksOf(ps: map<string, Participant>): set<MediaTrack>
  {
    set id, t | id in ps && t in StreamTracks(ps[id]) :: t
  }

  /** An entry's connection and inbound tracks belong to the registry's footprint. */
  lemma EntryInFootprint(ps: map<string, Participant>, id: string)
    requires id in ps
    ensures ps[id].connection.Some? ==> ps[id].connection.value in ConnectionsOf(ps)
    ensures forall t :: t in StreamTracks(ps[id]) ==> t in TracksOf(ps)
  {
  }

  /** `ps` is what is left of the registry `ps0` while it is being torn
      down: its entries are unchanged entries of `ps0`, and every entry of
      `ps0` that is gone has its connection closed and its inbound tracks
      stopped. */
  ghost predicate TornDown(ps0: map<string, Participant>, ps: map<string, Participant>)
    reads ConnectionsOf(ps0), TracksOf(ps0)
  {
    && (forall id :: id in ps ==> id in ps0 && ps[id] == ps0[id])
    && (forall id :: id in ps0 && id !in ps && ps0[id].connection.Some? ==> ps0[id].connection.value.closed)
    && (forall id, t :: id in ps0 && id !in ps && t in StreamTracks(ps0[id]) ==> t.stopped)
  }

  /** No inbound track of the registry `ps` is one of the local tracks:
      what a peer sends is never the microphone's own track. */
  ghost predicate Apart(local: seq<MediaTrack>, ps: map<string, Participant>)
  {
    forall id, t :: id in ps && t in StreamTracks(ps[id]) ==> t !in local
  }

  /** Apart registries hold none of the local tracks among their inbound tracks. */
  lemma ApartOutside(local: seq<MediaTrack>, ps: map<string, Participant>)
    requires Apart(local, ps)
    ensures forall t :: t in local ==> t !in TracksOf(ps)
  {
  }

  /** Once nothing of `ps0` is left, all of it is torn down. */
  lemma TornDownAll(ps0: map<string, Participant>, ps: map<string, Participant>)
    requires forall id :: id in ps0 ==> ps0[id].connection.Some?
    requires TornDown(ps0, ps) && ps == map[]
    ensures forall id :: id in ps0 ==> ps0[id].connection.value.closed
    ensures forall id, t :: id in ps0 && t in StreamTracks(ps0[id]) ==> t.stopped
  {
  }

  /** Every audio track of the local stream is enabled exactly when the
      session is unmuted. */
  ghost predicate MuteApplied(local: MediaStream?, muted: bool)
    reads local, if local == null then [] else local.tracks
  {
    local != null ==>
      forall i :: 0 <= i < |local.tracks| && local.tracks[i].kind == Audio ==> local.tracks[i].enabled == !muted
  }

  /** The teardown half of `removeParticipant`: closes the entry's
      connection and stops every track of its inbound stream. No `enabled`
      flag changes, so the local mute state survives. */
  method CloseEntry(p: Participant, ghost local: MediaStream?, ghost muted: bool,
                    ghost closed: set<PeerConnection>, ghost stopped: set<MediaTrack>)
    requires MuteApplied(local, muted)
    requires forall c :: c in closed ==> c.closed
    requires forall t :: t in stopped ==> t.stopped
    modifies (if p.connection.Some? then {p.connection.value} else {}), StreamTracks(p)
    ensures p.connection.Some? ==> p.connection.value.closed
    ensures forall t :: t in StreamTracks(p) ==> t.stopped
    ensures MuteApplied(local, muted)
    ensures forall c :: c in closed ==> c.closed
    ensures forall t :: t in stopped ==> t.stopped
  {
    if p.connection.Some? {
      p.connection.value.Close();
    }
    if p.stream.Some? {
      StopTracks(p.stream.value);
    }
  }

  class WebRTCService {
    var localStream: MediaStream?
    /** The registry (a `Map`), with its keys in insertion order in `order`. */
    var participants: map<string, Participant>
    var order: seq<string>
    var isMuted: bool
    var isInitialized: bool
    var addedCallbacks: seq<CallbackId>
    var removedCallbacks: seq<CallbackId>
    var muteCallbacks: seq<CallbackId>
    ghost var log: seq<Delivery>

    /** `localStream.getTracks()`, or none without a local stream. */
    function LocalTracks(): seq<MediaTrack>
      reads this, localStream
    {
      if localStream == null then [] else localStream.tracks
    }

    /** The connections of the registered participants. */
    function Connections(): set<PeerConnection>
      reads this
    {
      ConnectionsOf(participants)
    }

    /** Every track of every registered participant's inbound stream. */
    function RemoteTracks(): set<MediaTrack>
      reads this
    {
      TracksOf(participants)
    }

    /** The connection of `id`, if registered. */
    function EntryConnection(id: string): set<PeerConnection>
      reads this
    {
      if id in participants && participants[id].connection.Some? then {participants[id].connection.value} else {}
    }

    /** The inbound tracks of `id`, if registered. */
    function EntryTracks(id: string): seq<MediaTrack>
      reads this
    {
      if id in participants then StreamTracks(participants[id]) else []
    }

    ghost predicate Valid()
      reads this, localStream, LocalTracks()
    {
      && Registry(participants, order)
      && (isInitialized <==> localStream != null)
      && MuteApplied(localStream, isMuted)
      && Apart(LocalTracks(), participants)
    }

    /** A new session: muted, no local stream, nothing registered, nobody subscribed. */
    constructor ()
      ensures Valid()
      ensures localStream == null && participants == map[] && order == []
      ensures isMuted && !isInitialized
      ensures addedCallbacks == [] && removedCallbacks == [] && muteCallbacks == [] && log == []
    {
      localStream := null;
      participants := map[];
      order := [];
      isMuted := true;
      isInitialized := false;
      addedCallbacks := [];
      removedCallbacks := [];
      muteCallbacks := [];
      log := [];
    }

    /** `onParticipantAdded(cb)`: subscribes `cb` after the earlier subscribers. */
    method OnParticipantAdded(cb: CallbackId)
      modifies this`addedCallbacks
      ensures addedCallbacks == old(addedCallbacks) + [cb]
    {
      addedCallbacks := addedCallbacks + [cb];
    }

    /** `onParticipantRemoved(cb)`. */
    method OnParticipantRemoved(cb: CallbackId)
      modifies this`removedCallbacks
      ensures removedCallbacks == old(removedCallbacks) + [cb]
    {
      removedCallbacks := removedCallbacks + [cb];
    }

    /** `onMuteChanged(cb)`. */
    method OnMuteChanged(cb: CallbackId)
      modifies this`muteCallbacks
      ensures muteCallbacks == old(muteCallbacks) + [cb]
    {
      muteCallbacks := muteCallbacks + [cb];
    }

    /** The callbacks subscribed to the kind of `e`. */
    function Subscribers(e: Event): seq<CallbackId>
      reads this
    {
      match e
      case ParticipantAdded(_) => addedCallbacks
      case ParticipantRemoved(_) => removedCallbacks
      case MuteChanged(_) => muteCallbacks
    }

    /** `notifyParticipantAdded` / `notifyParticipantRemoved` / `notifyMuteChanged`:
        every subscriber of that kind receives `e`, in subscription order. */
    method Notify(e: Event)
      modifies this`log
      ensures log == old(log) + Fanout(Subscribers(e), e)
    {
      var callbacks := Subscribers(e);
      var i := 0;
      while i < |callbacks|
        invariant 0 <= i <= |callbacks|
        invariant log == old(log) + Fanout(callbacks[..i], e)
      {
        assert Fanout(callbacks[..i + 1], e) == Fanout(callbacks[..i], e) + [Delivery(callbacks[i], e)];
        log := log + [Delivery(callbacks[i], e)];
        i := i + 1;
      }
      assert callbacks[..i] == callbacks;
    }

    /** `setMuted(m)`: stores `m`, sets every local audio track's `enabled`
        to `!m`, touches nothing else and notifies mute-changed(m), whether or
        not `m` differs from the old flag. */
    method SetMuted(muted: bool)
      requires Registry(participants, order)
      modifies this`isMuted, this`log, LocalTracks()
      ensures Registry(participants, order) && MuteApplied(localStream, isMuted)
      ensures isMuted == muted
      ensures localStream != null ==> forall i :: 0 <= i < |localStream.tracks| && localStream.tracks[i].kind == Audio ==>
        !localStream.tracks[i].enabled == muted
      ensures forall t :: t in LocalTracks() ==> t.stopped == old(t.stopped) && (t.kind == Video ==> t.enabled == old(t.enabled))
      ensures log == old(log) + Fanout(muteCallbacks, MuteChanged(muted))
    {
      isMuted := muted;
      if localStream != null {
        var audio := localStream.AudioTracks();
        SetEnabled(audio, !muted);
      }
      Notify(MuteChanged(muted));
    }

    /** `toggleMute()`: sets and returns the negation of the previous flag. */
    method ToggleMute() returns (m: bool)
      requires Valid()
      modifies this`isMuted, this`log, LocalTracks()
      ensures Valid()
      ensures m == !old(isMuted) && isMuted == m
      ensures localStream != null ==> forall i :: 0 <= i < |localStream.tracks| && localStream.tracks[i].kind == Audio ==>
        localStream.tracks[i].enabled == !m
      ensures log == old(log) + Fanout(muteCallbacks, MuteChanged(m))
    {
      m := !isMuted;
      SetMuted(m);
    }

    /** `initLocalStream()`: opens the microphone at most once. A first
        success stores the stream, mutes it and marks the session
        initialized; a refusal raises the microphone error and leaves the
        session uninitialized; once initialized nothing changes. */
    method InitLocalStream(answer: MicrophoneAnswer) returns (r: Outcome)
      requires Valid()
      modifies this`localStream, this`isInitialized, this`isMuted, this`log
      ensures Valid()
      ensures participants == old(participants) && order == old(order)
      ensures old(isInitialized) ==>
        r == Pass && localStream == old(localStream) && isMuted == old(isMuted) && isInitialized && log == old(log)
      ensures !old(isInitialized) && answer.Denied? ==>
        r == Fail(MicrophoneError) && !isInitialized && localStream == null && isMuted == old(isMuted) && log == old(log)
      ensures !old(isInitialized) && answer.Granted? ==>
        && r == Pass && isInitialized && isMuted
        && localStream != null && fresh(localStream) && |localStream.tracks| == answer.audioTracks
        && (forall i :: 0 <= i < |localStream.tracks| ==> fresh(localStream.tracks[i]))
        && (forall i :: 0 <= i < |localStream.tracks| ==>
              localStream.tracks[i].kind == Audio && !localStream.tracks[i].enabled && !localStream.tracks[i].stopped)
        && log == old(log) + Fanout(muteCallbacks, MuteChanged(true))
    {
      if isInitialized {
        return Pass;
      }
      var s := RequestMicrophone(answer);
      if s == null {
        return Fail(MicrophoneError);
      }
      localStream := s;
      SetMuted(true);
      isInitialized := true;
      r := Pass;
    }

    /** `createPeerConnection(id)`: a fresh connection to the STUN servers
        that sends every track of the local stream, if there is one (all of
        them, whatever their kind or `enabled` flag). */
    method CreatePeerConnection(participantId: string) returns (pc: PeerConnection)
      ensures fresh(pc) && !pc.closed && pc.iceServers == StunServers
      ensures pc.senders == if localStream == null then [] else localStream.tracks
    {
      pc := new PeerConnection(StunServers);
      if localStream != null {
        var tracks := localStream.tracks;
        var i := 0;
        while i < |tracks|
          invariant 0 <= i <= |tracks|
          invariant pc.senders == tracks[..i] && !pc.closed
        {
          pc.AddTrack(tracks[i]);
          i := i + 1;
        }
      }
    }

    /** `addParticipant(id)`: a known id gives back its entry and changes
        nothing; a new id gets one entry with a fresh connection, goes last
        in the key order and is announced once. */
    method AddParticipant(id: string) returns (p: Participant)
      requires Valid()
      modifies this`participants, this`order, this`log
      ensures Valid()
      ensures id in old(participants) ==>
        p == old(participants)[id] && participants == old(participants) && order == old(order) && log == old(log)
      ensures id !in old(participants) ==>
        && p.id == id && p.stream.None? && p.audioTrack.None? && p.connection.Some?
        && fresh(p.connection.value) && !p.connection.value.closed
        && p.connection.value.iceServers == StunServers
        && p.connection.value.senders == (if localStream == null then [] else localStream.tracks)
        && participants == old(participants)[id := p]
        && order == old(order) + [id]
        && log == old(log) + Fanout(addedCallbacks, ParticipantAdded(p))
    {
      if id in participants {
        return participants[id];
      }
      var pc := CreatePeerConnection(id);
      p := Participant(id, None, Some(pc), None);
      RegistryInsert(participants, order, p);
      participants := participants[id := p];
      order := order + [id];
      Notify(ParticipantAdded(p));
    }

    /** The `ontrack` handler of the connection made for `participantId`:
        for a registered id, adds the track to the inbound stream (created
        if absent), records it as `audioTrack` and announces the entry
        again; for an id no longer registered, does nothing. */
    method HandleTrack(participantId: string, track: MediaTrack)
      requires Valid() && track !in LocalTracks()
      modifies this`participants, this`log
      ensures Valid()
      ensures order == old(order)
      ensures participantId !in old(participants) ==> participants == old(participants) && log == old(log)
      ensures participantId in old(participants) ==>
        var before := old(participants)[participantId];
        var p := Participant(participantId, Some(WithTrack(before.stream, track)), before.connection, Some(track));
        && participants == old(participants)[participantId := p]
        && log == old(log) + Fanout(addedCallbacks, ParticipantAdded(p))
    {
      if participantId !in participants {
        return;
      }
      var before := participants[participantId];
      var p := Participant(participantId, Some(WithTrack(before.stream, track)), before.connection, Some(track));
      ReplaceEntry(p);
    }

    /** The bookkeeping half of the `ontrack` handler: the updated entry
        replaces the old one under the same key and is announced again. */
    method ReplaceEntry(p: Participant)
      requires Valid() && p.id in participants && p.connection.Some?
      requires forall t :: t in StreamTracks(p) ==> t !in LocalTracks()
      modifies this`participants, this`log
      ensures Valid()
      ensures participants == old(participants)[p.id := p]
      ensures log == old(log) + Fanout(addedCallbacks, ParticipantAdded(p))
    {
      RegistryReplace(participants, order, p);
      participants := participants[p.id := p];
      Notify(ParticipantAdded(p));
    }

    /** `removeParticipant(id)`: an absent id changes nothing and announces
        nothing; a present id has its connection closed, every track of its
        inbound stream stopped, its key (and no other) deleted, and one
        removed notification. */
    method RemoveParticipant(id: string)
      requires Valid()
      modifies this`participants, this`order, this`log, EntryConnection(id), EntryTracks(id)
      ensures Valid()
      ensures id !in old(participants) ==>
        participants == old(participants) && order == old(order) && log == old(log)
      ensures id in old(participants) ==>
        && participants == old(participants) - {id}
        && order == Without(old(order), id)
        && old(participants)[id].connection.value.closed
        && (forall t :: t in StreamTracks(old(participants)[id]) ==> t.stopped)
        && log == old(log) + Fanout(removedCallbacks, ParticipantRemoved(id))
    {
      if id !in participants {
        return;
      }
      RemoveEntry(id, {}, {});
    }

    /** Closes, stops and drops the registered entry `id`; connections in
        `closed` stay closed and tracks in `stopped` stay stopped. */
    method RemoveEntry(id: string, ghost closed: set<PeerConnection>, ghost stopped: set<MediaTrack>)
      requires Valid() && id in participants
      requires forall c :: c in closed ==> c.closed
      requires forall t :: t in stopped ==> t.stopped
      modifies this`participants, this`order, this`log, EntryConnection(id), EntryTracks(id)
      ensures Valid()
      ensures participants == old(participants) - {id}
      ensures order == Without(old(order), id)
      ensures log == old(log) + Fanout(removedCallbacks, ParticipantRemoved(id))
      ensures old(participants)[id].connection.value.closed
      ensures forall t :: t in StreamTracks(old(participants)[id]) ==> t.stopped
      ensures forall c :: c in closed ==> c.closed
      ensures forall t :: t in stopped ==> t.stopped
    {
      var p := participants[id];
      CloseEntry(p, localStream, isMuted, closed, stopped);
      DropEntry(id);
    }

    /** The bookkeeping half of `removeParticipant`: the key leaves the map
        and the order, and the removal is announced. */
    method DropEntry(id: string)
      requires Valid() && id in participants
      modifies this`participants, this`order, this`log
      ensures Valid()
      ensures participants == old(participants) - {id} && order == Without(old(order), id)
      ensures log == old(log) + Fanout(removedCallbacks, ParticipantRemoved(id))
    {
      RegistryRemove(participants, order, id);
      participants := participants - {id};
      order := Without(order, id);
      Notify(ParticipantRemoved(id));
    }

    /** The teardown loop of `setupPeerConnections` and `leaveRoom`: removes
        every participant, visiting the keys in insertion order. Afterwards
        the registry is empty, every former connection is closed, every
        former inbound track is stopped, and one removed notification per
        former key was delivered, in insertion order. */
    method RemoveAllParticipants()
      requires Valid()
      modifies this`participants, this`order, this`log, Connections(), RemoteTracks()
      ensures Valid()
      ensures participants == map[] && order == []
      ensures log == AfterRemovals(old(log), removedCallbacks, old(order))
      ensures forall id :: id in old(participants) ==> old(participants)[id].connection.value.closed
      ensures forall id, t :: id in old(participants) && t in StreamTracks(old(participants)[id]) ==> t.stopped
    {
      var ids := order;
      ghost var ps0, log0 := participants, log;
      var i := 0;
      while i < |ids|
        invariant 0 <= i <= |ids|
        invariant Valid()
        invariant order == ids[i..]
        invariant log == AfterRemovals(log0, removedCallbacks, ids[..i])
        invariant TornDown(ps0, participants)
      {
        AfterRemovalsStep(log0, removedCallbacks, ids, i);
        EntryInFootprint(ps0, ids[i]);
        assert ids[i..][1..] == ids[i + 1..];
        RemoveFirst(ps0);
        i := i + 1;
      }
      assert ids[..i] == ids;
      TornDownAll(ps0, participants);
    }

    /** Removes the oldest registered participant (see `RemoveEntry`); what
        was torn down of `ps0` stays torn down. */
    method RemoveFirst(ghost ps0: map<string, Participant>)
      requires Valid() && order != []
      requires TornDown(ps0, participants)
      modifies this`participants, this`order, this`log, EntryConnection(order[0]), EntryTracks(order[0])
      ensures Valid()
      ensures participants == old(participants) - {old(order)[0]}
      ensures order == old(order)[1..]
      ensures log == old(log) + Fanout(removedCallbacks, ParticipantRemoved(old(order)[0]))
      ensures TornDown(ps0, participants)
    {
      WithoutHead(order);
      ghost var gone := set id | id in ps0 && id !in participants;
      ghost var closed := set id | id in gone && ps0[id].connection.Some? :: ps0[id].connection.value;
      ghost var stopped := set id, t | id in gone && t in StreamTracks(ps0[id]) :: t;
      var head := order[0];
      ghost var before := participants;
      RemoveEntry(head, closed, stopped);
      forall id | id in ps0 && id !in participants && ps0[id].connection.Some?
        ensures ps0[id].connection.value.closed
      {
        if id != head {
          assert id in gone;
          assert ps0[id].connection.value in closed;
        } else {
          assert before[head] == ps0[head];
        }
      }
      forall id, t | id in ps0 && id !in participants && t in StreamTracks(ps0[id])
        ensures t.stopped
      {
        if id != head {
          assert id in gone;
          assert t in stopped;
        } else {
          assert before[head] == ps0[head];
        }
      }
    }

    /** `setupPeerConnections(roomId, userId)`: drops every existing
        connection; no signalling happens, so nothing new is connected. */
    method SetupPeerConnections(roomId: string, userId: string)
      requires Valid()
      modifies this`participants, this`order, this`log, Connections(), RemoteTracks()
      ensures Valid()
      ensures participants == map[] && order == []
      ensures log == AfterRemovals(old(log), removedCallbacks, old(order))
      ensures forall id :: id in old(participants) ==> old(participants)[id].connection.value.closed
      ensures forall id, t :: id in old(participants) && t in StreamTracks(old(participants)[id]) ==> t.stopped
    {
      RemoveAllParticipants();
    }

    /** `joinRoom(roomId, userId, isSpeaker)`: a listener changes nothing;
        a speaker first opens the microphone (once per session; a refusal
        propagates the microphone error and nothing else happens), then
        drops every existing connection. */
    method JoinRoom(roomId: string, userId: string, isSpeaker: bool, answer: MicrophoneAnswer) returns (r: Outcome)
      requires Valid()
      modifies this`localStream, this`isInitialized, this`isMuted, this`participants, this`order, this`log
      modifies Connections(), RemoteTracks()
      ensures Valid()
      ensures r.Fail? <==> isSpeaker && !old(isInitialized) && answer.Denied?
      ensures !isSpeaker || r.Fail? ==>
        && localStream == old(localStream) && isInitialized == old(isInitialized) && isMuted == old(isMuted)
        && participants == old(participants) && order == old(order) && log == old(log)
        && unchanged(Connections()) && unchanged(RemoteTracks())
      ensures r.Fail? ==> r.message == MicrophoneError
      ensures isSpeaker && r.Pass? ==> isInitialized && participants == map[] && order == []
      ensures isSpeaker && old(isInitialized) ==>
        && localStream == old(localStream) && isMuted == old(isMuted)
        && log == AfterRemovals(old(log), removedCallbacks, old(order))
      ensures isSpeaker && r.Pass? && !old(isInitialized) ==>
        && fresh(localStream) && (forall i :: 0 <= i < |localStream.tracks| ==> fresh(localStream.tracks[i])) && isMuted
        && log == AfterRemovals(old(log) + Fanout(muteCallbacks, MuteChanged(true)), removedCallbacks, old(order))
      ensures isSpeaker && r.Pass? ==> forall id :: id in old(participants) ==> old(participants)[id].connection.value.closed
      ensures isSpeaker && r.Pass? ==>
        forall id, t :: id in old(participants) && t in StreamTracks(old(participants)[id]) ==> t.stopped
      ensures LocalTracks() == old(LocalTracks()) || forall i :: 0 <= i < |LocalTracks()| ==> fresh(LocalTracks()[i])
    {
      if !isSpeaker {
        return Pass;
      }
      r := InitLocalStream(answer);
      if r.Fail? {
        return;
      }
      SetupPeerConnections(roomId, userId);
    }

    /** `leaveRoom()`: drops every connection; a session that has a local
        stream keeps it but is muted again (and announces it). */
    method LeaveRoom()
      requires Valid()
      modifies this`participants, this`order, this`log, this`isMuted, Connections(), RemoteTracks(), LocalTracks()
      ensures Valid()
      ensures participants == map[] && order == []
      ensures localStream == old(localStream) && isInitialized == old(isInitialized)
      ensures LocalTracks() == old(LocalTracks())
      ensures isMuted == if localStream != null then true else old(isMuted)
      ensures localStream != null ==> forall i :: 0 <= i < |localStream.tracks| && localStream.tracks[i].kind == Audio ==>
        !localStream.tracks[i].enabled
      ensures log == AfterRemovals(old(log), removedCallbacks, old(order)) +
        (if localStream != null then Fanout(muteCallbacks, MuteChanged(true)) else [])
      ensures forall id :: id in old(participants) ==> old(participants)[id].connection.value.closed
      ensures forall id, t :: id in old(participants) && t in StreamTracks(old(participants)[id]) ==> t.stopped
      ensures forall t :: t in LocalTracks() ==> t.stopped == old(t.stopped)
    {
      ApartOutside(LocalTracks(), participants);
      RemoveAllParticipants();
      MuteKept();
    }

    /** The second half of `leaveRoom()`: a session that has a local stream
        is muted again, and one without a stream is left alone. */
    method MuteKept()
      requires Valid()
      modifies this`isMuted, this`log, LocalTracks()
      ensures Valid()
      ensures isMuted == if localStream != null then true else old(isMuted)
      ensures localStream != null ==> forall i :: 0 <= i < |localStream.tracks| && localStream.tracks[i].kind == Audio ==>
        !localStream.tracks[i].enabled
      ensures log == old(log) + (if localStream != null then Fanout(muteCallbacks, MuteChanged(true)) else [])
      ensures forall t :: t in LocalTracks() ==> t.stopped == old(t.stopped)
    {
      if localStream != null {
        SetMuted(true);
      }
    }

    /** `getLocalStream()`. */
    function GetLocalStream(): MediaStream?
      reads this
    {
      localStream
    }

    /** `isMicrophoneMuted()`. */
    function IsMicrophoneMuted(): bool
      reads this
    {
      isMuted
    }
  }
}
