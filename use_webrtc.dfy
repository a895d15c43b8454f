/** The `useWebRTC` hook: the React state a room page reads (mute flag,
    mirror of the service's participants, connecting and speaking flags),
    the refs of the speaking detector, and the handlers that keep them in
    step with the shared `WebRTCService`. Each handler and effect runs as
    one atomic step. */
module VoiceHook {
  import opened Common
  import opened Seqs
  import opened Media
  import opened PeerAudio

  /** One element of a `Uint8Array`. */
  type Byte = b: int | 0 <= b < 256

  /** `analyser.frequencyBinCount` for `fftSize = 256`. */
  const BinCount: nat := 128

  /** The loudness threshold of the speaking detector. */
  const Threshold: nat := 15

  /** The mean of the bins is strictly above the threshold, stated without
      division: `sum / len > 15` is `sum > 15 * len`. For an empty buffer
      JavaScript computes `0 / 0`, which is not above anything, and so is
      this test. */
  predicate Loud(bins: seq<Byte>) {
    Sum(bins) > Threshold * |bins|
  }

  /** For a non-empty buffer the integer test is the mean test. */
  lemma LoudIsMeanAbove(bins: seq<Byte>)
    requires |bins| > 0
    ensures Loud(bins) <==> (Sum(bins) as real) / (|bins| as real) > Threshold as real
  {
    var s, n := Sum(bins) as real, |bins| as real;
    assert s / n * n == s;
    if s / n > Threshold as real {
      assert s / n * n > Threshold as real * n;
    }
  }

  /** A mean of exactly the threshold is not speaking: the comparison is strict. */
  lemma {:induction false} FlatAtThresholdIsSilent(bins: seq<Byte>)
    requires forall i :: 0 <= i < |bins| ==> bins[i] == Threshold
    ensures !Loud(bins)
  {
    SumConstant(bins, Threshold);
  }

  /** Bins all above the threshold are speaking; bins all at or below it are not. */
  lemma {:induction false} BinBounds(bins: seq<Byte>)
    ensures |bins| > 0 && (forall i :: 0 <= i < |bins| ==> bins[i] > Threshold) ==> Loud(bins)
    ensures (forall i :: 0 <= i < |bins| ==> bins[i] <= Threshold) ==> !Loud(bins)
  {
    if |bins| > 0 && forall i :: 0 <= i < |bins| ==> bins[i] > Threshold {
      SumBounds(bins, Threshold + 1, 255);
    }
    if forall i :: 0 <= i < |bins| ==> bins[i] <= Threshold {
      SumBounds(bins, 0, Threshold);
    }
  }

  /** The averaging loop of the tick: adds the bins one by one and compares
      the mean with the threshold. */
  method MeanAboveThreshold(bins: seq<Byte>) returns (speaking: bool)
    ensures speaking <==> Loud(bins)
  {
    var sum := 0;
    var i := 0;
    while i < |bins|
      invariant 0 <= i <= |bins|
      invariant sum == Sum(bins[..i])
    {
      assert bins[..i + 1][..i] == bins[..i];
      sum := sum + bins[i];
      i := i + 1;
    }
    assert bins[..i] == bins;
    speaking := sum > Threshold * |bins|;
  }

  /** `analyser.getByteFrequencyData(buffer)`: the analyser's current
      frequency data `frame` overwrites the buffer from the start; elements
      beyond the shorter of the two keep their value. */
  function Fill(buffer: seq<Byte>, frame: seq<Byte>): (r: seq<Byte>)
    ensures |r| == |buffer|
    ensures forall i :: 0 <= i < |r| ==> r[i] == if i < |frame| then frame[i] else buffer[i]
  {
    if |frame| >= |buffer| then frame[..|buffer|] else frame + buffer[|frame|..]
  }

  /** The decision of one speaking tick, given the mute flag the tick consults. */
  predicate TickSpeaking(analyserSet: bool, buffer: Option<seq<Byte>>, muted: bool, frame: seq<Byte>) {
    analyserSet && buffer.Some? && !muted && Loud(Fill(buffer.value, frame))
  }

  /** `handleParticipantAdded`: a copy of the map with `p` stored under its id. */
  function MirrorAdded(prev: map<string, Participant>, p: Participant): (r: map<string, Participant>)
    ensures p.id in r && r[p.id] == p
    ensures forall k :: k != p.id ==> (k in r <==> k in prev)
    ensures forall k :: k != p.id && k in prev ==> r[k] == prev[k]
  {
    prev[p.id := p]
  }

  /** `handleParticipantRemoved`: a copy of the map without `id`. */
  function MirrorRemoved(prev: map<string, Participant>, id: string): (r: map<string, Participant>)
    ensures id !in r
    ensures forall k :: k != id ==> (k in r <==> k in prev)
    ensures forall k :: k != id && k in prev ==> r[k] == prev[k]
  {
    prev - {id}
  }

  /** Announcing an entry and then its removal leaves the mirror as it was
      for every other key, and without that key. */
  lemma MirrorAddRemove(prev: map<string, Participant>, p: Participant)
    ensures MirrorRemoved(MirrorAdded(prev, p), p.id) == prev - {p.id}
  {
    assert MirrorRemoved(MirrorAdded(prev, p), p.id).Keys == (prev - {p.id}).Keys;
  }

  /** The hook instance of one mounted room page, bound to the shared service. */
  class WebRTCHook {
    const service: WebRTCService
    const roomId: string
    const userId: string
    const isActive: bool
    var isSpeaker: bool

    var isMuted: bool
    var participants: map<string, Participant>
    var isConnecting: bool
    var isSpeaking: bool

    /** `audioContextRef`, `analyserRef` and `dataArrayRef`. */
    var hasAudioContext: bool
    var hasAnalyser: bool
    var buffer: Option<seq<Byte>>
    /** `speakingCheckIntervalRef`: `Some(m)` while a speaking check is
        scheduled whose closure captured the mute flag `m`. */
    var ticker: Option<bool>

    /** The detector's refs are set and cleared together, and the buffer
        has one element per frequency bin. */
    ghost predicate Valid()
      reads this
    {
      && (hasAudioContext <==> hasAnalyser)
      && (hasAnalyser <==> buffer.Some?)
      && (buffer.Some? ==> |buffer.value| == BinCount)
    }

    /** The first render: muted, no participants, not connecting, not speaking, no detector. */
    constructor (service: WebRTCService, roomId: string, userId: string, isSpeaker: bool, isActive: bool)
      ensures Valid()
      ensures this.service == service && this.roomId == roomId && this.userId == userId
      ensures this.isSpeaker == isSpeaker && this.isActive == isActive
      ensures isMuted && participants == map[] && !isConnecting && !isSpeaking
      ensures !hasAudioContext && !hasAnalyser && buffer.None? && ticker.None?
    {
      this.service := service;
      this.roomId := roomId;
      this.userId := userId;
      this.isSpeaker := isSpeaker;
      this.isActive := isActive;
      isMuted := true;
      participants := map[];
      isConnecting := false;
      isSpeaking := false;
      hasAudioContext := false;
      hasAnalyser := false;
      buffer := None;
      ticker := None;
    }

    /** `handleParticipantAdded(p)`. */
    method HandleParticipantAdded(p: Participant)
      modifies this`participants
      ensures participants == MirrorAdded(old(participants), p)
    {
      participants := participants[p.id := p];
    }

    /** `handleParticipantRemoved(id)`. */
    method HandleParticipantRemoved(id: string)
      modifies this`participants
      ensures participants == MirrorRemoved(old(participants), id)
    {
      participants := participants - {id};
    }

    /** `handleMuteChanged(m)`: mirrors the flag; muting also ends speaking,
        unmuting leaves the speaking flag as it was. */
    method HandleMuteChanged(muted: bool)
      modifies this`isMuted, this`isSpeaking
      ensures isMuted == muted
      ensures isSpeaking == (!muted && old(isSpeaking))
    {
      isMuted := muted;
      if muted {
        isSpeaking := false;
      }
    }

    /** `cleanup()`: cancels the speaking check, releases the detector and
        clears the speaking flag. */
    method Cleanup()
      requires Valid()
      modifies this`ticker, this`hasAudioContext, this`hasAnalyser, this`buffer, this`isSpeaking
      ensures Valid()
      ensures ticker.None? && !hasAudioContext && !hasAnalyser && buffer.None? && !isSpeaking
    {
      if ticker.Some? {
        ticker := None;
      }
      if hasAudioContext {
        hasAudioContext := false;
        hasAnalyser := false;
        buffer := None;
      }
      isSpeaking := false;
    }

    /** `setupAudioAnalyser()`: without a local stream or without
        `AudioContext` support nothing happens; otherwise the detector is
        created with a zeroed buffer of `BinCount` bins and a speaking check
        is scheduled whose closure captures `renderedMuted`, the mute flag of
        the render the calling effect belongs to (a flag set earlier in the
        same effect is not seen). */
    method SetupAudioAnalyser(audioSupported: bool, renderedMuted: bool)
      requires Valid()
      modifies this`hasAudioContext, this`hasAnalyser, this`buffer, this`ticker
      ensures Valid()
      ensures service.localStream == null || !audioSupported ==>
        && hasAudioContext == old(hasAudioContext) && hasAnalyser == old(hasAnalyser)
        && buffer == old(buffer) && ticker == old(ticker)
      ensures service.localStream != null && audioSupported ==>
        && hasAudioContext && hasAnalyser && ticker == Some(renderedMuted)
        && buffer == Some(seq(BinCount, _ => 0))
    {
      var stream := service.GetLocalStream();
      if stream == null || !audioSupported {
        return;
      }
      hasAudioContext := true;
      hasAnalyser := true;
      buffer := Some(seq(BinCount, _ => 0));
      ticker := Some(renderedMuted);
    }

    /** One run of the scheduled speaking check, AS WRITTEN: it consults the
        mute flag its closure captured when it was scheduled, not the
        current one. `frame` is the analyser's current frequency data. */
    method TickAsWritten(frame: seq<Byte>)
      requires Valid()
      modifies this`buffer, this`isSpeaking
      ensures Valid()
      ensures ticker.None? ==> buffer == old(buffer) && isSpeaking == old(isSpeaking)
      ensures ticker.Some? ==> isSpeaking == TickSpeaking(hasAnalyser, old(buffer), ticker.value, frame)
      ensures ticker.Some? ==>
        buffer == if hasAnalyser && old(buffer).Some? && !ticker.value then Some(Fill(old(buffer).value, frame)) else old(buffer)
    {
      if ticker.None? {
        return;
      }
      if hasAnalyser && buffer.Some? && !ticker.value {
        buffer := Some(Fill(buffer.value, frame));
        isSpeaking := MeanAboveThreshold(buffer.value);
      } else {
        isSpeaking := false;
      }
    }

    /** One run of the scheduled speaking check, consulting the current mute
        flag: a muted user is never reported as speaking. */
    method Tick(frame: seq<Byte>)
      requires Valid()
      modifies this`buffer, this`isSpeaking
      ensures Valid()
      ensures ticker.None? ==> buffer == old(buffer) && isSpeaking == old(isSpeaking)
      ensures ticker.Some? ==> isSpeaking == TickSpeaking(hasAnalyser, old(buffer), isMuted, frame)
      ensures ticker.Some? ==>
        buffer == if hasAnalyser && old(buffer).Some? && !isMuted then Some(Fill(old(buffer).value, frame)) else old(buffer)
      ensures isMuted ==> isSpeaking == (ticker.None? && old(isSpeaking))
    {
      if ticker.None? {
        return;
      }
      if hasAnalyser && buffer.Some? && !isMuted {
        buffer := Some(Fill(buffer.value, frame));
        isSpeaking := MeanAboveThreshold(buffer.value);
      } else {
        isSpeaking := false;
      }
    }

    /** `toggleMute()`: a listener gets `undefined` and nothing changes; a
        speaker toggles the service and mirrors the new flag. */
    method ToggleMute() returns (r: Option<bool>)
      requires Valid() && service.Valid()
      modifies this`isMuted, service`isMuted, service`log, service.LocalTracks()
      ensures Valid() && service.Valid()
      ensures !isSpeaker ==>
        r.None? && isMuted == old(isMuted) && service.isMuted == old(service.isMuted) && service.log == old(service.log)
      ensures isSpeaker ==>
        && r == Some(!old(service.isMuted)) && isMuted == !old(service.isMuted) && service.isMuted == isMuted
        && service.log == old(service.log) + Fanout(service.muteCallbacks, MuteChanged(isMuted))
    {
      if !isSpeaker {
        return None;
      }
      var m := service.ToggleMute();
      isMuted := m;
      r := Some(m);
    }

    /** The speaker-change effect, run with the new speaker status. While
        active in a room, the service leaves, and the join is started but
        not awaited: its synchronous part changes nothing, and the rest (the
        microphone request and the teardown that follows it) runs only after
        the effect has finished. So a new speaker is first muted in the
        service and in the hook and gets a detector if it has none, with
        the stream the service held BEFORE the join; a first acquisition
        therefore sets up no detector here. A new listener's detector is
        released. A refused join is not awaited, so it changes nothing. */
    method SpeakerStatusChanged(nowSpeaker: bool, answer: MicrophoneAnswer, audioSupported: bool)
      requires Valid() && service.Valid()
      modifies this`isSpeaker, this`isMuted, this`isSpeaking, this`ticker, this`hasAudioContext, this`hasAnalyser, this`buffer
      modifies service`localStream, service`isInitialized, service`isMuted, service`participants, service`order, service`log
      modifies service.Connections(), service.RemoteTracks(), service.LocalTracks()
      ensures Valid() && service.Valid()
      ensures isSpeaker == nowSpeaker
      ensures !(isActive && roomId != "" && userId != "") ==>
        && isMuted == old(isMuted) && isSpeaking == old(isSpeaking) && ticker == old(ticker)
        && hasAnalyser == old(hasAnalyser) && buffer == old(buffer)
        && service.participants == old(service.participants) && service.isMuted == old(service.isMuted)
        && hasAudioContext == old(hasAudioContext)
        && service.order == old(service.order) && service.log == old(service.log)
        && unchanged(old(service.Connections()), old(service.RemoteTracks()), old(service.LocalTracks()))
      ensures isActive && roomId != "" && userId != "" ==>
        && service.participants == map[] && service.order == []
        && (forall id :: id in old(service.participants) ==> old(service.participants)[id].connection.value.closed)
        && (forall id, t :: id in old(service.participants) && t in StreamTracks(old(service.participants)[id]) ==> t.stopped)
      ensures isActive && roomId != "" && userId != "" && nowSpeaker ==>
        && isMuted && service.isMuted
        && (old(hasAudioContext) ==> hasAnalyser && buffer == old(buffer) && ticker == old(ticker))
        && (!old(hasAudioContext) && old(service.localStream) != null && audioSupported ==>
              hasAnalyser && ticker == Some(old(isMuted)))
        && (!old(hasAudioContext) && (old(service.localStream) == null || !audioSupported) ==>
              !hasAnalyser && ticker == old(ticker))
      ensures isActive && roomId != "" && userId != "" && !nowSpeaker ==>
        ticker.None? && !hasAnalyser && buffer.None? && !isSpeaking
      ensures isActive && roomId != "" && userId != "" && nowSpeaker ==>
        && ((old(service.isInitialized) || answer.Granted?) ==> service.isInitialized && service.localStream != null)
        && (!old(service.isInitialized) && answer.Denied? ==> !service.isInitialized && service.localStream == null)
      ensures !(isActive && roomId != "" && userId != "" && nowSpeaker) ==>
        service.localStream == old(service.localStream) && service.isInitialized == old(service.isInitialized)
    {
      if isActive && roomId != "" && userId != "" {
        ChangeRole(nowSpeaker, answer, audioSupported);
      }
      isSpeaker := nowSpeaker;
    }

    /** The speaker-change effect while active in a room: its synchronous
        part, then the rest of the join it started. */
    method ChangeRole(speaker: bool, answer: MicrophoneAnswer, audioSupported: bool)
      requires Valid() && service.Valid()
      modifies this`isMuted, this`isSpeaking, this`ticker, this`hasAudioContext, this`hasAnalyser, this`buffer
      modifies service`localStream, service`isInitialized, service`isMuted, service`participants, service`order, service`log
      modifies service.Connections(), service.RemoteTracks(), service.LocalTracks()
      ensures Valid() && service.Valid()
      ensures service.participants == map[] && service.order == []
      ensures forall id :: id in old(service.participants) ==> old(service.participants)[id].connection.value.closed
      ensures forall id, t :: id in old(service.participants) && t in StreamTracks(old(service.participants)[id]) ==> t.stopped
      ensures speaker ==>
        && isMuted && service.isMuted
        && (old(hasAudioContext) ==> hasAnalyser && buffer == old(buffer) && ticker == old(ticker))
        && (!old(hasAudioContext) && old(service.localStream) != null && audioSupported ==>
              hasAnalyser && ticker == Some(old(isMuted)))
        && (!old(hasAudioContext) && (old(service.localStream) == null || !audioSupported) ==>
              !hasAnalyser && ticker == old(ticker))
      ensures !speaker ==> ticker.None? && !hasAnalyser && buffer.None? && !isSpeaking
      ensures speaker && (old(service.isInitialized) || answer.Granted?) ==>
        service.isInitialized && service.localStream != null
      ensures speaker && !old(service.isInitialized) && answer.Denied? ==>
        !service.isInitialized && service.localStream == null
      ensures !speaker ==>
        service.localStream == old(service.localStream) && service.isInitialized == old(service.isInitialized)
    {
      Preempt(speaker, audioSupported);
      JoinSettles(speaker, answer);
    }

    /** The rest of the un-awaited join, after the speaker-change effect:
        the registry is already empty, so the join can only acquire the
        microphone; a muted session stays muted. */
    method JoinSettles(speaker: bool, answer: MicrophoneAnswer)
      requires service.Valid() && service.participants == map[] && service.order == []
      modifies service`localStream, service`isInitialized, service`isMuted, service`participants, service`order, service`log
      ensures service.Valid()
      ensures service.participants == map[] && service.order == []
      ensures old(service.isMuted) ==> service.isMuted
      ensures speaker && (old(service.isInitialized) || answer.Granted?) ==>
        service.isInitialized && service.localStream != null
      ensures speaker && !old(service.isInitialized) && answer.Denied? ==>
        !service.isInitialized && service.localStream == null
      ensures !speaker ==>
        service.localStream == old(service.localStream) && service.isInitialized == old(service.isInitialized)
    {
      assert service.Connections() == {} && service.RemoteTracks() == {};
      var _ := ServiceJoin(speaker, answer);
    }

    /** The synchronous part of the speaker-change effect, before the join
        settles: the service leaves, a speaker is muted in the service and
        the hook and gets a detector on the stream already held, and a
        listener's detector is released. */
    method Preempt(speaker: bool, audioSupported: bool)
      requires Valid() && service.Valid()
      modifies this`isMuted, this`isSpeaking, this`ticker, this`hasAudioContext, this`hasAnalyser, this`buffer
      modifies service`isMuted, service`participants, service`order, service`log
      modifies service.Connections(), service.RemoteTracks(), service.LocalTracks()
      ensures Valid() && service.Valid()
      ensures service.participants == map[] && service.order == []
      ensures service.localStream == old(service.localStream)
      ensures forall id :: id in old(service.participants) ==> old(service.participants)[id].connection.value.closed
      ensures forall id, t :: id in old(service.participants) && t in StreamTracks(old(service.participants)[id]) ==> t.stopped
      ensures speaker ==>
        && isMuted && service.isMuted
        && (old(hasAudioContext) ==> hasAnalyser && buffer == old(buffer) && ticker == old(ticker))
        && (!old(hasAudioContext) && service.localStream != null && audioSupported ==>
              hasAnalyser && ticker == Some(old(isMuted)))
        && (!old(hasAudioContext) && (service.localStream == null || !audioSupported) ==>
              !hasAnalyser && ticker == old(ticker))
      ensures !speaker ==> ticker.None? && !hasAnalyser && buffer.None? && !isSpeaking
    {
      LeaveAndMute(speaker);
      ApplyRole(speaker, audioSupported);
    }

    /** The service side of the speaker-change effect before its join
        settles: `leaveRoom()`, then for a speaker `setMuted(true)`. */
    method LeaveAndMute(speaker: bool)
      requires service.Valid()
      modifies service`isMuted, service`participants, service`order, service`log
      modifies service.Connections(), service.RemoteTracks(), service.LocalTracks()
      ensures service.Valid()
      ensures service.participants == map[] && service.order == []
      ensures service.localStream == old(service.localStream)
      ensures forall id :: id in old(service.participants) ==> old(service.participants)[id].connection.value.closed
      ensures forall id, t :: id in old(service.participants) && t in StreamTracks(old(service.participants)[id]) ==> t.stopped
      ensures speaker ==> service.isMuted
    {
      ServiceLeave();
      if speaker {
        ServiceMute();
      }
    }

    /** `service.setMuted(true)`, seen from the hook. */
    method ServiceMute()
      requires service.Valid()
      modifies service`isMuted, service`log, service.LocalTracks()
      ensures service.Valid() && service.isMuted
      ensures forall t :: t in service.LocalTracks() ==> t.stopped == old(t.stopped)
    {
      service.SetMuted(true);
    }

    /** `service.leaveRoom()`, seen from the hook. */
    method ServiceLeave()
      requires service.Valid()
      modifies service`participants, service`order, service`log, service`isMuted
      modifies service.Connections(), service.RemoteTracks(), service.LocalTracks()
      ensures service.Valid()
      ensures service.participants == map[] && service.order == []
      ensures service.localStream == old(service.localStream) && service.LocalTracks() == old(service.LocalTracks())
      ensures service.localStream != null ==> service.isMuted
      ensures forall id :: id in old(service.participants) ==> old(service.participants)[id].connection.value.closed
      ensures forall id, t :: id in old(service.participants) && t in StreamTracks(old(service.participants)[id]) ==> t.stopped
      ensures forall t :: t in service.LocalTracks() ==> t.stopped == old(t.stopped)
    {
      service.LeaveRoom();
    }

    /** `service.joinRoom(roomId, userId, speaker)`, seen from the hook. */
    method ServiceJoin(speaker: bool, answer: MicrophoneAnswer) returns (r: Outcome)
      requires service.Valid()
      modifies service`localStream, service`isInitialized, service`isMuted, service`participants, service`order, service`log
      modifies service.Connections(), service.RemoteTracks()
      ensures service.Valid()
      ensures r.Fail? <==> speaker && !old(service.isInitialized) && answer.Denied?
      ensures !speaker || r.Fail? ==>
        service.participants == old(service.participants) && service.order == old(service.order) && service.isMuted == old(service.isMuted)
      ensures speaker && r.Pass? ==> service.localStream != null && service.participants == map[] && service.order == []
      ensures old(service.isMuted) ==> service.isMuted
      ensures !speaker || r.Fail? ==>
        service.localStream == old(service.localStream) && service.isInitialized == old(service.isInitialized)
      ensures speaker && r.Pass? ==> service.isInitialized
      ensures !speaker || r.Fail? ==> unchanged(service.Connections()) && unchanged(service.RemoteTracks())
      ensures service.LocalTracks() == old(service.LocalTracks()) ||
        forall i :: 0 <= i < |service.LocalTracks()| ==> fresh(service.LocalTracks()[i])
    {
      r := service.JoinRoom(roomId, userId, speaker, answer);
    }

    /** The hook side of the speaker-change effect: a speaker's flag is
        muted and a detector is set up if there is none; a listener's
        detector is released. */
    method ApplyRole(speaker: bool, audioSupported: bool)
      requires Valid()
      modifies this`isMuted, this`isSpeaking, this`ticker, this`hasAudioContext, this`hasAnalyser, this`buffer
      ensures Valid()
      ensures speaker ==>
        && isMuted && isSpeaking == old(isSpeaking)
        && (old(hasAudioContext) ==> hasAnalyser && buffer == old(buffer) && ticker == old(ticker))
        && (!old(hasAudioContext) && service.localStream != null && audioSupported ==> hasAnalyser && ticker == Some(old(isMuted)))
        && (!old(hasAudioContext) && (service.localStream == null || !audioSupported) ==> !hasAnalyser && ticker == old(ticker))
      ensures !speaker ==> isMuted == old(isMuted) && ticker.None? && !hasAnalyser && buffer.None? && !isSpeaking
    {
      if speaker {
        var rendered := isMuted;
        isMuted := true;
        if !hasAudioContext {
          SetupAudioAnalyser(audioSupported, rendered);
        }
      } else {
        Cleanup();
      }
    }

    /** The connect effect, run when the hook mounts or its room, user, role
        or activity changes. Outside an active room nothing happens.
        Otherwise the hook subscribes its three handlers (`added`, `removed`
        and `muted` are their handles) and then the service joins, so the
        handlers receive what the join announces; after a successful join
        the hook mirrors the service's mute flag and a speaker gets a
        detector; a refused join leaves the hook's state alone. The
        connecting flag is set for the duration and is clear afterwards. */
    method Connect(answer: MicrophoneAnswer, audioSupported: bool, added: CallbackId, removed: CallbackId, muted: CallbackId)
      returns (r: Option<Outcome>)
      requires Valid() && service.Valid()
      modifies this`isMuted, this`isConnecting, this`ticker, this`hasAudioContext, this`hasAnalyser, this`buffer
      modifies service`localStream, service`isInitialized, service`isMuted, service`participants, service`order, service`log
      modifies service`addedCallbacks, service`removedCallbacks, service`muteCallbacks
      modifies service.Connections(), service.RemoteTracks()
      ensures Valid() && service.Valid()
      ensures !isConnecting
      ensures !(isActive && roomId != "" && userId != "") ==>
        && r.None? && isMuted == old(isMuted) && ticker == old(ticker) && buffer == old(buffer)
        && service.participants == old(service.participants) && service.isMuted == old(service.isMuted)
        && service.addedCallbacks == old(service.addedCallbacks) && service.removedCallbacks == old(service.removedCallbacks)
        && service.muteCallbacks == old(service.muteCallbacks)
        && hasAudioContext == old(hasAudioContext) && hasAnalyser == old(hasAnalyser)
        && unchanged(service) && unchanged(service.Connections(), service.RemoteTracks())
      ensures isActive && roomId != "" && userId != "" ==>
        && r.Some?
        && service.addedCallbacks == old(service.addedCallbacks) + [added]
        && service.removedCallbacks == old(service.removedCallbacks) + [removed]
        && service.muteCallbacks == old(service.muteCallbacks) + [muted]
        && (r.value.Fail? <==> isSpeaker && !old(service.isInitialized) && answer.Denied?)
        && (r.value.Fail? ==> isMuted == old(isMuted) && ticker == old(ticker) && buffer == old(buffer))
        && (r.value.Pass? ==> isMuted == service.isMuted)
        && (r.value.Pass? && isSpeaker ==>
              && service.localStream != null && service.participants == map[]
              && (audioSupported ==> hasAnalyser && ticker == Some(old(isMuted))))
    {
      isConnecting := false;
      if !isActive || roomId == "" || userId == "" {
        return None;
      }
      var outcome := ConnectActive(answer, audioSupported, added, removed, muted);
      r := Some(outcome);
    }

    /** The connect effect inside an active room: subscribe, join, then
        mirror the outcome in the hook. */
    method ConnectActive(answer: MicrophoneAnswer, audioSupported: bool, added: CallbackId, removed: CallbackId, muted: CallbackId)
      returns (outcome: Outcome)
      requires Valid() && service.Valid()
      modifies this`isMuted, this`ticker, this`hasAudioContext, this`hasAnalyser, this`buffer
      modifies service`localStream, service`isInitialized, service`isMuted, service`participants, service`order, service`log
      modifies service`addedCallbacks, service`removedCallbacks, service`muteCallbacks
      modifies service.Connections(), service.RemoteTracks()
      ensures Valid() && service.Valid()
      ensures service.addedCallbacks == old(service.addedCallbacks) + [added]
      ensures service.removedCallbacks == old(service.removedCallbacks) + [removed]
      ensures service.muteCallbacks == old(service.muteCallbacks) + [muted]
      ensures outcome.Fail? <==> isSpeaker && !old(service.isInitialized) && answer.Denied?
      ensures outcome.Fail? ==> isMuted == old(isMuted) && ticker == old(ticker) && buffer == old(buffer)
      ensures outcome.Pass? ==> isMuted == service.isMuted
      ensures outcome.Pass? && isSpeaker ==>
        && service.localStream != null && service.participants == map[]
        && (audioSupported ==> hasAnalyser && ticker == Some(old(isMuted)))
    {
      outcome := SubscribeAndJoin(answer, added, removed, muted);
      AfterJoin(outcome, audioSupported);
    }

    /** The service side of the connect effect: the handlers are subscribed,
        then the service joins. */
    method SubscribeAndJoin(answer: MicrophoneAnswer, added: CallbackId, removed: CallbackId, muted: CallbackId)
      returns (outcome: Outcome)
      requires service.Valid()
      modifies service`localStream, service`isInitialized, service`isMuted, service`participants, service`order, service`log
      modifies service`addedCallbacks, service`removedCallbacks, service`muteCallbacks
      modifies service.Connections(), service.RemoteTracks()
      ensures service.Valid()
      ensures service.addedCallbacks == old(service.addedCallbacks) + [added]
      ensures service.removedCallbacks == old(service.removedCallbacks) + [removed]
      ensures service.muteCallbacks == old(service.muteCallbacks) + [muted]
      ensures outcome.Fail? <==> isSpeaker && !old(service.isInitialized) && answer.Denied?
      ensures outcome.Pass? && isSpeaker ==> service.localStream != null && service.participants == map[]
    {
      Subscribe(added, removed, muted);
      outcome := ServiceJoin(isSpeaker, answer);
    }

    /** The hook side of the connect effect, once the join has settled. */
    method AfterJoin(outcome: Outcome, audioSupported: bool)
      requires Valid()
      modifies this`isMuted, this`ticker, this`hasAudioContext, this`hasAnalyser, this`buffer
      ensures Valid()
      ensures outcome.Fail? ==> isMuted == old(isMuted) && ticker == old(ticker) && buffer == old(buffer)
      ensures outcome.Pass? ==> isMuted == service.isMuted
      ensures outcome.Pass? && isSpeaker && service.localStream != null && audioSupported ==>
        hasAnalyser && ticker == Some(old(isMuted))
    {
      if outcome.Pass? {
        var rendered := isMuted;
        isMuted := service.IsMicrophoneMuted();
        if isSpeaker {
          SetupAudioAnalyser(audioSupported, rendered);
        }
      }
    }

    /** Subscribes the hook's three handlers to the service. */
    method Subscribe(added: CallbackId, removed: CallbackId, muted: CallbackId)
      requires service.Valid()
      modifies service`addedCallbacks, service`removedCallbacks, service`muteCallbacks
      ensures service.addedCallbacks == old(service.addedCallbacks) + [added]
      ensures service.removedCallbacks == old(service.removedCallbacks) + [removed]
      ensures service.muteCallbacks == old(service.muteCallbacks) + [muted]
      ensures service.Valid()
    {
      service.OnParticipantAdded(added);
      service.OnParticipantRemoved(removed);
      service.OnMuteChanged(muted);
    }

    /** The connect effect's clean-up (unmount or change of room, user,
        role or activity): the service leaves the room and the detector is
        released. */
    method Disconnect()
      requires Valid() && service.Valid()
      modifies this`ticker, this`hasAudioContext, this`hasAnalyser, this`buffer, this`isSpeaking
      modifies service`participants, service`order, service`log, service`isMuted
      modifies service.Connections(), service.RemoteTracks(), service.LocalTracks()
      ensures Valid() && service.Valid()
      ensures service.participants == map[] && service.order == []
      ensures service.localStream == old(service.localStream)
      ensures service.localStream != null ==> service.isMuted
      ensures forall id :: id in old(service.participants) ==> old(service.participants)[id].connection.value.closed
      ensures forall id, t :: id in old(service.participants) && t in StreamTracks(old(service.participants)[id]) ==> t.stopped
      ensures forall t :: t in service.LocalTracks() ==> t.stopped == old(t.stopped)
      ensures ticker.None? && !hasAnalyser && buffer.None? && !isSpeaking
    {
      ServiceLeave();
      Cleanup();
    }
  }

  /** The stale mute flag of the as-written check: a speaker whose check was
      scheduled in a render where the flag was still true (the hook starts
      muted, and the connect effect schedules the check with the flag of the
      render that ran it), who then unmutes and speaks loudly, is never
      reported as speaking; the check that consults the current flag
      reports it. */
  lemma StaleMuteCounterexample()
    ensures var loud := seq(BinCount, _ => 200);
      && !TickSpeaking(true, Some(seq(BinCount, _ => 0)), true, loud)
      && TickSpeaking(true, Some(seq(BinCount, _ => 0)), false, loud)
  {
    var loud: seq<Byte> := seq(BinCount, _ => 200);
    var filled := Fill(seq(BinCount, _ => 0), loud);
    assert filled == loud;
    BinBounds(loud);
  }
}
