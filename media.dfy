/** The browser's media and peer-connection primitives, as opaque handles
    that carry only the flags the session manager reads or changes:
    a track's `enabled` and `stopped`, a connection's `closed` flag and the
    tracks attached to it with `addTrack`. */
module Media {

  datatype TrackKind = Audio | Video

  /** A `MediaStreamTrack`. */
  class MediaTrack {
    const kind: TrackKind
    var enabled: bool
    var stopped: bool

    /** A live track straight from the platform: enabled and not stopped. */
    constructor (kind: TrackKind)
      ensures this.kind == kind && enabled && !stopped
    {
      this.kind := kind;
      enabled := true;
      stopped := false;
    }

    /** `track.stop()`: ends the track; `enabled` is left as it was. */
    method Stop()
      modifies this
      ensures stopped && enabled == old(enabled)
    {
      stopped := true;
    }
  }

  /** A `MediaStream`: an ordered set of tracks. */
  class MediaStream {
    var tracks: seq<MediaTrack>

    /** `new MediaStream()`: a stream without tracks. */
    constructor ()
      ensures tracks == []
    {
      tracks := [];
    }

    /** `stream.addTrack(t)`: appends `t` unless the stream already holds it. */
    method AddTrack(t: MediaTrack)
      modifies this
      ensures t in tracks
      ensures tracks == if t in old(tracks) then old(tracks) else old(tracks) + [t]
    {
      if t !in tracks {
        tracks := tracks + [t];
      }
    }

    /** `stream.getAudioTracks()`. */
    function AudioTracks(): (r: seq<MediaTrack>)
      reads this
      ensures forall i :: 0 <= i < |r| ==> r[i] in tracks && r[i].kind == Audio
      ensures forall i :: 0 <= i < |tracks| && tracks[i].kind == Audio ==> tracks[i] in r
    {
      AudioOnly(tracks)
    }
  }

  function AudioOnly(ts: seq<MediaTrack>): (r: seq<MediaTrack>)
    ensures forall i :: 0 <= i < |r| ==> r[i] in ts && r[i].kind == Audio
    ensures forall i :: 0 <= i < |ts| && ts[i].kind == Audio ==> ts[i] in r
  {
    if ts == [] then []
    else if ts[0].kind == Audio then [ts[0]] + AudioOnly(ts[1..])
    else AudioOnly(ts[1..])
  }

  /** An `RTCPeerConnection`, configured with a list of ICE server URLs. */
  class PeerConnection {
    const iceServers: seq<string>
    var closed: bool
    var senders: seq<MediaTrack>

    /** `new RTCPeerConnection({ iceServers })`: open, nothing attached. */
    constructor (iceServers: seq<string>)
      ensures this.iceServers == iceServers && !closed && senders == []
    {
      this.iceServers := iceServers;
      closed := false;
      senders := [];
    }

    /** `pc.addTrack(t, stream)`: `t` is sent to the remote peer. */
    method AddTrack(t: MediaTrack)
      modifies this
      ensures senders == old(senders) + [t] && closed == old(closed)
    {
      senders := senders + [t];
    }

    /** `pc.close()`. */
    method Close()
      modifies this
      ensures closed && senders == old(senders)
    {
      closed := true;
    }
  }

  /** The answer of the platform to a microphone request: a stream with the
      given number of audio tracks, or a refusal (permission denied or no
      capture device). */
  datatype MicrophoneAnswer = Granted(audioTracks: nat) | Denied

  /** Stands in for `navigator.mediaDevices.getUserMedia({ audio, video: false })`:
      on a grant, a fresh stream of fresh, live, distinct audio tracks; on a
      refusal, no stream. */
  method RequestMicrophone(answer: MicrophoneAnswer) returns (s: MediaStream?)
    ensures answer.Denied? <==> s == null
    ensures s != null ==> fresh(s) && |s.tracks| == answer.audioTracks
    ensures s != null ==> forall i :: 0 <= i < |s.tracks| ==>
      fresh(s.tracks[i]) && s.tracks[i].kind == Audio && s.tracks[i].enabled && !s.tracks[i].stopped
    ensures s != null ==> forall i, j :: 0 <= i < j < |s.tracks| ==> s.tracks[i] != s.tracks[j]
  {
    if answer.Denied? {
      return null;
    }
    s := new MediaStream();
    var n := 0;
    while n < answer.audioTracks
      invariant 0 <= n <= answer.audioTracks && |s.tracks| == n
      invariant forall i :: 0 <= i < n ==>
        fresh(s.tracks[i]) && s.tracks[i].kind == Audio && s.tracks[i].enabled && !s.tracks[i].stopped
      invariant forall i, j :: 0 <= i < j < n ==> s.tracks[i] != s.tracks[j]
    {
      var t := new MediaTrack(Audio);
      s.tracks := s.tracks + [t];
      n := n + 1;
    }
  }
}
