# Voice rooms: a verified model of the audio session core

This project models the audio core of a live voice-room web application
("rooms" where speakers talk and listeners listen) and proves properties of
it in Dafny:

- **PeerAudio** (`webrtc_service.dfy`) is the peer-audio session manager,
  `WebRTCService`. It is a class with these fields:
  - the registry of remote participants (a map, plus its keys in insertion
    order, because JavaScript `Map`s iterate in that order);
  - the mute flag;
  - the optional local microphone stream;
  - the "initialized" flag that makes microphone acquisition happen at
    most once;
  - three observer lists.

  Tracks, streams and peer connections are heap objects (**Media**,
  `media.dfy`) that carry only the flags the service reads or changes:
  `enabled`, `stopped`, `closed`, and the tracks a connection sends.
  Observer callbacks are opaque handles. Every notification is recorded in
  a ghost log as one delivery per subscribed callback, in subscription
  order.
- **VoiceHook** (`use_webrtc.dfy`) is the `useWebRTC` hook as a class bound
  to the shared service. It holds:
  - the connect and speaker-change effects;
  - the participant mirror handlers and the mute handler;
  - `toggleMute` and `cleanup`;
  - the speaking detector, whose averaging loop is a verified method.
- **Moderation** (`moderation.dfy`) covers the moderator dialog: the field
  updates each action writes, and the moderator/speaker/listener
  partition.
- **Initials** (`initials.dfy`) is the `getInitials` chain shared by the
  dialog and the profile header.
- **RoomPage** (`room.dfy`) is the room page:
  - the profile joins, including the `forEach` loop that fills the
    profiles map;
  - the payloads the page writes;
  - the user's room state as a class whose handlers set it field by field.
- **HomePage** (`home.dfy`): the search-and-filter predicate and the
  listener count.
- **ProfilePage** (`profile.dfy`): whose profile is shown, the fallback
  chains, and the follow and save-room toggles.
- **ProfileHeader** (`profile_user_info.dfy`): the profile header's
  fallbacks.
- **CreateRoomPage** (`create_room.dfy`): the create-room guards, payloads
  and navigation.
- **Common**, **Text** and **Seqs** hold what the above share:
  - JavaScript truthiness of nullable strings;
  - `trim`, `includes`, `split` and ASCII case mapping, with a proof that
    `split` loses nothing;
  - `filter`, sums and `[...new Set(xs)]`.

Everything the database, the browser or the platform answers is a
parameter. Examples:

- the outcome of `getUserMedia` is `MicrophoneAnswer`;
- a failed query is `None` or `false`;
- the analyser's frequency data is a frame of bytes;
- whether `AudioContext` exists is a flag.

Each handler and effect is one atomic step.

Most of the proof effort sits in a few places:
- the teardown loop (`RemoveAllParticipants` with `RemoveFirst`) and the
  hook methods built on it;
- the `split` lemmas behind the initials (`HeadsOfSplit`, `SplitJoin`);
- the group partition (`GroupsPartition`);
- the profile-map loop (`BuildProfilesMap`).

Several smaller lemmas state round trips and field-by-field effects that
follow from the definitions directly.

## Model

| member | source | states |
|---|---|---|
| PeerAudio.WebRTCService.constructor | src/services/webRTCService.ts:13-29 | a new session is muted, has no local stream, an empty registry, no subscribers and is not initialized |
| PeerAudio.WebRTCService.OnParticipantAdded | src/services/webRTCService.ts:201-203 | the callback is subscribed after all earlier ones |
| PeerAudio.WebRTCService.OnParticipantRemoved | src/services/webRTCService.ts:205-207 | the callback is subscribed after all earlier ones |
| PeerAudio.WebRTCService.OnMuteChanged | src/services/webRTCService.ts:209-211 | the callback is subscribed after all earlier ones |
| PeerAudio.WebRTCService.Notify | src/services/webRTCService.ts:213-223 | every subscriber of the event's kind receives the event exactly once, in subscription order |
| PeerAudio.WebRTCService.SetMuted | src/services/webRTCService.ts:162-174 | the flag becomes `m` and every local audio track's `enabled` becomes `!m`; video tracks and `stopped` flags are untouched; one mute-changed(m) event fires, even if `m` equals the old flag |
| PeerAudio.WebRTCService.ToggleMute | src/services/webRTCService.ts:180-184 | returns and stores the negation of the previous flag, applies it to the audio tracks, and announces it |
| PeerAudio.WebRTCService.InitLocalStream | src/services/webRTCService.ts:31-55 | acquisition happens at most once. Once initialized, nothing changes. A refusal fails with "Could not access microphone" and leaves the session uninitialized and without a stream. A first success stores a fresh stream whose audio tracks are all disabled, leaves the session muted (one event) and initialized |
| Media.RequestMicrophone | src/services/webRTCService.ts:37-44 | a grant yields a fresh stream of distinct, live, enabled audio tracks; a refusal yields none |
| PeerAudio.WebRTCService.CreatePeerConnection | src/services/webRTCService.ts:88-98 | a fresh open connection to the two STUN servers that sends every local track (all kinds, enabled or not), or none without a local stream |
| PeerAudio.WebRTCService.AddParticipant | src/services/webRTCService.ts:126-139 | a known id returns the stored entry and changes nothing, with no event. A new id gets exactly one entry with a fresh connection, placed last in key order, with exactly one added event |
| PeerAudio.WithTrack | src/services/webRTCService.ts:113-116 | the new inbound stream holds the track. An absent stream becomes just that track. Otherwise the old tracks are kept as a prefix and the track is appended unless already present |
| PeerAudio.WebRTCService.HandleTrack | src/services/webRTCService.ts:108-121 | for a registered id, the entry's stream gains the track, `audioTrack` becomes the track, the key order is kept and one added event carries the new entry; for an unregistered id nothing changes. The track is one received from the peer, never a local one, so no inbound track is ever a microphone track |
| PeerAudio.WebRTCService.RemoveParticipant | src/services/webRTCService.ts:141-156 | an absent id is a no-op with no event. A present id has its connection closed and every inbound track stopped, its key (and only that key) deleted, and one removed event with the id |
| PeerAudio.CloseEntry | src/services/webRTCService.ts:146-152 | the entry's connection is closed and its tracks stopped; no `enabled` flag changes, so the local mute state survives |
| PeerAudio.StopTracks | src/services/webRTCService.ts:151 | every track is stopped and keeps its `enabled` flag |
| PeerAudio.SetEnabled | src/services/webRTCService.ts:167-170 | every track's `enabled` is set and no `stopped` flag changes |
| PeerAudio.RegistryRemove | src/services/webRTCService.ts:154 | deleting a key keeps the registry well formed (keys match ids, each key once in the order) |
| PeerAudio.RegistryInsert | src/services/webRTCService.ts:136 | inserting a new id at the end keeps the registry well formed |
| PeerAudio.WebRTCService.RemoveAllParticipants | src/services/webRTCService.ts:80-82 | the removal loop empties the registry. Every former connection is closed and every former inbound track stopped. One removed event per former key fires, in insertion order |
| PeerAudio.WebRTCService.RemoveFirst | src/services/webRTCService.ts:188-190 | one loop step removes the oldest key and keeps everything already torn down torn down |
| PeerAudio.WebRTCService.SetupPeerConnections | src/services/webRTCService.ts:74-86 | drops every existing connection as above and connects nothing new |
| PeerAudio.WebRTCService.JoinRoom | src/services/webRTCService.ts:57-72 | a listener join changes nothing at all: no field of the service, no connection and no inbound track. A speaker join acquires the microphone; a refusal is passed on and nothing else changes. On success the session is initialized and the registry is emptied: every former connection closed, every former inbound track stopped, one removed event per former key |
| PeerAudio.WebRTCService.LeaveRoom | src/services/webRTCService.ts:186-198 | empties the registry with one removed event per prior entry, in order; every former connection is closed and every former inbound track stopped. Only when a local stream exists does it force mute (with an event). It never clears or replaces the stream, and no local track is stopped |
| VoiceHook.MeanAboveThreshold | src/hooks/useWebRTC.tsx:162-169 | the summing loop reports speaking exactly when the sum exceeds 15 times the bin count |
| VoiceHook.LoudIsMeanAbove | src/hooks/useWebRTC.tsx:166-169 | for a non-empty buffer the integer test is the mean-above-15 test |
| VoiceHook.FlatAtThresholdIsSilent | src/hooks/useWebRTC.tsx:169 | a mean of exactly 15 is not speaking, because the comparison is strict |
| VoiceHook.BinBounds | src/hooks/useWebRTC.tsx:162-169 | bins all above 15 are speaking; bins all at most 15 are not |
| VoiceHook.Fill | src/hooks/useWebRTC.tsx:159 | the analyser's data overwrites the buffer from the start; the length is kept |
| VoiceHook.MirrorAdded | src/hooks/useWebRTC.tsx:47-54 | the copied map stores the participant under its id; every other key is unchanged |
| VoiceHook.MirrorRemoved | src/hooks/useWebRTC.tsx:56-63 | the copied map lacks the id; every other key is unchanged |
| VoiceHook.MirrorAddRemove | src/hooks/useWebRTC.tsx:47-63 | adding then removing an id leaves the rest of the mirror as it was |
| VoiceHook.WebRTCHook.constructor | src/hooks/useWebRTC.tsx:13-20 | the first render is muted, with no participants, not connecting, not speaking and no detector |
| VoiceHook.WebRTCHook.HandleParticipantAdded | src/hooks/useWebRTC.tsx:47-54 | the mirror becomes the added copy |
| VoiceHook.WebRTCHook.HandleParticipantRemoved | src/hooks/useWebRTC.tsx:56-63 | the mirror becomes the copy without the id |
| VoiceHook.WebRTCHook.HandleMuteChanged | src/hooks/useWebRTC.tsx:65-73 | mute-changed(true) stores the flag and forces speaking to false; mute-changed(false) stores it and leaves speaking unchanged |
| VoiceHook.WebRTCHook.Cleanup | src/hooks/useWebRTC.tsx:110-124 | the interval, audio context, analyser and buffer are cleared and speaking is false |
| VoiceHook.WebRTCHook.SetupAudioAnalyser | src/hooks/useWebRTC.tsx:127-155 | without a local stream or `AudioContext` nothing changes. Otherwise the detector gets a zeroed buffer of 128 bins and a check that captured the render's mute flag |
| VoiceHook.WebRTCHook.TickAsWritten | src/hooks/useWebRTC.tsx:157-173 | a check reports speaking iff analyser and buffer are set, the CAPTURED mute flag is false and the mean of the refreshed bins exceeds 15; otherwise it reports false. The buffer is refreshed with the frame exactly when the check reads it |
| VoiceHook.WebRTCHook.Tick | src/hooks/useWebRTC.tsx:157-173 | the same decision and buffer refresh on the CURRENT mute flag; a muted user is never reported as speaking by a check |
| VoiceHook.StaleMuteCounterexample | src/hooks/useWebRTC.tsx:158 | loud bins with a captured true flag are silent, while the current false flag makes them speaking |
| VoiceHook.WebRTCHook.ToggleMute | src/hooks/useWebRTC.tsx:180-186 | a listener gets nothing back and the service is untouched; a speaker gets the service's new flag (the negation of the old one), mirrored into the hook |
| VoiceHook.WebRTCHook.Connect | src/hooks/useWebRTC.tsx:23-44 | outside an active room nothing happens but clearing the connecting flag: the service, its connections and inbound tracks, and the hook's mute flag and detector are left as they were. Otherwise the three handlers are subscribed before the join. A successful join mirrors the service's mute flag and gives a speaker a detector. A refused join leaves the hook's flag and detector alone |
| VoiceHook.WebRTCHook.SubscribeAndJoin | src/hooks/useWebRTC.tsx:75-77 | the hook's three handlers are appended to the service's lists, then the join fails exactly on a first, refused speaker acquisition |
| VoiceHook.WebRTCHook.AfterJoin | src/hooks/useWebRTC.tsx:30-36 | after a successful join the hook's flag equals the service's; a failed join changes nothing |
| VoiceHook.WebRTCHook.Disconnect | src/hooks/useWebRTC.tsx:79-83 | the service leaves (registry empty, former connections closed and inbound tracks stopped, stream kept with no local track stopped, muted if it has one) and the detector is released |
| VoiceHook.WebRTCHook.SpeakerStatusChanged | src/hooks/useWebRTC.tsx:87-107 | while active, the service leaves and rejoins: the registry ends empty, every old connection closed and every old inbound track stopped. A new speaker ends up muted in the service and the hook. It gets a detector only if it had none and the service ALREADY held a stream before the un-awaited join; on a first acquisition no detector is set up. The join then leaves the new speaker holding a microphone stream and initialized if it already had one or the microphone was granted, and with no stream and uninitialized if it had none and was refused. A new listener's detector is released and its stream and initialized flag are kept. When not active, nothing but the role changes: the hook's flags and detector, every field of the service, its connections and its inbound and local tracks are left as they were |
| VoiceHook.WebRTCHook.ChangeRole | src/hooks/useWebRTC.tsx:89-106 | the effect's synchronous part runs first, then the rest of the join it started; the outcome is as for the speaker-change effect: registry emptied and torn down, a speaker muted and initialized with a stream exactly when it already had one or the microphone was granted, a listener's detector released and its stream kept |
| VoiceHook.WebRTCHook.Preempt | src/hooks/useWebRTC.tsx:91-105 | `leaveRoom()`, then for a speaker `setMuted(true)`, `setIsMuted(true)` and a detector on the stream already held; for a listener `cleanup()` |
| VoiceHook.WebRTCHook.LeaveAndMute | src/hooks/useWebRTC.tsx:91-96 | after `leaveRoom()` and a speaker's `setMuted(true)` the registry is empty, old connections are closed, old inbound tracks are stopped, the stream is kept, and a speaker's session is muted |
| VoiceHook.WebRTCHook.JoinSettles | src/services/webRTCService.ts:57-72 | the join finishing after the effect leaves the (already empty) registry empty and a muted session muted; a speaker ends initialized with a stream if it already was or the microphone was granted, and uninitialized without a stream if it was not and was refused; a listener's stream and initialized flag are unchanged |
| VoiceHook.WebRTCHook.ApplyRole | src/hooks/useWebRTC.tsx:95-105 | a speaker's hook flag is true and a missing detector is set up; a listener's detector is cleaned up |
| Moderation.Apply | src/components/PromoteUserDialog.tsx:41-48 | an update changes exactly the fields it names and keeps the row's id, room and user |
| Moderation.UpdateWhere | src/components/PromoteUserDialog.tsx:47-48 | only rows with that id in that room take the update; no row is added, removed or moved |
| Moderation.ModeratorToggle | src/components/PromoteUserDialog.tsx:43-46 | sets `is_moderator` to the negation of the given flag and `is_speaker` to true, and no other field |
| Moderation.ModeratorToggleEffect | src/components/PromoteUserDialog.tsx:37-48 | on the row it was read from, the toggle flips the moderator flag and makes a speaker, changing nothing else |
| Moderation.ModeratorToggleTwice | src/components/PromoteUserDialog.tsx:43-46 | toggling twice restores the moderator flag; the participant stays a speaker |
| Moderation.MuteToggle | src/components/PromoteUserDialog.tsx:68-70 | sets `is_muted` to the negation of the given flag, and nothing else |
| Moderation.MuteToggleTwice | src/components/PromoteUserDialog.tsx:62-84 | one toggle flips only the mute flag; two restore the row |
| Moderation.PromoteToSpeaker | src/components/PromoteUserDialog.tsx:100-104 | speaker true, muted true, pending false, moderator untouched |
| Moderation.DemoteFromSpeaker | src/components/PromoteUserDialog.tsx:126-130 | speaker false, muted true, pending false, moderator untouched |
| Moderation.DenySpeakerRequest | src/components/PromoteUserDialog.tsx:160-165 | speaker false, muted true, pending false, and the fetched `is_moderator` written back |
| Moderation.DenyIsDemote | src/components/PromoteUserDialog.tsx:158-165 | a denial leaves the row exactly as a demotion would, and the moderator flag is preserved |
| Moderation.PromotedLeavesListeners | src/components/PromoteUserDialog.tsx:100-104 | a promoted participant is no longer a listener or pending, and is in the speakers group unless a moderator |
| Moderation.DemotedJoinsListeners | src/components/PromoteUserDialog.tsx:126-130 | a demoted or denied non-moderator is a muted listener without a pending request; moderators stay moderators |
| Moderation.GroupsPartition | src/components/PromoteUserDialog.tsx:203-205 | each participant is in exactly one of moderators, speakers and listeners, so the group sizes add up to the participant count |
| Moderation.PendingRequests | src/components/PromoteUserDialog.tsx:206 | pending requests are exactly the participants whose request flag is true, from any group, in participant order |
| Initials.GetInitials | src/components/PromoteUserDialog.tsx:208-215 | at most two characters: the upper-cased characters that begin the first two space-separated words; empty parts contribute nothing |
| Initials.HeadsOfSplit | src/components/PromoteUserDialog.tsx:209-212 | the first characters of the `split(' ')` parts, joined, are exactly the word-starting characters |
| Initials.OneWordInitial | src/components/ProfileUserInfo.tsx:23-30 | a name without spaces has its upper-cased first letter as its only initial |
| Initials.SpacesHaveNoInitials | src/components/ProfileUserInfo.tsx:23-30 | a name of spaces only has no initials |
| RoomPage.Placeholder | src/pages/Room.tsx:227-232 | a user without a profile row is shown as id = the user id, 'Unknown', 'Unknown User', no avatar |
| RoomPage.BuildProfilesMap | src/pages/Room.tsx:218-221 | the `forEach` loop yields the map of fetched profiles by id |
| RoomPage.ProfilesMapKeys | src/pages/Room.tsx:283-286 | the map has exactly the fetched ids as keys |
| RoomPage.ProfilesMapLast | src/pages/Room.tsx:218-221 | a key holds the last fetched profile with that id |
| RoomPage.ProfilesMapValues | src/pages/Room.tsx:283-286 | every value is a fetched profile stored under its own id |
| RoomPage.ProfileFor | src/pages/Room.tsx:224-232 | the mapped profile when there is one, the placeholder otherwise |
| RoomPage.JoinParticipants | src/pages/Room.tsx:223-247 | one entry per row, same order, row unchanged, with the row user's profile or the placeholder |
| RoomPage.MessageAuthorIds | src/pages/Room.tsx:274 | the ids asked for name every message author exactly once |
| RoomPage.JoinMessages | src/pages/Room.tsx:288-299 | one entry per message in fetched order, with the author's profile or the placeholder |
| RoomPage.AnsweredProfilesNoPlaceholder | src/pages/Room.tsx:274-299 | when the profile query answers every asked id, every message carries a fetched profile |
| RoomPage.OwnProfile | src/pages/Room.tsx:326-331 | the user's own profile, falling back to 'You', 'Current User' and no avatar |
| RoomPage.JoinPayload | src/pages/Room.tsx:360-370 | `is_speaker` = `is_moderator` = (user is the room's creator), and muted is true |
| RoomPage.RequestToSpeakPayload | src/pages/Room.tsx:466-471 | speaker false, muted true, pending true, with the fetched `is_moderator` |
| RoomPage.ApplySpeakRequest | src/pages/Room.tsx:464-472 | writing the request changes only the speaker, mute, moderator and request columns |
| RoomPage.RequestKeepsModerator | src/pages/Room.tsx:456-472 | with the row's own moderator flag, the request keeps it and changes only speaker, mute and request |
| RoomPage.ListenerCount | src/pages/Room.tsx:724 | the count is `listeners + 1` exactly when joined and not a speaker, otherwise `listeners` |
| RoomPage.MaySendIff | src/pages/Room.tsx:489 | a message is sent only by a signed-in user and only if its text is not blank |
| RoomPage.MutedAfterCheck | src/pages/Room.tsx:324 | `is_muted \|\| true` is true whatever the column holds |
| RoomPage.RoomView.constructor | src/pages/Room.tsx:75-81 | the page starts not joined, not speaker, not moderator, muted, with no participant row |
| RoomPage.RoomView.CheckUserParticipation | src/pages/Room.tsx:307-350 | without a user or room, or on a query error, nothing changes. With no row the state resets to outside. With a row: joined, roles from the columns, muted always true, the user's own profile, and a definite request flag |
| RoomPage.RoomView.ResetToOutside | src/pages/Room.tsx:417-421 | joined, speaker and moderator false, muted true, no current participant |
| RoomPage.RoomView.JoinRoom | src/pages/Room.tsx:352-404 | without a user, nothing is written and the page goes to sign-in. Otherwise the join payload is sent. When the insert returns the row, the state is joined with the creator roles |
| RoomPage.RoomView.LeaveRoom | src/pages/Room.tsx:406-427 | without a user or row nothing happens; otherwise the row is deleted and, on success, the state resets to outside |
| RoomPage.RoomView.ToggleMute | src/pages/Room.tsx:429-450 | the written value is the negation of the current flag and is stored once the write succeeds |
| RoomPage.RoomView.RequestToSpeak | src/pages/Room.tsx:452-486 | the request payload is sent, and once written the current participant is marked pending |
| RoomPage.RoomView.SendMessage | src/pages/Room.tsx:488-507 | a blank text or missing user sends nothing; otherwise the text is inserted as typed and the box cleared on success |
| HomePage.FilteredRooms | src/pages/Home.tsx:114-123 | a room is listed exactly when the filter predicate holds, as many times as it occurs in the rooms, and the list is an order-preserving subsequence of the rooms |
| HomePage.AllKeepsMatches | src/pages/Home.tsx:115-118 | 'all' keeps exactly the matching rooms, and a title matches iff the lower-cased query occurs in it |
| HomePage.LiveKeepsActiveMatches | src/pages/Home.tsx:119 | 'live' keeps the matching rooms whose `is_active` is true |
| HomePage.TopicKeepsExactTopic | src/pages/Home.tsx:122 | any other filter keeps the matching rooms whose topic equals it exactly |
| HomePage.EmptyQueryKeepsAll | src/pages/Home.tsx:114-118 | an empty query under 'all' keeps every room, in order |
| HomePage.ListenersCount | src/pages/Home.tsx:94 | the first row's count when the query answered with one, else 0 |
| ProfilePage.IsOwnProfile | src/pages/Profile.tsx:126 | own profile iff the id is absent or empty, 'me', or the signed-in user's id |
| ProfilePage.Fallback | src/pages/Profile.tsx:147-150 | the fetched value if non-empty, else the auth profile's, else the example default |
| ProfilePage.LoadedUser | src/pages/Profile.tsx:143-151 | the stored id is 'me' for one's own profile, else the route id. The four displayed fields follow the fallback chain, using the fetched row only when the query ran. All else is the example data |
| ProfilePage.OtherProfileHasRouteId | src/pages/Profile.tsx:145-146 | someone else's profile always shows a real route id, never 'unknown' or 'me' |
| ProfilePage.Follow | src/pages/Profile.tsx:159-166 | flips `isFollowing` and moves followers by +1 (was not following) or -1 (was), changing nothing else; no-op without data |
| ProfilePage.FollowTwice | src/pages/Profile.tsx:159-166 | two follows restore the original data |
| ProfilePage.ToggleSaved | src/pages/Profile.tsx:181-183 | only rooms with the id flip `saved`; length, order and other rooms are unchanged |
| ProfilePage.SaveRoom | src/pages/Profile.tsx:176-184 | the saved list is toggled for that id; no-op without data |
| ProfilePage.SaveRoomTwice | src/pages/Profile.tsx:179-184 | saving twice restores the data |
| ProfilePage.SaveAbsentRoom | src/pages/Profile.tsx:181-183 | an id not in the list changes nothing |
| ProfileHeader.Interests | src/components/ProfileUserInfo.tsx:21 | a missing list gives Design, Technology, Music, Art; a present list (even empty) is kept |
| ProfileHeader.DisplayName | src/components/ProfileUserInfo.tsx:57 | the full name if non-empty, else 'User' |
| ProfileHeader.Handle | src/components/ProfileUserInfo.tsx:58 | the username if non-empty, else 'username' |
| ProfileHeader.AvatarInitials | src/components/ProfileUserInfo.tsx:53 | initials of the full name, else of the username, else "U"; at most two characters |
| ProfileHeader.Bio | src/components/ProfileUserInfo.tsx:67 | the bio if non-empty, else the fixed default text |
| ProfileHeader.FormatJoinDate | src/components/ProfileUserInfo.tsx:32-42 | an absent or empty date, or one that cannot be formatted, gives 'Joined recently'; otherwise 'Joined ' and the month and year |
| CreateRoomPage.Check | src/pages/CreateRoom.tsx:58-71 | a blank title is rejected first, then an empty topic, then a missing user or profile; the form passes iff none applies |
| CreateRoomPage.RoomPayload | src/pages/CreateRoom.tsx:77-85 | the room row is created by the user, with `is_active` = not scheduled |
| CreateRoomPage.CreatorPayload | src/pages/CreateRoom.tsx:92-100 | the creator enters as speaker and moderator, unmuted |
| CreateRoomPage.CreateRoom | src/pages/CreateRoom.tsx:55-117 | a rejected form writes nothing. A failed room insert writes no participant. After both inserts, a scheduled room goes to '/' and any other to '/room/<id>' |
| CreateRoomPage.OpenedRoomIsLive | src/pages/CreateRoom.tsx:104-110 | a room the page opens right after creating it is live, and its creator can speak unmuted |
| Text.SplitJoin | src/components/PromoteUserDialog.tsx:210 | joining the `split` parts with the separator gives back the string |
| Text.ContainsIff | src/pages/Home.tsx:115 | `includes` holds iff the needle occurs at some position |

## Left out

- Signalling and ICE are not modelled, because the source has no
  implementation of either: `setupPeerConnections` only tears down, and
  `onicecandidate` only logs. Nothing ever calls `addParticipant` with a
  real peer.
- The `ontrack` handler is modelled as `PeerAudio.WebRTCService.HandleTrack`,
  which the platform would call with the participant id the connection was
  created for. The closure itself is not modelled.
- `PeerAudio.WebRTCService.HandleTrack`: the inbound stream is a list of
  tracks held in the registry entry, not a shared `MediaStream` object.
  Code that kept a reference to a participant object (a callback) would see
  the source mutate that object in place; the model does not capture that
  aliasing.
- Asynchrony is modelled only coarsely:
  - each handler and effect is one atomic step;
  - the speaker-change effect does not await `joinRoom`. The model runs the
    effect's synchronous part first and the rest of the join (microphone
    request and teardown) right after it, with nothing in between. A
    refusal there is an unhandled rejection, and the model ignores it;
  - the connecting flag is only shown cleared after the connect effect;
  - the speaker-change effect is modelled on its own. In the source the
    connect effect also depends on `isSpeaker`, so a real role change
    also runs that effect's cleanup (`leaveRoom()`, then `cleanup()`) and
    its body again (a further subscription and an awaited join). The model
    does not compose the two, so its "already had a detector" branch of
    `VoiceHook.WebRTCHook.SpeakerStatusChanged` does not arise on a real
    role change.
- `PeerAudio.WebRTCService.HandleTrack` requires that the received track is
  not one of the local tracks. The platform never delivers the local
  microphone track as a remote one; this keeps local and inbound tracks
  apart, which is what lets leaving promise that no local track is stopped.
- The service's observer lists only grow. The hook subscribes on every
  connect and never unsubscribes, and the model keeps that. Deliveries are
  recorded in the log, but the hook's handlers are not run on them; their
  effects are modelled separately by the handler methods.
- `VoiceHook.WebRTCHook.SetupAudioAnalyser`:
  - `AudioContext` construction and the analyser graph are a flag and a
    buffer;
  - exceptions thrown while setting them up are not modelled;
  - when it runs while a detector exists (a repeated connect as speaker),
    the source leaves the earlier interval running, while the model keeps
    only the newest check.
- `VoiceHook.LoudIsMeanAbove`: the mean is compared as the integer test
  `sum > 15 * length`. For an empty buffer JavaScript computes `0/0`,
  which is not above 15, and so is the integer test.
- `Text.Lower` / `Text.Upper`: case mapping covers ASCII letters only, and
  `trim` removes ASCII whitespace only.
- `Initials.GetInitials`: a string is a sequence of Unicode scalar values,
  while `charAt(0)` and `substring(0, 2)` count UTF-16 code units. For a
  word that starts with a character outside the Basic Multilingual Plane
  ("😀 Bob"), the source takes a lone high surrogate where the model takes
  the whole character. `toUpperCase` can also lengthen a string ('ß'
  becomes "SS", so "ß ß" gives "SSSS"); with the ASCII-only mapping the
  model's "at most two characters" does not cover that. The same holds for
  `ProfileHeader.AvatarInitials`.
- `ProfileHeader.FormatJoinDate`: the date-fns month-and-year text is a
  parameter; `new Date` and locale formatting are library calls.
- Supabase queries, inserts, deletes and realtime channels are network
  I/O. Their answers are parameters, and the model keeps only the
  payloads and the transforms around them.
- Toasts, console logging, JSX rendering and routing are not modelled. The
  sign-in redirect of `handleJoinRoom` is a returned flag.
- The room page's mute synchronisation effect and
  `updateParticipantMuteStatus` (src/pages/Room.tsx:93-112) are not
  modelled.
- `RoomPage.RoomView.ToggleMute` does not compose its call to the hook's
  `toggleMute`; that call is `VoiceHook.WebRTCHook.ToggleMute`.
- Moderation's `handleRemoveFromRoom` is a plain delete, and the row
  fetched before a promotion is unused, so neither is modelled.
- `ProfilePage.IsOwnProfile`: the source's expression is `null` rather
  than `false` when nobody is signed in. The model uses `false`; both are
  falsy wherever the flag is read.
- `PeerAudio.WebRTCService.GetLocalStream` and
  `PeerAudio.WebRTCService.IsMicrophoneMuted` are plain reads of a field.
  They have no contract of their own and no row above.

## Findings

| source | as written | input that shows it | evidently intended | confidence | as-written member | corrected member |
|---|---|---|---|---|---|---|
| src/hooks/useWebRTC.tsx:158 | the speaking check reads the `isMuted` captured by the closure of the render that scheduled it; the hook starts muted, so the check that the connect effect schedules sees `true` for good | a speaker detector scheduled while the rendered flag was true, then an unmute, then 128 bins of 200: the check reports not speaking | a check that reads the current mute flag, so an unmuted speaker whose mean exceeds 15 is reported as speaking, and a muted one never is | not executed | VoiceHook.WebRTCHook.TickAsWritten | VoiceHook.WebRTCHook.Tick |
