# Realtime voice session hook, modelled in Dafny

This project models `useWebRTCAudioSession`, the React hook in
`components/chat-window/use-webrtc.ts`. The hook runs one realtime voice and text
session with a remote speech service over WebRTC. It keeps a conversation log
and a single "ephemeral" user turn that partial speech events update in place.
It handles the control messages that arrive on the data channel, keeps a registry
of tool functions, and runs the session lifecycle: start, stop and toggle.

The model has four modules:

- `Wrappers` (`wrappers.dfy`): `Option`, for `null` refs and absent fields.
- `Conversation` (`conversation.dfy`): the log as values.
  - `Turn` and `Partial`.
  - `Merged`, the `prev.map` merge, as a function on `seq<Turn>`.
  - `Chat`: the log, the tracked ephemeral id and a fresh-id counter that stands for `uuidv4`.
  - Functions for `getOrCreateEphemeralUserId`, `updateEphemeralUserMessage`, `clearEphemeralUserMessage` and the spread-append of a final turn.
  - The store invariant `Inv`: ids are unique and fresh; every non-final entry is the user turn that the ephemeral id tracks; a tracked id names an entry.
- `Protocol` (`protocol.dfy`): the control messages.
  - `Raw` is a parsed payload, or one that failed to parse.
  - `Decode` classifies a payload by its `type` string.
  - `Dispatch` is the effect of one inbound event on the store.
  - `OutMsg` holds the two outbound messages, `session.update` and `conversation.item.create`.
- `Session` (`session.dfy`): the class `AudioSession`, which holds the hook's state and refs.
  - State and refs: `conversation`, `ephemeralId`, `registry`, the four resource handles, `status`, `isSessionActive`.
  - An outbox `sent` for `dataChannel.send`.
  - A log `closed` for the `close()` calls.
  - Each method's postcondition ties the new state to the spec functions above, or states the new state outright. Field-level `modifies` clauses show what a method leaves alone.

Abstractions:
- Turn ids come from a counter, `nextId`, which `stopSession` never resets. Timestamps are opaque `Stamp` parameters.
- Browser objects (stream, audio context, peer connection, data channel) are serial numbers from a second counter.
- Each external step of `startSession` is an `Outcome` parameter: microphone access, the token fetch, and the offer/answer exchange.
- The status string is the datatype `SessionStatus`. Its `Text()` gives the exact string the hook shows.

Notes on the hook's behaviour:
- After a failed start, `startSession` sets `Error: …` and then calls `stopSession`, which sets `Session stopped` in the same synchronous step. So the state left behind shows "Session stopped". A persistent failed state is not kept.
- The clean-up guard before a start tests only the peer connection and the stream.
- The `committed` placeholder text is `Processing speech...`.
- `sendTextMessage` returns silently without a channel.
- The hook has no function-call handling, so none is modelled.

## Model

| member | source | states |
|---|---|---|
| Conversation.Merged | components/chat-window/use-webrtc.ts:93-100 | the merged log has the same length as the old one |
| Conversation.MergedAt | components/chat-window/use-webrtc.ts:94-99 | entry k of the merged log is entry k overridden by the partial exactly when its id matches, else entry k unchanged |
| Conversation.MergedKeepsIds | components/chat-window/use-webrtc.ts:94-99 | the merge keeps every entry's id and role in place |
| Conversation.EmptyInv | components/chat-window/use-webrtc.ts:42 | the empty log with no tracked id satisfies the store invariant |
| Conversation.AtMostOneNonFinal | components/chat-window/use-webrtc.ts:75-84 | under the invariant at most one entry is non-final and every assistant entry is final |
| Conversation.CreateEphemeralSpec | components/chat-window/use-webrtc.ts:69-87 | with an id tracked, returns it and changes nothing; otherwise appends exactly one user/""/non-final/speaking turn under an id no entry had and tracks it; a second call returns the same id and store |
| Conversation.CreateKeepsInv | components/chat-window/use-webrtc.ts:69-87 | creating the ephemeral turn keeps the store invariant |
| Conversation.UpdateEphemeralSpec | components/chat-window/use-webrtc.ts:89-101 | no tracked id: nothing changes; otherwise same length, the one entry with the tracked id is overridden and every other entry is unchanged |
| Conversation.UpdateKeepsInv | components/chat-window/use-webrtc.ts:89-101 | an update that does not touch isFinal keeps the store invariant |
| Conversation.FinalizeKeepsInv | components/chat-window/use-webrtc.ts:131-141 | finalising the tracked turn and then clearing its id keeps the store invariant |
| Conversation.AppendFinalKeepsInv | components/chat-window/use-webrtc.ts:304-314 | appending a final, complete turn under a fresh id keeps the store invariant |
| Protocol.Decode | components/chat-window/use-webrtc.ts:108-162 | a parse failure and only a parse failure is Malformed; a type outside the five cases and only such a type is Other, carrying that type; each of the five type strings gives exactly its event, transcript and message events with the payload's fields, and only that string gives it |
| Protocol.DecodeRecognisesEveryEvent | components/chat-window/use-webrtc.ts:111-143 | every one of the five known events, sent under its type string, decodes back to itself |
| Protocol.DispatchKeepsInv | components/chat-window/use-webrtc.ts:111-159 | every inbound event, including ignored ones, keeps the store invariant |
| Protocol.SpeechUtterance | components/chat-window/use-webrtc.ts:112-141 | speech_started, speech_stopped, committed, transcript(T) with T non-empty, from no tracked id: exactly one new entry, user/T/complete/final, the earlier entries unchanged, no tracked id |
| Protocol.CommittedMarksProcessing | components/chat-window/use-webrtc.ts:123-129 | committed with a tracked id sets that one entry to "Processing speech..." and processing, keeping length, id and other entries |
| Protocol.IgnoredSpeechEvents | components/chat-window/use-webrtc.ts:118-141 | a transcript with absent or empty text changes nothing (the id is kept); speech_stopped, committed or a transcript with no tracked id leave the log unchanged |
| Protocol.ChatMessageEvents | components/chat-window/use-webrtc.ts:143-162 | an assistant message appends exactly one final, complete assistant turn with its content under a fresh id; another role, an unknown type or a parse failure changes nothing |
| Protocol.OutboundMessages | components/chat-window/use-webrtc.ts:55-67 | the configuration is a session.update with modalities text and audio, the given tools or [] when absent, model whisper-1; a user text message is a conversation.item.create whose text is read back unchanged |
| Session.Released | components/chat-window/use-webrtc.ts:255-271 | the release list holds at most four handles and is empty exactly when no handle is held |
| Session.AudioSession.constructor | components/chat-window/use-webrtc.ts:40-49 | the first render: empty log, no ephemeral id, empty registry, no handles, inactive, empty status |
| Session.AudioSession.RegisterFunction | components/chat-window/use-webrtc.ts:51-53 | the name is bound to the function, overwriting an earlier binding; every other name keeps its binding |
| Session.AudioSession.ConfigureDataChannel | components/chat-window/use-webrtc.ts:55-67 | exactly one session.update for the hook's tools is sent on the given channel |
| Session.AudioSession.GetOrCreateEphemeralUserId | components/chat-window/use-webrtc.ts:69-87 | the new store and the returned id are those of the create-ephemeral rule |
| Session.AudioSession.UpdateEphemeralUserMessage | components/chat-window/use-webrtc.ts:89-101 | the new store is that of the update rule; only the log may change |
| Session.AudioSession.ClearEphemeralUserMessage | components/chat-window/use-webrtc.ts:103-105 | only the ephemeral id changes, to none |
| Session.AudioSession.HandleDataChannelMessage | components/chat-window/use-webrtc.ts:107-163 | the store becomes the dispatch of the decoded payload, the class invariant is kept, and handles, status, registry and outbox do not change |
| Session.AudioSession.StopSession | components/chat-window/use-webrtc.ts:255-277 | from any state: the held handles are closed in the order channel, peer connection, audio context, stream; all four are null; no ephemeral id; inactive; "Session stopped"; empty log; a second call closes nothing more |
| Session.AudioSession.AcquireMedia | components/chat-window/use-webrtc.ts:192-203 | a fresh stream and a fresh audio context are held and an earlier audio context is closed |
| Session.AudioSession.OpenConnection | components/chat-window/use-webrtc.ts:209-220 | a fresh peer connection and a fresh data channel are held |
| Session.AudioSession.FailStart | components/chat-window/use-webrtc.ts:248-252 | the held handles are closed and the state is the stopped state |
| Session.FreshStartReleases | components/chat-window/use-webrtc.ts:191-271 | from nothing held, a refused microphone or a success closes nothing; a failed token fetch closes the new audio context and stream; a failed negotiation closes the new channel, peer connection, audio context and stream, in that order |
| Session.AudioSession.Connect | components/chat-window/use-webrtc.ts:191-252 | the close list becomes exactly that of the attempt: a refused microphone closes what is held; otherwise the previous audio context, then on a failed step every handle held, including the ones this attempt acquired; the counter grows by the handles acquired; all steps succeed: active, established, four fresh handles, log unchanged; any step fails: nothing held, inactive, "Session stopped", empty log |
| Session.AudioSession.ConnectWithMedia | components/chat-window/use-webrtc.ts:205-252 | a failed token fetch closes the held handles; a failed negotiation closes the fresh channel and peer connection and the held media; success closes nothing and is active with a fresh peer connection and channel beside the held media; either failure: the stopped state |
| Session.AudioSession.StartSession | components/chat-window/use-webrtc.ts:182-253 | with a peer connection or stream held it closes everything held first and then the closes of the attempt; otherwise exactly the closes of the attempt; on success active with four fresh handles; on any failure the stopped state |
| Session.AudioSession.HandleStartStopClick | components/chat-window/use-webrtc.ts:279-285 | active: the four handles are closed and the state is stopped; inactive: active exactly when every step succeeds, with the log kept and nothing closed on success and the stopped state on failure; a failed token fetch closes the new audio context and stream, a failed negotiation the new channel, peer connection, audio context and stream, in that order |
| Session.AudioSession.SendTextMessage | components/chat-window/use-webrtc.ts:287-317 | no channel: nothing changes; otherwise exactly one final, complete user turn with the text is appended and exactly one conversation.item.create carrying it is sent on that channel; the invariant is kept |

## Left out

- WebRTC, `getUserMedia`, the `AudioContext` analyser, the audio element, SDP offer/answer and both `fetch` calls (components/chat-window/use-webrtc.ts:165-180, 192-244): these are browser and network I/O. Each external step is an `Outcome` parameter.
- `voice`: the hook uses it only in the negotiation URL, so it is not modelled.
- The 500 ms settle delay after the initial stop (components/chat-window/use-webrtc.ts:188) and all async interleaving: the model is sequential.
- React details, because the model applies every state update in program order:
  - batching of `setConversation` and `setStatus`;
  - `handleStartStopClick` reading the `isSessionActive` of the last render.
- `JSON.parse`/`JSON.stringify`: a payload is `Raw`, either parsed with the fields the hook reads or `Unparseable`. Fields of a non-string JSON type are not modelled.
- `uuidv4` and ISO timestamps: ids are a counter and timestamps are opaque parameters.
- Partial updates carrying `id`, `role` or `timestamp`: the hook never passes them, so `Partial` has only `text`, `status` and `isFinal`.
- Whether the data channel is open: `sendTextMessage` before `onopen`, and the ordering of the `session.update` before other traffic, are not modelled. `ConfigureDataChannel` is the `onopen` event.
- The `useEffect` that registers tools under remapped names (components/chat-window/use-webrtc.ts:320-333). The unmount clean-up (335-339) is just a call of the modelled `stopSession`.
- Reading the registry: the hook never does, and it has no function-call dispatch.
- Logging with `console.error` of a payload that fails to parse and of a failed token fetch or start (components/chat-window/use-webrtc.ts:161, 177, 249): it has no effect on the state.
- Session.AudioSession.StartSession: after a failure the "Error: …" status, overwritten within the same step, is not part of the postcondition.
