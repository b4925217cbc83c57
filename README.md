# Voice assistant and talking avatar: a Dafny model

This project models the decision logic of a small web front end. The front
end holds a spoken conversation with an AI agent through a dialogue SDK
(Vapi). It can also show the agent as a lip-synced avatar through an avatar
SDK (Simli). Three parts are modelled.

- **`VoiceAssistant`** (`voice_assistant.dfy`) is the conversation state
  machine of the voice-only component. It has a five-valued state (`idle`,
  `connecting`, `listening`, `thinking`, `speaking`), a call-active flag, an
  error text and an append-only transcript. The dialogue client's events
  (`call-start`, `call-end`, `speech-start`, `speech-end`, `message`,
  `error`) and the `startCall`/`stopCall` commands drive it. The pure
  function `Next` specifies one event and `Run` folds a sequence of them.
  The class `VoiceAssistant` keeps the same state in fields and has one
  method per event. Each method is proved to change its fields exactly as
  `Next` says and to keep the invariant `Consistent`. The lemmas about
  `Run` cover arbitrary event sequences: the transcript only grows, and it
  holds exactly the final transcripts in arrival order.
- **`SimliVapiAvatar`** (`simli_vapi_avatar.dfy`) is the avatar component's
  call lifecycle. It covers the credential checks and their order,
  including the placeholder face id, and the flags set on success and on
  failure. It covers the rule for which remote track is forwarded to the
  avatar, and the delayed mute of the dialogue session's own audio element,
  which happens only if the element is found. It covers the unbounded poll
  for the dialogue transport object, which registers the track listener
  exactly once, and the stop-then-close order of `endCall`. Finally it
  covers the control button's label and its disabled state. The SDK
  objects are abstract. Every request made of them is appended to
  `sdkCalls`. Every answer they give, such as a rejection, whether the
  transport exists at a check, or the element a lookup finds, is a method
  argument.
- **`Topics`** (`topics.dfy`) is the tutoring-topic catalogue. It covers
  the six topics with their ids and skill levels, the first-match lookup
  `getTopicById`, and `formatTutorPrompt`.

`Js` (`js.dfy`) holds shared vocabulary. This covers optional values,
JavaScript truthiness of an optional string (present and non-empty), and
the message that a `catch` block takes from a thrown value.

Environment variables are `Option<string>` inputs. The transcript timestamp
(`new Date()`) is an integer input.

The code has none of the following, and the model does not add them:

- a `Failed` phase;
- retries or generation counters;
- a bound on the poll for the transport object;
- a route-conflict error (every `startCall` registers a new listener);
- a precedence rule between speech signals and transcripts beyond the fact
  that speech signals change nothing;
- an avatar client kept open between calls (`endCall` closes it every
  time).

Two behaviours of the code that readers may not expect are proved as
lemmas:

- Without a public key, `startCall` clears the "Vapi public key not
  configured" message and then stays `connecting` for good
  (`StartCallWithoutClient`).
- The avatar client reference is set before the credentials are checked,
  so it exists even after initialisation fails.

## Model

| member | source | states |
|---|---|---|
| `Topics.Find` | lib/topics.ts:432-434 | the lookup fails exactly when no entry has the id; when it succeeds, the result is an entry of the list and has that id |
| `Topics.FindReturnsFirst` | lib/topics.ts:433 | a successful lookup returns the first matching entry in list order |
| `Topics.FindUnique` | lib/topics.ts:432-434 | in a list with distinct ids, the lookup returns `t` if and only if `t` is in the list and has the id |
| `Topics.GetTopicById` | lib/topics.ts:432-434 | a catalogue lookup returns `t` if and only if `t` is the catalogue's entry for the id (which is unique), and `undefined` exactly when no entry has it |
| `Topics.FindUniqueAll` | lib/topics.ts:432-434 | in a list with distinct ids, for every `t`: the lookup returns `t` if and only if `t` is in the list and has the id |
| `Topics.CatalogueIdsDistinct` | lib/topics.ts:11-429 | the six catalogue ids are pairwise distinct |
| `Topics.CatalogueShape` | lib/topics.ts:8-429 | the catalogue has six entries, with the source's ids and skill levels in order; that every skill level is beginner, intermediate or advanced is guaranteed by the type and only documented here |
| `Topics.FormatTutorPrompt` | lib/topics.ts:437-445 | with no context or an empty one, the result is the system prompt; otherwise its length is that of prompt, header and context together; the system prompt is always a prefix |
| `Topics.FormatTutorPromptRecoversContext` | lib/topics.ts:440-442 | after the prompt comes the `\n\nAdditional Context:\n` header and then exactly the context; with no context nothing follows the prompt |
| `Js.IsSet` | components/voice-assistant.tsx:26 | an optional string is falsy exactly when it is `undefined` or empty, as in `!publicKey`, `!assistantId`, `if (customContext)` and the avatar's credential checks |
| `Js.MessageOf` | components/voice-assistant.tsx:109 | a caught `Error` gives its message; any other thrown value gives the fallback text, as in `err instanceof Error ? err.message : …` |
| `Js.OrElse` | components/voice-assistant.tsx:82 | the "or" default for an optional string (`error.message` or a fallback text): the value when it is set, otherwise the fallback |
| `VoiceAssistant.Next` | components/voice-assistant.tsx:34-116 | one event or command never creates or discards the client, keeps every transcript entry and adds at most one, and keeps the invariant: without a client nothing is recorded, no call is active and the state is idle or connecting; the state is listening only during an active call |
| `VoiceAssistant.Run` | components/voice-assistant.tsx:34-116 | after any event sequence the client is still there or still absent, and the invariant still holds |
| `VoiceAssistant.StatusText` | components/voice-assistant.tsx:194-203 | every state has a non-empty badge label |
| `VoiceAssistant.NextMessages` | components/voice-assistant.tsx:61-68 | one event adds to the transcript exactly the entry it produces (one per final transcript, none otherwise), and only when a client exists |
| `VoiceAssistant.Mounted` | components/voice-assistant.tsx:16-31 | after mounting, the state is idle, no call is active and nothing is recorded; a client exists if and only if the public key is set; otherwise the error is the missing-key message |
| `VoiceAssistant.MissingPublicKey` | components/voice-assistant.tsx:24-31 | without a public key the error says so and no client exists; after any event sequence the transcript is empty, no call is active and the client was never asked for anything |
| `VoiceAssistant.CallStartAndEnd` | components/voice-assistant.tsx:34-46 | `call-start` sets the call active, the state listening and clears the error, changing nothing else; `call-end` sets the call inactive and the state idle, changing nothing else |
| `VoiceAssistant.SpeechEventsChangeNothing` | components/voice-assistant.tsx:49-58 | `speech-start` and `speech-end` leave the whole state unchanged |
| `VoiceAssistant.TranscriptMessage` | components/voice-assistant.tsx:61-77 | a final transcript appends exactly one entry (role, text, time) after unchanged earlier entries; `assistant` gives speaking, `user` gives thinking, any other role keeps the state; any other message changes nothing |
| `VoiceAssistant.ErrorEventEndsCall` | components/voice-assistant.tsx:80-85 | an `error` event sets the error to its message, or to "An error occurred" when the message is absent or empty, sets the state to idle and the call inactive, and changes nothing else |
| `VoiceAssistant.StartCallOutcomes` | components/voice-assistant.tsx:95-111 | without an assistant id: idle and "Assistant ID not configured"; with one, the client is asked to start; on success the state is connecting with no error and a following `call-start` makes it listening; a rejection gives idle and the rejection's message (or "Failed to start call") |
| `VoiceAssistant.StartCallWithoutClient` | components/voice-assistant.tsx:95-106 | without a client, `startCall` with an id clears the error and leaves the state connecting; no later event other than another start changes that |
| `VoiceAssistant.StuckWithoutClient` | components/voice-assistant.tsx:26-31 | without a client, no event other than a start command changes anything |
| `VoiceAssistant.StopCallOnlyRequests` | components/voice-assistant.tsx:114-116 | `stopCall` only appends a stop request when a client exists; state, flags, error and transcript are unchanged |
| `VoiceAssistant.SpeechStartThenAssistantTranscript` | components/voice-assistant.tsx:49-75 | `speech-start` followed by an assistant's final transcript ends in speaking |
| `VoiceAssistant.StatusTextDistinct` | components/voice-assistant.tsx:194-203 | every state has a non-empty badge label, and two states have the same label only if they are the same state |
| `VoiceAssistant.MountedConsistent` | components/voice-assistant.tsx:16-31 | the mounted state satisfies the invariant |
| `VoiceAssistant.MessagesNeverShrink` | components/voice-assistant.tsx:68 | after any event sequence the old transcript is a prefix of the new one |
| `VoiceAssistant.TranscriptRecordsFinalTurns` | components/voice-assistant.tsx:61-68 | after any event sequence the transcript is the old one followed by one entry per final transcript, in arrival order; nothing else adds or removes entries |
| `VoiceAssistant.VoiceAssistant.constructor` | components/voice-assistant.tsx:16-31 | the fields equal `Mounted(publicKey)` and satisfy the invariant |
| `VoiceAssistant.VoiceAssistant.OnCallStart` | components/voice-assistant.tsx:34-39 | the fields move as `Next` says for `call-start`, and the invariant is kept |
| `VoiceAssistant.VoiceAssistant.OnCallEnd` | components/voice-assistant.tsx:42-46 | the fields move as `Next` says for `call-end`, and the invariant is kept |
| `VoiceAssistant.VoiceAssistant.OnSpeechStart` | components/voice-assistant.tsx:49-52 | changes nothing; the fields already agree with `Next` for `speech-start` |
| `VoiceAssistant.VoiceAssistant.OnSpeechEnd` | components/voice-assistant.tsx:55-58 | changes nothing; the fields already agree with `Next` for `speech-end` |
| `VoiceAssistant.VoiceAssistant.OnMessage` | components/voice-assistant.tsx:61-77 | the fields move as `Next` says for a message, and the invariant is kept |
| `VoiceAssistant.VoiceAssistant.OnError` | components/voice-assistant.tsx:80-85 | the fields move as `Next` says for an error, and the invariant is kept |
| `VoiceAssistant.VoiceAssistant.StartCall` | components/voice-assistant.tsx:95-112 | the fields move as `Next` says for `startCall`, and the invariant is kept |
| `VoiceAssistant.VoiceAssistant.StopCall` | components/voice-assistant.tsx:114-116 | the fields move as `Next` says for `stopCall`, and the invariant is kept |
| `VoiceAssistant.VoiceAssistant.Cleanup` | components/voice-assistant.tsx:88-92 | unmount cleanup asks a present client to stop, as `stopCall` does |
| `SimliVapiAvatar.CredentialError` | components/simli-vapi-avatar.tsx:25-31 | a missing or empty API key gives the API-key error whatever the face id is; with a key, a missing, empty or placeholder face id gives the face-id error; there is no error if and only if both are set and the face id is not the placeholder |
| `SimliVapiAvatar.InitError` | components/simli-vapi-avatar.tsx:25-58 | initialisation succeeds if and only if the credentials pass and `Initialize` does not reject; a credential error wins; then the rejection's message, or the default text |
| `SimliVapiAvatar.ForwardedTrack` | components/simli-vapi-avatar.tsx:84-92 | a started track is forwarded if and only if it has a participant, that participant is not local and the track kind is `audio`; the forwarded track is the event's own |
| `SimliVapiAvatar.ButtonLabel` | components/simli-vapi-avatar.tsx:196-202 | the label is one of the four texts; "End Call" only during a call, "Start Call" only outside one |
| `SimliVapiAvatar.ButtonDisabled` | components/simli-vapi-avatar.tsx:189 | the button is disabled exactly when the label it would show outside a call is not "Start Call" |
| `SimliVapiAvatar.ButtonLabelPriority` | components/simli-vapi-avatar.tsx:196-202 | each of the four labels appears exactly under its condition, in the priority order setting up, configuration error, end call, start call |
| `SimliVapiAvatar.ButtonEnabledIffCallAction` | components/simli-vapi-avatar.tsx:189-202 | the button is enabled if and only if its label is "End Call" or "Start Call" |
| `SimliVapiAvatar.ButtonInValidState` | components/simli-vapi-avatar.tsx:188-202 | in every reachable state the button is disabled exactly while the avatar is not initialised; once it is initialised, the label is the call action |
| `SimliVapiAvatar.SimliVapiAvatar.constructor` | components/simli-vapi-avatar.tsx:10-15 | the initial flags: not initialised, no call, no error, status "Initializing...", no avatar client, nothing requested |
| `SimliVapiAvatar.SimliVapiAvatar.InitializeSimli` | components/simli-vapi-avatar.tsx:18-60 | the client reference is always set; initialised if and only if `InitError` is none; success gives "Ready to start call" and no error; failure gives "Initialization failed" and the error; `Initialize` is requested with the fixed options only when the credentials pass |
| `SimliVapiAvatar.SimliVapiAvatar.StartCall` | components/simli-vapi-avatar.tsx:69-121 | without an avatar client nothing happens; the avatar session starts before the dialogue session; a rejection stops the sequence and leaves the call flag unchanged; while the transport is absent the checks continue; the first check that finds it registers the listener once and only then is the call active; if no check finds it the wait goes on |
| `SimliVapiAvatar.SimliVapiAvatar.OnTrackStarted` | components/simli-vapi-avatar.tsx:84-107 | a forwarded track is handed to the avatar client and a mute is scheduled for its participant; any other track changes nothing |
| `SimliVapiAvatar.SimliVapiAvatar.MuteTimerFires` | components/simli-vapi-avatar.tsx:95-105 | the oldest scheduled mute runs; a found element ends muted with volume 0; no other state changes |
| `SimliVapiAvatar.SimliVapiAvatar.EndCall` | components/simli-vapi-avatar.tsx:123-127 | stop is requested first, then the avatar client is closed, then the call is inactive; if stop rejects, neither later step happens |
| `SimliVapiAvatar.SimliVapiAvatar.Cleanup` | components/simli-vapi-avatar.tsx:64-66 | unmount cleanup closes the avatar client if there is one and changes nothing else |

## Left out

- Rendering is not modelled. This covers JSX, styling, `MessageBubble`,
  the badge emoji and colours, the status-pill colours, the avatar
  placeholders, and the voice component's start/stop button
  (components/voice-assistant.tsx:160-186). All of these are presentation.
- components/topic-selector.tsx and the three page files under `src/app`
  are not part of this model. They are presentation and routing.
- The SDKs' internals are not modelled. Their requests are recorded in
  `vapiCalls` or `sdkCalls`, and their answers are inputs.
- The avatar component's dialogue client (`new Vapi(...)` at
  components/simli-vapi-avatar.tsx:11) is assumed to exist. Its creation
  is not modelled.
- The video and audio element references passed to `Initialize` are not
  modelled, because they are DOM objects.
- The system prompt texts of the catalogue are cut to their opening
  sentence, and each topic's emoji is dropped. The lookup and the formatter
  never look inside them.
- Timers, scheduling and console logging are not modelled:
  - The 100 ms poll and mute delays are discrete steps. The poll runs over a
    finite list of observations. When no observation finds the transport,
    the model stops with the call still waiting, and nothing bounds the wait.
  - Each `await` is one atomic step, so events that arrive in the middle of
    `startCall` are not interleaved with it.
  - The intermediate status "Initializing Simli client..." is overwritten
    in the same step, so no later state shows it.
  - `console` logging is dropped.
- `SimliVapiAvatar.SimliVapiAvatar.InitializeSimli`: requires that the avatar
  is not yet initialised. The mount effect runs once. A second run of the
  effect, such as the double mount of React's development mode, is not
  modelled.
- `SimliVapiAvatar.SimliVapiAvatar.OnTrackStarted`: models one call of one
  registered listener. The model does not count how many listeners
  repeated `startCall`s have registered.
- Two kinds of `error` payload are not modelled. A `null` or `undefined`
  payload makes the source's handler throw on `error.message`. A payload
  whose `message` is not a string (an object or a number, say) is stored
  as it is by `error.message || 'An error occurred'`. The model's
  `ErrorEvent` carries only an optional string.
