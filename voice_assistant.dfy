/** The voice assistant's conversation state machine: a five-valued state,
    a call-active flag, an error text and an append-only transcript, driven
    by the dialogue client's events and by the start/stop commands.

    `Next` is the specification of one event; the class `VoiceAssistant`
    holds the same state in mutable fields and has one method per event,
    each proved to move its fields exactly as `Next` says. Properties over
    arbitrary event sequences are lemmas about `Run`. */
module VoiceAssistant {
  import opened Js

  datatype AssistantState = Idle | Connecting | Listening | Thinking | Speaking

  /** The wall-clock time an entry was recorded (`new Date()`), supplied by
      the caller. */
  type Timestamp = int

  /** One transcript entry. The role is stored as the dialogue service sent
      it; it is not checked to be "user" or "assistant". */
  datatype Message = Message(role: string, text: string, timestamp: Timestamp)

  /** A `message` event's payload, reduced to the fields the handler reads. */
  datatype VapiMessage = VapiMessage(messageType: string, transcriptType: string, role: string, transcript: string)

  /** What the component asks of the dialogue client. */
  datatype VapiCall = Start(assistantId: string) | Stop

  /** Everything that can happen to the component after it is mounted:
      the six client events and the two user commands. `StartCallCommand`
      carries the configured assistant id and, when the client's `start`
      rejects, what it rejected with. */
  datatype Event =
    | CallStart
    | CallEnd
    | SpeechStart
    | SpeechEnd
    | MessageEvent(message: VapiMessage, at: Timestamp)
    | ErrorEvent(errorMessage: Option<string>)
    | StartCallCommand(assistantId: Option<string>, startFailure: Option<Thrown>)
    | StopCallCommand

  /** The component's whole observable state. `hasClient` says whether a
      dialogue client was created (and so whether its handlers exist);
      `vapiCalls` records, in order, the requests made to that client. */
  datatype Snapshot = Snapshot(
    state: AssistantState,
    isCallActive: bool,
    error: string,
    messages: seq<Message>,
    hasClient: bool,
    vapiCalls: seq<VapiCall>)

  const PublicKeyMissing: string := "Vapi public key not configured"
  const AssistantIdMissing: string := "Assistant ID not configured"
  const DefaultRuntimeError: string := "An error occurred"
  const DefaultStartError: string := "Failed to start call"

  /** The state right after the mount effect ran: without a public key no
      client is created and the error says so. */
  function Mounted(publicKey: Option<string>): (s: Snapshot)
    ensures s.state == Idle && !s.isCallActive && s.messages == [] && s.vapiCalls == []
    ensures s.hasClient <==> IsSet(publicKey)
    ensures s.error == if IsSet(publicKey) then "" else PublicKeyMissing
  {
    if IsSet(publicKey) then Snapshot(Idle, false, "", [], true, [])
    else Snapshot(Idle, false, PublicKeyMissing, [], false, [])
  }

  /** A message event that the handler records. */
  predicate IsFinalTranscript(m: VapiMessage)
  {
    m.messageType == "transcript" && m.transcriptType == "final"
  }

  /** The state after a final transcript from `role`. */
  function StateAfterTranscript(current: AssistantState, role: string): AssistantState
  {
    if role == "assistant" then Speaking
    else if role == "user" then Thinking
    else current
  }

  /** The transcript entry a final transcript produces. */
  function EntryOf(m: VapiMessage, at: Timestamp): Message
  {
    Message(m.role, m.transcript, at)
  }

  /** One step of the state machine. Client events reach the component only
      through handlers, which exist only when a client was created. No step
      creates or discards the client, the transcript keeps its entries and
      gains at most one, and every step keeps the state consistent. */
  function Next(s: Snapshot, e: Event): (r: Snapshot)
    ensures r.hasClient == s.hasClient
    ensures |s.messages| <= |r.messages| <= |s.messages| + 1
    ensures r.messages[..|s.messages|] == s.messages
    ensures Consistent(s) ==> Consistent(r)
  {
    match e
    case StartCallCommand(assistantId, startFailure) =>
      if !IsSet(assistantId) then s.(state := Idle, error := AssistantIdMissing)
      else if !s.hasClient then s.(state := Connecting, error := "")
      else
        var s' := s.(vapiCalls := s.vapiCalls + [Start(assistantId.value)]);
        if startFailure.Some? then s'.(state := Idle, error := MessageOf(startFailure.value, DefaultStartError))
        else s'.(state := Connecting, error := "")
    case StopCallCommand =>
      if s.hasClient then s.(vapiCalls := s.vapiCalls + [Stop]) else s
    case _ =>
      if !s.hasClient then s
      else match e
        case CallStart => s.(isCallActive := true, state := Listening, error := "")
        case CallEnd => s.(isCallActive := false, state := Idle)
        case SpeechStart => s
        case SpeechEnd => s
        case MessageEvent(m, at) =>
          if IsFinalTranscript(m) then
            s.(messages := s.messages + [EntryOf(m, at)], state := StateAfterTranscript(s.state, m.role))
          else s
        case ErrorEvent(msg) =>
          s.(error := OrElse(msg, DefaultRuntimeError), state := Idle, isCallActive := false)
  }

  /** The state after the events `es`, in order. No sequence of events
      creates or discards the client, and consistency holds after any of
      them. */
  function Run(s: Snapshot, es: seq<Event>): (r: Snapshot)
    ensures r.hasClient == s.hasClient
    ensures Consistent(s) ==> Consistent(r)
    decreases |es|
  {
    if es == [] then s else Run(Next(s, es[0]), es[1..])
  }

  /** The transcript entries the final-transcript events of `es` produce, in
      arrival order. */
  function FinalTurns(es: seq<Event>): seq<Message>
    decreases |es|
  {
    if es == [] then [] else TurnOf(es[0]) + FinalTurns(es[1..])
  }

  /** The transcript entry one event produces: one for a final transcript,
      none for anything else. */
  function TurnOf(e: Event): seq<Message>
  {
    match e
    case MessageEvent(m, at) => if IsFinalTranscript(m) then [EntryOf(m, at)] else []
    case _ => []
  }

  /** What holds in every reachable state: without a client nothing was
      recorded, no call is active and the state is idle or connecting; the
      state is `Listening` only during an active call. */
  ghost predicate Consistent(s: Snapshot)
  {
    (!s.hasClient ==>
      !s.isCallActive && s.messages == [] && s.vapiCalls == [] &&
      (s.state == Idle || s.state == Connecting)) &&
    (s.state == Listening ==> s.isCallActive)
  }

  /** `StatusBadge`'s label for each state: every state has one. */
  function StatusText(state: AssistantState): (text: string)
    ensures text != ""
  {
    match state
    case Idle => "Ready"
    case Connecting => "Connecting..."
    case Listening => "Listening..."
    case Thinking => "Thinking..."
    case Speaking => "Speaking..."
  }

  // ---------------------------------------------------------------------
  // Properties of single events

  /** Without a public key the error names it, no client exists, and every
      later event sequence leaves the transcript empty, the call inactive
      and the client untouched. */
  lemma {:induction false} MissingPublicKey(publicKey: Option<string>, es: seq<Event>)
    requires !IsSet(publicKey)
    ensures Mounted(publicKey).error == PublicKeyMissing && !Mounted(publicKey).hasClient
    ensures var s := Run(Mounted(publicKey), es);
      s.messages == [] && !s.isCallActive && s.vapiCalls == [] && !s.hasClient
  {
    MountedConsistent(publicKey);
  }

  /** `call-start` activates the call, listens and clears the error;
      `call-end` deactivates it and goes idle, keeping the error. */
  lemma CallStartAndEnd(s: Snapshot)
    requires s.hasClient
    ensures var t := Next(s, CallStart);
      t == s.(isCallActive := true, state := Listening, error := "")
    ensures var t := Next(s, CallEnd);
      t == s.(isCallActive := false, state := Idle)
  {
  }

  /** `speech-start` and `speech-end` change nothing at all. */
  lemma SpeechEventsChangeNothing(s: Snapshot)
    ensures Next(s, SpeechStart) == s && Next(s, SpeechEnd) == s
  {
  }

  /** A final transcript appends exactly one entry at the end, keeps the
      earlier entries, and sets the state from the role; any other message
      changes nothing. */
  lemma TranscriptMessage(s: Snapshot, m: VapiMessage, at: Timestamp)
    requires s.hasClient
    ensures var t := Next(s, MessageEvent(m, at));
      if IsFinalTranscript(m) then
        |t.messages| == |s.messages| + 1 &&
        t.messages[..|s.messages|] == s.messages &&
        t.messages[|s.messages|] == Message(m.role, m.transcript, at) &&
        (m.role == "assistant" ==> t.state == Speaking) &&
        (m.role == "user" ==> t.state == Thinking) &&
        (m.role != "assistant" && m.role != "user" ==> t.state == s.state) &&
        t.isCallActive == s.isCallActive && t.error == s.error && t.vapiCalls == s.vapiCalls
      else t == s
  {
    var t := Next(s, MessageEvent(m, at));
    if IsFinalTranscript(m) {
      assert t.messages == s.messages + [Message(m.role, m.transcript, at)];
    }
  }

  /** An `error` event shows its message, or the default when it has none,
      and ends the call. */
  lemma ErrorEventEndsCall(s: Snapshot, msg: Option<string>)
    requires s.hasClient
    ensures Next(s, ErrorEvent(msg)) ==
      s.(error := if msg.Some? && msg.value != "" then msg.value else DefaultRuntimeError,
         state := Idle, isCallActive := false)
  {
  }

  /** `startCall` without an assistant id ends idle with the id error; with
      one, it asks the client to start, and unless that rejects it stays
      connecting with no error, until `call-start` makes it listen. A
      rejection ends idle with the rejection's message. */
  lemma StartCallOutcomes(s: Snapshot, assistantId: Option<string>, failure: Option<Thrown>)
    requires s.hasClient
    ensures var t := Next(s, StartCallCommand(assistantId, failure));
      (!IsSet(assistantId) ==> t.state == Idle && t.error == AssistantIdMissing && t.vapiCalls == s.vapiCalls) &&
      (IsSet(assistantId) ==> t.vapiCalls == s.vapiCalls + [Start(assistantId.value)]) &&
      (IsSet(assistantId) && failure.None? ==> t.state == Connecting && t.error == "") &&
      (IsSet(assistantId) && failure.Some? ==>
        t.state == Idle && t.error == MessageOf(failure.value, DefaultStartError)) &&
      t.messages == s.messages && t.isCallActive == s.isCallActive
    ensures IsSet(assistantId) && failure.None? ==>
      Run(s, [StartCallCommand(assistantId, failure), CallStart]).state == Listening
  {
    var t := Next(s, StartCallCommand(assistantId, failure));
    assert Run(s, [StartCallCommand(assistantId, failure), CallStart]) == Run(t, [CallStart]);
  }

  /** Without a client (no public key), `startCall` with an assistant id
      still clears the error, so the missing-key message disappears, and the
      state stays `Connecting`: the optional call to `start` does nothing,
      and no event can ever move the state on. */
  lemma {:induction false} StartCallWithoutClient(publicKey: Option<string>, assistantId: string, failure: Option<Thrown>, es: seq<Event>)
    requires !IsSet(publicKey) && assistantId != ""
    requires forall i :: 0 <= i < |es| ==> !es[i].StartCallCommand?
    ensures var t := Next(Mounted(publicKey), StartCallCommand(Some(assistantId), failure));
      t.state == Connecting && t.error == "" && t.vapiCalls == []
    ensures Run(Next(Mounted(publicKey), StartCallCommand(Some(assistantId), failure)), es).state == Connecting
  {
    var t := Next(Mounted(publicKey), StartCallCommand(Some(assistantId), failure));
    StuckWithoutClient(t, es);
  }

  /** Without a client, no event other than a new start changes anything. */
  lemma {:induction false} StuckWithoutClient(s: Snapshot, es: seq<Event>)
    requires !s.hasClient
    requires forall i :: 0 <= i < |es| ==> !es[i].StartCallCommand?
    ensures Run(s, es) == s
    decreases |es|
  {
    if es != [] {
      assert Next(s, es[0]) == s;
      StuckWithoutClient(s, es[1..]);
    }
  }

  /** `stopCall` only asks the client to stop; the state changes when the
      client reports `call-end`. */
  lemma StopCallOnlyRequests(s: Snapshot)
    ensures var t := Next(s, StopCallCommand);
      t.state == s.state && t.isCallActive == s.isCallActive && t.error == s.error &&
      t.messages == s.messages &&
      t.vapiCalls == if s.hasClient then s.vapiCalls + [Stop] else s.vapiCalls
  {
  }

  /** A `speech-start` followed by an assistant's final transcript ends in
      `Speaking`: speech signals never decide the state. */
  lemma SpeechStartThenAssistantTranscript(s: Snapshot, text: string, at: Timestamp)
    requires s.hasClient
    ensures Run(s, [SpeechStart, MessageEvent(VapiMessage("transcript", "final", "assistant", text), at)]).state == Speaking
  {
    var es := [SpeechStart, MessageEvent(VapiMessage("transcript", "final", "assistant", text), at)];
    assert Next(s, es[0]) == s;
    assert Run(s, es) == Run(s, es[1..]);
    assert Run(s, es[1..]) == Run(Next(s, es[1]), []);
  }

  /** Every state has its own badge label. */
  lemma StatusTextDistinct(a: AssistantState, b: AssistantState)
    ensures StatusText(a) != ""
    ensures StatusText(a) == StatusText(b) <==> a == b
  {
  }

  // ---------------------------------------------------------------------
  // Properties of event sequences

  lemma MountedConsistent(publicKey: Option<string>)
    ensures Consistent(Mounted(publicKey))
  {
  }

  /** The transcript only grows: the entries before a sequence of events are
      still there afterwards, unchanged and in the same order. */
  lemma {:induction false} MessagesNeverShrink(s: Snapshot, es: seq<Event>)
    ensures |Run(s, es).messages| >= |s.messages|
    ensures Run(s, es).messages[..|s.messages|] == s.messages
    decreases |es|
  {
    TranscriptRecordsFinalTurns(s, es);
    var turns := if s.hasClient then FinalTurns(es) else [];
    assert (s.messages + turns)[..|s.messages|] == s.messages;
  }

  /** Every final transcript produces exactly one entry and nothing else
      does: after a sequence of events the transcript is the old one
      followed by the entries of the final transcripts, in arrival order. */
  lemma {:induction false} TranscriptRecordsFinalTurns(s: Snapshot, es: seq<Event>)
    ensures Run(s, es).messages == s.messages + (if s.hasClient then FinalTurns(es) else [])
    decreases |es|
  {
    if es == [] {
      assert s.messages + [] == s.messages;
    } else {
      var t := Next(s, es[0]);
      assert Run(s, es) == Run(t, es[1..]);
      assert FinalTurns(es) == TurnOf(es[0]) + FinalTurns(es[1..]);
      NextMessages(s, es[0]);
      TranscriptRecordsFinalTurns(t, es[1..]);
      if s.hasClient {
        assert t.messages == s.messages + TurnOf(es[0]);
        assert s.messages + TurnOf(es[0]) + FinalTurns(es[1..]) == s.messages + FinalTurns(es);
      } else {
        assert t.messages == s.messages;
      }
    }
  }

  /** One event adds to the transcript exactly the entry it produces, and
      only when a client exists. */
  lemma NextMessages(s: Snapshot, e: Event)
    ensures Next(s, e).messages == s.messages + (if s.hasClient then TurnOf(e) else [])
  {
    assert s.messages + [] == s.messages;
  }

  // ---------------------------------------------------------------------
  // The component

  class VoiceAssistant {
    var state: AssistantState
    var isCallActive: bool
    var error: string
    var messages: seq<Message>
    /** Whether the dialogue client reference is set. */
    var hasClient: bool
    var vapiCalls: seq<VapiCall>

    function Current(): Snapshot
      reads this
    {
      Snapshot(state, isCallActive, error, messages, hasClient, vapiCalls)
    }

    ghost predicate Valid()
      reads this
    {
      Consistent(Current())
    }

    /** Mounting: the initial state followed by the mount effect. */
    constructor (publicKey: Option<string>)
      ensures Valid() && Current() == Mounted(publicKey)
    {
      state, isCallActive, messages, vapiCalls := Idle, false, [], [];
      error := "";
      hasClient := false;
      if !IsSet(publicKey) {
        error := PublicKeyMissing;
      } else {
        hasClient := true;
      }
    }

    method OnCallStart()
      requires Valid()
      modifies this
      ensures Valid() && Current() == Next(old(Current()), CallStart)
    {
      if hasClient {
        isCallActive := true;
        state := Listening;
        error := "";
      }
    }

    method OnCallEnd()
      requires Valid()
      modifies this
      ensures Valid() && Current() == Next(old(Current()), CallEnd)
    {
      if hasClient {
        isCallActive := false;
        state := Idle;
      }
    }

    /** The handler deliberately leaves the state alone: the signal does not
        say who is speaking. */
    method OnSpeechStart()
      requires Valid()
      ensures Current() == Next(Current(), SpeechStart)
    {
    }

    method OnSpeechEnd()
      requires Valid()
      ensures Current() == Next(Current(), SpeechEnd)
    {
    }

    method OnMessage(m: VapiMessage, at: Timestamp)
      requires Valid()
      modifies this
      ensures Valid() && Current() == Next(old(Current()), MessageEvent(m, at))
    {
      if hasClient && m.messageType == "transcript" && m.transcriptType == "final" {
        messages := messages + [Message(m.role, m.transcript, at)];
        if m.role == "assistant" {
          state := Speaking;
        } else if m.role == "user" {
          state := Thinking;
        }
      }
    }

    method OnError(errorMessage: Option<string>)
      requires Valid()
      modifies this
      ensures Valid() && Current() == Next(old(Current()), ErrorEvent(errorMessage))
    {
      if hasClient {
        error := if errorMessage.Some? && errorMessage.value != "" then errorMessage.value else DefaultRuntimeError;
        state := Idle;
        isCallActive := false;
      }
    }

    method StartCall(assistantId: Option<string>, startFailure: Option<Thrown>)
      requires Valid()
      modifies this
      ensures Valid() && Current() == Next(old(Current()), StartCallCommand(assistantId, startFailure))
    {
      state := Connecting;
      error := "";
      if assistantId.None? || assistantId.value == "" {
        // the `throw` at the missing id and its `catch`, in one step
        error := AssistantIdMissing;
        state := Idle;
        return;
      }
      if hasClient {
        vapiCalls := vapiCalls + [Start(assistantId.value)];
        if startFailure.Some? {
          error := match startFailure.value
            case ErrorObject(msg) => msg
            case OtherValue => DefaultStartError;
          state := Idle;
        }
      }
    }

    method StopCall()
      requires Valid()
      modifies this
      ensures Valid() && Current() == Next(old(Current()), StopCallCommand)
    {
      if hasClient {
        vapiCalls := vapiCalls + [Stop];
      }
    }

    /** Unmount cleanup: stop the client if there is one. */
    method Cleanup()
      requires Valid()
      modifies this
      ensures Valid() && Current() == Next(old(Current()), StopCallCommand)
    {
      StopCall();
    }
  }
}
