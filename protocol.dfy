/**
 * The control messages on the "response" data channel: the inbound events
 * `handleDataChannelMessage` switches on, and the two messages the hook sends.
 * JSON text is not modelled; a payload is either one that parsed, with the
 * fields the hook reads, or one that did not.
 */
module Protocol {
  import opened Wrappers
  import opened Conversation

  const SpeechStartedType := "input_audio_buffer.speech_started"
  const SpeechStoppedType := "input_audio_buffer.speech_stopped"
  const CommittedType := "input_audio_buffer.committed"
  const TranscriptType := "transcript"
  const MessageType := "message"

  /** The `type` strings the switch has a case for. */
  const InboundTypes: set<string> := {SpeechStartedType, SpeechStoppedType, CommittedType, TranscriptType, MessageType}

  /** The placeholder text of a committed utterance. */
  const ProcessingText := "Processing speech..."

  /** The result of `JSON.parse(event.data)`, reduced to the fields the hook reads. */
  datatype Raw =
    | Unparseable
    | Parsed(kind: string, text: Option<string>, role: Option<string>, content: Option<string>)

  /** An inbound event, one variant per case of the switch, plus the two it ignores. */
  datatype Inbound =
    | SpeechStarted
    | SpeechStopped
    | Committed
    | Transcript(text: Option<string>)
    | ChatMessage(role: Option<string>, content: Option<string>)
    | Other(kind: string)
    | Malformed

  /** Classifies a payload by its `type` string. */
  function Decode(raw: Raw): (m: Inbound)
    ensures m.Malformed? <==> raw.Unparseable?
    ensures m.Other? <==> raw.Parsed? && raw.kind !in InboundTypes
    ensures m.Transcript? ==> raw.Parsed? && raw.kind == TranscriptType && m.text == raw.text
    ensures m.ChatMessage? ==> raw.Parsed? && raw.kind == MessageType && m.role == raw.role && m.content == raw.content
    ensures raw.Parsed? && raw.kind == SpeechStartedType ==> m == SpeechStarted
    ensures raw.Parsed? && raw.kind == SpeechStoppedType ==> m == SpeechStopped
    ensures raw.Parsed? && raw.kind == CommittedType ==> m == Committed
    ensures raw.Parsed? && raw.kind == TranscriptType ==> m == Transcript(raw.text)
    ensures raw.Parsed? && raw.kind == MessageType ==> m == ChatMessage(raw.role, raw.content)
    ensures m.Other? ==> m == Other(raw.kind)
  {
    match raw
    case Unparseable => Malformed
    case Parsed(kind, text, role, content) =>
      if kind == SpeechStartedType then SpeechStarted
      else if kind == SpeechStoppedType then SpeechStopped
      else if kind == CommittedType then Committed
      else if kind == TranscriptType then Transcript(text)
      else if kind == MessageType then ChatMessage(role, content)
      else Other(kind)
  }

  /** The `type` string a known event arrives under. */
  function TypeOf(m: Inbound): string
    requires !m.Other? && !m.Malformed?
  {
    match m
    case SpeechStarted => SpeechStartedType
    case SpeechStopped => SpeechStoppedType
    case Committed => CommittedType
    case Transcript(_) => TranscriptType
    case ChatMessage(_, _) => MessageType
  }

  /** Every known event, sent under its `type` with its fields, decodes back to itself. */
  lemma DecodeRecognisesEveryEvent(m: Inbound)
    requires !m.Other? && !m.Malformed?
    ensures m.Transcript? ==> Decode(Parsed(TypeOf(m), m.text, None, None)) == m
    ensures m.ChatMessage? ==> Decode(Parsed(TypeOf(m), None, m.role, m.content)) == m
    ensures !m.Transcript? && !m.ChatMessage? ==> Decode(Parsed(TypeOf(m), None, None, None)) == m
  {
  }

  /** What the hook applies to the store for one event (the body of the switch). */
  function Dispatch(c: Chat, m: Inbound, now: Stamp): Chat {
    match m
    case SpeechStarted =>
      UpdateEphemeral(CreateEphemeral(c, now).0, Partial(None, Some(Speaking), None))
    case SpeechStopped =>
      UpdateEphemeral(c, Partial(None, Some(Speaking), None))
    case Committed =>
      UpdateEphemeral(c, Partial(Some(ProcessingText), Some(Processing), None))
    case Transcript(text) =>
      if text.Some? && text.value != "" then
        ClearEphemeral(UpdateEphemeral(c, Partial(text, Some(Complete), Some(true))))
      else c
    case ChatMessage(role, content) =>
      if role == Some("assistant") then AppendFinal(c, Assistant, content, now) else c
    case Other(_) => c
    case Malformed => c
  }

  /** Every event, including the ignored ones, keeps the store's invariant. */
  lemma DispatchKeepsInv(c: Chat, m: Inbound, now: Stamp)
    requires Inv(c)
    ensures Inv(Dispatch(c, m, now))
  {
    match m
    case SpeechStarted =>
      CreateKeepsInv(c, now);
      UpdateKeepsInv(CreateEphemeral(c, now).0, Partial(None, Some(Speaking), None));
    case SpeechStopped =>
      UpdateKeepsInv(c, Partial(None, Some(Speaking), None));
    case Committed =>
      UpdateKeepsInv(c, Partial(Some(ProcessingText), Some(Processing), None));
    case Transcript(text) =>
      if text.Some? && text.value != "" {
        FinalizeKeepsInv(c, Partial(text, Some(Complete), Some(true)));
      }
    case ChatMessage(role, content) =>
      if role == Some("assistant") {
        AppendFinalKeepsInv(c, Assistant, content, now);
      }
    case Other(_) =>
    case Malformed =>
  }

  /**
   * A whole utterance: speech_started, speech_stopped, committed and a
   * non-empty transcript T, from a store with no tracked id, leave exactly one
   * new entry, a final, complete user turn with text T, and no tracked id.
   */
  lemma SpeechUtterance(c: Chat, t: string, n1: Stamp, n2: Stamp, n3: Stamp, n4: Stamp)
    requires Inv(c) && c.ephemeral.None? && t != ""
    ensures
      var c' := Dispatch(Dispatch(Dispatch(Dispatch(c, SpeechStarted, n1), SpeechStopped, n2), Committed, n3), Transcript(Some(t)), n4);
      |c'.log| == |c.log| + 1 && c'.log[..|c.log|] == c.log
      && c'.log[|c.log|] == Turn(c.nextId, User, Some(t), n1, true, Complete)
      && c'.ephemeral.None?
  {
    var id := c.nextId;
    var start := Partial(None, Some(Speaking), None);
    var commit := Partial(Some(ProcessingText), Some(Processing), None);
    var done := Partial(Some(t), Some(Complete), Some(true));
    var c0 := CreateEphemeral(c, n1).0;
    var c1 := Dispatch(c, SpeechStarted, n1);
    var c2 := Dispatch(c1, SpeechStopped, n2);
    var c3 := Dispatch(c2, Committed, n3);
    var c4 := Dispatch(c3, Transcript(Some(t)), n4);
    assert c0.log == c.log + [EphemeralTurn(id, n1)];
    assert c1.log == Merged(c0.log, id, start) && c2.log == Merged(c1.log, id, start);
    assert c3.log == Merged(c2.log, id, commit) && c4.log == Merged(c3.log, id, done);
    forall k | 0 <= k < |c.log|
      ensures c4.log[k] == c.log[k]
    {
      assert c.log[k].id < id;
      MergedAt(c0.log, id, start, k);
      MergedAt(c1.log, id, start, k);
      MergedAt(c2.log, id, commit, k);
      MergedAt(c3.log, id, done, k);
    }
    var n := |c.log|;
    MergedAt(c0.log, id, start, n);
    MergedAt(c1.log, id, start, n);
    MergedAt(c2.log, id, commit, n);
    MergedAt(c3.log, id, done, n);
  }

  /**
   * `committed` with a tracked id rewrites that one entry to the processing
   * placeholder and leaves the length, the other entries and the id alone.
   */
  lemma CommittedMarksProcessing(c: Chat, now: Stamp)
    requires Inv(c) && c.ephemeral.Some?
    ensures
      var c' := Dispatch(c, Committed, now);
      c'.ephemeral == c.ephemeral && |c'.log| == |c.log|
      && exists k :: 0 <= k < |c.log| && c.log[k].id == c.ephemeral.value
           && c'.log[k] == c.log[k].(text := Some(ProcessingText), status := Processing)
           && forall j :: 0 <= j < |c.log| && j != k ==> c'.log[j] == c.log[j]
  {
    UpdateEphemeralSpec(c, Partial(Some(ProcessingText), Some(Processing), None));
  }

  /**
   * The events that change nothing: a transcript without text or with empty
   * text (the tracked id is kept), and speech_stopped, committed or a
   * transcript when no id is tracked.
   */
  lemma IgnoredSpeechEvents(c: Chat, text: Option<string>, now: Stamp)
    ensures text.None? || text == Some("") ==> Dispatch(c, Transcript(text), now) == c
    ensures c.ephemeral.None? ==>
      Dispatch(c, SpeechStopped, now) == c && Dispatch(c, Committed, now) == c && Dispatch(c, Transcript(text), now).log == c.log
  {
  }

  /**
   * A `message` from the assistant appends exactly one final, complete
   * assistant turn with its content under a fresh id; any other role, an
   * unknown type or a parse failure changes nothing.
   */
  lemma ChatMessageEvents(c: Chat, role: Option<string>, content: Option<string>, kind: string, now: Stamp)
    requires Inv(c)
    ensures role == Some("assistant") ==>
      var c' := Dispatch(c, ChatMessage(role, content), now);
      c'.log == c.log + [Turn(c.nextId, Assistant, content, now, true, Complete)]
      && !HasId(c.log, c.nextId) && c'.ephemeral == c.ephemeral
    ensures role != Some("assistant") ==> Dispatch(c, ChatMessage(role, content), now) == c
    ensures Dispatch(c, Other(kind), now) == c && Dispatch(c, Malformed, now) == c
  {
  }

  /** A tool descriptor; the parameter schema is kept opaque. */
  datatype Tool = Tool(name: string, description: string, parameters: string)

  /** One `{ type: "input_text", text }` part of a conversation item. */
  datatype ContentPart = ContentPart(kind: string, text: string)

  /** The `item` of a `conversation.item.create`. */
  datatype Item = Item(kind: string, role: string, content: seq<ContentPart>)

  /** The messages the hook sends. */
  datatype OutMsg =
    | SessionUpdate(modalities: seq<string>, tools: seq<Tool>, transcriptionModel: string)
    | ConversationItemCreate(item: Item)

  /** The `type` string each outbound message carries. */
  function OutType(m: OutMsg): string {
    match m
    case SessionUpdate(_, _, _) => "session.update"
    case ConversationItemCreate(_) => "conversation.item.create"
  }

  /** The `session.update` of `configureDataChannel`, for the hook's `tools` argument. */
  function SessionConfig(tools: Option<seq<Tool>>): OutMsg {
    SessionUpdate(["text", "audio"], if tools.Some? then tools.value else [], "whisper-1")
  }

  /** The `conversation.item.create` of `sendTextMessage`. */
  function UserText(text: string): OutMsg {
    ConversationItemCreate(Item("message", "user", [ContentPart("input_text", text)]))
  }

  /** The text a remote reader takes from a user text item, if the message is one. */
  function UserTextOf(m: OutMsg): Option<string> {
    match m
    case ConversationItemCreate(Item("message", "user", parts)) =>
      if |parts| == 1 && parts[0].kind == "input_text" then Some(parts[0].text) else None
    case _ => None
  }

  /**
   * The configuration is a `session.update` declaring text and audio, the
   * given tools or none when the argument is absent, and transcription by
   * "whisper-1"; a user text message is a `conversation.item.create` whose
   * text a reader gets back unchanged.
   */
  lemma OutboundMessages(tools: Option<seq<Tool>>, text: string)
    ensures OutType(SessionConfig(tools)) == "session.update"
    ensures SessionConfig(tools).modalities == ["text", "audio"] && SessionConfig(tools).transcriptionModel == "whisper-1"
    ensures tools.None? ==> SessionConfig(tools).tools == []
    ensures tools.Some? ==> SessionConfig(tools).tools == tools.value
    ensures OutType(UserText(text)) == "conversation.item.create" && UserTextOf(UserText(text)) == Some(text)
    ensures UserTextOf(SessionConfig(tools)).None?
  {
  }
}
