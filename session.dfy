/**
 * The `useWebRTCAudioSession` hook as an object: its React state (`status`,
 * `isSessionActive`, `conversation`), its refs (the four resource handles,
 * the function registry, the ephemeral id) and what it sends on the data
 * channel. Browser and network steps of `startSession` are given to it as
 * outcomes.
 */
module Session {
  import opened Wrappers
  import opened Conversation
  import opened Protocol

  /** A browser object the hook holds: a serial number standing for its identity. */
  type HandleId = nat

  /** A registered tool implementation, kept opaque. */
  type FnId = nat

  /** One `close()` (or, for the stream, stopping its tracks) the hook performed. */
  datatype Resource =
    | DataChannel(h: HandleId)
    | PeerConnection(h: HandleId)
    | AudioContext(h: HandleId)
    | AudioStream(h: HandleId)

  /** One `dataChannel.send`: the channel it went to and the message. */
  datatype Sent = Sent(channel: HandleId, msg: OutMsg)

  /** How one external step of `startSession` ended. */
  datatype Outcome = Ok | Failed(reason: string)

  /** The `status` string, one variant per value the hook sets. */
  datatype SessionStatus =
    | Blank
    | RequestingMicrophone
    | FetchingToken
    | Establishing
    | Established
    | Stopped
    | Error(reason: string)
  {
    /** The string the hook shows. */
    function Text(): string {
      match this
      case Blank => ""
      case RequestingMicrophone => "Requesting microphone access..."
      case FetchingToken => "Fetching ephemeral token..."
      case Establishing => "Establishing connection..."
      case Established => "Session established successfully!"
      case Stopped => "Session stopped"
      case Error(reason) => "Error: " + reason
    }
  }

  /** The ones among the given handles that are held, in the order `stopSession` releases them. */
  function Released(channel: Option<HandleId>, pc: Option<HandleId>, context: Option<HandleId>, stream: Option<HandleId>): (r: seq<Resource>)
    ensures |r| <= 4
    ensures r == [] <==> channel.None? && pc.None? && context.None? && stream.None?
  {
    (if channel.Some? then [DataChannel(channel.value)] else [])
    + (if pc.Some? then [PeerConnection(pc.value)] else [])
    + (if context.Some? then [AudioContext(context.value)] else [])
    + (if stream.Some? then [AudioStream(stream.value)] else [])
  }

  /** How many handles a start attempt acquires before it succeeds or fails. */
  function Acquired(mic: Outcome, token: Outcome, negotiation: Outcome): nat {
    if mic.Failed? then 0 else if token.Failed? then 2 else 4
  }

  /**
   * The close list after a start attempt whose media are held (channel,
   * audio context and stream as given, `n` the next fresh serial), from the
   * list `prior`: a failed token fetch closes what is held, a failed
   * negotiation also the peer connection `n` and its channel `n + 1`, and
   * success closes nothing.
   */
  function ClosedAfterMedia(prior: seq<Resource>, channel: Option<HandleId>, context: Option<HandleId>,
                            stream: Option<HandleId>, n: HandleId, token: Outcome, negotiation: Outcome): seq<Resource>
  {
    if token.Failed? then prior + Released(channel, None, context, stream)
    else if negotiation.Failed? then prior + Released(Some(n + 1), Some(n), context, stream)
    else prior
  }

  /**
   * The close list after a start attempt that begins, past its clean-up
   * guard, with the given channel and audio context held and `n` the next
   * fresh serial: a refused microphone closes what is held; otherwise the
   * previous audio context is closed as the new one replaces it, and the
   * attempt goes on with stream `n` and audio context `n + 1`.
   */
  function ClosedAfterStart(prior: seq<Resource>, channel: Option<HandleId>, context: Option<HandleId>, n: HandleId,
                            mic: Outcome, token: Outcome, negotiation: Outcome): seq<Resource>
  {
    if mic.Failed? then prior + Released(channel, None, context, None)
    else ClosedAfterMedia(prior + Released(None, None, context, None), channel, Some(n + 1), Some(n), n + 2, token, negotiation)
  }

  /** From a stopped state a start attempt closes exactly the handles it acquired, newest first. */
  lemma FreshStartReleases(prior: seq<Resource>, n: HandleId, mic: Outcome, token: Outcome, negotiation: Outcome)
    ensures mic.Failed? ==> ClosedAfterStart(prior, None, None, n, mic, token, negotiation) == prior
    ensures mic.Ok? && token.Failed? ==>
      ClosedAfterStart(prior, None, None, n, mic, token, negotiation) == prior + [AudioContext(n + 1), AudioStream(n)]
    ensures mic.Ok? && token.Ok? && negotiation.Failed? ==>
      ClosedAfterStart(prior, None, None, n, mic, token, negotiation)
      == prior + [DataChannel(n + 3), PeerConnection(n + 2), AudioContext(n + 1), AudioStream(n)]
    ensures mic.Ok? && token.Ok? && negotiation.Ok? ==> ClosedAfterStart(prior, None, None, n, mic, token, negotiation) == prior
  {
    assert prior + [] == prior;
  }

  class AudioSession {
    var conversation: seq<Turn>
    var ephemeralId: Option<Id>
    var nextId: Id
    var registry: map<string, FnId>
    var dataChannel: Option<HandleId>
    var peerConnection: Option<HandleId>
    var audioContext: Option<HandleId>
    var audioStream: Option<HandleId>
    var nextHandle: HandleId
    var status: SessionStatus
    var isSessionActive: bool
    var sent: seq<Sent>
    var closed: seq<Resource>
    /** The hook's `tools` argument. */
    const tools: Option<seq<Tool>>

    /** The conversation store part of the state. */
    function Chat(): Chat
      reads this`conversation, this`ephemeralId, this`nextId
    {
      Conversation.Chat(conversation, ephemeralId, nextId)
    }

    /** The handles held, in release order. */
    function Held(): seq<Resource>
      reads this`dataChannel, this`peerConnection, this`audioContext, this`audioStream
    {
      Released(dataChannel, peerConnection, audioContext, audioStream)
    }

    /** The four handles are held together, exactly while the session is active, and come from the counter. */
    ghost predicate HandlesValid()
      reads this`dataChannel, this`peerConnection, this`audioContext, this`audioStream,
        this`isSessionActive, this`nextHandle
    {
      dataChannel.Some? == isSessionActive && peerConnection.Some? == isSessionActive
      && audioContext.Some? == isSessionActive && audioStream.Some? == isSessionActive
      && (dataChannel.Some? ==> dataChannel.value < nextHandle)
      && (peerConnection.Some? ==> peerConnection.value < nextHandle)
      && (audioContext.Some? ==> audioContext.value < nextHandle)
      && (audioStream.Some? ==> audioStream.value < nextHandle)
    }

    ghost predicate Valid()
      reads this
    {
      Inv(Chat()) && HandlesValid()
    }

    /** The hook's first render. */
    constructor (tools: Option<seq<Tool>>)
      ensures Valid() && this.tools == tools
      ensures conversation == [] && ephemeralId.None? && registry == map[]
      ensures Held() == [] && !isSessionActive && status == Blank
      ensures sent == [] && closed == []
    {
      this.tools := tools;
      conversation, ephemeralId, nextId := [], None, 0;
      registry := map[];
      dataChannel, peerConnection, audioContext, audioStream := None, None, None, None;
      nextHandle := 0;
      status, isSessionActive := Blank, false;
      sent, closed := [], [];
    }

    /** `registerFunction`: the last registration of a name wins; other names keep their binding. */
    method RegisterFunction(name: string, fn: FnId)
      modifies this`registry
      ensures registry == old(registry)[name := fn]
      ensures name in registry && registry[name] == fn
      ensures forall n :: n in old(registry) && n != name ==> n in registry && registry[n] == old(registry)[n]
      ensures registry.Keys == old(registry).Keys + {name}
    {
      registry := registry[name := fn];
    }

    /** `configureDataChannel`, run when `channel` opens: sends exactly one `session.update`. */
    method ConfigureDataChannel(channel: HandleId)
      modifies this`sent
      ensures sent == old(sent) + [Sent(channel, SessionConfig(tools))]
    {
      sent := sent + [Sent(channel, SessionConfig(tools))];
    }

    /** `getOrCreateEphemeralUserId`. */
    method GetOrCreateEphemeralUserId(now: Stamp) returns (id: Id)
      modifies this`conversation, this`ephemeralId, this`nextId
      ensures (Chat(), id) == CreateEphemeral(old(Chat()), now)
    {
      if ephemeralId.Some? {
        id := ephemeralId.value;
      } else {
        id := nextId;
        nextId := nextId + 1;
        ephemeralId := Some(id);
        conversation := conversation + [EphemeralTurn(id, now)];
      }
    }

    /** `updateEphemeralUserMessage`. */
    method UpdateEphemeralUserMessage(p: Partial)
      modifies this`conversation
      ensures Chat() == UpdateEphemeral(old(Chat()), p)
    {
      if ephemeralId.None? {
        return;
      }
      conversation := Merged(conversation, ephemeralId.value, p);
    }

    /** `clearEphemeralUserMessage`. */
    method ClearEphemeralUserMessage()
      modifies this`ephemeralId
      ensures Chat() == ClearEphemeral(old(Chat()))
    {
      ephemeralId := None;
    }

    /** `handleDataChannelMessage`: applies one inbound payload to the store; nothing else changes. */
    method HandleDataChannelMessage(raw: Raw, now: Stamp)
      requires Valid()
      modifies this`conversation, this`ephemeralId, this`nextId
      ensures Valid()
      ensures Chat() == Dispatch(old(Chat()), Decode(raw), now)
    {
      DispatchKeepsInv(Chat(), Decode(raw), now);
      match Decode(raw)
      case SpeechStarted =>
        var _ := GetOrCreateEphemeralUserId(now);
        UpdateEphemeralUserMessage(Partial(None, Some(Speaking), None));
      case SpeechStopped =>
        UpdateEphemeralUserMessage(Partial(None, Some(Speaking), None));
      case Committed =>
        UpdateEphemeralUserMessage(Partial(Some(ProcessingText), Some(Processing), None));
      case Transcript(text) =>
        if text.Some? && text.value != "" {
          UpdateEphemeralUserMessage(Partial(text, Some(Complete), Some(true)));
          ClearEphemeralUserMessage();
        }
      case ChatMessage(role, content) =>
        if role == Some("assistant") {
          conversation := conversation + [Turn(nextId, Assistant, content, now, true, Complete)];
          nextId := nextId + 1;
        }
      case Other(_) =>
      case Malformed =>
    }

    /**
     * `stopSession`, from any state: closes the held handles (channel, peer
     * connection, audio context, stream) and nulls all four, forgets the
     * ephemeral id, empties the log and reports "Session stopped". A second
     * call closes nothing more.
     */
    method StopSession()
      modifies this`dataChannel, this`peerConnection, this`audioContext, this`audioStream,
        this`closed, this`ephemeralId, this`isSessionActive, this`status, this`conversation
      ensures closed == old(closed) + old(Held())
      ensures dataChannel.None? && peerConnection.None? && audioContext.None? && audioStream.None?
      ensures ephemeralId.None? && !isSessionActive && status == Stopped && conversation == []
      ensures old(Held()) == [] ==> closed == old(closed)
      ensures Inv(Chat())
      ensures HandlesValid()
    {
      // Each held handle is closed, in the order channel, peer connection,
      // audio context, stream, and then nulled.
      closed := closed + Held();
      dataChannel, peerConnection, audioContext, audioStream := None, None, None, None;
      ephemeralId := None;
      isSessionActive := false;
      status := Stopped;
      conversation := [];
    }

    /**
     * `getUserMedia` succeeded: the stream is kept, a previous audio context
     * is closed (not nulled) and a new one is kept.
     */
    method AcquireMedia()
      modifies this`audioStream, this`audioContext, this`nextHandle, this`closed
      ensures audioStream == Some(old(nextHandle)) && audioContext == Some(old(nextHandle) + 1)
      ensures nextHandle == old(nextHandle) + 2
      ensures closed == old(closed) + Released(None, None, old(audioContext), None)
    {
      audioStream := Some(nextHandle);
      closed := closed + Released(None, None, audioContext, None);
      audioContext := Some(nextHandle + 1);
      nextHandle := nextHandle + 2;
    }

    /** `new RTCPeerConnection()` and `pc.createDataChannel("response")`, both kept. */
    method OpenConnection()
      modifies this`peerConnection, this`dataChannel, this`nextHandle
      ensures peerConnection == Some(old(nextHandle)) && dataChannel == Some(old(nextHandle) + 1)
      ensures nextHandle == old(nextHandle) + 2
    {
      peerConnection := Some(nextHandle);
      dataChannel := Some(nextHandle + 1);
      nextHandle := nextHandle + 2;
    }

    /** The `catch` of `startSession`: an "Error: ..." status, then `stopSession`. */
    method FailStart(reason: string)
      modifies this`dataChannel, this`peerConnection, this`audioContext, this`audioStream,
        this`closed, this`ephemeralId, this`isSessionActive, this`status, this`conversation
      ensures closed == old(closed) + old(Held())
      ensures Held() == [] && ephemeralId.None? && !isSessionActive && status == Stopped && conversation == []
      ensures Inv(Chat()) && HandlesValid()
    {
      status := Error(reason);
      StopSession();
    }

    /**
     * `startSession` after its clean-up guard: acquires the stream (`mic`) and
     * an audio context, then goes on to the token and the connection. A failed
     * step runs the `catch`, whose `stopSession` leaves the status "Session
     * stopped".
     */
    method Connect(mic: Outcome, token: Outcome, negotiation: Outcome)
      requires Inv(Chat()) && peerConnection.None? && audioStream.None?
      modifies this`dataChannel, this`peerConnection, this`audioContext, this`audioStream, this`nextHandle,
        this`closed, this`ephemeralId, this`isSessionActive, this`status, this`conversation
      ensures Inv(Chat()) && HandlesValid()
      ensures closed == ClosedAfterStart(old(closed), old(dataChannel), old(audioContext), old(nextHandle), mic, token, negotiation)
      ensures nextHandle == old(nextHandle) + Acquired(mic, token, negotiation)
      ensures mic.Ok? && token.Ok? && negotiation.Ok? ==>
        isSessionActive && status == Established
        && audioStream == Some(old(nextHandle)) && audioContext == Some(old(nextHandle) + 1)
        && peerConnection == Some(old(nextHandle) + 2) && dataChannel == Some(old(nextHandle) + 3)
        && Chat() == old(Chat())
      ensures !(mic.Ok? && token.Ok? && negotiation.Ok?) ==>
        Held() == [] && !isSessionActive && status == Stopped && conversation == [] && ephemeralId.None?
    {
      status := RequestingMicrophone;
      if mic.Failed? {
        FailStart(mic.reason);
        return;
      }
      AcquireMedia();
      ConnectWithMedia(token, negotiation);
    }

    /**
     * The rest of `startSession` once the stream and audio context are held:
     * the token (`token`), the peer connection and its channel, and the
     * offer/answer exchange (`negotiation`).
     */
    method ConnectWithMedia(token: Outcome, negotiation: Outcome)
      requires Inv(Chat()) && peerConnection.None?
      requires audioStream.Some? && audioContext.Some? && audioStream.value < nextHandle && audioContext.value < nextHandle
      modifies this`dataChannel, this`peerConnection, this`audioContext, this`audioStream, this`nextHandle,
        this`closed, this`ephemeralId, this`isSessionActive, this`status, this`conversation
      ensures Inv(Chat()) && HandlesValid()
      ensures token.Ok? && negotiation.Ok? ==>
        isSessionActive && status == Established
        && audioStream == old(audioStream) && audioContext == old(audioContext)
        && peerConnection == Some(old(nextHandle)) && dataChannel == Some(old(nextHandle) + 1)
        && Chat() == old(Chat())
      ensures closed == ClosedAfterMedia(old(closed), old(dataChannel), old(audioContext), old(audioStream), old(nextHandle), token, negotiation)
      ensures nextHandle == old(nextHandle) + (if token.Failed? then 0 else 2)
      ensures !(token.Ok? && negotiation.Ok?) ==>
        Held() == [] && !isSessionActive && status == Stopped && conversation == [] && ephemeralId.None?
    {
      ghost var chat := Chat();
      status := FetchingToken;
      if token.Failed? {
        FailStart(token.reason);
        return;
      }
      status := Establishing;
      OpenConnection();
      if negotiation.Failed? {
        FailStart(negotiation.reason);
        return;
      }
      isSessionActive := true;
      status := Established;
      assert Chat() == chat;
    }

    /**
     * The control skeleton of `startSession`: it stops first when a peer
     * connection or a stream is held (the settle delay is not modelled), then
     * connects. From a valid state everything held before is released.
     */
    method StartSession(mic: Outcome, token: Outcome, negotiation: Outcome)
      requires Inv(Chat())
      modifies this`dataChannel, this`peerConnection, this`audioContext, this`audioStream, this`nextHandle,
        this`closed, this`ephemeralId, this`isSessionActive, this`status, this`conversation
      ensures Valid()
      ensures old(peerConnection.Some? || audioStream.Some?) ==>
        closed == ClosedAfterStart(old(closed) + old(Held()), None, None, old(nextHandle), mic, token, negotiation)
        && conversation == [] && ephemeralId.None?
      ensures old(peerConnection.None? && audioStream.None?) ==>
        closed == ClosedAfterStart(old(closed), old(dataChannel), old(audioContext), old(nextHandle), mic, token, negotiation)
      ensures nextHandle == old(nextHandle) + Acquired(mic, token, negotiation)
      ensures mic.Ok? && token.Ok? && negotiation.Ok? ==>
        isSessionActive && status == Established
        && audioStream == Some(old(nextHandle)) && audioContext == Some(old(nextHandle) + 1)
        && peerConnection == Some(old(nextHandle) + 2) && dataChannel == Some(old(nextHandle) + 3)
      ensures mic.Ok? && token.Ok? && negotiation.Ok? && old(peerConnection.None? && audioStream.None?) ==>
        Chat() == old(Chat())
      ensures !(mic.Ok? && token.Ok? && negotiation.Ok?) ==>
        Held() == [] && !isSessionActive && status == Stopped && conversation == [] && ephemeralId.None?
    {
      if peerConnection.Some? || audioStream.Some? {
        StopSession();
      }
      Connect(mic, token, negotiation);
    }

    /** `handleStartStopClick`: stops an active session, starts an inactive one. */
    method HandleStartStopClick(mic: Outcome, token: Outcome, negotiation: Outcome)
      requires Valid()
      modifies this`dataChannel, this`peerConnection, this`audioContext, this`audioStream, this`nextHandle,
        this`closed, this`ephemeralId, this`isSessionActive, this`status, this`conversation
      ensures Valid()
      ensures old(isSessionActive) ==>
        Held() == [] && closed == old(closed) + old(Held()) && |old(Held())| == 4
        && !isSessionActive && status == Stopped && conversation == [] && ephemeralId.None?
      ensures !old(isSessionActive) ==>
        isSessionActive == (mic.Ok? && token.Ok? && negotiation.Ok?)
        && (isSessionActive ==> Chat() == old(Chat()) && status == Established && closed == old(closed))
        && (!isSessionActive ==> Held() == [] && status == Stopped && conversation == [])
      ensures !old(isSessionActive) && mic.Failed? ==> closed == old(closed)
      ensures !old(isSessionActive) && mic.Ok? && token.Failed? ==>
        closed == old(closed) + [AudioContext(old(nextHandle) + 1), AudioStream(old(nextHandle))]
      ensures !old(isSessionActive) && mic.Ok? && token.Ok? && negotiation.Failed? ==>
        closed == old(closed) + [DataChannel(old(nextHandle) + 3), PeerConnection(old(nextHandle) + 2),
                                 AudioContext(old(nextHandle) + 1), AudioStream(old(nextHandle))]
    {
      if isSessionActive {
        StopSession();
      } else {
        ghost var n, prior := nextHandle, closed;
        StartSession(mic, token, negotiation);
        FreshStartReleases(prior, n, mic, token, negotiation);
      }
    }

    /**
     * `sendTextMessage`: nothing without a channel; otherwise appends one
     * final, complete user turn with the text and sends one
     * `conversation.item.create` carrying it on that channel.
     */
    method SendTextMessage(text: string, now: Stamp)
      requires Valid()
      modifies this`conversation, this`nextId, this`sent
      ensures Valid()
      ensures old(dataChannel).None? ==> Chat() == old(Chat()) && sent == old(sent)
      ensures old(dataChannel).Some? ==>
        Chat() == AppendFinal(old(Chat()), User, Some(text), now)
        && sent == old(sent) + [Sent(old(dataChannel).value, UserText(text))]
    {
      if dataChannel.None? {
        return;
      }
      AppendFinalKeepsInv(Chat(), User, Some(text), now);
      conversation := conversation + [Turn(nextId, User, Some(text), now, true, Complete)];
      nextId := nextId + 1;
      sent := sent + [Sent(dataChannel.value, UserText(text))];
    }
  }
}
