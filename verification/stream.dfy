/**
 * The interactive session handles `Tts` and `Stt`: objects holding an open socket,
 * a session, the `ready` frame and (for `Stt`) the setup that was sent. The caller
 * drives them: it sends the setup, text, audio, flush and end-of-stream frames one
 * by one, and reads frames with `recv` or by iteration.
 *
 * The socket is an object with the messages the server will deliver (`inbound`) and
 * the frames written to it (`sent`). A read with nothing left to deliver would wait
 * forever; it is reported as `Blocked`.
 */
module Stream {
  import opened Values
  import Audio
  import Client
  import Speech

  const TTS_ROUTE := "speech/tts"
  const STT_ROUTE := "speech/asr"
  const DEFAULT_FLUSH_ID := 0
  const NDARRAY_FORMAT_MESSAGE := "audio np.ndarray can only be sent when input_format is 'pcm'"

  /** What a reading call gives: a value, a raised exception, or a wait that never ends. */
  datatype Reply<T> = Got(value: T) | Raised(error: Error) | Blocked

  /** A websocket connection with the server's side scripted. */
  class Socket {
    var inbound: seq<WsMessage>
    var sent: seq<Dict>
    var closed: bool

    constructor (script: seq<WsMessage>)
      ensures inbound == script && sent == [] && !closed
    {
      inbound := script;
      sent := [];
      closed := false;
    }

    /** `send_json` */
    method SendJson(frame: Dict)
      modifies this
      ensures sent == old(sent) + [frame]
      ensures inbound == old(inbound) && closed == old(closed)
    {
      sent := sent + [frame];
    }

    /** `receive`: the next message, or None when nothing more will arrive. */
    method Receive() returns (m: Option<WsMessage>)
      modifies this
      ensures old(inbound) == [] ==> m.None? && inbound == []
      ensures old(inbound) != [] ==> m == Some(old(inbound)[0]) && inbound == old(inbound)[1..]
      ensures sent == old(sent) && closed == old(closed)
    {
      if inbound == [] {
        return None;
      }
      m := Some(inbound[0]);
      inbound := inbound[1..];
    }

    method Close()
      modifies this
      ensures closed && sent == old(sent) && inbound == old(inbound)
    {
      closed := true;
    }
  }

  /** An `aiohttp.ClientSession` carrying the client's headers. */
  class Session {
    const headers: Dict
    var closed: bool

    constructor (headers: Dict)
      ensures this.headers == headers && !closed
    {
      this.headers := headers;
      closed := false;
    }

    method Close()
      modifies this
      ensures closed
    {
      closed := true;
    }
  }

  // ---------------------------------------------------------------- frames

  /** The setup frame of `send_setup`: the given fields plus `"type": "setup"`, with a non-string `json_config` as JSON text. */
  function SetupPayload(setup: Dict, lib: Lib): (p: Dict)
    ensures HasType(p, "setup") && p.Keys == setup.Keys + {"type"}
    ensures forall k :: k in setup && k != "type" && k != "json_config" ==> p[k] == setup[k]
    ensures "json_config" in p ==> p["json_config"].Null? || p["json_config"].Str?
  {
    Speech.StringifyConfig(setup["type" := Str("setup")], lib)
  }

  /**
   * The text frame of `send_text`: `client_req_id` is present exactly when one is
   * given and it is not None; an omitted argument and an explicit None both leave it out.
   */
  function TextPayload(text: Value, clientReqId: Option<Value>): (p: Dict)
    ensures HasType(p, "text") && "text" in p && p["text"] == text
    ensures "client_req_id" in p <==> clientReqId.Some? && !clientReqId.value.Null?
    ensures "client_req_id" in p ==> p["client_req_id"] == clientReqId.value
    ensures p.Keys <= {"type", "text", "client_req_id"}
  {
    var payload := map["type" := Str("text"), "text" := text];
    if clientReqId.Some? && !clientReqId.value.Null? then payload["client_req_id" := clientReqId.value] else payload
  }

  /** The flush frame of `send_flush`, with id 0 when none is given. */
  function FlushPayload(flushId: Option<Value>): (p: Dict)
    ensures HasType(p, "flush") && p.Keys == {"type", "flush_id"}
    ensures p["flush_id"] == if flushId.Some? then flushId.value else Int(DEFAULT_FLUSH_ID)
  {
    map["type" := Str("flush"), "flush_id" := if flushId.Some? then flushId.value else Int(DEFAULT_FLUSH_ID)]
  }

  /**
   * The frames a session writes are those of the one-shot stream: the same setup,
   * a text frame without `client_req_id` like the one-shot text mapping, and the
   * same `end_of_stream`.
   */
  lemma SessionFramesMatchStream(setup: Dict, text: Value, lib: Lib)
    ensures Object(SetupPayload(setup, lib)) == Speech.TtsSetupFrame(setup, lib)
    ensures Object(TextPayload(text, None)) == Speech.FormatText(text).value
    ensures Object(Tagged("end_of_stream")) == Client.EndOfStream()
  {
    assert SetupPayload(setup, lib) == Client.SetupFrame(Speech.StringifyConfig(setup, lib));
  }

  /**
   * The audio frame of `Stt.send_audio`: an array needs an `input_format` starting
   * with "pcm" in the sent setup and passes the dtype and ndim checks; bytes are sent
   * as they are; anything else is not bytes-like.
   */
  function AudioPayload(setup: Dict, audio: Value, lib: Lib): (r: Result<Dict>)
    ensures audio.Blob? ==> r == Ok(Speech.AudioFields(lib.b64encode(audio.data)))
    ensures !audio.Blob? && !audio.Array? ==> r == Err(TypeError(Speech.BYTES_LIKE_MESSAGE))
    ensures audio.Array? && "input_format" !in setup ==> r == Err(KeyError("input_format"))
    ensures audio.Array? && "input_format" in setup && setup["input_format"].Blob? ==> r == Err(TypeError(BYTES_PREFIX_MESSAGE))
    ensures (audio.Array? && "input_format" in setup && !setup["input_format"].Str? && !setup["input_format"].Blob?) ==>
      r == Err(AttributeError("startswith"))
    ensures (audio.Array? && "input_format" in setup && setup["input_format"].Str? &&
             !StartsWith(setup["input_format"].s, "pcm")) ==> r == Err(ValueError(NDARRAY_FORMAT_MESSAGE))
    ensures (audio.Array? && "input_format" in setup && setup["input_format"].Str? &&
             StartsWith(setup["input_format"].s, "pcm")) ==>
        (r.Ok? <==> Speech.FormatAudio(audio, lib).Ok?) &&
        (r.Ok? ==> Object(r.value) == Speech.FormatAudio(audio, lib).value) &&
        (r.Err? ==> r.error == Speech.FormatAudio(audio, lib).error)
  {
    match audio
    case Array(a) =>
      if "input_format" !in setup then Err(KeyError("input_format"))
      else if !setup["input_format"].Str? then Err(StartsWithFailure(setup["input_format"]))
      else if !StartsWith(setup["input_format"].s, "pcm") then Err(ValueError(NDARRAY_FORMAT_MESSAGE))
      else
        (match Audio.AsInt16Vector(a, lib)
         case Err(e) => Err(e)
         case Ok(w) => Ok(Speech.AudioFields(lib.b64encode(Audio.ToBytes(w.items)))))
    case Blob(b) => Ok(Speech.AudioFields(lib.b64encode(b)))
    case _ => Err(TypeError(Speech.BYTES_LIKE_MESSAGE))
  }

  // ---------------------------------------------------------------- reading

  /** The position of the first message `recv` acts on: a CLOSE or a TEXT message. */
  function FirstDelivered(msgs: seq<WsMessage>): (k: nat)
    ensures k <= |msgs|
    ensures k < |msgs| ==> KindOf(msgs[k]) == CLOSE || KindOf(msgs[k]) == TEXT
    ensures forall j :: 0 <= j < k ==> KindOf(msgs[j]) != CLOSE && KindOf(msgs[j]) != TEXT
  {
    if msgs == [] then 0
    else if KindOf(msgs[0]) == CLOSE || KindOf(msgs[0]) == TEXT then 0
    else 1 + FirstDelivered(msgs[1..])
  }

  /** The messages left after `recv` has read up to and including the one it acts on. */
  function AfterDelivered(msgs: seq<WsMessage>): seq<WsMessage>
  {
    var k := FirstDelivered(msgs);
    if k < |msgs| then msgs[k + 1..] else []
  }

  /** Messages that are neither CLOSE nor TEXT in front of the rest change nothing `recv` sees. */
  lemma {:induction false} SkippedMessagesAreInvisible(skipped: seq<WsMessage>, msgs: seq<WsMessage>)
    requires forall j :: 0 <= j < |skipped| ==> KindOf(skipped[j]) != CLOSE && KindOf(skipped[j]) != TEXT
    ensures FirstDelivered(skipped + msgs) == |skipped| + FirstDelivered(msgs)
    ensures AfterDelivered(skipped + msgs) == AfterDelivered(msgs)
  {
    if skipped == [] {
      assert skipped + msgs == msgs;
    } else {
      assert (skipped + msgs)[0] == skipped[0];
      assert (skipped + msgs)[1..] == skipped[1..] + msgs;
      SkippedMessagesAreInvisible(skipped[1..], msgs);
    }
    var k := FirstDelivered(msgs);
    if k < |msgs| {
      assert (skipped + msgs)[|skipped| + k + 1..] == msgs[k + 1..];
    }
  }

  /** The reading loop of `recv`: discards messages until a CLOSE or a TEXT message. */
  method NextDelivered(ws: Socket) returns (m: Option<WsMessage>)
    modifies ws
    ensures var msgs := old(ws.inbound); var k := FirstDelivered(msgs);
      (k < |msgs| ==> m == Some(msgs[k])) && (k == |msgs| ==> m.None?)
    ensures ws.inbound == AfterDelivered(old(ws.inbound))
    ensures ws.sent == old(ws.sent) && ws.closed == old(ws.closed)
  {
    ghost var msgs := ws.inbound;
    ghost var j := 0;
    while true
      invariant 0 <= j <= FirstDelivered(msgs)
      invariant ws.inbound == msgs[j..]
      invariant ws.sent == old(ws.sent) && ws.closed == old(ws.closed)
      decreases |ws.inbound|
    {
      var msg := ws.Receive();
      if msg.None? {
        return None;
      }
      if KindOf(msg.value) == CLOSE || KindOf(msg.value) == TEXT {
        return msg;
      }
      assert msgs[j..][1..] == msgs[j + 1..];
      j := j + 1;
    }
  }

  /**
   * What `Tts.recv` makes of a frame: KeyError without a `type`, a raise on `error`,
   * `stop_s` filled in on `text`, the payload decoded on `audio`, anything else as it is.
   */
  function NormalizeTtsFrame(data: Dict, lib: Lib): (r: Result<Dict>)
    ensures "type" !in data ==> r == Err(KeyError("type"))
    ensures HasType(data, "error") ==> r == Err(ServerError(data))
    ensures r.Ok? ==> r.value.Keys == data.Keys + (if HasType(data, "text") then {"stop_s"} else {})
    ensures r.Ok? ==> forall k :: k in data && k != "stop_s" && k != "audio" ==> r.value[k] == data[k]
    ensures HasType(data, "text") ==>
      r == Ok(data["stop_s" := if "stop_s" in data then data["stop_s"] else Get(data, "start_s", Float(0.0))])
    ensures HasType(data, "audio") ==>
      (r.Ok? <==> Speech.DecodeAudio(data, lib).Ok?) &&
      (r.Ok? ==> r.value["audio"] == Blob(Speech.DecodeAudio(data, lib).value)) &&
      (r.Err? ==> r.error == Speech.DecodeAudio(data, lib).error)
    ensures "type" in data && !HasType(data, "error") && !HasType(data, "text") && !HasType(data, "audio") ==> r == Ok(data)
  {
    if "type" !in data then Err(KeyError("type"))
    else
      var msgType := data["type"];
      if msgType == Str("error") then Err(ServerError(data))
      else if msgType == Str("text") then
        var start := Get(data, "start_s", Float(0.0));
        Ok(data["stop_s" := Get(data, "stop_s", start)])
      else if msgType == Str("audio") then
        match Speech.DecodeAudio(data, lib)
        case Err(e) => Err(e)
        case Ok(b) => Ok(data["audio" := Blob(b)])
      else Ok(data)
  }

  /** A normalised text frame stands for the same segment as the raw one, and normalising it again changes nothing. */
  lemma NormalizedTextKeepsSegment(data: Dict, lib: Lib)
    requires HasType(data, "text")
    ensures NormalizeTtsFrame(data, lib).Ok?
    ensures Speech.SegmentOf(NormalizeTtsFrame(data, lib).value) == Speech.SegmentOf(data)
    ensures NormalizeTtsFrame(NormalizeTtsFrame(data, lib).value, lib) == NormalizeTtsFrame(data, lib)
  {
    var once := NormalizeTtsFrame(data, lib).value;
    assert once["stop_s" := once["stop_s"]] == once;
  }

  /** What `Stt.recv` makes of a frame: KeyError without a `type`, a raise on `error`, anything else unchanged. */
  function CheckSttFrame(data: Dict): (r: Result<Dict>)
    ensures r.Ok? <==> "type" in data && !HasType(data, "error")
    ensures r.Ok? ==> r.value == data
    ensures "type" !in data ==> r == Err(KeyError("type"))
    ensures HasType(data, "error") ==> r == Err(ServerError(data))
  {
    if "type" !in data then Err(KeyError("type"))
    else if data["type"] == Str("error") then Err(ServerError(data))
    else Ok(data)
  }

  /** What `recv` returns for the messages still to come: the handled frame, None on CLOSE, or a wait. */
  function RecvReply(msgs: seq<WsMessage>, handled: Dict -> Result<Dict>): Reply<Option<Dict>>
  {
    var k := FirstDelivered(msgs);
    if k == |msgs| then Blocked
    else match msgs[k]
      case TextMsg(frame) =>
        (match handled(frame)
         case Err(e) => Raised(e)
         case Ok(d) => Got(Some(d)))
      case _ => Got(None)
  }

  function TtsHandler(lib: Lib): Dict -> Result<Dict>
  {
    (d: Dict) => NormalizeTtsFrame(d, lib)
  }

  function SttHandler(): Dict -> Result<Dict>
  {
    (d: Dict) => CheckSttFrame(d)
  }

  /**
   * `recv` returns None exactly when the first CLOSE comes before any TEXT message;
   * it blocks exactly when neither is left; otherwise it acts on the first TEXT message.
   */
  lemma RecvReplyCases(msgs: seq<WsMessage>, handled: Dict -> Result<Dict>)
    ensures RecvReply(msgs, handled) == Got(None) <==>
      exists k :: 0 <= k < |msgs| && msgs[k].CloseMsg? &&
        forall j :: 0 <= j < k ==> !msgs[j].CloseMsg? && !msgs[j].TextMsg?
    ensures RecvReply(msgs, handled).Blocked? <==> forall j :: 0 <= j < |msgs| ==> !msgs[j].CloseMsg? && !msgs[j].TextMsg?
  {
    var k := FirstDelivered(msgs);
    if k < |msgs| && msgs[k].CloseMsg? {
      assert forall j :: 0 <= j < k ==> !msgs[j].CloseMsg? && !msgs[j].TextMsg?;
    }
    if RecvReply(msgs, handled) != Got(None) {
      forall k' | 0 <= k' < |msgs| && msgs[k'].CloseMsg?
        ensures exists j :: 0 <= j < k' && (msgs[j].CloseMsg? || msgs[j].TextMsg?)
      {
        assert k <= k';
        if k == k' {
          assert false;
        }
        assert msgs[k].CloseMsg? || msgs[k].TextMsg?;
      }
    }
  }

  // ---------------------------------------------------------------- Tts

  /** `stream.Tts` */
  class Tts {
    const route: string
    const kwargs: Dict
    const sendSetupOnStart: bool
    const headers: Dict
    var ws: Socket?
    var session: Session?
    var ready: Option<Dict>

    constructor (headers: Dict, route: string, sendSetupOnStart: bool, kwargs: Dict)
      ensures this.headers == headers && this.route == route && this.sendSetupOnStart == sendSetupOnStart
      ensures this.kwargs == kwargs && ws == null && session == null && ready.None?
    {
      this.headers := headers;
      this.route := route;
      this.sendSetupOnStart := sendSetupOnStart;
      this.kwargs := kwargs;
      ws := null;
      session := null;
      ready := None;
    }

    /**
     * `__aenter__` on a freshly connected socket: with `send_setup_on_start`, sends the
     * setup and keeps the `ready` frame of the handshake; without it, sends nothing and
     * leaves `ready` None.
     */
    method Enter(socket: Socket, lib: Lib) returns (r: Reply<Option<Dict>>)
      modifies this, socket
      ensures ws == socket && session != null && fresh(session) && session.headers == headers && !session.closed
      ensures !sendSetupOnStart ==>
        r == Got(None) && ready.None? && socket.sent == old(socket.sent) && socket.inbound == old(socket.inbound)
      ensures socket.closed == old(socket.closed)
      ensures sendSetupOnStart ==> socket.sent == old(socket.sent) + [SetupPayload(kwargs, lib)]
      ensures sendSetupOnStart ==> var hs := Handshake(old(socket.inbound));
        socket.inbound == (if old(socket.inbound) == [] then [] else old(socket.inbound)[1..]) &&
        (hs.Got? ==> r == Got(Some(hs.value)) && ready == Some(hs.value)) &&
        (hs.Raised? ==> r == Raised(hs.error) && ready == old(ready)) &&
        (hs.Blocked? ==> r.Blocked? && ready == old(ready))
    {
      session := new Session(headers);
      ws := socket;
      if !sendSetupOnStart {
        ready := None;
        return Got(None);
      }
      var sent := SendSetup(kwargs, lib);
      var hs := WaitForReady();
      match hs {
        case Got(data) =>
          ready := Some(data);
          r := Got(Some(data));
        case Raised(e) =>
          r := Raised(e);
        case Blocked =>
          r := Blocked;
      }
    }

    /** `__aexit__`: closes the socket and the session when they exist. */
    method Exit()
      modifies ws, session
      ensures ws != null ==> ws.closed && ws.sent == old(ws.sent) && ws.inbound == old(ws.inbound)
      ensures session != null ==> session.closed
    {
      if ws != null {
        ws.Close();
      }
      if session != null {
        session.Close();
      }
    }

    /** `send_setup` */
    method SendSetup(setup: Dict, lib: Lib) returns (r: Outcome)
      modifies ws
      ensures ws == null ==> r == Fail(ConnectionNotOpen)
      ensures ws != null ==> r == Pass && ws.sent == old(ws.sent) + [SetupPayload(setup, lib)]
      ensures ws != null ==> ws.inbound == old(ws.inbound) && ws.closed == old(ws.closed)
    {
      if ws == null {
        return Fail(ConnectionNotOpen);
      }
      ws.SendJson(SetupPayload(setup, lib));
      r := Pass;
    }

    /** `send_text` */
    method SendText(text: Value, clientReqId: Option<Value>) returns (r: Outcome)
      modifies ws
      ensures ws == null ==> r == Fail(ConnectionNotOpen)
      ensures ws != null ==> r == Pass && ws.sent == old(ws.sent) + [TextPayload(text, clientReqId)]
      ensures ws != null ==> ws.inbound == old(ws.inbound) && ws.closed == old(ws.closed)
    {
      if ws == null {
        return Fail(ConnectionNotOpen);
      }
      ws.SendJson(TextPayload(text, clientReqId));
      r := Pass;
    }

    /** `send_eos`: the request id goes into a payload that is never sent; the frame sent is always the bare `end_of_stream`. */
    method SendEos(clientReqId: Option<Value>) returns (r: Outcome)
      modifies ws
      ensures ws == null ==> r == Fail(ConnectionNotOpen)
      ensures ws != null ==> r == Pass && ws.sent == old(ws.sent) + [Tagged("end_of_stream")]
      ensures ws != null ==> ws.inbound == old(ws.inbound) && ws.closed == old(ws.closed)
    {
      if ws == null {
        return Fail(ConnectionNotOpen);
      }
      var payload := Tagged("end_of_stream");
      if clientReqId.Some? && !clientReqId.value.Null? {
        payload := payload["client_req_id" := clientReqId.value];
      }
      ws.SendJson(Tagged("end_of_stream"));
      r := Pass;
    }

    /** `wait_for_ready`: reads one message, which must be a TEXT frame of type `ready`. */
    method WaitForReady() returns (r: Reply<Dict>)
      modifies ws
      ensures ws == null ==> r == Raised(ConnectionNotOpen)
      ensures ws != null ==> r == Handshake(old(ws.inbound))
      ensures ws != null ==> ws.inbound == (if old(ws.inbound) == [] then [] else old(ws.inbound)[1..])
      ensures ws != null ==> ws.sent == old(ws.sent) && ws.closed == old(ws.closed)
    {
      if ws == null {
        return Raised(ConnectionNotOpen);
      }
      r := ReadReady(ws);
    }

    /** `recv`: the next frame normalised, None on CLOSE; an unknown `ready` is remembered. */
    method Recv(lib: Lib) returns (r: Reply<Option<Dict>>)
      modifies this, ws
      ensures ws == old(ws) && session == old(session)
      ensures old(ws) == null ==> r == Raised(ConnectionNotOpen) && ready == old(ready)
      ensures old(ws) != null ==> r == RecvReply(old(ws.inbound), TtsHandler(lib))
      ensures old(ws) != null ==> ws.inbound == AfterDelivered(old(ws.inbound))
      ensures old(ws) != null ==> ws.sent == old(ws.sent) && ws.closed == old(ws.closed)
      ensures ready == if r.Got? && r.value.Some? && HasType(r.value.value, "ready") && old(ready).None?
                       then Some(r.value.value) else old(ready)
    {
      if ws == null {
        return Raised(ConnectionNotOpen);
      }
      var msg := NextDelivered(ws);
      if msg.None? {
        return Blocked;
      }
      match msg.value {
        case TextMsg(data) =>
          var normalized := NormalizeTtsFrame(data, lib);
          if normalized.Err? {
            return Raised(normalized.error);
          }
          if TypeOf(normalized.value) == Str("ready") && ready.None? {
            ready := Some(normalized.value);
          }
          r := Got(Some(normalized.value));
        case _ =>
          r := Got(None);
      }
    }

    /** `__anext__`: the next frame, with StopAsyncIteration exactly where `recv` returns None. */
    method Next(lib: Lib) returns (r: Reply<Dict>)
      modifies this, ws
      ensures ws == old(ws) && session == old(session)
      ensures old(ws) == null ==> r == Raised(ConnectionNotOpen)
      ensures old(ws) != null ==> var reply := RecvReply(old(ws.inbound), TtsHandler(lib));
        (reply == Got(None) <==> r == Raised(StopAsyncIteration)) &&
        (reply.Got? && reply.value.Some? ==> r == Got(reply.value.value)) &&
        (reply.Raised? ==> r == Raised(reply.error)) &&
        (reply.Blocked? ==> r.Blocked?) &&
        ws.inbound == AfterDelivered(old(ws.inbound))
      ensures old(ws) != null ==> ws.sent == old(ws.sent) && ws.closed == old(ws.closed)
      ensures ready == if r.Got? && HasType(r.value, "ready") && old(ready).None? then Some(r.value) else old(ready)
    {
      var msg := Recv(lib);
      match msg {
        case Got(data) =>
          if data.None? {
            return Raised(StopAsyncIteration);
          }
          r := Got(data.value);
        case Raised(e) =>
          r := Raised(e);
        case Blocked =>
          r := Blocked;
      }
    }
  }

  /** The ready handshake on the messages still to come: the first must be a TEXT frame of type `ready`. */
  function Handshake(msgs: seq<WsMessage>): (r: Reply<Dict>)
    ensures r.Blocked? <==> msgs == []
    ensures r.Got? <==> msgs != [] && msgs[0].TextMsg? && HasType(msgs[0].frame, "ready")
    ensures r.Got? ==> r.value == msgs[0].frame
    ensures msgs != [] && !msgs[0].TextMsg? ==> r == Raised(UnexpectedMessageType(KindOf(msgs[0])))
    ensures msgs != [] && msgs[0].TextMsg? && !HasType(msgs[0].frame, "ready") ==> r == Raised(ExpectedReady(msgs[0].frame))
  {
    if msgs == [] then Blocked
    else if KindOf(msgs[0]) != TEXT then Raised(UnexpectedMessageType(KindOf(msgs[0])))
    else if TypeOf(msgs[0].frame) != Str("ready") then Raised(ExpectedReady(msgs[0].frame))
    else Got(msgs[0].frame)
  }

  /** The reading half of `wait_for_ready`, shared by both handles. */
  method ReadReady(ws: Socket) returns (r: Reply<Dict>)
    modifies ws
    ensures r == Handshake(old(ws.inbound))
    ensures ws.inbound == (if old(ws.inbound) == [] then [] else old(ws.inbound)[1..])
    ensures ws.sent == old(ws.sent) && ws.closed == old(ws.closed)
  {
    var msg := ws.Receive();
    if msg.None? {
      return Blocked;
    }
    if KindOf(msg.value) != TEXT {
      return Raised(UnexpectedMessageType(KindOf(msg.value)));
    }
    var data := msg.value.frame;
    if TypeOf(data) != Str("ready") {
      return Raised(ExpectedReady(data));
    }
    r := Got(data);
  }

  // ---------------------------------------------------------------- Stt

  /** `stream.Stt` */
  class Stt {
    const route: string
    const kwargs: Dict
    const headers: Dict
    var ws: Socket?
    var session: Session?
    var setup: Option<Dict>
    var ready: Option<Dict>

    constructor (headers: Dict, route: string, kwargs: Dict)
      ensures this.headers == headers && this.route == route && this.kwargs == kwargs
      ensures ws == null && session == null && setup.None? && ready.None?
    {
      this.headers := headers;
      this.route := route;
      this.kwargs := kwargs;
      ws := null;
      session := null;
      setup := None;
      ready := None;
    }

    /** `__aenter__` on a freshly connected socket: always sends the setup and performs the handshake. */
    method Enter(socket: Socket, lib: Lib) returns (r: Reply<Dict>)
      modifies this, socket
      ensures ws == socket && session != null && fresh(session) && session.headers == headers && !session.closed
      ensures setup == Some(SetupPayload(kwargs, lib))
      ensures socket.sent == old(socket.sent) + [SetupPayload(kwargs, lib)] && socket.closed == old(socket.closed)
      ensures socket.inbound == if old(socket.inbound) == [] then [] else old(socket.inbound)[1..]
      ensures r == Handshake(old(socket.inbound))
      ensures ready == if r.Got? then Some(r.value) else old(ready)
    {
      session := new Session(headers);
      ws := socket;
      var sent := SendSetup(kwargs, lib);
      r := WaitForReady();
      if r.Got? {
        ready := Some(r.value);
      }
    }

    /** `__aexit__`: closes the socket and the session when they exist. */
    method Exit()
      modifies ws, session
      ensures ws != null ==> ws.closed && ws.sent == old(ws.sent) && ws.inbound == old(ws.inbound)
      ensures session != null ==> session.closed
    {
      if ws != null {
        ws.Close();
      }
      if session != null {
        session.Close();
      }
    }

    /** `send_setup`: sends the setup frame and records it as the setup in force. */
    method SendSetup(setup: Dict, lib: Lib) returns (r: Outcome)
      modifies this, ws
      ensures ws == old(ws) && session == old(session) && ready == old(ready)
      ensures ws == null ==> r == Fail(ConnectionNotOpen) && this.setup == old(this.setup)
      ensures ws != null ==> r == Pass && this.setup == Some(SetupPayload(setup, lib))
      ensures ws != null ==> ws.sent == old(ws.sent) + [SetupPayload(setup, lib)]
      ensures ws != null ==> ws.inbound == old(ws.inbound) && ws.closed == old(ws.closed)
    {
      if ws == null {
        return Fail(ConnectionNotOpen);
      }
      var payload := SetupPayload(setup, lib);
      this.setup := Some(payload);
      ws.SendJson(payload);
      r := Pass;
    }

    /** `send_audio`: refused before a setup was sent; otherwise the checked audio frame, or the error that stopped it. */
    method SendAudio(audio: Value, lib: Lib) returns (r: Outcome)
      modifies ws
      ensures ws == null || setup.None? ==> r == Fail(ConnectionNotOpen)
      ensures ws != null && setup.None? ==> ws.sent == old(ws.sent)
      ensures ws != null && setup.Some? ==> var p := AudioPayload(setup.value, audio, lib);
        (p.Ok? ==> r == Pass && ws.sent == old(ws.sent) + [p.value]) &&
        (p.Err? ==> r == Fail(p.error) && ws.sent == old(ws.sent))
      ensures ws != null ==> ws.inbound == old(ws.inbound) && ws.closed == old(ws.closed)
    {
      if ws == null || setup.None? {
        return Fail(ConnectionNotOpen);
      }
      var payload := AudioPayload(setup.value, audio, lib);
      if payload.Err? {
        return Fail(payload.error);
      }
      ws.SendJson(payload.value);
      r := Pass;
    }

    /** `send_eos` */
    method SendEos() returns (r: Outcome)
      modifies ws
      ensures ws == null ==> r == Fail(ConnectionNotOpen)
      ensures ws != null ==> r == Pass && ws.sent == old(ws.sent) + [Tagged("end_of_stream")]
      ensures ws != null ==> ws.inbound == old(ws.inbound) && ws.closed == old(ws.closed)
    {
      if ws == null {
        return Fail(ConnectionNotOpen);
      }
      ws.SendJson(Tagged("end_of_stream"));
      r := Pass;
    }

    /** `send_flush`, with `flush_id` 0 when the caller gives none. */
    method SendFlush(flushId: Option<Value>) returns (r: Outcome)
      modifies ws
      ensures ws == null ==> r == Fail(ConnectionNotOpen)
      ensures ws != null ==> r == Pass && ws.sent == old(ws.sent) + [FlushPayload(flushId)]
      ensures ws != null ==> ws.inbound == old(ws.inbound) && ws.closed == old(ws.closed)
    {
      if ws == null {
        return Fail(ConnectionNotOpen);
      }
      ws.SendJson(FlushPayload(flushId));
      r := Pass;
    }

    /** `wait_for_ready` */
    method WaitForReady() returns (r: Reply<Dict>)
      modifies ws
      ensures ws == null ==> r == Raised(ConnectionNotOpen)
      ensures ws != null ==> r == Handshake(old(ws.inbound))
      ensures ws != null ==> ws.inbound == (if old(ws.inbound) == [] then [] else old(ws.inbound)[1..])
      ensures ws != null ==> ws.sent == old(ws.sent) && ws.closed == old(ws.closed)
    {
      if ws == null {
        return Raised(ConnectionNotOpen);
      }
      r := ReadReady(ws);
    }

    /** `recv`: the next frame unchanged, None on CLOSE, a raise on `error`. */
    method Recv() returns (r: Reply<Option<Dict>>)
      modifies ws
      ensures old(ws) == null ==> r == Raised(ConnectionNotOpen)
      ensures old(ws) != null ==> r == RecvReply(old(ws.inbound), SttHandler())
      ensures old(ws) != null ==> ws.inbound == AfterDelivered(old(ws.inbound))
      ensures old(ws) != null ==> ws.sent == old(ws.sent) && ws.closed == old(ws.closed)
    {
      if ws == null {
        return Raised(ConnectionNotOpen);
      }
      var msg := NextDelivered(ws);
      if msg.None? {
        return Blocked;
      }
      match msg.value {
        case TextMsg(data) =>
          var checked := CheckSttFrame(data);
          if checked.Err? {
            return Raised(checked.error);
          }
          r := Got(Some(checked.value));
        case _ =>
          r := Got(None);
      }
    }

    /** `__anext__`: the next frame, with StopAsyncIteration exactly where `recv` returns None. */
    method Next() returns (r: Reply<Dict>)
      modifies ws
      ensures old(ws) == null ==> r == Raised(ConnectionNotOpen)
      ensures old(ws) != null ==> var reply := RecvReply(old(ws.inbound), SttHandler());
        (reply == Got(None) <==> r == Raised(StopAsyncIteration)) &&
        (reply.Got? && reply.value.Some? ==> r == Got(reply.value.value)) &&
        (reply.Raised? ==> r == Raised(reply.error)) &&
        (reply.Blocked? ==> r.Blocked?) &&
        ws.inbound == AfterDelivered(old(ws.inbound))
      ensures old(ws) != null ==> ws.sent == old(ws.sent) && ws.closed == old(ws.closed)
    {
      var msg := Recv();
      match msg {
        case Got(data) =>
          if data.None? {
            return Raised(StopAsyncIteration);
          }
          r := Got(data.value);
        case Raised(e) =>
          r := Raised(e);
        case Blocked =>
          r := Blocked;
      }
    }
  }
}
