/**
 * The frame-sequencing protocol of the streaming client: the frames `send` writes,
 * how `receive` sorts transport messages into chunks, skips and failures, how
 * `GradiumClient.stream` hands the received chunks to its consumer through a queue,
 * and how the client is constructed.
 *
 * The socket is replaced by an inbound message sequence and an outbound frame log;
 * the send task and the receive worker run one after the other.
 */
module Client {
  import opened Values

  /** The normal-closure status code (section 7.4.1 of RFC 6455). */
  const NORMAL_CLOSURE: int := 1000
  const NO_REASON := "No reason provided"
  const API_KEY_MESSAGE := "Missing api-key as cli or as env (GRADIUM_API_KEY)"
  const DEFAULT_BASE_URL := "https://eu.api.gradium.ai/api/"

  /** The frame `send` writes last. */
  function EndOfStream(): Value
  {
    Object(Tagged("end_of_stream"))
  }

  // ---------------------------------------------------------------- send

  /** A `map_fn` of `send`: the frame to write, `Null` to write nothing, or the exception it raises. */
  type InputMap = Value -> Result<Value>

  function MapInput(mapFn: Option<InputMap>, msg: Value): Result<Value>
  {
    if mapFn.Some? then mapFn.value(msg) else Ok(msg)
  }

  /** Frames written, and the exception that ended the writing, if any. */
  datatype Sent = Sent(frames: seq<Value>, failure: Option<Error>)

  /** The frames the inputs produce, in input order, up to the first input whose mapping raises. */
  function InputFrames(msgs: seq<Value>, mapFn: Option<InputMap>): Sent
    decreases |msgs|
  {
    if msgs == [] then Sent([], None)
    else match MapInput(mapFn, msgs[0])
      case Err(e) => Sent([], Some(e))
      case Ok(v) =>
        var rest := InputFrames(msgs[1..], mapFn);
        Sent((if v == Null then [] else [v]) + rest.frames, rest.failure)
  }

  /** Everything `send` writes: the setup, the input frames, then `end_of_stream` unless a mapping raised. */
  function SendLog(setup: Value, msgs: seq<Value>, mapFn: Option<InputMap>): (r: Sent)
    ensures |r.frames| >= 1 && r.frames[0] == setup
    ensures r.failure.None? ==> |r.frames| >= 2 && r.frames[|r.frames| - 1] == EndOfStream()
    ensures r.failure == InputFrames(msgs, mapFn).failure
  {
    var body := InputFrames(msgs, mapFn);
    Sent([setup] + body.frames + (if body.failure.None? then [EndOfStream()] else []), body.failure)
  }

  /** `send`: the setup frame, one frame per mapped input, then `end_of_stream`. */
  method Send(setup: Value, messages: seq<Value>, mapFn: Option<InputMap>) returns (out: Sent)
    ensures out == SendLog(setup, messages, mapFn)
  {
    var body := WriteInputs(messages, mapFn);
    var log := [setup] + body.frames;
    if body.failure.None? {
      log := log + [EndOfStream()];
    }
    out := Sent(log, body.failure);
  }

  /** The loop of `send`: maps and writes the inputs in order until a mapping raises. */
  method WriteInputs(messages: seq<Value>, mapFn: Option<InputMap>) returns (out: Sent)
    ensures out == InputFrames(messages, mapFn)
  {
    var written: seq<Value> := [];
    var i := 0;
    while i < |messages|
      invariant 0 <= i <= |messages|
      invariant InputFrames(messages, mapFn).frames == written + InputFrames(messages[i..], mapFn).frames
      invariant InputFrames(messages, mapFn).failure == InputFrames(messages[i..], mapFn).failure
    {
      SendStep(messages, i, mapFn, written);
      var msg := MapInput(mapFn, messages[i]);
      if msg.Err? {
        return Sent(written, Some(msg.error));
      }
      if msg.value != Null {
        written := written + [msg.value];
      }
      i := i + 1;
    }
    assert messages[i..] == [];
    assert written + [] == written;
    out := Sent(written, None);
  }

  /** The sending loop's invariant is kept by one more input, or the input's exception ends the writing. */
  lemma {:induction false} SendStep(messages: seq<Value>, i: nat, mapFn: Option<InputMap>, written: seq<Value>)
    requires i < |messages|
    requires InputFrames(messages, mapFn).frames == written + InputFrames(messages[i..], mapFn).frames
    requires InputFrames(messages, mapFn).failure == InputFrames(messages[i..], mapFn).failure
    ensures MapInput(mapFn, messages[i]).Err? ==>
      InputFrames(messages, mapFn).frames == written &&
      InputFrames(messages, mapFn).failure == Some(MapInput(mapFn, messages[i]).error)
    ensures MapInput(mapFn, messages[i]) == Ok(Null) ==>
      InputFrames(messages, mapFn).frames == written + InputFrames(messages[i + 1..], mapFn).frames
    ensures MapInput(mapFn, messages[i]).Ok? && MapInput(mapFn, messages[i]).value != Null ==>
      InputFrames(messages, mapFn).frames ==
        (written + [MapInput(mapFn, messages[i]).value]) + InputFrames(messages[i + 1..], mapFn).frames
    ensures MapInput(mapFn, messages[i]).Ok? ==>
      InputFrames(messages, mapFn).failure == InputFrames(messages[i + 1..], mapFn).failure
  {
    InputFramesStep(messages, i, mapFn);
    if MapInput(mapFn, messages[i]).Err? {
      assert written + [] == written;
    } else {
      var v := MapInput(mapFn, messages[i]).value;
      var rest := InputFrames(messages[i + 1..], mapFn).frames;
      if v == Null {
        assert [] + rest == rest;
      } else {
        assert written + ([v] + rest) == (written + [v]) + rest;
      }
    }
  }

  /** One step of the sending loop: the frames from input i are its own, then those from input i + 1. */
  lemma {:induction false} InputFramesStep(msgs: seq<Value>, i: nat, mapFn: Option<InputMap>)
    requires i < |msgs|
    ensures MapInput(mapFn, msgs[i]).Err? ==> InputFrames(msgs[i..], mapFn) == Sent([], Some(MapInput(mapFn, msgs[i]).error))
    ensures MapInput(mapFn, msgs[i]).Ok? ==>
      var v := MapInput(mapFn, msgs[i]).value;
      InputFrames(msgs[i..], mapFn).frames == (if v == Null then [] else [v]) + InputFrames(msgs[i + 1..], mapFn).frames &&
      InputFrames(msgs[i..], mapFn).failure == InputFrames(msgs[i + 1..], mapFn).failure
  {
    assert msgs[i..][0] == msgs[i];
    assert msgs[i..][1..] == msgs[i + 1..];
  }

  /** Input frames compose: those of `a + b` are those of `a` followed by those of `b`, unless `a` already failed. */
  lemma {:induction false} InputFramesAppend(a: seq<Value>, b: seq<Value>, mapFn: Option<InputMap>)
    ensures InputFrames(a + b, mapFn) ==
      if InputFrames(a, mapFn).failure.Some? then InputFrames(a, mapFn)
      else Sent(InputFrames(a, mapFn).frames + InputFrames(b, mapFn).frames, InputFrames(b, mapFn).failure)
  {
    if a == [] {
      assert a + b == b;
    } else {
      assert (a + b)[0] == a[0];
      assert (a + b)[1..] == a[1..] + b;
      InputFramesAppend(a[1..], b, mapFn);
      match MapInput(mapFn, a[0]) {
        case Err(_) =>
        case Ok(v) =>
          var head: seq<Value> := if v == Null then [] else [v];
          var ra, rb := InputFrames(a[1..], mapFn), InputFrames(b, mapFn);
          assert head + (ra.frames + rb.frames) == (head + ra.frames) + rb.frames;
      }
    }
  }

  /** An input mapped to `Null` writes nothing and leaves the other frames in place. */
  lemma DroppedInputWritesNothing(a: seq<Value>, m: Value, b: seq<Value>, mapFn: Option<InputMap>)
    requires MapInput(mapFn, m) == Ok(Null)
    ensures InputFrames(a + [m] + b, mapFn) == InputFrames(a + b, mapFn)
  {
    InputFramesAppend(a, [m] + b, mapFn);
    InputFramesAppend(a, b, mapFn);
    assert a + [m] + b == a + ([m] + b);
    assert ([m] + b)[1..] == b;
  }

  /** When every input maps to a frame, frame i is the image of input i. */
  lemma {:induction false} OneFramePerInput(msgs: seq<Value>, mapFn: Option<InputMap>)
    requires forall i :: 0 <= i < |msgs| ==> MapInput(mapFn, msgs[i]).Ok? && MapInput(mapFn, msgs[i]).value != Null
    ensures InputFrames(msgs, mapFn).failure.None?
    ensures |InputFrames(msgs, mapFn).frames| == |msgs|
    ensures forall i :: 0 <= i < |msgs| ==> InputFrames(msgs, mapFn).frames[i] == MapInput(mapFn, msgs[i]).value
  {
    if msgs != [] {
      OneFramePerInput(msgs[1..], mapFn);
      var rest := InputFrames(msgs[1..], mapFn).frames;
      assert InputFrames(msgs, mapFn).frames == [MapInput(mapFn, msgs[0]).value] + rest;
      forall i | 1 <= i < |msgs|
        ensures InputFrames(msgs, mapFn).frames[i] == MapInput(mapFn, msgs[i]).value
      {
        assert msgs[1..][i - 1] == msgs[i];
      }
    }
  }

  /**
   * When every input maps to a frame, the whole log is the setup, input i's frame at
   * position i + 1, and `end_of_stream` last.
   */
  lemma WholeLog(setup: Value, msgs: seq<Value>, mapFn: Option<InputMap>)
    requires forall i :: 0 <= i < |msgs| ==> MapInput(mapFn, msgs[i]).Ok? && MapInput(mapFn, msgs[i]).value != Null
    ensures var log := SendLog(setup, msgs, mapFn);
      log.failure.None? && |log.frames| == |msgs| + 2 && log.frames[0] == setup &&
      (forall i :: 0 <= i < |msgs| ==> log.frames[i + 1] == MapInput(mapFn, msgs[i]).value) &&
      log.frames[|msgs| + 1] == EndOfStream()
  {
    OneFramePerInput(msgs, mapFn);
    var body := InputFrames(msgs, mapFn).frames;
    var log := SendLog(setup, msgs, mapFn);
    assert log.frames == [setup] + body + [EndOfStream()];
    forall i | 0 <= i < |msgs|
      ensures log.frames[i + 1] == MapInput(mapFn, msgs[i]).value
    {
      assert log.frames[i + 1] == body[i];
    }
  }

  /** The first input whose mapping raises ends the writing: its exception is reported, nothing after it is written. */
  lemma FirstMappingFailureStops(setup: Value, msgs: seq<Value>, k: nat, mapFn: Option<InputMap>)
    requires k < |msgs| && MapInput(mapFn, msgs[k]).Err?
    requires forall j :: 0 <= j < k ==> MapInput(mapFn, msgs[j]).Ok?
    ensures SendLog(setup, msgs, mapFn).failure == Some(MapInput(mapFn, msgs[k]).error)
    ensures SendLog(setup, msgs, mapFn).frames == [setup] + InputFrames(msgs[..k], mapFn).frames
    ensures InputFrames(msgs, mapFn) == Sent(InputFrames(msgs[..k], mapFn).frames, Some(MapInput(mapFn, msgs[k]).error))
  {
    NoFailureWhileMapsSucceed(msgs[..k], mapFn);
    InputFramesAppend(msgs[..k], msgs[k..], mapFn);
    assert msgs == msgs[..k] + msgs[k..];
    assert msgs[k..][0] == msgs[k];
  }

  lemma {:induction false} NoFailureWhileMapsSucceed(msgs: seq<Value>, mapFn: Option<InputMap>)
    requires forall j :: 0 <= j < |msgs| ==> MapInput(mapFn, msgs[j]).Ok?
    ensures InputFrames(msgs, mapFn).failure.None?
  {
    if msgs != [] {
      NoFailureWhileMapsSucceed(msgs[1..], mapFn);
    }
  }

  lemma {:induction false} FramesAvoid(msgs: seq<Value>, mapFn: Option<InputMap>, v: Value)
    requires v != Null
    requires forall i :: 0 <= i < |msgs| ==> MapInput(mapFn, msgs[i]) != Ok(v)
    ensures v !in InputFrames(msgs, mapFn).frames
  {
    if msgs != [] {
      FramesAvoid(msgs[1..], mapFn, v);
    }
  }

  /**
   * When neither the setup nor any mapped input is itself `end_of_stream`, the log holds
   * exactly one `end_of_stream`, as its last frame, if no mapping raised, and none otherwise.
   */
  lemma EndOfStreamSentOnce(setup: Value, msgs: seq<Value>, mapFn: Option<InputMap>)
    requires setup != EndOfStream()
    requires forall i :: 0 <= i < |msgs| ==> MapInput(mapFn, msgs[i]) != Ok(EndOfStream())
    ensures var log := SendLog(setup, msgs, mapFn);
      multiset(log.frames)[EndOfStream()] == (if log.failure.None? then 1 else 0)
    ensures var log := SendLog(setup, msgs, mapFn);
      log.failure.None? ==> log.frames[|log.frames| - 1] == EndOfStream()
  {
    FramesAvoid(msgs, mapFn, EndOfStream());
    var body := InputFrames(msgs, mapFn).frames;
    assert multiset(body)[EndOfStream()] == 0;
  }

  // ---------------------------------------------------------------- receive

  /** A `map_fn` of `receive`: the chunk to yield, or None to skip it. */
  type ChunkMap = Dict -> Option<Dict>

  /** What `receive` does with one transport message. */
  datatype Step = Yield(chunk: Dict) | Skip | Raise(error: Error)

  /** How `receive` treats one transport message. */
  function Classify(m: WsMessage, mapFn: Option<ChunkMap>): (s: Step)
    ensures s.Yield? ==> m.TextMsg? && !HasType(s.chunk, "error")
    ensures m.ErrorMsg? ==> s == Raise(WebSocketError)
    ensures m.ControlMsg? ==> s == Skip
    ensures m.TextMsg? && mapFn.None? ==>
      s == if HasType(m.frame, "error")
           then Raise(WsConnectionError(Get(m.frame, "message", Null), Get(m.frame, "code", Null)))
           else Yield(m.frame)
    ensures m.TextMsg? && mapFn.Some? && mapFn.value(m.frame).None? ==> s == Skip
    ensures m.TextMsg? && mapFn.Some? && mapFn.value(m.frame).Some? ==>
      var chunk := mapFn.value(m.frame).value;
      s == if HasType(chunk, "error")
           then Raise(WsConnectionError(Get(chunk, "message", Null), Get(chunk, "code", Null)))
           else Yield(chunk)
    ensures (m.CloseMsg? || m.ClosedMsg?) ==> !s.Yield?
    ensures (m.CloseMsg? || m.ClosedMsg?) ==> (s.Raise? <==> m.code.Some? && m.code.value != NORMAL_CLOSURE)
    ensures (m.CloseMsg? || m.ClosedMsg?) && s.Raise? ==>
      s.error.WebSocketClosed? && s.error.closeCode == m.code.value &&
      s.error.closeReason == (if m.reason.Some? && m.reason.value != "" then m.reason.value else NO_REASON)
  {
    match m
    case TextMsg(frame) =>
      var chunk := if mapFn.Some? then mapFn.value(frame) else Some(frame);
      if chunk.None? then Skip
      else if HasType(chunk.value, "error") then
        Raise(WsConnectionError(Get(chunk.value, "message", Null), Get(chunk.value, "code", Null)))
      else Yield(chunk.value)
    case ErrorMsg => Raise(WebSocketError)
    case CloseMsg(code, reason) => CloseStep(code, reason)
    case ClosedMsg(code, reason) => CloseStep(code, reason)
    case ControlMsg(_) => Skip
  }

  function CloseStep(code: Option<int>, reason: Option<string>): Step
  {
    if code.Some? && code.value != NORMAL_CLOSURE then
      Raise(WebSocketClosed(code.value, if reason.Some? && reason.value != "" then reason.value else NO_REASON))
    else Skip
  }

  /** Chunks yielded, and the exception raised after them, if any. */
  datatype Delivery = Delivery(chunks: seq<Dict>, failure: Option<Error>)

  /** What `receive` yields for a message sequence, and the exception it ends with. */
  function Received(msgs: seq<WsMessage>, mapFn: Option<ChunkMap>): (d: Delivery)
    ensures |d.chunks| <= |msgs|
    ensures forall i :: 0 <= i < |d.chunks| ==> !HasType(d.chunks[i], "error")
    decreases |msgs|
  {
    if msgs == [] then Delivery([], None)
    else match Classify(msgs[0], mapFn)
      case Yield(c) =>
        var rest := Received(msgs[1..], mapFn);
        Delivery([c] + rest.chunks, rest.failure)
      case Skip => Received(msgs[1..], mapFn)
      case Raise(e) => Delivery([], Some(e))
  }

  /** `receive`: yields the chunks in arrival order and stops at the first failure. */
  method Receive(msgs: seq<WsMessage>, mapFn: Option<ChunkMap>) returns (d: Delivery)
    ensures d == Received(msgs, mapFn)
  {
    var chunks: seq<Dict> := [];
    var i := 0;
    while i < |msgs|
      invariant 0 <= i <= |msgs|
      invariant Received(msgs, mapFn).chunks == chunks + Received(msgs[i..], mapFn).chunks
      invariant Received(msgs, mapFn).failure == Received(msgs[i..], mapFn).failure
    {
      ReceiveStep(msgs, i, mapFn, chunks);
      match Classify(msgs[i], mapFn) {
        case Yield(c) =>
          chunks := chunks + [c];
        case Skip =>
        case Raise(e) =>
          return Delivery(chunks, Some(e));
      }
      i := i + 1;
    }
    assert msgs[i..] == [];
    d := Delivery(chunks, None);
  }

  /** The receiving loop's invariant is kept by one more message, or the message's failure ends reception. */
  lemma {:induction false} ReceiveStep(msgs: seq<WsMessage>, i: nat, mapFn: Option<ChunkMap>, chunks: seq<Dict>)
    requires i < |msgs|
    requires Received(msgs, mapFn).chunks == chunks + Received(msgs[i..], mapFn).chunks
    requires Received(msgs, mapFn).failure == Received(msgs[i..], mapFn).failure
    ensures Classify(msgs[i], mapFn).Yield? ==>
      Received(msgs, mapFn).chunks == (chunks + [Classify(msgs[i], mapFn).chunk]) + Received(msgs[i + 1..], mapFn).chunks
    ensures Classify(msgs[i], mapFn).Skip? ==>
      Received(msgs, mapFn).chunks == chunks + Received(msgs[i + 1..], mapFn).chunks
    ensures !Classify(msgs[i], mapFn).Raise? ==>
      Received(msgs, mapFn).failure == Received(msgs[i + 1..], mapFn).failure
    ensures Classify(msgs[i], mapFn).Raise? ==>
      Received(msgs, mapFn).chunks == chunks && Received(msgs, mapFn).failure == Some(Classify(msgs[i], mapFn).error)
  {
    ReceivedStep(msgs, i, mapFn);
    match Classify(msgs[i], mapFn) {
      case Yield(c) =>
        var rest := Received(msgs[i + 1..], mapFn).chunks;
        assert chunks + ([c] + rest) == (chunks + [c]) + rest;
      case Skip =>
      case Raise(e) =>
        assert chunks + [] == chunks;
    }
  }

  /** One step of the receiving loop: message i is classified, then the rest is received. */
  lemma {:induction false} ReceivedStep(msgs: seq<WsMessage>, i: nat, mapFn: Option<ChunkMap>)
    requires i < |msgs|
    ensures Received(msgs[i..], mapFn) ==
      match Classify(msgs[i], mapFn)
      case Yield(c) =>
        var rest := Received(msgs[i + 1..], mapFn);
        Delivery([c] + rest.chunks, rest.failure)
      case Skip => Received(msgs[i + 1..], mapFn)
      case Raise(e) => Delivery([], Some(e))
  {
    assert msgs[i..][0] == msgs[i];
    assert msgs[i..][1..] == msgs[i + 1..];
  }

  /** Reception composes: a prefix that did not fail contributes its chunks, then the rest is received. */
  lemma {:induction false} ReceivedAppend(a: seq<WsMessage>, b: seq<WsMessage>, mapFn: Option<ChunkMap>)
    ensures Received(a + b, mapFn) ==
      if Received(a, mapFn).failure.Some? then Received(a, mapFn)
      else Delivery(Received(a, mapFn).chunks + Received(b, mapFn).chunks, Received(b, mapFn).failure)
  {
    if a == [] {
      assert a + b == b;
    } else {
      assert (a + b)[0] == a[0];
      assert (a + b)[1..] == a[1..] + b;
      ReceivedAppend(a[1..], b, mapFn);
      match Classify(a[0], mapFn) {
        case Yield(c) =>
          var ra, rb := Received(a[1..], mapFn), Received(b, mapFn);
          assert [c] + (ra.chunks + rb.chunks) == ([c] + ra.chunks) + rb.chunks;
        case Skip =>
        case Raise(_) =>
      }
    }
  }

  /** A failing message ends reception: the chunks before it are yielded, its exception is raised, nothing after it is seen. */
  lemma FailureEndsReception(a: seq<WsMessage>, m: WsMessage, b: seq<WsMessage>, mapFn: Option<ChunkMap>)
    requires Received(a, mapFn).failure.None?
    requires Classify(m, mapFn).Raise?
    ensures Received(a + [m] + b, mapFn) == Delivery(Received(a, mapFn).chunks, Some(Classify(m, mapFn).error))
  {
    ReceivedAppend(a, [m] + b, mapFn);
    assert a + [m] + b == a + ([m] + b);
  }

  /** A close with no code or with the normal-closure code raises nothing and changes nothing that is yielded. */
  lemma NormalCloseIsSilent(a: seq<WsMessage>, m: WsMessage, b: seq<WsMessage>, mapFn: Option<ChunkMap>)
    requires m.CloseMsg? || m.ClosedMsg?
    requires m.code.None? || m.code.value == NORMAL_CLOSURE
    ensures Received(a + [m] + b, mapFn) == Received(a + b, mapFn)
  {
    ReceivedAppend(a, [m] + b, mapFn);
    ReceivedAppend(a, b, mapFn);
    assert a + [m] + b == a + ([m] + b);
    assert ([m] + b)[1..] == b;
  }

  /** The frames of the TEXT messages, in arrival order. */
  function TextFrames(msgs: seq<WsMessage>): seq<Dict>
  {
    if msgs == [] then []
    else (if msgs[0].TextMsg? then [msgs[0].frame] else []) + TextFrames(msgs[1..])
  }

  /** Without a map_fn, a reception that raised nothing yielded every TEXT frame, in arrival order. */
  lemma {:induction false} UnfailedReceptionYieldsAllText(msgs: seq<WsMessage>)
    requires Received(msgs, None).failure.None?
    ensures Received(msgs, None).chunks == TextFrames(msgs)
  {
    if msgs != [] {
      UnfailedReceptionYieldsAllText(msgs[1..]);
    }
  }

  // ---------------------------------------------------------------- stream

  /** An entry of the receive queue: a chunk, a captured exception, or the end marker (`None`). */
  datatype QueueItem = Chunk(frame: Dict) | Exc(error: Error) | EndMarker

  /** The `asyncio.Queue` between the receive worker and the consumer. */
  class ReceiveQueue {
    var items: seq<QueueItem>

    constructor ()
      ensures items == []
    {
      items := [];
    }

    method Put(x: QueueItem)
      modifies this
      ensures items == old(items) + [x]
    {
      items := items + [x];
    }

    /** `get`; in this sequential model the worker has finished, so an empty queue is never read. */
    method Get() returns (x: QueueItem)
      requires items != []
      modifies this
      ensures x == old(items)[0] && items == old(items)[1..]
    {
      x := items[0];
      items := items[1..];
    }
  }

  function ChunkItems(chunks: seq<Dict>): (q: seq<QueueItem>)
    ensures |q| == |chunks| && forall i :: 0 <= i < |q| ==> q[i] == Chunk(chunks[i])
  {
    seq(|chunks|, i requires 0 <= i < |chunks| => Chunk(chunks[i]))
  }

  /** What the receive worker leaves in the queue: each chunk, then the exception if one was raised, then the end marker. */
  function WorkerItems(d: Delivery): (q: seq<QueueItem>)
    ensures |q| >= 1 && q[|q| - 1] == EndMarker
    ensures forall i :: 0 <= i < |q| - 1 ==> q[i] != EndMarker
  {
    ChunkItems(d.chunks) + (if d.failure.Some? then [Exc(d.failure.value)] else []) + [EndMarker]
  }

  /** `receive_worker`: enqueues every chunk, then any exception, and always the end marker last. */
  method ReceiveWorker(msgs: seq<WsMessage>, queue: ReceiveQueue)
    modifies queue
    ensures queue.items == old(queue.items) + WorkerItems(Received(msgs, None))
  {
    var d := Receive(msgs, None);
    var i := 0;
    while i < |d.chunks|
      invariant 0 <= i <= |d.chunks|
      invariant queue.items == old(queue.items) + ChunkItems(d.chunks[..i])
    {
      assert ChunkItems(d.chunks[..i + 1]) == ChunkItems(d.chunks[..i]) + [Chunk(d.chunks[i])];
      queue.Put(Chunk(d.chunks[i]));
      i := i + 1;
    }
    assert d.chunks[..i] == d.chunks;
    if d.failure.Some? {
      queue.Put(Exc(d.failure.value));
    }
    queue.Put(EndMarker);
  }

  /** What the consumer loop yields from queue contents, and the exception it re-raises. */
  function Drained(q: seq<QueueItem>): Delivery
  {
    if q == [] then Delivery([], None)
    else match q[0]
      case EndMarker => Delivery([], None)
      case Exc(e) => Delivery([], Some(e))
      case Chunk(c) =>
        var rest := Drained(q[1..]);
        Delivery([c] + rest.chunks, rest.failure)
  }

  /** The consumer loop of `stream`: yields chunks up to the end marker, re-raising a captured exception where it stands. */
  method Consume(queue: ReceiveQueue) returns (yielded: seq<Dict>, raised: Option<Error>)
    requires EndMarker in queue.items
    modifies queue
    ensures Delivery(yielded, raised) == Drained(old(queue.items))
  {
    yielded := [];
    while true
      invariant EndMarker in queue.items
      invariant Drained(old(queue.items)).chunks == yielded + Drained(queue.items).chunks
      invariant Drained(old(queue.items)).failure == Drained(queue.items).failure
      decreases |queue.items|
    {
      var item := queue.Get();
      match item
      case EndMarker =>
        return yielded, None;
      case Exc(e) =>
        return yielded, Some(e);
      case Chunk(c) =>
        yielded := yielded + [c];
    }
  }

  /** Passing through the queue loses and reorders nothing: the consumer sees exactly what `receive` produced. */
  lemma {:induction false} QueueRoundTrip(d: Delivery)
    ensures Drained(WorkerItems(d)) == d
    decreases |d.chunks|
  {
    if d.chunks != [] {
      var rest := Delivery(d.chunks[1..], d.failure);
      QueueRoundTrip(rest);
      assert WorkerItems(d)[1..] == WorkerItems(rest);
    }
  }

  /** The setup as `stream` sends it: the caller's keys plus `"type": "setup"`. */
  function SetupFrame(setup: Dict): (f: Dict)
    ensures HasType(f, "setup") && f.Keys == setup.Keys + {"type"}
    ensures forall k :: k in setup && k != "type" ==> f[k] == setup[k]
  {
    setup["type" := Str("setup")]
  }

  /** One streaming exchange: what was written to the socket, and what the consumer is given. */
  datatype StreamRun = StreamRun(route: string, sent: Sent, frames: seq<Dict>, failure: Option<Error>)

  /**
   * `GradiumClient.stream`: the send task writes the setup and the inputs; the receive
   * worker fills the queue; the consumer yields what reaches it. An exception of the
   * send task is gathered and dropped, so it never reaches the consumer.
   */
  method Stream(route: string, setup: Dict, inputs: seq<Value>, mapInput: Option<InputMap>, inbound: seq<WsMessage>)
    returns (run: StreamRun)
    ensures run.route == route
    ensures run.sent == SendLog(Object(SetupFrame(setup)), inputs, mapInput)
    ensures Delivery(run.frames, run.failure) == Received(inbound, None)
  {
    var frame := SetupFrame(setup);
    var sent := Send(Object(frame), inputs, mapInput);
    var queue := new ReceiveQueue();
    ReceiveWorker(inbound, queue);
    assert queue.items == WorkerItems(Received(inbound, None));
    QueueRoundTrip(Received(inbound, None));
    var frames, failure := Consume(queue);
    run := StreamRun(route, sent, frames, failure);
  }

  // ---------------------------------------------------------------- construction

  datatype GradiumClient = GradiumClient(baseUrl: string, apiKey: string)

  function WithSlash(url: string): string
  {
    if EndsWith(url, "/") then url else url + "/"
  }

  predicate IsLocal(url: string)
  {
    StartsWith(url, "127") || StartsWith(url, "local")
  }

  /** The base URL as `__init__` stores it: ends with "/", and gains a scheme when it has none. */
  function NormalizeBaseUrl(url: string): (r: string)
    ensures EndsWith(r, "/") && StartsWith(r, "http")
    ensures StartsWith(WithSlash(url), "http") ==> r == WithSlash(url)
    ensures !StartsWith(WithSlash(url), "http") && IsLocal(url) ==> r == "http://" + WithSlash(url)
    ensures !StartsWith(WithSlash(url), "http") && !IsLocal(url) ==> r == "https://" + WithSlash(url)
  {
    var u := WithSlash(url);
    if StartsWith(u, "http") then u
    else if StartsWith(u, "127") || StartsWith(u, "local") then "http://" + u
    else "https://" + u
  }

  /** Normalising twice is normalising once. */
  lemma NormalizeIdempotent(url: string)
    ensures NormalizeBaseUrl(NormalizeBaseUrl(url)) == NormalizeBaseUrl(url)
  {
    var r := NormalizeBaseUrl(url);
    assert WithSlash(r) == r;
  }

  /** `GradiumClient(base_url=..., api_key=...)`, with `GRADIUM_API_KEY` given as `envApiKey`. */
  function NewClient(baseUrl: string, apiKey: Option<string>, envApiKey: Option<string>): (r: Result<GradiumClient>)
    ensures r.Ok? <==> apiKey.Some? || envApiKey.Some?
    ensures r.Err? ==> r.error == ValueError(API_KEY_MESSAGE)
    ensures r.Ok? ==> r.value.baseUrl == NormalizeBaseUrl(baseUrl)
    ensures r.Ok? ==> r.value.apiKey == if apiKey.Some? then apiKey.value else envApiKey.value
  {
    var key := if apiKey.Some? then apiKey else envApiKey;
    if key.None? then Err(ValueError(API_KEY_MESSAGE))
    else Ok(GradiumClient(NormalizeBaseUrl(baseUrl), key.value))
  }

  /** `headers`: the API key and the client's source tag. */
  function Headers(c: GradiumClient, version: string): (h: Dict)
    ensures h.Keys == {"x-api-key", "x-api-source"}
    ensures h["x-api-key"] == Str(c.apiKey)
    ensures h["x-api-source"] == Str("python-client/" + version)
  {
    map["x-api-key" := Str(c.apiKey), "x-api-source" := Str("python-client/" + version)]
  }
}
