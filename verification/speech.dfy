/**
 * The typed text-to-speech and speech-to-text layer: opening a stream and checking
 * its `ready` handshake, the audio and text-segment iterators, the buffered `tts`
 * and `stt` calls with their input validation and slicing, and the PCM guard of
 * `TTSResult.pcm16`.
 */
module Speech {
  import opened Values
  import Audio
  import Client

  const TTS_ENDPOINT := "speech/tts"
  const STT_ENDPOINT := "speech/asr"
  /** Slice sizes of `bytes_stream_gen`: bytes for raw audio, samples for arrays. */
  const BYTES_CHUNK: nat := 4096
  const SAMPLES_CHUNK: nat := 1920
  const ARRAY_SAMPLE_RATE := 24000

  const PCM_MESSAGE := "output_format is not 'pcm'"
  const BYTES_RATE_MESSAGE := "sample_rate is not supported for bytes audio input"
  const ARRAY_FORMAT_MESSAGE := "input_format must be 'pcm' for np.ndarray audio input"
  const ARRAY_RATE_MESSAGE := "sample_rate must be 24000 for np.ndarray audio input"
  const BYTES_LIKE_MESSAGE := "a bytes-like object is required"
  const JOIN_MESSAGE := "sequence item: expected str instance"

  // ---------------------------------------------------------------- frames and segments

  /** `TextWithTimestamps`: the fields hold whatever the frame carried. */
  datatype TextSegment = TextSegment(text: Value, startS: Value, stopS: Value)

  /** The segment a `text` frame stands for: text defaults to "", start_s to 0.0, stop_s to start_s. */
  function SegmentOf(frame: Dict): (t: TextSegment)
    ensures t.text == (if "text" in frame then frame["text"] else Str(""))
    ensures t.startS == (if "start_s" in frame then frame["start_s"] else Float(0.0))
    ensures t.stopS == (if "stop_s" in frame then frame["stop_s"] else t.startS)
  {
    var start := Get(frame, "start_s", Float(0.0));
    TextSegment(Get(frame, "text", Str("")), start, Get(frame, "stop_s", start))
  }

  /** The frames of type `t`, in order. */
  function FramesOfType(frames: seq<Dict>, t: string): (r: seq<Dict>)
    ensures |r| <= |frames|
    ensures forall i :: 0 <= i < |r| ==> HasType(r[i], t)
  {
    if frames == [] then []
    else (if HasType(frames[0], t) then [frames[0]] else []) + FramesOfType(frames[1..], t)
  }

  /** Selection drops nothing of the type: a frame is selected exactly when it is one of the frames and has type `t`. */
  lemma {:induction false} FramesOfTypeSelects(frames: seq<Dict>, t: string)
    ensures forall f :: f in FramesOfType(frames, t) <==> f in frames && HasType(f, t)
  {
    if frames != [] {
      FramesOfTypeSelects(frames[1..], t);
      assert forall f :: f in frames <==> f == frames[0] || f in frames[1..];
    }
  }

  /** Selecting by type keeps the order: the frames of a concatenation are those of each part, in turn. */
  lemma {:induction false} FramesOfTypeAppend(a: seq<Dict>, b: seq<Dict>, t: string)
    ensures FramesOfType(a + b, t) == FramesOfType(a, t) + FramesOfType(b, t)
  {
    if a == [] {
      assert a + b == b;
    } else {
      assert (a + b)[0] == a[0];
      assert (a + b)[1..] == a[1..] + b;
      FramesOfTypeAppend(a[1..], b, t);
    }
  }

  /** The setup as `tts_stream` and `stt_stream` pass it on: a `json_config` that is neither None nor a string becomes its JSON text. */
  function StringifyConfig(setup: Dict, lib: Lib): (s: Dict)
    ensures s.Keys == setup.Keys
    ensures forall k :: k in setup && k != "json_config" ==> s[k] == setup[k]
    ensures "json_config" in s ==> s["json_config"].Null? || s["json_config"].Str?
    ensures "json_config" in setup && (setup["json_config"].Null? || setup["json_config"].Str?) ==> s == setup
    ensures "json_config" in setup && !setup["json_config"].Null? && !setup["json_config"].Str? ==>
      s["json_config"] == Str(lib.dumps(setup["json_config"]))
  {
    var config := Get(setup, "json_config", Null);
    if config.Null? || config.Str? then setup
    else setup["json_config" := Str(lib.dumps(config))]
  }

  /** Stringifying twice is stringifying once. */
  lemma StringifyIdempotent(setup: Dict, lib: Lib)
    ensures StringifyConfig(StringifyConfig(setup, lib), lib) == StringifyConfig(setup, lib)
  {
  }

  /**
   * The handshake of `tts_stream` and `stt_stream`: `anext` on the stream must give a
   * frame of type `ready`, which is kept. An empty stream raises StopAsyncIteration, a
   * stream that failed before its first chunk raises that failure.
   */
  function OpenStream(d: Client.Delivery): (r: Result<Dict>)
    ensures r.Ok? <==> |d.chunks| > 0 && HasType(d.chunks[0], "ready")
    ensures r.Ok? ==> r.value == d.chunks[0]
    ensures |d.chunks| > 0 && !HasType(d.chunks[0], "ready") ==> r == Err(UnexpectedFirstType(TypeOf(d.chunks[0])))
    ensures |d.chunks| == 0 ==> r == Err(if d.failure.Some? then d.failure.value else StopAsyncIteration)
  {
    if |d.chunks| == 0 then Err(if d.failure.Some? then d.failure.value else StopAsyncIteration)
    else if TypeOf(d.chunks[0]) != Str("ready") then Err(UnexpectedFirstType(TypeOf(d.chunks[0])))
    else Ok(d.chunks[0])
  }

  // ---------------------------------------------------------------- text-to-speech stream

  /** The payload of an `audio` frame: KeyError without an `audio` key, binascii.Error when it does not decode. */
  function DecodeAudio(frame: Dict, lib: Lib): Result<Bytes>
  {
    if "audio" !in frame then Err(KeyError("audio"))
    else match lib.b64decode(frame["audio"])
      case None => Err(Base64Error)
      case Some(b) => Ok(b)
  }

  /**
   * One run of `iter_bytes` over the frames still to come: the audio chunks yielded,
   * the segments recorded, the decoding failure that stopped it, and the frames left
   * unread behind that failure.
   */
  datatype AudioRun = AudioRun(chunks: seq<Bytes>, segments: seq<TextSegment>, failure: Option<Error>, rest: seq<Dict>)

  function AudioOf(frames: seq<Dict>, lib: Lib): (run: AudioRun)
    ensures |run.rest| < |frames| || run.rest == []
    ensures run.failure.None? ==> run.rest == []
  {
    if frames == [] then AudioRun([], [], None, [])
    else
      var frame := frames[0];
      if HasType(frame, "text") then
        var run := AudioOf(frames[1..], lib);
        run.(segments := [SegmentOf(frame)] + run.segments)
      else if HasType(frame, "audio") then
        match DecodeAudio(frame, lib)
        case Err(e) => AudioRun([], [], Some(e), frames[1..])
        case Ok(b) =>
          var run := AudioOf(frames[1..], lib);
          run.(chunks := [b] + run.chunks)
      else AudioOf(frames[1..], lib)
  }

  /** What `iter_text` yields: one segment per `text` frame, in order. */
  function SegmentsOf(frames: seq<Dict>): (segs: seq<TextSegment>)
    ensures |segs| <= |frames|
  {
    if frames == [] then []
    else (if HasType(frames[0], "text") then [SegmentOf(frames[0])] else []) + SegmentsOf(frames[1..])
  }

  /** `iter_text` is `SegmentOf` applied to the `text` frames. */
  lemma {:induction false} SegmentsAreTextFrames(frames: seq<Dict>)
    ensures var text := FramesOfType(frames, "text");
      |SegmentsOf(frames)| == |text| && forall i :: 0 <= i < |text| ==> SegmentsOf(frames)[i] == SegmentOf(text[i])
  {
    if frames != [] {
      SegmentsAreTextFrames(frames[1..]);
    }
  }

  /** `iter_bytes` finishes without a decoding failure exactly when every `audio` frame decodes. */
  lemma {:induction false} IterBytesFailure(frames: seq<Dict>, lib: Lib)
    ensures AudioOf(frames, lib).failure.None? <==>
      forall f :: f in FramesOfType(frames, "audio") ==> DecodeAudio(f, lib).Ok?
  {
    if frames != [] {
      IterBytesFailure(frames[1..], lib);
      var tail := FramesOfType(frames[1..], "audio");
      if HasType(frames[0], "audio") {
        assert FramesOfType(frames, "audio") == [frames[0]] + tail;
      } else {
        assert FramesOfType(frames, "audio") == tail;
      }
    }
  }

  /**
   * A run of `iter_bytes` without a decoding failure yields the payloads of the
   * `audio` frames in order and records the segments `iter_text` would yield.
   */
  lemma {:induction false} IterBytesContents(frames: seq<Dict>, lib: Lib)
    requires AudioOf(frames, lib).failure.None?
    ensures var run := AudioOf(frames, lib); var audio := FramesOfType(frames, "audio");
      run.segments == SegmentsOf(frames) && |run.chunks| == |audio| &&
      forall i :: 0 <= i < |audio| ==> DecodeAudio(audio[i], lib) == Ok(run.chunks[i])
  {
    if frames != [] {
      var tail := FramesOfType(frames[1..], "audio");
      var rest := AudioOf(frames[1..], lib);
      if HasType(frames[0], "audio") {
        var b := DecodeAudio(frames[0], lib).value;
        assert AudioOf(frames, lib) == rest.(chunks := [b] + rest.chunks);
        IterBytesContents(frames[1..], lib);
        assert FramesOfType(frames, "audio") == [frames[0]] + tail;
      } else {
        assert FramesOfType(frames, "audio") == tail;
        IterBytesContents(frames[1..], lib);
      }
    }
  }

  /** `TTSStream`: the frames after `ready` still to be read, and the segments recorded so far. */
  class TtsStream {
    var pending: seq<Dict>
    var pendingFailure: Option<Error>
    const setup: Dict
    const ready: Dict
    var textWithTimestamps: seq<TextSegment>

    constructor (frames: seq<Dict>, failure: Option<Error>, setup: Dict, ready: Dict)
      ensures pending == frames && pendingFailure == failure
      ensures this.setup == setup && this.ready == ready && textWithTimestamps == []
    {
      pending := frames;
      pendingFailure := failure;
      this.setup := setup;
      this.ready := ready;
      textWithTimestamps := [];
    }

    function SampleRate(): Value
    {
      Get(ready, "sample_rate", Null)
    }

    function RequestId(): Value
    {
      Get(ready, "request_id", Null)
    }

    /**
     * `iter_bytes`, run until it stops: yields the decoded audio, appends the text
     * segments, and ends with the first decoding failure (leaving the later frames
     * unread) or with the stream's own failure, which ends the stream.
     */
    method IterBytes(lib: Lib) returns (chunks: seq<Bytes>, failure: Option<Error>)
      modifies this
      ensures var run := AudioOf(old(pending), lib);
        chunks == run.chunks && textWithTimestamps == old(textWithTimestamps) + run.segments
      ensures var run := AudioOf(old(pending), lib);
        run.failure.Some? ==> failure == run.failure && pending == run.rest && pendingFailure == old(pendingFailure)
      ensures var run := AudioOf(old(pending), lib);
        run.failure.None? ==> failure == old(pendingFailure) && pending == [] && pendingFailure.None?
    {
      ghost var frames := pending;
      chunks := [];
      while pending != []
        invariant AudioOf(frames, lib).chunks == chunks + AudioOf(pending, lib).chunks
        invariant old(textWithTimestamps) + AudioOf(frames, lib).segments == textWithTimestamps + AudioOf(pending, lib).segments
        invariant AudioOf(frames, lib).failure == AudioOf(pending, lib).failure
        invariant AudioOf(frames, lib).rest == AudioOf(pending, lib).rest
        invariant pendingFailure == old(pendingFailure)
        decreases |pending|
      {
        var msg := pending[0];
        pending := pending[1..];
        var msgType := TypeOf(msg);
        if msgType == Str("text") {
          textWithTimestamps := textWithTimestamps + [SegmentOf(msg)];
        } else if msgType == Str("audio") {
          var payload := DecodeAudio(msg, lib);
          if payload.Err? {
            return chunks, Some(payload.error);
          }
          chunks := chunks + [payload.value];
        }
      }
      failure := pendingFailure;
      pendingFailure := None;
    }
  }

  /** `tts_stream`'s input mapping: each text becomes one `text` frame. */
  function FormatText(text: Value): (r: Result<Value>)
    ensures r.Ok? && r.value.Object? && HasType(r.value.fields, "text")
    ensures r.value.fields.Keys == {"type", "text"} && r.value.fields["text"] == text
  {
    Ok(Object(map["type" := Str("text"), "text" := text]))
  }

  /** The text argument: one string, or a list or generator of strings. */
  datatype TextArg = Single(text: string) | Many(items: seq<Value>)

  /** A single string is wrapped into a one-element list; a list or generator is used as is. */
  function TextInputs(t: TextArg): (r: seq<Value>)
    ensures t.Single? ==> r == [Str(t.text)]
    ensures t.Many? ==> r == t.items
  {
    match t
    case Single(s) => [Str(s)]
    case Many(items) => items
  }

  function TtsSetupFrame(setup: Dict, lib: Lib): Value
  {
    Object(Client.SetupFrame(StringifyConfig(setup, lib)))
  }

  /** A single string is sent whole, in exactly one `text` frame between the setup and `end_of_stream`. */
  lemma {:induction false} SingleTextOneFrame(setup: Dict, text: string, lib: Lib)
    ensures Client.SendLog(TtsSetupFrame(setup, lib), TextInputs(Single(text)), Some(FormatText)).failure.None?
    ensures Client.SendLog(TtsSetupFrame(setup, lib), TextInputs(Single(text)), Some(FormatText)).frames ==
      [TtsSetupFrame(setup, lib), FormatText(Str(text)).value, Client.EndOfStream()]
  {
    Client.OneFramePerInput([Str(text)], Some(FormatText));
  }

  /**
   * `tts_stream`: stringifies the config, opens the stream with the texts mapped to
   * `text` frames, and checks the handshake. The stream keeps the setup as sent.
   */
  method OpenTtsStream(setup: Dict, text: TextArg, inbound: seq<WsMessage>, lib: Lib)
    returns (r: Result<TtsStream>, sent: Client.Sent)
    ensures sent == Client.SendLog(TtsSetupFrame(setup, lib), TextInputs(text), Some(FormatText))
    ensures var d := Client.Received(inbound, None);
      r.Err? <==> OpenStream(d).Err?
    ensures var d := Client.Received(inbound, None);
      r.Err? ==> r.error == OpenStream(d).error
    ensures var d := Client.Received(inbound, None);
      r.Ok? ==> (fresh(r.value) && r.value.ready == d.chunks[0] &&
                 r.value.pending == d.chunks[1..] && r.value.pendingFailure == d.failure &&
                 r.value.setup == Client.SetupFrame(StringifyConfig(setup, lib)) && r.value.textWithTimestamps == [])
  {
    var config := StringifyConfig(setup, lib);
    var run := Client.Stream(TTS_ENDPOINT, config, TextInputs(text), Some(FormatText), inbound);
    sent := run.sent;
    var ready := OpenStream(Client.Delivery(run.frames, run.failure));
    if ready.Err? {
      return Err(ready.error), sent;
    }
    var stream := new TtsStream(run.frames[1..], run.failure, Client.SetupFrame(config), ready.value);
    r := Ok(stream);
  }

  /** `TTSResult` */
  datatype TtsResult = TtsResult(
    rawData: Bytes, sampleRate: Value, outputFormat: Value, requestId: Value, textWithTimestamps: seq<TextSegment>)

  /** What the buffered `tts` returns or raises for a given inbound message sequence. */
  function TtsOutcome(setup: Dict, inbound: seq<WsMessage>, lib: Lib): Result<TtsResult>
  {
    var d := Client.Received(inbound, None);
    match OpenStream(d)
    case Err(e) => Err(e)
    case Ok(ready) =>
      var run := AudioOf(d.chunks[1..], lib);
      if run.failure.Some? then Err(run.failure.value)
      else if d.failure.Some? then Err(d.failure.value)
      else Ok(TtsResult(Flatten(run.chunks), Get(ready, "sample_rate", Null), Get(setup, "output_format", Null),
                        Get(ready, "request_id", Null), run.segments))
  }

  /**
   * A buffered synthesis succeeds exactly when the handshake passes, every audio
   * frame decodes and the stream ends normally. Its audio is the decoded payloads
   * of the audio frames joined in order; rate and request id come from the `ready`
   * frame, the output format from the caller's setup.
   */
  lemma TtsReference(setup: Dict, inbound: seq<WsMessage>, lib: Lib)
    ensures var d := Client.Received(inbound, None); var r := TtsOutcome(setup, inbound, lib);
      r.Ok? <==> (OpenStream(d).Ok? && d.failure.None? &&
                  forall f :: f in FramesOfType(d.chunks[1..], "audio") ==> DecodeAudio(f, lib).Ok?)
    ensures var d := Client.Received(inbound, None); var r := TtsOutcome(setup, inbound, lib);
      r.Ok? ==>
        var audio := FramesOfType(d.chunks[1..], "audio");
        r.value.rawData == Flatten(seq(|audio|, i requires 0 <= i < |audio| => DecodeAudio(audio[i], lib).value)) &&
        r.value.textWithTimestamps == SegmentsOf(d.chunks[1..]) &&
        r.value.sampleRate == Get(d.chunks[0], "sample_rate", Null) &&
        r.value.requestId == Get(d.chunks[0], "request_id", Null) &&
        r.value.outputFormat == Get(setup, "output_format", Null)
  {
    var d := Client.Received(inbound, None);
    if OpenStream(d).Ok? {
      IterBytesFailure(d.chunks[1..], lib);
      if AudioOf(d.chunks[1..], lib).failure.None? {
        IterBytesContents(d.chunks[1..], lib);
      }
      var audio := FramesOfType(d.chunks[1..], "audio");
      var run := AudioOf(d.chunks[1..], lib);
      if run.failure.None? {
        assert run.chunks == seq(|audio|, i requires 0 <= i < |audio| => DecodeAudio(audio[i], lib).value);
      }
    }
  }

  /**
   * `tts`: opens the stream, collects every chunk of `iter_bytes`, and joins them.
   * The frames sent are those of `tts_stream`: the setup, one `text` frame per input
   * text, and `end_of_stream`.
   */
  method Tts(setup: Dict, text: TextArg, inbound: seq<WsMessage>, lib: Lib)
    returns (r: Result<TtsResult>, sent: Client.Sent)
    ensures r == TtsOutcome(setup, inbound, lib)
    ensures sent == Client.SendLog(TtsSetupFrame(setup, lib), TextInputs(text), Some(FormatText))
  {
    var start;
    start, sent := OpenTtsStream(setup, text, inbound, lib);
    if start.Err? {
      return Err(start.error), sent;
    }
    var stream := start.value;
    ghost var d := Client.Received(inbound, None);
    assert OpenStream(d).Ok? && stream.pending == d.chunks[1..];
    var chunks, failure := stream.IterBytes(lib);
    if failure.Some? {
      assert failure == AudioOf(d.chunks[1..], lib).failure || failure == d.failure;
      return Err(failure.value), sent;
    }
    assert AudioOf(d.chunks[1..], lib).failure.None? && d.failure.None?;
    assert stream.textWithTimestamps == AudioOf(d.chunks[1..], lib).segments;
    assert stream.ready == OpenStream(d).value;
    r := Ok(TtsResult(Flatten(chunks), stream.SampleRate(), Get(setup, "output_format", Null), stream.RequestId(),
                      stream.textWithTimestamps));
  }

  /** `TTSResult.pcm16`: int16 samples of PCM output; any other format is refused. */
  function Pcm16(result: TtsResult): (r: Result<seq<int>>)
    ensures result.outputFormat.Null? ==> r == Err(ValueError(PCM_MESSAGE))
    ensures result.outputFormat.Str? && !StartsWith(result.outputFormat.s, "pcm") ==> r == Err(ValueError(PCM_MESSAGE))
    ensures result.outputFormat.Blob? ==> r == Err(TypeError(BYTES_PREFIX_MESSAGE))
    ensures !result.outputFormat.Null? && !result.outputFormat.Str? && !result.outputFormat.Blob? ==>
      r == Err(AttributeError("startswith"))
    ensures result.outputFormat.Str? && StartsWith(result.outputFormat.s, "pcm") ==> r == Audio.FromBuffer(result.rawData)
  {
    match result.outputFormat
    case Null => Err(ValueError(PCM_MESSAGE))
    case Str(f) => if !StartsWith(f, "pcm") then Err(ValueError(PCM_MESSAGE)) else Audio.FromBuffer(result.rawData)
    case _ => Err(StartsWithFailure(result.outputFormat))
  }

  /** PCM output whose audio is the bytes of int16 samples gives those samples back. */
  lemma Pcm16OfSamples(result: TtsResult, samples: seq<int>)
    requires result.outputFormat.Str? && StartsWith(result.outputFormat.s, "pcm")
    requires forall i :: 0 <= i < |samples| ==> Audio.InInt16(samples[i])
    requires result.rawData == Audio.ToBytes(samples)
    ensures Pcm16(result) == Ok(samples)
  {
    Audio.FromBufferToBytes(samples);
  }

  // ---------------------------------------------------------------- speech-to-text stream

  /** `STTStream`: the frames after `ready` still to be read. */
  class SttStream {
    var pending: seq<Dict>
    var pendingFailure: Option<Error>
    const setup: Dict
    const ready: Dict

    constructor (frames: seq<Dict>, failure: Option<Error>, setup: Dict, ready: Dict)
      ensures pending == frames && pendingFailure == failure && this.setup == setup && this.ready == ready
    {
      pending := frames;
      pendingFailure := failure;
      this.setup := setup;
      this.ready := ready;
    }

    function RequestId(): Value
    {
      Get(ready, "request_id", Null)
    }

    /** `iter_text`, run until it stops: one segment per `text` frame, then the stream's own failure. */
    method IterText() returns (segments: seq<TextSegment>, failure: Option<Error>)
      modifies this
      ensures segments == SegmentsOf(old(pending)) && failure == old(pendingFailure)
      ensures pending == [] && pendingFailure.None?
    {
      ghost var frames := pending;
      segments := [];
      while pending != []
        invariant SegmentsOf(frames) == segments + SegmentsOf(pending)
        invariant pendingFailure == old(pendingFailure)
        decreases |pending|
      {
        var msg := pending[0];
        pending := pending[1..];
        if TypeOf(msg) == Str("text") {
          segments := segments + [SegmentOf(msg)];
        }
      }
      failure := pendingFailure;
      pendingFailure := None;
    }
  }

  /** The fields of the frame carrying one base64 audio payload. */
  function AudioFields(encoded: string): Dict
  {
    map["type" := Str("audio"), "audio" := Str(encoded)]
  }

  function AudioFrame(encoded: string): Value
  {
    Object(AudioFields(encoded))
  }

  /**
   * `stt_stream`'s input mapping: an array is checked and converted to int16 bytes,
   * bytes are used as they are; the result is base64 encoded. Anything else is not
   * bytes-like and makes the encoder raise.
   */
  function FormatAudio(v: Value, lib: Lib): (r: Result<Value>)
    ensures v.Blob? ==> r == Ok(AudioFrame(lib.b64encode(v.data)))
    ensures v.Array? ==> (r.Ok? <==> Audio.AsInt16Vector(v.arr, lib).Ok?)
    ensures v.Array? && r.Ok? ==> r.value == AudioFrame(lib.b64encode(Audio.ToBytes(Audio.AsInt16Vector(v.arr, lib).value.items)))
    ensures v.Array? && r.Err? ==> r.error == Audio.AsInt16Vector(v.arr, lib).error
    ensures !v.Blob? && !v.Array? ==> r == Err(TypeError(BYTES_LIKE_MESSAGE))
  {
    match v
    case Array(a) =>
      (match Audio.AsInt16Vector(a, lib)
       case Err(e) => Err(e)
       case Ok(w) => Ok(AudioFrame(lib.b64encode(Audio.ToBytes(w.items)))))
    case Blob(b) => Ok(AudioFrame(lib.b64encode(b)))
    case _ => Err(TypeError(BYTES_LIKE_MESSAGE))
  }

  function AudioMap(lib: Lib): Client.InputMap
  {
    (v: Value) => FormatAudio(v, lib)
  }

  /** `stt_stream`: stringifies the config, opens the stream with audio mapped to `audio` frames, and checks the handshake. */
  method OpenSttStream(setup: Dict, audio: seq<Value>, inbound: seq<WsMessage>, lib: Lib)
    returns (r: Result<SttStream>, sent: Client.Sent)
    ensures sent == Client.SendLog(Object(Client.SetupFrame(StringifyConfig(setup, lib))), audio, Some(AudioMap(lib)))
    ensures var d := Client.Received(inbound, None);
      r.Err? <==> OpenStream(d).Err?
    ensures var d := Client.Received(inbound, None);
      r.Err? ==> r.error == OpenStream(d).error
    ensures var d := Client.Received(inbound, None);
      r.Ok? ==> (fresh(r.value) && r.value.ready == d.chunks[0] &&
                 r.value.pending == d.chunks[1..] && r.value.pendingFailure == d.failure &&
                 r.value.setup == Client.SetupFrame(StringifyConfig(setup, lib)))
  {
    var config := StringifyConfig(setup, lib);
    var run := Client.Stream(STT_ENDPOINT, config, audio, Some(AudioMap(lib)), inbound);
    sent := run.sent;
    var ready := OpenStream(Client.Delivery(run.frames, run.failure));
    if ready.Err? {
      return Err(ready.error), sent;
    }
    var stream := new SttStream(run.frames[1..], run.failure, Client.SetupFrame(config), ready.value);
    r := Ok(stream);
  }

  // ---------------------------------------------------------------- buffered speech-to-text

  /** Consecutive slices of `n` elements, the last possibly shorter (`bytes_stream_gen`). */
  function Chunked<T>(s: seq<T>, n: nat): (r: seq<seq<T>>)
    requires n > 0
    ensures forall i :: 0 <= i < |r| ==> 0 < |r[i]| <= n
    ensures forall i :: 0 <= i < |r| - 1 ==> |r[i]| == n
    ensures |r| == 0 <==> |s| == 0
    decreases |s|
  {
    if |s| == 0 then []
    else if |s| <= n then [s]
    else [s[..n]] + Chunked(s[n..], n)
  }

  /** Joining the slices gives back the input. */
  lemma {:induction false} ChunkedFlatten<T>(s: seq<T>, n: nat)
    requires n > 0
    ensures Flatten(Chunked(s, n)) == s
    decreases |s|
  {
    if |s| > n {
      ChunkedFlatten(s[n..], n);
      assert s == s[..n] + s[n..];
    }
  }

  /** `bytes_stream_gen`: slices at offsets 0, n, 2n, ... below the length. */
  method ChunkSlices<T>(s: seq<T>, n: nat) returns (chunks: seq<seq<T>>)
    requires n > 0
    ensures chunks == Chunked(s, n)
  {
    chunks := [];
    var i := 0;
    while i < |s|
      invariant 0 <= i
      invariant i <= |s| ==> chunks + Chunked(s[i..], n) == Chunked(s, n)
      invariant i > |s| ==> chunks == Chunked(s, n)
      decreases |s| - i
    {
      var stop := if i + n <= |s| then i + n else |s|;
      ChunkedStep(s, i, n);
      assert chunks + [s[i..stop]] + Chunked(s[stop..], n) == chunks + ([s[i..stop]] + Chunked(s[stop..], n));
      chunks := chunks + [s[i..stop]];
      i := i + n;
    }
    if i <= |s| {
      assert s[i..] == [];
    }
  }

  /** One step of the slicing loop: the slices from offset i are the one at i, then those from i + n. */
  lemma ChunkedStep<T>(s: seq<T>, i: nat, n: nat)
    requires n > 0 && i < |s|
    ensures var stop := if i + n <= |s| then i + n else |s|;
      Chunked(s[i..], n) == [s[i..stop]] + Chunked(s[stop..], n)
  {
    if i + n < |s| {
      assert s[i..][..n] == s[i..i + n] && s[i..][n..] == s[i + n..];
    } else {
      assert s[i..|s|] == s[i..];
      assert s[|s|..] == [];
    }
  }

  /** The `audio` argument of `stt`. */
  datatype AudioArg = RawBytes(data: Bytes) | Samples(arr: NdArray) | Generated(items: seq<Value>)

  /** The input stream `stt` hands to `stt_stream`, or the ValueError its checks raise. */
  function SttInputs(setup: Dict, audio: AudioArg, sampleRate: Option<int>, lib: Lib): (r: Result<seq<Value>>)
    ensures audio.RawBytes? ==> (r.Ok? <==> sampleRate.None?)
    ensures audio.Generated? ==> (r.Ok? <==> sampleRate.None?) && (r.Ok? ==> r.value == audio.items)
    ensures (audio.RawBytes? || audio.Generated?) && r.Err? ==> r.error == ValueError(BYTES_RATE_MESSAGE)
    ensures audio.Samples? ==>
      (r.Ok? <==> Get(setup, "input_format", Null) == Str("pcm") && sampleRate == Some(ARRAY_SAMPLE_RATE) &&
                  Audio.AsInt16Vector(audio.arr, lib).Ok?)
    ensures audio.Samples? && Get(setup, "input_format", Null) != Str("pcm") ==> r == Err(ValueError(ARRAY_FORMAT_MESSAGE))
    ensures audio.Samples? && Get(setup, "input_format", Null) == Str("pcm") && sampleRate != Some(ARRAY_SAMPLE_RATE) ==>
      r == Err(ValueError(ARRAY_RATE_MESSAGE))
    ensures audio.Samples? && Get(setup, "input_format", Null) == Str("pcm") && sampleRate == Some(ARRAY_SAMPLE_RATE) ==>
      (r.Err? ==> r.error == Audio.AsInt16Vector(audio.arr, lib).error)
  {
    match audio
    case RawBytes(data) =>
      if sampleRate.Some? then Err(ValueError(BYTES_RATE_MESSAGE))
      else Ok(BlobSlices(Chunked(data, BYTES_CHUNK)))
    case Samples(arr) =>
      if Get(setup, "input_format", Null) != Str("pcm") then Err(ValueError(ARRAY_FORMAT_MESSAGE))
      else if sampleRate != Some(ARRAY_SAMPLE_RATE) then Err(ValueError(ARRAY_RATE_MESSAGE))
      else
        (match Audio.AsInt16Vector(arr, lib)
         case Err(e) => Err(e)
         case Ok(v) => Ok(ArraySlices(Chunked(v.items, SAMPLES_CHUNK))))
    case Generated(items) =>
      if sampleRate.Some? then Err(ValueError(BYTES_RATE_MESSAGE)) else Ok(items)
  }

  function BlobSlices(slices: seq<Bytes>): seq<Value>
  {
    seq(|slices|, i requires 0 <= i < |slices| => Blob(slices[i]))
  }

  function ArraySlices(slices: seq<seq<int>>): seq<Value>
  {
    seq(|slices|, i requires 0 <= i < |slices| => Array(NdArray(Int16, 1, slices[i])))
  }

  /**
   * Raw bytes are sent as one `audio` frame per 4096-byte slice, every slice but the
   * last full, and the slices joined are the input.
   */
  lemma BytesInputFrames(setup: Dict, data: Bytes, lib: Lib)
    ensures SttInputs(setup, RawBytes(data), None, lib).Ok?
    ensures var slices := Chunked(data, BYTES_CHUNK);
      var sent := Client.InputFrames(SttInputs(setup, RawBytes(data), None, lib).value, Some(AudioMap(lib)));
      sent.failure.None? && |sent.frames| == |slices| &&
      (forall i :: 0 <= i < |slices| ==> sent.frames[i] == AudioFrame(lib.b64encode(slices[i]))) &&
      Flatten(slices) == data
  {
    var slices := Chunked(data, BYTES_CHUNK);
    var inputs := BlobSlices(slices);
    Client.OneFramePerInput(inputs, Some(AudioMap(lib)));
    ChunkedFlatten(data, BYTES_CHUNK);
  }

  /**
   * The whole log `stt` writes for raw bytes: the setup, one `audio` frame per
   * 4096-byte slice in order, and `end_of_stream`; no mapping raises.
   */
  lemma BytesSendLog(setup: Dict, data: Bytes, lib: Lib)
    ensures SttInputs(setup, RawBytes(data), None, lib).Ok?
    ensures var slices := Chunked(data, BYTES_CHUNK);
      var log := Client.SendLog(Object(Client.SetupFrame(StringifyConfig(setup, lib))),
                                SttInputs(setup, RawBytes(data), None, lib).value, Some(AudioMap(lib)));
      log.failure.None? && |log.frames| == |slices| + 2 &&
      log.frames[0] == Object(Client.SetupFrame(StringifyConfig(setup, lib))) &&
      (forall i :: 0 <= i < |slices| ==> log.frames[i + 1] == AudioFrame(lib.b64encode(slices[i]))) &&
      log.frames[|slices| + 1] == Client.EndOfStream()
  {
    var slices := Chunked(data, BYTES_CHUNK);
    var inputs := BlobSlices(slices);
    assert SttInputs(setup, RawBytes(data), None, lib).value == inputs;
    forall i | 0 <= i < |inputs|
      ensures Client.MapInput(Some(AudioMap(lib)), inputs[i]) == Ok(AudioFrame(lib.b64encode(slices[i])))
    {
      assert inputs[i] == Blob(slices[i]);
    }
    Client.WholeLog(Object(Client.SetupFrame(StringifyConfig(setup, lib))), inputs, Some(AudioMap(lib)));
  }

  /**
   * A valid int16 vector is sent as one `audio` frame per 1920-sample slice, and the
   * bytes those frames carry, joined, are the bytes of the whole vector.
   */
  lemma ArrayInputFrames(setup: Dict, a: NdArray, lib: Lib)
    requires Get(setup, "input_format", Null) == Str("pcm")
    requires a.dtype == Int16 && a.ndim == 1
    ensures SttInputs(setup, Samples(a), Some(ARRAY_SAMPLE_RATE), lib).Ok?
    ensures var slices := Chunked(a.items, SAMPLES_CHUNK);
      var sent := Client.InputFrames(SttInputs(setup, Samples(a), Some(ARRAY_SAMPLE_RATE), lib).value, Some(AudioMap(lib)));
      sent.failure.None? && |sent.frames| == |slices| &&
      (forall i :: 0 <= i < |slices| ==> sent.frames[i] == AudioFrame(lib.b64encode(Audio.ToBytes(slices[i])))) &&
      Flatten(seq(|slices|, i requires 0 <= i < |slices| => Audio.ToBytes(slices[i]))) == Audio.ToBytes(a.items)
  {
    var slices := Chunked(a.items, SAMPLES_CHUNK);
    var inputs := ArraySlices(slices);
    Client.OneFramePerInput(inputs, Some(AudioMap(lib)));
    ChunkedFlatten(a.items, SAMPLES_CHUNK);
    Audio.ToBytesFlatten(slices);
  }

  /** `" ".join(t.text for t in segments)`: TypeError as soon as a text is not a string. */
  function JoinTexts(segments: seq<TextSegment>): (r: Result<string>)
    ensures r.Ok? <==> forall i :: 0 <= i < |segments| ==> segments[i].text.Str?
    ensures r.Err? ==> r.error == TypeError(JOIN_MESSAGE)
    ensures segments == [] ==> r == Ok("")
    ensures |segments| == 1 && r.Ok? ==> r.value == segments[0].text.s
  {
    if segments == [] then Ok("")
    else if !segments[0].text.Str? then Err(TypeError(JOIN_MESSAGE))
    else if |segments| == 1 then Ok(segments[0].text.s)
    else match JoinTexts(segments[1..])
      case Err(e) => Err(e)
      case Ok(rest) => Ok(segments[0].text.s + " " + rest)
  }

  /** Joining composes: two non-empty runs of segments join with exactly one space between them. */
  lemma {:induction false} JoinTextsAppend(a: seq<TextSegment>, b: seq<TextSegment>)
    requires a != [] && b != []
    requires JoinTexts(a).Ok? && JoinTexts(b).Ok?
    ensures JoinTexts(a + b) == Ok(JoinTexts(a).value + " " + JoinTexts(b).value)
  {
    assert (a + b)[0] == a[0];
    if |a| == 1 {
      assert (a + b)[1..] == b;
    } else {
      assert (a + b)[1..] == a[1..] + b;
      JoinTextsAppend(a[1..], b);
      var head, middle, tail := a[0].text.s, JoinTexts(a[1..]).value, JoinTexts(b).value;
      assert JoinTexts(a) == Ok(head + " " + middle);
      assert JoinTexts(a + b) == Ok(head + " " + (middle + " " + tail));
      assert head + " " + (middle + " " + tail) == head + " " + middle + " " + tail;
    }
  }

  /** `STTResult` */
  datatype SttResult = SttResult(text: string, textWithTimestamps: seq<TextSegment>, requestId: Value)

  /** What the buffered `stt` returns or raises. */
  function SttOutcome(setup: Dict, audio: AudioArg, sampleRate: Option<int>, inbound: seq<WsMessage>, lib: Lib)
    : Result<SttResult>
  {
    match SttInputs(setup, audio, sampleRate, lib)
    case Err(e) => Err(e)
    case Ok(_) =>
      var d := Client.Received(inbound, None);
      match OpenStream(d)
      case Err(e) => Err(e)
      case Ok(ready) =>
        if d.failure.Some? then Err(d.failure.value)
        else
          var segments := SegmentsOf(d.chunks[1..]);
          match JoinTexts(segments)
          case Err(e) => Err(e)
          case Ok(text) => Ok(SttResult(text, segments, Get(ready, "request_id", Null)))
  }

  /**
   * A transcription succeeds exactly when its checks pass, the handshake passes, the
   * stream ends normally and every `text` frame carries a string text (a missing one
   * counts as ""). A failing check raises before anything is sent; then the handshake
   * failure, the stream's failure, or the TypeError of the join is raised, in that order.
   * A success returns one segment per `text` frame after `ready`, its text their texts
   * joined by spaces, and the request id of the `ready` frame.
   */
  lemma SttReference(setup: Dict, audio: AudioArg, sampleRate: Option<int>, inbound: seq<WsMessage>, lib: Lib)
    ensures var r := SttOutcome(setup, audio, sampleRate, inbound, lib);
      SttInputs(setup, audio, sampleRate, lib).Err? ==> r == Err(SttInputs(setup, audio, sampleRate, lib).error)
    ensures var r := SttOutcome(setup, audio, sampleRate, inbound, lib); var d := Client.Received(inbound, None);
      r.Ok? <==> (SttInputs(setup, audio, sampleRate, lib).Ok? && OpenStream(d).Ok? && d.failure.None? &&
                  forall f :: f in FramesOfType(d.chunks[1..], "text") ==> Get(f, "text", Str("")).Str?)
    ensures var r := SttOutcome(setup, audio, sampleRate, inbound, lib); var d := Client.Received(inbound, None);
      SttInputs(setup, audio, sampleRate, lib).Ok? && OpenStream(d).Err? ==> r == Err(OpenStream(d).error)
    ensures var r := SttOutcome(setup, audio, sampleRate, inbound, lib); var d := Client.Received(inbound, None);
      SttInputs(setup, audio, sampleRate, lib).Ok? && OpenStream(d).Ok? && d.failure.Some? ==> r == Err(d.failure.value)
    ensures var r := SttOutcome(setup, audio, sampleRate, inbound, lib); var d := Client.Received(inbound, None);
      SttInputs(setup, audio, sampleRate, lib).Ok? && OpenStream(d).Ok? && d.failure.None? && r.Err? ==>
        r.error == TypeError(JOIN_MESSAGE)
    ensures var r := SttOutcome(setup, audio, sampleRate, inbound, lib); var d := Client.Received(inbound, None);
      r.Ok? ==>
        var text := FramesOfType(d.chunks[1..], "text");
        |r.value.textWithTimestamps| == |text| &&
        (forall i :: 0 <= i < |text| ==> r.value.textWithTimestamps[i] == SegmentOf(text[i])) &&
        r.value.text == JoinTexts(r.value.textWithTimestamps).value &&
        r.value.requestId == Get(d.chunks[0], "request_id", Null)
  {
    var d := Client.Received(inbound, None);
    if |d.chunks| > 0 {
      SegmentsAreTextFrames(d.chunks[1..]);
      TextsJoin(d.chunks[1..]);
    }
  }

  /** The segments of some frames join exactly when every `text` frame's text is a string. */
  lemma {:induction false} TextsJoin(frames: seq<Dict>)
    ensures JoinTexts(SegmentsOf(frames)).Ok? <==>
      forall f :: f in FramesOfType(frames, "text") ==> Get(f, "text", Str("")).Str?
  {
    if frames != [] {
      TextsJoin(frames[1..]);
      var head := if HasType(frames[0], "text") then [SegmentOf(frames[0])] else [];
      var tail := SegmentsOf(frames[1..]);
      assert SegmentsOf(frames) == head + tail;
      assert forall i :: 0 <= i < |tail| ==> (head + tail)[|head| + i] == tail[i];
      assert FramesOfType(frames, "text") ==
        (if HasType(frames[0], "text") then [frames[0]] else []) + FramesOfType(frames[1..], "text");
    }
  }

  /**
   * `stt`: validates the audio, slices raw bytes and arrays, opens the stream,
   * collects every segment of `iter_text` and joins their texts. A failing check
   * raises before the socket is opened, so nothing is sent; otherwise the frames
   * sent are the setup, one `audio` frame per slice, and `end_of_stream`.
   */
  method Stt(setup: Dict, audio: AudioArg, sampleRate: Option<int>, inbound: seq<WsMessage>, lib: Lib)
    returns (r: Result<SttResult>, sent: Client.Sent)
    ensures r == SttOutcome(setup, audio, sampleRate, inbound, lib)
    ensures SttInputs(setup, audio, sampleRate, lib).Err? ==> sent == Client.Sent([], None)
    ensures SttInputs(setup, audio, sampleRate, lib).Ok? ==>
      sent == Client.SendLog(Object(Client.SetupFrame(StringifyConfig(setup, lib))),
                             SttInputs(setup, audio, sampleRate, lib).value, Some(AudioMap(lib)))
  {
    sent := Client.Sent([], None);
    var inputs: seq<Value>;
    match audio {
      case RawBytes(data) =>
        if sampleRate.Some? {
          return Err(ValueError(BYTES_RATE_MESSAGE)), sent;
        }
        var slices := ChunkSlices(data, BYTES_CHUNK);
        inputs := BlobSlices(slices);
      case Samples(arr) =>
        if Get(setup, "input_format", Null) != Str("pcm") {
          return Err(ValueError(ARRAY_FORMAT_MESSAGE)), sent;
        }
        if sampleRate != Some(ARRAY_SAMPLE_RATE) {
          return Err(ValueError(ARRAY_RATE_MESSAGE)), sent;
        }
        var vector := Audio.AsInt16Vector(arr, lib);
        if vector.Err? {
          return Err(vector.error), sent;
        }
        var slices := ChunkSlices(vector.value.items, SAMPLES_CHUNK);
        inputs := ArraySlices(slices);
      case Generated(items) =>
        if sampleRate.Some? {
          return Err(ValueError(BYTES_RATE_MESSAGE)), sent;
        }
        inputs := items;
    }
    assert inputs == SttInputs(setup, audio, sampleRate, lib).value;
    var start;
    start, sent := OpenSttStream(setup, inputs, inbound, lib);
    if start.Err? {
      return Err(start.error), sent;
    }
    var stream := start.value;
    var segments, failure := stream.IterText();
    if failure.Some? {
      return Err(failure.value), sent;
    }
    var text := JoinTexts(segments);
    if text.Err? {
      return Err(text.error), sent;
    }
    r := Ok(SttResult(text.value, segments, stream.RequestId()));
  }
}
