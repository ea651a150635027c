/**
 * The `gradium` command line: how `tts` and `stt` turn their arguments into a
 * setup, what they do with the result, and the JSON document `stt --json` prints.
 * Argument parsing, file access and printing are not modelled: the parsed
 * arguments, the file contents and the environment's key are parameters, and the
 * output is a value.
 */
module Cli {
  import opened Values
  import Client
  import Speech
  import Voices

  const DEFAULT_BASE_URL := "https://eu.api.gradium.ai/api"
  const DEFAULT_FORMAT := "wav"

  /** The parsed arguments of `gradium tts`; absent options are None. */
  datatype TtsArgs = TtsArgs(
    text: string, voiceId: Option<string>, output: Option<string>, format: Option<string>,
    baseUrl: string, apiKey: Option<string>)

  /** The parsed arguments of `gradium stt`. */
  datatype SttArgs = SttArgs(audioFile: string, json: bool, baseUrl: string, apiKey: Option<string>)

  /** Where `tts` writes the audio. */
  datatype TtsOutput = ToFile(path: string, data: Bytes) | ToStdout(data: Bytes)

  /** What `stt` prints: the JSON document, or the bare text. */
  datatype SttOutput = JsonDoc(doc: Dict) | PlainText(text: string)

  /** What a command sent over the socket, and what it produced or raised. */
  datatype Run<T> = Run(sent: Client.Sent, result: Result<T>)

  /**
   * The command line's default `--gradium-base-url` lacks the trailing "/", and the
   * client's constructor adds it: both defaults name the same server.
   */
  lemma DefaultBaseUrlAgrees()
    ensures Client.NormalizeBaseUrl(DEFAULT_BASE_URL) == Client.DEFAULT_BASE_URL
  {
    assert !EndsWith(DEFAULT_BASE_URL, "/");
    assert StartsWith(DEFAULT_BASE_URL + "/", "http");
  }

  /** `infer_format_from_filename`: the format named by a `.wav`, `.pcm` or `.ogg` ending, else None. */
  function InferFormat(filename: string): (r: Option<string>)
    ensures r == Some("wav") <==> EndsWith(filename, ".wav")
    ensures r == Some("pcm") <==> EndsWith(filename, ".pcm")
    ensures r == Some("ogg") <==> EndsWith(filename, ".ogg")
    ensures r.None? <==> !EndsWith(filename, ".wav") && !EndsWith(filename, ".pcm") && !EndsWith(filename, ".ogg")
  {
    if EndsWith(filename, ".wav") then Some("wav")
    else if EndsWith(filename, ".pcm") then Some("pcm")
    else if EndsWith(filename, ".ogg") then Some("ogg")
    else None
  }

  /** A non-empty string option, as Python's truthiness sees it. */
  predicate Truthy(s: Option<string>)
  {
    s.Some? && s.value != ""
  }

  /**
   * The output format of `tts`: an explicit `--format` wins, even when empty;
   * otherwise the one inferred from a non-empty `--output`; otherwise "wav".
   */
  function TtsOutputFormat(format: Option<string>, output: Option<string>): (f: string)
    ensures format.Some? ==> f == format.value
    ensures format.None? && Truthy(output) && InferFormat(output.value).Some? ==> f == InferFormat(output.value).value
    ensures format.None? && !(Truthy(output) && InferFormat(output.value).Some?) ==> f == DEFAULT_FORMAT
    ensures format.None? ==> f in {"wav", "pcm", "ogg"}
  {
    var inferred := if format.None? && Truthy(output) then InferFormat(output.value) else format;
    if inferred.None? then DEFAULT_FORMAT else inferred.value
  }

  /** The setup `tts` sends: the output format, and the voice only when one is given non-empty. */
  function TtsSetup(args: TtsArgs): (setup: Dict)
    ensures "output_format" in setup && setup["output_format"] == Str(TtsOutputFormat(args.format, args.output))
    ensures "voice_id" in setup <==> Truthy(args.voiceId)
    ensures Truthy(args.voiceId) ==> setup["voice_id"] == Str(args.voiceId.value)
    ensures setup.Keys <= {"output_format", "voice_id"}
  {
    var setup := map["output_format" := Str(TtsOutputFormat(args.format, args.output))];
    if Truthy(args.voiceId) then setup["voice_id" := Str(args.voiceId.value)] else setup
  }

  /** The setup `stt` sends: the format inferred from the audio file's name, else "wav". */
  function SttSetup(audioFile: string): (setup: Dict)
    ensures setup.Keys == {"input_format"}
    ensures InferFormat(audioFile).Some? ==> setup["input_format"] == Str(InferFormat(audioFile).value)
    ensures InferFormat(audioFile).None? ==> setup["input_format"] == Str(DEFAULT_FORMAT)
  {
    var f := InferFormat(audioFile);
    map["input_format" := Str(if f.Some? then f.value else DEFAULT_FORMAT)]
  }

  /**
   * `run_tts`: builds the client, synthesises, and writes the raw audio to `--output`
   * when given, else to stdout. A missing key raises before anything is sent;
   * otherwise the command sends its setup, the whole text in one `text` frame, and
   * `end_of_stream`.
   */
  function RunTts(args: TtsArgs, envApiKey: Option<string>, inbound: seq<WsMessage>, lib: Lib): (r: Run<TtsOutput>)
    ensures Client.NewClient(args.baseUrl, args.apiKey, envApiKey).Err? ==>
      r == Run(Client.Sent([], None), Err(Client.NewClient(args.baseUrl, args.apiKey, envApiKey).error))
    ensures Client.NewClient(args.baseUrl, args.apiKey, envApiKey).Ok? ==>
      r.sent.failure.None? &&
      r.sent.frames == [Speech.TtsSetupFrame(TtsSetup(args), lib),
                        Object(map["type" := Str("text"), "text" := Str(args.text)]),
                        Client.EndOfStream()]
    ensures Client.NewClient(args.baseUrl, args.apiKey, envApiKey).Ok? ==>
      (r.result.Ok? <==> Speech.TtsOutcome(TtsSetup(args), inbound, lib).Ok?)
    ensures r.result.Ok? ==> r.result.value.data == Speech.TtsOutcome(TtsSetup(args), inbound, lib).value.rawData
    ensures r.result.Ok? ==> (r.result.value.ToFile? <==> Truthy(args.output))
    ensures r.result.Ok? && r.result.value.ToFile? ==> r.result.value.path == args.output.value
  {
    match Client.NewClient(args.baseUrl, args.apiKey, envApiKey)
    case Err(e) => Run(Client.Sent([], None), Err(e))
    case Ok(_) =>
      Speech.SingleTextOneFrame(TtsSetup(args), args.text, lib);
      var sent := Client.SendLog(Speech.TtsSetupFrame(TtsSetup(args), lib), Speech.TextInputs(Speech.Single(args.text)),
                                 Some(Speech.FormatText));
      match Speech.TtsOutcome(TtsSetup(args), inbound, lib)
      case Err(e) => Run(sent, Err(e))
      case Ok(result) =>
        if Truthy(args.output) then Run(sent, Ok(ToFile(args.output.value, result.rawData)))
        else Run(sent, Ok(ToStdout(result.rawData)))
  }

  /** One segment of the `--json` document. */
  function SegmentJson(seg: Speech.TextSegment): (v: Value)
    ensures v.Object? && v.fields.Keys == {"text", "start_s", "stop_s"}
    ensures v.fields["text"] == seg.text && v.fields["start_s"] == seg.startS && v.fields["stop_s"] == seg.stopS
  {
    Object(map["text" := seg.text, "start_s" := seg.startS, "stop_s" := seg.stopS])
  }

  /** The `--json` document: the text, the request id, and one object per segment, in order. */
  function JsonOutput(result: Speech.SttResult): (doc: Dict)
    ensures doc.Keys == {"text", "request_id", "segments"}
    ensures doc["text"] == Str(result.text) && doc["request_id"] == result.requestId
    ensures doc["segments"].List? && |doc["segments"].elems| == |result.textWithTimestamps|
    ensures forall i :: 0 <= i < |result.textWithTimestamps| ==>
      doc["segments"].elems[i] == SegmentJson(result.textWithTimestamps[i])
  {
    var segs := result.textWithTimestamps;
    map["text" := Str(result.text), "request_id" := result.requestId,
        "segments" := List(seq(|segs|, i requires 0 <= i < |segs| => SegmentJson(segs[i])))]
  }

  /**
   * `run_stt`: builds the client, transcribes the file's bytes, and prints the JSON
   * document or the text. A missing key raises before anything is sent; otherwise
   * the command sends its setup, the file in 4096-byte slices, one `audio` frame
   * each and in order, and `end_of_stream`.
   */
  function RunStt(args: SttArgs, envApiKey: Option<string>, audioData: Bytes, inbound: seq<WsMessage>, lib: Lib)
    : (r: Run<SttOutput>)
    ensures Client.NewClient(args.baseUrl, args.apiKey, envApiKey).Err? ==>
      r == Run(Client.Sent([], None), Err(Client.NewClient(args.baseUrl, args.apiKey, envApiKey).error))
    ensures Client.NewClient(args.baseUrl, args.apiKey, envApiKey).Ok? ==>
      var slices := Speech.Chunked(audioData, Speech.BYTES_CHUNK);
      r.sent.failure.None? && |r.sent.frames| == |slices| + 2 &&
      r.sent.frames[0] == Object(Client.SetupFrame(Speech.StringifyConfig(SttSetup(args.audioFile), lib))) &&
      (forall i :: 0 <= i < |slices| ==> r.sent.frames[i + 1] == Speech.AudioFrame(lib.b64encode(slices[i]))) &&
      r.sent.frames[|slices| + 1] == Client.EndOfStream()
    ensures Client.NewClient(args.baseUrl, args.apiKey, envApiKey).Ok? ==>
      (r.result.Ok? <==> Speech.SttOutcome(SttSetup(args.audioFile), Speech.RawBytes(audioData), None, inbound, lib).Ok?)
    ensures r.result.Ok? ==> (r.result.value.JsonDoc? <==> args.json)
    ensures r.result.Ok? && args.json ==>
      r.result.value.doc ==
        JsonOutput(Speech.SttOutcome(SttSetup(args.audioFile), Speech.RawBytes(audioData), None, inbound, lib).value)
    ensures r.result.Ok? && !args.json ==>
      r.result.value ==
        PlainText(Speech.SttOutcome(SttSetup(args.audioFile), Speech.RawBytes(audioData), None, inbound, lib).value.text)
  {
    match Client.NewClient(args.baseUrl, args.apiKey, envApiKey)
    case Err(e) => Run(Client.Sent([], None), Err(e))
    case Ok(_) =>
      var setup := SttSetup(args.audioFile);
      Speech.BytesSendLog(setup, audioData, lib);
      var sent := Client.SendLog(Object(Client.SetupFrame(Speech.StringifyConfig(setup, lib))),
                                 Speech.SttInputs(setup, Speech.RawBytes(audioData), None, lib).value,
                                 Some(Speech.AudioMap(lib)));
      match Speech.SttOutcome(setup, Speech.RawBytes(audioData), None, inbound, lib)
      case Err(e) => Run(sent, Err(e))
      case Ok(result) => if args.json then Run(sent, Ok(JsonDoc(JsonOutput(result)))) else Run(sent, Ok(PlainText(result.text)))
  }

  /**
   * The segments of `stt --json` are the `text` frames the server sent after
   * `ready`, one object each and in order, with the defaults of `TextWithTimestamps`.
   */
  lemma {:induction false} JsonSegmentsAreTextFrames(args: SttArgs, envApiKey: Option<string>, audioData: Bytes,
                                                     inbound: seq<WsMessage>, lib: Lib)
    requires args.json
    ensures var r := RunStt(args, envApiKey, audioData, inbound, lib).result;
      r.Ok? ==>
        var d := Client.Received(inbound, None);
        var text := Speech.FramesOfType(d.chunks[1..], "text");
        var segments := r.value.doc["segments"].elems;
        |segments| == |text| &&
        forall i :: 0 <= i < |text| ==> segments[i] == SegmentJson(Speech.SegmentOf(text[i]))
  {
    Speech.SttReference(SttSetup(args.audioFile), Speech.RawBytes(audioData), None, inbound, lib);
  }

  /**
   * For a file name that ends in `.wav`, `.pcm` or `.ogg` after a non-empty stem,
   * `voices.create` uploads under the format the command line infers.
   */
  lemma {:induction false} UploadFormatAgrees(path: string)
    requires InferFormat(path).Some?
    requires |Voices.BaseName(path)| > 4
    ensures Voices.UploadFormat(path, None) == InferFormat(path).value
  {
    var name := Voices.BaseName(path);
    var f := InferFormat(path).value;
    assert EndsWith(path, "." + f);
    assert EndsWith(path, name);
    assert path[|path| - 4..] == path[|path| - |name|..][|name| - 4..];
    assert name[|name| - 4..] == path[|path| - 4..];
    var i := Voices.RFind(name, '.');
    assert name[|name| - 4] == '.';
    assert i == |name| - 4;
    assert Voices.Suffix(name) == "." + f;
  }

  /**
   * A hidden file named only by its extension, such as `.wav`, has no suffix for
   * `voices.create`, though the command line reads its format from it.
   */
  lemma HiddenFileDiverges(name: string)
    requires |name| == 4 && name[0] == '.' && forall k :: 1 <= k < 4 ==> name[k] != '.' && name[k] != '/'
    ensures Voices.UploadFormat(name, None) == ""
    ensures EndsWith(name, ".wav") ==> InferFormat(name) == Some("wav")
  {
    assert Voices.BaseName(name) == name by {
      assert Voices.RFind(name, '/') == -1;
    }
    assert Voices.RFind(name, '.') == 0;
  }
}
