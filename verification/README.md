# gradium-py frame protocol, in Dafny

This project models the core of `gradium-py`, the Python SDK of the Gradium speech
API, and proves properties of the model. The core is the deterministic
frame-sequencing protocol under the SDK's thin I/O layer:

- what the streaming client writes to a WebSocket: the setup frame, one frame per
  mapped input, then `end_of_stream`;
- how it sorts incoming transport messages into chunks, skips and failures;
- how the receive queue hands chunks to the consumer;
- how the text-to-speech (TTS) and speech-to-text (STT) facades check the `ready`
  handshake and turn frames into audio bytes and text segments;
- the buffered `tts`/`stt` calls, including `stt`'s input validation and slicing;
- the interactive `Tts`/`Stt` session handles;
- the voice-management request builders;
- the command line's format inference, setup building and JSON output.

The socket is replaced by values:

- the server's side is a sequence of transport messages (`WsMessage`);
- what the client sends is a log of frames.

The send task and the receive worker of `GradiumClient.stream` run one after the
other. Frames are Python dictionaries, modelled as `map<string, Value>`.

Library calls are fields of a `Lib` record passed as a parameter:

- `json.dumps`;
- base64 encoding and decoding;
- numpy's float32-to-int16 conversion;
- `str` of a float.

Modules, one file each:

- `values.dfy` (`Values`): dynamic values, transport messages, errors, results, string helpers.
- `audio.dfy` (`Audio`): int16 `tobytes`/`frombuffer` and the dtype/ndim checks.
- `client.dfy` (`Client`): `send`, `receive`, the receive queue, `stream`, client construction, headers.
- `speech.dfy` (`Speech`): `tts_stream`, `TTSStream.iter_bytes`, `tts`, `TTSResult.pcm16`, `stt_stream`, `STTStream.iter_text`, `stt`, `bytes_stream_gen`.
- `stream.dfy` (`Stream`): the `Tts` and `Stt` session classes over a scripted socket.
- `voices.dfy` (`Voices`): `create`, `get`, `update`, `delete` as request values.
- `cli.dfy` (`Cli`): `infer_format_from_filename`, `run_tts`, `run_stt`.

A blocking read (`ws.receive()`) on a socket whose scripted messages have run out
gives the reply `Blocked`: the real call would wait forever.

When the handshake of `Tts.__aenter__` or `Stt.__aenter__` raises, Python does not
run `__aexit__`, so the session and the socket stay open. `Stream.Tts.Enter` and
`Stream.Stt.Enter` keep that behaviour: their contracts leave the new session open
and the socket's closed flag unchanged on every outcome.

Where a Python builtin raises, the model raises the same kind of exception:

- `data["type"]` raises `KeyError`;
- `.startswith("pcm")` on bytes raises `TypeError` (a bytes prefix is wanted), and on any other non-string `AttributeError`;
- `" ".join` of a non-string raises `TypeError`;
- `np.frombuffer` on an odd length raises `ValueError`.

## Model

| member | source | states |
|---|---|---|
| Client.SendLog | gradium/client.py:38-50 | the log starts with the setup frame; when no mapping raised it ends with `end_of_stream`; its failure is the first mapping exception |
| Client.Send | gradium/client.py:23-50 | the frames `send` writes are exactly `SendLog`: setup, mapped non-None inputs in order, then `end_of_stream` unless a mapping raised |
| Client.WriteInputs | gradium/client.py:38-49 | the input loop of `send` writes exactly `InputFrames`: each input's mapped frame in order, None skipped, stopping at the first mapping that raises |
| Client.WholeLog | gradium/client.py:38-50 | when every input maps to a frame, input i's frame sits at position i + 1 of the log, between the setup and a final `end_of_stream`, and nothing raises |
| Client.InputFramesAppend | gradium/client.py:44-49 | the frames of `a + b` are those of `a` followed by those of `b`, unless a mapping in `a` already raised |
| Client.DroppedInputWritesNothing | gradium/client.py:38-41 | an input mapped to None writes no frame and leaves every other frame in place |
| Client.OneFramePerInput | gradium/client.py:38-49 | when every input maps to a frame, frame i is the image of input i and there are as many frames as inputs |
| Client.FirstMappingFailureStops | gradium/client.py:38-49 | for any setup, the first input whose mapping raises ends the writing: its exception is reported, no later input and no `end_of_stream` is written |
| Client.NoFailureWhileMapsSucceed | gradium/client.py:38-49 | when no mapping raises, the send log records no failure |
| Client.FramesAvoid | gradium/client.py:38-41 | a frame value no input maps to never appears among the input frames |
| Client.EndOfStreamSentOnce | gradium/client.py:43-50 | when neither setup nor any input is itself `end_of_stream`, the log holds exactly one, as its last frame, if no mapping raised, and none otherwise |
| Client.Classify | gradium/client.py:68-93 | without a map, a TEXT frame is yielded, or raises with its message and code when its type is `error`; with a map, a TEXT frame the map turns into None is skipped, and otherwise the mapped chunk is yielded or raised on by the same rule; only TEXT is ever yielded, never an `error` chunk; ERROR raises; CLOSE/CLOSED raises exactly when the code is present and not 1000, naming code and reason ("No reason provided" when empty); other messages are skipped |
| Client.Received | gradium/client.py:68-93 | never more chunks than messages, and no yielded chunk has type `error` |
| Client.Receive | gradium/client.py:53-93 | the receive loop yields exactly `Received`: chunks in arrival order, stopping at the first failure |
| Client.ReceivedAppend | gradium/client.py:68-93 | reception composes: a prefix that did not fail contributes its chunks, then the rest is received |
| Client.FailureEndsReception | gradium/client.py:75-82 | a failing message ends reception: earlier chunks are yielded, its exception is raised, nothing after it is seen |
| Client.NormalCloseIsSilent | gradium/client.py:83-93 | a CLOSE/CLOSED with no code or code 1000 changes neither the chunks nor the failure |
| Client.UnfailedReceptionYieldsAllText | gradium/client.py:68-80 | without a map, a reception that raised nothing yielded every TEXT frame, in arrival order |
| Client.ReceiveQueue.Put | gradium/client.py:199-203 | `put` appends to the queue |
| Client.ReceiveQueue.Get | gradium/client.py:213 | `get` removes and returns the head of the queue |
| Client.WorkerItems | gradium/client.py:195-203 | the worker's queue contents end with the end marker, and no end marker comes before it |
| Client.ReceiveWorker | gradium/client.py:195-203 | the worker enqueues each received chunk, then the exception if one was raised, then always the end marker |
| Client.Consume | gradium/client.py:210-218 | the consumer loop yields the chunks before the end marker and re-raises a captured exception where it stands |
| Client.QueueRoundTrip | gradium/client.py:195-218 | draining what the worker enqueued gives back exactly the chunks and the failure of `receive`: the queue loses and reorders nothing |
| Client.SetupFrame | gradium/client.py:190 | the setup frame keeps the caller's keys and values and has type `setup` |
| Client.Stream | gradium/client.py:166-223 | one exchange sends `SendLog` of the setup frame and delivers to the consumer exactly what `receive` produced; a send-task exception never reaches the consumer |
| Client.NormalizeBaseUrl | gradium/client.py:129-135 | the stored base URL ends with "/" and starts with "http"; a scheme-less URL gets "http://" when it starts with "127" or "local", "https://" otherwise |
| Client.NormalizeIdempotent | gradium/client.py:129-135 | normalising a normalised URL changes nothing |
| Client.NewClient | gradium/client.py:112-146 | construction fails with the missing-key ValueError exactly when neither the argument nor the environment gives a key; the argument key wins over the environment |
| Client.Headers | gradium/client.py:148-151 | the headers are exactly the API key and the `python-client/<version>` source tag |
| Audio.ToBytes | gradium/speech.py:415 | `tobytes` writes two bytes per sample |
| Audio.FromBuffer | gradium/speech.py:196 | `frombuffer` succeeds exactly on even lengths, giving one int16 sample per two bytes; odd lengths raise ValueError |
| Audio.SampleRoundTrip | gradium/speech.py:196 | an int16 sample survives writing and reading back its two bytes |
| Audio.BytesRoundTrip | gradium/speech.py:196 | two bytes survive reading as a sample and writing back |
| Audio.FromBufferToBytes | gradium/speech.py:184-196 | reading back what `tobytes` wrote gives the samples |
| Audio.ToBytesFromBuffer | gradium/speech.py:184-196 | writing back what `frombuffer` read gives the bytes |
| Audio.ToBytesAppend | gradium/speech.py:415 | `tobytes` of a concatenation is the concatenation of the `tobytes` |
| Audio.ToBytesFlatten | gradium/speech.py:485-494 | the bytes of each slice of samples, joined, are the bytes of all the samples |
| Audio.AsInt16Vector | gradium/speech.py:405-415 | int16 passes unchanged; float32 is converted element by element; another dtype raises the dtype ValueError, checked before ndim; ndim other than 1 raises the ndim ValueError |
| Speech.SegmentOf | gradium/speech.py:151-157 | a segment's text defaults to "", start_s to 0.0, stop_s to start_s |
| Speech.FramesOfType | gradium/speech.py:150-160 | the selected frames are of the requested type and no more numerous than the input; `FramesOfTypeSelects` and `FramesOfTypeAppend` state that none of the type is dropped and the order is kept |
| Speech.FramesOfTypeSelects | gradium/speech.py:150-160 | a frame is selected exactly when it is one of the input frames and has the requested type |
| Speech.FramesOfTypeAppend | gradium/speech.py:150-160 | selection keeps arrival order: the frames of a concatenation are those of the first part, then those of the second |
| Speech.StringifyConfig | gradium/speech.py:242-246 | a non-None, non-string `json_config` becomes its JSON text; a string or None `json_config` leaves the setup unchanged; all other keys are kept |
| Speech.StringifyIdempotent | gradium/speech.py:242-246 | stringifying twice is stringifying once |
| Speech.OpenStream | gradium/speech.py:249-253 | the stream opens exactly when the first chunk has type `ready`, and keeps that chunk; another first type raises naming it; no chunk raises the stream's failure or StopAsyncIteration |
| Speech.SegmentsAreTextFrames | gradium/speech.py:344-352 | the segments are `SegmentOf` of the `text` frames, one each, in order |
| Speech.IterBytesFailure | gradium/speech.py:149-160 | `iter_bytes` finishes without a decoding failure exactly when every `audio` frame decodes |
| Speech.IterBytesContents | gradium/speech.py:149-160 | without a failure, `iter_bytes` yields one decoded payload per `audio` frame, in order, and records one segment per `text` frame |
| Speech.TtsStream.constructor | gradium/speech.py:94-111 | a new stream holds the frames after `ready`, the setup, the ready frame and no segments |
| Speech.TtsStream.IterBytes | gradium/speech.py:123-160 | the loop yields the audio payloads and appends the text segments exactly as `AudioOf` of the pending frames says, then the stream's own failure |
| Speech.FormatText | gradium/speech.py:239-240 | each text becomes one frame of type `text` carrying exactly that text |
| Speech.TextInputs | gradium/speech.py:236-237 | a single string is wrapped in a one-element list; a list is used as it is |
| Speech.SingleTextOneFrame | gradium/speech.py:236-248 | a single string is sent whole, as exactly one `text` frame between the setup and `end_of_stream`, and nothing raises |
| Speech.OpenTtsStream | gradium/speech.py:213-253 | `tts_stream` sends `SendLog` of the stringified setup and the text frames, and opens exactly when the first chunk is `ready` |
| Speech.TtsReference | gradium/speech.py:276-287 | `tts` succeeds exactly when the handshake passes, every audio frame decodes and the stream ends normally; its audio is the payloads joined in order, rate and request id come from `ready`, the format from the setup |
| Speech.Tts | gradium/speech.py:256-287 | the buffered call returns exactly `TtsOutcome`, and the frames it sends are those of `tts_stream`: the setup, one `text` frame per input text, `end_of_stream` |
| Speech.Pcm16 | gradium/speech.py:184-196 | a None or non-"pcm" format raises ValueError, a bytes format TypeError, any other non-string format AttributeError; otherwise the raw data is read as int16 |
| Speech.Pcm16OfSamples | gradium/speech.py:184-196 | PCM output whose audio is the bytes of int16 samples gives those samples back |
| Speech.SttStream.IterText | gradium/speech.py:316-352 | the loop yields one segment per `text` frame of the pending frames, then the stream's own failure |
| Speech.FormatAudio | gradium/speech.py:405-420 | bytes are base64 encoded into an `audio` frame; an array passes the dtype/ndim checks and is sent as its int16 bytes; anything else is not bytes-like |
| Speech.OpenSttStream | gradium/speech.py:378-434 | `stt_stream` sends `SendLog` of the stringified setup and the audio frames, and opens exactly when the first chunk is `ready` |
| Speech.Chunked | gradium/speech.py:466-468 | slices are non-empty, at most n long, all but the last exactly n, and there are none exactly when the input is empty |
| Speech.ChunkedFlatten | gradium/speech.py:466-468 | joining the slices gives back the input |
| Speech.ChunkSlices | gradium/speech.py:466-468 | the slicing loop over offsets 0, n, 2n, ... produces `Chunked` |
| Speech.SttInputs | gradium/speech.py:470-500 | bytes and generators are refused with a sample rate; arrays are checked for format "pcm", rate 24000, dtype and ndim, in that order |
| Speech.BytesInputFrames | gradium/speech.py:466-471 | raw bytes are sent as one `audio` frame per 4096-byte slice, in order |
| Speech.BytesSendLog | gradium/speech.py:466-471 | the whole log for raw bytes: the setup, slice i's `audio` frame at position i + 1, `end_of_stream` last, and no mapping raises |
| Speech.ArrayInputFrames | gradium/speech.py:476-494 | an int16 vector is sent as one `audio` frame per 1920-sample slice, in order |
| Speech.JoinTexts | gradium/speech.py:507 | joining succeeds exactly when every text is a string, and otherwise raises TypeError; no segments join to ""; a single segment joins to its own text |
| Speech.JoinTextsAppend | gradium/speech.py:507 | two non-empty runs of segments join with exactly one space between them |
| Speech.SttReference | gradium/speech.py:502-510 | the result is a success exactly when the checks pass, the handshake passes, the stream ends normally and every `text` frame has a string text; a failing check raises first, then the handshake failure, the stream failure, or the join's TypeError; a result has one segment per `text` frame after `ready`, its text their texts joined, and the ready frame's request id |
| Speech.TextsJoin | gradium/speech.py:503-507 | the segments of some frames join exactly when every `text` frame's text, "" when missing, is a string |
| Speech.Stt | gradium/speech.py:437-510 | the buffered call returns exactly `SttOutcome`; a failing check sends nothing, otherwise the frames sent are the setup, one `audio` frame per input of `SttInputs`, then `end_of_stream` |
| Stream.SetupPayload | gradium/stream.py:193-198 | the setup frame has the given fields plus type `setup`, with `json_config` None or a string |
| Stream.TextPayload | gradium/stream.py:221-223 | the text frame carries the text, and `client_req_id` exactly when one is given and is not None |
| Stream.FlushPayload | gradium/stream.py:498 | the flush frame carries the given id, 0 by default |
| Stream.SessionFramesMatchStream | gradium/stream.py:193-224 | the session handle's setup, text and end frames are the ones the streaming client sends |
| Stream.AudioPayload | gradium/stream.py:457-474 | bytes are sent encoded; an array needs an `input_format` (KeyError otherwise) that is a string (TypeError for bytes, AttributeError for other values) starting with "pcm" (ValueError otherwise), and then yields the frame `stt_stream` would send; anything else is not bytes-like |
| Stream.FirstDelivered | gradium/stream.py:314-319 | `recv` acts on the first CLOSE or TEXT message; everything before it is skipped |
| Stream.SkippedMessagesAreInvisible | gradium/stream.py:314-319 | messages that are neither CLOSE nor TEXT in front of the rest change nothing `recv` sees |
| Stream.NextDelivered | gradium/stream.py:314-319 | the reading loop consumes up to and including the first CLOSE or TEXT message and returns it |
| Stream.NormalizeTtsFrame | gradium/stream.py:320-331 | no `type` raises KeyError; `error` raises; text frames get `stop_s` (existing, else start_s, else 0.0); audio frames are decoded; all other keys and frames are unchanged |
| Stream.NormalizedTextKeepsSegment | gradium/stream.py:324-326 | a normalised text frame stands for the same segment, and normalising it again changes nothing |
| Stream.CheckSttFrame | gradium/stream.py:572-576 | `Stt.recv` returns a frame unchanged unless it has no type (KeyError) or is an `error` (raise) |
| Stream.RecvReplyCases | gradium/stream.py:314-331 | `recv` returns None exactly when a CLOSE comes before any TEXT, and blocks exactly when neither ever comes |
| Stream.Tts.constructor | gradium/stream.py:141-161 | a new handle has no socket, no session and no ready frame |
| Stream.Tts.Enter | gradium/stream.py:163-172 | entering opens a session with the client's headers and leaves the socket's closed flag unchanged; with setup-on-start it sends the setup and performs the handshake, keeping the ready frame; without it sends nothing and leaves ready None |
| Stream.Tts.Exit | gradium/stream.py:174-178 | leaving closes the socket and the session when they exist |
| Stream.Tts.SendSetup | gradium/stream.py:180-200 | refused without a socket; otherwise sends the setup frame |
| Stream.Tts.SendText | gradium/stream.py:202-224 | refused without a socket; otherwise sends the text frame, with `client_req_id` only when it is not None |
| Stream.Tts.SendEos | gradium/stream.py:226-250 | refused without a socket; otherwise always sends the bare `end_of_stream`, whatever request id is given |
| Stream.Tts.WaitForReady | gradium/stream.py:252-271 | refused without a socket; otherwise reads one message, which must be a TEXT frame of type `ready` |
| Stream.Tts.Recv | gradium/stream.py:291-331 | refused without a socket; otherwise returns `RecvReply` with the TTS normalisation, consumes the messages read, sends nothing, closes nothing, keeps the session, and records a `ready` frame only when none was recorded |
| Stream.Tts.Next | gradium/stream.py:277-289 | `__anext__` raises StopAsyncIteration exactly where `recv` returns None, and otherwise returns its frame; it consumes what `recv` consumes, sends and closes nothing, keeps the socket and session, and records a first `ready` frame as `recv` does |
| Stream.Handshake | gradium/stream.py:263-271 | the handshake succeeds exactly on a first TEXT frame of type `ready`; a non-TEXT message or another type raises |
| Stream.ReadReady | gradium/stream.py:265-271 | the handshake read consumes one message and returns `Handshake` |
| Stream.Stt.constructor | gradium/stream.py:373-392 | a new handle has no socket, session, setup or ready frame |
| Stream.Stt.Enter | gradium/stream.py:394-400 | entering always sends the setup, records it, performs the handshake and keeps the ready frame, leaving the socket's closed flag unchanged |
| Stream.Stt.Exit | gradium/stream.py:402-406 | leaving closes the socket and the session when they exist |
| Stream.Stt.SendSetup | gradium/stream.py:408-429 | refused without a socket; otherwise sends the setup frame and records it as the setup in force |
| Stream.Stt.SendAudio | gradium/stream.py:431-474 | refused without a socket or a recorded setup, and without a setup nothing is sent; otherwise sends `AudioPayload` or raises its error, sending nothing |
| Stream.Stt.SendEos | gradium/stream.py:476-493 | refused without a socket; otherwise sends `end_of_stream` |
| Stream.Stt.SendFlush | gradium/stream.py:495-498 | refused without a socket; otherwise sends the flush frame |
| Stream.Stt.WaitForReady | gradium/stream.py:500-519 | refused without a socket; otherwise performs the handshake |
| Stream.Stt.Recv | gradium/stream.py:539-576 | refused without a socket; otherwise returns `RecvReply` with frames unchanged and consumes the messages read |
| Stream.Stt.Next | gradium/stream.py:525-537 | `__anext__` raises StopAsyncIteration exactly where `recv` returns None, otherwise returns its frame or raises its error; it consumes what `recv` consumes and sends and closes nothing |
| Voices.BaseName | gradium/voices.py:61 | the file name is the text after the last "/" of the path: it ends the path, contains no "/", and is the whole path or preceded by a "/" |
| Voices.Suffix | gradium/voices.py:54 | the suffix is non-empty exactly when the name's last dot is neither its first nor its last character; it is then a dot and at least one non-dot character ending the name |
| Voices.StripDots | gradium/voices.py:54 | the result is a contiguous part of the input with only dots removed before and after it, and no dot at either end |
| Voices.StripSuffix | gradium/voices.py:54 | stripping a non-empty suffix removes just its leading dot |
| Voices.UploadFormat | gradium/voices.py:52-55 | a non-empty given format wins; otherwise the file suffix without its dot, or "" when there is none |
| Voices.PresentFields | gradium/voices.py:70-72 | only text fields, never more than the entries; with `PresentFieldsAppend` and `PresentFieldsOfOne`, exactly one field per entry with a value, in order |
| Voices.PresentFieldsAppend | gradium/voices.py:70-72 | the fields of a run of entries are those of each part in turn |
| Voices.PresentFieldsOfOne | gradium/voices.py:70-72 | an entry with a value gives one text field of that name and value, an entry whose value is None gives none |
| Voices.FormData.AddField | gradium/voices.py:60-62 | `add_field` appends one field |
| Voices.AddPresentFields | gradium/voices.py:70-72 | the loop adds a text field for each entry whose value is not None, in order |
| Voices.Create | gradium/voices.py:52-74 | the upload form holds the file first, as `audio/<format>` under its file name, then the present text fields, posted to `voices/` |
| Voices.CreateFieldNames | gradium/voices.py:64-72 | the text fields are name (defaulting to the file name), start_s unless None, description unless None, and the format, all as strings |
| Voices.CreateSendsDefaultStart | gradium/voices.py:28 | a call that leaves `start_s` at its default 0.0 still sends a `start_s` field holding the text of 0.0 |
| Voices.GetRequest | gradium/voices.py:97-101 | the route is `voices/` plus the uid, or `voices/` alone; the params are `limit` 0 and `include_catalog` 0 or 1 |
| Voices.UpdateRequest | gradium/voices.py:129-135 | no request exactly when name, description and start_s are all None; otherwise a PUT to the voice's route whose body has exactly the non-None fields |
| Voices.DeleteRequest | gradium/voices.py:156 | a DELETE of the voice's route |
| Cli.InferFormat | gradium/cli.py:19-27 | "wav", "pcm" or "ogg" exactly for names ending in ".wav", ".pcm" or ".ogg", None otherwise |
| Cli.TtsOutputFormat | gradium/cli.py:37-42 | an explicit format wins, even when empty; otherwise the format inferred from a non-empty output path; otherwise "wav" |
| Cli.TtsSetup | gradium/cli.py:44-48 | the setup has the resolved output format, and `voice_id` exactly when a non-empty voice is given |
| Cli.SttSetup | gradium/cli.py:72-79 | the setup's only key is `input_format`, inferred from the audio file name or "wav" |
| Cli.RunTts | gradium/cli.py:30-58 | a missing key fails before anything is sent; otherwise the command sends the setup, the whole `text` argument in one `text` frame, and `end_of_stream`; the audio written is the synthesis's raw data, to the output file exactly when one is given |
| Cli.SegmentJson | gradium/cli.py:88-92 | a segment object has exactly text, start_s and stop_s, as the segment carried them |
| Cli.JsonOutput | gradium/cli.py:83-95 | the document has exactly text, request_id and segments, one segment object per segment, in order |
| Cli.RunStt | gradium/cli.py:61-100 | a missing key fails before anything is sent; otherwise the command sends the setup, the file's bytes as one `audio` frame per 4096-byte slice in order, and `end_of_stream`; `--json` prints `JsonOutput` of the transcription, otherwise its bare text |
| Cli.DefaultBaseUrlAgrees | gradium/cli.py:133-134 | the command line's default base URL, normalised by the client, is the client's own default |
| Cli.JsonSegmentsAreTextFrames | gradium/cli.py:83-95 | the segments of `stt --json` are the `text` frames after `ready`, one object each, in order |
| Cli.UploadFormatAgrees | gradium/cli.py:19-27 | for a file name ending in ".wav", ".pcm" or ".ogg" after a non-empty stem, `voices.create` uploads under the format the command line infers |
| Cli.HiddenFileDiverges | gradium/cli.py:19-27 | a hidden file named only by its extension, such as ".wav", has no suffix for `voices.create` though the command line reads a format from it |

## Left out

- The network:
  - aiohttp sessions, `ws_connect` and the URL `urljoin` builds are not modelled;
  - `_fetch`, `post`, `get`, `put` and `delete` are not modelled: the voice calls yield the request they would send;
  - the socket is a scripted message sequence plus a log of sent frames.
- Concurrency: the send task and the receive worker of `stream` run one after the other. `asyncio.gather`, task cancellation and cleanup on early exit are not modelled. The interleaving of sending and receiving is not modelled.
- Library calls:
  - `json.loads` is not modelled: TEXT messages carry the parsed frame;
  - `json.dumps`, base64 and `str` of a float are opaque functions passed in `Lib`.
- Floating point: numpy's float32-to-int16 conversion is the opaque `Lib.floatToInt16`, and `TTSResult.pcm`'s division is not modelled.
- Byte order: int16 `tobytes`/`frombuffer` are modelled little-endian, numpy's native order on the usual platforms.
- Aliasing:
  - `stream` adds `"type": "setup"` to the caller's dictionary in place when no copy was made, and `Tts.recv` mutates the received dict in place;
  - the model works on values, so the caller's dictionary is never seen to change.
- A blocking `ws.receive()` after the scripted messages run out is the reply `Blocked`, not a wait.
- Client.Classify: follows `receive` as written, but aiohttp's `async for` already stops at a CLOSE, so its close branch may not be reached in practice.
- Error messages: the text of the f-strings is not modelled. Errors carry their parameters instead (code, reason, frame, type).
- Audio.AsInt16Vector: float32 conversion is the opaque `Lib.floatToInt16`, so the wrap-around of `astype(np.int16)` on 1.0 is not stated.
- Client.NewClient: the base URL is always an argument; where Python applies its default, the caller passes `Client.DEFAULT_BASE_URL`.
- Voices.BaseName: path normalisation by `pathlib` (trailing slashes, `.` components) is not modelled; the name is the text after the last "/".
- Voices.Create: the file itself is not read or closed; the file field records only its name and content type. `start_s` is an `Option<real>` argument: the caller passes `Some(DEFAULT_START_S)` where Python would apply its default.
- Speech.SttInputs: the sample rate is an integer option, so a float rate such as 24000.0, which Python's `!=` also accepts, is not expressible.
- `usages.py` (`credits`, `usage_summary`), `__init__.py`, `voice_list` and the example scripts are not modelled.
- `argparse` and printing are not modelled: the parsed arguments and the environment's key are parameters, and the printed output is a value.
- The property getters `Tts.ready`/`Stt.ready` and `__aiter__` are not modelled separately: they return a field or the handle itself.
