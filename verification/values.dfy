/**
 * The values that cross the SDK's boundaries.
 *
 * Frames on the streaming connection are Python dictionaries decoded from JSON, so a
 * frame is a `Dict` from keys to `Value`s and `Get` is `dict.get`. Python `None` is
 * `Null`. Transport messages are the kinds aiohttp reports (`WsMessage`); a TEXT
 * message carries the dictionary its JSON text decodes to. The exceptions the SDK
 * raises are the constructors of `Error`. Library routines whose code is not part of
 * this model (json.dumps, base64, numpy's float conversion, `str` of a float) are the
 * fields of a `Lib` record that operations take as a parameter.
 */
module Values {

  datatype Option<+T> = None | Some(value: T)

  type Byte = x: int | 0 <= x < 256
  type Bytes = seq<Byte>

  /** numpy element types the SDK distinguishes. */
  datatype DType = Int16 | Float32 | OtherDType(name: string)

  /**
   * A numpy array: element type, number of dimensions, and the items along the first
   * axis. For a one-dimensional int16 array the items are its samples; the items of
   * other arrays are only sliced and handed to library conversions.
   */
  datatype NdArray = NdArray(dtype: DType, ndim: nat, items: seq<int>)

  /** A Python value as it appears in a frame, a setup dictionary or an input stream. */
  datatype Value =
    | Null
    | Bool(b: bool)
    | Int(i: int)
    | Float(r: real)
    | Str(s: string)
    | Blob(data: Bytes)
    | Array(arr: NdArray)
    | List(elems: seq<Value>)
    | Object(fields: map<string, Value>)

  type Dict = map<string, Value>

  /** `d.get(key, default)` */
  function Get(d: Dict, key: string, default: Value): Value
  {
    if key in d then d[key] else default
  }

  /** `d.get("type")` */
  function TypeOf(d: Dict): Value
  {
    Get(d, "type", Null)
  }

  predicate HasType(d: Dict, t: string)
  {
    TypeOf(d) == Str(t)
  }

  /** The dictionary `{"type": t}`. */
  function Tagged(t: string): (d: Dict)
    ensures HasType(d, t) && d.Keys == {"type"}
  {
    map["type" := Str(t)]
  }

  /** aiohttp.WSMsgType */
  datatype WsMsgType = TEXT | BINARY | PING | PONG | CLOSE | CLOSING | CLOSED | ERROR

  datatype ControlKind = BinaryKind | PingKind | PongKind | ClosingKind

  /**
   * One message the transport delivers. A CLOSE or CLOSED message carries the close
   * code (`msg.data`) and the close reason (`msg.extra`), either of which may be None.
   */
  datatype WsMessage =
    | TextMsg(frame: Dict)
    | CloseMsg(code: Option<int>, reason: Option<string>)
    | ClosedMsg(code: Option<int>, reason: Option<string>)
    | ErrorMsg
    | ControlMsg(kind: ControlKind)

  function KindOf(m: WsMessage): (k: WsMsgType)
    ensures k == TEXT <==> m.TextMsg?
    ensures k == CLOSE <==> m.CloseMsg?
  {
    match m
    case TextMsg(_) => TEXT
    case CloseMsg(_, _) => CLOSE
    case ClosedMsg(_, _) => CLOSED
    case ErrorMsg => ERROR
    case ControlMsg(k) =>
      match k
      case BinaryKind => BINARY
      case PingKind => PING
      case PongKind => PONG
      case ClosingKind => CLOSING
  }

  /** The exceptions raised by the modelled code, with the data their messages carry. */
  datatype Error =
    | WsConnectionError(serverMessage: Value, serverCode: Value) // an `error` frame on the streaming path
    | WebSocketError                                // a transport ERROR message
    | WebSocketClosed(closeCode: int, closeReason: string)     // an abnormal close
    | StopAsyncIteration                            // anext() on a stream that ended
    | ConnectionNotOpen                             // RuntimeError("Connection not open")
    | UnexpectedFirstType(firstType: Value)               // a facade's first frame is not `ready`
    | UnexpectedMessageType(kind: WsMsgType)        // wait_for_ready read a non-TEXT message
    | ExpectedReady(frame: Dict)                      // wait_for_ready read a non-`ready` frame
    | ServerError(frame: Dict)                      // recv read an `error` frame
    | ValueError(message: string)
    | TypeError(message: string)
    | KeyError(key: string)
    | AttributeError(name: string)
    | Base64Error                                   // binascii.Error from b64decode

  datatype Result<+T> = Ok(value: T) | Err(error: Error)

  /** Outcome of an operation that returns nothing or raises. */
  datatype Outcome = Pass | Fail(error: Error)

  /**
   * Library routines the SDK calls: `json.dumps`, `base64.b64encode(b).decode()`,
   * `base64.b64decode` (None when it raises), numpy's per-element
   * `(x * 32768).astype(np.int16)`, and `str` of a float.
   */
  datatype Lib = Lib(
    dumps: Value -> string,
    b64encode: Bytes -> string,
    b64decode: Value -> Option<Bytes>,
    floatToInt16: int -> int,
    floatRepr: real -> string)

  /** Decoding the text an encoding produced gives back the bytes. */
  ghost predicate Base64RoundTrip(lib: Lib)
  {
    forall b: Bytes :: lib.b64decode(Str(lib.b64encode(b))) == Some(b)
  }

  predicate StartsWith(s: string, prefix: string)
  {
    |prefix| <= |s| && s[..|prefix|] == prefix
  }

  const BYTES_PREFIX_MESSAGE := "startswith first arg must be bytes or a tuple of bytes, not str"

  /**
   * What `v.startswith("...")` raises on a value that is not a string: bytes have a
   * `startswith` that refuses a str prefix, every other value has none.
   */
  function StartsWithFailure(v: Value): Error
  {
    if v.Blob? then TypeError(BYTES_PREFIX_MESSAGE) else AttributeError("startswith")
  }

  predicate EndsWith(s: string, suffix: string)
  {
    |suffix| <= |s| && s[|s| - |suffix|..] == suffix
  }

  /** `b"".join(xs)` and the concatenation of slices. */
  function Flatten<T>(xs: seq<seq<T>>): seq<T>
  {
    if xs == [] then [] else xs[0] + Flatten(xs[1..])
  }

  lemma {:induction false} FlattenAppend<T>(xs: seq<seq<T>>, ys: seq<seq<T>>)
    ensures Flatten(xs + ys) == Flatten(xs) + Flatten(ys)
  {
    if xs == [] {
      assert xs + ys == ys;
    } else {
      assert (xs + ys)[1..] == xs[1..] + ys;
      FlattenAppend(xs[1..], ys);
    }
  }
}
