/**
 * The numpy operations the SDK applies to audio: normalising a sample array to a
 * one-dimensional int16 vector, `ndarray.tobytes()` of such a vector, and
 * `np.frombuffer(raw, dtype=np.int16)`. Byte order is little-endian.
 */
module Audio {
  import opened Values

  const DTYPE_MESSAGE := "audio np.ndarray must be int16 or float32"
  const NDIM_MESSAGE := "audio np.ndarray must be 1-dimensional"
  const BUFFER_MESSAGE := "buffer size must be a multiple of element size"

  predicate InInt16(s: int)
  {
    -32768 <= s <= 32767
  }

  /** The two bytes of one sample, two's complement, low byte first. */
  function SampleBytes(s: int): (b: Bytes)
    ensures |b| == 2
  {
    var u := s % 65536;
    [u % 256, u / 256]
  }

  /** The sample two bytes stand for. */
  function SampleOf(lo: Byte, hi: Byte): (s: int)
    ensures InInt16(s)
  {
    var u := lo + 256 * hi;
    if u >= 32768 then u - 65536 else u
  }

  /** `ndarray.tobytes()` of a one-dimensional int16 array. */
  function ToBytes(samples: seq<int>): (b: Bytes)
    ensures |b| == 2 * |samples|
  {
    if samples == [] then [] else SampleBytes(samples[0]) + ToBytes(samples[1..])
  }

  /** `np.frombuffer(raw, dtype=np.int16)`: one sample per two bytes, ValueError on an odd length. */
  function FromBuffer(raw: Bytes): (r: Result<seq<int>>)
    ensures r.Ok? <==> |raw| % 2 == 0
    ensures r.Err? ==> r.error == ValueError(BUFFER_MESSAGE)
    ensures r.Ok? ==> |r.value| == |raw| / 2
    ensures r.Ok? ==> forall i :: 0 <= i < |r.value| ==> InInt16(r.value[i])
  {
    if |raw| % 2 != 0 then Err(ValueError(BUFFER_MESSAGE))
    else if raw == [] then Ok([])
    else
      var rest := FromBuffer(raw[2..]);
      Ok([SampleOf(raw[0], raw[1])] + rest.value)
  }

  lemma SampleRoundTrip(s: int)
    requires InInt16(s)
    ensures SampleOf(SampleBytes(s)[0], SampleBytes(s)[1]) == s
  {
  }

  lemma BytesRoundTrip(lo: Byte, hi: Byte)
    ensures SampleBytes(SampleOf(lo, hi)) == [lo, hi]
  {
    var u := lo + 256 * hi;
    assert 0 <= u < 65536;
    assert SampleOf(lo, hi) % 65536 == u;
    assert u % 256 == lo && u / 256 == hi;
  }

  /** Reading back what `tobytes` wrote gives the samples. */
  lemma {:induction false} FromBufferToBytes(samples: seq<int>)
    requires forall i :: 0 <= i < |samples| ==> InInt16(samples[i])
    ensures FromBuffer(ToBytes(samples)) == Ok(samples)
  {
    if samples != [] {
      var b := ToBytes(samples);
      SampleRoundTrip(samples[0]);
      assert b[2..] == ToBytes(samples[1..]);
      assert b[0] == SampleBytes(samples[0])[0] && b[1] == SampleBytes(samples[0])[1];
      FromBufferToBytes(samples[1..]);
      assert samples == [samples[0]] + samples[1..];
    }
  }

  /** Writing back what `frombuffer` read gives the bytes. */
  lemma {:induction false} ToBytesFromBuffer(raw: Bytes)
    requires |raw| % 2 == 0
    ensures ToBytes(FromBuffer(raw).value) == raw
  {
    if raw != [] {
      BytesRoundTrip(raw[0], raw[1]);
      ToBytesFromBuffer(raw[2..]);
      assert raw == [raw[0], raw[1]] + raw[2..];
    }
  }

  /** `tobytes` of a concatenation is the concatenation of the `tobytes`. */
  lemma {:induction false} ToBytesAppend(a: seq<int>, b: seq<int>)
    ensures ToBytes(a + b) == ToBytes(a) + ToBytes(b)
  {
    if a == [] {
      assert a + b == b;
    } else {
      assert (a + b)[0] == a[0];
      assert (a + b)[1..] == a[1..] + b;
      ToBytesAppend(a[1..], b);
    }
  }

  /** The bytes of each slice, joined, are the bytes of the joined slices. */
  lemma {:induction false} ToBytesFlatten(slices: seq<seq<int>>)
    ensures Flatten(seq(|slices|, i requires 0 <= i < |slices| => ToBytes(slices[i]))) == ToBytes(Flatten(slices))
  {
    var each := seq(|slices|, i requires 0 <= i < |slices| => ToBytes(slices[i]));
    if slices != [] {
      var tail := seq(|slices| - 1, i requires 0 <= i < |slices| - 1 => ToBytes(slices[1..][i]));
      assert each[1..] == tail;
      ToBytesFlatten(slices[1..]);
      ToBytesAppend(slices[0], Flatten(slices[1..]));
    }
  }

  /**
   * The dtype and ndim checks of `stt`, `stt_stream`'s input mapping and
   * `Stt.send_audio`: int16 passes unchanged, float32 is converted element by
   * element, any other dtype is refused, and only then is a non-vector refused.
   */
  function AsInt16Vector(a: NdArray, lib: Lib): (r: Result<NdArray>)
    ensures r.Ok? <==> (a.dtype == Int16 || a.dtype == Float32) && a.ndim == 1
    ensures r.Err? && a.dtype != Int16 && a.dtype != Float32 ==> r.error == ValueError(DTYPE_MESSAGE)
    ensures r.Err? && (a.dtype == Int16 || a.dtype == Float32) ==> r.error == ValueError(NDIM_MESSAGE)
    ensures r.Ok? ==> r.value.dtype == Int16 && r.value.ndim == 1 && |r.value.items| == |a.items|
    ensures r.Ok? && a.dtype == Int16 ==> r.value == a
    ensures r.Ok? && a.dtype == Float32 ==>
      forall i :: 0 <= i < |a.items| ==> r.value.items[i] == lib.floatToInt16(a.items[i])
  {
    var converted :=
      if a.dtype == Float32 then
        NdArray(Int16, a.ndim, seq(|a.items|, i requires 0 <= i < |a.items| => lib.floatToInt16(a.items[i])))
      else a;
    if a.dtype != Int16 && a.dtype != Float32 then Err(ValueError(DTYPE_MESSAGE))
    else if converted.ndim != 1 then Err(ValueError(NDIM_MESSAGE))
    else Ok(converted)
  }
}
