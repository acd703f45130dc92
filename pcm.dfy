/** Raw audio as the capture device delivers it: chunks of 16-bit signed,
    little-endian, mono PCM bytes; their conversion to normalised samples and
    the "too quiet" volume test applied before transcription. */
module Pcm {

  /** Samples requested per device read (`CHUNK`). */
  const ChunkSamples: nat := 1024
  /** Sample rate in Hz (`RATE`). */
  const SampleRate: nat := 16000
  /** Seconds of audio thrown away after the second cue. */
  const WarmupSeconds: real := 1.0
  /** Divisor that maps an int16 sample into [-1, 1). */
  const Scale: nat := 32768

  newtype byte = x: int | 0 <= x < 256
  type Chunk = seq<byte>

  datatype Option<T> = None | Some(value: T)

  predicate IsInt16(x: int) { -32768 <= x < 32768 }

  /** Number of warm-up reads: `int(RATE / CHUNK * 1.0)`; Python's `int`
      truncates toward zero, which is the floor for this positive value. */
  function WarmupChunks(): (n: int)
    ensures n == 15
  {
    var r := (SampleRate as real / ChunkSamples as real) * WarmupSeconds;
    assert r == 15.625;
    r.Floor
  }

  /** Sum of the chunk lengths. */
  function TotalBytes(frames: seq<Chunk>): nat
  {
    if frames == [] then 0 else TotalBytes(frames[..|frames| - 1]) + |frames[|frames| - 1]|
  }

  /** `b''.join(frames)`. */
  function Concat(frames: seq<Chunk>): (r: Chunk)
    ensures |r| == TotalBytes(frames)
  {
    if frames == [] then [] else Concat(frames[..|frames| - 1]) + frames[|frames| - 1]
  }

  /** One little-endian int16 sample from its two bytes. */
  function Int16LE(lo: byte, hi: byte): (x: int)
    ensures IsInt16(x)
    ensures (x + 65536) % 65536 == lo as int + 256 * hi as int
  {
    var u := lo as int + 256 * hi as int;
    if u >= 32768 then u - 65536 else u
  }

  /** Samples of an even-length byte string, in byte order. */
  function Samples(bs: seq<byte>): (xs: seq<int>)
    requires |bs| % 2 == 0
    ensures |xs| == |bs| / 2
    ensures forall i :: 0 <= i < |xs| ==> xs[i] == Int16LE(bs[2 * i], bs[2 * i + 1])
    decreases |bs|
  {
    if bs == [] then [] else [Int16LE(bs[0], bs[1])] + Samples(bs[2..])
  }

  /** `np.frombuffer(data, dtype=np.int16)`: refuses a byte string of odd
      length (numpy raises), otherwise yields one sample per byte pair. */
  function DecodePcm(bs: seq<byte>): (r: Option<seq<int>>)
    ensures r.Some? <==> |bs| % 2 == 0
    ensures r.Some? ==> |r.value| == |bs| / 2
  {
    if |bs| % 2 != 0 then None else Some(Samples(bs))
  }

  /** The two little-endian bytes of an int16 sample. */
  function SampleBytes(x: int): (bs: seq<byte>)
    requires IsInt16(x)
    ensures |bs| == 2
  {
    var u := if x < 0 then x + 65536 else x;
    [(u % 256) as byte, (u / 256) as byte]
  }

  /** Inverse of DecodePcm on samples in the int16 range. */
  function EncodePcm(xs: seq<int>): (bs: seq<byte>)
    requires forall i :: 0 <= i < |xs| ==> IsInt16(xs[i])
    ensures |bs| == 2 * |xs|
  {
    if xs == [] then [] else SampleBytes(xs[0]) + EncodePcm(xs[1..])
  }

  lemma SampleRoundTrip(x: int)
    requires IsInt16(x)
    ensures Int16LE(SampleBytes(x)[0], SampleBytes(x)[1]) == x
  {
  }

  lemma BytesRoundTrip(lo: byte, hi: byte)
    ensures SampleBytes(Int16LE(lo, hi)) == [lo, hi]
  {
  }

  /** Decoding an encoded sample in front of further bytes yields that
      sample in front of their samples. */
  lemma SamplesCons(x: int, rest: seq<byte>)
    requires IsInt16(x)
    requires |rest| % 2 == 0
    ensures Samples(SampleBytes(x) + rest) == [x] + Samples(rest)
  {
    var bs := SampleBytes(x) + rest;
    assert bs[2..] == rest;
    assert bs[0] == SampleBytes(x)[0] && bs[1] == SampleBytes(x)[1];
    SampleRoundTrip(x);
  }

  /** Encoding then decoding gives the samples back. */
  lemma {:induction false} DecodeEncode(xs: seq<int>)
    requires forall i :: 0 <= i < |xs| ==> IsInt16(xs[i])
    ensures DecodePcm(EncodePcm(xs)) == Some(xs)
  {
    if xs != [] {
      DecodeEncode(xs[1..]);
      SamplesCons(xs[0], EncodePcm(xs[1..]));
      assert xs == [xs[0]] + xs[1..];
    }
  }

  /** Decoding then encoding gives the bytes back. */
  lemma {:induction false} EncodeDecode(bs: seq<byte>)
    requires |bs| % 2 == 0
    ensures forall i :: 0 <= i < |Samples(bs)| ==> IsInt16(Samples(bs)[i])
    ensures EncodePcm(Samples(bs)) == bs
    decreases |bs|
  {
    if bs != [] {
      EncodeDecode(bs[2..]);
      BytesRoundTrip(bs[0], bs[1]);
      var xs := Samples(bs);
      assert xs[1..] == Samples(bs[2..]);
      assert bs == [bs[0], bs[1]] + bs[2..];
    }
  }

  /** `astype(np.float32) / 32768.0`, taken over the reals: one value per
      sample, in the same order. */
  function Normalise(xs: seq<int>): (ys: seq<real>)
    ensures |ys| == |xs|
    ensures forall i :: 0 <= i < |xs| ==> ys[i] == xs[i] as real / Scale as real
  {
    if xs == [] then [] else [xs[0] as real / Scale as real] + Normalise(xs[1..])
  }

  /** Every normalised int16 sample lies in [-1, 1). */
  lemma NormaliseRange(xs: seq<int>)
    requires forall i :: 0 <= i < |xs| ==> IsInt16(xs[i])
    ensures forall i :: 0 <= i < |xs| ==> -1.0 <= Normalise(xs)[i] < 1.0
  {
  }

  /** The samples handed to the engine for a buffer of chunks: there are half
      as many as there are bytes, and each lies in [-1, 1). */
  lemma {:induction false} NormalisedBuffer(frames: seq<Chunk>)
    requires TotalBytes(frames) % 2 == 0
    ensures DecodePcm(Concat(frames)).Some?
    ensures |Normalise(DecodePcm(Concat(frames)).value)| == TotalBytes(frames) / 2
    ensures forall i :: 0 <= i < TotalBytes(frames) / 2 ==>
              -1.0 <= Normalise(DecodePcm(Concat(frames)).value)[i] < 1.0
  {
    var xs := DecodePcm(Concat(frames)).value;
    NormaliseRange(xs);
  }

  function Abs(x: int): nat { if x < 0 then -x else x }

  function AbsReal(x: real): real { if x < 0.0 then -x else x }

  /** Sum of absolute sample values. */
  function SumAbs(xs: seq<int>): nat
  {
    if xs == [] then 0 else Abs(xs[0]) + SumAbs(xs[1..])
  }

  function SumAbsReal(ys: seq<real>): real
  {
    if ys == [] then 0.0 else AbsReal(ys[0]) + SumAbsReal(ys[1..])
  }

  /** `np.abs(audio_np).mean()` over the reals. */
  function MeanAbs(ys: seq<real>): real
    requires |ys| > 0
  {
    SumAbsReal(ys) / |ys| as real
  }

  /** `volume < 0.001` in exact integer arithmetic: the mean absolute
      normalised amplitude is below one thousandth. An empty sample array
      has a NaN mean in numpy, and NaN compares false, so it is not quiet. */
  predicate TooQuiet(xs: seq<int>)
  {
    |xs| > 0 && 1000 * SumAbs(xs) < Scale * |xs|
  }

  lemma {:induction false} SumAbsNormalised(xs: seq<int>)
    ensures SumAbsReal(Normalise(xs)) == SumAbs(xs) as real / Scale as real
  {
    if xs != [] {
      SumAbsNormalised(xs[1..]);
      assert Normalise(xs)[1..] == Normalise(xs[1..]);
      assert AbsReal(xs[0] as real / Scale as real) == Abs(xs[0]) as real / Scale as real;
    }
  }

  lemma DivBelow(a: real, b: real, c: real)
    requires b > 0.0
    ensures a / b < c <==> a < c * b
  {
    assert (a / b) * b == a;
  }

  lemma MeanBelow(s: real, n: real)
    requires n > 0.0
    ensures (s / 32768.0) / n < 0.001 <==> s < 32.768 * n
  {
    DivBelow(s / 32768.0, n, 0.001);
    DivBelow(s, 32768.0, 0.001 * n);
    assert 0.001 * n * 32768.0 == 32.768 * n;
  }

  lemma IntRealBelow(s: nat, n: nat)
    ensures 1000 * s < Scale * n <==> s as real < 32.768 * n as real
  {
    assert (1000 * s) as real == 1000.0 * s as real;
    assert (Scale * n) as real == 32768.0 * n as real;
  }

  /** The integer test agrees with the real-valued mean of the normalised
      samples being below 0.001. */
  lemma TooQuietIsMeanBelowThreshold(xs: seq<int>)
    ensures TooQuiet(xs) <==> |xs| > 0 && MeanAbs(Normalise(xs)) < 0.001
  {
    if |xs| > 0 {
      SumAbsNormalised(xs);
      var s := SumAbs(xs) as real;
      var n := |xs| as real;
      assert MeanAbs(Normalise(xs)) == (s / 32768.0) / n;
      MeanBelow(s, n);
      IntRealBelow(SumAbs(xs), |xs|);
    }
  }
}
