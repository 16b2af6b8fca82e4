/** The capture path: the browser's resampling and quantisation (web/static/app.js) and the server's
    decoding (application/audio.py), over exact reals. */
module CaptureCodec {
  import opened Basics
  import opened Wrappers

  // ------------------------------------------------------------------ resampling

  function Sum(buffer: seq<real>, lo: nat, hi: nat): real
    requires lo <= hi <= |buffer|
    decreases hi - lo
  {
    if lo == hi then 0.0 else Sum(buffer, lo, hi - 1) + buffer[hi - 1]
  }

  lemma {:induction false} SumSplit(buffer: seq<real>, lo: nat, mid: nat, hi: nat)
    requires lo <= mid <= hi <= |buffer|
    ensures Sum(buffer, lo, hi) == Sum(buffer, lo, mid) + Sum(buffer, mid, hi)
    decreases hi
  {
    if mid < hi {
      SumSplit(buffer, lo, mid, hi - 1);
    }
  }

  /** `Math.round`: ties go up. */
  function RoundHalfUp(x: real): int {
    (x + 0.5).Floor
  }

  function Bins(n: nat, ratio: real): (count: int)
    requires ratio > 0.0
    ensures count >= 0
  {
    assert n as real / ratio >= 0.0;
    RoundHalfUp(n as real / ratio)
  }

  function Edge(i: nat, ratio: real): int {
    (i as real * ratio).Floor
  }

  /** Every bin starts inside the buffer, and the edges do not go back. */
  lemma BinInside(n: nat, ratio: real, i: nat)
    requires ratio > 0.0 && i < Bins(n, ratio)
    ensures 0 <= Edge(i, ratio) < n
    ensures Edge(i, ratio) <= Edge(i + 1, ratio)
    ensures ratio >= 1.0 ==> Edge(i, ratio) < Edge(i + 1, ratio)
  {
    var q := n as real / ratio;
    MeanTimesWidth(n as real, ratio);
    assert i as real + 1.0 <= q + 0.5;
    Scale(i as real, q - 0.5, ratio);
    Scale(0.0, i as real, ratio);
    NextEdge(i, ratio);
    assert (q - 0.5) * ratio == q * ratio - ratio / 2.0;
  }

  lemma NextEdge(i: nat, ratio: real)
    ensures (i + 1) as real * ratio == i as real * ratio + ratio
  {
  }

  lemma Scale(a: real, b: real, r: real)
    requires r > 0.0 && a <= b
    ensures a * r <= b * r
  {
  }

  function BinStart(n: nat, ratio: real, i: nat): (lo: nat)
    requires ratio > 0.0 && i < Bins(n, ratio)
    ensures lo < n
  {
    BinInside(n, ratio, i);
    Edge(i, ratio)
  }

  function BinEnd(n: nat, ratio: real, i: nat): (hi: nat)
    requires ratio > 0.0 && i < Bins(n, ratio)
    ensures BinStart(n, ratio, i) <= hi <= n
  {
    BinInside(n, ratio, i);
    Min(n, Edge(i + 1, ratio))
  }

  /** Bin `i` begins less than a sample before `i` times the ratio, and the number of bins is the length at the
      new rate, to the nearest whole. */
  lemma BinsPlaced(n: nat, ratio: real, i: nat)
    requires ratio > 0.0
    ensures -0.5 < Bins(n, ratio) as real - n as real / ratio <= 0.5
    ensures i < Bins(n, ratio) ==> i as real * ratio - 1.0 < BinStart(n, ratio, i) as real <= i as real * ratio
  {
  }

  /** The samples the bins leave out begin here. */
  function Covered(n: nat, ratio: real): (c: nat)
    requires ratio > 0.0
    ensures c <= n
  {
    var count := Bins(n, ratio);
    if count == 0 then 0 else BinEnd(n, ratio, count - 1)
  }

  /** The bins tile a prefix of the buffer: each begins where the one before it ended, the first
      at 0; fewer than ratio/2 + 1 trailing samples are left out; and when the rate goes down,
      no bin is empty. */
  lemma BinsTile(n: nat, ratio: real)
    requires ratio > 0.0
    ensures Bins(n, ratio) > 0 ==> BinStart(n, ratio, 0) == 0
    ensures forall i | 0 < i < Bins(n, ratio) :: BinStart(n, ratio, i) == BinEnd(n, ratio, i - 1)
    ensures (n - Covered(n, ratio)) as real < ratio / 2.0 + 1.0
    ensures ratio >= 1.0 ==> forall i | 0 <= i < Bins(n, ratio) :: BinStart(n, ratio, i) < BinEnd(n, ratio, i)
  {
    forall i | 0 < i < Bins(n, ratio)
      ensures BinStart(n, ratio, i) == BinEnd(n, ratio, i - 1)
    {
      BinInside(n, ratio, i);
    }
    forall i | 0 <= i < Bins(n, ratio) && ratio >= 1.0
      ensures BinStart(n, ratio, i) < BinEnd(n, ratio, i)
    {
      BinInside(n, ratio, i);
    }
    if Bins(n, ratio) > 0 {
      StartsAtZero(n, ratio);
    }
    TrailingBound(n, ratio);
  }

  lemma ProductGap(c: real, q: real, r: real, n: real)
    requires r > 0.0 && c > q - 0.5 && q * r == n
    ensures c * r > n - r / 2.0
  {
    var d := c - (q - 0.5);
    assert d * r > 0.0;
    assert c * r == q * r - 0.5 * r + d * r by {
      assert c == q - 0.5 + d;
      assert (q - 0.5 + d) * r == q * r - 0.5 * r + d * r;
    }
  }

  lemma CountCovers(n: nat, ratio: real)
    requires ratio > 0.0
    ensures Bins(n, ratio) as real * ratio > n as real - ratio / 2.0
  {
    var q := n as real / ratio;
    var count := Bins(n, ratio) as real;
    MeanTimesWidth(n as real, ratio);
    assert count > q - 0.5;
    ProductGap(count, q, ratio, n as real);
  }

  lemma EdgeAbove(i: nat, ratio: real, bound: real)
    requires i as real * ratio > bound
    ensures Edge(i, ratio) as real > bound - 1.0
  {
  }

  lemma TrailingBound(n: nat, ratio: real)
    requires ratio > 0.0
    ensures (n - Covered(n, ratio)) as real < ratio / 2.0 + 1.0
  {
    CountCovers(n, ratio);
    var count := Bins(n, ratio);
    EdgeAbove(count, ratio, n as real - ratio / 2.0);
    if count == 0 {
      NoBins(ratio);
    } else {
      assert count - 1 + 1 == count;
      assert Covered(n, ratio) == Min(n, Edge(count, ratio));
    }
  }

  lemma NoBins(ratio: real)
    ensures 0 as real * ratio == 0.0
  {
  }

  function BinMean(buffer: seq<real>, ratio: real, i: nat): real
    requires ratio > 0.0 && i < Bins(|buffer|, ratio)
  {
    var lo, hi := BinStart(|buffer|, ratio, i), BinEnd(|buffer|, ratio, i);
    Sum(buffer, lo, hi) / (if hi - lo >= 1 then hi - lo else 1) as real
  }

  function Downsampled(buffer: seq<real>, sourceRate: real, targetRate: real): seq<real>
    requires sourceRate > 0.0 && targetRate > 0.0
  {
    if sourceRate == targetRate then buffer
    else
      var ratio := sourceRate / targetRate;
      seq(Bins(|buffer|, ratio), i requires 0 <= i < Bins(|buffer|, ratio) => BinMean(buffer, ratio, i))
  }

  /** An output, counted as many times as its bin is wide. */
  ghost function BinMass(buffer: seq<real>, ratio: real, i: nat): real
    requires ratio > 0.0 && i < Bins(|buffer|, ratio)
  {
    BinMean(buffer, ratio, i) * (BinEnd(|buffer|, ratio, i) - BinStart(|buffer|, ratio, i)) as real
  }

  lemma MassIsSum(buffer: seq<real>, ratio: real, i: nat)
    requires ratio > 0.0 && i < Bins(|buffer|, ratio)
    ensures BinMass(buffer, ratio, i) == Sum(buffer, BinStart(|buffer|, ratio, i), BinEnd(|buffer|, ratio, i))
  {
    var lo, hi := BinStart(|buffer|, ratio, i), BinEnd(|buffer|, ratio, i);
    if lo < hi {
      MeanTimesWidth(Sum(buffer, lo, hi), (hi - lo) as real);
    }
  }

  lemma MeanTimesWidth(sum: real, width: real)
    requires width > 0.0
    ensures sum / width * width == sum
  {
  }

  ghost function Weighted(buffer: seq<real>, ratio: real, count: nat): real
    requires ratio > 0.0 && count <= Bins(|buffer|, ratio)
  {
    if count == 0 then 0.0 else Weighted(buffer, ratio, count - 1) + BinMass(buffer, ratio, count - 1)
  }

  /** No sample is lost or counted twice: the outputs, weighted by bin width, add up to the covered
      prefix of the input. */
  lemma {:induction false} SignalConserved(buffer: seq<real>, ratio: real, count: nat)
    requires ratio > 0.0 && 0 < count <= Bins(|buffer|, ratio)
    ensures Weighted(buffer, ratio, count) == Sum(buffer, 0, BinEnd(|buffer|, ratio, count - 1))
  {
    var i := count - 1;
    MassIsSum(buffer, ratio, i);
    SumSplit(buffer, 0, BinStart(|buffer|, ratio, i), BinEnd(|buffer|, ratio, i));
    if i > 0 {
      Adjacent(|buffer|, ratio, i);
      SignalConserved(buffer, ratio, i);
    } else {
      StartsAtZero(|buffer|, ratio);
    }
  }

  lemma StartsAtZero(n: nat, ratio: real)
    requires ratio > 0.0 && 0 < Bins(n, ratio)
    ensures BinStart(n, ratio, 0) == 0
  {
    assert 0 as real * ratio == 0.0;
  }

  lemma Adjacent(n: nat, ratio: real, i: nat)
    requires ratio > 0.0 && 0 < i < Bins(n, ratio)
    ensures BinStart(n, ratio, i) == BinEnd(n, ratio, i - 1)
  {
    BinInside(n, ratio, i);
  }

  method Downsample(buffer: array<real>, sourceRate: real, targetRate: real) returns (result: array<real>)
    requires sourceRate > 0.0 && targetRate > 0.0
    ensures result[..] == Downsampled(buffer[..], sourceRate, targetRate)
    ensures if sourceRate == targetRate then result == buffer else fresh(result)
  {
    if sourceRate == targetRate {
      return buffer;
    }
    var ratio := sourceRate / targetRate;
    ghost var input := buffer[..];
    var length := Bins(buffer.Length, ratio);
    result := new real[length];
    for index := 0 to length
      invariant result.Length == length && fresh(result)
      invariant buffer[..] == input
      invariant forall k | 0 <= k < index :: result[k] == BinMean(input, ratio, k)
    {
      var start := Edge(index, ratio);
      var end := Min(buffer.Length, Edge(index + 1, ratio));
      assert start == BinStart(buffer.Length, ratio, index) && end == BinEnd(buffer.Length, ratio, index);
      var sum := 0.0;
      for cursor := start to end
        invariant sum == Sum(input, start, cursor)
      {
        sum := sum + buffer[cursor];
      }
      result[index] := sum / (if 1 >= end - start then 1 else end - start) as real;
    }
  }

  // ------------------------------------------------------------------ quantisation

  function Clamp(x: real): real {
    Clip(x, -1.0, 1.0)
  }

  function Truncate(x: real): int {
    if x >= 0.0 then x.Floor else -(-x).Floor
  }

  /** Storing into an Int16Array: truncate, then wrap modulo 2^16. */
  function ToInt16(x: real): (v: int)
    ensures -0x8000 <= v < 0x8000
    ensures -0x8000 <= Truncate(x) < 0x8000 ==> v == Truncate(x)
  {
    var m := Truncate(x) % 0x1_0000;
    if m >= 0x8000 then m - 0x1_0000 else m
  }

  function Quantise(x: real): int {
    var s := Clamp(x);
    ToInt16(if s < 0.0 then s * 0x8000 as real else s * 0x7fff as real)
  }

  function Decoded(v: int): real {
    v as real / 32768.0
  }

  /** One sample there and back: the sign is kept, the magnitude never grows, and it shrinks by
      less than one step below zero and less than two above. The wrap never happens. */
  lemma QuantiseError(x: real)
    ensures Clamp(x) >= 0.0 ==> 0.0 <= Decoded(Quantise(x)) <= Clamp(x) < Decoded(Quantise(x)) + 2.0 / 32768.0
    ensures Clamp(x) <= 0.0 ==> Decoded(Quantise(x)) - 1.0 / 32768.0 < Clamp(x) <= Decoded(Quantise(x)) <= 0.0
  {
    var s := Clamp(x);
    if s < 0.0 {
      var t := (-(s * 32768.0)).Floor;
      assert t as real <= -(s * 32768.0) < t as real + 1.0;
      assert Quantise(x) == -t;
    } else {
      var t := (s * 32767.0).Floor;
      assert t as real <= s * 32767.0 < t as real + 1.0;
      assert Quantise(x) == t;
    }
  }

  /** Louder never comes back quieter. */
  lemma QuantiseMonotone(x: real, y: real)
    requires x <= y
    ensures Quantise(x) <= Quantise(y)
  {
    QuantiseError(x);
    QuantiseError(y);
    var s, t := Clamp(x), Clamp(y);
    if s < 0.0 && t < 0.0 {
      assert (-(s * 32768.0)).Floor >= (-(t * 32768.0)).Floor;
    } else if s >= 0.0 {
      assert (s * 32767.0).Floor <= (t * 32767.0).Floor;
    }
  }

  method FloatTo16BitPcm(input: array<real>) returns (output: array<int>)
    ensures fresh(output) && output.Length == input.Length
    ensures forall i | 0 <= i < input.Length :: output[i] == Quantise(input[i])
  {
    hide Clamp, ToInt16;
    output := new int[input.Length];
    for index := 0 to input.Length
      invariant fresh(output) && output.Length == input.Length
      invariant forall i | 0 <= i < index :: output[i] == Quantise(input[i])
    {
      var sample := Clamp(input[index]);
      output[index] := ToInt16(if sample < 0.0 then sample * 0x8000 as real else sample * 0x7fff as real);
    }
  }

  // ------------------------------------------------------------------ bytes

  type Byte = x: int | 0 <= x < 256

  /** The two little-endian bytes of a 16-bit sample. */
  function Bytes(v: int): seq<Byte>
    requires -0x8000 <= v < 0x8000
  {
    var u := if v < 0 then v + 0x1_0000 else v;
    [u % 256, u / 256]
  }

  function FromBytes(lo: Byte, hi: Byte): int {
    var u := lo + 256 * hi;
    if u >= 0x8000 then u - 0x1_0000 else u
  }

  /** One frame as the browser sends it. */
  function EncodeFrame(samples: seq<real>): seq<Byte> {
    if |samples| == 0 then [] else Bytes(Quantise(samples[0])) + EncodeFrame(samples[1..])
  }

  /** `np.frombuffer(raw, "<i2") / 32768`, which raises ValueError for an odd number of bytes. */
  function DecodeFrame(raw: seq<Byte>): Option<seq<real>> {
    if |raw| == 0 then Some([])
    else if |raw| == 1 then None
    else
      var rest := DecodeFrame(raw[2..]);
      if rest.None? then None else Some([Decoded(FromBytes(raw[0], raw[1]))] + rest.value)
  }

  lemma {:induction false} DecodesExactlyEven(raw: seq<Byte>)
    ensures DecodeFrame(raw).Some? <==> |raw| % 2 == 0
    ensures DecodeFrame(raw).Some? ==> 2 * |DecodeFrame(raw).value| == |raw|
  {
    if |raw| >= 2 {
      DecodesExactlyEven(raw[2..]);
    }
  }

  function DecodedAll(frames: seq<seq<Byte>>): Option<seq<real>> {
    if |frames| == 0 then Some([])
    else
      var front, last := DecodedAll(frames[..|frames| - 1]), DecodeFrame(frames[|frames| - 1]);
      if front.None? || last.None? then None else Some(front.value + last.value)
  }

  lemma {:induction false} PrefixDecodes(frames: seq<seq<Byte>>, k: nat)
    requires k <= |frames| && DecodedAll(frames).Some?
    ensures DecodedAll(frames[..k]).Some?
    decreases |frames|
  {
    if k == |frames| {
      assert frames[..k] == frames;
    } else {
      assert frames[..|frames| - 1][..k] == frames[..k];
      PrefixDecodes(frames[..|frames| - 1], k);
    }
  }

  method DecodePcm16(frames: seq<seq<Byte>>) returns (pcm: Option<seq<real>>)
    ensures pcm == DecodedAll(frames)
  {
    var chunks: seq<real> := [];
    for index := 0 to |frames|
      invariant DecodedAll(frames[..index]) == Some(chunks)
    {
      assert frames[..index + 1][..index] == frames[..index];
      var chunk := DecodeFrame(frames[index]);
      if chunk.None? {
        if DecodedAll(frames).Some? {
          PrefixDecodes(frames, index + 1);
        }
        return None;
      }
      chunks := chunks + chunk.value;
    }
    assert frames[..|frames|] == frames;
    pcm := Some(chunks);
  }

  /** A frame decodes to exactly its quantised samples, in order. */
  lemma {:induction false} FrameRoundTrip(samples: seq<real>)
    ensures |EncodeFrame(samples)| == 2 * |samples|
    ensures DecodeFrame(EncodeFrame(samples)).Some?
    ensures var back := DecodeFrame(EncodeFrame(samples)).value;
            |back| == |samples| && forall i | 0 <= i < |samples| :: back[i] == Decoded(Quantise(samples[i]))
  {
    if |samples| > 0 {
      FrameRoundTrip(samples[1..]);
      var head := Bytes(Quantise(samples[0]));
      assert EncodeFrame(samples)[2..] == EncodeFrame(samples[1..]);
      assert FromBytes(head[0], head[1]) == Quantise(samples[0]);
    }
  }

  ghost predicate Near(x: real, y: real) {
    -2.0 / 32768.0 < x - y < 2.0 / 32768.0
  }

  function Joined(chunks: seq<seq<real>>): seq<real> {
    if |chunks| == 0 then [] else Joined(chunks[..|chunks| - 1]) + chunks[|chunks| - 1]
  }

  function EncodedAll(chunks: seq<seq<real>>): seq<seq<Byte>> {
    seq(|chunks|, i requires 0 <= i < |chunks| => EncodeFrame(chunks[i]))
  }

  /** However a signal is cut into frames, decoding the frames gives the clamped signal back in
      order, each sample within 2/32768. */
  lemma {:induction false} CodecErrorBound(chunks: seq<seq<real>>)
    ensures var back := DecodedAll(EncodedAll(chunks));
            && back.Some? && |back.value| == |Joined(chunks)|
            && forall i | 0 <= i < |back.value| :: Near(back.value[i], Clamp(Joined(chunks)[i]))
  {
    if |chunks| > 0 {
      var k := |chunks| - 1;
      CodecErrorBound(chunks[..k]);
      assert EncodedAll(chunks)[..k] == EncodedAll(chunks[..k]);
      FrameRoundTrip(chunks[k]);
      forall i | 0 <= i < |chunks[k]|
        ensures Near(Decoded(Quantise(chunks[k][i])), Clamp(chunks[k][i]))
      {
        QuantiseError(chunks[k][i]);
      }
    }
  }

  /** The whole capture path: every resampled bin's mean comes back within 2/32768 of its clamped
      value, at its own position. */
  lemma CaptureErrorBound(buffer: seq<real>, sourceRate: real, targetRate: real)
    requires sourceRate > 0.0 && targetRate > 0.0 && sourceRate != targetRate
    ensures var ratio := sourceRate / targetRate;
            var back := DecodedAll(EncodedAll([Downsampled(buffer, sourceRate, targetRate)]));
            && back.Some? && |back.value| == Bins(|buffer|, ratio)
            && forall i | 0 <= i < |back.value| :: Near(back.value[i], Clamp(BinMean(buffer, ratio, i)))
  {
    var signal := Downsampled(buffer, sourceRate, targetRate);
    assert [signal][..0] == [];
    assert Joined([]) == [];
    assert Joined([signal]) == signal;
    CodecErrorBound([signal]);
  }
}
