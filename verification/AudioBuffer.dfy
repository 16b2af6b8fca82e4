/** The bounded pre-roll buffer of PCM16 frames (application/audio.py). */
module AudioBuffer {
  import opened Basics
  import opened Wrappers

  /** A frame after base64 decoding: only its byte count matters to the buffer. */
  datatype AudioFrame = AudioFrame(sequence: int, timestampMs: int, sampleRate: int, channels: int, byteCount: nat)

  /** Python's `round`: to the nearest integer, ties to the even one. */
  function RoundHalfEven(x: real): (r: int)
    ensures -0.5 <= r as real - x <= 0.5
    ensures (r as real - x == 0.5 || x - r as real == 0.5) ==> r % 2 == 0
  {
    var low := x.Floor;
    var part := x - low as real;
    if part < 0.5 then low
    else if part > 0.5 then low + 1
    else if low % 2 == 0 then low
    else low + 1
  }

  /** `byte_count // 2 // max(channels, 1)`. */
  function Samples(f: AudioFrame): nat {
    f.byteCount / 2 / Max(f.channels, 1)
  }

  /** The time the frame really lasts. */
  function TrueMs(f: AudioFrame): real
    requires f.sampleRate != 0
  {
    Samples(f) as real / f.sampleRate as real * 1000.0
  }

  /** `frame_duration_ms`; a zero rate raises ZeroDivisionError in the source. */
  function FrameDurationMs(f: AudioFrame): (ms: nat)
    requires f.sampleRate != 0
    ensures ms >= 1
    ensures TrueMs(f) - 0.5 <= ms as real
  {
    Max(1, RoundHalfEven(TrueMs(f)))
  }

  /** The samples of a frame are the complete ones of each channel, two bytes to a sample, a frame without a
      channel count having one channel. */
  lemma SamplesExactly(f: AudioFrame, n: nat)
    ensures var channels := if f.channels > 1 then f.channels else 1;
            Samples(f) == n <==> 2 * channels * n <= f.byteCount < 2 * channels * (n + 1)
  {
    var channels := Max(f.channels, 1);
    Quotient(f.byteCount / 2, channels, n);
    Halved(f.byteCount, channels * n, channels * (n + 1));
    Doubled(channels, n);
    Doubled(channels, n + 1);
  }

  lemma Doubled(k: nat, n: nat)
    ensures 2 * k * n == 2 * (k * n)
  {
  }

  lemma Halved(bytes: nat, low: nat, high: nat)
    ensures low <= bytes / 2 < high <==> 2 * low <= bytes < 2 * high
  {
  }

  lemma Quotient(h: nat, k: nat, n: nat)
    requires k > 0
    ensures h / k == n <==> k * n <= h < k * (n + 1)
  {
    var q := h / k;
    Divided(h, k);
    if n < q {
      Wider(k, n + 1, q);
    } else if q < n {
      Wider(k, q + 1, n);
    }
  }

  lemma Divided(h: nat, k: nat)
    requires k > 0
    ensures k * (h / k) <= h < k * (h / k + 1)
  {
    assert h == h / k * k + h % k;
  }

  lemma Wider(k: nat, a: nat, b: nat)
    requires a <= b
    ensures k * a <= k * b
  {
  }

  /** As many samples as the rate last one second. */
  lemma SecondLasts(f: AudioFrame)
    requires f.sampleRate != 0
    ensures TrueMs(f) * f.sampleRate as real == 1000.0 * Samples(f) as real
    ensures Samples(f) == f.sampleRate ==> TrueMs(f) == 1000.0 && FrameDurationMs(f) == 1000
  {
    Rated(Samples(f) as real, f.sampleRate as real);
  }

  lemma Rated(n: real, rate: real)
    requires rate != 0.0
    ensures n / rate * 1000.0 * rate == 1000.0 * n
    ensures n == rate ==> n / rate * 1000.0 == 1000.0
  {
    assert n / rate * rate == n;
  }

  predicate Playable(fs: seq<AudioFrame>) {
    forall f | f in fs :: f.sampleRate != 0
  }

  function Total(fs: seq<AudioFrame>): nat
    requires Playable(fs)
  {
    if |fs| == 0 then 0 else FrameDurationMs(fs[0]) + Total(fs[1..])
  }

  lemma {:induction false} TotalSplit(a: seq<AudioFrame>, b: seq<AudioFrame>)
    requires Playable(a + b)
    ensures Playable(a) && Playable(b)
    ensures Total(a + b) == Total(a) + Total(b)
  {
    assert forall f | f in a :: f in a + b;
    assert forall f | f in b :: f in a + b;
    if |a| == 0 {
      assert a + b == b;
    } else {
      assert (a + b)[1..] == a[1..] + b;
      assert forall f | f in a[1..] + b :: f in a + b;
      TotalSplit(a[1..], b);
    }
  }

  // ------------------------------------------------------------------ eviction

  /** Drop frames from the front until the rest fits. */
  function Fit(fs: seq<AudioFrame>, capacity: int): (kept: seq<AudioFrame>)
    requires Playable(fs)
    ensures Playable(kept) && |kept| <= |fs|
  {
    if |fs| == 0 || Total(fs) <= capacity then fs else Fit(fs[1..], capacity)
  }

  ghost predicate Suffix(s: seq<AudioFrame>, fs: seq<AudioFrame>) {
    |s| <= |fs| && s == fs[|fs| - |s|..]
  }

  /** `Fit` is what the class comment promises: the longest suffix that fits the capacity. */
  lemma {:induction false} FitIsLongestSuffix(fs: seq<AudioFrame>, capacity: nat)
    requires Playable(fs)
    ensures var kept := Fit(fs, capacity);
            Suffix(kept, fs) && Playable(kept) && Total(kept) <= capacity
    ensures forall s | Suffix(s, fs) && Playable(s) && Total(s) <= capacity :: |s| <= |Fit(fs, capacity)|
  {
    if |fs| > 0 && Total(fs) > capacity {
      FitIsLongestSuffix(fs[1..], capacity);
      forall s | Suffix(s, fs) && Playable(s) && Total(s) <= capacity
        ensures |s| <= |Fit(fs, capacity)|
      {
        assert |s| < |fs|;
        assert Suffix(s, fs[1..]);
      }
    }
  }

  /** Evicting after every append gives the same as evicting once at the end: this is why the
      online loop reaches the optimum over the whole history. */
  lemma {:induction false} FitOnline(history: seq<AudioFrame>, f: AudioFrame, capacity: nat)
    requires Playable(history) && f.sampleRate != 0
    ensures Playable(Fit(history, capacity) + [f])
    ensures Fit(Fit(history, capacity) + [f], capacity) == Fit(history + [f], capacity)
  {
    if |history| > 0 && Total(history) > capacity {
      TotalSplit(history, [f]);
      assert (history + [f])[1..] == history[1..] + [f];
      FitOnline(history[1..], f, capacity);
    }
  }

  // ------------------------------------------------------------------ runs

  datatype Buffer = Buffer(capacityMs: nat, frames: seq<AudioFrame>, durationMs: int, droppedFrames: nat)

  /** A buffer state the class can be in. */
  ghost predicate Sound(b: Buffer) {
    && b.capacityMs > 0
    && Playable(b.frames)
    && b.durationMs == Total(b.frames) <= b.capacityMs
  }

  function Fresh(capacity: nat): Buffer {
    Buffer(capacity, [], 0, 0)
  }

  /** `append`; an unplayable frame raises before anything changes. */
  function Appended(b: Buffer, f: AudioFrame): Buffer
    requires Playable(b.frames)
  {
    if f.sampleRate == 0 then b
    else
      var kept := Fit(b.frames + [f], b.capacityMs);
      Buffer(b.capacityMs, kept, Total(kept), b.droppedFrames + |b.frames| + 1 - |kept|)
  }

  function Cleared(b: Buffer): Buffer {
    b.(frames := [], durationMs := 0)
  }

  datatype BufferOp = Append(frame: AudioFrame) | Clear

  function BufferRun(capacity: nat, ops: seq<BufferOp>): (b: Buffer)
    ensures Playable(b.frames) && b.capacityMs == capacity
  {
    if |ops| == 0 then Fresh(capacity)
    else
      var b := BufferRun(capacity, ops[..|ops| - 1]);
      match ops[|ops| - 1]
      case Append(f) => Appended(b, f)
      case Clear => Cleared(b)
  }

  /** The accepted frames since the last clear. */
  ghost function SinceClear(ops: seq<BufferOp>): (fs: seq<AudioFrame>)
    ensures Playable(fs)
  {
    if |ops| == 0 then []
    else
      var before := SinceClear(ops[..|ops| - 1]);
      match ops[|ops| - 1]
      case Append(f) => if f.sampleRate == 0 then before else before + [f]
      case Clear => []
  }

  ghost function AcceptedCount(ops: seq<BufferOp>): nat {
    if |ops| == 0 then 0
    else
      AcceptedCount(ops[..|ops| - 1])
      + (match ops[|ops| - 1] case Append(f) => if f.sampleRate == 0 then 0 else 1 case Clear => 0)
  }

  /** How many frames the clears of a run threw away. */
  ghost function ClearedCount(capacity: nat, ops: seq<BufferOp>): nat {
    if |ops| == 0 then 0
    else ClearedCount(capacity, ops[..|ops| - 1]) +
         if ops[|ops| - 1].Clear? then |BufferRun(capacity, ops[..|ops| - 1]).frames| else 0
  }

  /** Optimality and conservation over every run: the buffer is the longest suffix of the frames
      since the last clear that fits, its cached duration is exact, and no frame is unaccounted. */
  lemma {:induction false} RunIsOptimal(capacity: nat, ops: seq<BufferOp>)
    requires capacity > 0
    ensures var b := BufferRun(capacity, ops);
            && Sound(b)
            && b.frames == Fit(SinceClear(ops), capacity)
            && Suffix(b.frames, SinceClear(ops))
            && (forall s | Suffix(s, SinceClear(ops)) && Playable(s) && Total(s) <= capacity :: |s| <= |b.frames|)
            && AcceptedCount(ops) == |b.frames| + b.droppedFrames + ClearedCount(capacity, ops)
  {
    FitIsLongestSuffix(SinceClear(ops), capacity);
    if |ops| > 0 {
      var shorter := ops[..|ops| - 1];
      RunIsOptimal(capacity, shorter);
      match ops[|ops| - 1]
      case Append(f) =>
        if f.sampleRate != 0 {
          FitOnline(SinceClear(shorter), f, capacity);
        }
      case Clear =>
    }
  }

  // ------------------------------------------------------------------ real time

  ghost function TrueTotal(fs: seq<AudioFrame>): real
    requires Playable(fs)
  {
    if |fs| == 0 then 0.0 else TrueMs(fs[0]) + TrueTotal(fs[1..])
  }

  lemma {:induction false} RoundedBound(fs: seq<AudioFrame>)
    requires Playable(fs)
    ensures |fs| <= Total(fs)
    ensures TrueTotal(fs) <= Total(fs) as real + 0.5 * |fs| as real
  {
    if |fs| > 0 {
      RoundedBound(fs[1..]);
    }
  }

  /** Whatever was appended, the buffer holds at most `capacity_ms` frames, and the audio it really
      holds exceeds the capacity by at most half a millisecond a frame, so by at most one half. */
  lemma RealTimeBound(capacity: nat, ops: seq<BufferOp>)
    requires capacity > 0
    ensures var b := BufferRun(capacity, ops);
            && |b.frames| <= capacity
            && TrueTotal(b.frames) <= capacity as real + 0.5 * |b.frames| as real
            && TrueTotal(b.frames) <= 1.5 * capacity as real
  {
    RunIsOptimal(capacity, ops);
    RoundedBound(BufferRun(capacity, ops).frames);
  }

  // ------------------------------------------------------------------ snapshot

  /** The shortest non-empty suffix lasting at least `lastMs`. */
  ghost predicate ShortestSuffix(s: seq<AudioFrame>, fs: seq<AudioFrame>, lastMs: int)
    requires Playable(fs)
  {
    && Suffix(s, fs) && Playable(s)
    && 1 <= |s| && Total(s) >= lastMs
    && forall t | Suffix(t, fs) && Playable(t) && 1 <= |t| && Total(t) >= lastMs :: |s| <= |t|
  }

  lemma LongerSuffixLastsLonger(fs: seq<AudioFrame>, i: nat, j: nat)
    requires Playable(fs) && i <= j <= |fs|
    ensures Playable(fs[i..]) && Playable(fs[j..])
    ensures Total(fs[j..]) <= Total(fs[i..])
  {
    assert fs[i..] == fs[i..j] + fs[j..];
    TotalSplit(fs[i..j], fs[j..]);
  }

  /** One turn of the loop of `snapshot`: the suffix gets one frame longer, and if it then lasts long enough
      it is the shortest that does. */
  lemma SnapshotTurn(fs: seq<AudioFrame>, i: nat, lastMs: int)
    requires Playable(fs) && 0 < i <= |fs| && (i < |fs| ==> Total(fs[i..]) < lastMs)
    ensures fs[i - 1..] == [fs[i - 1]] + fs[i..] && Playable(fs[i - 1..])
    ensures Total(fs[i - 1..]) == Total(fs[i..]) + FrameDurationMs(fs[i - 1])
    ensures Total(fs[i - 1..]) >= lastMs ==> ShortestSuffix(fs[i - 1..], fs, lastMs)
  {
    assert fs[i - 1..][1..] == fs[i..];
    forall t | Suffix(t, fs) && Playable(t) && 1 <= |t| && Total(t) >= lastMs ensures |fs[i - 1..]| <= |t| {
      if |t| < |fs| - i + 1 {
        LongerSuffixLastsLonger(fs, i, |fs| - |t|);
      }
    }
  }

  /** Dropping frames from the front as long as the rest lasts. */
  function Shortened(fs: seq<AudioFrame>, lastMs: int): seq<AudioFrame>
    requires Playable(fs)
  {
    if |fs| > 1 && Total(fs[1..]) >= lastMs then Shortened(fs[1..], lastMs) else fs
  }

  lemma {:induction false} ShortenedShortest(fs: seq<AudioFrame>, lastMs: int)
    requires Playable(fs) && fs != [] && Total(fs) >= lastMs
    ensures ShortestSuffix(Shortened(fs, lastMs), fs, lastMs)
  {
    if |fs| > 1 && Total(fs[1..]) >= lastMs {
      ShortenedShortest(fs[1..], lastMs);
      ShortestBelow(Shortened(fs, lastMs), fs, lastMs);
    } else {
      forall t | Suffix(t, fs) && Playable(t) && 1 <= |t| && Total(t) >= lastMs ensures |fs| <= |t| {
        if |t| < |fs| {
          LongerSuffixLastsLonger(fs, 1, |fs| - |t|);
        }
      }
    }
  }

  lemma ShortestBelow(s: seq<AudioFrame>, fs: seq<AudioFrame>, lastMs: int)
    requires Playable(fs) && |fs| > 1 && ShortestSuffix(s, fs[1..], lastMs)
    ensures ShortestSuffix(s, fs, lastMs)
  {
    forall t | Suffix(t, fs) && Playable(t) && 1 <= |t| && Total(t) >= lastMs ensures |s| <= |t| {
      if |t| < |fs| {
        assert Suffix(t, fs[1..]);
      }
    }
  }

  lemma ShortestUnique(s: seq<AudioFrame>, t: seq<AudioFrame>, fs: seq<AudioFrame>, lastMs: int)
    requires Playable(fs) && ShortestSuffix(s, fs, lastMs) && ShortestSuffix(t, fs, lastMs)
    ensures s == t
  {
  }

  /** `snapshot` of a buffer with these frames. */
  function Recent(fs: seq<AudioFrame>, lastMs: int): seq<AudioFrame>
    requires Playable(fs)
  {
    if lastMs >= Total(fs) then fs else Shortened(fs, lastMs)
  }

  lemma TotalAppend(fs: seq<AudioFrame>, f: AudioFrame)
    requires Playable(fs) && f.sampleRate != 0
    ensures Playable(fs + [f]) && Total(fs + [f]) == Total(fs) + FrameDurationMs(f)
  {
    TotalSplit(fs, [f]);
    assert Total([f]) == FrameDurationMs(f) + Total([f][1..]);
  }

  /** One turn of the loop that evicts. */
  lemma EvictOne(fs: seq<AudioFrame>, capacity: nat)
    requires Playable(fs) && fs != [] && Total(fs) > capacity
    ensures Playable(fs[1..]) && Total(fs[1..]) == Total(fs) - FrameDurationMs(fs[0])
    ensures Fit(fs[1..], capacity) == Fit(fs, capacity)
  {
  }

  lemma FitDone(fs: seq<AudioFrame>, capacity: nat)
    requires Playable(fs) && (fs == [] || Total(fs) <= capacity)
    ensures Fit(fs, capacity) == fs
  {
  }

  datatype BufferStats = BufferStats(frameCount: nat, durationMs: nat, capacityMs: nat, droppedFrames: nat)

  class AudioRingBuffer {
    const capacityMs: nat
    var frames: seq<AudioFrame>
    var durationMs: int
    var droppedFrames: nat

    ghost function View(): Buffer
      reads this
    {
      Buffer(capacityMs, frames, durationMs, droppedFrames)
    }

    ghost predicate Valid()
      reads this
    {
      Sound(View())
    }

    /** The source raises ValueError for a capacity that is not positive, so no object exists. */
    constructor (capacity: nat)
      requires capacity > 0
      ensures Valid() && View() == Fresh(capacity)
    {
      capacityMs, frames, durationMs, droppedFrames := capacity, [], 0, 0;
    }

    method Append(f: AudioFrame) returns (accepted: bool)
      requires Valid()
      modifies this
      ensures Valid()
      ensures View() == Appended(old(View()), f)
      ensures accepted <==> f.sampleRate != 0
    {
      if f.sampleRate == 0 {
        return false;
      }
      TotalAppend(frames, f);
      FitIsLongestSuffix(frames + [f], capacityMs);
      durationMs := durationMs + FrameDurationMs(f);
      frames := frames + [f];
      Evict();
      accepted := true;
    }

    /** The loop of `append`. */
    method Evict()
      requires Playable(frames) && durationMs == Total(frames)
      modifies this`frames, this`durationMs, this`droppedFrames
      ensures frames == Fit(old(frames), capacityMs) && Playable(frames) && durationMs == Total(frames)
      ensures droppedFrames + |frames| == old(droppedFrames) + |old(frames)|
    {
      while durationMs > capacityMs && frames != []
        invariant Playable(frames) && durationMs == Total(frames)
        invariant Fit(frames, capacityMs) == Fit(old(frames), capacityMs)
        invariant droppedFrames + |frames| == old(droppedFrames) + |old(frames)|
        decreases |frames|
      {
        EvictOne(frames, capacityMs);
        durationMs := durationMs - FrameDurationMs(frames[0]);
        frames := frames[1..];
        droppedFrames := droppedFrames + 1;
      }
      FitDone(frames, capacityMs);
    }

    method Clear()
      requires Valid()
      modifies this
      ensures Valid() && View() == Cleared(old(View()))
    {
      frames := [];
      durationMs := 0;
    }

    method Snapshot(lastMs: Option<int>) returns (selected: seq<AudioFrame>)
      requires Valid()
      ensures lastMs.None? || lastMs.value >= durationMs || frames == [] ==> selected == frames
      ensures lastMs.Some? && lastMs.value < durationMs && frames != [] ==>
              ShortestSuffix(selected, frames, lastMs.value)
    {
      if lastMs.None? || lastMs.value >= durationMs {
        return frames;
      }
      selected := [];
      var total := 0;
      var i := |frames|;
      while i > 0
        invariant 0 <= i <= |frames| && selected == frames[i..] && Playable(selected)
        invariant total == Total(selected)
        invariant i < |frames| ==> total < lastMs.value
      {
        SnapshotTurn(frames, i, lastMs.value);
        i := i - 1;
        selected := [frames[i]] + selected;
        total := total + FrameDurationMs(frames[i]);
        if total >= lastMs.value {
          return;
        }
      }
      assert selected == frames;
    }

    method Stats() returns (s: BufferStats)
      requires Valid()
      ensures s == BufferStats(|frames|, Total(frames), capacityMs, droppedFrames)
    {
      s := BufferStats(|frames|, if durationMs < 0 then 0 else durationMs, capacityMs, droppedFrames);
    }
  }
}
