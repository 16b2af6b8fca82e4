/** Online speaker clustering (application/diarization.py), over exact reals. */
module Diarization {
  import opened Basics
  import opened Wrappers

  /** A feature is the triple that `audio_feature` returns. */
  datatype Vec = Vec(x: real, y: real, z: real) {
    function Plus(v: Vec): Vec { Vec(x + v.x, y + v.y, z + v.z) }
    function Minus(v: Vec): Vec { Vec(x - v.x, y - v.y, z - v.z) }
    function Times(k: real): Vec { Vec(x * k, y * k, z * k) }
    function Over(k: real): Vec
      requires k != 0.0
    { Vec(x / k, y / k, z / k) }
  }

  const ZERO := Vec(0.0, 0.0, 0.0)

  /** Constructor arguments; `norm` stands for `np.linalg.norm`. */
  datatype Config = Config(maxSpeakers: int, newClusterDistance: real, norm: Vec -> real)

  datatype Clusters = Clusters(centroids: seq<Vec>, counts: seq<nat>, hints: map<string, nat>)

  datatype Assignment = Assignment(index: nat, confidence: real, overlap: bool)

  function Distances(cfg: Config, feature: Vec, centroids: seq<Vec>): seq<real> {
    seq(|centroids|, i requires 0 <= i < |centroids| => cfg.norm(feature.Minus(centroids[i])))
  }

  /** `np.argmin`: the first of the least. */
  function ArgMin(ds: seq<real>): (k: nat)
    requires |ds| > 0
    ensures k < |ds|
    ensures forall j | 0 <= j < |ds| :: ds[k] <= ds[j]
    ensures forall j | 0 <= j < k :: ds[k] < ds[j]
  {
    if |ds| == 1 then 0
    else
      var k := ArgMin(ds[..|ds| - 1]);
      if ds[|ds| - 1] < ds[k] then |ds| - 1 else k
  }

  /** Which cluster a feature joins: `None` opens a new one. */
  function Choice(cfg: Config, s: Clusters, feature: Vec): (c: Option<nat>)
    ensures c.Some? ==> c.value < |s.centroids|
    ensures c.None? ==> |s.centroids| == 0 || |s.centroids| < cfg.maxSpeakers
  {
    if |s.centroids| == 0 then None
    else
      var ds := Distances(cfg, feature, s.centroids);
      var k := ArgMin(ds);
      if ds[k] > cfg.newClusterDistance && |s.centroids| < cfg.maxSpeakers then None else Some(k)
  }

  predicate Parallel(s: Clusters) {
    |s.counts| == |s.centroids|
  }

  predicate Populated(counts: seq<nat>) {
    forall i | 0 <= i < |counts| :: counts[i] > 0
  }

  function Opened(s: Clusters, centroid: Vec): Clusters {
    s.(centroids := s.centroids + [centroid], counts := s.counts + [1])
  }

  function Joined(s: Clusters, k: nat, feature: Vec): Clusters
    requires Parallel(s) && k < |s.centroids|
  {
    var n := s.counts[k];
    s.(centroids := s.centroids[k := s.centroids[k].Times(n as real).Plus(feature).Over((n + 1) as real)],
       counts := s.counts[k := n + 1])
  }

  function Assigned(cfg: Config, s: Clusters, feature: Option<Vec>, hint: string): (r: Clusters)
    requires Parallel(s)
    ensures Parallel(r)
  {
    if hint != "" then
      if hint in s.hints then s else s.(hints := s.hints[hint := |s.hints|])
    else if feature.None? then
      if |s.centroids| == 0 then Opened(s, ZERO) else s
    else
      match Choice(cfg, s, feature.value)
      case None => Opened(s, feature.value)
      case Some(k) => Joined(s, k, feature.value)
  }

  /** The answer of the call: what it says about the clusters after it. */
  function Answer(cfg: Config, s: Clusters, feature: Option<Vec>, hint: string, overlap: bool): Assignment
    requires Parallel(s)
  {
    var after := Assigned(cfg, s, feature, hint);
    if hint != "" then Assignment(after.hints[hint], 1.0, overlap)
    else if feature.None? then Assignment(0, 0.35, overlap)
    else if |s.centroids| == 0 then Assignment(0, 0.8, overlap)
    else
      match Choice(cfg, s, feature.value)
      case None => Assignment(|s.centroids|, Clip(1.0, 0.2, 0.95), overlap)
      case Some(k) => Assignment(k, Clip(1.0 - Distances(cfg, feature.value, s.centroids)[k], 0.2, 0.95), overlap)
  }

  // ------------------------------------------------------------------ who is speaking

  /** How far a feature is from a cluster. */
  function Distance(cfg: Config, f: Vec, centroid: Vec): real {
    cfg.norm(f.Minus(centroid))
  }

  /** A feature that comes without a hint opens a cluster exactly when there is none, or when every cluster is
      farther than the limit and there is room for another. Otherwise it joins the nearest, the first of them
      if there are several, and moves no other. The answer names the cluster; its confidence is 1 less the
      distance, but no more than 0.95 and no less than 0.2. */
  lemma NearestExactly(cfg: Config, s: Clusters, f: Vec, overlap: bool)
    requires Parallel(s)
    ensures var t, n := Assigned(cfg, s, Some(f), ""), |s.centroids|;
            (|t.centroids| == n + 1 <==>
             n == 0 || (n < cfg.maxSpeakers
                        && forall i | 0 <= i < n :: Distance(cfg, f, s.centroids[i]) > cfg.newClusterDistance))
    ensures var t, a, n := Assigned(cfg, s, Some(f), ""), Answer(cfg, s, Some(f), "", overlap), |s.centroids|;
            && a.overlap == overlap && t.hints == s.hints
            && (|t.centroids| == n + 1 ==>
                  && t.centroids == s.centroids + [f] && t.counts == s.counts + [1]
                  && a.index == n && a.confidence == if n == 0 then 0.8 else 0.95)
            && (|t.centroids| != n + 1 ==>
                  && a.index < n == |t.centroids| && t.counts == s.counts[a.index := s.counts[a.index] + 1]
                  && (forall i | 0 <= i < n && i != a.index :: t.centroids[i] == s.centroids[i])
                  && var d := Distance(cfg, f, s.centroids[a.index]);
                     && (forall i | 0 <= i < n :: d <= Distance(cfg, f, s.centroids[i]))
                     && (forall i | 0 <= i < a.index :: d < Distance(cfg, f, s.centroids[i]))
                     && (d <= 0.05 ==> a.confidence == 0.95) && (d >= 0.8 ==> a.confidence == 0.2)
                     && (0.05 < d < 0.8 ==> a.confidence == 1.0 - d))
  {
    var n := |s.centroids|;
    if n > 0 {
      var ds := Distances(cfg, f, s.centroids);
      assert forall i | 0 <= i < n :: ds[i] == Distance(cfg, f, s.centroids[i]);
      var k := ArgMin(ds);
      assert ds[k] > cfg.newClusterDistance <==> forall i | 0 <= i < n :: ds[i] > cfg.newClusterDistance;
    }
  }

  /** A hint wins over the feature and leaves the clusters alone; the same hint has the same speaker, and a new
      one the next number. Without either, the first cluster answers. */
  lemma UnheardAnswers(cfg: Config, s: Clusters, feature: Option<Vec>, hint: string, overlap: bool)
    requires Parallel(s) && (hint != "" || feature.None?)
    ensures var t, a := Assigned(cfg, s, feature, hint), Answer(cfg, s, feature, hint, overlap);
            && a.overlap == overlap
            && (hint != "" ==>
                  && t.centroids == s.centroids && t.counts == s.counts && a.confidence == 1.0
                  && a.index == (if hint in s.hints then s.hints[hint] else |s.hints|)
                  && t.hints == s.hints[hint := a.index])
            && (hint == "" ==>
                  && a.index == 0 && a.confidence == 0.35 && t.hints == s.hints
                  && (|s.centroids| > 0 ==> t == s)
                  && (|s.centroids| == 0 ==> t.centroids == [ZERO] && t.counts == [1]))
  {
    if hint in s.hints {
      assert s.hints[hint := s.hints[hint]] == s.hints;
    }
  }

  // ------------------------------------------------------------------ merging

  /** A Python list index, which may count from the end. */
  function Resolve(i: int, n: nat): Option<nat> {
    if 0 <= i < n then Some(i)
    else if i < 0 <= i + n then Some(i + n)
    else None
  }

  function Without<T>(s: seq<T>, k: nat): seq<T>
    requires k < |s|
  {
    s[..k] + s[k + 1..]
  }

  function Pooled(c: Vec, n: nat, d: Vec, m: nat): Vec
    requires n + m > 0
  {
    c.Times(n as real).Plus(d.Times(m as real)).Over((n + m) as real)
  }

  /** Cluster `b` takes over cluster `a`, which is deleted. */
  function PooledAt(s: Clusters, a: nat, b: nat): (r: Clusters)
    requires Parallel(s) && a < |s.counts| && b < |s.counts| && s.counts[a] + s.counts[b] > 0
    ensures Parallel(r)
  {
    var mean := Pooled(s.centroids[a], s.counts[a], s.centroids[b], s.counts[b]);
    s.(centroids := Without(s.centroids[b := mean], a),
       counts := Without(s.counts[b := s.counts[a] + s.counts[b]], a))
  }

  /** `merge`; an index out of range raises IndexError before anything changes. The source compares
      the raw indices, so two spellings of one cluster get past the first test. */
  function Merged(s: Clusters, source: int, target: int): (r: Clusters)
    requires Parallel(s) && Populated(s.counts)
    ensures Parallel(r)
  {
    var a, b := Resolve(source, |s.counts|), Resolve(target, |s.counts|);
    if source == target || a.None? || b.None? then s
    else PooledAt(s, a.value, b.value)
  }

  /** Where the cluster at `i` stands once the one at `source` is gone. */
  function Moved(i: nat, source: nat): int {
    if i < source then i else i - 1
  }

  /** A merge of two clusters: the target becomes the weighted mean with the count of both, the source goes, and
      every other cluster stays what it was, those behind the source one place further up. */
  lemma MergeMoves(s: Clusters, source: nat, target: nat)
    requires Parallel(s) && Populated(s.counts) && source < |s.counts| && target < |s.counts| && source != target
    ensures var t, into, n := Merged(s, source, target), Moved(target, source), s.counts[source] + s.counts[target];
            && |t.counts| == |s.counts| - 1 && t.hints == s.hints && t.counts[into] == n
            && t.centroids[into].Times(n as real)
               == s.centroids[source].Times(s.counts[source] as real)
                  .Plus(s.centroids[target].Times(s.counts[target] as real))
            && forall i | 0 <= i < |s.counts| && i != source && i != target ::
                  && t.counts[Moved(i, source)] == s.counts[i]
                  && t.centroids[Moved(i, source)] == s.centroids[i]
  {
    hide Pooled, Without, Merged, Moved, Vec.Times, Vec.Plus;
    var n := s.counts[source] + s.counts[target];
    var mean := Pooled(s.centroids[source], s.counts[source], s.centroids[target], s.counts[target]);
    MergedFields(s, source, target);
    MovesAt(s.counts, source, target, n);
    MovesAt(s.centroids, source, target, mean);
    PooledTimes(s.centroids[source], s.counts[source], s.centroids[target], s.counts[target]);
  }

  lemma MergedFields(s: Clusters, source: nat, target: nat)
    requires Parallel(s) && Populated(s.counts) && source < |s.counts| && target < |s.counts| && source != target
    ensures var t, n := Merged(s, source, target), s.counts[source] + s.counts[target];
            var mean := Pooled(s.centroids[source], s.counts[source], s.centroids[target], s.counts[target]);
            && t.hints == s.hints && t.counts == Without(s.counts[target := n], source)
            && t.centroids == Without(s.centroids[target := mean], source)
  {
    hide Pooled, Without;
  }

  lemma MovesAt<T>(s: seq<T>, source: nat, target: nat, x: T)
    requires source < |s| && target < |s| && source != target
    ensures var t := Without(s[target := x], source);
            && |t| == |s| - 1 && t[Moved(target, source)] == x
            && forall i | 0 <= i < |s| && i != source && i != target :: t[Moved(i, source)] == s[i]
  {
  }

  lemma PooledTimes(c: Vec, n: nat, d: Vec, m: nat)
    requires n + m > 0
    ensures Pooled(c, n, d, m).Times((n + m) as real) == c.Times(n as real).Plus(d.Times(m as real))
  {
    MeanTimesCount(c.Times(n as real).Plus(d.Times(m as real)), (n + m) as real);
  }

  /** Two different indices for one and the same cluster. */
  predicate Aliased(n: nat, source: int, target: int) {
    source != target && Resolve(source, n).Some? && Resolve(source, n) == Resolve(target, n)
  }

  function CountSum(counts: seq<nat>): nat {
    if |counts| == 0 then 0 else CountSum(counts[..|counts| - 1]) + counts[|counts| - 1]
  }

  lemma {:induction false} CountSumSplit(a: seq<nat>, b: seq<nat>)
    ensures CountSum(a + b) == CountSum(a) + CountSum(b)
  {
    if |b| == 0 {
      assert a + b == a;
    } else {
      assert (a + b)[..|a + b| - 1] == a + b[..|b| - 1];
      CountSumSplit(a, b[..|b| - 1]);
    }
  }

  lemma CountSumSet(counts: seq<nat>, k: nat, n: nat)
    requires k < |counts|
    ensures CountSum(counts[k := n]) == CountSum(counts) - counts[k] + n
    ensures CountSum(Without(counts, k)) == CountSum(counts) - counts[k]
  {
    var rest := counts[k + 1..];
    assert counts == counts[..k] + [counts[k]] + rest;
    assert counts[k := n] == counts[..k] + [n] + rest;
    CountSumSplit(counts[..k] + [counts[k]], rest);
    CountSumSplit(counts[..k] + [n], rest);
    CountSumSplit(counts[..k], [counts[k]]);
    CountSumSplit(counts[..k], [n]);
    CountSumSplit(counts[..k], rest);
    assert forall m: nat :: CountSum([m]) == m by {
      assert forall m: nat :: [m][..0] == [];
    }
  }

  /** A merge keeps the total count exactly when its indices do not name one cluster twice: the test
      `source_index == target_index` misses -1 and n-1, and then the cluster is lost with its count. */
  lemma MergeKeepsTotalExactly(s: Clusters, source: int, target: int)
    requires Parallel(s) && Populated(s.counts)
    ensures CountSum(Merged(s, source, target).counts) == CountSum(s.counts) <==> !Aliased(|s.counts|, source, target)
    ensures Aliased(|s.counts|, source, target) ==>
              CountSum(Merged(s, source, target).counts)
                  == CountSum(s.counts) - s.counts[Resolve(source, |s.counts|).value]
  {
    var a, b := Resolve(source, |s.counts|), Resolve(target, |s.counts|);
    if source != target && a.Some? && b.Some? {
      var sum := s.counts[a.value] + s.counts[b.value];
      var widened := s.counts[b.value := sum];
      CountSumSet(s.counts, b.value, sum);
      CountSumSet(widened, a.value, 0);
      assert Merged(s, source, target).counts == Without(widened, a.value);
      assert widened[a.value] == if a == b then sum else s.counts[a.value];
    }
  }

  // ------------------------------------------------------------------ the partition behind the clusters

  /** The features each cluster has absorbed, cluster by cluster; the stand-in zero vector of a silent
      first call counts as one. */
  type Parts = seq<seq<Vec>>

  ghost function VecSum(vs: seq<Vec>): Vec {
    if |vs| == 0 then ZERO else VecSum(vs[..|vs| - 1]).Plus(vs[|vs| - 1])
  }

  lemma {:induction false} VecSumSplit(a: seq<Vec>, b: seq<Vec>)
    ensures VecSum(a + b) == VecSum(a).Plus(VecSum(b))
  {
    if |b| == 0 {
      assert a + b == a;
    } else {
      assert (a + b)[..|a + b| - 1] == a + b[..|b| - 1];
      VecSumSplit(a, b[..|b| - 1]);
    }
  }

  /** Every count is a class size and count times centroid is the class's sum. */
  ghost predicate Conserving(s: Clusters, parts: Parts) {
    && |parts| == |s.centroids| == |s.counts|
    && Populated(s.counts)
    && forall i | 0 <= i < |parts| :: Faithful(s.centroids[i], s.counts[i], parts[i])
  }

  ghost predicate Faithful(centroid: Vec, count: nat, part: seq<Vec>) {
    count == |part| > 0 && centroid.Times(count as real) == VecSum(part)
  }

  ghost function AssignedParts(cfg: Config, s: Clusters, parts: Parts, feature: Option<Vec>, hint: string): Parts
    requires |parts| == |s.centroids|
  {
    if hint != "" then parts
    else if feature.None? then (if |s.centroids| == 0 then parts + [[ZERO]] else parts)
    else
      match Choice(cfg, s, feature.value)
      case None => parts + [[feature.value]]
      case Some(k) => parts[k := parts[k] + [feature.value]]
  }

  /** The features that a merge forgets: those of a cluster named twice. */
  ghost function Forgotten(parts: Parts, source: int, target: int): multiset<Vec> {
    if Aliased(|parts|, source, target) then multiset(parts[Resolve(source, |parts|).value]) else multiset{}
  }

  ghost function MergedParts(parts: Parts, source: int, target: int): Parts {
    var a, b := Resolve(source, |parts|), Resolve(target, |parts|);
    if source == target || a.None? || b.None? then parts
    else Without(parts[b.value := parts[b.value] + parts[a.value]], a.value)
  }

  lemma Rescaled(v: real, k: real)
    requires k != 0.0
    ensures v / k * k == v
  {
  }

  lemma MeanTimesCount(v: Vec, k: real)
    requires k != 0.0
    ensures v.Over(k).Times(k) == v
  {
    Rescaled(v.x, k);
    Rescaled(v.y, k);
    Rescaled(v.z, k);
  }

  lemma SingleSum(v: Vec)
    ensures Faithful(v, 1, [v])
  {
    assert [v][..0] == [];
    assert VecSum([]) == ZERO;
  }

  lemma AssignConserves(cfg: Config, s: Clusters, parts: Parts, feature: Option<Vec>, hint: string)
    requires Conserving(s, parts)
    ensures Conserving(Assigned(cfg, s, feature, hint), AssignedParts(cfg, s, parts, feature, hint))
  {
    if hint == "" && feature.None? {
      SingleSum(ZERO);
    } else if hint == "" {
      var f := feature.value;
      match Choice(cfg, s, f)
      case None => SingleSum(f);
      case Some(k) =>
        var n := s.counts[k];
        MeanTimesCount(s.centroids[k].Times(n as real).Plus(f), (n + 1) as real);
        VecSumSplit(parts[k], [f]);
        SingleSum(f);
        UnitTimes(f);
        assert Faithful(s.centroids[k], s.counts[k], parts[k]);
    }
  }

  lemma UnitTimes(v: Vec)
    ensures v.Times(1 as real) == v
  {
  }

  lemma PooledFaithful(c: Vec, n: nat, p: seq<Vec>, d: Vec, m: nat, q: seq<Vec>)
    requires Faithful(c, n, p) && Faithful(d, m, q)
    ensures Faithful(Pooled(c, n, d, m), n + m, q + p)
  {
    MeanTimesCount(c.Times(n as real).Plus(d.Times(m as real)), (n + m) as real);
    VecSumSplit(q, p);
  }

  lemma SetConserves(s: Clusters, parts: Parts, k: nat, c: Vec, n: nat, p: seq<Vec>)
    requires Conserving(s, parts) && k < |parts| && Faithful(c, n, p)
    ensures Conserving(s.(centroids := s.centroids[k := c], counts := s.counts[k := n]), parts[k := p])
  {
  }

  lemma WithoutConserves(s: Clusters, parts: Parts, k: nat)
    requires Conserving(s, parts) && k < |parts|
    ensures Conserving(s.(centroids := Without(s.centroids, k), counts := Without(s.counts, k)), Without(parts, k))
  {
    forall i | 0 <= i < |parts| - 1
      ensures Faithful(Without(s.centroids, k)[i], Without(s.counts, k)[i], Without(parts, k)[i])
    {
      var j := if i < k then i else i + 1;
      assert Faithful(s.centroids[j], s.counts[j], parts[j]);
    }
  }

  lemma MergeAt(s: Clusters, parts: Parts, a: nat, b: nat, mean: Vec, n: nat)
    requires Conserving(s, parts) && a < |parts| && b < |parts| && a != b
    requires Faithful(mean, n, parts[b] + parts[a])
    ensures Conserving(s.(centroids := Without(s.centroids[b := mean], a), counts := Without(s.counts[b := n], a)),
                       Without(parts[b := parts[b] + parts[a]], a))
  {
    SetConserves(s, parts, b, mean, n, parts[b] + parts[a]);
    WithoutConserves(s.(centroids := s.centroids[b := mean], counts := s.counts[b := n]),
                     parts[b := parts[b] + parts[a]], a);
  }

  lemma MergePooled(s: Clusters, parts: Parts, a: nat, b: nat)
    requires Conserving(s, parts) && a < |parts| && b < |parts| && a != b
    ensures s.counts[a] + s.counts[b] > 0
    ensures Conserving(PooledAt(s, a, b), Without(parts[b := parts[b] + parts[a]], a))
  {
    assert Faithful(s.centroids[a], s.counts[a], parts[a]);
    assert Faithful(s.centroids[b], s.counts[b], parts[b]);
    PooledFaithful(s.centroids[a], s.counts[a], parts[a], s.centroids[b], s.counts[b], parts[b]);
    MergeAt(s, parts, a, b, Pooled(s.centroids[a], s.counts[a], s.centroids[b], s.counts[b]),
            s.counts[a] + s.counts[b]);
  }

  /** Merging a cluster into itself deletes it, and its class with it. */
  lemma MergeDeletes(s: Clusters, parts: Parts, a: nat)
    requires Conserving(s, parts) && a < |parts|
    ensures s.counts[a] + s.counts[a] > 0
    ensures Conserving(PooledAt(s, a, a), Without(parts[a := parts[a] + parts[a]], a))
  {
    assert Faithful(s.centroids[a], s.counts[a], parts[a]);
    WithoutConserves(s, parts, a);
    WithoutSet(s.centroids, a, Pooled(s.centroids[a], s.counts[a], s.centroids[a], s.counts[a]));
    WithoutSet(s.counts, a, s.counts[a] + s.counts[a]);
    WithoutSet(parts, a, parts[a] + parts[a]);
  }

  lemma WithoutSet<T>(s: seq<T>, k: nat, x: T)
    requires k < |s|
    ensures Without(s[k := x], k) == Without(s, k)
  {
  }

  lemma MergeConserves(s: Clusters, parts: Parts, source: int, target: int)
    requires Conserving(s, parts)
    ensures Conserving(Merged(s, source, target), MergedParts(parts, source, target))
  {
    var a, b := Resolve(source, |parts|), Resolve(target, |parts|);
    if source != target && a.Some? && b.Some? {
      if a == b {
        MergeDeletes(s, parts, a.value);
      } else {
        MergePooled(s, parts, a.value, b.value);
      }
    }
  }

  // ------------------------------------------------------------------ runs

  datatype Op = Assign(feature: Option<Vec>, hint: string) | Merge(source: int, target: int)

  /** A run's state with its history: the partition, the features absorbed and lost, the stand-ins made, the
      merges that named one cluster twice, and how many of those left no cluster. */
  datatype Tracked = Tracked(s: Clusters, parts: Parts, absorbed: multiset<Vec>, lost: multiset<Vec>, standIns: nat,
                             aliased: nat, emptied: nat)

  ghost predicate Traced(t: Tracked) {
    Conserving(t.s, t.parts)
  }

  ghost predicate StandsIn(s: Clusters, feature: Option<Vec>, hint: string) {
    hint == "" && feature.None? && |s.centroids| == 0
  }

  ghost function Track(cfg: Config, t: Tracked, op: Op): Tracked
    requires Traced(t)
  {
    match op
    case Assign(feature, hint) =>
      t.(s := Assigned(cfg, t.s, feature, hint), parts := AssignedParts(cfg, t.s, t.parts, feature, hint),
         absorbed := if hint == "" && feature.Some? then t.absorbed + multiset{feature.value} else t.absorbed,
         standIns := if StandsIn(t.s, feature, hint) then t.standIns + 1 else t.standIns)
    case Merge(source, target) =>
      var aliased := Aliased(|t.parts|, source, target);
      t.(s := Merged(t.s, source, target), parts := MergedParts(t.parts, source, target),
         lost := t.lost + Forgotten(t.parts, source, target),
         aliased := if aliased then t.aliased + 1 else t.aliased,
         emptied := if aliased && |t.parts| == 1 then t.emptied + 1 else t.emptied)
  }

  lemma TrackKeeps(cfg: Config, t: Tracked, op: Op)
    requires Traced(t)
    ensures Traced(Track(cfg, t, op))
  {
    match op
    case Assign(feature, hint) => AssignConserves(cfg, t.s, t.parts, feature, hint);
    case Merge(source, target) => MergeConserves(t.s, t.parts, source, target);
  }

  /** The run over `ops`, from a new diarizer. */
  ghost function Run(cfg: Config, ops: seq<Op>): (t: Tracked)
    ensures Traced(t)
  {
    if |ops| == 0 then Tracked(Clusters([], [], map[]), [], multiset{}, multiset{}, 0, 0, 0)
    else
      var t := Run(cfg, ops[..|ops| - 1]);
      var u := Track(cfg, t, ops[|ops| - 1]);
      TrackKeeps(cfg, t, ops[|ops| - 1]);
      u
  }

  ghost function Members(parts: Parts): multiset<Vec> {
    if |parts| == 0 then multiset{} else Members(parts[..|parts| - 1]) + multiset(parts[|parts| - 1])
  }

  lemma {:induction false} MembersSplit(a: Parts, b: Parts)
    ensures Members(a + b) == Members(a) + Members(b)
  {
    if |b| == 0 {
      assert a + b == a;
    } else {
      assert (a + b)[..|a + b| - 1] == a + b[..|b| - 1];
      MembersSplit(a, b[..|b| - 1]);
    }
  }

  lemma MembersOne(part: seq<Vec>)
    ensures Members([part]) == multiset(part)
  {
    assert [part][..0] == [];
  }

  lemma MembersSet(parts: Parts, k: nat, part: seq<Vec>)
    requires k < |parts|
    ensures Members(parts[k := part]) + multiset(parts[k]) == Members(parts) + multiset(part)
  {
    MembersWithout(parts, k);
    MembersWithout(parts[k := part], k);
    assert Without(parts[k := part], k) == Without(parts, k);
  }

  lemma {:induction false} MembersWithout(parts: Parts, k: nat)
    requires k < |parts|
    ensures Members(parts) == Members(Without(parts, k)) + multiset(parts[k])
  {
    hide Members;
    var last := |parts| - 1;
    assert parts == parts[..last] + [parts[last]];
    MembersLast(parts[..last], parts[last]);
    if k == last {
      assert Without(parts, k) == parts[..k];
    } else {
      MembersWithout(parts[..last], k);
      assert Without(parts, k) == Without(parts[..last], k) + [parts[last]];
      MembersLast(Without(parts[..last], k), parts[last]);
      Exchange(Members(Without(parts[..last], k)), multiset(parts[k]), multiset(parts[last]));
    }
  }

  lemma MembersLast(front: Parts, part: seq<Vec>)
    ensures Members(front + [part]) == Members(front) + multiset(part)
  {
    assert (front + [part])[..|front|] == front;
  }

  lemma Exchange(a: multiset<Vec>, b: multiset<Vec>, c: multiset<Vec>)
    ensures a + b + c == a + c + b
  {
  }

  lemma MergeMembers(parts: Parts, source: int, target: int)
    ensures Members(MergedParts(parts, source, target)) + Forgotten(parts, source, target) == Members(parts)
  {
    var a, b := Resolve(source, |parts|), Resolve(target, |parts|);
    if source != target && a.Some? && b.Some? {
      if a == b {
        WithoutSet(parts, a.value, parts[a.value] + parts[a.value]);
        MembersWithout(parts, a.value);
      } else {
        PooledMembers(parts, a.value, b.value);
      }
    }
  }

  lemma PooledMembers(parts: Parts, a: nat, b: nat)
    requires a < |parts| && b < |parts| && a != b
    ensures Members(Without(parts[b := parts[b] + parts[a]], a)) == Members(parts)
  {
    var p, q := parts[b], parts[a];
    var pooled := parts[b := p + q];
    MembersSet(parts, b, p + q);
    MembersWithout(pooled, a);
    Cancel(Members(parts), Members(pooled), Members(Without(pooled, a)), p, q);
  }

  lemma Cancel(before: multiset<Vec>, pooled: multiset<Vec>, after: multiset<Vec>, p: seq<Vec>, q: seq<Vec>)
    requires pooled + multiset(p) == before + multiset(p + q)
    requires pooled == after + multiset(q)
    ensures after == before
  {
    assert multiset(p + q) == multiset(p) + multiset(q);
    forall v ensures after[v] == before[v] {
      assert (pooled + multiset(p))[v] == (before + multiset(p + q))[v];
    }
  }

  lemma AssignMembers(cfg: Config, s: Clusters, parts: Parts, feature: Option<Vec>, hint: string)
    requires |parts| == |s.centroids|
    ensures Members(AssignedParts(cfg, s, parts, feature, hint)) == Members(parts) + Gained(s, feature, hint)
  {
    if hint == "" && feature.None? && |s.centroids| == 0 {
      MembersSplit(parts, [[ZERO]]);
      MembersOne([ZERO]);
    } else if hint == "" && feature.Some? {
      var f := feature.value;
      match Choice(cfg, s, f)
      case None =>
        MembersSplit(parts, [[f]]);
        MembersOne([f]);
      case Some(k) =>
        MembersSet(parts, k, parts[k] + [f]);
        Grown(Members(parts), Members(parts[k := parts[k] + [f]]), parts[k], f);
    }
  }

  lemma Grown(before: multiset<Vec>, after: multiset<Vec>, p: seq<Vec>, f: Vec)
    requires after + multiset(p) == before + multiset(p + [f])
    ensures after == before + multiset{f}
  {
    assert multiset(p + [f]) == multiset(p) + multiset{f};
    forall v ensures after[v] == (before + multiset{f})[v] {
      assert (after + multiset(p))[v] == (before + multiset(p + [f]))[v];
    }
  }

  ghost function Gained(s: Clusters, feature: Option<Vec>, hint: string): multiset<Vec> {
    if hint != "" then multiset{}
    else if feature.Some? then multiset{feature.value}
    else if |s.centroids| == 0 then multiset{ZERO}
    else multiset{}
  }

  ghost function Repeat(v: Vec, n: nat): multiset<Vec> {
    multiset{}[v := n]
  }

  function Limit(cfg: Config): int {
    if cfg.maxSpeakers >= 1 then cfg.maxSpeakers else 1
  }

  ghost predicate Balanced(cfg: Config, t: Tracked) {
    && Conserving(t.s, t.parts)
    && Members(t.parts) + t.lost == t.absorbed + Repeat(ZERO, t.standIns)
    && (t.lost == multiset{} <==> t.aliased == 0)
    && t.emptied <= t.aliased
    && t.standIns <= t.emptied + (if |t.parts| > 0 then 1 else 0)
    && |t.parts| <= Limit(cfg)
  }

  /** Conservation over every run: the classes, and the features lost, partition exactly the absorbed
      features plus the stand-ins; every centroid is the mean of its class; the clusters stay within the
      limit. Nothing is lost exactly when no merge named one cluster twice, and there is at most one
      stand-in more than there were merges that left no cluster. */
  lemma {:induction false} RunConserves(cfg: Config, ops: seq<Op>)
    ensures Balanced(cfg, Run(cfg, ops))
    ensures var t := Run(cfg, ops);
            && CountSum(t.s.counts) + |t.lost| == |t.absorbed| + t.standIns
            && (t.aliased == 0 ==> t.standIns <= 1 && CountSum(t.s.counts) == |t.absorbed| + t.standIns)
  {
    if |ops| > 0 {
      var before := ops[..|ops| - 1];
      RunConserves(cfg, before);
      TrackBalanced(cfg, Run(cfg, before), ops[|ops| - 1]);
    }
    BalanceCounted(cfg, Run(cfg, ops));
  }

  lemma BalanceCounted(cfg: Config, t: Tracked)
    requires Balanced(cfg, t)
    ensures CountSum(t.s.counts) + |t.lost| == |t.absorbed| + t.standIns
  {
    MembersCounted(t.s.centroids, t.s.counts, t.parts);
    assert |Members(t.parts) + t.lost| == |t.absorbed + Repeat(ZERO, t.standIns)|;
  }

  lemma TrackBalanced(cfg: Config, t: Tracked, op: Op)
    requires Balanced(cfg, t)
    ensures Balanced(cfg, Track(cfg, t, op))
  {
    match op
    case Assign(feature, hint) => AssignBalanced(cfg, t, feature, hint);
    case Merge(source, target) => MergeBalanced(cfg, t, source, target);
  }

  lemma MergeBalanced(cfg: Config, t: Tracked, source: int, target: int)
    requires Balanced(cfg, t)
    ensures Balanced(cfg, Track(cfg, t, Merge(source, target)))
  {
    var u := Track(cfg, t, Merge(source, target));
    MergeConserves(t.s, t.parts, source, target);
    MergeMembers(t.parts, source, target);
    MergeCounts(t.parts, source, target);
    Reordered(Members(u.parts), Forgotten(t.parts, source, target), t.lost);
    if Aliased(|t.parts|, source, target) {
      var a := Resolve(source, |t.parts|).value;
      assert Faithful(t.s.centroids[a], t.s.counts[a], t.parts[a]);
      assert t.parts[a][0] in u.lost;
    }
  }

  lemma Reordered(a: multiset<Vec>, b: multiset<Vec>, c: multiset<Vec>)
    ensures a + (c + b) == (a + b) + c
  {
  }

  lemma AssignBalanced(cfg: Config, t: Tracked, feature: Option<Vec>, hint: string)
    requires Balanced(cfg, t)
    ensures Balanced(cfg, Track(cfg, t, Assign(feature, hint)))
  {
    var u := Track(cfg, t, Assign(feature, hint));
    AssignConserves(cfg, t.s, t.parts, feature, hint);
    AssignMembers(cfg, t.s, t.parts, feature, hint);
    AssignCounts(cfg, t.s, feature, hint);
    AssignAbsorbs(cfg, t, feature, hint);
    hide Members, Assigned, AssignedParts, Gained, Repeat;
    Extended(Members(t.parts), t.lost, Gained(t.s, feature, hint), t.absorbed + Repeat(ZERO, t.standIns));
  }

  lemma Extended(before: multiset<Vec>, lost: multiset<Vec>, gained: multiset<Vec>, total: multiset<Vec>)
    requires before + lost == total
    ensures before + gained + lost == total + gained
  {
  }

  /** What an assignment absorbs, and the stand-in it may make, is what the classes gain. */
  lemma AssignAbsorbs(cfg: Config, t: Tracked, feature: Option<Vec>, hint: string)
    requires Traced(t)
    ensures var u := Track(cfg, t, Assign(feature, hint));
            u.absorbed + Repeat(ZERO, u.standIns) == t.absorbed + Repeat(ZERO, t.standIns) + Gained(t.s, feature, hint)
  {
    StandInsAdd(t.standIns);
    hide Members, Assigned, AssignedParts, Repeat;
    GainedBalance(t.absorbed, Repeat(ZERO, t.standIns), Gained(t.s, feature, hint));
  }

  lemma GainedBalance(absorbed: multiset<Vec>, standIns: multiset<Vec>, gained: multiset<Vec>)
    ensures absorbed + gained + standIns == absorbed + standIns + gained
    ensures absorbed + (standIns + gained) == absorbed + standIns + gained
    ensures gained == multiset{} ==> absorbed + standIns + gained == absorbed + standIns
  {
  }

  lemma StandInsAdd(n: nat)
    ensures Repeat(ZERO, n + 1) == Repeat(ZERO, n) + multiset{ZERO}
  {
  }

  lemma AssignCounts(cfg: Config, s: Clusters, feature: Option<Vec>, hint: string)
    requires Parallel(s) && |s.centroids| <= Limit(cfg)
    ensures |s.centroids| <= |Assigned(cfg, s, feature, hint).centroids| <= Limit(cfg)
    ensures hint == "" ==> |Assigned(cfg, s, feature, hint).centroids| > 0
  {
  }

  lemma MergeCounts(parts: Parts, source: int, target: int)
    ensures |MergedParts(parts, source, target)| <= |parts|
    ensures |MergedParts(parts, source, target)| == 0 <==>
            |parts| == 0 || (Aliased(|parts|, source, target) && |parts| == 1)
  {
    assert forall p: Parts, k: nat | k < |p| :: |Without(p, k)| == |p| - 1;
    hide Without;
  }

  lemma {:induction false} MembersCounted(centroids: seq<Vec>, counts: seq<nat>, parts: Parts)
    requires |parts| == |centroids| == |counts|
    requires forall i | 0 <= i < |parts| :: Faithful(centroids[i], counts[i], parts[i])
    ensures CountSum(counts) == |Members(parts)|
  {
    if |parts| > 0 {
      var k := |parts| - 1;
      assert Faithful(centroids[k], counts[k], parts[k]);
      MembersCounted(centroids[..k], counts[..k], parts[..k]);
    }
  }

  // ------------------------------------------------------------------ speaker hints

  ghost predicate HintsDense(h: map<string, nat>) {
    && (forall k | k in h :: h[k] < |h|)
    && forall j, k | j in h && k in h && h[j] == h[k] :: j == k
  }

  /** Hints win and are stable: over every run distinct hints have distinct speakers, and nothing a
      run does later, not even a merge, moves a hint to another speaker. */
  lemma {:induction false} HintsStable(cfg: Config, ops: seq<Op>, k: nat)
    requires k <= |ops|
    ensures HintsDense(Run(cfg, ops).s.hints)
    ensures forall h | h in Run(cfg, ops[..k]).s.hints ::
              h in Run(cfg, ops).s.hints && Run(cfg, ops).s.hints[h] == Run(cfg, ops[..k]).s.hints[h]
    decreases |ops|
  {
    if |ops| > 0 {
      var before := ops[..|ops| - 1];
      if k == |ops| {
        assert ops[..k] == ops;
        HintsStable(cfg, before, 0);
      } else {
        assert before[..k] == ops[..k];
        HintsStable(cfg, before, k);
      }
      HintAdded(cfg, Run(cfg, before), ops[|ops| - 1]);
    }
  }

  lemma HintAdded(cfg: Config, t: Tracked, op: Op)
    requires Traced(t) && HintsDense(t.s.hints)
    ensures HintsDense(Track(cfg, t, op).s.hints)
    ensures forall h | h in t.s.hints :: h in Track(cfg, t, op).s.hints && Track(cfg, t, op).s.hints[h] == t.s.hints[h]
  {
    if op.Assign? && op.hint != "" && op.hint !in t.s.hints {
      DenseGrows(t.s.hints, op.hint);
      assert Track(cfg, t, op).s.hints == t.s.hints[op.hint := |t.s.hints|];
    } else {
      HintsKept(cfg, t, op);
    }
  }

  lemma HintsKept(cfg: Config, t: Tracked, op: Op)
    requires Traced(t) && (op.Assign? ==> op.hint == "" || op.hint in t.s.hints)
    ensures Track(cfg, t, op).s.hints == t.s.hints
  {
  }

  lemma DenseGrows(h: map<string, nat>, hint: string)
    requires HintsDense(h) && hint !in h
    ensures HintsDense(h[hint := |h|])
  {
  }

  // ------------------------------------------------------------------ the class

  class SimpleOnlineDiarizer {
    const cfg: Config
    var centroids: seq<Vec>
    var counts: seq<nat>
    var hintMap: map<string, nat>

    ghost function View(): Clusters
      reads this
    {
      Clusters(centroids, counts, hintMap)
    }

    ghost predicate Valid()
      reads this
    {
      Parallel(View()) && Populated(counts)
    }

    constructor (cfg: Config)
      ensures Valid() && View() == Clusters([], [], map[]) && this.cfg == cfg
    {
      this.cfg, centroids, counts, hintMap := cfg, [], [], map[];
    }

    method Assign(feature: Option<Vec>, hint: string, overlap: bool) returns (r: Assignment)
      requires Valid()
      modifies this
      ensures Valid()
      ensures View() == Assigned(cfg, old(View()), feature, hint)
      ensures r == Answer(cfg, old(View()), feature, hint, overlap)
    {
      if hint != "" {
        if hint !in hintMap {
          hintMap := hintMap[hint := |hintMap|];
        }
        return Assignment(hintMap[hint], 1.0, overlap);
      }
      if feature.None? {
        if |centroids| == 0 {
          centroids := centroids + [ZERO];
          counts := counts + [1];
        }
        return Assignment(0, 0.35, overlap);
      }
      var f := feature.value;
      if |centroids| == 0 {
        centroids := centroids + [f];
        counts := counts + [1];
        return Assignment(0, 0.8, overlap);
      }
      var distances := Distances(cfg, f, centroids);
      var index := ArgMin(distances);
      var distance := distances[index];
      if distance > cfg.newClusterDistance && |centroids| < cfg.maxSpeakers {
        centroids := centroids + [f];
        counts := counts + [1];
        index := |centroids| - 1;
        distance := 0.0;
      } else {
        var count := counts[index];
        centroids := centroids[index := centroids[index].Times(count as real).Plus(f).Over((count + 1) as real)];
        counts := counts[index := count + 1];
      }
      r := Assignment(index, Clip(1.0 - distance, 0.2, 0.95), overlap);
    }

    method Merge(source: int, target: int) returns (indexError: bool)
      requires Valid()
      modifies this
      ensures View() == Merged(old(View()), source, target)
      ensures indexError <==>
              source != target && (Resolve(source, old(|counts|)).None? || Resolve(target, old(|counts|)).None?)
      ensures Valid()
    {
      if source == target {
        return false;
      }
      var a, b := Resolve(source, |centroids|), Resolve(target, |centroids|);
      if a.None? || b.None? {
        return true;
      }
      var sourceCount, targetCount := counts[a.value], counts[b.value];
      var mean := Pooled(centroids[a.value], sourceCount, centroids[b.value], targetCount);
      centroids := centroids[b.value := mean];
      counts := counts[b.value := sourceCount + targetCount];
      centroids := Without(centroids, a.value);
      counts := Without(counts, a.value);
      indexError := false;
    }
  }
}
