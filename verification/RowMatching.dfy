/** Which row a status statement is about (connectors/excel_roadmap.py: match_row), over real scores. */
module RowMatching {
  import opened Basics
  import opened Wrappers
  import opened Lexicons
  import opened Workbooks

  datatype Query = Query(action: string, owner: string, month: string)

  datatype RowMatch = RowMatch(item: RoadmapItem, score: real)

  /** An owner or a month counts only when both sides name one. */
  function Adjustment(lex: Lexicon, asked: string, found: Option<string>, bonus: real, malus: real): real {
    if asked == "" || found.None? || found.value == "" then 0.0
    else if lex.Normalize(asked) == lex.Normalize(found.value) then bonus
    else -malus
  }

  function Score(lex: Lexicon, q: Query, item: RoadmapItem): real {
    Clip(lex.Similarity(q.action, item.action)
         + Adjustment(lex, q.owner, item.owner, 0.08, 0.05)
         + Adjustment(lex, q.month, item.month, 0.06, 0.03), 0.0, 1.0)
  }

  function Scores(lex: Lexicon, q: Query, items: seq<RoadmapItem>): seq<real> {
    seq(|items|, i requires 0 <= i < |items| => Score(lex, q, items[i]))
  }

  /** The raised LookupError and RuntimeError, or the row's index. */
  datatype Outcome = NoMatch | Ambiguous(first: nat, second: nat) | Chosen(index: nat)

  /** The indices that a stable descending sort puts first and second. */
  function TopTwo(scores: seq<real>): (r: (nat, Option<nat>))
    requires |scores| > 0
    ensures r.0 < |scores| && (r.1.Some? ==> r.1.value < |scores| && r.1.value != r.0)
    ensures r.1.None? <==> |scores| == 1
    ensures forall j | 0 <= j < |scores| :: scores[j] <= scores[r.0]
    ensures r.1.Some? ==> forall j | 0 <= j < |scores| && j != r.0 :: scores[j] <= scores[r.1.value]
  {
    var last := |scores| - 1;
    if last == 0 then (0, None)
    else
      var (first, second) := TopTwo(scores[..last]);
      if scores[last] > scores[first] then (last, Some(first))
      else if second.None? || scores[last] > scores[second.value] then (first, Some(last))
      else (first, second)
  }

  function Decide(scores: seq<real>, threshold: real, margin: real): Outcome {
    if |scores| == 0 then NoMatch
    else
      var (first, second) := TopTwo(scores);
      if scores[first] < threshold then NoMatch
      else if second.Some? && scores[first] - scores[second.value] < margin then Ambiguous(first, second.value)
      else Chosen(first)
  }

  function MatchRow(lex: Lexicon, q: Query, items: seq<RoadmapItem>, threshold: real, margin: real): Outcome {
    Decide(Scores(lex, q, items), threshold, margin)
  }

  const THRESHOLD: real := 0.62
  const MARGIN: real := 0.08

  // ------------------------------------------------------------------ what a score means

  predicate SharesWord(a: string, b: string) {
    exists w | w in Words(a) :: w in Words(b)
  }

  /** The similarity of two texts lies between 0 and 1. It is 1 for texts that normalise to the same words, and
      at most 0.55, below the threshold, for texts that share no word and of which neither contains the other;
      with the same set of words it is at least 0.35. Which text asks plays no part beyond the matcher. */
  lemma SimilarityLaws(lex: Lexicon, a: string, b: string)
    requires 0.0 <= lex.ratio(lex.Normalize(a), lex.Normalize(b)) <= 1.0
    ensures var m, n, text := lex.Normalize(a), lex.Normalize(b), lex.Similarity(a, b);
            && 0.0 <= text <= 1.0
            && (m == n && Words(m) != [] && lex.ratio(m, n) == 1.0 ==> text == 1.0)
            && (!SharesWord(m, n) && !Contains(m, n) && !Contains(n, m) ==> text == lex.ratio(m, n) * 0.55 < THRESHOLD)
            && (Words(m) != [] && (forall w :: w in Words(m) <==> w in Words(n)) ==>
                  text >= lex.ratio(m, n) * 0.55 + 0.35)
            && (lex.ratio(n, m) == lex.ratio(m, n) ==> lex.Similarity(b, a) == text)
  {
    SharedWords(lex.Normalize(a), lex.Normalize(b));
    SharedWords(lex.Normalize(b), lex.Normalize(a));
    SimilarityParts(lex, a, b);
    SimilarityParts(lex, b, a);
    ContainsItself(lex.Normalize(a));
    hide Tokens, Words, Contains, Lexicon.Normalize, Lexicon.Similarity;
  }

  /** The share of the words of both that is common to them. */
  function Tokens(m: string, n: string): real {
    var a, b := set w | w in Words(m), set w | w in Words(n);
    |a * b| as real / (if |a + b| >= 1 then |a + b| else 1) as real
  }

  lemma SimilarityParts(lex: Lexicon, a: string, b: string)
    ensures var m, n := lex.Normalize(a), lex.Normalize(b);
            lex.Similarity(a, b) == lex.ratio(m, n) * 0.55 + Tokens(m, n) * 0.35
                                    + (if Contains(m, n) || Contains(n, m) then 0.10 else 0.0)
  {
    hide Contains, Words, Lexicon.Normalize;
  }

  lemma ContainsItself(s: string)
    ensures Contains(s, s)
  {
    assert s <= s[0..];
  }

  lemma SharedWords(m: string, n: string)
    ensures 0.0 <= Tokens(m, n) <= 1.0 && Tokens(m, n) == Tokens(n, m)
    ensures !SharesWord(m, n) ==> Tokens(m, n) == 0.0
    ensures Words(m) != [] && (forall w :: w in Words(m) <==> w in Words(n)) ==> Tokens(m, n) == 1.0
  {
    var left, right := set w | w in Words(m), set w | w in Words(n);
    Overlapping(left, right);
    Share(|left * right|, if |left + right| >= 1 then |left + right| else 1);
    assert left * right == right * left && left + right == right + left;
    if !SharesWord(m, n) {
      assert left * right == {};
    }
    if Words(m) != [] && forall w :: w in Words(m) <==> w in Words(n) {
      assert left == right && Words(m)[0] in left;
    }
  }

  lemma Share(x: nat, y: nat)
    requires x <= y && y >= 1
    ensures 0.0 <= x as real / y as real <= 1.0
    ensures x == y ==> x as real / y as real == 1.0
    ensures x == 0 ==> x as real / y as real == 0.0
  {
  }

  lemma Overlapping(a: set<string>, b: set<string>)
    ensures |a * b| <= |a + b|
    ensures a == b && a != {} ==> |a * b| == |a + b| > 0
  {
    assert a + b == (a * b) + ((a - b) + (b - a));
    assert |a + b| == |a * b| + |(a - b) + (b - a)|;
    if a == b {
      assert a * b == a == a + b;
    }
  }

  /** Both the request and the row name the attribute. */
  predicate BothName(asked: string, found: Option<string>) {
    asked != "" && found.Some? && found.value != ""
  }

  /** They name the same, and not the same. */
  predicate Agrees(lex: Lexicon, asked: string, found: Option<string>) {
    BothName(asked, found) && lex.Normalize(asked) == lex.Normalize(found.value)
  }

  predicate Differs(lex: Lexicon, asked: string, found: Option<string>) {
    BothName(asked, found) && lex.Normalize(asked) != lex.Normalize(found.value)
  }

  /** Without an attribute that differs a row scores no less than its text does, without one that agrees no
      more, and with neither just as much. */
  lemma AttributesCount(lex: Lexicon, q: Query, item: RoadmapItem)
    requires 0.0 <= lex.Similarity(q.action, item.action) <= 1.0
    ensures var text, score := lex.Similarity(q.action, item.action), Score(lex, q, item);
            var agree := Agrees(lex, q.owner, item.owner) || Agrees(lex, q.month, item.month);
            var differ := Differs(lex, q.owner, item.owner) || Differs(lex, q.month, item.month);
            && 0.0 <= score <= 1.0
            && (!differ ==> score >= text) && (!agree ==> score <= text)
            && (agree && !differ && text < 1.0 ==> score > text)
            && (differ && !agree && text > 0.0 ==> score < text)
  {
    hide Lexicon.Similarity, Lexicon.Normalize;
  }

  /** Of two rows that differ only in their owner, the one whose owner is asked for never scores lower, and 0.13
      higher where neither score is cut off; a row without an owner lies between them. */
  lemma OwnerDecides(lex: Lexicon, q: Query, item: RoadmapItem, mine: string, other: string)
    requires Agrees(lex, q.owner, Some(mine)) && Differs(lex, q.owner, Some(other))
    ensures var a, b := Score(lex, q, item.(owner := Some(mine))), Score(lex, q, item.(owner := Some(other)));
            var c := Score(lex, q, item.(owner := None));
            && a >= c >= b && (0.0 < b && a < 1.0 ==> a == b + 0.13 && c == b + 0.05)
  {
    hide Lexicon.Similarity, Lexicon.Normalize;
  }

  /** The same of the month, by 0.09. */
  lemma MonthDecides(lex: Lexicon, q: Query, item: RoadmapItem, mine: string, other: string)
    requires Agrees(lex, q.month, Some(mine)) && Differs(lex, q.month, Some(other))
    ensures var a, b := Score(lex, q, item.(month := Some(mine))), Score(lex, q, item.(month := Some(other)));
            var c := Score(lex, q, item.(month := None));
            && a >= c >= b && (0.0 < b && a < 1.0 ==> a == b + 0.09 && c == b + 0.03)
  {
    hide Lexicon.Similarity, Lexicon.Normalize;
  }

  // ------------------------------------------------------------------ what a decision means

  /** `k` reaches the threshold and beats every other by the margin. */
  ghost predicate Clear(scores: seq<real>, k: nat, threshold: real, margin: real) {
    k < |scores| && scores[k] >= threshold && forall j | 0 <= j < |scores| && j != k :: scores[k] - scores[j] >= margin
  }

  ghost predicate Hopeless(scores: seq<real>, threshold: real) {
    forall j | 0 <= j < |scores| :: scores[j] < threshold
  }

  /** The decision without any sorting: the row returned is the one that reaches the threshold and beats
      every other by the margin; there is none when all miss the threshold; anything else is ambiguous. */
  lemma DecideMeaning(scores: seq<real>, threshold: real, margin: real, k: nat)
    requires margin > 0.0
    ensures Decide(scores, threshold, margin) == Chosen(k) <==> Clear(scores, k, threshold, margin)
    ensures Decide(scores, threshold, margin) == NoMatch <==> Hopeless(scores, threshold)
  {
    if |scores| > 0 {
      var (first, second) := TopTwo(scores);
      assert second.None? ==> |scores| == 1;
      assert k < |scores| ==> scores[k] <= scores[first];
    }
  }

  // ------------------------------------------------------------------ order does not matter

  lemma {:induction false} CountIndex<T>(s: seq<T>, x: T)
    ensures x in multiset(s) <==> exists i | 0 <= i < |s| :: s[i] == x
    ensures multiset(s)[x] >= 2 ==> exists i, j | 0 <= i < j < |s| :: s[i] == x && s[j] == x
    ensures (exists i, j | 0 <= i < j < |s| :: s[i] == x && s[j] == x) ==> multiset(s)[x] >= 2
  {
    if |s| > 0 {
      var last := |s| - 1;
      assert s == s[..last] + [s[last]];
      CountIndex(s[..last], x);
      if multiset(s)[x] >= 2 {
        if multiset(s[..last])[x] >= 2 {
          var i, j :| 0 <= i < j < last && s[..last][i] == x && s[..last][j] == x;
          assert s[i] == x && s[j] == x;
        } else {
          assert x in multiset(s[..last]) && s[last] == x;
          var i :| 0 <= i < last && s[..last][i] == x;
          assert s[i] == x && s[last] == x;
        }
      }
      if exists i, j | 0 <= i < j < |s| :: s[i] == x && s[j] == x {
        var i, j :| 0 <= i < j < |s| && s[i] == x && s[j] == x;
        assert s[..last][i] == x;
        if j < last {
          assert s[..last][j] == x;
        } else {
          assert x in multiset(s[..last]);
        }
      }
    }
  }

  /** An element that beats every other by a margin does so in every order. */
  lemma BestTravels<T>(f: T -> real, xs: seq<T>, ys: seq<T>, k: nat, margin: real) returns (m: nat)
    requires multiset(xs) == multiset(ys) && k < |xs|
    requires forall j | 0 <= j < |xs| && j != k :: f(xs[k]) - f(xs[j]) >= margin
    ensures m < |ys| && ys[m] == xs[k]
    ensures forall j | 0 <= j < |ys| && j != m :: f(ys[m]) - f(ys[j]) >= margin
  {
    var x := xs[k];
    CountIndex(xs, x);
    CountIndex(ys, x);
    m :| 0 <= m < |ys| && ys[m] == x;
    forall j | 0 <= j < |ys| && j != m ensures f(x) - f(ys[j]) >= margin {
      BeatenTravels(f, xs, ys, k, margin, m, j);
    }
  }

  lemma BeatenTravels<T>(f: T -> real, xs: seq<T>, ys: seq<T>, k: nat, margin: real, m: nat, j: nat)
    requires multiset(xs) == multiset(ys) && k < |xs|
    requires forall i | 0 <= i < |xs| && i != k :: f(xs[k]) - f(xs[i]) >= margin
    requires m < |ys| && ys[m] == xs[k] && j < |ys| && j != m
    ensures f(xs[k]) - f(ys[j]) >= margin
  {
    var x, y := xs[k], ys[j];
    CountIndex(xs, y);
    CountIndex(ys, y);
    if y == x {
      var lo, hi := if j < m then j else m, if j < m then m else j;
      assert ys[lo] == x && ys[hi] == x;
      var a, b :| 0 <= a < b < |xs| && xs[a] == x && xs[b] == x;
      assert f(xs[k]) - f(xs[if a == k then b else a]) >= margin;
    } else {
      var i :| 0 <= i < |xs| && xs[i] == y;
      assert f(xs[k]) - f(xs[i]) >= margin;
    }
  }

  function Scorer(lex: Lexicon, q: Query): RoadmapItem -> real {
    (item: RoadmapItem) => Score(lex, q, item)
  }

  /** Being clear, said of the rows. */
  lemma ClearRows(lex: Lexicon, q: Query, items: seq<RoadmapItem>, k: nat, threshold: real, margin: real)
    ensures Clear(Scores(lex, q, items), k, threshold, margin) <==>
            && k < |items| && Scorer(lex, q)(items[k]) >= threshold
            && forall j | 0 <= j < |items| && j != k :: Scorer(lex, q)(items[k]) - Scorer(lex, q)(items[j]) >= margin
  {
    var scores := Scores(lex, q, items);
    assert forall j | 0 <= j < |items| :: scores[j] == Scorer(lex, q)(items[j]);
  }

  lemma ClearTravels(lex: Lexicon, q: Query, items: seq<RoadmapItem>, shuffled: seq<RoadmapItem>, k: nat,
                     threshold: real, margin: real)
    requires margin > 0.0 && multiset(items) == multiset(shuffled)
    requires Clear(Scores(lex, q, items), k, threshold, margin)
    ensures exists m | 0 <= m < |shuffled| ::
            shuffled[m] == items[k] && Clear(Scores(lex, q, shuffled), m, threshold, margin)
  {
    ClearRows(lex, q, items, k, threshold, margin);
    var m := BestTravels(Scorer(lex, q), items, shuffled, k, margin);
    ClearRows(lex, q, shuffled, m, threshold, margin);
  }

  lemma HopelessTravels(lex: Lexicon, q: Query, items: seq<RoadmapItem>, shuffled: seq<RoadmapItem>, threshold: real)
    requires multiset(items) == multiset(shuffled) && Hopeless(Scores(lex, q, items), threshold)
    ensures Hopeless(Scores(lex, q, shuffled), threshold)
  {
    forall j | 0 <= j < |shuffled| ensures Score(lex, q, shuffled[j]) < threshold {
      CountIndex(items, shuffled[j]);
      CountIndex(shuffled, shuffled[j]);
      var i :| 0 <= i < |items| && items[i] == shuffled[j];
      assert Scores(lex, q, items)[i] < threshold;
    }
  }

  /** The chosen row, if one is chosen. */
  function Picked(items: seq<RoadmapItem>, o: Outcome): Option<RoadmapItem> {
    if o.Chosen? && o.index < |items| then Some(items[o.index]) else None
  }

  lemma PickedTravels(lex: Lexicon, q: Query, items: seq<RoadmapItem>, shuffled: seq<RoadmapItem>, threshold: real,
                      margin: real)
    requires margin > 0.0 && multiset(items) == multiset(shuffled)
    requires MatchRow(lex, q, items, threshold, margin).Chosen?
    ensures MatchRow(lex, q, shuffled, threshold, margin).Chosen?
    ensures Picked(shuffled, MatchRow(lex, q, shuffled, threshold, margin))
            == Picked(items, MatchRow(lex, q, items, threshold, margin))
  {
    var k := MatchRow(lex, q, items, threshold, margin).index;
    DecideMeaning(Scores(lex, q, items), threshold, margin, k);
    ClearTravels(lex, q, items, shuffled, k, threshold, margin);
    var m :| 0 <= m < |shuffled| && shuffled[m] == items[k] && Clear(Scores(lex, q, shuffled), m, threshold, margin);
    DecideMeaning(Scores(lex, q, shuffled), threshold, margin, m);
  }

  /** The order of the rows decides nothing: under any permutation the same row is returned, or the call
      fails the same way, ties made by clamping at 1 included. */
  lemma OrderIrrelevant(lex: Lexicon, q: Query, items: seq<RoadmapItem>, shuffled: seq<RoadmapItem>, threshold: real,
                        margin: real)
    requires margin > 0.0 && multiset(items) == multiset(shuffled)
    ensures var o, p := MatchRow(lex, q, items, threshold, margin), MatchRow(lex, q, shuffled, threshold, margin);
            && o.NoMatch? == p.NoMatch? && o.Ambiguous? == p.Ambiguous? && o.Chosen? == p.Chosen?
            && Picked(items, o) == Picked(shuffled, p)
  {
    var o, p := MatchRow(lex, q, items, threshold, margin), MatchRow(lex, q, shuffled, threshold, margin);
    if o.Chosen? {
      PickedTravels(lex, q, items, shuffled, threshold, margin);
    }
    if p.Chosen? {
      PickedTravels(lex, q, shuffled, items, threshold, margin);
    }
    DecideMeaning(Scores(lex, q, items), threshold, margin, 0);
    DecideMeaning(Scores(lex, q, shuffled), threshold, margin, 0);
    if o.NoMatch? {
      HopelessTravels(lex, q, items, shuffled, threshold);
    }
    if p.NoMatch? {
      HopelessTravels(lex, q, shuffled, items, threshold);
    }
  }

  // ------------------------------------------------------------------ the match looks at no status

  lemma SameScores(lex: Lexicon, q: Query, items: seq<RoadmapItem>, row: nat, status: RoadmapStatus)
    ensures Scores(lex, q, Restated(items, row, status)) == Scores(lex, q, items)
  {
    var restated := Restated(items, row, status);
    forall i | 0 <= i < |items| ensures Score(lex, q, restated[i]) == Score(lex, q, items[i]) {
      ScoreReads(lex, q, items[i], restated[i]);
    }
  }

  /** What a score depends on. */
  lemma ScoreReads(lex: Lexicon, q: Query, a: RoadmapItem, b: RoadmapItem)
    requires a.action == b.action && a.owner == b.owner && a.month == b.month
    ensures Score(lex, q, a) == Score(lex, q, b)
  {
  }

  /** A row's status and colour play no part in the match. */
  lemma StatusIrrelevant(lex: Lexicon, q: Query, items: seq<RoadmapItem>, row: nat, status: RoadmapStatus,
                         threshold: real,
                         margin: real)
    ensures MatchRow(lex, q, Restated(items, row, status), threshold, margin)
            == MatchRow(lex, q, items, threshold, margin)
  {
    SameScores(lex, q, items, row, status);
  }

  // ------------------------------------------------------------------ the sort

  function Insert(sorted: seq<RowMatch>, m: RowMatch): seq<RowMatch> {
    if |sorted| == 0 then [m]
    else if m.score > sorted[0].score then [m] + sorted
    else [sorted[0]] + Insert(sorted[1..], m)
  }

  ghost predicate Descending(ms: seq<RowMatch>) {
    forall i, j | 0 <= i < j < |ms| :: ms[i].score >= ms[j].score
  }

  /** `sort(key=score, reverse=True)`: descending, equal scores in their old order. */
  function Sorted(matches: seq<RowMatch>): seq<RowMatch> {
    if |matches| == 0 then [] else Insert(Sorted(matches[..|matches| - 1]), matches[|matches| - 1])
  }

  /** The sort permutes its input into descending order. */
  lemma {:induction false} SortedSorts(matches: seq<RowMatch>)
    ensures multiset(Sorted(matches)) == multiset(matches) && Descending(Sorted(matches))
  {
    if |matches| > 0 {
      var front, last := matches[..|matches| - 1], matches[|matches| - 1];
      assert matches == front + [last];
      SortedSorts(front);
      InsertKeeps(Sorted(front), last);
      InsertDescends(Sorted(front), last);
    }
  }

  lemma {:induction false} SortedLength(matches: seq<RowMatch>)
    ensures |Sorted(matches)| == |matches|
  {
    if |matches| > 0 {
      SortedLength(matches[..|matches| - 1]);
      InsertKeeps(Sorted(matches[..|matches| - 1]), matches[|matches| - 1]);
    }
  }

  lemma {:induction false} InsertKeeps(sorted: seq<RowMatch>, m: RowMatch)
    ensures |Insert(sorted, m)| == |sorted| + 1 && multiset(Insert(sorted, m)) == multiset(sorted) + multiset{m}
    ensures forall x | x in Insert(sorted, m) :: x == m || x in sorted
  {
    if |sorted| > 0 {
      assert sorted == [sorted[0]] + sorted[1..];
      InsertKeeps(sorted[1..], m);
    }
  }

  lemma {:induction false} InsertDescends(sorted: seq<RowMatch>, m: RowMatch)
    requires Descending(sorted)
    ensures Descending(Insert(sorted, m))
  {
    if |sorted| > 0 && m.score <= sorted[0].score {
      InsertDescends(sorted[1..], m);
      InsertKeeps(sorted[1..], m);
      var rest := Insert(sorted[1..], m);
      forall j | 0 <= j < |rest| ensures sorted[0].score >= rest[j].score {
        assert rest[j] == m || rest[j] in sorted[1..];
      }
    }
  }

  lemma InsertTop(sorted: seq<RowMatch>, m: RowMatch)
    requires |sorted| > 0
    ensures |Insert(sorted, m)| > 1
    ensures m.score > sorted[0].score ==> Insert(sorted, m)[0] == m && Insert(sorted, m)[1] == sorted[0]
    ensures m.score <= sorted[0].score ==>
              && Insert(sorted, m)[0] == sorted[0]
              && Insert(sorted, m)[1] == if |sorted| == 1 || m.score > sorted[1].score then m else sorted[1]
  {
    if m.score <= sorted[0].score {
      var rest := Insert(sorted[1..], m);
      assert |rest| > 0 && rest[0] == if |sorted| == 1 || m.score > sorted[1].score then m else sorted[1];
    }
  }

  function ScoresOf(matches: seq<RowMatch>): seq<real> {
    seq(|matches|, i requires 0 <= i < |matches| => matches[i].score)
  }

  /** `first` and `second` are what a sorted list of the matches begins with. */
  ghost predicate Begins(sorted: seq<RowMatch>, matches: seq<RowMatch>, top: (nat, Option<nat>)) {
    && |sorted| == |matches| > 0 && top.0 < |matches| && sorted[0] == matches[top.0]
    && (top.1.None? <==> |matches| == 1)
    && (top.1.Some? ==> top.1.value < |matches| && sorted[1] == matches[top.1.value])
  }

  lemma InsertBegins(sorted: seq<RowMatch>, front: seq<RowMatch>, m: RowMatch)
    requires |front| > 0 && Begins(sorted, front, TopTwo(ScoresOf(front)))
    ensures Begins(Insert(sorted, m), front + [m], TopTwo(ScoresOf(front + [m])))
  {
    var matches := front + [m];
    assert ScoresOf(matches)[..|front|] == ScoresOf(front);
    InsertTop(sorted, m);
    InsertKeeps(sorted, m);
  }

  /** The sort's first two elements are the ones `TopTwo` names. */
  lemma {:induction false} SortedTop(matches: seq<RowMatch>)
    requires |matches| > 0
    ensures Begins(Sorted(matches), matches, TopTwo(ScoresOf(matches)))
  {
    var last := |matches| - 1;
    var front := matches[..last];
    if last == 0 {
      assert Sorted(front) == [] && matches == [matches[0]];
    } else {
      SortedTop(front);
      InsertBegins(Sorted(front), front, matches[last]);
      assert front + [matches[last]] == matches;
    }
  }

  method ScoreRows(lex: Lexicon, q: Query, items: seq<RoadmapItem>) returns (scored: seq<RowMatch>)
    ensures |scored| == |items|
    ensures forall i | 0 <= i < |items| :: scored[i] == RowMatch(items[i], Score(lex, q, items[i]))
  {
    scored := [];
    for k := 0 to |items|
      invariant |scored| == k
      invariant forall i | 0 <= i < k :: scored[i] == RowMatch(items[i], Score(lex, q, items[i]))
    {
      var score := ScoreRow(lex, q, items[k]);
      scored := scored + [RowMatch(items[k], score)];
    }
  }

  method ScoreRow(lex: Lexicon, q: Query, item: RoadmapItem) returns (score: real)
    ensures score == Score(lex, q, item)
  {
    score := lex.Similarity(q.action, item.action);
    if q.owner != "" && item.owner.Some? && item.owner.value != "" {
      score := score + if lex.Normalize(q.owner) == lex.Normalize(item.owner.value) then 0.08 else -0.05;
    }
    if q.month != "" && item.month.Some? && item.month.value != "" {
      score := score + if lex.Normalize(q.month) == lex.Normalize(item.month.value) then 0.06 else -0.03;
    }
    score := Clip(score, 0.0, 1.0);
  }

  /** LookupError, or RuntimeError naming the two rows. */
  datatype MatchError = NotFound | TooClose(first: RowMatch, second: RowMatch)

  /** `match_row` as the connector runs it: score, sort in place, look at the first two. */
  method MatchRowBySorting(lex: Lexicon, q: Query, items: seq<RoadmapItem>, threshold: real, margin: real)
    returns (r: Result<RowMatch, MatchError>)
    ensures match MatchRow(lex, q, items, threshold, margin)
            case NoMatch => r == Err(NotFound)
            case Ambiguous(i, j) =>
              i < |items| && j < |items|
              && r == Err(TooClose(RowMatch(items[i], Score(lex, q, items[i])),
                                   RowMatch(items[j], Score(lex, q, items[j]))))
            case Chosen(k) => k < |items| && r == Ok(RowMatch(items[k], Score(lex, q, items[k])))
  {
    var scored := ScoreRows(lex, q, items);
    assert ScoresOf(scored) == Scores(lex, q, items);
    SortedLength(scored);
    if |scored| > 0 {
      SortedTop(scored);
    }
    scored := Sorted(scored);
    if |scored| == 0 || scored[0].score < threshold {
      return Err(NotFound);
    }
    if |scored| > 1 && scored[0].score - scored[1].score < margin {
      return Err(TooClose(scored[0], scored[1]));
    }
    r := Ok(scored[0]);
  }
}
