/** The append-only timeline and its in-process fan-out (application/event_store.py). */
module EventStore {
  import opened Wrappers

  datatype Row = Row(sequence: nat, id: nat, session: string, body: string)

  const REPLAY_LIMIT: nat := 1000
  const QUEUE_SIZE: nat := 256

  /** Sequence numbers are handed out once, in table order, from 1. */
  ghost predicate Ordered(rows: seq<Row>, last: nat) {
    && (forall i | 0 <= i < |rows| :: 1 <= rows[i].sequence <= last)
    && Increasing(rows)
  }

  ghost predicate Increasing(rows: seq<Row>) {
    forall i, j | 0 <= i < j < |rows| :: rows[i].sequence < rows[j].sequence
  }

  /** The session's rows past the cursor, in table order. */
  function Select(rows: seq<Row>, session: string, after: nat): seq<Row> {
    if |rows| == 0 then []
    else
      var r := rows[|rows| - 1];
      Select(rows[..|rows| - 1], session, after) + if r.session == session && r.sequence > after then [r] else []
  }

  function Take<T>(s: seq<T>, n: nat): seq<T> {
    if |s| <= n then s else s[..n]
  }

  function ListEvents(rows: seq<Row>, session: string, after: nat, limit: nat): seq<Row> {
    Take(Select(rows, session, after), limit)
  }

  /** A list of events is the first of the selection, as many as the limit allows, and all of a shorter one. */
  lemma ListedFirst(rows: seq<Row>, session: string, after: nat, limit: nat)
    ensures var all, listed := Select(rows, session, after), ListEvents(rows, session, after, limit);
            && listed <= all && |listed| <= limit && (|listed| < limit ==> listed == all)
  {
  }

  lemma {:induction false} SelectedExactly(rows: seq<Row>, session: string, after: nat, r: Row)
    ensures r in Select(rows, session, after) <==> r in rows && r.session == session && r.sequence > after
  {
    if |rows| > 0 {
      var last := |rows| - 1;
      assert rows == rows[..last] + [rows[last]];
      SelectedExactly(rows[..last], session, after, r);
    }
  }

  lemma {:induction false} SelectIncreasing(rows: seq<Row>, session: string, after: nat)
    requires Increasing(rows)
    ensures Increasing(Select(rows, session, after))
  {
    if |rows| > 0 {
      SelectIncreasing(rows[..|rows| - 1], session, after);
      forall r | r in Select(rows[..|rows| - 1], session, after)
        ensures r.sequence < rows[|rows| - 1].sequence
      {
        SelectedExactly(rows[..|rows| - 1], session, after, r);
      }
    }
  }

  lemma IncreasingConcat(a: seq<Row>, b: seq<Row>)
    requires Increasing(a) && Increasing(b)
    requires forall i, j | 0 <= i < |a| && 0 <= j < |b| :: a[i].sequence < b[j].sequence
    ensures Increasing(a + b)
  {
  }

  lemma AcrossConcat(a: seq<Row>, b: seq<Row>, i: nat, j: nat)
    requires Increasing(a + b) && i < |a| && j < |b|
    ensures a[i].sequence < b[j].sequence
  {
    assert (a + b)[i] == a[i] && (a + b)[|a| + j] == b[j];
  }

  lemma OrderedAppend(rows: seq<Row>, last: nat, row: Row)
    requires Ordered(rows, last) && row.sequence > last
    ensures Ordered(rows + [row], row.sequence)
  {
    IncreasingConcat(rows, [row]);
  }

  lemma DistinctSequences(rows: seq<Row>, i: nat, j: nat)
    requires Increasing(rows) && i < |rows| && j < |rows| && rows[i].sequence == rows[j].sequence
    ensures i == j
  {
  }

  // ------------------------------------------------------------------ one subscriber

  datatype Client = Client(session: string, after: nat)

  /** Where the `subscribe` generator is suspended. */
  datatype Phase =
    | NotStarted
    | Draining(rest: seq<Row>)
    | Listening(queue: seq<Row>)

  /** `put_nowait`, with QueueFull swallowed. */
  function Offered(queue: seq<Row>, row: Row): seq<Row> {
    if |queue| < QUEUE_SIZE then queue + [row] else queue
  }

  function OfferPhase(c: Client, phase: Phase, row: Row): Phase {
    if phase.Listening? && row.session == c.session then Listening(Offered(phase.queue, row)) else phase
  }

  /** One request for the next event: the new suspension point and what was yielded. A generator that
      yields nothing is waiting on its queue. */
  function PollPhase(c: Client, phase: Phase, rows: seq<Row>): (Phase, Option<Row>) {
    match phase
    case NotStarted => Drained(ListEvents(rows, c.session, c.after, REPLAY_LIMIT))
    case Draining(rest) => Drained(rest)
    case Listening(queue) => if |queue| == 0 then (phase, None) else (Listening(queue[1..]), Some(queue[0]))
  }

  function Drained(rest: seq<Row>): (Phase, Option<Row>) {
    if |rest| == 0 then (Listening([]), None) else (Draining(rest[1..]), Some(rest[0]))
  }

  /** A store with one subscriber and the history the guarantees are stated over: how long the table was
      when the replay was read and when the queue was registered, and what found the queue full. */
  datatype Feed = Feed(rows: seq<Row>, last: nat, phase: Phase, delivered: seq<Row>,
                       snapAt: nat, regAt: nat, dropped: set<nat>)

  /** `gap` is how far other writers moved the AUTOINCREMENT counter in between. */
  datatype FeedOp = Append(id: nat, session: string, body: string, gap: nat) | Poll

  function FeedStep(c: Client, f: Feed, op: FeedOp): Feed {
    match op
    case Append(id, session, body, gap) =>
      var row := Row(f.last + gap + 1, id, session, body);
      f.(rows := f.rows + [row], last := row.sequence, phase := OfferPhase(c, f.phase, row),
         dropped := if f.phase.Listening? && session == c.session && |f.phase.queue| >= QUEUE_SIZE
                    then f.dropped + {row.sequence} else f.dropped)
    case Poll =>
      var (phase, out) := PollPhase(c, f.phase, f.rows);
      f.(phase := phase,
         delivered := if out.Some? then f.delivered + [out.value] else f.delivered,
         snapAt := if f.phase.NotStarted? then |f.rows| else f.snapAt,
         regAt := if phase.Listening? && !f.phase.Listening? then |f.rows| else f.regAt)
  }

  function FeedRun(c: Client, rows: seq<Row>, last: nat, ops: seq<FeedOp>): Feed {
    if |ops| == 0 then Feed(rows, last, NotStarted, [], 0, 0, {})
    else FeedStep(c, FeedRun(c, rows, last, ops[..|ops| - 1]), ops[|ops| - 1])
  }

  function Waiting(f: Feed): seq<Row> {
    match f.phase
    case NotStarted => []
    case Draining(rest) => rest
    case Listening(queue) => queue
  }

  /** The session's rows that found room in the queue. */
  function Kept(rows: seq<Row>, session: string, dropped: set<nat>): seq<Row> {
    if |rows| == 0 then []
    else
      var r := rows[|rows| - 1];
      Kept(rows[..|rows| - 1], session, dropped) + if r.session == session && r.sequence !in dropped then [r] else []
  }

  lemma {:induction false} KeptExactly(rows: seq<Row>, session: string, dropped: set<nat>, r: Row)
    ensures r in Kept(rows, session, dropped) <==> r in rows && r.session == session && r.sequence !in dropped
  {
    if |rows| > 0 {
      var last := |rows| - 1;
      assert rows == rows[..last] + [rows[last]];
      KeptExactly(rows[..last], session, dropped, r);
    }
  }

  lemma {:induction false} KeptIncreasing(rows: seq<Row>, session: string, dropped: set<nat>)
    requires Increasing(rows)
    ensures Increasing(Kept(rows, session, dropped))
  {
    if |rows| > 0 {
      KeptIncreasing(rows[..|rows| - 1], session, dropped);
      forall r | r in Kept(rows[..|rows| - 1], session, dropped)
        ensures r.sequence < rows[|rows| - 1].sequence
      {
        KeptExactly(rows[..|rows| - 1], session, dropped, r);
      }
    }
  }

  /** A drop of a number that no row carries yet changes nothing for the rows already there. */
  lemma {:induction false} KeptSame(rows: seq<Row>, session: string, dropped: set<nat>, number: nat)
    requires forall r | r in rows :: r.sequence != number
    ensures Kept(rows, session, dropped + {number}) == Kept(rows, session, dropped)
  {
    if |rows| > 0 {
      KeptSame(rows[..|rows| - 1], session, dropped, number);
    }
  }

  function Replay(c: Client, f: Feed): seq<Row>
    requires f.snapAt <= |f.rows|
  {
    ListEvents(f.rows[..f.snapAt], c.session, c.after, REPLAY_LIMIT)
  }

  ghost predicate Accounted(c: Client, f: Feed) {
    && Ordered(f.rows, f.last)
    && f.snapAt <= |f.rows|
    && (forall d | d in f.dropped :: 1 <= d <= f.last)
    && match f.phase
       case NotStarted => f.delivered == [] && f.dropped == {}
       case Draining(rest) => f.delivered + rest == Replay(c, f) && f.dropped == {}
       case Listening(queue) =>
         && f.snapAt <= f.regAt <= |f.rows|
         && |queue| <= QUEUE_SIZE
         && f.delivered + queue == Replay(c, f) + Kept(f.rows[f.regAt..], c.session, f.dropped)
         && (forall d | d in f.dropped :: Since(f.rows, f.regAt, d))
  }

  /** A row stored since the registration has this number. */
  ghost predicate Since(rows: seq<Row>, regAt: nat, number: nat) {
    exists i :: regAt <= i < |rows| && rows[i].sequence == number
  }

  lemma PollAccounted(c: Client, f: Feed)
    requires Accounted(c, f)
    ensures Accounted(c, FeedStep(c, f, Poll))
  {
    var g := FeedStep(c, f, Poll);
    assert f.rows[..|f.rows|] == f.rows;
    assert f.rows[|f.rows|..] == [];
    match f.phase
    case NotStarted =>
      var replay := Replay(c, g);
      if |replay| > 0 {
        assert [replay[0]] + replay[1..] == replay;
      }
    case Draining(rest) =>
      if |rest| > 0 {
        assert f.delivered + [rest[0]] + rest[1..] == f.delivered + rest;
      }
    case Listening(queue) =>
      if |queue| > 0 {
        assert f.delivered + [queue[0]] + queue[1..] == f.delivered + queue;
      }
  }

  lemma AppendAccounted(c: Client, f: Feed, op: FeedOp)
    requires Accounted(c, f) && op.Append?
    ensures Accounted(c, FeedStep(c, f, op))
  {
    hide Accounted;
    var row := Row(f.last + op.gap + 1, op.id, op.session, op.body);
    if f.phase.Listening? {
      AppendHeard(c, f, row);
    } else {
      AppendUnheard(c, f, row);
    }
  }

  lemma AppendUnheard(c: Client, f: Feed, row: Row)
    requires Accounted(c, f) && !f.phase.Listening? && row.sequence > f.last
    ensures Accounted(c, f.(rows := f.rows + [row], last := row.sequence))
  {
    OrderedAppend(f.rows, f.last, row);
    hide ListEvents, Ordered;
    assert (f.rows + [row])[..f.snapAt] == f.rows[..f.snapAt];
  }

  lemma AppendHeard(c: Client, f: Feed, row: Row)
    requires Accounted(c, f) && f.phase.Listening? && row.sequence > f.last
    ensures var full := row.session == c.session && |f.phase.queue| >= QUEUE_SIZE;
            Accounted(c, f.(rows := f.rows + [row], last := row.sequence, phase := OfferPhase(c, f.phase, row),
                            dropped := if full then f.dropped + {row.sequence} else f.dropped))
  {
    OrderedAppend(f.rows, f.last, row);
    hide Kept, ListEvents, Ordered, Since;
    assert (f.rows + [row])[..f.snapAt] == f.rows[..f.snapAt];
    QueueAccounted(c, f.delivered, f.phase.queue, Replay(c, f), f.rows, f.regAt, f.dropped, row);
    DropsPlaced(f.rows, f.regAt, f.last, f.dropped, row);
  }

  lemma DropsPlaced(rows: seq<Row>, regAt: nat, last: nat, dropped: set<nat>, row: Row)
    requires regAt <= |rows| && last < row.sequence
    requires forall d | d in dropped :: 1 <= d <= last && Since(rows, regAt, d)
    ensures forall d | d in dropped :: 1 <= d <= row.sequence && Since(rows + [row], regAt, d)
    ensures Since(rows + [row], regAt, row.sequence)
  {
    forall d | d in dropped + {row.sequence} ensures Since(rows + [row], regAt, d) {
      DropPlaced(rows, regAt, row, d);
    }
  }

  lemma QueueAccounted(c: Client, delivered: seq<Row>, queue: seq<Row>, replay: seq<Row>,
                       rows: seq<Row>, regAt: nat, dropped: set<nat>, row: Row)
    requires regAt <= |rows| && forall r | r in rows :: r.sequence != row.sequence
    requires row.sequence !in dropped
    requires delivered + queue == replay + Kept(rows[regAt..], c.session, dropped)
    ensures var full := row.session == c.session && |queue| >= QUEUE_SIZE;
            delivered + (if row.session == c.session then Offered(queue, row) else queue)
              == replay + Kept((rows + [row])[regAt..], c.session, if full then dropped + {row.sequence} else dropped)
  {
    hide Kept;
    var since := rows[regAt..];
    assert (rows + [row])[regAt..] == since + [row];
    KeptAdded(since, row, c.session, dropped);
    KeptAdded(since, row, c.session, dropped + {row.sequence});
    KeptSame(since, c.session, dropped, row.sequence);
    if row.session == c.session && |queue| < QUEUE_SIZE {
      assert delivered + (queue + [row]) == delivered + queue + [row];
    }
  }

  lemma KeptAdded(rows: seq<Row>, row: Row, session: string, dropped: set<nat>)
    ensures Kept(rows + [row], session, dropped)
         == Kept(rows, session, dropped) + if row.session == session && row.sequence !in dropped then [row] else []
  {
    assert (rows + [row])[..|rows|] == rows;
  }

  lemma DropPlaced(rows: seq<Row>, regAt: nat, row: Row, number: nat)
    requires regAt <= |rows| && (number == row.sequence || Since(rows, regAt, number))
    ensures Since(rows + [row], regAt, number)
  {
    if Since(rows, regAt, number) {
      var i :| regAt <= i < |rows| && rows[i].sequence == number;
      assert (rows + [row])[i].sequence == number;
    } else {
      assert (rows + [row])[|rows|].sequence == number;
    }
  }

  lemma {:induction false} RunAccounted(c: Client, rows: seq<Row>, last: nat, ops: seq<FeedOp>)
    requires Ordered(rows, last)
    ensures Accounted(c, FeedRun(c, rows, last, ops))
  {
    if |ops| > 0 {
      RunAccounted(c, rows, last, ops[..|ops| - 1]);
      var f := FeedRun(c, rows, last, ops[..|ops| - 1]);
      match ops[|ops| - 1]
      case Append(_, _, _, _) => AppendAccounted(c, f, ops[|ops| - 1]);
      case Poll => PollAccounted(c, f);
    }
  }

  // ------------------------------------------------------------------ what a subscriber gets

  /** The replay held more than it could carry. */
  ghost predicate Overflowed(c: Client, f: Feed, i: nat)
    requires i < |f.rows| && f.snapAt <= |f.rows|
  {
    i < f.snapAt && f.rows[i].sequence > c.after && f.rows[i] !in Replay(c, f)
  }

  /** Appended after the replay was read and before the queue was registered. */
  ghost predicate Slipped(f: Feed, i: nat) {
    f.snapAt <= i < f.regAt
  }

  /** Appended while the queue was full. */
  ghost predicate FoundFull(f: Feed, i: nat)
    requires i < |f.rows|
  {
    f.regAt <= i && f.rows[i].sequence in f.dropped
  }

  ghost predicate Missed(c: Client, f: Feed, i: nat)
    requires i < |f.rows| && f.snapAt <= |f.rows|
  {
    Overflowed(c, f, i) || Slipped(f, i) || FoundFull(f, i)
  }

  /** Rows behind the cursor when the subscription began are not asked for. */
  ghost predicate AskedFor(c: Client, f: Feed, i: nat)
    requires i < |f.rows|
  {
    f.rows[i].session == c.session && (i < f.snapAt ==> f.rows[i].sequence > c.after)
  }

  /** Exact delivery, over every run: what was yielded and what still waits is strictly increasing, and
      once the queue is registered the rows asked for are split without overlap into yielded, waiting
      and missed, the missed ones being the replay overflow, the slipped and those that found the
      queue full. */
  lemma ExactDelivery(c: Client, rows: seq<Row>, last: nat, ops: seq<FeedOp>)
    requires Ordered(rows, last)
    ensures var f := FeedRun(c, rows, last, ops);
            && f.snapAt <= |f.rows|
            && Increasing(f.delivered + Waiting(f))
            && (f.phase.Draining? ==> f.delivered + f.phase.rest == Replay(c, f))
            && (f.phase.Listening? ==> forall i | 0 <= i < |f.rows| ::
                  && (f.rows[i] in f.delivered || f.rows[i] in f.phase.queue <==> AskedFor(c, f, i) && !Missed(c, f, i))
                  && !(f.rows[i] in f.delivered && f.rows[i] in f.phase.queue))
  {
    RunAccounted(c, rows, last, ops);
    var f := FeedRun(c, rows, last, ops);
    GotIncreasing(c, f);
    if f.phase.Listening? {
      forall i | 0 <= i < |f.rows|
        ensures f.rows[i] in f.delivered || f.rows[i] in f.phase.queue <==> AskedFor(c, f, i) && !Missed(c, f, i)
        ensures !(f.rows[i] in f.delivered && f.rows[i] in f.phase.queue)
      {
        GotExactly(c, f, i);
        GotOnce(f.delivered, f.phase.queue, f.rows[i]);
      }
    }
  }

  lemma GotOnce(a: seq<Row>, b: seq<Row>, r: Row)
    requires Increasing(a + b)
    ensures !(r in a && r in b)
    ensures r in a + b <==> r in a || r in b
  {
    forall i, j | 0 <= i < |a| && 0 <= j < |b|
      ensures a[i] != b[j]
    {
      AcrossConcat(a, b, i, j);
    }
  }

  lemma ReplayFacts(c: Client, f: Feed)
    requires Accounted(c, f)
    ensures Increasing(Replay(c, f))
    ensures forall r | r in Replay(c, f) :: r in f.rows[..f.snapAt] && r.session == c.session && r.sequence > c.after
  {
    var all := Select(f.rows[..f.snapAt], c.session, c.after);
    SelectIncreasing(f.rows[..f.snapAt], c.session, c.after);
    forall r | r in Replay(c, f)
      ensures r in f.rows[..f.snapAt] && r.session == c.session && r.sequence > c.after
    {
      assert r in all;
      SelectedExactly(f.rows[..f.snapAt], c.session, c.after, r);
    }
  }

  lemma GotIncreasing(c: Client, f: Feed)
    requires Accounted(c, f)
    ensures Increasing(f.delivered + Waiting(f))
  {
    ReplayFacts(c, f);
    if f.phase.Listening? {
      var replay, kept := Replay(c, f), Kept(f.rows[f.regAt..], c.session, f.dropped);
      KeptIncreasing(f.rows[f.regAt..], c.session, f.dropped);
      forall i, j | 0 <= i < |replay| && 0 <= j < |kept|
        ensures replay[i].sequence < kept[j].sequence
      {
        assert replay[i] in f.rows[..f.snapAt];
        LateIsLater(c, f, replay[i], kept[j]);
      }
      IncreasingConcat(replay, kept);
    }
  }

  lemma LateIsLater(c: Client, f: Feed, early: Row, late: Row)
    requires Ordered(f.rows, f.last) && f.snapAt <= f.regAt <= |f.rows|
    requires early in f.rows[..f.snapAt] && late in Kept(f.rows[f.regAt..], c.session, f.dropped)
    ensures early.sequence < late.sequence
  {
    var tail := f.rows[f.regAt..];
    KeptExactly(tail, c.session, f.dropped, late);
    var i :| 0 <= i < f.snapAt && f.rows[i] == early;
    var j :| 0 <= j < |tail| && tail[j] == late;
    assert f.rows[f.regAt + j] == late;
  }

  lemma GotExactly(c: Client, f: Feed, i: nat)
    requires Accounted(c, f) && f.phase.Listening? && i < |f.rows|
    ensures f.rows[i] in f.delivered + f.phase.queue <==> AskedFor(c, f, i) && !Missed(c, f, i)
  {
    ReplayFacts(c, f);
    var r, tail := f.rows[i], f.rows[f.regAt..];
    KeptExactly(tail, c.session, f.dropped, r);
    if r in f.rows[..f.snapAt] {
      var k :| 0 <= k < f.snapAt && f.rows[k] == r;
      DistinctSequences(f.rows, i, k);
    }
    if r in tail {
      var k :| 0 <= k < |tail| && tail[k] == r;
      DistinctSequences(f.rows, i, f.regAt + k);
    }
    if i >= f.regAt {
      assert tail[i - f.regAt] == r;
    }
  }

  /** When is a subscription gap-free? Exactly when the replay fitted, nothing of the session slipped in
      before the queue was registered, and the queue was never full. */
  lemma GapFreeExactly(c: Client, rows: seq<Row>, last: nat, ops: seq<FeedOp>)
    requires Ordered(rows, last) && FeedRun(c, rows, last, ops).phase.Listening?
    ensures var f := FeedRun(c, rows, last, ops);
            && f.snapAt <= f.regAt <= |f.rows|
            && ((forall i | 0 <= i < |f.rows| && AskedFor(c, f, i) :: f.rows[i] in f.delivered + f.phase.queue)
                <==>
                && |Select(f.rows[..f.snapAt], c.session, c.after)| <= REPLAY_LIMIT
                && (forall i | f.snapAt <= i < f.regAt :: f.rows[i].session != c.session)
                && f.dropped == {})
  {
    RunAccounted(c, rows, last, ops);
    var f := FeedRun(c, rows, last, ops);
    var all := Select(f.rows[..f.snapAt], c.session, c.after);
    forall i | 0 <= i < |f.rows|
      ensures f.rows[i] in f.delivered + f.phase.queue <==> AskedFor(c, f, i) && !Missed(c, f, i)
    {
      GotExactly(c, f, i);
    }
    if |all| > REPLAY_LIMIT {
      OverflowMissed(c, f);
    } else {
      forall i | 0 <= i < |f.rows| && AskedFor(c, f, i) ensures !Overflowed(c, f, i) {
        SelectedExactly(f.rows[..f.snapAt], c.session, c.after, f.rows[i]);
        if i < f.snapAt {
          assert f.rows[..f.snapAt][i] == f.rows[i];
        }
      }
    }
    if f.dropped != {} {
      var d :| d in f.dropped;
      DroppedIsOurs(c, rows, last, ops, d);
    }
  }

  lemma OverflowMissed(c: Client, f: Feed)
    requires Accounted(c, f) && |Select(f.rows[..f.snapAt], c.session, c.after)| > REPLAY_LIMIT
    ensures exists i | 0 <= i < |f.rows| :: AskedFor(c, f, i) && Overflowed(c, f, i)
  {
    var all := Select(f.rows[..f.snapAt], c.session, c.after);
    var r := all[REPLAY_LIMIT];
    SelectIncreasing(f.rows[..f.snapAt], c.session, c.after);
    SelectedExactly(f.rows[..f.snapAt], c.session, c.after, r);
    var i :| 0 <= i < f.snapAt && f.rows[i] == r;
    assert forall k | 0 <= k < REPLAY_LIMIT :: all[k].sequence < r.sequence;
    assert AskedFor(c, f, i) && Overflowed(c, f, i);
  }

  lemma {:induction false} DroppedIsOurs(c: Client, rows: seq<Row>, last: nat, ops: seq<FeedOp>, d: nat)
    requires Ordered(rows, last)
    requires d in FeedRun(c, rows, last, ops).dropped
    ensures var f := FeedRun(c, rows, last, ops);
            f.phase.Listening? && exists i | f.regAt <= i < |f.rows| ::
                f.rows[i].sequence == d && f.rows[i].session == c.session
  {
    var shorter := ops[..|ops| - 1];
    var f, g := FeedRun(c, rows, last, shorter), FeedRun(c, rows, last, ops);
    RunAccounted(c, rows, last, shorter);
    if d in f.dropped {
      DroppedIsOurs(c, rows, last, shorter, d);
      var i :| f.regAt <= i < |f.rows| && f.rows[i].sequence == d && f.rows[i].session == c.session;
      assert g.rows[i] == f.rows[i];
    } else {
      assert g.rows[|f.rows|].sequence == d;
    }
  }

  /** The comment in `append` says a slow client can replay what it missed from its cursor. A missed row can
      be fetched again exactly as long as no later row has been delivered. So as soon as one event has come
      through the queue, nothing lost to the replay limit or while draining can; and a row that found the
      queue full cannot either, once any later one has come through. */
  lemma ReplayFromCursor(c: Client, rows: seq<Row>, last: nat, ops: seq<FeedOp>, i: nat)
    requires Ordered(rows, last)
    requires var f := FeedRun(c, rows, last, ops); i < |f.rows| && f.snapAt <= |f.rows| && f.delivered != []
    requires var f := FeedRun(c, rows, last, ops); AskedFor(c, f, i) && Missed(c, f, i) && f.phase.Listening?
    ensures var f := FeedRun(c, rows, last, ops);
            var again := Select(f.rows, c.session, f.delivered[|f.delivered| - 1].sequence);
            && (f.rows[i] in again <==> !Overtaken(f, i))
            && (|f.delivered| > |Replay(c, f)| && !FoundFull(f, i) ==> f.rows[i] !in again)
            && (FoundFull(f, i) && (exists j | i < j < |f.rows| :: f.rows[j] in f.delivered) ==> f.rows[i] !in again)
  {
    RunAccounted(c, rows, last, ops);
    MissedUndelivered(c, FeedRun(c, rows, last, ops), i);
    CursorReplay(c, FeedRun(c, rows, last, ops), i);
  }

  lemma MissedUndelivered(c: Client, f: Feed, i: nat)
    requires Accounted(c, f) && f.phase.Listening? && i < |f.rows| && AskedFor(c, f, i) && Missed(c, f, i)
    ensures f.rows[i] !in f.delivered
  {
    GotExactly(c, f, i);
  }

  /** Some later row has been delivered. */
  ghost predicate Overtaken(f: Feed, i: nat)
    requires i < |f.rows|
  {
    exists d | d in f.delivered :: d.sequence > f.rows[i].sequence
  }

  lemma CursorReplay(c: Client, f: Feed, i: nat)
    requires Accounted(c, f) && f.phase.Listening? && i < |f.rows| && f.delivered != []
    requires f.rows[i].session == c.session && f.rows[i] !in f.delivered
    ensures var again := Select(f.rows, c.session, f.delivered[|f.delivered| - 1].sequence);
            && (f.rows[i] in again <==> !Overtaken(f, i))
            && (|f.delivered| > |Replay(c, f)| && i < f.regAt ==> f.rows[i] !in again)
            && ((exists j | i < j < |f.rows| :: f.rows[j] in f.delivered) ==> f.rows[i] !in again)
  {
    var cursor := f.delivered[|f.delivered| - 1];
    SelectedExactly(f.rows, c.session, cursor.sequence, f.rows[i]);
    GotIncreasing(c, f);
    CursorIsLast(f.delivered, f.phase.queue);
    assert cursor in f.delivered;
    if |f.delivered| > |Replay(c, f)| {
      NewestIsLate(c, f);
    }
    assert Overtaken(f, i) <==> cursor.sequence > f.rows[i].sequence;
    DeliveredElsewhere(c, f, i, cursor);
  }

  lemma CursorIsLast(delivered: seq<Row>, queue: seq<Row>)
    requires Increasing(delivered + queue) && delivered != []
    ensures forall d | d in delivered :: d.sequence <= delivered[|delivered| - 1].sequence
  {
    assert forall k | 0 <= k < |delivered| :: (delivered + queue)[k] == delivered[k];
  }

  /** A row of the session that was not delivered has another number than one that was. */
  lemma DeliveredElsewhere(c: Client, f: Feed, i: nat, d: Row)
    requires Accounted(c, f) && f.phase.Listening? && i < |f.rows|
    requires d in f.delivered && f.rows[i] !in f.delivered
    ensures d.sequence != f.rows[i].sequence
  {
    DeliveredStored(c, f, d);
    var j :| 0 <= j < |f.rows| && f.rows[j] == d;
    if d.sequence == f.rows[i].sequence {
      DistinctSequences(f.rows, i, j);
    }
  }

  lemma DeliveredStored(c: Client, f: Feed, d: Row)
    requires Accounted(c, f) && f.phase.Listening? && d in f.delivered
    ensures d in f.rows
  {
    var tail := f.rows[f.regAt..];
    assert d in f.delivered + f.phase.queue;
    if d in Replay(c, f) {
      ReplayFacts(c, f);
    } else {
      KeptExactly(tail, c.session, f.dropped, d);
    }
  }

  /** Once something came through the queue, the cursor is past every row older than the queue. */
  lemma NewestIsLate(c: Client, f: Feed)
    requires Accounted(c, f) && f.phase.Listening? && |f.delivered| > |Replay(c, f)|
    ensures forall i | 0 <= i < f.regAt :: f.rows[i].sequence < f.delivered[|f.delivered| - 1].sequence
  {
    var newest, tail := f.delivered[|f.delivered| - 1], f.rows[f.regAt..];
    var kept := Kept(tail, c.session, f.dropped);
    assert newest == (f.delivered + f.phase.queue)[|f.delivered| - 1];
    assert newest == kept[|f.delivered| - 1 - |Replay(c, f)|];
    KeptExactly(tail, c.session, f.dropped, newest);
    var j :| 0 <= j < |tail| && tail[j] == newest;
    assert f.rows[f.regAt + j] == newest;
  }

  // ------------------------------------------------------------------ the classes

  class EventQueue {
    var items: seq<Row>

    constructor ()
      ensures items == []
    {
      items := [];
    }

    method PutNowait(row: Row) returns (queueFull: bool)
      modifies this
      ensures items == Offered(old(items), row)
      ensures queueFull <==> |old(items)| >= QUEUE_SIZE
    {
      if |items| >= QUEUE_SIZE {
        return true;
      }
      items := items + [row];
      queueFull := false;
    }
  }

  class EventLog {
    var rows: seq<Row>
    var last: nat
    var subscribers: map<string, set<EventQueue>>
    var settings: map<string, string>

    ghost predicate Valid()
      reads this
    {
      Ordered(rows, last)
    }

    function Queues(session: string): set<EventQueue>
      reads this
    {
      if session in subscribers then subscribers[session] else {}
    }

    constructor ()
      ensures Valid() && rows == [] && last == 0 && subscribers == map[] && settings == map[]
    {
      rows, last, subscribers, settings := [], 0, map[], map[];
    }

    /** Every queue of the session is offered the row once; no other queue changes. */
    method Append(id: nat, session: string, body: string) returns (row: Row)
      requires Valid()
      modifies this`rows, this`last, Queues(session)
      ensures Valid()
      ensures row == Row(old(last) + 1, id, session, body)
      ensures rows == old(rows) + [row] && last == row.sequence
      ensures forall q | q in Queues(session) :: q.items == Offered(old(q.items), row)
    {
      last := last + 1;
      row := Row(last, id, session, body);
      OrderedAppend(rows, old(last), row);
      rows := rows + [row];
      var todo := Queues(session);
      while todo != {}
        invariant todo <= Queues(session)
        invariant rows == old(rows) + [row] && last == row.sequence
        invariant forall q | q in todo :: q.items == old(q.items)
        invariant forall q | q in Queues(session) - todo :: q.items == Offered(old(q.items), row)
        decreases todo
      {
        var queue :| queue in todo;
        var _ := queue.PutNowait(row);
        todo := todo - {queue};
      }
    }

    method LatestSequence(session: string) returns (sequence: nat)
      requires Valid()
      ensures forall r | r in rows && r.session == session :: r.sequence <= sequence
      ensures sequence == 0 || exists r | r in rows :: r.session == session && r.sequence == sequence
    {
      sequence := 0;
      for i := 0 to |rows|
        invariant forall k | 0 <= k < i && rows[k].session == session :: rows[k].sequence <= sequence
        invariant sequence == 0 || exists r | r in rows :: r.session == session && r.sequence == sequence
      {
        if rows[i].session == session && rows[i].sequence > sequence {
          sequence := rows[i].sequence;
          assert rows[i] in rows;
        }
      }
    }

    method SetSetting(key: string, value: string)
      modifies this`settings
      ensures settings == old(settings)[key := value]
    {
      settings := settings[key := value];
    }

    method GetSetting(key: string, default: string) returns (value: string)
      ensures value == if key in settings then settings[key] else default
    {
      value := if key in settings then settings[key] else default;
    }
  }

  /** The `subscribe` generator, suspended between two requests. */
  class Subscription {
    const store: EventLog
    const client: Client
    var started: bool
    var rest: seq<Row>
    var queue: EventQueue?

    ghost function View(): Phase
      reads this, queue
    {
      if queue != null then Listening(queue.items)
      else if started then Draining(rest)
      else NotStarted
    }

    constructor (store: EventLog, client: Client)
      ensures View() == NotStarted && this.store == store && this.client == client
    {
      this.store, this.client, started, rest, queue := store, client, false, [], null;
    }

    /** The queue joins the session's queues exactly when the drained generator asks for more. */
    method Next() returns (r: Option<Row>)
      modifies this, store`subscribers, queue
      ensures (View(), r) == PollPhase(client, old(View()), store.rows)
      ensures old(queue) == null && queue != null ==>
              fresh(queue) && store.Queues(client.session) == old(store.Queues(client.session)) + {queue}
      ensures old(queue) != null || queue == null ==> queue == old(queue) && store.subscribers == old(store.subscribers)
    {
      if queue == null {
        if !started {
          rest := ListEvents(store.rows, client.session, client.after, REPLAY_LIMIT);
          started := true;
        }
        if |rest| > 0 {
          r := Some(rest[0]);
          rest := rest[1..];
          return;
        }
        var q := new EventQueue();
        queue := q;
        store.subscribers := store.subscribers[client.session := store.Queues(client.session) + {q}];
        return None;
      }
      if |queue.items| == 0 {
        return None;
      }
      r := Some(queue.items[0]);
      queue.items := queue.items[1..];
    }

    /** The `finally` block: a closed subscription is offered nothing more. */
    method Close()
      requires queue != null
      modifies store`subscribers
      ensures store.Queues(client.session) == old(store.Queues(client.session)) - {queue}
      ensures forall s | s != client.session :: store.Queues(s) == old(store.Queues(s))
    {
      store.subscribers := store.subscribers[client.session := store.Queues(client.session) - {queue}];
    }
  }
}
