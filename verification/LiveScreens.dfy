/** A browser that hears of the runtime through a subscription (web/api.py: event_socket; app.js:
    connectEvents): it subscribes past its cursor and applies every event it is sent. */
module LiveScreens {
  import opened EventStore
  import opened Timeline
  import opened Runtime
  import opened RuntimeInvariants
  import opened RuntimeReplay

  // ------------------------------------------------------------------ what a gap-free subscription sends

  /** An increasing list is told by its members. */
  lemma {:induction false} IncreasingUnique(a: seq<Row>, b: seq<Row>)
    requires Increasing(a) && Increasing(b) && forall r :: r in a <==> r in b
    ensures a == b
  {
    assert (|a| > 0 ==> a[0] in a) && (|b| > 0 ==> b[0] in b);
    if |a| > 0 && |b| > 0 {
      SameLast(a, b);
      var m, n := |a| - 1, |b| - 1;
      forall r ensures r in a[..m] <==> r in b[..n] {
        BeforeLast(a, r);
        BeforeLast(b, r);
      }
      IncreasingUnique(a[..m], b[..n]);
      assert a == a[..m] + [a[m]] && b == b[..n] + [b[n]];
    }
  }

  lemma SameLast(a: seq<Row>, b: seq<Row>)
    requires |a| > 0 && |b| > 0 && Increasing(a) && Increasing(b) && forall r :: r in a <==> r in b
    ensures a[|a| - 1] == b[|b| - 1]
  {
    assert a[|a| - 1] in b && b[|b| - 1] in a;
  }

  lemma BeforeLast(a: seq<Row>, r: Row)
    requires |a| > 0 && Increasing(a)
    ensures r in a[..|a| - 1] <==> r in a && r != a[|a| - 1]
  {
    assert a == a[..|a| - 1] + [a[|a| - 1]];
  }

  /** A subscription misses nothing: the condition of `GapFreeExactly`. */
  ghost predicate GapFree(c: Client, f: Feed) {
    && f.snapAt <= f.regAt <= |f.rows|
    && |Select(f.rows[..f.snapAt], c.session, c.after)| <= REPLAY_LIMIT
    && (forall i | f.snapAt <= i < f.regAt :: f.rows[i].session != c.session)
    && f.dropped == {}
  }

  /** What was sent and what waits is the session's table past the cursor, in order, exactly when the
      subscription misses nothing. The cursor is the number of a row in the table it subscribed to. */
  lemma SentExactly(c: Client, rows: seq<Row>, last: nat, ops: seq<FeedOp>)
    requires Ordered(rows, last) && c.after <= last && FeedRun(c, rows, last, ops).phase.Listening?
    ensures var f := FeedRun(c, rows, last, ops);
            f.delivered + f.phase.queue == Select(f.rows, c.session, c.after) <==> GapFree(c, f)
  {
    var f := FeedRun(c, rows, last, ops);
    RunAccounted(c, rows, last, ops);
    GapFreeExactly(c, rows, last, ops);
    GotIncreasing(c, f);
    SelectIncreasing(f.rows, c.session, c.after);
    forall i | 0 <= i < |f.rows| ensures AskedFor(c, f, i) <==> f.rows[i] in Select(f.rows, c.session, c.after) {
      AskedSelected(c, rows, last, ops, i);
    }
    forall r ensures r in Select(f.rows, c.session, c.after) ==> r in f.rows {
      SelectedExactly(f.rows, c.session, c.after, r);
    }
    if GapFree(c, f) {
      forall r | r in f.delivered + f.phase.queue ensures r in Select(f.rows, c.session, c.after) {
        var i := SentStored(c, f, r);
        GotExactly(c, f, i);
      }
      IncreasingUnique(f.delivered + f.phase.queue, Select(f.rows, c.session, c.after));
    }
  }

  /** Whatever is sent was stored. */
  lemma SentStored(c: Client, f: Feed, r: Row) returns (i: nat)
    requires Accounted(c, f) && f.phase.Listening? && r in f.delivered + f.phase.queue
    ensures i < |f.rows| && f.rows[i] == r
  {
    ReplayFacts(c, f);
    KeptExactly(f.rows[f.regAt..], c.session, f.dropped, r);
    assert r in f.rows[..f.snapAt] || r in f.rows[f.regAt..];
    i :| 0 <= i < |f.rows| && f.rows[i] == r;
  }

  /** Rows stored after a subscription began lie past its cursor. */
  lemma {:induction false} LaterPast(c: Client, rows: seq<Row>, last: nat, ops: seq<FeedOp>)
    requires Ordered(rows, last)
    ensures var f := FeedRun(c, rows, last, ops);
            && f.last >= last
            && (f.phase.NotStarted? ==> f.snapAt == 0)
            && (!f.phase.NotStarted? ==>
                  f.snapAt <= |f.rows| && forall i | f.snapAt <= i < |f.rows| :: f.rows[i].sequence > last)
  {
    if |ops| > 0 {
      LaterPast(c, rows, last, ops[..|ops| - 1]);
    }
  }

  lemma AskedSelected(c: Client, rows: seq<Row>, last: nat, ops: seq<FeedOp>, i: nat)
    requires Ordered(rows, last) && c.after <= last && FeedRun(c, rows, last, ops).phase.Listening?
    requires i < |FeedRun(c, rows, last, ops).rows|
    ensures var f := FeedRun(c, rows, last, ops);
            AskedFor(c, f, i) <==> f.rows[i] in Select(f.rows, c.session, c.after)
  {
    var f := FeedRun(c, rows, last, ops);
    LaterPast(c, rows, last, ops);
    SelectedExactly(f.rows, c.session, c.after, f.rows[i]);
  }

  // ------------------------------------------------------------------ the screen behind it

  /** Reading the JSON text of a row back. */
  type Parse = Row -> Event

  /** The rows of one session are the log. */
  ghost predicate Carry(parse: Parse, rows: seq<Row>, log: seq<Event>) {
    |rows| == |log| && forall i | 0 <= i < |rows| :: parse(rows[i]) == log[i] && rows[i].sequence == log[i].sequence
  }

  function Parsed(parse: Parse, rows: seq<Row>): seq<Event> {
    seq(|rows|, i requires 0 <= i < |rows| => parse(rows[i]))
  }

  /** The events are applied in the order in which they arrive. */
  function Fed(b: Browser, events: seq<Event>): Browser {
    if |events| == 0 then b else ApplyEvent(Fed(b, events[..|events| - 1]), events[|events| - 1])
  }

  lemma {:induction false} FedOn(history: seq<Event>, more: seq<Event>)
    ensures Fed(Watch(history), more) == Watch(history + more)
  {
    if |more| == 0 {
      assert history + more == history;
    } else {
      FedOn(history, more[..|more| - 1]);
      assert (history + more)[..|history + more| - 1] == history + more[..|more| - 1];
    }
  }

  /** The session's rows past the last event of `history` carry what came after it. */
  lemma PastHistory(parse: Parse, rows: seq<Row>, last: nat, session: string, log: seq<Event>, n: nat)
    requires Ordered(rows, last) && Numbered(log) && n <= |log| && Carry(parse, Select(rows, session, 0), log)
    ensures Select(rows, session, LastSequence(log[..n])) == Select(rows, session, 0)[n..]
  {
    var own, past := Select(rows, session, 0), Select(rows, session, LastSequence(log[..n]));
    SelectIncreasing(rows, session, 0);
    SelectIncreasing(rows, session, LastSequence(log[..n]));
    forall r ensures r in past <==> r in own[n..] {
      SelectedExactly(rows, session, 0, r);
      SelectedExactly(rows, session, LastSequence(log[..n]), r);
      PastIndex(parse, own, log, n, r);
    }
    IncreasingUnique(past, own[n..]);
  }

  lemma PastIndex(parse: Parse, own: seq<Row>, log: seq<Event>, n: nat, r: Row)
    requires Carry(parse, own, log) && Numbered(log) && n <= |log|
    ensures r in own[n..] <==> r in own && r.sequence > LastSequence(log[..n])
  {
    if r in own {
      var i :| 0 <= i < |own| && own[i] == r;
      assert i >= n ==> own[n..][i - n] == r;
    }
  }

  /** A browser that has applied the events up to its cursor and subscribes past it: once its subscription
      has missed nothing, it shows what it would show had it been given the log itself, up to the events that
      wait in its queue. */
  lemma GapFreeMirrors(c: Client, rows: seq<Row>, last: nat, ops: seq<FeedOp>, parse: Parse, log: seq<Event>, n: nat)
    requires Ordered(rows, last) && FeedRun(c, rows, last, ops).phase.Listening?
    requires Numbered(log) && n <= |log| && c.after == Watch(log[..n]).cursor <= last
    requires Carry(parse, Select(FeedRun(c, rows, last, ops).rows, c.session, 0), log)
    requires GapFree(c, FeedRun(c, rows, last, ops))
    ensures var f := FeedRun(c, rows, last, ops);
            && n + |f.delivered| + |f.phase.queue| == |log|
            && Fed(Watch(log[..n]), Parsed(parse, f.delivered)) == Watch(log[..n + |f.delivered|])
  {
    hide *;
    var f := FeedRun(c, rows, last, ops);
    SentExactly(c, rows, last, ops);
    FeedOrdered(c, rows, last, ops);
    SentWatched(parse, f.rows, f.last, c.session, log, n, f.delivered, f.phase.queue);
  }

  lemma FeedOrdered(c: Client, rows: seq<Row>, last: nat, ops: seq<FeedOp>)
    requires Ordered(rows, last)
    ensures Ordered(FeedRun(c, rows, last, ops).rows, FeedRun(c, rows, last, ops).last)
  {
    RunAccounted(c, rows, last, ops);
  }

  lemma SentWatched(parse: Parse, rows: seq<Row>, last: nat, session: string, log: seq<Event>, n: nat,
                    sent: seq<Row>, waiting: seq<Row>)
    requires Ordered(rows, last) && Numbered(log) && n <= |log| && Carry(parse, Select(rows, session, 0), log)
    requires sent + waiting == Select(rows, session, Watch(log[..n]).cursor)
    ensures n + |sent| + |waiting| == |log|
    ensures Fed(Watch(log[..n]), Parsed(parse, sent)) == Watch(log[..n + |sent|])
  {
    hide *;
    CursorOf(log, n);
    PastHistory(parse, rows, last, session, log, n);
    SentParsed(parse, Select(rows, session, 0), log, n, sent, waiting);
    FedOn(log[..n], Parsed(parse, sent));
    assert log[..n] + Parsed(parse, sent) == log[..n + |sent|];
  }

  lemma CursorOf(log: seq<Event>, n: nat)
    requires Numbered(log) && n <= |log|
    ensures Watch(log[..n]).cursor == LastSequence(log[..n])
  {
    BrowserKeepsLatest(log[..n]);
  }

  lemma SentParsed(parse: Parse, own: seq<Row>, log: seq<Event>, n: nat, sent: seq<Row>, waiting: seq<Row>)
    requires Carry(parse, own, log) && n <= |log| && sent + waiting == own[n..]
    ensures n + |sent| + |waiting| == |log| && Parsed(parse, sent) == log[n..n + |sent|]
  {
    forall i | 0 <= i < |sent| ensures Parsed(parse, sent)[i] == log[n..n + |sent|][i] {
      assert sent[i] == (sent + waiting)[i] == own[n + i];
    }
  }

  /** So a browser fed by a subscription that misses nothing mirrors the server whenever its queue is empty:
      in map order its final segments are the live transcript, and facts, meeting and state agree. */
  lemma SubscribedMirrors(c: Client, rows: seq<Row>, last: nat, ops: seq<FeedOp>, parse: Parse,
                          steps: seq<Op>, n: nat)
    requires WholeLogRestarts(steps) && n <= |Run(steps).log|
    requires Ordered(rows, last) && FeedRun(c, rows, last, ops).phase == Listening([])
    requires c.after == Watch(Run(steps).log[..n]).cursor <= last
    requires Carry(parse, Select(FeedRun(c, rows, last, ops).rows, c.session, 0), Run(steps).log)
    requires GapFree(c, FeedRun(c, rows, last, ops))
    ensures var rt := Run(steps);
            var b := Fed(Watch(rt.log[..n]), Parsed(parse, FeedRun(c, rows, last, ops).delivered));
            && Finals(b.segments) == rt.view.transcript
            && b.facts == FactEntries(rt.view.facts)
            && b.meeting == rt.view.meeting
            && b.agentState == rt.agent.machine.state
            && PartialKeys(b.segments) == Owed(rt)
  {
    hide *;
    RunNumbered(steps);
    var log := Run(steps).log;
    GapFreeMirrors(c, rows, last, ops, parse, log, n);
    ReducersAgree(steps);
    assert log[..|log|] == log;
  }

  lemma RunNumbered(steps: seq<Op>)
    requires WholeLogRestarts(steps)
    ensures Numbered(Run(steps).log)
  {
    RunExact(steps);
  }
}
