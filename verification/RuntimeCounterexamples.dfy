/** Runs of the runtime in which it does not keep what its names or comments promise. */
module RuntimeCounterexamples {
  import opened Basics
  import opened Wrappers
  import opened Timeline
  import opened Runtime
  import opened RuntimeInvariants
  import opened RuntimeReplay
  import opened TranscriptOrder

  // ------------------------------------------------------------------ building runs

  /** That a list of operations leads to a state. */
  type Reach = (seq<Op>, Rt) -> bool

  ghost predicate Leads(reach: Reach) {
    forall ops: seq<Op>, rt: Rt, op: Op {:trigger reach(ops + [op], Step(rt, op))}
      | Sane(rt) && reach(ops, rt) && (op == OpRestart ==> |rt.log| <= REBUILD_LIMIT) ::
        reach(ops + [op], Step(rt, op)) && Sane(Step(rt, op))
  }

  ghost function RunsTo(): Reach {
    (ops: seq<Op>, rt: Rt) => rt == Run(ops) && WholeLogRestarts(ops)
  }

  lemma RunsLead()
    ensures Leads(RunsTo()) && RunsTo()([], FIRST)
  {
    forall ops: seq<Op>, rt: Rt, op: Op
      | Sane(rt) && RunsTo()(ops, rt) && (op == OpRestart ==> |rt.log| <= REBUILD_LIMIT)
      ensures RunsTo()(ops + [op], Step(rt, op)) && Sane(Step(rt, op))
    {
      OneMoreOp(ops, op);
    }
    assert Run([]) == FIRST;
  }

  lemma OneMoreOp(ops: seq<Op>, op: Op)
    requires WholeLogRestarts(ops) && (op == OpRestart ==> |Run(ops).log| <= REBUILD_LIMIT)
    ensures Run(ops + [op]) == Step(Run(ops), op) && WholeLogRestarts(ops + [op])
  {
    var more := ops + [op];
    assert more[..|ops|] == ops;
    forall k | 0 <= k < |more| && more[k] == OpRestart ensures |Run(more[..k]).log| <= REBUILD_LIMIT {
      assert more[..k] == ops[..k];
    }
  }

  lemma StepOn(reach: Reach, ops: seq<Op>, rt: Rt, op: Op) returns (more: seq<Op>)
    requires Leads(reach) && Sane(rt) && reach(ops, rt) && (op == OpRestart ==> |rt.log| <= REBUILD_LIMIT)
    ensures reach(more, Step(rt, op)) && Sane(Step(rt, op))
  {
    more := ops + [op];
  }

  /** An injection of this many words suspended at `startMs`. */
  predicate Suspended(i: Injection, startMs: int, words: nat) {
    i.startMs == startMs && i.endMs == startMs + Max(600, words * 160)
  }

  lemma StartFacts(rt: Rt, title: Option<string>, at: int)
    requires !Active(rt)
    ensures var t := StartMeeting(rt, title, at);
            && Active(t) && t.view.transcript == [] && t.nextId == rt.nextId + 1 && t.inflight == rt.inflight
            && t.view.meeting.value.id == rt.nextId && |t.log| <= |rt.log| + 2
            && t.agent.bufferSetting == rt.agent.bufferSetting
  {
  }

  lemma PartialFacts(rt: Rt, text: string, words: seq<string>)
    requires rt.view.meeting.Some? && |words| > 0
    ensures var t := PartialBegun(rt, text, words, "");
            && t.view == rt.view && t.nextId == rt.nextId + 1 && |t.log| == |rt.log| + 1
            && t.agent == rt.agent && rt.nextId in t.inflight
            && t.inflight == rt.inflight[rt.nextId := t.inflight[rt.nextId]]
            && Suspended(t.inflight[rt.nextId], NextStart(rt.view.transcript), |words|)
            && t.inflight[rt.nextId].beganIn == rt.view.meeting.value.id
  {
  }

  /** Another injection begins, in a new meeting if none is active. */
  lemma BeginOn(reach: Reach, ops: seq<Op>, rt: Rt, text: string, words: seq<string>)
    returns (more: seq<Op>, after: Rt, r: nat)
    requires Leads(reach) && Sane(rt) && reach(ops, rt) && |words| > 0
    ensures reach(more, after) && Sane(after) && Active(after) && |after.log| <= |rt.log| + 3
    ensures after.view.transcript == (if Active(rt) then rt.view.transcript else [])
    ensures r >= rt.nextId && after.nextId == r + 1 && r in after.inflight
            && after.inflight == rt.inflight[r := after.inflight[r]]
    ensures Suspended(after.inflight[r], NextStart(after.view.transcript), |words|)
    ensures after.inflight[r].beganIn == after.view.meeting.value.id
            && after.agent.bufferSetting == rt.agent.bufferSetting
  {
    var ready := if Active(rt) then rt else StartMeeting(rt, Some(DEMO_TITLE), 0);
    if !Active(rt) {
      StartFacts(rt, Some(DEMO_TITLE), 0);
    }
    PartialFacts(ready, text, words);
    after, r := PartialBegun(ready, text, words, ""), ready.nextId;
    assert Step(rt, OpInjectBegin(text, words, "", 0)) == after;
    more := StepOn(reach, ops, rt, OpInjectBegin(text, words, "", 0));
  }

  lemma EndOn(reach: Reach, ops: seq<Op>, rt: Rt) returns (more: seq<Op>, after: Rt)
    requires Leads(reach) && Sane(rt) && reach(ops, rt) && rt.view.meeting.Some?
    ensures reach(more, after) && Sane(after) && !Active(after)
    ensures after.inflight == rt.inflight && after.nextId == rt.nextId && after.view.transcript == rt.view.transcript
  {
    after := EndMeeting(rt, 0);
    assert Step(rt, OpEndMeeting(0)) == after;
    more := StepOn(reach, ops, rt, OpEndMeeting(0));
  }

  lemma FinishOn(reach: Reach, ops: seq<Op>, rt: Rt, revision: nat, effects: Effects)
    returns (more: seq<Op>, after: Rt, segment: Segment)
    requires Leads(reach) && Sane(rt) && reach(ops, rt) && revision in rt.inflight
    ensures reach(more, after) && Sane(after)
    ensures after.inflight == rt.inflight - {revision} && after.view.meeting == rt.view.meeting
    ensures after.view.transcript == rt.view.transcript + [segment]
    ensures segment.startMs == rt.inflight[revision].startMs && segment.endMs == rt.inflight[revision].endMs
  {
    FinishAdds(rt, revision, effects);
    after := InjectFinish(rt, revision, effects);
    segment := after.view.transcript[|rt.view.transcript|];
    assert after.view.transcript == after.view.transcript[..|rt.view.transcript|] + [segment];
    assert Step(rt, OpInjectFinish(revision, effects)) == after;
    more := StepOn(reach, ops, rt, OpInjectFinish(revision, effects));
  }

  // ------------------------------------------------------------------ overlapping segments

  lemma TogetherOverlap(t: seq<Segment>)
    requires |t| == 2 && Lasting(t[0]) && Lasting(t[1]) && t[0].startMs == t[1].startMs
    ensures !Apart(t) && !Spaced(t)
  {
    assert Overlap(t[0], t[1]);
  }

  /** Two injections at once give two segments that start together. */
  lemma SegmentsOverlap(text: string, words: seq<string>, effects: Effects) returns (ops: seq<Op>)
    requires |words| > 0
    ensures var t := Run(ops).view.transcript;
            |t| == 2 && t[0].startMs == t[1].startMs == 0 && !Spaced(t) && !Apart(t)
  {
    RunsLead();
    var rt;
    ops, rt := OverlapReached(RunsTo(), text, words, effects);
  }

  lemma OverlapReached(reach: Reach, text: string, words: seq<string>, effects: Effects) returns (ops: seq<Op>, rt: Rt)
    requires Leads(reach) && reach([], FIRST) && |words| > 0
    ensures reach(ops, rt)
    ensures var t := rt.view.transcript; |t| == 2 && t[0].startMs == t[1].startMs == 0 && !Spaced(t) && !Apart(t)
  {
    var a, b, s;
    ops, rt, a := BeginOn(reach, [], FIRST, text, words);
    ops, rt, b := BeginOn(reach, ops, rt, text, words);
    ops, rt, s := FinishOn(reach, ops, rt, a, effects);
    ops, rt, s := FinishOn(reach, ops, rt, b, effects);
    TogetherOverlap(rt.view.transcript);
  }

  /** An injection carried over into the next meeting overlaps that meeting's first segment. */
  lemma CarriedOverlaps(text: string, words: seq<string>, effects: Effects) returns (ops: seq<Op>)
    requires |words| > 0
    ensures var t := Run(ops).view.transcript; |t| == 2 && t[0].startMs == t[1].startMs == 0 && !Apart(t)
  {
    RunsLead();
    var rt;
    ops, rt := CarriedReached(RunsTo(), text, words, effects);
  }

  lemma CarriedReached(reach: Reach, text: string, words: seq<string>, effects: Effects) returns (ops: seq<Op>, rt: Rt)
    requires Leads(reach) && reach([], FIRST) && |words| > 0
    ensures reach(ops, rt)
    ensures var t := rt.view.transcript; |t| == 2 && t[0].startMs == t[1].startMs == 0 && !Apart(t)
  {
    var a, b, s;
    ops, rt, a := BeginOn(reach, [], FIRST, text, words);
    ops, rt := EndOn(reach, ops, rt);
    ops, rt, b := BeginOn(reach, ops, rt, text, words);
    ops, rt, s := FinishOn(reach, ops, rt, b, effects);
    ops, rt, s := FinishOn(reach, ops, rt, a, effects);
    TogetherOverlap(rt.view.transcript);
  }

  /** Carried over behind a long gap, it leaves the transcript out of order without any overlap. */
  lemma ApartUnspaced(text: string, words: seq<string>, effects: Effects) returns (ops: seq<Op>)
    requires |words| > 0
    ensures Apart(Run(ops).view.transcript) && !Spaced(Run(ops).view.transcript)
  {
    RunsLead();
    var rt;
    ops, rt := UnspacedReached(RunsTo(), text, words, effects);
  }

  lemma UnspacedReached(reach: Reach, text: string, words: seq<string>, effects: Effects) returns (ops: seq<Op>, rt: Rt)
    requires Leads(reach) && reach([], FIRST) && |words| > 0
    ensures reach(ops, rt) && Apart(rt.view.transcript) && !Spaced(rt.view.transcript)
  {
    var a, b, s;
    ops, rt, a := BeginOn(reach, [], FIRST, text, words);
    ops, rt, s := FinishOn(reach, ops, rt, a, effects);
    ops, rt, b := BeginOn(reach, ops, rt, text, words);
    ops, rt := EndOn(reach, ops, rt);
    ops, rt, a := BeginOn(reach, ops, rt, text, words);
    ops, rt, s := FinishOn(reach, ops, rt, b, effects);
    ops, rt, s := FinishOn(reach, ops, rt, a, effects);
    Backwards(rt.view.transcript);
  }

  lemma Backwards(t: seq<Segment>)
    requires |t| == 2 && t[1].endMs <= t[0].startMs && t[1].startMs < t[0].endMs
    ensures Apart(t) && !Spaced(t)
  {
    assert t[1].startMs < t[0].endMs + 50;
  }

  // ------------------------------------------------------------------ restarts

  ghost predicate Replays(reach: Reach) {
    forall ops: seq<Op>, rt: Rt {:trigger reach(ops, rt)} | reach(ops, rt) && |rt.log| <= REBUILD_LIMIT ::
        Rebuilt(rt.log) == rt.view
  }

  lemma RunsReplay()
    ensures Replays(RunsTo())
  {
    forall ops: seq<Op>, rt: Rt | RunsTo()(ops, rt) && |rt.log| <= REBUILD_LIMIT ensures Rebuilt(rt.log) == rt.view {
      LiveRefinesReplay(ops);
    }
  }

  /** A restart during an injection leaves its partial segment on the browser's screen, with nothing suspended
      that would replace it. */
  lemma PartialStays(text: string, words: seq<string>) returns (ops: seq<Op>)
    requires |words| > 0
    ensures Run(ops).inflight == map[] && PartialKeys(Watch(Run(ops).log).segments) != {}
  {
    RunsLead();
    RunsReplay();
    var rt, r;
    ops, rt, r := OrphanReached(RunsTo(), text, words);
    ReducersAgree(ops);
    assert r in Owed(rt);
  }

  lemma OrphanReached(reach: Reach, text: string, words: seq<string>) returns (ops: seq<Op>, rt: Rt, r: nat)
    requires Leads(reach) && reach([], FIRST) && |words| > 0
    requires Replays(reach)
    ensures reach(ops, rt) && rt.inflight == map[] && r in Owed(rt)
  {
    ops, rt, r := BeginOn(reach, [], FIRST, text, words);
    var before := rt;
    rt := Restarted(before);
    assert Step(before, OpRestart) == rt;
    ops := StepOn(reach, ops, before, OpRestart);
  }

  lemma {:induction false} OthersOn(reach: Reach, ops: seq<Op>, rt: Rt, n: nat) returns (more: seq<Op>, after: Rt)
    requires Leads(reach) && Sane(rt) && reach(ops, rt)
    ensures reach(more, after) && Sane(after) && |after.log| == |rt.log| + n
    ensures after.view == rt.view && after.agent == rt.agent
    decreases n
  {
    if n == 0 {
      more, after := ops, rt;
    } else {
      more := StepOn(reach, ops, rt, OpOther(""));
      more, after := OthersOn(reach, more, Step(rt, OpOther("")), n - 1);
    }
  }

  /** After 10000 events a meeting that has ended comes back active. */
  lemma EndForgotten() returns (ops: seq<Op>)
    ensures var rt := Run(ops);
            && rt.view.meeting.Some? && !rt.view.meeting.value.active
            && Rebuilt(rt.log).meeting.Some? && Rebuilt(rt.log).meeting.value.active
  {
    RunsLead();
    RunsReplay();
    var rt;
    ops, rt := ForgottenReached(RunsTo());
  }

  lemma ForgottenReached(reach: Reach) returns (ops: seq<Op>, rt: Rt)
    requires Leads(reach) && reach([], FIRST) && Replays(reach)
    ensures reach(ops, rt)
    ensures rt.view.meeting.Some? && !rt.view.meeting.value.active
    ensures Rebuilt(rt.log).meeting.Some? && Rebuilt(rt.log).meeting.value.active
  {
    hide StartMeeting, EndMeeting, Rebuilt;
    StartFacts(FIRST, None, 0);
    rt := StartMeeting(FIRST, None, 0);
    assert Step(FIRST, OpStartMeeting(None, 0)) == rt;
    ops := StepOn(reach, [], FIRST, OpStartMeeting(None, 0));
    ops, rt := OthersOn(reach, ops, rt, REBUILD_LIMIT - |rt.log|);
    var before := rt;
    rt := EndMeeting(before, 0);
    assert Step(before, OpEndMeeting(0)) == rt;
    ops := StepOn(reach, ops, before, OpEndMeeting(0));
    EndFacts(before, 0);
  }

  lemma EndFacts(rt: Rt, at: int)
    requires Active(rt) && |rt.log| == REBUILD_LIMIT
    ensures var t := EndMeeting(rt, at);
            t.view.meeting.Some? && !t.view.meeting.value.active && Rebuilt(t.log) == Rebuilt(rt.log)
  {
    var t := EndMeeting(rt, at);
    assert t.log[..REBUILD_LIMIT] == rt.log;
  }

  // ------------------------------------------------------------------ redelivery

  /** Among 1201 events, the first is applied again when it is delivered again. */
  lemma OldEventAgain() returns (log: seq<Event>)
    ensures Numbered(log) && |log| == KEPT_EVENTS + 1 && ApplyEvent(Watch(log), log[0]) != Watch(log)
  {
    log := seq(KEPT_EVENTS + 1, (i: nat) => Event(i + 1, i + 1, None, Other("")));
    RedeliveryExactly(log, 0);
  }

  /** A meeting that starts and ends: the first event alone gives another projection, though nothing after it
      starts a meeting, ends a segment or finds a fact. */
  lemma EndMatters(m: Meeting, ended: Meeting) returns (log: seq<Event>)
    requires m != ended && m.id == ended.id
    ensures Lineage(log) && |log| == 2 && !Starts(log, 1) && !Adds(log, 1) && Fold(log[..1]) != Fold(log)
  {
    log := [Event(1, 1, None, MeetingStarted(m)), Event(2, 2, None, MeetingEnded(ended))];
    assert log[..1][..0] == [] && log[..2] == log;
    assert Fold(log[..1]) == Projection(Some(m), [], []);
    assert Lineage(log[..0]) && Lineage(log[..1]);
  }
}
