/** What a restart recovers, over every run: also over runs in which an earlier restart has already read only
    part of the log (application/runtime.py: _rebuild_projection). */
module RuntimeRestarts {
  import opened Basics
  import opened Wrappers
  import opened AgentStates
  import opened AudioBuffer
  import opened Timeline
  import opened Runtime
  import opened RuntimeInvariants

  // ------------------------------------------------------------------ the events behind the live projection

  /** What a process that rebuilt its projection when the log had `since` events has heard of. */
  function Recalled(log: seq<Event>, since: nat): seq<Event>
    requires since <= |log|
  {
    log[..Min(since, REBUILD_LIMIT)] + log[since..]
  }

  /** The live projection is the fold over the events rebuilt from and those since, and ids are fresh. */
  ghost predicate Recalls(rt: Rt, since: nat) {
    && since <= |rt.log|
    && Fold(Recalled(rt.log, since)) == rt.view
    && Lineage(Recalled(rt.log, since))
    && (rt.view.meeting.Some? ==> rt.view.meeting.value.id < rt.nextId)
  }

  lemma EventRecalled(log: seq<Event>, e: Event, since: nat)
    requires since <= |log|
    ensures Recalled(log + [e], since) == Recalled(log, since) + [e]
    ensures Fold(Recalled(log + [e], since)) == Project(Fold(Recalled(log, since)), e.body)
    ensures Lineage(Recalled(log, since)) && Continues(Fold(Recalled(log, since)), e.body) ==>
            Lineage(Recalled(log + [e], since))
  {
    assert Recalled(log + [e], since) == Recalled(log, since) + [e];
    assert (Recalled(log, since) + [e])[..|Recalled(log, since)|] == Recalled(log, since);
  }

  /** `t` has logged one more event, and applied it. */
  ghost predicate Applies(rt: Rt, t: Rt, body: Body) {
    && |t.log| == |rt.log| + 1 && t.log[..|rt.log|] == rt.log && t.log[|rt.log|].body == body
    && t.view == Project(rt.view, body) && Continues(rt.view, body)
    && t.nextId >= rt.nextId && (t.view.meeting.Some? ==> t.view.meeting.value.id < t.nextId)
  }

  lemma AppliedRecalls(rt: Rt, t: Rt, body: Body, since: nat)
    requires Recalls(rt, since) && Applies(rt, t, body)
    ensures Recalls(t, since)
  {
    hide Fold, Lineage, Continues, Project, Recalled;
    assert t.log == rt.log + [t.log[|rt.log|]];
    EventRecalled(rt.log, t.log[|rt.log|], since);
  }

  lemma PlainRecalls(rt: Rt, body: Body, since: nat)
    requires Recalls(rt, since) && Plain(body)
    ensures Recalls(Emitted(rt, body), since)
  {
    hide Fold, Lineage, Recalled;
    AppliedRecalls(rt, Emitted(rt, body), body, since);
  }

  /** Nothing but the log, the projection and the next id matters. */
  lemma SameRecalls(rt: Rt, t: Rt, since: nat)
    requires Recalls(rt, since) && t.log == rt.log && t.view == rt.view && t.nextId == rt.nextId
    ensures Recalls(t, since)
  {
  }

  // ------------------------------------------------------------------ every step

  lemma SetStateRecalls(rt: Rt, requested: AgentState, since: nat)
    requires Recalls(rt, since)
    ensures Recalls(SetState(rt, requested), since)
  {
    hide Recalls;
    match Moved(rt.agent.machine, requested)
    case None => PlainRecalls(rt, TransitionRejected(requested), since);
    case Some(machine) =>
      var audio := if requested == MicOff then Cleared(rt.agent.audio) else rt.agent.audio;
      var moved := rt.(agent := rt.agent.(machine := machine, audio := audio, persisted := Some(requested),
                                          session := SessionCopy(requested, machine.previousSafe)));
      SameRecalls(rt, moved, since);
      PlainRecalls(moved, StateChanged(rt.agent.machine.state, requested), since);
  }

  lemma ScoredRecalls(rt: Rt, detected: bool, since: nat)
    requires Recalls(rt, since)
    ensures Recalls(Scored(rt, detected), since)
  {
    hide Recalls, SetState;
    var deactivation := rt.agent.machine.state == Interactive;
    var scored := Emitted(rt, WakeScored(deactivation, detected));
    PlainRecalls(rt, WakeScored(deactivation, detected), since);
    PlainRecalls(scored, WakeDetected(deactivation), since);
    SetStateRecalls(Emitted(scored, WakeDetected(deactivation)), if deactivation then Standby else Interactive, since);
  }

  lemma HeardRecalls(rt: Rt, f: AudioFrame, wake: Wake, since: nat)
    requires Recalls(rt, since) && Playable(rt.agent.audio.frames)
    ensures Recalls(Heard(rt, f, wake), since)
  {
    hide Recalls, Scored;
    var checked := rt.(agent := rt.agent.(lastWakeCheckMs := f.timestampMs));
    SameRecalls(rt, checked, since);
    ScoredRecalls(checked, wake.enrolled && wake.similar, since);
  }

  lemma IngestedRecalls(rt: Rt, f: AudioFrame, wake: Wake, since: nat)
    requires Recalls(rt, since) && Playable(rt.agent.audio.frames)
    ensures Recalls(Ingested(rt, f, wake), since)
  {
    hide Recalls, Heard;
    if rt.agent.machine.state != MicOff && f.sampleRate != 0 {
      var taken := rt.(agent := rt.agent.(audio := Appended(rt.agent.audio, f)));
      SameRecalls(rt, taken, since);
      PlainRecalls(taken, AudioLevel(f.sequence), since);
      HeardRecalls(Buffered(rt, f), f, wake, since);
    }
  }

  lemma PatchedRecalls(rt: Rt, capacity: int, since: nat)
    requires Recalls(rt, since)
    ensures Recalls(SettingsPatched(rt, capacity), since)
  {
    hide Recalls;
    SameRecalls(rt, Resized(rt, capacity), since);
    PlainRecalls(Resized(rt, capacity), Other("settings.changed"), since);
  }

  lemma BegunRecalls(rt: Rt, title: Option<string>, at: int, since: nat)
    requires Recalls(rt, since)
    ensures Recalls(MeetingBegun(rt, title, at), since)
  {
    hide Fold, Lineage, Recalled;
    var begun := MeetingBegun(rt, title, at);
    AppliedRecalls(rt, begun, MeetingStarted(begun.view.meeting.value), since);
  }

  lemma StartMeetingRecalls(rt: Rt, title: Option<string>, at: int, since: nat)
    requires Recalls(rt, since)
    ensures Recalls(StartMeeting(rt, title, at), since)
  {
    hide Recalls, MeetingBegun, SetState;
    BegunRecalls(rt, title, at, since);
    SetStateRecalls(MeetingBegun(rt, title, at), Transcribing, since);
  }

  lemma ClosedRecalls(rt: Rt, at: int, since: nat)
    requires Recalls(rt, since) && rt.view.meeting.Some?
    ensures Recalls(MeetingClosed(rt, at), since)
  {
    hide Fold, Lineage, Recalled;
    var summarised := Emitted(rt, SummaryCreated(FinalCount(rt.view.transcript)));
    PlainRecalls(rt, SummaryCreated(FinalCount(rt.view.transcript)), since);
    var closed := MeetingClosed(rt, at);
    AppliedRecalls(summarised, closed, MeetingEnded(closed.view.meeting.value), since);
  }

  lemma EndMeetingRecalls(rt: Rt, at: int, since: nat)
    requires Recalls(rt, since)
    ensures Recalls(EndMeeting(rt, at), since)
  {
    hide Recalls, MeetingClosed, SetState;
    if rt.view.meeting.Some? {
      ClosedRecalls(rt, at, since);
      SetStateRecalls(MeetingClosed(rt, at), Standby, since);
    }
  }

  lemma PartialRecalls(rt: Rt, text: string, words: seq<string>, speaker: string, since: nat)
    requires Recalls(rt, since) && rt.view.meeting.Some?
    ensures Recalls(PartialBegun(rt, text, words, speaker), since)
  {
    hide Fold, Lineage, Recalled;
    var begun := PartialBegun(rt, text, words, speaker);
    AppliedRecalls(rt, begun, begun.log[|rt.log|].body, since);
  }

  lemma InjectBeginRecalls(rt: Rt, text: string, words: seq<string>, speaker: string, at: int, since: nat)
    requires Recalls(rt, since)
    ensures Recalls(InjectBegin(rt, text, words, speaker, at), since)
  {
    StartMeetingRecalls(rt, Some(DEMO_TITLE), at, since);
    StartedActive(rt, Some(DEMO_TITLE), at);
    hide Recalls, StartMeeting, PartialBegun;
    var ready := if Active(rt) then rt else StartMeeting(rt, Some(DEMO_TITLE), at);
    if |words| > 0 {
      PartialRecalls(ready, text, words, speaker, since);
    }
  }

  lemma FinalRecalls(rt: Rt, revision: nat, since: nat)
    requires Recalls(rt, since) && revision in rt.inflight && rt.view.meeting.Some?
    ensures Recalls(FinalAdded(rt, revision), since)
  {
    hide Fold, Lineage, Recalled;
    var added := FinalAdded(rt, revision);
    AppliedRecalls(rt, added, FinalHeard(added.view.transcript[|rt.view.transcript|]), since);
  }

  lemma {:induction false} FactsRecall(rt: Rt, segment: Segment, findings: seq<Finding>, since: nat)
    requires Recalls(rt, since)
    ensures Recalls(FactsAdded(rt, segment, findings), since)
  {
    if |findings| > 0 {
      var n := |findings| - 1;
      FactsRecall(rt, segment, findings[..n], since);
      FactRecalls(FactsAdded(rt, segment, findings[..n]), segment, findings[n], since);
    }
  }

  lemma FactRecalls(rt: Rt, segment: Segment, finding: Finding, since: nat)
    requires Recalls(rt, since)
    ensures Recalls(FactAdded(rt, segment, finding), since)
  {
    hide Fold, Lineage, Recalled;
    var added := FactAdded(rt, segment, finding);
    AppliedRecalls(rt, added, FactExtracted(added.view.facts[|rt.view.facts|]), since);
  }

  lemma {:induction false} OthersRecall(rt: Rt, kinds: seq<string>, since: nat)
    requires Recalls(rt, since)
    ensures Recalls(OthersEmitted(rt, kinds), since)
  {
    if |kinds| > 0 {
      var n := |kinds| - 1;
      OthersRecall(rt, kinds[..n], since);
      PlainRecalls(OthersEmitted(rt, kinds[..n]), Other(kinds[n]), since);
    }
  }

  lemma PhrasesRecall(rt: Rt, wakes: bool, sleeps: bool, since: nat)
    requires Recalls(rt, since)
    ensures Recalls(PhrasesHeard(rt, wakes, sleeps), since)
  {
    hide Recalls, SetState;
    var woken := if wakes && rt.agent.machine.state == Standby then SetState(rt, Interactive) else rt;
    SetStateRecalls(rt, Interactive, since);
    SetStateRecalls(woken, Standby, since);
  }

  lemma InjectFinishRecalls(rt: Rt, revision: nat, effects: Effects, since: nat)
    requires Recalls(rt, since) && revision in rt.inflight && rt.view.meeting.Some?
    ensures Recalls(InjectFinish(rt, revision, effects), since)
  {
    hide Recalls, FactsAdded, PhrasesHeard, OthersEmitted;
    var added := FinalAdded(rt, revision);
    var segment := added.view.transcript[|rt.view.transcript|];
    var noted := FactsAdded(added, segment, effects.findings);
    FinalRecalls(rt, revision, since);
    FactsRecall(added, segment, effects.findings, since);
    PhrasesRecall(noted, effects.wakes, effects.sleeps, since);
    OthersRecall(PhrasesHeard(noted, effects.wakes, effects.sleeps), effects.routed, since);
  }

  lemma StepRecalls(rt: Rt, op: Op, since: nat)
    requires Recalls(rt, since) && Sane(rt) && !op.OpRestart?
    ensures Recalls(Step(rt, op), since)
  {
    hide Recalls, SetState, Ingested, SettingsPatched, StartMeeting, EndMeeting, InjectBegin, InjectFinish, Emitted;
    match op
    case OpSetState(requested) => SetStateRecalls(rt, requested, since);
    case OpIngest(frame, wake) => IngestedRecalls(rt, frame, wake, since);
    case OpResize(capacity) => PatchedRecalls(rt, capacity, since);
    case OpStartMeeting(title, at) => StartMeetingRecalls(rt, title, at, since);
    case OpEndMeeting(at) => EndMeetingRecalls(rt, at, since);
    case OpInjectBegin(text, words, speaker, at) => InjectBeginRecalls(rt, text, words, speaker, at, since);
    case OpInjectFinish(revision, effects) =>
      if revision in rt.inflight {
        InjectFinishRecalls(rt, revision, effects, since);
      }
    case OpOther(kind) => PlainRecalls(rt, Other(kind), since);
    case OpForeign(gap) => SameRecalls(rt, rt.(last := rt.last + gap), since);
  }

  // ------------------------------------------------------------------ restarts

  lemma {:induction false} LineageTake(log: seq<Event>, k: nat)
    requires Lineage(log) && k <= |log|
    ensures Lineage(log[..k])
  {
    if k == |log| {
      assert log[..k] == log;
    } else {
      LineageTake(log[..|log| - 1], k);
      assert log[..|log| - 1][..k] == log[..k];
    }
  }

  /** The events a restart reads are the first ones recalled. */
  lemma RecalledFirst(log: seq<Event>, since: nat)
    requires since <= |log|
    ensures var n := Min(|log|, REBUILD_LIMIT);
            n <= |Recalled(log, since)| && Recalled(log, since)[..n] == log[..n]
    ensures since <= REBUILD_LIMIT ==> Recalled(log, since) == log
  {
    if since <= REBUILD_LIMIT {
      assert log[..since] + log[since..] == log;
    }
  }

  lemma RestartedRecalls(rt: Rt, since: nat)
    requires Recalls(rt, since) && BufferMs(rt.agent) > 0
    ensures Recalls(Restarted(rt), |rt.log|)
  {
    var heard, n := Recalled(rt.log, since), Min(|rt.log|, REBUILD_LIMIT);
    RecalledFirst(rt.log, since);
    LineageTake(heard, n);
    Drift(heard, n);
    hide Fold, Lineage, Starts, Adds, LastEnd;
    assert Recalled(rt.log, |rt.log|) == rt.log[..n];
    assert |rt.log| <= REBUILD_LIMIT ==> rt.log[..n] == rt.log;
  }

  /** How long the log was at the last restart of the run; 0 before the first. */
  ghost function LastRestart(ops: seq<Op>): nat {
    if |ops| == 0 then 0
    else
      var rt := Run(ops[..|ops| - 1]);
      if ops[|ops| - 1] == OpRestart && BufferMs(rt.agent) > 0 then |rt.log| else LastRestart(ops[..|ops| - 1])
  }

  lemma {:induction false} RunRecalls(ops: seq<Op>)
    ensures Recalls(Run(ops), LastRestart(ops))
  {
    if |ops| == 0 {
      assert Recalled([], 0) == [];
    } else {
      var front, op := ops[..|ops| - 1], ops[|ops| - 1];
      RunRecalls(front);
      hide Recalls;
      if op == OpRestart {
        if BufferMs(Run(front).agent) > 0 {
          RestartedRecalls(Run(front), LastRestart(front));
        }
      } else {
        StepRecalls(Run(front), op, LastRestart(front));
      }
    }
  }

  // ------------------------------------------------------------------ what a rebuild recovers

  lemma {:induction false} LastEndShifted(a: seq<Event>, b: seq<Event>, rest: seq<Event>)
    ensures LastEnd(a + rest, |a|) == LastEnd(b + rest, |b|)
  {
    if |rest| > 0 {
      var front, e := rest[..|rest| - 1], rest[|rest| - 1];
      LastEndShifted(a, b, front);
      assert a + rest == a + front + [e] && b + rest == b + front + [e];
      LaterExtends(a + front, e, |a|);
      LaterExtends(b + front, e, |b|);
    }
  }

  lemma LaterShifted(a: seq<Event>, b: seq<Event>, rest: seq<Event>)
    ensures Starts(a + rest, |a|) <==> Starts(b + rest, |b|)
    ensures Adds(a + rest, |a|) <==> Adds(b + rest, |b|)
  {
    LaterOf(a, rest);
    LaterOf(b, rest);
  }

  lemma LaterOf(a: seq<Event>, rest: seq<Event>)
    ensures Starts(a + rest, |a|) <==> exists e | e in rest :: e.body.MeetingStarted?
    ensures Adds(a + rest, |a|) <==> exists e | e in rest :: e.body.FinalHeard? || e.body.FactExtracted?
  {
    forall i | |a| <= i < |a + rest| ensures (a + rest)[i] in rest {
    }
    forall i | 0 <= i < |rest| ensures (a + rest)[|a| + i] == rest[i] {
    }
  }

  /** `_rebuild_projection` reads 10000 events. In every run, however often and however badly it has restarted
      before, a rebuild recovers the live projection exactly when no event past those 10000, and since the
      last restart, starts a meeting, ends a segment or finds a fact, and the last meeting ended among these
      events, if any was, is the rebuilt one. */
  lemma RebuiltExactly(ops: seq<Op>)
    ensures var rt, k := Run(ops), Max(REBUILD_LIMIT, LastRestart(ops));
            Rebuilt(rt.log) == rt.view <==>
            && !Starts(rt.log, k) && !Adds(rt.log, k)
            && (LastEnd(rt.log, k).None? || LastEnd(rt.log, k) == Rebuilt(rt.log).meeting)
  {
    RunRecalls(ops);
    RecalledRebuilt(Run(ops), LastRestart(ops));
  }

  lemma RecalledRebuilt(rt: Rt, since: nat)
    requires Recalls(rt, since)
    ensures var k := Max(REBUILD_LIMIT, since);
            Rebuilt(rt.log) == rt.view <==>
            && !Starts(rt.log, k) && !Adds(rt.log, k)
            && (LastEnd(rt.log, k).None? || LastEnd(rt.log, k) == Rebuilt(rt.log).meeting)
  {
    var log := rt.log;
    RecalledFirst(log, since);
    if since > REBUILD_LIMIT {
      PrefixSufficesExactly(Recalled(log, since), REBUILD_LIMIT);
      LaterShifted(log[..REBUILD_LIMIT], log[..since], log[since..]);
      LastEndShifted(log[..REBUILD_LIMIT], log[..since], log[since..]);
      assert log == log[..since] + log[since..];
    } else if |log| > REBUILD_LIMIT {
      PrefixSufficesExactly(log, REBUILD_LIMIT);
    }
  }
}
