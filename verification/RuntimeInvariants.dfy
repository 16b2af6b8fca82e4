/** What holds at every scheduling point of every run of the runtime. */
module RuntimeInvariants {
  import opened Wrappers
  import opened AgentStates
  import opened AudioBuffer
  import opened Timeline
  import opened Runtime

  // ------------------------------------------------------------------ the copies of the agent's state

  /** The state in the last `agent.state_changed` event. */
  function LastState(log: seq<Event>): Option<AgentState> {
    if |log| == 0 then None
    else
      match log[|log| - 1].body
      case StateChanged(_, current) => Some(current)
      case _ => LastState(log[..|log| - 1])
  }

  /** The machine, the session record, the stored setting and the log agree on the state; a closed
      microphone leaves no audio behind; outside the error state the safe state is the state. */
  ghost predicate CopiesAgree(rt: Rt) {
    && rt.agent.session == SessionCopy(rt.agent.machine.state, rt.agent.machine.previousSafe)
    && rt.agent.persisted.GetOr(MicOff) == rt.agent.machine.state
    && LastState(rt.log) == rt.agent.persisted
    && (rt.agent.machine.state != ErrorRecoverable ==> rt.agent.machine.previousSafe == rt.agent.machine.state)
    && (rt.agent.machine.state == MicOff ==> rt.agent.audio.frames == [])
    && Sound(rt.agent.audio)
  }

  lemma LastStateAppended(log: seq<Event>, e: Event)
    ensures LastState(log + [e]) == if e.body.StateChanged? then Some(e.body.current) else LastState(log)
  {
    assert (log + [e])[..|log|] == log;
  }

  lemma EmittedCopies(rt: Rt, body: Body)
    requires CopiesAgree(rt) && !body.StateChanged?
    ensures CopiesAgree(Emitted(rt, body))
  {
    var meetingId := if rt.view.meeting.Some? then Some(rt.view.meeting.value.id) else None;
    LastStateAppended(rt.log, Event(rt.last + 1, rt.last + 1, meetingId, body));
  }

  lemma MovedFacts(m: Machine, requested: AgentState)
    requires m.state != ErrorRecoverable ==> m.previousSafe == m.state
    ensures var n := Moved(m, requested);
            n.Some? ==>
              n.value.state == requested && (requested != ErrorRecoverable ==> n.value.previousSafe == requested)
  {
  }

  /** Logging the state that the agent has taken. */
  lemma ChangedCopies(rt: Rt, previous: AgentState)
    requires rt.agent.session == SessionCopy(rt.agent.machine.state, rt.agent.machine.previousSafe)
    requires rt.agent.persisted == Some(rt.agent.machine.state)
    requires rt.agent.machine.state != ErrorRecoverable ==> rt.agent.machine.previousSafe == rt.agent.machine.state
    requires rt.agent.machine.state == MicOff ==> rt.agent.audio.frames == []
    requires Sound(rt.agent.audio)
    ensures CopiesAgree(Emitted(rt, StateChanged(previous, rt.agent.machine.state)))
  {
    var meetingId := if rt.view.meeting.Some? then Some(rt.view.meeting.value.id) else None;
    LastStateAppended(rt.log,
                      Event(rt.last + 1, rt.last + 1, meetingId, StateChanged(previous, rt.agent.machine.state)));
  }

  /** A rejected transition changes nothing but the log. */
  lemma SetStateCopies(rt: Rt, requested: AgentState)
    requires CopiesAgree(rt)
    ensures CopiesAgree(SetState(rt, requested))
    ensures Moved(rt.agent.machine, requested).None? ==>
              SetState(rt, requested) == Emitted(rt, TransitionRejected(requested))
  {
    match Moved(rt.agent.machine, requested)
    case None => EmittedCopies(rt, TransitionRejected(requested));
    case Some(machine) =>
      MovedFacts(rt.agent.machine, requested);
      ChangedCopies(rt.(agent := rt.agent.(machine := machine,
                                           audio := if requested == MicOff then Cleared(rt.agent.audio)
                                               else rt.agent.audio,
                                           persisted := Some(requested),
                                           session := SessionCopy(requested, machine.previousSafe))),
                    rt.agent.machine.state);
  }

  lemma BufferedCopies(rt: Rt, f: AudioFrame)
    requires CopiesAgree(rt) && rt.agent.machine.state != MicOff && f.sampleRate != 0
    ensures CopiesAgree(Buffered(rt, f)) && Buffered(rt, f).agent.machine == rt.agent.machine
  {
    FitIsLongestSuffix(rt.agent.audio.frames + [f], rt.agent.audio.capacityMs);
    var taken := rt.(agent := rt.agent.(audio := Appended(rt.agent.audio, f)));
    assert CopiesAgree(taken);
    EmittedCopies(taken, AudioLevel(f.sequence));
  }

  lemma ScoredCopies(rt: Rt, detected: bool)
    requires CopiesAgree(rt)
    ensures CopiesAgree(Scored(rt, detected))
  {
    var deactivation := rt.agent.machine.state == Interactive;
    EmittedCopies(rt, WakeScored(deactivation, detected));
    var scored := Emitted(rt, WakeScored(deactivation, detected));
    EmittedCopies(scored, WakeDetected(deactivation));
    SetStateCopies(Emitted(scored, WakeDetected(deactivation)), if deactivation then Standby else Interactive);
  }

  lemma IngestedCopies(rt: Rt, f: AudioFrame, wake: Wake)
    requires CopiesAgree(rt)
    ensures CopiesAgree(Ingested(rt, f, wake))
    ensures rt.agent.machine.state == MicOff ==> Ingested(rt, f, wake) == rt
  {
    if rt.agent.machine.state != MicOff && f.sampleRate != 0 {
      BufferedCopies(rt, f);
      HeardCopies(Buffered(rt, f), f, wake);
    }
  }

  lemma HeardCopies(rt: Rt, f: AudioFrame, wake: Wake)
    requires CopiesAgree(rt)
    ensures CopiesAgree(Heard(rt, f, wake))
  {
    var checked := rt.(agent := rt.agent.(lastWakeCheckMs := f.timestampMs));
    assert CopiesAgree(checked);
    ScoredCopies(checked, wake.enrolled && wake.similar);
  }

  lemma StartMeetingCopies(rt: Rt, title: Option<string>, at: int)
    requires CopiesAgree(rt)
    ensures CopiesAgree(StartMeeting(rt, title, at))
  {
    var m := Meeting(rt.nextId, title, at, None, true, false);
    EmittedCopies(rt.(nextId := rt.nextId + 1, view := Projection(Some(m), [], [])), MeetingStarted(m));
    SetStateCopies(MeetingBegun(rt, title, at), Transcribing);
  }

  lemma EndMeetingCopies(rt: Rt, at: int)
    requires CopiesAgree(rt)
    ensures CopiesAgree(EndMeeting(rt, at))
  {
    if rt.view.meeting.Some? {
      var ended := rt.view.meeting.value.(endedAt := Some(at), active := false, summaryCompleted := true);
      EmittedCopies(rt, SummaryCreated(FinalCount(rt.view.transcript)));
      EmittedCopies(Emitted(rt, SummaryCreated(FinalCount(rt.view.transcript))), MeetingEnded(ended));
      SetStateCopies(MeetingClosed(rt, at), Standby);
    }
  }

  lemma {:induction false} FactsAddedCopies(rt: Rt, segment: Segment, findings: seq<Finding>)
    requires CopiesAgree(rt)
    ensures CopiesAgree(FactsAdded(rt, segment, findings))
  {
    if |findings| > 0 {
      var k := |findings| - 1;
      FactsAddedCopies(rt, segment, findings[..k]);
      var before := FactsAdded(rt, segment, findings[..k]);
      var fact := Fact(before.nextId, segment.meetingId, findings[k].kind, findings[k].text, [segment.id]);
      EmittedCopies(before.(nextId := before.nextId + 1, view := before.view.(facts := before.view.facts + [fact])),
                    FactExtracted(fact));
    }
  }

  lemma {:induction false} OthersCopies(rt: Rt, kinds: seq<string>)
    requires CopiesAgree(rt)
    ensures CopiesAgree(OthersEmitted(rt, kinds))
  {
    if |kinds| > 0 {
      OthersCopies(rt, kinds[..|kinds| - 1]);
      EmittedCopies(OthersEmitted(rt, kinds[..|kinds| - 1]), Other(kinds[|kinds| - 1]));
    }
  }

  lemma PhrasesCopies(rt: Rt, wakes: bool, sleeps: bool)
    requires CopiesAgree(rt)
    ensures CopiesAgree(PhrasesHeard(rt, wakes, sleeps))
  {
    SetStateCopies(rt, Interactive);
    var woken := if wakes && rt.agent.machine.state == Standby then SetState(rt, Interactive) else rt;
    SetStateCopies(woken, Standby);
  }

  lemma InjectBeginCopies(rt: Rt, text: string, words: seq<string>, speaker: string, at: int)
    requires CopiesAgree(rt)
    ensures CopiesAgree(InjectBegin(rt, text, words, speaker, at))
  {
    StartMeetingCopies(rt, Some(DEMO_TITLE), at);
    var ready := if Active(rt) then rt else StartMeeting(rt, Some(DEMO_TITLE), at);
    StartedActive(rt, Some(DEMO_TITLE), at);
    if |words| > 0 {
      PartialCopies(ready, text, words, speaker);
    }
  }

  lemma StartedActive(rt: Rt, title: Option<string>, at: int)
    ensures StartMeeting(rt, title, at).view.meeting.Some?
  {
  }

  lemma PartialCopies(rt: Rt, text: string, words: seq<string>, speaker: string)
    requires CopiesAgree(rt) && rt.view.meeting.Some?
    ensures CopiesAgree(PartialBegun(rt, text, words, speaker))
  {
    var after := PartialBegun(rt, text, words, speaker);
    var body := after.log[|rt.log|].body;
    EmittedCopies(rt.(nextId := after.nextId, inflight := after.inflight), body);
  }

  lemma InjectFinishCopies(rt: Rt, revision: nat, effects: Effects)
    requires CopiesAgree(rt) && revision in rt.inflight && rt.view.meeting.Some?
    ensures CopiesAgree(InjectFinish(rt, revision, effects))
  {
    var added := FinalAdded(rt, revision);
    var segment := added.view.transcript[|rt.view.transcript|];
    EmittedCopies(rt.(nextId := added.nextId, view := added.view, inflight := added.inflight), FinalHeard(segment));
    FactsAddedCopies(added, segment, effects.findings);
    var noted := FactsAdded(added, segment, effects.findings);
    PhrasesCopies(noted, effects.wakes, effects.sleeps);
    OthersCopies(PhrasesHeard(noted, effects.wakes, effects.sleeps), effects.routed);
  }

  lemma ResizedCopies(rt: Rt, capacity: int)
    requires CopiesAgree(rt)
    ensures CopiesAgree(SettingsPatched(rt, capacity))
  {
    assert CopiesAgree(Resized(rt, capacity));
    EmittedCopies(Resized(rt, capacity), Other("settings.changed"));
  }

  lemma StepCopies(rt: Rt, op: Op)
    requires CopiesAgree(rt) && Sane(rt)
    ensures CopiesAgree(Step(rt, op))
  {
    match op
    case OpSetState(requested) => SetStateCopies(rt, requested);
    case OpIngest(frame, wake) => IngestedCopies(rt, frame, wake);
    case OpResize(capacity) => ResizedCopies(rt, capacity);
    case OpStartMeeting(title, at) => StartMeetingCopies(rt, title, at);
    case OpEndMeeting(at) => EndMeetingCopies(rt, at);
    case OpInjectBegin(text, words, speaker, at) => InjectBeginCopies(rt, text, words, speaker, at);
    case OpInjectFinish(revision, effects) => if revision in rt.inflight { InjectFinishCopies(rt, revision, effects); }
    case OpRestart =>
    case OpOther(kind) => EmittedCopies(rt, Other(kind));
    case OpForeign(gap) =>
  }

  // ------------------------------------------------------------------ runs

  /** What suspended injections need: there is a meeting, and ids are not reused. */
  lemma StepSane(rt: Rt, op: Op)
    requires Sane(rt) && CopiesAgree(Step(rt, op))
    ensures Sane(Step(rt, op))
  {
    match op
    case OpInjectFinish(revision, effects) =>
      if revision in rt.inflight {
        FinishKeepsMeeting(rt, revision, effects);
      }
    case OpIngest(frame, wake) =>
    case _ =>
  }

  lemma FinishKeepsMeeting(rt: Rt, revision: nat, effects: Effects)
    requires revision in rt.inflight && rt.view.meeting.Some?
    ensures InjectFinish(rt, revision, effects).view.meeting == rt.view.meeting
  {
    var added := FinalAdded(rt, revision);
    var segment := added.view.transcript[|rt.view.transcript|];
    FactsKeepTranscript(added, segment, effects.findings);
    OthersKeepInjections(PhrasesHeard(FactsAdded(added, segment, effects.findings), effects.wakes, effects.sleeps),
                         effects.routed);
  }

  lemma {:induction false} FactsKeepTranscript(rt: Rt, segment: Segment, findings: seq<Finding>)
    ensures var t := FactsAdded(rt, segment, findings);
            t.view.transcript == rt.view.transcript && t.inflight == rt.inflight && t.view.meeting == rt.view.meeting
  {
    if |findings| > 0 {
      FactsKeepTranscript(rt, segment, findings[..|findings| - 1]);
    }
  }

  lemma {:induction false} OthersKeepInjections(rt: Rt, kinds: seq<string>)
    ensures OthersEmitted(rt, kinds).inflight == rt.inflight && OthersEmitted(rt, kinds).view == rt.view
  {
    if |kinds| > 0 {
      OthersKeepInjections(rt, kinds[..|kinds| - 1]);
    }
  }

  function Run(ops: seq<Op>): (rt: Rt)
    ensures CopiesAgree(rt) && Sane(rt)
  {
    if |ops| == 0 then FIRST
    else
      var rt := Run(ops[..|ops| - 1]);
      StepCopies(rt, ops[|ops| - 1]);
      StepSane(rt, ops[|ops| - 1]);
      Step(rt, ops[|ops| - 1])
  }
}
