/** What transcripts and facts say, over every run: the words, the speakers and the findings that the requests
    brought (application/runtime.py: inject_transcript). */
module RuntimeContents {
  import opened Basics
  import opened Wrappers
  import opened AgentStates
  import opened AudioBuffer
  import opened Timeline
  import opened Runtime
  import opened RuntimeInvariants
  import opened RuntimeReplay
  import opened RuntimeRestarts
  import opened RuntimeEffects

  // ------------------------------------------------------------------ what the requests brought

  /** The arguments of an injection. */
  datatype Spoken = Spoken(text: string, words: seq<string>, speaker: string)

  /** The injections that have made a partial segment, by its id, which is the last id handed out. */
  ghost function Begun(ops: seq<Op>): map<nat, Spoken> {
    if |ops| == 0 then map[]
    else
      var before := Begun(ops[..|ops| - 1]);
      match ops[|ops| - 1]
      case OpInjectBegin(text, words, speaker, _) =>
        if |words| > 0 && Run(ops).nextId > 0 then before[Run(ops).nextId - 1 := Spoken(text, words, speaker)]
            else before
      case _ => before
  }

  /** What was found in the injections that have been resumed. */
  ghost function Resumed(ops: seq<Op>): map<nat, seq<Finding>> {
    if |ops| == 0 then map[]
    else
      var front := ops[..|ops| - 1];
      match ops[|ops| - 1]
      case OpInjectFinish(revision, effects) =>
        if revision in Run(front).inflight then Resumed(front)[revision := effects.findings] else Resumed(front)
      case _ => Resumed(front)
  }

  // ------------------------------------------------------------------ what the log says of them

  /** The findings of the facts that cite just this segment, in order. */
  function Extracted(bs: seq<Body>, id: nat): seq<Finding> {
    if |bs| == 0 then []
    else
      Extracted(bs[..|bs| - 1], id)
      + match bs[|bs| - 1]
        case FactExtracted(f) => if f.sources == [id] then [Finding(f.kind, f.text)] else []
        case _ => []
  }

  /** A partial segment has the first half of its injection's words, and its speaker. */
  ghost predicate PartialTold(s: Segment, begun: map<nat, Spoken>) {
    && s.id in begun && !s.isFinal && s.revisionOf.None?
    && s.speaker == begun[s.id].speaker
    && s.text == Join(begun[s.id].words[..Min(|begun[s.id].words|, Half(|begun[s.id].words|))])
  }

  /** A final segment replaces the partial one of an injection that has been resumed, and has its whole text and
      its speaker; the facts that cite it are what was found in it, all of it and in order. */
  ghost predicate FinalTold(s: Segment, begun: map<nat, Spoken>, resumed: map<nat, seq<Finding>>, bs: seq<Body>) {
    && s.isFinal && s.revisionOf.Some? && s.revisionOf.value in begun && s.revisionOf.value in resumed
    && s.text == begun[s.revisionOf.value].text
    && s.speaker == begun[s.revisionOf.value].speaker
    && Extracted(bs, s.id) == resumed[s.revisionOf.value]
  }

  /** A fact cites one final segment. */
  ghost predicate FactTold(f: Fact, bs: seq<Body>) {
    exists s: Segment :: FinalHeard(s) in bs && f.sources == [s.id]
  }

  ghost predicate Told(bs: seq<Body>, begun: map<nat, Spoken>, resumed: map<nat, seq<Finding>>, nextId: nat) {
    && (forall s: Segment | PartialHeard(s) in bs :: PartialTold(s, begun))
    && (forall s: Segment | FinalHeard(s) in bs :: s.id < nextId && FinalTold(s, begun, resumed, bs))
    && (forall f: Fact | FactExtracted(f) in bs :: FactTold(f, bs))
    && (forall i | 0 <= i < |bs| && bs[i].FinalHeard? :: Extracted(bs[..i], bs[i].segment.id) == [])
  }

  /** A suspended injection still has what it was given. */
  ghost predicate Held(inflight: map<nat, Injection>, begun: map<nat, Spoken>, resumed: map<nat, seq<Finding>>,
                       nextId: nat)
  {
    && (forall r | r in inflight ::
          r in begun && r !in resumed && inflight[r].text == begun[r].text && inflight[r].speaker == begun[r].speaker)
    && (forall r | r in begun :: r < nextId)
    && forall r | r in resumed :: r in begun
  }

  // ------------------------------------------------------------------ more of a log

  lemma {:induction false} ExtractedMore(bs: seq<Body>, more: seq<Body>, id: nat)
    ensures Extracted(bs + more, id) == Extracted(bs, id) + Extracted(more, id)
  {
    if |more| == 0 {
      assert bs + more == bs;
    } else {
      assert (bs + more)[..|bs + more| - 1] == bs + more[..|more| - 1];
      ExtractedMore(bs, more[..|more| - 1], id);
    }
  }

  lemma {:induction false} ExtractedNone(bs: seq<Body>, id: nat)
    requires forall f: Fact | FactExtracted(f) in bs :: f.sources != [id]
    ensures Extracted(bs, id) == []
  {
    if |bs| > 0 {
      assert bs == bs[..|bs| - 1] + [bs[|bs| - 1]];
      ExtractedNone(bs[..|bs| - 1], id);
    }
  }

  lemma {:induction false} ExtractedHas(bs: seq<Body>, f: Fact, id: nat)
    requires FactExtracted(f) in bs && f.sources == [id]
    ensures Finding(f.kind, f.text) in Extracted(bs, id)
  {
    assert bs == bs[..|bs| - 1] + [bs[|bs| - 1]];
    if bs[|bs| - 1] != FactExtracted(f) {
      ExtractedHas(bs[..|bs| - 1], f, id);
    }
  }

  lemma {:induction false} ExtractedFacts(id: nat, s: Segment, findings: seq<Finding>)
    ensures Extracted(Extractions(FactsOf(id, s, findings)), s.id) == findings
  {
    if |findings| > 0 {
      var n := |findings| - 1;
      ExtractedFacts(id, s, findings[..n]);
      var bs := Extractions(FactsOf(id, s, findings));
      assert bs[..n] == Extractions(FactsOf(id, s, findings[..n]));
      assert findings == findings[..n] + [findings[n]];
    }
  }

  /** Neither segments nor facts. */
  predicate Quiet(bs: seq<Body>) {
    forall b | b in bs :: !b.PartialHeard? && !b.FinalHeard? && !b.FactExtracted?
  }

  lemma QuietTold(bs: seq<Body>, more: seq<Body>, begun: map<nat, Spoken>, resumed: map<nat, seq<Finding>>,
                  nextId: nat, later: nat)
    requires Told(bs, begun, resumed, nextId) && Quiet(more) && later >= nextId
    ensures Told(bs + more, begun, resumed, later)
  {
    var all := bs + more;
    forall j | |bs| <= j < |all| ensures !all[j].FinalHeard? {
      assert all[j] == more[j - |bs|];
    }
    forall s: Segment | FinalHeard(s) in all ensures s.id < later && FinalTold(s, begun, resumed, all) {
      assert FinalHeard(s) in bs;
      ExtractedMore(bs, more, s.id);
      ExtractedNone(more, s.id);
    }
    forall f: Fact | FactExtracted(f) in all ensures FactTold(f, all) {
      CitedStill(f, bs, more);
    }
    forall i | 0 <= i < |all| && all[i].FinalHeard? ensures Extracted(all[..i], all[i].segment.id) == [] {
      assert all[..i] == bs[..i];
    }
  }

  lemma CitedStill(f: Fact, bs: seq<Body>, more: seq<Body>)
    requires FactTold(f, bs)
    ensures FactTold(f, bs + more)
  {
    var s: Segment :| FinalHeard(s) in bs && f.sources == [s.id];
    assert FinalHeard(s) in bs + more;
  }

  /** One more injection begins. */
  lemma PartialAdded(bs: seq<Body>, s: Segment, begun: map<nat, Spoken>, resumed: map<nat, seq<Finding>>, nextId: nat,
                     spoken: Spoken)
    requires Told(bs, begun, resumed, nextId) && s.id == nextId && (forall r | r in begun :: r < nextId)
    requires PartialTold(s, begun[nextId := spoken])
    ensures Told(bs + [PartialHeard(s)], begun[nextId := spoken], resumed, nextId + 1)
  {
    var all, given := bs + [PartialHeard(s)], begun[nextId := spoken];
    forall t: Segment | FinalHeard(t) in all ensures t.id < nextId + 1 && FinalTold(t, given, resumed, all) {
      assert FinalHeard(t) in bs;
      ExtractedMore(bs, [PartialHeard(s)], t.id);
      ExtractedNone([PartialHeard(s)], t.id);
    }
    forall f: Fact | FactExtracted(f) in all ensures FactTold(f, all) {
      CitedStill(f, bs, [PartialHeard(s)]);
    }
    forall i | 0 <= i < |all| && all[i].FinalHeard? ensures Extracted(all[..i], all[i].segment.id) == [] {
      assert all[..i] == bs[..i];
    }
  }

  /** One is resumed. */
  lemma FinalAddedTold(bs: seq<Body>, s: Segment, facts: seq<Fact>, begun: map<nat, Spoken>,
                       resumed: map<nat, seq<Finding>>, nextId: nat, findings: seq<Finding>)
    requires Told(bs, begun, resumed, nextId) && s.id == nextId && s.isFinal && s.revisionOf.Some?
    requires s.revisionOf.value in begun && s.revisionOf.value !in resumed
    requires s.text == begun[s.revisionOf.value].text && s.speaker == begun[s.revisionOf.value].speaker
    requires facts == FactsOf(nextId + 1, s, findings)
    ensures Told(bs + ([FinalHeard(s)] + Extractions(facts)), begun, resumed[s.revisionOf.value := findings],
                 nextId + 1 + |findings|)
  {
    hide Extracted, FactTold, PartialTold;
    var more := [FinalHeard(s)] + Extractions(facts);
    var all, now := bs + more, resumed[s.revisionOf.value := findings];
    NewIsUncited(bs, begun, resumed, nextId);
    NewSegmentExtracted(bs, s, facts, nextId, findings);
    forall t: Segment | FinalHeard(t) in all ensures t.id < nextId + 1 + |findings| && FinalTold(t, begun, now, all) {
      assert FinalHeard(t) in bs || t == s;
      if t != s {
        OthersExtracted(bs, s, facts, nextId, findings, t.id);
      }
    }
    forall f: Fact | FactExtracted(f) in all ensures FactTold(f, all) {
      if FactExtracted(f) in bs {
        CitedStill(f, bs, more);
      } else {
        NewFactTold(bs, s, facts, nextId, findings, f);
      }
    }
    forall i | 0 <= i < |all| && all[i].FinalHeard? ensures Extracted(all[..i], all[i].segment.id) == [] {
      UncitedBefore(bs, s, facts, i);
    }
  }

  lemma NewFactTold(bs: seq<Body>, s: Segment, facts: seq<Fact>, nextId: nat, findings: seq<Finding>, f: Fact)
    requires facts == FactsOf(nextId + 1, s, findings)
    requires FactExtracted(f) in bs + ([FinalHeard(s)] + Extractions(facts)) && FactExtracted(f) !in bs
    ensures FactTold(f, bs + ([FinalHeard(s)] + Extractions(facts)))
  {
    var more := [FinalHeard(s)] + Extractions(facts);
    assert FactExtracted(f) in more && FinalHeard(s) == more[0] && more[0] in bs + more;
  }

  lemma UncitedBefore(bs: seq<Body>, s: Segment, facts: seq<Fact>, i: nat)
    requires forall k | 0 <= k < |bs| && bs[k].FinalHeard? :: Extracted(bs[..k], bs[k].segment.id) == []
    requires Extracted(bs, s.id) == []
    requires var all := bs + ([FinalHeard(s)] + Extractions(facts)); i < |all| && all[i].FinalHeard?
    ensures var all := bs + ([FinalHeard(s)] + Extractions(facts)); Extracted(all[..i], all[i].segment.id) == []
  {
    hide Extracted;
    var all := bs + ([FinalHeard(s)] + Extractions(facts));
    if i < |bs| {
      assert all[..i] == bs[..i];
    } else {
      assert i == |bs| && all[..i] == bs;
    }
  }

  /** Nothing cites a segment before it is there. */
  lemma NewIsUncited(bs: seq<Body>, begun: map<nat, Spoken>, resumed: map<nat, seq<Finding>>, nextId: nat)
    requires Told(bs, begun, resumed, nextId)
    ensures Extracted(bs, nextId) == []
  {
    forall f: Fact | FactExtracted(f) in bs ensures f.sources != [nextId] {
      assert FactTold(f, bs);
    }
    ExtractedNone(bs, nextId);
  }

  lemma NewSegmentExtracted(bs: seq<Body>, s: Segment, facts: seq<Fact>, nextId: nat, findings: seq<Finding>)
    requires Extracted(bs, s.id) == [] && facts == FactsOf(nextId + 1, s, findings)
    ensures Extracted(bs + ([FinalHeard(s)] + Extractions(facts)), s.id) == findings
  {
    ExtractedMore(bs, [FinalHeard(s)] + Extractions(facts), s.id);
    ExtractedMore([FinalHeard(s)], Extractions(facts), s.id);
    ExtractedNone([FinalHeard(s)], s.id);
    ExtractedFacts(nextId + 1, s, findings);
  }

  lemma OthersExtracted(bs: seq<Body>, s: Segment, facts: seq<Fact>, nextId: nat, findings: seq<Finding>, id: nat)
    requires id != s.id && facts == FactsOf(nextId + 1, s, findings)
    ensures Extracted(bs + ([FinalHeard(s)] + Extractions(facts)), id) == Extracted(bs, id)
  {
    ExtractedMore(bs, [FinalHeard(s)] + Extractions(facts), id);
    ExtractedNone([FinalHeard(s)] + Extractions(facts), id);
  }

  // ------------------------------------------------------------------ every step

  lemma IngestSays(rt: Rt, f: AudioFrame, wake: Wake) returns (said: seq<Body>)
    requires Playable(rt.agent.audio.frames)
    ensures Says(rt, Ingested(rt, f, wake), said) && Quiet(said)
  {
    hide Says, Ingested, Decodable;
    WakeDecides(rt, f, wake);
    var scored := Due(rt, f, wake) && Decodable(rt, f, wake);
    var heard := scored && wake.enrolled && wake.similar;
    said := (if State(rt) != MicOff && f.sampleRate != 0 then [AudioLevel(f.sequence)] else [])
            + (if scored then [WakeScored(State(rt) == Interactive, heard)] else [])
            + if heard then [WakeDetected(State(rt) == Interactive), StateChanged(State(rt), Woken(State(rt)))] else [];
  }

  lemma SetSays(rt: Rt, requested: AgentState) returns (said: seq<Body>)
    ensures Says(rt, SetState(rt, requested), said) && Quiet(said)
  {
    said := [if Moved(rt.agent.machine, requested).None? then TransitionRejected(requested)
             else StateChanged(State(rt), requested)];
  }

  lemma StartSays(rt: Rt, title: Option<string>, at: int) returns (said: seq<Body>)
    ensures Says(rt, StartMeeting(rt, title, at), said) && Quiet(said)
  {
    MeetingStartSays(rt, title, at);
    said := if Active(rt) then []
            else [MeetingStarted(Meeting(rt.nextId, title, at, None, true, false))]
                 + if State(rt) == Standby then [StateChanged(Standby, Transcribing)] else [];
  }

  lemma EndSays(rt: Rt, at: int) returns (said: seq<Body>)
    ensures Says(rt, EndMeeting(rt, at), said) && Quiet(said)
  {
    MeetingEndSays(rt, at);
    said := if rt.view.meeting.None? then []
            else [SummaryCreated(FinalCount(rt.view.transcript)), MeetingEnded(EndedAs(rt.view.meeting.value, at))]
                 + if State(rt) in {Transcribing, Interactive} then [StateChanged(State(rt), Standby)] else [];
  }

  /** A step of any other kind says nothing of segments and facts, and begins no injection. */
  lemma QuietStep(rt: Rt, op: Op) returns (said: seq<Body>)
    requires Sane(rt) && !op.OpInjectBegin? && !op.OpInjectFinish?
    ensures Says(rt, Step(rt, op), said) && Quiet(said)
    ensures Step(rt, op).nextId >= rt.nextId
    ensures Step(rt, op).inflight == rt.inflight || Step(rt, op).inflight == map[]
  {
    QuietKeeps(rt, op);
    hide Ingested, SetState, StartMeeting, EndMeeting;
    match op
    case OpSetState(requested) => said := SetSays(rt, requested);
    case OpIngest(frame, wake) => said := IngestSays(rt, frame, wake);
    case OpResize(capacity) => said := if capacity <= 0 then [] else [Other("settings.changed")];
    case OpStartMeeting(title, at) => said := StartSays(rt, title, at);
    case OpEndMeeting(at) => said := EndSays(rt, at);
    case OpOther(kind) => said := [Other(kind)];
    case _ => said := [];
  }

  lemma QuietKeeps(rt: Rt, op: Op)
    requires Sane(rt) && !op.OpInjectBegin? && !op.OpInjectFinish?
    ensures Step(rt, op).nextId >= rt.nextId
    ensures Step(rt, op).inflight == rt.inflight || Step(rt, op).inflight == map[]
  {
    match op
    case OpIngest(frame, wake) => WakeDecides(rt, frame, wake);
    case _ =>
  }

  lemma BeginTold(rt: Rt, text: string, words: seq<string>, speaker: string, at: int, begun: map<nat, Spoken>,
                  resumed: map<nat, seq<Finding>>)
    requires Told(Bodies(rt.log), begun, resumed, rt.nextId) && Held(rt.inflight, begun, resumed, rt.nextId)
    ensures var t := InjectBegin(rt, text, words, speaker, at);
            && t.nextId >= rt.nextId && (|words| > 0 ==> t.nextId > 0)
            && var now := if |words| > 0 then begun[t.nextId - 1 := Spoken(text, words, speaker)] else begun;
               Told(Bodies(t.log), now, resumed, t.nextId) && Held(t.inflight, now, resumed, t.nextId)
  {
    hide Told, Bodies, StartMeeting;
    var said := StartSays(rt, Some(DEMO_TITLE), at);
    MeetingStartSays(rt, Some(DEMO_TITLE), at);
    var ready := StartMeeting(rt, Some(DEMO_TITLE), at);
    StartedActive(rt, Some(DEMO_TITLE), at);
    QuietTold(Bodies(rt.log), said, begun, resumed, rt.nextId, ready.nextId);
    if |words| > 0 {
      PartialBegunTold(ready, text, words, speaker, begun, resumed);
    }
  }

  lemma PartialBegunTold(rt: Rt, text: string, words: seq<string>, speaker: string, begun: map<nat, Spoken>,
                         resumed: map<nat, seq<Finding>>)
    requires rt.view.meeting.Some? && |words| > 0
    requires Told(Bodies(rt.log), begun, resumed, rt.nextId) && Held(rt.inflight, begun, resumed, rt.nextId)
    ensures var t, now := PartialBegun(rt, text, words, speaker), begun[rt.nextId := Spoken(text, words, speaker)];
            && t.nextId == rt.nextId + 1
            && Told(Bodies(t.log), now, resumed, t.nextId) && Held(t.inflight, now, resumed, t.nextId)
  {
    hide Told, Bodies, PartialBegun;
    PartialSays(rt, text, words, speaker);
    var start := if |rt.view.transcript| > 0 then rt.view.transcript[|rt.view.transcript| - 1].endMs + 50 else 0;
    var s := Segment(rt.nextId, rt.view.meeting.value.id, start, start + 300, Join(words[..Half(|words|)]), false,
                     speaker, None);
    PartialAdded(Bodies(rt.log), s, begun, resumed, rt.nextId, Spoken(text, words, speaker));
  }

  lemma FinishTold(rt: Rt, revision: nat, effects: Effects, begun: map<nat, Spoken>, resumed: map<nat, seq<Finding>>)
    requires revision in rt.inflight && rt.view.meeting.Some?
    requires Told(Bodies(rt.log), begun, resumed, rt.nextId) && Held(rt.inflight, begun, resumed, rt.nextId)
    ensures var t, now := InjectFinish(rt, revision, effects), resumed[revision := effects.findings];
            Told(Bodies(t.log), begun, now, t.nextId) && Held(t.inflight, begun, now, t.nextId)
  {
    hide Told, Bodies, InjectFinish, Extractions, FactsOf;
    var t := InjectFinish(rt, revision, effects);
    var rest := FinishSays(rt, revision, effects);
    var s := FinalOf(rt, revision);
    var facts := FactsOf(rt.nextId + 1, s, effects.findings);
    FinalAddedTold(Bodies(rt.log), s, facts, begun, resumed, rt.nextId, effects.findings);
    var told := Bodies(rt.log) + ([FinalHeard(s)] + Extractions(facts));
    QuietTold(told, rest, begun, resumed[revision := effects.findings], t.nextId, t.nextId);
    assert Bodies(rt.log) + ([FinalHeard(s)] + Extractions(facts) + rest) == told + rest;
  }

  // ------------------------------------------------------------------ the theorems

  /** Over every run, restarts of any kind included: every partial segment ever logged has the first half of the
      words of its injection, every final one its whole text, both its speaker; and the facts that cite a final
      segment are the findings of the request that resumed it, all of them and in order. */
  lemma {:induction false} RunTold(ops: seq<Op>)
    ensures Told(Bodies(Run(ops).log), Begun(ops), Resumed(ops), Run(ops).nextId)
    ensures Held(Run(ops).inflight, Begun(ops), Resumed(ops), Run(ops).nextId)
  {
    if |ops| > 0 {
      hide Told, Held, Bodies, Run, Begun, Resumed, Step;
      var front, op := ops[..|ops| - 1], ops[|ops| - 1];
      RunTold(front);
      StepTold(Run(front), op, Begun(front), Resumed(front));
      OneMore(ops);
    }
  }

  lemma OneMore(ops: seq<Op>)
    requires |ops| > 0
    ensures var front, op := ops[..|ops| - 1], ops[|ops| - 1];
            && Run(ops) == Step(Run(front), op)
            && Begun(ops) == (if op.OpInjectBegin? && |op.words| > 0 && Run(ops).nextId > 0
                              then Begun(front)[Run(ops).nextId - 1 := Spoken(op.text, op.words, op.speaker)]
                              else Begun(front))
            && Resumed(ops) == (if op.OpInjectFinish? && op.revision in Run(front).inflight
                                then Resumed(front)[op.revision := op.effects.findings] else Resumed(front))
  {
    hide Step;
  }

  lemma StepTold(rt: Rt, op: Op, begun: map<nat, Spoken>, resumed: map<nat, seq<Finding>>)
    requires Sane(rt)
    requires Told(Bodies(rt.log), begun, resumed, rt.nextId) && Held(rt.inflight, begun, resumed, rt.nextId)
    ensures var t := Step(rt, op);
            var nowBegun := if op.OpInjectBegin? && |op.words| > 0 && t.nextId > 0
                            then begun[t.nextId - 1 := Spoken(op.text, op.words, op.speaker)] else begun;
            var nowResumed := if op.OpInjectFinish? && op.revision in rt.inflight
                              then resumed[op.revision := op.effects.findings] else resumed;
            && Told(Bodies(t.log), nowBegun, nowResumed, t.nextId)
            && Held(t.inflight, nowBegun, nowResumed, t.nextId)
  {
    hide Told, Bodies, InjectBegin, InjectFinish;
    match op
    case OpInjectBegin(text, words, speaker, at) => BeginTold(rt, text, words, speaker, at, begun, resumed);
    case OpInjectFinish(revision, effects) =>
      if revision in rt.inflight {
        FinishTold(rt, revision, effects, begun, resumed);
      }
    case _ =>
      var said := QuietStep(rt, op);
      QuietTold(Bodies(rt.log), said, begun, resumed, rt.nextId, Step(rt, op).nextId);
  }

  lemma {:induction false} FoldMembers(log: seq<Event>)
    ensures forall s | s in Fold(log).transcript :: FinalHeard(s) in Bodies(log)
    ensures forall f | f in Fold(log).facts :: FactExtracted(f) in Bodies(log)
  {
    if |log| > 0 {
      FoldMembers(log[..|log| - 1]);
      assert Bodies(log) == Bodies(log[..|log| - 1]) + [log[|log| - 1].body];
    }
  }

  lemma RecalledMembers(log: seq<Event>, since: nat, b: Body)
    requires since <= |log| && b in Bodies(Recalled(log, since))
    ensures b in Bodies(log)
  {
    var heard := Recalled(log, since);
    var i :| 0 <= i < |heard| && heard[i].body == b;
    assert heard[i] in log;
    var k :| 0 <= k < |log| && log[k] == heard[i];
    assert Bodies(log)[k] == b;
  }

  /** So, in every run, every segment of the live transcript has the text and the speaker of its injection, and
      every live fact is one of the findings in the injection of the final segment it cites. */
  lemma LiveTold(ops: seq<Op>)
    ensures forall s | s in Run(ops).view.transcript ::
              FinalTold(s, Begun(ops), Resumed(ops), Bodies(Run(ops).log))
    ensures forall f | f in Run(ops).view.facts :: FactFound(ops, f)
  {
    RunTold(ops);
    RunRecalls(ops);
    var log, since := Run(ops).log, LastRestart(ops);
    FoldMembers(Recalled(log, since));
    forall s | s in Run(ops).view.transcript ensures FinalTold(s, Begun(ops), Resumed(ops), Bodies(log)) {
      RecalledMembers(log, since, FinalHeard(s));
    }
    forall f | f in Run(ops).view.facts ensures FactFound(ops, f) {
      RecalledMembers(log, since, FactExtracted(f));
      CitedFound(ops, f);
    }
  }

  /** The fact cites a final segment, in whose injection it was found. */
  ghost predicate FactFound(ops: seq<Op>, f: Fact) {
    exists s: Segment :: FinalHeard(s) in Bodies(Run(ops).log) && FoundIn(ops, f, s)
  }

  ghost predicate FoundIn(ops: seq<Op>, f: Fact, s: Segment) {
    && f.sources == [s.id] && s.revisionOf.Some? && s.revisionOf.value in Resumed(ops)
    && Finding(f.kind, f.text) in Resumed(ops)[s.revisionOf.value]
  }

  lemma CitedFound(ops: seq<Op>, f: Fact)
    requires Told(Bodies(Run(ops).log), Begun(ops), Resumed(ops), Run(ops).nextId)
    requires FactExtracted(f) in Bodies(Run(ops).log)
    ensures FactFound(ops, f)
  {
    var bs := Bodies(Run(ops).log);
    assert FactTold(f, bs);
    var s: Segment :| FinalHeard(s) in bs && f.sources == [s.id];
    ExtractedHas(bs, f, s.id);
    assert FinalTold(s, Begun(ops), Resumed(ops), bs);
    assert FoundIn(ops, f, s);
  }

  // ------------------------------------------------------------------ live facts in order

  /** The findings of the facts that cite just this segment, in order. */
  function Citing(facts: seq<Fact>, id: nat): seq<Finding> {
    if |facts| == 0 then []
    else
      var f := facts[|facts| - 1];
      Citing(facts[..|facts| - 1], id) + if f.sources == [id] then [Finding(f.kind, f.text)] else []
  }

  lemma {:induction false} CitingNone(facts: seq<Fact>, id: nat)
    requires forall f | f in facts :: f.sources != [id]
    ensures Citing(facts, id) == []
  {
    if |facts| > 0 {
      CitingNone(facts[..|facts| - 1], id);
    }
  }

  /** Every final segment is there before what cites it. */
  ghost predicate CitedLater(bs: seq<Body>) {
    forall i | 0 <= i < |bs| && bs[i].FinalHeard? :: Extracted(bs[..i], bs[i].segment.id) == []
  }

  lemma {:induction false} FoldCites(log: seq<Event>, id: nat)
    requires CitedLater(Bodies(log)) && exists s :: s in Fold(log).transcript && s.id == id
    ensures Citing(Fold(log).facts, id) == Extracted(Bodies(log), id)
  {
    hide Bodies, Extracted, Citing, CitedLater;
    var front, e := log[..|log| - 1], log[|log| - 1];
    FrontCited(log);
    ExtractedMore(Bodies(front), [e.body], id);
    if exists s :: s in Fold(front).transcript && s.id == id {
      FoldCites(front, id);
      FactCited(Fold(front), e.body, id);
    } else {
      UncitedFold(front, id);
      NotCited(e.body.segment, id);
    }
  }

  lemma FrontCited(log: seq<Event>)
    requires |log| > 0 && CitedLater(Bodies(log))
    ensures var front, e := log[..|log| - 1], log[|log| - 1];
            && Bodies(log) == Bodies(front) + [e.body] && CitedLater(Bodies(front))
            && (e.body.FinalHeard? ==> Extracted(Bodies(front), e.body.segment.id) == [])
  {
    hide Extracted;
    var front, e := log[..|log| - 1], log[|log| - 1];
    var bs := Bodies(front);
    assert Bodies(log) == bs + [e.body] && Bodies(log)[..|bs|] == bs && Bodies(log)[|bs|] == e.body;
    forall i | 0 <= i < |bs| && bs[i].FinalHeard? ensures Extracted(bs[..i], bs[i].segment.id) == [] {
      assert Bodies(log)[..i] == bs[..i] && Bodies(log)[i] == bs[i];
    }
  }

  /** The projection and the log take the same from an event that starts no meeting. */
  lemma FactCited(p: Projection, body: Body, id: nat)
    requires !body.MeetingStarted?
    ensures Citing(Project(p, body).facts, id) == Citing(p.facts, id) + Extracted([body], id)
  {
    assert [body][..0] == [] && Extracted([], id) == [];
    if body.FactExtracted? {
      assert (p.facts + [body.fact])[..|p.facts|] == p.facts;
    }
  }

  lemma NotCited(s: Segment, id: nat)
    ensures Extracted([FinalHeard(s)], id) == []
  {
    assert [FinalHeard(s)][..0] == [];
  }

  lemma UncitedFold(log: seq<Event>, id: nat)
    requires Extracted(Bodies(log), id) == []
    ensures Citing(Fold(log).facts, id) == []
  {
    FoldMembers(log);
    forall f | f in Fold(log).facts ensures f.sources != [id] {
      if f.sources == [id] {
        ExtractedHas(Bodies(log), f, id);
      }
    }
    CitingNone(Fold(log).facts, id);
  }

  /** While every restart reads the whole log, the live facts that cite a live segment are the findings of the
      request that resumed it, all of them and in order. */
  lemma FactsInOrder(ops: seq<Op>, s: Segment)
    requires WholeLogRestarts(ops) && s in Run(ops).view.transcript
    ensures s.revisionOf.Some? && s.revisionOf.value in Resumed(ops)
    ensures Citing(Run(ops).view.facts, s.id) == Resumed(ops)[s.revisionOf.value]
  {
    LiveTold(ops);
    RunTold(ops);
    LiveRefinesReplay(ops);
    FoldCites(Run(ops).log, s.id);
  }
}
