/** The live projection, the rebuilt one and the browser's, at every scheduling point of every run. */
module RuntimeReplay {
  import opened Wrappers
  import opened OrderedMaps
  import opened AgentStates
  import opened AudioBuffer
  import opened Timeline
  import opened Runtime
  import opened RuntimeInvariants

  // ------------------------------------------------------------------ the invariant

  /** Live is replay: the projection in memory is the fold over the whole log. */
  ghost predicate LiveIsFold(rt: Rt) {
    && Numbered(rt.log)
    && LastSequence(rt.log) <= rt.last
    && Fold(rt.log) == rt.view
    && Lineage(rt.log)
  }

  /** Every live segment and fact belongs to the current meeting, every segment is final, and every fact
      cites one of them. */
  ghost predicate Coherent(p: Projection) {
    && (p.meeting.None? ==> p.transcript == [] && p.facts == [])
    && (forall s | s in p.transcript :: s.isFinal && p.meeting.Some? && s.meetingId == p.meeting.value.id)
    && (forall f | f in p.facts :: p.meeting.Some? && f.meetingId == p.meeting.value.id && Cites(f, p.transcript))
  }

  ghost predicate Cites(f: Fact, transcript: seq<Segment>) {
    exists i | 0 <= i < |transcript| :: transcript[i].isFinal && transcript[i].id in f.sources
  }

  /** Ids are used once. */
  ghost predicate FreshIds(rt: Rt) {
    && (rt.view.meeting.Some? ==> rt.view.meeting.value.id < rt.nextId)
    && (forall s | s in rt.view.transcript :: s.id < rt.nextId && s.id !in rt.inflight && s.id !in rt.orphans)
    && (forall f | f in rt.view.facts :: f.id < rt.nextId)
    && (forall r | r in rt.inflight :: r < rt.nextId && r !in rt.orphans && rt.inflight[r].beganIn < rt.nextId)
    && (forall r | r in rt.orphans :: r < rt.nextId && rt.orphans[r] < rt.nextId)
  }

  function Finals(m: OrderedMap<nat, Segment>): seq<Segment> {
    if |m| == 0 then [] else (if m[0].value.isFinal then [m[0].value] else []) + Finals(m[1..])
  }

  function PartialKeys(m: OrderedMap<nat, Segment>): set<nat> {
    set e | e in m && !e.value.isFinal :: e.key
  }

  function FactEntries(facts: seq<Fact>): OrderedMap<nat, Fact> {
    seq(|facts|, i requires 0 <= i < |facts| => Entry(facts[i].id, facts[i]))
  }

  /** The partial segments still owed a final one: begun in the current meeting, and either suspended or
      cut short by a restart. */
  function Owed(rt: Rt): set<nat> {
    if rt.view.meeting.None? then {}
    else
      (set r | r in rt.inflight && rt.inflight[r].beganIn == rt.view.meeting.value.id) +
      (set r | r in rt.orphans && rt.orphans[r] == rt.view.meeting.value.id)
  }

  /** What the browser's maps hold, against the server's live state. */
  ghost predicate Mirrors(rt: Rt, meeting: Option<Meeting>, segments: OrderedMap<nat, Segment>,
                          facts: OrderedMap<nat, Fact>) {
    && meeting == rt.view.meeting
    && Finals(segments) == rt.view.transcript
    && PartialKeys(segments) == Owed(rt)
    && (forall e | e in segments :: e.key == e.value.id < rt.nextId)
    && facts == FactEntries(rt.view.facts)
  }

  ghost predicate Mirrored(rt: Rt) {
    var b := Watch(rt.log);
    Mirrors(rt, b.meeting, b.segments, b.facts)
  }

  ghost predicate Exact(rt: Rt) {
    LiveIsFold(rt) && Coherent(rt.view) && FreshIds(rt) && Mirrored(rt)
  }

  // ------------------------------------------------------------------ one more event

  lemma NumberedAppend(log: seq<Event>, e: Event)
    requires Numbered(log) && e.sequence > LastSequence(log) && e.id == e.sequence
    ensures Numbered(log + [e]) && LastSequence(log + [e]) == e.sequence
  {
    forall i | 0 <= i < |log| ensures log[i].sequence < e.sequence {
      assert log[i].sequence <= LastSequence(log);
    }
  }

  /** The fields of the browser that this module follows. */
  ghost predicate SameScreen(b: Browser, c: Browser) {
    b.meeting == c.meeting && b.segments == c.segments && b.facts == c.facts && b.agentState == c.agentState
  }

  lemma ShownSame(b: Browser, c: Browser, body: Body)
    requires SameScreen(b, c)
    ensures SameScreen(Shown(b, body), Shown(c, body))
  {
  }

  lemma EventAdded(log: seq<Event>, e: Event)
    requires Numbered(log) && e.sequence > LastSequence(log) && e.id == e.sequence
    ensures Numbered(log + [e]) && LastSequence(log + [e]) == e.sequence
    ensures Fold(log + [e]) == Project(Fold(log), e.body)
    ensures Lineage(log) && Continues(Fold(log), e.body) ==> Lineage(log + [e])
    ensures SameScreen(Watch(log + [e]), Shown(Watch(log), e.body))
  {
    assert (log + [e])[..|log|] == log;
    NumberedAppend(log, e);
    NewEventShown(log, e);
    BrowserKeepsLatest(log);
    var b := Watch(log);
    ShownSame(b.(cursor := e.sequence, events := Noted(b.events, e)), b, e.body);
  }

  /** The event that `Emitted` adds. */
  function EventFor(rt: Rt, body: Body): Event {
    Event(rt.last + 1, rt.last + 1, if rt.view.meeting.Some? then Some(rt.view.meeting.value.id) else None, body)
  }

  lemma EmittedFacts(rt: Rt, body: Body)
    requires Numbered(rt.log) && LastSequence(rt.log) <= rt.last
    ensures var after := Emitted(rt, body);
            && Numbered(after.log) && LastSequence(after.log) <= after.last
            && Fold(after.log) == Project(Fold(rt.log), body)
            && (Lineage(rt.log) && Continues(Fold(rt.log), body) ==> Lineage(after.log))
            && SameScreen(Watch(after.log), Shown(Watch(rt.log), body))
  {
    hide Fold, Lineage, Continues, Project, Watch, Shown, SameScreen, Numbered, LastSequence;
    EventAdded(rt.log, EventFor(rt, body));
  }

  lemma PlainExact(rt: Rt, body: Body)
    requires Exact(rt) && Plain(body) && !body.PartialHeard?
    ensures Exact(Emitted(rt, body))
  {
    hide Fold, Lineage, Watch, Numbered, Coherent;
    EmittedFacts(rt, body);
  }

  lemma SetStateExact(rt: Rt, requested: AgentState)
    requires Exact(rt)
    ensures Exact(SetState(rt, requested))
  {
    match Moved(rt.agent.machine, requested)
    case None => PlainExact(rt, TransitionRejected(requested));
    case Some(machine) =>
      var moved := rt.(agent := rt.agent.(machine := machine,
                                          audio := if requested == MicOff then Cleared(rt.agent.audio)
                                              else rt.agent.audio,
                                          persisted := Some(requested),
                                          session := SessionCopy(requested, machine.previousSafe)));
      assert Exact(moved);
      PlainExact(moved, StateChanged(rt.agent.machine.state, requested));
  }

  // ------------------------------------------------------------------ meetings

  lemma MeetingBegunExact(rt: Rt, title: Option<string>, at: int)
    requires Exact(rt)
    ensures Exact(MeetingBegun(rt, title, at))
  {
    var m := Meeting(rt.nextId, title, at, None, true, false);
    EmittedFacts(rt.(nextId := rt.nextId + 1, view := Projection(Some(m), [], [])), MeetingStarted(m));
    var after := MeetingBegun(rt, title, at);
    NothingOwed(rt, after);
    BlankMirrors(after);
  }

  lemma BlankMirrors(rt: Rt)
    requires rt.view.transcript == [] && rt.view.facts == [] && Owed(rt) == {}
    ensures Mirrors(rt, rt.view.meeting, [], [])
  {
    assert FactEntries([]) == [];
  }

  /** A new meeting's id is older than no injection. */
  lemma NothingOwed(rt: Rt, after: Rt)
    requires FreshIds(rt) && after.inflight == rt.inflight && after.orphans == rt.orphans
    requires after.nextId == rt.nextId + 1 && after.view.transcript == [] && after.view.facts == []
    requires after.view.meeting.Some? && after.view.meeting.value.id == rt.nextId
    ensures FreshIds(after) && Owed(after) == {}
  {
  }

  lemma StartMeetingExact(rt: Rt, title: Option<string>, at: int)
    requires Exact(rt)
    ensures Exact(StartMeeting(rt, title, at))
  {
    MeetingBegunExact(rt, title, at);
    if !Active(rt) {
      SetStateExact(MeetingBegun(rt, title, at), Transcribing);
    }
  }

  lemma MeetingClosedExact(rt: Rt, at: int)
    requires Exact(rt) && rt.view.meeting.Some?
    ensures Exact(MeetingClosed(rt, at))
  {
    var ended := rt.view.meeting.value.(endedAt := Some(at), active := false, summaryCompleted := true);
    var summary := SummaryCreated(FinalCount(rt.view.transcript));
    PlainExact(rt, summary);
    EmittedFacts(Emitted(rt, summary), MeetingEnded(ended));
    assert Owed(MeetingClosed(rt, at)) == Owed(rt);
  }

  lemma EndMeetingExact(rt: Rt, at: int)
    requires Exact(rt)
    ensures Exact(EndMeeting(rt, at))
  {
    if rt.view.meeting.Some? {
      MeetingClosedExact(rt, at);
      SetStateExact(MeetingClosed(rt, at), Standby);
    }
  }

  // ------------------------------------------------------------------ segments

  lemma {:induction false} FinalsSplit(a: OrderedMap<nat, Segment>, b: OrderedMap<nat, Segment>)
    ensures Finals(a + b) == Finals(a) + Finals(b)
  {
    if |a| == 0 {
      assert a + b == b;
    } else {
      hide Finals;
      FinalsFirst(a[0], a[1..]);
      FinalsFirst(a[0], a[1..] + b);
      FinalsSplit(a[1..], b);
      assert a == [a[0]] + a[1..] && a + b == [a[0]] + (a[1..] + b);
    }
  }

  lemma FinalsFirst(e: Entry<nat, Segment>, rest: OrderedMap<nat, Segment>)
    ensures Finals([e] + rest) == (if e.value.isFinal then [e.value] else []) + Finals(rest)
  {
    assert ([e] + rest)[1..] == rest;
  }

  lemma {:induction false} FinalsExactly(m: OrderedMap<nat, Segment>, s: Segment)
    ensures s in Finals(m) <==> s.isFinal && exists e | e in m :: e.value == s
  {
    if |m| > 0 {
      FinalsExactly(m[1..], s);
      if s.isFinal && exists e | e in m :: e.value == s {
        var e :| e in m && e.value == s;
        assert e == m[0] || e in m[1..];
      }
    }
  }

  /** Removing a partial segment leaves the final ones as they are. */
  lemma {:induction false} DeletePartial(m: OrderedMap<nat, Segment>, k: nat)
    requires forall e | e in m && e.key == k :: !e.value.isFinal
    ensures Finals(Delete(m, k)) == Finals(m)
  {
    if |m| > 0 {
      DeletePartial(m[1..], k);
    }
  }

  lemma PartialKeysDelete(m: OrderedMap<nat, Segment>, k: nat)
    requires forall e | e in m && e.key == k :: !e.value.isFinal
    ensures PartialKeys(Delete(m, k)) == PartialKeys(m) - {k}
  {
    DeletedKeys(m, k);
    forall x | x in PartialKeys(m) - {k} ensures x in PartialKeys(Delete(m, k)) {
      var e :| e in m && !e.value.isFinal && e.key == x;
      assert e in Delete(m, k);
    }
  }

  lemma PartialKeysAppend(m: OrderedMap<nat, Segment>, e: Entry<nat, Segment>)
    ensures PartialKeys(m + [e]) == PartialKeys(m) + (if e.value.isFinal then {} else {e.key})
  {
    assert e in m + [e];
    assert forall x | x in m :: x in m + [e];
  }

  lemma PartialShown(m: OrderedMap<nat, Segment>, s: Segment)
    requires !Has(m, s.id) && !s.isFinal && s.revisionOf.None?
    ensures Upserted(m, s) == m + [Entry(s.id, s)]
    ensures Finals(Upserted(m, s)) == Finals(m)
    ensures PartialKeys(Upserted(m, s)) == PartialKeys(m) + {s.id}
  {
    PutFresh(m, s.id, s);
    FinalsSplit(m, [Entry(s.id, s)]);
    PartialKeysAppend(m, Entry(s.id, s));
  }

  lemma FinalShown(m: OrderedMap<nat, Segment>, s: Segment)
    requires !Has(m, s.id) && s.isFinal && s.revisionOf.Some?
    requires forall e | e in m && e.key == s.revisionOf.value :: !e.value.isFinal
    ensures Finals(Upserted(m, s)) == Finals(m) + [s]
    ensures PartialKeys(Upserted(m, s)) == PartialKeys(m) - {s.revisionOf.value}
    ensures forall e | e in Upserted(m, s) :: e in m || e == Entry(s.id, s)
  {
    var r := s.revisionOf.value;
    var less := Delete(m, r);
    DeletedKeys(m, r);
    DeletePartial(m, r);
    PartialKeysDelete(m, r);
    assert !Has(less, s.id) by {
      forall i | 0 <= i < |less| ensures less[i].key != s.id {
        assert less[i] in m;
      }
    }
    PutFresh(less, s.id, s);
    FinalsSplit(less, [Entry(s.id, s)]);
    assert [Entry(s.id, s)][1..] == [];
    PartialKeysAppend(less, Entry(s.id, s));
  }

  lemma PartialBegunExact(rt: Rt, text: string, words: seq<string>, speaker: string)
    requires Exact(rt) && rt.view.meeting.Some?
    ensures Exact(PartialBegun(rt, text, words, speaker))
  {
    var after := PartialBegun(rt, text, words, speaker);
    var segment := after.log[|rt.log|].body.segment;
    EmittedFacts(rt.(nextId := after.nextId, inflight := after.inflight), PartialHeard(segment));
    var segments := Watch(rt.log).segments;
    PartialShown(segments, segment);
    OneMoreOwed(rt, after);
    assert forall e | e in segments + [Entry(segment.id, segment)] :: e in segments || e == Entry(segment.id, segment);
    assert Mirrors(after, rt.view.meeting, Upserted(segments, segment), FactEntries(rt.view.facts));
  }

  lemma OneMoreOwed(rt: Rt, after: Rt)
    requires FreshIds(rt) && rt.view.meeting.Some? && after.view == rt.view && after.orphans == rt.orphans
    requires after.nextId == rt.nextId + 1
    requires rt.nextId in after.inflight && after.inflight == rt.inflight[rt.nextId := after.inflight[rt.nextId]]
    requires after.inflight[rt.nextId].beganIn == rt.view.meeting.value.id
    ensures FreshIds(after) && Owed(after) == Owed(rt) + {rt.nextId}
  {
  }

  lemma InjectBeginExact(rt: Rt, text: string, words: seq<string>, speaker: string, at: int)
    requires Exact(rt)
    ensures Exact(InjectBegin(rt, text, words, speaker, at))
  {
    StartMeetingExact(rt, Some(DEMO_TITLE), at);
    StartedActive(rt, Some(DEMO_TITLE), at);
    var ready := if Active(rt) then rt else StartMeeting(rt, Some(DEMO_TITLE), at);
    if |words| > 0 {
      PartialBegunExact(ready, text, words, speaker);
    }
  }

  /** The revision of a suspended injection never names a final segment. */
  lemma RevisionIsPartial(rt: Rt, revision: nat)
    requires Exact(rt) && revision in rt.inflight
    ensures forall e | e in Watch(rt.log).segments && e.key == revision :: !e.value.isFinal
  {
    var m := Watch(rt.log).segments;
    forall e | e in m && e.key == revision ensures !e.value.isFinal {
      FinalsExactly(m, e.value);
    }
  }

  lemma FinalAddedCoherent(rt: Rt, revision: nat)
    requires Coherent(rt.view) && FreshIds(rt) && revision in rt.inflight && rt.view.meeting.Some?
    ensures var after := FinalAdded(rt, revision); Coherent(after.view) && FreshIds(after)
  {
    var after := FinalAdded(rt, revision);
    forall f | f in after.view.facts ensures Cites(f, after.view.transcript) {
      var i :| 0 <= i < |rt.view.transcript| && rt.view.transcript[i].isFinal && rt.view.transcript[i].id in f.sources;
      assert after.view.transcript[i] == rt.view.transcript[i];
    }
  }

  lemma FinalAddedMirrored(rt: Rt, revision: nat)
    requires Exact(rt) && revision in rt.inflight && rt.view.meeting.Some?
    ensures var after := FinalAdded(rt, revision);
            var segment := after.view.transcript[|rt.view.transcript|];
            var segments := Upserted(Watch(rt.log).segments, segment);
            Mirrors(after, rt.view.meeting, segments, FactEntries(rt.view.facts))
  {
    RevisionIsPartial(rt, revision);
    hide Watch, Fold, Upserted, Finals, PartialKeys, FactEntries, Coherent;
    var after := FinalAdded(rt, revision);
    FinalShown(Watch(rt.log).segments, after.view.transcript[|rt.view.transcript|]);
    assert Owed(after) == Owed(rt) - {revision};
  }

  lemma FinalAddedExact(rt: Rt, revision: nat)
    requires Exact(rt) && revision in rt.inflight && rt.view.meeting.Some?
    ensures Exact(FinalAdded(rt, revision))
  {
    FinalAddedCoherent(rt, revision);
    FinalAddedMirrored(rt, revision);
    assert Watch(rt.log).meeting == rt.view.meeting && Watch(rt.log).facts == FactEntries(rt.view.facts);
    hide Coherent, FreshIds, Mirrors, Upserted, FactEntries, Watch, Fold, Lineage, Numbered;
    var after := FinalAdded(rt, revision);
    var segment := after.view.transcript[|rt.view.transcript|];
    EmittedFacts(rt.(nextId := after.nextId, view := after.view, inflight := after.inflight), FinalHeard(segment));
  }

  // ------------------------------------------------------------------ facts

  lemma {:induction false} FactShown(facts: seq<Fact>, f: Fact)
    requires forall i | 0 <= i < |facts| :: facts[i].id != f.id
    ensures Put(FactEntries(facts), f.id, f) == FactEntries(facts + [f])
  {
    if |facts| > 0 {
      FactShown(facts[1..], f);
      assert FactEntries(facts)[1..] == FactEntries(facts[1..]);
      assert facts + [f] == [facts[0]] + (facts[1..] + [f]);
      assert FactEntries(facts + [f]) == [Entry(facts[0].id, facts[0])] + FactEntries(facts[1..] + [f]);
    }
  }

  lemma FactAddedCoherent(rt: Rt, segment: Segment, finding: Finding)
    requires Coherent(rt.view) && FreshIds(rt) && segment in rt.view.transcript
    ensures var after := FactAdded(rt, segment, finding); Coherent(after.view) && FreshIds(after)
  {
    var after := FactAdded(rt, segment, finding);
    var fact := after.view.facts[|rt.view.facts|];
    var i :| 0 <= i < |rt.view.transcript| && rt.view.transcript[i] == segment;
    assert rt.view.transcript[i].id in fact.sources;
    assert Cites(fact, after.view.transcript);
  }

  lemma FactAddedExact(rt: Rt, segment: Segment, finding: Finding)
    requires Exact(rt) && segment in rt.view.transcript
    ensures Exact(FactAdded(rt, segment, finding))
  {
    FactAddedCoherent(rt, segment, finding);
    var after := FactAdded(rt, segment, finding);
    var fact := after.view.facts[|rt.view.facts|];
    EmittedFacts(rt.(nextId := after.nextId, view := after.view), FactExtracted(fact));
    FactShown(rt.view.facts, fact);
    assert Owed(after) == Owed(rt);
    assert Coherent(rt.view) && FreshIds(rt);
    hide FreshIds;
  }

  lemma {:induction false} FactsAddedExact(rt: Rt, segment: Segment, findings: seq<Finding>)
    requires Exact(rt) && segment in rt.view.transcript
    ensures Exact(FactsAdded(rt, segment, findings))
    ensures FactsAdded(rt, segment, findings).view.transcript == rt.view.transcript
  {
    if |findings| > 0 {
      var k := |findings| - 1;
      FactsAddedExact(rt, segment, findings[..k]);
      FactAddedExact(FactsAdded(rt, segment, findings[..k]), segment, findings[k]);
    }
  }

  lemma {:induction false} OthersExact(rt: Rt, kinds: seq<string>)
    requires Exact(rt)
    ensures Exact(OthersEmitted(rt, kinds))
  {
    if |kinds| > 0 {
      OthersExact(rt, kinds[..|kinds| - 1]);
      PlainExact(OthersEmitted(rt, kinds[..|kinds| - 1]), Other(kinds[|kinds| - 1]));
    }
  }

  lemma PhrasesExact(rt: Rt, wakes: bool, sleeps: bool)
    requires Exact(rt)
    ensures Exact(PhrasesHeard(rt, wakes, sleeps))
  {
    SetStateExact(rt, Interactive);
    var woken := if wakes && rt.agent.machine.state == Standby then SetState(rt, Interactive) else rt;
    SetStateExact(woken, Standby);
  }

  lemma InjectFinishExact(rt: Rt, revision: nat, effects: Effects)
    requires Exact(rt) && revision in rt.inflight && rt.view.meeting.Some?
    ensures Exact(InjectFinish(rt, revision, effects))
  {
    FinalAddedExact(rt, revision);
    var added := FinalAdded(rt, revision);
    var segment := added.view.transcript[|rt.view.transcript|];
    FactsAddedExact(added, segment, effects.findings);
    var noted := FactsAdded(added, segment, effects.findings);
    PhrasesExact(noted, effects.wakes, effects.sleeps);
    OthersExact(PhrasesHeard(noted, effects.wakes, effects.sleeps), effects.routed);
  }

  // ------------------------------------------------------------------ audio, settings, restart

  lemma AgentIrrelevant(rt: Rt, agent: Agent)
    requires Exact(rt)
    ensures Exact(rt.(agent := agent))
  {
  }

  lemma BufferedExact(rt: Rt, f: AudioFrame)
    requires Exact(rt) && Playable(rt.agent.audio.frames) && f.sampleRate != 0
    ensures Exact(Buffered(rt, f))
  {
    hide Exact;
    AgentIrrelevant(rt, rt.agent.(audio := Appended(rt.agent.audio, f)));
    PlainExact(rt.(agent := rt.agent.(audio := Appended(rt.agent.audio, f))), AudioLevel(f.sequence));
  }

  lemma IngestedExact(rt: Rt, f: AudioFrame, wake: Wake)
    requires Exact(rt) && Playable(rt.agent.audio.frames)
    ensures Exact(Ingested(rt, f, wake))
  {
    hide Exact;
    if rt.agent.machine.state != MicOff && f.sampleRate != 0 {
      BufferedExact(rt, f);
      HeardExact(Buffered(rt, f), f, wake);
    }
  }

  lemma HeardExact(rt: Rt, f: AudioFrame, wake: Wake)
    requires Exact(rt) && Playable(rt.agent.audio.frames)
    ensures Exact(Heard(rt, f, wake))
  {
    hide Exact;
    AgentIrrelevant(rt, rt.agent.(lastWakeCheckMs := f.timestampMs));
    ScoredExact(rt.(agent := rt.agent.(lastWakeCheckMs := f.timestampMs)), wake.enrolled && wake.similar);
  }

  lemma ScoredExact(rt: Rt, detected: bool)
    requires Exact(rt)
    ensures Exact(Scored(rt, detected))
  {
    hide Exact, Emitted, SetState;
    var deactivation := rt.agent.machine.state == Interactive;
    PlainExact(rt, WakeScored(deactivation, detected));
    var scored := Emitted(rt, WakeScored(deactivation, detected));
    PlainExact(scored, WakeDetected(deactivation));
    SetStateExact(Emitted(scored, WakeDetected(deactivation)), if deactivation then Standby else Interactive);
  }

  lemma ResizedExact(rt: Rt, capacity: int)
    requires Exact(rt)
    ensures Exact(SettingsPatched(rt, capacity))
  {
    hide Exact;
    AgentIrrelevant(rt, Resized(rt, capacity).agent);
    PlainExact(Resized(rt, capacity), Other("settings.changed"));
  }

  lemma RestartedExact(rt: Rt)
    requires Exact(rt) && BufferMs(rt.agent) > 0 && |rt.log| <= REBUILD_LIMIT
    ensures Exact(Restarted(rt))
  {
    assert Owed(Restarted(rt)) == Owed(rt);
  }

  lemma ForeignExact(rt: Rt, gap: nat)
    requires Exact(rt)
    ensures Exact(rt.(last := rt.last + gap))
  {
    assert Owed(rt.(last := rt.last + gap)) == Owed(rt);
  }

  lemma StepExact(rt: Rt, op: Op)
    requires Exact(rt) && Sane(rt)
    requires op.OpRestart? ==> |rt.log| <= REBUILD_LIMIT
    ensures Exact(Step(rt, op))
  {
    hide Exact, SetState, Ingested, SettingsPatched, StartMeeting, EndMeeting, InjectBegin, InjectFinish, Restarted,
        Emitted;
    match op
    case OpSetState(requested) => SetStateExact(rt, requested);
    case OpIngest(frame, wake) => IngestedExact(rt, frame, wake);
    case OpResize(capacity) => ResizedExact(rt, capacity);
    case OpStartMeeting(title, at) => StartMeetingExact(rt, title, at);
    case OpEndMeeting(at) => EndMeetingExact(rt, at);
    case OpInjectBegin(text, words, speaker, at) => InjectBeginExact(rt, text, words, speaker, at);
    case OpInjectFinish(revision, effects) => if revision in rt.inflight { InjectFinishExact(rt, revision, effects); }
    case OpRestart => if BufferMs(rt.agent) > 0 { RestartedExact(rt); }
    case OpOther(kind) => PlainExact(rt, Other(kind));
    case OpForeign(gap) => ForeignExact(rt, gap);
  }

  // ------------------------------------------------------------------ the theorems

  /** Every restart of the run read the whole log. */
  ghost predicate WholeLogRestarts(ops: seq<Op>) {
    forall k | 0 <= k < |ops| && ops[k] == OpRestart :: |Run(ops[..k]).log| <= REBUILD_LIMIT
  }

  lemma {:induction false} RunExact(ops: seq<Op>)
    requires WholeLogRestarts(ops)
    ensures Exact(Run(ops))
  {
    if |ops| > 0 {
      var shorter := ops[..|ops| - 1];
      forall k | 0 <= k < |shorter| && shorter[k] == OpRestart ensures |Run(shorter[..k]).log| <= REBUILD_LIMIT {
        assert shorter[..k] == ops[..k] && ops[k] == OpRestart;
      }
      RunExact(shorter);
      StepExact(Run(shorter), ops[|ops| - 1]);
    } else {
      assert Owed(FIRST) == {} && FactEntries([]) == [];
    }
  }

  /** Live state refines replay, at every scheduling point of every interleaving: meeting, transcript and
      facts are the fold over the log, they belong to the current meeting, and every fact cites a final
      segment of the live transcript. Up to 10000 events that fold is what a restart would rebuild. */
  lemma LiveRefinesReplay(ops: seq<Op>)
    requires WholeLogRestarts(ops)
    ensures var rt := Run(ops);
            && rt.view == Fold(rt.log)
            && Coherent(rt.view)
            && (|rt.log| <= REBUILD_LIMIT ==> Rebuilt(rt.log) == rt.view)
  {
    RunExact(ops);
  }

  /** The two reducers agree on every reachable log: in map order the browser's final segments are the
      server's transcript, and facts, meeting and agent state are the same. A partial segment remains on
      screen exactly for each injection of the current meeting that is suspended or was cut by a restart. */
  lemma ReducersAgree(ops: seq<Op>)
    requires WholeLogRestarts(ops)
    ensures var rt, b := Run(ops), Watch(Run(ops).log);
            && Finals(b.segments) == rt.view.transcript
            && b.facts == FactEntries(rt.view.facts)
            && b.meeting == rt.view.meeting
            && b.agentState == rt.agent.machine.state
            && PartialKeys(b.segments) == Owed(rt)
            && (rt.inflight == map[] && rt.orphans == map[] ==> |b.segments| == |rt.view.transcript|)
            && forall k | 0 <= k < |rt.log| :: ApplyEvent(b, rt.log[k]) == b <==> k + KEPT_EVENTS >= |rt.log|
  {
    RunExact(ops);
    var rt := Run(ops);
    WatchedState(rt.log);
    if rt.inflight == map[] && rt.orphans == map[] {
      assert Owed(rt) == {};
      PartialKeysCover(Watch(rt.log).segments);
      AllFinal(Watch(rt.log).segments);
    }
    forall k | 0 <= k < |rt.log|
        ensures ApplyEvent(Watch(rt.log), rt.log[k]) == Watch(rt.log) <==> k + KEPT_EVENTS >= |rt.log| {
      RedeliveryExactly(rt.log, k);
    }
  }

  lemma PartialKeysCover(m: OrderedMap<nat, Segment>)
    ensures forall e | e in m && !e.value.isFinal :: e.key in PartialKeys(m)
  {
  }

  lemma {:induction false} AllFinal(m: OrderedMap<nat, Segment>)
    requires forall e | e in m :: e.value.isFinal
    ensures |Finals(m)| == |m|
  {
    if |m| > 0 {
      AllFinal(m[1..]);
    }
  }

  lemma {:induction false} WatchedState(log: seq<Event>)
    requires Numbered(log)
    ensures Watch(log).agentState == LastState(log).GetOr(MicOff)
  {
    if |log| > 0 {
      var front := log[..|log| - 1];
      assert log == front + [log[|log| - 1]];
      NewEventShown(front, log[|log| - 1]);
      BrowserKeepsLatest(front);
      WatchedState(front);
    }
  }
}
