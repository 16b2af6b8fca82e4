/** What each request of the runtime does to the agent's state, and what it says in the log
    (application/runtime.py). */
module RuntimeEffects {
  import opened Basics
  import opened Wrappers
  import opened AgentStates
  import opened AudioBuffer
  import opened Timeline
  import opened Runtime

  /** What the log says, apart from numbers and meeting ids. */
  function Bodies(log: seq<Event>): seq<Body> {
    seq(|log|, i requires 0 <= i < |log| => log[i].body)
  }

  function State(rt: Rt): AgentState {
    rt.agent.machine.state
  }

  /** `t` says `said` after what `rt` says. */
  ghost predicate Says(rt: Rt, t: Rt, said: seq<Body>) {
    Bodies(t.log) == Bodies(rt.log) + said
  }

  lemma SaysMore(a: Rt, b: Rt, c: Rt, first: seq<Body>, second: seq<Body>)
    requires Says(a, b, first) && Says(b, c, second)
    ensures Says(a, c, first + second)
  {
    hide Bodies;
    assert Bodies(a.log) + first + second == Bodies(a.log) + (first + second);
  }

  /** One event more, under the next number of the store, for the meeting at hand; nothing else changes. */
  lemma EmittedSays(rt: Rt, body: Body)
    ensures var t, m := Emitted(rt, body), rt.view.meeting;
            && t.log == rt.log + [Event(rt.last + 1, rt.last + 1, if m.Some? then Some(m.value.id) else None, body)]
            && t == rt.(log := t.log, last := rt.last + 1)
    ensures Says(rt, Emitted(rt, body), [body])
  {
  }

  // ------------------------------------------------------------------ changes of state

  /** A change to a state that is no error is never refused. */
  lemma SetStateSays(rt: Rt, requested: AgentState)
    requires requested != ErrorRecoverable
    ensures var t := SetState(rt, requested);
            && Says(rt, t, [StateChanged(State(rt), requested)]) && State(t) == requested
            && t.view == rt.view && t.inflight == rt.inflight && t.nextId == rt.nextId
  {
    RefusedExactly(rt.agent.machine, requested);
  }

  /** It is time for a wake check, with the frame in the buffer. */
  predicate Due(rt: Rt, f: AudioFrame, wake: Wake)
    requires Playable(rt.agent.audio.frames)
  {
    && State(rt) != MicOff && f.sampleRate != 0 && wake.cooled
    && Appended(rt.agent.audio, f).durationMs >= 900 && f.timestampMs - rt.agent.lastWakeCheckMs >= 400
  }

  /** The last 1400 ms, the frame included, can be decoded, or need not be. */
  predicate Decodable(rt: Rt, f: AudioFrame, wake: Wake)
    requires Playable(rt.agent.audio.frames) && f.sampleRate != 0
  {
    FitPlayable(rt, f);
    wake.enrolled ==> forall g | g in Recent(Appended(rt.agent.audio, f).frames, 1400) :: g.byteCount % 2 == 0
  }

  lemma FitPlayable(rt: Rt, f: AudioFrame)
    requires Playable(rt.agent.audio.frames) && f.sampleRate != 0
    ensures Playable(Appended(rt.agent.audio, f).frames)
  {
    assert Playable(Buffered(rt, f).agent.audio.frames);
  }

  /** Where the agent is when a wake phrase has been heard: an interactive one goes back to standby, and any
      other becomes interactive. */
  function Woken(state: AgentState): AgentState {
    if state == Interactive then Standby else Interactive
  }

  /** A frame of audio changes the agent's state exactly when a check is due, can decode what it is given, and
      finds an enrolled phrase; what is logged, and the time of the last check, in every case. */
  lemma WakeDecides(rt: Rt, f: AudioFrame, wake: Wake)
    requires Playable(rt.agent.audio.frames)
    ensures var t, due := Ingested(rt, f, wake), Due(rt, f, wake);
            var scored := due && Decodable(rt, f, wake);
            var heard := scored && wake.enrolled && wake.similar;
            && State(t) == (if heard then Woken(State(rt)) else State(rt))
            && Says(rt, t, (if State(rt) != MicOff && f.sampleRate != 0 then [AudioLevel(f.sequence)] else [])
                           + (if scored then [WakeScored(State(rt) == Interactive, heard)] else [])
                           + (if heard then [WakeDetected(State(rt) == Interactive),
                                             StateChanged(State(rt), Woken(State(rt)))] else []))
            && t.agent.lastWakeCheckMs == (if due then f.timestampMs else rt.agent.lastWakeCheckMs)
            && t.view == rt.view && t.inflight == rt.inflight && t.nextId == rt.nextId
  {
    if State(rt) != MicOff && f.sampleRate != 0 {
      FitPlayable(rt, f);
      var buffered := Buffered(rt, f);
      EmittedSays(rt.(agent := rt.agent.(audio := Appended(rt.agent.audio, f))), AudioLevel(f.sequence));
      if Due(rt, f, wake) && Decodable(rt, f, wake) {
        var checked := buffered.(agent := buffered.agent.(lastWakeCheckMs := f.timestampMs));
        ScoredSays(checked, wake.enrolled && wake.similar);
        ChecksScore(rt, f, wake);
        SaysMore(rt, buffered, Ingested(rt, f, wake), [AudioLevel(f.sequence)],
                 ScoredBodies(State(rt), wake.enrolled && wake.similar));
      }
    }
  }

  lemma ChecksScore(rt: Rt, f: AudioFrame, wake: Wake)
    requires Playable(rt.agent.audio.frames) && Due(rt, f, wake) && Decodable(rt, f, wake)
    ensures var buffered := Buffered(rt, f);
            var checked := buffered.(agent := buffered.agent.(lastWakeCheckMs := f.timestampMs));
            Ingested(rt, f, wake) == Scored(checked, wake.enrolled && wake.similar)
  {
  }

  function ScoredBodies(state: AgentState, detected: bool): seq<Body> {
    [WakeScored(state == Interactive, detected)]
    + if detected then [WakeDetected(state == Interactive), StateChanged(state, Woken(state))] else []
  }

  lemma ScoredSays(rt: Rt, detected: bool)
    ensures var t := Scored(rt, detected);
            && Says(rt, t, ScoredBodies(State(rt), detected))
            && State(t) == (if detected then Woken(State(rt)) else State(rt))
            && t.agent.lastWakeCheckMs == rt.agent.lastWakeCheckMs
            && t.view == rt.view && t.inflight == rt.inflight && t.nextId == rt.nextId
  {
    hide Says;
    var deactivation := State(rt) == Interactive;
    var scored := Emitted(rt, WakeScored(deactivation, detected));
    EmittedSays(rt, WakeScored(deactivation, detected));
    if detected {
      var found := Emitted(scored, WakeDetected(deactivation));
      EmittedSays(scored, WakeDetected(deactivation));
      SetStateSays(found, Woken(State(rt)));
      var t := SetState(found, Woken(State(rt)));
      SaysMore(rt, scored, found, [WakeScored(deactivation, detected)], [WakeDetected(deactivation)]);
      SaysMore(rt, found, t, [WakeScored(deactivation, detected)] + [WakeDetected(deactivation)],
               [StateChanged(State(rt), Woken(State(rt)))]);
      assert ScoredBodies(State(rt), detected)
          == [WakeScored(deactivation, detected)] + [WakeDetected(deactivation)]
             + [StateChanged(State(rt), Woken(State(rt)))];
    } else {
      assert ScoredBodies(State(rt), detected) == [WakeScored(deactivation, detected)];
    }
  }

  // ------------------------------------------------------------------ settings and restarts

  /** A change of the buffer's length is stored; a positive one is logged too, and starts an empty buffer. */
  lemma PatchSays(rt: Rt, capacity: int)
    ensures var t := SettingsPatched(rt, capacity);
            && t.agent.bufferSetting == Some(capacity)
            && t.agent.audio == (if capacity > 0 then Buffer(capacity, [], 0, 0) else rt.agent.audio)
            && Says(rt, t, if capacity > 0 then [Other("settings.changed")] else [])
            && State(t) == State(rt) && t.view == rt.view && t.inflight == rt.inflight && t.nextId == rt.nextId
  {
  }

  /** A process that starts again has the stored state, or the microphone off; an empty buffer of the stored
      length, or of 5000 ms; nothing suspended; the log as it was, and the projection of its first 10000 events. */
  lemma RestartSays(rt: Rt)
    requires BufferMs(rt.agent) > 0
    ensures var t := Restarted(rt);
            && State(t) == (if rt.agent.persisted.Some? then rt.agent.persisted.value else MicOff)
            && t.agent.machine.previousSafe == State(t)
            && t.agent.audio == Buffer(if rt.agent.bufferSetting.Some? then rt.agent.bufferSetting.value else 5000,
                                       [], 0, 0)
            && t.agent.persisted == rt.agent.persisted && t.agent.bufferSetting == rt.agent.bufferSetting
            && t.inflight == map[] && t.log == rt.log && t.last == rt.last
            && t.view == Fold(if |rt.log| > 10000 then rt.log[..10000] else rt.log)
  {
  }

  // ------------------------------------------------------------------ meetings

  /** Without an active meeting a new one begins, with a new id, and an agent on standby starts to transcribe;
      with one nothing happens. */
  lemma MeetingStartSays(rt: Rt, title: Option<string>, at: int)
    ensures var t, m := StartMeeting(rt, title, at), Meeting(rt.nextId, title, at, None, true, false);
            if rt.view.meeting.Some? && rt.view.meeting.value.active then t == rt
            else
              && t.view == Projection(Some(m), [], []) && t.nextId == rt.nextId + 1 && t.inflight == rt.inflight
              && State(t) == (if State(rt) == Standby then Transcribing else State(rt))
              && Says(rt, t, [MeetingStarted(m)]
                             + if State(rt) == Standby then [StateChanged(Standby, Transcribing)] else [])
  {
    if !Active(rt) {
      var m := Meeting(rt.nextId, title, at, None, true, false);
      var begun := MeetingBegun(rt, title, at);
      EmittedSays(rt.(nextId := rt.nextId + 1, view := Projection(Some(m), [], [])), MeetingStarted(m));
      assert Says(rt, begun, [MeetingStarted(m)]);
      SetStateSays(begun, Transcribing);
      if State(rt) == Standby {
        SaysMore(rt, begun, SetState(begun, Transcribing), [MeetingStarted(m)], [StateChanged(Standby, Transcribing)]);
      }
    }
  }

  /** The meeting as it is once it has ended. */
  function EndedAs(m: Meeting, at: int): Meeting {
    Meeting(m.id, m.title, m.startedAt, Some(at), false, true)
  }

  /** Ending a meeting sums it up, closes it, and brings an agent that transcribes or interacts back to standby;
      transcript and facts stay. */
  lemma MeetingEndSays(rt: Rt, at: int)
    ensures var t := EndMeeting(rt, at);
            if rt.view.meeting.None? then t == rt
            else
              var m, busy := rt.view.meeting.value, State(rt) in {Transcribing, Interactive};
              && t.view == rt.view.(meeting := Some(EndedAs(m, at)))
              && t.nextId == rt.nextId && t.inflight == rt.inflight
              && State(t) == (if busy then Standby else State(rt))
              && Says(rt, t, [SummaryCreated(FinalCount(rt.view.transcript)), MeetingEnded(EndedAs(m, at))]
                             + if busy then [StateChanged(State(rt), Standby)] else [])
  {
    if rt.view.meeting.Some? {
      var m := rt.view.meeting.value;
      var closed := MeetingClosed(rt, at);
      ClosedSays(rt, at);
      SetStateSays(closed, Standby);
      if State(rt) in {Transcribing, Interactive} {
        SaysMore(rt, closed, SetState(closed, Standby),
                 [SummaryCreated(FinalCount(rt.view.transcript)), MeetingEnded(EndedAs(m, at))],
                 [StateChanged(State(rt), Standby)]);
      }
    }
  }

  lemma ClosedSays(rt: Rt, at: int)
    requires rt.view.meeting.Some?
    ensures var t, m := MeetingClosed(rt, at), rt.view.meeting.value;
            && Says(rt, t, [SummaryCreated(FinalCount(rt.view.transcript)), MeetingEnded(EndedAs(m, at))])
            && t.view == rt.view.(meeting := Some(EndedAs(m, at))) && State(t) == State(rt)
            && t.nextId == rt.nextId && t.inflight == rt.inflight && t.agent == rt.agent
  {
    hide FinalCount;
    var summary := SummaryCreated(FinalCount(rt.view.transcript));
    var summarised := Emitted(rt, summary);
    var ended := MeetingEnded(EndedAs(rt.view.meeting.value, at));
    EmittedSays(rt, summary);
    EmittedSays(summarised, ended);
    SaysMore(rt, summarised, Emitted(summarised, ended), [summary], [ended]);
  }

  /** The summary counts every segment of the transcript that is final. */
  lemma {:induction false} AllCounted(transcript: seq<Segment>)
    requires forall s | s in transcript :: s.isFinal
    ensures FinalCount(transcript) == |transcript|
  {
    if |transcript| > 0 {
      AllCounted(transcript[..|transcript| - 1]);
    }
  }

  // ------------------------------------------------------------------ injections

  /** How many words a partial transcript has of so many: half of them, but at least one. */
  function Half(n: nat): nat {
    if n == 1 then 1 else n / 2
  }

  /** An injection begins in the active meeting, or in a new one; its partial segment has the first half of the
      words, starts 50 ms after the transcript ends, and the final one will last 160 ms a word, but no less than
      600 ms. */
  lemma PartialSays(rt: Rt, text: string, words: seq<string>, speaker: string)
    requires rt.view.meeting.Some? && |words| > 0
    ensures var t := PartialBegun(rt, text, words, speaker);
            var start := if |rt.view.transcript| > 0 then rt.view.transcript[|rt.view.transcript| - 1].endMs + 50
                else 0;
            && Says(rt, t, [PartialHeard(Segment(rt.nextId, rt.view.meeting.value.id, start, start + 300,
                                                 Join(words[..Half(|words|)]), false, speaker, None))])
            && t.inflight == rt.inflight[rt.nextId := Injection(start, start + LastingMs(|words|), text, speaker,
                                                                rt.view.meeting.value.id)]
            && t.view == rt.view && t.nextId == rt.nextId + 1 && State(t) == State(rt)
  {
    EmittedSays(rt, PartialHeard(Segment(0, 0, 0, 0, "", false, "", None)));
  }

  function LastingMs(words: nat): nat {
    if words < 4 then 600 else words * 160
  }

  /** The facts found in a segment, as they are kept. */
  function FactsOf(id: nat, segment: Segment, findings: seq<Finding>): seq<Fact> {
    seq(|findings|, i requires 0 <= i < |findings| =>
      Fact(id + i, segment.meetingId, findings[i].kind, findings[i].text, [segment.id]))
  }

  function Extractions(facts: seq<Fact>): seq<Body> {
    seq(|facts|, i requires 0 <= i < |facts| => FactExtracted(facts[i]))
  }

  lemma {:induction false} FactsSay(rt: Rt, segment: Segment, findings: seq<Finding>)
    ensures var t, facts := FactsAdded(rt, segment, findings), FactsOf(rt.nextId, segment, findings);
            && Says(rt, t, Extractions(facts)) && t.view == rt.view.(facts := rt.view.facts + facts)
            && t.nextId == rt.nextId + |findings| && t.inflight == rt.inflight && State(t) == State(rt)
  {
    if |findings| == 0 {
      assert rt.view.facts + [] == rt.view.facts;
    } else {
      var n := |findings| - 1;
      var before, facts := FactsAdded(rt, segment, findings[..n]), FactsOf(rt.nextId, segment, findings[..n]);
      FactsSay(rt, segment, findings[..n]);
      FactSays(before, segment, findings[n]);
      var fact := Fact(rt.nextId + n, segment.meetingId, findings[n].kind, findings[n].text, [segment.id]);
      SaysMore(rt, before, FactsAdded(rt, segment, findings), Extractions(facts), [FactExtracted(fact)]);
      assert FactsOf(rt.nextId, segment, findings) == facts + [fact];
      assert Extractions(facts + [fact]) == Extractions(facts) + [FactExtracted(fact)];
      assert rt.view.facts + facts + [fact] == rt.view.facts + (facts + [fact]);
    }
  }

  lemma FactSays(rt: Rt, segment: Segment, finding: Finding)
    ensures var t := FactAdded(rt, segment, finding);
            var fact := Fact(rt.nextId, segment.meetingId, finding.kind, finding.text, [segment.id]);
            && Says(rt, t, [FactExtracted(fact)]) && t.view == rt.view.(facts := rt.view.facts + [fact])
            && t.nextId == rt.nextId + 1 && t.inflight == rt.inflight && State(t) == State(rt)
  {
  }

  function Others(kinds: seq<string>): seq<Body> {
    seq(|kinds|, i requires 0 <= i < |kinds| => Other(kinds[i]))
  }

  lemma {:induction false} OthersSay(rt: Rt, kinds: seq<string>)
    ensures var t := OthersEmitted(rt, kinds);
            && Says(rt, t, Others(kinds))
            && t.view == rt.view && t.nextId == rt.nextId && t.inflight == rt.inflight && t.agent == rt.agent
  {
    if |kinds| > 0 {
      var n := |kinds| - 1;
      var before := OthersEmitted(rt, kinds[..n]);
      OthersSay(rt, kinds[..n]);
      EmittedSays(before, Other(kinds[n]));
      SaysMore(rt, before, OthersEmitted(rt, kinds), Others(kinds[..n]), [Other(kinds[n])]);
      assert Others(kinds) == Others(kinds[..n]) + [Other(kinds[n])];
    }
  }

  /** The words for waking and for going back to standby, in one text: an agent on standby wakes at the first,
      and one that is interactive by then goes back at the second. */
  lemma PhrasesSay(rt: Rt, wakes: bool, sleeps: bool)
    ensures var t := PhrasesHeard(rt, wakes, sleeps);
            var up := wakes && State(rt) == Standby;
            var down := sleeps && (State(rt) == Interactive || up);
            && State(t) == (if down then Standby else if up then Interactive else State(rt))
            && Says(rt, t, (if up then [StateChanged(Standby, Interactive)] else [])
                           + if down then [StateChanged(Interactive, Standby)] else [])
            && t.view == rt.view && t.nextId == rt.nextId && t.inflight == rt.inflight
  {
    var woken := if wakes && State(rt) == Standby then SetState(rt, Interactive) else rt;
    SetStateSays(rt, Interactive);
    SetStateSays(woken, Standby);
    if sleeps && State(woken) == Interactive && woken != rt {
      SaysMore(rt, woken, SetState(woken, Standby), [StateChanged(Standby, Interactive)],
               [StateChanged(Interactive, Standby)]);
    }
  }

  /** The final segment of a suspended injection: the text and the speaker it was given, at the times fixed when
      it began, in the meeting at hand, and in place of its partial one. */
  function FinalOf(rt: Rt, revision: nat): Segment
    requires revision in rt.inflight && rt.view.meeting.Some?
  {
    var i := rt.inflight[revision];
    Segment(rt.nextId, rt.view.meeting.value.id, i.startMs, i.endMs, i.text, true, i.speaker, Some(revision))
  }

  lemma FinalSays(rt: Rt, revision: nat)
    requires revision in rt.inflight && rt.view.meeting.Some?
    ensures var t := FinalAdded(rt, revision);
            && Says(rt, t, [FinalHeard(FinalOf(rt, revision))])
            && t.view == rt.view.(transcript := rt.view.transcript + [FinalOf(rt, revision)])
            && t.inflight == rt.inflight - {revision} && t.nextId == rt.nextId + 1 && State(t) == State(rt)
  {
  }

  /** Resuming an injection adds its final segment, then the facts found in it, in order; then come the words
      for waking and for going back to standby, and what the text is routed to. */
  lemma FinishSays(rt: Rt, revision: nat, effects: Effects) returns (rest: seq<Body>)
    requires revision in rt.inflight && rt.view.meeting.Some?
    ensures var t, s := InjectFinish(rt, revision, effects), FinalOf(rt, revision);
            var facts := FactsOf(rt.nextId + 1, s, effects.findings);
            var up := effects.wakes && State(rt) == Standby;
            var down := effects.sleeps && (State(rt) == Interactive || up);
            && Says(rt, t, [FinalHeard(s)] + Extractions(facts) + rest)
            && rest == (if up then [StateChanged(Standby, Interactive)] else [])
                       + (if down then [StateChanged(Interactive, Standby)] else []) + Others(effects.routed)
            && t.view == Projection(rt.view.meeting, rt.view.transcript + [s], rt.view.facts + facts)
            && State(t) == (if down then Standby else if up then Interactive else State(rt))
            && t.inflight == rt.inflight - {revision} && t.nextId == rt.nextId + 1 + |effects.findings|
  {
    hide Says, SetState, FactsAdded, OthersEmitted, PhrasesHeard, Extractions, FactsOf, FinalAdded;
    var s := FinalOf(rt, revision);
    var added := FinalAdded(rt, revision);
    FinalSays(rt, revision);
    var noted := FactsAdded(added, s, effects.findings);
    FactsSay(added, s, effects.findings);
    var woken := PhrasesHeard(noted, effects.wakes, effects.sleeps);
    PhrasesSay(noted, effects.wakes, effects.sleeps);
    OthersSay(woken, effects.routed);
    var up := effects.wakes && State(rt) == Standby;
    var down := effects.sleeps && (State(rt) == Interactive || up);
    var phrases := (if up then [StateChanged(Standby, Interactive)] else [])
                   + if down then [StateChanged(Interactive, Standby)] else [];
    rest := phrases + Others(effects.routed);
    var facts := FactsOf(rt.nextId + 1, s, effects.findings);
    SaysMore(rt, added, noted, [FinalHeard(s)], Extractions(facts));
    SaysMore(noted, woken, OthersEmitted(woken, effects.routed), phrases, Others(effects.routed));
    SaysMore(rt, noted, OthersEmitted(woken, effects.routed), [FinalHeard(s)] + Extractions(facts), rest);
  }
}
