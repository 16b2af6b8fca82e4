/** The runtime object itself: its methods update their fields step by step, and each is proved to do
    what the functions of `Runtime`, over which the guarantees are stated, say. */
module JarvisRuntimes {
  import opened Basics
  import opened Wrappers
  import opened AgentStates
  import opened AudioBuffer
  import opened Timeline
  import opened Runtime

  class JarvisRuntime {
    // the store
    var log: seq<Event>
    var last: nat
    var nextId: nat
    var persisted: Option<AgentState>
    var bufferSetting: Option<int>
    // the process
    var stateMachine: AgentStateMachine
    var session: SessionCopy
    var audioBuffer: AudioRingBuffer
    var lastWakeCheckMs: int
    var meeting: Option<Meeting>
    var transcript: seq<Segment>
    var facts: seq<Fact>
    var inflight: map<nat, Injection>
    ghost var orphans: map<nat, nat>

    ghost function View(): Rt
      reads this, stateMachine, audioBuffer
    {
      Rt(log, last, nextId, Projection(meeting, transcript, facts),
         Agent(stateMachine.View(), session, persisted, audioBuffer.View(), bufferSetting, lastWakeCheckMs),
         inflight, orphans)
    }

    ghost predicate Valid()
      reads this, stateMachine, audioBuffer
    {
      audioBuffer.Valid() && (inflight != map[] ==> meeting.Some?)
    }

    /** The constructor run on a store that an earlier process, seen last as `before`, has left. */
    constructor (ghost before: Rt, log: seq<Event>, last: nat, nextId: nat, persisted: Option<AgentState>,
                 bufferSetting: Option<int>)
      requires log == before.log && last == before.last && nextId == before.nextId
      requires persisted == before.agent.persisted && bufferSetting == before.agent.bufferSetting
      requires BufferMs(before.agent) > 0
      ensures fresh(stateMachine) && fresh(audioBuffer)
      ensures Valid() && View() == Restarted(before)
    {
      this.log, this.last, this.nextId, this.persisted, this.bufferSetting := log, last, nextId, persisted,
          bufferSetting;
      var machine := new AgentStateMachine(persisted.GetOr(MicOff));
      stateMachine := machine;
      session := SessionCopy(machine.state, machine.previousSafe);
      audioBuffer := new AudioRingBuffer(bufferSetting.GetOr(DEFAULT_BUFFER_MS));
      lastWakeCheckMs := 0;
      meeting, transcript, facts := None, [], [];
      inflight := map[];
      orphans := Restarted(before).orphans;
      new;
      RebuildProjection();
    }

    method RebuildProjection()
      requires (meeting, transcript, facts) == (None, [], [])
      modifies this`meeting, this`transcript, this`facts
      ensures Projection(meeting, transcript, facts) == Rebuilt(log)
    {
      var events := if |log| <= REBUILD_LIMIT then log else log[..REBUILD_LIMIT];
      for k := 0 to |events|
        invariant Projection(meeting, transcript, facts) == Fold(events[..k])
      {
        assert events[..k + 1][..k] == events[..k];
        match events[k].body
        case MeetingStarted(m) =>
          meeting, transcript, facts := Some(m), [], [];
        case MeetingEnded(m) =>
          if meeting.Some? {
            meeting := Some(m);
          }
        case FinalHeard(segment) =>
          transcript := transcript + [segment];
        case FactExtracted(fact) =>
          facts := facts + [fact];
        case _ =>
      }
      assert events[..|events|] == events;
    }

    method Emit(body: Body)
      modifies this`log, this`last
      ensures View() == Emitted(old(View()), body)
    {
      last := last + 1;
      log := log + [Event(last, last, if meeting.Some? then Some(meeting.value.id) else None, body)];
    }

    method NewId() returns (id: nat)
      modifies this`nextId
      ensures id == old(nextId) && View() == old(View()).(nextId := id + 1)
    {
      id := nextId;
      nextId := nextId + 1;
    }

    method SetState(requested: AgentState, reason: string) returns (ok: bool)
      requires Valid()
      modifies this`log, this`last, this`session, this`persisted, stateMachine, audioBuffer
      ensures Valid() && View() == Runtime.SetState(old(View()), requested)
      ensures ok <==> Moved(old(stateMachine.View()), requested).Some?
    {
      var transition := stateMachine.Transition(requested, reason);
      if transition.Err? {
        Emit(TransitionRejected(requested));
        return false;
      }
      if requested == MicOff {
        audioBuffer.Clear();
      }
      persisted := Some(requested);
      session := SessionCopy(requested, stateMachine.previousSafe);
      Emit(StateChanged(transition.value.previous, transition.value.current));
      ok := true;
    }

    method StartMeeting(title: Option<string>, at: int)
      requires Valid()
      modifies this`log, this`last, this`nextId, this`meeting, this`transcript, this`facts, this`session,
          this`persisted,
              stateMachine, audioBuffer
      ensures Valid() && View() == Runtime.StartMeeting(old(View()), title, at)
    {
      if meeting.Some? && meeting.value.active {
        return;
      }
      BeginMeeting(title, at);
      if stateMachine.state == Standby {
        var _ := SetState(Transcribing, "meeting_started");
      }
    }

    method BeginMeeting(title: Option<string>, at: int)
      modifies this`log, this`last, this`nextId, this`meeting, this`transcript, this`facts
      ensures View() == MeetingBegun(old(View()), title, at)
    {
      var id := NewId();
      meeting := Some(Meeting(id, title, at, None, true, false));
      transcript := [];
      facts := [];
      Emit(MeetingStarted(meeting.value));
    }

    method EndMeeting(at: int) returns (ok: bool)
      requires Valid()
      modifies this`log, this`last, this`meeting, this`session, this`persisted, stateMachine, audioBuffer
      ensures Valid() && View() == Runtime.EndMeeting(old(View()), at)
      ensures ok <==> old(meeting).Some?
    {
      if meeting.None? {
        return false;
      }
      var ended := meeting.value.(endedAt := Some(at), active := false, summaryCompleted := true);
      Emit(SummaryCreated(FinalCount(transcript)));
      Emit(MeetingEnded(ended));
      meeting := Some(ended);
      if stateMachine.state == Transcribing || stateMachine.state == Interactive {
        var _ := SetState(Standby, "meeting_ended");
      }
      ok := true;
    }

    method IngestAudio(f: AudioFrame, wake: Wake) returns (r: Ingestion)
      requires Valid()
      modifies this`log, this`last, this`session, this`persisted, this`lastWakeCheckMs, stateMachine, audioBuffer
      ensures Valid() && View() == Ingested(old(View()), f, wake)
      ensures r == IngestAnswer(old(View()), f, wake)
    {
      if stateMachine.state == MicOff {
        return Cancelled;
      }
      var accepted := audioBuffer.Append(f);
      if !accepted {
        return Raised;
      }
      Emit(AudioLevel(f.sequence));
      if wake.cooled && audioBuffer.durationMs >= 900 && f.timestampMs - lastWakeCheckMs >= 400 {
        lastWakeCheckMs := f.timestampMs;
        var raises := DetectorRaises(wake);
        if raises {
          return Raised;
        }
        Score(wake.enrolled && wake.similar);
      }
      r := Accepted;
    }

    /** Whether the detector fails to decode the frames it is given. */
    method DetectorRaises(wake: Wake) returns (raises: bool)
      requires Valid() && audioBuffer.frames != []
      ensures raises == Undecodable(audioBuffer.frames, wake)
    {
      if !wake.enrolled {
        return false;
      }
      var recent := audioBuffer.Snapshot(Some(WAKE_WINDOW_MS));
      if audioBuffer.durationMs > WAKE_WINDOW_MS {
        ShortenedShortest(audioBuffer.frames, WAKE_WINDOW_MS);
        ShortestUnique(recent, Shortened(audioBuffer.frames, WAKE_WINDOW_MS), audioBuffer.frames, WAKE_WINDOW_MS);
      }
      raises := exists f | f in recent :: f.byteCount % 2 != 0;
    }

    method Score(detected: bool)
      requires Valid()
      modifies this`log, this`last, this`session, this`persisted, stateMachine, audioBuffer
      ensures Valid() && View() == Scored(old(View()), detected)
    {
      var deactivation := stateMachine.state == Interactive;
      Emit(WakeScored(deactivation, detected));
      if detected {
        Emit(WakeDetected(deactivation));
        if deactivation {
          var _ := SetState(Standby, "wake_deactivation");
        } else {
          var _ := SetState(Interactive, "wake_activation");
        }
      }
    }

    /** `update_settings` with `audio.buffer_ms`. */
    method UpdateBufferMs(capacity: int) returns (ok: bool)
      requires Valid()
      modifies this`bufferSetting, this`audioBuffer
      ensures Valid() && View() == Resized(old(View()), capacity)
      ensures ok <==> capacity > 0
    {
      bufferSetting := Some(capacity);
      if capacity <= 0 {
        return false;
      }
      audioBuffer := new AudioRingBuffer(capacity);
      ok := true;
    }

    /** The request that changes the setting. */
    method PatchSettings(capacity: int) returns (ok: bool)
      requires Valid()
      modifies this`log, this`last, this`bufferSetting, this`audioBuffer
      ensures Valid() && View() == SettingsPatched(old(View()), capacity)
      ensures ok <==> capacity > 0
    {
      ok := UpdateBufferMs(capacity);
      if ok {
        Emit(Other("settings.changed"));
      }
    }

    /** `inject_transcript` up to its suspension. */
    method InjectUntilYield(text: string, words: seq<string>, speaker: string, at: int)
      requires Valid()
      modifies this`log, this`last, this`nextId, this`meeting, this`transcript, this`facts, this`session, this`persisted
      modifies this`inflight, stateMachine, audioBuffer
      ensures Valid() && View() == InjectBegin(old(View()), text, words, speaker, at)
    {
      if meeting.None? || !meeting.value.active {
        StartMeeting(Some(DEMO_TITLE), at);
      }
      if |words| > 0 {
        BeginPartial(text, words, speaker);
      }
    }

    method BeginPartial(text: string, words: seq<string>, speaker: string)
      requires meeting.Some?
      modifies this`log, this`last, this`nextId, this`inflight
      ensures View() == PartialBegun(old(View()), text, words, speaker)
    {
      var startMs := if |transcript| > 0 then transcript[|transcript| - 1].endMs + 50 else 0;
      var partial := Join(words[..Min(|words|, Max(1, |words| / 2))]);
      var id := NewId();
      inflight := inflight[id :=
                           Injection(startMs, startMs + Max(600, |words| * 160), text, speaker, meeting.value.id)];
      Emit(PartialHeard(Segment(id, meeting.value.id, startMs, startMs + 300, partial, false, speaker, None)));
    }

    /** `inject_transcript` resumed: the meeting is read again, and may be another one by now. */
    method InjectAfterYield(revision: nat, effects: Effects)
      requires Valid() && revision in inflight
      modifies this`log, this`last, this`nextId, this`transcript, this`facts, this`session, this`persisted
      modifies this`inflight, stateMachine, audioBuffer
      ensures Valid() && View() == InjectFinish(old(View()), revision, effects)
    {
      var segment := AddFinal(revision);
      ExtractFacts(segment, effects.findings);
      HearPhrases(effects.wakes, effects.sleeps);
      EmitOthers(effects.routed);
    }

    method AddFinal(revision: nat) returns (segment: Segment)
      requires revision in inflight && meeting.Some?
      modifies this`log, this`last, this`nextId, this`transcript, this`inflight
      ensures View() == FinalAdded(old(View()), revision)
      ensures transcript == old(transcript) + [segment]
    {
      var i := inflight[revision];
      var id := NewId();
      segment := Segment(id, meeting.value.id, i.startMs, i.endMs, i.text, true, i.speaker, Some(revision));
      transcript := transcript + [segment];
      inflight := inflight - {revision};
      Emit(FinalHeard(segment));
    }

    method HearPhrases(wakes: bool, sleeps: bool)
      requires Valid()
      modifies this`log, this`last, this`session, this`persisted, stateMachine, audioBuffer
      ensures Valid() && View() == PhrasesHeard(old(View()), wakes, sleeps)
    {
      if wakes && stateMachine.state == Standby {
        var _ := SetState(Interactive, "text_fixture_wake");
      }
      if sleeps && stateMachine.state == Interactive {
        var _ := SetState(Standby, "text_fixture_deactivation");
      }
    }

    method EmitOthers(kinds: seq<string>)
      modifies this`log, this`last
      ensures View() == OthersEmitted(old(View()), kinds)
    {
      for k := 0 to |kinds|
        invariant View() == OthersEmitted(old(View()), kinds[..k])
      {
        assert kinds[..k + 1][..k] == kinds[..k];
        Emit(Other(kinds[k]));
      }
      assert kinds[..|kinds|] == kinds;
    }

    method ExtractFacts(segment: Segment, findings: seq<Finding>)
      modifies this`log, this`last, this`nextId, this`facts
      ensures View() == FactsAdded(old(View()), segment, findings)
    {
      for k := 0 to |findings|
        invariant View() == FactsAdded(old(View()), segment, findings[..k])
      {
        assert findings[..k + 1][..k] == findings[..k];
        var id := NewId();
        var fact := Fact(id, segment.meetingId, findings[k].kind, findings[k].text, [segment.id]);
        facts := facts + [fact];
        Emit(FactExtracted(fact));
      }
      assert findings[..|findings|] == findings;
    }
  }
}
