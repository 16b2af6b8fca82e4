/** The runtime between two suspensions (application/runtime.py): each function below is a stretch of
    code that nothing can interrupt. The one suspension inside a request is the `sleep(0)` between the
    partial and the final transcript, so an injection is two steps. */
module Runtime {
  import opened Basics
  import opened Wrappers
  import opened AgentStates
  import opened AudioBuffer
  import opened Timeline

  const REBUILD_LIMIT: nat := 10000
  const DEFAULT_BUFFER_MS := 5000
  const DEMO_TITLE := "Réunion de démonstration"

  /** The state fields of `agent_session`. */
  datatype SessionCopy = SessionCopy(current: AgentState, previousSafe: AgentState)

  datatype Agent = Agent(machine: Machine, session: SessionCopy, persisted: Option<AgentState>,
                         audio: Buffer, bufferSetting: Option<int>, lastWakeCheckMs: int)

  /** An injection suspended after its partial segment. */
  datatype Injection = Injection(startMs: int, endMs: int, text: string, speaker: string, beganIn: nat)

  /** The store's log of this session, the live projection, the agent, and the suspended injections by
      the id of their partial segment. `orphans` are the injections that a restart cut short, with the
      meeting each began in. `nextId` stands for uuid4. */
  datatype Rt = Rt(log: seq<Event>, last: nat, nextId: nat, view: Projection, agent: Agent,
                   inflight: map<nat, Injection>, orphans: map<nat, nat>)

  function Emitted(rt: Rt, body: Body): Rt {
    var meetingId := if rt.view.meeting.Some? then Some(rt.view.meeting.value.id) else None;
    rt.(log := rt.log + [Event(rt.last + 1, rt.last + 1, meetingId, body)], last := rt.last + 1)
  }

  // ------------------------------------------------------------------ the agent's state

  function SetState(rt: Rt, requested: AgentState): Rt {
    match Moved(rt.agent.machine, requested)
    case None => Emitted(rt, TransitionRejected(requested))
    case Some(machine) =>
      Emitted(rt.(agent := rt.agent.(machine := machine,
                                     audio := if requested == MicOff then Cleared(rt.agent.audio) else rt.agent.audio,
                                     persisted := Some(requested),
                                     session := SessionCopy(requested, machine.previousSafe))),
              StateChanged(rt.agent.machine.state, requested))
  }

  const WAKE_WINDOW_MS := 1400

  /** What the wake detector has to go on: whether a phrase is enrolled, and what its features say. */
  datatype Wake = Wake(cooled: bool, enrolled: bool, similar: bool)

  /** The detector decodes the recent frames, and raises when one has an odd number of bytes. */
  predicate Undecodable(fs: seq<AudioFrame>, wake: Wake)
    requires Playable(fs)
  {
    wake.enrolled && exists f | f in Recent(fs, WAKE_WINDOW_MS) :: f.byteCount % 2 != 0
  }

  function Scored(rt: Rt, detected: bool): Rt {
    var deactivation := rt.agent.machine.state == Interactive;
    var scored := Emitted(rt, WakeScored(deactivation, detected));
    if !detected then scored
    else SetState(Emitted(scored, WakeDetected(deactivation)), if deactivation then Standby else Interactive)
  }

  predicate WakeChecked(rt: Rt, f: AudioFrame, wake: Wake) {
    wake.cooled && rt.agent.audio.durationMs >= 900 && f.timestampMs - rt.agent.lastWakeCheckMs >= 400
  }

  function Buffered(rt: Rt, f: AudioFrame): (r: Rt)
    requires Playable(rt.agent.audio.frames) && f.sampleRate != 0
    ensures Playable(r.agent.audio.frames)
  {
    FitIsLongestSuffix(rt.agent.audio.frames + [f], rt.agent.audio.capacityMs);
    Emitted(rt.(agent := rt.agent.(audio := Appended(rt.agent.audio, f))), AudioLevel(f.sequence))
  }

  /** `ingest_audio`. A zero sample rate raises before anything changes; a detector that raises leaves the
      frame buffered, its level logged and the time of the check set. */
  function Ingested(rt: Rt, f: AudioFrame, wake: Wake): Rt
    requires Playable(rt.agent.audio.frames)
  {
    if rt.agent.machine.state == MicOff || f.sampleRate == 0 then rt
    else
      Heard(Buffered(rt, f), f, wake)
  }

  /** The wake check, when it is time for one. */
  function Heard(rt: Rt, f: AudioFrame, wake: Wake): Rt
    requires Playable(rt.agent.audio.frames)
  {
    if !WakeChecked(rt, f, wake) then rt
    else
      var checked := rt.(agent := rt.agent.(lastWakeCheckMs := f.timestampMs));
      if Undecodable(rt.agent.audio.frames, wake) then checked else Scored(checked, wake.enrolled && wake.similar)
  }

  /** What `ingest_audio` answers. */
  datatype Ingestion = Cancelled | Accepted | Raised

  function IngestAnswer(rt: Rt, f: AudioFrame, wake: Wake): Ingestion
    requires Playable(rt.agent.audio.frames)
  {
    if rt.agent.machine.state == MicOff then Cancelled
    else if f.sampleRate == 0 then Raised
    else
      var heard := Buffered(rt, f);
      if WakeChecked(heard, f, wake) && Undecodable(heard.agent.audio.frames, wake) then Raised else Accepted
  }

  /** `audio.buffer_ms` in `update_settings`: the setting is stored first; a capacity that is not positive
      then raises, leaving the old buffer. */
  function Resized(rt: Rt, capacity: int): Rt {
    var stored := rt.(agent := rt.agent.(bufferSetting := Some(capacity)));
    if capacity <= 0 then stored else stored.(agent := stored.agent.(audio := Fresh(capacity)))
  }

  /** The request that updates the setting logs it when that went well. */
  function SettingsPatched(rt: Rt, capacity: int): Rt {
    var resized := Resized(rt, capacity);
    if capacity <= 0 then resized else Emitted(resized, Other("settings.changed"))
  }

  // ------------------------------------------------------------------ meetings

  predicate Active(rt: Rt) {
    rt.view.meeting.Some? && rt.view.meeting.value.active
  }

  function MeetingBegun(rt: Rt, title: Option<string>, at: int): Rt {
    var m := Meeting(rt.nextId, title, at, None, true, false);
    Emitted(rt.(nextId := rt.nextId + 1, view := Projection(Some(m), [], [])), MeetingStarted(m))
  }

  function StartMeeting(rt: Rt, title: Option<string>, at: int): Rt {
    if Active(rt) then rt
    else
      var begun := MeetingBegun(rt, title, at);
      if begun.agent.machine.state == Standby then SetState(begun, Transcribing) else begun
  }

  function FinalCount(transcript: seq<Segment>): nat {
    if |transcript| == 0 then 0
    else FinalCount(transcript[..|transcript| - 1]) + if transcript[|transcript| - 1].isFinal then 1 else 0
  }

  function MeetingClosed(rt: Rt, at: int): Rt
    requires rt.view.meeting.Some?
  {
    var ended := rt.view.meeting.value.(endedAt := Some(at), active := false, summaryCompleted := true);
    var summarised := Emitted(rt, SummaryCreated(FinalCount(rt.view.transcript)));
    var logged := Emitted(summarised, MeetingEnded(ended));
    logged.(view := logged.view.(meeting := Some(ended)))
  }

  function EndMeeting(rt: Rt, at: int): Rt {
    if rt.view.meeting.None? then rt
    else
      var closed := MeetingClosed(rt, at);
      if closed.agent.machine.state in {Transcribing, Interactive} then SetState(closed, Standby) else closed
  }

  // ------------------------------------------------------------------ transcript injection

  /** The segment's times are fixed before the suspension, from the transcript as it is then. */
  function PartialBegun(rt: Rt, text: string, words: seq<string>, speaker: string): Rt
    requires rt.view.meeting.Some?
  {
    var m, t := rt.view.meeting.value.id, rt.view.transcript;
    var startMs := if |t| > 0 then t[|t| - 1].endMs + 50 else 0;
    var partial := Join(words[..Min(|words|, Max(1, |words| / 2))]);
    var segment := Segment(rt.nextId, m, startMs, startMs + 300, partial, false, speaker, None);
    var rest := Injection(startMs, startMs + Max(600, |words| * 160), text, speaker, m);
    Emitted(rt.(nextId := rt.nextId + 1, inflight := rt.inflight[rt.nextId := rest]), PartialHeard(segment))
  }

  /** `inject_transcript` up to its suspension; a text without words ends here. */
  function InjectBegin(rt: Rt, text: string, words: seq<string>, speaker: string, at: int): Rt {
    var ready := if Active(rt) then rt else StartMeeting(rt, Some(DEMO_TITLE), at);
    if |words| == 0 then ready else PartialBegun(ready, text, words, speaker)
  }

  function FinalAdded(rt: Rt, revision: nat): Rt
    requires revision in rt.inflight && rt.view.meeting.Some?
  {
    var i := rt.inflight[revision];
    var segment := Segment(rt.nextId, rt.view.meeting.value.id, i.startMs, i.endMs, i.text, true, i.speaker,
                           Some(revision));
    Emitted(rt.(nextId := rt.nextId + 1, view := rt.view.(transcript := rt.view.transcript + [segment]),
                inflight := rt.inflight - {revision}),
            FinalHeard(segment))
  }

  /** What the extractor found in the segment: the regular expressions are not modelled. */
  datatype Finding = Finding(kind: FactType, text: string)

  function FactAdded(rt: Rt, segment: Segment, finding: Finding): Rt {
    var fact := Fact(rt.nextId, segment.meetingId, finding.kind, finding.text, [segment.id]);
    Emitted(rt.(nextId := rt.nextId + 1, view := rt.view.(facts := rt.view.facts + [fact])), FactExtracted(fact))
  }

  function FactsAdded(rt: Rt, segment: Segment, findings: seq<Finding>): Rt {
    if |findings| == 0 then rt
    else FactAdded(FactsAdded(rt, segment, findings[..|findings| - 1]), segment, findings[|findings| - 1])
  }

  function OthersEmitted(rt: Rt, kinds: seq<string>): Rt {
    if |kinds| == 0 then rt
    else Emitted(OthersEmitted(rt, kinds[..|kinds| - 1]), Other(kinds[|kinds| - 1]))
  }

  /** What the text of an injection leads to: the facts found, whether it holds a wake or a deactivation
      phrase, and the events of the capability request it is routed to. */
  datatype Effects = Effects(findings: seq<Finding>, wakes: bool, sleeps: bool, routed: seq<string>)

  function PhrasesHeard(rt: Rt, wakes: bool, sleeps: bool): Rt {
    var woken := if wakes && rt.agent.machine.state == Standby then SetState(rt, Interactive) else rt;
    if sleeps && woken.agent.machine.state == Interactive then SetState(woken, Standby) else woken
  }

  /** `inject_transcript` after its suspension. */
  function InjectFinish(rt: Rt, revision: nat, effects: Effects): Rt
    requires revision in rt.inflight && rt.view.meeting.Some?
  {
    var added := FinalAdded(rt, revision);
    var segment := added.view.transcript[|rt.view.transcript|];
    var noted := FactsAdded(added, segment, effects.findings);
    OthersEmitted(PhrasesHeard(noted, effects.wakes, effects.sleeps), effects.routed)
  }

  // ------------------------------------------------------------------ restart

  function Rebuilt(log: seq<Event>): Projection {
    Fold(if |log| <= REBUILD_LIMIT then log else log[..REBUILD_LIMIT])
  }

  function BufferMs(agent: Agent): int {
    agent.bufferSetting.GetOr(DEFAULT_BUFFER_MS)
  }

  /** The process dies and the constructor runs again on the same store. */
  function Restarted(rt: Rt): Rt
    requires BufferMs(rt.agent) > 0
  {
    var machine := Boot(rt.agent.persisted.GetOr(MicOff));
    var lost := map r | r in rt.inflight :: rt.inflight[r].beganIn;
    Rt(rt.log, rt.last, rt.nextId, Rebuilt(rt.log),
       Agent(machine, SessionCopy(machine.state, machine.previousSafe), rt.agent.persisted,
             Fresh(BufferMs(rt.agent)), rt.agent.bufferSetting, 0),
       map[], rt.orphans + lost)
  }

  // ------------------------------------------------------------------ runs

  datatype Op =
    | OpSetState(requested: AgentState)
    | OpIngest(frame: AudioFrame, wake: Wake)
    | OpResize(capacity: int)
    | OpStartMeeting(title: Option<string>, at: int)
    | OpEndMeeting(at: int)
    | OpInjectBegin(text: string, words: seq<string>, speaker: string, at: int)
    | OpInjectFinish(revision: nat, effects: Effects)
    | OpRestart
    | OpOther(kind: string)   // any request that only logs: capabilities, questions, analyses, settings
    | OpForeign(gap: nat)     // other sessions moving the store's counter

  predicate Sane(rt: Rt) {
    && Playable(rt.agent.audio.frames)
    && (rt.inflight != map[] ==> rt.view.meeting.Some?)
  }

  /** A step that cannot happen - resuming what is not suspended, restarting on a bad capacity - is none. */
  function Step(rt: Rt, op: Op): Rt
    requires Sane(rt)
  {
    match op
    case OpSetState(requested) => SetState(rt, requested)
    case OpIngest(frame, wake) => Ingested(rt, frame, wake)
    case OpResize(capacity) => SettingsPatched(rt, capacity)
    case OpStartMeeting(title, at) => StartMeeting(rt, title, at)
    case OpEndMeeting(at) => EndMeeting(rt, at)
    case OpInjectBegin(text, words, speaker, at) => InjectBegin(rt, text, words, speaker, at)
    case OpInjectFinish(revision, effects) =>
        if revision in rt.inflight then InjectFinish(rt, revision, effects) else rt
    case OpRestart => if BufferMs(rt.agent) > 0 then Restarted(rt) else rt
    case OpOther(kind) => Emitted(rt, Other(kind))
    case OpForeign(gap) => rt.(last := rt.last + gap)
  }

  const FIRST := Rt([], 0, 0, EMPTY,
                    Agent(Boot(MicOff), SessionCopy(MicOff, MicOff), None, Fresh(DEFAULT_BUFFER_MS), None, 0), map[],
                    map[])
}
