/** The session's events and the two programs that read them back: the server's `_rebuild_projection`
    (application/runtime.py) and the browser's `applyEvent` (web/static/app.js). */
module Timeline {
  import opened Wrappers
  import opened OrderedMaps
  import opened AgentStates

  datatype Meeting = Meeting(id: nat, title: Option<string>, startedAt: int, endedAt: Option<int>, active: bool,
                             summaryCompleted: bool)

  datatype Segment = Segment(id: nat, meetingId: nat, startMs: int, endMs: int, text: string, isFinal: bool,
                             speaker: string, revisionOf: Option<nat>)

  datatype FactType = Decision | ActionItem | Question | Answer | Risk | OpenPoint

  datatype Fact = Fact(id: nat, meetingId: nat, kind: FactType, text: string, sources: seq<nat>)

  datatype Body =
    | MeetingStarted(meeting: Meeting)
    | SummaryCreated(segmentCount: nat)
    | MeetingEnded(meeting: Meeting)
    | PartialHeard(segment: Segment)
    | FinalHeard(segment: Segment)
    | FactExtracted(fact: Fact)
    | StateChanged(previous: AgentState, current: AgentState)
    | TransitionRejected(requested: AgentState)
    | AudioLevel(sequence: int)
    | WakeScored(deactivation: bool, detected: bool)
    | WakeDetected(deactivation: bool)
    | Other(kind: string)

  /** `id` is a row's uuid; it is unique, like `sequence`. */
  datatype Event = Event(sequence: nat, id: nat, meetingId: Option<nat>, body: Body)

  // ------------------------------------------------------------------ the server's reducer

  datatype Projection = Projection(meeting: Option<Meeting>, transcript: seq<Segment>, facts: seq<Fact>)

  const EMPTY := Projection(None, [], [])

  /** One turn of the loop in `_rebuild_projection`. */
  function Project(p: Projection, body: Body): Projection {
    match body
    case MeetingStarted(m) => Projection(Some(m), [], [])
    case MeetingEnded(m) => if p.meeting.Some? then p.(meeting := Some(m)) else p
    case FinalHeard(s) => p.(transcript := p.transcript + [s])
    case FactExtracted(f) => p.(facts := p.facts + [f])
    case _ => p
  }

  function Fold(log: seq<Event>): Projection {
    if |log| == 0 then EMPTY else Project(Fold(log[..|log| - 1]), log[|log| - 1].body)
  }

  /** Events the projection does not read. */
  predicate Plain(body: Body) {
    !body.MeetingStarted? && !body.MeetingEnded? && !body.FinalHeard? && !body.FactExtracted?
  }

  // ------------------------------------------------------------------ how much of a log a projection needs

  /** Meetings succeed one another with fresh ids, and what ends is the meeting at hand. */
  ghost predicate Continues(p: Projection, body: Body) {
    match body
    case MeetingStarted(m) => p.meeting.Some? ==> m.id > p.meeting.value.id
    case MeetingEnded(m) => p.meeting.Some? && m.id == p.meeting.value.id
    case _ => true
  }

  ghost predicate Lineage(log: seq<Event>) {
    |log| == 0 || (Lineage(log[..|log| - 1]) && Continues(Fold(log[..|log| - 1]), log[|log| - 1].body))
  }

  ghost predicate SameMeeting(p: Projection, q: Projection) {
    if p.meeting.Some? then q.meeting.Some? && q.meeting.value.id == p.meeting.value.id else q.meeting.None?
  }

  ghost predicate LaterMeeting(p: Projection, q: Projection) {
    q.meeting.Some? && (p.meeting.Some? ==> q.meeting.value.id > p.meeting.value.id)
  }

  /** From position `k` on, some event starts a meeting. */
  ghost predicate Starts(log: seq<Event>, k: nat) {
    exists i | k <= i < |log| :: log[i].body.MeetingStarted?
  }

  /** From position `k` on, some event ends a segment or finds a fact. */
  ghost predicate Adds(log: seq<Event>, k: nat) {
    exists i | k <= i < |log| :: log[i].body.FinalHeard? || log[i].body.FactExtracted?
  }

  /** The meeting in the last `meeting.ended` from position `k` on, if there is one. */
  function LastEnd(log: seq<Event>, k: nat): Option<Meeting> {
    if |log| <= k then None
    else
      match log[|log| - 1].body
      case MeetingEnded(m) => Some(m)
      case _ => LastEnd(log[..|log| - 1], k)
  }

  lemma LaterExtends(front: seq<Event>, e: Event, k: nat)
    requires k <= |front|
    ensures Starts(front + [e], k) <==> Starts(front, k) || e.body.MeetingStarted?
    ensures Adds(front + [e], k) <==> Adds(front, k) || e.body.FinalHeard? || e.body.FactExtracted?
    ensures LastEnd(front + [e], k) == if e.body.MeetingEnded? then Some(e.body.meeting) else LastEnd(front, k)
  {
    var log := front + [e];
    assert log[|front|] == e && log[..|front|] == front;
    assert forall i | 0 <= i < |front| :: log[i] == front[i];
  }

  lemma NothingLater(log: seq<Event>)
    ensures !Starts(log, |log|) && !Adds(log, |log|) && LastEnd(log, |log|).None?
  {
  }

  /** How the projection of a prefix relates to that of the whole log. */
  lemma {:induction false} Drift(log: seq<Event>, k: nat)
    requires Lineage(log) && k <= |log|
    ensures Drifted(Fold(log[..k]), Fold(log), Starts(log, k), Adds(log, k), LastEnd(log, k))
    decreases |log|
  {
    if k == |log| {
      assert log[..k] == log;
      NothingLater(log);
    } else {
      var front, e := log[..|log| - 1], log[|log| - 1];
      assert front[..k] == log[..k];
      Drift(front, k);
      assert log == front + [e];
      LaterExtends(front, e, k);
      DriftOn(Fold(log[..k]), Fold(front), Starts(front, k), Adds(front, k), LastEnd(front, k), e.body);
    }
  }

  /** What later events do to a projection `p`: a new meeting has a later id; without one, `ended` is the
      meeting as it was last ended, and every segment or fact makes the projection longer. */
  ghost predicate Drifted(p: Projection, q: Projection, starts: bool, adds: bool, ended: Option<Meeting>) {
    if starts then LaterMeeting(p, q)
    else
      && SameMeeting(p, q)
      && q.meeting == (if ended.Some? then ended else p.meeting)
      && |p.transcript| + |p.facts| <= |q.transcript| + |q.facts|
      && (if adds then |p.transcript| + |p.facts| < |q.transcript| + |q.facts|
          else p.transcript == q.transcript && p.facts == q.facts)
  }

  lemma DriftOn(p: Projection, q: Projection, starts: bool, adds: bool, ended: Option<Meeting>, body: Body)
    requires Drifted(p, q, starts, adds, ended) && Continues(q, body)
    ensures Drifted(p, Project(q, body), starts || body.MeetingStarted?,
                    adds || body.FinalHeard? || body.FactExtracted?,
                    if body.MeetingEnded? then Some(body.meeting) else ended)
  {
  }

  /** Replaying a prefix of a log recovers the projection exactly when nothing after it starts a meeting,
      ends a segment or finds a fact, and the last meeting ended after it, if any was, is the meeting as the
      prefix has it. */
  lemma PrefixSufficesExactly(log: seq<Event>, k: nat)
    requires Lineage(log) && k <= |log|
    ensures Fold(log[..k]) == Fold(log) <==>
            && !Starts(log, k) && !Adds(log, k)
            && (LastEnd(log, k).None? || LastEnd(log, k) == Fold(log[..k]).meeting)
  {
    Drift(log, k);
  }

  // ------------------------------------------------------------------ the browser's reducer

  const KEPT_EVENTS: nat := 1200

  datatype Browser = Browser(cursor: nat, events: seq<Event>, agentState: AgentState, meeting: Option<Meeting>,
                             segments: OrderedMap<nat, Segment>, facts: OrderedMap<nat, Fact>)

  const BLANK := Browser(0, [], MicOff, None, [], [])

  predicate Remembered(b: Browser, e: Event) {
    exists i | 0 <= i < |b.events| :: b.events[i].id == e.id
  }

  function Upserted(segments: OrderedMap<nat, Segment>, s: Segment): OrderedMap<nat, Segment> {
    Put(if s.revisionOf.Some? then Delete(segments, s.revisionOf.value) else segments, s.id, s)
  }

  /** The `switch` of `applyEvent`, for the fields modelled. */
  function Shown(b: Browser, body: Body): Browser {
    match body
    case StateChanged(_, current) => b.(agentState := current)
    case MeetingStarted(m) => b.(meeting := Some(m), segments := [], facts := [])
    case MeetingEnded(m) => b.(meeting := Some(m))
    case PartialHeard(s) => b.(segments := Upserted(b.segments, s))
    case FinalHeard(s) => b.(segments := Upserted(b.segments, s))
    case FactExtracted(f) => b.(facts := Put(b.facts, f.id, f))
    case _ => b
  }

  function Noted(events: seq<Event>, e: Event): seq<Event> {
    var longer := events + [e];
    if |longer| > KEPT_EVENTS then longer[1..] else longer
  }

  /** `applyEvent`. A sequence of 0 stands for the absent one, which is falsy. */
  function ApplyEvent(b: Browser, e: Event): Browser {
    if e.sequence != 0 && e.sequence <= b.cursor && Remembered(b, e) then b
    else
      Shown(b.(cursor := if b.cursor >= e.sequence then b.cursor else e.sequence, events := Noted(b.events, e)), e.body)
  }

  function Watch(log: seq<Event>): Browser {
    if |log| == 0 then BLANK else ApplyEvent(Watch(log[..|log| - 1]), log[|log| - 1])
  }

  // ------------------------------------------------------------------ what any log gives the browser

  /** A session's log as the store hands it out. */
  ghost predicate Numbered(log: seq<Event>) {
    && (forall i | 0 <= i < |log| :: 1 <= log[i].sequence && log[i].id == log[i].sequence)
    && forall i, j | 0 <= i < j < |log| :: log[i].sequence < log[j].sequence
  }

  function Latest(log: seq<Event>): seq<Event> {
    if |log| <= KEPT_EVENTS then log else log[|log| - KEPT_EVENTS..]
  }

  function LastSequence(log: seq<Event>): nat {
    if |log| == 0 then 0 else log[|log| - 1].sequence
  }

  lemma NewEventShown(log: seq<Event>, e: Event)
    requires Numbered(log + [e])
    ensures Numbered(log) && e.sequence > LastSequence(log)
    ensures Watch(log).cursor == LastSequence(log) ==>
              Watch(log + [e]) == Shown(Watch(log).(cursor := e.sequence, events := Noted(Watch(log).events, e)),
                                        e.body)
  {
    assert forall i | 0 <= i < |log| :: (log + [e])[i] == log[i];
    assert (log + [e])[|log|] == e;
    assert (log + [e])[..|log|] == log;
  }

  lemma {:induction false} BrowserKeepsLatest(log: seq<Event>)
    requires Numbered(log)
    ensures Watch(log).cursor == LastSequence(log)
    ensures Watch(log).events == Latest(log)
  {
    if |log| > 0 {
      var front, e := log[..|log| - 1], log[|log| - 1];
      assert log == front + [e];
      NewEventShown(front, e);
      BrowserKeepsLatest(front);
      ShownKeepsHistory(Watch(front).(cursor := e.sequence, events := Noted(Watch(front).events, e)), e.body);
      LatestNoted(front, e);
    }
  }

  lemma LatestNoted(log: seq<Event>, e: Event)
    ensures Noted(Latest(log), e) == Latest(log + [e])
  {
  }

  lemma ShownKeepsHistory(b: Browser, body: Body)
    ensures Shown(b, body).events == b.events && Shown(b, body).cursor == b.cursor
  {
  }

  lemma RedeliveryNoop(b: Browser, e: Event)
    requires 1 <= e.sequence <= b.cursor
    requires 0 < |b.events| && (b.events[|b.events| - 1] != e || Remembered(b, e))
    ensures ApplyEvent(b, e) == b <==> Remembered(b, e)
  {
    if !Remembered(b, e) {
      var noted := Noted(b.events, e);
      assert noted[|noted| - 1] == e;
      ShownKeepsHistory(b.(events := noted), e.body);
    }
  }

  lemma LatestHolds(log: seq<Event>, k: nat)
    requires Numbered(log) && k < |log|
    ensures (exists i | 0 <= i < |Latest(log)| :: Latest(log)[i].id == log[k].id) <==> k + KEPT_EVENTS >= |log|
  {
    var latest := Latest(log);
    var first := |log| - |latest|;
    if k >= first {
      assert latest[k - first] == log[k];
    } else {
      forall i | 0 <= i < |latest| ensures latest[i].id != log[k].id {
        DifferentIds(log, k, first + i);
      }
    }
  }

  lemma DifferentIds(log: seq<Event>, k: nat, m: nat)
    requires Numbered(log) && k < m < |log|
    ensures log[m].id != log[k].id
  {
    assert log[k].sequence < log[m].sequence;
  }

  /** What redelivery does to a browser that remembers the last events of a log. */
  lemma RedeliveryTo(b: Browser, log: seq<Event>, k: nat)
    requires Numbered(log) && k < |log| && b.cursor == LastSequence(log) && b.events == Latest(log)
    ensures ApplyEvent(b, log[k]) == b <==> k + KEPT_EVENTS >= |log|
  {
    LatestHolds(log, k);
    NotLater(log, k);
    LatestEnds(log);
    if k + 1 < |log| {
      DifferentIds(log, k, |log| - 1);
    }
    RedeliveryNoop(b, log[k]);
  }

  lemma NotLater(log: seq<Event>, k: nat)
    requires Numbered(log) && k < |log|
    ensures 1 <= log[k].sequence <= LastSequence(log)
  {
  }

  lemma LatestEnds(log: seq<Event>)
    requires |log| > 0
    ensures |Latest(log)| > 0 && Latest(log)[|Latest(log)| - 1] == log[|log| - 1]
  {
  }

  /** Redelivery of an event of the log is a no-op exactly when it is among the last 1200: an older one
      is applied a second time. */
  lemma RedeliveryExactly(log: seq<Event>, k: nat)
    requires Numbered(log) && k < |log|
    ensures ApplyEvent(Watch(log), log[k]) == Watch(log) <==> k + KEPT_EVENTS >= |log|
  {
    BrowserKeepsLatest(log);
    RedeliveryTo(Watch(log), log, k);
  }
}
