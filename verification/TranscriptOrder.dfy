/** When transcript segments overlap (application/runtime.py: inject_transcript reads the start of a segment
    before its suspension). */
module TranscriptOrder {
  import opened Wrappers
  import opened AgentStates
  import opened AudioBuffer
  import opened Timeline
  import opened Runtime
  import opened RuntimeInvariants
  import opened RuntimeReplay

  /** Where a segment begun on this transcript starts. */
  function NextStart(t: seq<Segment>): int {
    if |t| > 0 then t[|t| - 1].endMs + 50 else 0
  }

  /** Segments follow one another, 50 ms or more apart. */
  ghost predicate Spaced(t: seq<Segment>) {
    forall k | 0 < k < |t| :: t[k].startMs >= t[k - 1].endMs + 50
  }

  ghost predicate Timed(t: seq<Segment>) {
    forall k | 0 <= k < |t| :: 0 <= t[k].startMs && t[k].startMs + 600 <= t[k].endMs
  }

  /** A suspended injection of the current meeting took its start from an earlier state of the transcript. */
  ghost predicate Begun(i: Injection, p: Projection) {
    && 0 <= i.startMs && i.startMs + 600 <= i.endMs
    && (p.meeting.Some? && i.beganIn == p.meeting.value.id ==>
          exists k: nat | k <= |p.transcript| :: i.startMs == NextStart(p.transcript[..k]))
  }

  ghost predicate AllBegun(rt: Rt) {
    Timed(rt.view.transcript) && forall r | r in rt.inflight :: Begun(rt.inflight[r], rt.view)
  }

  function MeetingId(p: Projection): Option<nat> {
    if p.meeting.Some? then Some(p.meeting.value.id) else None
  }

  /** A step keeps the meeting and its transcript, or begins another meeting. */
  ghost predicate Keeps(rt: Rt, t: Rt) {
    && t.inflight == rt.inflight && t.nextId >= rt.nextId
    && (|| (t.view.transcript == rt.view.transcript && MeetingId(t.view) == MeetingId(rt.view))
        || (t.view.transcript == [] && MeetingId(t.view) == Some(rt.nextId)))
  }

  lemma KeepsBegun(rt: Rt, t: Rt)
    requires AllBegun(rt) && FreshIds(rt) && Keeps(rt, t)
    ensures AllBegun(t)
  {
    forall r | r in t.inflight ensures Begun(t.inflight[r], t.view) {
      assert Begun(rt.inflight[r], rt.view);
    }
  }

  lemma SetStateKeeps(rt: Rt, requested: AgentState)
    ensures Keeps(rt, SetState(rt, requested))
  {
  }

  lemma StartKeeps(rt: Rt, title: Option<string>, at: int)
    ensures Keeps(rt, StartMeeting(rt, title, at))
  {
  }

  lemma EndKeeps(rt: Rt, at: int)
    ensures Keeps(rt, EndMeeting(rt, at))
  {
  }

  /** A new segment starts where the transcript ends. */
  lemma PartialStarts(rt: Rt, text: string, words: seq<string>, speaker: string)
    requires rt.view.meeting.Some?
    ensures var t := PartialBegun(rt, text, words, speaker);
            && t.view == rt.view && t.inflight.Keys == rt.inflight.Keys + {rt.nextId}
            && (forall r | r in rt.inflight && r != rt.nextId :: t.inflight[r] == rt.inflight[r])
            && t.inflight[rt.nextId].startMs == NextStart(rt.view.transcript)
            && t.inflight[rt.nextId].endMs >= t.inflight[rt.nextId].startMs + 600
            && Some(t.inflight[rt.nextId].beganIn) == MeetingId(rt.view)
  {
  }

  /** Resuming an injection adds its segment to the transcript as it is then. */
  lemma FinishAdds(rt: Rt, revision: nat, effects: Effects)
    requires revision in rt.inflight && rt.view.meeting.Some?
    ensures var t := InjectFinish(rt, revision, effects);
            && t.inflight == rt.inflight - {revision} && t.view.meeting == rt.view.meeting
            && |t.view.transcript| == |rt.view.transcript| + 1
            && t.view.transcript[..|rt.view.transcript|] == rt.view.transcript
            && t.view.transcript[|rt.view.transcript|].startMs == rt.inflight[revision].startMs
            && t.view.transcript[|rt.view.transcript|].endMs == rt.inflight[revision].endMs
  {
    hide FactsAdded, OthersEmitted;
    var added := FinalAdded(rt, revision);
    var segment := added.view.transcript[|rt.view.transcript|];
    FactsKeepTranscript(added, segment, effects.findings);
    var noted := FactsAdded(added, segment, effects.findings);
    OthersKeepInjections(PhrasesHeard(noted, effects.wakes, effects.sleeps), effects.routed);
  }

  lemma FinishBegun(rt: Rt, revision: nat, effects: Effects)
    requires AllBegun(rt) && revision in rt.inflight && rt.view.meeting.Some?
    ensures AllBegun(InjectFinish(rt, revision, effects))
  {
    FinishAdds(rt, revision, effects);
    var t := InjectFinish(rt, revision, effects);
    forall r | r in t.inflight ensures Begun(t.inflight[r], t.view) {
      assert Begun(rt.inflight[r], rt.view);
      if rt.inflight[r].beganIn == rt.view.meeting.value.id {
        var k: nat :| k <= |rt.view.transcript| && rt.inflight[r].startMs == NextStart(rt.view.transcript[..k]);
        assert t.view.transcript[..k] == rt.view.transcript[..k];
      }
    }
  }

  lemma BeginBegun(rt: Rt, text: string, words: seq<string>, speaker: string, at: int)
    requires AllBegun(rt) && FreshIds(rt)
    ensures AllBegun(InjectBegin(rt, text, words, speaker, at))
  {
    var ready := if Active(rt) then rt else StartMeeting(rt, Some(DEMO_TITLE), at);
    StartKeeps(rt, Some(DEMO_TITLE), at);
    KeepsBegun(rt, ready);
    if |words| > 0 {
      PartialStarts(ready, text, words, speaker);
      var t := InjectBegin(rt, text, words, speaker, at);
      assert ready.view.transcript[..|ready.view.transcript|] == ready.view.transcript;
      forall r | r in t.inflight ensures Begun(t.inflight[r], t.view) {
        if r in rt.inflight && r != ready.nextId {
          assert Begun(ready.inflight[r], ready.view);
        }
      }
    }
  }

  lemma IngestKeeps(rt: Rt, f: AudioFrame, wake: Wake)
    requires Playable(rt.agent.audio.frames)
    ensures Keeps(rt, Ingested(rt, f, wake))
  {
  }

  lemma QuietKeeps(rt: Rt, op: Op)
    requires Sane(rt) && !op.OpInjectBegin? && !op.OpInjectFinish? && !op.OpRestart?
    ensures Keeps(rt, Step(rt, op))
  {
    match op
    case OpSetState(requested) => SetStateKeeps(rt, requested);
    case OpStartMeeting(title, at) => StartKeeps(rt, title, at);
    case OpEndMeeting(at) => EndKeeps(rt, at);
    case OpIngest(frame, wake) => IngestKeeps(rt, frame, wake);
    case _ =>
  }

  lemma StepBegun(rt: Rt, op: Op)
    requires Sane(rt) && Exact(rt) && AllBegun(rt)
    requires op.OpRestart? ==> |rt.log| <= REBUILD_LIMIT
    ensures AllBegun(Step(rt, op))
  {
    match op
    case OpInjectBegin(text, words, speaker, at) => BeginBegun(rt, text, words, speaker, at);
    case OpInjectFinish(revision, effects) => if revision in rt.inflight { FinishBegun(rt, revision, effects); }
    case OpRestart =>
    case _ => QuietKeeps(rt, op); KeepsBegun(rt, Step(rt, op));
  }

  lemma {:induction false} RunBegun(ops: seq<Op>)
    requires WholeLogRestarts(ops)
    ensures AllBegun(Run(ops))
  {
    if |ops| > 0 {
      var shorter := ops[..|ops| - 1];
      WholeLogShorter(ops);
      RunBegun(shorter);
      RunExact(shorter);
      assert ops[|ops| - 1] == OpRestart ==> |Run(ops[..|ops| - 1]).log| <= REBUILD_LIMIT;
      StepBegun(Run(shorter), ops[|ops| - 1]);
    }
  }

  lemma WholeLogShorter(ops: seq<Op>)
    requires WholeLogRestarts(ops) && |ops| > 0
    ensures WholeLogRestarts(ops[..|ops| - 1])
  {
    var shorter := ops[..|ops| - 1];
    forall k | 0 <= k < |shorter| && shorter[k] == OpRestart ensures |Run(shorter[..k]).log| <= REBUILD_LIMIT {
      assert shorter[..k] == ops[..k] && ops[k] == OpRestart;
    }
  }

  /** On a spaced transcript, later segments start later. */
  lemma {:induction false} StartsRise(t: seq<Segment>, k: nat)
    requires Timed(t) && Spaced(t) && k < |t|
    ensures NextStart(t[..k]) < NextStart(t)
    decreases |t|
  {
    if k < |t| - 1 {
      StartsRise(t[..|t| - 1], k);
      assert t[..|t| - 1][..k] == t[..k];
    }
  }

  /** Resuming an injection of the current meeting keeps a spaced transcript spaced exactly when no final
      segment has joined it in between, that is, when an injection begun now would start at the same time. */
  lemma SpacedExactly(ops: seq<Op>, revision: nat, effects: Effects)
    requires WholeLogRestarts(ops)
    requires revision in Run(ops).inflight && Spaced(Run(ops).view.transcript)
    requires Run(ops).view.meeting.Some? && Run(ops).inflight[revision].beganIn == Run(ops).view.meeting.value.id
    ensures Spaced(InjectFinish(Run(ops), revision, effects).view.transcript)
            <==> Run(ops).inflight[revision].startMs == NextStart(Run(ops).view.transcript)
  {
    RunBegun(ops);
    FinishSpaced(Run(ops), revision, effects);
  }

  lemma FinishSpaced(rt: Rt, revision: nat, effects: Effects)
    requires AllBegun(rt) && revision in rt.inflight && Spaced(rt.view.transcript)
    requires rt.view.meeting.Some? && rt.inflight[revision].beganIn == rt.view.meeting.value.id
    ensures Spaced(InjectFinish(rt, revision, effects).view.transcript) <==>
            rt.inflight[revision].startMs == NextStart(rt.view.transcript)
  {
    FinishAdds(rt, revision, effects);
    assert Begun(rt.inflight[revision], rt.view);
    var t, u := rt.view.transcript, InjectFinish(rt, revision, effects).view.transcript;
    var k: nat :| k <= |t| && rt.inflight[revision].startMs == NextStart(t[..k]);
    assert forall j | 0 <= j < |t| :: u[j] == u[..|t|][j];
    if k < |t| {
      StartsRise(t, k);
    } else {
      assert t[..k] == t;
    }
  }

  // ------------------------------------------------------------------ overlap

  /** Two segments share a moment. */
  predicate Overlap(a: Segment, b: Segment) {
    a.startMs < b.endMs && b.startMs < a.endMs
  }

  ghost predicate Apart(t: seq<Segment>) {
    forall j, k | 0 <= j < k < |t| :: !Overlap(t[j], t[k])
  }

  /** A segment starts where the transcript ended when it was added. */
  ghost predicate StartsAtEnd(t: seq<Segment>, k: nat)
    requires k < |t|
  {
    t[k].startMs == NextStart(t[..k])
  }

  ghost predicate Tight(t: seq<Segment>) {
    forall k: nat | k < |t| :: StartsAtEnd(t, k)
  }

  /** A segment starts where the transcript once ended. */
  ghost predicate StartsWithin(t: seq<Segment>, k: nat)
    requires k < |t|
  {
    exists j: nat | j <= k :: t[k].startMs == NextStart(t[..j])
  }

  /** So does every segment that was not carried over from another meeting. */
  ghost predicate Homegrown(t: seq<Segment>) {
    forall k: nat | k < |t| :: StartsWithin(t, k)
  }

  lemma TightFront(t: seq<Segment>, n: nat)
    requires n <= |t| && Tight(t)
    ensures Tight(t[..n])
  {
    forall k: nat | k < n ensures StartsAtEnd(t[..n], k) {
      assert StartsAtEnd(t, k) && t[..n][..k] == t[..k];
    }
  }

  lemma HomegrownFront(t: seq<Segment>, n: nat)
    requires n <= |t| && Homegrown(t)
    ensures Homegrown(t[..n])
  {
    forall k: nat | k < n ensures StartsWithin(t[..n], k) {
      assert StartsWithin(t, k);
      var j: nat :| j <= k && t[k].startMs == NextStart(t[..j]);
      assert t[..n][..j] == t[..j];
    }
  }

  lemma TightSpaced(t: seq<Segment>)
    requires Timed(t) && Tight(t)
    ensures Spaced(t)
  {
    forall k | 0 < k < |t| ensures t[k].startMs >= t[k - 1].endMs + 50 {
      assert StartsAtEnd(t, k);
    }
  }

  lemma {:induction false} SpacedFar(t: seq<Segment>, j: nat, k: nat)
    requires Timed(t) && Spaced(t) && j < k < |t|
    ensures t[j].endMs + 50 <= t[k].startMs
    decreases k
  {
    if j < k - 1 {
      SpacedFar(t, j, k - 1);
    }
  }

  lemma SpacedApart(t: seq<Segment>)
    requires Timed(t) && Spaced(t)
    ensures Apart(t)
  {
    forall j, k | 0 <= j < k < |t| ensures !Overlap(t[j], t[k]) {
      SpacedFar(t, j, k);
    }
  }

  /** The last segment started where the transcript ended, or together with an earlier one. */
  lemma LastStarts(t: seq<Segment>, n: nat)
    requires Timed(t) && Homegrown(t) && |t| == n + 1 && Tight(t[..n])
    ensures StartsAtEnd(t, n) || exists j | 0 <= j < n :: Overlap(t[j], t[n])
  {
    assert StartsWithin(t, n);
    var j: nat :| j <= n && t[n].startMs == NextStart(t[..j]);
    if j < n {
      assert StartsAtEnd(t[..n], j) && t[..n][..j] == t[..j] && t[..n][j] == t[j];
      assert Overlap(t[j], t[n]);
    }
  }

  lemma TightLast(t: seq<Segment>, n: nat)
    requires |t| == n + 1 && Tight(t[..n]) && StartsAtEnd(t, n)
    ensures Tight(t)
  {
    forall k: nat | k < |t| ensures StartsAtEnd(t, k) {
      if k < n {
        assert StartsAtEnd(t[..n], k) && t[..n][..k] == t[..k] && t[..n][k] == t[k];
      }
    }
  }

  /** Without segments from another meeting, what does not overlap is tight. */
  lemma {:induction false} ApartTight(t: seq<Segment>)
    requires Timed(t) && Homegrown(t) && Apart(t)
    ensures Tight(t)
  {
    if |t| > 0 {
      var n := |t| - 1;
      HomegrownFront(t, n);
      ApartTight(t[..n]);
      LastStarts(t, n);
      TightLast(t, n);
    }
  }

  lemma AppendApart(t: seq<Segment>, s: Segment)
    ensures Apart(t + [s]) <==> Apart(t) && forall k | 0 <= k < |t| :: !Overlap(t[k], s)
  {
    var u := t + [s];
    assert forall k | 0 <= k < |t| :: u[k] == t[k];
    assert u[|t|] == s;
    if Apart(u) {
      forall j, k | 0 <= j < k < |t| ensures !Overlap(t[j], t[k]) {
        assert !Overlap(u[j], u[k]);
      }
      forall k | 0 <= k < |t| ensures !Overlap(t[k], s) {
        assert !Overlap(u[k], u[|t|]);
      }
    }
  }

  ghost predicate Lasting(s: Segment) {
    0 <= s.startMs && s.startMs + 600 <= s.endMs
  }

  /** Between tight segments there is no room for another one. */
  lemma {:induction false} NoRoom(t: seq<Segment>, s: Segment)
    requires Timed(t) && Tight(t) && Lasting(s) && forall k | 0 <= k < |t| :: !Overlap(t[k], s)
    ensures t == [] || s.startMs >= t[|t| - 1].endMs
  {
    if |t| > 0 {
      var n := |t| - 1;
      TightFront(t, n);
      NoRoom(t[..n], s);
      LastFollows(t, n);
      assert !Overlap(t[n], s);
    }
  }

  lemma LastFollows(t: seq<Segment>, n: nat)
    requires Tight(t) && |t| == n + 1
    ensures t[n].startMs == if n > 0 then t[n - 1].endMs + 50 else 0
  {
    assert StartsAtEnd(t, n);
  }

  /** On a tight transcript a new segment overlaps nothing exactly when it starts after the last one ended. */
  lemma TightAppend(t: seq<Segment>, s: Segment)
    requires Timed(t) && Tight(t) && Lasting(s)
    ensures Apart(t + [s]) <==> t == [] || s.startMs >= t[|t| - 1].endMs
  {
    TightSpaced(t);
    SpacedApart(t);
    AppendApart(t, s);
    if forall k | 0 <= k < |t| :: !Overlap(t[k], s) {
      NoRoom(t, s);
    }
    if t == [] || s.startMs >= t[|t| - 1].endMs {
      forall k | 0 <= k < |t| ensures !Overlap(t[k], s) {
        if k < |t| - 1 {
          SpacedFar(t, k, |t| - 1);
        }
      }
    }
  }

  /** The segment that an injection adds, in the form the lemmas above take it. */
  lemma FinishAppends(rt: Rt, revision: nat, effects: Effects) returns (s: Segment)
    requires AllBegun(rt) && revision in rt.inflight && rt.view.meeting.Some?
    ensures InjectFinish(rt, revision, effects).view.transcript == rt.view.transcript + [s]
    ensures s.startMs == rt.inflight[revision].startMs && s.endMs == rt.inflight[revision].endMs
    ensures Timed(rt.view.transcript) && Lasting(s)
  {
    FinishAdds(rt, revision, effects);
    assert Begun(rt.inflight[revision], rt.view);
    var u := InjectFinish(rt, revision, effects).view.transcript;
    s := u[|rt.view.transcript|];
    assert u == u[..|rt.view.transcript|] + [s];
  }

  /** Segments can overlap, because an injection fixes its start before it is suspended. On a transcript
      without overlaps and without segments carried over from another meeting, resuming an injection makes
      no overlap exactly when it starts after the last segment ended; and an injection begun in this meeting
      does so exactly when no final segment has joined since it began, that is, when one begun now would
      start at the same time. The injection itself may have been carried over. */
  lemma OverlapExactly(ops: seq<Op>, revision: nat, effects: Effects)
    requires WholeLogRestarts(ops) && revision in Run(ops).inflight
    requires Homegrown(Run(ops).view.transcript) && Apart(Run(ops).view.transcript)
    ensures var rt, t := Run(ops), Run(ops).view.transcript;
            && (Apart(InjectFinish(rt, revision, effects).view.transcript)
                <==> t == [] || rt.inflight[revision].startMs >= t[|t| - 1].endMs)
            && (Some(rt.inflight[revision].beganIn) == MeetingId(rt.view) ==>
                  (Apart(InjectFinish(rt, revision, effects).view.transcript)
                   <==> rt.inflight[revision].startMs == NextStart(t)))
  {
    RunBegun(ops);
    ResumeApart(Run(ops), revision, effects);
  }

  lemma ResumeApart(rt: Rt, revision: nat, effects: Effects)
    requires AllBegun(rt) && revision in rt.inflight && rt.view.meeting.Some?
    requires Homegrown(rt.view.transcript) && Apart(rt.view.transcript)
    ensures var t := rt.view.transcript;
            && (Apart(InjectFinish(rt, revision, effects).view.transcript)
                <==> t == [] || rt.inflight[revision].startMs >= t[|t| - 1].endMs)
            && (Some(rt.inflight[revision].beganIn) == MeetingId(rt.view) ==>
                  (Apart(InjectFinish(rt, revision, effects).view.transcript)
                   <==> rt.inflight[revision].startMs == NextStart(t)))
  {
    var t := rt.view.transcript;
    var s := FinishAppends(rt, revision, effects);
    ApartTight(t);
    TightAppend(t, s);
    TightSpaced(t);
    assert Begun(rt.inflight[revision], rt.view);
    if Some(rt.inflight[revision].beganIn) == MeetingId(rt.view) {
      var k: nat :| k <= |t| && rt.inflight[revision].startMs == NextStart(t[..k]);
      StartedBefore(t, k);
    }
  }

  /** An injection begun `|t| - k` segments ago starts before the last of them ended, unless that is none. */
  lemma StartedBefore(t: seq<Segment>, k: nat)
    requires Timed(t) && Tight(t) && k <= |t|
    ensures t == [] || NextStart(t[..k]) >= t[|t| - 1].endMs <==> NextStart(t[..k]) == NextStart(t)
  {
    if k == |t| {
      assert t[..k] == t;
    } else {
      TightSpaced(t);
      assert StartsAtEnd(t, k);
      if k < |t| - 1 {
        SpacedFar(t, k, |t| - 1);
      }
    }
  }

  /** With segments carried over from another meeting there is nothing simpler to look at than each segment:
      resuming an injection makes no overlap exactly when each ends before it starts or starts after it ends. */
  lemma OverlapAmongCarried(ops: seq<Op>, revision: nat, effects: Effects)
    requires WholeLogRestarts(ops) && revision in Run(ops).inflight && Apart(Run(ops).view.transcript)
    ensures var rt, t := Run(ops), Run(ops).view.transcript;
            var i := rt.inflight[revision];
            Apart(InjectFinish(rt, revision, effects).view.transcript)
            <==> forall k | 0 <= k < |t| :: t[k].endMs <= i.startMs || i.endMs <= t[k].startMs
  {
    RunBegun(ops);
    var s := FinishAppends(Run(ops), revision, effects);
    AppendApart(Run(ops).view.transcript, s);
  }

  // ------------------------------------------------------------------ runs that carry nothing over

  /** Every injection is resumed in the meeting it began in. */
  ghost predicate NothingCarried(ops: seq<Op>) {
    forall k | 0 <= k < |ops| && ops[k].OpInjectFinish? && ops[k].revision in Run(ops[..k]).inflight ::
      Some(Run(ops[..k]).inflight[ops[k].revision].beganIn) == MeetingId(Run(ops[..k]).view)
  }

  lemma FinishHomegrown(rt: Rt, revision: nat, effects: Effects)
    requires AllBegun(rt) && revision in rt.inflight && rt.view.meeting.Some? && Homegrown(rt.view.transcript)
    requires Some(rt.inflight[revision].beganIn) == MeetingId(rt.view)
    ensures Homegrown(InjectFinish(rt, revision, effects).view.transcript)
  {
    var t := rt.view.transcript;
    var s := FinishAppends(rt, revision, effects);
    var u := t + [s];
    assert Begun(rt.inflight[revision], rt.view);
    forall k: nat | k < |u| ensures StartsWithin(u, k) {
      var j: nat;
      if k < |t| {
        assert StartsWithin(t, k);
        j :| j <= k && t[k].startMs == NextStart(t[..j]);
      } else {
        j :| j <= k && rt.inflight[revision].startMs == NextStart(t[..j]);
      }
      assert u[..j] == t[..j];
    }
  }

  lemma BeginKeepsTranscript(rt: Rt, text: string, words: seq<string>, speaker: string, at: int)
    ensures var t := InjectBegin(rt, text, words, speaker, at).view.transcript;
            t == rt.view.transcript || t == []
  {
    StartKeeps(rt, Some(DEMO_TITLE), at);
  }

  lemma StepHomegrown(rt: Rt, op: Op)
    requires Sane(rt) && Exact(rt) && AllBegun(rt) && Homegrown(rt.view.transcript)
    requires op.OpRestart? ==> |rt.log| <= REBUILD_LIMIT
    requires op.OpInjectFinish? && op.revision in rt.inflight ==>
             Some(rt.inflight[op.revision].beganIn) == MeetingId(rt.view)
    ensures Homegrown(Step(rt, op).view.transcript)
  {
    match op
    case OpInjectBegin(text, words, speaker, at) => BeginKeepsTranscript(rt, text, words, speaker, at);
    case OpInjectFinish(revision, effects) => if revision in rt.inflight { FinishHomegrown(rt, revision, effects); }
    case OpRestart =>
    case _ => QuietKeeps(rt, op);
  }

  lemma {:induction false} RunHomegrown(ops: seq<Op>)
    requires WholeLogRestarts(ops) && NothingCarried(ops)
    ensures Homegrown(Run(ops).view.transcript)
  {
    if |ops| > 0 {
      var shorter, last := ops[..|ops| - 1], ops[|ops| - 1];
      WholeLogShorter(ops);
      forall k | 0 <= k < |shorter| && shorter[k].OpInjectFinish? && shorter[k].revision in Run(shorter[..k]).inflight
        ensures Some(Run(shorter[..k]).inflight[shorter[k].revision].beganIn) == MeetingId(Run(shorter[..k]).view)
      {
        assert shorter[..k] == ops[..k] && ops[k] == shorter[k];
      }
      RunHomegrown(shorter);
      RunBegun(shorter);
      RunExact(shorter);
      assert last == OpRestart ==> |Run(ops[..|ops| - 1]).log| <= REBUILD_LIMIT;
      assert ops[|ops| - 1] == last;
      StepHomegrown(Run(shorter), last);
    }
  }

  /** Over every run that carries no injection into another meeting, no two segments overlap exactly when
      every segment started where the transcript ended when it was added, that is, when no other was added
      while it was suspended. */
  lemma RunApartExactly(ops: seq<Op>)
    requires WholeLogRestarts(ops) && NothingCarried(ops)
    ensures Apart(Run(ops).view.transcript) <==> Tight(Run(ops).view.transcript)
  {
    RunHomegrown(ops);
    RunBegun(ops);
    var t := Run(ops).view.transcript;
    if Apart(t) {
      ApartTight(t);
    }
    if Tight(t) {
      TightSpaced(t);
      SpacedApart(t);
    }
  }

  // ------------------------------------------------------------------ one injection at a time

  ghost predicate OneAtATime(ops: seq<Op>) {
    forall k | 0 <= k < |ops| && ops[k].OpInjectBegin? :: Run(ops[..k]).inflight == map[]
  }

  /** The transcript is spaced, and the only suspended injection will keep it so. */
  ghost predicate Orderly(rt: Rt) {
    && Spaced(rt.view.transcript)
    && (forall r, q | r in rt.inflight && q in rt.inflight :: r == q)
    && forall r | r in rt.inflight ::
         if Some(rt.inflight[r].beganIn) == MeetingId(rt.view)
             then rt.inflight[r].startMs == NextStart(rt.view.transcript)
         else rt.view.transcript == []
  }

  lemma KeepsOrderly(rt: Rt, t: Rt)
    requires Orderly(rt) && FreshIds(rt) && Keeps(rt, t)
    ensures Orderly(t)
  {
  }

  lemma BeginOrderly(rt: Rt, text: string, words: seq<string>, speaker: string, at: int)
    requires Orderly(rt) && FreshIds(rt) && rt.inflight == map[]
    ensures Orderly(InjectBegin(rt, text, words, speaker, at))
  {
    var ready := if Active(rt) then rt else StartMeeting(rt, Some(DEMO_TITLE), at);
    StartKeeps(rt, Some(DEMO_TITLE), at);
    KeepsOrderly(rt, ready);
    if |words| > 0 {
      PartialStarts(ready, text, words, speaker);
    }
  }

  lemma FinishOrderly(rt: Rt, revision: nat, effects: Effects)
    requires Orderly(rt) && revision in rt.inflight && rt.view.meeting.Some?
    ensures Orderly(InjectFinish(rt, revision, effects))
  {
    FinishAdds(rt, revision, effects);
    var t, u := rt.view.transcript, InjectFinish(rt, revision, effects).view.transcript;
    assert forall j | 0 <= j < |t| :: u[j] == u[..|t|][j];
  }

  lemma RestartOrderly(rt: Rt)
    requires Sane(rt) && Exact(rt) && Orderly(rt) && |rt.log| <= REBUILD_LIMIT
    ensures Orderly(Step(rt, OpRestart))
  {
  }

  lemma StepOrderly(rt: Rt, op: Op)
    requires Sane(rt) && Exact(rt) && Orderly(rt)
    requires (op.OpRestart? ==> |rt.log| <= REBUILD_LIMIT) && (op.OpInjectBegin? ==> rt.inflight == map[])
    ensures Orderly(Step(rt, op))
  {
    hide LiveIsFold, Coherent, FreshIds, Mirrored, Orderly, InjectBegin, InjectFinish, Restarted;
    match op
    case OpInjectBegin(text, words, speaker, at) => BeginOrderly(rt, text, words, speaker, at);
    case OpInjectFinish(revision, effects) => if revision in rt.inflight { FinishOrderly(rt, revision, effects); }
    case OpRestart => RestartOrderly(rt);
    case _ => QuietKeeps(rt, op); KeepsOrderly(rt, Step(rt, op));
  }

  /** As long as no injection begins while another is suspended, segments never overlap, whatever meetings
      begin and end meanwhile. */
  lemma {:induction false} OneAtATimeSpaced(ops: seq<Op>)
    requires WholeLogRestarts(ops) && OneAtATime(ops)
    ensures Orderly(Run(ops)) && Spaced(Run(ops).view.transcript) && Apart(Run(ops).view.transcript)
  {
    if |ops| > 0 {
      var shorter, last := ops[..|ops| - 1], ops[|ops| - 1];
      WholeLogShorter(ops);
      forall k | 0 <= k < |shorter| && shorter[k].OpInjectBegin? ensures Run(shorter[..k]).inflight == map[] {
        assert shorter[..k] == ops[..k] && ops[k].OpInjectBegin?;
      }
      OneAtATimeSpaced(shorter);
      RunExact(shorter);
      assert last == OpRestart ==> |Run(ops[..|ops| - 1]).log| <= REBUILD_LIMIT;
      StepOrderly(Run(shorter), last);
    }
    RunBegun(ops);
    SpacedApart(Run(ops).view.transcript);
  }
}
