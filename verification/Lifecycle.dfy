/** The grammar of a request's events, whatever other requests interleave (application/capabilities.py,
    application/tools.py). */
module Lifecycle {
  import opened Wrappers
  import opened RoadmapConnector
  import opened Capabilities

  // ------------------------------------------------------------------ the language

  /** States of the automaton: `via` is the approval an execution was granted by, if it was. */
  datatype Q =
    | Start
    | Proposing
    | Proposed(ok: bool)
    | Planned(ok: bool)
    | PlanningOver
    | Evaluated(mode: Mode)
    | Asked(id: nat)
    | Turned(id: nat)
    | Cleared(id: nat)
    | Applying(via: Option<nat>)
    | AppliedTool(via: Option<nat>, ok: bool)
    | Closing(via: Option<nat>)
    | Over(via: Option<nat>, ok: bool)

  /** The planning tool pair or none, then the plan; then a failed plan, or the policy evaluation; after it
      nothing, or an execution if the mode is automatic, or an approval unless it is disabled; an approval
      is rejected, or granted and executed; an execution is the tool pair, then a completed plan and its
      artifact, or a failed plan. */
  function Delta(q: Q, b: Body): Option<Q> {
    match (q, b)
    case (Start, ToolStarted(ProposeTool)) => Some(Proposing)
    case (Start, PlanCreated) => Some(Planned(false))
    case (Proposing, ToolCompleted(ProposeTool)) => Some(Proposed(true))
    case (Proposing, ToolFailed(ProposeTool)) => Some(Proposed(false))
    case (Proposed(ok), PlanCreated) => Some(Planned(ok))
    case (Planned(false), PlanFailed) => Some(PlanningOver)
    case (Planned(true), PolicyEvaluated(mode, _)) => Some(Evaluated(mode))
    case (Evaluated(Automatic), ToolStarted(ApplyTool)) => Some(Applying(None))
    case (Evaluated(mode), ApprovalRequested(id)) => if mode == Disabled then None else Some(Asked(id))
    case (Asked(id), ApprovalGranted(k)) => if k == id then Some(Cleared(id)) else None
    case (Asked(id), ApprovalRejected(k)) => if k == id then Some(Turned(id)) else None
    case (Cleared(id), ToolStarted(ApplyTool)) => Some(Applying(Some(id)))
    case (Applying(via), ToolCompleted(ApplyTool)) => Some(AppliedTool(via, true))
    case (Applying(via), ToolFailed(ApplyTool)) => Some(AppliedTool(via, false))
    case (AppliedTool(via, true), PlanCompleted) => Some(Closing(via))
    case (AppliedTool(via, false), PlanFailed) => Some(Over(via, false))
    case (Closing(via), ArtifactCreated(_, _)) => Some(Over(via, true))
    case _ => None
  }

  /** The state after a word of the language's prefixes; `None` for any other word. */
  function Reads(word: seq<Body>): Option<Q> {
    if |word| == 0 then Some(Start)
    else
      match Reads(word[..|word| - 1])
      case None => None
      case Some(q) => Delta(q, word[|word| - 1])
  }

  // ------------------------------------------------------------------ what the language says

  function Count(word: seq<Body>, b: Body -> bool): nat {
    if |word| == 0 then 0 else Count(word[..|word| - 1], b) + if b(word[|word| - 1]) then 1 else 0
  }

  function Asking(): Body -> bool { (b: Body) => b.ApprovalRequested? }
  function Granting(): Body -> bool { (b: Body) => b.ApprovalGranted? }
  function Rejecting(): Body -> bool { (b: Body) => b.ApprovalRejected? }
  function Executing(): Body -> bool { (b: Body) => b == ToolStarted(ApplyTool) }
  function Disabling(): Body -> bool { (b: Body) => b.PolicyEvaluated? && b.mode == Disabled }

  datatype Tally = Tally(asked: nat, granted: nat, rejected: nat, executed: nat, disabled: nat)

  function TallyOf(word: seq<Body>): Tally {
    Tally(Count(word, Asking()), Count(word, Granting()), Count(word, Rejecting()), Count(word, Executing()),
          Count(word, Disabling()))
  }

  function Via(via: Option<nat>): Tally {
    if via.Some? then Tally(1, 1, 0, 1, 0) else Tally(0, 0, 0, 1, 0)
  }

  function StateTally(q: Q): Tally {
    match q
    case Evaluated(mode) => Tally(0, 0, 0, 0, if mode == Disabled then 1 else 0)
    case Asked(_) => Tally(1, 0, 0, 0, 0)
    case Turned(_) => Tally(1, 0, 1, 0, 0)
    case Cleared(_) => Tally(1, 1, 0, 0, 0)
    case Applying(via) => Via(via)
    case AppliedTool(via, _) => Via(via)
    case Closing(via) => Via(via)
    case Over(via, _) => Via(via)
    case _ => Tally(0, 0, 0, 0, 0)
  }

  /** The state an automaton word reaches determines how often it asks, grants, rejects and executes. */
  lemma {:induction false} TallyDetermined(word: seq<Body>)
    requires Reads(word).Some?
    ensures TallyOf(word) == StateTally(Reads(word).value)
  {
    if |word| > 0 {
      TallyDetermined(word[..|word| - 1]);
      DeltaTally(Reads(word[..|word| - 1]).value, word[|word| - 1]);
    }
  }

  function Plus(t: Tally, b: Body): Tally {
    Tally(t.asked + (if b.ApprovalRequested? then 1 else 0), t.granted + (if b.ApprovalGranted? then 1 else 0),
          t.rejected + (if b.ApprovalRejected? then 1 else 0),
          t.executed + (if b == ToolStarted(ApplyTool) then 1 else 0),
          t.disabled + (if b.PolicyEvaluated? && b.mode == Disabled then 1 else 0))
  }

  lemma DeltaTally(q: Q, b: Body)
    requires Delta(q, b).Some?
    ensures StateTally(Delta(q, b).value) == Plus(StateTally(q), b)
  {
  }

  /** Consequences for every word of the language: nothing is both granted and rejected, an execution
      happens at most once, only after an automatic evaluation or a grant, and a disabled evaluation is
      followed by neither an approval nor an execution. */
  lemma LanguageFacts(word: seq<Body>)
    requires Reads(word).Some?
    ensures var t := TallyOf(word);
            && t.asked <= 1 && t.executed <= 1
            && t.granted + t.rejected <= t.asked
            && (t.disabled > 0 ==> t.asked == 0 && t.executed == 0)
  {
    TallyDetermined(word);
  }

  // ------------------------------------------------------------------ the engine speaks it

  /** The log of one request. */
  function Project(log: seq<Entry>, c: nat): seq<Body> {
    if |log| == 0 then []
    else Project(log[..|log| - 1], c) + if log[|log| - 1].corr == Some(c) then [log[|log| - 1].body] else []
  }

  lemma ProjectAppended(log: seq<Entry>, e: Entry, c: nat)
    ensures e.corr == Some(c) ==> Project(log + [e], c) == Project(log, c) + [e.body]
    ensures e.corr != Some(c) ==> Project(log + [e], c) == Project(log, c)
  {
    assert (log + [e])[..|log|] == log;
  }

  lemma {:induction false} ProjectMember(log: seq<Entry>, c: nat, b: Body)
    ensures b in Project(log, c) <==> Entry(Some(c), b) in log
  {
    if |log| > 0 {
      var front, last := log[..|log| - 1], log[|log| - 1];
      assert log == front + [last];
      ProjectMember(front, c, b);
    }
  }

  function ViaOf(why: Why): Option<nat> {
    if why.ByApproval? then Some(why.id) else None
  }

  /** Where the automaton is when a request stands at `pc`. */
  ghost predicate Stands(q: Q, task: Task) {
    var via := ViaOf(task.why);
    match task.pc
    case Begin(_) => q == Start
    case LogProposeStarted(_, _, _) => q == Start
    case RunPropose(_, _, _) => q == Proposing
    case LogProposeDone(_, _) => q == Proposing
    case LogPlan(viaTool, proposed, _) =>
        (if viaTool then q == Proposed(proposed.Some?) else q == Start && proposed.None?)
    case LogPlanningFailed => q == Planned(false)
    case ReadPolicy(_, _) => q == Planned(true)
    case LogPolicy(_, _, _) => q == Planned(true)
    case Decide(_, _, policy) => q == Evaluated(policy.mode)
    case LogRequested(_) => q.Evaluated? && q.mode != Disabled
    case Parked(id) => q == Asked(id)
    case LogGranted(id, _) => q == Asked(id) && via == Some(id)
    case LogRejected(id) => q == Asked(id)
    case LogApplyStarted(_) =>
        (if via.Some? then q == Cleared(via.value) else q == Evaluated(Automatic) && task.why.ByPolicy?)
    case RunApply(_) => q == Applying(via) && !task.why.NoReason?
    case LogApplyDone(_) => q == Applying(via) && !task.why.NoReason?
    case LogOutcome(result) => q == AppliedTool(via, result.Success?) && !task.why.NoReason?
    case LogArtifact(_, _) => q == Closing(via) && !task.why.NoReason?
    case Ended => Complete(q)
  }

  /** A request that has ended has said all it had to say. */
  predicate Complete(q: Q) {
    q.PlanningOver? || q == Evaluated(Disabled) || q.Turned? || q.Over?
  }

  ghost predicate Spoken(s: Sys, c: nat)
    requires c < |s.tasks|
  {
    var q := Reads(Project(s.log, c));
    q.Some? && Stands(q.value, s.tasks[c])
  }

  /** An open approval belongs to the request that waits for it, and to no other. */
  ghost predicate Open(s: Sys, id: nat)
    requires id in s.pending
  {
    var c := s.pending[id].corr;
    && c < |s.tasks|
    && (!s.pending[id].used ==> s.tasks[c].pc == LogRequested(id) || s.tasks[c].pc == Parked(id))
  }

  ghost predicate Wellformed(s: Sys) {
    && (forall e | e in s.log && e.corr.Some? :: e.corr.value < |s.tasks|)
    && (forall c | 0 <= c < |s.tasks| :: Spoken(s, c))
    && (forall id | id in s.pending :: id < s.nextApproval && Open(s, id))
  }

  lemma {:induction false} NothingProjected(log: seq<Entry>, c: nat)
    requires forall e | e in log && e.corr.Some? :: e.corr.value < c
    ensures Project(log, c) == []
  {
    if |log| > 0 {
      var last := log[|log| - 1];
      assert last in log;
      NothingProjected(log[..|log| - 1], c);
    }
  }

  lemma ReadsAppended(word: seq<Body>, b: Body)
    ensures Reads(word + [b]) == if Reads(word).None? then None else Delta(Reads(word).value, b)
  {
    assert (word + [b])[..|word|] == word;
  }

  /** A step that only moves one request, without logging. */
  lemma MovedWellformed(s: Sys, t: Sys, c: nat, task: Task, q: Q)
    requires Wellformed(s) && c < |s.tasks| && Reads(Project(s.log, c)) == Some(q) && Stands(q, task)
    requires t.log == s.log && t.tasks == s.tasks[c := task] && t.pending == s.pending
             && t.nextApproval == s.nextApproval
    requires forall id | id in s.pending && !s.pending[id].used && s.pending[id].corr == c ::
            task.pc == LogRequested(id) || task.pc == Parked(id)
    ensures Wellformed(t)
  {
    forall d | 0 <= d < |t.tasks| ensures Spoken(t, d) {
      assert Spoken(s, d);
    }
    forall id | id in t.pending ensures Open(t, id) {
      assert Open(s, id);
    }
  }

  lemma LoggedSpoken(s: Sys, c: nat, b: Body, pc: Pc, q: Q, d: nat)
    requires c < |s.tasks| && d < |s.tasks| && Spoken(s, d) && Reads(Project(s.log, c)) == Some(q)
    requires Delta(q, b).Some? && Stands(Delta(q, b).value, s.tasks[c].(pc := pc))
    ensures Spoken(Logged(s, c, b, pc), d)
  {
    hide Project, Reads, Delta, Stands;
    ProjectAppended(s.log, Entry(Some(c), b), d);
    if d == c {
      ReadsAppended(Project(s.log, c), b);
    }
  }

  /** A step that logs one event of a request and moves it. */
  lemma LoggedWellformed(s: Sys, c: nat, b: Body, pc: Pc, q: Q)
    requires Wellformed(s) && c < |s.tasks| && Reads(Project(s.log, c)) == Some(q)
    requires Delta(q, b).Some? && Stands(Delta(q, b).value, s.tasks[c].(pc := pc))
    requires forall id | id in s.pending && !s.pending[id].used && s.pending[id].corr == c ::
             pc == LogRequested(id) || pc == Parked(id)
    ensures Wellformed(Logged(s, c, b, pc))
  {
    var t := Logged(s, c, b, pc);
    forall d | 0 <= d < |t.tasks| ensures Spoken(t, d) {
      LoggedSpoken(s, c, b, pc, q, d);
    }
    forall id | id in t.pending ensures Open(t, id) {
      assert Open(s, id);
    }
    forall x | x in t.log && x.corr.Some? ensures x.corr.value < |t.tasks| {
      assert x in s.log || x == Entry(Some(c), b);
    }
  }

  /** Unless it waits for an approval, a request has no open approval. */
  lemma NoneOpen(s: Sys, c: nat)
    requires Wellformed(s) && c < |s.tasks| && !s.tasks[c].pc.LogRequested? && !s.tasks[c].pc.Parked?
    ensures forall id | id in s.pending && s.pending[id].corr == c :: s.pending[id].used
  {
    forall id | id in s.pending && s.pending[id].corr == c ensures s.pending[id].used {
      assert Open(s, id);
    }
  }

  lemma ParkWellformed(s: Sys, c: nat, proposal: Proposal, token: string)
    requires Wellformed(s) && c < |s.tasks| && s.tasks[c].pc.Decide? && s.tasks[c].pc.policy.mode != Disabled
    ensures Wellformed(Park(s, c, proposal, token))
  {
    var t := Park(s, c, proposal, token);
    NoneOpen(s, c);
    assert Spoken(s, c);
    forall d | 0 <= d < |t.tasks| ensures Spoken(t, d) {
      assert Spoken(s, d);
    }
    forall id | id in t.pending ensures id < t.nextApproval && Open(t, id) {
      if id != s.nextApproval {
        assert Open(s, id);
      }
    }
  }

  lemma DecidedWellformed(s: Sys, c: nat, token: string)
    requires Wellformed(s) && c < |s.tasks| && s.tasks[c].pc.Decide?
    ensures Wellformed(Decided(s, c, s.tasks[c].pc.proposal, s.tasks[c].pc.confidence, s.tasks[c].pc.policy, token))
  {
    var pc := s.tasks[c].pc;
    assert Spoken(s, c);
    var q := Reads(Project(s.log, c)).value;
    if pc.policy.mode == Disabled {
      NoneOpen(s, c);
      MovedWellformed(s, At(s, c, Ended), c, s.tasks[c].(pc := Ended), q);
    } else if BelowThreshold(pc.policy, pc.confidence) || pc.policy.mode == Manual {
      ParkWellformed(s, c, pc.proposal, token);
    } else {
      NoneOpen(s, c);
      var task := Task(LogApplyStarted(pc.proposal), ByPolicy(pc.policy, pc.confidence));
      MovedWellformed(s, s.(tasks := s.tasks[c := task]), c, task, q);
    }
  }

  lemma NextSpoken(q: Q, task: Task)
    requires Stands(q, task) && Next(task.pc).Some?
    ensures var (b, pc) := Next(task.pc).value;
            Delta(q, b).Some? && Stands(Delta(q, b).value, task.(pc := pc))
  {
  }

  lemma AdvanceWellformed(env: Env, s: Sys, c: nat, luck: Luck)
    requires Wellformed(s) && c < |s.tasks| && Plausible(s, c, luck)
    ensures Wellformed(Advance(env, s, c, luck))
  {
    var pc := s.tasks[c].pc;
    assert Spoken(s, c);
    var q := Reads(Project(s.log, c)).value;
    if Next(pc).Some? {
      var (b, stand) := Next(pc).value;
      NextSpoken(q, s.tasks[c]);
      if pc.LogRequested? {
        RequestedOpen(s, c);
      } else {
        NoneOpen(s, c);
      }
      LoggedWellformed(s, c, b, stand, q);
    } else if Computes(pc) {
      NoneOpen(s, c);
      ComputedStands(env, s, s.tasks[c], q);
      MovedWellformed(s, Advance(env, s, c, luck), c, s.tasks[c].(pc := Computed(env, s, pc)), q);
    } else if pc.Decide? {
      DecidedWellformed(s, c, luck.token);
    } else if pc.RunApply? {
      NoneOpen(s, c);
      var t := Invoked(env, s, c, pc.proposal, luck.io);
      MovedWellformed(s, t, c, t.tasks[c], q);
    }
  }

  lemma RequestedOpen(s: Sys, c: nat)
    requires Wellformed(s) && c < |s.tasks| && s.tasks[c].pc.LogRequested?
    ensures forall id | id in s.pending && !s.pending[id].used && s.pending[id].corr == c :: id == s.tasks[c].pc.id
  {
    forall id | id in s.pending && !s.pending[id].used && s.pending[id].corr == c ensures id == s.tasks[c].pc.id {
      assert Open(s, id);
    }
  }

  /** The steps that only read leave the automaton where it is. */
  lemma ComputedStands(env: Env, s: Sys, task: Task, q: Q)
    requires Computes(task.pc) && Stands(q, task)
    ensures Stands(q, task.(pc := Computed(env, s, task.pc)))
  {
  }

  lemma ApprovedWellformed(s: Sys, id: nat, token: string)
    requires Wellformed(s) && Nameable(s, id)
    ensures Wellformed(Approved(s, id, token))
  {
    if id in s.pending && !s.pending[id].used {
      assert Open(s, id);
      var c := s.pending[id].corr;
      AskedParked(s, id);
      if s.now >= s.pending[id].expiresAt {
        SpentWellformed(s, Approved(s, id, token), id, s.tasks[c]);
      } else if s.pending[id].tokenHash == HashOf(token) {
        SpentWellformed(s, Approved(s, id, token), id,
                        Task(LogGranted(id, s.pending[id].proposal), ByApproval(id, token, s.now)));
      }
    }
  }

  lemma RefusedWellformed(s: Sys, id: nat)
    requires Wellformed(s) && Nameable(s, id)
    ensures Wellformed(Refused(s, id))
  {
    if id in s.pending && !s.pending[id].used {
      assert Open(s, id);
      AskedParked(s, id);
      SpentWellformed(s, Refused(s, id), id, s.tasks[s.pending[id].corr].(pc := LogRejected(id)));
    }
  }

  /** A published open approval is one whose request is parked on it. */
  lemma AskedParked(s: Sys, id: nat)
    requires Wellformed(s) && id in s.pending && !s.pending[id].used && Nameable(s, id)
    ensures var c := s.pending[id].corr;
            c < |s.tasks| && s.tasks[c].pc == Parked(id) && Reads(Project(s.log, c)) == Some(Asked(id))
  {
    assert Open(s, id);
    var c := s.pending[id].corr;
    assert Spoken(s, c);
    ProjectMember(s.log, c, ApprovalRequested(id));
    if s.tasks[c].pc == LogRequested(id) {
      TallyDetermined(Project(s.log, c));
      CountZero(Project(s.log, c), Asking(), ApprovalRequested(id));
    }
  }

  lemma {:induction false} CountZero(word: seq<Body>, f: Body -> bool, b: Body)
    requires b in word && f(b)
    ensures Count(word, f) > 0
  {
    var last := |word| - 1;
    assert word == word[..last] + [word[last]];
    if b != word[last] {
      CountZero(word[..last], f, b);
    }
  }

  lemma SpentWellformed(s: Sys, t: Sys, id: nat, task: Task)
    requires Wellformed(s) && id in s.pending && s.pending[id].corr < |s.tasks|
    requires s.tasks[s.pending[id].corr].pc == Parked(id)
    requires t.pending == s.pending[id := s.pending[id].(used := true)]
             && t.tasks == s.tasks[s.pending[id].corr := task]
    requires t.log == s.log && t.nextApproval == s.nextApproval
    requires Stands(Asked(id), task) && Reads(Project(s.log, s.pending[id].corr)) == Some(Asked(id))
    ensures Wellformed(t)
  {
    var c := s.pending[id].corr;
    assert Spoken(s, c);
    forall d | 0 <= d < |t.tasks| ensures Spoken(t, d) {
      assert Spoken(s, d);
    }
    forall k | k in t.pending ensures Open(t, k) {
      assert Open(s, k);
    }
  }

  lemma SubmitWellformed(s: Sys, payload: Payload)
    requires Wellformed(s)
    ensures Wellformed(s.(tasks := s.tasks + [Task(Begin(payload), NoReason)]))
  {
    var t := s.(tasks := s.tasks + [Task(Begin(payload), NoReason)]);
    NothingProjected(s.log, |s.tasks|);
    forall d | 0 <= d < |t.tasks| ensures Spoken(t, d) {
      if d < |s.tasks| {
        assert Spoken(s, d);
      }
    }
    forall id | id in t.pending ensures Open(t, id) {
      assert Open(s, id);
    }
  }

  lemma UnrelatedWellformed(s: Sys, kind: string)
    requires Wellformed(s)
    ensures Wellformed(s.(log := s.log + [Entry(None, Unrelated(kind))]))
  {
    var t := s.(log := s.log + [Entry(None, Unrelated(kind))]);
    forall d | 0 <= d < |t.tasks| ensures Spoken(t, d) {
      assert Spoken(s, d);
      ProjectAppended(s.log, Entry(None, Unrelated(kind)), d);
    }
    forall id | id in t.pending ensures Open(t, id) {
      assert Open(s, id);
    }
  }

  /** A step that touches neither log, requests nor approvals. */
  lemma SameWellformed(s: Sys, t: Sys)
    requires Wellformed(s) && t.log == s.log && t.tasks == s.tasks && t.pending == s.pending
             && t.nextApproval == s.nextApproval
    ensures Wellformed(t)
  {
    forall d | 0 <= d < |t.tasks| ensures Spoken(t, d) {
      assert Spoken(s, d);
    }
    forall id | id in t.pending ensures Open(t, id) {
      assert Open(s, id);
    }
  }

  lemma StepWellformed(env: Env, s: Sys, op: Op)
    requires Wellformed(s)
    ensures Wellformed(Step(env, s, op))
  {
    if Possible(s, op) {
      match op
      case OpSubmit(payload) => SubmitWellformed(s, payload);
      case OpAdvance(c, luck) => AdvanceWellformed(env, s, c, luck);
      case OpApprove(id, token) => ApprovedWellformed(s, id, token);
      case OpReject(id) => RefusedWellformed(s, id);
      case OpUnrelated(kind) => UnrelatedWellformed(s, kind);
      case _ => SameWellformed(s, Step(env, s, op));
    }
  }

  lemma {:induction false} RunWellformed(env: Env, files: Files, now: int, ops: seq<Op>)
    ensures Wellformed(Run(env, files, now, ops))
  {
    if |ops| > 0 {
      RunWellformed(env, files, now, ops[..|ops| - 1]);
      StepWellformed(env, Run(env, files, now, ops[..|ops| - 1]), ops[|ops| - 1]);
    }
  }

  /** The lifecycle grammar: in every run, with a pause possible at every await, the log of every request
      is a prefix of a word of the language, and a whole word once the request has ended; so no approval is
      both granted and rejected, no request executes twice, and one evaluated as disabled gets neither an
      approval nor an execution. */
  lemma LifecycleGrammar(env: Env, files: Files, now: int, ops: seq<Op>, c: nat)
    ensures var word := Project(Run(env, files, now, ops).log, c);
            && Reads(word).Some?
            && Count(word, Granting()) + Count(word, Rejecting()) <= 1
            && Count(word, Executing()) <= 1
            && (Count(word, Disabling()) > 0 ==> Count(word, Asking()) == 0 && Count(word, Executing()) == 0)
            && (c < |Run(env, files, now, ops).tasks| && Run(env, files, now, ops).tasks[c].pc.Ended? ==>
                Complete(Reads(word).value))
  {
    RunWellformed(env, files, now, ops);
    WordFacts(Run(env, files, now, ops), c);
  }

  lemma WordFacts(s: Sys, c: nat)
    requires Wellformed(s)
    ensures var word := Project(s.log, c);
            && Reads(word).Some?
            && Count(word, Granting()) + Count(word, Rejecting()) <= 1
            && Count(word, Executing()) <= 1
            && (Count(word, Disabling()) > 0 ==> Count(word, Asking()) == 0 && Count(word, Executing()) == 0)
            && (c < |s.tasks| && s.tasks[c].pc.Ended? ==> Complete(Reads(word).value))
  {
    if c < |s.tasks| {
      assert Spoken(s, c);
    } else {
      NothingProjected(s.log, c);
    }
    LanguageFacts(Project(s.log, c));
  }
}
