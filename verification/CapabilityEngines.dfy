/** The engine as the program runs it: `append` never suspends, so every call runs its request to the end
    (application/capabilities.py: CapabilityEngine, UpdateRoadmapWorkflow; application/tools.py:
    ToolRunner.invoke). */
module CapabilityEngines {
  import opened Wrappers
  import opened Lexicons
  import opened FileWrites
  import opened RoadmapConnector
  import opened Capabilities
  import opened Lifecycle
  import opened Justification
  import opened Journal

  // ------------------------------------------------------------------ running a request to its end

  /** A request that waits for nobody. */
  predicate Live(pc: Pc) {
    !pc.Parked? && !pc.Ended?
  }

  function Rank(pc: Pc): nat {
    match pc
    case Begin(_) => 17
    case LogProposeStarted(_, _, _) => 16
    case RunPropose(_, _, _) => 15
    case LogProposeDone(_, _) => 14
    case LogPlan(_, _, _) => 13
    case LogPlanningFailed => 12
    case ReadPolicy(_, _) => 11
    case LogPolicy(_, _, _) => 10
    case Decide(_, _, _) => 9
    case LogRequested(_) => 8
    case LogGranted(_, _) => 7
    case LogRejected(_) => 6
    case LogApplyStarted(_) => 5
    case RunApply(_) => 4
    case LogApplyDone(_) => 3
    case LogOutcome(_) => 2
    case LogArtifact(_, _) => 1
    case Parked(_) => 0
    case Ended => 0
  }

  lemma NextRank(pc: Pc)
    requires Next(pc).Some?
    ensures Rank(Next(pc).value.1) < Rank(pc) && Live(pc)
  {
  }

  lemma ComputedRank(env: Env, s: Sys, pc: Pc)
    requires Computes(pc)
    ensures Rank(Computed(env, s, pc)) < Rank(pc)
  {
  }

  lemma AdvanceRank(env: Env, s: Sys, c: nat, luck: Luck)
    requires c < |s.tasks| && Plausible(s, c, luck) && Live(s.tasks[c].pc)
    ensures var t := Advance(env, s, c, luck);
            |t.tasks| == |s.tasks| && Rank(t.tasks[c].pc) < Rank(s.tasks[c].pc)
  {
    var pc := s.tasks[c].pc;
    if Next(pc).Some? {
      NextRank(pc);
    } else if Computes(pc) {
      ComputedRank(env, s, pc);
    }
  }

  /** The steps of request `c` until it waits or ends. */
  ghost function Driven(env: Env, s: Sys, c: nat, luck: Luck): Sys
    requires c < |s.tasks|
    decreases Rank(s.tasks[c].pc)
  {
    if !Live(s.tasks[c].pc) || !Plausible(s, c, luck) then s
    else
      AdvanceRank(env, s, c, luck);
      Driven(env, Advance(env, s, c, luck), c, luck)
  }

  lemma DrivenUnfolds(env: Env, s: Sys, c: nat, luck: Luck)
    requires c < |s.tasks| && Live(s.tasks[c].pc) && Plausible(s, c, luck)
    ensures |Advance(env, s, c, luck).tasks| == |s.tasks|
    ensures Driven(env, s, c, luck) == Driven(env, Advance(env, s, c, luck), c, luck)
  {
    AdvanceRank(env, s, c, luck);
  }

  function Submitted(s: Sys, payload: Payload): Sys {
    s.(tasks := s.tasks + [Task(Begin(payload), NoReason)])
  }

  /** What a call answers. */
  datatype Reply =
    | PlanningFailed
    | CapabilityDisabled
    | NeedsApproval(id: nat, token: string)
    | Executed(result: ToolResult)
    | ApprovalInvalid
    | Cancelled

  /** The proposal that planning a request comes to, if it comes to one. */
  ghost function PlanFor(env: Env, files: Files, payload: Payload): Option<Proposal> {
    if payload.Invalid? || Target(env, files, payload.path).None? then None
    else
      var proposed := Propose(env, files, Target(env, files, payload.path).value, payload.ask);
      if proposed.Ok? then Some(proposed.value) else None
  }

  /** The answer that a policy calls for. A missing confidence counts as 0. */
  ghost predicate Obeys(r: Reply, policy: Policy, confidence: Option<real>) {
    && (r.CapabilityDisabled? <==> policy.mode == Disabled)
    && (r.NeedsApproval? <==>
        || policy.mode == Manual
        || (policy.mode == Automatic && policy.threshold.Some? && confidence.GetOr(0.0) < policy.threshold.value))
    && (r.Executed? <==>
        policy.mode == Automatic && (policy.threshold.Some? ==> confidence.GetOr(0.0) >= policy.threshold.value))
  }

  /** The answer to a request tells where it stands, and what it has done. */
  ghost predicate Tells(r: Reply, before: Sys, after: Sys, c: nat) {
    && c < |after.tasks|
    && match r
       case PlanningFailed => after.tasks[c].pc.Ended? && after.files == before.files && after.pending == before.pending
       case CapabilityDisabled =>
           after.tasks[c].pc.Ended? && after.files == before.files && after.pending == before.pending
       case NeedsApproval(id, token) =>
         && after.tasks[c].pc == Parked(id) && after.files == before.files && id !in before.pending
         && id in after.pending
         && after.pending[id].tokenHash == HashOf(token) && after.pending[id].corr == c && !after.pending[id].used
         && after.pending[id].expiresAt == before.now + 900
       case Executed(result) =>
         && after.tasks[c].pc.Ended? && |after.invoked| == |before.invoked| + 1
         && after.written == before.written + if Wrote(result) then [result.diff] else []
       case _ => false
  }

  lemma OnlyMember(found: set<Path>, p: Path, q: Path)
    requires |found| == 1 && p in found && q in found
    ensures p == q
  {
    assert |found - {p}| == 0;
    assert q in found - {p} || q == p;
  }

  /** One more step of a run. */
  lemma RunExtended(env: Env, files: Files, now: int, ops: seq<Op>, op: Op)
    requires AllOneWriter(env, files, now, ops) && OneWriter(Run(env, files, now, ops), op)
    ensures Run(env, files, now, ops + [op]) == Step(env, Run(env, files, now, ops), op)
    ensures AllOneWriter(env, files, now, ops + [op])
  {
    assert (ops + [op])[..|ops|] == ops;
  }

  lemma AdvanceIsStep(env: Env, s: Sys, c: nat, luck: Luck)
    requires c < |s.tasks| && Plausible(s, c, luck)
    ensures Step(env, s, OpAdvance(c, luck)) == Advance(env, s, c, luck)
  {
  }

  lemma AdvanceAlone(env: Env, s: Sys, c: nat, luck: Luck)
    requires c < |s.tasks| && Plausible(s, c, luck)
    ensures |Advance(env, s, c, luck).tasks| == |s.tasks|
    ensures forall d | 0 <= d < |s.tasks| && d != c :: Advance(env, s, c, luck).tasks[d] == s.tasks[d]
  {
  }

  /** While all other requests wait or have ended, one request is the only writer. */
  lemma AloneWrites(s: Sys, c: nat, luck: Luck)
    requires c < |s.tasks| && forall d | 0 <= d < |s.tasks| && d != c :: !Live(s.tasks[d].pc)
    ensures OneWriter(s, OpAdvance(c, luck))
  {
  }

  lemma InvokedFields(env: Env, s: Sys, c: nat, luck: Luck, p: Proposal, after: Files, r: ToolResult)
    requires c < |s.tasks| && Plausible(s, c, luck) && s.tasks[c].pc == RunApply(p)
    requires Applied(env, s.files, p, luck.io) == (after, Some(r))
    ensures Advance(env, s, c, luck)
            == s.(files := after, written := s.written + (if Wrote(r) then [r.diff] else []),
                  invoked := s.invoked + [Invocation(c, |s.log|)],
                  tasks := s.tasks[c := s.tasks[c].(pc := LogApplyDone(r))])
  {
    ApplyInvokes(env, s, c, luck);
    assert s.written + [] == s.written;
  }

  lemma ParkFields(env: Env, s: Sys, c: nat, luck: Luck, p: Proposal)
    requires c < |s.tasks| && s.tasks[c].pc.Decide? && s.tasks[c].pc.proposal == p
             && s.tasks[c].pc.policy.mode != Disabled
    requires BelowThreshold(s.tasks[c].pc.policy, s.tasks[c].pc.confidence) || s.tasks[c].pc.policy.mode == Manual
    ensures Plausible(s, c, luck)
    ensures Advance(env, s, c, luck)
            == s.(pending := s.pending[s.nextApproval :=
                                       Pending(HashOf(luck.token), s.now + APPROVAL_SECONDS, c, p, false)],
                  nextApproval := s.nextApproval + 1,
                  tasks := s.tasks[c := s.tasks[c].(pc := LogRequested(s.nextApproval))])
  {
  }

  /** A request past its evaluation. */
  predicate PastEvaluation(pc: Pc) {
    pc.LogGranted? || pc.LogApplyStarted? || pc.RunApply? || pc.LogApplyDone? || pc.LogOutcome? || pc.LogArtifact?
        || !Live(pc)
  }

  lemma AdvanceUnread(env: Env, s: Sys, policy: Policy, c: nat, luck: Luck)
    requires c < |s.tasks| && PastEvaluation(s.tasks[c].pc) && Plausible(s, c, luck)
    ensures Advance(env, s.(policy := Some(policy)), c, luck) == Advance(env, s, c, luck).(policy := Some(policy))
    ensures |Advance(env, s, c, luck).tasks| == |s.tasks| && PastEvaluation(Advance(env, s, c, luck).tasks[c].pc)
  {
  }

  /** An approval is carried out whatever the policy says by then: disabling a capability stops no request
      that has been evaluated before. */
  lemma {:induction false} PolicyUnread(env: Env, s: Sys, policy: Policy, c: nat, luck: Luck)
    requires c < |s.tasks| && PastEvaluation(s.tasks[c].pc)
    ensures Driven(env, s.(policy := Some(policy)), c, luck) == Driven(env, s, c, luck).(policy := Some(policy))
    decreases Rank(s.tasks[c].pc)
  {
    var t := s.(policy := Some(policy));
    if Live(s.tasks[c].pc) && Plausible(s, c, luck) {
      AdvanceUnread(env, s, policy, c, luck);
      AdvanceRank(env, s, c, luck);
      DrivenUnfolds(env, s, c, luck);
      DrivenUnfolds(env, t, c, luck);
      PolicyUnread(env, Advance(env, s, c, luck), policy, c, luck);
    }
  }

  /** The steps that `Driven` takes. */
  ghost function DrivenOps(env: Env, s: Sys, c: nat, luck: Luck): seq<Op>
    requires c < |s.tasks|
    decreases Rank(s.tasks[c].pc)
  {
    if !Live(s.tasks[c].pc) || !Plausible(s, c, luck) then []
    else
      AdvanceRank(env, s, c, luck);
      [OpAdvance(c, luck)] + DrivenOps(env, Advance(env, s, c, luck), c, luck)
  }

  lemma DrivenStops(env: Env, s: Sys, c: nat, luck: Luck)
    requires c < |s.tasks| && !(Live(s.tasks[c].pc) && Plausible(s, c, luck))
    ensures Driven(env, s, c, luck) == s && DrivenOps(env, s, c, luck) == []
  {
  }

  lemma DrivenOpsUnfold(env: Env, s: Sys, c: nat, luck: Luck)
    requires c < |s.tasks| && Live(s.tasks[c].pc) && Plausible(s, c, luck)
    ensures |Advance(env, s, c, luck).tasks| == |s.tasks|
            && Rank(Advance(env, s, c, luck).tasks[c].pc) < Rank(s.tasks[c].pc)
    ensures DrivenOps(env, s, c, luck) == [OpAdvance(c, luck)] + DrivenOps(env, Advance(env, s, c, luck), c, luck)
  {
    AdvanceRank(env, s, c, luck);
  }

  /** The write is saved as it is, and not stopped between its replacement and its report. */
  ghost predicate Calm(io: Io) {
    (forall w :: io.save(w) == w) && !Hits(io.fault, 5)
  }

  lemma CalmUndisturbed(s: Sys, c: nat, luck: Luck)
    ensures Calm(luck.io) ==> Undisturbed(s, OpAdvance(c, luck))
  {
  }

  /** That a list of operations leads to a state, calmly or not. */
  type Reach = (bool, seq<Op>, Sys) -> bool

  /** What is needed of it: a step with one writer leads on, and states are well formed. */
  ghost predicate Lawful(env: Env, reach: Reach) {
    && (forall calm: bool, ops: seq<Op>, s: Sys, op: Op {:trigger reach(calm, ops + [op], Step(env, s, op))}
          | reach(calm, ops, s) && OneWriter(s, op) && (calm ==> Undisturbed(s, op)) ::
              reach(calm, ops + [op], Step(env, s, op)))
    && (forall calm: bool, ops: seq<Op>, s: Sys {:trigger reach(calm, ops, s)} | reach(calm, ops, s) ::
            Wellformed(s) && reach(false, ops, s))
  }

  ghost function Reaches(env: Env, files: Files, now: int): Reach {
    (calm: bool, ops: seq<Op>, s: Sys) =>
      && s == Run(env, files, now, ops) && AllOneWriter(env, files, now, ops)
      && (calm ==> AllUndisturbed(env, files, now, ops))
  }

  lemma ReachesOn(env: Env, files: Files, now: int, calm: bool, ops: seq<Op>, s: Sys, op: Op)
    requires Reaches(env, files, now)(calm, ops, s) && OneWriter(s, op) && (calm ==> Undisturbed(s, op))
    ensures Reaches(env, files, now)(calm, ops + [op], Step(env, s, op))
  {
    RunExtended(env, files, now, ops, op);
    UndisturbedOn(env, files, now, ops, op);
  }

  lemma UndisturbedOn(env: Env, files: Files, now: int, ops: seq<Op>, op: Op)
    ensures AllUndisturbed(env, files, now, ops + [op]) <==>
            AllUndisturbed(env, files, now, ops) && Undisturbed(Run(env, files, now, ops), op)
  {
    assert (ops + [op])[..|ops + [op]| - 1] == ops;
  }

  lemma ReachesStart(env: Env, files: Files, now: int)
    ensures Reaches(env, files, now)(true, [], Initial(files, now))
  {
    assert Run(env, files, now, []) == Initial(files, now);
    assert AllOneWriter(env, files, now, []) && AllUndisturbed(env, files, now, []);
  }

  lemma ReachesLawful(env: Env, files: Files, now: int)
    ensures Lawful(env, Reaches(env, files, now))
  {
    var reach := Reaches(env, files, now);
    forall calm: bool, ops: seq<Op>, s: Sys, op: Op | reach(calm, ops, s) && OneWriter(s, op)
        && (calm ==> Undisturbed(s, op))
      ensures reach(calm, ops + [op], Step(env, s, op))
    {
      ReachesOn(env, files, now, calm, ops, s, op);
    }
    forall calm: bool, ops: seq<Op>, s: Sys | reach(calm, ops, s) ensures Wellformed(s) && reach(false, ops, s) {
      RunWellformed(env, files, now, ops);
    }
  }

  lemma LawfulStates(env: Env, reach: Reach, calm: bool, ops: seq<Op>, s: Sys)
    requires reach(calm, ops, s) && Lawful(env, reach)
    ensures Wellformed(s) && reach(false, ops, s)
  {
  }

  lemma LawfulStep(env: Env, reach: Reach, calm: bool, ops: seq<Op>, s: Sys, op: Op)
    requires reach(calm, ops, s) && Lawful(env, reach) && OneWriter(s, op) && (calm ==> Undisturbed(s, op))
    ensures reach(calm, ops + [op], Step(env, s, op))
  {
  }

  lemma DrivenStep(env: Env, reach: Reach, calm: bool, ops: seq<Op>, s: Sys, c: nat, luck: Luck) returns (t: Sys)
    requires reach(calm, ops, s) && Lawful(env, reach) && (calm ==> Calm(luck.io))
    requires c < |s.tasks| && forall d | 0 <= d < |s.tasks| && d != c :: !Live(s.tasks[d].pc)
    requires Live(s.tasks[c].pc) && Plausible(s, c, luck)
    ensures reach(calm, ops + [OpAdvance(c, luck)], t)
    ensures |t.tasks| == |s.tasks| && Rank(t.tasks[c].pc) < Rank(s.tasks[c].pc)
    ensures forall d | 0 <= d < |t.tasks| && d != c :: !Live(t.tasks[d].pc)
    ensures Driven(env, s, c, luck) == Driven(env, t, c, luck)
    ensures DrivenOps(env, s, c, luck) == [OpAdvance(c, luck)] + DrivenOps(env, t, c, luck)
  {
    t := Advance(env, s, c, luck);
    AloneWrites(s, c, luck);
    CalmUndisturbed(s, c, luck);
    AdvanceIsStep(env, s, c, luck);
    AdvanceAlone(env, s, c, luck);
    assert reach(calm, ops + [OpAdvance(c, luck)], Step(env, s, OpAdvance(c, luck)));
    DrivenUnfolds(env, s, c, luck);
    DrivenOpsUnfold(env, s, c, luck);
  }

  /** Running one request to its end, with all others waiting or ended, is a run with one writer. */
  lemma {:induction false} DrivenReaches(env: Env, reach: Reach, calm: bool, ops: seq<Op>, s: Sys, c: nat, luck: Luck)
    requires reach(calm, ops, s) && Lawful(env, reach) && (calm ==> Calm(luck.io))
    requires c < |s.tasks| && forall d | 0 <= d < |s.tasks| && d != c :: !Live(s.tasks[d].pc)
    ensures reach(calm, ops + DrivenOps(env, s, c, luck), Driven(env, s, c, luck))
    decreases Rank(s.tasks[c].pc)
  {
    if Live(s.tasks[c].pc) && Plausible(s, c, luck) {
      var t := DrivenStep(env, reach, calm, ops, s, c, luck);
      DrivenReaches(env, reach, calm, ops + [OpAdvance(c, luck)], t, c, luck);
      assert ops + [OpAdvance(c, luck)] + DrivenOps(env, t, c, luck) == ops + DrivenOps(env, s, c, luck);
    } else {
      DrivenStops(env, s, c, luck);
      assert ops + [] == ops;
    }
  }

  /** Driving a request is a goal that its steps keep, and that leaves nothing open when they are done. */
  lemma DriveGoal(env: Env, s: Sys, c: nat, luck: Luck) returns (goal: Sys -> bool, target: Sys)
    requires c < |s.tasks|
    ensures target == Driven(env, s, c, luck)
    ensures goal(s) && Kept(env, c, luck, goal)
    ensures forall t: Sys {:trigger goal(t)} | goal(t) && c < |t.tasks| && !Live(t.tasks[c].pc) :: t == target
  {
    target := Driven(env, s, c, luck);
    goal := LeadsTo(env, c, luck, target);
    LeadingKept(env, c, luck, target);
    forall t: Sys | LeadsTo(env, c, luck, target)(t) && c < |t.tasks| && !Live(t.tasks[c].pc) ensures t == target {
      DrivenStops(env, t, c, luck);
    }
  }

  /** An operation, with all requests waiting or ended, and then request `c` run to its end. */
  lemma ServedReaches(env: Env, reach: Reach, calm: bool, ops: seq<Op>, s: Sys, op: Op, t: Sys, c: nat, luck: Luck)
    returns (goal: Sys -> bool, target: Sys, more: seq<Op>)
    requires reach(calm, ops, s) && Lawful(env, reach) && (calm ==> Calm(luck.io))
    requires Step(env, s, op) == t && c < |t.tasks| && (forall d | 0 <= d < |t.tasks| && d != c :: !Live(t.tasks[d].pc))
    requires OneWriter(s, op) && Undisturbed(s, op)
    ensures target == Driven(env, t, c, luck) && reach(calm, more, target)
    ensures goal(t) && Kept(env, c, luck, goal)
    ensures forall u: Sys {:trigger goal(u)} | goal(u) && c < |u.tasks| && !Live(u.tasks[c].pc) :: u == target
  {
    assert reach(calm, ops + [op], Step(env, s, op));
    DrivenReaches(env, reach, calm, ops + [op], t, c, luck);
    more := ops + [op] + DrivenOps(env, t, c, luck);
    goal, target := DriveGoal(env, t, c, luck);
  }

  lemma SubmitIsStep(env: Env, s: Sys, payload: Payload)
    ensures Step(env, s, OpSubmit(payload)) == Submitted(s, payload)
    ensures OneWriter(s, OpSubmit(payload)) && Undisturbed(s, OpSubmit(payload))
  {
  }

  lemma {:induction false} AskedInWord(word: seq<Body>, id: nat)
    requires Reads(word) == Some(Asked(id))
    ensures ApprovalRequested(id) in word
  {
    assert word == word[..|word| - 1] + [word[|word| - 1]];
  }

  /** Between calls, every open approval has been published. */
  lemma RestNameable(s: Sys, id: nat)
    requires Wellformed(s) && forall d | 0 <= d < |s.tasks| :: !Live(s.tasks[d].pc)
    requires id in s.pending && !s.pending[id].used
    ensures Nameable(s, id) && s.pending[id].corr < |s.tasks| && s.tasks[s.pending[id].corr].pc == Parked(id)
  {
    assert Open(s, id);
    var c := s.pending[id].corr;
    assert Spoken(s, c);
    AskedInWord(Project(s.log, c), id);
    ProjectMember(s.log, c, ApprovalRequested(id));
  }

  /** The answer to an unknown or used approval changes nothing. */
  lemma ApproveIsStep(env: Env, s: Sys, id: nat, token: string)
    requires Wellformed(s) && forall d | 0 <= d < |s.tasks| :: !Live(s.tasks[d].pc)
    ensures Step(env, s, OpApprove(id, token)) == Approved(s, id, token)
  {
    if id in s.pending && !s.pending[id].used {
      RestNameable(s, id);
    }
  }

  lemma RejectIsStep(env: Env, s: Sys, id: nat)
    requires Wellformed(s) && forall d | 0 <= d < |s.tasks| :: !Live(s.tasks[d].pc)
    ensures Step(env, s, OpReject(id)) == Refused(s, id)
  {
    if id in s.pending && !s.pending[id].used {
      RestNameable(s, id);
    }
  }

  /** What every step of request `c` keeps. */
  ghost predicate Kept(env: Env, c: nat, luck: Luck, goal: Sys -> bool) {
    forall s: Sys {:trigger Advance(env, s, c, luck)} | c < |s.tasks| && Live(s.tasks[c].pc) && Plausible(s, c, luck)
        && goal(s) ::
      goal(Advance(env, s, c, luck))
  }

  /** That the steps left to request `c` lead to `target`. */
  ghost function LeadsTo(env: Env, c: nat, luck: Luck, target: Sys): Sys -> bool {
    (s: Sys) => c < |s.tasks| && Driven(env, s, c, luck) == target
  }

  lemma LeadingKept(env: Env, c: nat, luck: Luck, target: Sys)
    ensures Kept(env, c, luck, LeadsTo(env, c, luck, target))
  {
    forall s: Sys | c < |s.tasks| && Live(s.tasks[c].pc) && Plausible(s, c, luck) && LeadsTo(env, c, luck, target)(s)
      ensures LeadsTo(env, c, luck, target)(Advance(env, s, c, luck))
    {
      DrivenUnfolds(env, s, c, luck);
    }
  }

  /** What an approval needs to be granted: it is known, unused, not expired, and the token is its own. */
  predicate Grantable(s: Sys, id: nat, token: string) {
    id in s.pending && !s.pending[id].used && s.now < s.pending[id].expiresAt
        && s.pending[id].tokenHash == HashOf(token)
  }

  predicate Rejectable(s: Sys, id: nat) {
    id in s.pending && !s.pending[id].used
  }

  /** The machine adds nothing to a step that neither writes nor asks. */
  function NoLuck(): Luck {
    Luck(Io("", w => w, NoFault), "")
  }

  class CapabilityEngine {
    const env: Env
    var files: Files
    var log: seq<Entry>
    var pending: map<nat, Pending>
    var policy: Option<Policy>
    var now: int
    var nextApproval: nat
    var nextCorrelation: nat
    ghost var tasks: seq<Task>
    ghost var written: seq<Diff>
    ghost var invoked: seq<Invocation>
    ghost const reach: Reach
    ghost var ops: seq<Op>
    ghost var calm: bool

    ghost function Model(): Sys
      reads this
    {
      Sys(files, log, pending, policy, now, nextApproval, tasks, written, invoked)
    }

    /** The engine is in a state that the machine reaches by `ops`. */
    ghost predicate Valid()
      reads this
    {
      reach(calm, ops, Model()) && Lawful(env, reach) && nextCorrelation == |tasks|
    }

    /** Between calls every request waits or has ended. */
    ghost predicate AtRest()
      reads this
    {
      Valid() && forall d | 0 <= d < |tasks| :: !Live(tasks[d].pc)
    }

    /** Within a call: the other requests wait or have ended, and what every step of this one keeps holds. */
    ghost predicate Under(c: nat, luck: Luck, goal: Sys -> bool)
      reads this
    {
      && c < |tasks| == nextCorrelation && goal(Model()) && Kept(env, c, luck, goal)
      && forall d | 0 <= d < |tasks| && d != c :: !Live(tasks[d].pc)
    }

    /** The temporary directory of the call is new, and the process lives through it. */
    ghost predicate Workable(io: Io)
      reads this`files
    {
      !io.fault.Dies? && forall p: Path :: TempOf(p, io.tmp) !in files
    }

    /** The answer to a request: planning has failed, or the policy set, manual if none is, decides on the
        proposal planned, and that proposal is what was asked about or applied. */
    ghost predicate Follows(r: Reply, plan: Option<Proposal>, chosen: Option<Policy>, payload: Payload, io: Io,
                            before: Files)
      reads this
    {
      if plan.None? then r == PlanningFailed
      else
        && payload.Valid? && Obeys(r, if chosen.Some? then chosen.value else Policy(Manual, None), payload.confidence)
        && (r.NeedsApproval? ==> r.id in pending && pending[r.id].proposal == plan.value)
        && (r.Executed? ==> (files, Some(r.result)) == Applied(env, before, plan.value, io))
    }

    constructor (env: Env, files: Files, now: int)
      ensures AtRest() && Model() == Initial(files, now)
      ensures this.env == env && reach == Reaches(env, files, now) && ops == [] && calm
    {
      this.env, this.files, this.now := env, files, now;
      log, pending, policy, nextApproval, nextCorrelation := [], map[], None, 0, 0;
      tasks, written, invoked, ops, calm := [], [], [], [], true;
      reach := Reaches(env, files, now);
      ReachesLawful(env, files, now);
      ReachesStart(env, files, now);
    }

    /** The machine's step that the code has just taken. */
    ghost method Stepped(c: nat, luck: Luck, goal: Sys -> bool, before: Sys)
      requires c < |before.tasks| && Live(before.tasks[c].pc) && Plausible(before, c, luck)
      requires goal(before) && Kept(env, c, luck, goal) && nextCorrelation == |before.tasks|
      requires forall d | 0 <= d < |before.tasks| && d != c :: !Live(before.tasks[d].pc)
      requires Model() == Advance(env, before, c, luck)
      ensures Under(c, luck, goal)
    {
      AdvanceAlone(env, before, c, luck);
    }

    /** `EventStore.append` of an event of request `c`. */
    method Append(c: nat, body: Body, ghost next: Pc, ghost luck: Luck, ghost goal: Sys -> bool)
      requires Under(c, luck, goal) && Next(tasks[c].pc) == Some((body, next))
      modifies this`log, this`tasks
      ensures Under(c, luck, goal)
      ensures log == old(log) + [Entry(Some(c), body)]
      ensures tasks == old(tasks)[c := old(tasks[c]).(pc := next)]
    {
      ghost var before := Model();
      NextRank(tasks[c].pc);
      log := log + [Entry(Some(c), body)];
      tasks := tasks[c := tasks[c].(pc := next)];
      Stepped(c, luck, goal, before);
    }

    /** A computation that only reads. */
    ghost method Compute(c: nat, next: Pc, luck: Luck, goal: Sys -> bool)
      requires Under(c, luck, goal) && Computes(tasks[c].pc) && Computed(env, Model(), tasks[c].pc) == next
      modifies this`tasks
      ensures Under(c, luck, goal)
      ensures tasks == old(tasks)[c := old(tasks[c]).(pc := next)]
    {
      var before := Model();
      tasks := tasks[c := tasks[c].(pc := next)];
      Stepped(c, luck, goal, before);
    }

    /** The handler of the planning tool. */
    method RunPlanner(c: nat, path: Path, ask: Ask, confidence: Option<real>, ghost luck: Luck, ghost goal: Sys -> bool)
      returns (proposed: Option<Proposal>)
      requires Under(c, luck, goal) && tasks[c].pc == RunPropose(path, ask, confidence)
      modifies this`tasks
      ensures Under(c, luck, goal)
      ensures tasks == old(tasks)[c := old(tasks[c]).(pc := LogProposeDone(proposed, confidence))]
      ensures var r := Propose(env, files, path, ask); proposed == if r.Ok? then Some(r.value) else None
    {
      var r := Propose(env, files, path, ask);
      proposed := if r.Ok? then Some(r.value) else None;
      Compute(c, LogProposeDone(proposed, confidence), luck, goal);
    }

    /** `ToolRunner.invoke` of the planning tool. */
    method InvokePropose(c: nat, path: Path, ask: Ask, confidence: Option<real>, ghost luck: Luck,
                         ghost goal: Sys -> bool)
      returns (proposed: Option<Proposal>)
      requires Under(c, luck, goal) && tasks[c].pc == LogProposeStarted(path, ask, confidence)
      modifies this`log, this`tasks
      ensures Under(c, luck, goal) && |tasks| == old(|tasks|) && tasks[c].pc == LogPlan(true, proposed, confidence)
      ensures var r := Propose(env, files, path, ask); proposed == if r.Ok? then Some(r.value) else None
    {
      hide Lawful, Kept, Propose, Advance;
      Append(c, ToolStarted(ProposeTool), RunPropose(path, ask, confidence), luck, goal);
      proposed := RunPlanner(c, path, ask, confidence, luck, goal);
      Append(c, if proposed.Some? then ToolCompleted(ProposeTool) else ToolFailed(ProposeTool),
             LogPlan(true, proposed, confidence), luck, goal);
    }

    /** The handler of the apply tool. */
    method RunHandler(c: nat, proposal: Proposal, luck: Luck, ghost goal: Sys -> bool) returns (result: ToolResult)
      requires Under(c, luck, goal) && Workable(luck.io) && tasks[c].pc == RunApply(proposal)
      modifies this`tasks, this`files, this`written, this`invoked
      ensures Under(c, luck, goal)
      ensures tasks == old(tasks)[c := old(tasks[c]).(pc := LogApplyDone(result))]
      ensures (files, Some(result)) == Applied(env, old(files), proposal, luck.io)
      ensures invoked == old(invoked) + [Invocation(c, |log|)]
      ensures written == old(written) + if Wrote(result) then [result.diff] else []
    {
      hide Lawful, Kept;
      ghost var before := Model();
      Answered(env, files, proposal, luck.io);
      var (after, answer) := Applied(env, files, proposal, luck.io);
      result := answer.GetOr(Failure(Unknown));
      files := after;
      written := written + if Wrote(result) then [result.diff] else [];
      invoked := invoked + [Invocation(c, |log|)];
      tasks := tasks[c := tasks[c].(pc := LogApplyDone(result))];
      InvokedFields(env, before, c, luck, proposal, after, result);
      Stepped(c, luck, goal, before);
    }

    /** `ToolRunner.invoke` of the apply tool. */
    method InvokeApply(c: nat, proposal: Proposal, luck: Luck, ghost goal: Sys -> bool) returns (result: ToolResult)
      requires Under(c, luck, goal) && Workable(luck.io) && tasks[c].pc == LogApplyStarted(proposal)
      modifies this`log, this`tasks, this`files, this`written, this`invoked
      ensures Under(c, luck, goal) && |tasks| == old(|tasks|) && tasks[c].pc == LogOutcome(result)
      ensures (files, Some(result)) == Applied(env, old(files), proposal, luck.io)
      ensures |invoked| == old(|invoked|) + 1
      ensures written == old(written) + if Wrote(result) then [result.diff] else []
    {
      Append(c, ToolStarted(ApplyTool), RunApply(proposal), luck, goal);
      result := RunHandler(c, proposal, luck, goal);
      Append(c, if result.Success? then ToolCompleted(ApplyTool) else ToolFailed(ApplyTool),
             LogOutcome(result), luck, goal);
    }

    /** `_emit_result` of an execution. */
    method EmitResult(c: nat, result: ToolResult, ghost luck: Luck, ghost goal: Sys -> bool)
      requires Under(c, luck, goal) && tasks[c].pc == LogOutcome(result)
      modifies this`log, this`tasks
      ensures Under(c, luck, goal) && |tasks| == old(|tasks|) && tasks[c].pc.Ended?
    {
      if result.Success? {
        Append(c, PlanCompleted, LogArtifact(result.diff, result.rollbackRef), luck, goal);
        Append(c, ArtifactCreated(result.diff, result.rollbackRef), Ended, luck, goal);
      } else {
        Append(c, PlanFailed, Ended, luck, goal);
      }
    }

    /** `workflow.execute`, then its result. */
    method Execute(c: nat, proposal: Proposal, luck: Luck, ghost goal: Sys -> bool) returns (result: ToolResult)
      requires Under(c, luck, goal) && Workable(luck.io) && tasks[c].pc == LogApplyStarted(proposal)
      modifies this`log, this`tasks, this`files, this`written, this`invoked
      ensures Under(c, luck, goal) && |tasks| == old(|tasks|) && tasks[c].pc.Ended?
      ensures (files, Some(result)) == Applied(env, old(files), proposal, luck.io)
      ensures |invoked| == old(|invoked|) + 1
      ensures written == old(written) + if Wrote(result) then [result.diff] else []
    {
      result := InvokeApply(c, proposal, luck, goal);
      EmitResult(c, result, luck, goal);
    }

    /** `_create_approval` up to its event. */
    method OpenApproval(c: nat, proposal: Proposal, luck: Luck, ghost goal: Sys -> bool) returns (id: nat)
      requires Under(c, luck, goal) && tasks[c].pc.Decide? && tasks[c].pc.proposal == proposal
               && tasks[c].pc.policy.mode != Disabled
      requires BelowThreshold(tasks[c].pc.policy, tasks[c].pc.confidence) || tasks[c].pc.policy.mode == Manual
      modifies this`tasks, this`pending, this`nextApproval
      ensures Under(c, luck, goal) && tasks == old(tasks)[c := old(tasks[c]).(pc := LogRequested(id))]
      ensures id == old(nextApproval)
              && pending == old(pending)[id := Pending(HashOf(luck.token), now + APPROVAL_SECONDS, c, proposal, false)]
    {
      ghost var before := Model();
      id := nextApproval;
      pending := pending[id := Pending(HashOf(luck.token), now + APPROVAL_SECONDS, c, proposal, false)];
      nextApproval := id + 1;
      tasks := tasks[c := tasks[c].(pc := LogRequested(id))];
      ParkFields(env, before, c, luck, proposal);
      Stepped(c, luck, goal, before);
    }

    /** `_create_approval`. */
    method CreateApproval(c: nat, proposal: Proposal, luck: Luck, ghost goal: Sys -> bool) returns (id: nat)
      requires Under(c, luck, goal) && tasks[c].pc.Decide? && tasks[c].pc.proposal == proposal
               && tasks[c].pc.policy.mode != Disabled
      requires BelowThreshold(tasks[c].pc.policy, tasks[c].pc.confidence) || tasks[c].pc.policy.mode == Manual
      modifies this`log, this`tasks, this`pending, this`nextApproval
      ensures Under(c, luck, goal) && |tasks| == old(|tasks|) && tasks[c].pc == Parked(id)
      ensures id == old(nextApproval)
              && pending == old(pending)[id := Pending(HashOf(luck.token), now + APPROVAL_SECONDS, c, proposal, false)]
    {
      id := OpenApproval(c, proposal, luck, goal);
      Append(c, ApprovalRequested(id), Parked(id), luck, goal);
    }

    /** `discover`, when no workbook is named. */
    method Resolve(path: Option<Path>) returns (target: Option<Path>)
      ensures target == Target(env, files, path)
    {
      if path.Some? {
        return path;
      }
      var found := Discover(env, files);
      if |found| != 1 {
        return None;
      }
      var p :| p in found;
      ghost var q := Target(env, files, path).value;
      OnlyMember(found, p, q);
      return Some(p);
    }

    /** `workflow.plan`. */
    method Plan(c: nat, payload: Payload, ghost luck: Luck, ghost goal: Sys -> bool)
            returns (proposed: Option<Proposal>, confidence: Option<real>)
      requires Under(c, luck, goal) && tasks[c].pc == Begin(payload)
      modifies this`log, this`tasks
      ensures Under(c, luck, goal) && |tasks| == old(|tasks|)
      ensures tasks[c].pc.LogPlan? && tasks[c].pc.proposed == proposed && tasks[c].pc.confidence == confidence
      ensures proposed == PlanFor(env, files, payload) && (proposed.Some? ==> payload.Valid?)
      ensures payload.Valid? ==> confidence == payload.confidence
    {
      Compute(c, Started(env, files, payload), luck, goal);
      if payload.Invalid? {
        return None, None;
      }
      confidence := payload.confidence;
      var workbook := Resolve(payload.path);
      if workbook.None? {
        return None, confidence;
      }
      proposed := InvokePropose(c, workbook.value, payload.ask, confidence, luck, goal);
    }

    /** The decision on a policy read. */
    method DecideOn(c: nat, proposal: Proposal, confidence: Option<real>, policyRead: Policy, luck: Luck,
            ghost goal: Sys -> bool) returns (r: Reply)
      requires Under(c, luck, goal) && Workable(luck.io) && tasks[c].pc == Decide(proposal, confidence, policyRead)
      requires nextApproval !in pending
      modifies this`log, this`tasks, this`files, this`written, this`invoked, this`pending, this`nextApproval
      ensures Under(c, luck, goal) && !Live(tasks[c].pc) && Tells(r, old(Model()), Model(), c)
      ensures Obeys(r, policyRead, confidence)
      ensures r.NeedsApproval? ==> pending[r.id].proposal == proposal
      ensures r.Executed? ==> (files, Some(r.result)) == Applied(env, old(files), proposal, luck.io)
    {
      if policyRead.mode == Disabled {
        ghost var before := Model();
        tasks := tasks[c := tasks[c].(pc := Ended)];
        Stepped(c, luck, goal, before);
        return CapabilityDisabled;
      }
      if BelowThreshold(policyRead, confidence) || policyRead.mode == Manual {
        var id := CreateApproval(c, proposal, luck, goal);
        return NeedsApproval(id, luck.token);
      }
      ghost var before := Model();
      tasks := tasks[c := Task(LogApplyStarted(proposal), ByPolicy(policyRead, confidence))];
      Stepped(c, luck, goal, before);
      var result := Execute(c, proposal, luck, goal);
      return Executed(result);
    }

    /** The part of `request` after its plan. */
    method ActOn(c: nat, proposal: Proposal, confidence: Option<real>, luck: Luck, ghost goal: Sys -> bool)
            returns (r: Reply)
      requires Under(c, luck, goal) && Workable(luck.io) && nextApproval !in pending
      requires tasks[c].pc.LogPlan? && tasks[c].pc.proposed == Some(proposal) && tasks[c].pc.confidence == confidence
      modifies this`log, this`tasks, this`files, this`written, this`invoked, this`pending, this`nextApproval
      ensures Under(c, luck, goal) && !Live(tasks[c].pc) && Tells(r, old(Model()), Model(), c)
      ensures Obeys(r, if old(policy).Some? then old(policy).value else Policy(Manual, None), confidence)
      ensures r.NeedsApproval? ==> pending[r.id].proposal == proposal
      ensures r.Executed? ==> (files, Some(r.result)) == Applied(env, old(files), proposal, luck.io)
    {
      hide Lawful, Kept, Workable, Advance, Obeys, Applied, Driven;
      Append(c, PlanCreated, ReadPolicy(proposal, confidence), luck, goal);
      var policyRead := policy.GetOr(Policy(Manual, None));
      Compute(c, LogPolicy(proposal, confidence, policyRead), luck, goal);
      Append(c, PolicyEvaluated(policyRead.mode, confidence), Decide(proposal, confidence, policyRead), luck, goal);
      r := DecideOn(c, proposal, confidence, policyRead, luck, goal);
    }

    /** `request`, once it has its correlation id. */
    method Perform(c: nat, payload: Payload, luck: Luck, ghost goal: Sys -> bool) returns (r: Reply)
      requires Under(c, luck, goal) && Workable(luck.io) && tasks[c].pc == Begin(payload) && nextApproval !in pending
      modifies this`log, this`tasks, this`files, this`written, this`invoked, this`pending, this`nextApproval
      ensures c < |tasks| == nextCorrelation && goal(Model()) && (forall d | 0 <= d < |tasks| :: !Live(tasks[d].pc))
      ensures Tells(r, old(Model()), Model(), c)
      ensures Follows(r, PlanFor(env, old(files), payload), old(policy), payload, luck.io, old(files))
    {
      hide Lawful, Kept, Workable, Advance, Obeys, Applied, Driven, PlanFor;
      var proposed, confidence := Plan(c, payload, luck, goal);
      if proposed.None? {
        Append(c, PlanCreated, LogPlanningFailed, luck, goal);
        Append(c, PlanFailed, Ended, luck, goal);
        return PlanningFailed;
      }
      r := ActOn(c, proposed.value, confidence, luck, goal);
    }

    /** The machine runs ahead: an operation, then request `c` to its end. */
    ghost method Enter(op: Op, s: Sys, c: nat, luck: Luck) returns (goal: Sys -> bool, target: Sys)
      requires Valid() && Step(env, Model(), op) == s && OneWriter(Model(), op) && Undisturbed(Model(), op)
      requires c < |s.tasks| && forall d | 0 <= d < |s.tasks| && d != c :: !Live(s.tasks[d].pc)
      modifies this`ops, this`calm
      ensures calm == (old(calm) && Calm(luck.io))
      ensures target == Driven(env, s, c, luck) && reach(calm, ops, target)
      ensures goal(s) && Kept(env, c, luck, goal)
      ensures forall u: Sys {:trigger goal(u)} | goal(u) && c < |u.tasks| && !Live(u.tasks[c].pc) :: u == target
    {
      calm := calm && Calm(luck.io);
      var more;
      goal, target, more := ServedReaches(env, reach, calm, ops, Model(), op, s, c, luck);
      ops := more;
    }

    /** The machine runs ahead to where a new request will end. */
    ghost method EnterRequest(payload: Payload, luck: Luck) returns (goal: Sys -> bool, target: Sys)
      requires AtRest()
      modifies this`ops, this`calm, this`tasks
      ensures calm == (old(calm) && Calm(luck.io)) && nextApproval !in pending
      ensures tasks == old(tasks) + [Task(Begin(payload), NoReason)]
      ensures target == Driven(env, Submitted(old(Model()), payload), old(|tasks|), luck) && reach(calm, ops, target)
      ensures goal(Model()) && Kept(env, old(|tasks|), luck, goal)
      ensures forall u: Sys {:trigger goal(u)} | goal(u) && old(|tasks|) < |u.tasks|
              && !Live(u.tasks[old(|tasks|)].pc) :: u == target
    {
      LawfulStates(env, reach, calm, ops, Model());
      NextUnused(Model());
      SubmitIsStep(env, Model(), payload);
      goal, target := Enter(OpSubmit(payload), Submitted(Model(), payload), |tasks|, luck);
      tasks := tasks + [Task(Begin(payload), NoReason)];
    }

    /** `request`: the new request runs to its end. */
    method Request(payload: Payload, luck: Luck) returns (r: Reply)
      requires AtRest() && Workable(luck.io)
      modifies this`log, this`tasks, this`files, this`written, this`invoked, this`pending, this`nextApproval,
              this`nextCorrelation, this`ops, this`calm
      ensures AtRest() && calm == (old(calm) && Calm(luck.io))
      ensures Model() == Driven(env, Submitted(old(Model()), payload), old(|tasks|), luck)
      ensures Tells(r, old(Model()), Model(), old(|tasks|))
      ensures Follows(r, PlanFor(env, old(files), payload), old(policy), payload, luck.io, old(files))
    {
      hide Driven, Lawful, Kept, Workable, Calm, Obeys, Applied, PlanFor;
      var c := nextCorrelation;
      ghost var goal, target := EnterRequest(payload, luck);
      nextCorrelation := c + 1;
      r := Perform(c, payload, luck, goal);
      assert Model() == target;
    }

    /** A step of the machine that no request takes. */
    ghost method Move(op: Op)
      requires Valid() && OneWriter(Model(), op) && Undisturbed(Model(), op)
      modifies this`ops
      ensures reach(calm, ops, Step(env, old(Model()), op))
    {
      LawfulStep(env, reach, calm, ops, Model(), op);
      ops := ops + [op];
    }

    /** The answer to an approval that cannot be granted. */
    method RefuseApproval(id: nat, token: string) returns (r: Reply)
      requires AtRest() && !Grantable(Model(), id, token)
      modifies this`ops, this`pending
      ensures AtRest() && r == ApprovalInvalid && Model() == Approved(old(Model()), id, token)
    {
      LawfulStates(env, reach, calm, ops, Model());
      ApproveIsStep(env, Model(), id, token);
      Move(OpApprove(id, token));
      if id in pending && !pending[id].used && now >= pending[id].expiresAt {
        pending := pending[id := pending[id].(used := true)];
      }
      return ApprovalInvalid;
    }

    /** The machine runs ahead to where the granted request will end. */
    ghost method EnterGrant(id: nat, token: string, luck: Luck) returns (c: nat, goal: Sys -> bool, target: Sys)
      requires AtRest() && Grantable(Model(), id, token)
      modifies this`ops, this`calm
      ensures calm == (old(calm) && Calm(luck.io))
      ensures c == pending[id].corr && c < |tasks|
      ensures target == Driven(env, Approved(Model(), id, token), c, luck) && reach(calm, ops, target)
      ensures goal(Model().(pending := pending[id := pending[id].(used := true)],
                            tasks := tasks[c := Task(LogGranted(id, pending[id].proposal),
                                                     ByApproval(id, token, now))]))
      ensures Kept(env, c, luck, goal)
      ensures forall u: Sys {:trigger goal(u)} | goal(u) && c < |u.tasks| && !Live(u.tasks[c].pc) :: u == target
    {
      LawfulStates(env, reach, calm, ops, Model());
      RestNameable(Model(), id);
      ApproveIsStep(env, Model(), id, token);
      c := pending[id].corr;
      goal, target := Enter(OpApprove(id, token), Approved(Model(), id, token), c, luck);
    }

    /** Use up an approval, log that it was granted, execute. */
    method Spend(c: nat, id: nat, token: string, luck: Luck, ghost goal: Sys -> bool) returns (result: ToolResult)
      requires c < |tasks| == nextCorrelation && Workable(luck.io) && Kept(env, c, luck, goal)
      requires forall d | 0 <= d < |tasks| :: !Live(tasks[d].pc)
      requires id in pending && goal(Model().(pending := pending[id := pending[id].(used := true)],
                                             tasks := tasks[c := Task(LogGranted(id, pending[id].proposal),
                                                                      ByApproval(id, token, now))]))
      modifies this`log, this`tasks, this`files, this`written, this`invoked, this`pending
      ensures |tasks| == old(|tasks|) && goal(Model()) && forall d | 0 <= d < |tasks| :: !Live(tasks[d].pc)
      ensures Tells(Executed(result), old(Model()), Model(), c)
    {
      var proposal := pending[id].proposal;
      pending := pending[id := pending[id].(used := true)];
      tasks := tasks[c := Task(LogGranted(id, proposal), ByApproval(id, token, now))];
      Append(c, ApprovalGranted(id), LogApplyStarted(proposal), luck, goal);
      result := Execute(c, proposal, luck, goal);
    }

    /** `approve` of an approval that is granted. */
    method Grant(id: nat, token: string, luck: Luck) returns (result: ToolResult)
      requires AtRest() && Workable(luck.io) && Grantable(Model(), id, token)
      modifies this`log, this`tasks, this`files, this`written, this`invoked, this`pending, this`ops, this`calm
      ensures AtRest() && calm == (old(calm) && Calm(luck.io)) && old(pending)[id].corr < |tasks| == old(|tasks|)
      ensures Model() == Driven(env, Approved(old(Model()), id, token), old(pending)[id].corr, luck)
      ensures Tells(Executed(result), old(Model()), Model(), old(pending)[id].corr)
    {
      hide Driven, Lawful, Kept, Workable, Calm;
      var c := pending[id].corr;
      ghost var _, goal, target := EnterGrant(id, token, luck);
      result := Spend(c, id, token, luck, goal);
      assert Model() == target;
    }

    /** `approve`. */
    method Approve(id: nat, token: string, luck: Luck) returns (r: Reply)
      requires AtRest() && Workable(luck.io)
      modifies this`log, this`tasks, this`files, this`written, this`invoked, this`pending, this`ops, this`calm
      ensures AtRest() && (r.Executed? <==> Grantable(old(Model()), id, token))
      ensures r.Executed? ==>
                && old(pending)[id].corr < |tasks| == old(|tasks|)
                && Model() == Driven(env, Approved(old(Model()), id, token), old(pending)[id].corr, luck)
                && Tells(r, old(Model()), Model(), old(pending)[id].corr) && calm == (old(calm) && Calm(luck.io))
      ensures !r.Executed? ==> r == ApprovalInvalid && Model() == Approved(old(Model()), id, token) && calm == old(calm)
    {
      if id in pending && !pending[id].used && now < pending[id].expiresAt && pending[id].tokenHash == HashOf(token) {
        var result := Grant(id, token, luck);
        return Executed(result);
      }
      r := RefuseApproval(id, token);
    }

    /** The machine runs ahead through a rejection. */
    ghost method EnterReject(id: nat) returns (goal: Sys -> bool)
      requires AtRest() && Rejectable(Model(), id)
      modifies this`ops, this`calm
      ensures calm == old(calm) && pending[id].corr < |tasks|
      ensures goal(Refused(Model(), id)) && Kept(env, pending[id].corr, NoLuck(), goal)
      ensures forall u: Sys {:trigger goal(u)} | goal(u) && pending[id].corr < |u.tasks|
              && !Live(u.tasks[pending[id].corr].pc) :: reach(calm, ops, u)
    {
      LawfulStates(env, reach, calm, ops, Model());
      RestNameable(Model(), id);
      RejectIsStep(env, Model(), id);
      var target;
      goal, target := Enter(OpReject(id), Refused(Model(), id), pending[id].corr, NoLuck());
    }

    /** Use up an approval and log that it was rejected. */
    method Turn(c: nat, id: nat, ghost goal: Sys -> bool)
      requires c < |tasks| == nextCorrelation && Kept(env, c, NoLuck(), goal)
      requires forall d | 0 <= d < |tasks| :: !Live(tasks[d].pc)
      requires id in pending && goal(Model().(pending := pending[id := pending[id].(used := true)],
              tasks := tasks[c := tasks[c].(pc := LogRejected(id))]))
      modifies this`log, this`tasks, this`pending
      ensures goal(Model()) && pending == old(pending)[id := old(pending)[id].(used := true)]
      ensures log == old(log) + [Entry(Some(c), ApprovalRejected(id))]
              && tasks == old(tasks)[c := old(tasks)[c].(pc := Ended)]
    {
      pending := pending[id := pending[id].(used := true)];
      tasks := tasks[c := tasks[c].(pc := LogRejected(id))];
      Append(c, ApprovalRejected(id), Ended, NoLuck(), goal);
    }

    /** `reject`. */
    method Reject(id: nat) returns (r: Reply)
      requires AtRest()
      modifies this`log, this`tasks, this`pending, this`ops, this`calm
      ensures AtRest() && calm == old(calm)
      ensures r == if Rejectable(old(Model()), id) then Cancelled else ApprovalInvalid
      ensures if Rejectable(old(Model()), id)
              then old(pending)[id].corr < old(|tasks|)
                   && Model() == Logged(Refused(old(Model()), id), old(pending)[id].corr, ApprovalRejected(id), Ended)
              else Model() == old(Model())
    {
      hide Lawful, Kept, Advance;
      if !(id in pending && !pending[id].used) {
        return ApprovalInvalid;
      }
      ghost var goal := EnterReject(id);
      Turn(pending[id].corr, id, goal);
      return Cancelled;
    }

    /** `set_policy`: stored, then logged. */
    method SetPolicy(policy: Policy)
      requires AtRest()
      modifies this`policy, this`log, this`ops
      ensures AtRest() && this.policy == Some(policy)
              && log == old(log) + [Entry(None, Unrelated("capability.policy_changed"))]
    {
      hide Lawful, Kept, Driven, Advance;
      Move(OpSetPolicy(policy));
      this.policy := Some(policy);
      Move(OpUnrelated("capability.policy_changed"));
      log := log + [Entry(None, Unrelated("capability.policy_changed"))];
    }

    /** The clock goes on between calls. */
    method Elapse(seconds: nat)
      requires AtRest()
      modifies this`now, this`ops
      ensures AtRest() && now == old(now) + seconds
    {
      Move(OpTick(seconds));
      now := now + seconds;
    }
  }

  /** Between the calls of an engine, however it was called, its log is a redo journal of every workbook, as
      long as every write was saved faithfully and not stopped between its replacement and its report; and
      the log of every request is a whole word of the language, or stops at an open question. */
  lemma EngineJournaled(e: CapabilityEngine, files: Files, now: int, q: Path, c: nat)
    requires e.AtRest() && e.reach == Reaches(e.env, files, now)
    ensures e.calm && Unicode(e.env.lex) && q in files && Openable(q) ==>
              q in e.files && Journals(Restate(), files[q], DiffsOf(Artifacts(e.log), q), e.files[q])
    ensures c < |e.tasks| ==>
              var state := Reads(Project(e.log, c));
              state.Some? && (Complete(state.value) || state.value.Asked?)
  {
    RestFacts(e.env, files, now, e.calm, e.ops, e.Model(), q, c);
  }

  lemma RestFacts(env: Env, files: Files, now: int, calm: bool, ops: seq<Op>, s: Sys, q: Path, c: nat)
    requires Reaches(env, files, now)(calm, ops, s) && forall d | 0 <= d < |s.tasks| :: !Live(s.tasks[d].pc)
    ensures calm && Unicode(env.lex) && q in files && Openable(q) ==>
              q in s.files && Journals(Restate(), files[q], DiffsOf(Artifacts(s.log), q), s.files[q])
    ensures c < |s.tasks| ==>
              var state := Reads(Project(s.log, c));
              state.Some? && (Complete(state.value) || state.value.Asked?)
  {
    RunWellformed(env, files, now, ops);
    if calm && Unicode(env.lex) && q in files && Openable(q) {
      RestSettled(s);
      AuditLogIsRedoJournal(env, files, now, ops, q);
    }
    if c < |s.tasks| {
      assert Spoken(s, c);
    }
  }

  lemma RestSettled(s: Sys)
    requires forall d | 0 <= d < |s.tasks| :: !Live(s.tasks[d].pc)
    ensures Settled(s)
  {
  }
}
