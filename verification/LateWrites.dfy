/** A write made while its capability is disabled: `approve` does not read the policy again
    (application/capabilities.py). */
module LateWrites {
  import opened Wrappers
  import opened Lexicons
  import opened FileWrites
  import opened RoadmapConnector
  import opened Capabilities
  import opened Lifecycle
  import opened Journal
  import opened CapabilityEngines

  /** What the steps of the first request leave alone, but for its own place and the log. */
  ghost predicate OnlyMoved(s: Sys, t: Sys, pc: Pc) {
    && |s.tasks| == |t.tasks| == 1 && t.tasks[0] == s.tasks[0].(pc := pc)
    && t.files == s.files && t.pending == s.pending && t.policy == s.policy && t.now == s.now
    && t.nextApproval == s.nextApproval
  }

  lemma LogOn(env: Env, s: Sys, luck: Luck, goal: Sys -> bool, b: Body, pc: Pc) returns (t: Sys)
    requires |s.tasks| == 1 && Next(s.tasks[0].pc) == Some((b, pc))
    requires goal(s) && Kept(env, 0, luck, goal)
    ensures OnlyMoved(s, t, pc) && goal(t)
  {
    NextRank(s.tasks[0].pc);
    t := Advance(env, s, 0, luck);
    assert t == Logged(s, 0, b, pc);
  }

  lemma ComputeOn(env: Env, s: Sys, luck: Luck, goal: Sys -> bool, pc: Pc) returns (t: Sys)
    requires |s.tasks| == 1 && Computes(s.tasks[0].pc) && Computed(env, s, s.tasks[0].pc) == pc
    requires goal(s) && Kept(env, 0, luck, goal)
    ensures OnlyMoved(s, t, pc) && goal(t)
  {
    t := Advance(env, s, 0, luck);
    assert t == At(s, 0, pc);
  }

  lemma ParkOn(env: Env, s: Sys, luck: Luck, goal: Sys -> bool, p: Proposal) returns (t: Sys)
    requires |s.tasks| == 1 && s.tasks[0].pc.Decide? && s.tasks[0].pc.proposal == p
             && s.tasks[0].pc.policy == Policy(Manual, None)
    requires goal(s) && Kept(env, 0, luck, goal)
    ensures |t.tasks| == 1 && t.tasks[0].pc == LogRequested(s.nextApproval)
    ensures t.files == s.files && t.policy == s.policy && t.now == s.now && goal(t)
    ensures t.pending == s.pending[s.nextApproval := Pending(HashOf(luck.token), s.now + APPROVAL_SECONDS, 0, p, false)]
  {
    ParkFields(env, s, 0, luck, p);
    t := Advance(env, s, 0, luck);
  }

  /** On these files the apply tool succeeds, and leaves `after`. */
  ghost predicate Applies(env: Env, files: Files, p: Proposal, io: Io, after: Files, r: ToolResult) {
    && r.Success? && TempOf(p.path, io.tmp) !in files && !io.fault.Dies?
    && forall f: Files {:trigger Applied(env, f, p, io)} | f == files :: Applied(env, f, p, io) == (after, Some(r))
  }

  lemma WriteOn(env: Env, s: Sys, luck: Luck, goal: Sys -> bool, p: Proposal, after: Files, r: ToolResult)
      returns (t: Sys)
    requires |s.tasks| == 1 && s.tasks[0].pc == RunApply(p) && Applies(env, s.files, p, luck.io, after, r)
    requires goal(s) && Kept(env, 0, luck, goal)
    ensures |t.tasks| == 1 && t.tasks[0].pc == LogApplyDone(r) && t.files == after && t.policy == s.policy && goal(t)
  {
    InvokedFields(env, s, 0, luck, p, after, r);
    t := Advance(env, s, 0, luck);
  }

  lemma StartOn(env: Env, s: Sys, luck: Luck, goal: Sys -> bool, path: Path, ask: Ask) returns (t: Sys)
    requires |s.tasks| == 1 && s.tasks[0].pc == Begin(Valid(Some(path), ask, None))
    requires goal(s) && Kept(env, 0, luck, goal)
    ensures OnlyMoved(s, t, RunPropose(path, ask, None)) && goal(t)
  {
    t := ComputeOn(env, s, luck, goal, LogProposeStarted(path, ask, None));
    t := LogOn(env, t, luck, goal, ToolStarted(ProposeTool), RunPropose(path, ask, None));
  }

  /** The planning tool, run on these files, proposes `p`. */
  ghost predicate Plans(env: Env, files: Files, path: Path, ask: Ask, p: Proposal) {
    forall s: Sys {:trigger Computed(env, s, RunPropose(path, ask, None))} | s.files == files ::
      Computed(env, s, RunPropose(path, ask, None)) == LogProposeDone(Some(p), None)
  }

  lemma ProposePlans(env: Env, files: Files, path: Path, ask: Ask, p: Proposal)
    requires Propose(env, files, path, ask) == Ok(p)
    ensures Plans(env, files, path, ask, p)
  {
  }

  lemma ProposeOnce(env: Env, s: Sys, luck: Luck, goal: Sys -> bool, path: Path, ask: Ask, p: Proposal) returns (t: Sys)
    requires |s.tasks| == 1 && s.tasks[0].pc == RunPropose(path, ask, None) && Plans(env, s.files, path, ask, p)
    requires goal(s) && Kept(env, 0, luck, goal)
    ensures OnlyMoved(s, t, LogProposeDone(Some(p), None)) && goal(t)
  {
    t := ComputeOn(env, s, luck, goal, LogProposeDone(Some(p), None));
  }

  /** From a plan to the approval it waits for, when no policy is set. */
  lemma AsksOn(env: Env, s: Sys, luck: Luck, goal: Sys -> bool, p: Proposal) returns (t: Sys)
    requires |s.tasks| == 1 && s.tasks[0].pc == LogProposeDone(Some(p), None) && s.policy.None?
    requires goal(s) && Kept(env, 0, luck, goal)
    ensures |t.tasks| == 1 && t.tasks[0].pc == Parked(s.nextApproval) && t.files == s.files && t.now == s.now && goal(t)
    ensures t.pending == s.pending[s.nextApproval := Pending(HashOf(luck.token), s.now + APPROVAL_SECONDS, 0, p, false)]
  {
    t := LogOn(env, s, luck, goal, ToolCompleted(ProposeTool), LogPlan(true, Some(p), None));
    t := LogOn(env, t, luck, goal, PlanCreated, ReadPolicy(p, None));
    t := ComputeOn(env, t, luck, goal, LogPolicy(p, None, Policy(Manual, None)));
    t := LogOn(env, t, luck, goal, PolicyEvaluated(Manual, None), Decide(p, None, Policy(Manual, None)));
    t := ParkOn(env, t, luck, goal, p);
    t := LogOn(env, t, luck, goal, ApprovalRequested(s.nextApproval), Parked(s.nextApproval));
  }

  lemma PlannedOn(env: Env, s: Sys, path: Path, ask: Ask, p: Proposal, luck: Luck, goal: Sys -> bool) returns (t: Sys)
    requires |s.tasks| == 1 && s.tasks[0].pc == Begin(Valid(Some(path), ask, None))
    requires Plans(env, s.files, path, ask, p)
    requires goal(s) && Kept(env, 0, luck, goal)
    ensures OnlyMoved(s, t, LogProposeDone(Some(p), None)) && goal(t)
  {
    t := StartOn(env, s, luck, goal, path, ask);
    t := ProposeOnce(env, t, luck, goal, path, ask, p);
  }

  lemma LogsDone(env: Env, s: Sys, luck: Luck, goal: Sys -> bool, r: ToolResult) returns (t: Sys)
    requires |s.tasks| == 1 && s.tasks[0].pc == LogApplyDone(r) && r.Success?
    requires goal(s) && Kept(env, 0, luck, goal)
    ensures OnlyMoved(s, t, Ended) && goal(t)
  {
    t := LogOn(env, s, luck, goal, ToolCompleted(ApplyTool), LogOutcome(r));
    t := LogOn(env, t, luck, goal, PlanCompleted, LogArtifact(r.diff, r.rollbackRef));
    t := LogOn(env, t, luck, goal, ArtifactCreated(r.diff, r.rollbackRef), Ended);
  }

  /** Once granted, it is written, whatever the policy. */
  lemma GrantWrites(env: Env, s: Sys, p: Proposal, luck: Luck, goal: Sys -> bool, after: Files, r: ToolResult)
      returns (t: Sys)
    requires |s.tasks| == 1 && s.tasks[0].pc == LogGranted(0, p) && Applies(env, s.files, p, luck.io, after, r)
    requires goal(s) && Kept(env, 0, luck, goal)
    ensures |t.tasks| == 1 && t.tasks[0].pc.Ended? && t.policy == s.policy && t.files == after && goal(t)
  {
    t := LogOn(env, s, luck, goal, ApprovalGranted(0), LogApplyStarted(p));
    t := LogOn(env, t, luck, goal, ToolStarted(ApplyTool), RunApply(p));
    t := WriteOn(env, t, luck, goal, p, after, r);
    t := LogsDone(env, t, luck, goal, r);
  }

  /** Nothing keeps the proposal from being written. */
  ghost predicate Writable(env: Env, files: Files, p: Proposal, io: Io) {
    && Unicode(env.lex) && Grounded(env.lex, p) && Allowed(env, p.path) && !p.alreadyApplied
    && p.path in files && p.fingerprint == Sha256(files[p.path])
    && FreshTemp(files, p, io) && SavesFaithfully(io, files[p.path], p) && io.fault.NoFault?
  }

  lemma WritableWrites(env: Env, files: Files, p: Proposal, io: Io) returns (after: Files, r: ToolResult)
    requires Writable(env, files, p, io)
    ensures Applies(env, files, p, io, after, r)
    ensures p.path in after && after[p.path] == NewContent(files[p.path], p.change) != files[p.path]
  {
    NewContentFacts(env.lex, p);
    PathsApart(p.path, io.tmp, env.prefix8(files[p.path]));
    after, r := Applied(env, files, p, io).0, Applied(env, files, p, io).1.value;
  }

  // ------------------------------------------------------------------ the run

  lemma Served(env: Env, reach: Reach, ops: seq<Op>, s: Sys, op: Op, t: Sys, luck: Luck)
    returns (more: seq<Op>, target: Sys, goal: Sys -> bool)
    requires reach(false, ops, s) && Lawful(env, reach)
    requires t == Step(env, s, op) && |t.tasks| == 1 && OneWriter(s, op) && Undisturbed(s, op)
    ensures reach(false, more, target)
    ensures goal(t) && Kept(env, 0, luck, goal)
    ensures forall u: Sys {:trigger goal(u)} | goal(u) && 0 < |u.tasks| && !Live(u.tasks[0].pc) :: u == target
  {
    goal, target, more := ServedReaches(env, reach, false, ops, s, op, t, 0, luck);
  }

  lemma PolicyStep(env: Env, reach: Reach, ops: seq<Op>, s: Sys, policy: Policy) returns (more: seq<Op>)
    requires reach(false, ops, s) && Lawful(env, reach)
    ensures reach(false, more, s.(policy := Some(policy)))
  {
    LawfulStep(env, reach, false, ops, s, OpSetPolicy(policy));
    more := ops + [OpSetPolicy(policy)];
  }

  lemma GrantStep(env: Env, s: Sys, p: Proposal, token: string)
    requires Wellformed(s) && |s.tasks| == 1 && s.tasks[0].pc == Parked(0)
    requires s.pending == map[0 := Pending(HashOf(token), s.now + APPROVAL_SECONDS, 0, p, false)]
    ensures var t := Step(env, s, OpApprove(0, token));
            && |t.tasks| == 1 && t.tasks[0].pc == LogGranted(0, p) && t.files == s.files && t.policy == s.policy
            && OneWriter(s, OpApprove(0, token)) && Undisturbed(s, OpApprove(0, token))
  {
    ApproveIsStep(env, s, 0, token);
  }

  lemma FirstServed(env: Env, reach: Reach, files: Files, now: int, payload: Payload, luck: Luck)
    returns (ops: seq<Op>, target: Sys, s: Sys, goal: Sys -> bool)
    requires reach(false, [], Initial(files, now)) && Lawful(env, reach)
    ensures reach(false, ops, target)
    ensures |s.tasks| == 1 && s.tasks[0].pc == Begin(payload) && s.policy.None? && s.files == files
    ensures s.pending == map[] && s.nextApproval == 0
    ensures goal(s) && Kept(env, 0, luck, goal)
    ensures forall u: Sys {:trigger goal(u)} | goal(u) && 0 < |u.tasks| && !Live(u.tasks[0].pc) :: u == target
  {
    var first := Initial(files, now);
    SubmitIsStep(env, first, payload);
    s := Submitted(first, payload);
    ops, target, goal := Served(env, reach, [], first, OpSubmit(payload), s, luck);
  }

  /** A request for a change that the planning tool can propose waits for an approval, when no policy is set. */
  lemma RequestWaits(env: Env, reach: Reach, files: Files, now: int, path: Path, ask: Ask, p: Proposal, luck: Luck)
    returns (ops: seq<Op>, t: Sys)
    requires reach(false, [], Initial(files, now)) && Lawful(env, reach) && Plans(env, files, path, ask, p)
    ensures reach(false, ops, t)
    ensures |t.tasks| == 1 && t.tasks[0].pc == Parked(0) && t.files == files
    ensures t.pending == map[0 := Pending(HashOf(luck.token), t.now + APPROVAL_SECONDS, 0, p, false)]
  {
    hide Lawful, Plans, Kept, Initial;
    var s, goal;
    ops, t, s, goal := FirstServed(env, reach, files, now, Valid(Some(path), ask, None), luck);
    s := PlannedOn(env, s, path, ask, p, luck, goal);
    s := AsksOn(env, s, luck, goal, p);
  }

  lemma ApproveOn(env: Env, reach: Reach, ops: seq<Op>, s: Sys, p: Proposal, luck: Luck, after: Files, r: ToolResult)
    returns (more: seq<Op>, t: Sys)
    requires reach(false, ops, s) && Lawful(env, reach)
    requires |s.tasks| == 1 && s.tasks[0].pc == Parked(0) && Applies(env, s.files, p, luck.io, after, r)
    requires s.pending == map[0 := Pending(HashOf(luck.token), s.now + APPROVAL_SECONDS, 0, p, false)]
    ensures reach(false, more, t) && t.policy == s.policy && t.files == after
  {
    LawfulStates(env, reach, false, ops, s);
    GrantStep(env, s, p, luck.token);
    var granted := Step(env, s, OpApprove(0, luck.token));
    var target, goal;
    more, target, goal := Served(env, reach, ops, s, OpApprove(0, luck.token), granted, luck);
    t := GrantWrites(env, granted, p, luck, goal, after, r);
  }

  lemma DisabledReached(env: Env, reach: Reach, files: Files, now: int, path: Path, ask: Ask, p: Proposal, luck: Luck,
                        after: Files, r: ToolResult) returns (ops: seq<Op>, s: Sys)
    requires reach(false, [], Initial(files, now)) && Lawful(env, reach)
    requires Plans(env, files, path, ask, p) && Applies(env, files, p, luck.io, after, r)
    ensures reach(false, ops, s) && s.policy == Some(Policy(Disabled, None)) && s.files == after
  {
    ops, s := RequestWaits(env, reach, files, now, path, ask, p, luck);
    ops := PolicyStep(env, reach, ops, s, Policy(Disabled, None));
    ops, s := ApproveOn(env, reach, ops, s.(policy := Some(Policy(Disabled, None))), p, luck, after, r);
  }

  /** Whenever a change can be proposed and written, there is a run in which it is written while its
      capability is disabled: request it, disable the capability, approve. */
  lemma DisabledWrites(env: Env, files: Files, now: int, path: Path, ask: Ask, p: Proposal, luck: Luck)
    returns (ops: seq<Op>, s: Sys)
    requires Propose(env, files, path, ask) == Ok(p) && Writable(env, files, p, luck.io)
    ensures s == Run(env, files, now, ops) && s.policy == Some(Policy(Disabled, None))
    ensures p.path in s.files && s.files[p.path] == NewContent(files[p.path], p.change) != files[p.path]
  {
    var reach := Reaches(env, files, now);
    ReachesLawful(env, files, now);
    ReachesStart(env, files, now);
    LawfulStates(env, reach, true, [], Initial(files, now));
    ProposePlans(env, files, path, ask, p);
    var after, r := WritableWrites(env, files, p, luck.io);
    ops, s := DisabledReached(env, reach, files, now, path, ask, p, luck, after, r);
  }
}
