/** The capability engine, its tool runner and the roadmap workflow (application/capabilities.py,
    application/tools.py), as a machine whose every step lies between two awaits. */
module Capabilities {
  import opened Wrappers
  import opened Workbooks
  import opened FileWrites
  import opened RoadmapConnector

  datatype Tool = ProposeTool | ApplyTool

  datatype Mode = Disabled | Manual | Automatic

  datatype Policy = Policy(mode: Mode, threshold: Option<real>)

  datatype Body =
    | ToolStarted(tool: Tool)
    | ToolCompleted(tool: Tool)
    | ToolFailed(tool: Tool)
    | PlanCreated
    | PolicyEvaluated(mode: Mode, confidence: Option<real>)
    | ApprovalRequested(id: nat)
    | ApprovalGranted(id: nat)
    | ApprovalRejected(id: nat)
    | PlanCompleted
    | PlanFailed
    | ArtifactCreated(diff: Diff, rollbackRef: Option<Path>)
    | Unrelated(kind: string)

  /** An event with the correlation id of the request it belongs to, if it belongs to one. */
  datatype Entry = Entry(corr: Option<nat>, body: Body)

  /** `Invalid` fails the input validation. A missing path is to be discovered; a missing confidence is
      kept apart, because the threshold test reads it as 0. */
  datatype Payload = Invalid | Valid(path: Option<Path>, ask: Ask, confidence: Option<real>)

  /** SHA-256 of an approval token, taken to be injective. */
  datatype TokenHash = HashOf(token: string)

  datatype Pending = Pending(tokenHash: TokenHash, expiresAt: int, corr: nat, proposal: Proposal, used: bool)

  /** Where a request stands: about to log an event, or about to compute. */
  datatype Pc =
    | Begin(payload: Payload)
    | LogProposeStarted(path: Path, ask: Ask, confidence: Option<real>)
    | RunPropose(path: Path, ask: Ask, confidence: Option<real>)
    | LogProposeDone(proposed: Option<Proposal>, confidence: Option<real>)
    | LogPlan(viaTool: bool, proposed: Option<Proposal>, confidence: Option<real>)
    | LogPlanningFailed
    | ReadPolicy(proposal: Proposal, confidence: Option<real>)
    | LogPolicy(proposal: Proposal, confidence: Option<real>, policy: Policy)
    | Decide(proposal: Proposal, confidence: Option<real>, policy: Policy)
    | LogRequested(id: nat)
    | Parked(id: nat)
    | LogGranted(id: nat, proposal: Proposal)
    | LogRejected(id: nat)
    | LogApplyStarted(proposal: Proposal)
    | RunApply(proposal: Proposal)
    | LogApplyDone(result: ToolResult)
    | LogOutcome(result: ToolResult)
    | LogArtifact(diff: Diff, rollbackRef: Option<Path>)
    | Ended

  /** Why a request may write: what the policy read said, or which approval was granted, with what token
      and when. */
  datatype Why =
    | NoReason
    | ByPolicy(policy: Policy, confidence: Option<real>)
    | ByApproval(id: nat, token: string, at: int)

  datatype Task = Task(pc: Pc, why: Why)

  /** An invocation of the apply tool, with the log as long as it was then. */
  datatype Invocation = Invocation(corr: nat, logged: nat)

  /** The engine, its store and its files; correlation ids are positions in `tasks`. `written` is the
      history of what writes changed, `invoked` that of the apply tool. */
  datatype Sys = Sys(files: Files, log: seq<Entry>, pending: map<nat, Pending>, policy: Option<Policy>, now: int,
                     nextApproval: nat, tasks: seq<Task>, written: seq<Diff>, invoked: seq<Invocation>)

  const APPROVAL_SECONDS := 15 * 60

  /** What the machine adds to a step: the write's Io, and the random token of a new approval. */
  datatype Luck = Luck(io: Io, token: string)

  /** `get_policy`: manual until one is set. */
  function EffectivePolicy(s: Sys): Policy {
    s.policy.GetOr(Policy(Manual, None))
  }

  /** `policy.confidence_threshold is not None and float(payload.get("confidence", 0.0)) < threshold`. */
  predicate BelowThreshold(policy: Policy, confidence: Option<real>) {
    policy.threshold.Some? && confidence.GetOr(0.0) < policy.threshold.value
  }

  /** The workbook a request is about: the one named, or the only one discovered. */
  ghost function Target(env: Env, files: Files, path: Option<Path>): Option<Path> {
    var found := Discover(env, files);
    if path.Some? then path
    else if |found| == 1 then
      var p :| p in found; Some(p)
    else None
  }

  function At(s: Sys, c: nat, pc: Pc): Sys
    requires c < |s.tasks|
  {
    s.(tasks := s.tasks[c := s.tasks[c].(pc := pc)])
  }

  /** Log an event of request `c`, then stand at `pc`. */
  function Logged(s: Sys, c: nat, body: Body, pc: Pc): Sys
    requires c < |s.tasks|
  {
    At(s.(log := s.log + [Entry(Some(c), body)]), c, pc)
  }

  function Park(s: Sys, c: nat, proposal: Proposal, token: string): Sys
    requires c < |s.tasks|
  {
    var id := s.nextApproval;
    At(s.(pending := s.pending[id := Pending(HashOf(token), s.now + APPROVAL_SECONDS, c, proposal, false)],
          nextApproval := id + 1),
       c, LogRequested(id))
  }

  /** The policy decision. */
  function Decided(s: Sys, c: nat, proposal: Proposal, confidence: Option<real>, policy: Policy, token: string): Sys
    requires c < |s.tasks|
  {
    if policy.mode == Disabled then At(s, c, Ended)
    else if BelowThreshold(policy, confidence) then Park(s, c, proposal, token)
    else if policy.mode == Manual then Park(s, c, proposal, token)
    else s.(tasks := s.tasks[c := Task(LogApplyStarted(proposal), ByPolicy(policy, confidence))])
  }

  /** The handler of the apply tool. An exception it lets through comes back as a failure too. */
  function Invoked(env: Env, s: Sys, c: nat, p: Proposal, io: Io): Sys
    requires c < |s.tasks|
  {
    var (files, r) := Applied(env, s.files, p, io);
    var result := r.GetOr(Failure(Unknown));
    At(s.(files := files,
          written := if result.Success? && !result.diff.noOp then s.written + [result.diff] else s.written,
          invoked := s.invoked + [Invocation(c, |s.log|)]),
       c, LogApplyDone(result))
  }

  /** The steps that the machine allows: the temporary name is new, and the process goes on living. */
  predicate Plausible(s: Sys, c: nat, luck: Luck)
    requires c < |s.tasks|
  {
    s.tasks[c].pc.RunApply? ==> TempOf(s.tasks[c].pc.proposal.path, luck.io.tmp) !in s.files && !luck.io.fault.Dies?
  }

  /** What a request at `pc` logs next, if it is about to log, and where it stands then. */
  function Next(pc: Pc): Option<(Body, Pc)> {
    match pc
    case LogProposeStarted(path, ask, confidence) => Some((ToolStarted(ProposeTool), RunPropose(path, ask, confidence)))
    case LogProposeDone(proposed, confidence) =>
      Some((if proposed.Some? then ToolCompleted(ProposeTool) else ToolFailed(ProposeTool),
            LogPlan(true, proposed, confidence)))
    case LogPlan(_, proposed, confidence) =>
      Some((PlanCreated, if proposed.Some? then ReadPolicy(proposed.value, confidence) else LogPlanningFailed))
    case LogPlanningFailed => Some((PlanFailed, Ended))
    case LogPolicy(proposal, confidence, policy) =>
      Some((PolicyEvaluated(policy.mode, confidence), Decide(proposal, confidence, policy)))
    case LogRequested(id) => Some((ApprovalRequested(id), Parked(id)))
    case LogGranted(id, proposal) => Some((ApprovalGranted(id), LogApplyStarted(proposal)))
    case LogRejected(id) => Some((ApprovalRejected(id), Ended))
    case LogApplyStarted(proposal) => Some((ToolStarted(ApplyTool), RunApply(proposal)))
    case LogApplyDone(result) =>
        Some((if result.Success? then ToolCompleted(ApplyTool) else ToolFailed(ApplyTool), LogOutcome(result)))
    case LogOutcome(result) =>
      if result.Success? then Some((PlanCompleted, LogArtifact(result.diff, result.rollbackRef)))
          else Some((PlanFailed, Ended))
    case LogArtifact(diff, rollbackRef) => Some((ArtifactCreated(diff, rollbackRef), Ended))
    case _ => None
  }

  /** Validation and discovery. */
  ghost function Started(env: Env, files: Files, payload: Payload): Pc {
    match payload
    case Invalid => LogPlan(false, None, None)
    case Valid(path, ask, confidence) =>
      var target := Target(env, files, path);
      if target.None? then LogPlan(false, None, confidence) else LogProposeStarted(target.value, ask, confidence)
  }

  /** The planning tool answers a failure for every error: `_propose_tool` names the caught exception after
      its `except` block, where Python has unbound it, so the tool itself raises, and the runner reports an
      unknown failure instead of the `needs_resolution` meant. */
  function Planned(env: Env, files: Files, path: Path, ask: Ask, confidence: Option<real>): Pc {
    var r := Propose(env, files, path, ask);
    LogProposeDone(if r.Ok? then Some(r.value) else None, confidence)
  }

  predicate Computes(pc: Pc) {
    pc.Begin? || pc.RunPropose? || pc.ReadPolicy?
  }

  /** The steps that only read. */
  ghost function Computed(env: Env, s: Sys, pc: Pc): Pc
    requires Computes(pc)
  {
    match pc
    case Begin(payload) => Started(env, s.files, payload)
    case RunPropose(path, ask, confidence) => Planned(env, s.files, path, ask, confidence)
    case ReadPolicy(proposal, confidence) => LogPolicy(proposal, confidence, EffectivePolicy(s))
  }

  /** One step of request `c`. */
  ghost function Advance(env: Env, s: Sys, c: nat, luck: Luck): Sys
    requires c < |s.tasks| && Plausible(s, c, luck)
  {
    var pc := s.tasks[c].pc;
    if Next(pc).Some? then Logged(s, c, Next(pc).value.0, Next(pc).value.1)
    else if Computes(pc) then At(s, c, Computed(env, s, pc))
    else if pc.Decide? then Decided(s, c, pc.proposal, pc.confidence, pc.policy, luck.token)
    else if pc.RunApply? then Invoked(env, s, c, pc.proposal, luck.io)
    else s
  }

  // ------------------------------------------------------------------ the other requests

  /** `approve` up to its first await; a refusal changes nothing, but for the expiry. */
  function Approved(s: Sys, id: nat, token: string): Sys {
    if id !in s.pending || s.pending[id].used then s
    else
      var pending := s.pending[id];
      var spent := s.(pending := s.pending[id := pending.(used := true)]);
      if s.now >= pending.expiresAt then spent
      else if pending.tokenHash != HashOf(token) || pending.corr >= |s.tasks| then s
      else spent.(tasks :=
                  s.tasks[pending.corr := Task(LogGranted(id, pending.proposal), ByApproval(id, token, s.now))])
  }

  /** `reject` up to its first await. */
  function Refused(s: Sys, id: nat): Sys {
    if id !in s.pending || s.pending[id].used || s.pending[id].corr >= |s.tasks| then s
    else
      var spent := s.(pending := s.pending[id := s.pending[id].(used := true)]);
      At(spent, s.pending[id].corr, LogRejected(id))
  }

  datatype Op =
    | OpSubmit(payload: Payload)
    | OpAdvance(c: nat, luck: Luck)
    | OpApprove(id: nat, token: string)
    | OpReject(id: nat)
    | OpSetPolicy(policy: Policy)
    | OpUnrelated(kind: string)                             // any event of no capability request
    | OpTick(seconds: nat)
    | OpExternalEdit(path: Path, content: Option<Workbook>) // another program writes or deletes a file
    | OpRollback(backup: Path, target: Path)

  /** Approval ids are random: a caller can only name one that the timeline has published. */
  predicate Nameable(s: Sys, id: nat) {
    id in s.pending ==> Entry(Some(s.pending[id].corr), ApprovalRequested(id)) in s.log
  }

  predicate Possible(s: Sys, op: Op) {
    match op
    case OpAdvance(c, luck) => c < |s.tasks| && Plausible(s, c, luck)
    case OpApprove(id, _) => Nameable(s, id)
    case OpReject(id) => Nameable(s, id)
    case _ => true
  }

  /** An impossible step is none. */
  ghost function Step(env: Env, s: Sys, op: Op): Sys {
    if !Possible(s, op) then s
    else
      match op
      case OpSubmit(payload) => s.(tasks := s.tasks + [Task(Begin(payload), NoReason)])
      case OpAdvance(c, luck) => Advance(env, s, c, luck)
      case OpApprove(id, token) => Approved(s, id, token)
      case OpReject(id) => Refused(s, id)
      case OpSetPolicy(policy) => s.(policy := Some(policy))
      case OpUnrelated(kind) => s.(log := s.log + [Entry(None, Unrelated(kind))])
      case OpTick(seconds) => s.(now := s.now + seconds)
      case OpExternalEdit(path, content) =>
          s.(files := if content.Some? then s.files[path := content.value] else s.files - {path})
      case OpRollback(backup, target) => s.(files := RolledBack(env, s.files, backup, target).GetOr(s.files))
  }

  function Initial(files: Files, now: int): Sys {
    Sys(files, [], map[], None, now, 0, [], [], [])
  }

  ghost function Run(env: Env, files: Files, now: int, ops: seq<Op>): Sys {
    if |ops| == 0 then Initial(files, now)
    else Step(env, Run(env, files, now, ops[..|ops| - 1]), ops[|ops| - 1])
  }
}
