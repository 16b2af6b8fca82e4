/** Why the engine writes: over every run, with a pause possible at every await
    (application/capabilities.py). */
module Justification {
  import opened Wrappers
  import opened Lexicons
  import opened FileWrites
  import opened RoadmapConnector
  import opened Capabilities
  import opened Lifecycle

  // ------------------------------------------------------------------ reasons

  /** The reason a request holds is a true one. */
  ghost predicate Founded(s: Sys, c: nat, why: Why) {
    match why
    case NoReason => true
    case ByPolicy(policy, confidence) =>
      && policy.mode == Automatic && (policy.threshold.Some? ==> confidence.GetOr(0.0) >= policy.threshold.value)
      && PolicyEvaluated(Automatic, confidence) in Project(s.log, c)
    case ByApproval(id, token, at) =>
      && id in s.pending && s.pending[id].corr == c && s.pending[id].used
      && s.pending[id].tokenHash == HashOf(token) && at < s.pending[id].expiresAt
  }

  /** A request past its invocation of the apply tool. */
  predicate Past(pc: Pc) {
    pc.LogApplyDone? || pc.LogOutcome? || pc.LogArtifact? || pc.Ended?
  }

  /** At its invocation a request stood, by its own log so far, right after starting the apply tool. */
  ghost predicate Accounted(s: Sys, i: Invocation) {
    && i.corr < |s.tasks| && i.logged <= |s.log| && Past(s.tasks[i.corr].pc)
    && !s.tasks[i.corr].why.NoReason?
    && Reads(Project(s.log[..i.logged], i.corr)) == Some(Applying(ViaOf(s.tasks[i.corr].why)))
    && (s.tasks[i.corr].why.ByPolicy? ==>
          PolicyEvaluated(Automatic, s.tasks[i.corr].why.confidence) in Project(s.log[..i.logged], i.corr))
  }

  ghost predicate Reasoned(s: Sys) {
    && (forall c | 0 <= c < |s.tasks| :: Founded(s, c, s.tasks[c].why))
    && (forall c | 0 <= c < |s.tasks| && s.tasks[c].pc.Decide? ::
          PolicyEvaluated(s.tasks[c].pc.policy.mode, s.tasks[c].pc.confidence) in Project(s.log, c))
    && (forall k | 0 <= k < |s.invoked| :: Accounted(s, s.invoked[k]))
    && (forall j, k | 0 <= j < k < |s.invoked| :: s.invoked[j].corr != s.invoked[k].corr)
  }

  /** What a step may do to the parts that reasons rest on, when it does not invoke. */
  ghost predicate Extends(s: Sys, t: Sys) {
    && s.log <= t.log && |s.tasks| <= |t.tasks| && t.invoked == s.invoked
    && (forall id | id in s.pending :: id in t.pending
          && t.pending[id].corr == s.pending[id].corr && t.pending[id].tokenHash == s.pending[id].tokenHash
          && t.pending[id].expiresAt == s.pending[id].expiresAt && (s.pending[id].used ==> t.pending[id].used))
    && (forall c | 0 <= c < |s.tasks| && Past(s.tasks[c].pc) :: Past(t.tasks[c].pc) && t.tasks[c].why == s.tasks[c].why)
  }

  lemma {:induction false} ProjectGrows(log: seq<Entry>, more: seq<Entry>, c: nat)
    requires log <= more
    ensures Project(log, c) <= Project(more, c)
    decreases |more|
  {
    if |log| < |more| {
      ProjectGrows(log, more[..|more| - 1], c);
    } else {
      assert log == more;
    }
  }

  lemma ExtendsReasoned(s: Sys, t: Sys, c: nat)
    requires Reasoned(s) && Extends(s, t)
    requires forall d | 0 <= d < |t.tasks| && d != c ::
            if d < |s.tasks| then t.tasks[d] == s.tasks[d] else t.tasks[d].why.NoReason? && !t.tasks[d].pc.Decide?
    requires c < |t.tasks| ==>
               && Founded(t, c, t.tasks[c].why)
               && (t.tasks[c].pc.Decide? ==>
                   PolicyEvaluated(t.tasks[c].pc.policy.mode, t.tasks[c].pc.confidence) in Project(t.log, c))
    ensures Reasoned(t)
  {
    forall d | 0 <= d < |t.tasks| ensures Founded(t, d, t.tasks[d].why) {
      if d < |s.tasks| {
        ProjectGrows(s.log, t.log, d);
        assert Founded(s, d, s.tasks[d].why);
      }
    }
    forall d | 0 <= d < |t.tasks| && t.tasks[d].pc.Decide?
      ensures PolicyEvaluated(t.tasks[d].pc.policy.mode, t.tasks[d].pc.confidence) in Project(t.log, d)
    {
      if d != c {
        ProjectGrows(s.log, t.log, d);
      }
    }
    forall k | 0 <= k < |t.invoked| ensures Accounted(t, t.invoked[k]) {
      assert Accounted(s, s.invoked[k]);
      assert t.log[..s.invoked[k].logged] == s.log[..s.invoked[k].logged];
    }
  }

  lemma {:induction false} GrantedInWord(word: seq<Body>, id: nat)
    requires Reads(word).Some?
    requires var q := Reads(word).value;
             q == Cleared(id) || q == Applying(Some(id)) || (q.AppliedTool? && q.via == Some(id))
                 || q == Closing(Some(id))
                     || (q.Over? && q.via == Some(id))
    ensures ApprovalGranted(id) in word
  {
    var last := |word| - 1;
    assert word == word[..last] + [word[last]];
    if word[last] != ApprovalGranted(id) {
      GrantedInWord(word[..last], id);
    }
  }

  /** A request that stands at its invocation has a reason, and its log says so. */
  lemma InvokerAccounted(s: Sys, c: nat)
    requires Wellformed(s) && Reasoned(s) && c < |s.tasks| && s.tasks[c].pc.RunApply?
    ensures var why, word := s.tasks[c].why, Project(s.log, c);
            && !why.NoReason? && Reads(word) == Some(Applying(ViaOf(why)))
            && (why.ByPolicy? ==> PolicyEvaluated(Automatic, why.confidence) in word)
  {
    assert Spoken(s, c);
    assert Founded(s, c, s.tasks[c].why);
  }

  lemma InvokedReasoned(env: Env, s: Sys, c: nat, io: Io)
    requires Wellformed(s) && Reasoned(s) && c < |s.tasks| && s.tasks[c].pc.RunApply?
    ensures Reasoned(Invoked(env, s, c, s.tasks[c].pc.proposal, io))
  {
    InvokerAccounted(s, c);
    var t := Invoked(env, s, c, s.tasks[c].pc.proposal, io);
    RecordedReasoned(s, t, c, t.tasks[c].pc);
  }

  lemma RecordedReasoned(s: Sys, t: Sys, c: nat, pc: Pc)
    requires Reasoned(s) && c < |s.tasks| && s.tasks[c].pc.RunApply? && pc.LogApplyDone?
    requires t.log == s.log && t.pending == s.pending && t.tasks == s.tasks[c := s.tasks[c].(pc := pc)]
    requires t.invoked == s.invoked + [Invocation(c, |s.log|)]
    requires !s.tasks[c].why.NoReason? && Reads(Project(s.log, c)) == Some(Applying(ViaOf(s.tasks[c].why)))
    requires s.tasks[c].why.ByPolicy? ==> PolicyEvaluated(Automatic, s.tasks[c].why.confidence) in Project(s.log, c)
    ensures Reasoned(t)
  {
    assert t.log[..|s.log|] == s.log;
    forall k | 0 <= k < |t.invoked| ensures Accounted(t, t.invoked[k]) {
      if k < |s.invoked| {
        assert Accounted(s, s.invoked[k]);
      }
    }
    forall d | 0 <= d < |t.tasks| ensures Founded(t, d, t.tasks[d].why) {
      assert Founded(s, d, s.tasks[d].why);
    }
  }

  lemma ApplyInvokes(env: Env, s: Sys, c: nat, luck: Luck)
    requires c < |s.tasks| && Plausible(s, c, luck) && s.tasks[c].pc.RunApply?
    ensures Advance(env, s, c, luck) == Invoked(env, s, c, s.tasks[c].pc.proposal, luck.io)
  {
  }

  lemma NextUnused(s: Sys)
    requires Wellformed(s)
    ensures s.nextApproval !in s.pending
  {
  }

  lemma AdvanceReasoned(env: Env, s: Sys, c: nat, luck: Luck)
    requires Wellformed(s) && Reasoned(s) && c < |s.tasks| && Plausible(s, c, luck)
    ensures Reasoned(Advance(env, s, c, luck))
  {
    if s.tasks[c].pc.RunApply? {
      ApplyInvokes(env, s, c, luck);
      InvokedReasoned(env, s, c, luck.io);
    } else {
      NextUnused(s);
      QuietReasoned(env, s, c, luck);
    }
  }

  lemma QuietReasoned(env: Env, s: Sys, c: nat, luck: Luck)
    requires Reasoned(s) && s.nextApproval !in s.pending && c < |s.tasks| && !s.tasks[c].pc.RunApply?
    ensures Reasoned(Advance(env, s, c, luck))
  {
    var pc := s.tasks[c].pc;
    if Next(pc).Some? {
      NextReasoned(s, c, Next(pc).value.0, Next(pc).value.1);
    } else if Computes(pc) {
      ComputedUndecided(env, s, pc);
      ComputedReasoned(s, c, Computed(env, s, pc));
    } else if pc.Decide? {
      DecisionReasoned(s, c, pc, luck.token);
    }
  }

  lemma ComputedUndecided(env: Env, s: Sys, pc: Pc)
    requires Computes(pc)
    ensures !Computed(env, s, pc).Decide?
  {
  }

  lemma NextReasoned(s: Sys, c: nat, b: Body, stand: Pc)
    requires Reasoned(s) && c < |s.tasks| && Next(s.tasks[c].pc) == Some((b, stand))
    ensures Reasoned(Logged(s, c, b, stand))
  {
    var t := Logged(s, c, b, stand);
    ProjectAppended(s.log, Entry(Some(c), b), c);
    assert Founded(s, c, s.tasks[c].why);
    ProjectGrows(s.log, t.log, c);
    ExtendsReasoned(s, t, c);
  }

  lemma DecisionReasoned(s: Sys, c: nat, pc: Pc, token: string)
    requires Reasoned(s) && c < |s.tasks| && pc.Decide? && s.tasks[c].pc == pc && s.nextApproval !in s.pending
    ensures Reasoned(Decided(s, c, pc.proposal, pc.confidence, pc.policy, token))
  {
    assert Founded(s, c, s.tasks[c].why);
    ExtendsReasoned(s, Decided(s, c, pc.proposal, pc.confidence, pc.policy, token), c);
  }

  lemma ComputedReasoned(s: Sys, c: nat, pc: Pc)
    requires Reasoned(s) && c < |s.tasks| && Computes(s.tasks[c].pc) && !pc.Decide?
    ensures Reasoned(At(s, c, pc))
  {
    assert Founded(s, c, s.tasks[c].why);
    ExtendsReasoned(s, At(s, c, pc), c);
  }

  /** Using up an approval that its request is parked on. */
  lemma SpentReasoned(s: Sys, t: Sys, id: nat, task: Task)
    requires Reasoned(s) && id in s.pending && s.pending[id].corr < |s.tasks|
             && s.tasks[s.pending[id].corr].pc == Parked(id)
    requires t == s.(pending := s.pending[id := s.pending[id].(used := true)],
                     tasks := s.tasks[s.pending[id].corr := task])
    requires !task.pc.Decide?
    requires task.why == s.tasks[s.pending[id].corr].why || Founded(t, s.pending[id].corr, task.why)
    ensures Reasoned(t)
  {
    var c := s.pending[id].corr;
    assert Founded(s, c, s.tasks[c].why);
    ExtendsReasoned(s, t, c);
  }

  lemma ApprovedReasoned(s: Sys, id: nat, token: string)
    requires Wellformed(s) && Reasoned(s) && Nameable(s, id)
    ensures Reasoned(Approved(s, id, token))
  {
    if id in s.pending && !s.pending[id].used {
      AskedParked(s, id);
      GrantReasoned(s, id, token);
    }
  }

  lemma GrantReasoned(s: Sys, id: nat, token: string)
    requires Reasoned(s) && id in s.pending && !s.pending[id].used && s.pending[id].corr < |s.tasks|
    requires s.tasks[s.pending[id].corr].pc == Parked(id)
    ensures Reasoned(Approved(s, id, token))
  {
    var p := s.pending[id];
    if s.now >= p.expiresAt {
      SpentReasoned(s, Approved(s, id, token), id, s.tasks[p.corr]);
    } else if p.tokenHash == HashOf(token) {
      SpentReasoned(s, Approved(s, id, token), id, Task(LogGranted(id, p.proposal), ByApproval(id, token, s.now)));
    }
  }

  lemma RefusedReasoned(s: Sys, id: nat)
    requires Wellformed(s) && Reasoned(s) && Nameable(s, id)
    ensures Reasoned(Refused(s, id))
  {
    if id in s.pending && !s.pending[id].used {
      AskedParked(s, id);
      SpentReasoned(s, Refused(s, id), id, s.tasks[s.pending[id].corr].(pc := LogRejected(id)));
    }
  }

  lemma StepReasoned(env: Env, s: Sys, op: Op)
    requires Wellformed(s) && Reasoned(s)
    ensures Reasoned(Step(env, s, op))
  {
    if Possible(s, op) {
      match op
      case OpAdvance(c, luck) => AdvanceReasoned(env, s, c, luck);
      case OpApprove(id, token) => ApprovedReasoned(s, id, token);
      case OpReject(id) => RefusedReasoned(s, id);
      case _ => ExtendsReasoned(s, Step(env, s, op), |Step(env, s, op).tasks|);
    }
  }

  lemma {:induction false} RunReasoned(env: Env, files: Files, now: int, ops: seq<Op>)
    ensures Reasoned(Run(env, files, now, ops))
  {
    if |ops| > 0 {
      RunWellformed(env, files, now, ops[..|ops| - 1]);
      RunReasoned(env, files, now, ops[..|ops| - 1]);
      StepReasoned(env, Run(env, files, now, ops[..|ops| - 1]), ops[|ops| - 1]);
    }
  }

  lemma InvocationJustified(s: Sys, k: nat)
    requires Reasoned(s) && k < |s.invoked|
    ensures Justified(s, s.invoked[k])
    ensures forall j | 0 <= j < |s.invoked| && j != k :: s.invoked[j].corr != s.invoked[k].corr
  {
    var i := s.invoked[k];
    assert Accounted(s, i);
    assert Founded(s, i.corr, s.tasks[i.corr].why);
    var before := Project(s.log[..i.logged], i.corr);
    TallyDetermined(before);
    if s.tasks[i.corr].why.ByApproval? {
      GrantedInWord(before, s.tasks[i.corr].why.id);
    }
  }

  /** What must come before an invocation in the log of its request. */
  ghost predicate Justified(s: Sys, i: Invocation) {
    && i.corr < |s.tasks| && i.logged <= |s.log|
    && var before, why := Project(s.log[..i.logged], i.corr), s.tasks[i.corr].why;
       && Count(before, Disabling()) == 0
       && (|| (&& why.ByPolicy? && PolicyEvaluated(Automatic, why.confidence) in before
               && why.policy.mode == Automatic
               && (why.policy.threshold.Some? ==> why.confidence.GetOr(0.0) >= why.policy.threshold.value)
               && Count(before, Asking()) == 0)
           || (&& why.ByApproval? && ApprovalGranted(why.id) in before && Count(before, Granting()) == 1
               && why.id in s.pending && s.pending[why.id].corr == i.corr
               && s.pending[why.id].tokenHash == HashOf(why.token) && why.at < s.pending[why.id].expiresAt))
  }

  /** Every write is justified, at most once a request: whatever interleaves, an invocation of the apply
      tool comes after, in the log of its own request, either an evaluation that was automatic with a
      confidence not below any threshold, and no approval; or exactly one grant, made with the approval's
      own token before it expired. No two invocations are for one request, and none is for a request
      evaluated as disabled. */
  lemma EveryWriteJustified(env: Env, files: Files, now: int, ops: seq<Op>, k: nat)
    requires k < |Run(env, files, now, ops).invoked|
    ensures var s := Run(env, files, now, ops);
            && Justified(s, s.invoked[k])
            && forall j | 0 <= j < |s.invoked| && j != k :: s.invoked[j].corr != s.invoked[k].corr
  {
    RunReasoned(env, files, now, ops);
    InvocationJustified(Run(env, files, now, ops), k);
  }

  // ------------------------------------------------------------------ what is written

  /** The proposal a request carries, if it carries one. */
  function Carried(pc: Pc): Option<Proposal> {
    match pc
    case LogProposeDone(proposed, _) => proposed
    case LogPlan(_, proposed, _) => proposed
    case ReadPolicy(p, _) => Some(p)
    case LogPolicy(p, _, _) => Some(p)
    case Decide(p, _, _) => Some(p)
    case LogGranted(_, p) => Some(p)
    case LogApplyStarted(p) => Some(p)
    case RunApply(p) => Some(p)
    case _ => None
  }

  /** Every proposal about, carried by a request or by an approval, is good. */
  ghost predicate AllCarry(s: Sys, good: Proposal -> bool) {
    && (forall c | 0 <= c < |s.tasks| && Carried(s.tasks[c].pc).Some? :: good(Carried(s.tasks[c].pc).value))
    && (forall id | id in s.pending :: good(s.pending[id].proposal))
  }

  lemma MovedCarry(s: Sys, t: Sys, c: nat, good: Proposal -> bool)
    requires AllCarry(s, good) && c < |t.tasks| == |s.tasks|
    requires forall d | 0 <= d < |s.tasks| && d != c :: t.tasks[d] == s.tasks[d]
    requires Carried(t.tasks[c].pc).Some? ==> good(Carried(t.tasks[c].pc).value)
    requires forall id | id in t.pending :: good(t.pending[id].proposal)
    ensures AllCarry(t, good)
  {
  }

  lemma NextCarries(pc: Pc)
    requires Next(pc).Some?
    ensures Carried(Next(pc).value.1).Some? ==> Carried(Next(pc).value.1) == Carried(pc)
  {
  }

  /** Planning aside, a computed step carries what it was given. */
  lemma ComputedCarries(env: Env, s: Sys, pc: Pc, good: Proposal -> bool)
    requires Computes(pc) && (Carried(pc).Some? ==> good(Carried(pc).value))
    requires pc.RunPropose? && Propose(env, s.files, pc.path, pc.ask).Ok? ==>
             good(Propose(env, s.files, pc.path, pc.ask).value)
    ensures Carried(Computed(env, s, pc)).Some? ==> good(Carried(Computed(env, s, pc)).value)
  {
  }

  lemma AtCarry(s: Sys, c: nat, pc: Pc, good: Proposal -> bool)
    requires AllCarry(s, good) && c < |s.tasks| && (Carried(pc).Some? ==> good(Carried(pc).value))
    ensures AllCarry(At(s, c, pc), good)
  {
    MovedCarry(s, At(s, c, pc), c, good);
  }

  lemma LoggedCarry(s: Sys, c: nat, good: Proposal -> bool)
    requires AllCarry(s, good) && c < |s.tasks| && Next(s.tasks[c].pc).Some?
    ensures var (b, pc) := Next(s.tasks[c].pc).value; AllCarry(Logged(s, c, b, pc), good)
  {
    NextCarries(s.tasks[c].pc);
    var (b, pc) := Next(s.tasks[c].pc).value;
    MovedCarry(s, Logged(s, c, b, pc), c, good);
  }

  lemma DecidedCarry(s: Sys, c: nat, pc: Pc, token: string, good: Proposal -> bool)
    requires AllCarry(s, good) && c < |s.tasks| && s.tasks[c].pc == pc && pc.Decide?
    ensures AllCarry(Decided(s, c, pc.proposal, pc.confidence, pc.policy, token), good)
  {
    assert Carried(pc) == Some(pc.proposal);
    MovedCarry(s, Decided(s, c, pc.proposal, pc.confidence, pc.policy, token), c, good);
  }

  lemma InvokedCarry(env: Env, s: Sys, c: nat, p: Proposal, io: Io, good: Proposal -> bool)
    requires AllCarry(s, good) && c < |s.tasks|
    ensures AllCarry(Invoked(env, s, c, p, io), good)
  {
    MovedCarry(s, Invoked(env, s, c, p, io), c, good);
  }

  lemma ApprovedCarry(s: Sys, id: nat, token: string, good: Proposal -> bool)
    requires AllCarry(s, good)
    ensures AllCarry(Approved(s, id, token), good)
  {
    if id in s.pending && s.pending[id].corr < |s.tasks| {
      MovedCarry(s, Approved(s, id, token), s.pending[id].corr, good);
    }
  }

  lemma RefusedCarry(s: Sys, id: nat, good: Proposal -> bool)
    requires AllCarry(s, good)
    ensures AllCarry(Refused(s, id), good)
  {
    if id in s.pending && s.pending[id].corr < |s.tasks| {
      MovedCarry(s, Refused(s, id), s.pending[id].corr, good);
    }
  }

  lemma SameCarry(s: Sys, t: Sys, good: Proposal -> bool)
    requires AllCarry(s, good) && t.pending == s.pending
    requires |t.tasks| >= |s.tasks| && forall d | 0 <= d < |t.tasks| ::
            if d < |s.tasks| then t.tasks[d] == s.tasks[d] else Carried(t.tasks[d].pc).None?
    ensures AllCarry(t, good)
  {
  }

  /** What a proposal of the planning tool says is true of the content it carries. */
  ghost predicate Sound(env: Env, p: Proposal) {
    Grounded(env.lex, p) && Allowed(env, p.path) && Openable(p.path)
  }

  ghost function BeSound(env: Env): Proposal -> bool {
    p => Sound(env, p)
  }

  lemma ProposedSound(env: Env, files: Files, path: Path, ask: Ask)
    ensures Propose(env, files, path, ask).Ok? ==> BeSound(env)(Propose(env, files, path, ask).value)
  {
    if Propose(env, files, path, ask).Ok? {
      ProposalGrounded(env.lex, path, files[path], ask, Propose(env, files, path, ask).value);
    }
  }

  lemma AdvanceCarry(env: Env, s: Sys, c: nat, luck: Luck, good: Proposal -> bool)
    requires AllCarry(s, good) && c < |s.tasks| && Plausible(s, c, luck)
    requires var pc := s.tasks[c].pc;
             pc.RunPropose? && Propose(env, s.files, pc.path, pc.ask).Ok? ==>
                 good(Propose(env, s.files, pc.path, pc.ask).value)
    ensures AllCarry(Advance(env, s, c, luck), good)
  {
    var pc := s.tasks[c].pc;
    if Next(pc).Some? {
      LoggedCarry(s, c, good);
    } else if Computes(pc) {
      ComputedCarries(env, s, pc, good);
      AtCarry(s, c, Computed(env, s, pc), good);
    } else if pc.Decide? {
      DecidedCarry(s, c, pc, luck.token, good);
    } else if pc.RunApply? {
      InvokedCarry(env, s, c, pc.proposal, luck.io, good);
    }
  }

  lemma StepCarry(env: Env, s: Sys, op: Op)
    requires AllCarry(s, BeSound(env))
    ensures AllCarry(Step(env, s, op), BeSound(env))
  {
    if Possible(s, op) {
      match op
      case OpAdvance(c, luck) =>
        if s.tasks[c].pc.RunPropose? {
          ProposedSound(env, s.files, s.tasks[c].pc.path, s.tasks[c].pc.ask);
        }
        AdvanceCarry(env, s, c, luck, BeSound(env));
      case OpApprove(id, token) => ApprovedCarry(s, id, token, BeSound(env));
      case OpReject(id) => RefusedCarry(s, id, BeSound(env));
      case _ => SameCarry(s, Step(env, s, op), BeSound(env));
    }
  }

  /** Proposals come from the planning tool alone, so each says the truth about the content it carries. */
  lemma {:induction false} RunCarry(env: Env, files: Files, now: int, ops: seq<Op>)
    ensures AllCarry(Run(env, files, now, ops), BeSound(env))
  {
    if |ops| > 0 {
      RunCarry(env, files, now, ops[..|ops| - 1]);
      StepCarry(env, Run(env, files, now, ops[..|ops| - 1]), ops[|ops| - 1]);
    }
  }

  /** Only an invocation of the apply tool, another program or a rollback changes a file. */
  lemma OnlyApplyWrites(env: Env, s: Sys, op: Op)
    requires Step(env, s, op).files != s.files
    ensures op.OpExternalEdit? || op.OpRollback? || (op.OpAdvance? && op.c < |s.tasks| && s.tasks[op.c].pc.RunApply?)
  {
  }

  /** In every run, external edits and rollbacks included, a request that changes its workbook changes
      exactly what its proposal showed: the file was still the content proposed on, its status cell read as
      previewed, and it differs afterwards only in that cell. */
  lemma WritesArePreviewed(env: Env, files: Files, now: int, ops: seq<Op>, c: nat, luck: Luck)
    requires Unicode(env.lex)
    requires var s := Run(env, files, now, ops);
             && c < |s.tasks| && s.tasks[c].pc.RunApply? && Plausible(s, c, luck)
             && s.tasks[c].pc.proposal.path in s.files
             && SavesFaithfully(luck.io, s.files[s.tasks[c].pc.proposal.path], s.tasks[c].pc.proposal)
    ensures var s := Run(env, files, now, ops);
            var p, t := s.tasks[c].pc.proposal, Advance(env, s, c, luck);
            && p.path in t.files
            && (t.files[p.path] != s.files[p.path] ==>
                  var w, v := s.files[p.path], t.files[p.path];
                  && w == p.fingerprint.content
                  && CellShows(env.lex, w, p.change, p.change.before, p.change.beforeColor)
                  && OnlyCell(w, v, p.change.sheet, p.change.row, p.change.col)
                  && CellShows(env.lex, v, p.change, p.change.after, p.change.afterColor)
                  && p.change.before != p.change.after)
  {
    RunCarry(env, files, now, ops);
    var s := Run(env, files, now, ops);
    var p := s.tasks[c].pc.proposal;
    assert Carried(s.tasks[c].pc) == Some(p);
    assert BeSound(env)(p);
    ChangedByWrite(env, s.files, p, luck.io);
    if Applied(env, s.files, p, luck.io).0[p.path] != s.files[p.path] {
      PreviewedIsWritten(env, s.files, p, luck.io);
    }
  }
}
