/** Which calls of the engine invoke the apply tool (application/capabilities.py: request, approve, reject,
    set_policy), for every policy. */
module Invocations {
  import opened Wrappers
  import opened FileWrites
  import opened RoadmapConnector
  import opened Capabilities
  import opened Lifecycle
  import opened CapabilityEngines

  // ------------------------------------------------------------------ what a request will do

  /** The policy lets a change through without asking. */
  predicate Lets(policy: Policy, confidence: Option<real>) {
    policy.mode == Automatic && (policy.threshold.Some? ==> confidence.GetOr(0.0) >= policy.threshold.value)
  }

  /** Whether a request that stands at `pc` will invoke the apply tool, from the files and the policy as they
      are: its change can be planned and the policy lets it through, or it has been granted. */
  ghost predicate Will(env: Env, files: Files, policy: Policy, pc: Pc) {
    match pc
    case Begin(Valid(path, ask, confidence)) =>
      var target := Target(env, files, path);
      target.Some? && Propose(env, files, target.value, ask).Ok? && Lets(policy, confidence)
    case LogProposeStarted(path, ask, confidence) => Propose(env, files, path, ask).Ok? && Lets(policy, confidence)
    case RunPropose(path, ask, confidence) => Propose(env, files, path, ask).Ok? && Lets(policy, confidence)
    case LogProposeDone(proposed, confidence) => proposed.Some? && Lets(policy, confidence)
    case LogPlan(_, proposed, confidence) => proposed.Some? && Lets(policy, confidence)
    case ReadPolicy(_, confidence) => Lets(policy, confidence)
    case LogPolicy(_, confidence, evaluated) => Lets(evaluated, confidence)
    case Decide(_, confidence, evaluated) => Lets(evaluated, confidence)
    case LogGranted(_, _) => true
    case LogApplyStarted(_) => true
    case RunApply(_) => true
    case _ => false
  }

  ghost predicate WillInvoke(env: Env, s: Sys, c: nat)
    requires c < |s.tasks|
  {
    Will(env, s.files, EffectivePolicy(s), s.tasks[c].pc)
  }

  /** A step that invokes nothing changes no file, and what the request will do. */
  lemma StepInvokes(env: Env, s: Sys, c: nat, luck: Luck)
    requires c < |s.tasks| && Plausible(s, c, luck)
    ensures var t := Advance(env, s, c, luck);
            && |t.tasks| == |s.tasks|
            && (s.tasks[c].pc.RunApply? ==> |t.invoked| == |s.invoked| + 1 && t.tasks[c].pc.LogApplyDone?)
            && (!s.tasks[c].pc.RunApply? ==>
                  && t.files == s.files && t.written == s.written && t.invoked == s.invoked
                  && (WillInvoke(env, t, c) <==> WillInvoke(env, s, c)))
  {
    var pc := s.tasks[c].pc;
    if Next(pc).Some? {
      NextWill(env, s.files, EffectivePolicy(s), pc);
    } else if Computes(pc) {
      ComputedWill(env, s, pc);
    }
  }

  lemma NextWill(env: Env, files: Files, policy: Policy, pc: Pc)
    requires Next(pc).Some?
    ensures Will(env, files, policy, Next(pc).value.1) <==> Will(env, files, policy, pc)
  {
    hide Propose, Target, Lets;
  }

  lemma ComputedWill(env: Env, s: Sys, pc: Pc)
    requires Computes(pc)
    ensures Will(env, s.files, EffectivePolicy(s), Computed(env, s, pc)) <==> Will(env, s.files, EffectivePolicy(s), pc)
  {
  }

  /** The temporary directory of the call is new, and the process lives through it. */
  ghost predicate Workable(s: Sys, luck: Luck) {
    !luck.io.fault.Dies? && forall p: Path :: TempOf(p, luck.io.tmp) !in s.files
  }

  lemma {:induction false} DoneInvokes(env: Env, s: Sys, c: nat, luck: Luck)
    requires c < |s.tasks| && !WillInvoke(env, s, c)
    ensures var t := Driven(env, s, c, luck);
            t.invoked == s.invoked && t.files == s.files && t.written == s.written
    decreases Rank(s.tasks[c].pc)
  {
    if Live(s.tasks[c].pc) && Plausible(s, c, luck) {
      StepInvokes(env, s, c, luck);
      AdvanceRank(env, s, c, luck);
      DrivenUnfolds(env, s, c, luck);
      DoneInvokes(env, Advance(env, s, c, luck), c, luck);
    }
  }

  /** Run to its end, a request invokes the tool once if it will, and otherwise not at all; then no file
      changes. */
  lemma {:induction false} DrivenInvokes(env: Env, s: Sys, c: nat, luck: Luck)
    requires c < |s.tasks| && Workable(s, luck)
    ensures var t := Driven(env, s, c, luck);
            && |t.invoked| == |s.invoked| + (if WillInvoke(env, s, c) then 1 else 0)
            && (!WillInvoke(env, s, c) ==> t.invoked == s.invoked && t.files == s.files && t.written == s.written)
    decreases Rank(s.tasks[c].pc)
  {
    if !WillInvoke(env, s, c) {
      DoneInvokes(env, s, c, luck);
    } else {
      StepInvokes(env, s, c, luck);
      AdvanceRank(env, s, c, luck);
      DrivenUnfolds(env, s, c, luck);
      if s.tasks[c].pc.RunApply? {
        DoneInvokes(env, Advance(env, s, c, luck), c, luck);
      } else {
        DrivenInvokes(env, Advance(env, s, c, luck), c, luck);
      }
    }
  }

  // ------------------------------------------------------------------ calls

  /** A request that names no workbook is about the one that is discovered, and about none when there are more or
      fewer than one. */
  lemma TargetExactly(env: Env, files: Files, p: Path)
    ensures Target(env, files, Some(p)) == Some(p)
    ensures Target(env, files, None) == Some(p) <==> Discover(env, files) == {p}
  {
    var found := Discover(env, files);
    if |found| == 1 {
      var q := Target(env, files, None).value;
      forall r | r in found ensures r == q {
        OnlyMember(found, q, r);
      }
      assert found == {q};
    } else {
      assert found != {p};
    }
  }

  datatype Call =
    | Request(payload: Payload)
    | Approve(id: nat, token: string)
    | Reject(id: nat)
    | SetPolicy(policy: Policy)

  /** Between calls. */
  ghost predicate Settled(s: Sys) {
    Wellformed(s) && forall d | 0 <= d < |s.tasks| :: !Live(s.tasks[d].pc)
  }

  /** The state that the engine's method of this name leaves. */
  ghost function Called(env: Env, s: Sys, call: Call, luck: Luck): Sys
    requires Settled(s)
  {
    match call
    case Request(payload) => Driven(env, Submitted(s, payload), |s.tasks|, luck)
    case Approve(id, token) =>
      if Grantable(s, id, token) then
        RestNameable(s, id);
        Driven(env, Approved(s, id, token), s.pending[id].corr, luck)
      else Approved(s, id, token)
    case Reject(id) =>
      if Rejectable(s, id) then
        RestNameable(s, id);
        Logged(Refused(s, id), s.pending[id].corr, ApprovalRejected(id), Ended)
      else s
    case SetPolicy(policy) =>
      s.(policy := Some(policy), log := s.log + [Entry(None, Unrelated("capability.policy_changed"))])
  }

  /** The change asked for can be planned, and a policy has been set that lets it through without asking: it
      is automatic, and the confidence, 0 where none is given, reaches its threshold, if it has one. */
  ghost predicate LetThrough(env: Env, s: Sys, payload: Payload) {
    && PlanFor(env, s.files, payload).Some?
    && s.policy.Some? && s.policy.value.mode == Automatic
    && (s.policy.value.threshold.Some? ==> payload.confidence.GetOr(0.0) >= s.policy.value.threshold.value)
  }

  lemma BeginWill(env: Env, s: Sys, payload: Payload)
    ensures WillInvoke(env, Submitted(s, payload), |s.tasks|) <==> LetThrough(env, s, payload)
  {
  }

  lemma GrantedWill(env: Env, s: Sys, id: nat, token: string)
    requires Grantable(s, id, token) && s.pending[id].corr < |s.tasks|
    ensures var t := Approved(s, id, token);
            && |t.tasks| == |s.tasks| && WillInvoke(env, t, s.pending[id].corr)
            && t.files == s.files && t.invoked == s.invoked && t.written == s.written
  {
  }

  /** A call invokes the apply tool, once, exactly when it requests a change that can be planned and that the
      policy lets through without asking, or approves what can be granted, whatever the policy is by then.
      Every other call changes no file. */
  lemma InvokesExactly(env: Env, s: Sys, call: Call, luck: Luck)
    requires Settled(s) && Workable(s, luck)
    ensures var t := Called(env, s, call, luck);
            var invokes := match call
                           case Request(payload) => LetThrough(env, s, payload)
                           case Approve(id, token) => Grantable(s, id, token)
                           case _ => false;
            && |t.invoked| == |s.invoked| + (if invokes then 1 else 0)
            && (!invokes ==> t.invoked == s.invoked && t.files == s.files && t.written == s.written)
  {
    hide Driven, Will;
    match call
    case Request(payload) =>
      BeginWill(env, s, payload);
      DrivenInvokes(env, Submitted(s, payload), |s.tasks|, luck);
    case Approve(id, token) =>
      if Grantable(s, id, token) {
        RestNameable(s, id);
        GrantedWill(env, s, id, token);
        DrivenInvokes(env, Approved(s, id, token), s.pending[id].corr, luck);
      }
    case Reject(id) =>
      if Rejectable(s, id) {
        RestNameable(s, id);
      }
    case SetPolicy(_) =>
  }

  /** While the capability is disabled, a call invokes the apply tool exactly when it approves what can be
      granted; any other call changes no file. */
  lemma DisabledExactly(env: Env, s: Sys, call: Call, luck: Luck)
    requires Settled(s) && Workable(s, luck) && s.policy.Some? && s.policy.value.mode == Disabled
    ensures var t := Called(env, s, call, luck);
            && (t.invoked != s.invoked <==> call.Approve? && Grantable(s, call.id, call.token))
            && (!(call.Approve? && Grantable(s, call.id, call.token)) ==> t.files == s.files && t.written == s.written)
  {
    InvokesExactly(env, s, call, luck);
  }

  /** The engine's methods leave the states of `Called`. */
  method Serve(engine: CapabilityEngine, call: Call, luck: Luck)
    requires engine.AtRest() && engine.Workable(luck.io)
    modifies engine
    ensures engine.AtRest() && Settled(old(engine.Model()))
    ensures engine.Model() == Called(engine.env, old(engine.Model()), call, luck)
  {
    LawfulStates(engine.env, engine.reach, engine.calm, engine.ops, engine.Model());
    match call
    case Request(payload) => var _ := engine.Request(payload, luck);
    case Approve(id, token) => var _ := engine.Approve(id, token, luck);
    case Reject(id) => var _ := engine.Reject(id);
    case SetPolicy(policy) => engine.SetPolicy(policy);
  }
}
