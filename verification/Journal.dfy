/** The audit log as a redo journal of the workbooks (application/capabilities.py: _emit_result;
    connectors/excel_roadmap.py: apply). */
module Journal {
  import opened Wrappers
  import opened Lexicons
  import opened Workbooks
  import opened FileWrites
  import opened RoadmapConnector
  import opened Capabilities
  import opened Lifecycle
  import opened Justification

  // ------------------------------------------------------------------ journals

  /** The diffs of one workbook. */
  function DiffsOf(ds: seq<Diff>, q: Path): seq<Diff> {
    if |ds| == 0 then []
    else
      var last := ds[|ds| - 1];
      DiffsOf(ds[..|ds| - 1], q) + if last.path == q then [last] else []
  }

  /** A content after a list of diffs, each redone by `edit`. */
  function Redo(edit: (Workbook, Change) -> Workbook, w: Workbook, ds: seq<Diff>): Workbook {
    if |ds| == 0 then w else edit(Redo(edit, w, ds[..|ds| - 1]), ds[|ds| - 1].change)
  }

  /** The edit of a workbook: the new status goes into its cell, label and colour. */
  function Restate(): (Workbook, Change) -> Workbook {
    (w: Workbook, c: Change) => NewContent(w, c)
  }

  /** A diff's first version is the content that the diffs before it lead to. */
  ghost predicate Continues(edit: (Workbook, Change) -> Workbook, w: Workbook, ds: seq<Diff>, k: nat)
    requires k < |ds|
  {
    ds[k].before == Sha256(Redo(edit, w, ds[..k]))
  }

  /** Its second version is the first of the next diff, or the content at the end; and it differs. */
  ghost predicate LeadsOn(ds: seq<Diff>, v: Workbook, k: nat)
    requires k < |ds|
  {
    ds[k].after == (if k + 1 < |ds| then ds[k + 1].before else Sha256(v)) && ds[k].before != ds[k].after
  }

  /** The diffs lead from `w` to `v`: redone in order they yield `v`, the versions each names are those
      before and after it, so that they chain, and each changes the content. */
  ghost predicate Journals(edit: (Workbook, Change) -> Workbook, w: Workbook, ds: seq<Diff>, v: Workbook) {
    v == Redo(edit, w, ds) && forall k | 0 <= k < |ds| :: Continues(edit, w, ds, k) && LeadsOn(ds, v, k)
  }

  lemma JournalGrows(edit: (Workbook, Change) -> Workbook, w: Workbook, ds: seq<Diff>, v: Workbook, d: Diff)
    requires Journals(edit, w, ds, v)
    requires d.before == Sha256(v) && d.after == Sha256(edit(v, d.change)) && d.before != d.after
    ensures Journals(edit, w, ds + [d], edit(v, d.change))
  {
    var more := ds + [d];
    assert more[..|ds|] == ds;
    forall k | 0 <= k < |more| ensures Continues(edit, w, more, k) && LeadsOn(more, edit(v, d.change), k) {
      assert more[..k] == ds[..k];
      if k < |ds| {
        assert Continues(edit, w, ds, k) && LeadsOn(ds, v, k);
      } else {
        assert ds[..k] == ds;
      }
    }
  }

  lemma DiffsAppended(ds: seq<Diff>, d: Diff, q: Path)
    ensures DiffsOf(ds + [d], q) == DiffsOf(ds, q) + if d.path == q then [d] else []
  {
    assert (ds + [d])[..|ds|] == ds;
  }

  // ------------------------------------------------------------------ the history of writes

  /** No other program and no rollback touches a file, saving is faithful, and no write is stopped between
      its replacement and its report. */
  ghost predicate Undisturbed(s: Sys, op: Op) {
    && !op.OpExternalEdit? && !op.OpRollback?
    && (Applies(s, op) ==>
          var p := s.tasks[op.c].pc.proposal;
          && (p.path in s.files ==> SavesFaithfully(op.luck.io, s.files[p.path], p))
          && !Hits(op.luck.io.fault, 5))
  }

  predicate Applies(s: Sys, op: Op) {
    op.OpAdvance? && op.c < |s.tasks| && s.tasks[op.c].pc.RunApply?
  }

  ghost predicate AllUndisturbed(env: Env, files: Files, now: int, ops: seq<Op>) {
    |ops| == 0 || (AllUndisturbed(env, files, now, ops[..|ops| - 1])
                   && Undisturbed(Run(env, files, now, ops[..|ops| - 1]), ops[|ops| - 1]))
  }

  /** What has been written accounts for the content of every workbook. */
  ghost predicate Accounts(files: Files, current: Files, written: seq<Diff>) {
    forall q | q in files && Openable(q) ::
        q in current && Journals(Restate(), files[q], DiffsOf(written, q), current[q])
  }

  predicate Wrote(r: ToolResult) {
    r.Success? && !r.diff.noOp
  }

  /** An undisturbed write changes its workbook exactly when it reports a diff, and no other. */
  lemma WriteReported(env: Env, files: Files, p: Proposal, io: Io, q: Path)
    requires Unicode(env.lex) && Sound(env, p) && FreshTemp(files, p, io) && q in files && Openable(q)
    requires p.path in files ==> SavesFaithfully(io, files[p.path], p)
    requires !Hits(io.fault, 5) && !io.fault.Dies?
    ensures var (after, answer) := Applied(env, files, p, io);
            && answer.Some? && q in after
            && after[q] == (if Wrote(answer.value) && q == p.path then NewContent(files[q], p.change) else files[q])
            && (Wrote(answer.value) ==>
                  && p.path in files && files[p.path] != NewContent(files[p.path], p.change)
                  && answer.value.diff
                      == Diff(p.path, Sha256(files[p.path]), Sha256(NewContent(files[p.path], p.change)),
                          p.change, false))
  {
    if Unwritten(env, files, p).None? {
      FaultAtomic(env, files, p, io);
      BackupIsNoWorkbook(p.path, env.prefix8(files[p.path]));
      if Applied(env, files, p, io).1.value.Success? {
        SuccessWrites(env, files, p, io);
        NewContentFacts(env.lex, p);
      } else {
        FailureLeavesWorkbookExactly(env, files, p, io);
      }
    }
  }

  lemma Answered(env: Env, files: Files, p: Proposal, io: Io)
    requires !io.fault.Dies?
    ensures Applied(env, files, p, io).1.Some?
  {
  }

  /** What a write did to its workbook is what its diff says. */
  lemma DiffAccounts(files: Files, before: Files, after: Files, written: seq<Diff>, d: Option<Diff>)
    requires Accounts(files, before, written)
    requires forall q | q in before && Openable(q) ::
               q in after && after[q] == if d.Some? && d.value.path == q then Restate()(before[q], d.value.change)
                   else before[q]
    requires d.Some? && d.value.path in before ==>
               var w := before[d.value.path];
               && d.value.before == Sha256(w) && d.value.after == Sha256(Restate()(w, d.value.change))
                       && d.value.before != d.value.after
    ensures Accounts(files, after, if d.Some? then written + [d.value] else written)
  {
    forall q | q in files && Openable(q)
      ensures q in after && Journals(Restate(), files[q],
                                     DiffsOf(if d.Some? then written + [d.value] else written, q), after[q])
    {
      if d.Some? {
        DiffsAppended(written, d.value, q);
        assert DiffsOf(written, q) + [] == DiffsOf(written, q);
        if q == d.value.path {
          JournalGrows(Restate(), files[q], DiffsOf(written, q), before[q], d.value);
        }
      }
    }
  }

  lemma InvocationAccounts(env: Env, files: Files, current: Files, written: seq<Diff>, p: Proposal, io: Io)
    requires Unicode(env.lex) && Sound(env, p) && FreshTemp(current, p, io)
    requires p.path in current ==> SavesFaithfully(io, current[p.path], p)
    requires !Hits(io.fault, 5) && !io.fault.Dies?
    requires Accounts(files, current, written)
    ensures var (after, answer) := Applied(env, current, p, io);
            && answer.Some?
            && Accounts(files, after, if Wrote(answer.value) then written + [answer.value.diff] else written)
  {
    Answered(env, current, p, io);
    var (after, answer) := Applied(env, current, p, io);
    forall q | q in current && Openable(q)
      ensures q in after && after[q] == if Wrote(answer.value) && q == p.path then Restate()(current[q], p.change)
              else current[q]
    {
      WriteReported(env, current, p, io, q);
    }
    if p.path in current {
      WriteReported(env, current, p, io, p.path);
    }
    DiffAccounts(files, current, after, written, if Wrote(answer.value) then Some(answer.value.diff) else None);
  }

  lemma AdvanceWrites(env: Env, s: Sys, c: nat, luck: Luck)
    requires c < |s.tasks| && Plausible(s, c, luck) && s.tasks[c].pc.RunApply?
    ensures var (after, answer) := Applied(env, s.files, s.tasks[c].pc.proposal, luck.io);
            var t := Advance(env, s, c, luck);
            answer.Some? ==> && t.files == after
                             && t.written == (if Wrote(answer.value) then s.written + [answer.value.diff]
                                              else s.written)
  {
    ApplyInvokes(env, s, c, luck);
  }

  lemma QuietWritesNothing(env: Env, s: Sys, op: Op)
    requires !Applies(s, op) && !op.OpExternalEdit? && !op.OpRollback?
    ensures Step(env, s, op).files == s.files && Step(env, s, op).written == s.written
  {
  }

  lemma StepAccounts(env: Env, files: Files, s: Sys, op: Op)
    requires Unicode(env.lex) && AllCarry(s, BeSound(env)) && Undisturbed(s, op)
    requires Accounts(files, s.files, s.written)
    ensures Accounts(files, Step(env, s, op).files, Step(env, s, op).written)
  {
    if !Applies(s, op) {
      QuietWritesNothing(env, s, op);
    } else if Plausible(s, op.c, op.luck) {
      var p := s.tasks[op.c].pc.proposal;
      assert Carried(s.tasks[op.c].pc) == Some(p) && BeSound(env)(p);
      InvocationAccounts(env, files, s.files, s.written, p, op.luck.io);
      AdvanceWrites(env, s, op.c, op.luck);
    }
  }

  /** In every interleaving, with a pause possible at every await, what has been written is a redo journal
      of every workbook: in the order of the writes, its diffs chain from the first content and lead to the
      current one. */
  lemma {:induction false} WritesJournal(env: Env, files: Files, now: int, ops: seq<Op>)
    requires Unicode(env.lex) && AllUndisturbed(env, files, now, ops)
    ensures Accounts(files, Run(env, files, now, ops).files, Run(env, files, now, ops).written)
  {
    if |ops| > 0 {
      var front := ops[..|ops| - 1];
      WritesJournal(env, files, now, front);
      RunCarry(env, files, now, front);
      StepAccounts(env, files, Run(env, files, now, front), ops[|ops| - 1]);
    }
  }

  // ------------------------------------------------------------------ the log

  /** The diffs of the `artifact.created` events, but for those of writes that were not needed. */
  function Artifacts(log: seq<Entry>): seq<Diff> {
    if |log| == 0 then []
    else
      var b := log[|log| - 1].body;
      Artifacts(log[..|log| - 1]) + if b.ArtifactCreated? && !b.diff.noOp then [b.diff] else []
  }

  /** The diff of a write that a request has made and not yet logged. */
  function Owed(pc: Pc): Option<Diff> {
    match pc
    case LogApplyDone(r) => if Wrote(r) then Some(r.diff) else None
    case LogOutcome(r) => if Wrote(r) then Some(r.diff) else None
    case LogArtifact(d, _) => if d.noOp then None else Some(d)
    case _ => None
  }

  ghost predicate Settled(s: Sys) {
    forall c | 0 <= c < |s.tasks| :: Owed(s.tasks[c].pc).None?
  }

  /** No request invokes the apply tool while another has yet to log what it wrote. */
  ghost predicate OneWriter(s: Sys, op: Op) {
    Applies(s, op) ==> Settled(s)
  }

  ghost predicate AllOneWriter(env: Env, files: Files, now: int, ops: seq<Op>) {
    |ops| == 0 || (AllOneWriter(env, files, now, ops[..|ops| - 1])
                   && OneWriter(Run(env, files, now, ops[..|ops| - 1]), ops[|ops| - 1]))
  }

  /** The log tells of every write, but for at most the last, whose request is still to log it. */
  ghost predicate Booked(s: Sys) {
    && (Settled(s) ==> Artifacts(s.log) == s.written)
    && forall c | 0 <= c < |s.tasks| && Owed(s.tasks[c].pc).Some? ::
         && Artifacts(s.log) + [Owed(s.tasks[c].pc).value] == s.written
         && forall d | 0 <= d < |s.tasks| && d != c :: Owed(s.tasks[d].pc).None?
  }

  lemma ArtifactsAppended(log: seq<Entry>, e: Entry)
    ensures Artifacts(log + [e]) == Artifacts(log) + if e.body.ArtifactCreated? && !e.body.diff.noOp
            then [e.body.diff] else []
  {
    assert (log + [e])[..|log|] == log;
  }

  /** A logging step owes what it owed, or logs it. */
  lemma NextOwes(pc: Pc)
    requires Next(pc).Some?
    ensures var (b, stand) := Next(pc).value;
            if b.ArtifactCreated? && !b.diff.noOp then Owed(pc) == Some(b.diff) && Owed(stand).None?
                else Owed(stand) == Owed(pc)
  {
  }

  lemma LoggedBooked(s: Sys, c: nat, b: Body, pc: Pc)
    requires Booked(s) && c < |s.tasks|
    requires if b.ArtifactCreated? && !b.diff.noOp then Owed(s.tasks[c].pc) == Some(b.diff) && Owed(pc).None?
             else Owed(pc) == Owed(s.tasks[c].pc)
    ensures Booked(Logged(s, c, b, pc))
  {
    var t := Logged(s, c, b, pc);
    ArtifactsAppended(s.log, Entry(Some(c), b));
    if Settled(t) && !(b.ArtifactCreated? && !b.diff.noOp) {
      forall d | 0 <= d < |s.tasks| ensures Owed(s.tasks[d].pc).None? {
        assert Owed(t.tasks[d].pc).None?;
      }
    }
  }

  /** A step that logs nothing and writes nothing, and leaves what each request owes. */
  lemma SameBooked(s: Sys, t: Sys)
    requires Booked(s) && Artifacts(t.log) == Artifacts(s.log) && t.written == s.written && |s.tasks| <= |t.tasks|
    requires forall d | 0 <= d < |t.tasks| :: Owed(t.tasks[d].pc) == if d < |s.tasks| then Owed(s.tasks[d].pc) else None
    ensures Booked(t)
  {
    if Settled(t) {
      forall d | 0 <= d < |s.tasks| ensures Owed(s.tasks[d].pc).None? {
        assert Owed(t.tasks[d].pc).None?;
      }
    }
  }

  lemma InvokedBooked(s: Sys, t: Sys, c: nat, r: ToolResult)
    requires Booked(s) && Settled(s) && c < |s.tasks|
    requires t.log == s.log && t.tasks == s.tasks[c := s.tasks[c].(pc := LogApplyDone(r))]
    requires t.written == if Wrote(r) then s.written + [r.diff] else s.written
    ensures Booked(t)
  {
    if Wrote(r) {
      assert Owed(t.tasks[c].pc).Some?;
    }
  }

  lemma ComputedOwes(env: Env, s: Sys, pc: Pc)
    requires Computes(pc)
    ensures Owed(pc).None? && Owed(Computed(env, s, pc)).None?
  {
  }

  lemma DecidedBooked(s: Sys, c: nat, pc: Pc, token: string)
    requires Booked(s) && c < |s.tasks| && s.tasks[c].pc == pc && pc.Decide?
    ensures Booked(Decided(s, c, pc.proposal, pc.confidence, pc.policy, token))
  {
    SameBooked(s, Decided(s, c, pc.proposal, pc.confidence, pc.policy, token));
  }

  lemma QuietBooked(env: Env, s: Sys, c: nat, luck: Luck)
    requires Booked(s) && c < |s.tasks| && !s.tasks[c].pc.RunApply?
    ensures Booked(Advance(env, s, c, luck))
  {
    var pc := s.tasks[c].pc;
    if Next(pc).Some? {
      NextOwes(pc);
      LoggedBooked(s, c, Next(pc).value.0, Next(pc).value.1);
    } else if Computes(pc) {
      ComputedOwes(env, s, pc);
      SameBooked(s, At(s, c, Computed(env, s, pc)));
    } else if pc.Decide? {
      DecidedBooked(s, c, pc, luck.token);
    }
  }

  lemma ApplyBooked(env: Env, s: Sys, c: nat, luck: Luck)
    requires Booked(s) && Settled(s) && c < |s.tasks| && s.tasks[c].pc.RunApply? && Plausible(s, c, luck)
    ensures Booked(Advance(env, s, c, luck))
  {
    ApplyInvokes(env, s, c, luck);
    InvokedBooked(s, Invoked(env, s, c, s.tasks[c].pc.proposal, luck.io), c,
                  Applied(env, s.files, s.tasks[c].pc.proposal, luck.io).1.GetOr(Failure(Unknown)));
  }

  lemma ApprovedBooked(s: Sys, id: nat, token: string)
    requires Wellformed(s) && Booked(s) && Nameable(s, id)
    ensures Booked(Approved(s, id, token))
  {
    if id in s.pending && !s.pending[id].used {
      AskedParked(s, id);
      SameBooked(s, Approved(s, id, token));
    }
  }

  lemma RefusedBooked(s: Sys, id: nat)
    requires Wellformed(s) && Booked(s) && Nameable(s, id)
    ensures Booked(Refused(s, id))
  {
    if id in s.pending && !s.pending[id].used {
      AskedParked(s, id);
      SameBooked(s, Refused(s, id));
    }
  }

  lemma StepBooked(env: Env, s: Sys, op: Op)
    requires Wellformed(s) && Booked(s) && OneWriter(s, op)
    ensures Booked(Step(env, s, op))
  {
    if Possible(s, op) {
      match op
      case OpAdvance(c, luck) =>
        if s.tasks[c].pc.RunApply? {
          ApplyBooked(env, s, c, luck);
        } else {
          QuietBooked(env, s, c, luck);
        }
      case OpApprove(id, token) => ApprovedBooked(s, id, token);
      case OpReject(id) => RefusedBooked(s, id);
      case OpUnrelated(kind) =>
        ArtifactsAppended(s.log, Entry(None, Unrelated(kind)));
        SameBooked(s, Step(env, s, op));
      case _ => SameBooked(s, Step(env, s, op));
    }
  }

  lemma {:induction false} RunBooked(env: Env, files: Files, now: int, ops: seq<Op>)
    requires AllOneWriter(env, files, now, ops)
    ensures Booked(Run(env, files, now, ops))
  {
    if |ops| > 0 {
      var front := ops[..|ops| - 1];
      RunBooked(env, files, now, front);
      RunWellformed(env, files, now, front);
      StepBooked(env, Run(env, files, now, front), ops[|ops| - 1]);
    }
  }

  /** The audit log is a redo journal: over every run without external edits, rollbacks and faults between
      a replacement and its report, in which no request invokes the apply tool while another has yet to log
      what it wrote, the diffs of the `artifact.created` events, in the order of the log, chain from the
      first content of every workbook and, redone in that order, yield its current content, whenever no
      request has still to log what it wrote. */
  lemma AuditLogIsRedoJournal(env: Env, files: Files, now: int, ops: seq<Op>, q: Path)
    requires Unicode(env.lex) && AllUndisturbed(env, files, now, ops) && AllOneWriter(env, files, now, ops)
    requires q in files && Openable(q) && Settled(Run(env, files, now, ops))
    ensures var s := Run(env, files, now, ops);
            q in s.files && Journals(Restate(), files[q], DiffsOf(Artifacts(s.log), q), s.files[q])
  {
    WritesJournal(env, files, now, ops);
    RunBooked(env, files, now, ops);
  }

  /** Of many approvals prepared from one version of a workbook, once one has written the others are refused
      and change nothing. */
  lemma StaleProposalRefused(env: Env, files: Files, p: Proposal, io: Io, other: Proposal, again: Io)
    requires Unicode(env.lex) && Sound(env, p) && FreshTemp(files, p, io)
             && SavesFaithfully(io, p.fingerprint.content, p)
    requires Applied(env, files, p, io).1.Some? && Wrote(Applied(env, files, p, io).1.value)
    requires other.path == p.path && other.fingerprint == p.fingerprint
    ensures var after := Applied(env, files, p, io).0;
            Applied(env, after, other, again) == (after, Some(Failure(FileChanged)))
  {
    SuccessWrites(env, files, p, io);
    NewContentFacts(env.lex, p);
  }
}
