/** Undo over whole runs of writes and rollbacks (connectors/excel_roadmap.py: the backup made by apply,
    rollback). */
module Undo {
  import opened Wrappers
  import opened Workbooks
  import opened FileWrites
  import opened RoadmapConnector

  datatype UndoOp = DoApply(p: Proposal, io: Io) | DoRollback(backup: Path, target: Path)

  /** A write that got past the guards: the workbook, what was in it before, where its backup goes, and
      whether the call returned that as its `rollback_ref`. */
  datatype Attempt = Attempt(path: Path, content: Workbook, backup: Path, returned: bool)

  datatype History = History(files: Files, attempts: seq<Attempt>)

  /** Only workbooks are proposed on, and rolled back to. */
  function UndoStep(env: Env, h: History, op: UndoOp): History {
    match op
    case DoApply(p, io) =>
      if !Openable(p.path) || TempOf(p.path, io.tmp) in h.files then h
      else
        var (after, r) := Applied(env, h.files, p, io);
        History(after,
                if Unwritten(env, h.files, p).None?
                then h.attempts + [Attempt(p.path, h.files[p.path], BackupOf(p.path, env.prefix8(h.files[p.path])),
                                           r.Some? && r.value.Success?)]
                else h.attempts)
    case DoRollback(backup, target) =>
      if !Openable(target) then h else h.(files := RolledBack(env, h.files, backup, target).GetOr(h.files))
  }

  function UndoRun(env: Env, files: Files, ops: seq<UndoOp>): History {
    if |ops| == 0 then History(files, [])
    else UndoStep(env, UndoRun(env, files, ops[..|ops| - 1]), ops[|ops| - 1])
  }

  /** Digest prefixes have eight digits and tell apart the versions of one workbook that the run wrote
      over. */
  ghost predicate PrefixesDistinguish(env: Env, attempts: seq<Attempt>) {
    && (forall w :: |env.prefix8(w)| == 8)
    && forall i, j | 0 <= i < |attempts| && 0 <= j < |attempts| && attempts[i].path == attempts[j].path
                     && env.prefix8(attempts[i].content) == env.prefix8(attempts[j].content) ::
         attempts[i].content == attempts[j].content
  }

  /** Backup files from before the run hold what their names say. */
  ghost predicate EarlierBackupsFaithful(files: Files, attempts: seq<Attempt>) {
    forall i | 0 <= i < |attempts| && attempts[i].backup in files :: files[attempts[i].backup] == attempts[i].content
  }

  /** Where every backup comes from. */
  ghost predicate Traced(env: Env, initial: Files, h: History) {
    && (forall i | 0 <= i < |h.attempts| ::
          && Openable(h.attempts[i].path) && Allowed(env, h.attempts[i].path)
          && h.attempts[i].backup == BackupOf(h.attempts[i].path, env.prefix8(h.attempts[i].content))
          && (h.attempts[i].returned ==> h.attempts[i].backup in h.files))
    && (forall q | q in initial && !Openable(q) :: q in h.files && h.files[q] == initial[q])
    && (forall q | q in h.files && q !in initial && !Openable(q) :: MadeBy(h, q))
  }

  ghost predicate MadeBy(h: History, q: Path)
    requires q in h.files
  {
    exists i | 0 <= i < |h.attempts| :: h.attempts[i].backup == q && h.attempts[i].content == h.files[q]
  }

  lemma MadeStays(g: History, h: History, q: Path)
    requires q in h.files && MadeBy(h, q) && q in g.files && g.files[q] == h.files[q]
    requires h.attempts <= g.attempts
    ensures MadeBy(g, q)
  {
    var i :| 0 <= i < |h.attempts| && h.attempts[i].backup == q && h.attempts[i].content == h.files[q];
    assert g.attempts[i] == h.attempts[i];
  }

  lemma WriteTraced(env: Env, initial: Files, h: History, w: Write<Workbook>, returned: bool)
    requires Traced(env, initial, h) && Apart(h.files, w)
    requires Openable(w.path) && Allowed(env, w.path) && Openable(w.temp) && !Openable(w.backup)
    requires w.backup == BackupOf(w.path, env.prefix8(h.files[w.path]))
    requires returned ==> WriteResult(h.files, w).1.Completed?
    ensures Traced(env, initial, History(WriteResult(h.files, w).0,
                                         h.attempts + [Attempt(w.path, h.files[w.path], w.backup, returned)]))
  {
    var g := History(WriteResult(h.files, w).0, h.attempts + [Attempt(w.path, h.files[w.path], w.backup, returned)]);
    WriteAtomic(h.files, w);
    WriteFiles(h.files, w);
    WriteEnds(h.files, w);
    forall q | q in h.files && !Openable(q) ensures q in g.files && g.files[q] == h.files[q] {
    }
    forall q | q in g.files && q !in initial && !Openable(q) ensures MadeBy(g, q) {
      if q in h.files {
        MadeStays(g, h, q);
      } else {
        assert q == w.backup && g.attempts[|h.attempts|].backup == q;
      }
    }
  }

  lemma ApplyTraced(env: Env, initial: Files, h: History, p: Proposal, io: Io)
    requires Traced(env, initial, h)
    ensures Traced(env, initial, UndoStep(env, h, DoApply(p, io)))
  {
    if Openable(p.path) && TempOf(p.path, io.tmp) !in h.files && Unwritten(env, h.files, p).None? {
      var w := WriteOf(env, h.files[p.path], p, io);
      var returned := Answer(p, w, WriteResult(h.files, w).1).Some?
          && Answer(p, w, WriteResult(h.files, w).1).value.Success?;
      WriteFits(env, h.files, p, io);
      WriteTraced(env, initial, h, w, returned);
      ApplyAttempts(env, h, p, io, w, returned);
    }
  }

  lemma WriteFits(env: Env, files: Files, p: Proposal, io: Io)
    requires p.path in files && Openable(p.path) && TempOf(p.path, io.tmp) !in files
    ensures var w := WriteOf(env, files[p.path], p, io);
            Apart(files, w) && Openable(w.temp) && !Openable(w.backup)
                && w.backup == BackupOf(w.path, env.prefix8(files[w.path]))
  {
    PathsApart(p.path, io.tmp, env.prefix8(files[p.path]));
    BackupIsNoWorkbook(p.path, env.prefix8(files[p.path]));
  }

  /** A write that gets past the guards is one more attempt. */
  lemma ApplyAttempts(env: Env, h: History, p: Proposal, io: Io, w: Write<Workbook>, returned: bool)
    requires Openable(p.path) && TempOf(p.path, io.tmp) !in h.files && Unwritten(env, h.files, p).None?
    requires p.path in h.files && w == WriteOf(env, h.files[p.path], p, io)
    requires returned <==>
             Answer(p, w, WriteResult(h.files, w).1).Some? && Answer(p, w, WriteResult(h.files, w).1).value.Success?
    ensures UndoStep(env, h, DoApply(p, io))
            == History(WriteResult(h.files, w).0, h.attempts + [Attempt(w.path, h.files[w.path], w.backup, returned)])
    ensures returned ==> WriteResult(h.files, w).1.Completed?
  {
  }

  lemma RollbackTraced(env: Env, initial: Files, h: History, backup: Path, target: Path)
    requires Traced(env, initial, h)
    ensures Traced(env, initial, UndoStep(env, h, DoRollback(backup, target)))
  {
    var g := UndoStep(env, h, DoRollback(backup, target));
    forall q | q in g.files && q !in initial && !Openable(q) ensures MadeBy(g, q) {
      MadeStays(g, h, q);
    }
  }

  lemma {:induction false} RunTraced(env: Env, files: Files, ops: seq<UndoOp>)
    ensures Traced(env, files, UndoRun(env, files, ops))
  {
    if |ops| > 0 {
      RunTraced(env, files, ops[..|ops| - 1]);
      var h := UndoRun(env, files, ops[..|ops| - 1]);
      match ops[|ops| - 1]
      case DoApply(p, io) => ApplyTraced(env, files, h, p, io);
      case DoRollback(backup, target) => RollbackTraced(env, files, h, backup, target);
    }
  }

  lemma BackupNames(p: Path, a: string, q: Path, b: string)
    requires |a| == |b| && BackupOf(p, a) == BackupOf(q, b)
    ensures p == q && a == b
  {
    var n, m := BackupOf(p, a).name, BackupOf(q, b).name;
    assert |p.name| == |q.name|;
    assert n[..|p.name|] == p.name && m[..|q.name|] == q.name;
    assert n[|p.name| + 1..|p.name| + 1 + |a|] == a && m[|q.name| + 1..|q.name| + 1 + |b|] == b;
  }

  /** Multi-level undo: over any run of writes and rollbacks on workbooks, whatever faults, every
      `rollback_ref` ever returned still holds exactly the content that preceded its write, so rolling back
      to any of them, in any order, restores that version. */
  lemma EveryVersionRestorable(env: Env, files: Files, ops: seq<UndoOp>, i: nat)
    requires i < |UndoRun(env, files, ops).attempts| && UndoRun(env, files, ops).attempts[i].returned
    requires PrefixesDistinguish(env, UndoRun(env, files, ops).attempts)
    requires EarlierBackupsFaithful(files, UndoRun(env, files, ops).attempts)
    ensures var h := UndoRun(env, files, ops);
            var a := h.attempts[i];
            && a.backup in h.files && h.files[a.backup] == a.content
            && RolledBack(env, h.files, a.backup, a.path) == Some(h.files[a.path := a.content])
  {
    RunTraced(env, files, ops);
    var h := UndoRun(env, files, ops);
    var a := h.attempts[i];
    BackupIsNoWorkbook(a.path, env.prefix8(a.content));
    if a.backup !in files {
      assert MadeBy(h, a.backup);
      var j :| 0 <= j < |h.attempts| && h.attempts[j].backup == a.backup && h.attempts[j].content == h.files[a.backup];
      BackupNames(a.path, env.prefix8(a.content), h.attempts[j].path, env.prefix8(h.attempts[j].content));
    }
  }
}
