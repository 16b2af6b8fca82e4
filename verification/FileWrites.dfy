/** The write protocol of the Excel connector (connectors/excel_roadmap.py: the body of apply, rollback),
    whatever the files contain: a temporary copy is edited, saved and verified, the old content is backed
    up, the copy replaces the file. */
module FileWrites {

  /** A resolved path. */
  datatype Path = Path(dir: seq<string>, name: string)

  predicate EndsWith(s: string, suffix: string) {
    |s| >= |suffix| && s[|s| - |suffix|..] == suffix
  }

  /** The working copy in the directory `mkdtemp` made beside the file. */
  function TempOf(p: Path, tmp: string): Path {
    Path(p.dir + [tmp], p.name)
  }

  /** `prefix` is the first eight digits of the content's digest. */
  function BackupOf(p: Path, prefix: string): Path {
    Path(p.dir, p.name + "." + prefix + ".bak")
  }

  lemma PathsApart(p: Path, tmp: string, prefix: string)
    ensures TempOf(p, tmp) != p && BackupOf(p, prefix) != p && TempOf(p, tmp) != BackupOf(p, prefix)
  {
    assert |TempOf(p, tmp).dir| == |p.dir| + 1;
    assert |BackupOf(p, prefix).name| > |p.name|;
  }

  /** The steps: 0 copy to the temporary file, 1 edit and save it, 2 reload and verify it, 3 back up,
      4 replace, 5 fingerprint, diff and preview. A fault stops the write before a step: an exception is
      caught and the temporary directory removed; a process that dies removes nothing. */
  datatype Fault = NoFault | Raises(step: nat, permission: bool) | Dies(step: nat)

  predicate Hits(fault: Fault, step: nat) {
    !fault.NoFault? && fault.step == step
  }

  /** One write: the file, its temporary copy and its backup, what saving stored, and whether that passed
      the verification. */
  datatype Write<C> = Write(path: Path, temp: Path, backup: Path, saved: C, verified: bool, fault: Fault)

  datatype End = Completed | Rejected | Raised(permission: bool) | Died

  ghost predicate Apart<C>(files: map<Path, C>, w: Write<C>) {
    && w.path in files && w.temp !in files
    && w.temp != w.path && w.backup != w.path && w.temp != w.backup
  }

  function BackedUp<C>(files: map<Path, C>, w: Write<C>): map<Path, C>
    requires w.path in files
  {
    if w.backup in files then files else files[w.backup := files[w.path]]
  }

  /** The file store after the first `k` steps. */
  function Stage<C>(files: map<Path, C>, w: Write<C>, k: nat): map<Path, C>
    requires w.path in files
  {
    if k == 0 then files
    else if k == 1 then files[w.temp := files[w.path]]
    else if k <= 3 then files[w.temp := w.saved]
    else if k == 4 then BackedUp(files, w)[w.temp := w.saved]
    else BackedUp(files, w)[w.path := w.saved] - {w.temp}
  }

  /** The step at which the write ends, and how. */
  function EndOf<C>(w: Write<C>): (nat, End) {
    var cut := if w.fault.Raises? then Raised(w.fault.permission) else Died;
    if !w.fault.NoFault? && w.fault.step <= 2 then (w.fault.step, cut)
    else if !w.verified then (3, Rejected)
    else if !w.fault.NoFault? && w.fault.step <= 5 then (w.fault.step, cut)
    else (6, Completed)
  }

  function WriteResult<C>(files: map<Path, C>, w: Write<C>): (map<Path, C>, End)
    requires w.path in files
  {
    var (k, end) := EndOf(w);
    (if end.Died? then Stage(files, w, k) else Stage(files, w, k) - {w.temp}, end)
  }

  /** Stopping a write anywhere leaves the file with the old content or with the verified new one, and in
      the second case a backup exists; it holds the old content exactly when the backup's name was free or
      already held it. No other file changes, but for the temporary one. */
  lemma WriteAtomic<C>(files: map<Path, C>, w: Write<C>)
    requires Apart(files, w)
    ensures var after := WriteResult(files, w).0;
            && w.path in after
            && (after[w.path] == files[w.path] || (after[w.path] == w.saved && w.verified))
            && (after[w.path] != files[w.path] ==>
                  w.backup in after && (after[w.backup] == files[w.path] <==>
                                        (w.backup in files ==> files[w.backup] == files[w.path])))
            && (w.temp in after ==> WriteResult(files, w).1 == Died)
            && forall q | q != w.path && q != w.temp && q != w.backup ::
                    (q in after <==> q in files) && (q in files ==> after[q] == files[q])
  {
  }

  /** How each end leaves the store: complete, the new content is in place with its backup; rejected, no
      file has changed; otherwise the file changed exactly when the replacement had been made. */
  lemma WriteEnds<C>(files: map<Path, C>, w: Write<C>)
    requires Apart(files, w)
    ensures var (after, end) := WriteResult(files, w);
            && (end.Completed? ==> after == BackedUp(files, w)[w.path := w.saved])
            && (end.Rejected? ==> after == files)
            && (!end.Completed? ==>
                  && w.path in after
                  && (after[w.path] == files[w.path] <==> w.saved == files[w.path] || !Hits(w.fault, 5) || !w.verified))
            && (end.Completed? <==> w.verified && (w.fault.NoFault? || w.fault.step > 5))
  {
  }

  /** Nothing but the workbook's own backup can come of a write that does not die. */
  lemma WriteFiles<C>(files: map<Path, C>, w: Write<C>)
    requires Apart(files, w)
    ensures var (after, end) := WriteResult(files, w);
            && (!end.Died? ==> files.Keys <= after.Keys <= files.Keys + {w.backup})
            && (end.Died? ==>
                  files.Keys + (if 1 <= w.fault.step <= 4 then {w.temp} else {}) <= after.Keys
                  <= files.Keys + {w.backup} + if 1 <= w.fault.step <= 4 then {w.temp} else {})
            && (w.fault.Dies? ==> (end.Died? <==> w.fault.step <= (if w.verified then 5 else 2)))
            && (w.backup in files ==> w.backup in after && after[w.backup] == files[w.backup])
            && (w.backup in after && w.backup !in files ==> after[w.backup] == files[w.path])
  {
  }
}
