/** The connector object: searches that fill lists in loops, and a write that changes files one step at a
    time, each proved against the functions of `Workbooks`, `FileWrites` and `RoadmapConnector`. */
module ExcelConnector {
  import opened Basics
  import opened Wrappers
  import opened OrderedMaps
  import opened Lexicons
  import opened Workbooks
  import opened RowMatching
  import opened FileWrites
  import opened RoadmapConnector

  method ReadHeaders(lex: Lexicon, s: Sheet, row: nat) returns (headers: OrderedMap<string, nat>)
    ensures headers == Headers(RowKeys(lex, s, row), s.maxCol)
  {
    headers := [];
    for col := 1 to s.maxCol + 1
      invariant headers == Headers(RowKeys(lex, s, row), col - 1)
    {
      var key := lex.Normalize(Str(CellAt(s, row, col).value));
      if key != "" {
        headers := Put(headers, key, col);
      }
    }
  }

  method SearchSheet(lex: Lexicon, s: Sheet) returns (found: seq<Schema>)
    ensures found == SheetCandidates(lex, s)
  {
    found := [];
    for row := 1 to Min(s.maxRow, HEADER_ROWS) + 1
      invariant found == Collect(RowSchemas(lex, s), 0, row - 1)
    {
      var headers := ReadHeaders(lex, s, row);
      var schema := SchemaOf(lex, s.title, row, headers);
      assert RowSchemas(lex, s)(row) == schema;
      if schema.Some? {
        found := found + [schema.value];
      }
    }
  }

  method DetectSchemaIn(lex: Lexicon, w: Workbook, hint: string) returns (r: Result<Schema, nat>)
    ensures r == DetectSchema(lex, w, hint)
  {
    var candidates: seq<Schema> := [];
    for k := 0 to |w|
      invariant candidates == Candidates(lex, w[..k], hint)
    {
      assert w[..k + 1][..k] == w[..k];
      if Hinted(lex, w[k], hint) {
        var found := SearchSheet(lex, w[k]);
        candidates := candidates + found;
      }
    }
    assert w[..|w|] == w;
    r := if |candidates| == 1 then Ok(candidates[0]) else Err(|candidates|);
  }

  /** The results of `f` on the rows of a range, in order. */
  method CollectRows<T>(f: nat -> Option<T>, lo: nat, hi: nat) returns (found: seq<T>)
    ensures found == Collect(f, lo, hi)
  {
    found := [];
    if hi <= lo {
      return;
    }
    for row := lo + 1 to hi + 1
      invariant found == Collect(f, lo, row - 1)
    {
      var x := f(row);
      if x.Some? {
        found := found + [x.value];
      }
    }
  }

  method ReadItemsIn(lex: Lexicon, w: Workbook, schema: Schema) returns (items: seq<RoadmapItem>)
    ensures items == ReadItems(lex, w, schema)
  {
    var s := Named(w, schema.sheet);
    items := CollectRows(RowItems(lex, s, schema), schema.headerRow, s.maxRow);
  }

  /** What a match found by sorting makes of the request. */
  lemma ConcludedBy(lex: Lexicon, path: Path, w: Workbook, schema: Schema, items: seq<RoadmapItem>, ask: Ask,
                    matched: Result<RowMatch, MatchError>)
    requires match MatchRow(lex, ask.query, items, THRESHOLD, MARGIN)
             case NoMatch => matched == Err(NotFound)
             case Ambiguous(_, _) => matched.Err? && matched.error.TooClose?
             case Chosen(k) => k < |items| && matched == Ok(RowMatch(items[k], Score(lex, ask.query, items[k])))
    ensures Concluded(path, Sha256(w), schema, items, Scores(lex, ask.query, items),
                      MatchRow(lex, ask.query, items, THRESHOLD, MARGIN), ask.desired)
            == if matched.Err? then Err(if matched.error.NotFound? then RowNotFound else RowAmbiguous)
               else Ok(Assemble(path, Sha256(w), schema, matched.value.item, matched.value.score, ask.desired))
  {
  }

  /** `propose`, once the workbook is open. */
  method ProposeIn(lex: Lexicon, path: Path, w: Workbook, ask: Ask) returns (r: Result<Proposal, ProposeError>)
    ensures r == ProposeOn(lex, path, w, ask)
  {
    var found := DetectSchemaIn(lex, w, ask.hint);
    if found.Err? {
      return Err(SchemaCount(found.error));
    }
    var schema := found.value;
    var items := ReadItemsIn(lex, w, schema);
    var matched := MatchRowBySorting(lex, ask.query, items, THRESHOLD, MARGIN);
    ConcludedBy(lex, path, w, schema, items, ask, matched);
    if matched.Err? {
      return Err(if matched.error.NotFound? then RowNotFound else RowAmbiguous);
    }
    r := Ok(Assemble(path, Sha256(w), schema, matched.value.item, matched.value.score, ask.desired));
  }

  class ExcelRoadmapConnector {
    const env: Env
    var files: Files

    constructor (env: Env, files: Files)
      ensures this.env == env && this.files == files
    {
      this.env, this.files := env, files;
    }

    method ProposeChange(path: Path, ask: Ask) returns (r: Result<Proposal, ProposeError>)
      ensures r == Propose(env, files, path, ask)
    {
      if !Allowed(env, path) {
        return Err(NotAllowed);
      }
      if path !in files || !Openable(path) {
        return Err(Unreadable);
      }
      r := ProposeIn(env.lex, path, files[path], ask);
    }

    /** The first half of the `try` block of `apply`: the temporary copy, edited, saved and verified. `w` names
        the write it performs. */
    method EditCopy(p: Proposal, io: Io, ghost w: Write<Workbook>) returns (end: Option<End>)
      requires p.path in files && FreshTemp(files, p, io)
      requires (p.path, TempOf(p.path, io.tmp), io.fault) == (w.path, w.temp, w.fault)
      requires w.saved == io.save(NewContent(files[p.path], p.change))
               && (w.verified <==> Verified(env.lex, w.saved, p.change))
      modifies this
      ensures end.Some? ==> files == Stage(old(files), w, EndOf(w).0) && end.value == EndOf(w).1
      ensures end.None? ==>
              files == old(files)[w.temp := w.saved] && w.verified && (io.fault.NoFault? || io.fault.step > 2)
    {
      var temp := TempOf(p.path, io.tmp);
      var cut := if io.fault.Raises? then Raised(io.fault.permission) else Died;
      if Hits(io.fault, 0) {
        return Some(cut);
      }
      files := files[temp := files[p.path]];
      if Hits(io.fault, 1) {
        return Some(cut);
      }
      files := files[temp := io.save(NewContent(files[temp], p.change))];
      assert files == old(files)[temp := w.saved];
      if Hits(io.fault, 2) {
        return Some(cut);
      }
      if !Verified(env.lex, files[temp], p.change) {
        return Some(Rejected);
      }
      end := None;
    }

    /** The second half: the backup and the replacement; `was` is the store before the first. */
    method Install(path: Path, temp: Path, backup: Path, fault: Fault, ghost was: Files, ghost w: Write<Workbook>)
      returns (end: End)
      requires Apart(was, w) && (path, temp, backup, fault) == (w.path, w.temp, w.backup, w.fault)
      requires files == was[temp := w.saved] && w.verified && (fault.NoFault? || fault.step > 2)
      modifies this
      ensures files == Stage(was, w, EndOf(w).0) && end == EndOf(w).1
    {
      var cut := if fault.Raises? then Raised(fault.permission) else Died;
      if Hits(fault, 3) {
        return cut;
      }
      if backup !in files {
        files := files[backup := files[path]];
      }
      assert files == BackedUp(was, w)[temp := w.saved];
      if Hits(fault, 4) {
        return cut;
      }
      files := files[path := files[temp]] - {temp};
      assert files == BackedUp(was, w)[path := w.saved] - {temp};
      if Hits(fault, 5) {
        return cut;
      }
      end := Completed;
    }

    /** The `try` block of `apply`. */
    method TrySteps(p: Proposal, io: Io, ghost w: Write<Workbook>) returns (end: End)
      requires p.path in files && FreshTemp(files, p, io)
      requires w == WriteOf(env, files[p.path], p, io)
      modifies this
      ensures files == Stage(old(files), w, EndOf(w).0) && end == EndOf(w).1
    {
      ghost var was := files;
      var backup := BackupOf(p.path, env.prefix8(files[p.path]));
      PathsApart(p.path, io.tmp, env.prefix8(files[p.path]));
      var early := EditCopy(p, io, w);
      if early.Some? {
        return early.value;
      }
      end := Install(p.path, TempOf(p.path, io.tmp), backup, io.fault, was, w);
    }

    method Apply(p: Proposal, io: Io) returns (r: Option<ToolResult>)
      requires FreshTemp(files, p, io)
      modifies this
      ensures (files, r) == Applied(env, old(files), p, io)
    {
      if !Allowed(env, p.path) {
        return Some(Failure(PathNotAllowed));
      }
      if p.path !in files {
        return Some(Failure(WorkbookMissing));
      }
      var current := Sha256(files[p.path]);
      if current != p.fingerprint {
        return Some(Failure(FileChanged));
      }
      if p.alreadyApplied {
        return Some(Success(Diff(p.path, current, current, p.change, true), None));
      }
      ghost var was := files;
      var w := WriteOf(env, files[p.path], p, io);
      var end := TrySteps(p, io, w);
      if !end.Died? {
        files := files - {TempOf(p.path, io.tmp)};
      }
      assert (files, end) == WriteResult(was, w);
      r := Answer(p, w, end);
    }

    method Rollback(backup: Path, target: Path) returns (ok: bool)
      modifies this
      ensures ok <==> RolledBack(env, old(files), backup, target).Some?
      ensures files == RolledBack(env, old(files), backup, target).GetOr(old(files))
    {
      if !Allowed(env, backup) || !Allowed(env, target) || backup !in files {
        return false;
      }
      files := files[target := files[backup]];
      ok := true;
    }
  }
}
