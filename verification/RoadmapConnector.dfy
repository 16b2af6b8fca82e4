/** The Excel connector over a store of workbooks (connectors/excel_roadmap.py): propose, apply,
    rollback. */
module RoadmapConnector {
  import opened Wrappers
  import opened Lexicons
  import opened Workbooks
  import opened RowMatching
  import opened FileWrites

  type Files = map<Path, Workbook>

  /** SHA-256, taken to be injective: equal digests, equal contents. */
  datatype Digest = Sha256(content: Workbook)

  /** What a connector is configured with; `prefix8` is the first eight digits of a content's digest. */
  datatype Env = Env(lex: Lexicon, root: seq<string>, prefix8: Workbook -> string)

  predicate Allowed(env: Env, p: Path) {
    env.root <= p.dir
  }

  function LowerAscii(s: string): string {
    if |s| == 0 then "" else [if 'A' <= s[0] <= 'Z' then s[0] - 'A' + 'a' else s[0]] + LowerAscii(s[1..])
  }

  /** The extensions openpyxl loads. */
  predicate Openable(p: Path) {
    |p.name| > 5 && LowerAscii(p.name[|p.name| - 5..]) in {".xlsx", ".xlsm", ".xltx", ".xltm"}
  }

  predicate Discoverable(env: Env, p: Path) {
    Allowed(env, p) && EndsWith(p.name, ".xlsx") && !("~$" <= p.name)
  }

  /** `discover`. */
  function Discover(env: Env, files: Files): set<Path> {
    set p | p in files && Discoverable(env, p)
  }

  lemma {:induction false} LowerLast(s: string)
    requires |s| > 0 && s[|s| - 1] == 'k'
    ensures |LowerAscii(s)| == |s| && LowerAscii(s)[|s| - 1] == 'k'
  {
    if |s| > 1 {
      LowerLast(s[1..]);
    }
  }

  /** A backup is neither opened as a workbook nor discovered. */
  lemma BackupIsNoWorkbook(p: Path, prefix: string)
    ensures !Openable(BackupOf(p, prefix)) && !EndsWith(BackupOf(p, prefix).name, ".xlsx")
  {
    var name := BackupOf(p, prefix).name;
    assert name[|name| - 4..] == ".bak";
    var tail := name[|name| - 5..];
    assert tail[4] == 'k' && ".xlsx"[4] == 'x';
    LowerLast(tail);
    assert LowerAscii(tail)[4] == 'k';
  }

  // ------------------------------------------------------------------ propose

  datatype Change = Change(sheet: string, row: nat, col: nat, before: RoadmapStatus, after: RoadmapStatus,
                           beforeColor: string, afterColor: string)

  datatype Proposal = Proposal(path: Path, fingerprint: Digest, schema: Schema, score: real, item: RoadmapItem,
                               change: Change, alreadyApplied: bool)

  datatype Ask = Ask(query: Query, desired: RoadmapStatus, hint: string)

  datatype ProposeError = NotAllowed | Unreadable | SchemaCount(found: nat) | RowNotFound | RowAmbiguous

  function Assemble(path: Path, fingerprint: Digest, schema: Schema, item: RoadmapItem, score: real,
                    desired: RoadmapStatus): Proposal {
    Proposal(path, fingerprint, schema, score, item,
             Change(item.sheet, item.row, item.col, item.status, desired, item.color, Color(desired)),
             item.status == desired)
  }

  /** From the outcome of the match to the proposal or the error. */
  function Concluded(path: Path, fingerprint: Digest, schema: Schema, items: seq<RoadmapItem>, scores: seq<real>,
                     outcome: Outcome, desired: RoadmapStatus): Result<Proposal, ProposeError> {
    if outcome.Ambiguous? then Err(RowAmbiguous)
    else if outcome.NoMatch? || outcome.index >= |items| || outcome.index >= |scores| then Err(RowNotFound)
    else Ok(Assemble(path, fingerprint, schema, items[outcome.index], scores[outcome.index], desired))
  }

  /** `propose` on a workbook of content `w`. */
  function ProposeOn(lex: Lexicon, path: Path, w: Workbook, ask: Ask): Result<Proposal, ProposeError> {
    var found := DetectSchema(lex, w, ask.hint);
    if found.Err? then Err(SchemaCount(found.error))
    else
      var items := ReadItems(lex, w, found.value);
      Concluded(path, Sha256(w), found.value, items, Scores(lex, ask.query, items),
                MatchRow(lex, ask.query, items, THRESHOLD, MARGIN), ask.desired)
  }

  function Propose(env: Env, files: Files, path: Path, ask: Ask): Result<Proposal, ProposeError> {
    if !Allowed(env, path) then Err(NotAllowed)
    else if path !in files || !Openable(path) then Err(Unreadable)
    else ProposeOn(env.lex, path, files[path], ask)
  }

  // ------------------------------------------------------------------ apply

  datatype ErrorCode = PathNotAllowed | WorkbookMissing | FileChanged | Unknown

  datatype Diff = Diff(path: Path, before: Digest, after: Digest, change: Change, noOp: bool)

  datatype ToolResult =
    | Success(diff: Diff, rollbackRef: Option<Path>)
    | Failure(code: ErrorCode)

  /** What the machine adds to a write: the name of the temporary directory, what saving really stores,
      and the fault. */
  datatype Io = Io(tmp: string, save: Workbook -> Workbook, fault: Fault)

  function NewContent(w: Workbook, c: Change): Workbook {
    Edited(w, c.sheet, c.row, c.col, StatusCell(c.after))
  }

  predicate Verified(lex: Lexicon, saved: Workbook, c: Change) {
    var cell := CellAt(Named(saved, c.sheet), c.row, c.col);
    lex.ParseStatus(Str(cell.value)) == Some(c.after) && cell.fill == Color(c.after)
  }

  /** The write that a proposal asks of a workbook of content `w`. */
  function WriteOf(env: Env, w: Workbook, p: Proposal, io: Io): Write<Workbook> {
    var saved := io.save(NewContent(w, p.change));
    Write(p.path, TempOf(p.path, io.tmp), BackupOf(p.path, env.prefix8(w)), saved, Verified(env.lex, saved, p.change),
          io.fault)
  }

  /** The answer of a write; a process that dies gives none. */
  function Answer(p: Proposal, w: Write<Workbook>, end: End): Option<ToolResult> {
    match end
    case Completed => Some(Success(Diff(p.path, p.fingerprint, Sha256(w.saved), p.change, false), Some(w.backup)))
    case Rejected => Some(Failure(Unknown))
    case Raised(permission) => Some(Failure(if permission then PathNotAllowed else Unknown))
    case Died => None
  }

  /** The guards of `apply`; `None` when it goes on to write. */
  function Unwritten(env: Env, files: Files, p: Proposal): Option<ToolResult> {
    if !Allowed(env, p.path) then Some(Failure(PathNotAllowed))
    else if p.path !in files then Some(Failure(WorkbookMissing))
    else if Sha256(files[p.path]) != p.fingerprint then Some(Failure(FileChanged))
    else if p.alreadyApplied then Some(Success(Diff(p.path, p.fingerprint, p.fingerprint, p.change, true), None))
    else None
  }

  /** `apply`. */
  function Applied(env: Env, files: Files, p: Proposal, io: Io): (Files, Option<ToolResult>) {
    var early := Unwritten(env, files, p);
    if early.Some? then (files, early)
    else
      var w := WriteOf(env, files[p.path], p, io);
      var (after, end) := WriteResult(files, w);
      (after, Answer(p, w, end))
  }

  /** `rollback`; `None` is the failure result. */
  function RolledBack(env: Env, files: Files, backup: Path, target: Path): Option<Files> {
    if !Allowed(env, backup) || !Allowed(env, target) || backup !in files then None
    else Some(files[target := files[backup]])
  }

  // ------------------------------------------------------------------ assumptions about the machine

  /** `mkdtemp` returns a directory that did not exist. */
  ghost predicate FreshTemp(files: Files, p: Proposal, io: Io) {
    TempOf(p.path, io.tmp) !in files
  }

  /** openpyxl saves and reloads the content it was given. */
  ghost predicate SavesFaithfully(io: Io, w: Workbook, p: Proposal) {
    io.save(NewContent(w, p.change)) == NewContent(w, p.change)
  }

  // ------------------------------------------------------------------ what a proposal promises

  lemma ConcludedFacts(path: Path, fingerprint: Digest, schema: Schema, items: seq<RoadmapItem>, scores: seq<real>,
                       outcome: Outcome, desired: RoadmapStatus)
    ensures var r := Concluded(path, fingerprint, schema, items, scores, outcome, desired);
            r.Ok? ==> && r.value.item in items
                      && r.value == Assemble(path, fingerprint, schema, r.value.item, r.value.score, desired)
  {
  }

  /** A status cell of the workbook reads as a status with a fill. */
  predicate CellShows(lex: Lexicon, w: Workbook, c: Change, status: RoadmapStatus, fill: string) {
    var s := Named(w, c.sheet);
    lex.ParseStatus(Stripped(lex, s, c.row, c.col)) == Some(status) && CellAt(s, c.row, c.col).fill == fill
  }

  lemma ProposalFound(lex: Lexicon, path: Path, w: Workbook, ask: Ask, p: Proposal)
    requires ProposeOn(lex, path, w, ask) == Ok(p)
    ensures p == Assemble(path, Sha256(w), p.schema, p.item, p.score, ask.desired)
    ensures DetectSchema(lex, w, ask.hint) == Ok(p.schema) && p.item in ReadItems(lex, w, p.schema)
  {
    var found := DetectSchema(lex, w, ask.hint);
    var items := ReadItems(lex, w, found.value);
    ConcludedFacts(path, Sha256(w), found.value, items, Scores(lex, ask.query, items),
                   MatchRow(lex, ask.query, items, THRESHOLD, MARGIN), ask.desired);
  }

  /** What a proposal says of its workbook. */
  ghost predicate Grounded(lex: Lexicon, p: Proposal) {
    var w := p.fingerprint.content;
    && SheetNamed(w, p.change.sheet).Some? && SheetNamed(w, p.change.sheet).value < |w|
    && CellShows(lex, w, p.change, p.change.before, p.change.beforeColor)
    && p.change.afterColor == Color(p.change.after)
    && (p.alreadyApplied <==> p.change.before == p.change.after)
  }

  lemma ProposalGrounded(lex: Lexicon, path: Path, w: Workbook, ask: Ask, p: Proposal)
    requires ProposeOn(lex, path, w, ask) == Ok(p)
    ensures p.path == path && p.fingerprint == Sha256(w) && Grounded(lex, p)
  {
    ProposalFound(lex, path, w, ask, p);
    ItemOrigin(lex, w, p.schema, p.item);
  }

  /** The edit changes the one cell and nothing else: same sheets, same titles, every other cell as before,
      formulas included. */
  ghost predicate OnlyCell(w: Workbook, v: Workbook, title: string, row: nat, col: nat) {
    && |v| == |w|
    && (forall k | 0 <= k < |w| :: v[k].title == w[k].title && v[k].maxRow == w[k].maxRow && v[k].maxCol == w[k].maxCol)
    && forall k, r: nat, c: nat | 0 <= k < |w| && !(SheetNamed(w, title) == Some(k) && (r, c) == (row, col)) ::
         CellAt(v[k], r, c) == CellAt(w[k], r, c)
  }

  lemma EditOnlyCell(w: Workbook, title: string, row: nat, col: nat, cell: Cell)
    requires SheetNamed(w, title).Some? && SheetNamed(w, title).value < |w|
    ensures var v := Edited(w, title, row, col, cell);
            OnlyCell(w, v, title, row, col) && CellAt(Named(v, title), row, col) == cell
  {
    var n := SheetNamed(w, title).value;
    SheetNamedIndex(w, title);
    SheetNamedSame(w, n, SetCell(w[n], row, col, cell), title);
    forall r: nat, c: nat
      ensures CellAt(SetCell(w[n], row, col, cell), r, c) == if (r, c) == (row, col) then cell else CellAt(w[n], r, c)
    {
      CellAfter(w[n], row, col, cell, r, c);
    }
  }

  lemma StatusCellShows(lex: Lexicon, w: Workbook, c: Change)
    requires Unicode(lex) && CellAt(Named(w, c.sheet), c.row, c.col) == StatusCell(c.after)
    ensures CellShows(lex, w, c, c.after, Color(c.after)) && Verified(lex, w, c)
  {
    LabelKey(lex, Named(w, c.sheet), c.row, c.col, c.after);
    LabelRoundTrip(lex, c.after);
  }

  /** What the new content is: one cell away from the old, verified, and different unless the proposal was
      already applied. */
  lemma NewContentFacts(lex: Lexicon, p: Proposal)
    requires Unicode(lex) && Grounded(lex, p)
    ensures var w, v := p.fingerprint.content, NewContent(p.fingerprint.content, p.change);
            && OnlyCell(w, v, p.change.sheet, p.change.row, p.change.col)
            && CellShows(lex, v, p.change, p.change.after, p.change.afterColor)
            && Verified(lex, v, p.change)
            && (!p.alreadyApplied ==> v != w)
  {
    var w := p.fingerprint.content;
    EditOnlyCell(w, p.change.sheet, p.change.row, p.change.col, StatusCell(p.change.after));
    StatusCellShows(lex, NewContent(w, p.change), p.change);
    ShowsOnce(lex, w, p.change, p.change.before, p.change.beforeColor, p.change.after, p.change.afterColor);
  }

  lemma ShowsOnce(lex: Lexicon, w: Workbook, c: Change, s: RoadmapStatus, f: string, t: RoadmapStatus, g: string)
    requires CellShows(lex, w, c, s, f)
    ensures CellShows(lex, w, c, t, g) ==> s == t && f == g
  {
  }

  /** When `apply` changes the workbook, it got past every guard, and the write is its own doing. */
  lemma ChangedByWrite(env: Env, files: Files, p: Proposal, io: Io)
    requires p.path in files && FreshTemp(files, p, io)
    ensures p.path in Applied(env, files, p, io).0
    ensures Applied(env, files, p, io).0[p.path] != files[p.path] ==>
              && Unwritten(env, files, p).None? && files[p.path] == p.fingerprint.content
              && Applied(env, files, p, io).0[p.path] == io.save(NewContent(files[p.path], p.change))
              && !p.alreadyApplied
  {
    if Unwritten(env, files, p).None? {
      PathsApart(p.path, io.tmp, env.prefix8(files[p.path]));
      WriteAtomic(files, WriteOf(env, files[p.path], p, io));
    }
  }

  /** What was previewed is what is written: when a proposal of `propose` changes the workbook, the file
      just before was exactly the content proposed on, its status cell read as the previewed status and
      colour, and with a faithful save the file just after differs only in that cell, which now reads as
      the previewed new status in its colour. */
  lemma PreviewedIsWritten(env: Env, files: Files, p: Proposal, io: Io)
    requires Unicode(env.lex) && Grounded(env.lex, p)
    requires p.path in files && FreshTemp(files, p, io) && SavesFaithfully(io, files[p.path], p)
    requires p.path in Applied(env, files, p, io).0 && Applied(env, files, p, io).0[p.path] != files[p.path]
    ensures var w, v := files[p.path], Applied(env, files, p, io).0[p.path];
            && w == p.fingerprint.content
            && CellShows(env.lex, w, p.change, p.change.before, p.change.beforeColor)
            && OnlyCell(w, v, p.change.sheet, p.change.row, p.change.col)
            && CellShows(env.lex, v, p.change, p.change.after, p.change.afterColor)
            && p.change.before != p.change.after
  {
    ChangedByWrite(env, files, p, io);
    NewContentFacts(env.lex, p);
  }

  // ------------------------------------------------------------------ faults

  /** Fault atomicity of `apply`: wherever it stops, the workbook holds the old content or a verified new
      one, and in the second case a backup of the old content exists, unless a file of the backup's name
      was already there with something else in it. */
  lemma FaultAtomic(env: Env, files: Files, p: Proposal, io: Io)
    requires p.path in files && FreshTemp(files, p, io)
    ensures var after := Applied(env, files, p, io).0;
            var backup := BackupOf(p.path, env.prefix8(files[p.path]));
            && p.path in after
            && (after[p.path] == files[p.path]
                || (&& Verified(env.lex, after[p.path], p.change) && backup in after
                    && (after[backup] == files[p.path] <==> (backup in files ==> files[backup] == files[p.path]))))
            && forall q | q != p.path && q != TempOf(p.path, io.tmp) && q != backup ::
                 (q in after <==> q in files) && (q in files ==> after[q] == files[q])
  {
    if Unwritten(env, files, p).None? {
      PathsApart(p.path, io.tmp, env.prefix8(files[p.path]));
      WriteAtomic(files, WriteOf(env, files[p.path], p, io));
    }
  }

  /** An exception after the replacement still answers with a failure, so a failure leaves the workbook
      alone exactly when the write, if one began, was not stopped just before its report. */
  lemma FailureLeavesWorkbookExactly(env: Env, files: Files, p: Proposal, io: Io)
    requires Unicode(env.lex) && Grounded(env.lex, p)
    requires p.path in files && FreshTemp(files, p, io) && SavesFaithfully(io, files[p.path], p)
    requires Applied(env, files, p, io).1.Some? && Applied(env, files, p, io).1.value.Failure?
    ensures p.path in Applied(env, files, p, io).0
    ensures Applied(env, files, p, io).0[p.path] == files[p.path] <==>
            !(Unwritten(env, files, p).None? && io.fault.Raises? && io.fault.step == 5)
  {
    if Unwritten(env, files, p).None? {
      PathsApart(p.path, io.tmp, env.prefix8(files[p.path]));
      WriteEnds(files, WriteOf(env, files[p.path], p, io));
      NewContentFacts(env.lex, p);
    }
  }

  /** A process that dies during a write leaves one more workbook to be discovered exactly when it died
      between the first copy and the replacement: the working copy is an .xlsx below the allowed root. A
      save that fails the verification ends the write before the later of those steps. */
  lemma DeathLeavesCandidateExactly(env: Env, files: Files, p: Proposal, io: Io)
    requires p.path in Discover(env, files) && FreshTemp(files, p, io) && Unwritten(env, files, p).None?
    requires io.fault.Dies?
    ensures var verified := Verified(env.lex, io.save(NewContent(files[p.path], p.change)), p.change);
            Discover(env, Applied(env, files, p, io).0)
            == Discover(env, files)
               + if 1 <= io.fault.step <= (if verified then 4 else 2) then {TempOf(p.path, io.tmp)} else {}
  {
    var w := WriteOf(env, files[p.path], p, io);
    PathsApart(p.path, io.tmp, env.prefix8(files[p.path]));
    BackupIsNoWorkbook(p.path, env.prefix8(files[p.path]));
    WriteFiles(files, w);
    assert Discoverable(env, w.temp) && !Discoverable(env, w.backup);
  }

  // ------------------------------------------------------------------ idempotence

  lemma ReproposeOn(lex: Lexicon, path: Path, w: Workbook, ask: Ask, p: Proposal)
    requires Unicode(lex) && ProposeOn(lex, path, w, ask) == Ok(p)
    ensures var v := NewContent(w, p.change);
            && ProposeOn(lex, path, v, ask)
               == Ok(Assemble(path, Sha256(v), p.schema, p.item.(status := ask.desired, color := Color(ask.desired)),
                       p.score, ask.desired))
            && ReadItems(lex, v, p.schema) == Restated(ReadItems(lex, w, p.schema), p.item.row, ask.desired)
  {
    ProposalFound(lex, path, w, ask, p);
    EditRecognised(lex, w, ask.hint, p.schema, p.item, ask.desired);
    ProposedFrom(lex, path, w, ask, p);
    ProposedAgain(lex, path, w, NewContent(w, p.change), ask, p, ReadItems(lex, w, p.schema));
  }

  /** The conclusion that made a proposal. */
  lemma ProposedFrom(lex: Lexicon, path: Path, w: Workbook, ask: Ask, p: Proposal)
    requires ProposeOn(lex, path, w, ask) == Ok(p)
    ensures var items := ReadItems(lex, w, p.schema);
            Concluded(path, Sha256(w), p.schema, items, Scores(lex, ask.query, items),
                      MatchRow(lex, ask.query, items, THRESHOLD, MARGIN), ask.desired) == Ok(p)
  {
    ProposalFound(lex, path, w, ask, p);
  }

  /** On a content with the same schema and the same items, but for one status, the conclusion is the same. */
  lemma ProposedAgain(lex: Lexicon, path: Path, w: Workbook, v: Workbook, ask: Ask, p: Proposal,
                      items: seq<RoadmapItem>)
    requires Concluded(path, Sha256(w), p.schema, items, Scores(lex, ask.query, items),
                       MatchRow(lex, ask.query, items, THRESHOLD, MARGIN), ask.desired) == Ok(p)
    requires DetectSchema(lex, v, ask.hint) == Ok(p.schema)
    requires ReadItems(lex, v, p.schema) == Restated(items, p.item.row, ask.desired)
    ensures ProposeOn(lex, path, v, ask)
            == Ok(Assemble(path, Sha256(v), p.schema, p.item.(status := ask.desired, color := Color(ask.desired)),
                           p.score, ask.desired))
  {
    StatusIrrelevant(lex, ask.query, items, p.item.row, ask.desired, THRESHOLD, MARGIN);
    SameScores(lex, ask.query, items, p.item.row, ask.desired);
    ConcludedRestated(path, Sha256(w), Sha256(v), p.schema, items, Scores(lex, ask.query, items),
                      MatchRow(lex, ask.query, items, THRESHOLD, MARGIN), ask.desired, p);
  }

  lemma ConcludedRestated(path: Path, before: Digest, after: Digest, schema: Schema, items: seq<RoadmapItem>,
                          scores: seq<real>,
                          outcome: Outcome, desired: RoadmapStatus, p: Proposal)
    requires Concluded(path, before, schema, items, scores, outcome, desired) == Ok(p)
    ensures Concluded(path, after, schema, Restated(items, p.item.row, desired), scores, outcome, desired)
            == Ok(Assemble(path, after, schema, p.item.(status := desired, color := Color(desired)), p.score, desired))
  {
  }

  /** A completed write discovers the same files. */
  lemma DiscoverKept(env: Env, files: Files, p: Proposal, io: Io)
    requires p.path in files && FreshTemp(files, p, io)
    requires Applied(env, files, p, io).1.Some?
    ensures Discover(env, Applied(env, files, p, io).0) == Discover(env, files)
  {
    hide Discover, WriteResult;
    if Unwritten(env, files, p).None? {
      var w := WriteOf(env, files[p.path], p, io);
      PathsApart(p.path, io.tmp, env.prefix8(files[p.path]));
      BackupIsNoWorkbook(p.path, env.prefix8(files[p.path]));
      WriteFiles(files, w);
      SameDiscovered(env, files, WriteResult(files, w).0, w.backup);
    }
  }

  /** One more file that is no workbook is not discovered. */
  lemma SameDiscovered(env: Env, files: Files, after: Files, backup: Path)
    requires files.Keys <= after.Keys <= files.Keys + {backup} && !EndsWith(backup.name, ".xlsx")
    ensures Discover(env, after) == Discover(env, files)
  {
    forall q ensures q in Discover(env, after) <==> q in Discover(env, files) {
      assert q in after <==> q in after.Keys;
      assert q in files <==> q in files.Keys;
    }
  }

  /** Idempotence through the whole pipeline: after a successful write the search discovers the same files,
      finds the same schema, the same rows up to the one status and colour, and the same row with the same
      score; it reports the change as already applied, and applying that changes no file. */
  lemma Idempotent(env: Env, files: Files, path: Path, ask: Ask, p: Proposal, io: Io, again: Io)
    requires Unicode(env.lex) && Propose(env, files, path, ask) == Ok(p) && !p.alreadyApplied
    requires FreshTemp(files, p, io) && SavesFaithfully(io, files[path], p)
    requires Applied(env, files, p, io).1.Some? && Applied(env, files, p, io).1.value.Success?
    ensures var after := Applied(env, files, p, io).0;
            var q := Assemble(path, Sha256(NewContent(files[path], p.change)), p.schema,
                              p.item.(status := ask.desired, color := Color(ask.desired)), p.score, ask.desired);
            && Discover(env, after) == Discover(env, files)
            && Propose(env, after, path, ask) == Ok(q) && q.alreadyApplied
            && ReadItems(env.lex, after[path], p.schema)
                == Restated(ReadItems(env.lex, files[path], p.schema), p.item.row, ask.desired)
            && Applied(env, after, q, again)
                == (after, Some(Success(Diff(path, q.fingerprint, q.fingerprint, q.change, true), None)))
  {
    ProposalGrounded(env.lex, path, files[path], ask, p);
    DiscoverKept(env, files, p, io);
    ReproposeOn(env.lex, path, files[path], ask, p);
    SuccessWrites(env, files, p, io);
  }

  /** A success that is no no-op has put the saved content in place, with a backup. */
  lemma SuccessWrites(env: Env, files: Files, p: Proposal, io: Io)
    requires p.path in files && FreshTemp(files, p, io) && !p.alreadyApplied
    requires Applied(env, files, p, io).1.Some? && Applied(env, files, p, io).1.value.Success?
    ensures var backup := BackupOf(p.path, env.prefix8(files[p.path]));
            && Unwritten(env, files, p).None?
            && Applied(env, files, p, io).0
               == (if backup in files then files else files[backup := files[p.path]])
                  [p.path := io.save(NewContent(files[p.path], p.change))]
            && Applied(env, files, p, io).1.value
               == Success(Diff(p.path, p.fingerprint, Sha256(io.save(NewContent(files[p.path], p.change))), p.change,
                               false),
                       Some(backup))
  {
    PathsApart(p.path, io.tmp, env.prefix8(files[p.path]));
    WriteEnds(files, WriteOf(env, files[p.path], p, io));
  }
}
