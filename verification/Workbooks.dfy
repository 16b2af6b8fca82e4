/** Workbooks as cell grids, and how the connector finds the roadmap in one
    (connectors/excel_roadmap.py: detect_schema, read_items). */
module Workbooks {
  import opened Basics
  import opened Wrappers
  import opened OrderedMaps
  import opened Lexicons

  datatype Value = Blank | Text(text: string) | Number(shown: string, zero: bool)

  /** `str(cell.value or "")`: a zero is falsy. */
  function Str(v: Value): string {
    match v
    case Blank => ""
    case Text(t) => t
    case Number(shown, zero) => if zero then "" else shown
  }

  datatype Cell = Cell(value: Value, fill: string)

  datatype Sheet = Sheet(title: string, maxRow: nat, maxCol: nat, cells: map<(nat, nat), Cell>)

  type Workbook = seq<Sheet>

  function CellAt(s: Sheet, row: nat, col: nat): Cell {
    if (row, col) in s.cells then s.cells[(row, col)] else Cell(Blank, "")
  }

  /** `workbook[title]`: the first sheet of that title. */
  function SheetNamed(w: Workbook, title: string): Option<nat> {
    if |w| == 0 then None
    else if w[0].title == title then Some(0)
    else
      match SheetNamed(w[1..], title)
      case None => None
      case Some(k) => Some(k + 1)
  }

  lemma {:induction false} SheetNamedIndex(w: Workbook, title: string)
    ensures SheetNamed(w, title).Some? ==>
            SheetNamed(w, title).value < |w| && w[SheetNamed(w, title).value].title == title
    ensures SheetNamed(w, title).None? ==> forall k | 0 <= k < |w| :: w[k].title != title
  {
    if |w| > 0 {
      SheetNamedIndex(w[1..], title);
      if w[0].title != title && SheetNamed(w[1..], title).None? {
        forall k | 0 <= k < |w| ensures w[k].title != title {
          if k > 0 {
            assert w[k] == w[1..][k - 1];
          }
        }
      }
    }
  }

  /** The named sheet, or an empty one when there is none (openpyxl raises KeyError then). */
  function Named(w: Workbook, title: string): Sheet {
    var k := SheetNamed(w, title);
    if k.Some? && k.value < |w| then w[k.value] else Sheet(title, 0, 0, map[])
  }

  function SetCell(s: Sheet, row: nat, col: nat, c: Cell): Sheet {
    s.(cells := s.cells[(row, col) := c])
  }

  /** One cell of the named sheet replaced, and nothing else. */
  function Edited(w: Workbook, title: string, row: nat, col: nat, c: Cell): Workbook {
    var k := SheetNamed(w, title);
    if k.Some? && k.value < |w| then w[k.value := SetCell(w[k.value], row, col, c)] else w
  }

  // ------------------------------------------------------------------ detect_schema

  datatype Schema = Schema(sheet: string, headerRow: nat, actionCol: nat, statusCol: nat,
                           ownerCol: Option<nat>, monthCol: Option<nat>, idCol: Option<nat>)

  function Key(lex: Lexicon, s: Sheet, row: nat, col: nat): string {
    lex.Normalize(Str(CellAt(s, row, col).value))
  }

  /** The `headers` dict after the first `cols` cells of a row, `key` giving each cell's text: a later
      column of the same text wins but keeps the earlier place. */
  function Headers(key: nat -> string, cols: nat): OrderedMap<string, nat> {
    if cols == 0 then []
    else if key(cols) != "" then Put(Headers(key, cols - 1), key(cols), cols)
    else Headers(key, cols - 1)
  }

  /** `_find_header`. */
  function FindHeader(headers: OrderedMap<string, nat>, aliases: set<string>): Option<nat> {
    if |headers| == 0 then None
    else if headers[0].key in aliases then Some(headers[0].value)
    else FindHeader(headers[1..], aliases)
  }

  /** What a row of headers makes of the alias sets, if it is a roadmap's. */
  function SchemaOf(lex: Lexicon, title: string, row: nat, headers: OrderedMap<string, nat>): Option<Schema> {
    var action := FindHeader(headers, lex.Aliases(ActionHeaders()));
    var status := FindHeader(headers, lex.Aliases(StatusHeaders()));
    if action.None? || status.None? then None
    else Some(Schema(title, row, action.value, status.value, FindHeader(headers, lex.Aliases(OwnerHeaders())),
                     FindHeader(headers, lex.Aliases(MonthHeaders())), FindHeader(headers, lex.Aliases(IdHeaders()))))
  }

  function RowKeys(lex: Lexicon, s: Sheet, row: nat): nat -> string {
    (col: nat) => Key(lex, s, row, col)
  }

  function SchemaAt(lex: Lexicon, s: Sheet, row: nat): Option<Schema> {
    SchemaOf(lex, s.title, row, Headers(RowKeys(lex, s, row), s.maxCol))
  }

  function RowSchemas(lex: Lexicon, s: Sheet): nat -> Option<Schema> {
    (row: nat) => SchemaAt(lex, s, row)
  }

  /** The results of `f` on the rows after `lo`, up to and including `hi`, in order. */
  function Collect<T>(f: nat -> Option<T>, lo: nat, hi: nat): seq<T> {
    if hi <= lo then []
    else
      match f(hi)
      case None => Collect(f, lo, hi - 1)
      case Some(x) => Collect(f, lo, hi - 1) + [x]
  }

  const HEADER_ROWS: nat := 12

  function SheetCandidates(lex: Lexicon, s: Sheet): seq<Schema> {
    Collect(RowSchemas(lex, s), 0, Min(s.maxRow, HEADER_ROWS))
  }

  /** `sheet_hint and sheet_hint.lower() not in sheet.title.lower()` skips the sheet. */
  predicate Hinted(lex: Lexicon, s: Sheet, hint: string) {
    hint == "" || Contains(lex.lower(s.title), lex.lower(hint))
  }

  function SheetFinds(lex: Lexicon, s: Sheet, hint: string): seq<Schema> {
    if Hinted(lex, s, hint) then SheetCandidates(lex, s) else []
  }

  function Candidates(lex: Lexicon, w: Workbook, hint: string): seq<Schema> {
    if |w| == 0 then []
    else
      var last := w[|w| - 1];
      Candidates(lex, w[..|w| - 1], hint) + SheetFinds(lex, last, hint)
  }

  /** The one schema of the workbook; `Err` carries how many were found. */
  function DetectSchema(lex: Lexicon, w: Workbook, hint: string): Result<Schema, nat> {
    var found := Candidates(lex, w, hint);
    if |found| == 1 then Ok(found[0]) else Err(|found|)
  }

  // ------------------------------------------------------------------ read_items

  datatype RowId = FromCell(text: string) | FromRow(sheet: string, row: nat)

  datatype RoadmapItem = RoadmapItem(rowId: RowId, action: string, owner: Option<string>, month: Option<string>,
                                     status: RoadmapStatus, row: nat, col: nat, color: string, sheet: string)

  function Stripped(lex: Lexicon, s: Sheet, row: nat, col: nat): string {
    lex.Strip(Str(CellAt(s, row, col).value))
  }

  /** The text, with an absent column and an empty text both `None`. */
  function OptionalText(text: nat -> string, col: Option<nat>): Option<string> {
    if col.None? || text(col.value) == "" then None else Some(text(col.value))
  }

  /** A row is an item when it has an action and a status that is recognised. `text` and `fill` give the
      row's stripped texts and its fills by column. */
  function RowItem(parse: string -> Option<RoadmapStatus>, text: nat -> string, fill: nat -> string,
                   schema: Schema, row: nat): Option<RoadmapItem> {
    var status := parse(text(schema.statusCol));
    if text(schema.actionCol) == "" || status.None? then None
    else
      Some(RoadmapItem(if schema.idCol.Some? then FromCell(text(schema.idCol.value)) else FromRow(schema.sheet, row),
                       text(schema.actionCol), OptionalText(text, schema.ownerCol), OptionalText(text, schema.monthCol),
                       status.value, row, schema.statusCol, fill(schema.statusCol), schema.sheet))
  }

  function Parser(lex: Lexicon): string -> Option<RoadmapStatus> {
    (t: string) => lex.ParseStatus(t)
  }

  function RowTexts(lex: Lexicon, s: Sheet, row: nat): nat -> string {
    (col: nat) => Stripped(lex, s, row, col)
  }

  function RowFills(s: Sheet, row: nat): nat -> string {
    (col: nat) => CellAt(s, row, col).fill
  }

  function ItemAt(lex: Lexicon, s: Sheet, schema: Schema, row: nat): Option<RoadmapItem> {
    RowItem(Parser(lex), RowTexts(lex, s, row), RowFills(s, row), schema, row)
  }

  function RowItems(lex: Lexicon, s: Sheet, schema: Schema): nat -> Option<RoadmapItem> {
    (row: nat) => ItemAt(lex, s, schema, row)
  }

  function ReadItems(lex: Lexicon, w: Workbook, schema: Schema): seq<RoadmapItem> {
    var s := Named(w, schema.sheet);
    Collect(RowItems(lex, s, schema), schema.headerRow, s.maxRow)
  }

  // ------------------------------------------------------------------ collecting

  lemma {:induction false} CollectSame<T>(f: nat -> Option<T>, g: nat -> Option<T>, lo: nat, hi: nat)
    requires forall r | lo < r <= hi :: f(r) == g(r)
    ensures Collect(f, lo, hi) == Collect(g, lo, hi)
  {
    if lo < hi {
      CollectSame(f, g, lo, hi - 1);
    }
  }

  /** Each result comes from a row, in row order. */
  lemma {:induction false} CollectOrigin<T>(f: nat -> Option<T>, lo: nat, hi: nat, x: T)
    requires x in Collect(f, lo, hi)
    ensures exists r | lo < r <= hi :: f(r) == Some(x)
  {
    if lo < hi {
      if x in Collect(f, lo, hi - 1) {
        CollectOrigin(f, lo, hi - 1, x);
      } else {
        assert f(hi) == Some(x);
      }
    }
  }

  lemma {:induction false} CollectRestated(f: nat -> Option<RoadmapItem>, g: nat -> Option<RoadmapItem>, lo: nat,
                                           hi: nat,
                                           row: nat, status: RoadmapStatus)
    requires forall r | lo < r <= hi :: f(r).Some? ==> f(r).value.row == r
    requires forall r | lo < r <= hi ::
            g(r) == if f(r).Some? && r == row then Some(f(r).value.(status := status, color := Color(status))) else f(r)
    ensures Collect(g, lo, hi) == Restated(Collect(f, lo, hi), row, status)
  {
    if lo < hi {
      CollectRestated(f, g, lo, hi - 1, row, status);
      assert f(hi).Some? ==> f(hi).value.row == hi;
    }
  }

  // ------------------------------------------------------------------ what detect_schema returns

  /** A header entry says which cell it came from. */
  lemma {:induction false} HeaderOrigin(key: nat -> string, cols: nat)
    ensures forall e | e in Headers(key, cols) :: 1 <= e.value <= cols && key(e.value) == e.key
  {
    if cols > 0 {
      HeaderOrigin(key, cols - 1);
      PutEntries(Headers(key, cols - 1), key(cols), cols);
    }
  }

  lemma {:induction false} PutEntries(m: OrderedMap<string, nat>, k: string, v: nat)
    ensures forall e | e in Put(m, k, v) :: e in m || e == Entry(k, v)
  {
    if |m| > 0 {
      PutEntries(m[1..], k, v);
    }
  }

  lemma {:induction false} FoundHeader(headers: OrderedMap<string, nat>, aliases: set<string>)
    ensures FindHeader(headers, aliases).Some? ==>
              exists e | e in headers :: e.key in aliases && e.value == FindHeader(headers, aliases).value
  {
    if |headers| > 0 && headers[0].key !in aliases {
      FoundHeader(headers[1..], aliases);
      if FindHeader(headers[1..], aliases).Some? {
        var e :| e in headers[1..] && e.key in aliases && e.value == FindHeader(headers[1..], aliases).value;
        assert e in headers;
      }
    } else if |headers| > 0 {
      assert headers[0] in headers;
    }
  }

  /** The columns of two roles with no alias in common are different. */
  lemma ColumnsDiffer(key: nat -> string, cols: nat, a: set<string>, b: set<string>)
    requires a !! b
    ensures var h := Headers(key, cols);
            FindHeader(h, a).Some? && FindHeader(h, b).Some? ==> FindHeader(h, a).value != FindHeader(h, b).value
  {
    HeaderOrigin(key, cols);
    FoundHeader(Headers(key, cols), a);
    FoundHeader(Headers(key, cols), b);
  }

  /** No other column of a schema is its status column. */
  ghost predicate StatusApart(schema: Schema) {
    && schema.actionCol != schema.statusCol
    && (schema.ownerCol.Some? ==> schema.ownerCol.value != schema.statusCol)
    && (schema.monthCol.Some? ==> schema.monthCol.value != schema.statusCol)
    && (schema.idCol.Some? ==> schema.idCol.value != schema.statusCol)
  }

  lemma SchemaApart(lex: Lexicon, title: string, row: nat, key: nat -> string, cols: nat)
    requires Unicode(lex) && SchemaOf(lex, title, row, Headers(key, cols)).Some?
    ensures StatusApart(SchemaOf(lex, title, row, Headers(key, cols)).value)
  {
    HeadersDisjoint(lex);
    ColumnsDiffer(key, cols, lex.Aliases(ActionHeaders()), lex.Aliases(StatusHeaders()));
    ColumnsDiffer(key, cols, lex.Aliases(OwnerHeaders()), lex.Aliases(StatusHeaders()));
    ColumnsDiffer(key, cols, lex.Aliases(MonthHeaders()), lex.Aliases(StatusHeaders()));
    ColumnsDiffer(key, cols, lex.Aliases(IdHeaders()), lex.Aliases(StatusHeaders()));
  }

  lemma SchemaAtApart(lex: Lexicon, s: Sheet, row: nat)
    requires Unicode(lex) && SchemaAt(lex, s, row).Some?
    ensures StatusApart(SchemaAt(lex, s, row).value)
  {
    SchemaApart(lex, s.title, row, RowKeys(lex, s, row), s.maxCol);
  }

  lemma CandidateApart(lex: Lexicon, s: Sheet, c: Schema)
    requires Unicode(lex) && c in SheetCandidates(lex, s)
    ensures StatusApart(c)
  {
    CollectOrigin(RowSchemas(lex, s), 0, Min(s.maxRow, HEADER_ROWS), c);
    var row: nat :| RowSchemas(lex, s)(row) == Some(c);
    SchemaAtApart(lex, s, row);
  }

  lemma {:induction false} DetectedApart(lex: Lexicon, w: Workbook, hint: string, c: Schema)
    requires Unicode(lex) && c in Candidates(lex, w, hint)
    ensures StatusApart(c)
  {
    if |w| > 0 {
      if c in Candidates(lex, w[..|w| - 1], hint) {
        DetectedApart(lex, w[..|w| - 1], hint, c);
      } else {
        CandidateApart(lex, w[|w| - 1], c);
      }
    }
  }

  // ------------------------------------------------------------------ a status edit is invisible to the search

  /** Two rows alike but for texts that are none of `keys`. */
  ghost predicate Alike(f: nat -> string, g: nat -> string, keys: set<string>) {
    forall col :: f(col) == g(col) || (f(col) !in keys && g(col) !in keys)
  }

  function Relevant(m: OrderedMap<string, nat>, keys: set<string>): OrderedMap<string, nat> {
    if |m| == 0 then []
    else (if m[0].key in keys then [m[0]] else []) + Relevant(m[1..], keys)
  }

  lemma {:induction false} RelevantPut(m: OrderedMap<string, nat>, k: string, v: nat, keys: set<string>)
    ensures Relevant(Put(m, k, v), keys) == if k in keys then Put(Relevant(m, keys), k, v) else Relevant(m, keys)
  {
    if |m| > 0 {
      RelevantPut(m[1..], k, v, keys);
      var p := Put(m, k, v);
      assert p[1..] == if m[0].key == k then m[1..] else Put(m[1..], k, v);
      if m[0].key in keys {
        assert Relevant(m, keys)[0] == m[0] && Relevant(m, keys)[1..] == Relevant(m[1..], keys);
      } else {
        assert Relevant(m, keys) == Relevant(m[1..], keys);
      }
    } else {
      assert Put(m, k, v)[1..] == [];
    }
  }

  lemma {:induction false} RelevantFind(m: OrderedMap<string, nat>, keys: set<string>, aliases: set<string>)
    requires aliases <= keys
    ensures FindHeader(Relevant(m, keys), aliases) == FindHeader(m, aliases)
  {
    if |m| > 0 {
      RelevantFind(m[1..], keys, aliases);
      if m[0].key in keys {
        assert Relevant(m, keys)[0] == m[0] && Relevant(m, keys)[1..] == Relevant(m[1..], keys);
      } else {
        assert Relevant(m, keys) == Relevant(m[1..], keys);
      }
    }
  }

  lemma {:induction false} RelevantSame(f: nat -> string, g: nat -> string, cols: nat, keys: set<string>)
    requires Alike(f, g, keys)
    ensures Relevant(Headers(f, cols), keys) == Relevant(Headers(g, cols), keys)
  {
    if cols > 0 {
      hide Relevant, Headers, Put;
      RelevantSame(f, g, cols - 1, keys);
      RelevantNext(f, cols, keys);
      RelevantNext(g, cols, keys);
    }
  }

  /** What one more column adds to the relevant headers; an empty text is none. */
  lemma RelevantNext(f: nat -> string, cols: nat, keys: set<string>)
    requires cols > 0
    ensures var before := Relevant(Headers(f, cols - 1), keys);
            Relevant(Headers(f, cols), keys) == if f(cols) != "" && f(cols) in keys then Put(before, f(cols), cols)
                else before
  {
    RelevantPut(Headers(f, cols - 1), f(cols), cols, keys);
  }

  lemma FindSame(f: nat -> string, g: nat -> string, cols: nat, keys: set<string>, aliases: set<string>)
    requires Alike(f, g, keys) && aliases <= keys
    ensures FindHeader(Headers(f, cols), aliases) == FindHeader(Headers(g, cols), aliases)
  {
    RelevantSame(f, g, cols, keys);
    RelevantFind(Headers(f, cols), keys, aliases);
    RelevantFind(Headers(g, cols), keys, aliases);
  }

  lemma SchemaOfSame(lex: Lexicon, title: string, row: nat, f: nat -> string, g: nat -> string, cols: nat)
    requires Alike(f, g, HeaderKeys(lex))
    ensures SchemaOf(lex, title, row, Headers(f, cols)) == SchemaOf(lex, title, row, Headers(g, cols))
  {
    var keys := HeaderKeys(lex);
    FindSame(f, g, cols, keys, lex.Aliases(ActionHeaders()));
    FindSame(f, g, cols, keys, lex.Aliases(StatusHeaders()));
    FindSame(f, g, cols, keys, lex.Aliases(OwnerHeaders()));
    FindSame(f, g, cols, keys, lex.Aliases(MonthHeaders()));
    FindSame(f, g, cols, keys, lex.Aliases(IdHeaders()));
  }

  ghost predicate SameKeys(lex: Lexicon, s: Sheet, t: Sheet, keys: set<string>) {
    && s.title == t.title && s.maxRow == t.maxRow && s.maxCol == t.maxCol
    && forall row: nat :: Alike(RowKeys(lex, s, row), RowKeys(lex, t, row), keys)
  }

  /** Two sheets alike but for texts that are no headers. */
  ghost predicate SameHeaders(lex: Lexicon, s: Sheet, t: Sheet) {
    SameKeys(lex, s, t, HeaderKeys(lex))
  }

  lemma SchemaSame(lex: Lexicon, s: Sheet, t: Sheet, row: nat)
    requires SameHeaders(lex, s, t)
    ensures SchemaAt(lex, s, row) == SchemaAt(lex, t, row)
  {
    SchemaOfSame(lex, s.title, row, RowKeys(lex, s, row), RowKeys(lex, t, row), s.maxCol);
  }

  lemma SheetCandidatesSame(lex: Lexicon, s: Sheet, t: Sheet)
    requires SameHeaders(lex, s, t)
    ensures SheetCandidates(lex, s) == SheetCandidates(lex, t)
  {
    forall row: nat ensures SchemaAt(lex, s, row) == SchemaAt(lex, t, row) {
      SchemaSame(lex, s, t, row);
    }
    CollectSame(RowSchemas(lex, s), RowSchemas(lex, t), 0, Min(s.maxRow, HEADER_ROWS));
  }

  lemma {:induction false} CandidatesSame(lex: Lexicon, w: Workbook, n: nat, t: Sheet, hint: string)
    requires n < |w| && SheetFinds(lex, w[n], hint) == SheetFinds(lex, t, hint)
    ensures Candidates(lex, w[n := t], hint) == Candidates(lex, w, hint)
  {
    hide *;
    var k := |w| - 1;
    CandidatesLast(lex, w[..k], w[k], hint);
    assert w == w[..k] + [w[k]];
    if n == k {
      CandidatesLast(lex, w[..k], t, hint);
      assert w[n := t] == w[..k] + [t];
    } else {
      CandidatesSame(lex, w[..k], n, t, hint);
      CandidatesLast(lex, w[..k][n := t], w[k], hint);
      assert w[n := t] == w[..k][n := t] + [w[k]];
    }
  }

  lemma CandidatesLast(lex: Lexicon, front: Workbook, s: Sheet, hint: string)
    ensures Candidates(lex, front + [s], hint) == Candidates(lex, front, hint) + SheetFinds(lex, s, hint)
  {
    assert (front + [s])[..|front|] == front;
  }

  lemma {:induction false} StripLeftEnd(lex: Lexicon, s: string)
    ensures lex.StripLeft(lex.StripLeft(s)) == lex.StripLeft(s)
    ensures |lex.StripLeft(s)| > 0 ==> !lex.space(lex.StripLeft(s)[0])
  {
    if |s| > 0 && lex.space(s[0]) {
      StripLeftEnd(lex, s[1..]);
    }
  }

  lemma {:induction false} StripRightEnd(lex: Lexicon, s: string)
    requires |s| > 0 ==> !lex.space(s[0])
    ensures var r := lex.StripRight(s); |r| > 0 ==> !lex.space(r[0]) && !lex.space(r[|r| - 1])
  {
    if |s| > 0 && lex.space(s[|s| - 1]) {
      StripRightEnd(lex, s[..|s| - 1]);
    }
  }

  lemma StripTwice(lex: Lexicon, s: string)
    ensures lex.Strip(lex.Strip(s)) == lex.Strip(s)
  {
    StripLeftEnd(lex, s);
    StripRightEnd(lex, lex.StripLeft(s));
    var r := lex.Strip(s);
    if |r| > 0 {
      StripNothing(lex, r);
    }
  }

  /** A cell whose stripped text is a status has a key that is no header. */
  lemma StatusKey(lex: Lexicon, s: Sheet, row: nat, col: nat)
    requires Unicode(lex) && lex.ParseStatus(Stripped(lex, s, row, col)).Some?
    ensures Key(lex, s, row, col) !in HeaderKeys(lex)
  {
    StripTwice(lex, Str(CellAt(s, row, col).value));
    StatusIsNoHeader(lex, Stripped(lex, s, row, col));
  }

  function StatusCell(status: RoadmapStatus): Cell {
    Cell(Text(Label(status)), Color(status))
  }

  lemma LabelStripped(lex: Lexicon, status: RoadmapStatus)
    requires Unicode(lex)
    ensures lex.Strip(Label(status)) == Label(status)
  {
    match status
    case NotDone => assert Letter('À') && Letter('e');
    case InProgress => assert Letter('E') && Letter('s');
    case Done => assert Letter('T') && Letter('é');
  }

  lemma CellAfter(s: Sheet, row: nat, col: nat, c: Cell, r: nat, k: nat)
    ensures CellAt(SetCell(s, row, col, c), r, k) == if (r, k) == (row, col) then c else CellAt(s, r, k)
  {
  }

  lemma LabelKey(lex: Lexicon, s: Sheet, row: nat, col: nat, status: RoadmapStatus)
    requires Unicode(lex) && CellAt(s, row, col) == StatusCell(status)
    ensures Stripped(lex, s, row, col) == Label(status) && lex.ParseStatus(Stripped(lex, s, row, col)) == Some(status)
    ensures Key(lex, s, row, col) !in HeaderKeys(lex)
  {
    LabelStripped(lex, status);
    LabelRoundTrip(lex, status);
    StatusKey(lex, s, row, col);
  }

  lemma EditSameKeys(lex: Lexicon, s: Sheet, row: nat, col: nat, c: Cell, keys: set<string>)
    requires Key(lex, s, row, col) !in keys && Key(lex, SetCell(s, row, col, c), row, col) !in keys
    ensures SameKeys(lex, s, SetCell(s, row, col, c), keys)
  {
    var t := SetCell(s, row, col, c);
    forall r: nat ensures Alike(RowKeys(lex, s, r), RowKeys(lex, t, r), keys) {
      forall k: nat ensures RowKeys(lex, s, r)(k) == RowKeys(lex, t, r)(k)
              || (RowKeys(lex, s, r)(k) !in keys && RowKeys(lex, t, r)(k) !in keys) {
        CellAfter(s, row, col, c, r, k);
      }
    }
  }

  /** Putting a status label where a status was leaves every header search as it was. */
  lemma StatusEditSameHeaders(lex: Lexicon, s: Sheet, row: nat, col: nat, status: RoadmapStatus)
    requires Unicode(lex) && lex.ParseStatus(Stripped(lex, s, row, col)).Some?
    ensures SameHeaders(lex, s, SetCell(s, row, col, StatusCell(status)))
  {
    CellAfter(s, row, col, StatusCell(status), row, col);
    StatusKey(lex, s, row, col);
    LabelKey(lex, SetCell(s, row, col, StatusCell(status)), row, col, status);
    EditSameKeys(lex, s, row, col, StatusCell(status), HeaderKeys(lex));
  }

  // ------------------------------------------------------------------ the items after the edit

  /** The same list with one row's status and colour changed. */
  function Restated(items: seq<RoadmapItem>, row: nat, status: RoadmapStatus): seq<RoadmapItem> {
    seq(|items|, i requires 0 <= i < |items| =>
          if items[i].row == row then items[i].(status := status, color := Color(status)) else items[i])
  }

  lemma RowItemRestated(parse: string -> Option<RoadmapStatus>, text: nat -> string, fill: nat -> string,
                        text': nat -> string, fill': nat -> string, schema: Schema, row: nat, status: RoadmapStatus)
    requires StatusApart(schema) && parse(text(schema.statusCol)).Some?
    requires forall c | c != schema.statusCol :: text'(c) == text(c)
    requires parse(text'(schema.statusCol)) == Some(status) && fill'(schema.statusCol) == Color(status)
    ensures var before, after := RowItem(parse, text, fill, schema, row), RowItem(parse, text', fill', schema, row);
            after == if before.Some? then Some(before.value.(status := status, color := Color(status))) else None
  {
  }

  lemma RowItemSame(parse: string -> Option<RoadmapStatus>, text: nat -> string, fill: nat -> string,
                    text': nat -> string, fill': nat -> string, schema: Schema, row: nat)
    requires forall c :: text'(c) == text(c) && fill'(c) == fill(c)
    ensures RowItem(parse, text', fill', schema, row) == RowItem(parse, text, fill, schema, row)
  {
  }

  lemma EditedTexts(lex: Lexicon, s: Sheet, row: nat, col: nat, status: RoadmapStatus)
    requires Unicode(lex)
    ensures var t := SetCell(s, row, col, StatusCell(status));
            && Parser(lex)(RowTexts(lex, t, row)(col)) == Some(status) && RowFills(t, row)(col) == Color(status)
            && forall c: nat | c != col :: RowTexts(lex, t, row)(c) == RowTexts(lex, s, row)(c)
  {
    OtherTexts(lex, s, row, col, StatusCell(status));
    StatusText(lex, SetCell(s, row, col, StatusCell(status)), row, col, status);
  }

  lemma OtherTexts(lex: Lexicon, s: Sheet, row: nat, col: nat, cell: Cell)
    ensures var t := SetCell(s, row, col, cell);
            && CellAt(t, row, col) == cell
            && forall c: nat | c != col :: RowTexts(lex, t, row)(c) == RowTexts(lex, s, row)(c)
  {
    var t := SetCell(s, row, col, cell);
    forall c: nat | c != col ensures RowTexts(lex, t, row)(c) == RowTexts(lex, s, row)(c) {
      CellAfter(s, row, col, cell, row, c);
    }
    CellAfter(s, row, col, cell, row, col);
  }

  lemma StatusText(lex: Lexicon, t: Sheet, row: nat, col: nat, status: RoadmapStatus)
    requires Unicode(lex) && CellAt(t, row, col) == StatusCell(status)
    ensures Parser(lex)(RowTexts(lex, t, row)(col)) == Some(status) && RowFills(t, row)(col) == Color(status)
  {
    LabelKey(lex, t, row, col, status);
  }

  lemma EditedRow(lex: Lexicon, s: Sheet, schema: Schema, row: nat, status: RoadmapStatus)
    requires Unicode(lex) && StatusApart(schema) && Parser(lex)(RowTexts(lex, s, row)(schema.statusCol)).Some?
    ensures var before, after := ItemAt(lex, s, schema, row), ItemAt(lex, SetCell(s, row, schema.statusCol,
            StatusCell(status)), schema, row);
            after == if before.Some? then Some(before.value.(status := status, color := Color(status))) else None
  {
    var t := SetCell(s, row, schema.statusCol, StatusCell(status));
    EditedTexts(lex, s, row, schema.statusCol, status);
    RowItemRestated(Parser(lex), RowTexts(lex, s, row), RowFills(s, row), RowTexts(lex, t, row), RowFills(t, row),
                    schema, row, status);
  }

  lemma OtherRow(lex: Lexicon, s: Sheet, schema: Schema, row: nat, c: Cell, r: nat)
    requires r != row
    ensures ItemAt(lex, SetCell(s, row, schema.statusCol, c), schema, r) == ItemAt(lex, s, schema, r)
  {
    var t := SetCell(s, row, schema.statusCol, c);
    forall k: nat ensures RowTexts(lex, t, r)(k) == RowTexts(lex, s, r)(k) && RowFills(t, r)(k) == RowFills(s, r)(k) {
      CellAfter(s, row, schema.statusCol, c, r, k);
    }
    RowItemSame(Parser(lex), RowTexts(lex, s, r), RowFills(s, r), RowTexts(lex, t, r), RowFills(t, r), schema, r);
  }

  lemma ItemAfterEdit(lex: Lexicon, s: Sheet, schema: Schema, row: nat, status: RoadmapStatus, r: nat)
    requires Unicode(lex) && StatusApart(schema) && lex.ParseStatus(Stripped(lex, s, row, schema.statusCol)).Some?
    ensures var before, after := ItemAt(lex, s, schema, r), ItemAt(lex, SetCell(s, row, schema.statusCol,
            StatusCell(status)), schema, r);
            after == if before.Some? && r == row then Some(before.value.(status := status, color := Color(status)))
                else before
  {
    if r == row {
      EditedRow(lex, s, schema, row, status);
    } else {
      OtherRow(lex, s, schema, row, StatusCell(status), r);
    }
  }

  lemma ItemPlace(lex: Lexicon, s: Sheet, schema: Schema, row: nat)
    ensures ItemAt(lex, s, schema, row).Some? ==>
              var item := ItemAt(lex, s, schema, row).value;
              && item.row == row && item.col == schema.statusCol && item.sheet == schema.sheet
              && item.color == CellAt(s, row, schema.statusCol).fill
              && lex.ParseStatus(Stripped(lex, s, row, schema.statusCol)) == Some(item.status)
  {
  }

  /** Where an item comes from, and what it says of its cell. */
  lemma ItemOrigin(lex: Lexicon, w: Workbook, schema: Schema, item: RoadmapItem)
    requires item in ReadItems(lex, w, schema)
    ensures var s := Named(w, schema.sheet);
            && schema.headerRow < item.row <= s.maxRow && item.col == schema.statusCol && item.sheet == schema.sheet
            && item.color == CellAt(s, item.row, item.col).fill
            && lex.ParseStatus(Stripped(lex, s, item.row, item.col)) == Some(item.status)
            && SheetNamed(w, schema.sheet).Some? && SheetNamed(w, schema.sheet).value < |w|
  {
    var s := Named(w, schema.sheet);
    SheetNamedIndex(w, schema.sheet);
    CollectOrigin(RowItems(lex, s, schema), schema.headerRow, s.maxRow, item);
    var row: nat :| schema.headerRow < row <= s.maxRow && ItemAt(lex, s, schema, row) == Some(item);
    ItemPlace(lex, s, schema, row);
  }

  lemma ItemsAfterEdit(lex: Lexicon, s: Sheet, schema: Schema, row: nat, status: RoadmapStatus)
    requires Unicode(lex) && StatusApart(schema) && lex.ParseStatus(Stripped(lex, s, row, schema.statusCol)).Some?
    ensures var t := SetCell(s, row, schema.statusCol, StatusCell(status));
            Collect(RowItems(lex, t, schema), schema.headerRow, s.maxRow)
            == Restated(Collect(RowItems(lex, s, schema), schema.headerRow, s.maxRow), row, status)
  {
    var t := SetCell(s, row, schema.statusCol, StatusCell(status));
    forall r: nat
      ensures ItemAt(lex, s, schema, r).Some? ==> ItemAt(lex, s, schema, r).value.row == r
      ensures ItemAt(lex, t, schema, r) == if ItemAt(lex, s, schema, r).Some? && r == row
                                            then Some(ItemAt(lex, s, schema, r).value.(status := status,
                                                color := Color(status)))
                                            else ItemAt(lex, s, schema, r)
    {
      ItemPlace(lex, s, schema, r);
      ItemAfterEdit(lex, s, schema, row, status, r);
    }
    CollectRestated(RowItems(lex, s, schema), RowItems(lex, t, schema), schema.headerRow, s.maxRow, row, status);
  }

  lemma {:induction false} SheetNamedSame(w: Workbook, n: nat, t: Sheet, title: string)
    requires n < |w| && t.title == w[n].title
    ensures SheetNamed(w[n := t], title) == SheetNamed(w, title)
  {
    if n > 0 {
      assert w[n := t][1..] == w[1..][n - 1 := t];
      SheetNamedSame(w[1..], n - 1, t, title);
    } else {
      assert w[n := t][1..] == w[1..];
    }
  }

  /** After a status edit the search finds the same schema, and the same rows up to that one status. */
  lemma EditRecognised(lex: Lexicon, w: Workbook, hint: string, schema: Schema, item: RoadmapItem,
                       status: RoadmapStatus)
    requires Unicode(lex) && DetectSchema(lex, w, hint) == Ok(schema) && item in ReadItems(lex, w, schema)
    ensures var v := Edited(w, item.sheet, item.row, item.col, StatusCell(status));
            && DetectSchema(lex, v, hint) == Ok(schema)
            && ReadItems(lex, v, schema) == Restated(ReadItems(lex, w, schema), item.row, status)
  {
    assert schema in Candidates(lex, w, hint);
    DetectedApart(lex, w, hint, schema);
    ItemOrigin(lex, w, schema, item);
    var n := SheetNamed(w, schema.sheet).value;
    var t := SetCell(w[n], item.row, item.col, StatusCell(status));
    StatusEditSameHeaders(lex, w[n], item.row, item.col, status);
    SheetCandidatesSame(lex, w[n], t);
    CandidatesSame(lex, w, n, t, hint);
    SheetNamedSame(w, n, t, schema.sheet);
    ItemsAfterEdit(lex, w[n], schema, item.row, status);
  }
}
