/** What the connector finds in a workbook, told from the cells alone (connectors/excel_roadmap.py:
    detect_schema, read_items, propose). */
module RoadmapReading {
  import opened Basics
  import opened Wrappers
  import opened OrderedMaps
  import opened Lexicons
  import opened Workbooks
  import opened RowMatching
  import opened FileWrites
  import opened RoadmapConnector

  // ------------------------------------------------------------------ headers

  /** No column up to `cols` repeats the text of this one. */
  ghost predicate LastOf(key: nat -> string, cols: nat, col: nat) {
    1 <= col <= cols && key(col) != "" && forall c | col < c <= cols :: key(c) != key(col)
  }

  lemma LastStays(key: nat -> string, cols: nat, col: nat)
    requires cols > 0 && LastOf(key, cols - 1, col) && key(col) != key(cols)
    ensures LastOf(key, cols, col)
  {
  }

  ghost predicate Covers(h: OrderedMap<string, nat>, text: string) {
    exists i | 0 <= i < |h| :: h[i].key == text
  }

  ghost predicate Distinct(h: OrderedMap<string, nat>) {
    forall i, j | 0 <= i < j < |h| :: h[i].key != h[j].key
  }

  /** The headers of a row: each text once, with the last column that has it. */
  ghost predicate OneEach(key: nat -> string, cols: nat, h: OrderedMap<string, nat>) {
    && Distinct(h)
    && (forall e | e in h :: LastOf(key, cols, e.value) && key(e.value) == e.key)
    && forall c | 1 <= c <= cols && key(c) != "" :: Covers(h, key(c))
  }

  lemma {:induction false} HeaderColumns(key: nat -> string, cols: nat)
    ensures OneEach(key, cols, Headers(key, cols))
  {
    if cols > 0 {
      HeaderColumns(key, cols - 1);
      if key(cols) != "" {
        PutColumns(key, cols, Headers(key, cols - 1));
      } else {
        BlankColumn(key, cols, Headers(key, cols - 1));
      }
    }
  }

  lemma BlankColumn(key: nat -> string, cols: nat, h: OrderedMap<string, nat>)
    requires cols > 0 && key(cols) == "" && OneEach(key, cols - 1, h)
    ensures OneEach(key, cols, h)
  {
    hide Distinct, Covers;
    forall e | e in h ensures LastOf(key, cols, e.value) {
      assert LastOf(key, cols - 1, e.value);
      LastStays(key, cols, e.value);
    }
  }

  lemma PutColumns(key: nat -> string, cols: nat, h: OrderedMap<string, nat>)
    requires cols > 0 && key(cols) != "" && OneEach(key, cols - 1, h)
    ensures OneEach(key, cols, Put(h, key(cols), cols))
  {
    PutMembers(h, key(cols), cols);
    hide Distinct, Covers, Put;
    var p := Put(h, key(cols), cols);
    forall e | e in p ensures LastOf(key, cols, e.value) && key(e.value) == e.key {
      if e != Entry(key(cols), cols) {
        assert e in h && LastOf(key, cols - 1, e.value);
        LastStays(key, cols, e.value);
      }
    }
    forall c | 1 <= c <= cols && key(c) != "" ensures Covers(p, key(c)) {
      if c < cols {
        assert Covers(h, key(c));
      }
    }
  }

  lemma PutMembers(m: OrderedMap<string, nat>, k: string, v: nat)
    requires Distinct(m)
    ensures Distinct(Put(m, k, v)) && Covers(Put(m, k, v), k)
    ensures forall e | e in Put(m, k, v) :: e == Entry(k, v) || (e in m && e.key != k)
    ensures forall text {:trigger Covers(Put(m, k, v), text)} | Covers(m, text) :: Covers(Put(m, k, v), text)
  {
    PutPlaces(m, k, v);
    hide Put;
    var p := Put(m, k, v);
    forall text | Covers(m, text) ensures Covers(p, text) {
      var i :| 0 <= i < |m| && m[i].key == text;
      assert p[i].key == text;
    }
    if |p| > |m| {
      assert p[|m|].key == k;
    } else {
      var i :| 0 <= i < |m| && m[i].key == k;
      assert p[i].key == k;
    }
  }

  /** What `m[k] = v` leaves: the entry of `k`, where it was or at the end, and the others as they were. */
  lemma {:induction false} PutPlaces(m: OrderedMap<string, nat>, k: string, v: nat)
    requires forall i, j | 0 <= i < j < |m| :: m[i].key != m[j].key
    ensures var p := Put(m, k, v);
            && |m| <= |p| <= |m| + 1
            && (forall i | 0 <= i < |m| :: p[i] == if m[i].key == k then Entry(k, v) else m[i])
            && (|p| == |m| <==> Covers(m, k))
            && (|p| > |m| ==> p[|m|] == Entry(k, v))
  {
    CoversFirst(m, k);
    if |m| > 0 && m[0].key != k {
      hide Covers;
      PutPlaces(m[1..], k, v);
      assert forall i | 0 < i < |m| :: m[i] == m[1..][i - 1];
    }
  }

  lemma CoversFirst(m: OrderedMap<string, nat>, k: string)
    ensures Covers(m, k) <==> |m| > 0 && (m[0].key == k || Covers(m[1..], k))
  {
    if |m| > 0 && m[0].key != k {
      if Covers(m, k) {
        var i :| 0 <= i < |m| && m[i].key == k;
        assert m[1..][i - 1].key == k;
      }
      if Covers(m[1..], k) {
        var i :| 0 <= i < |m[1..]| && m[1..][i].key == k;
        assert m[i + 1].key == k;
      }
    }
  }

  /** Wherever the text `b` stands, the text `a` stands before it. */
  ghost predicate Before(key: nat -> string, cols: nat, a: string, b: string) {
    forall c | 1 <= c <= cols && key(c) == b :: exists d | 1 <= d < c :: key(d) == a
  }

  /** The headers stand in the order in which their texts appear first. */
  ghost predicate InOrder(key: nat -> string, cols: nat, h: OrderedMap<string, nat>) {
    forall i, j | 0 <= i < j < |h| :: Before(key, cols, h[i].key, h[j].key)
  }

  lemma {:induction false} HeaderOrder(key: nat -> string, cols: nat)
    ensures InOrder(key, cols, Headers(key, cols))
  {
    if cols > 0 {
      hide OneEach, InOrder, Put, Before;
      HeaderOrder(key, cols - 1);
      HeaderColumns(key, cols - 1);
      if key(cols) != "" {
        PutOrder(key, cols, Headers(key, cols - 1));
      } else {
        SameOrder(key, cols, Headers(key, cols - 1));
      }
    }
  }

  lemma SameOrder(key: nat -> string, cols: nat, h: OrderedMap<string, nat>)
    requires cols > 0 && OneEach(key, cols - 1, h) && InOrder(key, cols - 1, h)
    ensures InOrder(key, cols, h)
  {
    hide Before, LastOf, Distinct, Covers;
    forall i, j | 0 <= i < j < |h| ensures Before(key, cols, h[i].key, h[j].key) {
      OneMoreColumn(key, cols, h[i], h[j].key);
    }
  }

  lemma PutOrder(key: nat -> string, cols: nat, h: OrderedMap<string, nat>)
    requires cols > 0 && key(cols) != "" && OneEach(key, cols - 1, h) && InOrder(key, cols - 1, h)
    ensures InOrder(key, cols, Put(h, key(cols), cols))
  {
    SameOrder(key, cols, h);
    PutPlaces(h, key(cols), cols);
    hide Put, Before, LastOf;
    KeptOrder(key, cols, h, Put(h, key(cols), cols));
  }

  lemma KeptOrder(key: nat -> string, cols: nat, h: OrderedMap<string, nat>, p: OrderedMap<string, nat>)
    requires cols > 0 && key(cols) != "" && OneEach(key, cols - 1, h) && InOrder(key, cols, h)
    requires |h| <= |p| <= |h| + 1 && forall i | 0 <= i < |h| :: p[i].key == h[i].key
    requires |p| > |h| ==> p[|h|].key == key(cols) && !Covers(h, key(cols))
    ensures InOrder(key, cols, p)
  {
    hide Before, OneEach, Covers;
    forall i, j | 0 <= i < j < |p| ensures Before(key, cols, p[i].key, p[j].key) {
      if j < |h| {
        assert Before(key, cols, h[i].key, h[j].key);
      } else {
        NewColumn(key, cols, h, h[i]);
      }
    }
  }

  lemma OneMoreColumn(key: nat -> string, cols: nat, e: Entry<string, nat>, b: string)
    requires cols > 0 && Before(key, cols - 1, e.key, b) && LastOf(key, cols - 1, e.value) && key(e.value) == e.key
    ensures Before(key, cols, e.key, b)
  {
  }

  lemma NewColumn(key: nat -> string, cols: nat, h: OrderedMap<string, nat>, e: Entry<string, nat>)
    requires cols > 0 && OneEach(key, cols - 1, h) && key(cols) != "" && !Covers(h, key(cols)) && e in h
    ensures Before(key, cols, e.key, key(cols))
  {
    forall c | 1 <= c <= cols && key(c) == key(cols) ensures exists d | 1 <= d < c :: key(d) == e.key {
      assert c == cols && 1 <= e.value < c;
    }
  }

  lemma {:induction false} FirstHeader(h: OrderedMap<string, nat>, aliases: set<string>) returns (i: nat)
    ensures i <= |h| && forall j | 0 <= j < i :: h[j].key !in aliases
    ensures FindHeader(h, aliases) == if i < |h| then Some(h[i].value) else None
    ensures i < |h| ==> h[i].key in aliases
  {
    if |h| == 0 || h[0].key in aliases {
      i := 0;
    } else {
      i := FirstHeader(h[1..], aliases);
      i := i + 1;
      forall j | 0 <= j < i ensures h[j].key !in aliases {
        assert j > 0 ==> h[j] == h[1..][j - 1];
      }
    }
  }

  /** Some column up to `cols` has one of these texts. */
  ghost predicate Headed(key: nat -> string, cols: nat, aliases: set<string>) {
    exists c :: 1 <= c <= cols && key(c) != "" && key(c) in aliases
  }

  /** The column of a role: it has the alias that appears first in the row, and is the last to have it. */
  ghost predicate Heads(key: nat -> string, cols: nat, aliases: set<string>, col: nat) {
    && LastOf(key, cols, col) && key(col) in aliases
    && forall c | 1 <= c <= cols && key(c) != "" && key(c) in aliases :: exists d | 1 <= d <= c :: key(d) == key(col)
  }

  /** What `_find_header` finds in the cells of a row. */
  ghost predicate Finds(key: nat -> string, cols: nat, aliases: set<string>, col: Option<nat>) {
    if col.Some? then Heads(key, cols, aliases, col.value) else !Headed(key, cols, aliases)
  }

  lemma HeaderFound(key: nat -> string, cols: nat, aliases: set<string>)
    ensures Finds(key, cols, aliases, FindHeader(Headers(key, cols), aliases))
  {
    var h := Headers(key, cols);
    HeaderColumns(key, cols);
    HeaderOrder(key, cols);
    var i := FirstHeader(h, aliases);
    hide Headers, FindHeader, LastOf;
    forall c | 1 <= c <= cols && key(c) != "" && key(c) in aliases
      ensures i < |h| && exists d | 1 <= d <= c :: key(d) == key(h[i].value)
    {
      assert Covers(h, key(c));
      var j :| 0 <= j < |h| && h[j].key == key(c);
      assert i <= j && h[i] in h;
      if i < j {
        assert Before(key, cols, h[i].key, h[j].key);
      }
    }
    if i < |h| {
      assert h[i] in h;
    }
  }

  /** A row heads a roadmap exactly when it has an action and a status column; then the schema names the columns
      of the five roles, an owner, a month or an id only if the row has one. */
  lemma SchemaMeaning(lex: Lexicon, s: Sheet, row: nat)
    ensures var r, key := SchemaAt(lex, s, row), RowKeys(lex, s, row);
            && (r.Some? <==> Headed(key, s.maxCol, lex.Aliases(ActionHeaders()))
                             && Headed(key, s.maxCol, lex.Aliases(StatusHeaders())))
            && (r.Some? ==>
                  && r.value.sheet == s.title && r.value.headerRow == row
                  && Heads(key, s.maxCol, lex.Aliases(ActionHeaders()), r.value.actionCol)
                  && Heads(key, s.maxCol, lex.Aliases(StatusHeaders()), r.value.statusCol)
                  && Finds(key, s.maxCol, lex.Aliases(OwnerHeaders()), r.value.ownerCol)
                  && Finds(key, s.maxCol, lex.Aliases(MonthHeaders()), r.value.monthCol)
                  && Finds(key, s.maxCol, lex.Aliases(IdHeaders()), r.value.idCol))
  {
    var key := RowKeys(lex, s, row);
    HeaderFound(key, s.maxCol, lex.Aliases(ActionHeaders()));
    HeaderFound(key, s.maxCol, lex.Aliases(StatusHeaders()));
    HeaderFound(key, s.maxCol, lex.Aliases(OwnerHeaders()));
    HeaderFound(key, s.maxCol, lex.Aliases(MonthHeaders()));
    HeaderFound(key, s.maxCol, lex.Aliases(IdHeaders()));
    HeadsHeaded(key, s.maxCol, lex.Aliases(ActionHeaders()));
    HeadsHeaded(key, s.maxCol, lex.Aliases(StatusHeaders()));
    hide Heads, Headed, FindHeader, Headers, RowKeys;
  }

  lemma HeadsHeaded(key: nat -> string, cols: nat, aliases: set<string>)
    ensures forall col: nat | Heads(key, cols, aliases, col) :: Headed(key, cols, aliases)
  {
  }

  // ------------------------------------------------------------------ rows

  lemma {:induction false} CollectHas<T>(f: nat -> Option<T>, lo: nat, hi: nat, r: nat, x: T)
    requires lo < r <= hi && f(r) == Some(x)
    ensures x in Collect(f, lo, hi)
  {
    if r < hi {
      CollectHas(f, lo, hi - 1, r, x);
    }
  }

  /** A cell's stripped text, `None` for an absent column and an empty text. */
  function Shown(lex: Lexicon, s: Sheet, row: nat, col: Option<nat>): Option<string> {
    if col.Some? && Stripped(lex, s, row, col.value) != "" then Some(Stripped(lex, s, row, col.value)) else None
  }

  /** The item says what the cells of its row do. */
  ghost predicate Reads(lex: Lexicon, s: Sheet, schema: Schema, item: RoadmapItem) {
    && item.action == Stripped(lex, s, item.row, schema.actionCol) != ""
    && lex.ParseStatus(Stripped(lex, s, item.row, schema.statusCol)) == Some(item.status)
    && item.owner == Shown(lex, s, item.row, schema.ownerCol)
    && item.month == Shown(lex, s, item.row, schema.monthCol)
    && item.rowId == (if schema.idCol.Some? then FromCell(Stripped(lex, s, item.row, schema.idCol.value))
                      else FromRow(schema.sheet, item.row))
    && item.col == schema.statusCol && item.color == CellAt(s, item.row, schema.statusCol).fill
    && item.sheet == schema.sheet
  }

  /** An empty cell and a zero have no text, any other its own, without the space around it; so a row whose
      action cell is empty or a zero is no item. */
  lemma TextsRead(lex: Lexicon, s: Sheet, row: nat, col: nat)
    ensures match CellAt(s, row, col).value
            case Blank => Stripped(lex, s, row, col) == ""
            case Text(t) => Stripped(lex, s, row, col) == lex.Strip(t)
            case Number(shown, zero) => Stripped(lex, s, row, col) == if zero then "" else lex.Strip(shown)
    ensures Stripped(lex, s, row, col) == "" ==>
            forall schema: Schema, item: RoadmapItem {:trigger Reads(lex, s, schema, item)} |
              schema.actionCol == col && item.row == row :: !Reads(lex, s, schema, item)
  {
  }

  lemma ItemReads(lex: Lexicon, s: Sheet, schema: Schema, row: nat, item: RoadmapItem)
    ensures ItemAt(lex, s, schema, row) == Some(item) <==> item.row == row && Reads(lex, s, schema, item)
  {
  }

  /** The items are exactly the rows below the header that have an action and a status that is recognised, and
      each says what its cells do. */
  lemma ItemsExactly(lex: Lexicon, w: Workbook, schema: Schema, item: RoadmapItem)
    ensures var s := Named(w, schema.sheet);
            item in ReadItems(lex, w, schema) <==>
            schema.headerRow < item.row <= s.maxRow && Reads(lex, s, schema, item)
  {
    hide Reads, ItemAt, Named;
    var s := Named(w, schema.sheet);
    ItemReads(lex, s, schema, item.row, item);
    if item in ReadItems(lex, w, schema) {
      CollectOrigin(RowItems(lex, s, schema), schema.headerRow, s.maxRow, item);
      var row: nat :| schema.headerRow < row <= s.maxRow && RowItems(lex, s, schema)(row) == Some(item);
      ItemReads(lex, s, schema, row, item);
    }
    if schema.headerRow < item.row <= s.maxRow && Reads(lex, s, schema, item) {
      CollectHas(RowItems(lex, s, schema), schema.headerRow, s.maxRow, item.row, item);
    }
  }

  ghost predicate Rising(items: seq<RoadmapItem>, lo: nat, hi: nat) {
    && (forall i | 0 <= i < |items| :: lo < items[i].row <= hi)
    && forall i, j | 0 <= i < j < |items| :: items[i].row < items[j].row
  }

  lemma {:induction false} CollectRises(f: nat -> Option<RoadmapItem>, lo: nat, hi: nat)
    requires forall r | lo < r <= hi :: f(r).Some? ==> f(r).value.row == r
    ensures Rising(Collect(f, lo, hi), lo, hi)
  {
    if lo < hi {
      CollectRises(f, lo, hi - 1);
      if f(hi).Some? {
        RisesOn(Collect(f, lo, hi - 1), lo, hi, f(hi).value);
      }
    }
  }

  lemma RisesOn(items: seq<RoadmapItem>, lo: nat, hi: nat, item: RoadmapItem)
    requires lo < hi && Rising(items, lo, hi - 1) && item.row == hi
    ensures Rising(items + [item], lo, hi)
  {
  }

  /** They come in row order, no row twice. */
  lemma ItemsInOrder(lex: Lexicon, w: Workbook, schema: Schema)
    ensures var items := ReadItems(lex, w, schema);
            forall i, j | 0 <= i < j < |items| :: items[i].row < items[j].row
  {
    hide ItemAt, Named;
    var s := Named(w, schema.sheet);
    var f := RowItems(lex, s, schema);
    forall r: nat | f(r).Some? ensures f(r).value.row == r {
      ItemPlace(lex, s, schema, r);
    }
    CollectRises(f, schema.headerRow, s.maxRow);
  }

  // ------------------------------------------------------------------ the one schema

  /** Upper and lower case apart, the hint is empty or part of the title. */
  ghost predicate HintFits(lex: Lexicon, title: string, hint: string) {
    hint == "" || exists a, b: string :: lex.lower(title) == a + lex.lower(hint) + b
  }

  lemma HintedExactly(lex: Lexicon, s: Sheet, hint: string)
    ensures Hinted(lex, s, hint) <==> HintFits(lex, s.title, hint)
  {
    PartExactly(lex.lower(s.title), lex.lower(hint));
    hide Contains;
  }

  lemma PartExactly(s: string, part: string)
    ensures Contains(s, part) <==> exists a, b: string :: s == a + part + b
  {
    if Contains(s, part) {
      var i :| 0 <= i <= |s| && part <= s[i..];
      Pieces(s, part, i);
    }
    if exists a, b: string :: s == a + part + b {
      var a, b: string :| s == a + part + b;
      assert s[|a|..] == part + b;
    }
  }

  lemma Pieces(s: string, part: string, i: nat)
    requires i <= |s| && part <= s[i..]
    ensures s == s[..i] + part + s[i + |part|..]
  {
    assert s[i..][|part|..] == s[i + |part|..];
  }

  /** Row `row` of sheet `k`, one of the first twelve rows, heads a roadmap, and its sheet fits the hint. */
  ghost predicate Roadmap(lex: Lexicon, w: Workbook, hint: string, k: nat, row: nat, schema: Schema) {
    && k < |w| && HintFits(lex, w[k].title, hint)
    && 1 <= row <= 12 && row <= w[k].maxRow && SchemaAt(lex, w[k], row) == Some(schema)
  }

  lemma {:induction false} CandidatesAt(lex: Lexicon, w: Workbook, hint: string, k: nat)
    requires k < |w|
    ensures |Candidates(lex, w, hint)| >= |SheetFinds(lex, w[k], hint)|
    ensures forall j | 0 <= j < k ::
            |Candidates(lex, w, hint)| >= |SheetFinds(lex, w[j], hint)| + |SheetFinds(lex, w[k], hint)|
  {
    hide SheetFinds;
    if k == |w| - 1 {
      forall j | 0 <= j < k ensures |Candidates(lex, w[..k], hint)| >= |SheetFinds(lex, w[j], hint)| {
        CandidatesAt(lex, w[..k], hint, j);
      }
    } else {
      CandidatesAt(lex, w[..|w| - 1], hint, k);
    }
  }

  lemma {:induction false} CollectTwo<T>(f: nat -> Option<T>, lo: nat, hi: nat, a: nat, b: nat)
    requires lo < a < b <= hi && f(a).Some? && f(b).Some?
    ensures |Collect(f, lo, hi)| >= 2
  {
    if b < hi {
      CollectTwo(f, lo, hi - 1, a, b);
    } else {
      CollectHas(f, lo, hi - 1, a, f(a).value);
    }
  }

  lemma RoadmapFound(lex: Lexicon, w: Workbook, hint: string, k: nat, row: nat, schema: Schema)
    requires Roadmap(lex, w, hint, k, row, schema)
    ensures k < |w| && schema in SheetFinds(lex, w[k], hint) && |SheetFinds(lex, w[k], hint)| > 0
  {
    HintedExactly(lex, w[k], hint);
    CollectHas(RowSchemas(lex, w[k]), 0, Min(w[k].maxRow, HEADER_ROWS), row, schema);
  }

  lemma {:induction false} CandidateOrigin(lex: Lexicon, w: Workbook, hint: string, schema: Schema)
      returns (k: nat, row: nat)
    requires schema in Candidates(lex, w, hint)
    ensures Roadmap(lex, w, hint, k, row, schema)
  {
    var last := |w| - 1;
    if schema in Candidates(lex, w[..last], hint) {
      k, row := CandidateOrigin(lex, w[..last], hint, schema);
    } else {
      k := last;
      HintedExactly(lex, w[k], hint);
      CollectOrigin(RowSchemas(lex, w[k]), 0, Min(w[k].maxRow, HEADER_ROWS), schema);
      row :| 0 < row <= Min(w[k].maxRow, HEADER_ROWS) && RowSchemas(lex, w[k])(row) == Some(schema);
    }
  }

  /** Two places that head a roadmap are two candidates. */
  lemma TwoRoadmaps(lex: Lexicon, w: Workbook, hint: string, k: nat, row: nat, a: Schema, j: nat, line: nat, b: Schema)
    requires Roadmap(lex, w, hint, k, row, a) && Roadmap(lex, w, hint, j, line, b) && (k, row) != (j, line)
    ensures |Candidates(lex, w, hint)| >= 2
  {
    hide *;
    RoadmapFound(lex, w, hint, k, row, a);
    RoadmapFound(lex, w, hint, j, line, b);
    CandidatesAt(lex, w, hint, k);
    CandidatesAt(lex, w, hint, j);
    if k == j {
      if row < line {
        TwoRows(lex, w, hint, k, row, a, line, b);
      } else {
        TwoRows(lex, w, hint, k, line, b, row, a);
      }
    }
  }

  lemma TwoRows(lex: Lexicon, w: Workbook, hint: string, k: nat, row: nat, a: Schema, line: nat, b: Schema)
    requires Roadmap(lex, w, hint, k, row, a) && Roadmap(lex, w, hint, k, line, b) && row < line
    ensures |SheetFinds(lex, w[k], hint)| >= 2
  {
    HintedExactly(lex, w[k], hint);
    hide Hinted, HintFits, SchemaAt, Collect;
    CollectTwo(RowSchemas(lex, w[k]), 0, Min(w[k].maxRow, HEADER_ROWS), row, line);
  }

  /** A schema is found exactly when there is one place in the workbook that heads a roadmap, and it is that
      one's. */
  lemma DetectedExactly(lex: Lexicon, w: Workbook, hint: string, schema: Schema)
    ensures DetectSchema(lex, w, hint) == Ok(schema) <==>
            exists k, row :: Roadmap(lex, w, hint, k, row, schema) && OnlyRoadmap(lex, w, hint, k, row)
  {
    if DetectSchema(lex, w, hint) == Ok(schema) {
      assert schema in Candidates(lex, w, hint);
      var k, row := CandidateOrigin(lex, w, hint, schema);
      forall j: nat, line: nat, other: Schema | Roadmap(lex, w, hint, j, line, other) ensures (j, line) == (k, row) {
        if (j, line) != (k, row) {
          TwoRoadmaps(lex, w, hint, k, row, schema, j, line, other);
        }
      }
    }
    if exists k, row :: Roadmap(lex, w, hint, k, row, schema) && OnlyRoadmap(lex, w, hint, k, row) {
      var k, row :| Roadmap(lex, w, hint, k, row, schema) && OnlyRoadmap(lex, w, hint, k, row);
      OneFound(lex, w, hint, k, row, schema);
    }
  }

  ghost predicate OnlyRoadmap(lex: Lexicon, w: Workbook, hint: string, k: nat, row: nat) {
    forall j: nat, line: nat, other: Schema | Roadmap(lex, w, hint, j, line, other) :: (j, line) == (k, row)
  }

  lemma OneFound(lex: Lexicon, w: Workbook, hint: string, k: nat, row: nat, schema: Schema)
    requires Roadmap(lex, w, hint, k, row, schema) && OnlyRoadmap(lex, w, hint, k, row)
    ensures Candidates(lex, w, hint) == [schema]
  {
    OnlySheet(lex, w, hint, k, row, schema, |w|);
    assert w[..|w|] == w;
  }

  lemma {:induction false} OnlySheet(lex: Lexicon, w: Workbook, hint: string, k: nat, row: nat, schema: Schema, n: nat)
    requires Roadmap(lex, w, hint, k, row, schema) && OnlyRoadmap(lex, w, hint, k, row) && n <= |w|
    ensures Candidates(lex, w[..n], hint) == if k < n then [schema] else []
  {
    hide *;
    if n == 0 {
      NoCandidates(lex, w, hint);
    } else {
      OnlySheet(lex, w, hint, k, row, schema, n - 1);
      FindsOne(lex, w, hint, k, row, schema, n - 1);
      CandidatesNext(lex, w, hint, n);
      assert [schema] + [] == [schema] && [] + [schema] == [schema];
    }
  }

  lemma NoCandidates(lex: Lexicon, w: Workbook, hint: string)
    ensures Candidates(lex, w[..0], hint) == []
  {
  }

  lemma CandidatesNext(lex: Lexicon, w: Workbook, hint: string, n: nat)
    requires 0 < n <= |w|
    ensures Candidates(lex, w[..n], hint) == Candidates(lex, w[..n - 1], hint) + SheetFinds(lex, w[n - 1], hint)
  {
    hide *;
    CandidatesLast(lex, w[..n - 1], w[n - 1], hint);
    assert w[..n] == w[..n - 1] + [w[n - 1]];
  }

  lemma FindsOne(lex: Lexicon, w: Workbook, hint: string, k: nat, row: nat, schema: Schema, j: nat)
    requires Roadmap(lex, w, hint, k, row, schema) && OnlyRoadmap(lex, w, hint, k, row) && j < |w|
    ensures SheetFinds(lex, w[j], hint) == if j == k then [schema] else []
  {
    HintedExactly(lex, w[j], hint);
    if HintFits(lex, w[j].title, hint) {
      forall line: nat | 0 < line <= Min(w[j].maxRow, HEADER_ROWS) && SchemaAt(lex, w[j], line).Some?
        ensures j == k && line == row
      {
        assert Roadmap(lex, w, hint, j, line, SchemaAt(lex, w[j], line).value);
      }
      CollectOne(RowSchemas(lex, w[j]), 0, Min(w[j].maxRow, HEADER_ROWS), if j == k then row else 0);
    }
  }

  lemma {:induction false} CollectOne<T>(f: nat -> Option<T>, lo: nat, hi: nat, r: nat)
    requires forall q | lo < q <= hi && f(q).Some? :: q == r
    ensures Collect(f, lo, hi) == if lo < r <= hi && f(r).Some? then [f(r).value] else []
  {
    if lo < hi {
      CollectOne(f, lo, hi - 1, r);
    }
  }

  // ------------------------------------------------------------------ proposals

  /** What `propose` answers on a workbook, told without the match: how many schemas there are if not one; no row
      when every score is below 0.62; the row that reaches 0.62 and beats every other by 0.08, with its score,
      its place, its status and colour before, and the desired ones after; and otherwise that rows are too close. */
  lemma ProposalExactly(lex: Lexicon, path: Path, w: Workbook, ask: Ask)
    ensures var r, found := ProposeOn(lex, path, w, ask), DetectSchema(lex, w, ask.hint);
            if found.Err? then r == Err(SchemaCount(found.error)) && found.error != 1
            else
              var items := ReadItems(lex, w, found.value);
              var scores := Scores(lex, ask.query, items);
              && (r == Err(RowNotFound) <==> Hopeless(scores, 0.62))
              && (r.Ok? <==> exists k :: Clear(scores, k, 0.62, 0.08))
              && (r.Err? ==> r.error in {RowNotFound, RowAmbiguous})
              && (r.Ok? ==> Proposes(lex, path, w, ask, found.value, items, r.value))
  {
    var found := DetectSchema(lex, w, ask.hint);
    if found.Ok? {
      var items := ReadItems(lex, w, found.value);
      ConcludedExactly(lex, path, w, ask, found.value, items);
    }
  }

  /** The proposal is about the row that is clearly meant. */
  ghost predicate Proposes(lex: Lexicon, path: Path, w: Workbook, ask: Ask, schema: Schema, items: seq<RoadmapItem>,
                           p: Proposal)
  {
    && (exists k: nat :: Clear(Scores(lex, ask.query, items), k, 0.62, 0.08) && items[k] == p.item)
    && p.path == path && p.fingerprint == Sha256(w) && p.schema == schema && p.score == Score(lex, ask.query, p.item)
    && p.change.sheet == p.item.sheet && p.change.row == p.item.row && p.change.col == p.item.col
    && p.change.before == p.item.status && p.change.beforeColor == p.item.color
    && p.change.after == ask.desired && p.change.afterColor == Color(ask.desired)
    && (p.alreadyApplied <==> p.item.status == ask.desired)
  }

  lemma ConcludedExactly(lex: Lexicon, path: Path, w: Workbook, ask: Ask, schema: Schema, items: seq<RoadmapItem>)
    ensures var scores := Scores(lex, ask.query, items);
            var r := Concluded(path, Sha256(w), schema, items, scores, Decide(scores, 0.62, 0.08), ask.desired);
            && (r == Err(RowNotFound) <==> Hopeless(scores, 0.62))
            && (r.Ok? <==> exists k :: Clear(scores, k, 0.62, 0.08))
            && (r.Err? ==> r.error in {RowNotFound, RowAmbiguous})
            && (r.Ok? ==> Proposes(lex, path, w, ask, schema, items, r.value))
  {
    var scores := Scores(lex, ask.query, items);
    hide Score, Decide, Hopeless;
    forall k: nat ensures Decide(scores, 0.62, 0.08) == Chosen(k) <==> Clear(scores, k, 0.62, 0.08) {
      DecideMeaning(scores, 0.62, 0.08, k);
    }
    DecideMeaning(scores, 0.62, 0.08, 0);
    match Decide(scores, 0.62, 0.08)
    case Chosen(k) => assert Clear(scores, k, 0.62, 0.08) && scores[k] == Score(lex, ask.query, items[k]);
    case _ =>
  }

  // ------------------------------------------------------------------ the allowed root

  /** Outside the root nothing is proposed, written, restored or discovered, and the refusals change no file. */
  lemma RootGuarded(env: Env, files: Files, path: Path, ask: Ask, p: Proposal, io: Io, target: Path)
    requires !(env.root <= path.dir)
    ensures Propose(env, files, path, ask) == Err(NotAllowed)
    ensures p.path == path ==> Applied(env, files, p, io) == (files, Some(Failure(PathNotAllowed)))
    ensures RolledBack(env, files, path, target).None? && RolledBack(env, files, target, path).None?
    ensures path !in Discover(env, files)
  {
  }

  /** What `apply` answers below the root: a missing workbook and one that has changed are told apart and left
      alone, a change already made is a success without a backup, and of a write that was begun the answer says
      whether it was refused the permission, failed otherwise, or went through. */
  lemma ApplyAnswers(env: Env, files: Files, p: Proposal, io: Io)
    requires env.root <= p.path.dir
    ensures var (after, r) := Applied(env, files, p, io);
            if p.path !in files then after == files && r == Some(Failure(WorkbookMissing))
            else if files[p.path] != p.fingerprint.content then after == files && r == Some(Failure(FileChanged))
            else if p.alreadyApplied then
              after == files && r == Some(Success(Diff(p.path, p.fingerprint, p.fingerprint, p.change, true), None))
            else
              var saved := io.save(NewContent(files[p.path], p.change));
              var reached := if Verified(env.lex, saved, p.change) then 5 else 2;
              r == if io.fault.Dies? && io.fault.step <= reached then None
                   else if io.fault.Raises? && io.fault.step <= reached then
                     Some(Failure(if io.fault.permission then PathNotAllowed else Unknown))
                   else if reached == 2 then Some(Failure(Unknown))
                   else
                     Some(Success(Diff(p.path, Sha256(files[p.path]), Sha256(saved), p.change, false),
                                  Some(BackupOf(p.path, env.prefix8(files[p.path])))))
  {
  }

  /** A rollback restores its target, and only that, from a backup that is there, both below the root. */
  lemma RollbackExactly(env: Env, files: Files, backup: Path, target: Path)
    ensures var r := RolledBack(env, files, backup, target);
            && (r.Some? <==> env.root <= backup.dir && env.root <= target.dir && backup in files)
            && (r.Some? ==> target in r.value && r.value[target] == files[backup]
                            && forall q | q != target ::
                                 (q in r.value <==> q in files) && (q in files ==> r.value[q] == files[q]))
  {
  }
}
