/** A roadmap of one row, which the connector finds, matches and proposes on: the assumptions of the theorems
    about the connector can be met. */
module SampleRoadmap {
  import opened Wrappers
  import opened OrderedMaps
  import opened Lexicons
  import opened Workbooks
  import opened RowMatching
  import opened FileWrites
  import opened RoadmapConnector

  /** A lexicon of the table's letters. */
  function PlainLexicon(): Lexicon {
    Lexicon((c: char) => if Letter(c) then [Base(c)] else [c], (c: char) => 'a' <= c <= 'z', (c: char) => c == ' ',
            (s: string) => s, (a: string, b: string) => if a == b then 1.0 else 0.0)
  }

  lemma PlainUnicode()
    ensures Unicode(PlainLexicon())
  {
  }

  function Grid(): Sheet {
    Sheet("r", 2, 2, map[(1, 1) := Cell(Text("action"), ""), (1, 2) := Cell(Text("status"), ""),
                         (2, 1) := Cell(Text("plan"), ""), (2, 2) := Cell(Text("À faire"), "")])
  }

  lemma PlanNormal(lex: Lexicon)
    requires Unicode(lex)
    ensures lex.Normalize("plan") == "plan" && lex.Strip("plan") == "plan" && Words("plan") == ["plan"]
  {
    assert Spells("plan", "plan");
    NormalWord(lex, "plan", "plan");
    StripNothing(lex, "plan");
    WordFirst("plan", "");
    assert "plan" + "" == "plan";
  }

  lemma TwoHeaders(key: nat -> string, a: string, b: string)
    requires key(1) == a && key(2) == b && a != "" && b != "" && a != b
    ensures Headers(key, 2) == [Entry(a, 1), Entry(b, 2)]
  {
    var one: OrderedMap<string, nat> := [Entry(a, 1)];
    assert Headers(key, 0) == [];
    assert Headers(key, 1) == one;
    assert one[1..] == [];
    assert Put(one, b, 2) == [one[0]] + Put(one[1..], b, 2);
  }

  lemma FoundInTwo(a: string, b: string, aliases: set<string>)
    ensures var h: OrderedMap<string, nat> := [Entry(a, 1), Entry(b, 2)];
            FindHeader(h, aliases) == if a in aliases then Some(1) else if b in aliases then Some(2) else None
  {
    var h: OrderedMap<string, nat> := [Entry(a, 1), Entry(b, 2)];
    var last: OrderedMap<string, nat> := [Entry(b, 2)];
    assert h[1..] == last && last[1..] == [];
    assert FindHeader(last, aliases) == if b in aliases then Some(2) else None;
  }

  lemma ActionAliases(lex: Lexicon)
    requires Unicode(lex)
    ensures "action" in lex.Aliases(ActionHeaders()) && "action" !in lex.Aliases(StatusHeaders())
  {
    HeaderNormal(lex, "action");
    var a := "action";
    assert a in ActionHeaders() && lex.Normalize(a) == "action";
    HeadersDisjoint(lex);
  }

  lemma StatusAliasKnown(lex: Lexicon)
    requires Unicode(lex)
    ensures "status" in lex.Aliases(StatusHeaders()) && lex.Normalize("status") == "status"
  {
    HeaderNormal(lex, "status");
    var a := "status";
    assert a in StatusHeaders() && lex.Normalize(a) == "status";
  }

  lemma PlanIsNoStatusHeader(a: string)
    requires a in StatusHeaders()
    ensures Plain(a) != "plan" && IsHeader(a)
  {
    assert |"status"| == 6 && |"statut"| == 6 && |"avancement"| == 10 && "etat"[0] == 'e' && |"état"| == 4;
  }

  lemma PlanIsNoAlias(lex: Lexicon)
    requires Unicode(lex)
    ensures "plan" !in lex.Aliases(StatusHeaders())
  {
    forall a | a in StatusHeaders() ensures lex.Normalize(a) != "plan" {
      PlanIsNoStatusHeader(a);
      HeaderNormal(lex, a);
    }
  }

  lemma HeaderKeysRead(lex: Lexicon)
    requires Unicode(lex)
    ensures RowKeys(lex, Grid(), 1)(1) == "action" && RowKeys(lex, Grid(), 1)(2) == "status"
  {
    HeaderNormal(lex, "action");
    HeaderNormal(lex, "status");
  }

  lemma HeaderRow(lex: Lexicon)
    requires Unicode(lex)
    ensures var s := SchemaAt(lex, Grid(), 1);
            s.Some? && s.value.sheet == "r" && s.value.headerRow == 1 && s.value.actionCol == 1
                && s.value.statusCol == 2
  {
    HeaderKeysRead(lex);
    StatusAliasKnown(lex);
    ActionAliases(lex);
    SchemaOfTwo(lex, RowKeys(lex, Grid(), 1), "action", "status");
  }

  lemma SchemaOfTwo(lex: Lexicon, key: nat -> string, a: string, b: string)
    requires key(1) == a && key(2) == b && a != "" && b != "" && a != b
    requires a in lex.Aliases(ActionHeaders()) && a !in lex.Aliases(StatusHeaders())
             && b in lex.Aliases(StatusHeaders())
    ensures var s := SchemaOf(lex, "r", 1, Headers(key, 2));
            s.Some? && s.value.sheet == "r" && s.value.headerRow == 1 && s.value.actionCol == 1
                && s.value.statusCol == 2
  {
    TwoHeaders(key, a, b);
    FoundInTwo(a, b, lex.Aliases(ActionHeaders()));
    FoundInTwo(a, b, lex.Aliases(StatusHeaders()));
  }

  lemma NoSchemaOfTwo(lex: Lexicon, key: nat -> string, a: string, b: string)
    requires key(1) == a && key(2) == b && a != "" && b != "" && a != b
    requires a !in lex.Aliases(StatusHeaders()) && b !in lex.Aliases(StatusHeaders())
    ensures SchemaOf(lex, "r", 2, Headers(key, 2)).None?
  {
    TwoHeaders(key, a, b);
    FoundInTwo(a, b, lex.Aliases(StatusHeaders()));
  }

  lemma ToDoIsNoAlias(lex: Lexicon)
    requires Unicode(lex)
    ensures lex.Normalize("À faire") == "a faire" && lex.Normalize("À faire") !in lex.Aliases(StatusHeaders())
  {
    ToDoNormal(lex);
    LabelRoundTrip(lex, NotDone);
    StatusIsNoHeader(lex, "À faire");
  }

  lemma ItemKeys(lex: Lexicon)
    requires Unicode(lex)
    ensures RowKeys(lex, Grid(), 2)(1) == "plan" && RowKeys(lex, Grid(), 2)(2) == lex.Normalize("À faire")
  {
    PlanNormal(lex);
  }

  lemma ItemRow(lex: Lexicon)
    requires Unicode(lex)
    ensures SchemaAt(lex, Grid(), 2).None?
  {
    ItemKeys(lex);
    ToDoIsNoAlias(lex);
    PlanIsNoAlias(lex);
    NoSchemaOfTwo(lex, RowKeys(lex, Grid(), 2), "plan", lex.Normalize("À faire"));
  }

  lemma SchemaFound(lex: Lexicon)
    requires Unicode(lex)
    ensures var d := DetectSchema(lex, [Grid()], "");
            d.Ok? && d.value.sheet == "r" && d.value.headerRow == 1 && d.value.actionCol == 1 && d.value.statusCol == 2
  {
    HeaderRow(lex);
    ItemRow(lex);
    var schemas := RowSchemas(lex, Grid());
    assert Collect(schemas, 0, 0) == [];
    assert Collect(schemas, 0, 1) == [SchemaAt(lex, Grid(), 1).value];
    assert SheetCandidates(lex, Grid()) == [SchemaAt(lex, Grid(), 1).value];
    assert [Grid()][..0] == [];
    assert Candidates(lex, [Grid()], "") == SheetFinds(lex, Grid(), "");
  }

  lemma TextsRead(lex: Lexicon)
    requires Unicode(lex)
    ensures RowTexts(lex, Grid(), 2)(1) == "plan" && RowTexts(lex, Grid(), 2)(2) == "À faire"
  {
    PlanNormal(lex);
    StripNothing(lex, "À faire");
  }

  lemma RowRead(parse: string -> Option<RoadmapStatus>, text: nat -> string, fill: nat -> string, schema: Schema)
    requires schema.actionCol == 1 && schema.statusCol == 2 && text(1) == "plan" && parse(text(2)) == Some(NotDone)
    ensures var item := RowItem(parse, text, fill, schema, 2);
            item.Some? && item.value.action == "plan" && item.value.status == NotDone
  {
  }

  lemma OneCollected<T>(f: nat -> Option<T>)
    requires f(2).Some?
    ensures Collect(f, 1, 2) == [f(2).value]
  {
    assert Collect(f, 1, 1) == [];
  }

  lemma ItemRead(lex: Lexicon, schema: Schema)
    requires Unicode(lex) && schema.sheet == "r" && schema.headerRow == 1 && schema.actionCol == 1
             && schema.statusCol == 2
    ensures var items := ReadItems(lex, [Grid()], schema);
            |items| == 1 && items[0].action == "plan" && items[0].status == NotDone
  {
    LabelRoundTrip(lex, NotDone);
    TextsRead(lex);
    RowRead(Parser(lex), RowTexts(lex, Grid(), 2), RowFills(Grid(), 2), schema);
    OneCollected(RowItems(lex, Grid(), schema));
  }

  lemma Matched(lex: Lexicon, items: seq<RoadmapItem>)
    requires Unicode(lex) && lex.ratio("plan", "plan") == 1.0 && |items| == 1 && items[0].action == "plan"
    ensures MatchRow(lex, Query("plan", "", ""), items, THRESHOLD, MARGIN) == Chosen(0)
  {
    PlanNormal(lex);
    var a := set w | w in Words("plan");
    assert a == {"plan"} && a * a == {"plan"} && a + a == {"plan"};
    assert "plan" <= "plan"[0..];
    assert lex.Similarity("plan", "plan") == 1.0;
    assert Scores(lex, Query("plan", "", ""), items) == [1.0];
  }

  /** The roadmap's row can be proposed as done, and has not been. */
  lemma Proposable(lex: Lexicon, path: Path) returns (p: Proposal)
    requires Unicode(lex) && lex.ratio("plan", "plan") == 1.0
    ensures ProposeOn(lex, path, [Grid()], Ask(Query("plan", "", ""), Done, "")) == Ok(p) && !p.alreadyApplied
  {
    hide DetectSchema, ReadItems, MatchRow, Grid, Unicode;
    SchemaFound(lex);
    var schema := DetectSchema(lex, [Grid()], "").value;
    ItemRead(lex, schema);
    Matched(lex, ReadItems(lex, [Grid()], schema));
    p := ProposeOn(lex, path, [Grid()], Ask(Query("plan", "", ""), Done, "")).value;
  }
}
