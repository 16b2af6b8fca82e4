/** Text as the Excel connector reads it (connectors/excel_roadmap.py): normalisation, the status and
    header tables, and why they do not collide. */
module Lexicons {
  import opened Basics
  import opened Wrappers

  datatype RoadmapStatus = NotDone | InProgress | Done

  function StatusAliases(): map<string, RoadmapStatus> { map[
    "not done" := NotDone, "not_done" := NotDone, "todo" := NotDone, "to do" := NotDone,
    "a faire" := NotDone, "à faire" := NotDone, "non fait" := NotDone,
    "in progress" := InProgress, "in_progress" := InProgress, "doing" := InProgress, "en cours" := InProgress,
    "done" := Done, "complete" := Done, "completed" := Done, "termine" := Done, "terminé" := Done, "fait" := Done] }

  function Label(s: RoadmapStatus): string {
    match s case NotDone => "À faire" case InProgress => "En cours" case Done => "Terminé"
  }

  function Color(s: RoadmapStatus): string {
    match s case NotDone => "F4CCCC" case InProgress => "FFF2CC" case Done => "D9EAD3"
  }

  function ActionHeaders(): set<string> { {"action", "actions", "task", "tache", "tâche", "description", "work item"} }
  function StatusHeaders(): set<string> { {"status", "statut", "etat", "état", "avancement"} }
  function OwnerHeaders(): set<string> { {"owner", "responsable", "pilote"} }
  function MonthHeaders(): set<string> { {"month", "mois", "periode", "période"} }
  function IdHeaders(): set<string> { {"id", "key", "cle", "clé", "action id"} }

  /** `split()` of a string whose only white space is the space. */
  function Words(s: string): seq<string> {
    if |s| == 0 then []
    else
      var rest := Words(s[1..]);
      if s[0] == ' ' then rest
      else if |s| == 1 || s[1] == ' ' || |rest| == 0 then [[s[0]]] + rest
      else [[s[0]] + rest[0]] + rest[1..]
  }

  function Replace(s: string, from: char, to: char): string {
    if |s| == 0 then "" else [if s[0] == from then to else s[0]] + Replace(s[1..], from, to)
  }

  predicate Contains(s: string, part: string) {
    exists i | 0 <= i <= |s| :: part <= s[i..]
  }

  /** The Unicode tables and the string matcher of the Python library: `fold` is what lower-casing, NFKD
      and dropping combining marks make of one character, `ratio` is SequenceMatcher's. */
  datatype Lexicon = Lexicon(fold: char -> string, alnum: char -> bool, space: char -> bool,
                             lower: string -> string, ratio: (string, string) -> real) {

    function StripLeft(s: string): string {
      if |s| > 0 && space(s[0]) then StripLeft(s[1..]) else s
    }

    function StripRight(s: string): string {
      if |s| > 0 && space(s[|s| - 1]) then StripRight(s[..|s| - 1]) else s
    }

    function Strip(s: string): string {
      StripRight(StripLeft(s))
    }

    function Folded(s: string): string {
      if |s| == 0 then "" else fold(s[0]) + Folded(s[1..])
    }

    function Cleaned(s: string): string {
      if |s| == 0 then "" else [if alnum(s[0]) then s[0] else ' '] + Cleaned(s[1..])
    }

    /** `_normalize`. */
    function Normalize(s: string): string {
      Join(Words(Cleaned(Folded(Strip(s)))))
    }

    function ParseStatus(s: string): Option<RoadmapStatus> {
      var key := Replace(Replace(Normalize(s), '-', ' '), '_', ' ');
      if key in StatusAliases() then Some(StatusAliases()[key]) else None
    }

    function Aliases(raw: set<string>): set<string> {
      set a | a in raw :: Normalize(a)
    }

    /** `action_similarity`. */
    function Similarity(query: string, candidate: string): real {
      var left, right := Normalize(query), Normalize(candidate);
      var a, b := set w | w in Words(left), set w | w in Words(right);
      var tokens := |a * b| as real / (if |a + b| >= 1 then |a + b| else 1) as real;
      var containment := if Contains(right, left) || Contains(left, right) then 1.0 else 0.0;
      ratio(left, right) * 0.55 + tokens * 0.35 + containment * 0.10
    }
  }

  // ------------------------------------------------------------------ what the tables need of Unicode

  /** The letters that occur in the tables. */
  predicate Letter(c: char) {
    'a' <= c <= 'z' || c in {'E', 'T', 'À', 'â', 'é'}
  }

  function Base(c: char): char {
    match c
    case 'E' => 'e'
    case 'T' => 't'
    case 'À' => 'a'
    case 'â' => 'a'
    case 'é' => 'e'
    case _ => c
  }

  /** The facts of the Unicode database about the characters that occur in the tables. */
  ghost predicate Unicode(lex: Lexicon) {
    && (forall c | Letter(c) :: lex.fold(c) == [Base(c)] && !lex.space(c))
    && (forall c | 'a' <= c <= 'z' :: lex.alnum(c))
    && lex.fold(' ') == " " && !lex.alnum(' ')
  }

  /** `plain` is the word without capitals and accents. */
  ghost predicate Spells(word: string, plain: string) {
    |word| == |plain| > 0 && forall i | 0 <= i < |word| ::
        Letter(word[i]) && Base(word[i]) == plain[i] && 'a' <= plain[i] <= 'z'
  }

  lemma {:induction false} FoldWord(lex: Lexicon, word: string, plain: string)
    requires Unicode(lex) && Spells(word, plain)
    ensures lex.Folded(word) == plain && lex.Cleaned(plain) == plain
  {
    if |word| > 1 {
      FoldWord(lex, word[1..], plain[1..]);
    } else {
      assert word[1..] == "" && plain[1..] == "";
    }
  }

  lemma {:induction false} FoldSplit(lex: Lexicon, a: string, b: string)
    ensures lex.Folded(a + b) == lex.Folded(a) + lex.Folded(b)
    ensures lex.Cleaned(a + b) == lex.Cleaned(a) + lex.Cleaned(b)
  {
    if |a| == 0 {
      assert a + b == b;
    } else {
      assert (a + b)[1..] == a[1..] + b;
      FoldSplit(lex, a[1..], b);
    }
  }

  /** A word followed by nothing, or by a space and more text, is the first word. */
  lemma {:induction false} WordFirst(w: string, tail: string)
    requires |w| > 0 && forall i | 0 <= i < |w| :: w[i] != ' '
    requires tail == "" || tail[0] == ' '
    ensures Words(w + tail) == [w] + Words(tail)
  {
    assert (w + tail)[1..] == w[1..] + tail;
    if |w| == 1 {
      assert w[1..] + tail == tail && [w[0]] == w;
      if tail != "" {
        assert (w + tail)[1] == ' ';
      }
    } else {
      WordFirst(w[1..], tail);
      assert [w[0]] + w[1..] == w;
      assert (w + tail)[1] == w[1];
      var rest := Words(w[1..] + tail);
      assert rest[0] == w[1..] && rest[1..] == Words(tail);
    }
  }

  lemma StripNothing(lex: Lexicon, s: string)
    requires |s| > 0 && !lex.space(s[0]) && !lex.space(s[|s| - 1])
    ensures lex.Strip(s) == s
  {
  }

  lemma NormalWord(lex: Lexicon, word: string, plain: string)
    requires Unicode(lex) && Spells(word, plain)
    ensures lex.Normalize(word) == plain
  {
    StripNothing(lex, word);
    FoldWord(lex, word, plain);
    WordFirst(plain, "");
    assert plain + "" == plain;
    assert Words(plain) == [plain];
  }

  lemma FoldPair(lex: Lexicon, v: string, p: string, w: string, q: string)
    requires Unicode(lex) && Spells(v, p) && Spells(w, q)
    ensures lex.Folded(v + (" " + w)) == p + (" " + q)
    ensures lex.Cleaned(p + (" " + q)) == p + (" " + q)
  {
    FoldWord(lex, v, p);
    FoldWord(lex, w, q);
    FoldSplit(lex, v, " " + w);
    FoldSplit(lex, p, " " + q);
    assert (" " + w)[1..] == w && (" " + q)[1..] == q;
  }

  lemma NormalPair(lex: Lexicon, v: string, p: string, w: string, q: string)
    requires Unicode(lex) && Spells(v, p) && Spells(w, q)
    ensures lex.Normalize(v + (" " + w)) == p + (" " + q)
  {
    StripNothing(lex, v + (" " + w));
    FoldPair(lex, v, p, w, q);
    TwoWords(p, q);
  }

  lemma TwoWords(p: string, q: string)
    requires |p| > 0 && |q| > 0 && (forall i | 0 <= i < |p| :: p[i] != ' ') && forall i | 0 <= i < |q| :: q[i] != ' '
    ensures Join(Words(p + (" " + q))) == p + (" " + q)
  {
    WordFirst(p, " " + q);
    SpaceThenWord(q);
    JoinTwo(p, q);
    assert [p] + [q] == [p, q];
  }

  lemma SpaceThenWord(q: string)
    requires |q| > 0 && forall i | 0 <= i < |q| :: q[i] != ' '
    ensures Words(" " + q) == [q]
  {
    assert (" " + q)[1..] == q && q + "" == q;
    WordFirst(q, "");
  }

  lemma JoinTwo(p: string, q: string)
    ensures Join([p, q]) == p + (" " + q)
  {
    assert [p, q][1..] == [q];
    assert Join([q]) == q;
    assert p + " " + q == p + (" " + q);
  }

  // ------------------------------------------------------------------ the tables do not collide

  /** What each header alias normalises to. */
  function Plain(a: string): string {
    if a == "tâche" then "tache" else if a == "état" then "etat" else if a == "période" then "periode"
    else if a == "clé" then "cle" else a
  }

  predicate OneWord(a: string) {
    a != "work item" && a != "action id"
  }

  lemma ActionSpells(a: string)
    requires a in ActionHeaders() && OneWord(a)
    ensures Spells(a, Plain(a))
  {
  }

  lemma StatusSpells(a: string)
    requires a in StatusHeaders()
    ensures Spells(a, Plain(a)) && OneWord(a)
  {
  }

  lemma OwnerSpells(a: string)
    requires a in OwnerHeaders()
    ensures Spells(a, Plain(a)) && OneWord(a)
  {
  }

  lemma MonthSpells(a: string)
    requires a in MonthHeaders()
    ensures Spells(a, Plain(a)) && OneWord(a)
  {
  }

  lemma IdSpells(a: string)
    requires a in IdHeaders() && OneWord(a)
    ensures Spells(a, Plain(a))
  {
  }

  predicate IsHeader(a: string) {
    a in ActionHeaders() || a in StatusHeaders() || a in OwnerHeaders() || a in MonthHeaders() || a in IdHeaders()
  }

  lemma WorkItemNormal(lex: Lexicon)
    requires Unicode(lex)
    ensures lex.Normalize("work item") == "work item"
  {
    assert "work" + (" " + "item") == "work item";
    NormalPair(lex, "work", "work", "item", "item");
  }

  lemma ActionIdNormal(lex: Lexicon)
    requires Unicode(lex)
    ensures lex.Normalize("action id") == "action id"
  {
    assert "action" + (" " + "id") == "action id";
    NormalPair(lex, "action", "action", "id", "id");
  }

  lemma HeaderNormal(lex: Lexicon, a: string)
    requires Unicode(lex) && IsHeader(a)
    ensures lex.Normalize(a) == Plain(a)
  {
    if a == "work item" {
      WorkItemNormal(lex);
    } else if a == "action id" {
      ActionIdNormal(lex);
    } else {
      HeaderSpells(a);
      NormalWord(lex, a, Plain(a));
    }
  }

  lemma HeaderSpells(a: string)
    requires IsHeader(a) && OneWord(a)
    ensures Spells(a, Plain(a))
  {
    if a in ActionHeaders() {
      ActionSpells(a);
    } else if a in StatusHeaders() {
      StatusSpells(a);
    } else if a in OwnerHeaders() {
      OwnerSpells(a);
    } else if a in MonthHeaders() {
      MonthSpells(a);
    } else {
      IdSpells(a);
    }
  }

  lemma AliasesPlain(lex: Lexicon, raw: set<string>)
    requires Unicode(lex) && forall a | a in raw :: IsHeader(a)
    ensures lex.Aliases(raw) == set a | a in raw :: Plain(a)
  {
    forall a | a in raw ensures lex.Normalize(a) == Plain(a) {
      HeaderNormal(lex, a);
    }
  }

  /** Every text that some header alias set accepts. */
  function HeaderKeys(lex: Lexicon): set<string> {
    lex.Aliases(ActionHeaders()) + lex.Aliases(StatusHeaders()) + lex.Aliases(OwnerHeaders())
    + lex.Aliases(MonthHeaders()) + lex.Aliases(IdHeaders())
  }

  lemma PlainDisjoint(a: string, b: string)
    requires a in StatusHeaders() && IsHeader(b) && b !in StatusHeaders()
    ensures Plain(a) != Plain(b)
  {
    assert Plain(a) in {"status", "statut", "etat", "avancement"};
  }

  lemma AliasesDisjoint(lex: Lexicon, raw: set<string>)
    requires Unicode(lex) && raw !! StatusHeaders() && forall a | a in raw :: IsHeader(a)
    ensures lex.Aliases(StatusHeaders()) !! lex.Aliases(raw)
  {
    AliasesPlain(lex, raw);
    AliasesPlain(lex, StatusHeaders());
    forall a, b | a in StatusHeaders() && b in raw ensures Plain(a) != Plain(b) {
      PlainDisjoint(a, b);
    }
  }

  /** No text heads both the status column and another. */
  lemma HeadersDisjoint(lex: Lexicon)
    requires Unicode(lex)
    ensures lex.Aliases(StatusHeaders()) !! lex.Aliases(ActionHeaders())
    ensures lex.Aliases(StatusHeaders()) !! lex.Aliases(OwnerHeaders())
    ensures lex.Aliases(StatusHeaders()) !! lex.Aliases(MonthHeaders())
    ensures lex.Aliases(StatusHeaders()) !! lex.Aliases(IdHeaders())
  {
    RawDisjoint();
    AliasesDisjoint(lex, ActionHeaders());
    AliasesDisjoint(lex, OwnerHeaders());
    AliasesDisjoint(lex, MonthHeaders());
    AliasesDisjoint(lex, IdHeaders());
  }

  lemma RawDisjoint()
    ensures StatusHeaders() !! ActionHeaders() && StatusHeaders() !! OwnerHeaders()
    ensures StatusHeaders() !! MonthHeaders() && StatusHeaders() !! IdHeaders()
  {
  }

  lemma KeyIsPlain(lex: Lexicon, key: string)
    requires Unicode(lex) && key in HeaderKeys(lex)
    ensures exists a | IsHeader(a) :: key == Plain(a)
  {
    AliasesPlain(lex, ActionHeaders());
    AliasesPlain(lex, StatusHeaders());
    AliasesPlain(lex, OwnerHeaders());
    AliasesPlain(lex, MonthHeaders());
    AliasesPlain(lex, IdHeaders());
    if key in lex.Aliases(ActionHeaders()) {
      var a :| a in ActionHeaders() && key == Plain(a);
      assert IsHeader(a);
    } else if key in lex.Aliases(StatusHeaders()) {
      var a :| a in StatusHeaders() && key == Plain(a);
      assert IsHeader(a);
    } else if key in lex.Aliases(OwnerHeaders()) {
      var a :| a in OwnerHeaders() && key == Plain(a);
      assert IsHeader(a);
    } else if key in lex.Aliases(MonthHeaders()) {
      var a :| a in MonthHeaders() && key == Plain(a);
      assert IsHeader(a);
    } else {
      var a :| a in IdHeaders() && key == Plain(a);
      assert IsHeader(a);
    }
  }

  lemma ActionIsNoStatus(a: string)
    requires a in ActionHeaders()
    ensures Plain(a) !in StatusAliases()
  {
  }

  lemma StatusHeaderIsNoStatus(a: string)
    requires a in StatusHeaders()
    ensures Plain(a) !in StatusAliases()
  {
  }

  lemma OwnerIsNoStatus(a: string)
    requires a in OwnerHeaders()
    ensures Plain(a) !in StatusAliases()
  {
  }

  lemma MonthIsNoStatus(a: string)
    requires a in MonthHeaders()
    ensures Plain(a) !in StatusAliases()
  {
  }

  lemma IdIsNoStatus(a: string)
    requires a in IdHeaders()
    ensures Plain(a) !in StatusAliases()
  {
  }

  lemma PlainIsNoStatus(a: string)
    requires IsHeader(a)
    ensures NoMarks(Plain(a)) && Plain(a) !in StatusAliases()
  {
    if OneWord(a) {
      HeaderSpells(a);
    }
    if a in ActionHeaders() {
      ActionIsNoStatus(a);
    } else if a in StatusHeaders() {
      StatusHeaderIsNoStatus(a);
    } else if a in OwnerHeaders() {
      OwnerIsNoStatus(a);
    } else if a in MonthHeaders() {
      MonthIsNoStatus(a);
    } else {
      IdIsNoStatus(a);
    }
  }

  lemma {:induction false} ReplaceNothing(s: string, from: char, to: char)
    requires forall i | 0 <= i < |s| :: s[i] != from
    ensures Replace(s, from, to) == s
  {
    if |s| > 0 {
      ReplaceNothing(s[1..], from, to);
    }
  }

  ghost predicate NoMarks(s: string) {
    forall i | 0 <= i < |s| :: s[i] != '-' && s[i] != '_'
  }

  /** A text that reads as a status is never a header: writing or replacing one cannot create or destroy
      a header row. */
  lemma StatusIsNoHeader(lex: Lexicon, s: string)
    requires Unicode(lex) && lex.ParseStatus(s).Some?
    ensures lex.Normalize(s) !in HeaderKeys(lex)
  {
    var n := lex.Normalize(s);
    if n in HeaderKeys(lex) {
      KeyIsPlain(lex, n);
      var a :| IsHeader(a) && n == Plain(a);
      PlainIsNoStatus(a);
      ReplaceNothing(n, '-', ' ');
      ReplaceNothing(n, '_', ' ');
      assert false;
    }
  }

  /** What is written reads back: every label parses to its own status. */
  lemma LabelRoundTrip(lex: Lexicon, status: RoadmapStatus)
    requires Unicode(lex)
    ensures lex.ParseStatus(Label(status)) == Some(status)
  {
    LabelNormal(lex, status);
    var key := Key(status);
    ReplaceNothing(key, '-', ' ');
    ReplaceNothing(key, '_', ' ');
  }

  function Key(s: RoadmapStatus): (key: string)
    ensures key in StatusAliases() && StatusAliases()[key] == s && NoMarks(key)
  {
    match s case NotDone => "a faire" case InProgress => "en cours" case Done => "termine"
  }

  lemma ToDoNormal(lex: Lexicon)
    requires Unicode(lex)
    ensures lex.Normalize("À faire") == "a faire"
  {
    assert "À" + (" " + "faire") == "À faire" && "a" + (" " + "faire") == "a faire";
    NormalPair(lex, "À", "a", "faire", "faire");
  }

  lemma DoingNormal(lex: Lexicon)
    requires Unicode(lex)
    ensures lex.Normalize("En cours") == "en cours"
  {
    assert "En" + (" " + "cours") == "En cours" && "en" + (" " + "cours") == "en cours";
    NormalPair(lex, "En", "en", "cours", "cours");
  }

  lemma LabelNormal(lex: Lexicon, status: RoadmapStatus)
    requires Unicode(lex)
    ensures lex.Normalize(Label(status)) == Key(status)
  {
    match status
    case NotDone => ToDoNormal(lex);
    case InProgress => DoingNormal(lex);
    case Done => NormalWord(lex, Label(status), Key(status));
  }
}
