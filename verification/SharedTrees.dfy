/** What further parentheses do: around an operand the text reads back, around the key of a
    mapping pattern it does not parse. */
module SharedTrees {
  import opened Options
  import opened PyAst
  import opened Tokens
  import opened ExprText
  import opened PatternText
  import opened StmtText
  import opened Scripts
  import opened Faithful
  import opened Sharing
  import opened Visits
  import opened VisitsText
  import opened StmtVisitsShape
  import opened ExprGrammar
  import opened PatternGrammar
  import opened StmtGrammar
  import opened ExprRoundTrip
  import opened StmtRoundTrip
  import opened ModuleRoundTrip
  import opened Unparse

  /** `-1`, for which `await (-1)` asks parentheses. */
  const NEGATIVE := UnaryOp(2, USub, Constant(3, Int(1)))
  const RETURNED := Return(Some(NEGATIVE))
  const WILD := MatchAs(7, None, None)

  function Awaiting(): Stmt {
    ExprStmt(Await(4, NEGATIVE))
  }

  function Mapping(): Pattern {
    MatchMapping(6, [Entry(NEGATIVE, WILD)], None)
  }

  function Matching(): Stmt {
    Match(Name(5, "x"), [Case(Mapping(), None, [Pass])])
  }

  function One(): seq<Token> {
    [Op(Sub), Lit(Int(1))]
  }

  function Doubled(): seq<Token> {
    [LPar, Op(Sub), Lit(Int(1)), RPar]
  }

  /** What `await (-1)` leaves in the dictionary. */
  function Asks(): Precedences {
    map[4 := YIELD, 2 := ATOM, 3 := FACTOR]
  }

  /* ----- one step of a script ----- */

  lemma PutStep(j: Judge, c: Place, ts: seq<Mark>, b: Script)
    ensures Text(j, c, Then(Put(ts), b)) == ts + Text(j, c, b) && Entries(Then(Put(ts), b)) == Entries(b)
    ensures Covers(j, c, Then(Put(ts), b)) == Covers(j, c, b)
    ensures Text(j, c, Put(ts)) == ts && Entries(Put(ts)) == map[] && Covers(j, c, Put(ts))
  {
    SameJudge(j, Put(ts));
    Pair(j, c, Put(ts), b);
    hide Text, Covers;
    Simple(j, c, ts, True);
  }

  lemma LineStep(j: Judge, c: Place, ts: seq<Mark>, b: Script)
    ensures Text(j, c, Then(NewLine(ts), b)) == [Line(c.indent)] + ts + Text(j, c, b)
    ensures Entries(Then(NewLine(ts), b)) == Entries(b)
    ensures Covers(j, c, Then(NewLine(ts), b)) == Covers(j, c, b)
  {
    SameJudge(j, NewLine(ts));
    Pair(j, c, NewLine(ts), b);
    hide Text;
    Simple(j, c, ts, True);
  }

  lemma SameJudge(j: Judge, d: Script)
    requires Entries(d) == map[]
    ensures j.Later(d) == j
  {
    if j.Dictionary? { assert j.m + map[] == j.m; }
  }

  lemma NodeStep(j: Judge, c: Place, id: nat, own: Level, b: Script)
    ensures var t := Text(j, c.Forget(), b);
            Text(j, c, Node(id, own, b)) == if j.Level(c, id) > own then [LPar] + t + [RPar] else t
    ensures Entries(Node(id, own, b)) == Entries(b)
    ensures Covers(j, c, Node(id, own, b))
        == ((c.Wanted(id) > own ==> j.Level(c, id) > own) && Covers(j, c.Forget(), b))
  {
    assert [] + Text(j, c.Forget(), b) + [] == Text(j, c.Forget(), b);
  }

  lemma AskStep(j: Judge, c: Place, id: nat, p: Level, b: Script)
    ensures var k, f := j.Told([id], p), c.Ask([id], p);
            && Text(j, c, Asking([id], p, b)) == Text(k, f, b) && Covers(j, c, Asking([id], p, b)) == Covers(k, f, b)
            && k.Level(f, id) == p && f.Wanted(id) == p
    ensures Entries(Asking([id], p, b)) == map[id := p] + Entries(b)
  {
    assert Given([id], p) == map[id := p];
    Inside(j, c, [id], p, b);
  }

  /* ----- texts ----- */

  lemma NegativeText(j: Judge, c: Place)
    ensures Text(j, c, ExprScript(NEGATIVE)) == if j.Level(c, 2) > FACTOR then Doubled() else One()
    ensures Entries(ExprScript(NEGATIVE)) == map[3 := FACTOR]
    ensures Covers(j, c, ExprScript(NEGATIVE)) == (c.Wanted(2) > FACTOR ==> j.Level(c, 2) > FACTOR)
  {
    var b := Asking([3], FACTOR, Node(3, ATOM, Literal(Int(1))));
    NegativeScript();
    PairIs();
    hide ExprScript, Text, Entries, Covers, One, Doubled;
    NodeStep(j, c, 2, FACTOR, Then(Put([Op(Sub)]), b));
    PutStep(j, c.Forget(), [Op(Sub)], b);
    LiteralText(j, c.Forget());
  }

  lemma NegativeScript()
    ensures var b := Asking([3], FACTOR, Node(3, ATOM, Literal(Int(1))));
            ExprScript(NEGATIVE) == Node(2, FACTOR, Then(Put([Op(Sub)]), b))
  {
  }

  lemma PairIs()
    ensures [Op(Sub)] + [Lit(Int(1))] == One() && [LPar] + One() + [RPar] == Doubled()
  {
  }

  lemma LiteralText(j: Judge, c: Place)
    ensures var d := Asking([3], FACTOR, Node(3, ATOM, Literal(Int(1))));
            Text(j, c, d) == [Lit(Int(1))] && Entries(d) == map[3 := FACTOR] && Covers(j, c, d)
  {
    var k, f := j.Told([3], FACTOR), c.Ask([3], FACTOR);
    assert Text(k, f.Forget(), Literal(Int(1))) == [Lit(Int(1))] && Entries(Literal(Int(1))) == map[];
    assert Covers(k, f.Forget(), Literal(Int(1)));
    hide Text, Entries, Covers;
    AskStep(j, c, 3, FACTOR, Node(3, ATOM, Literal(Int(1))));
    NodeStep(k, f, 3, ATOM, Literal(Int(1)));
    assert map[3 := FACTOR] + map[] == map[3 := FACTOR];
  }

  lemma AwaitedText(j: Judge, c: Place)
    ensures Text(j, c, StmtScript(Awaiting())) == [Line(c.indent), KwAwait] + Doubled()
    ensures Entries(StmtScript(Awaiting())) == Asks() && Covers(j, c, StmtScript(Awaiting()))
  {
    var inner := Then(Put([KwAwait]), Asking([2], ATOM, ExprScript(NEGATIVE)));
    AwaitedScript();
    hide ExprScript, StmtScript, Text, Entries, Covers, Awaiting, Doubled, Asks;
    LineStep(j, c, [], Asking([4], YIELD, Node(4, AWAIT, inner)));
    AwaitText(j, c, inner);
    AwaitRegroup(c.indent, Doubled());
  }

  lemma AwaitRegroup(d: nat, ts: seq<Token>)
    ensures [Line(d)] + [] + ([KwAwait] + ts) == [Line(d), KwAwait] + ts
  {
  }

  lemma AwaitedScript()
    ensures var inner := Then(Put([KwAwait]), Asking([2], ATOM, ExprScript(NEGATIVE)));
            StmtScript(Awaiting()) == Then(NewLine([]), Asking([4], YIELD, Node(4, AWAIT, inner)))
  {
    var e := Await(4, NEGATIVE);
    assert BareScript(e) == Then(Put([KwAwait]), Asking([2], ATOM, ExprScript(NEGATIVE)));
    assert ExprScript(e) == Node(4, AWAIT, BareScript(e));
    hide ExprScript, BareScript;
    assert Asked(YIELD, e) == Asking([4], YIELD, ExprScript(e));
  }

  lemma AwaitText(j: Judge, c: Place, inner: Script)
    requires inner == Then(Put([KwAwait]), Asking([2], ATOM, ExprScript(NEGATIVE)))
    ensures var d := Asking([4], YIELD, Node(4, AWAIT, inner));
            Text(j, c, d) == [KwAwait] + Doubled() && Entries(d) == Asks() && Covers(j, c, d)
  {
    hide ExprScript, Text, Entries, Covers;
    var k, f := j.Told([4], YIELD), c.Ask([4], YIELD);
    AskStep(j, c, 4, YIELD, Node(4, AWAIT, inner));
    NodeStep(k, f, 4, AWAIT, inner);
    OperandText(k, f.Forget());
    assert map[4 := YIELD] + map[2 := ATOM, 3 := FACTOR] == Asks();
  }

  lemma OperandText(j: Judge, c: Place)
    ensures var d := Then(Put([KwAwait]), Asking([2], ATOM, ExprScript(NEGATIVE)));
            Text(j, c, d) == [KwAwait] + Doubled() && Entries(d) == map[2 := ATOM, 3 := FACTOR] && Covers(j, c, d)
  {
    hide ExprScript, Text, Entries, Covers;
    PutStep(j, c, [KwAwait], Asking([2], ATOM, ExprScript(NEGATIVE)));
    AskStep(j, c, 2, ATOM, ExprScript(NEGATIVE));
    NegativeText(j.Told([2], ATOM), c.Ask([2], ATOM));
    assert map[2 := ATOM] + map[3 := FACTOR] == map[2 := ATOM, 3 := FACTOR];
  }

  lemma ReturnedText(j: Judge, c: Place)
    requires c.Wanted(2) <= FACTOR
    ensures Text(j, c, StmtScript(RETURNED))
         == [Line(c.indent), KwReturn] + if j.Level(c, 2) > FACTOR then Doubled() else One()
    ensures Covers(j, c, StmtScript(RETURNED))
  {
    assert StmtScript(RETURNED) == Then(NewLine([KwReturn]), ExprScript(NEGATIVE));
    hide ExprScript, StmtScript, Text, Entries, Covers;
    LineStep(j, c, [KwReturn], ExprScript(NEGATIVE));
    NegativeText(j, c);
    assert [Line(c.indent)] + [KwReturn] == [Line(c.indent), KwReturn];
  }

  lemma NothingStep(j: Judge, c: Place, b: Script)
    ensures Text(j, c, Then(Nothing, b)) == Text(j, c, b) && Text(j, c, Then(b, Nothing)) == Text(j, c, b)
    ensures Text(j, c, Nothing) == [] && Covers(j, c, Then(b, Nothing)) == Covers(j, c, b)
  {
    SameJudge(j, Nothing);
    Pair(j, c, Nothing, b);
    Pair(j, c, b, Nothing);
    Simple(j, c, [], True);
    Simple(j.Later(b), c, [], True);
    assert Covers(j.Later(b), c, Nothing);
    hide Text, Covers;
    assert [] + Text(j, c, b) == Text(j, c, b);
  }

  lemma WildText(j: Judge, c: Place)
    ensures Text(j, c, PatternScript(WILD)) == [Id(WILDCARD)]
  {
    assert PatternScript(WILD) == Node(7, ATOM, Put([Id(WILDCARD)]));
    NodeStep(j, c, 7, ATOM, Put([Id(WILDCARD)]));
    PutStep(j, c.Forget(), [Id(WILDCARD)], Nothing);
    hide Text;
  }

  function Keyed(): seq<Token> {
    Doubled() + [Colon, Id(WILDCARD)]
  }

  lemma EntryScriptIs()
    ensures var e := Entry(NEGATIVE, WILD);
            && EntryScript([e], 0) == Then(Nothing, Then(EntryOne(e), Nothing))
            && EntryOne(e) == Then(Key(ExprScript(NEGATIVE)), Then(Put([Colon]), PatternScript(WILD)))
  {
    hide ExprScript, PatternScript;
    assert EntryScript([Entry(NEGATIVE, WILD)], 1) == Nothing;
  }

  lemma KeyText(j: Judge, c: Place)
    ensures Text(j, c, Key(ExprScript(NEGATIVE))) == Text(j, c, ExprScript(NEGATIVE))
  {
    hide ExprScript;
  }

  lemma EntryText(j: Judge, c: Place)
    requires j.Level(c, 2) > FACTOR
    ensures Text(j, c, EntryScript([Entry(NEGATIVE, WILD)], 0)) == Keyed()
  {
    var e := Entry(NEGATIVE, WILD);
    var key := Key(ExprScript(NEGATIVE));
    EntryScriptIs();
    KeyText(j, c);
    hide EntryScript, EntryOne, ExprScript, PatternScript, Text, Covers;
    NothingStep(j, c, Then(EntryOne(e), Nothing));
    NothingStep(j, c, EntryOne(e));
    Pair(j, c, key, Then(Put([Colon]), PatternScript(WILD)));
    NegativeText(j, c);
    PutStep(j.Later(key), c, [Colon], PatternScript(WILD));
    WildText(j.Later(key), c);
    assert [Colon] + [Id(WILDCARD)] == [Colon, Id(WILDCARD)];
  }

  lemma MappingText(j: Judge, c: Place)
    requires j.Dictionary? && Find(j.m, 2) > FACTOR
    ensures Text(j, c, PatternScript(Mapping())) == [LBrace] + Keyed() + [RBrace]
  {
    var es := EntryScript([Entry(NEGATIVE, WILD)], 0);
    var inner := Then(Put([LBrace]), Then(es, Then(Nothing, Put([RBrace]))));
    var k := c.Forget();
    assert BarePatternScript(Mapping()) == inner;
    assert PatternScript(Mapping()) == Node(6, ATOM, inner);
    hide EntryScript, PatternScript, BarePatternScript, Text, Covers;
    NodeStep(j, c, 6, ATOM, inner);
    PutStep(j, k, [LBrace], Then(es, Then(Nothing, Put([RBrace]))));
    Pair(j, k, es, Then(Nothing, Put([RBrace])));
    EntryText(j, k);
    NothingStep(j.Later(es), k, Put([RBrace]));
    PutStep(j.Later(es), k, [RBrace], Nothing);
    Regroup([LBrace], Keyed(), [RBrace]);
  }

  lemma PassText(j: Judge, c: Place)
    ensures Text(j, c, BlockScript([Pass])) == [Colon, Line(c.indent + 1), KwPass]
  {
    assert BodyScript([Pass], 1) == Nothing;
    assert BodyScript([Pass], 0) == Then(NewLine([KwPass]), Nothing);
    assert BlockScript([Pass]) == Then(Put([Colon]), Indented(BodyScript([Pass], 0)));
    hide BlockScript, BodyScript, Text, Covers;
    DeeperText(j, c, BodyScript([Pass], 0), NewLine([KwPass]));
    Simple(j, c.(indent := c.indent + 1), [KwPass], True);
    assert [Colon] + ([Line(c.indent + 1)] + [KwPass]) == [Colon, Line(c.indent + 1), KwPass];
  }

  /** The case and its suite, at some indentation. */
  function CaseLines(d: nat): seq<Token> {
    [Line(d), KwCase] + ([LBrace] + Keyed() + [RBrace]) + [Colon, Line(d + 1), KwPass]
  }

  lemma CaseText(j: Judge, c: Place)
    requires j.Dictionary? && Find(j.m, 2) > FACTOR
    ensures Text(j, c, CaseScript(Case(Mapping(), None, [Pass])))
         == CaseLines(c.indent)
  {
    var p, b := PatternScript(Mapping()), BlockScript([Pass]);
    assert CaseScript(Case(Mapping(), None, [Pass])) == Then(NewLine([KwCase]), Then(p, Then(Nothing, b)));
    hide CaseScript, PatternScript, BlockScript, Text, Covers, Entries, Mapping, Keyed;
    LineStep(j, c, [KwCase], Then(p, Then(Nothing, b)));
    Pair(j, c, p, Then(Nothing, b));
    MappingText(j, c);
    NothingStep(j.Later(p), c, b);
    PassText(j.Later(p), c);
    assert [Line(c.indent)] + [KwCase] == [Line(c.indent), KwCase];
    Regroup([Line(c.indent), KwCase], [LBrace] + Keyed() + [RBrace], [Colon, Line(c.indent + 1), KwPass]);
  }

  /** From the pattern on. */
  function Braced(): seq<Token> {
    [LBrace] + Keyed() + [RBrace] + [Colon, Line(2), KwPass]
  }

  lemma BracedIs()
    ensures CaseLines(1) == [Line(1), KwCase] + Braced()
  {
    hide Keyed;
  }

  /** The lines of the match statement. */
  function KeyLines(): seq<Token> {
    [Line(0), KwMatch, Id("x"), Colon] + CaseLines(1)
  }

  lemma MatchedScript()
    ensures var k := Case(Mapping(), None, [Pass]);
            && CasesScript([k], 0) == Then(CaseScript(k), Nothing)
            && StmtScript(Matching()) == Then(NewLine([KwMatch]), Then(ExprScript(Name(5, "x")),
                                           Then(Put([Colon]), Indented(CasesScript([k], 0)))))
  {
    hide CaseScript, ExprScript;
    assert CasesScript([Case(Mapping(), None, [Pass])], 1) == Nothing;
  }

  lemma SubjectText(j: Judge, c: Place)
    ensures Text(j, c, ExprScript(Name(5, "x"))) == [Id("x")] && Entries(ExprScript(Name(5, "x"))) == map[]
  {
    assert ExprScript(Name(5, "x")) == Node(5, ATOM, Put([Id("x")]));
    NodeStep(j, c, 5, ATOM, Put([Id("x")]));
    PutStep(j, c.Forget(), [Id("x")], Nothing);
    hide Text;
  }

  lemma CasesText(j: Judge, c: Place)
    requires j.Dictionary? && Find(j.m, 2) > FACTOR && c.indent == 0
    ensures Text(j, c, Then(Put([Colon]), Indented(CasesScript([Case(Mapping(), None, [Pass])], 0))))
         == [Colon] + CaseLines(1)
  {
    var k := Case(Mapping(), None, [Pass]);
    MatchedScript();
    hide ExprScript, StmtScript, CasesScript, CaseScript, Text, Covers, Entries, CaseLines, Mapping, Matching, Find;
    CaseText(j, c.(indent := c.indent + 1));
    DeeperText(j, c, CasesScript([k], 0), CaseScript(k));
  }

  /** A colon and one thing one level deeper. */
  lemma DeeperText(j: Judge, c: Place, all: Script, b: Script)
    requires all == Then(b, Nothing)
    ensures Text(j, c, Then(Put([Colon]), Indented(all))) == [Colon] + Text(j, c.(indent := c.indent + 1), b)
  {
    hide Text, Covers, Entries;
    PutStep(j, c, [Colon], Indented(all));
    Within(j, c, all);
    NothingStep(j, c.(indent := c.indent + 1), b);
  }

  lemma MatchedText(j: Judge, c: Place)
    requires j.Dictionary? && Find(j.m, 2) > FACTOR && c.indent == 0
    ensures Text(j, c, StmtScript(Matching())) == KeyLines()
  {
    var x := ExprScript(Name(5, "x"));
    var more := Then(Put([Colon]), Indented(CasesScript([Case(Mapping(), None, [Pass])], 0)));
    MatchedScript();
    SubjectText(j, c);
    CasesText(j, c);
    KeyLinesAre(CaseLines(1));
    hide ExprScript, StmtScript, CasesScript, CaseScript, Text, Covers, Entries, CaseLines, Mapping, Matching;
    LineStep(j, c, [KwMatch], Then(x, more));
    SameJudge(j, x);
    Pair(j, c, x, more);
  }

  lemma KeyLinesAre(cases: seq<Token>)
    ensures [Line(0)] + [KwMatch] + ([Id("x")] + ([Colon] + cases)) == [Line(0), KwMatch, Id("x"), Colon] + cases
  {
  }

  /* ----- the key does not parse ----- */

  lemma EntriesFail(more: seq<Token>)
    ensures ParseEntries([LPar] + more) == Fail
  {
    hide ParsePattern;
    assert ParseKey([LPar] + more) == Fail;
  }

  lemma ClosedFails(ts: seq<Token>)
    requires ParseEntries(ts) == Fail
    ensures ParseClosed([LBrace] + ts) == Fail
  {
    hide ParseEntries, ParseElements, ParseClassItems, ParseDots;
    Tail(LBrace, ts);
  }

  lemma PatternFails(ts: seq<Token>)
    requires !At(ts, Op(Mult)) && ParseClosed(ts) == Fail
    ensures ParseCasePattern(ts) == Fail
  {
    hide ParseClosed, AlternativeLoop;
    assert ParseAlternatives(ts) == Fail;
    assert ParsePattern(ts) == Fail;
    assert ParseElement(ts) == Fail;
    assert ParseElements(ts) == Fail;
  }

  lemma BracedFails()
    ensures ParseCase(1, Braced()) == Fail
  {
    hide ParseCasePattern, ParseClosed, ParseEntries, ParseSuite, ParseNamed;
    var more := [Op(Sub), Lit(Int(1)), RPar, Colon, Id(WILDCARD), RBrace, Colon, Line(2), KwPass];
    assert Braced() == [LBrace] + ([LPar] + more);
    EntriesFail(more);
    ClosedFails([LPar] + more);
    PatternFails(Braced());
  }

  lemma MatchFails()
    ensures ParseStmt(0, [KwMatch] + ([Id("x")] + ([Colon] + CaseLines(1)))) == Fail
  {
    hide ParseMatch, ParseStmt, ParseCases, ParseElts, ParseCase;
    BracedIs();
    hide CaseLines;
    var cases := [Line(1), KwCase] + Braced();
    var ts := [Id("x")] + ([Colon] + cases);
    BracedFails();
    assert cases[2..] == Braced() && At(cases, Line(1)) && AtClause(1, KwCase, cases);
    CasesFail(cases);
    SubjectRead(cases);
    LaterFails(ts, cases);
    Tail(KwMatch, ts);
    KeywordRule(0, [KwMatch] + ts);
  }

  lemma SubjectRead(cases: seq<Token>)
    ensures ParseElts(true, [Id("x")] + ([Colon] + cases)) == Ok(Elts([Name(0, "x")], false), [Colon] + cases)
  {
    hide ParseElts, ParseElt;
    var e := Name(5, "x");
    assert Toks(e, TEST) == [Id("x")] && Erase(e) == Name(0, "x");
    hide Toks, Erase;
    EltRoundTrip(true, e, [Colon] + cases);
    OneElt(true, [Id("x")] + ([Colon] + cases), Name(0, "x"), [Colon] + cases);
  }

  lemma CasesFail(cases: seq<Token>)
    requires AtClause(1, KwCase, cases) && ParseCase(1, cases[2..]) == Fail
    ensures ParseCases(1, cases) == Fail
  {
    hide ParseCase;
  }

  lemma LaterFails(ts: seq<Token>, cases: seq<Token>)
    requires ParseElts(true, ts) == Ok(Elts([Name(0, "x")], false), [Colon] + cases)
    requires At(cases, Line(1)) && ParseCases(1, cases) == Fail
    ensures ParseMatch(0, ts) == Fail
  {
    hide ParseElts, ParseCases;
    Tail(Colon, cases);
  }

  lemma BodyFails(d: nat, line: seq<Token>)
    requires ParseStmt(d, line) == Fail
    ensures ParseBody(d, [Line(d)] + line) == Fail
  {
    hide ParseStmt;
    Tail(Line(d), line);
  }

  lemma KeyTextFails()
    ensures ParseModule([Line(0)] + ([KwAwait] + Doubled() + KeyLines())) == Fail
  {
    hide ParseBody, ParseStmt;
    var rest := [KwMatch] + ([Id("x")] + ([Colon] + CaseLines(1)));
    KeyLinesAre(CaseLines(1));
    hide CaseLines;
    Regroup([Line(0)], [KwMatch], [Id("x")] + ([Colon] + CaseLines(1)));
    assert KeyLines() == [Line(0)] + rest;
    MatchFails();
    BodyFails(0, rest);
    AwaitedLine(KeyLines());
    BodyNext(0, [KwAwait] + Doubled() + KeyLines(), Image(true, Awaiting()), KeyLines());
  }

  lemma AwaitedLine(rest: seq<Token>)
    requires At(rest, Line(0)) && |rest| >= 2 && !IsClause(rest[1])
    ensures ParseStmt(0, [KwAwait] + Doubled() + rest) == Ok(Image(true, Awaiting()), rest)
  {
    hide ParseStmt, Image;
    AwaitedToks();
    AwaitedValid();
    hide LineToks, ValidStmt;
    StmtRoundTrip.StmtRoundTrip(Awaiting(), 0, rest);
  }

  lemma AwaitedToks()
    ensures LineToks(Awaiting(), 0) == [KwAwait] + Doubled()
  {
    assert Bare(Constant(3, Int(1))) == [Lit(Int(1))];
    assert Toks(NEGATIVE, ATOM) == Doubled();
    assert Bare(Await(4, NEGATIVE)) == [KwAwait] + Toks(NEGATIVE, ATOM);
  }

  lemma AwaitedValid()
    ensures ValidStmt(Awaiting())
  {
    assert Valid(NEGATIVE);
  }

  /* ----- the two modules ----- */

  lemma MatchedValid()
    ensures ValidStmt(Matching())
  {
    assert ValueExpr(NEGATIVE);
    var es := [Entry(NEGATIVE, WILD)];
    assert ValidEntry(es[0]) && ValidEntries(es[1..]);
    assert ValidPattern(Mapping());
    assert ValidStmts([Pass]) by { assert ValidStmts([Pass][1..]); }
    var k := Case(Mapping(), None, [Pass]);
    assert ValidCase(k);
    assert ValidCases([k]) by { assert ValidCases([k][1..]); }
  }

  lemma TwoValidStmts(s: Stmt, t: Stmt)
    requires ValidStmt(s) && ValidStmt(t)
    ensures ValidStmts([s, t])
  {
    hide ValidStmt;
    assert [s, t][1..] == [t] && [t][1..] == [];
    assert ValidStmts([t]);
  }

  /** A text without long integers is short whoever decides on parentheses. */
  lemma ShortEither(limit: nat, m: Precedences, b: seq<Stmt>)
    requires ValidStmts(b) && Short(limit, Text(Dictionary(m), Ground(0, false), BodyScript(b, 0)))
    ensures Short(limit, Printed(b, 0))
  {
    hide Text, Fails, Refuses, BodyScript, Printed, Short, ValidStmts;
    AllPrintable(b);
    BodyShaped(false, b, 0);
    PrintedIs(Ground(0, false), b);
    FailsIs(limit, Dictionary(m), Ground(0, false), BodyScript(b, 0));
    FailsIs(limit, Context, Ground(0, false), BodyScript(b, 0));
  }

  function TwoDoubled(): seq<Token> {
    [Line(0), KwAwait] + Doubled() + ([Line(0), KwReturn] + Doubled())
  }

  lemma DoubledText()
    ensures var b := [Awaiting(), RETURNED];
            && Text(Dictionary(map[]), Ground(0, false), BodyScript(b, 0)) == TwoDoubled()
            && Printed(b, 0) == [Line(0), KwAwait] + Doubled() + ([Line(0), KwReturn] + One())
            && NoPairMissing(map[], b)
  {
    var b, c := [Awaiting(), RETURNED], Ground(0, false);
    var none: Precedences := map[];
    hide StmtScript, BodyScript, Text, Entries, Covers, Printed;
    AwaitedText(Dictionary(none), c);
    AwaitedText(Context, c);
    assert none + Asks() == Asks();
    ReturnedText(Dictionary(Asks()), c);
    ReturnedText(Context, c);
    TwoStmts(Dictionary(none), c, Awaiting(), RETURNED);
    TwoStmts(Context, c, Awaiting(), RETURNED);
    TwoCovered(Dictionary(none), c, Awaiting(), RETURNED);
    PrintedIs(c, b);
  }

  lemma TwoCovered(j: Judge, c: Place, s: Stmt, t: Stmt)
    requires Covers(j, c, StmtScript(s)) && Covers(j.Later(StmtScript(s)), c, StmtScript(t))
    ensures Covers(j, c, BodyScript([s, t], 0))
  {
    hide StmtScript;
    assert BodyScript([s, t], 2) == Nothing;
    assert BodyScript([s, t], 1) == Then(StmtScript(t), Nothing);
    assert BodyScript([s, t], 0) == Then(StmtScript(s), Then(StmtScript(t), Nothing));
    hide BodyScript;
    NothingStep(j.Later(StmtScript(s)), c, StmtScript(t));
    Pair(j, c, StmtScript(s), Then(StmtScript(t), Nothing));
    hide Covers;
  }

  lemma MatchingText()
    ensures Text(Dictionary(map[]), Ground(0, false), BodyScript([Awaiting(), Matching()], 0))
         == [Line(0)] + ([KwAwait] + Doubled() + KeyLines())
  {
    var c := Ground(0, false);
    var none: Precedences := map[];
    hide StmtScript, BodyScript, Text, Entries, Covers;
    AwaitedText(Dictionary(none), c);
    assert none + Asks() == Asks();
    MatchedText(Dictionary(Asks()), c);
    TwoStmts(Dictionary(none), c, Awaiting(), Matching());
    assert [Line(0), KwAwait] == [Line(0)] + [KwAwait];
    Regroup4([Line(0)], [KwAwait], Doubled(), KeyLines());
    Regroup([KwAwait], Doubled(), KeyLines());
  }

  lemma DoubledShort(limit: nat)
    ensures Short(limit, Doubled())
  {
    assert !TooLong(limit, Int(1));
  }

  lemma TwoDoubledShort(limit: nat)
    ensures Short(limit, TwoDoubled())
  {
    DoubledShort(limit);
    ShortJoin(limit, [Line(0), KwAwait] + Doubled(), [Line(0), KwReturn] + Doubled());
    ShortJoin(limit, [Line(0), KwAwait], Doubled());
    ShortJoin(limit, [Line(0), KwReturn], Doubled());
    assert Short(limit, [Line(0), KwAwait]) && Short(limit, [Line(0), KwReturn]);
    hide Short, Doubled;
  }

  lemma KeyLinesShort(limit: nat)
    ensures Short(limit, [Line(0)] + ([KwAwait] + Doubled() + KeyLines()))
  {
    DoubledShort(limit);
    assert Short(limit, [Line(0)]) && Short(limit, [KwAwait]) && Short(limit, [Colon, Id(WILDCARD)]);
    assert Short(limit, [LBrace]) && Short(limit, [RBrace]) && Short(limit, [Colon, Line(2), KwPass]);
    assert Short(limit, [Line(0), KwMatch, Id("x"), Colon]) && Short(limit, [Line(1), KwCase]);
    hide Short, Doubled;
    ShortJoin(limit, [Line(0)], [KwAwait] + Doubled() + KeyLines());
    ShortJoin(limit, [KwAwait] + Doubled(), KeyLines());
    ShortJoin(limit, [KwAwait], Doubled());
    ShortJoin(limit, [Line(0), KwMatch, Id("x"), Colon], CaseLines(1));
    ShortJoin(limit, [Line(1), KwCase] + ([LBrace] + Keyed() + [RBrace]), [Colon, Line(2), KwPass]);
    ShortJoin(limit, [Line(1), KwCase], [LBrace] + Keyed() + [RBrace]);
    ShortJoin(limit, [LBrace] + Keyed(), [RBrace]);
    ShortJoin(limit, [LBrace], Keyed());
    ShortJoin(limit, Doubled(), [Colon, Id(WILDCARD)]);
  }

  lemma TwoDoubledFacts(limit: nat)
    ensures var b, ts := [Awaiting(), RETURNED], TwoDoubled();
            && Text(Dictionary(map[]), Ground(0, false), BodyScript(b, 0)) == ts != Printed(b, 0)
            && ValidStmts(b) && CleanAll(b) && NoPairMissing(map[], b) && PrintableAll(b) && Short(limit, Printed(b, 0))
  {
    var b := [Awaiting(), RETURNED];
    DoubledText();
    assert TwoDoubled()[|TwoDoubled()| - 1] == RPar;
    TwoDoubledShort(limit);
    AwaitedValid();
    assert ValidStmt(RETURNED) by { assert Valid(NEGATIVE); }
    TwoValidStmts(Awaiting(), RETURNED);
    TwoClean(Awaiting(), RETURNED);
    hide Text, Printed, BodyScript, ValidStmts, PrintableAll, Covers, CleanAll, Short, TwoDoubled;
    AllPrintable(b);
    ShortEither(limit, map[], b);
  }

  lemma TwoClean(s: Stmt, t: Stmt)
    requires Clean(s) && Clean(t)
    ensures CleanAll([s, t])
  {
    assert [s, t][1..] == [t] && [t][1..] == [];
    assert CleanAll([t]);
  }

  lemma KeyFacts(limit: nat)
    ensures var b, ts := [Awaiting(), Matching()], [Line(0)] + ([KwAwait] + Doubled() + KeyLines());
            && Text(Dictionary(map[]), Ground(0, false), BodyScript(b, 0)) == ts && ParseModule(ts) == Fail
            && ValidStmts(b) && PrintableAll(b) && Short(limit, Printed(b, 0))
  {
    var b := [Awaiting(), Matching()];
    MatchingText();
    KeyTextFails();
    KeyLinesShort(limit);
    AwaitedValid();
    MatchedValid();
    TwoValidStmts(Awaiting(), Matching());
    hide Text, Printed, BodyScript, ValidStmts, ParseModule, PrintableAll, Short, KeyLines, Doubled, Awaiting, Matching;
    AllPrintable(b);
    ShortEither(limit, map[], b);
  }

  /** `await (-1)` and `return` of the same `-1`: the return shows a pair that it does not need,
      and the text reads back. */
  method SharedOperand(limit: nat) returns (r: Outcome, text: seq<Token>)
    ensures var b := [Awaiting(), RETURNED];
            r.Returned? && text == TwoDoubled() && text != Printed(b, 0) && ReadsBack(text, b)
  {
    hide Text, Printed, BodyScript, ValidStmts, PrintableAll, Agrees, Covers, Wants, ReadsBack, CleanAll, Short;
    hide TwoDoubled, Awaiting;
    TwoDoubledFacts(limit);
    r, text := UnparseModule([Awaiting(), RETURNED], limit);
  }

  /** The same `-1` as a key of a mapping pattern: the pair around it does not parse. */
  method SharedKey(limit: nat) returns (r: Outcome, text: seq<Token>)
    ensures ValidStmts([Awaiting(), Matching()])
    ensures r.Returned? && text == [Line(0)] + ([KwAwait] + Doubled() + KeyLines()) && ParseModule(text) == Fail
  {
    hide Text, Printed, BodyScript, ValidStmts, ParseModule, PrintableAll, Agrees, Covers, Wants, ReadsBack, Short;
    hide KeyLines, Doubled, Awaiting, Matching;
    KeyFacts(limit);
    r, text := UnparseModule([Awaiting(), Matching()], limit);
  }
}
