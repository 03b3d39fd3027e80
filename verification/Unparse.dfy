/** `ast.unparse` on a module: a fresh unparser, what it writes for any tree, and what
    its output reads back as. */
module Unparse {
  import opened Options
  import opened PyAst
  import opened Tokens
  import opened ExprText
  import opened StmtText
  import opened Scripts
  import opened Faithful
  import opened Sharing
  import opened Visits
  import opened VisitsText
  import opened StmtVisitsText
  import opened StmtVisitsShape
  import opened Unparsing
  import opened ExprGrammar
  import opened StmtGrammar
  import opened ModuleRoundTrip
  import opened StmtRoundTrip
  import opened Erasure

  /** Where nothing has been asked. */
  function Ground(d: nat, star: bool): Place {
    Place([], TEST, d, star)
  }

  /** Every decision on parentheses is the one the precedence asked by its context calls
      for, if the module is visited with this dictionary. */
  ghost predicate Faithfully(m: Precedences, b: seq<Stmt>) {
    Agrees(Dictionary(m), Context, Ground(0, false), BodyScript(b, 0))
  }

  /** No decision leaves out parentheses that the context calls for, and none puts any that
      it does not call for around a key of a mapping pattern. */
  ghost predicate NoPairMissing(m: Precedences, b: seq<Stmt>) {
    Covers(Dictionary(m), Ground(0, false), BodyScript(b, 0))
  }

  /** The text of a module at some indentation, identities aside. */
  function Printed(b: seq<Stmt>, d: nat): seq<Token> {
    BodyToks(ImageAll(false, b), d)
  }

  /** Parsing the text gives an equal tree. */
  predicate ReadsBack(text: seq<Token>, b: seq<Stmt>) {
    ParseModule(text) == Ok(ImageAll(false, b), [])
  }

  /** No node occurs twice in the module. */
  predicate NoSharedNodes(b: seq<Stmt>) {
    Unshared(BodyScript(b, 0))
  }

  /** No context asks a precedence of a node that another occurrence of the node is not
      asked, or left to the default, as well. */
  ghost predicate OnePrecedence(b: seq<Stmt>) {
    OneEach(Wants(Ground(0, false), BodyScript(b, 0)))
  }

  /* ----- visits of trees without shared nodes ----- */

  /** The heart of the promise: if no node occurs twice in an expression and nothing was
      asked of those inside it, its visit appends its text at the precedence asked of it,
      raises only for an integer too long to be written, and asks precedences of nothing
      but the nodes inside it. */
  lemma VisitPrints(s: Moment, e: Expr)
    requires Unshared(ExprScript(e)) && forall i :: i in Ids(BareScript(e)) ==> i !in s.precedences
    ensures var r, ts := Done(s, ExprScript(e)), Toks(Erase(e), Find(s.precedences, e.id));
            && r.outcome.Returned? == Short(s.limit, ts)
            && (r.outcome.Returned? ==>
                  && r.after.source == s.source + ts
                  && r.after.indent == s.indent && r.after.inTryStar == s.inTryStar
                  && forall i :: i !in Ids(BareScript(e)) ==> Find(r.after.precedences, i) == Find(s.precedences, i))
  {
    var m, d := s.precedences, ExprScript(e);
    EntriesInside(e);
    hide Text, Fails, Entries, Ids, Done, ExprScript, BareScript, Toks, Unshared, Erase;
    TextWithout(m, PlaceOf(s), e);
    DoneIs(s, d);
    NothingRefused(e);
    FailsIs(s.limit, Dictionary(m), PlaceOf(s), d);
  }

  lemma EntriesInside(e: Expr)
    ensures forall i :: i in Entries(ExprScript(e)) ==> i in Ids(BareScript(e))
  {
    hide BareScript;
    assert Entries(ExprScript(e)) == Entries(BareScript(e));
    EntriesWithin(BareScript(e));
  }

  /** The text itself. */
  lemma TextWithout(m: Precedences, c: Place, e: Expr)
    requires Unshared(ExprScript(e)) && forall i :: i in Ids(BareScript(e)) ==> i !in m
    ensures Text(Dictionary(m), c, ExprScript(e)) == Toks(Erase(e), Find(m, e.id))
  {
    var k := c.Ask(if e.id in m then [e.id] else [], Find(m, e.id));
    assert k.Wanted(e.id) == Find(m, e.id);
    hide Ids, BareScript, Text, Wants, OneEach, Holds, Agrees, Covers, ExprScript, Toks, Unshared, Erase;
    WantsInside(k, e, m);
    UnsharedOneEach(k, ExprScript(e));
    OneEachAgrees(m, Wants(k, ExprScript(e)), k, ExprScript(e));
    AgreeingText(Dictionary(m), Context, k, ExprScript(e));
    SelfCovers(k, ExprScript(e));
    var t := ExprMeant(Context, k, e);
    TextAnywhere(m, c, k, ExprScript(e));
  }

  lemma NothingRefused(e: Expr)
    ensures !Refuses(ExprScript(e))
  {
    VisitsShape.ExprSound(false, e);
    hide ExprScript;
  }

  lemma WantsInside(c: Place, e: Expr, m: Precedences)
    requires c.Wanted(e.id) == Find(m, e.id) && forall i :: i in Ids(BareScript(e)) ==> i !in m
    ensures Holds(m, Wants(c, ExprScript(e)))
  {
    WantsWithin(c.Forget(), BareScript(e));
    assert Wants(c, ExprScript(e)) == {Want(e.id, c.Wanted(e.id))} + Wants(c.Forget(), BareScript(e));
    hide Wants, Ids, BareScript;
  }

  /** The same for the statements of a body, at the indentation of the moment. */
  lemma VisitPrintsBody(s: Moment, b: seq<Stmt>)
    requires Unshared(BodyScript(b, 0)) && forall i :: i in Ids(BodyScript(b, 0)) ==> i !in s.precedences
    ensures var r, ts := Done(s, BodyScript(b, 0)), Printed(b, s.indent);
            && r.outcome.Returned? == (PrintableAll(b) && Short(s.limit, ts))
            && r.after.inTryStar == s.inTryStar && r.after.indent >= s.indent
            && (r.outcome.Returned? ==>
                  && r.after.source == s.source + ts && r.after.indent == s.indent
                  && forall i :: i !in Ids(BodyScript(b, 0)) ==> Find(r.after.precedences, i) == Find(s.precedences, i))
  {
    var m, d, c := s.precedences, BodyScript(b, 0), PlaceOf(s);
    hide Text, Fails, Entries, Done, BodyScript, Wants, OneEach, Agrees;
    EntriesWithin(d);
    WantsWithin(c, d);
    assert Holds(m, Wants(c, d));
    hide Ids, Holds;
    UnsharedOneEach(c, d);
    OneEachAgrees(m, Wants(c, d), c, d);
    AgreeingText(Dictionary(m), Context, c, d);
    BodyRun(s, b);
  }

  /** How a run over a body ends. */
  lemma BodyRun(s: Moment, b: seq<Stmt>)
    ensures var r, d, ts := Done(s, BodyScript(b, 0)), BodyScript(b, 0), Printed(b, s.indent);
            && Text(Context, PlaceOf(s), d) == ts
            && r.outcome.Returned? == (PrintableAll(b) && Short(s.limit, ts))
            && Planned(s, d, r)
  {
    hide Text, Fails, Entries, Done, BodyScript, Printed, Refuses, PrintableAll;
    PrintedIs(PlaceOf(s), b);
    BodyShaped(false, b, 0);
    FailsIs(s.limit, Context, PlaceOf(s), BodyScript(b, 0));
    DoneIs(s, BodyScript(b, 0));
  }

  /** The text that every context means. */
  lemma PrintedIs(c: Place, b: seq<Stmt>)
    requires c.ids == []
    ensures Text(Context, c, BodyScript(b, 0)) == Printed(b, c.indent)
  {
    hide Text, Covers, BodyScript, BodyToks, ImageAll;
    assert b[0..] == b;
    SelfCovers(c, BodyScript(b, 0));
    var t := BodyMeant(Context, c, b, 0);
  }

  /* ----- valid trees ----- */

  lemma {:induction false} ValidIsPrintable(s: Stmt)
    requires ValidStmt(s)
    ensures Printable(s)
    decreases s, 1
  {
    match s
    case If(_, b, o) => AllPrintable(b); AllPrintable(o);
    case While(_, b, o) => AllPrintable(b); AllPrintable(o);
    case For(_, _, b, o) => AllPrintable(b); AllPrintable(o);
    case With(_, b) => AllPrintable(b);
    case Try(_, b, hs, o, f) => AllPrintable(b); HandlersPrintable(hs); AllPrintable(o); AllPrintable(f);
    case Match(_, cs) => CasesPrintable(cs);
    case _ =>
  }

  lemma {:induction false} AllPrintable(b: seq<Stmt>)
    requires ValidStmts(b)
    ensures PrintableAll(b)
    decreases b, 0
  {
    if b != [] {
      ValidIsPrintable(b[0]);
      AllPrintable(b[1..]);
    }
  }

  lemma {:induction false} HandlersPrintable(hs: seq<Handler>)
    requires ValidHandlers(hs)
    ensures PrintableHandlers(hs)
    decreases hs, 0
  {
    if hs != [] {
      assert ValidHandler(hs[0]) && ValidSuite(hs[0].body);
      AllPrintable(hs[0].body);
      HandlersPrintable(hs[1..]);
    }
  }

  lemma {:induction false} CasesPrintable(cs: seq<Case>)
    requires ValidCases(cs)
    ensures PrintableCases(cs)
    decreases cs, 0
  {
    if cs != [] {
      assert ValidCase(cs[0]) && ValidSuite(cs[0].body);
      AllPrintable(cs[0].body);
      CasesPrintable(cs[1..]);
    }
  }

  /* ----- the unparser on whole modules ----- */

  /** Asking one precedence of every node, the visits decide as every context wants. */
  lemma OnePrecedenceIsFaithful(m: Precedences, b: seq<Stmt>)
    requires OnePrecedence(b) && Holds(m, Wants(Ground(0, false), BodyScript(b, 0)))
    ensures Faithfully(m, b)
    ensures Holds(m + Entries(BodyScript(b, 0)), Wants(Ground(0, false), BodyScript(b, 0)))
  {
    hide Wants, BodyScript, OneEach, Holds;
    var c, d := Ground(0, false), BodyScript(b, 0);
    OneEachAgrees(m, Wants(c, d), c, d);
  }

  /** The text of a valid module is the one meant if and only if every decision is. */
  lemma TextIffFaithful(m: Precedences, b: seq<Stmt>)
    requires ValidStmts(b)
    ensures Text(Dictionary(m), Ground(0, false), BodyScript(b, 0)) == Printed(b, 0) <==> Faithfully(m, b)
  {
    hide Text, Agrees, Proper, BodyScript, Printed, ValidStmts;
    assert b[0..] == b;
    BodyShaped(true, b, 0);
    PrintedIs(Ground(0, false), b);
    Exactly(Dictionary(m), Context, Ground(0, false), BodyScript(b, 0));
  }

  /** Whatever further parentheses a dictionary has put, if none are missing the text of a
      valid module reads as what its own text reads as: an equal tree if and only if no `with`
      has a lone plain tuple as its context manager. */
  lemma ExtraPairsRead(m: Precedences, b: seq<Stmt>)
    requires ValidStmts(b) && NoPairMissing(m, b)
    ensures var text := Text(Dictionary(m), Ground(0, false), BodyScript(b, 0));
            ParseModule(text) == Ok(ImageAll(true, b), []) && (ReadsBack(text, b) <==> CleanAll(b))
  {
    hide Text, Covers, BodyScript, BodyToks, ParseModule, ImageAll, ValidStmts, CleanAll;
    assert b[0..] == b;
    var t := BodyMeant(Dictionary(m), Ground(0, false), b, 0);
    SameImage(t, b);
    ModuleRead(t);
    AllKept(b);
  }

  lemma FaithfulMissesNone(m: Precedences, b: seq<Stmt>)
    requires Faithfully(m, b)
    ensures NoPairMissing(m, b)
  {
    AgreeingCovers(Dictionary(m), Ground(0, false), BodyScript(b, 0));
  }

  /** All of this for the text that a visit of the module with this dictionary writes. */
  lemma TextFacts(m: Precedences, b: seq<Stmt>)
    ensures var text := Text(Dictionary(m), Ground(0, false), BodyScript(b, 0));
            ValidStmts(b) ==>
              && (text == Printed(b, 0) <==> Faithfully(m, b))
              && (NoPairMissing(m, b) ==> (ReadsBack(text, b) <==> CleanAll(b)))
    ensures Faithfully(m, b) ==> NoPairMissing(m, b)
  {
    hide Text, Agrees, Covers, BodyScript, Printed, ValidStmts, ReadsBack, CleanAll;
    if Faithfully(m, b) { FaithfulMissesNone(m, b); }
    if ValidStmts(b) {
      TextIffFaithful(m, b);
      if NoPairMissing(m, b) { ExtraPairsRead(m, b); }
    }
  }

  lemma NothingBefore(ts: seq<Token>)
    ensures [] + ts == ts
  {
  }

  /** For every tree, shared nodes or not, unparsing refuses exactly a `raise` with a cause
      but no exception, and an integer too long to be written. On valid trees its text is
      the text of the tree if and only if every decision on parentheses is what the context
      asks; so it is when no node is asked two precedences, and when no node is shared.
      Then, and wherever the only other decisions are further parentheses, not around the key
      of a mapping pattern, parsing it gives an equal tree if and only if no `with` has a lone
      plain tuple as its context manager. */
  method UnparseModule(b: seq<Stmt>, limit: nat) returns (r: Outcome, text: seq<Token>)
    ensures r.Returned? == (PrintableAll(b) && Short(limit, Printed(b, 0)))
    ensures ValidStmts(b) ==> PrintableAll(b)
    ensures r.Returned? ==> text == Text(Dictionary(map[]), Ground(0, false), BodyScript(b, 0))
    ensures r.Returned? && ValidStmts(b) ==> (text == Printed(b, 0) <==> Faithfully(map[], b))
    ensures r.Returned? && OnePrecedence(b) ==> text == Printed(b, 0)
    ensures r.Returned? && NoSharedNodes(b) ==> text == Printed(b, 0)
    ensures Faithfully(map[], b) ==> NoPairMissing(map[], b)
    ensures r.Returned? && ValidStmts(b) && NoPairMissing(map[], b) ==> (ReadsBack(text, b) <==> CleanAll(b))
  {
    var unparser := new Unparser(limit);
    ghost var s := unparser.Now();
    r, text := unparser.Visit(b);
    NothingBefore(Text(Dictionary(map[]), Ground(0, false), BodyScript(b, 0)));
    hide Text, Done, Fails, BodyScript, Printed, ValidStmts, ReadsBack, ParseModule, CleanAll, PrintableAll, Agrees,
        Wants, Covers;
    BodyRun(s, b);
    TextFacts(map[], b);
    if ValidStmts(b) { AllPrintable(b); }
    if NoSharedNodes(b) { UnsharedOneEach(Ground(0, false), BodyScript(b, 0)); }
    if OnePrecedence(b) {
      OnePrecedenceIsFaithful(map[], b);
      AgreeingText(Dictionary(map[]), Context, Ground(0, false), BodyScript(b, 0));
    }
  }

  /** A tree visited three times by one unparser. From the second visit on the text stays
      the same; the second is the first if and only if the dictionary that the first visit
      left decides as the empty one did, as it does when no node is asked two precedences. It
      reads back under the same condition as the first, asked of that dictionary. */
  method VisitAgain(b: seq<Stmt>, limit: nat) returns (r: Outcome, first: seq<Token>, second: seq<Token>,
      third: seq<Token>)
    ensures r.Returned? == (PrintableAll(b) && Short(limit, Printed(b, 0)))
    ensures r.Returned? ==> second == third
    ensures r.Returned? ==> first == Text(Dictionary(map[]), Ground(0, false), BodyScript(b, 0))
    ensures r.Returned? ==> second == Text(Dictionary(Entries(BodyScript(b, 0))), Ground(0, false), BodyScript(b, 0))
    ensures r.Returned? && ValidStmts(b) ==> (second == Printed(b, 0) <==> Faithfully(Entries(BodyScript(b, 0)), b))
    ensures r.Returned? && ValidStmts(b) && NoPairMissing(Entries(BodyScript(b, 0)), b) ==>
              (ReadsBack(second, b) <==> CleanAll(b))
    ensures r.Returned? && ValidStmts(b) ==>
              (second == first <==>
               Agrees(Dictionary(Entries(BodyScript(b, 0))), Dictionary(map[]), Ground(0, false), BodyScript(b, 0)))
    ensures r.Returned? && OnePrecedence(b) ==> first == second == Printed(b, 0)
  {
    ghost var c, d := Ground(0, false), BodyScript(b, 0);
    ghost var m := Entries(d);
    ghost var none: Precedences := map[];
    assert none + m == m && m + m == m;
    first, second, third := [], [], [];
    var unparser := new Unparser(limit);
    hide Text, Done, Fails, Entries, BodyScript, Printed, ValidStmts, PrintableAll, Agrees, Wants, Proper, Covers,
        ReadsBack, ParseModule, CleanAll;
    BodyRun(unparser.Now(), b);
    r, first := unparser.Visit(b);
    if r.Raised? { return; }
    assert first == Text(Dictionary(none), c, d) by { NothingBefore(Text(Dictionary(none), c, d)); }
    NothingBefore(Text(Dictionary(m), c, d));
    BodyRun(unparser.Now().(source := []), b);
    r, second := unparser.Visit(b);
    assert second == Text(Dictionary(m), c, d);
    BodyRun(unparser.Now().(source := []), b);
    r, third := unparser.Visit(b);
    TextFacts(m, b);
    if ValidStmts(b) {
      assert b[0..] == b;
      BodyShaped(true, b, 0);
      Exactly(Dictionary(m), Dictionary(none), c, d);
    }
    if OnePrecedence(b) {
      OnePrecedenceIsFaithful(none, b);
      OnePrecedenceIsFaithful(m, b);
      AgreeingText(Dictionary(none), Context, c, d);
      AgreeingText(Dictionary(m), Context, c, d);
    }
  }

  /* ----- where the promise fails ----- */

  const SHARED := Yield(2, None)

  /** A tree with one `yield` node both as a statement and as the value of a `return`: the
      statement asks YIELD of the node, the `return` finds it still asked, and the text
      does not parse. */
  method SharedYield(limit: nat) returns (r: Outcome, text: seq<Token>)
    ensures ValidStmts([ExprStmt(SHARED), Return(Some(SHARED))])
    ensures r.Returned? && text == [Line(0), KwYield, Line(0), KwReturn, KwYield] && ParseModule(text) == Fail
  {
    var b := [ExprStmt(SHARED), Return(Some(SHARED))];
    hide Text, Printed, BodyScript, ParseModule, ValidStmts, PrintableAll, Agrees, Wants;
    TwoValid(ExprStmt(SHARED), Return(Some(SHARED)));
    YieldFirst(map[]);
    YieldFirstFails();
    r, text := UnparseModule(b, limit);
  }

  /** The same two statements in the other order: the first visit writes a text that parses,
      but a second visit by the same unparser does not. */
  method SecondVisit(limit: nat) returns (r: Outcome, first: seq<Token>, second: seq<Token>)
    ensures ValidStmts([Return(Some(SHARED)), ExprStmt(SHARED)])
    ensures r.Returned? && first == Printed([Return(Some(SHARED)), ExprStmt(SHARED)], 0)
    ensures second == [Line(0), KwReturn, KwYield, Line(0), KwYield] && ParseModule(second) == Fail
  {
    var b := [Return(Some(SHARED)), ExprStmt(SHARED)];
    hide Text, Printed, BodyScript, Entries, ParseModule, ValidStmts, PrintableAll, Agrees, Wants;
    TwoValid(Return(Some(SHARED)), ExprStmt(SHARED));
    YieldLast(map[]);
    YieldLast(map[2 := YIELD]);
    YieldLastFails();
    var third: seq<Token>;
    r, first, second, third := VisitAgain(b, limit);
  }

  lemma TwoValid(s: Stmt, t: Stmt)
    requires {s, t} == {ExprStmt(SHARED), Return(Some(SHARED))}
    ensures ValidStmts([s, t]) && PrintableAll([s, t])
  {
    assert [s, t][1..] == [t] && [t][1..] == [];
    assert ValidStmt(s) && ValidStmt(t) && Printable(s) && Printable(t);
    assert ValidStmts([t]) && PrintableAll([t]);
  }

  lemma YieldNode(j: Judge, c: Place)
    ensures Text(j, c, ExprScript(SHARED)) == if j.Level(c, 2) > YIELD then [LPar, KwYield, RPar] else [KwYield]
    ensures Entries(ExprScript(SHARED)) == map[]
  {
    assert ExprScript(SHARED) == Node(2, YIELD, Put([KwYield]));
  }

  lemma AskedYield(j: Judge, c: Place)
    ensures Text(j, c, Asked(YIELD, SHARED)) == [KwYield] && Entries(Asked(YIELD, SHARED)) == map[2 := YIELD]
  {
    var k, d := j.Told([2], YIELD), c.Ask([2], YIELD);
    YieldNode(k, d);
    assert k.Level(d, 2) == YIELD;
    hide ExprScript;
    AskedText(j, c, ExprScript(SHARED));
  }

  lemma AskedText(j: Judge, c: Place, b: Script)
    ensures Text(j, c, Asking([2], YIELD, b)) == Text(j.Told([2], YIELD), c.Ask([2], YIELD), b)
    ensures Entries(b) == map[] ==> Entries(Asking([2], YIELD, b)) == map[2 := YIELD]
  {
  }

  lemma YieldStmt(j: Judge, c: Place)
    ensures var d := StmtScript(ExprStmt(SHARED));
            Text(j, c, d) == [Line(c.indent), KwYield] && Entries(d) == map[2 := YIELD]
  {
    var line, k := NewLine([]), Asked(YIELD, SHARED);
    assert StmtScript(ExprStmt(SHARED)) == Then(line, k);
    assert Text(j, c, line) == [Line(c.indent)] && Entries(line) == map[];
    hide Asked, ExprScript, StmtScript, Text, Entries;
    AskedYield(j.Later(line), c);
    ThenText(0, j, c, line, k);
  }

  lemma YieldReturn(j: Judge, c: Place)
    ensures var d := StmtScript(Return(Some(SHARED)));
            && Text(j, c, d) == [Line(c.indent), KwReturn]
                                + (if j.Level(c, 2) > YIELD then [LPar, KwYield, RPar] else [KwYield])
            && Entries(d) == map[]
  {
    var line, k := NewLine([KwReturn]), ExprScript(SHARED);
    assert StmtScript(Return(Some(SHARED))) == Then(line, k);
    assert Text(j, c, line) == [Line(c.indent), KwReturn] && Entries(line) == map[];
    assert j.Later(line).Level(c, 2) == j.Level(c, 2);
    hide ExprScript, StmtScript, Text, Entries;
    YieldNode(j.Later(line), c);
    ThenText(0, j, c, line, k);
  }

  lemma TwoStmts(j: Judge, c: Place, s: Stmt, t: Stmt)
    ensures var d := BodyScript([s, t], 0);
            && Text(j, c, d) == Text(j, c, StmtScript(s)) + Text(j.Later(StmtScript(s)), c, StmtScript(t))
            && Entries(d) == Entries(StmtScript(s)) + Entries(StmtScript(t))
  {
    var b := [s, t];
    assert BodyScript(b, 2) == Nothing;
    hide StmtScript;
    assert BodyScript(b, 1) == Then(StmtScript(t), Nothing);
    assert BodyScript(b, 0) == Then(StmtScript(s), Then(StmtScript(t), Nothing));
    assert Text(j, c, Nothing) == [] && Entries(Nothing) == map[];
    hide BodyScript, Text, Entries;
    var k := j.Later(StmtScript(s));
    LastStmt(k, c, t);
    ThenText(0, j, c, StmtScript(s), Then(StmtScript(t), Nothing));
  }

  lemma LastStmt(j: Judge, c: Place, t: Stmt)
    ensures Text(j, c, Then(StmtScript(t), Nothing)) == Text(j, c, StmtScript(t))
    ensures Entries(Then(StmtScript(t), Nothing)) == Entries(StmtScript(t))
  {
    hide StmtScript;
    assert Text(j.Later(StmtScript(t)), c, Nothing) == [] && Entries(Nothing) == map[];
    hide Text, Entries;
    ThenText(0, j, c, StmtScript(t), Nothing);
  }

  lemma YieldFirst(m: Precedences)
    requires m == map[]
    ensures var b, c := [ExprStmt(SHARED), Return(Some(SHARED))], Ground(0, false);
            && Text(Dictionary(m), c, BodyScript(b, 0)) == [Line(0), KwYield, Line(0), KwReturn, KwYield]
            && Printed(b, 0) == [Line(0), KwYield, Line(0), KwReturn, LPar, KwYield, RPar]
  {
    var b, c := [ExprStmt(SHARED), Return(Some(SHARED))], Ground(0, false);
    hide StmtScript, BodyScript, Text, Entries, Printed;
    assert b[0..] == b;
    PrintedIs(c, b);
    FirstThenReturn(Dictionary(m), c);
    FirstThenReturn(Context, c);
  }

  lemma FirstThenReturn(j: Judge, c: Place)
    ensures Text(j, c, BodyScript([ExprStmt(SHARED), Return(Some(SHARED))], 0))
         == [Line(c.indent), KwYield, Line(c.indent), KwReturn]
            + (if j.Later(StmtScript(ExprStmt(SHARED))).Level(c, 2) > YIELD then [LPar, KwYield, RPar] else [KwYield])
    ensures Entries(StmtScript(ExprStmt(SHARED))) == map[2 := YIELD]
  {
    hide StmtScript, BodyScript, Text, Entries;
    YieldStmt(j, c);
    YieldReturn(j.Later(StmtScript(ExprStmt(SHARED))), c);
    TwoStmts(j, c, ExprStmt(SHARED), Return(Some(SHARED)));
  }

  lemma YieldLast(m: Precedences)
    ensures var b, c := [Return(Some(SHARED)), ExprStmt(SHARED)], Ground(0, false);
            && Text(Dictionary(m), c, BodyScript(b, 0))
               == [Line(0), KwReturn] + (if Find(m, 2) > YIELD then [LPar, KwYield, RPar] else [KwYield])
                   + [Line(0), KwYield]
            && Printed(b, 0) == [Line(0), KwReturn] + [LPar, KwYield, RPar] + [Line(0), KwYield]
            && Entries(BodyScript(b, 0)) == map[2 := YIELD]
  {
    var b, c := [Return(Some(SHARED)), ExprStmt(SHARED)], Ground(0, false);
    hide StmtScript, BodyScript, Text, Entries, Printed;
    assert b[0..] == b;
    PrintedIs(c, b);
    ReturnThenLast(Dictionary(m), c);
    ReturnThenLast(Context, c);
  }

  lemma ReturnThenLast(j: Judge, c: Place)
    ensures var d := BodyScript([Return(Some(SHARED)), ExprStmt(SHARED)], 0);
            && Text(j, c, d) == [Line(c.indent), KwReturn]
                                + (if j.Level(c, 2) > YIELD then [LPar, KwYield, RPar] else [KwYield])
                                + [Line(c.indent), KwYield]
            && Entries(d) == map[2 := YIELD]
  {
    hide StmtScript, BodyScript, Text, Entries;
    YieldReturn(j, c);
    YieldStmt(j.Later(StmtScript(Return(Some(SHARED)))), c);
    TwoStmts(j, c, Return(Some(SHARED)), ExprStmt(SHARED));
  }

  lemma YieldFirstFails()
    ensures ParseModule([Line(0), KwYield, Line(0), KwReturn, KwYield]) == Fail
  {
    var rest := [Line(0), KwReturn, KwYield];
    assert [Line(0), KwYield, Line(0), KwReturn, KwYield] == [Line(0)] + ([KwYield] + rest);
    LeftOver([Line(0)] + ([KwYield] + rest), [KwYield]);
    hide ParseStmt, ParseBody, ParseModule;
    YieldLine(rest);
    BodyNext(0, [KwYield] + rest, ExprStmt(Yield(0, None)), rest);
    ReturnLine();
  }

  /** A body that stops before the end is no module. */
  lemma LeftOver(ts: seq<Token>, rest: seq<Token>)
    requires ts != [] && rest != []
    ensures ParseBody(0, ts).Ok? && ParseBody(0, ts).rest == rest ==> ParseModule(ts) == Fail
  {
    hide ParseBody;
  }

  lemma ReturnLine()
    ensures ParseBody(0, [Line(0), KwReturn, KwYield]) == Ok([Return(None)], [KwYield])
  {
    hide ParseStmt, ParseBody;
    assert [Line(0), KwReturn, KwYield] == [Line(0)] + ([KwReturn] + [KwYield]);
    ReturnRead(0, [KwYield]);
    BodyNext(0, [KwReturn] + [KwYield], Return(None), [KwYield]);
  }

  lemma YieldLastFails()
    ensures ParseModule([Line(0), KwReturn, KwYield, Line(0), KwYield]) == Fail
  {
    var ts := [KwYield, Line(0), KwYield];
    assert [Line(0), KwReturn, KwYield, Line(0), KwYield] == [Line(0)] + ([KwReturn] + ts);
    LeftOver([Line(0)] + ([KwReturn] + ts), ts);
    hide ParseStmt, ParseBody, ParseModule;
    ReturnRead(0, ts);
    BodyNext(0, [KwReturn] + ts, Return(None), ts);
  }

  lemma YieldLine(rest: seq<Token>)
    requires At(rest, Line(0)) && rest[1..] != [] && !IsClause(rest[1])
    ensures ParseStmt(0, [KwYield] + rest) == Ok(ExprStmt(Yield(0, None)), rest)
  {
    hide ParseStmt;
    var s := ExprStmt(SHARED);
    assert LineToks(s, 0) == [KwYield] && Image(true, s) == ExprStmt(Yield(0, None));
    hide LineToks, Image;
    StmtRoundTrip.StmtRoundTrip(s, 0, rest);
  }

}
