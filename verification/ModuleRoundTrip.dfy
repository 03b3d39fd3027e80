/** The unparser's promise for whole modules, and exactly where it fails. */
module ModuleRoundTrip {
  import opened Options
  import opened PyAst
  import opened Tokens
  import opened ExprGrammar
  import opened StmtText
  import opened StmtGrammar
  import opened WithRoundTrip
  import opened StmtRoundTrip
  import opened ParsedStmts

  /** No `with` statement whose only context manager is a non-empty tuple without
      starred elements and without `as`. */
  predicate Clean(s: Stmt)
    decreases s, 1
  {
    match s
    case If(_, b, o) => CleanAll(b) && CleanAll(o)
    case While(_, b, o) => CleanAll(b) && CleanAll(o)
    case For(_, _, b, o) => CleanAll(b) && CleanAll(o)
    case With(items, b) => !SoleTuple(items) && CleanAll(b)
    case Try(_, b, hs, o, f) => CleanAll(b) && CleanHandlers(hs) && CleanAll(o) && CleanAll(f)
    case Match(_, cs) => CleanCases(cs)
    case _ => true
  }

  predicate CleanAll(b: seq<Stmt>)
    decreases b, 0
  {
    b == [] || (Clean(b[0]) && CleanAll(b[1..]))
  }

  predicate CleanHandler(h: Handler)
    decreases h, 0
  {
    CleanAll(h.body)
  }

  predicate CleanHandlers(hs: seq<Handler>)
    decreases hs, 0
  {
    hs == [] || (CleanHandler(hs[0]) && CleanHandlers(hs[1..]))
  }

  predicate CleanCase(c: Case)
    decreases c, 0
  {
    CleanAll(c.body)
  }

  predicate CleanCases(cs: seq<Case>)
    decreases cs, 0
  {
    cs == [] || (CleanCase(cs[0]) && CleanCases(cs[1..]))
  }

  lemma SameCons<T>(a: T, b: T, s: seq<T>, t: seq<T>)
    ensures [a] + s == [b] + t <==> a == b && s == t
  {
    if [a] + s == [b] + t {
      assert ([a] + s)[0] == a && ([b] + t)[0] == b;
      assert ([a] + s)[1..] == s && ([b] + t)[1..] == t;
    }
  }

  lemma {:induction false} StmtKept(s: Stmt)
    ensures Image(true, s) == Image(false, s) <==> Clean(s)
    decreases s, 1
  {
    hide ImageItems, SoleTuple, ImageAll, ImageHandlers, ImageCases, CleanAll, CleanHandlers, CleanCases;
    match s
    case If(_, b, o) => AllKept(b); AllKept(o);
    case While(_, b, o) => AllKept(b); AllKept(o);
    case For(_, _, b, o) => AllKept(b); AllKept(o);
    case With(items, b) => AllKept(b); ItemsKept(items); WithoutReread(items);
    case Try(_, b, hs, o, f) => AllKept(b); HandlersKept(hs); AllKept(o); AllKept(f);
    case Match(_, cs) => CasesKept(cs);
    case _ =>
  }

  lemma WithoutReread(items: seq<WithItem>)
    ensures ImageItems(false, items) == EraseItems(items)
  {
  }

  lemma {:induction false} AllKept(b: seq<Stmt>)
    ensures ImageAll(true, b) == ImageAll(false, b) <==> CleanAll(b)
    decreases b, 0
  {
    hide Image, Clean;
    if b != [] {
      StmtKept(b[0]);
      AllKept(b[1..]);
      SameCons(Image(true, b[0]), Image(false, b[0]), ImageAll(true, b[1..]), ImageAll(false, b[1..]));
    }
  }

  lemma {:induction false} HandlerKept(h: Handler)
    ensures ImageHandler(true, h) == ImageHandler(false, h) <==> CleanHandler(h)
    decreases h, 0
  {
    AllKept(h.body);
  }

  lemma {:induction false} HandlersKept(hs: seq<Handler>)
    ensures ImageHandlers(true, hs) == ImageHandlers(false, hs) <==> CleanHandlers(hs)
    decreases hs, 0
  {
    hide ImageHandler, CleanHandler;
    if hs != [] {
      HandlerKept(hs[0]);
      HandlersKept(hs[1..]);
      SameCons(ImageHandler(true, hs[0]), ImageHandler(false, hs[0]), ImageHandlers(true, hs[1..]),
          ImageHandlers(false, hs[1..]));
    }
  }

  lemma {:induction false} CaseKept(c: Case)
    ensures ImageCase(true, c) == ImageCase(false, c) <==> CleanCase(c)
    decreases c, 0
  {
    AllKept(c.body);
  }

  lemma {:induction false} CasesKept(cs: seq<Case>)
    ensures ImageCases(true, cs) == ImageCases(false, cs) <==> CleanCases(cs)
    decreases cs, 0
  {
    hide ImageCase, CleanCase;
    if cs != [] {
      CaseKept(cs[0]);
      CasesKept(cs[1..]);
      SameCons(ImageCase(true, cs[0]), ImageCase(false, cs[0]), ImageCases(true, cs[1..]), ImageCases(false, cs[1..]));
    }
  }

  /** For every valid module, any nodes of which may be marked for parentheses that they do
      not need: parsing its text gives an equal tree if and only if
      no `with` statement has a lone plain tuple for its context manager. */
  lemma ModuleRoundTrip(b: seq<Stmt>)
    requires ValidStmts(b)
    ensures ParseModule(BodyToks(b, 0)) == Ok(ImageAll(false, b), []) <==> CleanAll(b)
  {
    ModuleRead(b);
    AllKept(b);
  }

  /** Whatever text the grammar accepts: its tree is valid, and unparsing and parsing again
      gives the same tree if and only if no `with` has a lone plain tuple. */
  lemma ReparseIff(ts: seq<Token>)
    requires ParseModule(ts).Ok?
    ensures var b := ParseModule(ts).value;
            ValidStmts(b) && (ParseModule(BodyToks(b, 0)) == ParseModule(ts) <==> CleanAll(b))
  {
    hide ParseBody, CleanAll, ValidStmts, ImageAll, BodyToks;
    ModuleYields(ts);
    var b := ParseModule(ts).value;
    assert ParseModule(ts) == Ok(b, []);
    hide ParseModule;
    ModuleRoundTrip(b);
  }

  /** The smallest failing module, `with (a,): pass`, reads as `with a: pass`. */
  lemma LoneTupleFails()
    ensures var a := Name(1, "a");
            var b := [With([WithItem(Tuple(2, [a]), None)], [Pass])];
            ValidStmts(b) &&
            ParseModule(BodyToks(b, 0)) == Ok([With([WithItem(Name(0, "a"), None)], [Pass])], [])
  {
    hide ParseModule, BodyToks;
    var a := Name(1, "a");
    var items := [WithItem(Tuple(2, [a]), None)];
    var b := [With(items, [Pass])];
    assert ValidElts([a]) && Valid(Tuple(2, [a])) by { assert ValidElts([a][1..]); }
    assert ValidItems(items) by { assert ValidItems(items[1..]); }
    assert ValidStmts([Pass]) by { assert ValidStmts([Pass][1..]); }
    assert ValidStmt(b[0]) && ValidStmts(b[1..]);
    assert ValidStmts(b);
    ModuleRead(b);
    assert NoStarred([a]) by { assert NoStarred([a][1..]); }
    assert ItemsOf([a]) == [WithItem(Name(0, "a"), None)];
    assert ImageAll(true, [Pass]) == [Pass];
    assert ImageAll(true, b) == [Image(true, b[0])];
  }
}
