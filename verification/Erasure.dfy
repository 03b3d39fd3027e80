/** Forgetting identities twice is forgetting them once, and changes neither validity nor
    what the text reads as. */
module Erasure {
  import opened Options
  import opened PyAst
  import opened PatternText
  import opened StmtText
  import opened HeaderRoundTrip

  /* ----- expressions ----- */

  lemma {:induction false} ExprErased(e: Expr)
    ensures Erase(Erase(e)) == Erase(e) && Valid(Erase(e)) == Valid(e)
    ensures Erase(e).Starred? == e.Starred? && Erase(e).id == 0
    decreases e, 1
  {
    hide Valid, Erase;
    match e
    case Name(_, _) => LeafErased(e);
    case Constant(_, _) => LeafErased(e);
    case NamedExpr(_, _, _) => OperatorErased(e);
    case IfExp(_, _, _, _) => OperatorErased(e);
    case Lambda(_, _, _) => OperatorErased(e);
    case BoolOp(_, _, _) => OperatorErased(e);
    case UnaryOp(_, _, _) => OperatorErased(e);
    case Compare(_, _, _, _) => OperatorErased(e);
    case BinOp(_, _, _, _) => OperatorErased(e);
    case Await(_, _) => OperatorErased(e);
    case Yield(_, _) => OperatorErased(e);
    case YieldFrom(_, _) => OperatorErased(e);
    case Tuple(_, _) => PrimaryErased(e);
    case List(_, _) => PrimaryErased(e);
    case Attribute(_, _, _) => PrimaryErased(e);
    case Call(_, _, _, _) => PrimaryErased(e);
    case Subscript(_, _, _) => PrimaryErased(e);
    case Starred(_, _) => PrimaryErased(e);
  }

  lemma LeafErased(e: Expr)
    requires e.Name? || e.Constant?
    ensures Erase(Erase(e)) == Erase(e) && Valid(Erase(e)) == Valid(e)
    ensures Erase(e).Starred? == e.Starred? && Erase(e).id == 0
  {
  }

  lemma {:induction false} OperatorErased(e: Expr)
    requires e.NamedExpr? || e.IfExp? || e.Lambda? || e.BoolOp? || e.UnaryOp? || e.Compare? || e.BinOp? || e.Await?
             || e.Yield? || e.YieldFrom?
    ensures Erase(Erase(e)) == Erase(e) && Valid(Erase(e)) == Valid(e)
    ensures Erase(e).Starred? == e.Starred? && Erase(e).id == 0
    decreases e, 0
  {
    hide ValidAll, EraseAll, ValidArguments, EraseArguments;
    match e
    case NamedExpr(_, t, v) => ExprErased(t); ExprErased(v);
    case IfExp(_, t, b, o) => ExprErased(t); ExprErased(b); ExprErased(o);
    case Lambda(_, a, b) => ArgumentsErased(a); ExprErased(b);
    case BoolOp(_, _, vs) => AllErased(vs);
    case UnaryOp(_, _, x) => ExprErased(x);
    case Compare(_, l, _, cs) => ExprErased(l); AllErased(cs);
    case BinOp(_, l, _, r) => ExprErased(l); ExprErased(r);
    case Await(_, v) => ExprErased(v);
    case Yield(_, v) => if v.Some? { EltErased(v.value); }
    case YieldFrom(_, v) => ExprErased(v);
  }

  lemma {:induction false} PrimaryErased(e: Expr)
    requires e.Tuple? || e.List? || e.Attribute? || e.Call? || e.Subscript? || e.Starred?
    ensures Erase(Erase(e)) == Erase(e) && Valid(Erase(e)) == Valid(e)
    ensures Erase(e).Starred? == e.Starred? && Erase(e).id == 0
    decreases e, 0
  {
    hide ValidElts, EraseAll, ValidKeywords, EraseKeywords;
    match e
    case Tuple(_, es) => AllErased(es);
    case List(_, es) => AllErased(es);
    case Attribute(_, v, _) => ExprErased(v);
    case Call(_, f, es, ks) => ExprErased(f); AllErased(es); KeywordsErased(ks);
    case Subscript(_, v, s) => ExprErased(v); ExprErased(s);
    case Starred(_, v) => ExprErased(v);
  }

  lemma {:induction false} EltErased(e: Expr)
    ensures Erase(Erase(e)) == Erase(e) && ValidElt(Erase(e)) == ValidElt(e)
    decreases e, 2
  {
    ExprErased(e);
    if e.Starred? { ExprErased(e.starred); }
    hide Valid;
  }

  lemma {:induction false} AllErased(es: seq<Expr>)
    ensures EraseAll(EraseAll(es)) == EraseAll(es)
    ensures ValidElts(EraseAll(es)) == ValidElts(es) && ValidAll(EraseAll(es)) == ValidAll(es)
    decreases es, 0
  {
    hide Erase, Valid;
    if es != [] {
      ExprErased(es[0]);
      EltErased(es[0]);
      AllErased(es[1..]);
      assert EraseAll(es)[1..] == EraseAll(es[1..]);
      hide ValidElt;
    }
  }

  lemma {:induction false} KeywordsErased(ks: seq<Keyword>)
    ensures EraseKeywords(EraseKeywords(ks)) == EraseKeywords(ks)
    ensures ValidKeywords(EraseKeywords(ks)) == ValidKeywords(ks)
    decreases ks, 0
  {
    hide EraseKeyword, ValidKeyword;
    if ks != [] {
      KeywordErased(ks[0]);
      KeywordsErased(ks[1..]);
      assert EraseKeywords(ks)[1..] == EraseKeywords(ks[1..]);
    }
  }

  lemma {:induction false} KeywordErased(k: Keyword)
    ensures EraseKeyword(EraseKeyword(k)) == EraseKeyword(k) && ValidKeyword(EraseKeyword(k)) == ValidKeyword(k)
    decreases k, 0
  {
    ExprErased(k.value);
    hide Erase, Valid;
  }

  lemma {:induction false} KwOnlyErased(ks: seq<KwOnly>)
    ensures EraseKwOnly(EraseKwOnly(ks)) == EraseKwOnly(ks)
    ensures ValidKwOnly(EraseKwOnly(ks)) == ValidKwOnly(ks)
    decreases ks, 0
  {
    hide Erase, Valid;
    if ks != [] {
      if ks[0].default.Some? { ExprErased(ks[0].default.value); }
      KwOnlyErased(ks[1..]);
      assert EraseKwOnly(ks)[1..] == EraseKwOnly(ks[1..]);
    }
  }

  lemma {:induction false} ArgumentsErased(a: Arguments)
    ensures EraseArguments(EraseArguments(a)) == EraseArguments(a)
    ensures ValidArguments(EraseArguments(a)) == ValidArguments(a)
    decreases a, 0
  {
    hide ValidAll, EraseAll, ValidKwOnly, EraseKwOnly;
    AllErased(a.defaults);
    KwOnlyErased(a.kwonly);
  }

  lemma OptErased(e: Option<Expr>)
    ensures EraseOpt(EraseOpt(e)) == EraseOpt(e)
    ensures ValidOpt(EraseOpt(e)) == ValidOpt(e) && ValidOptElt(EraseOpt(e)) == ValidOptElt(e)
  {
    hide Erase, Valid, ValidElt;
    if e.Some? {
      ExprErased(e.value);
      EltErased(e.value);
    }
  }

  /* ----- patterns ----- */

  lemma {:induction false} DottedKept(e: Expr)
    ensures Dotted(Erase(e)) == Dotted(e)
  {
    if e.Attribute? { DottedKept(e.base); }
  }

  lemma ValueErased(e: Expr)
    ensures ValueExpr(Erase(e)) == ValueExpr(e) && KeyExpr(Erase(e)) == KeyExpr(e)
  {
    DottedKept(e);
    hide EraseAll, EraseKeywords, EraseArguments, Dotted;
  }

  lemma {:induction false} PatternErased(p: Pattern)
    ensures ErasePattern(ErasePattern(p)) == ErasePattern(p)
    ensures ValidPattern(ErasePattern(p)) == ValidPattern(p) && ValidElement(ErasePattern(p)) == ValidElement(p)
    decreases p, 1
  {
    hide Erase, ValueExpr, Dotted, ValidElements, ValidPatterns, ErasePatterns, ValidEntries, EraseEntries;
    hide ValidAttrs, EraseAttrs;
    match p
    case MatchValue(_, v) => ExprErased(v); ValueErased(v);
    case MatchSequence(_, ps) => PatternsErased(ps);
    case MatchMapping(_, es, _) => EntriesErased(es);
    case MatchClass(_, c, ps, as') => ExprErased(c); DottedKept(c); PatternsErased(ps); AttrsErased(as');
    case MatchAs(_, q, _) => if q.Some? { PatternErased(q.value); }
    case MatchOr(_, ps) => PatternsErased(ps);
    case _ =>
  }

  lemma {:induction false} PatternsErased(ps: seq<Pattern>)
    ensures ErasePatterns(ErasePatterns(ps)) == ErasePatterns(ps)
    ensures ValidPatterns(ErasePatterns(ps)) == ValidPatterns(ps)
    ensures ValidElements(ErasePatterns(ps)) == ValidElements(ps)
    decreases ps, 0
  {
    hide ErasePattern, ValidPattern, ValidElement;
    if ps != [] {
      PatternErased(ps[0]);
      PatternsErased(ps[1..]);
      assert ErasePatterns(ps)[1..] == ErasePatterns(ps[1..]);
    }
  }

  lemma {:induction false} EntriesErased(es: seq<Entry>)
    ensures EraseEntries(EraseEntries(es)) == EraseEntries(es) && |EraseEntries(es)| == |es|
    ensures ValidEntries(EraseEntries(es)) == ValidEntries(es)
    decreases es, 0
  {
    hide EraseEntry, ValidEntry;
    if es != [] {
      EntryErased(es[0]);
      EntriesErased(es[1..]);
      assert EraseEntries(es)[1..] == EraseEntries(es[1..]);
    }
  }

  lemma {:induction false} EntryErased(e: Entry)
    ensures EraseEntry(EraseEntry(e)) == EraseEntry(e) && ValidEntry(EraseEntry(e)) == ValidEntry(e)
    decreases e, 0
  {
    ExprErased(e.key);
    ValueErased(e.key);
    PatternErased(e.pattern);
    hide ErasePattern, ValidPattern, Erase, KeyExpr;
  }

  lemma {:induction false} AttrsErased(as': seq<AttrPattern>)
    ensures EraseAttrs(EraseAttrs(as')) == EraseAttrs(as') && |EraseAttrs(as')| == |as'|
    ensures ValidAttrs(EraseAttrs(as')) == ValidAttrs(as')
    decreases as', 0
  {
    hide ErasePattern, ValidPattern;
    if as' != [] {
      PatternErased(as'[0].pattern);
      AttrsErased(as'[1..]);
      assert EraseAttrs(as')[1..] == EraseAttrs(as'[1..]);
    }
  }

  /* ----- statements ----- */

  lemma TargetKept(e: Expr)
    ensures ValidTarget(Erase(e)) == ValidTarget(e)
    ensures IsSingleTarget(Erase(e)) == IsSingleTarget(e)
  {
    EltErased(e);
    TargetEltErased(e);
    hide ValidElt, IsTargetElt;
  }

  lemma {:induction false} TargetsKept(ts: seq<Expr>)
    ensures ValidTargets(EraseAll(ts)) == ValidTargets(ts)
  {
    hide Erase, ValidTarget;
    if ts != [] {
      TargetKept(ts[0]);
      TargetsKept(ts[1..]);
      assert EraseAll(ts)[1..] == EraseAll(ts[1..]);
    }
  }

  lemma {:induction false} ItemsErased(items: seq<WithItem>)
    ensures EraseItems(EraseItems(items)) == EraseItems(items) && |EraseItems(items)| == |items|
    ensures ValidItems(EraseItems(items)) == ValidItems(items)
  {
    hide Erase, Valid, ValidTarget;
    if items != [] {
      ExprErased(items[0].context);
      OptErased(items[0].vars);
      if items[0].vars.Some? { TargetKept(items[0].vars.value); }
      ItemsErased(items[1..]);
      assert EraseItems(items)[1..] == EraseItems(items[1..]);
    }
  }

  lemma {:induction false} NoStarredErased(es: seq<Expr>)
    ensures NoStarred(EraseAll(es)) == NoStarred(es) && ItemsOf(EraseAll(es)) == ItemsOf(es)
  {
    hide Erase;
    if es != [] {
      ExprErased(es[0]);
      NoStarredErased(es[1..]);
      assert EraseAll(es)[1..] == EraseAll(es[1..]);
    }
  }

  lemma SoleErased(items: seq<WithItem>, reread: bool)
    ensures ImageItems(reread, EraseItems(items)) == ImageItems(reread, items)
  {
    ItemsErased(items);
    if |items| == 1 {
      assert EraseItems(items) == [EraseItem(items[0])];
      var c := items[0].context;
      KindErased(c);
      if c.Tuple? { NoStarredErased(c.elts); }
    }
    hide Erase;
  }

  lemma KindErased(c: Expr)
    ensures Erase(c).Tuple? == c.Tuple? && (c.Tuple? ==> Erase(c).elts == EraseAll(c.elts))
  {
    hide EraseAll, EraseKeywords, EraseArguments;
  }

  lemma {:induction false} StmtErased(s: Stmt, reread: bool)
    ensures Image(reread, Image(false, s)) == Image(reread, s) && ValidStmt(Image(false, s)) == ValidStmt(s)
    decreases s, 1
  {
    hide Erase, EraseAll, Valid, ValidElt, ValidTarget, ValidTargets, EraseOpt, ValidOpt, ValidOptElt, ImageAll;
    hide ValidStmts, ImageHandlers, ValidHandlers, AllTyped, ImageCases, ValidCases, ValidItems, ImageItems;
    hide EraseItems, IsSingleTarget;
    match s
    case ExprStmt(v) => EltErased(v);
    case AssignStmt(ts, v) => AllErased(ts); TargetsKept(ts); EltErased(v);
    case AugAssign(t, _, v) => ExprErased(t); TargetKept(t); EltErased(v);
    case Return(v) => OptErased(v);
    case Raise(e, c) => OptErased(e); OptErased(c); OptKind(e); OptKind(c);
    case If(t, b, o) => ExprErased(t); BodyErased(b, reread); BodyErased(o, reread);
    case While(t, b, o) => ExprErased(t); BodyErased(b, reread); BodyErased(o, reread);
    case For(t, i, b, o) =>
      ExprErased(t);
      TargetKept(t);
      EltErased(i);
      BodyErased(b, reread);
      BodyErased(o, reread);
    case With(items, b) => WithErased(items, reread); BodyErased(b, reread);
    case Try(_, b, hs, o, f) =>
      BodyErased(b, reread);
      HandlersErased(hs, reread);
      BodyErased(o, reread);
      BodyErased(f, reread);
    case Match(v, cs) => ExprErased(v); CasesErased(cs, reread);
    case _ =>
  }

  lemma OptKind(e: Option<Expr>)
    ensures EraseOpt(e).Some? == e.Some?
  {
  }

  lemma WithErased(items: seq<WithItem>, reread: bool)
    ensures ImageItems(reread, ImageItems(false, items)) == ImageItems(reread, items)
    ensures ValidItems(ImageItems(false, items)) == ValidItems(items) && |ImageItems(false, items)| == |items|
  {
    assert ImageItems(false, items) == EraseItems(items);
    hide ImageItems, EraseItems;
    SoleErased(items, reread);
    ItemsErased(items);
  }

  lemma {:induction false} BodyErased(b: seq<Stmt>, reread: bool)
    ensures ImageAll(reread, ImageAll(false, b)) == ImageAll(reread, b)
    ensures ValidStmts(ImageAll(false, b)) == ValidStmts(b)
    decreases b, 0
  {
    hide Image, ValidStmt;
    if b != [] {
      StmtErased(b[0], reread);
      BodyErased(b[1..], reread);
      assert ImageAll(false, b)[1..] == ImageAll(false, b[1..]);
    }
  }

  lemma {:induction false} HandlersErased(hs: seq<Handler>, reread: bool)
    ensures ImageHandlers(reread, ImageHandlers(false, hs)) == ImageHandlers(reread, hs)
    ensures ValidHandlers(ImageHandlers(false, hs)) == ValidHandlers(hs)
    ensures AllTyped(ImageHandlers(false, hs)) == AllTyped(hs)
    decreases hs, 0
  {
    hide ImageHandler, ValidHandler;
    if hs != [] {
      HandlerErased(hs[0], reread);
      HandlersErased(hs[1..], reread);
      assert ImageHandlers(false, hs)[1..] == ImageHandlers(false, hs[1..]);
    }
  }

  lemma {:induction false} HandlerErased(h: Handler, reread: bool)
    ensures var t := ImageHandler(false, h);
            && ImageHandler(reread, t) == ImageHandler(reread, h) && ValidHandler(t) == ValidHandler(h)
            && t.kind.Some? == h.kind.Some?
    decreases h, 0
  {
    OptErased(h.kind);
    OptKind(h.kind);
    BodyErased(h.body, reread);
    hide EraseOpt, ValidOpt, ImageAll, ValidStmts;
  }

  lemma {:induction false} CasesErased(cs: seq<Case>, reread: bool)
    ensures ImageCases(reread, ImageCases(false, cs)) == ImageCases(reread, cs)
    ensures ValidCases(ImageCases(false, cs)) == ValidCases(cs)
    decreases cs, 0
  {
    hide ImageCase, ValidCase;
    if cs != [] {
      CaseErased(cs[0], reread);
      CasesErased(cs[1..], reread);
      assert ImageCases(false, cs)[1..] == ImageCases(false, cs[1..]);
    }
  }

  lemma {:induction false} CaseErased(c: Case, reread: bool)
    ensures var t := ImageCase(false, c);
            ImageCase(reread, t) == ImageCase(reread, c) && ValidCase(t) == ValidCase(c)
    decreases c, 0
  {
    PatternErased(c.pattern);
    OptErased(c.guard);
    BodyErased(c.body, reread);
    hide EraseOpt, ValidOpt, ImageAll, ValidStmts, ErasePattern, ValidPattern;
  }

  /** Two modules that differ only in identities are valid together and read as the same. */
  lemma SameImage(t: seq<Stmt>, b: seq<Stmt>)
    requires ImageAll(false, t) == ImageAll(false, b)
    ensures ValidStmts(t) == ValidStmts(b) && ImageAll(true, t) == ImageAll(true, b)
  {
    BodyErased(t, true);
    BodyErased(b, true);
  }
}
