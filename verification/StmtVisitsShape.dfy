/** The same for patterns and statements. */
module StmtVisitsShape {
  import opened Options
  import opened PyAst
  import opened Tokens
  import opened PatternText
  import opened StmtText
  import opened Scripts
  import opened Faithful
  import opened Sharing
  import opened Visits
  import opened VisitsShape

  /* ----- patterns ----- */

  /** A valid pattern, or a star: the same as ValidElement. */
  predicate FinePattern(p: Pattern) {
    ValidPattern(p) || p.MatchStar?
  }

  lemma {:induction false} PatternSound(v: bool, p: Pattern)
    requires v ==> FinePattern(p)
    ensures Sound(v, PatternScript(p))
    decreases p, 2
  {
    hide Sound, BarePatternScript, ValidPattern;
    BarePatternSound(v, p);
    if v && PatternLv(p) < ATOM { BarePatternOpen(p); }
    SoundNode(v, p.id, PatternLv(p), BarePatternScript(p));
  }

  lemma BarePatternOpen(p: Pattern)
    requires FinePattern(p) && PatternLv(p) < ATOM
    ensures Open(BarePatternScript(p))
  {
    hide PatternScript;
    if p.MatchOr? {
      var ps := p.alternatives;
      assert ValidPattern(p) && |ps| >= 2;
      assert AlternativeScript(ps, 1).first == Put([Op(BitOr)]);
      hide AlternativeScript;
      OpenSecond(AlternativeScript(ps, 0), AlternativeScript(ps, 1));
    } else {
      Opens(BarePatternScript(p).first, BarePatternScript(p).second, [], TEST);
    }
  }

  lemma {:induction false} BarePatternSound(v: bool, p: Pattern)
    requires v ==> FinePattern(p)
    ensures Sound(v, BarePatternScript(p))
    decreases p, 1
  {
    hide Sound, ExprScript, Asked, PatternScript, PatternJoinScript, AlternativeScript, EntryScript, AttrScript;
    match p
    case MatchValue(_, x) =>
      if v { ValueFine(x); }
      ExprSound(v, x);
    case MatchSingleton(_, k) => LiteralSound(v, k);
    case MatchSequence(_, ps) =>
      Simply(v, [LBrk], true, Comma);
      Simply(v, [RBrk], true, Comma);
      PatternJoinSound(v, ps, 0);
      Sound3(v, Put([LBrk]), PatternJoinScript(ps, 0), Put([RBrk]));
    case MatchStar(_, n) => Simply(v, [Op(Mult), Id(OrWildcard(n))], true, Comma);
    case MatchMapping(_, es, r) =>
      Simply(v, [LBrace], true, Comma);
      Simply(v, [RBrace], es != [], Comma);
      EntrySound(v, es, 0);
      RestSound(v, es != [], r);
      Sound4(v, Put([LBrace]), EntryScript(es, 0), RestScript(es != [], r), Put([RBrace]));
    case MatchClass(_, c, ps, as') =>
      if v { DottedFine(c); PatternsAreElements(ps); }
      AskedSound(v, ATOM, c);
      PatternJoinSound(v, ps, 0);
      var comma := ps != [] && as' != [];
      Simply(v, [], comma, Comma);
      AttrSound(v, as', 0);
      Sound3(v, PatternJoinScript(ps, 0), Sep(comma, Comma), AttrScript(as', 0));
      var args := Then(PatternJoinScript(ps, 0), Then(Sep(comma, Comma), AttrScript(as', 0)));
      SoundIn(v, [], TEST, args);
      Sound2(v, Asked(ATOM, c), Parens(args));
    case MatchAs(_, q, n) =>
      Simply(v, [Id(WILDCARD)], true, Comma);
      if n.Some? {
        Simply(v, [Id(n.value)], true, Comma);
        if q.Some? {
          PatternSound(v, q.value);
          SoundIn(v, [q.value.id], BOR, PatternScript(q.value));
          Simply(v, [KwAs, Id(n.value)], true, Comma);
          Sound2(v, Asking([q.value.id], BOR, PatternScript(q.value)), Put([KwAs, Id(n.value)]));
        }
      }
    case MatchOr(_, ps) =>
      if v { PatternsAreElements(ps); }
      AlternativeSound(v, ps, 0);
      SoundIn(v, PatternHeads(ps), Next(BOR), AlternativeScript(ps, 0));
  }

  lemma RestSound(v: bool, comma: bool, r: Option<string>)
    ensures Sound(v, RestScript(comma, r))
  {
  }

  lemma ValueFine(e: Expr)
    requires ValueExpr(e)
    ensures Fine(e)
  {
    if e.Attribute? { DottedFine(e); }
    if e.UnaryOp? { assert Valid(e.operand); }
  }

  lemma {:induction false} DottedFine(e: Expr)
    requires Dotted(e)
    ensures Valid(e)
  {
    if e.Attribute? { DottedFine(e.base); }
  }

  lemma {:induction false} PatternsAreElements(ps: seq<Pattern>)
    requires ValidPatterns(ps)
    ensures ValidElements(ps)
  {
    hide ValidPattern;
    if ps != [] {
      PatternsAreElements(ps[1..]);
      StarIsNone(ps[0]);
    }
  }

  lemma StarIsNone(p: Pattern)
    ensures p.MatchStar? ==> !ValidPattern(p)
  {
  }

  lemma {:induction false} PatternJoinSound(v: bool, ps: seq<Pattern>, i: nat)
    requires i <= |ps| && (v ==> ValidElements(ps[i..]))
    ensures Sound(v, PatternJoinScript(ps, i))
    decreases ps, 0, |ps| - i
  {
    hide Sound, PatternScript, Sep, ValidPattern;
    Simply(v, [], i > 0, Comma);
    if i < |ps| {
      assert ps[i..][1..] == ps[i + 1..];
      PatternSound(v, ps[i]);
      PatternJoinSound(v, ps, i + 1);
      Sound3(v, Sep(i > 0, Comma), PatternScript(ps[i]), PatternJoinScript(ps, i + 1));
    }
  }

  lemma {:induction false} AlternativeSound(v: bool, ps: seq<Pattern>, i: nat)
    requires i <= |ps| && (v ==> ValidElements(ps[i..]))
    ensures Sound(v, AlternativeScript(ps, i))
    decreases ps, 0, |ps| - i
  {
    hide Sound, PatternScript, Sep, ValidPattern;
    Simply(v, [], i > 0, Op(BitOr));
    if i < |ps| {
      assert ps[i..][1..] == ps[i + 1..];
      PatternSound(v, ps[i]);
      AlternativeSound(v, ps, i + 1);
      Sound3(v, Sep(i > 0, Op(BitOr)), PatternScript(ps[i]), AlternativeScript(ps, i + 1));
    }
  }

  lemma {:induction false} EntrySound(v: bool, es: seq<Entry>, i: nat)
    requires i <= |es| && (v ==> ValidEntries(es[i..]))
    ensures Sound(v, EntryScript(es, i))
    decreases es, 0, |es| - i
  {
    hide Sound, EntryOne, Sep, ValidEntry;
    Simply(v, [], i > 0, Comma);
    if i < |es| {
      assert es[i..][1..] == es[i + 1..];
      EntryOneSound(v, es[i]);
      EntrySound(v, es, i + 1);
      Sound3(v, Sep(i > 0, Comma), EntryOne(es[i]), EntryScript(es, i + 1));
    }
  }

  lemma {:induction false} EntryOneSound(v: bool, e: Entry)
    requires v ==> ValidEntry(e)
    ensures Sound(v, EntryOne(e))
    decreases e, 0
  {
    hide Sound, ExprScript, PatternScript, ValidPattern;
    if v && !e.key.Constant? { ValueFine(e.key); }
    ExprSound(v, e.key);
    PatternSound(v, e.pattern);
    Simply(v, [Colon], true, Comma);
    SoundIn(v, [], TEST, ExprScript(e.key));
    Sound3(v, Key(ExprScript(e.key)), Put([Colon]), PatternScript(e.pattern));
  }

  lemma {:induction false} AttrSound(v: bool, as': seq<AttrPattern>, i: nat)
    requires i <= |as'| && (v ==> ValidAttrs(as'[i..]))
    ensures Sound(v, AttrScript(as', i))
    decreases as', 0, |as'| - i
  {
    hide Sound, AttrOne, Sep, ValidAttr;
    Simply(v, [], i > 0, Comma);
    if i < |as'| {
      assert as'[i..][1..] == as'[i + 1..];
      AttrOneSound(v, as'[i]);
      AttrSound(v, as', i + 1);
      Sound3(v, Sep(i > 0, Comma), AttrOne(as'[i]), AttrScript(as', i + 1));
    }
  }

  lemma {:induction false} AttrOneSound(v: bool, a: AttrPattern)
    requires v ==> ValidAttr(a)
    ensures Sound(v, AttrOne(a))
    decreases a, 0
  {
    hide Sound, PatternScript, ValidPattern;
    Simply(v, [Id(a.attr), Assign], true, Comma);
    PatternSound(v, a.pattern);
    Sound2(v, Put([Id(a.attr), Assign]), PatternScript(a.pattern));
  }

  /* ----- statements ----- */

  /** No `raise` has a cause but no exception. */
  predicate Printable(s: Stmt)
    decreases s, 1
  {
    match s
    case Raise(e, c) => e.None? ==> c.None?
    case If(_, b, o) => PrintableAll(b) && PrintableAll(o)
    case While(_, b, o) => PrintableAll(b) && PrintableAll(o)
    case For(_, _, b, o) => PrintableAll(b) && PrintableAll(o)
    case With(_, b) => PrintableAll(b)
    case Try(_, b, hs, o, f) => PrintableAll(b) && PrintableHandlers(hs) && PrintableAll(o) && PrintableAll(f)
    case Match(_, cs) => PrintableCases(cs)
    case _ => true
  }

  predicate PrintableAll(b: seq<Stmt>)
    decreases b, 0
  {
    b == [] || (Printable(b[0]) && PrintableAll(b[1..]))
  }

  predicate PrintableHandlers(hs: seq<Handler>)
    decreases hs, 0
  {
    hs == [] || (PrintableAll(hs[0].body) && PrintableHandlers(hs[1..]))
  }

  predicate PrintableCases(cs: seq<Case>)
    decreases cs, 0
  {
    cs == [] || (PrintableAll(cs[0].body) && PrintableCases(cs[1..]))
  }

  /** Refused unless `ok`; and, if `v`, the text tells the decisions. */
  predicate Shaped(v: bool, ok: bool, d: Script) {
    Refuses(d) == !ok && (v ==> Proper(d))
  }

  lemma ShapedSound(v: bool, d: Script)
    ensures Shaped(v, true, d) == Sound(v, d)
  {
  }

  lemma Shaped2(v: bool, a: Script, p: bool, b: Script, q: bool)
    requires Shaped(v, p, a) && Shaped(v, q, b)
    ensures Shaped(v, p && q, Then(a, b))
  {
  }

  lemma ShapedIn(v: bool, ok: bool, star: bool, b: Script)
    requires Shaped(v, ok, b)
    ensures Shaped(v, ok, Indented(b)) && Shaped(v, ok, TryKind(star, b))
  {
  }

  /** A part that refuses nothing comes first. */
  lemma Before(v: bool, a: Script, ok: bool, b: Script)
    requires Sound(v, a) && Shaped(v, ok, b)
    ensures Shaped(v, ok, Then(a, b))
  {
  }

  lemma Lines(v: bool, ts: seq<Mark>, ok: bool, b: Script)
    requires Shaped(v, ok, b)
    ensures Shaped(v, ok, Then(NewLine(ts), b)) && Shaped(v, ok, Then(Put(ts), b))
  {
  }

  lemma {:induction false} StmtShaped(v: bool, s: Stmt)
    requires v ==> ValidStmt(s)
    ensures Shaped(v, Printable(s), StmtScript(s))
    decreases s, 2
  {
    hide Sound, Shaped, ExprScript, Asked, TargetScript, OptScript, Valid, ValidStmts, BlockScript, PartScript;
    match s
    case Raise(e, c) => RaiseShaped(v, s);
    case If(t, b, o) =>
      ConditionShaped(v, KwIf, s);
      ElifShaped(v, s);
      Shaped2(v, ConditionScript(KwIf, s), PrintableAll(b), ElifScript(s), PrintableAll(o));
    case While(t, b, o) =>
      ExprSound(v, t);
      BlockShaped(v, b);
      PartShaped(v, KwElse, o);
      Shaped2(v, BlockScript(b), PrintableAll(b), PartScript(KwElse, o), PrintableAll(o));
      Before(v, ExprScript(t), Printable(s), Then(BlockScript(b), PartScript(KwElse, o)));
      Lines(v, [KwWhile], Printable(s), Then(ExprScript(t), Then(BlockScript(b), PartScript(KwElse, o))));
    case For(t, i, b, o) => ForShaped(v, s);
    case With(items, b) =>
      WithSound(v, items, 0);
      BlockShaped(v, b);
      Before(v, WithScript(items, 0), Printable(s), BlockScript(b));
      Lines(v, [KwWith], Printable(s), Then(WithScript(items, 0), BlockScript(b)));
    case Try(star, _, _, _, _) =>
      TryShaped(v, s);
      ShapedIn(v, Printable(s), star, TryScript(s));
    case Match(x, cs) =>
      ExprSound(v, x);
      CasesShaped(v, cs, 0);
      assert cs[0..] == cs;
      ShapedIn(v, Printable(s), true, CasesScript(cs, 0));
      Lines(v, [Colon], Printable(s), Indented(CasesScript(cs, 0)));
      Before(v, ExprScript(x), Printable(s), Then(Put([Colon]), Indented(CasesScript(cs, 0))));
      Lines(v, [KwMatch], Printable(s), Then(ExprScript(x), Then(Put([Colon]), Indented(CasesScript(cs, 0)))));
    case _ =>
      SimpleSound(v, s);
      ShapedSound(v, StmtScript(s));
  }

  lemma SimpleSound(v: bool, s: Stmt)
    requires v ==> ValidStmt(s)
    requires s.ExprStmt? || s.AssignStmt? || s.AugAssign? || s.Return? || s.Pass? || s.Break? || s.Continue?
    ensures Sound(v, StmtScript(s))
  {
    hide Sound, ExprScript, Asked, TargetScript, Valid;
    Simply(v, [], true, Comma);
    match s
    case ExprStmt(x) =>
      FineElt(x);
      AskedSound(v, YIELD, x);
      Sound2(v, NewLine([]), Asked(YIELD, x));
    case AssignStmt(ts, x) =>
      FineElt(x);
      TargetSound(v, ts, 0);
      ExprSound(v, x);
      Sound3(v, NewLine([]), TargetScript(ts, 0), ExprScript(x));
    case AugAssign(t, op, x) =>
      FineElt(x);
      ExprSound(v, t);
      ExprSound(v, x);
      Simply(v, [Aug(op)], true, Comma);
      Sound4(v, NewLine([]), ExprScript(t), Put([Aug(op)]), ExprScript(x));
    case Return(x) =>
      Simply(v, [KwReturn], true, Comma);
      if x.Some? { FineElt(x.value); }
      ClauseSound(v, Comma, x);
      Sound2(v, NewLine([KwReturn]), OptScript(x));
    case Pass => Simply(v, [KwPass], true, Comma);
    case Break => Simply(v, [KwBreak], true, Comma);
    case Continue => Simply(v, [KwContinue], true, Comma);
  }

  lemma RaiseShaped(v: bool, s: Stmt)
    requires s.Raise? && (v ==> ValidStmt(s))
    ensures Shaped(v, Printable(s), StmtScript(s))
  {
    var e, c := s.exc, s.cause;
    if e.Some? {
      hide Sound, Shaped, ExprScript, Clause, Valid;
      ExprSound(v, e.value);
      ClauseSound(v, KwFrom, c);
      Sound2(v, ExprScript(e.value), Clause(KwFrom, c));
      ShapedSound(v, CauseScript(e, c));
    }
    hide Shaped;
    Lines(v, [KwRaise], Printable(s), CauseScript(e, c));
  }

  lemma {:induction false} TargetSound(v: bool, ts: seq<Expr>, i: nat)
    requires i <= |ts| && (v ==> ValidTargets(ts[i..]))
    ensures Sound(v, TargetScript(ts, i))
    decreases |ts| - i
  {
    hide Sound, Asked, Valid, IsTarget;
    Simply(v, [Assign], true, Comma);
    if i < |ts| {
      assert ts[i..][1..] == ts[i + 1..];
      FineElt(ts[i]);
      AskedSound(v, TUPLE, ts[i]);
      TargetSound(v, ts, i + 1);
      Sound3(v, Asked(TUPLE, ts[i]), Put([Assign]), TargetScript(ts, i + 1));
    }
  }

  lemma {:induction false} BlockShaped(v: bool, b: seq<Stmt>)
    requires v ==> ValidStmts(b)
    ensures Shaped(v, PrintableAll(b), BlockScript(b))
    decreases b, 1
  {
    hide Shaped, BodyScript, ValidStmts;
    BodyShaped(v, b, 0);
    assert b[0..] == b;
    ShapedIn(v, PrintableAll(b), true, BodyScript(b, 0));
    Lines(v, [Colon], PrintableAll(b), Indented(BodyScript(b, 0)));
  }

  lemma {:induction false} PartShaped(v: bool, head: Mark, b: seq<Stmt>)
    requires v ==> ValidStmts(b)
    ensures Shaped(v, PrintableAll(b), PartScript(head, b))
    decreases b, 2
  {
    if b != [] {
      hide Shaped, ValidStmts;
      BlockShaped(v, b);
      Lines(v, [head], PrintableAll(b), BlockScript(b));
    }
  }

  lemma {:induction false} BodyShaped(v: bool, b: seq<Stmt>, i: nat)
    requires i <= |b| && (v ==> ValidStmts(b[i..]))
    ensures Shaped(v, PrintableAll(b[i..]), BodyScript(b, i))
    decreases b, 0, |b| - i
  {
    if i < |b| {
      hide Shaped, StmtScript, Printable, ValidStmt;
      assert b[i..][1..] == b[i + 1..];
      StmtShaped(v, b[i]);
      BodyShaped(v, b, i + 1);
      Shaped2(v, StmtScript(b[i]), Printable(b[i]), BodyScript(b, i + 1), PrintableAll(b[i + 1..]));
    }
  }

  lemma {:induction false} ConditionShaped(v: bool, head: Mark, s: Stmt)
    requires s.If? && (v ==> ValidStmt(s))
    ensures Shaped(v, PrintableAll(s.body), ConditionScript(head, s))
    decreases s, 0
  {
    hide Sound, Shaped, ExprScript, Valid, ValidStmts;
    ExprSound(v, s.test);
    BlockShaped(v, s.body);
    Before(v, ExprScript(s.test), PrintableAll(s.body), BlockScript(s.body));
    Lines(v, [head], PrintableAll(s.body), Then(ExprScript(s.test), BlockScript(s.body)));
  }

  lemma {:induction false} ElifShaped(v: bool, s: Stmt)
    requires s.If? && (v ==> ValidStmt(s))
    ensures Shaped(v, PrintableAll(s.orelse), ElifScript(s))
    decreases s, 1
  {
    hide Shaped, Valid;
    if |s.orelse| == 1 && s.orelse[0].If? {
      var n := s.orelse[0];
      assert v ==> ValidStmts(s.orelse);
      assert PrintableAll(s.orelse) == (PrintableAll(n.body) && PrintableAll(n.orelse)) by { LoneIf(s.orelse); }
      ConditionShaped(v, KwElif, n);
      ElifShaped(v, n);
      Shaped2(v, ConditionScript(KwElif, n), PrintableAll(n.body), ElifScript(n), PrintableAll(n.orelse));
    } else {
      PartShaped(v, KwElse, s.orelse);
    }
  }

  lemma LoneIf(b: seq<Stmt>)
    requires |b| == 1 && b[0].If?
    ensures PrintableAll(b) == (PrintableAll(b[0].body) && PrintableAll(b[0].orelse))
  {
    assert Printable(b[0]) == (PrintableAll(b[0].body) && PrintableAll(b[0].orelse));
    assert PrintableAll(b[1..]);
  }

  lemma {:induction false} ForShaped(v: bool, s: Stmt)
    requires s.For? && (v ==> ValidStmt(s))
    ensures Shaped(v, Printable(s), StmtScript(s))
    decreases s, 0
  {
    hide Sound, Shaped, ExprScript, Asked, Valid, IsTarget, ValidStmts;
    var ok, b := Printable(s), Then(BlockScript(s.body), PartScript(KwElse, s.orelse));
    FineElt(s.target);
    FineElt(s.iter);
    AskedSound(v, TUPLE, s.target);
    ExprSound(v, s.iter);
    BlockShaped(v, s.body);
    PartShaped(v, KwElse, s.orelse);
    Shaped2(v, BlockScript(s.body), PrintableAll(s.body), PartScript(KwElse, s.orelse), PrintableAll(s.orelse));
    Before(v, ExprScript(s.iter), ok, b);
    Lines(v, [KwIn], ok, Then(ExprScript(s.iter), b));
    Before(v, Asked(TUPLE, s.target), ok, Then(Put([KwIn]), Then(ExprScript(s.iter), b)));
    Lines(v, [KwFor], ok, Then(Asked(TUPLE, s.target), Then(Put([KwIn]), Then(ExprScript(s.iter), b))));
  }

  lemma {:induction false} WithSound(v: bool, items: seq<WithItem>, i: nat)
    requires i <= |items| && (v ==> ValidItems(items[i..]))
    ensures Sound(v, WithScript(items, i))
    decreases |items| - i
  {
    hide Sound, ItemOne, Sep, ValidItem;
    Simply(v, [], i > 0, Comma);
    if i < |items| {
      assert items[i..][1..] == items[i + 1..];
      ItemOneSound(v, items[i]);
      WithSound(v, items, i + 1);
      Sound3(v, Sep(i > 0, Comma), ItemOne(items[i]), WithScript(items, i + 1));
    }
  }

  lemma ItemOneSound(v: bool, i: WithItem)
    requires v ==> ValidItem(i)
    ensures Sound(v, ItemOne(i))
  {
    hide Sound, ExprScript, Clause, Valid, IsTarget;
    ExprSound(v, i.context);
    if i.vars.Some? { FineElt(i.vars.value); }
    ClauseSound(v, KwAs, i.vars);
    Sound2(v, ExprScript(i.context), Clause(KwAs, i.vars));
  }

  lemma {:induction false} TryShaped(v: bool, s: Stmt)
    requires s.Try? && (v ==> ValidStmt(s))
    ensures Shaped(v, Printable(s), TryScript(s))
    decreases s, 1
  {
    var b, h, o, f := BlockScript(s.body), HandlersScript(s.handlers, 0), PartScript(KwElse, s.orelse),
                      PartScript(KwFinally, s.finalbody);
    var p, q, r, t := PrintableAll(s.body), PrintableHandlers(s.handlers), PrintableAll(s.orelse),
                      PrintableAll(s.finalbody);
    assert Printable(s) == (p && (q && (r && t)));
    assert v ==> ValidStmts(s.body) && ValidHandlers(s.handlers) && ValidStmts(s.orelse) && ValidStmts(s.finalbody);
    hide Shaped, BlockScript, HandlersScript, PartScript, PrintableAll, PrintableHandlers, ValidStmts, ValidHandlers;
    BlockShaped(v, s.body);
    assert s.handlers[0..] == s.handlers;
    HandlersShaped(v, s.handlers, 0);
    PartShaped(v, KwElse, s.orelse);
    PartShaped(v, KwFinally, s.finalbody);
    Shaped2(v, o, r, f, t);
    Shaped2(v, h, q, Then(o, f), r && t);
    Shaped2(v, b, p, Then(h, Then(o, f)), q && (r && t));
    Lines(v, [KwTry], Printable(s), Then(b, Then(h, Then(o, f))));
  }

  lemma {:induction false} HandlersShaped(v: bool, hs: seq<Handler>, i: nat)
    requires i <= |hs| && (v ==> ValidHandlers(hs[i..]))
    ensures Shaped(v, PrintableHandlers(hs[i..]), HandlersScript(hs, i))
    decreases hs, 0, |hs| - i
  {
    if i < |hs| {
      hide Shaped, HandlerScript, PrintableAll, ValidHandler;
      assert hs[i..][1..] == hs[i + 1..];
      HandlerShaped(v, hs[i]);
      HandlersShaped(v, hs, i + 1);
      Shaped2(v, HandlerScript(hs[i]), PrintableAll(hs[i].body), HandlersScript(hs, i + 1),
          PrintableHandlers(hs[i + 1..]));
    }
  }

  lemma {:induction false} HandlerShaped(v: bool, h: Handler)
    requires v ==> ValidHandler(h)
    ensures Shaped(v, PrintableAll(h.body), HandlerScript(h))
    decreases h, 0
  {
    var name := if h.name.None? then Nothing else Put([KwAs, Id(h.name.value)]);
    assert Sound(v, GroupStar) && Sound(v, name);
    hide Sound, Shaped, OptScript, Valid, ValidStmts;
    var ok, b := PrintableAll(h.body), BlockScript(h.body);
    ClauseSound(v, Comma, h.kind);
    BlockShaped(v, h.body);
    Before(v, name, ok, b);
    Before(v, OptScript(h.kind), ok, Then(name, b));
    Before(v, GroupStar, ok, Then(OptScript(h.kind), Then(name, b)));
    Lines(v, [KwExcept], ok, Then(GroupStar, Then(OptScript(h.kind), Then(name, b))));
  }

  lemma {:induction false} CasesShaped(v: bool, cs: seq<Case>, i: nat)
    requires i <= |cs| && (v ==> ValidCases(cs[i..]))
    ensures Shaped(v, PrintableCases(cs[i..]), CasesScript(cs, i))
    decreases cs, 0, |cs| - i
  {
    if i < |cs| {
      hide Shaped, CaseScript, PrintableAll, ValidCase;
      assert cs[i..][1..] == cs[i + 1..];
      CaseShaped(v, cs[i]);
      CasesShaped(v, cs, i + 1);
      Shaped2(v, CaseScript(cs[i]), PrintableAll(cs[i].body), CasesScript(cs, i + 1), PrintableCases(cs[i + 1..]));
    }
  }

  lemma {:induction false} CaseShaped(v: bool, c: Case)
    requires v ==> ValidCase(c)
    ensures Shaped(v, PrintableAll(c.body), CaseScript(c))
    decreases c, 0
  {
    hide Sound, Shaped, PatternScript, Clause, ValidPattern, Valid, ValidStmts;
    var ok, b := PrintableAll(c.body), BlockScript(c.body);
    PatternSound(v, c.pattern);
    ClauseSound(v, KwIf, c.guard);
    BlockShaped(v, c.body);
    Before(v, Clause(KwIf, c.guard), ok, b);
    Before(v, PatternScript(c.pattern), ok, Then(Clause(KwIf, c.guard), b));
    Lines(v, [KwCase], ok, Then(PatternScript(c.pattern), Then(Clause(KwIf, c.guard), b)));
  }
}
