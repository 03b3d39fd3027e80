/** Visits of valid trees are such that their text tells which decisions were taken; and
    only a `raise` with a cause but no exception is refused. */
module VisitsShape {
  import opened Options
  import opened PyAst
  import opened Tokens
  import opened ExprText
  import opened Scripts
  import opened Faithful
  import opened Sharing
  import opened Visits

  /** Nothing is refused; and, if `v`, the text tells the decisions. */
  predicate Sound(v: bool, d: Script) {
    !Refuses(d) && (v ==> Proper(d))
  }

  lemma Simply(v: bool, ts: seq<Mark>, yes: bool, t: Mark)
    ensures Sound(v, Put(ts)) && Sound(v, Nothing) && Sound(v, NewLine(ts)) && Sound(v, Sep(yes, t))
  {
  }

  lemma Sound2(v: bool, a: Script, b: Script)
    requires Sound(v, a) && Sound(v, b)
    ensures Sound(v, Then(a, b))
  {
  }

  lemma Sound3(v: bool, a: Script, b: Script, c: Script)
    requires Sound(v, a) && Sound(v, b) && Sound(v, c)
    ensures Sound(v, Then(a, Then(b, c)))
  {
    Sound2(v, b, c);
    Sound2(v, a, Then(b, c));
  }

  lemma Sound4(v: bool, a: Script, b: Script, c: Script, d: Script)
    requires Sound(v, a) && Sound(v, b) && Sound(v, c) && Sound(v, d)
    ensures Sound(v, Then(a, Then(b, Then(c, d))))
  {
    Sound3(v, b, c, d);
    Sound2(v, a, Then(b, Then(c, d)));
  }

  lemma SoundIn(v: bool, ids: seq<nat>, p: Level, b: Script)
    requires Sound(v, b)
    ensures Sound(v, Asking(ids, p, b)) && Sound(v, Parens(b)) && Sound(v, Buffered(b)) && Sound(v, Indented(b))
    ensures Sound(v, Key(b))
  {
  }

  lemma SoundNode(v: bool, id: nat, own: Level, b: Script)
    requires Sound(v, b) && (v && own < ATOM ==> Open(b))
    ensures Sound(v, Node(id, own, b))
  {
  }

  lemma Opens(a: Script, b: Script, ids: seq<nat>, p: Level)
    ensures Open(Then(a, b)) == (Open(a) || Open(b)) && Open(Asking(ids, p, a)) == Open(a)
  {
  }

  /* ----- expressions ----- */

  /** A valid expression, or a starred one: the same as ValidElt. */
  predicate Fine(e: Expr) {
    Valid(e) || (e.Starred? && Valid(e.starred))
  }

  lemma FineElt(e: Expr)
    ensures ValidElt(e) ==> Fine(e)
  {
  }

  lemma {:induction false} ExprSound(v: bool, e: Expr)
    requires v ==> Fine(e)
    ensures Sound(v, ExprScript(e))
    decreases e, 2
  {
    hide Sound, BareScript, Valid;
    BareSound(v, e);
    if v && Lv(e) < ATOM { BareOpen(e); }
    SoundNode(v, e.id, Lv(e), BareScript(e));
  }

  lemma {:induction false} AskedSound(v: bool, p: Level, e: Expr)
    requires v ==> Fine(e)
    ensures Sound(v, Asked(p, e))
    decreases e, 3
  {
    hide Sound, ExprScript, Valid;
    ExprSound(v, e);
    SoundIn(v, [e.id], p, ExprScript(e));
  }

  /** What can be parenthesised writes a token of its own, outside its operands. */
  lemma BoolOpen(e: Expr)
    requires e.BoolOp? && Fine(e)
    ensures Open(BareScript(e))
  {
    hide ExprScript, Asked;
    var k, vs := e.boolop, e.values;
    assert Valid(e) && |vs| >= 2;
    var p: Level := BoolPrec(k);
    assert BoolScript(k, vs, 1, Next(p)).first == Put([BoolTok(k)]);
    hide BoolScript;
    OpenSecond(BoolScript(k, vs, 0, p), BoolScript(k, vs, 1, Next(p)));
  }

  lemma CompareOpen(e: Expr)
    requires e.Compare? && Fine(e)
    ensures Open(BareScript(e))
  {
    hide ExprScript, Asked;
    var ops, cs := e.ops, e.comparators;
    assert Valid(e) && |ops| == |cs| >= 1;
    assert CompareScript(ops, cs, 0).first == Put(CmpToks(ops[0]));
    hide CompareScript;
    Opens(ExprScript(e.left), CompareScript(ops, cs, 0), [], TEST);
    Opens(Put(CmpToks(ops[0])), CompareScript(ops, cs, 0).second, [], TEST);
  }

  lemma TupleOpen(e: Expr)
    requires e.Tuple? && e.elts != []
    ensures Open(BareScript(e))
  {
    hide ExprScript, Asked;
    if |e.elts| > 1 {
      assert JoinScript(e.elts, 1).first == Put([Comma]);
      hide JoinScript;
      OpenSecond(JoinScript(e.elts, 0), JoinScript(e.elts, 1));
    }
  }

  lemma {:induction false} BareOpen(e: Expr)
    requires Fine(e) && Lv(e) < ATOM
    ensures Open(BareScript(e))
    decreases e, 0
  {
    hide ExprScript, Asked, ParamScript, BoolScript, CompareScript, JoinScript;
    match e
    case BoolOp(_, _, _) => BoolOpen(e);
    case Compare(_, _, _, _) => CompareOpen(e);
    case Tuple(_, _) => TupleOpen(e);
    case NamedExpr(_, t, x) =>
      var b := Then(Put([Walrus]), ExprScript(x));
      Opens(Then(ExprScript(t), b), Nothing, [t.id, x.id], ATOM);
      Opens(ExprScript(t), b, [], TEST);
    case IfExp(_, t, b, o) =>
      Opens(BareScript(e).first, BareScript(e).second, [], TEST);
    case BinOp(_, _, _, _) =>
      Opens(BareScript(e).first, BareScript(e).second, [], TEST);
    case _ =>
  }

  lemma OpenSecond(d: Script, more: Script)
    requires d.Then? && d.second.Then? && d.second.second == more && more.Then? && more.first.Put?
        && more.first.ts != []
    ensures Open(d)
  {
    Opens(d.first, d.second, [], TEST);
    Opens(d.second.first, more, [], TEST);
    Opens(more.first, more.second, [], TEST);
  }

  lemma {:induction false} BareSound(v: bool, e: Expr)
    requires v ==> Fine(e)
    ensures Sound(v, BareScript(e))
    decreases e, 1
  {
    hide Sound, ExprScript, Asked, ParamScript, ItemScript, SliceScript, BoolScript, JoinScript, CompareScript;
    match e
    case Name(_, n) => Simply(v, [Id(n)], true, Comma);
    case Constant(_, k) => assert Sound(v, Literal(k)) by { LiteralSound(v, k); }
    case NamedExpr(_, _, _) => ChoiceSound(v, e);
    case IfExp(_, _, _, _) => ChoiceSound(v, e);
    case Lambda(_, _, _) => ChoiceSound(v, e);
    case BoolOp(_, k, vs) => BoolSound(v, k, vs, 0, BoolPrec(k));
    case UnaryOp(_, u, x) =>
      Simply(v, [UnTok(u)], true, Comma);
      AskedSound(v, UnPrec(u), x);
      Sound2(v, Put([UnTok(u)]), Asked(UnPrec(u), x));
    case Compare(_, l, ops, cs) =>
      ExprSound(v, l);
      CompareSound(v, ops, cs, 0);
      Sound2(v, ExprScript(l), CompareScript(ops, cs, 0));
      SoundIn(v, [l.id] + Heads(cs), Next(CMP), Then(ExprScript(l), CompareScript(ops, cs, 0)));
    case BinOp(_, l, b, r) =>
      AskedSound(v, LeftPrec(b), l);
      Simply(v, [Op(b)], true, Comma);
      AskedSound(v, RightPrec(b), r);
      Sound3(v, Asked(LeftPrec(b), l), Put([Op(b)]), Asked(RightPrec(b), r));
    case Await(_, x) =>
      Simply(v, [KwAwait], true, Comma);
      AskedSound(v, ATOM, x);
      Sound2(v, Put([KwAwait]), Asked(ATOM, x));
    case Yield(_, x) =>
      Simply(v, [KwYield], true, Comma);
      if x.Some? {
        FineElt(x.value);
        AskedSound(v, ATOM, x.value);
        Sound2(v, Put([KwYield]), Asked(ATOM, x.value));
      }
    case YieldFrom(_, x) =>
      Simply(v, [KwYield, KwFrom], true, Comma);
      AskedSound(v, ATOM, x);
      Sound2(v, Put([KwYield, KwFrom]), Asked(ATOM, x));
    case Tuple(_, es) =>
      if es == [] {
        Simply(v, [], true, Comma);
        SoundIn(v, [], TEST, Nothing);
      } else {
        ItemSound(v, es);
      }
    case List(_, es) =>
      Simply(v, [LBrk], true, Comma);
      Simply(v, [RBrk], true, Comma);
      JoinSound(v, es, 0);
      Sound3(v, Put([LBrk]), JoinScript(es, 0), Put([RBrk]));
    case Attribute(_, _, _) => TrailerSound(v, e);
    case Call(_, _, _, _) => TrailerSound(v, e);
    case Subscript(_, _, _) => TrailerSound(v, e);
    case Starred(_, x) =>
      Simply(v, [Op(Mult)], true, Comma);
      AskedSound(v, BOR, x);
      Sound2(v, Put([Op(Mult)]), Asked(BOR, x));
  }

  lemma {:induction false} ChoiceSound(v: bool, e: Expr)
    requires (e.NamedExpr? || e.IfExp? || e.Lambda?) && (v ==> Fine(e))
    ensures Sound(v, BareScript(e))
    decreases e, 0
  {
    hide Sound, ExprScript, Asked, ParamScript;
    match e
    case NamedExpr(_, t, x) =>
      ExprSound(v, t);
      ExprSound(v, x);
      Simply(v, [Walrus], true, Comma);
      Sound3(v, ExprScript(t), Put([Walrus]), ExprScript(x));
      SoundIn(v, [t.id, x.id], ATOM, Then(ExprScript(t), Then(Put([Walrus]), ExprScript(x))));
    case IfExp(_, t, b, o) =>
      ExprSound(v, b);
      ExprSound(v, t);
      AskedSound(v, TEST, o);
      Simply(v, [KwIf], true, Comma);
      Simply(v, [KwElse], true, Comma);
      var head := Then(ExprScript(b), Then(Put([KwIf]), ExprScript(t)));
      Sound3(v, ExprScript(b), Put([KwIf]), ExprScript(t));
      SoundIn(v, [b.id, t.id], Next(TEST), head);
      Sound3(v, Asking([b.id, t.id], Next(TEST), head), Put([KwElse]), Asked(TEST, o));
    case Lambda(_, a, b) =>
      ParamSound(v, a);
      AskedSound(v, TEST, b);
      Simply(v, [KwLambda], true, Comma);
      Simply(v, [Colon], true, Comma);
      SoundIn(v, [], TEST, ParamScript(a));
      Sound4(v, Put([KwLambda]), Buffered(ParamScript(a)), Put([Colon]), Asked(TEST, b));
  }

  lemma {:induction false} TrailerSound(v: bool, e: Expr)
    requires (e.Attribute? || e.Call? || e.Subscript?) && (v ==> Fine(e))
    ensures Sound(v, BareScript(e))
    decreases e, 0
  {
    hide Sound, ExprScript, Asked, SliceScript;
    match e
    case Attribute(_, x, n) =>
      AskedSound(v, ATOM, x);
      Simply(v, [Dot], true, Comma);
      Simply(v, [Id(n)], true, Comma);
      Sound3(v, Asked(ATOM, x), Put([Dot]), Put([Id(n)]));
    case Call(_, f, es, ks) =>
      AskedSound(v, ATOM, f);
      JoinSound(v, es, 0);
      KeywordSound(v, ks, 0, es != []);
      Sound2(v, JoinScript(es, 0), KeywordScript(ks, 0, es != []));
      SoundIn(v, [], TEST, Then(JoinScript(es, 0), KeywordScript(ks, 0, es != [])));
      Sound2(v, Asked(ATOM, f), Parens(Then(JoinScript(es, 0), KeywordScript(ks, 0, es != []))));
    case Subscript(_, x, s) =>
      AskedSound(v, ATOM, x);
      Simply(v, [LBrk], true, Comma);
      Simply(v, [RBrk], true, Comma);
      SliceSound(v, s);
      Sound4(v, Asked(ATOM, x), Put([LBrk]), SliceScript(s), Put([RBrk]));
  }

  lemma LiteralSound(v: bool, k: Const)
    ensures Sound(v, Literal(k))
  {
  }

  lemma {:induction false} JoinSound(v: bool, es: seq<Expr>, i: nat)
    requires i <= |es| && (v ==> ValidElts(es[i..]))
    ensures Sound(v, JoinScript(es, i))
    decreases es, 0, |es| - i
  {
    hide Sound, ExprScript, Sep, Valid;
    Simply(v, [], i > 0, Comma);
    if i < |es| {
      assert es[i..][1..] == es[i + 1..];
      FineElt(es[i]);
      ExprSound(v, es[i]);
      JoinSound(v, es, i + 1);
      Sound3(v, Sep(i > 0, Comma), ExprScript(es[i]), JoinScript(es, i + 1));
    }
  }

  lemma {:induction false} ItemSound(v: bool, es: seq<Expr>)
    requires v ==> ValidElts(es)
    ensures Sound(v, ItemScript(es))
    decreases es, 1
  {
    hide Sound, ExprScript, JoinScript, Valid;
    if |es| == 1 {
      FineElt(es[0]);
      ExprSound(v, es[0]);
      Simply(v, [Comma], true, Comma);
      Sound2(v, ExprScript(es[0]), Put([Comma]));
    } else {
      assert es[0..] == es;
      JoinSound(v, es, 0);
    }
  }

  lemma {:induction false} SliceSound(v: bool, s: Expr)
    requires v ==> Valid(s)
    ensures Sound(v, SliceScript(s))
    decreases s, 3
  {
    hide Sound, ExprScript, ItemScript;
    if s.Tuple? && s.elts != [] { ItemSound(v, s.elts); } else { ExprSound(v, s); }
  }

  lemma {:induction false} BoolSound(v: bool, k: BoolKind, vs: seq<Expr>, i: nat, p: Level)
    requires i <= |vs| && (v ==> ValidAll(vs[i..]))
    ensures Sound(v, BoolScript(k, vs, i, p))
    decreases vs, 0, |vs| - i
  {
    hide Sound, Asked, Sep, Valid;
    Simply(v, [], i > 0, BoolTok(k));
    if i < |vs| {
      assert vs[i..][1..] == vs[i + 1..];
      AskedSound(v, Next(p), vs[i]);
      BoolSound(v, k, vs, i + 1, Next(p));
      Sound3(v, Sep(i > 0, BoolTok(k)), Asked(Next(p), vs[i]), BoolScript(k, vs, i + 1, Next(p)));
    }
  }

  lemma {:induction false} CompareSound(v: bool, ops: seq<CmpOp>, cs: seq<Expr>, i: nat)
    requires i <= |ops| && i <= |cs| && (v ==> ValidAll(cs[i..]))
    ensures Sound(v, CompareScript(ops, cs, i))
    decreases cs, 0, |cs| - i
  {
    hide Sound, ExprScript, Valid;
    Simply(v, [], true, Comma);
    if i < |ops| && i < |cs| {
      assert cs[i..][1..] == cs[i + 1..];
      ExprSound(v, cs[i]);
      Simply(v, CmpToks(ops[i]), true, Comma);
      CompareSound(v, ops, cs, i + 1);
      Sound3(v, Put(CmpToks(ops[i])), ExprScript(cs[i]), CompareScript(ops, cs, i + 1));
    }
  }

  lemma {:induction false} KeywordSound(v: bool, ks: seq<Keyword>, i: nat, comma: bool)
    requires i <= |ks| && (v ==> ValidKeywords(ks[i..]))
    ensures Sound(v, KeywordScript(ks, i, comma))
    decreases ks, 0, |ks| - i
  {
    hide Sound, KeywordOne, Sep;
    Simply(v, [], comma, Comma);
    if i < |ks| {
      assert ks[i..][1..] == ks[i + 1..];
      KeywordOneSound(v, ks[i]);
      KeywordSound(v, ks, i + 1, true);
      Sound3(v, Sep(comma, Comma), KeywordOne(ks[i]), KeywordScript(ks, i + 1, true));
    }
  }

  lemma {:induction false} KeywordOneSound(v: bool, k: Keyword)
    requires v ==> ValidKeyword(k)
    ensures Sound(v, KeywordOne(k))
    decreases k, 0
  {
    hide Sound, ExprScript;
    var head: seq<Mark> := if k.arg.None? then [Op(Pow)] else [Id(k.arg.value), Assign];
    Simply(v, head, true, Comma);
    ExprSound(v, k.value);
    Sound2(v, Put(head), ExprScript(k.value));
  }

  lemma {:induction false} ParamSound(v: bool, a: Arguments)
    requires v ==> ValidArguments(a)
    ensures Sound(v, ParamScript(a))
    decreases a, 5
  {
    StarSound(v, a);
    hide Sound, PositionalScript, StarScript, KwOnlyScript, KwargScript;
    PositionalSound(v, a, 0);
    assert a.kwonly[0..] == a.kwonly;
    KwOnlySound(v, a.kwonly, 0);
    Sound4(v, PositionalScript(a, 0), StarScript(a), KwOnlyScript(a.kwonly, 0), KwargScript(a));
  }

  lemma StarSound(v: bool, a: Arguments)
    ensures Sound(v, StarScript(a)) && Sound(v, KwargScript(a))
  {
  }

  lemma {:induction false} PositionalSound(v: bool, a: Arguments, i: nat)
    requires i <= Positional(a) && (v ==> ValidAll(a.defaults))
    ensures Sound(v, PositionalScript(a, i))
    decreases a, 2, Positional(a) - i
  {
    hide Sound, ParameterScript, Sep;
    Simply(v, [], i > 0, Comma);
    if i < Positional(a) {
      ParameterSound(v, a, i);
      PositionalSound(v, a, i + 1);
      Sound3(v, Sep(i > 0, Comma), ParameterScript(a, i), PositionalScript(a, i + 1));
    }
  }

  lemma {:induction false} ParameterSound(v: bool, a: Arguments, i: nat)
    requires i < Positional(a) && (v ==> ValidAll(a.defaults))
    ensures Sound(v, ParameterScript(a, i))
    decreases a, 1
  {
    hide Sound, ExprScript, Valid;
    var name, slash := Put([Id(PositionalName(a, i))]), if i + 1 == |a.posonly| then Put([Comma, Op(Div)]) else Nothing;
    Simply(v, [Id(PositionalName(a, i))], true, Comma);
    Simply(v, [Comma, Op(Div)], true, Comma);
    Simply(v, [Assign], true, Comma);
    var k := i - FirstDefault(a);
    if k >= 0 {
      var d := a.defaults[k];
      if v { AllValid(a.defaults, k); }
      ExprSound(v, d);
      Sound2(v, Put([Assign]), ExprScript(d));
      Sound3(v, name, DefaultScript(d), slash);
    } else {
      Sound3(v, name, Nothing, slash);
    }
  }

  lemma {:induction false} AllValid(es: seq<Expr>, k: nat)
    requires ValidAll(es) && k < |es|
    ensures Valid(es[k])
    decreases k
  {
    if k > 0 { AllValid(es[1..], k - 1); }
  }

  lemma {:induction false} KwOnlySound(v: bool, ks: seq<KwOnly>, i: nat)
    requires i <= |ks| && (v ==> ValidKwOnly(ks[i..]))
    ensures Sound(v, KwOnlyScript(ks, i))
    decreases ks, 0, |ks| - i
  {
    hide Sound, Clause, Valid;
    Simply(v, [], true, Comma);
    if i < |ks| {
      assert ks[i..][1..] == ks[i + 1..];
      Simply(v, [Comma, Id(ks[i].name)], true, Comma);
      ClauseSound(v, Assign, ks[i].default);
      KwOnlySound(v, ks, i + 1);
      Sound3(v, Put([Comma, Id(ks[i].name)]), Clause(Assign, ks[i].default), KwOnlyScript(ks, i + 1));
    }
  }

  lemma {:induction false} ClauseSound(v: bool, t: Mark, e: Option<Expr>)
    requires v && e.Some? ==> Fine(e.value)
    ensures Sound(v, Clause(t, e)) && Sound(v, OptScript(e))
    decreases e, 0
  {
    hide Sound, ExprScript, Valid;
    Simply(v, [t], true, Comma);
    if e.Some? {
      ExprSound(v, e.value);
      Sound2(v, Put([t]), ExprScript(e.value));
    }
  }
}
