/** The text a visit writes is the text of a copy of the tree: the tree itself, without
    identities, if every context decides; with marks where there are more parentheses, if
    whoever decides leaves none out. */
module VisitsText {
  import opened Options
  import opened PyAst
  import opened Tokens
  import opened ExprText
  import opened StmtText
  import opened Scripts
  import opened Faithful
  import opened Visits
  import opened Erasure

  /* ----- scripts put together ----- */

  lemma Pair(j: Judge, c: Place, a: Script, b: Script)
    ensures Text(j, c, Then(a, b)) == Text(j, c, a) + Text(j.Later(a), c, b)
    ensures Covers(j, c, Then(a, b)) == (Covers(j, c, a) && Covers(j.Later(a), c, b))
    ensures j.Later(a).Context? == j.Context?
  {
  }

  lemma Simple(j: Judge, c: Place, ts: seq<Mark>, k: Const)
    ensures Text(j, c, Put(ts)) == ts && Text(j, c, Literal(k)) == [Lit(k)] && Text(j, c, Nothing) == []
    ensures Text(j, c, NewLine(ts)) == [Line(c.indent)] + ts
  {
  }

  lemma Inside(j: Judge, c: Place, ids: seq<nat>, p: Level, b: Script)
    ensures Text(j, c, Asking(ids, p, b)) == Text(j.Told(ids, p), c.Ask(ids, p), b)
    ensures Covers(j, c, Asking(ids, p, b)) == Covers(j.Told(ids, p), c.Ask(ids, p), b)
    ensures j.Told(ids, p).Context? == j.Context?
  {
  }

  lemma Within(j: Judge, c: Place, b: Script)
    ensures Text(j, c, Parens(b)) == [LPar] + Text(j, c, b) + [RPar] && Covers(j, c, Parens(b)) == Covers(j, c, b)
    ensures Text(j, c, Buffered(b)) == Text(j, c, b) && Covers(j, c, Buffered(b)) == Covers(j, c, b)
    ensures var k := c.(indent := c.indent + 1);
            Text(j, c, Indented(b)) == Text(j, k, b) && Covers(j, c, Indented(b)) == Covers(j, k, b)
  {
  }

  /** Whether a node's parentheses are more than its context wants. */
  predicate Extra(j: Judge, c: Place, id: nat, own: Level) {
    j.Level(c, id) > own && c.Wanted(id) <= own
  }

  lemma Decided(j: Judge, c: Place, id: nat, own: Level, b: Script)
    requires Covers(j, c, Node(id, own, b))
    ensures var t := Text(j, c.Forget(), b);
            Text(j, c, Node(id, own, b))
              == if c.Wanted(id) > own || Extra(j, c, id, own) then [LPar] + t + [RPar] else t
    ensures Covers(j, c.Forget(), b) && (Extra(j, c, id, own) ==> own < ATOM && !j.Context?)
  {
    assert [] + Text(j, c.Forget(), b) + [] == Text(j, c.Forget(), b);
  }

  /** Contexts leave out nothing that they want. */
  lemma {:induction false} SelfCovers(c: Place, d: Script)
    ensures Covers(Context, c, d)
    decreases d
  {
    SelfAgrees(c, d);
    AgreeingCovers(Context, c, d);
  }

  lemma {:induction false} SelfAgrees(c: Place, d: Script)
    ensures Agrees(Context, Context, c, d)
    decreases d
  {
    match d
    case Then(a, b) => SelfAgrees(c, a); SelfAgrees(c, b);
    case Parens(b) => SelfAgrees(c, b);
    case Buffered(b) => SelfAgrees(c, b);
    case Key(b) => SelfAgrees(c, b);
    case Asking(ids, p, b) => SelfAgrees(c.Ask(ids, p), b);
    case Node(_, _, b) => SelfAgrees(c.Forget(), b);
    case Indented(b) => SelfAgrees(c.(indent := c.indent + 1), b);
    case TryKind(star, b) => SelfAgrees(c.(star := star), b);
    case _ =>
  }

  /* ----- copies ----- */

  /** A copy differs from its tree in identities only, and has none if it is `plain`. */
  predicate Copy(plain: bool, t: Expr, e: Expr) {
    Erase(t) == Erase(e) && (plain ==> t == Erase(e))
  }

  predicate CopyAll(plain: bool, ts: seq<Expr>, es: seq<Expr>) {
    EraseAll(ts) == EraseAll(es) && (plain ==> ts == EraseAll(es))
  }

  predicate CopyOpt(plain: bool, t: Option<Expr>, e: Option<Expr>) {
    EraseOpt(t) == EraseOpt(e) && (plain ==> t == EraseOpt(e))
  }

  lemma CopyCons(plain: bool, t: Expr, ts: seq<Expr>, es: seq<Expr>, i: nat)
    requires i < |es| && Copy(plain, t, es[i]) && CopyAll(plain, ts, es[i + 1..])
    ensures CopyAll(plain, [t] + ts, es[i..])
  {
    hide Erase;
    assert es[i..][1..] == es[i + 1..] && ([t] + ts)[1..] == ts;
  }

  lemma CopyNone(plain: bool, es: seq<Expr>, i: nat)
    requires i == |es|
    ensures CopyAll(plain, [], es[i..])
  {
  }

  lemma {:induction false} EraseAllAt(es: seq<Expr>, m: nat)
    requires m < |es|
    ensures EraseAll(es)[m] == Erase(es[m])
    decreases |es|
  {
    if m > 0 { EraseAllAt(es[1..], m - 1); }
  }

  lemma CopyAt(plain: bool, ts: seq<Expr>, es: seq<Expr>, m: nat, t: Expr)
    requires CopyAll(plain, ts, es) && m < |es| && |ts| == |es| && Copy(plain, t, es[m])
    ensures CopyAll(plain, ts[m := t], es)
  {
    hide Erase, EraseAll;
    forall k | 0 <= k < |es| ensures EraseAll(ts[m := t])[k] == EraseAll(es)[k] {
      EraseAllAt(ts[m := t], k);
      EraseAllAt(ts, k);
      EraseAllAt(es, k);
    }
    EraseAllAt(es, m);
    assert EraseAll(ts[m := t]) == EraseAll(es);
  }

  lemma SameLevel(t: Expr, e: Expr)
    requires Erase(t) == Erase(e)
    ensures Lv(t) == Lv(e)
  {
    hide EraseAll, EraseKeywords, EraseArguments;
  }

  /* ----- expressions ----- */

  /** What a visit of an expression writes. */
  lemma {:induction false} ExprMeant(j: Judge, c: Place, e: Expr) returns (t: Expr)
    requires Covers(j, c, ExprScript(e))
    ensures Text(j, c, ExprScript(e)) == Toks(t, c.Wanted(e.id)) && Copy(j.Context?, t, e)
    decreases e, 2
  {
    hide Text, Covers, Bare, BareScript, Erase;
    Decided(j, c, e.id, Lv(e), BareScript(e));
    t := BareMeant(j, c.Forget(), e, if Extra(j, c, e.id, Lv(e)) then PAIRED else 0);
    SameLevel(t, e);
  }

  lemma {:induction false} AskedMeant(j: Judge, c: Place, p: Level, e: Expr) returns (t: Expr)
    requires Covers(j, c, Asked(p, e))
    ensures Text(j, c, Asked(p, e)) == Toks(t, p) && Copy(j.Context?, t, e)
    decreases e, 3
  {
    hide Text, Covers, Toks, ExprScript, Copy;
    Inside(j, c, [e.id], p, ExprScript(e));
    t := ExprMeant(j.Told([e.id], p), c.Ask([e.id], p), e);
  }

  /** Where nothing was asked. */
  lemma {:induction false} NewMeant(j: Judge, c: Place, e: Expr) returns (t: Expr)
    requires c.ids == [] && Covers(j, c, ExprScript(e))
    ensures Text(j, c, ExprScript(e)) == Toks(t, TEST) && Copy(j.Context?, t, e)
    decreases e, 3
  {
    hide Text, Covers, Toks, ExprScript, Copy;
    t := ExprMeant(j, c, e);
  }

  /** Inside its parentheses, with the identity the copy is to have. */
  lemma {:induction false} BareMeant(j: Judge, c: Place, e: Expr, id: nat) returns (t: Expr)
    requires c.ids == [] && Covers(j, c, BareScript(e))
    ensures Text(j, c, BareScript(e)) == Bare(t) && t.id == id && Copy(j.Context? && id == 0, t, e)
    decreases e, 1
  {
    hide Text, Covers, Bare, BareScript, Copy;
    if e.Name? || e.Constant? {
      t := LeafMeant(j, c, e, id);
    } else if e.UnaryOp? || e.Await? || e.YieldFrom? || e.Starred? {
      t := PrefixMeant(j, c, e, id);
    } else if e.NamedExpr? {
      t := NamedExprMeant(j, c, e, id);
    } else if e.IfExp? {
      t := IfExpMeant(j, c, e, id);
    } else if e.Lambda? {
      t := LambdaMeant(j, c, e, id);
    } else if e.BoolOp? {
      t := AllBoolMeant(j, c, e, id);
    } else if e.Compare? {
      t := ComparisonMeant(j, c, e, id);
    } else if e.BinOp? {
      t := BinaryMeant(j, c, e, id);
    } else if e.Yield? {
      t := YieldMeant(j, c, e, id);
    } else if e.Tuple? || e.List? {
      t := ListMeant(j, c, e, id);
    } else if e.Attribute? {
      t := AttributeMeant(j, c, e, id);
    } else if e.Call? {
      t := CallMeant(j, c, e, id);
    } else {
      t := SubscriptMeant(j, c, e, id);
    }
  }

  lemma LeafMeant(j: Judge, c: Place, e: Expr, id: nat) returns (t: Expr)
    requires e.Name? || e.Constant?
    ensures Text(j, c, BareScript(e)) == Bare(t) && t.id == id && Copy(j.Context? && id == 0, t, e)
  {
    t := if e.Name? then Name(id, e.name) else Constant(id, e.value);
    Simple(j, c, if e.Name? then [Id(e.name)] else [], if e.Name? then True else e.value);
    hide Text;
  }

  /** A token and an operand. */
  lemma {:induction false} PrefixMeant(j: Judge, c: Place, e: Expr, id: nat) returns (t: Expr)
    requires (e.UnaryOp? || e.Await? || e.YieldFrom? || e.Starred?) && c.ids == [] && Covers(j, c, BareScript(e))
    ensures Text(j, c, BareScript(e)) == Bare(t) && t.id == id && Copy(j.Context? && id == 0, t, e)
    decreases e, 0
  {
    hide Text, Covers, Toks, Asked;
    var x := if e.UnaryOp? then e.operand else if e.Await? then e.awaited else if e.YieldFrom? then e.source
             else e.starred;
    var p: Level := if e.UnaryOp? then UnPrec(e.unop) else if e.Starred? then BOR else ATOM;
    var head: seq<Mark> := if e.UnaryOp? then [UnTok(e.unop)] else if e.Await? then [KwAwait]
                           else if e.YieldFrom? then [KwYield, KwFrom] else [Op(Mult)];
    assert BareScript(e) == Then(Put(head), Asked(p, x));
    hide BareScript;
    Pair(j, c, Put(head), Asked(p, x));
    Simple(j, c, head, True);
    var x' := AskedMeant(j.Later(Put(head)), c, p, x);
    t := if e.UnaryOp? then UnaryOp(id, e.unop, x') else if e.Await? then Await(id, x')
         else if e.YieldFrom? then YieldFrom(id, x') else Starred(id, x');
  }

  lemma {:induction false} BinaryMeant(j: Judge, c: Place, e: Expr, id: nat) returns (t: Expr)
    requires e.BinOp? && c.ids == [] && Covers(j, c, BareScript(e))
    ensures Text(j, c, BareScript(e)) == Bare(t) && t.id == id && Copy(j.Context? && id == 0, t, e)
    decreases e, 0
  {
    hide Text, Covers, Toks, Asked;
    var b := e.binop;
    var left, op, right := Asked(LeftPrec(b), e.lhs), Put([Op(b)]), Asked(RightPrec(b), e.rhs);
    var j1 := j.Later(left);
    Pair(j, c, left, Then(op, right));
    Pair(j1, c, op, right);
    Simple(j1, c, [Op(b)], True);
    var l := AskedMeant(j, c, LeftPrec(b), e.lhs);
    var r := AskedMeant(j1.Later(op), c, RightPrec(b), e.rhs);
    Regroup(Toks(l, LeftPrec(b)), [Op(b)], Toks(r, RightPrec(b)));
    t := BinOp(id, l, b, r);
  }

  lemma {:induction false} YieldMeant(j: Judge, c: Place, e: Expr, id: nat) returns (t: Expr)
    requires e.Yield? && c.ids == [] && Covers(j, c, BareScript(e))
    ensures Text(j, c, BareScript(e)) == Bare(t) && t.id == id && Copy(j.Context? && id == 0, t, e)
    decreases e, 0
  {
    hide Text, Covers, Toks, Asked;
    Simple(j, c, [KwYield], True);
    if e.yielded.Some? {
      Pair(j, c, Put([KwYield]), Asked(ATOM, e.yielded.value));
      var v := AskedMeant(j.Later(Put([KwYield])), c, ATOM, e.yielded.value);
      t := Yield(id, Some(v));
    } else {
      t := Yield(id, None);
    }
  }

  lemma {:induction false} ListMeant(j: Judge, c: Place, e: Expr, id: nat) returns (t: Expr)
    requires (e.Tuple? || e.List?) && c.ids == [] && Covers(j, c, BareScript(e))
    ensures Text(j, c, BareScript(e)) == Bare(t) && t.id == id && Copy(j.Context? && id == 0, t, e)
    decreases e, 0
  {
    hide Text, Covers, JoinToks, ItemToks, JoinScript, ItemScript, EraseAll;
    if e.List? {
      var j1 := j.Later(Put([LBrk]));
      Pair(j, c, Put([LBrk]), Then(JoinScript(e.elts, 0), Put([RBrk])));
      Pair(j1, c, JoinScript(e.elts, 0), Put([RBrk]));
      Simple(j, c, [LBrk], True);
      Simple(j1.Later(JoinScript(e.elts, 0)), c, [RBrk], True);
      var es := JoinedMeant(j1, c, e.elts);
      Regroup([LBrk], JoinToks(es), [RBrk]);
      t := List(id, es);
    } else if e.elts == [] {
      Within(j, c, Nothing);
      Simple(j, c, [], True);
      t := Tuple(id, []);
    } else {
      var es := ItemMeant(j, c, e.elts);
      t := Tuple(id, es);
    }
  }

  lemma {:induction false} AttributeMeant(j: Judge, c: Place, e: Expr, id: nat) returns (t: Expr)
    requires e.Attribute? && c.ids == [] && Covers(j, c, BareScript(e))
    ensures Text(j, c, BareScript(e)) == Bare(t) && t.id == id && Copy(j.Context? && id == 0, t, e)
    decreases e, 0
  {
    hide Text, Covers, Toks, Asked;
    var v, dot, n := Asked(ATOM, e.base), Put([Dot]), Put([Id(e.attr)]);
    var j1 := j.Later(v);
    Pair(j, c, v, Then(dot, n));
    Pair(j1, c, dot, n);
    Simple(j1, c, [Dot], True);
    Simple(j1.Later(dot), c, [Id(e.attr)], True);
    var b := AskedMeant(j, c, ATOM, e.base);
    assert [Dot] + [Id(e.attr)] == [Dot, Id(e.attr)];
    t := Attribute(id, b, e.attr);
  }

  lemma {:induction false} SubscriptMeant(j: Judge, c: Place, e: Expr, id: nat) returns (t: Expr)
    requires e.Subscript? && c.ids == [] && Covers(j, c, BareScript(e))
    ensures Text(j, c, BareScript(e)) == Bare(t) && t.id == id && Copy(j.Context? && id == 0, t, e)
    decreases e, 0
  {
    hide Text, Covers, Toks, ItemToks, Asked, SliceScript, Wraps;
    var v, open, s, close := Asked(ATOM, e.container), Put([LBrk]), SliceScript(e.slice), Put([RBrk]);
    var j1 := j.Later(v);
    var j2 := j1.Later(open);
    Pair(j, c, v, Then(open, Then(s, close)));
    Pair(j1, c, open, Then(s, close));
    Pair(j2, c, s, close);
    Simple(j1, c, [LBrk], True);
    Simple(j2.Later(s), c, [RBrk], True);
    var b := AskedMeant(j, c, ATOM, e.container);
    var i := SliceMeant(j2, c, e.slice);
    Regroup4(Toks(b, ATOM), [LBrk], SliceText(i), [RBrk]);
    t := Subscript(id, b, i);
  }

  /** A subscript shows the elements of a tuple bare. */
  function SliceText(s: Expr): seq<Token> {
    if s.Tuple? && s.elts != [] then ItemToks(s.elts) else Toks(s, TEST)
  }

  lemma {:induction false} SliceMeant(j: Judge, c: Place, s: Expr) returns (t: Expr)
    requires c.ids == [] && Covers(j, c, SliceScript(s))
    ensures Text(j, c, SliceScript(s)) == SliceText(t) && Copy(j.Context?, t, s)
    decreases s, 4
  {
    hide Text, Covers, Toks, ItemToks, ItemScript, ExprScript, EraseAll;
    if s.Tuple? && s.elts != [] {
      var es := ItemMeant(j, c, s.elts);
      t := Tuple(0, es);
    } else {
      t := NewMeant(j, c, s);
      SameLevel(t, s);
      SameShape(t, s);
      hide Erase;
    }
  }

  lemma SameShape(t: Expr, s: Expr)
    requires Erase(t) == Erase(s)
    ensures t.Tuple? == s.Tuple? && (t.Tuple? ==> |t.elts| == |s.elts|)
    ensures t.Starred? == s.Starred?
  {
    hide EraseAll, EraseKeywords, EraseArguments;
  }

  lemma {:induction false} NamedExprMeant(j: Judge, c: Place, e: Expr, id: nat) returns (t: Expr)
    requires e.NamedExpr? && c.ids == [] && Covers(j, c, BareScript(e))
    ensures Text(j, c, BareScript(e)) == Bare(t) && t.id == id && Copy(j.Context? && id == 0, t, e)
    decreases e, 0
  {
    hide Text, Covers, Toks, ExprScript;
    var x, v := e.target, e.namedValue;
    var k, j0 := c.Ask([x.id, v.id], ATOM), j.Told([x.id, v.id], ATOM);
    var first, mid, last := ExprScript(x), Put([Walrus]), ExprScript(v);
    Inside(j, c, k.ids, ATOM, Then(first, Then(mid, last)));
    var j1 := j0.Later(first);
    Pair(j0, k, first, Then(mid, last));
    Pair(j1, k, mid, last);
    Simple(j1, k, [Walrus], True);
    var x' := ExprMeant(j0, k, x);
    var v' := ExprMeant(j1.Later(mid), k, v);
    Regroup(Toks(x', ATOM), [Walrus], Toks(v', ATOM));
    t := NamedExpr(id, x', v');
  }

  lemma {:induction false} IfExpMeant(j: Judge, c: Place, e: Expr, id: nat) returns (t: Expr)
    requires e.IfExp? && c.ids == [] && Covers(j, c, BareScript(e))
    ensures Text(j, c, BareScript(e)) == Bare(t) && t.id == id && Copy(j.Context? && id == 0, t, e)
    decreases e, 0
  {
    hide Text, Covers, Toks, ExprScript, Asked;
    var b, x, o := e.body, e.test, e.orelse;
    var k, j0 := c.Ask([b.id, x.id], Next(TEST)), j.Told([b.id, x.id], Next(TEST));
    var head := Then(ExprScript(b), Then(Put([KwIf]), ExprScript(x)));
    var all := Asking(k.ids, k.level, head);
    var j1 := j.Later(all);
    Pair(j, c, all, Then(Put([KwElse]), Asked(TEST, o)));
    Pair(j1, c, Put([KwElse]), Asked(TEST, o));
    Simple(j1, c, [KwElse], True);
    Inside(j, c, k.ids, k.level, head);
    var j2 := j0.Later(ExprScript(b));
    Pair(j0, k, ExprScript(b), Then(Put([KwIf]), ExprScript(x)));
    Pair(j2, k, Put([KwIf]), ExprScript(x));
    Simple(j2, k, [KwIf], True);
    var b' := ExprMeant(j0, k, b);
    var x' := ExprMeant(j2.Later(Put([KwIf])), k, x);
    var o' := AskedMeant(j1.Later(Put([KwElse])), c, TEST, o);
    var p := Next(TEST);
    Regroup(Toks(b', p), [KwIf], Toks(x', p));
    Regroup(Toks(b', p) + [KwIf] + Toks(x', p), [KwElse], Toks(o', TEST));
    t := IfExp(id, x', b', o');
  }

  lemma {:induction false} LambdaMeant(j: Judge, c: Place, e: Expr, id: nat) returns (t: Expr)
    requires e.Lambda? && c.ids == [] && Covers(j, c, BareScript(e))
    ensures Text(j, c, BareScript(e)) == Bare(t) && t.id == id && Copy(j.Context? && id == 0, t, e)
    decreases e, 0
  {
    hide Text, Covers, Toks, Asked, ParamToks, ParamScript, EraseArguments;
    var word, params, colon, b := Put([KwLambda]), ParamScript(e.params), Put([Colon]), Asked(TEST, e.lambdaBody);
    var j1 := j.Later(word);
    var j2 := j1.Later(Buffered(params));
    Pair(j, c, word, Then(Buffered(params), Then(colon, b)));
    Pair(j1, c, Buffered(params), Then(colon, b));
    Pair(j2, c, colon, b);
    Within(j1, c, params);
    Simple(j, c, [KwLambda], True);
    Simple(j2, c, [Colon], True);
    var a := ParamMeant(j1, c, e.params);
    var v := AskedMeant(j2.Later(colon), c, TEST, e.lambdaBody);
    Regroup4([KwLambda], ParamToks(a), [Colon], Toks(v, TEST));
    t := Lambda(id, a, v);
  }

  /* ----- operands in a row ----- */

  function SepToks(yes: bool, t: Token): seq<Token> {
    if yes then [t] else []
  }

  lemma SepMeant(j: Judge, c: Place, yes: bool, t: Mark)
    ensures Text(j, c, Sep(yes, t)) == SepToks(yes, t)
  {
  }

  lemma {:induction false} AllBoolMeant(j: Judge, c: Place, e: Expr, id: nat) returns (t: Expr)
    requires e.BoolOp? && Covers(j, c, BareScript(e))
    ensures Text(j, c, BareScript(e)) == Bare(t) && t.id == id && Copy(j.Context? && id == 0, t, e)
    decreases e, 0
  {
    hide Text, Covers, BoolScript, BoolToks, EraseAll;
    var k, vs := e.boolop, e.values;
    var ts := BoolMeant(j, c, k, vs, 0, BoolPrec(k));
    assert vs[0..] == vs && [] + BoolToks(k, ts, Next(BoolPrec(k))) == BoolToks(k, ts, Next(BoolPrec(k)));
    t := BoolOp(id, k, ts);
  }

  lemma {:induction false} BoolMeant(j: Judge, c: Place, k: BoolKind, vs: seq<Expr>, i: nat, p: Level)
    returns (ts: seq<Expr>)
    requires i <= |vs| && Covers(j, c, BoolScript(k, vs, i, p))
    ensures Text(j, c, BoolScript(k, vs, i, p)) == SepToks(0 < i < |vs|, BoolTok(k)) + BoolToks(k, ts, Next(p))
    ensures |ts| == |vs| - i && CopyAll(j.Context?, ts, vs[i..])
    decreases vs, 0, |vs| - i
  {
    hide Text, Covers, Toks, Asked, Sep, Copy, CopyAll;
    if i == |vs| {
      Simple(j, c, [], True);
      CopyNone(j.Context?, vs, i);
      ts := [];
    } else {
      var sep, v, more := Sep(i > 0, BoolTok(k)), Asked(Next(p), vs[i]), BoolScript(k, vs, i + 1, Next(p));
      var j1 := j.Later(sep);
      var j2 := j1.Later(v);
      Pair(j, c, sep, Then(v, more));
      Pair(j1, c, v, more);
      SepMeant(j, c, i > 0, BoolTok(k));
      var x := AskedMeant(j1, c, Next(p), vs[i]);
      var xs := BoolMeant(j2, c, k, vs, i + 1, Next(p));
      hide BoolScript;
      ts := [x] + xs;
      CopyCons(j.Context?, x, xs, vs, i);
      BoolCons(k, x, xs, Next(p));
    }
  }

  lemma BoolCons(k: BoolKind, x: Expr, xs: seq<Expr>, p: Level)
    ensures BoolToks(k, [x] + xs, p) == Toks(x, p) + (SepToks(xs != [], BoolTok(k)) + BoolToks(k, xs, Next(p)))
  {
    hide Toks;
    assert ([x] + xs)[1..] == xs;
    Regroup(Toks(x, p), [BoolTok(k)], BoolToks(k, xs, Next(p)));
  }

  lemma {:induction false} ComparisonMeant(j: Judge, c: Place, e: Expr, id: nat) returns (t: Expr)
    requires e.Compare? && c.ids == [] && Covers(j, c, BareScript(e))
    ensures Text(j, c, BareScript(e)) == Bare(t) && t.id == id && Copy(j.Context? && id == 0, t, e)
    decreases e, 0
  {
    hide Text, Covers, Toks, ExprScript, CompareToks, CompareScript, EraseAll;
    var l, ops, cs := e.left, e.ops, e.comparators;
    var ids := [l.id] + Heads(cs);
    var k, j0 := c.Ask(ids, Next(CMP)), j.Told(ids, Next(CMP));
    HeadsAre(cs);
    Inside(j, c, ids, Next(CMP), Then(ExprScript(l), CompareScript(ops, cs, 0)));
    Pair(j0, k, ExprScript(l), CompareScript(ops, cs, 0));
    var l' := ExprMeant(j0, k, l);
    var cs' := CompareMeant(j0.Later(ExprScript(l)), k, ops, cs, 0);
    assert ops[0..] == ops && cs[0..] == cs;
    t := Compare(id, l', ops, cs');
  }

  lemma {:induction false} HeadsAre(es: seq<Expr>)
    ensures forall i :: 0 <= i < |es| ==> es[i].id in Heads(es)
  {
    if es != [] { HeadsAre(es[1..]); }
  }

  lemma {:induction false} CompareMeant(j: Judge, c: Place, ops: seq<CmpOp>, cs: seq<Expr>, i: nat)
    returns (ts: seq<Expr>)
    requires i <= |ops| && i <= |cs| && c.level == Next(CMP) && forall k :: 0 <= k < |cs| ==> cs[k].id in c.ids
    requires Covers(j, c, CompareScript(ops, cs, i))
    ensures Text(j, c, CompareScript(ops, cs, i)) == CompareToks(ops[i..], ts) && CopyAll(j.Context?, ts, cs[i..])
    decreases cs, 0, |cs| - i
  {
    hide Text, Covers, Toks, ExprScript, CmpToks, Copy, CopyAll;
    if i == |ops| || i == |cs| {
      Simple(j, c, [], True);
      PlainCopy(j.Context?, cs[i..]);
      ts := EraseAll(cs[i..]);
    } else {
      var op, v, more := Put(CmpToks(ops[i])), ExprScript(cs[i]), CompareScript(ops, cs, i + 1);
      var j1 := j.Later(op);
      var j2 := j1.Later(v);
      Pair(j, c, op, Then(v, more));
      Pair(j1, c, v, more);
      Simple(j, c, CmpToks(ops[i]), True);
      var x := ExprMeant(j1, c, cs[i]);
      var xs := CompareMeant(j2, c, ops, cs, i + 1);
      hide CompareScript;
      ts := [x] + xs;
      CopyCons(j.Context?, x, xs, cs, i);
      assert ops[i..][1..] == ops[i + 1..] && ts[1..] == xs;
      Regroup(CmpToks(ops[i]), Toks(x, Next(CMP)), CompareToks(ops[i + 1..], xs));
    }
  }

  lemma PlainCopy(plain: bool, es: seq<Expr>)
    ensures CopyAll(plain, EraseAll(es), es)
  {
    AllErased(es);
  }

  /* ----- elements ----- */

  lemma {:induction false} JoinMeant(j: Judge, c: Place, es: seq<Expr>, i: nat) returns (ts: seq<Expr>)
    requires i <= |es| && c.ids == [] && Covers(j, c, JoinScript(es, i))
    ensures Text(j, c, JoinScript(es, i)) == SepToks(0 < i < |es|, Comma) + JoinToks(ts)
    ensures |ts| == |es| - i && CopyAll(j.Context?, ts, es[i..])
    decreases es, 0, |es| - i
  {
    hide Text, Covers, Toks, ExprScript, Sep, Copy, CopyAll;
    if i == |es| {
      Simple(j, c, [], True);
      CopyNone(j.Context?, es, i);
      ts := [];
    } else {
      var sep, v, more := Sep(i > 0, Comma), ExprScript(es[i]), JoinScript(es, i + 1);
      var j1 := j.Later(sep);
      var j2 := j1.Later(v);
      Pair(j, c, sep, Then(v, more));
      Pair(j1, c, v, more);
      SepMeant(j, c, i > 0, Comma);
      var x := NewMeant(j1, c, es[i]);
      var xs := JoinMeant(j2, c, es, i + 1);
      hide JoinScript;
      ts := [x] + xs;
      CopyCons(j.Context?, x, xs, es, i);
      JoinCons(x, xs);
    }
  }

  lemma JoinCons(x: Expr, xs: seq<Expr>)
    ensures JoinToks([x] + xs) == Toks(x, TEST) + (SepToks(xs != [], Comma) + JoinToks(xs))
  {
    hide Toks;
    assert ([x] + xs)[1..] == xs;
    Regroup(Toks(x, TEST), [Comma], JoinToks(xs));
  }

  lemma {:induction false} JoinedMeant(j: Judge, c: Place, es: seq<Expr>) returns (ts: seq<Expr>)
    requires c.ids == [] && Covers(j, c, JoinScript(es, 0))
    ensures Text(j, c, JoinScript(es, 0)) == JoinToks(ts) && |ts| == |es| && CopyAll(j.Context?, ts, es)
    decreases es, 1
  {
    hide Text, Covers, JoinToks, JoinScript, CopyAll;
    ts := JoinMeant(j, c, es, 0);
    assert es[0..] == es && [] + JoinToks(ts) == JoinToks(ts);
  }

  lemma {:induction false} ItemMeant(j: Judge, c: Place, es: seq<Expr>) returns (ts: seq<Expr>)
    requires c.ids == [] && Covers(j, c, ItemScript(es))
    ensures Text(j, c, ItemScript(es)) == ItemToks(ts) && |ts| == |es| && CopyAll(j.Context?, ts, es)
    decreases es, 2
  {
    hide Text, Covers, Toks, JoinToks, JoinScript, ExprScript, Copy, CopyAll;
    if |es| == 1 {
      Pair(j, c, ExprScript(es[0]), Put([Comma]));
      Simple(j.Later(ExprScript(es[0])), c, [Comma], True);
      var x := NewMeant(j, c, es[0]);
      CopyNone(j.Context?, es, 1);
      CopyCons(j.Context?, x, [], es, 0);
      assert es[0..] == es && [x] + [] == [x];
      ts := [x];
    } else {
      ts := JoinedMeant(j, c, es);
    }
  }

  /* ----- calls ----- */

  predicate CopyKeywords(plain: bool, ts: seq<Keyword>, ks: seq<Keyword>) {
    EraseKeywords(ts) == EraseKeywords(ks) && (plain ==> ts == EraseKeywords(ks))
  }

  lemma {:induction false} CallMeant(j: Judge, c: Place, e: Expr, id: nat) returns (t: Expr)
    requires e.Call? && c.ids == [] && Covers(j, c, BareScript(e))
    ensures Text(j, c, BareScript(e)) == Bare(t) && t.id == id && Copy(j.Context? && id == 0, t, e)
    decreases e, 0
  {
    hide Text, Covers, Toks, Asked, JoinToks, JoinScript, KeywordToks, KeywordScript, EraseAll, EraseKeywords;
    var es, ks := JoinScript(e.args, 0), KeywordScript(e.keywords, 0, e.args != []);
    var f := Asked(ATOM, e.func);
    var j1 := j.Later(f);
    Pair(j, c, f, Parens(Then(es, ks)));
    Within(j1, c, Then(es, ks));
    Pair(j1, c, es, ks);
    var f' := AskedMeant(j, c, ATOM, e.func);
    var es' := JoinedMeant(j1, c, e.args);
    var ks' := KeywordMeant(j1.Later(es), c, e.keywords, 0, e.args != []);
    assert e.keywords[0..] == e.keywords;
    t := Call(id, f', es', ks');
    var comma := SepToks(es' != [] && ks' != [], Comma);
    assert Bare(t) == Toks(f', ATOM) + [LPar] + JoinToks(es') + comma + KeywordToks(ks') + [RPar];
    hide Bare, BareScript;
    CallRegroup(Toks(f', ATOM), JoinToks(es'), comma, KeywordToks(ks'));
  }

  lemma CallRegroup(f: seq<Token>, a: seq<Token>, b: seq<Token>, k: seq<Token>)
    ensures f + ([LPar] + (a + (b + k)) + [RPar]) == f + [LPar] + a + b + k + [RPar]
  {
  }

  lemma {:induction false} KeywordMeant(j: Judge, c: Place, ks: seq<Keyword>, i: nat, comma: bool)
    returns (ts: seq<Keyword>)
    requires i <= |ks| && c.ids == [] && Covers(j, c, KeywordScript(ks, i, comma))
    ensures Text(j, c, KeywordScript(ks, i, comma)) == SepToks(comma && i < |ks|, Comma) + KeywordToks(ts)
    ensures |ts| == |ks| - i && CopyKeywords(j.Context?, ts, ks[i..])
    decreases ks, 0, |ks| - i
  {
    hide Text, Covers, KeywordTok, KeywordOne, Sep, EraseKeyword;
    if i == |ks| {
      Simple(j, c, [], True);
      ts := [];
    } else {
      var sep, v, more := Sep(comma, Comma), KeywordOne(ks[i]), KeywordScript(ks, i + 1, true);
      var j1 := j.Later(sep);
      var j2 := j1.Later(v);
      Pair(j, c, sep, Then(v, more));
      Pair(j1, c, v, more);
      SepMeant(j, c, comma, Comma);
      var x := KeywordOneMeant(j1, c, ks[i]);
      var xs := KeywordMeant(j2, c, ks, i + 1, true);
      hide KeywordScript;
      ts := [x] + xs;
      assert ks[i..][1..] == ks[i + 1..] && ts[1..] == xs;
      Regroup(KeywordTok(x), [Comma], KeywordToks(xs));
    }
  }

  lemma {:induction false} KeywordOneMeant(j: Judge, c: Place, k: Keyword) returns (t: Keyword)
    requires c.ids == [] && Covers(j, c, KeywordOne(k))
    ensures Text(j, c, KeywordOne(k)) == KeywordTok(t) && EraseKeyword(t) == EraseKeyword(k)
    ensures j.Context? ==> t == EraseKeyword(k)
    decreases k, 0
  {
    hide Text, Covers, Toks, ExprScript, Erase;
    var head: seq<Mark> := if k.arg.None? then [Op(Pow)] else [Id(k.arg.value), Assign];
    Pair(j, c, Put(head), ExprScript(k.value));
    Simple(j, c, head, True);
    var v := NewMeant(j.Later(Put(head)), c, k.value);
    t := Keyword(k.arg, v);
  }

  /* ----- parameters ----- */

  lemma {:induction false} ParamMeant(j: Judge, c: Place, a: Arguments) returns (t: Arguments)
    requires c.ids == [] && Covers(j, c, ParamScript(a))
    ensures Text(j, c, ParamScript(a)) == ParamToks(t)
    ensures EraseArguments(t) == EraseArguments(a) && (j.Context? ==> t == EraseArguments(a))
    decreases a, 5
  {
    hide Text, Covers, PositionalScript, StarScript, KwOnlyScript, KwargScript, PositionalToks, StarToks, KwOnlyToks,
        KwargToks, EraseAll, EraseKwOnly;
    var p, s, k, w := PositionalScript(a, 0), StarScript(a), KwOnlyScript(a.kwonly, 0), KwargScript(a);
    var j1 := j.Later(p);
    var j2 := j1.Later(s);
    Pair(j, c, p, Then(s, Then(k, w)));
    Pair(j1, c, s, Then(k, w));
    Pair(j2, c, k, w);
    var ds := PositionalMeant(j, c, a, 0);
    StarMeant(j1, c, a);
    var ks := KwOnlyMeant(j2, c, a.kwonly, 0);
    assert a.kwonly[0..] == a.kwonly;
    KwargMeant(j2.Later(k), c, a);
    t := a.(defaults := ds, kwonly := ks);
    OtherParams(t, a.(defaults := ds), a);
    hide ParamScript, EraseArguments;
    var x, y, z, u := PositionalToks(t, 0), StarToks(t), KwOnlyToks(ks), KwargToks(t);
    Regroup4(x, y, z, u);
  }

  /** Positional parameters, `*` and `**` do not depend on the keyword-only ones' defaults. */
  lemma OtherParams(t: Arguments, p: Arguments, a: Arguments)
    requires t == p.(kwonly := t.kwonly) && p == a.(defaults := p.defaults) && |t.kwonly| == |a.kwonly|
    ensures StarToks(t) == StarToks(a) && KwargToks(t) == KwargToks(a) && PositionalToks(t, 0) == PositionalToks(p, 0)
  {
    PositionalKept(t, p, 0);
    hide PositionalToks;
  }

  /** Positional parameters with the same names, and the same defaults from the i-th on. */
  lemma {:induction false} PositionalKept(a: Arguments, b: Arguments, i: nat)
    requires a.posonly == b.posonly && a.args == b.args && |a.defaults| == |b.defaults| && i <= Positional(a)
    requires forall m :: 0 <= m < |a.defaults| && m + FirstDefault(a) >= i ==> a.defaults[m] == b.defaults[m]
    ensures PositionalToks(a, i) == PositionalToks(b, i)
    decreases Positional(a) - i
  {
    hide Toks;
    if i < Positional(a) { PositionalKept(a, b, i + 1); }
  }

  /** The defaults that are written from the i-th parameter on, in their places. */
  lemma {:induction false} PositionalMeant(j: Judge, c: Place, a: Arguments, i: nat) returns (ds: seq<Expr>)
    requires i <= Positional(a) && c.ids == [] && Covers(j, c, PositionalScript(a, i))
    ensures |ds| == |a.defaults| && Text(j, c, PositionalScript(a, i)) == PositionalToks(a.(defaults := ds), i)
    ensures CopyAll(j.Context?, ds, a.defaults)
    decreases a, 2, Positional(a) - i
  {
    hide Text, Covers, PositionalTok, ParameterScript, Sep, EraseAll;
    if i == Positional(a) {
      Simple(j, c, [], True);
      PlainCopy(j.Context?, a.defaults);
      ds := EraseAll(a.defaults);
    } else {
      var sep, v, more := Sep(i > 0, Comma), ParameterScript(a, i), PositionalScript(a, i + 1);
      var j1 := j.Later(sep);
      var j2 := j1.Later(v);
      Pair(j, c, sep, Then(v, more));
      Pair(j1, c, v, more);
      SepMeant(j, c, i > 0, Comma);
      var rest := PositionalMeant(j2, c, a, i + 1);
      ds := ParameterMeant(j1, c, a, i, rest);
      PositionalKept(a.(defaults := rest), a.(defaults := ds), i + 1);
      hide PositionalScript, CopyAll;
      Regroup(SepToks(i > 0, Comma), PositionalTok(a.(defaults := ds), i), PositionalToks(a.(defaults := ds), i + 1));
    }
  }

  /** The i-th parameter; its default goes to its place among the others. */
  lemma {:induction false} ParameterMeant(j: Judge, c: Place, a: Arguments, i: nat, rest: seq<Expr>)
    returns (ds: seq<Expr>)
    requires i < Positional(a) && c.ids == [] && Covers(j, c, ParameterScript(a, i))
    requires |rest| == |a.defaults| && CopyAll(j.Context?, rest, a.defaults)
    ensures |ds| == |a.defaults| && Text(j, c, ParameterScript(a, i)) == PositionalTok(a.(defaults := ds), i)
    ensures CopyAll(j.Context?, ds, a.defaults)
    ensures forall m :: 0 <= m < |ds| && m + FirstDefault(a) >= i + 1 ==> ds[m] == rest[m]
    decreases a, 1
  {
    hide Text, Covers, Toks, DefaultScript, Copy, CopyAll;
    var k, n := FirstDefault(a), [Id(PositionalName(a, i))];
    var name, default, slash :=
      Put([Id(PositionalName(a, i))]),
      (if i < k then Nothing else DefaultScript(a.defaults[i - k])),
      (if i + 1 == |a.posonly| then Put([Comma, Op(Div)]) else Nothing);
    var j1 := j.Later(name);
    var j2 := j1.Later(default);
    Pair(j, c, name, Then(default, slash));
    Pair(j1, c, default, slash);
    Simple(j, c, [Id(PositionalName(a, i))], True);
    Simple(j1, c, [], True);
    Simple(j2, c, [Comma, Op(Div)], True);
    ds := rest;
    if i >= k {
      var d := DefaultMeant(j1, c, a.defaults[i - k]);
      CopyAt(j.Context?, rest, a.defaults, i - k, d);
      ds := rest[i - k := d];
    }
    hide ParameterScript;
    assert PositionalName(a.(defaults := ds), i) == PositionalName(a, i) && FirstDefault(a.(defaults := ds)) == k;
    Regroup(n, Text(j1, c, default), Text(j2, c, slash));
  }

  lemma {:induction false} DefaultMeant(j: Judge, c: Place, e: Expr) returns (t: Expr)
    requires c.ids == [] && Covers(j, c, DefaultScript(e))
    ensures Text(j, c, DefaultScript(e)) == [Assign] + Toks(t, TEST) && Copy(j.Context?, t, e)
    decreases e, 4
  {
    hide Text, Covers, Toks, ExprScript, Copy;
    Pair(j, c, Put([Assign]), ExprScript(e));
    Simple(j, c, [Assign], True);
    t := NewMeant(j.Later(Put([Assign])), c, e);
  }

  lemma StarMeant(j: Judge, c: Place, a: Arguments)
    ensures Text(j, c, StarScript(a)) == StarToks(a)
  {
    hide Text, Sep;
    Simple(j, c, [], True);
    if a.vararg.Some? || a.kwonly != [] {
      var sep := Sep(Positional(a) > 0, Comma);
      var name: seq<Mark> := [Op(Mult)] + (if a.vararg.Some? then [Id(a.vararg.value)] else []);
      Pair(j, c, sep, Put(name));
      SepMeant(j, c, Positional(a) > 0, Comma);
      Simple(j.Later(sep), c, name, True);
    }
  }

  lemma KwargMeant(j: Judge, c: Place, a: Arguments)
    ensures Text(j, c, KwargScript(a)) == KwargToks(a)
  {
    hide Text, Sep;
    Simple(j, c, [], True);
    if a.kwarg.Some? {
      var comma := Positional(a) > 0 || a.vararg.Some? || a.kwonly != [];
      Pair(j, c, Sep(comma, Comma), Put([Op(Pow), Id(a.kwarg.value)]));
      SepMeant(j, c, comma, Comma);
      Simple(j.Later(Sep(comma, Comma)), c, [Op(Pow), Id(a.kwarg.value)], True);
    }
  }

  lemma {:induction false} KwOnlyMeant(j: Judge, c: Place, ks: seq<KwOnly>, i: nat) returns (ts: seq<KwOnly>)
    requires i <= |ks| && c.ids == [] && Covers(j, c, KwOnlyScript(ks, i))
    ensures Text(j, c, KwOnlyScript(ks, i)) == KwOnlyToks(ts) && |ts| == |ks| - i
    ensures EraseKwOnly(ts) == EraseKwOnly(ks[i..]) && (j.Context? ==> ts == EraseKwOnly(ks[i..]))
    decreases ks, 0, |ks| - i
  {
    hide Text, Covers, Toks, Clause, Erase;
    if i == |ks| {
      Simple(j, c, [], True);
      ts := [];
    } else {
      var name, d, more := Put([Comma, Id(ks[i].name)]), Clause(Assign, ks[i].default), KwOnlyScript(ks, i + 1);
      var j1 := j.Later(name);
      var j2 := j1.Later(d);
      Pair(j, c, name, Then(d, more));
      Pair(j1, c, d, more);
      Simple(j, c, [Comma, Id(ks[i].name)], True);
      var x := ClauseMeant(j1, c, Assign, ks[i].default);
      var xs := KwOnlyMeant(j2, c, ks, i + 1);
      hide KwOnlyScript;
      ts := [KwOnly(ks[i].name, x)] + xs;
      assert ks[i..][1..] == ks[i + 1..] && ts[1..] == xs;
      Regroup([Comma, Id(ks[i].name)], DefaultToks(x), KwOnlyToks(xs));
    }
  }

  function ClauseToks(t: Token, e: Option<Expr>): seq<Token> {
    if e.None? then [] else [t] + Toks(e.value, TEST)
  }

  lemma {:induction false} ClauseMeant(j: Judge, c: Place, t: Mark, e: Option<Expr>) returns (x: Option<Expr>)
    requires c.ids == [] && Covers(j, c, Clause(t, e))
    ensures Text(j, c, Clause(t, e)) == ClauseToks(t, x) && CopyOpt(j.Context?, x, e)
    decreases e, 0
  {
    hide Text, Covers, Toks, ExprScript, Erase;
    Simple(j, c, [t], True);
    x := None;
    if e.Some? {
      Pair(j, c, Put([t]), ExprScript(e.value));
      var v := NewMeant(j.Later(Put([t])), c, e.value);
      x := Some(v);
    }
  }

  lemma {:induction false} OptMeant(j: Judge, c: Place, e: Option<Expr>) returns (x: Option<Expr>)
    requires c.ids == [] && Covers(j, c, OptScript(e))
    ensures Text(j, c, OptScript(e)) == OptToks(x) && CopyOpt(j.Context?, x, e)
    decreases e, 0
  {
    hide Text, Covers, Toks, ExprScript, Erase;
    Simple(j, c, [], True);
    x := None;
    if e.Some? {
      var v := NewMeant(j, c, e.value);
      x := Some(v);
    }
  }
}
