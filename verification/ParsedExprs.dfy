/** Every expression the grammar reads is valid, and has no identities to forget: the
    trees that the round trip is proved for are all the trees the parser yields. */
module ParsedExprs {
  import opened Options
  import opened PyAst
  import opened Tokens
  import opened ExprGrammar
  import ExprRoundTrip

  predicate Plain(e: Expr) {
    Valid(e) && Erase(e) == e
  }

  predicate PlainElt(e: Expr) {
    ValidElt(e) && Erase(e) == e
  }

  predicate PlainElts(es: seq<Expr>) {
    ValidElts(es) && EraseAll(es) == es
  }

  predicate PlainAll(es: seq<Expr>) {
    ValidAll(es) && EraseAll(es) == es
  }

  predicate PlainArguments(a: Arguments) {
    ValidArguments(a) && EraseArguments(a) == a
  }

  lemma PlainIsElt(e: Expr)
    ensures Plain(e) ==> PlainElt(e)
  {
  }

  lemma EltsCons(e: Expr, es: seq<Expr>)
    requires PlainElt(e) && PlainElts(es)
    ensures PlainElts([e] + es)
  {
    hide Valid, Erase;
    assert ([e] + es)[1..] == es;
  }

  lemma AllCons(e: Expr, es: seq<Expr>)
    requires Plain(e) && PlainAll(es)
    ensures PlainAll([e] + es)
  {
    hide Valid, Erase;
    assert ([e] + es)[1..] == es;
  }

  lemma {:induction false} AllSnoc(es: seq<Expr>, e: Expr)
    requires PlainAll(es) && Plain(e)
    ensures PlainAll(es + [e])
  {
    hide Valid, Erase;
    if es == [] {
      assert [] + [e] == [e] && [e][1..] == [];
    } else {
      assert EraseAll(es)[1..] == EraseAll(es[1..]);
      AllSnoc(es[1..], e);
      assert (es + [e])[1..] == es[1..] + [e];
      assert es == [es[0]] + es[1..];
    }
  }

  lemma {:induction false} ParseYields(l: int, ts: seq<Token>)
    requires TEST <= l <= ATOM && Parse(l, ts).Ok?
    ensures Plain(Parse(l, ts).value)
    decreases |ts|, 20 - l, 1
  {
    ExprRoundTrip.Rule(l, ts);
    hide Parse, Plain;
    if l == TEST { TestYields(ts); }
    else if l == OR { BoolYields(Or, ts); }
    else if l == AND { BoolYields(And, ts); }
    else if l == NOT { NotYields(ts); }
    else if l == CMP { CompareYields(ts); }
    else if l <= TERM { BinaryYields(l, ts); }
    else if l == FACTOR { FactorYields(ts); }
    else if l == POWER { PowerYields(ts); }
    else if l == AWAIT { AwaitYields(ts); }
    else { PrimaryYields(ts); }
  }

  lemma {:induction false} TestYields(ts: seq<Token>)
    requires ParseTest(ts).Ok?
    ensures Plain(ParseTest(ts).value)
    decreases |ts|, 20 - TEST, 0
  {
    hide Parse, ParseParams, Plain, PlainArguments;
    if At(ts, KwLambda) {
      var a := ParseParams(0, Arguments([], [], [], None, [], None), ts[1..]);
      NoParams();
      ParamsYield(0, Arguments([], [], [], None, [], None), ts[1..]);
      ParseYields(TEST, a.rest[1..]);
      LambdaPlain(a.value, Parse(TEST, a.rest[1..]).value);
    } else {
      var b := Parse(OR, ts);
      ParseYields(OR, ts);
      if At(b.rest, KwIf) {
        ParseYields(OR, b.rest[1..]);
        var c := Parse(OR, b.rest[1..]);
        ParseYields(TEST, c.rest[1..]);
        IfExpPlain(c.value, b.value, Parse(TEST, c.rest[1..]).value);
      }
    }
  }

  lemma NoParams()
    ensures PlainArguments(Arguments([], [], [], None, [], None))
  {
  }

  lemma LambdaPlain(a: Arguments, b: Expr)
    requires PlainArguments(a) && Plain(b)
    ensures Plain(Lambda(0, a, b))
  {
  }

  lemma IfExpPlain(t: Expr, b: Expr, o: Expr)
    requires Plain(t) && Plain(b) && Plain(o)
    ensures Plain(IfExp(0, t, b, o))
  {
  }

  lemma {:induction false} BoolYields(k: BoolKind, ts: seq<Token>)
    requires ParseBool(k, ts).Ok?
    ensures Plain(ParseBool(k, ts).value)
    decreases |ts|, 20 - BoolRule(k), 0
  {
    hide Parse, BoolLoop;
    var v := Parse(BoolOperand(k), ts);
    ParseYields(BoolOperand(k), ts);
    BoolLoopYields(k, v.rest);
    AllCons(v.value, BoolLoop(k, v.rest).value);
  }

  lemma {:induction false} BoolLoopYields(k: BoolKind, ts: seq<Token>)
    requires BoolLoop(k, ts).Ok?
    ensures PlainAll(BoolLoop(k, ts).value)
    decreases |ts|, 0
  {
    hide Parse;
    if At(ts, BoolWord(k)) {
      var v := Parse(BoolOperand(k), ts[1..]);
      ParseYields(BoolOperand(k), ts[1..]);
      BoolLoopYields(k, v.rest);
      AllCons(v.value, BoolLoop(k, v.rest).value);
    }
  }

  lemma {:induction false} NotYields(ts: seq<Token>)
    requires ParseNot(ts).Ok?
    ensures Plain(ParseNot(ts).value)
    decreases |ts|, 20 - NOT, 0
  {
    hide Parse;
    if At(ts, KwNot) { ParseYields(NOT, ts[1..]); } else { ParseYields(CMP, ts); }
  }

  lemma {:induction false} CompareYields(ts: seq<Token>)
    requires ParseCompare(ts).Ok?
    ensures Plain(ParseCompare(ts).value)
    decreases |ts|, 20 - CMP, 0
  {
    hide Parse, CompareLoop;
    ParseYields(BOR, ts);
    CompareLoopYields(Parse(BOR, ts).rest);
  }

  lemma {:induction false} CompareLoopYields(ts: seq<Token>)
    requires CompareLoop(ts).Ok?
    ensures var r := CompareLoop(ts).value; |r.ops| == |r.cs| && PlainAll(r.cs)
    decreases |ts|, 0
  {
    hide Parse, ParseCmpOp;
    var o := ParseCmpOp(ts);
    if o.Ok? {
      var v := Parse(BOR, o.rest);
      ParseYields(BOR, o.rest);
      CompareLoopYields(v.rest);
      AllCons(v.value, CompareLoop(v.rest).value.cs);
    }
  }

  lemma {:induction false} BinaryYields(l: int, ts: seq<Token>)
    requires BOR <= l <= TERM && ParseBinary(l, ts).Ok?
    ensures Plain(ParseBinary(l, ts).value)
    decreases |ts|, 20 - l, 0
  {
    hide Parse, BinaryLoop;
    var v := Parse(Tighter(l), ts);
    ParseYields(Tighter(l), ts);
    BinaryLoopYields(l, v.value, v.rest);
  }

  lemma {:induction false} BinaryLoopYields(l: int, left: Expr, ts: seq<Token>)
    requires BOR <= l <= TERM && Plain(left) && BinaryLoop(l, left, ts).Ok?
    ensures Plain(BinaryLoop(l, left, ts).value)
    decreases |ts|, 0
  {
    hide Parse;
    if ts != [] && ts[0].Op? && OfRule(l, ts[0].b) {
      var v := Parse(Tighter(l), ts[1..]);
      ParseYields(Tighter(l), ts[1..]);
      BinaryLoopYields(l, BinOp(0, left, ts[0].b, v.value), v.rest);
    }
  }

  lemma {:induction false} FactorYields(ts: seq<Token>)
    requires ParseFactor(ts).Ok?
    ensures Plain(ParseFactor(ts).value)
    decreases |ts|, 20 - FACTOR, 0
  {
    hide Parse;
    if At(ts, Op(Add)) || At(ts, Op(Sub)) || At(ts, Tilde) {
      ParseYields(FACTOR, ts[1..]);
    } else {
      ParseYields(POWER, ts);
    }
  }

  lemma {:induction false} PowerYields(ts: seq<Token>)
    requires ParsePower(ts).Ok?
    ensures Plain(ParsePower(ts).value)
    decreases |ts|, 20 - POWER, 0
  {
    hide Parse;
    var v := Parse(AWAIT, ts);
    ParseYields(AWAIT, ts);
    if At(v.rest, Op(Pow)) { ParseYields(FACTOR, v.rest[1..]); }
  }

  lemma {:induction false} AwaitYields(ts: seq<Token>)
    requires ParseAwait(ts).Ok?
    ensures Plain(ParseAwait(ts).value)
    decreases |ts|, 20 - AWAIT, 0
  {
    hide Parse;
    if At(ts, KwAwait) { ParseYields(ATOM, ts[1..]); } else { ParseYields(ATOM, ts); }
  }

  lemma {:induction false} PrimaryYields(ts: seq<Token>)
    requires ParsePrimary(ts).Ok?
    ensures Plain(ParsePrimary(ts).value)
    decreases |ts|, 20 - ATOM, 0
  {
    hide ParseAtom, Trailers, Plain;
    var a := ParseAtom(ts);
    AtomYields(ts);
    TrailersYield(a.value, a.rest);
  }

  lemma {:induction false} TrailersYield(v: Expr, ts: seq<Token>)
    requires Plain(v) && Trailers(v, ts).Ok?
    ensures Plain(Trailers(v, ts).value)
    decreases |ts|, 0
  {
    hide ParseArgs, ParseSlices, Plain, PlainCall;
    if At(ts, Dot) {
      TrailerPlain(v, ts[1].name, CallArgs([], []), v);
      TrailersYield(Attribute(0, v, ts[1].name), ts[2..]);
    } else if At(ts, LPar) {
      var a := ParseArgs(0, ts[1..]);
      ArgsYield(0, ts[1..]);
      TrailerPlain(v, "", a.value, v);
      TrailersYield(Call(0, v, a.value.args, a.value.keywords), a.rest[1..]);
    } else if At(ts, LBrk) {
      var s := ParseSlices(ts[1..]);
      SlicesYield(ts[1..]);
      TrailerPlain(v, "", CallArgs([], []), s.value);
      TrailersYield(Subscript(0, v, s.value), s.rest[1..]);
    }
  }

  lemma TrailerPlain(v: Expr, n: string, a: CallArgs, s: Expr)
    requires Plain(v)
    ensures Plain(Attribute(0, v, n))
    ensures PlainCall(a) ==> Plain(Call(0, v, a.args, a.keywords))
    ensures Plain(s) ==> Plain(Subscript(0, v, s))
  {
    hide ValidElts, EraseAll, ValidKeywords, EraseKeywords;
  }

  lemma {:induction false} AtomYields(ts: seq<Token>)
    requires ParseAtom(ts).Ok?
    ensures Plain(ParseAtom(ts).value)
    decreases |ts|, 1
  {
    hide ParseGroup, ParseElts;
    if ts[0] == LPar {
      GroupYields(ts[1..]);
    } else if ts[0] == LBrk && !At(ts[1..], RBrk) {
      EltsYield(true, ts[1..]);
    }
  }

  lemma {:induction false} GroupYields(ts: seq<Token>)
    requires ParseGroup(ts).Ok?
    ensures Plain(ParseGroup(ts).value)
    decreases |ts|, 21
  {
    hide ParseYield, ParseElts;
    if !At(ts, RPar) {
      if At(ts, KwYield) {
        YieldYields(ts[1..]);
      } else {
        EltsYield(true, ts);
        OneOf(ParseElts(true, ts).value.es);
      }
    }
  }

  /** The only element, or the first. */
  lemma OneOf(es: seq<Expr>)
    requires es != [] && PlainElts(es)
    ensures PlainElt(es[0]) && (!es[0].Starred? ==> Plain(es[0]))
  {
    assert EraseAll(es)[0] == Erase(es[0]);
  }

  lemma TupleOf(es: seq<Expr>)
    requires PlainElts(es)
    ensures PlainElt(Tuple(0, es)) && Plain(Tuple(0, es))
  {
    assert Plain(Tuple(0, es));
    PlainIsElt(Tuple(0, es));
  }

  lemma {:induction false} YieldYields(ts: seq<Token>)
    requires ParseYield(ts).Ok?
    ensures Plain(ParseYield(ts).value)
    decreases |ts|, 22
  {
    hide Parse, ParseStarExprs;
    if At(ts, KwFrom) {
      ParseYields(TEST, ts[1..]);
    } else if StartsElt(ts) {
      StarExprsYield(ts);
    }
  }

  lemma {:induction false} StarExprsYield(ts: seq<Token>)
    requires ParseStarExprs(ts).Ok?
    ensures PlainElt(ParseStarExprs(ts).value)
    decreases |ts|, 21
  {
    hide ParseElts;
    EltsYield(false, ts);
    var es := ParseElts(false, ts).value.es;
    OneOf(es);
    TupleOf(es);
  }

  lemma {:induction false} SlicesYield(ts: seq<Token>)
    requires ParseSlices(ts).Ok?
    ensures Plain(ParseSlices(ts).value)
    decreases |ts|, 21
  {
    hide ParseElts;
    EltsYield(true, ts);
    OneOf(ParseElts(true, ts).value.es);
  }

  lemma {:induction false} EltsYield(named: bool, ts: seq<Token>)
    requires ParseElts(named, ts).Ok?
    ensures PlainElts(ParseElts(named, ts).value.es)
    decreases |ts|, 20
  {
    hide ParseElt, PlainElt, PlainElts;
    assert PlainElts([]) by { NoElts(); }
    var e := ParseElt(named, ts);
    EltYields(named, ts);
    EltsCons(e.value, []);
    assert [e.value] + [] == [e.value];
    if At(e.rest, Comma) && StartsElt(e.rest[1..]) {
      EltsYield(named, e.rest[1..]);
      EltsCons(e.value, ParseElts(named, e.rest[1..]).value.es);
    }
  }

  lemma NoElts()
    ensures PlainElts([])
  {
  }

  lemma {:induction false} EltYields(named: bool, ts: seq<Token>)
    requires ParseElt(named, ts).Ok?
    ensures PlainElt(ParseElt(named, ts).value)
    decreases |ts|, 19
  {
    hide Parse, ParseNamed;
    if At(ts, Op(Mult)) {
      ParseYields(BOR, ts[1..]);
    } else if named {
      NamedYields(ts);
    } else {
      ParseYields(TEST, ts);
    }
  }

  lemma {:induction false} NamedYields(ts: seq<Token>)
    requires ParseNamed(ts).Ok?
    ensures Plain(ParseNamed(ts).value)
    decreases |ts|, 18
  {
    hide Parse;
    var e := Parse(TEST, ts);
    ParseYields(TEST, ts);
    if At(e.rest, Walrus) { ParseYields(TEST, e.rest[1..]); }
  }

  predicate PlainCall(a: CallArgs) {
    PlainElts(a.args) && ValidKeywords(a.keywords) && EraseKeywords(a.keywords) == a.keywords
  }

  lemma KeywordsCons(k: Keyword, ks: seq<Keyword>)
    requires Plain(k.value) && ValidKeywords(ks) && EraseKeywords(ks) == ks
    ensures ValidKeywords([k] + ks) && EraseKeywords([k] + ks) == [k] + ks
  {
    hide Valid, Erase;
    assert ([k] + ks)[1..] == ks;
  }

  lemma {:induction false} ArgsYield(stage: nat, ts: seq<Token>)
    requires ParseArgs(stage, ts).Ok?
    ensures PlainCall(ParseArgs(stage, ts).value)
    decreases |ts|, 20
  {
    hide ParseArg, Valid, Erase;
    if !At(ts, RPar) {
      var a := ParseArg(stage, ts);
      ArgYields(stage, ts);
      var stage' := if a.value.Pos? then stage else if a.value.k.arg.None? then 2 else if stage == 0 then 1 else stage;
      if At(a.rest, Comma) { ArgsYield(stage', a.rest[1..]); }
      var more := if At(a.rest, Comma) then ParseArgs(stage', a.rest[1..]) else Ok(CallArgs([], []), a.rest);
      if a.value.Pos? {
        EltsCons(a.value.e, more.value.args);
      } else {
        KeywordsCons(a.value.k, more.value.keywords);
      }
    }
  }

  lemma {:induction false} ArgYields(stage: nat, ts: seq<Token>)
    requires ParseArg(stage, ts).Ok?
    ensures var r := ParseArg(stage, ts).value; if r.Pos? then PlainElt(r.e) else Plain(r.k.value)
    decreases |ts|, 19
  {
    hide Parse, ParseNamed;
    if At(ts, Op(Mult)) || At(ts, Op(Pow)) {
      ParseYields(TEST, ts[1..]);
    } else {
      var e := ParseNamed(ts);
      NamedYields(ts);
      if At(e.rest, Assign) { ParseYields(TEST, e.rest[1..]); }
    }
  }

  lemma {:induction false} KwOnlySnoc(ks: seq<KwOnly>, k: KwOnly)
    requires ValidKwOnly(ks) && EraseKwOnly(ks) == ks && (k.default.Some? ==> Plain(k.default.value))
    ensures ValidKwOnly(ks + [k]) && EraseKwOnly(ks + [k]) == ks + [k]
  {
    hide Valid, Erase;
    if ks == [] {
      assert [] + [k] == [k] && [k][1..] == [];
    } else {
      assert EraseKwOnly(ks)[1..] == EraseKwOnly(ks[1..]);
      KwOnlySnoc(ks[1..], k);
      assert (ks + [k])[1..] == ks[1..] + [k];
      assert ks == [ks[0]] + ks[1..];
    }
  }

  lemma {:induction false} ParamsYield(stage: nat, a: Arguments, ts: seq<Token>)
    requires PlainArguments(a) && (stage == 0 ==> a.posonly == []) && ParseParams(stage, a, ts).Ok?
    ensures PlainArguments(ParseParams(stage, a, ts).value)
    decreases |ts|, 20
  {
    hide ParseDefault, MoreParams, Valid, Erase;
    if !At(ts, Colon) {
      if ts[0].Id? {
        var d := ParseDefault(ts[1..]);
        DefaultYields(ts[1..]);
        if stage == 2 {
          var k := KwOnly(ts[0].name, d.value);
          KwOnlySnoc(a.kwonly, k);
          MoreYield(2, a.(kwonly := a.kwonly + [k]), d.rest);
        } else if d.value.Some? {
          AllSnoc(a.defaults, d.value.value);
          MoreYield(stage, a.(args := a.args + [ts[0].name], defaults := a.defaults + [d.value.value]), d.rest);
        } else {
          MoreYield(stage, a.(args := a.args + [ts[0].name]), d.rest);
        }
      } else if ts[0] == Op(Div) {
        MoreYield(1, a.(posonly := a.args, args := []), ts[1..]);
      } else if ts[0] == Op(Mult) {
        if ts[1].Id? { MoreYield(2, a.(vararg := Some(ts[1].name)), ts[2..]); } else { MoreYield(2, a, ts[1..]); }
      } else {
        MoreYield(3, a.(kwarg := Some(ts[1].name)), ts[2..]);
      }
    }
  }

  lemma {:induction false} MoreYield(stage: nat, a: Arguments, ts: seq<Token>)
    requires PlainArguments(a) && (stage == 0 ==> a.posonly == []) && MoreParams(stage, a, ts).Ok?
    ensures PlainArguments(MoreParams(stage, a, ts).value)
    decreases |ts|, 21
  {
    hide ParseParams, PlainArguments;
    if At(ts, Comma) { ParamsYield(stage, a, ts[1..]); }
  }

  lemma {:induction false} DefaultYields(ts: seq<Token>)
    requires ParseDefault(ts).Ok?
    ensures var d := ParseDefault(ts).value; d.Some? ==> Plain(d.value)
    decreases |ts|, 0
  {
    hide Parse;
    if At(ts, Assign) { ParseYields(TEST, ts[1..]); }
  }
}
