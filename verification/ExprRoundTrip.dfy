/** Parsing the text of an expression gives the expression back. */
module ExprRoundTrip {
  import opened Options
  import opened PyAst
  import opened Tokens
  import opened ExprText
  import opened ExprGrammar

  /** The level at which a token can continue an expression to its left; 0 if it cannot. */
  function Cont(t: Token): int {
    match t
    case LPar => ATOM
    case LBrk => ATOM
    case Dot => ATOM
    case Op(BitOr) => BOR
    case Op(BitXor) => BXOR
    case Op(BitAnd) => BAND
    case Op(LShift) => SHIFT
    case Op(RShift) => SHIFT
    case Op(Add) => ARITH
    case Op(Sub) => ARITH
    case Op(Pow) => POWER
    case Op(_) => TERM
    case RelTok(_) => CMP
    case KwIs => CMP
    case KwIn => CMP
    case KwNot => CMP
    case KwAnd => AND
    case KwOr => OR
    case KwIf => TEST
    case _ => 0
  }

  /** What follows cannot continue an expression of level `l`. */
  predicate Follow(l: int, ts: seq<Token>) {
    ts == [] || Cont(ts[0]) < l
  }

  /** What follows ends a list of elements. */
  predicate Closed(ts: seq<Token>) {
    ts == [] || (Cont(ts[0]) == 0 && ts[0] != Comma && ts[0] != Walrus && !Starts(TEST, ts[0]))
  }

  /** Which rule serves which level. */
  lemma Rule(l: int, ts: seq<Token>)
    requires TEST <= l <= ATOM
    ensures l == TEST ==> Parse(l, ts) == ParseTest(ts)
    ensures l == OR ==> Parse(l, ts) == ParseBool(Or, ts)
    ensures l == AND ==> Parse(l, ts) == ParseBool(And, ts)
    ensures l == NOT ==> Parse(l, ts) == ParseNot(ts)
    ensures l == CMP ==> Parse(l, ts) == ParseCompare(ts)
    ensures BOR <= l <= TERM ==> Parse(l, ts) == ParseBinary(l, ts)
    ensures l == FACTOR ==> Parse(l, ts) == ParseFactor(ts)
    ensures l == POWER ==> Parse(l, ts) == ParsePower(ts)
    ensures l == AWAIT ==> Parse(l, ts) == ParseAwait(ts)
    ensures l == ATOM ==> Parse(l, ts) == ParsePrimary(ts)
  {
  }

  lemma DownTest(ts: seq<Token>, e: Expr, rest: seq<Token>)
    requires Follow(TEST, rest) && Parse(OR, ts) == Ok(e, rest)
    ensures Parse(TEST, ts) == Ok(e, rest)
  {
    assert ParseTest(ts) == Ok(e, rest);
  }

  lemma DownBool(k: BoolKind, ts: seq<Token>, e: Expr, rest: seq<Token>)
    requires Follow(BoolPrec(k), rest) && Parse(BoolPrec(k) + 1, ts) == Ok(e, rest)
    ensures Parse(BoolPrec(k), ts) == Ok(e, rest)
  {
    assert BoolLoop(k, rest) == Ok([], rest);
    assert ParseBool(k, ts) == Ok(e, rest);
  }

  lemma DownNot(ts: seq<Token>, e: Expr, rest: seq<Token>)
    requires Parse(CMP, ts) == Ok(e, rest)
    ensures Parse(NOT, ts) == Ok(e, rest)
  {
    assert ParseNot(ts) == Ok(e, rest);
  }

  lemma DownCompare(ts: seq<Token>, e: Expr, rest: seq<Token>)
    requires Follow(CMP, rest) && Parse(BOR, ts) == Ok(e, rest)
    ensures Parse(CMP, ts) == Ok(e, rest)
  {
    assert CompareLoop(rest) == Ok(CmpRest([], []), rest);
    assert ParseCompare(ts) == Ok(e, rest);
  }

  lemma DownBinary(l: int, ts: seq<Token>, e: Expr, rest: seq<Token>)
    requires BOR <= l <= TERM && Parse(l + 1, ts) == Ok(e, rest)
    ensures Parse(l, ts) == BinaryLoop(l, e, rest)
    ensures Follow(l, rest) ==> Parse(l, ts) == Ok(e, rest)
  {
    assert ParseBinary(l, ts) == BinaryLoop(l, e, rest);
  }

  lemma DownFactor(ts: seq<Token>, e: Expr, rest: seq<Token>)
    requires Parse(POWER, ts) == Ok(e, rest)
    ensures Parse(FACTOR, ts) == Ok(e, rest)
  {
    assert ParseFactor(ts) == Ok(e, rest);
  }

  lemma DownPower(ts: seq<Token>, e: Expr, rest: seq<Token>)
    requires Follow(POWER, rest) && Parse(AWAIT, ts) == Ok(e, rest)
    ensures Parse(POWER, ts) == Ok(e, rest)
  {
    assert ParsePower(ts) == Ok(e, rest);
  }

  lemma DownAwait(ts: seq<Token>, e: Expr, rest: seq<Token>)
    requires Parse(ATOM, ts) == Ok(e, rest)
    ensures Parse(AWAIT, ts) == Ok(e, rest)
  {
    assert ParseAwait(ts) == Ok(e, rest);
  }

  /** An expression read at one level is read at every lower one. */
  lemma {:induction false} Lift(l: int, p: int, ts: seq<Token>, e: Expr, rest: seq<Token>)
    requires TEST <= p <= l <= ATOM && Follow(p, rest)
    requires Parse(l, ts) == Ok(e, rest)
    ensures Parse(p, ts) == Ok(e, rest)
    decreases l
  {
    if p < l {
      var k := l - 1;
      if k == TEST { DownTest(ts, e, rest); }
      else if k == OR { DownBool(Or, ts, e, rest); }
      else if k == AND { DownBool(And, ts, e, rest); }
      else if k == NOT { DownNot(ts, e, rest); }
      else if k == CMP { DownCompare(ts, e, rest); }
      else if k <= TERM { DownBinary(k, ts, e, rest); }
      else if k == FACTOR { DownFactor(ts, e, rest); }
      else if k == POWER { DownPower(ts, e, rest); }
      else { DownAwait(ts, e, rest); }
      Lift(k, p, ts, e, rest);
    }
  }

  /** The round trip, at every precedence an expression context asks for, whatever nodes are
      marked for a pair of parentheses that they do not need. */
  lemma {:induction false} RoundTrip(e: Expr, p: int, rest: seq<Token>)
    requires Valid(e) && TEST <= p <= ATOM && Follow(p, rest)
    ensures Parse(p, Toks(e, p) + rest) == Ok(Erase(e), rest)
    decreases e, 6
  {
    hide Parse, Bare, Erase, Trailers;
    if Wraps(e, p) {
      assert Toks(e, p) == Toks(e, ATOM);
      PrimaryRoundTrip(e, rest);
      NoTrailer(Erase(e), rest);
      Lift(ATOM, p, Toks(e, p) + rest, Erase(e), rest);
    } else {
      BareRoundTrip(e, rest);
      Lift(Lv(e), p, Bare(e) + rest, Erase(e), rest);
    }
  }

  /** Printed at level `q`, read at a level `p` no higher. */
  lemma {:induction false} RoundTripAt(e: Expr, q: int, p: int, rest: seq<Token>)
    requires Valid(e) && TEST <= p <= q <= ATOM && Follow(p, rest)
    ensures Parse(p, Toks(e, q) + rest) == Ok(Erase(e), rest)
    decreases e, 7
  {
    RoundTrip(e, q, rest);
    Lift(q, p, Toks(e, q) + rest, Erase(e), rest);
  }

  /** A primary, whatever follows it: parsing goes on with the trailers. */
  lemma {:induction false} PrimaryRoundTrip(e: Expr, rest: seq<Token>)
    requires Valid(e)
    ensures Parse(ATOM, Toks(e, ATOM) + rest) == Trailers(Erase(e), rest)
    decreases e, 5
  {
    hide Parse, Bare, Erase, Trailers, ParseAtom;
    Rule(ATOM, Toks(e, ATOM) + rest);
    if Lv(e) < ATOM {
      assert Toks(e, ATOM) + rest == [LPar] + (Bare(e) + ([RPar] + rest));
      GroupRoundTrip(e, rest);
    } else {
      PrimaryBare(e, rest);
    }
  }

  lemma {:induction false} PrimaryBare(e: Expr, rest: seq<Token>)
    requires Valid(e) && Lv(e) == ATOM
    ensures Parse(ATOM, Bare(e) + rest) == Trailers(Erase(e), rest)
    decreases e, 2
  {
    hide Parse, Trailers, ParseAtom;
    Rule(ATOM, Bare(e) + rest);
    match e
    case List(_, es) =>
      assert Bare(e) + rest == [LBrk] + (JoinToks(es) + ([RBrk] + rest));
      Rule(ATOM, Bare(e) + rest);
      ListAtom(es, rest);
    case Attribute(_, v, n) => AttributeTrailer(e, rest);
    case Call(_, f, es, ks) => CallTrailer(e, rest);
    case Subscript(_, v, s) => SubscriptTrailer(e, rest);
    case _ => Leaf(e, rest);
  }

  lemma Leaf(e: Expr, rest: seq<Token>)
    requires Valid(e) && (e.Name? || e.Constant? || (e.Tuple? && e.elts == []))
    ensures Parse(ATOM, Bare(e) + rest) == Trailers(Erase(e), rest)
  {
    hide Parse, Trailers;
    Rule(ATOM, Bare(e) + rest);
    var ts := Bare(e) + rest;
    if e.Tuple? {
      assert ts[1..] == [RPar] + rest;
      assert ts[2..] == rest;
      assert ParseGroup(ts[1..]) == Ok(Tuple(0, []), ts[1..]);
      assert EraseAll(e.elts) == [];
    } else {
      assert ts[1..] == rest;
    }
    assert ParseAtom(ts) == Ok(Erase(e), rest);
  }

  lemma {:induction false} AttributeTrailer(e: Expr, rest: seq<Token>)
    requires Valid(e) && e.Attribute?
    ensures Parse(ATOM, Bare(e) + rest) == Trailers(Erase(e), rest)
    decreases e, 0
  {
    hide Parse, Toks, ParseArgs, ParseSlices;
    var after := [Dot, Id(e.attr)] + rest;
    assert Bare(e) + rest == Toks(e.base, ATOM) + after;
    PrimaryRoundTrip(e.base, after);
    assert after[2..] == rest;
  }

  lemma {:induction false} ListAtom(es: seq<Expr>, rest: seq<Token>)
    requires ValidElts(es)
    ensures ParseAtom([LBrk] + (JoinToks(es) + ([RBrk] + rest))) == Ok(List(0, EraseAll(es)), rest)
    decreases es, 12
  {
    hide Parse, Toks, ParseElts, ParseGroup;
    var ts := [LBrk] + (JoinToks(es) + ([RBrk] + rest));
    assert ts[1..] == JoinToks(es) + ([RBrk] + rest);
    if es == [] {
      assert JoinToks(es) == [];
      assert ts[1..] == [RBrk] + rest;
      assert ts[2..] == rest;
      assert EraseAll(es) == [];
    } else {
      EltsRoundTrip(true, es, [RBrk] + rest);
      assert ParseElts(true, ts[1..]) == Ok(Elts(EraseAll(es), false), [RBrk] + rest);
      HeadOfElts(true, ts[1..]);
      assert !At(ts[1..], RBrk);
      assert ([RBrk] + rest)[1..] == rest;
    }
  }

  /** What ParseElts accepts starts an element. */
  lemma HeadOfElts(named: bool, ts: seq<Token>)
    requires ParseElts(named, ts).Ok?
    ensures StartsElt(ts)
  {
    assert ParseElt(named, ts).Ok?;
    if !At(ts, Op(Mult)) {
      if named { assert ParseNamed(ts).Ok?; }
      assert Parse(TEST, ts).Ok?;
    }
  }

  function SliceToks(s: Expr): seq<Token> {
    if s.Tuple? && s.elts != [] then ItemToks(s.elts) else Toks(s, TEST)
  }

  lemma {:induction false} SliceRoundTrip(s: Expr, rest: seq<Token>)
    requires Valid(s) && Closed(rest)
    ensures ParseSlices(SliceToks(s) + rest) == Ok(Erase(s), rest)
    decreases s, 10
  {
    hide Parse, Toks, ItemToks, ParseElts, ParseElt;
    var ts := SliceToks(s) + rest;
    if s.Tuple? && s.elts != [] {
      ItemsRoundTrip(true, s.elts, rest);
    } else {
      EltRoundTrip(true, s, rest);
      OneElt(true, ts, Erase(s), rest);
    }
  }

  lemma {:induction false} SubscriptTrailer(e: Expr, rest: seq<Token>)
    requires Valid(e) && e.Subscript?
    ensures Parse(ATOM, Bare(e) + rest) == Trailers(Erase(e), rest)
    decreases e, 0
  {
    hide Parse, Toks, ItemToks, ParseSlices, ParseArgs;
    var inner := SliceToks(e.slice) + ([RBrk] + rest);
    assert Bare(e) + rest == Toks(e.container, ATOM) + ([LBrk] + inner);
    PrimaryRoundTrip(e.container, [LBrk] + inner);
    assert ([LBrk] + inner)[1..] == inner;
    assert ([RBrk] + rest)[1..] == rest;
    SliceRoundTrip(e.slice, [RBrk] + rest);
  }

  lemma OneElt(named: bool, ts: seq<Token>, e: Expr, rest: seq<Token>)
    requires ParseElt(named, ts) == Ok(e, rest) && !At(rest, Comma)
    ensures ParseElts(named, ts) == Ok(Elts([e], false), rest)
  {
    hide ParseElt;
  }

  function ArgToks(es: seq<Expr>, ks: seq<Keyword>): seq<Token> {
    JoinToks(es) + (if es != [] && ks != [] then [Comma] else []) + KeywordToks(ks)
  }

  lemma NoArgs(ts: seq<Token>)
    requires At(ts, RPar)
    ensures ParseArgs(0, ts) == Ok(CallArgs([], []), ts)
  {
  }

  lemma {:induction false} ArgsRoundTrip(e: Expr, rest: seq<Token>)
    requires Valid(e) && e.Call?
    ensures ParseArgs(0, ArgToks(e.args, e.keywords) + ([RPar] + rest))
         == Ok(CallArgs(EraseAll(e.args), EraseKeywords(e.keywords)), [RPar] + rest)
    decreases e, 0
  {
    hide Parse, Toks, ParseArg, ParseArgs, Erase, EraseKeyword, KeywordTok;
    NoArgs([RPar] + rest);
    var es, ks, after := e.args, e.keywords, [RPar] + rest;
    var inner := ArgToks(es, ks) + after;
    if ks == [] {
      assert KeywordToks(ks) == [] && EraseKeywords(ks) == [];
      if es == [] {
        assert JoinToks(es) == [] && EraseAll(es) == [];
        assert inner == after;
      } else {
        assert inner == JoinToks(es) + after;
        PositionalArgs(es, after, CallArgs([], []), after);
        assert EraseAll(es) + [] == EraseAll(es);
      }
    } else {
      KeywordArgs(0, ks, rest);
      if es == [] {
        assert JoinToks(es) == [] && EraseAll(es) == [];
        assert inner == KeywordToks(ks) + after;
      } else {
        var tail := [Comma] + (KeywordToks(ks) + after);
        Tail(Comma, KeywordToks(ks) + after);
        assert ArgToks(es, ks) == JoinToks(es) + [Comma] + KeywordToks(ks);
        hide ArgToks, JoinToks, KeywordToks;
        Regroup4(JoinToks(es), [Comma], KeywordToks(ks), after);
        PositionalArgs(es, tail, CallArgs([], EraseKeywords(ks)), after);
        assert EraseAll(es) + [] == EraseAll(es);
      }
    }
  }

  lemma {:induction false} CallTrailer(e: Expr, rest: seq<Token>)
    requires Valid(e) && e.Call?
    ensures Parse(ATOM, Bare(e) + rest) == Trailers(Erase(e), rest)
    decreases e, 1
  {
    hide Parse, Toks, JoinToks, KeywordToks, ParseSlices, ParseArgs;
    var inner := ArgToks(e.args, e.keywords) + ([RPar] + rest);
    assert Bare(e) + rest == Toks(e.func, ATOM) + ([LPar] + inner);
    assert Erase(e) == Call(0, Erase(e.func), EraseAll(e.args), EraseKeywords(e.keywords)) && Valid(e.func);
    hide Bare, Erase, ArgToks, EraseAll, EraseKeywords;
    PrimaryRoundTrip(e.func, [LPar] + inner);
    ArgsRoundTrip(e, rest);
    Tail(LPar, inner);
    Tail(RPar, rest);
  }

  /** What is left to read after an argument. */
  function ArgsAfter(stage: nat, tail: seq<Token>): Parsed<CallArgs> {
    if At(tail, Comma) then ParseArgs(stage, tail[1..]) else Ok(CallArgs([], []), tail)
  }

  lemma PositionalFirst(ts: seq<Token>, e: Expr, tail: seq<Token>)
    requires !At(ts, RPar) && ParseArg(0, ts) == Ok(Pos(e), tail)
    ensures var more := ArgsAfter(0, tail);
            ParseArgs(0, ts) == if more.Fail? then Fail else Ok(CallArgs([e] + more.value.args, more.value.keywords),
                more.rest)
  {
    hide ParseArg;
  }

  lemma {:induction false} PositionalArgs(es: seq<Expr>, tail: seq<Token>, ca: CallArgs, rest: seq<Token>)
    requires es != [] && ValidElts(es)
    requires At(tail, Comma) || At(tail, RPar)
    requires ArgsAfter(0, tail) == Ok(ca, rest)
    ensures ParseArgs(0, JoinToks(es) + tail) == Ok(CallArgs(EraseAll(es) + ca.args, ca.keywords), rest)
    decreases es, 10
  {
    hide Parse, Toks, ParseArgs, ParseArg, Erase, Valid;
    if |es| == 1 {
      ArgRoundTrip(es[0], tail);
      PositionalFirst(Toks(es[0], TEST) + tail, Erase(es[0]), tail);
      assert EraseAll(es) == [Erase(es[0])];
    } else {
      var tail' := [Comma] + (JoinToks(es[1..]) + tail);
      ArgRoundTrip(es[0], tail');
      PositionalFirst(Toks(es[0], TEST) + tail', Erase(es[0]), tail');
      assert JoinToks(es) == Toks(es[0], TEST) + [Comma] + JoinToks(es[1..]);
      Regroup4(Toks(es[0], TEST), [Comma], JoinToks(es[1..]), tail);
      hide JoinToks;
      PositionalArgs(es[1..], tail, ca, rest);
      Tail(Comma, JoinToks(es[1..]) + tail);
      assert EraseAll(es) == [Erase(es[0])] + EraseAll(es[1..]);
      hide EraseAll;
      assert ([Erase(es[0])] + EraseAll(es[1..])) + ca.args == [Erase(es[0])] + (EraseAll(es[1..]) + ca.args);
    }
  }

  lemma {:induction false} ArgRoundTrip(e: Expr, tail: seq<Token>)
    requires ValidElt(e) && (At(tail, Comma) || At(tail, RPar))
    ensures ParseArg(0, Toks(e, TEST) + tail) == Ok(Pos(Erase(e)), tail)
    ensures !At(Toks(e, TEST) + tail, RPar)
    decreases e, 9
  {
    hide ParseArg, Toks;
    if e.Starred? {
      StarredToks(e);
      RoundTripAt(e.starred, BOR, TEST, tail);
      Regroup([Op(Mult)], Toks(e.starred, BOR), tail);
      StarArg(Toks(e.starred, BOR) + tail, Erase(e.starred), tail);
    } else {
      RoundTrip(e, TEST, tail);
      PlainArg(Toks(e, TEST) + tail, Erase(e), tail);
    }
  }

  lemma StarArg(ts: seq<Token>, e: Expr, rest: seq<Token>)
    requires Parse(TEST, ts) == Ok(e, rest)
    ensures ParseArg(0, [Op(Mult)] + ts) == Ok(Pos(Starred(0, e)), rest) && !At([Op(Mult)] + ts, RPar)
  {
    hide Parse;
    Tail(Op(Mult), ts);
  }

  lemma PlainArg(ts: seq<Token>, e: Expr, rest: seq<Token>)
    requires Parse(TEST, ts) == Ok(e, rest) && !At(rest, Walrus) && !At(rest, Assign)
    ensures ParseArg(0, ts) == Ok(Pos(e), rest) && !At(ts, RPar)
  {
    hide Parse;
    assert ParseNamed(ts) == Ok(e, rest);
  }

  lemma {:induction false} KeywordArgs(stage: nat, ks: seq<Keyword>, rest: seq<Token>)
    requires ks != [] && ValidKeywords(ks)
    ensures ParseArgs(stage, KeywordToks(ks) + ([RPar] + rest)) == Ok(CallArgs([], EraseKeywords(ks)), [RPar] + rest)
    decreases ks, 8
  {
    hide Parse, Toks, ParseArg, KeywordTok, ParseArgs, EraseKeyword, ValidKeyword;
    var tail := [RPar] + rest;
    if |ks| == 1 {
      KeywordArg(stage, ks[0], tail);
      assert EraseKeywords(ks) == [EraseKeyword(ks[0])];
      KeywordNext(stage, KeywordTok(ks[0]) + tail, EraseKeyword(ks[0]), tail, CallArgs([], []), tail);
    } else {
      var more := KeywordToks(ks[1..]) + tail;
      assert KeywordToks(ks) + tail == KeywordTok(ks[0]) + ([Comma] + more);
      assert EraseKeywords(ks) == [EraseKeyword(ks[0])] + EraseKeywords(ks[1..]);
      KeywordArg(stage, ks[0], [Comma] + more);
      KeywordArgs(stage, ks[1..], rest);
      KeywordArgs(1, ks[1..], rest);
      KeywordArgs(2, ks[1..], rest);
      hide KeywordToks, EraseKeywords, ValidKeywords;
      Tail(Comma, more);
      KeywordNext(stage, KeywordTok(ks[0]) + ([Comma] + more), EraseKeyword(ks[0]), [Comma] + more,
                  CallArgs([], EraseKeywords(ks[1..])), tail);
    }
  }

  /** A keyword argument and those after it. */
  lemma KeywordNext(stage: nat, ts: seq<Token>, k: Keyword, tail: seq<Token>, ca: CallArgs, rest: seq<Token>)
    requires !At(ts, RPar) && ParseArg(stage, ts) == Ok(Kw(k), tail)
    requires if At(tail, Comma) then forall i: nat :: i == stage || i == 1 || i == 2 ==>
                                       ParseArgs(i, tail[1..]) == Ok(ca, rest)
             else ca == CallArgs([], []) && rest == tail
    ensures ParseArgs(stage, ts) == Ok(CallArgs(ca.args, [k] + ca.keywords), rest)
  {
    hide ParseArg;
  }

  lemma {:induction false} KeywordArg(stage: nat, k: Keyword, tail: seq<Token>)
    requires ValidKeyword(k) && (At(tail, Comma) || At(tail, RPar))
    ensures ParseArg(stage, KeywordTok(k) + tail) == Ok(Kw(EraseKeyword(k)), tail)
    ensures !At(KeywordTok(k) + tail, RPar)
    decreases k, 8
  {
    hide ParseArg, Toks, Erase, Valid;
    var v := Toks(k.value, TEST);
    RoundTrip(k.value, TEST, tail);
    if k.arg.None? {
      Regroup([Op(Pow)], v, tail);
      StarStarArg(stage, v + tail, Erase(k.value), tail);
    } else {
      assert [Id(k.arg.value), Assign] == [Id(k.arg.value)] + [Assign];
      Regroup4([Id(k.arg.value)], [Assign], v, tail);
      NamedArg(stage, k.arg.value, v + tail, Erase(k.value), tail);
    }
  }

  lemma StarStarArg(stage: nat, ts: seq<Token>, e: Expr, rest: seq<Token>)
    requires Parse(TEST, ts) == Ok(e, rest)
    ensures ParseArg(stage, [Op(Pow)] + ts) == Ok(Kw(Keyword(None, e)), rest)
  {
    hide Parse;
    Tail(Op(Pow), ts);
  }

  lemma NamedArg(stage: nat, n: string, ts: seq<Token>, e: Expr, rest: seq<Token>)
    requires Parse(TEST, ts) == Ok(e, rest)
    ensures ParseArg(stage, [Id(n)] + ([Assign] + ts)) == Ok(Kw(Keyword(Some(n), e)), rest)
  {
    hide Parse, ParseNamed;
    var all := [Id(n)] + ([Assign] + ts);
    NamedFirst(n, [Assign] + ts);
    assert all[0] == Id(n);
    KeywordRead(stage, n, all, ts);
  }

  /** A name, an equals sign and what is read after it. */
  lemma KeywordRead(stage: nat, n: string, all: seq<Token>, ts: seq<Token>)
    requires all != [] && all[0] == Id(n) && ParseNamed(all) == Ok(Name(0, n), [Assign] + ts)
    ensures var v := Parse(TEST, ts);
            ParseArg(stage, all) == if v.Fail? then Fail else Ok(Kw(Keyword(Some(n), v.value)), v.rest)
  {
    hide Parse, ParseNamed;
    Tail(Assign, ts);
  }

  lemma {:induction false} NamedFirst(n: string, rest: seq<Token>)
    requires Follow(TEST, rest) && !At(rest, Walrus)
    ensures ParseNamed([Id(n)] + rest) == Ok(Name(0, n), rest)
    decreases 1
  {
    hide Parse;
    NameFirst(n, rest);
  }

  /** A name read as an expression. */
  lemma {:induction false} NameFirst(n: string, rest: seq<Token>)
    requires Follow(TEST, rest)
    ensures Parse(TEST, [Id(n)] + rest) == Ok(Name(0, n), rest)
    decreases 0
  {
    hide Parse, ParseArgs, ParseGroup, ParseElts;
    Rule(ATOM, [Id(n)] + rest);
    var ts := [Id(n)] + rest;
    assert ts[1..] == rest;
    assert ParseAtom(ts) == Ok(Name(0, n), rest);
    assert ParsePrimary(ts) == Trailers(Name(0, n), rest) == Ok(Name(0, n), rest);
    Lift(ATOM, TEST, ts, Name(0, n), rest);
  }

  lemma StarredToks(e: Expr)
    requires e.Starred?
    ensures Toks(e, TEST) == [Op(Mult)] + Toks(e.starred, BOR)
  {
  }

  lemma {:induction false} EltRoundTrip(named: bool, e: Expr, rest: seq<Token>)
    requires ValidElt(e) && Follow(TEST, rest) && !At(rest, Walrus)
    ensures ParseElt(named, Toks(e, TEST) + rest) == Ok(Erase(e), rest)
    decreases e, 9
  {
    hide Parse, Bare;
    var ts := Toks(e, TEST) + rest;
    if e.Starred? {
      StarredToks(e);
      assert ts[1..] == Toks(e.starred, BOR) + rest;
      RoundTrip(e.starred, BOR, rest);
    } else {
      RoundTrip(e, TEST, rest);
      assert ParseNamed(ts) == Ok(Erase(e), rest);
    }
  }

  lemma {:induction false} EltsRoundTrip(named: bool, es: seq<Expr>, rest: seq<Token>)
    requires es != [] && ValidElts(es) && Closed(rest)
    ensures ParseElts(named, JoinToks(es) + rest) == Ok(Elts(EraseAll(es), false), rest)
    decreases es, 10
  {
    hide Parse, Toks, ParseElt;
    if |es| == 1 {
      EltRoundTrip(named, es[0], rest);
      assert EraseAll(es) == [Erase(es[0])];
    } else {
      var rest' := [Comma] + (JoinToks(es[1..]) + rest);
      assert JoinToks(es) + rest == Toks(es[0], TEST) + rest';
      EltRoundTrip(named, es[0], rest');
      EltsRoundTrip(named, es[1..], rest);
      assert rest'[1..] == JoinToks(es[1..]) + rest;
      HeadOfElts(named, rest'[1..]);
    }
  }

  lemma {:induction false} ItemsRoundTrip(named: bool, es: seq<Expr>, rest: seq<Token>)
    requires es != [] && ValidElts(es) && Closed(rest)
    ensures ParseElts(named, ItemToks(es) + rest) == Ok(Elts(EraseAll(es), |es| == 1), rest)
    decreases es, 11
  {
    hide Parse, Toks, ParseElt;
    if |es| == 1 {
      var rest' := [Comma] + rest;
      assert ItemToks(es) + rest == Toks(es[0], TEST) + rest';
      EltRoundTrip(named, es[0], rest');
      assert rest'[1..] == rest;
      assert EraseAll(es) == [Erase(es[0])];
      assert !StartsElt(rest);
    } else {
      EltsRoundTrip(named, es, rest);
    }
  }

  /** A parenthesised expression is an atom. */
  lemma {:induction false} GroupRoundTrip(e: Expr, rest: seq<Token>)
    requires Valid(e) && Lv(e) < ATOM
    ensures ParseAtom([LPar] + (Bare(e) + ([RPar] + rest))) == Ok(Erase(e), rest)
    decreases e, 4
  {
    hide Parse, Toks, ItemToks, ParseElts, ParseYield, ParseGroup;
    var after := [RPar] + rest;
    var ts := Bare(e) + after;
    GroupInner(e, rest);
    Tail(LPar, ts);
    Tail(RPar, rest);
    hide Bare, Erase;
  }

  lemma ErasedNotStarred(e: Expr)
    requires Valid(e)
    ensures !Erase(e).Starred?
  {
    hide EraseAll, EraseArguments, EraseKeywords;
  }

  lemma LoneGroup(ts: seq<Token>, e: Expr, rest: seq<Token>)
    requires Parse(TEST, ts) == Ok(e, rest) && At(rest, RPar) && !e.Starred?
    ensures ParseGroup(ts) == Ok(e, rest)
  {
    hide Parse;
    assert ParseNamed(ts) == Ok(e, rest);
    OneElt(true, ts, e, rest);
  }

  /** What is between the parentheses. */
  lemma {:induction false} GroupInner(e: Expr, rest: seq<Token>)
    requires Valid(e) && Lv(e) < ATOM
    ensures ParseGroup(Bare(e) + ([RPar] + rest)) == Ok(Erase(e), [RPar] + rest)
    decreases e, 4, 0
  {
    hide Parse, Toks, ItemToks, ParseElts, ParseYield;
    var after := [RPar] + rest;
    var ts := Bare(e) + after;
    if e.NamedExpr? {
      NamedBare(e, after);
    } else if e.Yield? || e.YieldFrom? {
      YieldBare(e, after);
    } else if e.Tuple? {
      ItemsRoundTrip(true, e.elts, after);
      assert ts == ItemToks(e.elts) + after;
      hide Bare;
      HeadOfElts(true, ts);
    } else {
      BareRoundTrip(e, after);
      Lift(Lv(e), TEST, ts, Erase(e), after);
      ErasedNotStarred(e);
      hide Bare, Erase, Valid;
      LoneGroup(ts, Erase(e), after);
    }
  }

  lemma {:induction false} NamedBare(e: Expr, rest: seq<Token>)
    requires Valid(e) && e.NamedExpr? && Closed(rest)
    ensures ParseElts(true, Bare(e) + rest) == Ok(Elts([Erase(e)], false), rest)
    ensures !At(Bare(e) + rest, RPar) && !At(Bare(e) + rest, KwYield)
    decreases e, 3
  {
    hide Parse, ParseArgs, ParseParams;
    var n := e.target.name;
    var ts := Bare(e) + rest;
    assert Lv(e.target) == ATOM && Toks(e.target, ATOM) == Bare(e.target) == [Id(n)];
    var after := [Walrus] + (Toks(e.namedValue, ATOM) + rest);
    assert ts == [Id(n)] + after;
    NameFirst(n, after);
    assert after[1..] == Toks(e.namedValue, ATOM) + rest;
    RoundTripAt(e.namedValue, ATOM, TEST, rest);
    assert ParseNamed(ts) == Ok(Erase(e), rest);
    assert ParseElt(true, ts) == Ok(Erase(e), rest);
  }

  lemma {:induction false} YieldBare(e: Expr, rest: seq<Token>)
    requires Valid(e) && (e.Yield? || e.YieldFrom?) && Closed(rest) && !At(rest, KwFrom)
    ensures At(Bare(e) + rest, KwYield)
    ensures ParseYield((Bare(e) + rest)[1..]) == Ok(Erase(e), rest)
    decreases e, 3
  {
    hide Bare, Erase, Valid, ParseYield;
    if e.YieldFrom? {
      YieldFromBare(e, rest);
    } else if e.yielded.Some? {
      YieldValueBare(e, rest);
    } else {
      YieldAlone(e, rest);
    }
  }

  lemma YieldAlone(e: Expr, rest: seq<Token>)
    requires e.Yield? && e.yielded.None? && Closed(rest) && !At(rest, KwFrom)
    ensures At(Bare(e) + rest, KwYield)
    ensures ParseYield((Bare(e) + rest)[1..]) == Ok(Erase(e), rest)
  {
    hide Parse, Toks, ParseStarExprs;
    Tail(KwYield, rest);
  }

  lemma {:induction false} YieldFromBare(e: Expr, rest: seq<Token>)
    requires Valid(e) && e.YieldFrom? && Closed(rest)
    ensures At(Bare(e) + rest, KwYield)
    ensures ParseYield((Bare(e) + rest)[1..]) == Ok(Erase(e), rest)
    decreases e, 2
  {
    hide Parse, Toks;
    var after := Toks(e.source, ATOM) + rest;
    assert Bare(e) == [KwYield, KwFrom] + Toks(e.source, ATOM) && [KwYield] + [KwFrom] == [KwYield, KwFrom];
    Regroup4([KwYield], [KwFrom], Toks(e.source, ATOM), rest);
    assert Erase(e) == YieldFrom(0, Erase(e.source)) && Valid(e.source);
    hide Bare, Erase, Valid;
    RoundTripAt(e.source, ATOM, TEST, rest);
    Tail(KwYield, [KwFrom] + after);
    YieldParsed(after, Erase(e.source), rest);
  }

  /** What may follow `yield`. */
  lemma YieldParsed(ts: seq<Token>, v: Expr, rest: seq<Token>)
    ensures Parse(TEST, ts) == Ok(v, rest) ==> ParseYield([KwFrom] + ts) == Ok(YieldFrom(0, v), rest)
    ensures StartsElt(ts) && ParseStarExprs(ts) == Ok(v, rest) ==> ParseYield(ts) == Ok(Yield(0, Some(v)), rest)
  {
    hide Parse, ParseStarExprs;
    Tail(KwFrom, ts);
  }

  lemma {:induction false} YieldValueBare(e: Expr, rest: seq<Token>)
    requires Valid(e) && e.Yield? && e.yielded.Some? && Closed(rest)
    ensures At(Bare(e) + rest, KwYield)
    ensures ParseYield((Bare(e) + rest)[1..]) == Ok(Erase(e), rest)
    decreases e, 2
  {
    hide Parse, Toks, JoinToks, ParseStarExprs;
    var v := e.yielded.value;
    var ts := Toks(v, ATOM) + rest;
    assert Bare(e) == [KwYield] + Toks(v, ATOM);
    Regroup([KwYield], Toks(v, ATOM), rest);
    assert Erase(e) == Yield(0, Some(Erase(v))) && ValidElt(v);
    hide Bare, Erase, Valid;
    Tail(KwYield, ts);
    if v.Starred? {
      StarredAlone(v, rest);
    } else {
      RoundTripAt(v, ATOM, TEST, rest);
      LoneExpr(ts, Erase(v), rest);
    }
    YieldParsed(ts, Erase(v), rest);
  }

  /** A starred expression, which never has parentheses, can be all there is. */
  lemma {:induction false} StarredAlone(v: Expr, rest: seq<Token>)
    requires v.Starred? && ValidElt(v) && Closed(rest)
    ensures ParseStarExprs(Toks(v, ATOM) + rest) == Ok(Erase(v), rest)
    ensures At(Toks(v, ATOM) + rest, Op(Mult))
    decreases v, 10
  {
    hide Parse, Bare, ParseElt, ParseElts, Valid;
    StarredToks(v);
    assert Toks(v, ATOM) == Toks(v, TEST);
    hide Toks;
    EltRoundTrip(false, v, rest);
    OneElt(false, Toks(v, TEST) + rest, Erase(v), rest);
  }

  /** An expression that nothing follows is all of the star-expressions. */
  lemma LoneExpr(ts: seq<Token>, e: Expr, rest: seq<Token>)
    requires Parse(TEST, ts) == Ok(e, rest) && Closed(rest)
    ensures ParseStarExprs(ts) == Ok(e, rest)
  {
    hide Parse;
    OneElt(false, ts, e, rest);
  }

  /** An expression without parentheses is read by the rule of its own level. */
  lemma {:induction false} BareRoundTrip(e: Expr, rest: seq<Token>)
    requires Valid(e) && Lv(e) >= TEST && Follow(Lv(e), rest)
    ensures Parse(Lv(e), Bare(e) + rest) == Ok(Erase(e), rest)
    decreases e, 3
  {
    hide Parse, Bare, Trailers, Erase;
    if Lv(e) == ATOM {
      PrimaryBare(e, rest);
      NoTrailer(Erase(e), rest);
    } else {
      match e
      case IfExp(_, _, _, _) => IfExpBare(e, rest);
      case Lambda(_, _, _) => LambdaBare(e, rest);
      case BoolOp(_, _, _) => BoolBare(e, rest);
      case UnaryOp(_, _, _) => UnaryBare(e, rest);
      case Compare(_, _, _, _) => CompareBare(e, rest);
      case BinOp(_, _, b, _) => if b.Pow? { PowerBare(e, rest); } else { BinaryBare(e, rest); }
      case Await(_, v) => AwaitBare(e, rest);
      case _ => assert false;
    }
  }

  lemma NoTrailer(e: Expr, rest: seq<Token>)
    requires Follow(ATOM, rest)
    ensures Trailers(e, rest) == Ok(e, rest)
  {
    hide ParseArgs, ParseSlices;
  }

  lemma {:induction false} AwaitBare(e: Expr, rest: seq<Token>)
    requires Valid(e) && e.Await? && Follow(AWAIT, rest)
    ensures Parse(AWAIT, Bare(e) + rest) == Ok(Erase(e), rest)
    decreases e, 0
  {
    hide Parse, Toks;
    Rule(AWAIT, Bare(e) + rest);
    assert (Bare(e) + rest)[1..] == Toks(e.awaited, ATOM) + rest;
    RoundTrip(e.awaited, ATOM, rest);
  }

  lemma {:induction false} IfExpBare(e: Expr, rest: seq<Token>)
    requires Valid(e) && e.IfExp? && Follow(TEST, rest)
    ensures Parse(TEST, Bare(e) + rest) == Ok(Erase(e), rest)
    decreases e, 0
  {
    hide Parse, Toks;
    var r2 := [KwElse] + (Toks(e.orelse, TEST) + rest);
    var r1 := [KwIf] + (Toks(e.test, OR) + r2);
    assert Bare(e) + rest == Toks(e.body, OR) + r1;
    assert Erase(e) == IfExp(0, Erase(e.test), Erase(e.body), Erase(e.orelse));
    assert Valid(e.test) && Valid(e.body) && Valid(e.orelse);
    hide Bare, Erase, Valid;
    RoundTrip(e.body, OR, r1);
    RoundTrip(e.test, OR, r2);
    RoundTrip(e.orelse, TEST, rest);
    Chosen(Bare(e) + rest, Erase(e.body), Toks(e.test, OR) + r2, Erase(e.test), Toks(e.orelse, TEST) + rest,
           Erase(e.orelse), rest);
  }

  /** Three expressions around `if` and `else`. */
  lemma Chosen(ts: seq<Token>, b: Expr, r1: seq<Token>, t: Expr, r2: seq<Token>, o: Expr, rest: seq<Token>)
    requires Parse(OR, ts) == Ok(b, [KwIf] + r1) && Parse(OR, r1) == Ok(t, [KwElse] + r2)
    requires Parse(TEST, r2) == Ok(o, rest)
    ensures Parse(TEST, ts) == Ok(IfExp(0, t, b, o), rest)
  {
    hide Parse, ParseParams;
    Rule(TEST, ts);
    Tail(KwIf, r1);
    Tail(KwElse, r2);
    assert ParseTest(ts) == Ok(IfExp(0, t, b, o), rest);
  }

  lemma {:induction false} UnaryBare(e: Expr, rest: seq<Token>)
    requires Valid(e) && e.UnaryOp? && Follow(Lv(e), rest)
    ensures Parse(Lv(e), Bare(e) + rest) == Ok(Erase(e), rest)
    decreases e, 0
  {
    hide Parse, Toks;
    Rule(Lv(e), Bare(e) + rest);
    var ts := Bare(e) + rest;
    assert ts[1..] == Toks(e.operand, Lv(e)) + rest;
    RoundTrip(e.operand, Lv(e), rest);
    if e.unop.Not? {
      assert ParseNot(ts) == Ok(Erase(e), rest);
    } else {
      assert ParseFactor(ts) == Ok(Erase(e), rest);
    }
  }

  lemma {:induction false} BoolBare(e: Expr, rest: seq<Token>)
    requires Valid(e) && e.BoolOp? && Follow(Lv(e), rest)
    ensures Parse(Lv(e), Bare(e) + rest) == Ok(Erase(e), rest)
    decreases e, 0
  {
    hide Parse, Toks, BoolLoop;
    var k, vs, p := e.boolop, e.values, Lv(e);
    var r1 := [BoolTok(k)] + (BoolToks(k, vs[1..], Next(p + 1)) + rest);
    assert Bare(e) + rest == Toks(vs[0], p + 1) + r1;
    assert Erase(e) == BoolOp(0, k, [Erase(vs[0])] + EraseAll(vs[1..])) && EraseAll(vs[1..]) != [];
    assert Valid(vs[0]) && ValidAll(vs[1..]) && p == BoolPrec(k);
    hide Bare, Erase, Valid, BoolToks, EraseAll, ValidAll;
    RoundTrip(vs[0], p + 1, r1);
    BoolLoopRoundTrip(k, vs[1..], Next(p + 1), rest);
    Joined(k, Bare(e) + rest, Erase(vs[0]), r1, EraseAll(vs[1..]), rest);
  }

  lemma Joined(k: BoolKind, ts: seq<Token>, v: Expr, r1: seq<Token>, more: seq<Expr>, rest: seq<Token>)
    requires Parse(BoolPrec(k) + 1, ts) == Ok(v, r1) && BoolLoop(k, r1) == Ok(more, rest) && more != []
    ensures Parse(BoolPrec(k), ts) == Ok(BoolOp(0, k, [v] + more), rest)
  {
    hide Parse, BoolLoop;
    Rule(BoolPrec(k), ts);
    assert ParseBool(k, ts) == Ok(BoolOp(0, k, [v] + more), rest);
  }

  lemma {:induction false} BoolLoopRoundTrip(k: BoolKind, vs: seq<Expr>, p: int, rest: seq<Token>)
    requires vs != [] && ValidAll(vs) && BoolPrec(k) < p <= ATOM && Follow(BoolPrec(k), rest)
    ensures BoolLoop(k, [BoolTok(k)] + (BoolToks(k, vs, p) + rest)) == Ok(EraseAll(vs), rest)
    decreases vs, 8
  {
    hide Parse, Toks, BoolLoop, Erase, Valid;
    NoBoolOp(k, rest);
    if |vs| == 1 {
      RoundTripAt(vs[0], p, BoolPrec(k) + 1, rest);
      OneOperand(k, Toks(vs[0], p) + rest, Erase(vs[0]), rest);
      assert EraseAll(vs) == [Erase(vs[0])];
    } else {
      var more := BoolToks(k, vs[1..], Next(p));
      var r1 := [BoolTok(k)] + (more + rest);
      assert BoolToks(k, vs, p) == Toks(vs[0], p) + [BoolTok(k)] + more;
      Regroup4(Toks(vs[0], p), [BoolTok(k)], more, rest);
      RoundTripAt(vs[0], p, BoolPrec(k) + 1, r1);
      BoolLoopRoundTrip(k, vs[1..], Next(p), rest);
      OneOperand(k, Toks(vs[0], p) + r1, Erase(vs[0]), r1);
    }
  }

  lemma NoBoolOp(k: BoolKind, rest: seq<Token>)
    requires Follow(BoolPrec(k), rest)
    ensures BoolLoop(k, rest) == Ok([], rest)
  {
    hide Parse;
  }

  lemma OneOperand(k: BoolKind, ts: seq<Token>, e: Expr, r: seq<Token>)
    requires Parse(BoolPrec(k) + 1, ts) == Ok(e, r)
    ensures var more := BoolLoop(k, r);
            BoolLoop(k, [BoolTok(k)] + ts) == if more.Fail? then Fail else Ok([e] + more.value, more.rest)
  {
    hide Parse;
    Tail(BoolTok(k), ts);
  }

  lemma {:induction false} CompareBare(e: Expr, rest: seq<Token>)
    requires Valid(e) && e.Compare? && Follow(CMP, rest)
    ensures Parse(CMP, Bare(e) + rest) == Ok(Erase(e), rest)
    decreases e, 0
  {
    hide Parse, Toks, CompareLoop;
    Rule(CMP, Bare(e) + rest);
    var r1 := CompareToks(e.ops, e.comparators) + rest;
    assert Bare(e) + rest == Toks(e.left, BOR) + r1;
    CompareFollow(e.ops, e.comparators, rest);
    RoundTrip(e.left, BOR, r1);
    CompareLoopRoundTrip(e.ops, e.comparators, rest);
    assert ParseCompare(Bare(e) + rest) == Ok(Erase(e), rest);
  }

  lemma CompareFollow(ops: seq<CmpOp>, cs: seq<Expr>, rest: seq<Token>)
    requires Follow(BOR, rest)
    ensures Follow(BOR, CompareToks(ops, cs) + rest)
  {
    if ops == [] || cs == [] {
      assert CompareToks(ops, cs) + rest == rest;
    } else {
      assert (CompareToks(ops, cs) + rest)[0] == CmpToks(ops[0])[0];
    }
  }

  lemma CmpOpRoundTrip(op: CmpOp, rest: seq<Token>)
    requires !At(rest, KwNot)
    ensures ParseCmpOp(CmpToks(op) + rest) == Ok(op, rest)
  {
    var ts := CmpToks(op) + rest;
    if op.IsNot? || op.NotIn? {
      assert ts[1..][0] == ts[1] == if op.IsNot? then KwNot else KwIn;
      assert ts[2..] == rest;
    } else {
      assert ts[1..] == rest;
    }
  }

  lemma NoCmpOp(rest: seq<Token>)
    requires Follow(CMP, rest)
    ensures ParseCmpOp(rest).Fail?
  {
  }

  lemma {:induction false} CompareLoopRoundTrip(ops: seq<CmpOp>, cs: seq<Expr>, rest: seq<Token>)
    requires |ops| == |cs| && ValidAll(cs) && Follow(CMP, rest)
    ensures CompareLoop(CompareToks(ops, cs) + rest) == Ok(CmpRest(ops, EraseAll(cs)), rest)
    decreases cs, 8
  {
    hide Parse, Toks, ParseCmpOp, CmpToks, CompareLoop, Erase, Valid;
    if cs == [] {
      assert CompareToks(ops, cs) + rest == rest;
      NoComparison(rest);
    } else {
      CompareCons(ops, cs);
      hide CompareToks, EraseAll;
      var more := CompareToks(ops[1..], cs[1..]);
      var r2 := more + rest;
      var r1 := Toks(cs[0], BOR) + r2;
      Regroup4(CmpToks(ops[0]), Toks(cs[0], BOR), more, rest);
      CompareLoopRoundTrip(ops[1..], cs[1..], rest);
      ComparedRead(cs[0], ops[1..], cs[1..], rest);
      hide Follow, ValidAll;
      CmpOpRoundTrip(ops[0], r1);
      assert [ops[0]] + ops[1..] == ops;
      OneComparison(CmpToks(ops[0]) + r1, ops[0], r1, Erase(cs[0]), r2);
    }
  }

  /** An operand, and the comparisons after it. */
  lemma {:induction false} ComparedRead(e: Expr, ops: seq<CmpOp>, cs: seq<Expr>, rest: seq<Token>)
    requires Valid(e) && Follow(CMP, rest)
    ensures var r2 := CompareToks(ops, cs) + rest;
            Parse(BOR, Toks(e, BOR) + r2) == Ok(Erase(e), r2) && !At(Toks(e, BOR) + r2, KwNot)
    decreases e, 7
  {
    hide Parse, Toks, CompareToks, Erase, Valid;
    CompareFollow(ops, cs, rest);
    RoundTrip(e, BOR, CompareToks(ops, cs) + rest);
  }

  lemma CompareCons(ops: seq<CmpOp>, cs: seq<Expr>)
    requires ops != [] && cs != []
    ensures CompareToks(ops, cs) == CmpToks(ops[0]) + Toks(cs[0], BOR) + CompareToks(ops[1..], cs[1..])
    ensures EraseAll(cs) == [Erase(cs[0])] + EraseAll(cs[1..])
  {
    hide Toks, CmpToks, Erase;
  }

  lemma NoComparison(rest: seq<Token>)
    requires Follow(CMP, rest)
    ensures CompareLoop(rest) == Ok(CmpRest([], []), rest)
  {
    hide ParseCmpOp;
    NoCmpOp(rest);
  }

  lemma OneComparison(ts: seq<Token>, op: CmpOp, r1: seq<Token>, e: Expr, r2: seq<Token>)
    requires ParseCmpOp(ts) == Ok(op, r1) && Parse(BOR, r1) == Ok(e, r2)
    ensures var more := CompareLoop(r2);
            CompareLoop(ts) == if more.Fail? then Fail else Ok(CmpRest([op] + more.value.ops, [e] + more.value.cs),
                more.rest)
  {
    hide Parse, ParseCmpOp;
  }

  lemma {:induction false} PowerBare(e: Expr, rest: seq<Token>)
    requires Valid(e) && e.BinOp? && e.binop.Pow? && Follow(POWER, rest)
    ensures Parse(POWER, Bare(e) + rest) == Ok(Erase(e), rest)
    decreases e, 0
  {
    hide Parse, Toks;
    var tail := Toks(e.rhs, POWER) + rest;
    assert Bare(e) + rest == Toks(e.lhs, AWAIT) + ([Op(Pow)] + tail);
    assert Erase(e) == BinOp(0, Erase(e.lhs), Pow, Erase(e.rhs)) && Valid(e.lhs) && Valid(e.rhs);
    hide Bare, Erase, Valid;
    RoundTrip(e.lhs, AWAIT, [Op(Pow)] + tail);
    RoundTripAt(e.rhs, POWER, FACTOR, rest);
    Raised(Bare(e) + rest, Erase(e.lhs), tail, Erase(e.rhs), rest);
  }

  /** Two operands around `**`. */
  lemma Raised(ts: seq<Token>, b: Expr, tail: seq<Token>, x: Expr, rest: seq<Token>)
    requires Parse(AWAIT, ts) == Ok(b, [Op(Pow)] + tail) && Parse(FACTOR, tail) == Ok(x, rest)
    ensures Parse(POWER, ts) == Ok(BinOp(0, b, Pow, x), rest)
  {
    hide Parse;
    Rule(POWER, ts);
    Tail(Op(Pow), tail);
    assert ParsePower(ts) == Ok(BinOp(0, b, Pow, x), rest);
  }

  /** A unary right operand of `**`, other than `not`, is printed in parentheses that the
      grammar does not need: without them the text would read as the same tree. */
  lemma UnaryExponent(e: Expr, rest: seq<Token>)
    requires Valid(e) && e.BinOp? && e.binop.Pow? && e.rhs.UnaryOp? && !e.rhs.unop.Not? && Follow(POWER, rest)
    ensures Bare(e) == Toks(e.lhs, AWAIT) + [Op(Pow)] + ([LPar] + Bare(e.rhs) + [RPar])
    ensures Parse(POWER, Toks(e.lhs, AWAIT) + [Op(Pow)] + Bare(e.rhs) + rest) == Ok(Erase(e), rest)
  {
    hide Parse;
    assert Toks(e.rhs, POWER) == [LPar] + Bare(e.rhs) + [RPar];
    assert Lv(e.rhs) == FACTOR;
    assert Erase(e) == BinOp(0, Erase(e.lhs), Pow, Erase(e.rhs)) && Valid(e.lhs) && Valid(e.rhs);
    hide Erase, Valid, Toks, Bare;
    var tail := Bare(e.rhs) + rest;
    BareRoundTrip(e.rhs, rest);
    RoundTrip(e.lhs, AWAIT, [Op(Pow)] + tail);
    Regroup4(Toks(e.lhs, AWAIT), [Op(Pow)], Bare(e.rhs), rest);
    Raised(Toks(e.lhs, AWAIT) + ([Op(Pow)] + tail), Erase(e.lhs), tail, Erase(e.rhs), rest);
  }

  lemma BinaryRule(l: int, ts: seq<Token>)
    requires BOR <= l <= TERM
    ensures Parse(l, ts) == ParseBinary(l, ts)
  {
    hide Parse;
    Rule(l, ts);
  }

  lemma {:induction false} BinaryBare(e: Expr, rest: seq<Token>)
    requires Valid(e) && e.BinOp? && !e.binop.Pow? && Follow(Lv(e) + 1, rest)
    ensures Parse(Lv(e), Bare(e) + rest) == BinaryLoop(Lv(e), Erase(e), rest)
    ensures Follow(Lv(e), rest) ==> Parse(Lv(e), Bare(e) + rest) == Ok(Erase(e), rest)
    decreases e, 0
  {
    hide Parse, Toks;
    var l := Lv(e);
    var r1 := [Op(e.binop)] + (Toks(e.rhs, l + 1) + rest);
    assert Bare(e) == Toks(e.lhs, l) + [Op(e.binop)] + Toks(e.rhs, l + 1);
    Regroup4(Toks(e.lhs, l), [Op(e.binop)], Toks(e.rhs, l + 1), rest);
    assert Erase(e) == BinOp(0, Erase(e.lhs), e.binop, Erase(e.rhs)) && Valid(e.lhs) && Valid(e.rhs);
    hide Bare, Erase, Valid;
    LeftOperand(l, e.lhs, r1);
    RoundTrip(e.rhs, l + 1, rest);
    Folded(l, Erase(e.lhs), e.binop, Toks(e.rhs, l + 1) + rest, Erase(e.rhs), rest);
  }

  /** One turn of the loop of a binary rule. */
  lemma Folded(l: int, left: Expr, b: Bin, tail: seq<Token>, x: Expr, rest: seq<Token>)
    requires BOR <= l <= TERM && BinPrec(b) == l && Parse(l + 1, tail) == Ok(x, rest)
    ensures BinaryLoop(l, left, [Op(b)] + tail) == BinaryLoop(l, BinOp(0, left, b, x), rest)
    ensures Follow(l, rest) ==> BinaryLoop(l, BinOp(0, left, b, x), rest) == Ok(BinOp(0, left, b, x), rest)
  {
    hide Parse;
    Tail(Op(b), tail);
  }

  /** A left operand, whatever operator of its level follows: the loop goes on. */
  lemma {:induction false} LeftOperand(l: int, e: Expr, rest: seq<Token>)
    requires Valid(e) && BOR <= l <= TERM && Follow(l + 1, rest)
    ensures Parse(l, Toks(e, l) + rest) == BinaryLoop(l, Erase(e), rest)
    decreases e, 8
  {
    hide Parse, Bare;
    if Lv(e) == l && !Wraps(e, l) {
      BinaryBare(e, rest);
    } else {
      assert Toks(e, l) == Toks(e, l + 1);
      RoundTrip(e, l + 1, rest);
      DownBinary(l, Toks(e, l) + rest, Erase(e), rest);
    }
  }

  lemma {:induction false} LambdaBare(e: Expr, rest: seq<Token>)
    requires Valid(e) && e.Lambda? && Follow(TEST, rest)
    ensures Parse(TEST, Bare(e) + rest) == Ok(Erase(e), rest)
    decreases e, 0
  {
    hide Parse, Toks, ParseParams, ParamToks;
    Rule(TEST, Bare(e) + rest);
    var ts := Bare(e) + rest;
    var r1 := [Colon] + (Toks(e.lambdaBody, TEST) + rest);
    assert ts[1..] == ParamToks(e.params) + r1;
    ParamsRoundTrip(e.params, r1);
    assert r1[1..] == Toks(e.lambdaBody, TEST) + rest;
    RoundTrip(e.lambdaBody, TEST, rest);
    assert ParseTest(ts) == Ok(Erase(e), rest);
  }

  /* ----- lambda parameters ----- */

  const NoParams := Arguments([], [], [], None, [], None)

  predicate ParamEnd(ts: seq<Token>) {
    At(ts, Comma) || At(ts, Colon)
  }

  function EraseDefault(d: Option<Expr>): Option<Expr> {
    if d.None? then None else Some(Erase(d.value))
  }

  /** Defaults among the first `i` positional parameters. */
  function DefaultsIn(a: Arguments, i: nat): nat
    requires |a.defaults| <= Positional(a)
  {
    var k := Positional(a) - |a.defaults|;
    if i < k then 0 else i - k
  }

  /** What the parser has accumulated after `i` positional parameters. */
  function After(a: Arguments, i: nat): Arguments
    requires |a.defaults| <= Positional(a) && i <= Positional(a)
  {
    var ds := EraseAll(a.defaults[..DefaultsIn(a, i)]);
    if a.posonly != [] && i >= |a.posonly|
    then Arguments(a.posonly, a.args[..i - |a.posonly|], ds, None, [], None)
    else Arguments([], (a.posonly + a.args)[..i], ds, None, [], None)
  }

  function StageAfter(a: Arguments, i: nat): nat {
    if a.posonly != [] && i >= |a.posonly| then 1 else 0
  }

  lemma {:induction false} EraseAllSnoc(es: seq<Expr>, e: Expr)
    ensures EraseAll(es + [e]) == EraseAll(es) + [Erase(e)]
    decreases es, 0
  {
    if es == [] {
      assert es + [e] == [e];
    } else {
      assert (es + [e])[1..] == es[1..] + [e];
      EraseAllSnoc(es[1..], e);
    }
  }

  lemma {:induction false} DefaultRoundTrip(v: Expr, rest: seq<Token>)
    requires Valid(v) && ParamEnd(rest)
    ensures ParseDefault([Assign] + (Toks(v, TEST) + rest)) == Ok(Some(Erase(v)), rest)
    decreases v, 8
  {
    hide Parse, Toks;
    assert ([Assign] + (Toks(v, TEST) + rest))[1..] == Toks(v, TEST) + rest;
    RoundTrip(v, TEST, rest);
  }

  lemma NoDefault(rest: seq<Token>)
    requires ParamEnd(rest)
    ensures ParseDefault(rest) == Ok(None, rest)
  {
  }

  lemma {:induction false} ValidAt(es: seq<Expr>, j: nat)
    requires ValidAll(es) && j < |es|
    ensures Valid(es[j])
    decreases es, 0
  {
    if j > 0 { ValidAt(es[1..], j - 1); }
  }

  /** The parser's own view of one positional parameter and its default. */
  lemma AfterSnoc(a: Arguments, i: nat)
    requires |a.defaults| <= Positional(a) && i < Positional(a)
    ensures var d := PositionalDefault(a, i);
            var acc := After(a, i);
            var named := acc.(args := acc.args + [PositionalName(a, i)]);
            var acc' := if d.Some? then named.(defaults := acc.defaults + [Erase(d.value)]) else named;
            (d.None? ==> acc.defaults == []) &&
            After(a, i + 1) == if i + 1 == |a.posonly| then acc'.(posonly := acc'.args, args := []) else acc'
  {
    DefaultsSnoc(a, i);
    hide EraseAll, Erase, DefaultsIn, PositionalDefault;
    assert (a.posonly + a.args)[..i + 1] == (a.posonly + a.args)[..i] + [PositionalName(a, i)];
    if i >= |a.posonly| {
      assert a.args[..i + 1 - |a.posonly|] == a.args[..i - |a.posonly|] + [PositionalName(a, i)];
      if a.posonly == [] { assert a.posonly + a.args == a.args; }
    }
    if i + 1 == |a.posonly| { assert (a.posonly + a.args)[..i + 1] == a.posonly; }
  }

  lemma DefaultsSnoc(a: Arguments, i: nat)
    requires |a.defaults| <= Positional(a) && i < Positional(a)
    ensures var d := PositionalDefault(a, i);
            var before, after := EraseAll(a.defaults[..DefaultsIn(a, i)]), EraseAll(a.defaults[..DefaultsIn(a, i + 1)]);
            if d.Some? then after == before + [Erase(d.value)] else before == after == []
  {
    var k := Positional(a) - |a.defaults|;
    if i >= k {
      assert a.defaults[..i + 1 - k] == a.defaults[..i - k] + [a.defaults[i - k]];
      EraseAllSnoc(a.defaults[..i - k], a.defaults[i - k]);
    }
  }

  /** One turn of the parameter loop for each kind of parameter. */
  lemma CommaStep(stage: nat, a: Arguments, ts: seq<Token>)
    ensures MoreParams(stage, a, [Comma] + ts) == ParseParams(stage, a, ts)
  {
    hide ParseParams;
    assert ([Comma] + ts)[1..] == ts;
  }

  lemma ColonStep(stage: nat, a: Arguments, ts: seq<Token>)
    requires At(ts, Colon)
    ensures MoreParams(stage, a, ts) == Ok(a, ts)
  {
  }

  lemma NameStep(stage: nat, a: Arguments, n: string, ts: seq<Token>, d: Option<Expr>, y: seq<Token>)
    requires stage <= 2 && ParseDefault(ts) == Ok(d, y)
    requires stage < 2 && d.None? ==> a.defaults == []
    ensures ParseParams(stage, a, [Id(n)] + ts)
         == if stage == 2 then MoreParams(2, a.(kwonly := a.kwonly + [KwOnly(n, d)]), y)
            else if d.Some? then MoreParams(stage, a.(args := a.args + [n], defaults := a.defaults + [d.value]), y)
            else MoreParams(stage, a.(args := a.args + [n]), y)
  {
    hide MoreParams, ParseDefault;
    assert ([Id(n)] + ts)[1..] == ts;
  }

  lemma SlashStep(a: Arguments, y: seq<Token>)
    requires a.args != []
    ensures MoreParams(0, a, [Comma, Op(Div)] + y) == MoreParams(1, a.(posonly := a.args, args := []), y)
  {
    hide MoreParams;
    assert [Comma, Op(Div)] + y == [Comma] + ([Op(Div)] + y);
    CommaStep(0, a, [Op(Div)] + y);
    assert ([Op(Div)] + y)[1..] == y;
  }

  lemma StarStep(stage: nat, a: Arguments, v: Option<string>, y: seq<Token>)
    requires stage <= 1 && a.vararg.None?
    requires v.None? ==> |y| >= 2 && y[0] == Comma && y[1].Id?
    ensures ParseParams(stage, a, [Op(Mult)] + (if v.Some? then [Id(v.value)] else []) + y)
         == MoreParams(2, a.(vararg := v), y)
  {
    hide MoreParams;
    var ts := [Op(Mult)] + (if v.Some? then [Id(v.value)] else []) + y;
    if v.Some? {
      assert ts[2..] == y;
    } else {
      assert ts[1..] == y;
      assert ts[1] == y[0] && ts[2] == y[1];
    }
  }

  lemma KwargStep(stage: nat, a: Arguments, n: string, y: seq<Token>)
    requires stage <= 2 && At(y, Colon)
    ensures ParseParams(stage, a, [Op(Pow), Id(n)] + y) == Ok(a.(kwarg := Some(n)), y)
  {
    assert ([Op(Pow), Id(n)] + y)[2..] == y;
  }

  /** The default of a parameter, or its absence. */
  lemma {:induction false} MaybeDefault(a: Arguments, i: nat, y: seq<Token>)
    requires ValidArguments(a) && i < Positional(a) && ParamEnd(y)
    ensures ParseDefault(DefaultToks(PositionalDefault(a, i)) + y) == Ok(EraseDefault(PositionalDefault(a, i)), y)
    decreases a, 0
  {
    hide Parse, Toks, ParseDefault;
    var d := PositionalDefault(a, i);
    if d.Some? {
      var j := i - (Positional(a) - |a.defaults|);
      ValidAt(a.defaults, j);
      DefaultRoundTrip(a.defaults[j], y);
      assert DefaultToks(d) + y == [Assign] + (Toks(d.value, TEST) + y);
    } else {
      assert DefaultToks(d) + y == y;
      NoDefault(y);
    }
  }

  lemma {:induction false} PositionalStep(a: Arguments, i: nat, y: seq<Token>)
    requires ValidArguments(a) && i < Positional(a) && ParamEnd(y)
    ensures ParseParams(StageAfter(a, i), After(a, i), PositionalTok(a, i) + y)
         == MoreParams(StageAfter(a, i + 1), After(a, i + 1), y)
    decreases a, 1
  {
    hide ParseParams, MoreParams, ParseDefault, Toks, Erase;
    var d := PositionalDefault(a, i);
    var slash := if i + 1 == |a.posonly| then [Comma, Op(Div)] else [];
    var n := PositionalName(a, i);
    assert PositionalTok(a, i) == [Id(n)] + DefaultToks(d) + slash;
    hide DefaultToks, PositionalTok;
    var ts := DefaultToks(d) + (slash + y);
    assert PositionalTok(a, i) + y == [Id(n)] + ts;
    MaybeDefault(a, i, slash + y);
    AfterSnoc(a, i);
    NameStep(StageAfter(a, i), After(a, i), n, ts, EraseDefault(d), slash + y);
    if slash != [] {
      var named := After(a, i).(args := After(a, i).args + [n]);
      SlashStep(if d.Some? then named.(defaults := named.defaults + [Erase(d.value)]) else named, y);
    } else {
      assert slash + y == y;
    }
  }

  lemma {:induction false} PositionalRoundTrip(a: Arguments, i: nat, y: seq<Token>)
    requires ValidArguments(a) && 0 < i <= Positional(a) && ParamEnd(y)
    ensures MoreParams(StageAfter(a, i), After(a, i), PositionalToks(a, i) + y)
         == MoreParams(StageAfter(a, Positional(a)), After(a, Positional(a)), y)
    ensures ParamEnd(PositionalToks(a, i) + y)
    decreases a, 2, Positional(a) - i
  {
    hide ParseParams, MoreParams, After, StageAfter, PositionalTok, Toks;
    if i == Positional(a) {
      assert PositionalToks(a, i) + y == y;
    } else {
      var y' := PositionalToks(a, i + 1) + y;
      PositionalRoundTrip(a, i + 1, y);
      assert PositionalToks(a, i) + y == [Comma] + (PositionalTok(a, i) + y');
      CommaStep(StageAfter(a, i), After(a, i), PositionalTok(a, i) + y');
      PositionalStep(a, i, y');
    }
  }

  lemma {:induction false} KwOnlyStep(k: KwOnly, acc: Arguments, y: seq<Token>)
    requires (k.default.Some? ==> Valid(k.default.value)) && ParamEnd(y)
    ensures MoreParams(2, acc, [Comma, Id(k.name)] + DefaultToks(k.default) + y)
         == MoreParams(2, acc.(kwonly := acc.kwonly + [KwOnly(k.name, EraseDefault(k.default))]), y)
    decreases k, 0
  {
    hide ParseParams, MoreParams, ParseDefault, Toks, Erase, Valid;
    var n, d := k.name, k.default;
    var ts := DefaultToks(d) + y;
    if d.Some? {
      DefaultRoundTrip(d.value, y);
      assert ts == [Assign] + (Toks(d.value, TEST) + y);
    } else {
      assert ts == y;
      NoDefault(y);
    }
    hide DefaultToks;
    assert [Comma, Id(n)] + DefaultToks(d) + y == [Comma] + ([Id(n)] + ts);
    CommaStep(2, acc, [Id(n)] + ts);
    NameStep(2, acc, n, ts, EraseDefault(d), y);
  }

  lemma {:induction false} KwOnlyRoundTrip(ks: seq<KwOnly>, acc: Arguments, y: seq<Token>)
    requires ValidKwOnly(ks) && ParamEnd(y)
    ensures MoreParams(2, acc, KwOnlyToks(ks) + y) == MoreParams(2, acc.(kwonly := acc.kwonly + EraseKwOnly(ks)), y)
    ensures ParamEnd(KwOnlyToks(ks) + y)
    ensures ks != [] ==> |KwOnlyToks(ks)| >= 2 && KwOnlyToks(ks)[0] == Comma && KwOnlyToks(ks)[1].Id?
    decreases ks, 8
  {
    hide ParseParams, MoreParams, Toks, DefaultToks, Erase, Valid;
    if ks == [] {
      assert KwOnlyToks(ks) + y == y;
      assert acc.kwonly + EraseKwOnly(ks) == acc.kwonly;
    } else {
      var y' := KwOnlyToks(ks[1..]) + y;
      var acc' := acc.(kwonly := acc.kwonly + [KwOnly(ks[0].name, EraseDefault(ks[0].default))]);
      KwOnlyRoundTrip(ks[1..], acc', y);
      KwOnlyStep(ks[0], acc, y');
      var head := [Comma, Id(ks[0].name)] + DefaultToks(ks[0].default);
      assert KwOnlyToks(ks) == head + KwOnlyToks(ks[1..]);
      assert EraseKwOnly(ks) == [KwOnly(ks[0].name, EraseDefault(ks[0].default))] + EraseKwOnly(ks[1..]);
      hide KwOnlyToks, EraseKwOnly;
      Regroup(head, KwOnlyToks(ks[1..]), y);
      assert acc'.kwonly + EraseKwOnly(ks[1..]) == acc.kwonly + EraseKwOnly(ks);
    }
  }

  /** `*`, keyword-only parameters and `**`, without the comma before them. */
  function KwargTok(a: Arguments): seq<Token> {
    if a.kwarg.Some? then [Op(Pow), Id(a.kwarg.value)] else []
  }

  predicate HasStar(a: Arguments) {
    a.vararg.Some? || a.kwonly != []
  }

  function TailTok(a: Arguments): seq<Token> {
    if !HasStar(a) then KwargTok(a)
    else [Op(Mult)] + (if a.vararg.Some? then [Id(a.vararg.value)] else []) + KwOnlyToks(a.kwonly)
         + (if a.kwarg.Some? then [Comma] else []) + KwargTok(a)
  }

  lemma NoKwOnly(ks: seq<KwOnly>)
    requires ks == []
    ensures EraseKwOnly(ks) == []
  {
  }

  lemma {:induction false} TailRoundTrip(a: Arguments, stage: nat, acc: Arguments, y: seq<Token>)
    requires ValidArguments(a) && stage <= 1 && At(y, Colon) && (HasStar(a) || a.kwarg.Some?)
    requires acc.vararg.None? && acc.kwonly == [] && acc.kwarg.None?
    ensures ParseParams(stage, acc, TailTok(a) + y)
         == Ok(acc.(vararg := a.vararg, kwonly := EraseKwOnly(a.kwonly), kwarg := a.kwarg), y)
    decreases a, 3
  {
    hide ParseParams, MoreParams, KwOnlyToks, EraseKwOnly, Toks;
    if !HasStar(a) {
      KwargStep(stage, acc, a.kwarg.value, y);
      NoKwOnly(a.kwonly);
    } else {
      var kw := (if a.kwarg.Some? then [Comma] else []) + KwargTok(a) + y;
      var rest := KwOnlyToks(a.kwonly) + kw;
      var acc' := acc.(vararg := a.vararg, kwonly := EraseKwOnly(a.kwonly));
      KwOnlyRoundTrip(a.kwonly, acc.(vararg := a.vararg), kw);
      assert acc.kwonly + EraseKwOnly(a.kwonly) == EraseKwOnly(a.kwonly);
      StarStep(stage, acc, a.vararg, rest);
      assert TailTok(a) + y == [Op(Mult)] + (if a.vararg.Some? then [Id(a.vararg.value)] else []) + rest;
      if a.kwarg.Some? {
        assert kw == [Comma] + (KwargTok(a) + y);
        CommaStep(2, acc', KwargTok(a) + y);
        KwargStep(2, acc', a.kwarg.value, y);
      } else {
        assert kw == y;
        ColonStep(2, acc', y);
      }
    }
  }

  lemma AfterAll(a: Arguments)
    requires |a.defaults| <= Positional(a)
    ensures After(a, Positional(a)).(kwonly := EraseKwOnly(a.kwonly), vararg := a.vararg, kwarg := a.kwarg)
        == EraseArguments(a)
    ensures After(a, 0) == NoParams
  {
    hide Erase, EraseAll, EraseKwOnly;
    assert a.defaults[..DefaultsIn(a, Positional(a))] == a.defaults;
    assert (a.posonly + a.args)[..Positional(a)] == a.posonly + a.args;
    if a.posonly == [] { assert a.posonly + a.args == a.args; }
  }

  lemma ParamToksSplit(a: Arguments)
    requires |a.defaults| <= Positional(a)
    ensures ParamToks(a) == PositionalToks(a, 0)
                          + (if Positional(a) > 0 && (HasStar(a) || a.kwarg.Some?) then [Comma] else []) + TailTok(a)
  {
    hide PositionalToks, KwOnlyToks;
    var p, k := PositionalToks(a, 0), KwOnlyToks(a.kwonly);
    var first := if Positional(a) > 0 then [Comma] else [];
    if HasStar(a) {
      var star := [Op(Mult)] + (if a.vararg.Some? then [Id(a.vararg.value)] else []);
      assert StarToks(a) == first + star;
      assert KwargToks(a) == (if a.kwarg.Some? then [Comma] else []) + KwargTok(a);
      Regroup(p, first, star);
      assert ParamToks(a) == ((p + first) + star) + k + KwargToks(a);
      Regroup(p + first, star, k);
      Regroup(p + first, star + k, KwargToks(a));
      Regroup(star + k, if a.kwarg.Some? then [Comma] else [], KwargTok(a));
    } else {
      NoKwOnlyToks(a.kwonly);
      assert ParamToks(a) == p + KwargToks(a);
      if a.kwarg.Some? { Regroup(p, first, KwargTok(a)); }
    }
  }

  lemma NoKwOnlyToks(ks: seq<KwOnly>)
    requires ks == []
    ensures KwOnlyToks(ks) == []
  {
  }

  lemma {:induction false} ParamsRoundTrip(a: Arguments, rest: seq<Token>)
    requires ValidArguments(a) && At(rest, Colon)
    ensures ParseParams(0, NoParams, ParamToks(a) + rest) == Ok(EraseArguments(a), rest)
    decreases a, 4
  {
    hide ParseParams, MoreParams, ParamToks, TailTok, After, PositionalTok, PositionalToks, EraseArguments;
    var n := Positional(a);
    var more := HasStar(a) || a.kwarg.Some?;
    AfterAll(a);
    ParamToksSplit(a);
    AfterShape(a, n);
    if more { TailRoundTrip(a, StageAfter(a, n), After(a, n), rest); } else { NoTail(a); }
    if n == 0 {
      PositionalNone(a);
      assert ParamToks(a) + rest == TailTok(a) + rest;
      if !more {
        assert TailTok(a) + rest == rest;
        NoParamsAtAll(rest);
      }
    } else {
      SomePositional(a, rest);
    }
  }

  function PastPositional(a: Arguments, rest: seq<Token>): Parsed<Arguments>
    requires |a.defaults| <= Positional(a)
  {
    ParseParams(StageAfter(a, Positional(a)), After(a, Positional(a)), TailTok(a) + rest)
  }

  /** After the positional parameters, parsing goes on with the others. */
  lemma {:induction false} SomePositional(a: Arguments, rest: seq<Token>)
    requires ValidArguments(a) && At(rest, Colon) && Positional(a) > 0
    ensures HasStar(a) || a.kwarg.Some? ==> ParseParams(0, NoParams, ParamToks(a) + rest) == PastPositional(a, rest)
    ensures !HasStar(a) && a.kwarg.None? ==>
              ParseParams(0, NoParams, ParamToks(a) + rest) == Ok(After(a, Positional(a)), rest)
    decreases a, 3
  {
    hide ParseParams, MoreParams, ParamToks, TailTok, After, PositionalTok, PositionalToks, EraseArguments;
    var n, more := Positional(a), HasStar(a) || a.kwarg.Some?;
    var comma := if more then [Comma] else [];
    var y := comma + (TailTok(a) + rest);
    AfterAll(a);
    ParamToksSplit(a);
    FirstPositional(a);
    if more { Tail(Comma, TailTok(a) + rest); } else { NoTail(a); }
    PositionalRoundTrip(a, 1, y);
    PositionalStep(a, 0, PositionalToks(a, 1) + y);
    assert StageAfter(a, 0) == 0;
    hide Positional, HasStar, StageAfter, ValidArguments;
    ParamRegroup(PositionalTok(a, 0), PositionalToks(a, 1), comma, TailTok(a), rest);
    if more {
      CommaStep(StageAfter(a, n), After(a, n), TailTok(a) + rest);
    } else {
      assert y == rest;
      ColonStep(StageAfter(a, n), After(a, n), rest);
    }
  }

  lemma ParamRegroup(a: seq<Token>, b: seq<Token>, c: seq<Token>, d: seq<Token>, rest: seq<Token>)
    ensures (a + b) + c + d + rest == a + (b + (c + (d + rest)))
  {
  }

  lemma FirstPositional(a: Arguments)
    requires Positional(a) > 0
    ensures PositionalToks(a, 0) == PositionalTok(a, 0) + PositionalToks(a, 1)
  {
    hide PositionalTok;
  }

  lemma AfterShape(a: Arguments, i: nat)
    requires |a.defaults| <= Positional(a) && i <= Positional(a)
    ensures After(a, i).vararg.None? && After(a, i).kwonly == [] && After(a, i).kwarg.None?
  {
  }

  lemma NoTail(a: Arguments)
    requires !HasStar(a) && a.kwarg.None?
    ensures TailTok(a) == [] && EraseKwOnly(a.kwonly) == []
  {
  }

  lemma PositionalNone(a: Arguments)
    requires |a.defaults| <= Positional(a) && Positional(a) == 0
    ensures PositionalToks(a, 0) == []
  {
  }

  lemma NoParamsAtAll(rest: seq<Token>)
    requires At(rest, Colon)
    ensures ParseParams(0, NoParams, rest) == Ok(NoParams, rest)
  {
  }
}
