/** A recursive-descent parser for Python expressions, after chapter 10 of the
    Python Language Reference. Parse(l, ts) is the rule of level l; the levels
    are those of section 6.17, from TEST (`expression`) to ATOM (`primary`). */
module ExprGrammar {
  import opened Options
  import opened PyAst
  import opened Tokens

  datatype Parsed<+T> = Fail | Ok(value: T, rest: seq<Token>)

  datatype Elts = Elts(es: seq<Expr>, trailing: bool)
  datatype CmpRest = CmpRest(ops: seq<CmpOp>, cs: seq<Expr>)
  datatype CallArgs = CallArgs(args: seq<Expr>, keywords: seq<Keyword>)
  datatype Argument = Pos(e: Expr) | Kw(k: Keyword)

  predicate At(ts: seq<Token>, t: Token) {
    ts != [] && ts[0] == t
  }

  /** Tokens with which an expression of level `l` may begin. */
  predicate Starts(l: int, t: Token) {
    match t
    case Id(_) => true
    case Lit(_) => true
    case LPar => true
    case LBrk => true
    case KwAwait => l <= AWAIT
    case Op(b) => (b.Add? || b.Sub?) && l <= FACTOR
    case Tilde => l <= FACTOR
    case KwNot => l <= NOT
    case KwLambda => l <= TEST
    case _ => false
  }

  predicate StartsElt(ts: seq<Token>) {
    ts != [] && (ts[0] == Op(Mult) || Starts(TEST, ts[0]))
  }

  function Parse(l: int, ts: seq<Token>): (r: Parsed<Expr>)
    requires TEST <= l <= ATOM
    decreases |ts|, 20 - l, 1
    ensures r.Ok? ==> |r.rest| < |ts| && Starts(l, ts[0])
  {
    if l == TEST then ParseTest(ts)
    else if l == OR then ParseBool(Or, ts)
    else if l == AND then ParseBool(And, ts)
    else if l == NOT then ParseNot(ts)
    else if l == CMP then ParseCompare(ts)
    else if l <= TERM then ParseBinary(l, ts)
    else if l == FACTOR then ParseFactor(ts)
    else if l == POWER then ParsePower(ts)
    else if l == AWAIT then ParseAwait(ts)
    else ParsePrimary(ts)
  }

  /** expression: disjunction ['if' disjunction 'else' expression] | lambdef */
  function ParseTest(ts: seq<Token>): (r: Parsed<Expr>)
    decreases |ts|, 20 - TEST, 0
    ensures r.Ok? ==> |r.rest| < |ts| && Starts(TEST, ts[0])
  {
    if At(ts, KwLambda) then
      var a := ParseParams(0, Arguments([], [], [], None, [], None), ts[1..]);
      if !(a.Ok? && At(a.rest, Colon)) then Fail else
      var b := Parse(TEST, a.rest[1..]);
      if b.Fail? then Fail else Ok(Lambda(0, a.value, b.value), b.rest)
    else
      var b := Parse(OR, ts);
      if !(b.Ok? && At(b.rest, KwIf)) then b else
      var c := Parse(OR, b.rest[1..]);
      if !(c.Ok? && At(c.rest, KwElse)) then Fail else
      var o := Parse(TEST, c.rest[1..]);
      if o.Fail? then Fail else Ok(IfExp(0, c.value, b.value, o.value), o.rest)
  }

  /** The level of a rule of boolean operators, the phrases it joins, and its word. */
  function BoolRule(k: BoolKind): int {
    match k
    case Or => OR
    case And => AND
  }

  function BoolOperand(k: BoolKind): int {
    match k
    case Or => AND
    case And => NOT
  }

  function BoolWord(k: BoolKind): Token {
    match k
    case Or => KwOr
    case And => KwAnd
  }

  /** disjunction: conjunction ('or' conjunction)*, conjunction: inversion ('and' inversion)* */
  function ParseBool(k: BoolKind, ts: seq<Token>): (r: Parsed<Expr>)
    decreases |ts|, 20 - BoolRule(k), 0
    ensures r.Ok? ==> |r.rest| < |ts| && Starts(BoolRule(k), ts[0])
  {
    var v := Parse(BoolOperand(k), ts);
    if v.Fail? then Fail else
    var more := BoolLoop(k, v.rest);
    if more.Fail? then Fail
    else if more.value == [] then v
    else Ok(BoolOp(0, k, [v.value] + more.value), more.rest)
  }

  function BoolLoop(k: BoolKind, ts: seq<Token>): (r: Parsed<seq<Expr>>)
    decreases |ts|, 0
    ensures r.Ok? ==> |r.rest| <= |ts|
  {
    if !At(ts, BoolWord(k)) then Ok([], ts) else
    var v := Parse(BoolOperand(k), ts[1..]);
    if v.Fail? then Fail else
    var more := BoolLoop(k, v.rest);
    if more.Fail? then Fail else Ok([v.value] + more.value, more.rest)
  }

  /** inversion: 'not' inversion | comparison */
  function ParseNot(ts: seq<Token>): (r: Parsed<Expr>)
    decreases |ts|, 20 - NOT, 0
    ensures r.Ok? ==> |r.rest| < |ts| && Starts(NOT, ts[0])
  {
    if At(ts, KwNot) then
      var x := Parse(NOT, ts[1..]);
      if x.Fail? then Fail else Ok(UnaryOp(0, Not, x.value), x.rest)
    else Parse(CMP, ts)
  }

  function ParseCmpOp(ts: seq<Token>): (r: Parsed<CmpOp>)
    ensures r.Ok? ==> |r.rest| < |ts|
  {
    if ts == [] then Fail
    else if ts[0].RelTok? then Ok(Rel(ts[0].r), ts[1..])
    else if ts[0] == KwIn then Ok(In, ts[1..])
    else if ts[0] == KwNot && At(ts[1..], KwIn) then Ok(NotIn, ts[2..])
    else if ts[0] == KwIs then (if At(ts[1..], KwNot) then Ok(IsNot, ts[2..]) else Ok(Is, ts[1..]))
    else Fail
  }

  /** comparison: bitwise_or (comp_op bitwise_or)* */
  function ParseCompare(ts: seq<Token>): (r: Parsed<Expr>)
    decreases |ts|, 20 - CMP, 0
    ensures r.Ok? ==> |r.rest| < |ts| && Starts(CMP, ts[0])
  {
    var v := Parse(BOR, ts);
    if v.Fail? then Fail else
    var more := CompareLoop(v.rest);
    if more.Fail? then Fail
    else if more.value.ops == [] then v
    else Ok(Compare(0, v.value, more.value.ops, more.value.cs), more.rest)
  }

  function CompareLoop(ts: seq<Token>): (r: Parsed<CmpRest>)
    decreases |ts|, 0
    ensures r.Ok? ==> |r.rest| <= |ts|
  {
    var o := ParseCmpOp(ts);
    if o.Fail? then Ok(CmpRest([], []), ts) else
    var v := Parse(BOR, o.rest);
    if v.Fail? then Fail else
    var more := CompareLoop(v.rest);
    if more.Fail? then Fail
    else Ok(CmpRest([o.value] + more.value.ops, [v.value] + more.value.cs), more.rest)
  }

  /** The operators of each left-recursive rule: bitwise_or, bitwise_xor, bitwise_and,
      shift_expr, sum and term. */
  predicate OfRule(l: int, b: Bin) {
    (l == BOR && b == BitOr)
    || (l == BXOR && b == BitXor)
    || (l == BAND && b == BitAnd)
    || (l == SHIFT && (b == LShift || b == RShift))
    || (l == ARITH && (b == Add || b == Sub))
    || (l == TERM && (b == Mult || b == Div || b == FloorDiv || b == Mod || b == MatMult))
  }

  /** The phrases that each of these rules joins. */
  function Tighter(l: int): int
    requires BOR <= l <= TERM
  {
    if l == BOR then BXOR
    else if l == BXOR then BAND
    else if l == BAND then SHIFT
    else if l == SHIFT then ARITH
    else if l == ARITH then TERM
    else FACTOR
  }

  /** The left-recursive binary rules, from bitwise_or to term. */
  function ParseBinary(l: int, ts: seq<Token>): (r: Parsed<Expr>)
    requires BOR <= l <= TERM
    decreases |ts|, 20 - l, 0
    ensures r.Ok? ==> |r.rest| < |ts| && Starts(l, ts[0])
  {
    var v := Parse(Tighter(l), ts);
    if v.Fail? then Fail else BinaryLoop(l, v.value, v.rest)
  }

  function BinaryLoop(l: int, left: Expr, ts: seq<Token>): (r: Parsed<Expr>)
    requires BOR <= l <= TERM
    decreases |ts|, 0
    ensures r.Ok? ==> |r.rest| <= |ts|
  {
    if ts == [] || !ts[0].Op? || !OfRule(l, ts[0].b) then Ok(left, ts) else
    var v := Parse(Tighter(l), ts[1..]);
    if v.Fail? then Fail else BinaryLoop(l, BinOp(0, left, ts[0].b, v.value), v.rest)
  }

  /** factor: ('+' | '-' | '~') factor | power */
  function ParseFactor(ts: seq<Token>): (r: Parsed<Expr>)
    decreases |ts|, 20 - FACTOR, 0
    ensures r.Ok? ==> |r.rest| < |ts| && Starts(FACTOR, ts[0])
  {
    if At(ts, Op(Add)) || At(ts, Op(Sub)) || At(ts, Tilde) then
      var x := Parse(FACTOR, ts[1..]);
      var u := if ts[0] == Tilde then Invert else if ts[0] == Op(Add) then UAdd else USub;
      if x.Fail? then Fail else Ok(UnaryOp(0, u, x.value), x.rest)
    else Parse(POWER, ts)
  }

  /** power: await_primary ['**' factor] */
  function ParsePower(ts: seq<Token>): (r: Parsed<Expr>)
    decreases |ts|, 20 - POWER, 0
    ensures r.Ok? ==> |r.rest| < |ts| && Starts(POWER, ts[0])
  {
    var v := Parse(AWAIT, ts);
    if !(v.Ok? && At(v.rest, Op(Pow))) then v else
    var x := Parse(FACTOR, v.rest[1..]);
    if x.Fail? then Fail else Ok(BinOp(0, v.value, Pow, x.value), x.rest)
  }

  /** await_primary: 'await' primary | primary */
  function ParseAwait(ts: seq<Token>): (r: Parsed<Expr>)
    decreases |ts|, 20 - AWAIT, 0
    ensures r.Ok? ==> |r.rest| < |ts| && Starts(AWAIT, ts[0])
  {
    if At(ts, KwAwait) then
      var v := Parse(ATOM, ts[1..]);
      if v.Fail? then Fail else Ok(Await(0, v.value), v.rest)
    else Parse(ATOM, ts)
  }

  /** primary: atom followed by any number of attributes, calls and subscripts */
  function ParsePrimary(ts: seq<Token>): (r: Parsed<Expr>)
    decreases |ts|, 20 - ATOM, 0
    ensures r.Ok? ==> |r.rest| < |ts| && Starts(ATOM, ts[0])
  {
    var a := ParseAtom(ts);
    if a.Fail? then Fail else Trailers(a.value, a.rest)
  }

  function Trailers(v: Expr, ts: seq<Token>): (r: Parsed<Expr>)
    decreases |ts|, 0
    ensures r.Ok? ==> |r.rest| <= |ts|
  {
    if At(ts, Dot) then
      if |ts| >= 2 && ts[1].Id? then Trailers(Attribute(0, v, ts[1].name), ts[2..]) else Fail
    else if At(ts, LPar) then
      var a := ParseArgs(0, ts[1..]);
      if a.Ok? && At(a.rest, RPar) then Trailers(Call(0, v, a.value.args, a.value.keywords), a.rest[1..]) else Fail
    else if At(ts, LBrk) then
      var s := ParseSlices(ts[1..]);
      if s.Ok? && At(s.rest, RBrk) then Trailers(Subscript(0, v, s.value), s.rest[1..]) else Fail
    else Ok(v, ts)
  }

  function ParseAtom(ts: seq<Token>): (r: Parsed<Expr>)
    decreases |ts|, 1
    ensures r.Ok? ==> |r.rest| < |ts| && Starts(ATOM, ts[0])
  {
    if ts == [] then Fail
    else if ts[0].Id? then Ok(Name(0, ts[0].name), ts[1..])
    else if ts[0].Lit? then Ok(Constant(0, ts[0].c), ts[1..])
    else if ts[0] == LPar then
      var g := ParseGroup(ts[1..]);
      if g.Ok? && At(g.rest, RPar) then Ok(g.value, g.rest[1..]) else Fail
    else if ts[0] == LBrk then
      if At(ts[1..], RBrk) then Ok(List(0, []), ts[2..]) else
      var es := ParseElts(true, ts[1..]);
      if es.Ok? && At(es.rest, RBrk) then Ok(List(0, es.value.es), es.rest[1..]) else Fail
    else Fail
  }

  /** Between parentheses: nothing, a yield, a grouped expression or a tuple. */
  function ParseGroup(ts: seq<Token>): (r: Parsed<Expr>)
    decreases |ts|, 21
    ensures r.Ok? ==> |r.rest| <= |ts|
  {
    if At(ts, RPar) then Ok(Tuple(0, []), ts)
    else if At(ts, KwYield) then ParseYield(ts[1..])
    else
      var es := ParseElts(true, ts);
      if es.Fail? then Fail
      else if |es.value.es| == 1 && !es.value.trailing then
        (if es.value.es[0].Starred? then Fail else Ok(es.value.es[0], es.rest))
      else Ok(Tuple(0, es.value.es), es.rest)
  }

  /** After 'yield': 'from' expression, or star_expressions, or nothing. */
  function ParseYield(ts: seq<Token>): (r: Parsed<Expr>)
    decreases |ts|, 22
    ensures r.Ok? ==> |r.rest| <= |ts|
  {
    if At(ts, KwFrom) then
      var v := Parse(TEST, ts[1..]);
      if v.Fail? then Fail else Ok(YieldFrom(0, v.value), v.rest)
    else if StartsElt(ts) then
      var v := ParseStarExprs(ts);
      if v.Fail? then Fail else Ok(Yield(0, Some(v.value)), v.rest)
    else Ok(Yield(0, None), ts)
  }

  /** star_expressions: one element, or an unparenthesised tuple */
  function ParseStarExprs(ts: seq<Token>): (r: Parsed<Expr>)
    decreases |ts|, 21
    ensures r.Ok? ==> |r.rest| < |ts|
  {
    var es := ParseElts(false, ts);
    if es.Fail? then Fail
    else if |es.value.es| == 1 && !es.value.trailing then Ok(es.value.es[0], es.rest)
    else Ok(Tuple(0, es.value.es), es.rest)
  }

  /** slices: a single expression, or a tuple without parentheses */
  function ParseSlices(ts: seq<Token>): (r: Parsed<Expr>)
    decreases |ts|, 21
    ensures r.Ok? ==> |r.rest| < |ts|
  {
    var es := ParseElts(true, ts);
    if es.Fail? then Fail
    else if |es.value.es| == 1 && !es.value.trailing && !es.value.es[0].Starred? then Ok(es.value.es[0], es.rest)
    else Ok(Tuple(0, es.value.es), es.rest)
  }

  /** One or more elements; `named` where an unparenthesised `:=` is allowed. */
  function ParseElts(named: bool, ts: seq<Token>): (r: Parsed<Elts>)
    decreases |ts|, 20
    ensures r.Ok? ==> |r.rest| < |ts| && |r.value.es| >= 1
  {
    var e := ParseElt(named, ts);
    if e.Fail? then Fail
    else if !At(e.rest, Comma) then Ok(Elts([e.value], false), e.rest)
    else if !StartsElt(e.rest[1..]) then Ok(Elts([e.value], true), e.rest[1..])
    else
      var more := ParseElts(named, e.rest[1..]);
      if more.Fail? then Fail else Ok(Elts([e.value] + more.value.es, more.value.trailing), more.rest)
  }

  function ParseElt(named: bool, ts: seq<Token>): (r: Parsed<Expr>)
    decreases |ts|, 19
    ensures r.Ok? ==> |r.rest| < |ts|
  {
    if At(ts, Op(Mult)) then
      var v := Parse(BOR, ts[1..]);
      if v.Fail? then Fail else Ok(Starred(0, v.value), v.rest)
    else if named then ParseNamed(ts)
    else Parse(TEST, ts)
  }

  /** named_expression: NAME ':=' expression | expression !':=' */
  function ParseNamed(ts: seq<Token>): (r: Parsed<Expr>)
    decreases |ts|, 18
    ensures r.Ok? ==> |r.rest| < |ts|
  {
    var e := Parse(TEST, ts);
    if e.Fail? || !At(e.rest, Walrus) then e
    else if !(ts[0].Id? && e.value.Name?) then Fail
    else
      var v := Parse(TEST, e.rest[1..]);
      if v.Fail? then Fail else Ok(NamedExpr(0, e.value, v.value), v.rest)
  }

  /** Arguments up to ')'. Stage 0 still takes positional arguments; 1 follows a
      keyword, 2 a '**'. */
  function ParseArgs(stage: nat, ts: seq<Token>): (r: Parsed<CallArgs>)
    decreases |ts|, 20
    ensures r.Ok? ==> |r.rest| <= |ts|
  {
    if At(ts, RPar) then Ok(CallArgs([], []), ts) else
    var a := ParseArg(stage, ts);
    if a.Fail? then Fail else
    var stage' := if a.value.Pos? then stage else if a.value.k.arg.None? then 2 else if stage == 0 then 1 else stage;
    var more := if At(a.rest, Comma) then ParseArgs(stage', a.rest[1..]) else Ok(CallArgs([], []), a.rest);
    if more.Fail? then Fail
    else if a.value.Pos? then Ok(CallArgs([a.value.e] + more.value.args, more.value.keywords), more.rest)
    else Ok(CallArgs(more.value.args, [a.value.k] + more.value.keywords), more.rest)
  }

  function ParseArg(stage: nat, ts: seq<Token>): (r: Parsed<Argument>)
    decreases |ts|, 19
    ensures r.Ok? ==> |r.rest| < |ts|
  {
    if At(ts, Op(Mult)) then
      var v := Parse(TEST, ts[1..]);
      if v.Fail? || stage == 2 then Fail else Ok(Pos(Starred(0, v.value)), v.rest)
    else if At(ts, Op(Pow)) then
      var v := Parse(TEST, ts[1..]);
      if v.Fail? then Fail else Ok(Kw(Keyword(None, v.value)), v.rest)
    else
      var e := ParseNamed(ts);
      if e.Fail? then Fail
      else if At(e.rest, Assign) then
        if !(ts[0].Id? && e.value.Name?) then Fail else
        var v := Parse(TEST, e.rest[1..]);
        if v.Fail? then Fail else Ok(Kw(Keyword(Some(e.value.name), v.value)), v.rest)
      else if stage == 0 then Ok(Pos(e.value), e.rest)
      else Fail
  }

  /** lambda_parameters, accumulated in `a`. Stage 0 may still meet '/', 1 may
      not, 2 follows '*', 3 follows '**'. Stops before ':'. */
  function ParseParams(stage: nat, a: Arguments, ts: seq<Token>): (r: Parsed<Arguments>)
    decreases |ts|, 20
    ensures r.Ok? ==> |r.rest| <= |ts|
  {
    if At(ts, Colon) then Ok(a, ts)
    else if ts == [] || stage >= 3 then Fail
    else if ts[0].Id? then
      var d := ParseDefault(ts[1..]);
      if d.Fail? then Fail
      else if stage == 2 then MoreParams(2, a.(kwonly := a.kwonly + [KwOnly(ts[0].name, d.value)]), d.rest)
      else if d.value.Some? then
        MoreParams(stage, a.(args := a.args + [ts[0].name], defaults := a.defaults + [d.value.value]), d.rest)
      else if a.defaults != [] then Fail
      else MoreParams(stage, a.(args := a.args + [ts[0].name]), d.rest)
    else if ts[0] == Op(Div) then
      if stage != 0 || a.args == [] then Fail
      else MoreParams(1, a.(posonly := a.args, args := []), ts[1..])
    else if ts[0] == Op(Mult) then
      if stage >= 2 then Fail
      else if |ts| >= 2 && ts[1].Id? then MoreParams(2, a.(vararg := Some(ts[1].name)), ts[2..])
      else if |ts| >= 3 && ts[1] == Comma && ts[2].Id? then MoreParams(2, a, ts[1..])
      else Fail
    else if ts[0] == Op(Pow) && |ts| >= 2 && ts[1].Id? then
      MoreParams(3, a.(kwarg := Some(ts[1].name)), ts[2..])
    else Fail
  }

  function MoreParams(stage: nat, a: Arguments, ts: seq<Token>): (r: Parsed<Arguments>)
    decreases |ts|, 21
    ensures r.Ok? ==> |r.rest| <= |ts|
  {
    if At(ts, Comma) then ParseParams(stage, a, ts[1..])
    else if At(ts, Colon) then Ok(a, ts)
    else Fail
  }

  function ParseDefault(ts: seq<Token>): (r: Parsed<Option<Expr>>)
    decreases |ts|, 0
    ensures r.Ok? ==> |r.rest| <= |ts|
  {
    if !At(ts, Assign) then Ok(None, ts) else
    var v := Parse(TEST, ts[1..]);
    if v.Fail? then Fail else Ok(Some(v.value), v.rest)
  }
}
