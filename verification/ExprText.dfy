/** The token text of an expression, as a function of the tree and of the
    precedence its context asks for. */
module ExprText {
  import opened Options
  import opened PyAst
  import opened Tokens

  /** The level a node prints at; below the level asked for, it needs parentheses.
      Atoms, and starred expressions, are never parenthesised. */
  function Lv(e: Expr): int {
    match e
    case NamedExpr(_, _, _) => NAMED_EXPR
    case Tuple(_, es) => if es == [] then ATOM else TUPLE
    case Yield(_, _) => YIELD
    case YieldFrom(_, _) => YIELD
    case IfExp(_, _, _, _) => TEST
    case Lambda(_, _, _) => TEST
    case BoolOp(_, k, _) => BoolPrec(k)
    case UnaryOp(_, u, _) => UnPrec(u)
    case Compare(_, _, _, _) => CMP
    case BinOp(_, _, b, _) => BinPrec(b)
    case Await(_, _) => AWAIT
    case _ => ATOM
  }

  function LeftPrec(b: Bin): int {
    if b.Pow? then Next(BinPrec(b)) else BinPrec(b)
  }

  function RightPrec(b: Bin): int {
    if b.Pow? then BinPrec(b) else Next(BinPrec(b))
  }

  /** A node is put in parentheses if more is asked of it than it has, or if it is marked
      for a pair that is not needed. */
  predicate Wraps(e: Expr, p: int) {
    p > Lv(e) || (e.id == PAIRED && Lv(e) < ATOM)
  }

  /** The text of `e` where precedence `p` is asked for. */
  function Toks(e: Expr, p: int): seq<Token>
    decreases e, 2
  {
    if Wraps(e, p) then [LPar] + Bare(e) + [RPar] else Bare(e)
  }

  /** The text of `e` without parentheses of its own. */
  function Bare(e: Expr): seq<Token>
    decreases e, 1
  {
    match e
    case Name(_, n) => [Id(n)]
    case Constant(_, c) => [Lit(c)]
    case NamedExpr(_, t, v) => Toks(t, ATOM) + [Walrus] + Toks(v, ATOM)
    case IfExp(_, t, b, o) =>
      Toks(b, Next(TEST)) + [KwIf] + Toks(t, Next(TEST)) + [KwElse] + Toks(o, TEST)
    case Lambda(_, a, b) => [KwLambda] + ParamToks(a) + [Colon] + Toks(b, TEST)
    case BoolOp(_, k, vs) => BoolToks(k, vs, Next(BoolPrec(k)))
    case UnaryOp(_, u, x) => [UnTok(u)] + Toks(x, UnPrec(u))
    case Compare(_, l, ops, cs) => Toks(l, Next(CMP)) + CompareToks(ops, cs)
    case BinOp(_, l, b, r) => Toks(l, LeftPrec(b)) + [Op(b)] + Toks(r, RightPrec(b))
    case Await(_, v) => [KwAwait] + Toks(v, ATOM)
    case Yield(_, v) => [KwYield] + (if v.Some? then Toks(v.value, ATOM) else [])
    case YieldFrom(_, v) => [KwYield, KwFrom] + Toks(v, ATOM)
    case Tuple(_, es) => if es == [] then [LPar, RPar] else ItemToks(es)
    case List(_, es) => [LBrk] + JoinToks(es) + [RBrk]
    case Attribute(_, v, n) => Toks(v, ATOM) + [Dot, Id(n)]
    case Call(_, f, es, ks) => Toks(f, ATOM) + [LPar] + JoinToks(es)
      + (if es != [] && ks != [] then [Comma] else []) + KeywordToks(ks) + [RPar]
    case Subscript(_, v, s) =>
      Toks(v, ATOM) + [LBrk] + (if s.Tuple? && s.elts != [] then ItemToks(s.elts) else Toks(s, TEST)) + [RBrk]
    case Starred(_, v) => [Op(Mult)] + Toks(v, BOR)
  }

  /** Elements separated by commas. */
  function JoinToks(es: seq<Expr>): seq<Token>
    decreases es, 0
  {
    if es == [] then []
    else if |es| == 1 then Toks(es[0], TEST)
    else Toks(es[0], TEST) + [Comma] + JoinToks(es[1..])
  }

  /** The same, with a trailing comma after a single element. */
  function ItemToks(es: seq<Expr>): seq<Token>
    decreases es, 1
  {
    if |es| == 1 then Toks(es[0], TEST) + [Comma] else JoinToks(es)
  }

  /** Operands of `and`/`or`, each at a higher level than the one before. */
  function BoolToks(k: BoolKind, vs: seq<Expr>, p: int): seq<Token>
    decreases vs, 0
  {
    if vs == [] then []
    else if |vs| == 1 then Toks(vs[0], p)
    else Toks(vs[0], p) + [BoolTok(k)] + BoolToks(k, vs[1..], Next(p))
  }

  function CompareToks(ops: seq<CmpOp>, cs: seq<Expr>): seq<Token>
    decreases cs, 0
  {
    if ops == [] || cs == [] then []
    else CmpToks(ops[0]) + Toks(cs[0], Next(CMP)) + CompareToks(ops[1..], cs[1..])
  }

  function KeywordToks(ks: seq<Keyword>): seq<Token>
    decreases ks, 0
  {
    if ks == [] then []
    else if |ks| == 1 then KeywordTok(ks[0])
    else KeywordTok(ks[0]) + [Comma] + KeywordToks(ks[1..])
  }

  function KeywordTok(k: Keyword): seq<Token>
    decreases k, 0
  {
    (if k.arg.None? then [Op(Pow)] else [Id(k.arg.value), Assign]) + Toks(k.value, TEST)
  }

  function Positional(a: Arguments): nat {
    |a.posonly| + |a.args|
  }

  function PositionalName(a: Arguments, i: nat): string
    requires i < Positional(a)
  {
    (a.posonly + a.args)[i]
  }

  /** The first positional parameter that has a default. */
  function FirstDefault(a: Arguments): nat {
    if |a.defaults| <= Positional(a) then Positional(a) - |a.defaults| else 0
  }

  function PositionalDefault(a: Arguments, i: nat): Option<Expr>
    requires i < Positional(a)
  {
    if i < FirstDefault(a) then None else Some(a.defaults[i - FirstDefault(a)])
  }

  function ParamToks(a: Arguments): seq<Token>
    decreases a, 5
  {
    PositionalToks(a, 0) + StarToks(a) + KwOnlyToks(a.kwonly) + KwargToks(a)
  }

  /** Positional parameters from the i-th on. */
  function PositionalToks(a: Arguments, i: nat): seq<Token>
    requires i <= Positional(a)
    decreases a, 1, Positional(a) - i
  {
    if i == Positional(a) then []
    else (if i == 0 then [] else [Comma]) + PositionalTok(a, i) + PositionalToks(a, i + 1)
  }

  /** The i-th positional parameter; `/` follows the last positional-only one. */
  function PositionalTok(a: Arguments, i: nat): seq<Token>
    requires i < Positional(a)
    decreases a, 0
  {
    [Id(PositionalName(a, i))]
    + (if i < FirstDefault(a) then [] else [Assign] + Toks(a.defaults[i - FirstDefault(a)], TEST))
    + (if i + 1 == |a.posonly| then [Comma, Op(Div)] else [])
  }

  function StarToks(a: Arguments): seq<Token> {
    if a.vararg.None? && a.kwonly == [] then []
    else (if Positional(a) == 0 then [] else [Comma]) + [Op(Mult)]
         + (if a.vararg.Some? then [Id(a.vararg.value)] else [])
  }

  function KwOnlyToks(ks: seq<KwOnly>): seq<Token>
    decreases ks, 0
  {
    if ks == [] then []
    else [Comma, Id(ks[0].name)] + DefaultToks(ks[0].default) + KwOnlyToks(ks[1..])
  }

  function DefaultToks(d: Option<Expr>): seq<Token>
    decreases d, 0
  {
    if d.None? then [] else [Assign] + Toks(d.value, TEST)
  }

  function KwargToks(a: Arguments): seq<Token> {
    if a.kwarg.None? then []
    else (if Positional(a) == 0 && a.vararg.None? && a.kwonly == [] then [] else [Comma])
         + [Op(Pow), Id(a.kwarg.value)]
  }
}
