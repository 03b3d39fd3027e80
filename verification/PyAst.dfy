/** Python syntax trees, restricted to the node kinds this project covers.
    Every expression carries `id`, the identity of its node: the unparser's
    precedence dictionary is keyed by identity, not by shape. */
module PyAst {
  import opened Options

  datatype Const = Int(n: nat) | True | False | NoneConst | Ellipsis

  datatype Bin = Add | Sub | Mult | MatMult | Div | Mod | LShift | RShift
               | BitOr | BitXor | BitAnd | FloorDiv | Pow

  datatype Un = Invert | Not | UAdd | USub

  datatype RelOp = Eq | NotEq | Lt | LtE | Gt | GtE

  datatype CmpOp = Rel(r: RelOp) | Is | IsNot | In | NotIn

  datatype BoolKind = And | Or

  datatype Keyword = Keyword(arg: Option<string>, value: Expr)

  datatype KwOnly = KwOnly(name: string, default: Option<Expr>)

  /** The `arguments` node of a lambda. `defaults` belongs to the last
      |defaults| of the positional parameters. */
  datatype Arguments = Arguments(posonly: seq<string>, args: seq<string>, defaults: seq<Expr>,
                                 vararg: Option<string>, kwonly: seq<KwOnly>, kwarg: Option<string>)

  datatype Expr =
    | Name(id: nat, name: string)
    | Constant(id: nat, value: Const)
    | NamedExpr(id: nat, target: Expr, namedValue: Expr)
    | IfExp(id: nat, test: Expr, body: Expr, orelse: Expr)
    | Lambda(id: nat, params: Arguments, lambdaBody: Expr)
    | BoolOp(id: nat, boolop: BoolKind, values: seq<Expr>)
    | UnaryOp(id: nat, unop: Un, operand: Expr)
    | Compare(id: nat, left: Expr, ops: seq<CmpOp>, comparators: seq<Expr>)
    | BinOp(id: nat, lhs: Expr, binop: Bin, rhs: Expr)
    | Await(id: nat, awaited: Expr)
    | Yield(id: nat, yielded: Option<Expr>)
    | YieldFrom(id: nat, source: Expr)
    | Tuple(id: nat, elts: seq<Expr>)
    | List(id: nat, elts: seq<Expr>)
    | Attribute(id: nat, base: Expr, attr: string)
    | Call(id: nat, func: Expr, args: seq<Expr>, keywords: seq<Keyword>)
    | Subscript(id: nat, container: Expr, slice: Expr)
    | Starred(id: nat, starred: Expr)

  /** In a tree that is only printed, where identities serve no other end, this one asks
      for a pair of parentheses that the context of the node does not. */
  const PAIRED: nat := 1

  /** The expressions that Python's parser yields. A starred expression is one of
      them only where the grammar says `star_expressions`, or lists elements or
      arguments (see ValidElt). */
  predicate Valid(e: Expr)
    decreases e, 1
  {
    match e
    case Name(_, _) => true
    case Constant(_, _) => true
    case NamedExpr(_, t, v) => t.Name? && Valid(v)
    case IfExp(_, t, b, o) => Valid(t) && Valid(b) && Valid(o)
    case Lambda(_, a, b) => ValidArguments(a) && Valid(b)
    case BoolOp(_, _, vs) => |vs| >= 2 && ValidAll(vs)
    case UnaryOp(_, _, x) => Valid(x)
    case Compare(_, l, ops, cs) => |ops| == |cs| >= 1 && Valid(l) && ValidAll(cs)
    case BinOp(_, l, _, r) => Valid(l) && Valid(r)
    case Await(_, v) => Valid(v)
    case Yield(_, v) => v.Some? ==> ValidElt(v.value)
    case YieldFrom(_, v) => Valid(v)
    case Tuple(_, es) => ValidElts(es)
    case List(_, es) => ValidElts(es)
    case Attribute(_, v, _) => Valid(v)
    case Call(_, f, es, ks) => Valid(f) && ValidElts(es) && ValidKeywords(ks)
    case Subscript(_, v, s) => Valid(v) && Valid(s)
    case Starred(_, _) => false
  }

  predicate ValidElt(e: Expr)
    decreases e, 2
  {
    if e.Starred? then Valid(e.starred) else Valid(e)
  }

  predicate ValidElts(es: seq<Expr>)
    decreases es, 0
  {
    es == [] || (ValidElt(es[0]) && ValidElts(es[1..]))
  }

  predicate ValidAll(es: seq<Expr>)
    decreases es, 0
  {
    es == [] || (Valid(es[0]) && ValidAll(es[1..]))
  }

  predicate ValidKeywords(ks: seq<Keyword>)
    decreases ks, 0
  {
    ks == [] || (ValidKeyword(ks[0]) && ValidKeywords(ks[1..]))
  }

  predicate ValidKeyword(k: Keyword)
    decreases k, 0
  {
    Valid(k.value)
  }

  predicate ValidArguments(a: Arguments)
    decreases a, 0
  {
    |a.defaults| <= |a.posonly| + |a.args| && ValidAll(a.defaults) && ValidKwOnly(a.kwonly)
  }

  predicate ValidKwOnly(ks: seq<KwOnly>)
    decreases ks, 0
  {
    ks == [] || ((ks[0].default.Some? ==> Valid(ks[0].default.value)) && ValidKwOnly(ks[1..]))
  }

  /** The tree with every identity forgotten: what two equal dumps have in common. */
  function Erase(e: Expr): Expr
    decreases e, 1
  {
    match e
    case Name(_, n) => Name(0, n)
    case Constant(_, c) => Constant(0, c)
    case NamedExpr(_, t, v) => NamedExpr(0, Erase(t), Erase(v))
    case IfExp(_, t, b, o) => IfExp(0, Erase(t), Erase(b), Erase(o))
    case Lambda(_, a, b) => Lambda(0, EraseArguments(a), Erase(b))
    case BoolOp(_, op, vs) => BoolOp(0, op, EraseAll(vs))
    case UnaryOp(_, op, x) => UnaryOp(0, op, Erase(x))
    case Compare(_, l, ops, cs) => Compare(0, Erase(l), ops, EraseAll(cs))
    case BinOp(_, l, op, r) => BinOp(0, Erase(l), op, Erase(r))
    case Await(_, v) => Await(0, Erase(v))
    case Yield(_, v) => Yield(0, if v.Some? then Some(Erase(v.value)) else None)
    case YieldFrom(_, v) => YieldFrom(0, Erase(v))
    case Tuple(_, es) => Tuple(0, EraseAll(es))
    case List(_, es) => List(0, EraseAll(es))
    case Attribute(_, v, n) => Attribute(0, Erase(v), n)
    case Call(_, f, es, ks) => Call(0, Erase(f), EraseAll(es), EraseKeywords(ks))
    case Subscript(_, v, s) => Subscript(0, Erase(v), Erase(s))
    case Starred(_, v) => Starred(0, Erase(v))
  }

  function EraseAll(es: seq<Expr>): (r: seq<Expr>)
    decreases es, 0
    ensures |r| == |es|
  {
    if es == [] then [] else [Erase(es[0])] + EraseAll(es[1..])
  }

  function EraseKeywords(ks: seq<Keyword>): seq<Keyword>
    decreases ks, 0
  {
    if ks == [] then [] else [EraseKeyword(ks[0])] + EraseKeywords(ks[1..])
  }

  function EraseKeyword(k: Keyword): Keyword
    decreases k, 0
  {
    Keyword(k.arg, Erase(k.value))
  }

  function EraseKwOnly(ks: seq<KwOnly>): seq<KwOnly>
    decreases ks, 0
  {
    if ks == [] then []
    else [KwOnly(ks[0].name, if ks[0].default.Some? then Some(Erase(ks[0].default.value)) else None)]
         + EraseKwOnly(ks[1..])
  }

  function EraseArguments(a: Arguments): Arguments
    decreases a, 0
  {
    Arguments(a.posonly, a.args, EraseAll(a.defaults), a.vararg, EraseKwOnly(a.kwonly), a.kwarg)
  }
}
