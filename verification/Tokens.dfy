/** Python tokens. A keyword is a token of its own, so an Id never spells one;
    Line(n) opens a logical line indented by n levels. */
module Tokens {
  import opened PyAst

  datatype Token =
    | Id(name: string) | Lit(c: Const)
    | LPar | RPar | LBrk | RBrk | LBrace | RBrace
    | Comma | Colon | Dot | Assign | Walrus | Tilde
    | Op(b: Bin) | Aug(b: Bin) | RelTok(r: RelOp)
    | KwIf | KwElse | KwLambda | KwOr | KwAnd | KwNot | KwIn | KwIs | KwAwait | KwYield | KwFrom
    | KwElif | KwWhile | KwFor | KwWith | KwTry | KwExcept | KwFinally | KwReturn | KwRaise
    | KwPass | KwBreak | KwContinue | KwMatch | KwCase | KwAs
    | Line(indent: nat)

  /** A token that is neither a parenthesis nor a literal. */
  type Mark = t: Token | !t.LPar? && !t.RPar? && !t.Lit? witness Comma

  /** The precedences, in the order of their enumeration. */
  const NAMED_EXPR := 1
  const TUPLE := 2
  const YIELD := 3
  const TEST := 4
  const OR := 5
  const AND := 6
  const NOT := 7
  const CMP := 8
  const BOR := 9
  const BXOR := 10
  const BAND := 11
  const SHIFT := 12
  const ARITH := 13
  const TERM := 14
  const FACTOR := 15
  const POWER := 16
  const AWAIT := 17
  const ATOM := 18

  /** The members of the precedence enumeration. */
  type Level = p: int | NAMED_EXPR <= p <= ATOM witness TEST

  /** The next higher level; the highest is its own successor. */
  function Next(p: int): int {
    if p < ATOM then p + 1 else p
  }

  function BinPrec(b: Bin): int {
    match b
    case Add => ARITH
    case Sub => ARITH
    case Mult => TERM
    case MatMult => TERM
    case Div => TERM
    case Mod => TERM
    case FloorDiv => TERM
    case LShift => SHIFT
    case RShift => SHIFT
    case BitOr => BOR
    case BitXor => BXOR
    case BitAnd => BAND
    case Pow => POWER
  }

  function UnPrec(u: Un): int {
    if u.Not? then NOT else FACTOR
  }

  function BoolPrec(k: BoolKind): int {
    if k.And? then AND else OR
  }

  function UnTok(u: Un): Token {
    match u
    case Invert => Tilde
    case Not => KwNot
    case UAdd => Op(Add)
    case USub => Op(Sub)
  }

  function BoolTok(k: BoolKind): Token {
    if k.And? then KwAnd else KwOr
  }

  function CmpToks(c: CmpOp): seq<Token> {
    match c
    case Rel(r) => [RelTok(r)]
    case Is => [KwIs]
    case IsNot => [KwIs, KwNot]
    case In => [KwIn]
    case NotIn => [KwNot, KwIn]
  }

  /** Concatenation regroups to the right. */
  lemma Regroup(a: seq<Token>, b: seq<Token>, c: seq<Token>)
    ensures (a + b) + c == a + (b + c)
  {
  }

  lemma Regroup4(a: seq<Token>, b: seq<Token>, c: seq<Token>, d: seq<Token>)
    ensures a + b + c + d == a + (b + (c + d))
  {
  }

  lemma Tail(t: Token, s: seq<Token>)
    ensures ([t] + s)[0] == t && ([t] + s)[1..] == s
  {
  }
}
