/** What visiting each node of a tree does, as a script. */
module Visits {
  import opened Options
  import opened PyAst
  import opened Tokens
  import opened ExprText
  import opened PatternText
  import opened StmtText
  import opened Scripts

  function Sep(yes: bool, t: Mark): Script {
    if yes then Put([t]) else Nothing
  }

  function Heads(es: seq<Expr>): (r: seq<nat>)
    ensures |r| == |es|
  {
    if es == [] then [] else [es[0].id] + Heads(es[1..])
  }

  function PatternHeads(ps: seq<Pattern>): (r: seq<nat>)
    ensures |r| == |ps|
  {
    if ps == [] then [] else [ps[0].id] + PatternHeads(ps[1..])
  }

  /* ----- expressions ----- */

  function ExprScript(e: Expr): Script
    decreases e, 2
  {
    Node(e.id, Lv(e), BareScript(e))
  }

  /** Asks a precedence of a node, and visits it. */
  function Asked(p: Level, e: Expr): Script
    decreases e, 3
  {
    Asking([e.id], p, ExprScript(e))
  }

  /** An optional expression. */
  function OptScript(e: Option<Expr>): Script
    decreases e, 0
  {
    if e.None? then Nothing else ExprScript(e.value)
  }

  /** The same after a token of its own. */
  function Clause(t: Mark, e: Option<Expr>): Script
    decreases e, 0
  {
    if e.None? then Nothing else Then(Put([t]), ExprScript(e.value))
  }

  function BareScript(e: Expr): Script
    decreases e, 1
  {
    match e
    case Name(_, n) => Put([Id(n)])
    case Constant(_, c) => Literal(c)
    case NamedExpr(_, t, v) =>
      Asking([t.id, v.id], ATOM, Then(ExprScript(t), Then(Put([Walrus]), ExprScript(v))))
    case IfExp(_, t, b, o) =>
      Then(Asking([b.id, t.id], Next(TEST), Then(ExprScript(b), Then(Put([KwIf]), ExprScript(t)))),
           Then(Put([KwElse]), Asked(TEST, o)))
    case Lambda(_, a, b) =>
      Then(Put([KwLambda]), Then(Buffered(ParamScript(a)), Then(Put([Colon]), Asked(TEST, b))))
    case BoolOp(_, k, vs) => BoolScript(k, vs, 0, BoolPrec(k))
    case UnaryOp(_, u, x) => Then(Put([UnTok(u)]), Asked(UnPrec(u), x))
    case Compare(_, l, ops, cs) =>
      Asking([l.id] + Heads(cs), Next(CMP), Then(ExprScript(l), CompareScript(ops, cs, 0)))
    case BinOp(_, l, b, r) => Then(Asked(LeftPrec(b), l), Then(Put([Op(b)]), Asked(RightPrec(b), r)))
    case Await(_, v) => Then(Put([KwAwait]), Asked(ATOM, v))
    case Yield(_, v) => if v.Some? then Then(Put([KwYield]), Asked(ATOM, v.value)) else Put([KwYield])
    case YieldFrom(_, v) => Then(Put([KwYield, KwFrom]), Asked(ATOM, v))
    case Tuple(_, es) => if es == [] then Parens(Nothing) else ItemScript(es)
    case List(_, es) => Then(Put([LBrk]), Then(JoinScript(es, 0), Put([RBrk])))
    case Attribute(_, v, n) => Then(Asked(ATOM, v), Then(Put([Dot]), Put([Id(n)])))
    case Call(_, f, es, ks) =>
      Then(Asked(ATOM, f), Parens(Then(JoinScript(es, 0), KeywordScript(ks, 0, es != []))))
    case Subscript(_, v, s) => Then(Asked(ATOM, v), Then(Put([LBrk]), Then(SliceScript(s), Put([RBrk]))))
    case Starred(_, v) => Then(Put([Op(Mult)]), Asked(BOR, v))
  }

  /** The elements from the i-th on, with the commas before them. */
  function JoinScript(es: seq<Expr>, i: nat): Script
    requires i <= |es|
    decreases es, 0, |es| - i
  {
    if i == |es| then Nothing
    else Then(Sep(i > 0, Comma), Then(ExprScript(es[i]), JoinScript(es, i + 1)))
  }

  function ItemScript(es: seq<Expr>): Script
    decreases es, 1
  {
    if |es| == 1 then Then(ExprScript(es[0]), Put([Comma])) else JoinScript(es, 0)
  }

  /** A tuple between brackets is not visited itself, only its elements. */
  function SliceScript(s: Expr): Script
    decreases s, 3
  {
    if s.Tuple? && s.elts != [] then ItemScript(s.elts) else ExprScript(s)
  }

  /** The operands from the i-th on, the one before having been asked level `p`. */
  function BoolScript(k: BoolKind, vs: seq<Expr>, i: nat, p: Level): Script
    requires i <= |vs|
    decreases vs, 0, |vs| - i
  {
    if i == |vs| then Nothing
    else Then(Sep(i > 0, BoolTok(k)), Then(Asked(Next(p), vs[i]), BoolScript(k, vs, i + 1, Next(p))))
  }

  function CompareScript(ops: seq<CmpOp>, cs: seq<Expr>, i: nat): Script
    requires i <= |ops| && i <= |cs|
    decreases cs, 0, |cs| - i
  {
    if i == |ops| || i == |cs| then Nothing
    else Then(Put(CmpToks(ops[i])), Then(ExprScript(cs[i]), CompareScript(ops, cs, i + 1)))
  }

  /** The keyword arguments from the i-th on; `comma` tells if anything came before. */
  function KeywordScript(ks: seq<Keyword>, i: nat, comma: bool): Script
    requires i <= |ks|
    decreases ks, 0, |ks| - i
  {
    if i == |ks| then Nothing
    else Then(Sep(comma, Comma), Then(KeywordOne(ks[i]), KeywordScript(ks, i + 1, true)))
  }

  function KeywordOne(k: Keyword): Script
    decreases k, 0
  {
    Then(Put(if k.arg.None? then [Op(Pow)] else [Id(k.arg.value), Assign]), ExprScript(k.value))
  }

  function ParamScript(a: Arguments): Script
    decreases a, 5
  {
    Then(PositionalScript(a, 0), Then(StarScript(a), Then(KwOnlyScript(a.kwonly, 0), KwargScript(a))))
  }

  function PositionalScript(a: Arguments, i: nat): Script
    requires i <= Positional(a)
    decreases a, 2, Positional(a) - i
  {
    if i == Positional(a) then Nothing
    else Then(Sep(i > 0, Comma), Then(ParameterScript(a, i), PositionalScript(a, i + 1)))
  }

  function ParameterScript(a: Arguments, i: nat): Script
    requires i < Positional(a)
    decreases a, 1
  {
    Then(Put([Id(PositionalName(a, i))]),
         Then(if i < FirstDefault(a) then Nothing else DefaultScript(a.defaults[i - FirstDefault(a)]),
              if i + 1 == |a.posonly| then Put([Comma, Op(Div)]) else Nothing))
  }

  function DefaultScript(e: Expr): Script
    decreases e, 3
  {
    Then(Put([Assign]), ExprScript(e))
  }

  function StarScript(a: Arguments): Script {
    if a.vararg.None? && a.kwonly == [] then Nothing
    else Then(Sep(Positional(a) > 0, Comma), Put([Op(Mult)] + (if a.vararg.Some? then [Id(a.vararg.value)] else [])))
  }

  function KwOnlyScript(ks: seq<KwOnly>, i: nat): Script
    requires i <= |ks|
    decreases ks, 0, |ks| - i
  {
    if i == |ks| then Nothing
    else Then(Put([Comma, Id(ks[i].name)]), Then(Clause(Assign, ks[i].default), KwOnlyScript(ks, i + 1)))
  }

  function KwargScript(a: Arguments): Script {
    if a.kwarg.None? then Nothing
    else Then(Sep(Positional(a) > 0 || a.vararg.Some? || a.kwonly != [], Comma), Put([Op(Pow), Id(a.kwarg.value)]))
  }

  /* ----- patterns ----- */

  function PatternScript(p: Pattern): Script
    decreases p, 2
  {
    Node(p.id, PatternLv(p), BarePatternScript(p))
  }

  function BarePatternScript(p: Pattern): Script
    decreases p, 1
  {
    match p
    case MatchValue(_, v) => ExprScript(v)
    case MatchSingleton(_, c) => Literal(c)
    case MatchSequence(_, ps) => Then(Put([LBrk]), Then(PatternJoinScript(ps, 0), Put([RBrk])))
    case MatchStar(_, n) => Put([Op(Mult), Id(OrWildcard(n))])
    case MatchMapping(_, es, r) =>
      Then(Put([LBrace]), Then(EntryScript(es, 0), Then(RestScript(es != [], r), Put([RBrace]))))
    case MatchClass(_, c, ps, as') =>
      Then(Asked(ATOM, c),
           Parens(Then(PatternJoinScript(ps, 0), Then(Sep(ps != [] && as' != [], Comma), AttrScript(as', 0)))))
    case MatchAs(_, q, n) =>
      if n.None? then Put([Id(WILDCARD)])
      else if q.None? then Put([Id(n.value)])
      else Then(Asking([q.value.id], BOR, PatternScript(q.value)), Put([KwAs, Id(n.value)]))
    case MatchOr(_, ps) => Asking(PatternHeads(ps), Next(BOR), AlternativeScript(ps, 0))
  }

  function PatternJoinScript(ps: seq<Pattern>, i: nat): Script
    requires i <= |ps|
    decreases ps, 0, |ps| - i
  {
    if i == |ps| then Nothing
    else Then(Sep(i > 0, Comma), Then(PatternScript(ps[i]), PatternJoinScript(ps, i + 1)))
  }

  function AlternativeScript(ps: seq<Pattern>, i: nat): Script
    requires i <= |ps|
    decreases ps, 0, |ps| - i
  {
    if i == |ps| then Nothing
    else Then(Sep(i > 0, Op(BitOr)), Then(PatternScript(ps[i]), AlternativeScript(ps, i + 1)))
  }

  function EntryScript(es: seq<Entry>, i: nat): Script
    requires i <= |es|
    decreases es, 0, |es| - i
  {
    if i == |es| then Nothing
    else Then(Sep(i > 0, Comma), Then(EntryOne(es[i]), EntryScript(es, i + 1)))
  }

  function EntryOne(e: Entry): Script
    decreases e, 0
  {
    Then(Key(ExprScript(e.key)), Then(Put([Colon]), PatternScript(e.pattern)))
  }

  function RestScript(comma: bool, r: Option<string>): Script {
    if r.None? then Nothing else Then(Sep(comma, Comma), Put([Op(Pow), Id(r.value)]))
  }

  function AttrScript(as': seq<AttrPattern>, i: nat): Script
    requires i <= |as'|
    decreases as', 0, |as'| - i
  {
    if i == |as'| then Nothing
    else Then(Sep(i > 0, Comma), Then(AttrOne(as'[i]), AttrScript(as', i + 1)))
  }

  function AttrOne(a: AttrPattern): Script
    decreases a, 0
  {
    Then(Put([Id(a.attr), Assign]), PatternScript(a.pattern))
  }

  /* ----- statements ----- */

  function StmtScript(s: Stmt): Script
    decreases s, 2
  {
    match s
    case ExprStmt(v) => Then(NewLine([]), Asked(YIELD, v))
    case AssignStmt(ts, v) => Then(NewLine([]), Then(TargetScript(ts, 0), ExprScript(v)))
    case AugAssign(t, op, v) => Then(NewLine([]), Then(ExprScript(t), Then(Put([Aug(op)]), ExprScript(v))))
    case Return(v) => Then(NewLine([KwReturn]), OptScript(v))
    case Raise(e, c) => Then(NewLine([KwRaise]), CauseScript(e, c))
    case Pass => NewLine([KwPass])
    case Break => NewLine([KwBreak])
    case Continue => NewLine([KwContinue])
    case If(_, _, _) => Then(ConditionScript(KwIf, s), ElifScript(s))
    case While(t, b, o) =>
      Then(NewLine([KwWhile]), Then(ExprScript(t), Then(BlockScript(b), PartScript(KwElse, o))))
    case For(t, i, b, o) =>
      Then(NewLine([KwFor]),
           Then(Asked(TUPLE, t),
                Then(Put([KwIn]), Then(ExprScript(i), Then(BlockScript(b), PartScript(KwElse, o))))))
    case With(items, b) => Then(NewLine([KwWith]), Then(WithScript(items, 0), BlockScript(b)))
    case Try(star, _, _, _, _) => TryKind(star, TryScript(s))
    case Match(v, cs) =>
      Then(NewLine([KwMatch]), Then(ExprScript(v), Then(Put([Colon]), Indented(CasesScript(cs, 0)))))
  }

  /** A cause without an exception is refused. */
  function CauseScript(e: Option<Expr>, c: Option<Expr>): Script {
    if e.None? then if c.Some? then Refuse else Nothing
    else Then(ExprScript(e.value), Clause(KwFrom, c))
  }

  function TargetScript(ts: seq<Expr>, i: nat): Script
    requires i <= |ts|
    decreases |ts| - i
  {
    if i == |ts| then Nothing
    else Then(Asked(TUPLE, ts[i]), Then(Put([Assign]), TargetScript(ts, i + 1)))
  }

  /** `if` or `elif`, the condition and its suite. */
  function ConditionScript(head: Mark, s: Stmt): Script
    requires s.If?
    decreases s, 0
  {
    Then(NewLine([head]), Then(ExprScript(s.test), BlockScript(s.body)))
  }

  /** What follows the suite of a conditional: an `elif`, an `else`, or nothing. */
  function ElifScript(s: Stmt): Script
    requires s.If?
    decreases s, 1
  {
    if |s.orelse| == 1 && s.orelse[0].If? then Then(ConditionScript(KwElif, s.orelse[0]), ElifScript(s.orelse[0]))
    else PartScript(KwElse, s.orelse)
  }

  function TryScript(s: Stmt): Script
    requires s.Try?
    decreases s, 1
  {
    Then(NewLine([KwTry]),
         Then(BlockScript(s.body),
              Then(HandlersScript(s.handlers, 0), Then(PartScript(KwElse, s.orelse),
                  PartScript(KwFinally, s.finalbody)))))
  }

  /** A colon, and the statements one level deeper. */
  function BlockScript(b: seq<Stmt>): Script
    decreases b, 1
  {
    Then(Put([Colon]), Indented(BodyScript(b, 0)))
  }

  /** `else` or `finally` and its statements, unless there are none. */
  function PartScript(head: Mark, b: seq<Stmt>): Script
    decreases b, 2
  {
    if b == [] then Nothing else Then(NewLine([head]), BlockScript(b))
  }

  function BodyScript(b: seq<Stmt>, i: nat): Script
    requires i <= |b|
    decreases b, 0, |b| - i
  {
    if i == |b| then Nothing else Then(StmtScript(b[i]), BodyScript(b, i + 1))
  }

  function WithScript(items: seq<WithItem>, i: nat): Script
    requires i <= |items|
    decreases |items| - i
  {
    if i == |items| then Nothing
    else Then(Sep(i > 0, Comma), Then(ItemOne(items[i]), WithScript(items, i + 1)))
  }

  function ItemOne(i: WithItem): Script {
    Then(ExprScript(i.context), Clause(KwAs, i.vars))
  }

  function HandlersScript(hs: seq<Handler>, i: nat): Script
    requires i <= |hs|
    decreases hs, 0, |hs| - i
  {
    if i == |hs| then Nothing else Then(HandlerScript(hs[i]), HandlersScript(hs, i + 1))
  }

  function HandlerScript(h: Handler): Script
    decreases h, 0
  {
    Then(NewLine([KwExcept]),
         Then(GroupStar,
              Then(OptScript(h.kind),
                   Then(if h.name.None? then Nothing else Put([KwAs, Id(h.name.value)]), BlockScript(h.body)))))
  }

  function CasesScript(cs: seq<Case>, i: nat): Script
    requires i <= |cs|
    decreases cs, 0, |cs| - i
  {
    if i == |cs| then Nothing else Then(CaseScript(cs[i]), CasesScript(cs, i + 1))
  }

  function CaseScript(c: Case): Script
    decreases c, 0
  {
    Then(NewLine([KwCase]), Then(PatternScript(c.pattern), Then(Clause(KwIf, c.guard), BlockScript(c.body))))
  }
}
