/** Where parentheses are written around operands, told by the rules of the grammar that
    make them. */
module OperandPairs {
  import opened Options
  import opened PyAst
  import opened Tokens
  import opened ExprGrammar
  import opened ExprText
  import opened StmtText

  /** The grammar rule that makes the node. */
  function RuleOf(e: Expr): int {
    match e
    case NamedExpr(_, _, _) => NAMED_EXPR
    case Tuple(_, es) => if es == [] then ATOM else TUPLE
    case Yield(_, _) => YIELD
    case YieldFrom(_, _) => YIELD
    case IfExp(_, _, _, _) => TEST
    case Lambda(_, _, _) => TEST
    case BoolOp(_, k, _) => BoolRule(k)
    case UnaryOp(_, u, _) => if u == Not then NOT else FACTOR
    case Compare(_, _, _, _) => CMP
    case BinOp(_, _, b, _) =>
      if OfRule(BOR, b) then BOR
      else if OfRule(BXOR, b) then BXOR
      else if OfRule(BAND, b) then BAND
      else if OfRule(SHIFT, b) then SHIFT
      else if OfRule(ARITH, b) then ARITH
      else if OfRule(TERM, b) then TERM
      else POWER
    case Await(_, _) => AWAIT
    case _ => ATOM
  }

  lemma RuleIsLevel(e: Expr)
    ensures Lv(e) == RuleOf(e)
  {
  }

  /** An operand in parentheses, if they are wanted or if it is marked for a pair of its own. */
  function Operand(e: Expr, pair: bool): seq<Token> {
    if pair || (e.id == PAIRED && RuleOf(e) != ATOM) then [LPar] + Bare(e) + [RPar] else Bare(e)
  }

  lemma Asked(e: Expr, p: int)
    requires p <= ATOM
    ensures Toks(e, p) == Operand(e, RuleOf(e) < p)
  {
    RuleIsLevel(e);
    hide Bare;
  }

  /** An operator's left operand is in parentheses exactly if its rule is looser, the right one
      exactly if its rule is not tighter: operators group to the left. The power operator groups
      to the right. */
  lemma BinaryPairs(id: nat, l: Expr, b: Bin, r: Expr)
    ensures var e := BinOp(id, l, b, r);
            Bare(e) == if b == Pow
                       then Operand(l, RuleOf(l) <= RuleOf(e)) + [Op(b)] + Operand(r, RuleOf(r) < RuleOf(e))
                       else Operand(l, RuleOf(l) < RuleOf(e)) + [Op(b)] + Operand(r, RuleOf(r) <= RuleOf(e))
  {
    RuleIsLevel(BinOp(id, l, b, r));
    Asked(l, LeftPrec(b));
    Asked(r, RightPrec(b));
    hide Operand, RuleOf, Toks;
  }

  lemma UnaryPairs(id: nat, u: Un, x: Expr)
    ensures Bare(UnaryOp(id, u, x)) == [UnTok(u)] + Operand(x, RuleOf(x) < RuleOf(UnaryOp(id, u, x)))
  {
    Asked(x, UnPrec(u));
    hide Operand, Toks;
  }

  /** No comparison is an operand of another without parentheses. */
  lemma ComparePairs(id: nat, l: Expr, ops: seq<CmpOp>, cs: seq<Expr>)
    ensures Bare(Compare(id, l, ops, cs)) == Operand(l, RuleOf(l) <= CMP) + CompareToks(ops, cs)
    ensures ops != [] && cs != [] ==>
            CompareToks(ops, cs)
            == CmpToks(ops[0]) + Operand(cs[0], RuleOf(cs[0]) <= CMP) + CompareToks(ops[1..], cs[1..])
  {
    Asked(l, Next(CMP));
    if cs != [] { Asked(cs[0], Next(CMP)); }
    hide Operand, Toks, RuleOf;
  }

  /** The operands of `and` and `or` from the `i`-th on: the later one comes, the tighter its rule
      must be to go without parentheses. */
  function BoolText(k: BoolKind, vs: seq<Expr>, i: nat): seq<Token>
    decreases |vs| - i
  {
    if i >= |vs| then []
    else
      Operand(vs[i], RuleOf(vs[i]) <= BoolRule(k) + i && RuleOf(vs[i]) != ATOM)
      + if i + 1 == |vs| then [] else [BoolWord(k)] + BoolText(k, vs, i + 1)
  }

  lemma BoolPairs(id: nat, k: BoolKind, vs: seq<Expr>)
    ensures Bare(BoolOp(id, k, vs)) == BoolText(k, vs, 0)
  {
    BoolTextIs(k, vs, 0, Next(BoolRule(k)));
    assert vs[0..] == vs;
    hide BoolText, BoolToks;
  }

  lemma {:induction false} BoolTextIs(k: BoolKind, vs: seq<Expr>, i: nat, p: int)
    requires i <= |vs| && p == if BoolRule(k) + i < ATOM then BoolRule(k) + i + 1 else ATOM
    ensures BoolToks(k, vs[i..], p) == BoolText(k, vs, i)
    decreases |vs| - i
  {
    if i < |vs| {
      var q, rest := Next(p), vs[i..];
      assert q == if BoolRule(k) + (i + 1) < ATOM then BoolRule(k) + (i + 1) + 1 else ATOM;
      hide *;
      assert rest[0] == vs[i] && rest[1..] == vs[i + 1..] && |rest| == |vs| - i;
      BoolTextIs(k, vs, i + 1, q);
      NthPair(k, vs[i], i, p);
      BoolStep(k, rest, p);
      TextStep(k, vs, i);
    } else {
      hide Operand, RuleOf, Toks;
    }
  }

  lemma NthPair(k: BoolKind, v: Expr, i: nat, p: int)
    requires p == if BoolRule(k) + i < ATOM then BoolRule(k) + i + 1 else ATOM
    ensures Toks(v, p) == Operand(v, RuleOf(v) <= BoolRule(k) + i && RuleOf(v) != ATOM)
  {
    assert RuleOf(v) <= ATOM by { RuleIsLevel(v); }
    hide *;
    Asked(v, p);
    assert RuleOf(v) < p <==> RuleOf(v) <= BoolRule(k) + i && RuleOf(v) != ATOM;
  }

  lemma TextStep(k: BoolKind, vs: seq<Expr>, i: nat)
    requires i < |vs|
    ensures BoolText(k, vs, i)
         == Operand(vs[i], RuleOf(vs[i]) <= BoolRule(k) + i && RuleOf(vs[i]) != ATOM)
            + if i + 1 == |vs| then [] else [BoolTok(k)] + BoolText(k, vs, i + 1)
  {
    hide Operand, RuleOf, BoolRule;
  }

  lemma BoolStep(k: BoolKind, vs: seq<Expr>, p: int)
    requires vs != []
    ensures BoolToks(k, vs, p)
         == Toks(vs[0], p) + if |vs| == 1 then [] else [BoolTok(k)] + BoolToks(k, vs[1..], Next(p))
  {
    hide Toks, Next;
  }

  /** A conditional expression needs parentheses as the body or the test of another, but not
      after `else`. */
  lemma IfPairs(id: nat, t: Expr, b: Expr, o: Expr)
    ensures Bare(IfExp(id, t, b, o))
         == Operand(b, RuleOf(b) <= TEST) + [KwIf] + Operand(t, RuleOf(t) <= TEST)
            + [KwElse] + Operand(o, RuleOf(o) < TEST)
  {
    Asked(b, Next(TEST));
    Asked(t, Next(TEST));
    Asked(o, TEST);
    hide Operand, Toks, RuleOf;
  }

  /** What `await` waits for, what is yielded, and what an attribute is taken of is in parentheses
      unless it is an atom or a primary. */
  lemma PrimaryPairs(id: nat, v: Expr, n: string)
    ensures Bare(Await(id, v)) == [KwAwait] + Operand(v, RuleOf(v) != ATOM)
    ensures Bare(Yield(id, Some(v))) == [KwYield] + Operand(v, RuleOf(v) != ATOM)
    ensures Bare(YieldFrom(id, v)) == [KwYield, KwFrom] + Operand(v, RuleOf(v) != ATOM)
    ensures Bare(Attribute(id, v, n)) == Operand(v, RuleOf(v) != ATOM) + [Dot, Id(n)]
  {
    Asked(v, ATOM);
    assert RuleOf(v) < ATOM <==> RuleOf(v) != ATOM by { RuleIsLevel(v); }
    hide Operand, Toks, RuleOf;
  }

  /** In a statement on its own, a yield goes without parentheses, a walrus and a tuple do not; as a
      value, a yield needs them too; the target of an assignment may be a bare tuple. */
  lemma StatementPairs(v: Expr, t: Expr, op: Bin, d: nat)
    ensures LineToks(ExprStmt(v), d) == Operand(v, RuleOf(v) < YIELD)
    ensures LineToks(Return(Some(v)), d) == [KwReturn] + Operand(v, RuleOf(v) < TEST)
    ensures LineToks(AssignStmt([t], v), d)
         == Operand(t, RuleOf(t) < TUPLE) + [Assign] + Operand(v, RuleOf(v) < TEST)
    ensures LineToks(AugAssign(t, op, v), d)
         == Operand(t, RuleOf(t) < TEST) + [Aug(op)] + Operand(v, RuleOf(v) < TEST)
  {
    hide Operand, RuleOf, Toks;
    assert [t][1..] == [] && TargetToks([]) == [];
    Asked(v, YIELD);
    Asked(v, TEST);
    Asked(t, TUPLE);
    Asked(t, TEST);
  }

  lemma IfLine(s: Stmt, d: nat)
    requires s.If?
    ensures StmtToks(s, d) == [Line(d), KwIf] + IfToks(s, d)
  {
    hide IfToks;
  }

  /** An else part that is only another conditional is written as `elif` and that conditional's
      text after its own `if`, at the same indentation. */
  lemma ElifText(t: Expr, b: seq<Stmt>, u: Expr, c: seq<Stmt>, o: seq<Stmt>, d: nat)
    ensures |StmtToks(If(u, c, o), d)| >= 2
    ensures StmtToks(If(t, b, [If(u, c, o)]), d)
         == StmtToks(If(t, b, []), d) + [Line(d), KwElif] + StmtToks(If(u, c, o), d)[2..]
  {
    var inner, outer, alone := If(u, c, o), If(t, b, [If(u, c, o)]), If(t, b, []);
    ElifIs(t, b, u, c, o, d);
    hide *;
    IfLine(inner, d);
    IfLine(outer, d);
    IfLine(alone, d);
    assert StmtToks(inner, d)[2..] == IfToks(inner, d);
  }

  lemma ElifIs(t: Expr, b: seq<Stmt>, u: Expr, c: seq<Stmt>, o: seq<Stmt>, d: nat)
    ensures IfToks(If(t, b, [If(u, c, o)]), d)
         == IfToks(If(t, b, []), d) + ([Line(d), KwElif] + IfToks(If(u, c, o), d))
  {
    hide Toks, SuiteToks, StmtToks;
    var rest := [Line(d), KwElif] + IfToks(If(u, c, o), d);
    assert IfToks(If(t, b, []), d) == Toks(t, TEST) + SuiteToks(b, d) + [];
  }
}
