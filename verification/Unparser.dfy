/** The unparser itself: it appends to a text, keeps the precedence asked of each node in
    a dictionary, and tracks the indentation and the kind of `try`. Each method does what
    the script of its node says, whatever the dictionary holds, and raises when it does. */
module Unparsing {
  import opened Options
  import opened PyAst
  import opened Tokens
  import opened ExprText
  import opened PatternText
  import opened StmtText
  import opened Scripts
  import opened Visits

  class Unparser {
    var source: seq<Token>
    var precedences: Precedences
    var indent: nat
    var inTryStar: bool
    const limit: nat

    /** `limit` is the interpreter's limit on the digits of an integer's text, or 0. */
    constructor (limit: nat)
      ensures Now() == Moment([], map[], 0, false, limit)
    {
      this.limit := limit;
      source, precedences, indent, inTryStar := [], map[], 0, false;
    }

    function Now(): Moment
      reads this
    {
      Moment(source, precedences, indent, inTryStar, limit)
    }

    method SetPrecedence(p: Level, nodes: seq<nat>)
      modifies this`precedences
      ensures Now() == Tell(old(Now()), nodes, p)
    {
      var i := 0;
      while i < |nodes|
        invariant 0 <= i <= |nodes|
        invariant precedences == old(precedences) + Given(nodes[..i], p)
      {
        assert nodes[..i + 1] == nodes[..i] + [nodes[i]];
        precedences := precedences[nodes[i] := p];
        i := i + 1;
      }
      assert nodes[..i] == nodes;
    }

    method Write(ts: seq<Mark>)
      modifies this`source
      ensures Run(Now(), Returned) == Done(old(Now()), Put(ts))
    {
      source := source + ts;
    }

    /** The text of a constant; that of too long an integer cannot be made. */
    method WriteConstant(c: Const) returns (r: Outcome)
      modifies this`source
      ensures Run(Now(), r) == Done(old(Now()), Literal(c))
    {
      if TooLong(limit, c) { return Raised; }
      source := source + [Lit(c)];
      return Returned;
    }

    /** Starts a line at the current indentation. */
    method Fill(ts: seq<Mark>)
      modifies this`source
      ensures Now() == Append(old(Now()), [Line(old(indent))] + ts)
      ensures Run(Now(), Returned) == Done(old(Now()), NewLine(ts))
    {
      source := source + ([Line(indent)] + ts);
    }

    /** Opens a parenthesis if the node is asked for a higher precedence than it has. */
    method RequireParens(p: Level, id: nat) returns (parens: bool)
      modifies this`source
      ensures parens == (Find(old(precedences), id) > p)
      ensures Now() == Append(old(Now()), Left(parens))
    {
      parens := Find(precedences, id) > p;
      Open(parens);
    }

    method Open(parens: bool)
      modifies this`source
      ensures Now() == Append(old(Now()), Left(parens))
    {
      if parens { source := source + [LPar]; }
    }

    method Close(parens: bool)
      modifies this`source
      ensures Now() == Append(old(Now()), Right(parens))
    {
      if parens { source := source + [RPar]; }
    }

    /** A separator, where one is due. */
    method Separate(yes: bool, t: Mark)
      modifies this`source
      ensures Run(Now(), Returned) == Done(old(Now()), Sep(yes, t))
    {
      if yes { Write([t]); }
    }

    /* ----- expressions ----- */

    /** Visiting a node appends its text, in parentheses if the dictionary asks a higher
        precedence of it than it has, and asks precedences of the nodes inside it. */
    method Traverse(e: Expr) returns (r: Outcome)
      modifies this
      ensures Run(Now(), r) == Done(old(Now()), ExprScript(e))
      decreases e, 2
    {
      if e.Name? || e.Constant? { DoneAtom(Now(), e.id, BareScript(e)); }
      hide Done;
      match e
      case Name(_, n) => Write([Id(n)]); r := Returned;
      case Constant(_, c) => r := WriteConstant(c);
      case NamedExpr(_, _, _) => r := VisitNamedExpr(e);
      case IfExp(_, _, _, _) => r := VisitIfExp(e);
      case Lambda(_, _, _) => r := VisitLambda(e);
      case BoolOp(_, _, _) => r := VisitBoolOp(e);
      case UnaryOp(_, _, _) => r := VisitUnaryOp(e);
      case Compare(_, _, _, _) => r := VisitCompare(e);
      case BinOp(_, _, _, _) => r := VisitBinOp(e);
      case Await(_, _) => r := VisitAwait(e);
      case Yield(_, _) => r := VisitYield(e);
      case YieldFrom(_, _) => r := VisitYieldFrom(e);
      case Tuple(_, _) => r := VisitTuple(e);
      case List(_, _) => r := VisitList(e);
      case Attribute(_, _, _) => r := VisitAttribute(e);
      case Call(_, _, _, _) => r := VisitCall(e);
      case Subscript(_, _, _) => r := VisitSubscript(e);
      case Starred(_, _) => r := VisitStarred(e);
    }

    /** Asks a precedence of a node, and visits it. */
    method TraverseAt(p: Level, e: Expr) returns (r: Outcome)
      modifies this
      ensures Run(Now(), r) == Done(old(Now()), Asked(p, e))
      decreases e, 3
    {
      hide Done, ExprScript;
      DoneAsking(Now(), [e.id], p, ExprScript(e));
      SetPrecedence(p, [e.id]);
      r := Traverse(e);
    }

    method VisitNamedExpr(e: Expr) returns (r: Outcome)
      requires e.NamedExpr?
      modifies this
      ensures Run(Now(), r) == Done(old(Now()), ExprScript(e))
      decreases e, 1
    {
      var t, v := e.target, e.namedValue;
      ghost var d := Then(ExprScript(t), Then(Put([Walrus]), ExprScript(v)));
      assert BareScript(e) == Asking([t.id, v.id], ATOM, d);
      DoneNode(Now(), e.id, NAMED_EXPR, BareScript(e));
      hide Done, ExprScript, BareScript;
      var parens := RequireParens(NAMED_EXPR, e.id);
      DoneAsking(Now(), [t.id, v.id], ATOM, d);
      SetPrecedence(ATOM, [t.id, v.id]);
      DoneThen(Now(), ExprScript(t), Then(Put([Walrus]), ExprScript(v)));
      :- Traverse(t);
      DoneThen(Now(), Put([Walrus]), ExprScript(v));
      Write([Walrus]);
      :- Traverse(v);
      Close(parens);
      return Returned;
    }

    method VisitIfExp(e: Expr) returns (r: Outcome)
      requires e.IfExp?
      modifies this
      ensures Run(Now(), r) == Done(old(Now()), ExprScript(e))
      decreases e, 1
    {
      var b, t, o := e.body, e.test, e.orelse;
      ghost var head := Then(ExprScript(b), Then(Put([KwIf]), ExprScript(t)));
      ghost var tail := Then(Put([KwElse]), Asked(TEST, o));
      assert BareScript(e) == Then(Asking([b.id, t.id], Next(TEST), head), tail);
      DoneNode(Now(), e.id, TEST, BareScript(e));
      hide Done, ExprScript, BareScript, Asked;
      var parens := RequireParens(TEST, e.id);
      DoneThen(Now(), Asking([b.id, t.id], Next(TEST), head), tail);
      DoneAsking(Now(), [b.id, t.id], Next(TEST), head);
      SetPrecedence(Next(TEST), [b.id, t.id]);
      DoneThen(Now(), ExprScript(b), Then(Put([KwIf]), ExprScript(t)));
      :- Traverse(b);
      DoneThen(Now(), Put([KwIf]), ExprScript(t));
      Write([KwIf]);
      :- Traverse(t);
      DoneThen(Now(), Put([KwElse]), Asked(TEST, o));
      Write([KwElse]);
      :- TraverseAt(TEST, o);
      Close(parens);
      return Returned;
    }

    /** The parameters go to a buffer of their own first; an exception leaves it in place. */
    method VisitLambda(e: Expr) returns (r: Outcome)
      requires e.Lambda?
      modifies this
      ensures Run(Now(), r) == Done(old(Now()), ExprScript(e))
      decreases e, 1
    {
      var a, b := e.params, e.lambdaBody;
      ghost var params, tail := ParamScript(a), Then(Put([Colon]), Asked(TEST, b));
      assert BareScript(e) == Then(Put([KwLambda]), Then(Buffered(params), tail));
      DoneNode(Now(), e.id, TEST, BareScript(e));
      hide Done, ExprScript, BareScript, Asked, ParamScript;
      var parens := RequireParens(TEST, e.id);
      DoneThen(Now(), Put([KwLambda]), Then(Buffered(params), tail));
      Write([KwLambda]);
      DoneThen(Now(), Buffered(params), tail);
      :- BufferArguments(a);
      DoneThen(Now(), Put([Colon]), Asked(TEST, b));
      Write([Colon]);
      :- TraverseAt(TEST, b);
      Close(parens);
      return Returned;
    }

    method BufferArguments(a: Arguments) returns (r: Outcome)
      modifies this
      ensures Run(Now(), r) == Done(old(Now()), Buffered(ParamScript(a)))
      decreases a, 4
    {
      DoneBuffered(Now(), ParamScript(a));
      hide Done, ParamScript;
      var original := source;
      source := [];
      :- VisitArguments(a);
      var buffer := source;
      source := original;
      if buffer != [] { source := source + buffer; }
      assert source == original + buffer;
      return Returned;
    }

    method VisitArguments(a: Arguments) returns (r: Outcome)
      modifies this
      ensures Run(Now(), r) == Done(old(Now()), ParamScript(a))
      decreases a, 3
    {
      ghost var star, kws, kwarg := StarScript(a), KwOnlyScript(a.kwonly, 0), KwargScript(a);
      hide Done, PositionalScript, StarScript, KwOnlyScript, KwargScript;
      DoneThen(Now(), PositionalScript(a, 0), Then(star, Then(kws, kwarg)));
      var first: bool;
      r, first := VisitPositional(a);
      if r.Raised? { return; }
      DoneThen(Now(), star, Then(kws, kwarg));
      first := WriteStar(a, first);
      DoneThen(Now(), kws, kwarg);
      :- VisitKwOnly(a.kwonly);
      WriteKwarg(a, first);
      return Returned;
    }

    /** `*` and its name, or a bare `*` before keyword-only parameters. */
    method WriteStar(a: Arguments, none: bool) returns (first: bool)
      requires none == (Positional(a) == 0)
      modifies this`source
      ensures Run(Now(), Returned) == Done(old(Now()), StarScript(a))
      ensures first == (Positional(a) == 0 && a.vararg.None? && a.kwonly == [])
    {
      hide Sep;
      first := none;
      DoneNothing(Now());
      if a.vararg.Some? || a.kwonly != [] {
        ghost var name: seq<Mark> := [Op(Mult)] + (if a.vararg.Some? then [Id(a.vararg.value)] else []);
        DoneThen(Now(), Sep(!first, Comma), Put(name));
        hide Done;
        Separate(!first, Comma);
        first := false;
        Write([Op(Mult)] + (if a.vararg.Some? then [Id(a.vararg.value)] else []));
      }
    }

    method WriteKwarg(a: Arguments, first: bool)
      requires first == (Positional(a) == 0 && a.vararg.None? && a.kwonly == [])
      modifies this`source
      ensures Run(Now(), Returned) == Done(old(Now()), KwargScript(a))
    {
      hide Sep;
      DoneNothing(Now());
      if a.kwarg.Some? {
        DoneThen(Now(), Sep(!first, Comma), Put([Op(Pow), Id(a.kwarg.value)]));
        hide Done;
        Separate(!first, Comma);
        Write([Op(Pow), Id(a.kwarg.value)]);
      }
    }

    /** Positional parameters with their defaults; `first` tells if there was none. */
    method VisitPositional(a: Arguments) returns (r: Outcome, first: bool)
      modifies this
      ensures Run(Now(), r) == Done(old(Now()), PositionalScript(a, 0))
      ensures r.Returned? ==> first == (Positional(a) == 0)
      decreases a, 2
    {
      hide Done, ParameterScript, Sep;
      first := true;
      var i := 0;
      while i < |a.posonly + a.args|
        invariant 0 <= i <= Positional(a) && first == (i == 0)
        invariant Done(Now(), PositionalScript(a, i)) == Done(old(Now()), PositionalScript(a, 0))
      {
        DoneThen(Now(), Sep(i > 0, Comma), Then(ParameterScript(a, i), PositionalScript(a, i + 1)));
        Separate(!first, Comma);
        first := false;
        DoneThen(Now(), ParameterScript(a, i), PositionalScript(a, i + 1));
        r := VisitParameter(a, i);
        if r.Raised? { return; }
        i := i + 1;
      }
      DoneNothing(Now());
      r := Returned;
    }

    /** The i-th positional parameter; `/` follows the last positional-only one. */
    method VisitParameter(a: Arguments, i: nat) returns (r: Outcome)
      requires i < Positional(a)
      modifies this
      ensures Run(Now(), r) == Done(old(Now()), ParameterScript(a, i))
      decreases a, 1
    {
      var all, k := a.posonly + a.args, FirstDefault(a);
      ghost var name, default, slash :=
        Put([Id(all[i])]),
        (if i < k then Nothing else DefaultScript(a.defaults[i - k])),
        (if i + 1 == |a.posonly| then Put([Comma, Op(Div)]) else Nothing);
      hide Done, DefaultScript;
      DoneThen(Now(), name, Then(default, slash));
      Write([Id(all[i])]);
      DoneThen(Now(), default, slash);
      DoneNothing(Now());
      if k <= i { :- WriteDefault(a.defaults[i - k]); }
      DoneNothing(Now());
      if i + 1 == |a.posonly| { Write([Comma, Op(Div)]); }
      return Returned;
    }

    method WriteDefault(e: Expr) returns (r: Outcome)
      modifies this
      ensures Run(Now(), r) == Done(old(Now()), DefaultScript(e))
      decreases e, 4
    {
      hide Done, ExprScript;
      DoneThen(Now(), Put([Assign]), ExprScript(e));
      Write([Assign]);
      r := Traverse(e);
    }

    method VisitKwOnly(ks: seq<KwOnly>) returns (r: Outcome)
      modifies this
      ensures Run(Now(), r) == Done(old(Now()), KwOnlyScript(ks, 0))
      decreases ks, 0
    {
      hide Done, Clause;
      var i := 0;
      while i < |ks|
        invariant 0 <= i <= |ks|
        invariant Done(Now(), KwOnlyScript(ks, i)) == Done(old(Now()), KwOnlyScript(ks, 0))
      {
        ghost var d, rest := Clause(Assign, ks[i].default), KwOnlyScript(ks, i + 1);
        DoneThen(Now(), Put([Comma, Id(ks[i].name)]), Then(d, rest));
        Write([Comma, Id(ks[i].name)]);
        DoneThen(Now(), d, rest);
        :- WriteClause(Assign, ks[i].default);
        i := i + 1;
      }
      DoneNothing(Now());
      return Returned;
    }

    /** A token and an expression, if there is one. */
    method WriteClause(t: Mark, e: Option<Expr>) returns (r: Outcome)
      modifies this
      ensures Run(Now(), r) == Done(old(Now()), Clause(t, e))
      decreases e, 0
    {
      hide Done, ExprScript;
      DoneNothing(Now());
      if e.None? { return Returned; }
      DoneThen(Now(), Put([t]), ExprScript(e.value));
      Write([t]);
      r := Traverse(e.value);
    }

    /** An optional expression. */
    method WriteOpt(e: Option<Expr>) returns (r: Outcome)
      modifies this
      ensures Run(Now(), r) == Done(old(Now()), OptScript(e))
      decreases e, 0
    {
      hide Done, ExprScript;
      DoneNothing(Now());
      if e.None? { return Returned; }
      r := Traverse(e.value);
    }

    method VisitUnaryOp(e: Expr) returns (r: Outcome)
      requires e.UnaryOp?
      modifies this
      ensures Run(Now(), r) == Done(old(Now()), ExprScript(e))
      decreases e, 1
    {
      var p := UnPrec(e.unop);
      assert BareScript(e) == Then(Put([UnTok(e.unop)]), Asked(p, e.operand));
      DoneNode(Now(), e.id, p, BareScript(e));
      hide Done, ExprScript, BareScript, Asked;
      var parens := RequireParens(p, e.id);
      DoneThen(Now(), Put([UnTok(e.unop)]), Asked(p, e.operand));
      Write([UnTok(e.unop)]);
      :- TraverseAt(p, e.operand);
      Close(parens);
      return Returned;
    }

    method VisitBinOp(e: Expr) returns (r: Outcome)
      requires e.BinOp?
      modifies this
      ensures Run(Now(), r) == Done(old(Now()), ExprScript(e))
      decreases e, 1
    {
      var p := BinPrec(e.binop);
      var left := if e.binop.Pow? then Next(p) else p;
      var right := if e.binop.Pow? then p else Next(p);
      assert BareScript(e) == Then(Asked(left, e.lhs), Then(Put([Op(e.binop)]), Asked(right, e.rhs)));
      DoneNode(Now(), e.id, p, BareScript(e));
      hide Done, ExprScript, BareScript, Asked;
      var parens := RequireParens(p, e.id);
      DoneThen(Now(), Asked(left, e.lhs), Then(Put([Op(e.binop)]), Asked(right, e.rhs)));
      :- TraverseAt(left, e.lhs);
      DoneThen(Now(), Put([Op(e.binop)]), Asked(right, e.rhs));
      Write([Op(e.binop)]);
      :- TraverseAt(right, e.rhs);
      Close(parens);
      return Returned;
    }

    /** All operands are asked the level above comparisons before the first is visited. */
    method VisitCompare(e: Expr) returns (r: Outcome)
      requires e.Compare?
      modifies this
      ensures Run(Now(), r) == Done(old(Now()), ExprScript(e))
      decreases e, 1
    {
      var l, p := e.left, Next(CMP);
      var nodes := [l.id] + Heads(e.comparators);
      ghost var more := CompareScript(e.ops, e.comparators, 0);
      assert BareScript(e) == Asking(nodes, p, Then(ExprScript(l), more));
      DoneNode(Now(), e.id, CMP, BareScript(e));
      hide Done, ExprScript, BareScript, CompareScript;
      var parens := RequireParens(CMP, e.id);
      DoneAsking(Now(), nodes, p, Then(ExprScript(l), more));
      SetPrecedence(p, nodes);
      DoneThen(Now(), ExprScript(l), more);
      :- Traverse(l);
      :- WriteComparisons(e.ops, e.comparators);
      Close(parens);
      return Returned;
    }

    method WriteComparisons(ops: seq<CmpOp>, cs: seq<Expr>) returns (r: Outcome)
      modifies this
      ensures Run(Now(), r) == Done(old(Now()), CompareScript(ops, cs, 0))
      decreases cs, 0
    {
      hide Done, ExprScript;
      var i := 0;
      while i < |ops| && i < |cs|
        invariant 0 <= i <= |ops| && i <= |cs|
        invariant Done(Now(), CompareScript(ops, cs, i)) == Done(old(Now()), CompareScript(ops, cs, 0))
      {
        DoneThen(Now(), Put(CmpToks(ops[i])), Then(ExprScript(cs[i]), CompareScript(ops, cs, i + 1)));
        Write(CmpToks(ops[i]));
        DoneThen(Now(), ExprScript(cs[i]), CompareScript(ops, cs, i + 1));
        :- Traverse(cs[i]);
        i := i + 1;
      }
      DoneNothing(Now());
      return Returned;
    }

    /** Each operand is asked a higher level than the one before. */
    method VisitBoolOp(e: Expr) returns (r: Outcome)
      requires e.BoolOp?
      modifies this
      ensures Run(Now(), r) == Done(old(Now()), ExprScript(e))
      decreases e, 1
    {
      var p := BoolPrec(e.boolop);
      assert BareScript(e) == BoolScript(e.boolop, e.values, 0, p);
      DoneNode(Now(), e.id, p, BareScript(e));
      hide Done, ExprScript, BareScript, BoolScript;
      var parens := RequireParens(p, e.id);
      :- WriteOperands(e.boolop, e.values);
      Close(parens);
      return Returned;
    }

    method WriteOperands(k: BoolKind, vs: seq<Expr>) returns (r: Outcome)
      modifies this
      ensures Run(Now(), r) == Done(old(Now()), BoolScript(k, vs, 0, BoolPrec(k)))
      decreases vs, 0
    {
      hide Done, Asked, Sep;
      var p: Level := BoolPrec(k);
      var i := 0;
      while i < |vs|
        invariant 0 <= i <= |vs|
        invariant Done(Now(), BoolScript(k, vs, i, p)) == Done(old(Now()), BoolScript(k, vs, 0, BoolPrec(k)))
      {
        ghost var rest := BoolScript(k, vs, i + 1, Next(p));
        DoneThen(Now(), Sep(i > 0, BoolTok(k)), Then(Asked(Next(p), vs[i]), rest));
        Separate(i > 0, BoolTok(k));
        p := Next(p);
        DoneThen(Now(), Asked(p, vs[i]), rest);
        :- TraverseAt(p, vs[i]);
        i := i + 1;
      }
      DoneNothing(Now());
      return Returned;
    }

    method VisitAwait(e: Expr) returns (r: Outcome)
      requires e.Await?
      modifies this
      ensures Run(Now(), r) == Done(old(Now()), ExprScript(e))
      decreases e, 1
    {
      assert BareScript(e) == Then(Put([KwAwait]), Asked(ATOM, e.awaited));
      DoneNode(Now(), e.id, AWAIT, BareScript(e));
      hide Done, ExprScript, BareScript, Asked;
      var parens := RequireParens(AWAIT, e.id);
      DoneThen(Now(), Put([KwAwait]), Asked(ATOM, e.awaited));
      Write([KwAwait]);
      :- TraverseAt(ATOM, e.awaited);
      Close(parens);
      return Returned;
    }

    method VisitYield(e: Expr) returns (r: Outcome)
      requires e.Yield?
      modifies this
      ensures Run(Now(), r) == Done(old(Now()), ExprScript(e))
      decreases e, 1
    {
      DoneNode(Now(), e.id, YIELD, BareScript(e));
      hide Done, ExprScript, Asked;
      var parens := RequireParens(YIELD, e.id);
      if e.yielded.Some? {
        DoneThen(Now(), Put([KwYield]), Asked(ATOM, e.yielded.value));
      }
      Write([KwYield]);
      if e.yielded.Some? { :- TraverseAt(ATOM, e.yielded.value); }
      Close(parens);
      return Returned;
    }

    method VisitYieldFrom(e: Expr) returns (r: Outcome)
      requires e.YieldFrom?
      modifies this
      ensures Run(Now(), r) == Done(old(Now()), ExprScript(e))
      decreases e, 1
    {
      assert BareScript(e) == Then(Put([KwYield, KwFrom]), Asked(ATOM, e.source));
      DoneNode(Now(), e.id, YIELD, BareScript(e));
      hide Done, ExprScript, BareScript, Asked;
      var parens := RequireParens(YIELD, e.id);
      DoneThen(Now(), Put([KwYield, KwFrom]), Asked(ATOM, e.source));
      Write([KwYield, KwFrom]);
      :- TraverseAt(ATOM, e.source);
      Close(parens);
      return Returned;
    }

    method VisitTuple(e: Expr) returns (r: Outcome)
      requires e.Tuple?
      modifies this
      ensures Run(Now(), r) == Done(old(Now()), ExprScript(e))
      decreases e, 1
    {
      var parens := |e.elts| == 0 || Find(precedences, e.id) > TUPLE;
      TupleDone(Now(), e, parens);
      hide Done, ExprScript, ItemScript;
      Open(parens);
      :- ItemsView(e.elts);
      Close(parens);
      return Returned;
    }

    method VisitList(e: Expr) returns (r: Outcome)
      requires e.List?
      modifies this
      ensures Run(Now(), r) == Done(old(Now()), ExprScript(e))
      decreases e, 1
    {
      assert BareScript(e) == Then(Put([LBrk]), Then(JoinScript(e.elts, 0), Put([RBrk])));
      DoneAtom(Now(), e.id, BareScript(e));
      hide Done, ExprScript, BareScript, Asked, JoinScript;
      DoneThen(Now(), Put([LBrk]), Then(JoinScript(e.elts, 0), Put([RBrk])));
      Write([LBrk]);
      DoneThen(Now(), JoinScript(e.elts, 0), Put([RBrk]));
      :- Interleave(e.elts);
      Write([RBrk]);
      return Returned;
    }

    method VisitAttribute(e: Expr) returns (r: Outcome)
      requires e.Attribute?
      modifies this
      ensures Run(Now(), r) == Done(old(Now()), ExprScript(e))
      decreases e, 1
    {
      assert BareScript(e) == Then(Asked(ATOM, e.base), Then(Put([Dot]), Put([Id(e.attr)])));
      DoneAtom(Now(), e.id, BareScript(e));
      hide Done, ExprScript, BareScript, Asked;
      DoneThen(Now(), Asked(ATOM, e.base), Then(Put([Dot]), Put([Id(e.attr)])));
      :- TraverseAt(ATOM, e.base);
      DoneThen(Now(), Put([Dot]), Put([Id(e.attr)]));
      Write([Dot]);
      Write([Id(e.attr)]);
      return Returned;
    }

    method VisitCall(e: Expr) returns (r: Outcome)
      requires e.Call?
      modifies this
      ensures Run(Now(), r) == Done(old(Now()), ExprScript(e))
      decreases e, 1
    {
      ghost var args := Then(JoinScript(e.args, 0), KeywordScript(e.keywords, 0, e.args != []));
      assert BareScript(e) == Then(Asked(ATOM, e.func), Parens(args));
      DoneAtom(Now(), e.id, BareScript(e));
      hide Done, ExprScript, BareScript, Asked, JoinScript, KeywordScript;
      DoneThen(Now(), Asked(ATOM, e.func), Parens(args));
      :- TraverseAt(ATOM, e.func);
      DoneParens(Now(), args);
      Open(true);
      DoneThen(Now(), JoinScript(e.args, 0), KeywordScript(e.keywords, 0, e.args != []));
      var comma: bool;
      r, comma := WriteArgs(e.args);
      if r.Raised? { return; }
      :- WriteKeywords(e.keywords, comma);
      Close(true);
      return Returned;
    }

    /** The positional arguments; `comma` tells if there was any. */
    method WriteArgs(es: seq<Expr>) returns (r: Outcome, comma: bool)
      modifies this
      ensures Run(Now(), r) == Done(old(Now()), JoinScript(es, 0))
      ensures r.Returned? ==> comma == (es != [])
      decreases es, 0
    {
      hide Done, ExprScript, Sep;
      comma := false;
      var i := 0;
      while i < |es|
        invariant 0 <= i <= |es| && comma == (i > 0)
        invariant Done(Now(), JoinScript(es, i)) == Done(old(Now()), JoinScript(es, 0))
      {
        DoneThen(Now(), Sep(i > 0, Comma), Then(ExprScript(es[i]), JoinScript(es, i + 1)));
        Separate(comma, Comma);
        comma := true;
        DoneThen(Now(), ExprScript(es[i]), JoinScript(es, i + 1));
        r := Traverse(es[i]);
        if r.Raised? { return; }
        i := i + 1;
      }
      DoneNothing(Now());
      r := Returned;
    }

    method WriteKeywords(ks: seq<Keyword>, comma0: bool) returns (r: Outcome)
      modifies this
      ensures Run(Now(), r) == Done(old(Now()), KeywordScript(ks, 0, comma0))
      decreases ks, 0
    {
      hide Done, KeywordOne, Sep;
      var comma := comma0;
      var i := 0;
      while i < |ks|
        invariant 0 <= i <= |ks|
        invariant Done(Now(), KeywordScript(ks, i, comma)) == Done(old(Now()), KeywordScript(ks, 0, comma0))
      {
        ghost var rest := KeywordScript(ks, i + 1, true);
        DoneThen(Now(), Sep(comma, Comma), Then(KeywordOne(ks[i]), rest));
        Separate(comma, Comma);
        comma := true;
        DoneThen(Now(), KeywordOne(ks[i]), rest);
        :- VisitKeyword(ks[i]);
        i := i + 1;
      }
      DoneNothing(Now());
      return Returned;
    }

    method VisitKeyword(k: Keyword) returns (r: Outcome)
      modifies this
      ensures Run(Now(), r) == Done(old(Now()), KeywordOne(k))
      decreases k, 0
    {
      hide Done, ExprScript;
      var head: seq<Mark> := if k.arg.None? then [Op(Pow)] else [Id(k.arg.value), Assign];
      DoneThen(Now(), Put(head), ExprScript(k.value));
      Write(head);
      r := Traverse(k.value);
    }

    method VisitSubscript(e: Expr) returns (r: Outcome)
      requires e.Subscript?
      modifies this
      ensures Run(Now(), r) == Done(old(Now()), ExprScript(e))
      decreases e, 1
    {
      assert BareScript(e) == Then(Asked(ATOM, e.container),
          Then(Put([LBrk]), Then(SliceScript(e.slice), Put([RBrk]))));
      DoneAtom(Now(), e.id, BareScript(e));
      hide Done, ExprScript, BareScript, Asked, SliceScript;
      DoneThen(Now(), Asked(ATOM, e.container), Then(Put([LBrk]), Then(SliceScript(e.slice), Put([RBrk]))));
      :- TraverseAt(ATOM, e.container);
      DoneThen(Now(), Put([LBrk]), Then(SliceScript(e.slice), Put([RBrk])));
      Write([LBrk]);
      DoneThen(Now(), SliceScript(e.slice), Put([RBrk]));
      :- WriteSlice(e.slice);
      Write([RBrk]);
      return Returned;
    }

    /** A non-empty tuple needs no parentheses between brackets. */
    method WriteSlice(s: Expr) returns (r: Outcome)
      modifies this
      ensures Run(Now(), r) == Done(old(Now()), SliceScript(s))
      decreases s, 4
    {
      hide Done, ExprScript, ItemScript;
      if s.Tuple? && s.elts != [] {
        r := ItemsView(s.elts);
      } else {
        r := Traverse(s);
      }
    }

    method VisitStarred(e: Expr) returns (r: Outcome)
      requires e.Starred?
      modifies this
      ensures Run(Now(), r) == Done(old(Now()), ExprScript(e))
      decreases e, 1
    {
      assert BareScript(e) == Then(Put([Op(Mult)]), Asked(BOR, e.starred));
      DoneAtom(Now(), e.id, BareScript(e));
      hide Done, ExprScript, BareScript, Asked;
      DoneThen(Now(), Put([Op(Mult)]), Asked(BOR, e.starred));
      Write([Op(Mult)]);
      :- TraverseAt(BOR, e.starred);
      return Returned;
    }

    /** Nodes separated by commas. */
    method Interleave(es: seq<Expr>) returns (r: Outcome)
      modifies this
      ensures Run(Now(), r) == Done(old(Now()), JoinScript(es, 0))
      decreases es, 1
    {
      hide Done, JoinScript;
      var comma: bool;
      r, comma := WriteArgs(es);
    }

    /** The same, with a comma after a single node. */
    method ItemsView(es: seq<Expr>) returns (r: Outcome)
      modifies this
      ensures Run(Now(), r) == Done(old(Now()), ItemScript(es))
      decreases es, 2
    {
      hide Done, ExprScript, JoinScript;
      if |es| == 1 {
        DoneThen(Now(), ExprScript(es[0]), Put([Comma]));
        :- Traverse(es[0]);
        Write([Comma]);
        r := Returned;
      } else {
        r := Interleave(es);
      }
    }

    /* ----- patterns ----- */

    method TraversePattern(p: Pattern) returns (r: Outcome)
      modifies this
      ensures Run(Now(), r) == Done(old(Now()), PatternScript(p))
      decreases p, 2
    {
      assert PatternScript(p) == Node(p.id, PatternLv(p), BarePatternScript(p));
      if PatternLv(p) == ATOM { DoneAtom(Now(), p.id, BarePatternScript(p)); }
      hide Done, ExprScript, PatternScript;
      match p
      case MatchValue(_, v) => r := Traverse(v);
      case MatchSingleton(_, c) => r := WriteConstant(c);
      case MatchSequence(_, _) => r := VisitMatchSequence(p);
      case MatchStar(_, n) => Write([Op(Mult), Id(OrWildcard(n))]); r := Returned;
      case MatchMapping(_, _, _) => r := VisitMatchMapping(p);
      case MatchClass(_, _, _, _) => r := VisitMatchClass(p);
      case MatchAs(_, _, _) => r := VisitMatchAs(p);
      case MatchOr(_, _) => r := VisitMatchOr(p);
    }

    method PatternAt(l: Level, p: Pattern) returns (r: Outcome)
      modifies this
      ensures Run(Now(), r) == Done(old(Now()), Asking([p.id], l, PatternScript(p)))
      decreases p, 3
    {
      hide Done, PatternScript;
      DoneAsking(Now(), [p.id], l, PatternScript(p));
      SetPrecedence(l, [p.id]);
      r := TraversePattern(p);
    }

    method VisitMatchSequence(p: Pattern) returns (r: Outcome)
      requires p.MatchSequence?
      modifies this
      ensures Run(Now(), r) == Done(old(Now()), PatternScript(p))
      decreases p, 1
    {
      assert BarePatternScript(p) == Then(Put([LBrk]), Then(PatternJoinScript(p.elts, 0), Put([RBrk])));
      DoneAtom(Now(), p.id, BarePatternScript(p));
      hide Done, PatternScript, BarePatternScript, PatternJoinScript;
      DoneThen(Now(), Put([LBrk]), Then(PatternJoinScript(p.elts, 0), Put([RBrk])));
      Write([LBrk]);
      DoneThen(Now(), PatternJoinScript(p.elts, 0), Put([RBrk]));
      :- InterleavePatterns(p.elts);
      Write([RBrk]);
      return Returned;
    }

    method InterleavePatterns(ps: seq<Pattern>) returns (r: Outcome)
      modifies this
      ensures Run(Now(), r) == Done(old(Now()), PatternJoinScript(ps, 0))
      decreases ps, 0
    {
      hide Done, PatternScript, Sep;
      var i := 0;
      while i < |ps|
        invariant 0 <= i <= |ps|
        invariant Done(Now(), PatternJoinScript(ps, i)) == Done(old(Now()), PatternJoinScript(ps, 0))
      {
        ghost var rest := PatternJoinScript(ps, i + 1);
        DoneThen(Now(), Sep(i > 0, Comma), Then(PatternScript(ps[i]), rest));
        Separate(i > 0, Comma);
        DoneThen(Now(), PatternScript(ps[i]), rest);
        :- TraversePattern(ps[i]);
        i := i + 1;
      }
      DoneNothing(Now());
      return Returned;
    }

    method VisitMatchMapping(p: Pattern) returns (r: Outcome)
      requires p.MatchMapping?
      modifies this
      ensures Run(Now(), r) == Done(old(Now()), PatternScript(p))
      decreases p, 1
    {
      ghost var entries, rest := EntryScript(p.entries, 0), RestScript(p.entries != [], p.rest);
      assert BarePatternScript(p) == Then(Put([LBrace]), Then(entries, Then(rest, Put([RBrace]))));
      DoneAtom(Now(), p.id, BarePatternScript(p));
      hide Done, PatternScript, BarePatternScript, EntryScript, RestScript;
      DoneThen(Now(), Put([LBrace]), Then(entries, Then(rest, Put([RBrace]))));
      Write([LBrace]);
      DoneThen(Now(), entries, Then(rest, Put([RBrace])));
      :- WriteEntries(p.entries);
      DoneThen(Now(), rest, Put([RBrace]));
      WriteRest(p.entries != [], p.rest);
      Write([RBrace]);
      return Returned;
    }

    method WriteRest(comma: bool, rest: Option<string>)
      modifies this`source
      ensures Run(Now(), Returned) == Done(old(Now()), RestScript(comma, rest))
    {
      DoneNothing(Now());
      if rest.Some? {
        DoneThen(Now(), Sep(comma, Comma), Put([Op(Pow), Id(rest.value)]));
        hide Done, Sep;
        Separate(comma, Comma);
        Write([Op(Pow), Id(rest.value)]);
      }
    }

    method WriteEntries(es: seq<Entry>) returns (r: Outcome)
      modifies this
      ensures Run(Now(), r) == Done(old(Now()), EntryScript(es, 0))
      decreases es, 0
    {
      hide Done, EntryOne, Sep;
      var i := 0;
      while i < |es|
        invariant 0 <= i <= |es|
        invariant Done(Now(), EntryScript(es, i)) == Done(old(Now()), EntryScript(es, 0))
      {
        DoneThen(Now(), Sep(i > 0, Comma), Then(EntryOne(es[i]), EntryScript(es, i + 1)));
        Separate(i > 0, Comma);
        DoneThen(Now(), EntryOne(es[i]), EntryScript(es, i + 1));
        :- WriteEntry(es[i]);
        i := i + 1;
      }
      DoneNothing(Now());
      return Returned;
    }

    method WriteEntry(e: Entry) returns (r: Outcome)
      modifies this
      ensures Run(Now(), r) == Done(old(Now()), EntryOne(e))
      decreases e, 0
    {
      hide Done, ExprScript, PatternScript;
      DoneThen(Now(), Key(ExprScript(e.key)), Then(Put([Colon]), PatternScript(e.pattern)));
      DoneKey(Now(), ExprScript(e.key));
      :- Traverse(e.key);
      DoneThen(Now(), Put([Colon]), PatternScript(e.pattern));
      Write([Colon]);
      r := TraversePattern(e.pattern);
    }

    method VisitMatchClass(p: Pattern) returns (r: Outcome)
      requires p.MatchClass?
      modifies this
      ensures Run(Now(), r) == Done(old(Now()), PatternScript(p))
      decreases p, 1
    {
      var comma := p.attrs != [] && p.positional != [];
      ghost var ps, sep, attrs := PatternJoinScript(p.positional, 0), Sep(comma, Comma), AttrScript(p.attrs, 0);
      ghost var args := Then(ps, Then(sep, attrs));
      assert BarePatternScript(p) == Then(Asked(ATOM, p.cls), Parens(args));
      DoneAtom(Now(), p.id, BarePatternScript(p));
      hide Done, PatternScript, BarePatternScript, Asked, PatternJoinScript, AttrScript, Sep;
      DoneThen(Now(), Asked(ATOM, p.cls), Parens(args));
      :- TraverseAt(ATOM, p.cls);
      DoneParens(Now(), args);
      Open(true);
      DoneThen(Now(), ps, Then(sep, attrs));
      :- InterleavePatterns(p.positional);
      DoneThen(Now(), sep, attrs);
      Separate(comma, Comma);
      :- WriteAttrs(p.attrs);
      Close(true);
      return Returned;
    }

    method WriteAttrs(as': seq<AttrPattern>) returns (r: Outcome)
      modifies this
      ensures Run(Now(), r) == Done(old(Now()), AttrScript(as', 0))
      decreases as', 0
    {
      hide Done, AttrOne, Sep;
      var i := 0;
      while i < |as'|
        invariant 0 <= i <= |as'|
        invariant Done(Now(), AttrScript(as', i)) == Done(old(Now()), AttrScript(as', 0))
      {
        DoneThen(Now(), Sep(i > 0, Comma), Then(AttrOne(as'[i]), AttrScript(as', i + 1)));
        Separate(i > 0, Comma);
        DoneThen(Now(), AttrOne(as'[i]), AttrScript(as', i + 1));
        :- WriteAttr(as'[i]);
        i := i + 1;
      }
      DoneNothing(Now());
      return Returned;
    }

    method WriteAttr(a: AttrPattern) returns (r: Outcome)
      modifies this
      ensures Run(Now(), r) == Done(old(Now()), AttrOne(a))
      decreases a, 0
    {
      hide Done, PatternScript;
      DoneThen(Now(), Put([Id(a.attr), Assign]), PatternScript(a.pattern));
      Write([Id(a.attr), Assign]);
      r := TraversePattern(a.pattern);
    }

    method VisitMatchAs(p: Pattern) returns (r: Outcome)
      requires p.MatchAs?
      modifies this
      ensures Run(Now(), r) == Done(old(Now()), PatternScript(p))
      decreases p, 1
    {
      if p.name.None? {
        DoneAtom(Now(), p.id, BarePatternScript(p));
        hide Done;
        Write([Id(WILDCARD)]);
      } else if p.pattern.None? {
        DoneAtom(Now(), p.id, BarePatternScript(p));
        hide Done;
        Write([Id(p.name.value)]);
      } else {
        var q := p.pattern.value;
        ghost var inner := Asking([q.id], BOR, PatternScript(q));
        DoneNode(Now(), p.id, TEST, BarePatternScript(p));
        hide Done, PatternScript;
        var parens := RequireParens(TEST, p.id);
        DoneThen(Now(), inner, Put([KwAs, Id(p.name.value)]));
        :- PatternAt(BOR, q);
        Write([KwAs, Id(p.name.value)]);
        Close(parens);
      }
      return Returned;
    }

    /** All alternatives are asked the level above `|` before the first is visited. */
    method VisitMatchOr(p: Pattern) returns (r: Outcome)
      requires p.MatchOr?
      modifies this
      ensures Run(Now(), r) == Done(old(Now()), PatternScript(p))
      decreases p, 1
    {
      var ps := p.alternatives;
      DoneNode(Now(), p.id, BOR, BarePatternScript(p));
      hide Done, PatternScript, AlternativeScript;
      var parens := RequireParens(BOR, p.id);
      DoneAsking(Now(), PatternHeads(ps), Next(BOR), AlternativeScript(ps, 0));
      SetPrecedence(Next(BOR), PatternHeads(ps));
      :- WriteAlternatives(ps);
      Close(parens);
      return Returned;
    }

    method WriteAlternatives(ps: seq<Pattern>) returns (r: Outcome)
      modifies this
      ensures Run(Now(), r) == Done(old(Now()), AlternativeScript(ps, 0))
      decreases ps, 0
    {
      hide Done, PatternScript, Sep;
      var i := 0;
      while i < |ps|
        invariant 0 <= i <= |ps|
        invariant Done(Now(), AlternativeScript(ps, i)) == Done(old(Now()), AlternativeScript(ps, 0))
      {
        ghost var rest := AlternativeScript(ps, i + 1);
        DoneThen(Now(), Sep(i > 0, Op(BitOr)), Then(PatternScript(ps[i]), rest));
        Separate(i > 0, Op(BitOr));
        DoneThen(Now(), PatternScript(ps[i]), rest);
        :- TraversePattern(ps[i]);
        i := i + 1;
      }
      DoneNothing(Now());
      return Returned;
    }

    /* ----- statements ----- */

    /** Visiting a statement appends its lines at the current indentation. */
    method TraverseStmt(s: Stmt) returns (r: Outcome)
      modifies this
      ensures Run(Now(), r) == Done(old(Now()), StmtScript(s))
      decreases s, 3
    {
      hide Done, ExprScript, Asked, TargetScript, OptScript, CauseScript, ConditionScript, ElifScript, TryScript;
      r := Returned;
      match s
      case ExprStmt(_) => r := VisitExprStmt(s);
      case AssignStmt(_, _) => r := VisitAssign(s);
      case AugAssign(_, _, _) => r := VisitAugAssign(s);
      case Return(_) => r := VisitReturn(s);
      case Raise(_, _) => r := VisitRaise(s);
      case Pass => Fill([KwPass]);
      case Break => Fill([KwBreak]);
      case Continue => Fill([KwContinue]);
      case If(_, _, _) => r := VisitIf(s);
      case While(_, _, _) => r := VisitWhile(s);
      case For(_, _, _, _) => r := VisitFor(s);
      case With(_, _) => r := VisitWith(s);
      case Try(_, _, _, _, _) => r := VisitTry(s);
      case Match(_, _) => r := VisitMatch(s);
    }

    method TraverseBody(b: seq<Stmt>) returns (r: Outcome)
      modifies this
      ensures Run(Now(), r) == Done(old(Now()), BodyScript(b, 0))
      decreases b, 0
    {
      hide Done, StmtScript;
      var i := 0;
      while i < |b|
        invariant 0 <= i <= |b|
        invariant Done(Now(), BodyScript(b, i)) == Done(old(Now()), BodyScript(b, 0))
      {
        DoneThen(Now(), StmtScript(b[i]), BodyScript(b, i + 1));
        :- TraverseStmt(b[i]);
        i := i + 1;
      }
      DoneNothing(Now());
      return Returned;
    }

    /** A colon, and the statements one level deeper. An exception leaves the level. */
    method Block(b: seq<Stmt>) returns (r: Outcome)
      modifies this
      ensures Run(Now(), r) == Done(old(Now()), BlockScript(b))
      decreases b, 1
    {
      ghost var body := BodyScript(b, 0);
      hide Done, BodyScript;
      DoneThen(Now(), Put([Colon]), Indented(body));
      Write([Colon]);
      DoneIndented(Now(), body);
      indent := indent + 1;
      DoneIs(Now(), body);
      :- TraverseBody(b);
      indent := indent - 1;
      return Returned;
    }

    /** `else` or `finally` and its statements, unless there are none. */
    method WritePart(head: Mark, b: seq<Stmt>) returns (r: Outcome)
      modifies this
      ensures Run(Now(), r) == Done(old(Now()), PartScript(head, b))
      decreases b, 2
    {
      hide Done, BlockScript;
      DoneNothing(Now());
      if b == [] { return Returned; }
      DoneThen(Now(), NewLine([head]), BlockScript(b));
      Fill([head]);
      r := Block(b);
    }

    method VisitExprStmt(s: Stmt) returns (r: Outcome)
      requires s.ExprStmt?
      modifies this
      ensures Run(Now(), r) == Done(old(Now()), StmtScript(s))
      decreases s, 1
    {
      hide Done, Asked;
      DoneThen(Now(), NewLine([]), Asked(YIELD, s.value));
      Fill([]);
      r := TraverseAt(YIELD, s.value);
    }

    method VisitAssign(s: Stmt) returns (r: Outcome)
      requires s.AssignStmt?
      modifies this
      ensures Run(Now(), r) == Done(old(Now()), StmtScript(s))
      decreases s, 1
    {
      hide Done, ExprScript, TargetScript;
      DoneThen(Now(), NewLine([]), Then(TargetScript(s.targets, 0), ExprScript(s.value)));
      Fill([]);
      DoneThen(Now(), TargetScript(s.targets, 0), ExprScript(s.value));
      :- WriteTargets(s.targets);
      r := Traverse(s.value);
    }

    method WriteTargets(ts: seq<Expr>) returns (r: Outcome)
      modifies this
      ensures Run(Now(), r) == Done(old(Now()), TargetScript(ts, 0))
      decreases ts, 0
    {
      hide Done, Asked;
      var i := 0;
      while i < |ts|
        invariant 0 <= i <= |ts|
        invariant Done(Now(), TargetScript(ts, i)) == Done(old(Now()), TargetScript(ts, 0))
      {
        DoneThen(Now(), Asked(TUPLE, ts[i]), Then(Put([Assign]), TargetScript(ts, i + 1)));
        :- TraverseAt(TUPLE, ts[i]);
        DoneThen(Now(), Put([Assign]), TargetScript(ts, i + 1));
        Write([Assign]);
        i := i + 1;
      }
      DoneNothing(Now());
      return Returned;
    }

    method VisitAugAssign(s: Stmt) returns (r: Outcome)
      requires s.AugAssign?
      modifies this
      ensures Run(Now(), r) == Done(old(Now()), StmtScript(s))
      decreases s, 1
    {
      hide Done, ExprScript;
      DoneThen(Now(), NewLine([]), Then(ExprScript(s.target), Then(Put([Aug(s.op)]), ExprScript(s.value))));
      Fill([]);
      DoneThen(Now(), ExprScript(s.target), Then(Put([Aug(s.op)]), ExprScript(s.value)));
      :- Traverse(s.target);
      DoneThen(Now(), Put([Aug(s.op)]), ExprScript(s.value));
      Write([Aug(s.op)]);
      r := Traverse(s.value);
    }

    method VisitReturn(s: Stmt) returns (r: Outcome)
      requires s.Return?
      modifies this
      ensures Run(Now(), r) == Done(old(Now()), StmtScript(s))
      decreases s, 1
    {
      hide Done, OptScript;
      DoneThen(Now(), NewLine([KwReturn]), OptScript(s.result));
      Fill([KwReturn]);
      r := WriteOpt(s.result);
    }

    /** A cause without an exception is refused. */
    method VisitRaise(s: Stmt) returns (r: Outcome)
      requires s.Raise?
      modifies this
      ensures Run(Now(), r) == Done(old(Now()), StmtScript(s))
      decreases s, 1
    {
      DoneThen(Now(), NewLine([KwRaise]), CauseScript(s.exc, s.cause));
      assert Done(old(Now()), StmtScript(s)) == After(Done(old(Now()), NewLine([KwRaise])),
          CauseScript(s.exc, s.cause));
      hide StmtScript, ExprScript, Clause;
      Fill([KwRaise]);
      if s.exc.None? {
        return if s.cause.Some? then Raised else Returned;
      }
      hide Done;
      DoneThen(Now(), ExprScript(s.exc.value), Clause(KwFrom, s.cause));
      :- Traverse(s.exc.value);
      r := WriteClause(KwFrom, s.cause);
    }

    /** An `else` that holds only another conditional is collapsed into `elif`. */
    method VisitIf(s: Stmt) returns (r: Outcome)
      requires s.If?
      modifies this
      ensures Run(Now(), r) == Done(old(Now()), StmtScript(s))
      decreases s, 2
    {
      hide Done, ConditionScript, PartScript;
      DoneThen(Now(), ConditionScript(KwIf, s), ElifScript(s));
      :- Condition(KwIf, s);
      var node := s;
      while |node.orelse| == 1 && node.orelse[0].If?
        invariant node.If? && (node == s || node < s)
        invariant Done(Now(), ElifScript(node)) == Done(old(Now()), StmtScript(s))
        decreases node
      {
        DoneThen(Now(), ConditionScript(KwElif, node.orelse[0]), ElifScript(node.orelse[0]));
        node := node.orelse[0];
        :- Condition(KwElif, node);
      }
      r := WritePart(KwElse, node.orelse);
    }

    /** `if` or `elif`, the condition and its suite. */
    method Condition(head: Mark, s: Stmt) returns (r: Outcome)
      requires s.If?
      modifies this
      ensures Run(Now(), r) == Done(old(Now()), ConditionScript(head, s))
      decreases s, 0
    {
      hide Done, ExprScript, BlockScript;
      DoneThen(Now(), NewLine([head]), Then(ExprScript(s.test), BlockScript(s.body)));
      Fill([head]);
      DoneThen(Now(), ExprScript(s.test), BlockScript(s.body));
      :- Traverse(s.test);
      r := Block(s.body);
    }

    method VisitWhile(s: Stmt) returns (r: Outcome)
      requires s.While?
      modifies this
      ensures Run(Now(), r) == Done(old(Now()), StmtScript(s))
      decreases s, 1
    {
      hide Done, ExprScript, Asked, BlockScript, PartScript;
      DoneThen(Now(), NewLine([KwWhile]), Then(ExprScript(s.test),
          Then(BlockScript(s.body), PartScript(KwElse, s.orelse))));
      Fill([KwWhile]);
      DoneThen(Now(), ExprScript(s.test), Then(BlockScript(s.body), PartScript(KwElse, s.orelse)));
      :- Traverse(s.test);
      DoneThen(Now(), BlockScript(s.body), PartScript(KwElse, s.orelse));
      :- Block(s.body);
      r := WritePart(KwElse, s.orelse);
    }

    method VisitFor(s: Stmt) returns (r: Outcome)
      requires s.For?
      modifies this
      ensures Run(Now(), r) == Done(old(Now()), StmtScript(s))
      decreases s, 1
    {
      ghost var target, iter := Asked(TUPLE, s.target), ExprScript(s.iter);
      ghost var body, part := BlockScript(s.body), PartScript(KwElse, s.orelse);
      hide Done, ExprScript, Asked, BlockScript, PartScript;
      DoneThen(Now(), NewLine([KwFor]), Then(target, Then(Put([KwIn]), Then(iter, Then(body, part)))));
      Fill([KwFor]);
      DoneThen(Now(), target, Then(Put([KwIn]), Then(iter, Then(body, part))));
      :- TraverseAt(TUPLE, s.target);
      DoneThen(Now(), Put([KwIn]), Then(iter, Then(body, part)));
      Write([KwIn]);
      DoneThen(Now(), iter, Then(body, part));
      :- Traverse(s.iter);
      DoneThen(Now(), body, part);
      :- Block(s.body);
      r := WritePart(KwElse, s.orelse);
    }

    method VisitWith(s: Stmt) returns (r: Outcome)
      requires s.With?
      modifies this
      ensures Run(Now(), r) == Done(old(Now()), StmtScript(s))
      decreases s, 1
    {
      hide Done, WithScript, BlockScript;
      DoneThen(Now(), NewLine([KwWith]), Then(WithScript(s.items, 0), BlockScript(s.body)));
      Fill([KwWith]);
      DoneThen(Now(), WithScript(s.items, 0), BlockScript(s.body));
      :- WriteItems(s.items);
      r := Block(s.body);
    }

    method WriteItems(items: seq<WithItem>) returns (r: Outcome)
      modifies this
      ensures Run(Now(), r) == Done(old(Now()), WithScript(items, 0))
      decreases items, 0
    {
      hide Done, ItemOne, Sep;
      var i := 0;
      while i < |items|
        invariant 0 <= i <= |items|
        invariant Done(Now(), WithScript(items, i)) == Done(old(Now()), WithScript(items, 0))
      {
        DoneThen(Now(), Sep(i > 0, Comma), Then(ItemOne(items[i]), WithScript(items, i + 1)));
        Separate(i > 0, Comma);
        DoneThen(Now(), ItemOne(items[i]), WithScript(items, i + 1));
        :- VisitWithItem(items[i]);
        i := i + 1;
      }
      DoneNothing(Now());
      return Returned;
    }

    method VisitWithItem(i: WithItem) returns (r: Outcome)
      modifies this
      ensures Run(Now(), r) == Done(old(Now()), ItemOne(i))
      decreases i, 0
    {
      hide Done, ExprScript, Clause;
      DoneThen(Now(), ExprScript(i.context), Clause(KwAs, i.vars));
      :- Traverse(i.context);
      r := WriteClause(KwAs, i.vars);
    }

    /** The kind of `try` is remembered while its parts are visited, and put back even
        after an exception. */
    method VisitTry(s: Stmt) returns (r: Outcome)
      requires s.Try?
      modifies this
      ensures Run(Now(), r) == Done(old(Now()), StmtScript(s))
      decreases s, 1
    {
      hide Done, TryScript;
      DoneTry(Now(), s.star, TryScript(s));
      var previous := inTryStar;
      inTryStar := s.star;
      r := DoVisitTry(s);
      inTryStar := previous;
    }

    method DoVisitTry(s: Stmt) returns (r: Outcome)
      requires s.Try?
      modifies this
      ensures Run(Now(), r) == Done(old(Now()), TryScript(s))
      decreases s, 0
    {
      ghost var body, handlers := BlockScript(s.body), HandlersScript(s.handlers, 0);
      ghost var orelse, finally := PartScript(KwElse, s.orelse), PartScript(KwFinally, s.finalbody);
      hide Done, BlockScript, HandlersScript, PartScript;
      DoneThen(Now(), NewLine([KwTry]), Then(body, Then(handlers, Then(orelse, finally))));
      Fill([KwTry]);
      DoneThen(Now(), body, Then(handlers, Then(orelse, finally)));
      :- Block(s.body);
      DoneThen(Now(), handlers, Then(orelse, finally));
      :- VisitHandlers(s.handlers);
      DoneThen(Now(), orelse, finally);
      :- WritePart(KwElse, s.orelse);
      r := WritePart(KwFinally, s.finalbody);
    }

    method VisitHandlers(hs: seq<Handler>) returns (r: Outcome)
      modifies this
      ensures Run(Now(), r) == Done(old(Now()), HandlersScript(hs, 0))
      decreases hs, 0
    {
      hide Done, HandlerScript;
      var i := 0;
      while i < |hs|
        invariant 0 <= i <= |hs|
        invariant Done(Now(), HandlersScript(hs, i)) == Done(old(Now()), HandlersScript(hs, 0))
      {
        DoneThen(Now(), HandlerScript(hs[i]), HandlersScript(hs, i + 1));
        :- VisitHandler(hs[i]);
        i := i + 1;
      }
      DoneNothing(Now());
      return Returned;
    }

    /** A handler is of the kind of the `try` being visited. */
    method VisitHandler(h: Handler) returns (r: Outcome)
      modifies this
      ensures Run(Now(), r) == Done(old(Now()), HandlerScript(h))
      decreases h, 0
    {
      ghost var kind, block := OptScript(h.kind), BlockScript(h.body);
      ghost var name := if h.name.None? then Nothing else Put([KwAs, Id(h.name.value)]);
      ExceptDone(Now(), Then(kind, Then(name, block)));
      hide Done, OptScript, BlockScript;
      Fill(if inTryStar then [KwExcept, Op(Mult)] else [KwExcept]);
      DoneThen(Now(), kind, Then(name, block));
      :- WriteOpt(h.kind);
      DoneThen(Now(), name, block);
      DoneNothing(Now());
      if h.name.Some? { Write([KwAs, Id(h.name.value)]); }
      r := Block(h.body);
    }

    method VisitMatch(s: Stmt) returns (r: Outcome)
      requires s.Match?
      modifies this
      ensures Run(Now(), r) == Done(old(Now()), StmtScript(s))
      decreases s, 1
    {
      ghost var cases := CasesScript(s.cases, 0);
      hide Done, ExprScript, CasesScript;
      DoneThen(Now(), NewLine([KwMatch]), Then(ExprScript(s.subject), Then(Put([Colon]), Indented(cases))));
      Fill([KwMatch]);
      DoneThen(Now(), ExprScript(s.subject), Then(Put([Colon]), Indented(cases)));
      :- Traverse(s.subject);
      r := CasesBlock(s.cases);
    }

    /** The cases one level deeper, after a colon. */
    method CasesBlock(cs: seq<Case>) returns (r: Outcome)
      modifies this
      ensures Run(Now(), r) == Done(old(Now()), Then(Put([Colon]), Indented(CasesScript(cs, 0))))
      decreases cs, 1
    {
      ghost var cases := CasesScript(cs, 0);
      hide Done, CasesScript;
      DoneThen(Now(), Put([Colon]), Indented(cases));
      Write([Colon]);
      DoneIndented(Now(), cases);
      indent := indent + 1;
      DoneIs(Now(), cases);
      :- VisitCases(cs);
      indent := indent - 1;
      return Returned;
    }

    method VisitCases(cs: seq<Case>) returns (r: Outcome)
      modifies this
      ensures Run(Now(), r) == Done(old(Now()), CasesScript(cs, 0))
      decreases cs, 0
    {
      hide Done, CaseScript;
      var i := 0;
      while i < |cs|
        invariant 0 <= i <= |cs|
        invariant Done(Now(), CasesScript(cs, i)) == Done(old(Now()), CasesScript(cs, 0))
      {
        DoneThen(Now(), CaseScript(cs[i]), CasesScript(cs, i + 1));
        :- VisitCase(cs[i]);
        i := i + 1;
      }
      DoneNothing(Now());
      return Returned;
    }

    method VisitCase(c: Case) returns (r: Outcome)
      modifies this
      ensures Run(Now(), r) == Done(old(Now()), CaseScript(c))
      decreases c, 0
    {
      hide Done, PatternScript, Clause, BlockScript;
      DoneThen(Now(), NewLine([KwCase]), Then(PatternScript(c.pattern),
          Then(Clause(KwIf, c.guard), BlockScript(c.body))));
      Fill([KwCase]);
      DoneThen(Now(), PatternScript(c.pattern), Then(Clause(KwIf, c.guard), BlockScript(c.body)));
      :- TraversePattern(c.pattern);
      DoneThen(Now(), Clause(KwIf, c.guard), BlockScript(c.body));
      :- WriteClause(KwIf, c.guard);
      r := Block(c.body);
    }

    /** The whole output for a module body, from an empty text. */
    method Visit(b: seq<Stmt>) returns (r: Outcome, text: seq<Token>)
      modifies this
      ensures Run(Now(), r) == Done(old(Now()).(source := []), BodyScript(b, 0)) && text == source
    {
      hide Done, BodyScript;
      source := [];
      r := TraverseBody(b);
      text := source;
    }
  }

  lemma TupleDone(s: Moment, e: Expr, parens: bool)
    requires e.Tuple? && parens == (|e.elts| == 0 || Find(s.precedences, e.id) > TUPLE)
    ensures Done(s, ExprScript(e)) == Closed(Done(Append(s, Left(parens)), ItemScript(e.elts)), parens)
  {
    if e.elts == [] {
      DoneAtom(s, e.id, BareScript(e));
      DoneParens(s, Nothing);
    } else {
      DoneNode(s, e.id, TUPLE, BareScript(e));
    }
    hide Done;
  }

  lemma ExceptDone(s: Moment, more: Script)
    ensures Done(s, Then(NewLine([KwExcept]), Then(GroupStar, more)))
         == Done(Append(s, [Line(s.indent)] + (if s.inTryStar then [KwExcept, Op(Mult)] else [KwExcept])), more)
  {
    var t := Append(s, [Line(s.indent)] + [KwExcept]);
    DoneThen(s, NewLine([KwExcept]), Then(GroupStar, more));
    DoneThen(t, GroupStar, more);
    assert Done(s, NewLine([KwExcept])) == Run(t, Returned);
    assert Done(t, GroupStar) == Run(if s.inTryStar then Append(t, [Op(Mult)]) else t, Returned);
    assert [Line(s.indent)] + [KwExcept] + [Op(Mult)] == [Line(s.indent)] + [KwExcept, Op(Mult)];
    hide Done;
    Regroup(s.source, [Line(s.indent)] + [KwExcept], [Op(Mult)]);
  }
}
