/** Round trips for the expressions that statements hold in their own lines:
    conditions, assigned values, targets and context managers. */
module HeaderRoundTrip {
  import opened PyAst
  import opened Tokens
  import opened ExprText
  import opened ExprGrammar
  import opened ExprRoundTrip
  import opened StmtText
  import opened StmtGrammar

  /** What may follow an expression of a statement. */
  predicate Stop(ts: seq<Token>) {
    Closed(ts) && !At(ts, KwFrom)
  }

  lemma NamedRoundTrip(e: Expr, rest: seq<Token>)
    requires Valid(e) && Closed(rest)
    ensures ParseNamed(Toks(e, TEST) + rest) == Ok(Erase(e), rest)
  {
    hide Parse, Toks;
    RoundTrip(e, TEST, rest);
  }

  /** An expression, or a starred one, that nothing follows. */
  lemma StarExprsRoundTrip(e: Expr, rest: seq<Token>)
    requires ValidElt(e) && Closed(rest)
    ensures ParseStarExprs(Toks(e, TEST) + rest) == Ok(Erase(e), rest)
    ensures StartsElt(Toks(e, TEST) + rest) && !At(Toks(e, TEST) + rest, KwYield)
  {
    hide Parse, Toks, ParseElts, ParseElt;
    var ts := Toks(e, TEST) + rest;
    if e.Starred? { StarredToks(e); } else { RoundTrip(e, TEST, rest); }
    EltRoundTrip(false, e, rest);
    OneElt(false, ts, Erase(e), rest);
  }

  lemma RhsRoundTrip(e: Expr, rest: seq<Token>)
    requires ValidElt(e) && Closed(rest)
    ensures ParseRhs(Toks(e, TEST) + rest) == Ok(Erase(e), rest)
  {
    hide Parse, Toks, ParseStarExprs, ParseYield;
    StarExprsRoundTrip(e, rest);
  }

  /** An expression statement may show a yield without parentheses. */
  lemma YieldRhsRoundTrip(e: Expr, rest: seq<Token>)
    requires ValidElt(e) && Stop(rest)
    ensures ParseRhs(Toks(e, YIELD) + rest) == Ok(Erase(e), rest)
  {
    hide Parse, Bare, ParseStarExprs, ParseYield;
    if (e.Yield? || e.YieldFrom?) && !Wraps(e, YIELD) {
      YieldBare(e, rest);
    } else {
      assert Toks(e, YIELD) == Toks(e, TEST);
      RhsRoundTrip(e, rest);
    }
  }

  lemma {:induction false} TargetErased(e: Expr)
    ensures IsTarget(Erase(e)) == IsTarget(e)
    decreases e, 1
  {
    if e.Tuple? || e.List? { TargetsErased(e.elts); }
  }

  lemma {:induction false} TargetsErased(es: seq<Expr>)
    ensures AreTargets(EraseAll(es)) == AreTargets(es)
    decreases es, 0
  {
    if es != [] {
      TargetErased(es[0]);
      if es[0].Starred? { TargetErased(es[0].starred); }
      TargetsErased(es[1..]);
      assert EraseAll(es)[1..] == EraseAll(es[1..]);
    }
  }

  lemma TargetEltErased(e: Expr)
    ensures IsTargetElt(Erase(e)) == IsTargetElt(e)
  {
    TargetErased(e);
    if e.Starred? { TargetErased(e.starred); }
  }

  /** An assignment target: a tuple shows no parentheses. */
  lemma AssignTargetRoundTrip(t: Expr, rest: seq<Token>)
    requires ValidTarget(t) && At(rest, Assign)
    ensures ParseRhs(Toks(t, TUPLE) + rest) == Ok(Erase(t), rest) && IsTargetElt(Erase(t))
  {
    TargetEltErased(t);
    if BareTuple(t) {
      BareTupleRhs(t, rest);
    } else {
      SameAtTest(t);
      hide Parse, Toks, ParseRhs, Erase, Valid, IsTarget;
      RhsRoundTrip(t, rest);
    }
  }

  /** A tuple that shows no parentheses where TUPLE is asked of it. */
  predicate BareTuple(t: Expr) {
    t.Tuple? && t.elts != [] && t.id != PAIRED
  }

  lemma BareTupleRhs(t: Expr, rest: seq<Token>)
    requires ValidTarget(t) && BareTuple(t) && At(rest, Assign)
    ensures ParseRhs(Toks(t, TUPLE) + rest) == Ok(Erase(t), rest)
  {
    hide Parse, Toks, ParseElts, ItemToks;
    var ts := ItemToks(t.elts) + rest;
    TupleAtTuple(t);
    TupleElts(t);
    ItemsRoundTrip(false, t.elts, rest);
    HeadOfElts(false, ts);
    assert Erase(t) == Tuple(0, EraseAll(t.elts));
    hide Erase, Valid, IsTarget, EraseAll, ValidElts;
    assert ParseStarExprs(ts) == Ok(Erase(t), rest);
  }

  lemma TupleAtTuple(t: Expr)
    requires BareTuple(t)
    ensures Toks(t, TUPLE) == ItemToks(t.elts)
  {
    hide ItemToks;
  }

  lemma TupleElts(t: Expr)
    requires t.Tuple? && ValidTarget(t)
    ensures ValidElts(t.elts) && AreTargets(t.elts)
  {
    assert Valid(t) && IsTarget(t);
    hide ValidElts, AreTargets;
  }

  /** Other targets look the same as anywhere else. */
  lemma SameAtTest(t: Expr)
    requires ValidTarget(t) && !BareTuple(t)
    ensures Toks(t, TUPLE) == Toks(t, TEST)
  {
    if !t.Starred? { assert IsTarget(t); }
    hide Valid, AreTargets, Bare;
  }

  lemma AtomAnywhere(t: Expr, p: int)
    requires Lv(t) == ATOM && p <= ATOM
    ensures Toks(t, p) == Bare(t)
  {
    hide Bare;
  }

  lemma {:induction false} AssignedRoundTrip(targets: seq<Expr>, v: Expr, rest: seq<Token>)
    requires ValidTargets(targets) && ValidElt(v) && Closed(rest) && !At(rest, Assign)
    ensures ParseAssigned(TargetToks(targets) + Toks(v, TEST) + rest) == Ok(Assigned(EraseAll(targets), Erase(v)), rest)
    decreases targets
  {
    hide Parse, Toks, ParseRhs, Erase, IsTargetElt;
    if targets == [] {
      assert TargetToks(targets) + Toks(v, TEST) + rest == Toks(v, TEST) + rest;
      RhsRoundTrip(v, rest);
    } else {
      var t := targets[0];
      var after := [Assign] + (TargetToks(targets[1..]) + Toks(v, TEST) + rest);
      assert TargetToks(targets) + Toks(v, TEST) + rest == Toks(t, TUPLE) + after;
      AssignTargetRoundTrip(t, after);
      assert after[1..] == TargetToks(targets[1..]) + Toks(v, TEST) + rest;
      AssignedRoundTrip(targets[1..], v, rest);
    }
  }

  /* ----- targets of `for` and `as` ----- */

  lemma TargetAtom(t: Expr, p: int, rest: seq<Token>)
    requires Valid(t) && IsTarget(t) && TUPLE < p <= ATOM && Follow(ATOM, rest)
    ensures Parse(ATOM, Toks(t, p) + rest) == Ok(Erase(t), rest)
  {
    hide Parse, Bare, Erase, Trailers;
    assert Toks(t, p) == Toks(t, ATOM);
    PrimaryRoundTrip(t, rest);
    NoTrailer(Erase(t), rest);
  }

  lemma TargetEltRoundTrip(e: Expr, rest: seq<Token>)
    requires ValidElt(e) && IsTargetElt(e) && Follow(ATOM, rest)
    ensures ParseTargetElt(Toks(e, TEST) + rest) == Ok(Erase(e), rest)
    ensures StartsElt(Toks(e, TEST) + rest)
  {
    hide Parse, Bare;
    var ts := Toks(e, TEST) + rest;
    if e.Starred? {
      StarredToks(e);
      assert ts[1..] == Toks(e.starred, BOR) + rest;
      TargetAtom(e.starred, BOR, rest);
      TargetErased(e.starred);
    } else {
      TargetAtom(e, TEST, rest);
      TargetErased(e);
    }
  }

  lemma {:induction false} TargetEltsRoundTrip(es: seq<Expr>, rest: seq<Token>)
    requires es != [] && ValidElts(es) && AreTargets(es) && At(rest, KwIn)
    ensures ParseTargetElts(ItemToks(es) + rest) == Ok(Elts(EraseAll(es), |es| == 1), rest)
    decreases es
  {
    hide Parse, Toks, ParseTargetElt, Erase, ParseTargetElts;
    if |es| == 1 {
      var after := [Comma] + rest;
      assert ItemToks(es) + rest == Toks(es[0], TEST) + after;
      TargetEltRoundTrip(es[0], after);
      assert after[1..] == rest;
      LastTarget(Toks(es[0], TEST) + after, Erase(es[0]), after);
      assert EraseAll(es) == [Erase(es[0])];
    } else {
      TargetJoinRoundTrip(es, rest);
    }
  }

  lemma LastTarget(ts: seq<Token>, e: Expr, after: seq<Token>)
    requires ParseTargetElt(ts) == Ok(e, after) && At(after, Comma) && !StartsElt(after[1..])
    ensures ParseTargetElts(ts) == Ok(Elts([e], true), after[1..])
  {
    hide ParseTargetElt;
  }

  lemma {:induction false} TargetJoinRoundTrip(es: seq<Expr>, rest: seq<Token>)
    requires es != [] && ValidElts(es) && AreTargets(es) && At(rest, KwIn)
    ensures ParseTargetElts(JoinToks(es) + rest) == Ok(Elts(EraseAll(es), false), rest)
    ensures StartsElt(JoinToks(es) + rest)
    decreases es
  {
    hide Parse, Toks, ParseTargetElt, Erase;
    if |es| == 1 {
      TargetEltRoundTrip(es[0], rest);
      assert EraseAll(es) == [Erase(es[0])];
    } else {
      var after := [Comma] + (JoinToks(es[1..]) + rest);
      assert JoinToks(es) + rest == Toks(es[0], TEST) + after;
      TargetEltRoundTrip(es[0], after);
      assert after[1..] == JoinToks(es[1..]) + rest;
      TargetJoinRoundTrip(es[1..], rest);
    }
  }

  lemma ForTargetRoundTrip(t: Expr, rest: seq<Token>)
    requires ValidTarget(t) && At(rest, KwIn)
    ensures ParseTargets(Toks(t, TUPLE) + rest) == Ok(Erase(t), rest)
  {
    hide Parse, Toks, ParseTargetElt, ParseTargetElts, ItemToks;
    if BareTuple(t) {
      TupleAtTuple(t);
      TupleElts(t);
      TargetEltsRoundTrip(t.elts, rest);
    } else {
      SameAtTest(t);
      TargetEltRoundTrip(t, rest);
      OneTarget(Toks(t, TUPLE) + rest, Erase(t), rest);
    }
  }

  lemma OneTarget(ts: seq<Token>, e: Expr, rest: seq<Token>)
    requires ParseTargetElt(ts) == Ok(e, rest) && !At(rest, Comma)
    ensures ParseTargetElts(ts) == Ok(Elts([e], false), rest)
  {
    hide ParseTargetElt;
  }
}
