/** What the items of a `with` statement read as. The grammar first tries a
    parenthesised list of items, so it matters whether the text of an item can be
    taken for one. */
module WithRoundTrip {
  import opened Options
  import opened PyAst
  import opened Tokens
  import opened ExprText
  import opened ExprGrammar
  import opened ExprRoundTrip
  import opened StmtText
  import opened StmtGrammar
  import opened HeaderRoundTrip

  lemma ItemRoundTrip(i: WithItem, rest: seq<Token>)
    requires ValidItem(i)
    requires At(rest, Comma) || At(rest, Colon)
    ensures ParseItem(WithItemTok(i) + rest) == Ok(EraseItem(i), rest)
  {
    hide Parse, Toks, ParseTargetElt, Erase;
    if i.vars.None? {
      assert WithItemTok(i) + rest == Toks(i.context, TEST) + rest;
      RoundTrip(i.context, TEST, rest);
    } else {
      var after := [KwAs] + (Toks(i.vars.value, TEST) + rest);
      assert WithItemTok(i) + rest == Toks(i.context, TEST) + after;
      RoundTrip(i.context, TEST, after);
      assert after[1..] == Toks(i.vars.value, TEST) + rest;
      TargetEltRoundTrip(i.vars.value, rest);
    }
  }

  lemma {:induction false} WithItemsRoundTrip(items: seq<WithItem>, rest: seq<Token>)
    requires items != [] && ValidItems(items) && At(rest, Colon)
    ensures ParseItems(WithToks(items) + rest) == Ok(EraseItems(items), rest)
    decreases items
  {
    hide ParseItem, WithItemTok, EraseItem;
    if |items| == 1 {
      ItemRoundTrip(items[0], rest);
      assert EraseItems(items) == [EraseItem(items[0])];
    } else {
      var after := [Comma] + (WithToks(items[1..]) + rest);
      assert WithToks(items) + rest == WithItemTok(items[0]) + after;
      ItemRoundTrip(items[0], after);
      assert after[1..] == WithToks(items[1..]) + rest;
      WithItemsRoundTrip(items[1..], rest);
    }
  }

  /** A bare expression read as the first item. */
  lemma BareItem(ts: seq<Token>, e: Expr, rest: seq<Token>)
    requires Parse(TEST, ts) == Ok(e, rest) && !At(rest, KwAs)
    ensures ParseItems(ts) ==
            (var i := WithItem(e, None);
             if !At(rest, Comma) || ParseItems(rest[1..]).Fail? then Ok([i], rest)
             else Ok([i] + ParseItems(rest[1..]).value, ParseItems(rest[1..]).rest))
  {
    hide Parse;
    assert ParseItem(ts) == Ok(WithItem(e, None), rest);
  }

  lemma NoItem(ts: seq<Token>)
    requires ts != [] && !Starts(TEST, ts[0])
    ensures ParseItems(ts).Fail?
  {
    hide Parse;
    assert Parse(TEST, ts).Fail?;
  }

  /* ----- tuples read as items ----- */

  /** Reading stopped before a starred element. */
  predicate StuckAtStar(r: Parsed<seq<WithItem>>) {
    r.Fail? || (|r.rest| >= 2 && r.rest[0] == Comma && r.rest[1] == Op(Mult))
  }

  lemma {:induction false} ElementsAsItems(es: seq<Expr>, rest: seq<Token>)
    requires es != [] && ValidElts(es)
    requires At(rest, RPar) || (At(rest, Comma) && At(rest[1..], RPar))
    ensures NoStarred(es) ==> ParseItems(JoinToks(es) + rest) == Ok(ItemsOf(es), rest)
    ensures !NoStarred(es) ==> StuckAtStar(ParseItems(JoinToks(es) + rest))
    ensures !es[0].Starred? ==> ParseItems(JoinToks(es) + rest).Ok?
    decreases es
  {
    hide Parse, Toks, ParseItem, ParseItems, Erase, Valid;
    if |es| == 1 {
      LastAsItem(es, rest);
    } else {
      ElementsCons(es);
      hide JoinToks, NoStarred, ItemsOf, ValidElts;
      var more := JoinToks(es[1..]) + rest;
      var tail := [Comma] + more;
      Regroup4(Toks(es[0], TEST), [Comma], JoinToks(es[1..]), rest);
      Tail(Comma, more);
      ElementsAsItems(es[1..], rest);
      if es[0].Starred? {
        StarredToks(es[0]);
        NoItem(Toks(es[0], TEST) + tail);
      } else {
        RoundTrip(es[0], TEST, tail);
        ItemThenMore(Toks(es[0], TEST) + tail, Erase(es[0]), more);
        if es[1].Starred? {
          StarredFirst(es[1..], rest);
          NoItem(more);
        }
      }
    }
  }

  lemma ElementsCons(es: seq<Expr>)
    requires |es| > 1 && ValidElts(es)
    ensures JoinToks(es) == Toks(es[0], TEST) + [Comma] + JoinToks(es[1..])
    ensures NoStarred(es) == (!es[0].Starred? && NoStarred(es[1..]))
    ensures ItemsOf(es) == [WithItem(Erase(es[0]), None)] + ItemsOf(es[1..])
    ensures ValidElts(es[1..]) && (!es[0].Starred? ==> Valid(es[0]))
  {
    hide Toks, Erase, Valid;
  }

  lemma ItemThenMore(ts: seq<Token>, e: Expr, more: seq<Token>)
    requires Parse(TEST, ts) == Ok(e, [Comma] + more)
    ensures ParseItems(ts) == if ParseItems(more).Fail? then Ok([WithItem(e, None)], [Comma] + more)
                              else Ok([WithItem(e, None)] + ParseItems(more).value, ParseItems(more).rest)
  {
    hide Parse, ParseItems;
    Tail(Comma, more);
    BareItem(ts, e, [Comma] + more);
  }

  lemma LastAsItem(es: seq<Expr>, rest: seq<Token>)
    requires |es| == 1 && ValidElts(es)
    requires At(rest, RPar) || (At(rest, Comma) && At(rest[1..], RPar))
    ensures NoStarred(es) ==> ParseItems(JoinToks(es) + rest) == Ok(ItemsOf(es), rest)
    ensures !NoStarred(es) ==> StuckAtStar(ParseItems(JoinToks(es) + rest))
    ensures !es[0].Starred? ==> ParseItems(JoinToks(es) + rest).Ok?
  {
    hide Parse, Toks, ParseItem, ParseItems, Erase, Valid;
    var e := es[0];
    var ts := Toks(e, TEST) + rest;
    assert JoinToks(es) == Toks(e, TEST);
    if e.Starred? {
      StarredToks(e);
      NoItem(ts);
    } else {
      assert NoStarred(es[1..]) && ItemsOf(es[1..]) == [];
      RoundTrip(e, TEST, rest);
      BareItem(ts, Erase(e), rest);
      if At(rest, Comma) { NoItem(rest[1..]); }
      assert ItemsOf(es) == [WithItem(Erase(e), None)];
    }
  }

  lemma StarredFirst(es: seq<Expr>, rest: seq<Token>)
    requires es != [] && es[0].Starred?
    ensures At(JoinToks(es) + rest, Op(Mult))
  {
    hide Toks;
    StarredToks(es[0]);
  }

  /** A parenthesised tuple can be read as items if what follows is the colon
      and no element is starred. */
  lemma TupleAsItems(es: seq<Expr>, rest: seq<Token>)
    requires es != [] && ValidElts(es)
    ensures ParseParenthesised([LPar] + (ItemToks(es) + ([RPar] + rest)))
         == if NoStarred(es) && At(rest, Colon) then Ok(ItemsOf(es), rest) else Fail
  {
    hide ParseItems, JoinToks, Toks, ParseParenthesised, ItemsOf, NoStarred, ValidElts;
    var after := [RPar] + rest;
    var inner := ItemToks(es) + after;
    var tail := if |es| == 1 then [Comma] + after else after;
    OneJoined(es);
    assert inner == JoinToks(es) + tail;
    if |es| == 1 { Tail(Comma, after); }
    hide ItemToks;
    ElementsAsItems(es, tail);
    Tail(RPar, rest);
    Enclosed(inner, ItemsOf(es), tail, rest);
    if !NoStarred(es) { EnclosedStuck(inner); }
  }

  /** Items in parentheses, perhaps with a final comma. */
  lemma Enclosed(ts: seq<Token>, items: seq<WithItem>, tail: seq<Token>, rest: seq<Token>)
    requires tail == [RPar] + rest || tail == [Comma] + ([RPar] + rest)
    ensures ParseItems(ts) == Ok(items, tail) ==>
              ParseParenthesised([LPar] + ts) == if At(rest, Colon) then Ok(items, rest) else Fail
  {
    hide ParseItems;
    Tail(LPar, ts);
    Tail(RPar, rest);
    Tail(Comma, [RPar] + rest);
  }

  lemma EnclosedStuck(ts: seq<Token>)
    requires StuckAtStar(ParseItems(ts))
    ensures ParseParenthesised([LPar] + ts).Fail?
  {
    hide ParseItems;
    Tail(LPar, ts);
  }

  lemma OneJoined(es: seq<Expr>)
    requires es != []
    ensures |es| == 1 ==> JoinToks(es) == Toks(es[0], TEST)
  {
    hide Toks;
  }

  /* ----- other expressions cannot be taken for items ----- */

  lemma {:induction false} GroupNotItems(e: Expr, rest: seq<Token>)
    requires Valid(e) && Lv(e) < ATOM && !e.Tuple?
    requires e.NamedExpr? || e.Yield? || e.YieldFrom? || !At(rest, Colon)
    ensures ParseParenthesised([LPar] + (Bare(e) + ([RPar] + rest))).Fail?
  {
    hide Parse, Toks, ParseItems, ParseItem;
    var after := [RPar] + rest;
    var inner := Bare(e) + after;
    assert ([LPar] + inner)[1..] == inner && after[1..] == rest;
    if e.NamedExpr? {
      var walrus := [Walrus] + (Toks(e.namedValue, ATOM) + after);
      AtomAnywhere(e.target, ATOM);
      assert inner == [Id(e.target.name)] + walrus;
      NameFirst(e.target.name, walrus);
      BareItem(inner, Name(0, e.target.name), walrus);
    } else if e.Yield? || e.YieldFrom? {
      NoItem(inner);
    } else {
      BareRoundTrip(e, after);
      Lift(Lv(e), TEST, inner, Erase(e), after);
      BareItem(inner, Erase(e), after);
    }
  }

  /** A lone item in parentheses that it does not need is read as a list of one item. */
  lemma {:induction false} GroupAsItem(e: Expr, rest: seq<Token>)
    requires Valid(e) && TEST <= Lv(e) < ATOM && At(rest, Colon)
    ensures ParseParenthesised([LPar] + (Bare(e) + ([RPar] + rest))) == Ok([WithItem(Erase(e), None)], rest)
  {
    hide Parse, Toks, ParseItems, ParseParenthesised;
    var after := [RPar] + rest;
    BareRoundTrip(e, after);
    Lift(Lv(e), TEST, Bare(e) + after, Erase(e), after);
    hide Bare, Erase, Valid;
    BareItem(Bare(e) + after, Erase(e), after);
    Enclosed(Bare(e) + after, [WithItem(Erase(e), None)], after, rest);
  }

  lemma LoneItem(items: seq<WithItem>)
    requires |items| == 1 && items[0].vars.None? && !items[0].context.Tuple?
    ensures ImageItems(true, items) == [WithItem(Erase(items[0].context), None)]
  {
    hide Erase;
    assert EraseItems(items) == [EraseItem(items[0])];
  }

  /** The leftmost operand of an expression, and the level it is printed at. */
  function Leftmost(e: Expr): Option<(Expr, int)> {
    match e
    case IfExp(_, _, b, _) => Some((b, Next(TEST)))
    case BoolOp(_, k, vs) => if vs == [] then None else Some((vs[0], Next(BoolPrec(k))))
    case Compare(_, l, _, _) => Some((l, Next(CMP)))
    case BinOp(_, l, b, _) => Some((l, LeftPrec(b)))
    case Attribute(_, v, _) => Some((v, ATOM))
    case Call(_, f, _, _) => Some((f, ATOM))
    case Subscript(_, v, _) => Some((v, ATOM))
    case _ => None
  }

  /** The text of an expression that begins with another: that one, and some more. */
  lemma LeftmostMore(e: Expr) returns (more: seq<Token>)
    requires Valid(e) && Leftmost(e).Some?
    ensures Bare(e) == Toks(Leftmost(e).value.0, Leftmost(e).value.1) + more
    ensures more != [] && more[0] != Colon
  {
    HasOperand(e);
    hide Toks, Bare, Valid, Leftmost;
    if e.IfExp? || e.BoolOp? || e.BinOp? {
      more := OperandMore(e);
    } else if e.Compare? {
      more := ComparedMore(e);
    } else {
      more := PrimaryMore(e);
    }
  }

  lemma HasOperand(e: Expr)
    requires Leftmost(e).Some?
    ensures e.IfExp? || e.BoolOp? || e.BinOp? || e.Compare? || e.Attribute? || e.Call? || e.Subscript?
  {
  }

  lemma OperandMore(e: Expr) returns (more: seq<Token>)
    requires Valid(e) && (e.IfExp? || e.BoolOp? || e.BinOp?)
    ensures Leftmost(e).Some? && Bare(e) == Toks(Leftmost(e).value.0, Leftmost(e).value.1) + more
    ensures more != [] && more[0] != Colon
  {
    hide Toks;
    if e.IfExp? {
      more := [KwIf] + Toks(e.test, Next(TEST)) + [KwElse] + Toks(e.orelse, TEST);
    } else if e.BoolOp? {
      var p := BoolPrec(e.boolop);
      more := [BoolTok(e.boolop)] + BoolToks(e.boolop, e.values[1..], Next(Next(p)));
      assert Bare(e) == BoolToks(e.boolop, e.values, Next(p));
      hide Bare;
    } else {
      more := [Op(e.binop)] + Toks(e.rhs, RightPrec(e.binop));
    }
  }

  lemma ComparedMore(e: Expr) returns (more: seq<Token>)
    requires Valid(e) && e.Compare?
    ensures Leftmost(e).Some? && Bare(e) == Toks(Leftmost(e).value.0, Leftmost(e).value.1) + more
    ensures more != [] && more[0] != Colon
  {
    hide Toks;
    more := CompareToks(e.ops, e.comparators);
    assert more[0] == CmpToks(e.ops[0])[0];
  }

  lemma PrimaryMore(e: Expr) returns (more: seq<Token>)
    requires e.Attribute? || e.Call? || e.Subscript?
    ensures Leftmost(e).Some? && Bare(e) == Toks(Leftmost(e).value.0, Leftmost(e).value.1) + more
    ensures more != [] && more[0] != Colon
  {
    hide Toks, JoinToks, KeywordToks, ItemToks;
    if e.Attribute? {
      more := [Dot, Id(e.attr)];
    } else if e.Call? {
      var comma := if e.args != [] && e.keywords != [] then [Comma] else [];
      more := [LPar] + JoinToks(e.args) + comma + KeywordToks(e.keywords) + [RPar];
    } else {
      more := [LBrk] + SliceToks(e.slice) + [RBrk];
    }
  }

  lemma LeftmostText(e: Expr, rest: seq<Token>) returns (tail: seq<Token>)
    requires Valid(e) && Leftmost(e).Some?
    ensures Bare(e) + rest == Toks(Leftmost(e).value.0, Leftmost(e).value.1) + tail
    ensures tail != [] && tail[0] != Colon
  {
    hide Bare, Toks, Leftmost;
    var more := LeftmostMore(e);
    Regroup(Toks(Leftmost(e).value.0, Leftmost(e).value.1), more, rest);
    tail := more + rest;
  }

  lemma {:induction false} BareNotItems(e: Expr, rest: seq<Token>)
    requires Valid(e) && Lv(e) >= TEST
    ensures ParseParenthesised(Bare(e) + rest).Fail?
    decreases e, 0
  {
    hide Parse, Toks, ParseItems, JoinToks, ParamToks;
    var ts := Bare(e) + rest;
    if Leftmost(e).Some? {
      var tail := LeftmostText(e, rest);
      NotItems(Leftmost(e).value.0, Leftmost(e).value.1, tail);
    } else if e.Tuple? {
      assert ts[1..] == [RPar] + rest;
      NoItem(ts[1..]);
    } else {
      assert ts[0] != LPar;
    }
  }

  lemma {:induction false} NotItems(e: Expr, p: int, rest: seq<Token>)
    requires Valid(e) && TEST <= p <= ATOM && !At(rest, Colon)
    ensures ParseParenthesised(Toks(e, p) + rest).Fail?
    decreases e, 1
  {
    hide ParseParenthesised, Bare, ItemToks;
    if !Wraps(e, p) {
      BareNotItems(e, rest);
    } else {
      assert Toks(e, p) + rest == [LPar] + (Bare(e) + ([RPar] + rest));
      if e.Tuple? {
        TupleBare(e);
        TupleAsItems(e.elts, rest);
      } else {
        GroupNotItems(e, rest);
      }
    }
  }

  lemma TupleBare(e: Expr)
    requires e.Tuple? && e.elts != []
    ensures Bare(e) == ItemToks(e.elts)
  {
    hide ItemToks;
  }

  /** The first context manager, and what follows it. */
  lemma WithText(items: seq<WithItem>, rest: seq<Token>) returns (tail: seq<Token>)
    requires items != [] && At(rest, Colon)
    ensures WithToks(items) + rest == Toks(items[0].context, TEST) + tail
    ensures if |items| == 1 && items[0].vars.None? then tail == rest else tail != [] && tail[0] != Colon
  {
    hide Toks;
    var c, v := items[0].context, items[0].vars;
    var more := if |items| == 1 then rest else [Comma] + (WithToks(items[1..]) + rest);
    FirstItem(items, rest);
    hide WithToks;
    if v.None? {
      tail := more;
    } else {
      assert WithItemTok(items[0]) == Toks(c, TEST) + [KwAs] + Toks(v.value, TEST);
      Regroup4(Toks(c, TEST), [KwAs], Toks(v.value, TEST), more);
      tail := [KwAs] + (Toks(v.value, TEST) + more);
    }
  }

  lemma FirstItem(items: seq<WithItem>, rest: seq<Token>)
    requires items != []
    ensures WithToks(items) + rest
         == WithItemTok(items[0]) + if |items| == 1 then rest else [Comma] + (WithToks(items[1..]) + rest)
  {
    hide WithItemTok;
    if |items| > 1 { Regroup4(WithItemTok(items[0]), [Comma], WithToks(items[1..]), rest); }
  }

  /** What the items of a `with` statement read as, for every list of items. */
  lemma WithRead(items: seq<WithItem>, rest: seq<Token>)
    requires items != [] && ValidItems(items) && At(rest, Colon)
    ensures ParseWith(WithToks(items) + rest) == Ok(ImageItems(true, items), rest)
  {
    hide ParseParenthesised, ParseItems, Bare, ItemToks, ItemsOf, EraseItems, WithToks;
    var c := items[0].context;
    var ts := WithToks(items) + rest;
    var tail := WithText(items, rest);
    if !Wraps(c, TEST) {
      BareNotItems(c, tail);
    } else {
      assert ts == [LPar] + (Bare(c) + ([RPar] + tail));
      if c.Tuple? {
        TupleBare(c);
        TupleAsItems(c.elts, tail);
      } else if At(tail, Colon) && TEST <= Lv(c) {
        GroupAsItem(c, tail);
        LoneItem(items);
      } else {
        GroupNotItems(c, tail);
      }
    }
    WithItemsRoundTrip(items, rest);
  }

  lemma {:induction false} NotOwnElement(e: Expr)
    ensures e != Tuple(0, [e])
  {
    assert e in [e];
  }

  /** The items read back as they were exactly when they are not a lone tuple. */
  lemma ItemsKept(items: seq<WithItem>)
    ensures ImageItems(true, items) == EraseItems(items) <==> !SoleTuple(items)
  {
    hide Erase;
    if SoleTuple(items) {
      var es := items[0].context.elts;
      assert EraseItems(items) == [EraseItem(items[0])];
      if |es| == 1 {
        TupleErased(items[0].context);
        assert ItemsOf(es) == [WithItem(Erase(es[0]), None)];
        assert EraseAll(es) == [Erase(es[0])];
        NotOwnElement(Erase(es[0]));
      }
    }
  }

  lemma TupleErased(e: Expr)
    requires e.Tuple?
    ensures Erase(e) == Tuple(0, EraseAll(e.elts))
  {
    hide EraseAll;
  }
}
