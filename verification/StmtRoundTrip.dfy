/** Reading the lines of a program back: the tree that results, and when it is
    the tree that was printed. */
module StmtRoundTrip {
  import opened Options
  import opened PyAst
  import opened Tokens
  import opened ExprText
  import opened ExprGrammar
  import opened ExprRoundTrip
  import opened PatternText
  import opened PatternGrammar
  import opened PatternRoundTrip
  import opened StmtText
  import opened StmtGrammar
  import opened HeaderRoundTrip
  import opened WithRoundTrip

  predicate IsClause(t: Token) {
    t == KwElse || t == KwElif || t == KwExcept || t == KwFinally || t == KwCase
  }

  /** A line indented at most `d` levels, or the end. */
  predicate Dedent(d: nat, ts: seq<Token>) {
    ts == [] || (ts[0].Line? && ts[0].indent <= d)
  }

  /** The same, and not a clause of a statement at indentation `d`. */
  predicate Ended(d: nat, ts: seq<Token>) {
    Dedent(d, ts) && (At(ts, Line(d)) ==> |ts| >= 2 && !IsClause(ts[1]))
  }

  lemma LineStop(d: nat, ts: seq<Token>)
    requires Dedent(d, ts)
    ensures Stop(ts) && Follow(TEST, ts)
  {
  }

  /** A clause keyword starts no statement. */
  lemma NotClause(d: nat, ts: seq<Token>)
    requires ParseStmt(d, ts).Ok?
    ensures ts != [] && !IsClause(ts[0])
  {
    hide ParseIf, ParseFor, ParseWith, ParseTry, ParseMatch, ParseElts, ParseSuite, ParseNamed, ParseElse, Parse,
        ParseYield;
    if IsClause(ts[0]) {
      assert ParseSimple(ts).Ok?;
      assert ParseAssigned(ts).Ok?;
      assert ParseRhs(ts).Ok?;
      assert ParseElts(false, ts).Ok?;
      HeadOfElts(false, ts);
      assert false;
    }
  }

  /* ----- simple statements ----- */

  lemma SimpleRoundTrip(s: Stmt, d: nat, rest: seq<Token>)
    requires ValidStmt(s) && (s.ExprStmt? || s.AssignStmt? || s.AugAssign?) && Dedent(d, rest)
    ensures ParseSimple(LineToks(s, d) + rest) == Ok(Image(true, s), rest)
    ensures StartsElt(LineToks(s, d) + rest) || At(LineToks(s, d) + rest, KwYield)
  {
    hide Parse, Toks, ParseRhs, Erase, TargetToks, ParseAssigned;
    LineStop(d, rest);
    match s
    case ExprStmt(v) =>
      YieldRhsRoundTrip(v, rest);
      RhsOnly(LineToks(s, d) + rest, Erase(v), rest);
    case AssignStmt(ts, v) =>
      AssignedRoundTrip(ts, v, rest);
      AssignedStart(LineToks(s, d) + rest);
    case AugAssign(t, op, v) =>
      var after := [Aug(op)] + (Toks(v, TEST) + rest);
      assert LineToks(s, d) + rest == Toks(t, TEST) + after;
      RhsRoundTrip(t, after);
      RhsOnly(LineToks(s, d) + rest, Erase(t), after);
      assert after[1..] == Toks(v, TEST) + rest;
      RhsRoundTrip(v, rest);
      SingleErased(t);
  }

  lemma SingleErased(t: Expr)
    ensures IsSingleTarget(Erase(t)) == IsSingleTarget(t)
  {
  }

  lemma RhsOnly(ts: seq<Token>, e: Expr, rest: seq<Token>)
    requires ParseRhs(ts) == Ok(e, rest) && !At(rest, Assign)
    ensures ParseAssigned(ts) == Ok(Assigned([], e), rest)
    ensures StartsElt(ts) || At(ts, KwYield)
  {
    RhsStart(ts);
  }

  lemma RhsStart(ts: seq<Token>)
    requires ParseRhs(ts).Ok?
    ensures StartsElt(ts) || At(ts, KwYield)
  {
    hide ParseElts, Parse, ParseYield;
    if !At(ts, KwYield) {
      assert ParseElts(false, ts).Ok?;
      HeadOfElts(false, ts);
    }
  }

  lemma AssignedStart(ts: seq<Token>)
    requires ParseAssigned(ts).Ok?
    ensures StartsElt(ts) || At(ts, KwYield)
  {
    hide ParseRhs;
    RhsStart(ts);
  }

  lemma RaiseRoundTrip(s: Stmt, d: nat, rest: seq<Token>)
    requires ValidStmt(s) && s.Raise? && Dedent(d, rest)
    ensures ParseRaise((LineToks(s, d) + rest)[1..]) == Ok(Image(true, s), rest)
  {
    hide Parse, Toks, Erase, Valid;
    LineStop(d, rest);
    var ts := (LineToks(s, d) + rest)[1..];
    if s.exc.None? {
      assert ts == rest;
    } else if s.cause.None? {
      assert ts == Toks(s.exc.value, TEST) + rest;
      RoundTrip(s.exc.value, TEST, rest);
    } else {
      var after := [KwFrom] + (Toks(s.cause.value, TEST) + rest);
      assert ts == Toks(s.exc.value, TEST) + after;
      RoundTrip(s.exc.value, TEST, after);
      assert after[1..] == Toks(s.cause.value, TEST) + rest;
      RoundTrip(s.cause.value, TEST, rest);
    }
  }

  lemma ReturnRoundTrip(s: Stmt, d: nat, rest: seq<Token>)
    requires ValidStmt(s) && s.Return? && Dedent(d, rest)
    ensures ParseStmt(d, LineToks(s, d) + rest) == Ok(Image(true, s), rest)
  {
    hide Toks, Erase, ParseStarExprs, ParseStmt, Valid;
    LineStop(d, rest);
    if s.result.None? {
      assert LineToks(s, d) == [KwReturn] && Image(true, s) == Return(None) && !StartsElt(rest);
      ReturnRead(d, rest);
    } else {
      var v := s.result.value;
      assert LineToks(s, d) == [KwReturn] + Toks(v, TEST) && Image(true, s) == Return(Some(Erase(v)));
      Regroup([KwReturn], Toks(v, TEST), rest);
      StarExprsRoundTrip(v, rest);
      ReturnRead(d, Toks(v, TEST) + rest);
    }
  }

  lemma ReturnRead(d: nat, ts: seq<Token>)
    ensures ParseStmt(d, [KwReturn] + ts)
         == if !StartsElt(ts) then Ok(Return(None), ts)
            else if ParseStarExprs(ts).Fail? then Fail
            else Ok(Return(Some(ParseStarExprs(ts).value)), ParseStarExprs(ts).rest)
  {
    hide ParseIf, ParseFor, ParseTry, ParseMatch, ParseRaise, ParseWith, ParseSimple, ParseNamed, ParseSuite,
        ParseElse, ParseStarExprs;
    Tail(KwReturn, ts);
  }

  /* ----- blocks ----- */

  lemma {:induction false} BodyRoundTrip(b: seq<Stmt>, d: nat, rest: seq<Token>)
    requires ValidSuite(b) && (rest == [] || (rest[0].Line? && rest[0].indent < d))
    ensures ParseBody(d, BodyToks(b, d) + rest) == Ok(ImageAll(true, b), rest)
    decreases b, 6
  {
    hide ParseStmt, LineToks, Image, ValidStmt, ParseBody;
    BodyCons(b, d, rest);
    hide StmtToks;
    var after := BodyToks(b[1..], d) + rest;
    var line := LineToks(b[0], d) + after;
    if |b| == 1 {
      assert BodyToks(b[1..], d) == [] && ImageAll(true, b[1..]) == [];
      assert after == rest && ImageAll(true, b) == [Image(true, b[0])];
      StmtRoundTrip(b[0], d, after);
    } else {
      BodyRoundTrip(b[1..], d, rest);
      BodyCons(b[1..], d, rest);
      BodyStart(d, after);
      StmtRoundTrip(b[0], d, after);
    }
    hide BodyToks, ImageAll, ValidStmts;
    BodyNext(d, line, Image(true, b[0]), after);
  }

  lemma BodyCons(b: seq<Stmt>, d: nat, rest: seq<Token>)
    requires b != []
    ensures BodyToks(b, d) + rest == [Line(d)] + (LineToks(b[0], d) + (BodyToks(b[1..], d) + rest))
    ensures ImageAll(true, b) == [Image(true, b[0])] + ImageAll(true, b[1..])
  {
    hide LineToks, Image;
    assert BodyToks(b, d) == [Line(d)] + LineToks(b[0], d) + BodyToks(b[1..], d);
    Regroup([Line(d)] + LineToks(b[0], d), BodyToks(b[1..], d), rest);
    Regroup([Line(d)], LineToks(b[0], d), BodyToks(b[1..], d) + rest);
  }

  /** A statement, and those after it if there are any. */
  lemma BodyNext(d: nat, line: seq<Token>, s: Stmt, after: seq<Token>)
    requires ParseStmt(d, line) == Ok(s, after)
    ensures ParseBody(d, [Line(d)] + line)
         == if !At(after, Line(d)) then Ok([s], after)
            else if ParseBody(d, after).Fail? then Fail
            else Ok([s] + ParseBody(d, after).value, ParseBody(d, after).rest)
  {
    hide ParseStmt;
    Tail(Line(d), line);
  }

  /** A body does not begin with a clause of an outer statement. */
  lemma BodyStart(d: nat, ts: seq<Token>)
    requires ParseBody(d, ts).Ok?
    ensures |ts| >= 2 && !IsClause(ts[1])
  {
    hide ParseStmt;
    NotClause(d, ts[1..]);
  }

  lemma {:induction false} SuiteRoundTrip(b: seq<Stmt>, d: nat, rest: seq<Token>)
    requires ValidSuite(b) && Dedent(d, rest)
    ensures ParseSuite(d, SuiteToks(b, d) + rest) == Ok(ImageAll(true, b), rest)
    decreases b, 7
  {
    hide ParseBody, LineToks, ImageAll;
    BodyRoundTrip(b, d + 1, rest);
    var ts := SuiteToks(b, d) + rest;
    assert ts == [Colon] + (BodyToks(b, d + 1) + rest);
    assert ts[1..] == BodyToks(b, d + 1) + rest;
    assert BodyToks(b, d + 1)[0] == Line(d + 1);
  }

  lemma {:induction false} ElseRoundTrip(o: seq<Stmt>, d: nat, rest: seq<Token>)
    requires ValidStmts(o) && Dedent(d, rest) && !AtClause(d, KwElse, rest)
    ensures ParseElse(d, ElseToks(o, d) + rest) == Ok(ImageAll(true, o), rest)
    ensures Dedent(d, ElseToks(o, d) + rest)
    decreases o, 8
  {
    hide ParseSuite, SuiteToks;
    var ts := ElseToks(o, d) + rest;
    if o == [] {
      assert ts == rest;
    } else {
      assert ts[2..] == SuiteToks(o, d) + rest;
      SuiteRoundTrip(o, d, rest);
    }
  }

  /* ----- compound statements ----- */

  lemma {:induction false} IfRoundTrip(s: Stmt, d: nat, rest: seq<Token>)
    requires ValidStmt(s) && s.If? && Ended(d, rest)
    ensures ParseIf(d, IfToks(s, d) + rest) == Ok(Image(true, s), rest)
    decreases s, 2
  {
    hide ParseNamed, ParseSuite, ParseElse, Toks, SuiteToks, ElseToks, Erase, ParseIf, Valid, LineToks;
    var t, b, o := s.test, s.body, s.orelse;
    var collapse := |o| == 1 && o[0].If?;
    var after := if collapse then [Line(d), KwElif] + (IfToks(o[0], d) + rest) else ElseToks(o, d) + rest;
    IfText(s, d, rest);
    hide IfToks;
    assert Image(true, s) == If(Erase(t), ImageAll(true, b), ImageAll(true, o));
    if collapse {
      assert ValidStmt(o[0]) && ImageAll(true, o) == [Image(true, o[0])];
      assert after[2..] == IfToks(o[0], d) + rest;
    }
    hide Image, ImageAll, ValidStmt, ValidStmts;
    SuiteStart(b, d, after);
    NamedRoundTrip(t, SuiteToks(b, d) + after);
    if collapse {
      IfRoundTrip(o[0], d, rest);
    } else {
      ElseRoundTrip(o, d, rest);
      ElseNotElif(o, d, rest);
    }
    SuiteRoundTrip(b, d, after);
    IfRead(d, Toks(t, TEST) + (SuiteToks(b, d) + after), Erase(t), SuiteToks(b, d) + after, ImageAll(true, b), after);
  }

  lemma IfText(s: Stmt, d: nat, rest: seq<Token>)
    requires s.If?
    ensures var o := s.orelse;
            var more := if |o| == 1 && o[0].If? then [Line(d), KwElif] + (IfToks(o[0], d) + rest)
                        else ElseToks(o, d) + rest;
            IfToks(s, d) + rest == Toks(s.test, TEST) + (SuiteToks(s.body, d) + more)
  {
    var o, t, b := s.orelse, Toks(s.test, TEST), SuiteToks(s.body, d);
    var tail := if |o| == 1 && o[0].If? then [Line(d), KwElif] + IfToks(o[0], d) else ElseToks(o, d);
    assert IfToks(s, d) == t + b + tail;
    hide IfToks, Toks, SuiteToks, ElseToks;
    Regroup4([], t + b, tail, rest);
    Regroup(t, b, tail + rest);
    if |o| == 1 && o[0].If? { Regroup([Line(d), KwElif], IfToks(o[0], d), rest); }
    assert [] + (t + b) == t + b;
  }

  /** A condition, its suite, and what follows. */
  lemma IfRead(d: nat, ts: seq<Token>, t: Expr, suite: seq<Token>, b: seq<Stmt>, after: seq<Token>)
    requires ParseNamed(ts) == Ok(t, suite) && ParseSuite(d, suite) == Ok(b, after)
    ensures AtClause(d, KwElif, after) && ParseIf(d, after[2..]).Ok? ==>
              var e := ParseIf(d, after[2..]);
              ParseIf(d, ts) == Ok(If(t, b, [e.value]), e.rest)
    ensures !AtClause(d, KwElif, after) && ParseElse(d, after).Ok? ==>
              var o := ParseElse(d, after);
              ParseIf(d, ts) == Ok(If(t, b, o.value), o.rest)
  {
    hide ParseNamed, ParseSuite, ParseElse;
  }

  lemma ElseNotElif(o: seq<Stmt>, d: nat, rest: seq<Token>)
    requires !AtClause(d, KwElif, rest)
    ensures !AtClause(d, KwElif, ElseToks(o, d) + rest)
  {
    hide SuiteToks;
    if o == [] { assert ElseToks(o, d) + rest == rest; }
  }

  lemma SuiteStart(b: seq<Stmt>, d: nat, rest: seq<Token>)
    ensures At(SuiteToks(b, d) + rest, Colon) && Closed(SuiteToks(b, d) + rest) && Follow(TEST, SuiteToks(b, d) + rest)
  {
    hide BodyToks;
  }

  lemma {:induction false} WhileRoundTrip(s: Stmt, d: nat, rest: seq<Token>)
    requires ValidStmt(s) && s.While? && Ended(d, rest)
    ensures ParseStmt(d, LineToks(s, d) + rest) == Ok(Image(true, s), rest)
    decreases s, 2
  {
    hide ParseNamed, ParseSuite, ParseElse, Toks, SuiteToks, ElseToks, Erase, ImageAll, ParseStmt, Valid;
    var after := ElseToks(s.orelse, d) + rest;
    var suite := SuiteToks(s.body, d) + after;
    assert LineToks(s, d) + rest == [KwWhile] + (Toks(s.test, TEST) + suite);
    assert Image(true, s) == While(Erase(s.test), ImageAll(true, s.body), ImageAll(true, s.orelse));
    hide LineToks, Image, ValidStmts;
    SuiteStart(s.body, d, after);
    NamedRoundTrip(s.test, suite);
    ElseRoundTrip(s.orelse, d, rest);
    SuiteRoundTrip(s.body, d, after);
    WhileRead(d, Toks(s.test, TEST) + suite, Erase(s.test), suite, ImageAll(true, s.body), after,
              ImageAll(true, s.orelse), rest);
  }

  lemma WhileRead(d: nat, ts: seq<Token>, t: Expr, suite: seq<Token>, b: seq<Stmt>, after: seq<Token>, o: seq<Stmt>,
                  rest: seq<Token>)
    requires ParseNamed(ts) == Ok(t, suite) && ParseSuite(d, suite) == Ok(b, after)
    requires ParseElse(d, after) == Ok(o, rest)
    ensures ParseStmt(d, [KwWhile] + ts) == Ok(While(t, b, o), rest)
  {
    hide ParseIf, ParseFor, ParseTry, ParseMatch, ParseRaise, ParseWith, ParseSimple, ParseNamed, ParseSuite,
        ParseElse, ParseStarExprs;
    Tail(KwWhile, ts);
  }

  lemma ForTokens(s: Stmt, d: nat, rest: seq<Token>)
    requires s.For?
    ensures (LineToks(s, d) + rest)[1..]
         == Toks(s.target, TUPLE) + ([KwIn] + (Toks(s.iter, TEST)
             + (SuiteToks(s.body, d) + (ElseToks(s.orelse, d) + rest))))
  {
    hide Toks, SuiteToks, ElseToks;
    var t, i, b, o := Toks(s.target, TUPLE), Toks(s.iter, TEST), SuiteToks(s.body, d), ElseToks(s.orelse, d);
    assert LineToks(s, d) == [KwFor] + t + [KwIn] + i + b + o;
    Regroup4([KwFor] + t + [KwIn] + i, b, o, rest);
    Regroup4([KwFor] + t, [KwIn], i, b + (o + rest));
    Regroup([KwFor], t, [KwIn] + (i + (b + (o + rest))));
    Tail(KwFor, t + ([KwIn] + (i + (b + (o + rest)))));
  }

  lemma {:induction false} ForRoundTrip(s: Stmt, d: nat, rest: seq<Token>)
    requires ValidStmt(s) && s.For? && Ended(d, rest)
    ensures ParseFor(d, (LineToks(s, d) + rest)[1..]) == Ok(Image(true, s), rest)
    decreases s, 2
  {
    hide ParseTargets, ParseStarExprs, ParseSuite, ParseElse, Toks, SuiteToks, ElseToks, Erase, ImageAll, ParseFor;
    hide LineToks, Valid;
    var after := ElseToks(s.orelse, d) + rest;
    var suite := SuiteToks(s.body, d) + after;
    var iter := Toks(s.iter, TEST) + suite;
    ForTokens(s, d, rest);
    assert Image(true, s) == For(Erase(s.target), Erase(s.iter), ImageAll(true, s.body), ImageAll(true, s.orelse));
    hide Image, ValidStmts;
    ForTargetRoundTrip(s.target, [KwIn] + iter);
    SuiteStart(s.body, d, after);
    StarExprsRoundTrip(s.iter, suite);
    ElseRoundTrip(s.orelse, d, rest);
    SuiteRoundTrip(s.body, d, after);
    ForRead(d, Toks(s.target, TUPLE) + ([KwIn] + iter), Erase(s.target), iter, Erase(s.iter), suite,
            ImageAll(true, s.body), after);
  }

  lemma ForRead(d: nat, ts: seq<Token>, t: Expr, iter: seq<Token>, i: Expr, suite: seq<Token>, b: seq<Stmt>,
                after: seq<Token>)
    requires ParseTargets(ts) == Ok(t, [KwIn] + iter) && ParseStarExprs(iter) == Ok(i, suite)
    requires ParseSuite(d, suite) == Ok(b, after) && ParseElse(d, after).Ok?
    ensures ParseFor(d, ts) == Ok(For(t, i, b, ParseElse(d, after).value), ParseElse(d, after).rest)
  {
    hide ParseTargets, ParseStarExprs, ParseSuite, ParseElse;
    Tail(KwIn, iter);
  }

  lemma {:induction false} WithStmtRoundTrip(s: Stmt, d: nat, rest: seq<Token>)
    requires ValidStmt(s) && s.With? && Ended(d, rest)
    ensures ParseStmt(d, LineToks(s, d) + rest) == Ok(Image(true, s), rest)
    decreases s, 2
  {
    hide ParseStmt, ParseWith, ParseSuite, WithToks, SuiteToks, ImageItems, ImageAll;
    var suite := SuiteToks(s.body, d) + rest;
    assert LineToks(s, d) + rest == [KwWith] + (WithToks(s.items) + suite);
    assert Image(true, s) == With(ImageItems(true, s.items), ImageAll(true, s.body));
    hide LineToks, Image;
    SuiteStart(s.body, d, rest);
    WithRead(s.items, suite);
    SuiteRoundTrip(s.body, d, rest);
    ItemsRead(d, WithToks(s.items) + suite, ImageItems(true, s.items), suite, ImageAll(true, s.body), rest);
  }

  lemma ItemsRead(d: nat, ts: seq<Token>, items: seq<WithItem>, suite: seq<Token>, b: seq<Stmt>, rest: seq<Token>)
    requires ParseWith(ts) == Ok(items, suite) && ParseSuite(d, suite) == Ok(b, rest)
    ensures ParseStmt(d, [KwWith] + ts) == Ok(With(items, b), rest)
  {
    hide ParseIf, ParseFor, ParseTry, ParseMatch, ParseRaise, ParseWith, ParseSimple, ParseNamed, ParseSuite,
        ParseElse, ParseStarExprs;
    Tail(KwWith, ts);
  }

  /** A handler after its `except` or `except*`. */
  function HandlerBody(h: Handler, d: nat): seq<Token> {
    OptToks(h.kind) + (if h.name.None? then [] else [KwAs, Id(h.name.value)]) + SuiteToks(h.body, d)
  }

  lemma {:induction false} HandlerRoundTrip(star: bool, h: Handler, d: nat, rest: seq<Token>)
    requires ValidHandler(h) && (star ==> h.kind.Some?) && Dedent(d, rest)
    ensures var ts := HandlerBody(h, d) + rest;
            ts != [] && ts[0] != Op(Mult) && ParseHandler(d, star, ts) == Ok(ImageHandler(true, h), rest)
    decreases h, 1
  {
    hide Parse, ParseSuite, Toks, SuiteToks, Erase, ImageAll, ParseHandler, Valid;
    var suite := SuiteToks(h.body, d) + rest;
    var ts := HandlerBody(h, d) + rest;
    SuiteStart(h.body, d, rest);
    SuiteRoundTrip(h.body, d, rest);
    if h.kind.None? {
      assert ts == suite;
      UntypedHandler(d, ts, ImageAll(true, h.body), rest);
    } else {
      var named := if h.name.None? then [] else [KwAs, Id(h.name.value)];
      var after := named + suite;
      assert ts == Toks(h.kind.value, TEST) + after;
      hide HandlerBody;
      RoundTrip(h.kind.value, TEST, after);
      TypedHandler(d, star, ts, Erase(h.kind.value), h.name, suite, ImageAll(true, h.body), rest);
    }
  }

  lemma UntypedHandler(d: nat, suite: seq<Token>, b: seq<Stmt>, rest: seq<Token>)
    requires At(suite, Colon) && ParseSuite(d, suite) == Ok(b, rest)
    ensures ParseHandler(d, false, suite) == Ok(Handler(None, None, b), rest)
  {
    hide Parse, ParseSuite;
  }

  lemma TypedHandler(d: nat, star: bool, ts: seq<Token>, e: Expr, name: Option<string>, suite: seq<Token>,
                     b: seq<Stmt>, rest: seq<Token>)
    requires Parse(TEST, ts) == Ok(e, (if name.None? then [] else [KwAs, Id(name.value)]) + suite)
    requires At(suite, Colon) && ParseSuite(d, suite) == Ok(b, rest)
    ensures ParseHandler(d, star, ts) == Ok(Handler(Some(e), name, b), rest)
  {
    hide Parse, ParseSuite;
    if name.None? {
      assert [] + suite == suite;
    } else {
      assert ([KwAs, Id(name.value)] + suite)[2..] == suite;
    }
  }

  lemma HandlerText(star: bool, h: Handler, d: nat, rest: seq<Token>)
    ensures HandlerTok(star, h, d) + rest == [Line(d), KwExcept] + (if star then [Op(Mult)] else [])
        + (HandlerBody(h, d) + rest)
  {
    hide OptToks, SuiteToks;
  }

  lemma {:induction false} HandlersRoundTrip(star: bool, hs: seq<Handler>, d: nat, rest: seq<Token>)
    requires ValidHandlers(hs) && (star ==> AllTyped(hs)) && Dedent(d, rest) && !AtClause(d, KwExcept, rest)
    ensures ParseHandlers(d, star, HandlerToks(star, hs, d) + rest) == Ok(ImageHandlers(true, hs), rest)
    ensures Dedent(d, HandlerToks(star, hs, d) + rest)
    ensures var ts := HandlerToks(star, hs, d) + rest;
            hs != [] ==> |ts| >= 3 && AtClause(d, KwExcept, ts) && (ts[2] == Op(Mult)) == star
    decreases hs, 8
  {
    hide ParseHandler, ParseHandlers, HandlerTok, HandlerBody, ImageHandler, ValidHandler;
    var ts := HandlerToks(star, hs, d) + rest;
    if hs == [] {
      assert ts == rest;
      NoHandlers(d, star, rest);
    } else {
      var h := hs[0];
      var after := HandlerToks(star, hs[1..], d) + rest;
      HandlersRoundTrip(star, hs[1..], d, rest);
      HandlerRoundTrip(star, h, d, after);
      assert ts == HandlerTok(star, h, d) + after;
      HandlerText(star, h, d, after);
      HandlersStep(d, star, ts, HandlerBody(h, d) + after, ImageHandler(true, h), after, ImageHandlers(true, hs[1..]),
          rest);
    }
  }

  lemma NoHandlers(d: nat, star: bool, ts: seq<Token>)
    requires !AtClause(d, KwExcept, ts)
    ensures ParseHandlers(d, star, ts) == Ok([], ts)
  {
  }

  lemma HandlersStep(d: nat, star: bool, ts: seq<Token>, body: seq<Token>, h: Handler, after: seq<Token>,
                     hs: seq<Handler>, rest: seq<Token>)
    requires ts == [Line(d), KwExcept] + (if star then [Op(Mult)] else []) + body
    requires body != [] && body[0] != Op(Mult)
    requires ParseHandler(d, star, body) == Ok(h, after) && ParseHandlers(d, star, after) == Ok(hs, rest)
    ensures ParseHandlers(d, star, ts) == Ok([h] + hs, rest)
    ensures |ts| >= 3 && AtClause(d, KwExcept, ts) && (ts[2] == Op(Mult)) == star
  {
    hide ParseHandler;
    if star {
      assert ts == [Line(d), KwExcept, Op(Mult)] + body;
      assert ts[3..] == body;
    } else {
      assert ts == [Line(d), KwExcept] + body;
      assert ts[2..] == body;
    }
  }

  /** The clauses of a `try` statement put together. */
  lemma TryParts(d: nat, ts: seq<Token>, s: Stmt, r1: seq<Token>, r2: seq<Token>, r3: seq<Token>, rest: seq<Token>)
    requires s.Try? && (s.handlers == [] ==> !s.star && s.orelse == [] && s.finalbody != [] && r2 == r3)
    requires ParseSuite(d, ts) == Ok(s.body, r1)
    requires ParseHandlers(d, s.star, r1) == Ok(s.handlers, r2)
    requires if s.handlers == [] then !AtClause(d, KwExcept, r1)
             else |r1| >= 3 && AtClause(d, KwExcept, r1) && (r1[2] == Op(Mult)) == s.star
    requires ParseElse(d, r2) == Ok(s.orelse, r3)
    requires if s.finalbody == [] then r3 == rest && !AtClause(d, KwFinally, rest)
             else AtClause(d, KwFinally, r3) && ParseSuite(d, r3[2..]) == Ok(s.finalbody, rest)
    ensures ParseTry(d, ts) == Ok(s, rest)
  {
    hide ParseSuite, ParseElse, ParseHandlers;
  }

  lemma TryText(s: Stmt, d: nat, rest: seq<Token>)
    requires s.Try?
    ensures LineToks(s, d) != []
    ensures (LineToks(s, d) + rest)[1..]
         == SuiteToks(s.body, d) + (HandlerToks(s.star, s.handlers, d)
             + (ElseToks(s.orelse, d) + (FinallyToks(s.finalbody, d) + rest)))
    ensures s.handlers == [] ==> HandlerToks(s.star, s.handlers, d) == [] && ImageHandlers(true, s.handlers) == []
    ensures s.orelse == [] ==> ElseToks(s.orelse, d) == [] && ImageAll(true, s.orelse) == []
    ensures s.finalbody == [] ==> ImageAll(true, s.finalbody) == []
  {
    hide SuiteToks, FinallyToks;
    var b, hs := SuiteToks(s.body, d), HandlerToks(s.star, s.handlers, d);
    var o, f := ElseToks(s.orelse, d), FinallyToks(s.finalbody, d);
    assert LineToks(s, d) == [KwTry] + b + hs + o + f;
    hide LineToks, HandlerTok, ElseToks, Image, ImageHandler;
    Regroup4([KwTry] + b + hs, o, f, rest);
    Regroup4([KwTry], b, hs, o + (f + rest));
    Tail(KwTry, b + (hs + (o + (f + rest))));
    NoElse(s.orelse, d);
  }

  lemma NoElse(o: seq<Stmt>, d: nat)
    ensures o == [] ==> ElseToks(o, d) == []
  {
  }

  lemma {:induction false} TryRoundTrip(s: Stmt, d: nat, rest: seq<Token>)
    requires ValidStmt(s) && s.Try? && Ended(d, rest)
    ensures ParseTry(d, (LineToks(s, d) + rest)[1..]) == Ok(Image(true, s), rest)
    decreases s, 2
  {
    hide ParseSuite, ParseElse, ParseHandlers, ParseTry, SuiteToks, ElseToks, HandlerToks, ImageAll, ImageHandlers,
        FinallyToks, LineToks;
    var r3 := FinallyToks(s.finalbody, d) + rest;
    var r2 := ElseToks(s.orelse, d) + r3;
    var r1 := HandlerToks(s.star, s.handlers, d) + r2;
    TryText(s, d, rest);
    assert ValidSuite(s.body) && ValidHandlers(s.handlers) && ValidStmts(s.orelse) && ValidStmts(s.finalbody);
    var t := Image(true, s);
    assert t == Try(s.star, ImageAll(true, s.body), ImageHandlers(true, s.handlers), ImageAll(true, s.orelse),
                    ImageAll(true, s.finalbody));
    hide Image, ValidStmts, ValidHandlers;
    FinallyStart(s.finalbody, d, rest);
    ElseRoundTrip(s.orelse, d, r3);
    ElseNotExcept(s.orelse, d, r3);
    HandlersRoundTrip(s.star, s.handlers, d, r2);
    SuiteRoundTrip(s.body, d, r1);
    if s.handlers == [] { assert r1 == r2 == r3; }
    if s.finalbody != [] { SuiteRoundTrip(s.finalbody, d, rest); }
    TryParts(d, (LineToks(s, d) + rest)[1..], t, r1, r2, r3, rest);
  }

  lemma FinallyStart(f: seq<Stmt>, d: nat, rest: seq<Token>)
    requires Ended(d, rest)
    ensures var ts := FinallyToks(f, d) + rest;
            Dedent(d, ts) && !AtClause(d, KwElse, ts) && !AtClause(d, KwExcept, ts) &&
            if f == [] then ts == rest && !AtClause(d, KwFinally, ts)
            else AtClause(d, KwFinally, ts) && ts[2..] == SuiteToks(f, d) + rest
  {
    hide SuiteToks;
    if f == [] { assert FinallyToks(f, d) + rest == rest; }
  }

  lemma ElseNotExcept(o: seq<Stmt>, d: nat, rest: seq<Token>)
    requires !AtClause(d, KwExcept, rest)
    ensures !AtClause(d, KwExcept, ElseToks(o, d) + rest)
  {
    hide SuiteToks;
    if o == [] { assert ElseToks(o, d) + rest == rest; }
  }

  lemma {:induction false} CaseRoundTrip(c: Case, d: nat, rest: seq<Token>)
    requires ValidCase(c) && Dedent(d, rest)
    ensures AtClause(d, KwCase, CaseTok(c, d) + rest)
    ensures ParseCase(d, (CaseTok(c, d) + rest)[2..]) == Ok(ImageCase(true, c), rest)
    decreases c, 1
  {
    hide ParseCasePattern, ParseNamed, ParseSuite, Toks, PatternToks, SuiteToks, Erase, ErasePattern, ImageAll;
    hide ParseCase, ValidPattern, Valid, ValidStmts;
    var suite := SuiteToks(c.body, d) + rest;
    SuiteStart(c.body, d, rest);
    SuiteRoundTrip(c.body, d, rest);
    var guard := if c.guard.None? then suite else Toks(c.guard.value, TEST) + suite;
    var after := if c.guard.None? then suite else [KwIf] + guard;
    var ts := PatternToks(c.pattern, TEST) + after;
    assert CaseTok(c, d) + rest == [Line(d), KwCase] + ts;
    assert (CaseTok(c, d) + rest)[2..] == ts;
    hide CaseTok;
    CasePatternRoundTrip(c.pattern, after);
    if c.guard.Some? { NamedRoundTrip(c.guard.value, suite); }
    CaseRead(d, ts, ErasePattern(c.pattern), guard, suite, ImageAll(true, c.body), rest);
  }

  /** A pattern, perhaps a guard, and the suite. */
  lemma CaseRead(d: nat, ts: seq<Token>, p: Pattern, guard: seq<Token>, suite: seq<Token>, b: seq<Stmt>,
                 rest: seq<Token>)
    requires ParseSuite(d, suite) == Ok(b, rest) && At(suite, Colon)
    ensures ParseCasePattern(ts) == Ok(p, suite) ==> ParseCase(d, ts) == Ok(Case(p, None, b), rest)
    ensures var g := ParseNamed(guard);
            ParseCasePattern(ts) == Ok(p, [KwIf] + guard) && g.Ok? && g.rest == suite ==>
              ParseCase(d, ts) == Ok(Case(p, Some(g.value), b), rest)
  {
    hide ParseCasePattern, ParseNamed, ParseSuite;
    Tail(KwIf, guard);
  }

  lemma {:induction false} CasesRoundTrip(cs: seq<Case>, d: nat, rest: seq<Token>)
    requires ValidCases(cs) && Dedent(d, rest) && !At(rest, Line(d))
    ensures ParseCases(d, CaseToks(cs, d) + rest) == Ok(ImageCases(true, cs), rest)
    ensures Dedent(d, CaseToks(cs, d) + rest)
    decreases cs, 8
  {
    hide ParseCase, CaseTok, ImageCase;
    if cs == [] {
      assert CaseToks(cs, d) + rest == rest;
    } else {
      var after := CaseToks(cs[1..], d) + rest;
      assert CaseToks(cs, d) + rest == CaseTok(cs[0], d) + after;
      CasesRoundTrip(cs[1..], d, rest);
      CaseRoundTrip(cs[0], d, after);
    }
  }

  lemma {:induction false} MatchRoundTrip(s: Stmt, d: nat, rest: seq<Token>)
    requires ValidStmt(s) && s.Match? && Ended(d, rest)
    ensures ParseMatch(d, (LineToks(s, d) + rest)[1..]) == Ok(Image(true, s), rest)
    decreases s, 2
  {
    hide ParseElts, ParseElt, ParseCases, Toks, CaseToks, Erase, ImageCases;
    var cases := CaseToks(s.cases, d + 1) + rest;
    var after := [Colon] + cases;
    var v := Toks(s.subject, TEST);
    var ts := v + after;
    assert LineToks(s, d) == [KwMatch] + v + [Colon] + CaseToks(s.cases, d + 1);
    Regroup4([KwMatch] + v, [Colon], CaseToks(s.cases, d + 1), rest);
    Regroup([KwMatch], v, after);
    Tail(KwMatch, ts);
    hide LineToks;
    EltRoundTrip(true, s.subject, after);
    OneElt(true, ts, Erase(s.subject), after);
    ErasedStar(s.subject);
    CasesRoundTrip(s.cases, d + 1, rest);
    FirstCase(s.cases, d + 1, rest);
    hide ParseMatch;
    MatchRead(d, ts, Erase(s.subject), cases, ImageCases(true, s.cases), rest);
  }

  lemma MatchRead(d: nat, ts: seq<Token>, e: Expr, cases: seq<Token>, cs: seq<Case>, rest: seq<Token>)
    requires ParseElts(true, ts) == Ok(Elts([e], false), [Colon] + cases) && !e.Starred?
    requires At(cases, Line(d + 1)) && ParseCases(d + 1, cases) == Ok(cs, rest) && cs != []
    ensures ParseMatch(d, ts) == Ok(Match(e, cs), rest)
  {
    hide ParseElts, ParseCases;
    Tail(Colon, cases);
  }

  lemma ErasedStar(e: Expr)
    ensures Erase(e).Starred? == e.Starred?
  {
  }

  lemma FirstCase(cs: seq<Case>, d: nat, rest: seq<Token>)
    requires cs != []
    ensures At(CaseToks(cs, d) + rest, Line(d))
    ensures ImageCases(true, cs) != []
  {
    hide Toks, PatternToks, SuiteToks;
    assert CaseTok(cs[0], d)[0] == Line(d);
  }

  /** Which rule serves which keyword. */
  lemma KeywordRule(d: nat, ts: seq<Token>)
    requires ts != []
    ensures ts[0] == KwIf ==> ParseStmt(d, ts) == ParseIf(d, ts[1..])
    ensures ts[0] == KwFor ==> ParseStmt(d, ts) == ParseFor(d, ts[1..])
    ensures ts[0] == KwTry ==> ParseStmt(d, ts) == ParseTry(d, ts[1..])
    ensures ts[0] == KwMatch ==> ParseStmt(d, ts) == ParseMatch(d, ts[1..])
    ensures ts[0] == KwRaise ==> ParseStmt(d, ts) == ParseRaise(ts[1..])
    ensures StartsElt(ts) || ts[0] == KwYield ==> ParseStmt(d, ts) == ParseSimple(ts)
  {
    hide ParseIf, ParseFor, ParseTry, ParseMatch, ParseRaise, ParseWith, ParseSimple, ParseNamed, ParseSuite,
        ParseElse, ParseStarExprs;
  }

  lemma LineStart(s: Stmt, d: nat, rest: seq<Token>)
    requires s.If? || s.For? || s.Try? || s.Match? || s.Raise?
    ensures At(LineToks(s, d) + rest, HeadWord(s))
    ensures s.If? ==> (LineToks(s, d) + rest)[1..] == IfToks(s, d) + rest
  {
    hide Toks, SuiteToks, ElseToks, HandlerToks, CaseToks, FinallyToks, IfToks;
    if s.If? {
      assert LineToks(s, d) == [KwIf] + IfToks(s, d);
      Regroup([KwIf], IfToks(s, d), rest);
      Tail(KwIf, IfToks(s, d) + rest);
    } else {
      assert LineToks(s, d)[0] == HeadWord(s);
    }
  }

  function HeadWord(s: Stmt): Token {
    match s
    case If(_, _, _) => KwIf
    case For(_, _, _, _) => KwFor
    case Try(_, _, _, _, _) => KwTry
    case Match(_, _) => KwMatch
    case _ => KwRaise
  }

  /** Every statement, from the start of its line on. */
  lemma {:induction false} StmtRoundTrip(s: Stmt, d: nat, rest: seq<Token>)
    requires ValidStmt(s) && Ended(d, rest)
    ensures ParseStmt(d, LineToks(s, d) + rest) == Ok(Image(true, s), rest)
    decreases s, 4
  {
    hide ParseStmt, ParseSimple, LineToks, Image, ValidStmt;
    var ts := LineToks(s, d) + rest;
    if s.Return? {
      ReturnRoundTrip(s, d, rest);
    } else if s.Pass? || s.Break? || s.Continue? {
      WordRoundTrip(s, d, rest);
    } else if s.While? {
      WhileRoundTrip(s, d, rest);
    } else if s.With? {
      WithStmtRoundTrip(s, d, rest);
    } else if s.ExprStmt? || s.AssignStmt? || s.AugAssign? {
      SimpleRoundTrip(s, d, rest);
      KeywordRule(d, ts);
    } else {
      KeywordStmtRoundTrip(s, d, rest);
    }
  }

  lemma {:induction false} KeywordStmtRoundTrip(s: Stmt, d: nat, rest: seq<Token>)
    requires ValidStmt(s) && Ended(d, rest) && (s.Raise? || s.If? || s.For? || s.Try? || s.Match?)
    ensures ParseStmt(d, LineToks(s, d) + rest) == Ok(Image(true, s), rest)
    decreases s, 3
  {
    hide ParseStmt, ParseIf, ParseFor, ParseTry, ParseMatch, ParseRaise, ParseSimple, LineToks, IfToks, Image,
        ValidStmt;
    var ts := LineToks(s, d) + rest;
    LineStart(s, d, rest);
    KeywordRule(d, ts);
    match s
    case Raise(_, _) => RaiseRoundTrip(s, d, rest);
    case If(_, _, _) => IfRoundTrip(s, d, rest);
    case For(_, _, _, _) => ForRoundTrip(s, d, rest);
    case Try(_, _, _, _, _) => TryRoundTrip(s, d, rest);
    case Match(_, _) => MatchRoundTrip(s, d, rest);
  }

  lemma WordRoundTrip(s: Stmt, d: nat, rest: seq<Token>)
    requires s.Pass? || s.Break? || s.Continue?
    ensures ParseStmt(d, LineToks(s, d) + rest) == Ok(Image(true, s), rest)
  {
    hide ParseStmt;
    var t := if s.Pass? then KwPass else if s.Break? then KwBreak else KwContinue;
    assert LineToks(s, d) == [t] && Image(true, s) == s;
    hide LineToks, Image;
    WordRead(s, t, d, rest);
  }

  lemma WordRead(s: Stmt, t: Token, d: nat, rest: seq<Token>)
    requires (s.Pass? && t == KwPass) || (s.Break? && t == KwBreak) || (s.Continue? && t == KwContinue)
    ensures ParseStmt(d, [t] + rest) == Ok(s, rest)
  {
    hide ParseIf, ParseFor, ParseTry, ParseMatch, ParseRaise, ParseWith, ParseSimple, ParseNamed, ParseSuite,
        ParseElse, ParseStarExprs;
    Tail(t, rest);
  }

  /** What the text of a whole module reads as. */
  lemma ModuleRead(b: seq<Stmt>)
    requires ValidStmts(b)
    ensures ParseModule(BodyToks(b, 0)) == Ok(ImageAll(true, b), [])
  {
    hide ParseBody, StmtToks;
    if b != [] {
      BodyRoundTrip(b, 0, []);
      assert BodyToks(b, 0) + [] == BodyToks(b, 0);
      StmtNotEmpty(b[0]);
    }
  }

  lemma StmtNotEmpty(s: Stmt)
    ensures StmtToks(s, 0) != []
  {
    hide LineToks;
  }
}
