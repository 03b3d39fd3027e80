/** A parser for indented statements, after chapter 10 of the Python Language
    Reference. Alternatives are tried in the grammar's order. */
module StmtGrammar {
  import opened Options
  import opened PyAst
  import opened Tokens
  import opened ExprGrammar
  import opened PatternGrammar
  import opened StmtText

  datatype Assigned = Assigned(targets: seq<Expr>, value: Expr)
  datatype Clauses = Clauses(handlers: seq<Handler>, orelse: seq<Stmt>, finalbody: seq<Stmt>)

  /** A line at indentation `d` that begins with `t`. */
  predicate AtClause(d: nat, t: Token, ts: seq<Token>) {
    |ts| >= 2 && ts[0] == Line(d) && ts[1] == t
  }

  function ParseModule(ts: seq<Token>): Parsed<seq<Stmt>> {
    if ts == [] then Ok([], []) else
    var b := ParseBody(0, ts);
    if b.Ok? && b.rest == [] then b else Fail
  }

  /** One or more statements at indentation `d`. */
  function ParseBody(d: nat, ts: seq<Token>): (r: Parsed<seq<Stmt>>)
    decreases |ts|, 1
    ensures r.Ok? ==> |r.rest| < |ts|
  {
    if !At(ts, Line(d)) then Fail else
    var s := ParseStmt(d, ts[1..]);
    if s.Fail? then Fail
    else if !At(s.rest, Line(d)) then Ok([s.value], s.rest)
    else
      var more := ParseBody(d, s.rest);
      if more.Fail? then Fail else Ok([s.value] + more.value, more.rest)
  }

  /** A colon and a block, indented by any number of levels more than `d`. */
  function ParseSuite(d: nat, ts: seq<Token>): (r: Parsed<seq<Stmt>>)
    decreases |ts|, 2
    ensures r.Ok? ==> |r.rest| < |ts|
  {
    if |ts| >= 2 && ts[0] == Colon && ts[1].Line? && ts[1].indent > d then ParseBody(ts[1].indent, ts[1..]) else Fail
  }

  /** A statement whose line, at indentation `d`, starts `ts`. */
  function ParseStmt(d: nat, ts: seq<Token>): (r: Parsed<Stmt>)
    decreases |ts|, 3
    ensures r.Ok? ==> |r.rest| < |ts|
  {
    if ts == [] then Fail
    else match ts[0]
    case KwPass => Ok(Pass, ts[1..])
    case KwBreak => Ok(Break, ts[1..])
    case KwContinue => Ok(Continue, ts[1..])
    case KwReturn =>
      if !StartsElt(ts[1..]) then Ok(Return(None), ts[1..]) else
      var v := ParseStarExprs(ts[1..]);
      if v.Fail? then Fail else Ok(Return(Some(v.value)), v.rest)
    case KwRaise => ParseRaise(ts[1..])
    case KwIf => ParseIf(d, ts[1..])
    case KwWhile =>
      var t := ParseNamed(ts[1..]);
      if t.Fail? then Fail else
      var b := ParseSuite(d, t.rest);
      if b.Fail? then Fail else
      var o := ParseElse(d, b.rest);
      if o.Fail? then Fail else Ok(While(t.value, b.value, o.value), o.rest)
    case KwFor => ParseFor(d, ts[1..])
    case KwWith =>
      var items := ParseWith(ts[1..]);
      if items.Fail? then Fail else
      var b := ParseSuite(d, items.rest);
      if b.Fail? then Fail else Ok(With(items.value, b.value), b.rest)
    case KwTry => ParseTry(d, ts[1..])
    case KwMatch => ParseMatch(d, ts[1..])
    case _ => ParseSimple(ts)
  }

  function ParseRaise(ts: seq<Token>): (r: Parsed<Stmt>)
    ensures r.Ok? ==> |r.rest| <= |ts|
  {
    if !(ts != [] && Starts(TEST, ts[0])) then Ok(Raise(None, None), ts) else
    var e := Parse(TEST, ts);
    if e.Fail? then Fail
    else if !At(e.rest, KwFrom) then Ok(Raise(Some(e.value), None), e.rest)
    else
      var c := Parse(TEST, e.rest[1..]);
      if c.Fail? then Fail else Ok(Raise(Some(e.value), Some(c.value)), c.rest)
  }

  /** After 'if' or 'elif'. */
  function ParseIf(d: nat, ts: seq<Token>): (r: Parsed<Stmt>)
    decreases |ts|, 3
    ensures r.Ok? ==> |r.rest| < |ts| && r.value.If?
  {
    var t := ParseNamed(ts);
    if t.Fail? then Fail else
    var b := ParseSuite(d, t.rest);
    if b.Fail? then Fail
    else if AtClause(d, KwElif, b.rest) then
      var e := ParseIf(d, b.rest[2..]);
      if e.Fail? then Fail else Ok(If(t.value, b.value, [e.value]), e.rest)
    else
      var o := ParseElse(d, b.rest);
      if o.Fail? then Fail else Ok(If(t.value, b.value, o.value), o.rest)
  }

  function ParseElse(d: nat, ts: seq<Token>): (r: Parsed<seq<Stmt>>)
    decreases |ts|, 3
    ensures r.Ok? ==> |r.rest| <= |ts|
  {
    if AtClause(d, KwElse, ts) then ParseSuite(d, ts[2..]) else Ok([], ts)
  }

  function ParseFor(d: nat, ts: seq<Token>): (r: Parsed<Stmt>)
    decreases |ts|, 3
    ensures r.Ok? ==> |r.rest| < |ts|
  {
    var t := ParseTargets(ts);
    if !(t.Ok? && At(t.rest, KwIn)) then Fail else
    var i := ParseStarExprs(t.rest[1..]);
    if i.Fail? then Fail else
    var b := ParseSuite(d, i.rest);
    if b.Fail? then Fail else
    var o := ParseElse(d, b.rest);
    if o.Fail? then Fail else Ok(For(t.value, i.value, b.value, o.value), o.rest)
  }

  /** star_targets: a target, or an unparenthesised tuple of them */
  function ParseTargets(ts: seq<Token>): (r: Parsed<Expr>)
    ensures r.Ok? ==> |r.rest| < |ts|
  {
    var es := ParseTargetElts(ts);
    if es.Fail? then Fail
    else if |es.value.es| == 1 && !es.value.trailing then Ok(es.value.es[0], es.rest)
    else Ok(Tuple(0, es.value.es), es.rest)
  }

  function ParseTargetElts(ts: seq<Token>): (r: Parsed<Elts>)
    decreases |ts|
    ensures r.Ok? ==> |r.rest| < |ts| && |r.value.es| >= 1
  {
    var e := ParseTargetElt(ts);
    if e.Fail? then Fail
    else if !At(e.rest, Comma) then Ok(Elts([e.value], false), e.rest)
    else if !StartsElt(e.rest[1..]) then Ok(Elts([e.value], true), e.rest[1..])
    else
      var more := ParseTargetElts(e.rest[1..]);
      if more.Fail? then Fail else Ok(Elts([e.value] + more.value.es, more.value.trailing), more.rest)
  }

  function ParseTargetElt(ts: seq<Token>): (r: Parsed<Expr>)
    ensures r.Ok? ==> |r.rest| < |ts|
  {
    if At(ts, Op(Mult)) then
      var v := Parse(ATOM, ts[1..]);
      if v.Ok? && IsTarget(v.value) then Ok(Starred(0, v.value), v.rest) else Fail
    else
      var v := Parse(ATOM, ts);
      if v.Ok? && IsTarget(v.value) then v else Fail
  }

  /** 'with' '(' items [','] ')' ':' if that matches, else 'with' items. Stops at ':'. */
  function ParseWith(ts: seq<Token>): (r: Parsed<seq<WithItem>>)
    ensures r.Ok? ==> |r.rest| <= |ts|
  {
    var p := ParseParenthesised(ts);
    if p.Ok? then p else ParseItems(ts)
  }

  function ParseParenthesised(ts: seq<Token>): (r: Parsed<seq<WithItem>>)
    ensures r.Ok? ==> |r.rest| <= |ts|
  {
    if !At(ts, LPar) then Fail else
    var items := ParseItems(ts[1..]);
    if items.Fail? then Fail else
    var after := if At(items.rest, Comma) then items.rest[1..] else items.rest;
    if At(after, RPar) && At(after[1..], Colon) then Ok(items.value, after[1..]) else Fail
  }

  /** ','.with_item+ : a comma that no item follows is left unread. */
  function ParseItems(ts: seq<Token>): (r: Parsed<seq<WithItem>>)
    decreases |ts|
    ensures r.Ok? ==> |r.rest| < |ts|
  {
    var i := ParseItem(ts);
    if i.Fail? then Fail
    else if !At(i.rest, Comma) then Ok([i.value], i.rest)
    else
      var more := ParseItems(i.rest[1..]);
      if more.Fail? then Ok([i.value], i.rest) else Ok([i.value] + more.value, more.rest)
  }

  /** expression 'as' star_target before ',', ')' or ':', else a bare expression. */
  function ParseItem(ts: seq<Token>): (r: Parsed<WithItem>)
    ensures r.Ok? ==> |r.rest| < |ts|
  {
    var e := Parse(TEST, ts);
    if e.Fail? then Fail
    else if At(e.rest, KwAs) then
      var t := ParseTargetElt(e.rest[1..]);
      if t.Ok? && (At(t.rest, Comma) || At(t.rest, RPar) || At(t.rest, Colon))
      then Ok(WithItem(e.value, Some(t.value)), t.rest) else Ok(WithItem(e.value, None), e.rest)
    else Ok(WithItem(e.value, None), e.rest)
  }

  function ParseTry(d: nat, ts: seq<Token>): (r: Parsed<Stmt>)
    decreases |ts|, 3
    ensures r.Ok? ==> |r.rest| < |ts|
  {
    var b := ParseSuite(d, ts);
    if b.Fail? then Fail else
    var star := |b.rest| >= 3 && AtClause(d, KwExcept, b.rest) && b.rest[2] == Op(Mult);
    var hs := ParseHandlers(d, star, b.rest);
    if hs.Fail? then Fail else
    var o := if hs.value == [] then Ok([], hs.rest) else ParseElse(d, hs.rest);
    if o.Fail? then Fail
    else if AtClause(d, KwFinally, o.rest) then
      var f := ParseSuite(d, o.rest[2..]);
      if f.Fail? then Fail else Ok(Try(star, b.value, hs.value, o.value, f.value), f.rest)
    else if hs.value == [] then Fail
    else Ok(Try(star, b.value, hs.value, o.value, []), o.rest)
  }

  /** Handlers of one kind, all `except` or all `except*`. */
  function ParseHandlers(d: nat, star: bool, ts: seq<Token>): (r: Parsed<seq<Handler>>)
    decreases |ts|, 3
    ensures r.Ok? ==> |r.rest| <= |ts|
  {
    if !AtClause(d, KwExcept, ts) then Ok([], ts) else
    if At(ts[2..], Op(Mult)) != star then Fail else
    var h := ParseHandler(d, star, if star then ts[3..] else ts[2..]);
    if h.Fail? then Fail else
    var more := ParseHandlers(d, star, h.rest);
    if more.Fail? then Fail else Ok([h.value] + more.value, more.rest)
  }

  /** After 'except' or 'except*': [expression ['as' NAME]] block; `except*` needs its expression. */
  function ParseHandler(d: nat, star: bool, ts: seq<Token>): (r: Parsed<Handler>)
    decreases |ts|, 3
    ensures r.Ok? ==> |r.rest| <= |ts|
  {
    if At(ts, Colon) then
      if star then Fail else
      var b := ParseSuite(d, ts);
      if b.Fail? then Fail else Ok(Handler(None, None, b.value), b.rest)
    else
      var e := Parse(TEST, ts);
      if e.Fail? then Fail
      else if At(e.rest, KwAs) && |e.rest| >= 2 && e.rest[1].Id? then
        var b := ParseSuite(d, e.rest[2..]);
        if b.Fail? then Fail else Ok(Handler(Some(e.value), Some(e.rest[1].name), b.value), b.rest)
      else
        var b := ParseSuite(d, e.rest);
        if b.Fail? then Fail else Ok(Handler(Some(e.value), None, b.value), b.rest)
  }

  /** After 'match': a subject, a colon and deeper case blocks. */
  function ParseMatch(d: nat, ts: seq<Token>): (r: Parsed<Stmt>)
    decreases |ts|, 3
    ensures r.Ok? ==> |r.rest| < |ts|
  {
    var es := ParseElts(true, ts);
    if es.Fail? then Fail else
    var single := |es.value.es| == 1 && !es.value.trailing;
    if single && es.value.es[0].Starred? then Fail else
    var v := if single then es.value.es[0] else Tuple(0, es.value.es);
    if !(|es.rest| >= 2 && es.rest[0] == Colon && es.rest[1].Line? && es.rest[1].indent > d) then Fail else
    var cs := ParseCases(es.rest[1].indent, es.rest[1..]);
    if cs.Ok? && cs.value != [] then Ok(Match(v, cs.value), cs.rest) else Fail
  }

  function ParseCases(d: nat, ts: seq<Token>): (r: Parsed<seq<Case>>)
    decreases |ts|, 3
    ensures r.Ok? ==> |r.rest| <= |ts|
  {
    if !AtClause(d, KwCase, ts) then Ok([], ts) else
    var c := ParseCase(d, ts[2..]);
    if c.Fail? then Fail else
    var more := ParseCases(d, c.rest);
    if more.Fail? then Fail else Ok([c.value] + more.value, more.rest)
  }

  /** After 'case': patterns ['if' named_expression] block */
  function ParseCase(d: nat, ts: seq<Token>): (r: Parsed<Case>)
    decreases |ts|, 3
    ensures r.Ok? ==> |r.rest| < |ts|
  {
    var p := ParseCasePattern(ts);
    if p.Fail? then Fail
    else if At(p.rest, KwIf) then
      var g := ParseNamed(p.rest[1..]);
      if g.Fail? then Fail else
      var b := ParseSuite(d, g.rest);
      if b.Fail? then Fail else Ok(Case(p.value, Some(g.value), b.value), b.rest)
    else
      var b := ParseSuite(d, p.rest);
      if b.Fail? then Fail else Ok(Case(p.value, None, b.value), b.rest)
  }

  /** yield_expr | star_expressions */
  function ParseRhs(ts: seq<Token>): (r: Parsed<Expr>)
    ensures r.Ok? ==> |r.rest| < |ts|
  {
    if At(ts, KwYield) then ParseYield(ts[1..]) else ParseStarExprs(ts)
  }

  /** Assignments and expressions. */
  function ParseSimple(ts: seq<Token>): (r: Parsed<Stmt>)
    ensures r.Ok? ==> |r.rest| < |ts|
  {
    var a := ParseAssigned(ts);
    if a.Fail? then Fail
    else if a.value.targets != [] then Ok(AssignStmt(a.value.targets, a.value.value), a.rest)
    else if a.rest != [] && a.rest[0].Aug? then
      if !IsSingleTarget(a.value.value) then Fail else
      var v := ParseRhs(a.rest[1..]);
      if v.Fail? then Fail else Ok(AugAssign(a.value.value, a.rest[0].b, v.value), v.rest)
    else Ok(ExprStmt(a.value.value), a.rest)
  }

  /** Any number of targets with '=' after each, and a last expression. */
  function ParseAssigned(ts: seq<Token>): (r: Parsed<Assigned>)
    decreases |ts|
    ensures r.Ok? ==> |r.rest| < |ts|
  {
    var v := ParseRhs(ts);
    if v.Fail? then Fail
    else if !At(v.rest, Assign) then Ok(Assigned([], v.value), v.rest)
    else if !IsTargetElt(v.value) then Fail
    else
      var more := ParseAssigned(v.rest[1..]);
      if more.Fail? then Fail else Ok(Assigned([v.value] + more.value.targets, more.value.value), more.rest)
  }
}
