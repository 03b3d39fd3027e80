/** Statements and the lines they print as. */
module StmtText {
  import opened Options
  import opened PyAst
  import opened Tokens
  import opened ExprText
  import opened PatternText

  datatype WithItem = WithItem(context: Expr, vars: Option<Expr>)
  datatype Handler = Handler(kind: Option<Expr>, name: Option<string>, body: seq<Stmt>)
  datatype Case = Case(pattern: Pattern, guard: Option<Expr>, body: seq<Stmt>)

  datatype Stmt =
    | ExprStmt(value: Expr)
    | AssignStmt(targets: seq<Expr>, value: Expr)
    | AugAssign(target: Expr, op: Bin, value: Expr)
    | Return(result: Option<Expr>)
    | Raise(exc: Option<Expr>, cause: Option<Expr>)
    | Pass
    | Break
    | Continue
    | If(test: Expr, body: seq<Stmt>, orelse: seq<Stmt>)
    | While(test: Expr, body: seq<Stmt>, orelse: seq<Stmt>)
    | For(target: Expr, iter: Expr, body: seq<Stmt>, orelse: seq<Stmt>)
    | With(items: seq<WithItem>, body: seq<Stmt>)
    | Try(star: bool, body: seq<Stmt>, handlers: seq<Handler>, orelse: seq<Stmt>, finalbody: seq<Stmt>)
    | Match(subject: Expr, cases: seq<Case>)

  /** What can be assigned to, apart from starred targets. */
  predicate IsTarget(e: Expr)
    decreases e, 1
  {
    e.Name? || e.Attribute? || e.Subscript? || ((e.Tuple? || e.List?) && AreTargets(e.elts))
  }

  predicate AreTargets(es: seq<Expr>)
    decreases es, 0
  {
    es == [] || (IsTargetElt(es[0]) && AreTargets(es[1..]))
  }

  predicate IsTargetElt(e: Expr)
    decreases e, 2
  {
    if e.Starred? then IsTarget(e.starred) else IsTarget(e)
  }

  predicate IsSingleTarget(e: Expr) {
    e.Name? || e.Attribute? || e.Subscript?
  }

  predicate ValidTarget(e: Expr) {
    ValidElt(e) && IsTargetElt(e)
  }

  predicate ValidTargets(es: seq<Expr>) {
    es == [] || (ValidTarget(es[0]) && ValidTargets(es[1..]))
  }

  predicate ValidOptElt(e: Option<Expr>) {
    e.Some? ==> ValidElt(e.value)
  }

  predicate ValidOpt(e: Option<Expr>) {
    e.Some? ==> Valid(e.value)
  }

  predicate ValidItem(i: WithItem) {
    Valid(i.context) && (i.vars.Some? ==> ValidTarget(i.vars.value))
  }

  predicate ValidItems(items: seq<WithItem>) {
    items == [] || (ValidItem(items[0]) && ValidItems(items[1..]))
  }

  /** The statements that Python's parser yields. A lone starred expression may be a
      statement, a target, and the value of an assignment, a `return` or a `for`: only
      the compiler rejects it there. */
  predicate ValidStmt(s: Stmt)
    decreases s, 1
  {
    match s
    case ExprStmt(v) => ValidElt(v)
    case AssignStmt(ts, v) => ts != [] && ValidTargets(ts) && ValidElt(v)
    case AugAssign(t, _, v) => Valid(t) && IsSingleTarget(t) && ValidElt(v)
    case Return(v) => ValidOptElt(v)
    case Raise(e, c) => ValidOpt(e) && ValidOpt(c) && (e.None? ==> c.None?)
    case Pass => true
    case Break => true
    case Continue => true
    case If(t, b, o) => Valid(t) && ValidSuite(b) && ValidStmts(o)
    case While(t, b, o) => Valid(t) && ValidSuite(b) && ValidStmts(o)
    case For(t, i, b, o) => ValidTarget(t) && ValidElt(i) && ValidSuite(b) && ValidStmts(o)
    case With(items, b) => items != [] && ValidItems(items) && ValidSuite(b)
    case Try(star, b, hs, o, f) =>
      ValidSuite(b) && ValidHandlers(hs) && ValidStmts(o) && ValidStmts(f)
      && (hs == [] ==> o == [] && f != []) && (star ==> hs != [] && AllTyped(hs))
    case Match(v, cs) => Valid(v) && cs != [] && ValidCases(cs)
  }

  predicate ValidSuite(b: seq<Stmt>)
    decreases b, 1
  {
    b != [] && ValidStmts(b)
  }

  predicate ValidStmts(b: seq<Stmt>)
    decreases b, 0
  {
    b == [] || (ValidStmt(b[0]) && ValidStmts(b[1..]))
  }

  predicate ValidHandler(h: Handler)
    decreases h, 0
  {
    ValidOpt(h.kind) && (h.name.Some? ==> h.kind.Some?) && ValidSuite(h.body)
  }

  predicate ValidHandlers(hs: seq<Handler>)
    decreases hs, 0
  {
    hs == [] || (ValidHandler(hs[0]) && ValidHandlers(hs[1..]))
  }

  predicate AllTyped(hs: seq<Handler>) {
    hs == [] || (hs[0].kind.Some? && AllTyped(hs[1..]))
  }

  predicate ValidCase(c: Case)
    decreases c, 0
  {
    ValidPattern(c.pattern) && ValidOpt(c.guard) && ValidSuite(c.body)
  }

  predicate ValidCases(cs: seq<Case>)
    decreases cs, 0
  {
    cs == [] || (ValidCase(cs[0]) && ValidCases(cs[1..]))
  }

  /* ----- text ----- */

  function OptToks(e: Option<Expr>): seq<Token> {
    if e.None? then [] else Toks(e.value, TEST)
  }

  function TargetToks(ts: seq<Expr>): seq<Token> {
    if ts == [] then [] else Toks(ts[0], TUPLE) + [Assign] + TargetToks(ts[1..])
  }

  function WithItemTok(i: WithItem): seq<Token> {
    Toks(i.context, TEST) + (if i.vars.None? then [] else [KwAs] + Toks(i.vars.value, TEST))
  }

  function WithToks(items: seq<WithItem>): seq<Token> {
    if items == [] then []
    else if |items| == 1 then WithItemTok(items[0])
    else WithItemTok(items[0]) + [Comma] + WithToks(items[1..])
  }

  /** A statement at indentation `d`: its first line, and the lines under it. */
  function StmtToks(s: Stmt, d: nat): seq<Token>
    decreases s, 3
  {
    [Line(d)] + LineToks(s, d)
  }

  function LineToks(s: Stmt, d: nat): seq<Token>
    decreases s, 2
  {
    match s
    case ExprStmt(v) => Toks(v, YIELD)
    case AssignStmt(ts, v) => TargetToks(ts) + Toks(v, TEST)
    case AugAssign(t, op, v) => Toks(t, TEST) + [Aug(op)] + Toks(v, TEST)
    case Return(v) => [KwReturn] + OptToks(v)
    case Raise(e, c) => [KwRaise] + OptToks(e) + (if e.None? || c.None? then [] else [KwFrom] + Toks(c.value, TEST))
    case Pass => [KwPass]
    case Break => [KwBreak]
    case Continue => [KwContinue]
    case If(t, b, o) => [KwIf] + IfToks(s, d)
    case While(t, b, o) => [KwWhile] + Toks(t, TEST) + SuiteToks(b, d) + ElseToks(o, d)
    case For(t, i, b, o) => [KwFor] + Toks(t, TUPLE) + [KwIn] + Toks(i, TEST) + SuiteToks(b, d) + ElseToks(o, d)
    case With(items, b) => [KwWith] + WithToks(items) + SuiteToks(b, d)
    case Try(star, b, hs, o, f) =>
      [KwTry] + SuiteToks(b, d) + HandlerToks(star, hs, d) + ElseToks(o, d) + FinallyToks(f, d)
    case Match(v, cs) => [KwMatch] + Toks(v, TEST) + [Colon] + CaseToks(cs, d + 1)
  }

  /** A conditional after its `if` or `elif`; an `else` holding only another
      conditional collapses into `elif`. */
  function IfToks(s: Stmt, d: nat): seq<Token>
    requires s.If?
    decreases s, 1
  {
    Toks(s.test, TEST) + SuiteToks(s.body, d)
    + (if |s.orelse| == 1 && s.orelse[0].If? then [Line(d), KwElif] + IfToks(s.orelse[0], d) else ElseToks(s.orelse, d))
  }

  /** A colon and the statements one level deeper. */
  function SuiteToks(b: seq<Stmt>, d: nat): seq<Token>
    decreases b, 1
  {
    [Colon] + BodyToks(b, d + 1)
  }

  function ElseToks(o: seq<Stmt>, d: nat): seq<Token>
    decreases o, 2
  {
    if o == [] then [] else [Line(d), KwElse] + SuiteToks(o, d)
  }

  function FinallyToks(f: seq<Stmt>, d: nat): seq<Token>
    decreases f, 2
  {
    if f == [] then [] else [Line(d), KwFinally] + SuiteToks(f, d)
  }

  function BodyToks(b: seq<Stmt>, d: nat): seq<Token>
    decreases b, 0
  {
    if b == [] then [] else StmtToks(b[0], d) + BodyToks(b[1..], d)
  }

  function HandlerTok(star: bool, h: Handler, d: nat): seq<Token>
    decreases h, 0
  {
    [Line(d), KwExcept] + (if star then [Op(Mult)] else []) + OptToks(h.kind)
    + (if h.name.None? then [] else [KwAs, Id(h.name.value)]) + SuiteToks(h.body, d)
  }

  function HandlerToks(star: bool, hs: seq<Handler>, d: nat): seq<Token>
    decreases hs, 0
  {
    if hs == [] then [] else HandlerTok(star, hs[0], d) + HandlerToks(star, hs[1..], d)
  }

  function CaseTok(c: Case, d: nat): seq<Token>
    decreases c, 0
  {
    [Line(d), KwCase] + PatternToks(c.pattern, TEST)
    + (if c.guard.None? then [] else [KwIf] + Toks(c.guard.value, TEST)) + SuiteToks(c.body, d)
  }

  function CaseToks(cs: seq<Case>, d: nat): seq<Token>
    decreases cs, 0
  {
    if cs == [] then [] else CaseTok(cs[0], d) + CaseToks(cs[1..], d)
  }

  /* ----- trees without identities ----- */

  function EraseOpt(e: Option<Expr>): Option<Expr> {
    if e.None? then None else Some(Erase(e.value))
  }

  function EraseItem(i: WithItem): WithItem {
    WithItem(Erase(i.context), EraseOpt(i.vars))
  }

  function EraseItems(items: seq<WithItem>): seq<WithItem> {
    if items == [] then [] else [EraseItem(items[0])] + EraseItems(items[1..])
  }

  /** A lone `with` item that is a non-empty tuple without starred elements and
      without `as`: its parentheses read as those of a list of items. */
  predicate SoleTuple(items: seq<WithItem>) {
    |items| == 1 && items[0].vars.None? && items[0].context.Tuple? && items[0].context.elts != []
    && NoStarred(items[0].context.elts)
  }

  predicate NoStarred(es: seq<Expr>) {
    es == [] || (!es[0].Starred? && NoStarred(es[1..]))
  }

  function ItemsOf(es: seq<Expr>): (r: seq<WithItem>)
    ensures |r| == |es|
  {
    if es == [] then [] else [WithItem(Erase(es[0]), None)] + ItemsOf(es[1..])
  }

  function ImageItems(reread: bool, items: seq<WithItem>): seq<WithItem> {
    if reread && SoleTuple(items) then ItemsOf(items[0].context.elts) else EraseItems(items)
  }

  /** The statement without identities; with `reread`, the one its text reads as. */
  function Image(reread: bool, s: Stmt): Stmt
    decreases s, 1
  {
    match s
    case ExprStmt(v) => ExprStmt(Erase(v))
    case AssignStmt(ts, v) => AssignStmt(EraseAll(ts), Erase(v))
    case AugAssign(t, op, v) => AugAssign(Erase(t), op, Erase(v))
    case Return(v) => Return(EraseOpt(v))
    case Raise(e, c) => Raise(EraseOpt(e), EraseOpt(c))
    case Pass => Pass
    case Break => Break
    case Continue => Continue
    case If(t, b, o) => If(Erase(t), ImageAll(reread, b), ImageAll(reread, o))
    case While(t, b, o) => While(Erase(t), ImageAll(reread, b), ImageAll(reread, o))
    case For(t, i, b, o) => For(Erase(t), Erase(i), ImageAll(reread, b), ImageAll(reread, o))
    case With(items, b) => With(ImageItems(reread, items), ImageAll(reread, b))
    case Try(star, b, hs, o, f) =>
      Try(star, ImageAll(reread, b), ImageHandlers(reread, hs), ImageAll(reread, o), ImageAll(reread, f))
    case Match(v, cs) => Match(Erase(v), ImageCases(reread, cs))
  }

  function ImageAll(reread: bool, b: seq<Stmt>): (r: seq<Stmt>)
    decreases b, 0
    ensures |r| == |b|
  {
    if b == [] then [] else [Image(reread, b[0])] + ImageAll(reread, b[1..])
  }

  function ImageHandler(reread: bool, h: Handler): Handler
    decreases h, 0
  {
    Handler(EraseOpt(h.kind), h.name, ImageAll(reread, h.body))
  }

  function ImageHandlers(reread: bool, hs: seq<Handler>): (r: seq<Handler>)
    decreases hs, 0
    ensures |r| == |hs|
  {
    if hs == [] then [] else [ImageHandler(reread, hs[0])] + ImageHandlers(reread, hs[1..])
  }

  function ImageCase(reread: bool, c: Case): Case
    decreases c, 0
  {
    Case(ErasePattern(c.pattern), EraseOpt(c.guard), ImageAll(reread, c.body))
  }

  function ImageCases(reread: bool, cs: seq<Case>): (r: seq<Case>)
    decreases cs, 0
    ensures |r| == |cs|
  {
    if cs == [] then [] else [ImageCase(reread, cs[0])] + ImageCases(reread, cs[1..])
  }
}
