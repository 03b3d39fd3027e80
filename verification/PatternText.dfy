/** The patterns of `match` statements and their text. */
module PatternText {
  import opened Options
  import opened PyAst
  import opened Tokens
  import opened ExprText

  datatype Pattern =
    | MatchValue(id: nat, value: Expr)
    | MatchSingleton(id: nat, singleton: Const)
    | MatchSequence(id: nat, elts: seq<Pattern>)
    | MatchStar(id: nat, star: Option<string>)
    | MatchMapping(id: nat, entries: seq<Entry>, rest: Option<string>)
    | MatchClass(id: nat, cls: Expr, positional: seq<Pattern>, attrs: seq<AttrPattern>)
    | MatchAs(id: nat, pattern: Option<Pattern>, name: Option<string>)
    | MatchOr(id: nat, alternatives: seq<Pattern>)

  /** One key and its pattern; one keyword attribute and its pattern. */
  datatype Entry = Entry(key: Expr, pattern: Pattern)
  datatype AttrPattern = AttrPattern(attr: string, pattern: Pattern)

  const WILDCARD := "_"

  /** A name, or a name followed by attributes. */
  predicate Dotted(e: Expr) {
    e.Name? || (e.Attribute? && Dotted(e.base))
  }

  /** What a value pattern compares with, `None` and the booleans aside. */
  predicate ValueExpr(e: Expr) {
    (e.Constant? && e.value.Int?)
    || (e.UnaryOp? && e.unop.USub? && e.operand.Constant? && e.operand.value.Int?)
    || (e.Attribute? && Dotted(e))
  }

  predicate KeyExpr(e: Expr) {
    ValueExpr(e) || (e.Constant? && !e.value.Ellipsis?)
  }

  /** What Python's tree validator asks of a pattern; a star is one only inside a sequence. */
  predicate ValidPattern(p: Pattern)
    decreases p, 1
  {
    match p
    case MatchValue(_, v) => ValueExpr(v)
    case MatchSingleton(_, c) => !c.Int? && !c.Ellipsis?
    case MatchSequence(_, ps) => ValidElements(ps)
    case MatchStar(_, _) => false
    case MatchMapping(_, es, r) => ValidEntries(es) && r != Some(WILDCARD)
    case MatchClass(_, c, ps, as') => Dotted(c) && ValidPatterns(ps) && ValidAttrs(as')
    case MatchAs(_, q, n) => n != Some(WILDCARD) && (q.Some? ==> n.Some? && ValidPattern(q.value))
    case MatchOr(_, ps) => |ps| >= 2 && ValidPatterns(ps)
  }

  predicate ValidPatterns(ps: seq<Pattern>)
    decreases ps, 0
  {
    ps == [] || (ValidPattern(ps[0]) && ValidPatterns(ps[1..]))
  }

  predicate ValidElement(p: Pattern)
    decreases p, 2
  {
    if p.MatchStar? then p.star != Some(WILDCARD) else ValidPattern(p)
  }

  predicate ValidElements(ps: seq<Pattern>)
    decreases ps, 0
  {
    ps == [] || (ValidElement(ps[0]) && ValidElements(ps[1..]))
  }

  predicate ValidEntry(e: Entry)
    decreases e, 0
  {
    KeyExpr(e.key) && ValidPattern(e.pattern)
  }

  predicate ValidEntries(es: seq<Entry>)
    decreases es, 0
  {
    es == [] || (ValidEntry(es[0]) && ValidEntries(es[1..]))
  }

  predicate ValidAttr(a: AttrPattern)
    decreases a, 0
  {
    ValidPattern(a.pattern)
  }

  predicate ValidAttrs(as': seq<AttrPattern>)
    decreases as', 0
  {
    as' == [] || (ValidAttr(as'[0]) && ValidAttrs(as'[1..]))
  }

  function ErasePattern(p: Pattern): Pattern
    decreases p, 1
  {
    match p
    case MatchValue(_, v) => MatchValue(0, Erase(v))
    case MatchSingleton(_, c) => MatchSingleton(0, c)
    case MatchSequence(_, ps) => MatchSequence(0, ErasePatterns(ps))
    case MatchStar(_, n) => MatchStar(0, n)
    case MatchMapping(_, es, r) => MatchMapping(0, EraseEntries(es), r)
    case MatchClass(_, c, ps, as') => MatchClass(0, Erase(c), ErasePatterns(ps), EraseAttrs(as'))
    case MatchAs(_, q, n) => MatchAs(0, if q.Some? then Some(ErasePattern(q.value)) else None, n)
    case MatchOr(_, ps) => MatchOr(0, ErasePatterns(ps))
  }

  function ErasePatterns(ps: seq<Pattern>): (r: seq<Pattern>)
    decreases ps, 0
    ensures |r| == |ps|
  {
    if ps == [] then [] else [ErasePattern(ps[0])] + ErasePatterns(ps[1..])
  }

  function EraseEntry(e: Entry): Entry
    decreases e, 0
  {
    Entry(Erase(e.key), ErasePattern(e.pattern))
  }

  function EraseEntries(es: seq<Entry>): seq<Entry>
    decreases es, 0
  {
    if es == [] then [] else [EraseEntry(es[0])] + EraseEntries(es[1..])
  }

  function EraseAttr(a: AttrPattern): AttrPattern
    decreases a, 0
  {
    AttrPattern(a.attr, ErasePattern(a.pattern))
  }

  function EraseAttrs(as': seq<AttrPattern>): seq<AttrPattern>
    decreases as', 0
  {
    if as' == [] then [] else [EraseAttr(as'[0])] + EraseAttrs(as'[1..])
  }

  /** Only `as` and `|` patterns can be asked for parentheses. */
  function PatternLv(p: Pattern): int {
    if p.MatchOr? then BOR
    else if p.MatchAs? && p.name.Some? && p.pattern.Some? then TEST
    else ATOM
  }

  predicate WrapsPattern(p: Pattern, q: int) {
    q > PatternLv(p) || (p.id == PAIRED && PatternLv(p) < ATOM)
  }

  function PatternToks(p: Pattern, q: int): seq<Token>
    decreases p, 2
  {
    if WrapsPattern(p, q) then [LPar] + BarePattern(p) + [RPar] else BarePattern(p)
  }

  function OrWildcard(n: Option<string>): string {
    if n.None? then WILDCARD else n.value
  }

  function BarePattern(p: Pattern): seq<Token>
    decreases p, 1
  {
    match p
    case MatchValue(_, v) => Toks(v, TEST)
    case MatchSingleton(_, c) => [Lit(c)]
    case MatchSequence(_, ps) => [LBrk] + PatternJoin(ps) + [RBrk]
    case MatchStar(_, n) => [Op(Mult), Id(OrWildcard(n))]
    case MatchMapping(_, es, r) =>
      [LBrace] + EntryToks(es)
      + (if r.None? then [] else (if es == [] then [] else [Comma]) + [Op(Pow), Id(r.value)]) + [RBrace]
    case MatchClass(_, c, ps, as') =>
      Toks(c, ATOM) + [LPar] + PatternJoin(ps)
      + (if ps != [] && as' != [] then [Comma] else []) + AttrToks(as') + [RPar]
    case MatchAs(_, q, n) =>
      if n.None? then [Id(WILDCARD)]
      else if q.None? then [Id(n.value)]
      else PatternToks(q.value, BOR) + [KwAs, Id(n.value)]
    case MatchOr(_, ps) => AlternativeToks(ps)
  }

  function PatternJoin(ps: seq<Pattern>): seq<Token>
    decreases ps, 0
  {
    if ps == [] then []
    else if |ps| == 1 then PatternToks(ps[0], TEST)
    else PatternToks(ps[0], TEST) + [Comma] + PatternJoin(ps[1..])
  }

  function AlternativeToks(ps: seq<Pattern>): seq<Token>
    decreases ps, 0
  {
    if ps == [] then []
    else if |ps| == 1 then PatternToks(ps[0], Next(BOR))
    else PatternToks(ps[0], Next(BOR)) + [Op(BitOr)] + AlternativeToks(ps[1..])
  }

  /** The grammar has no parentheses around a key, so that its marks are forgotten. */
  function EntryTok(e: Entry): seq<Token>
    decreases e, 0
  {
    Toks(Erase(e.key), TEST) + [Colon] + PatternToks(e.pattern, TEST)
  }

  function EntryToks(es: seq<Entry>): seq<Token>
    decreases es, 0
  {
    if es == [] then []
    else if |es| == 1 then EntryTok(es[0])
    else EntryTok(es[0]) + [Comma] + EntryToks(es[1..])
  }

  function AttrTok(a: AttrPattern): seq<Token>
    decreases a, 0
  {
    [Id(a.attr), Assign] + PatternToks(a.pattern, TEST)
  }

  function AttrToks(as': seq<AttrPattern>): seq<Token>
    decreases as', 0
  {
    if as' == [] then []
    else if |as'| == 1 then AttrTok(as'[0])
    else AttrTok(as'[0]) + [Comma] + AttrToks(as'[1..])
  }
}
