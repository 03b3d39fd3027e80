/** A recursive-descent parser for patterns, after section 8.6 of the Python
    Language Reference. */
module PatternGrammar {
  import opened Options
  import opened PyAst
  import opened Tokens
  import opened ExprGrammar
  import opened PatternText

  datatype MappingItems = MappingItems(entries: seq<Entry>, rest: Option<string>)
  datatype ClassItems = ClassItems(positional: seq<Pattern>, attrs: seq<AttrPattern>)
  datatype Patterns = Patterns(ps: seq<Pattern>, trailing: bool)

  predicate StartsPattern(ts: seq<Token>) {
    ts != [] && (ts[0].Id? || ts[0].Lit? || ts[0] == LPar || ts[0] == LBrk || ts[0] == LBrace
                 || ts[0] == Op(Sub) || ts[0] == Op(Mult))
  }

  /** patterns: open_sequence_pattern | pattern */
  function ParseCasePattern(ts: seq<Token>): (r: Parsed<Pattern>)
    ensures r.Ok? ==> |r.rest| < |ts|
  {
    var ps := ParseElements(ts);
    if ps.Fail? then Fail
    else if |ps.value.ps| == 1 && !ps.value.trailing then
      (if ps.value.ps[0].MatchStar? then Fail else Ok(ps.value.ps[0], ps.rest))
    else Ok(MatchSequence(0, ps.value.ps), ps.rest)
  }

  /** pattern: or_pattern ['as' NAME] */
  function ParsePattern(ts: seq<Token>): (r: Parsed<Pattern>)
    decreases |ts|, 5
    ensures r.Ok? ==> |r.rest| < |ts| && StartsPattern(ts) && ts[0] != Op(Mult)
  {
    var p := ParseAlternatives(ts);
    if p.Fail? || !At(p.rest, KwAs) then p
    else if |p.rest| >= 2 && p.rest[1].Id? && p.rest[1].name != "_"
    then Ok(MatchAs(0, Some(p.value), Some(p.rest[1].name)), p.rest[2..])
    else Fail
  }

  /** or_pattern: '|'.closed_pattern+ */
  function ParseAlternatives(ts: seq<Token>): (r: Parsed<Pattern>)
    decreases |ts|, 4
    ensures r.Ok? ==> |r.rest| < |ts| && StartsPattern(ts) && ts[0] != Op(Mult)
  {
    var p := ParseClosed(ts);
    if p.Fail? then Fail else
    var more := AlternativeLoop(p.rest);
    if more.Fail? then Fail
    else if more.value == [] then p
    else Ok(MatchOr(0, [p.value] + more.value), more.rest)
  }

  function AlternativeLoop(ts: seq<Token>): (r: Parsed<seq<Pattern>>)
    decreases |ts|, 0
    ensures r.Ok? ==> |r.rest| <= |ts|
  {
    if !At(ts, Op(BitOr)) then Ok([], ts) else
    var p := ParseClosed(ts[1..]);
    if p.Fail? then Fail else
    var more := AlternativeLoop(p.rest);
    if more.Fail? then Fail else Ok([p.value] + more.value, more.rest)
  }

  function ParseClosed(ts: seq<Token>): (r: Parsed<Pattern>)
    decreases |ts|, 3
    ensures r.Ok? ==> |r.rest| < |ts| && StartsPattern(ts) && ts[0] != Op(Mult)
  {
    if ts == [] then Fail
    else if ts[0].Lit? then
      (if ts[0].c.Int? then Ok(MatchValue(0, Constant(0, ts[0].c)), ts[1..])
       else if ts[0].c.Ellipsis? then Fail
       else Ok(MatchSingleton(0, ts[0].c), ts[1..]))
    else if ts[0] == Op(Sub) then
      (if |ts| >= 2 && ts[1].Lit? && ts[1].c.Int?
       then Ok(MatchValue(0, UnaryOp(0, USub, Constant(0, ts[1].c))), ts[2..]) else Fail)
    else if ts[0].Id? then
      var d := ParseDots(Name(0, ts[0].name), ts[1..]);
      if d.Fail? then Fail
      else if At(d.rest, LPar) then
        var a := ParseClassItems(false, d.rest[1..]);
        if a.Ok? && At(a.rest, RPar) then Ok(MatchClass(0, d.value, a.value.positional, a.value.attrs), a.rest[1..])
        else Fail
      else if d.value.Attribute? then Ok(MatchValue(0, d.value), d.rest)
      else if ts[0].name == "_" then Ok(MatchAs(0, None, None), d.rest)
      else Ok(MatchAs(0, None, Some(ts[0].name)), d.rest)
    else if ts[0] == LBrk then
      (if At(ts[1..], RBrk) then Ok(MatchSequence(0, []), ts[2..]) else
       var ps := ParseElements(ts[1..]);
       if ps.Ok? && At(ps.rest, RBrk) then Ok(MatchSequence(0, ps.value.ps), ps.rest[1..]) else Fail)
    else if ts[0] == LPar then
      (if At(ts[1..], RPar) then Ok(MatchSequence(0, []), ts[2..]) else
       var ps := ParseElements(ts[1..]);
       if !(ps.Ok? && At(ps.rest, RPar)) then Fail
       else if |ps.value.ps| == 1 && !ps.value.trailing then
         (if ps.value.ps[0].MatchStar? then Fail else Ok(ps.value.ps[0], ps.rest[1..]))
       else Ok(MatchSequence(0, ps.value.ps), ps.rest[1..]))
    else if ts[0] == LBrace then
      var m := ParseEntries(ts[1..]);
      if m.Ok? && At(m.rest, RBrace) then Ok(MatchMapping(0, m.value.entries, m.value.rest), m.rest[1..]) else Fail
    else Fail
  }

  /** The attributes that follow a name. */
  function ParseDots(e: Expr, ts: seq<Token>): (r: Parsed<Expr>)
    decreases |ts|, 0
    ensures r.Ok? ==> |r.rest| <= |ts|
  {
    if !At(ts, Dot) then Ok(e, ts)
    else if |ts| >= 2 && ts[1].Id? then ParseDots(Attribute(0, e, ts[1].name), ts[2..])
    else Fail
  }

  function ParseElements(ts: seq<Token>): (r: Parsed<Patterns>)
    decreases |ts|, 7
    ensures r.Ok? ==> |r.rest| < |ts| && |r.value.ps| >= 1 && StartsPattern(ts)
  {
    var p := ParseElement(ts);
    if p.Fail? then Fail
    else if !At(p.rest, Comma) then Ok(Patterns([p.value], false), p.rest)
    else if !StartsPattern(p.rest[1..]) then Ok(Patterns([p.value], true), p.rest[1..])
    else
      var more := ParseElements(p.rest[1..]);
      if more.Fail? then Fail else Ok(Patterns([p.value] + more.value.ps, more.value.trailing), more.rest)
  }

  function ParseElement(ts: seq<Token>): (r: Parsed<Pattern>)
    decreases |ts|, 6
    ensures r.Ok? ==> |r.rest| < |ts| && StartsPattern(ts)
  {
    if At(ts, Op(Mult)) then
      if |ts| >= 2 && ts[1].Id?
      then Ok(MatchStar(0, if ts[1].name == "_" then None else Some(ts[1].name)), ts[2..]) else Fail
    else ParsePattern(ts)
  }

  /** A literal or dotted key. */
  function ParseKey(ts: seq<Token>): (r: Parsed<Expr>)
    ensures r.Ok? ==> |r.rest| < |ts|
  {
    if ts == [] then Fail
    else if ts[0].Lit? then (if ts[0].c.Ellipsis? then Fail else Ok(Constant(0, ts[0].c), ts[1..]))
    else if ts[0] == Op(Sub) then
      (if |ts| >= 2 && ts[1].Lit? && ts[1].c.Int?
       then Ok(UnaryOp(0, USub, Constant(0, ts[1].c)), ts[2..]) else Fail)
    else if ts[0].Id? then
      var d := ParseDots(Name(0, ts[0].name), ts[1..]);
      if d.Ok? && d.value.Attribute? then d else Fail
    else Fail
  }

  /** Items up to '}'; '**' must come last. */
  function ParseEntries(ts: seq<Token>): (r: Parsed<MappingItems>)
    decreases |ts|, 7
    ensures r.Ok? ==> |r.rest| <= |ts|
  {
    if At(ts, RBrace) then Ok(MappingItems([], None), ts)
    else if At(ts, Op(Pow)) then
      if !(|ts| >= 2 && ts[1].Id? && ts[1].name != "_") then Fail
      else Ok(MappingItems([], Some(ts[1].name)), if At(ts[2..], Comma) then ts[3..] else ts[2..])
    else
      var k := ParseKey(ts);
      if !(k.Ok? && At(k.rest, Colon)) then Fail else
      var p := ParsePattern(k.rest[1..]);
      if p.Fail? then Fail else
      var more := if At(p.rest, Comma) then ParseEntries(p.rest[1..]) else Ok(MappingItems([], None), p.rest);
      if more.Fail? then Fail
      else Ok(MappingItems([Entry(k.value, p.value)] + more.value.entries, more.value.rest), more.rest)
  }

  /** Sub-patterns of a class up to ')'; positional ones come before keywords. */
  function ParseClassItems(keywords: bool, ts: seq<Token>): (r: Parsed<ClassItems>)
    decreases |ts|, 7
    ensures r.Ok? ==> |r.rest| <= |ts|
  {
    if At(ts, RPar) then Ok(ClassItems([], []), ts) else
    var p := ParsePattern(ts);
    if p.Fail? then Fail
    else if At(p.rest, Assign) then
      if !(ts[0].Id? && p.value.MatchAs? && p.value.pattern.None?) then Fail else
      var v := ParsePattern(p.rest[1..]);
      if v.Fail? then Fail else
      var more := if At(v.rest, Comma) then ParseClassItems(true, v.rest[1..]) else Ok(ClassItems([], []), v.rest);
      if more.Fail? then Fail
      else Ok(ClassItems(more.value.positional, [AttrPattern(ts[0].name, v.value)] + more.value.attrs), more.rest)
    else if keywords then Fail
    else
      var more := if At(p.rest, Comma) then ParseClassItems(false, p.rest[1..]) else Ok(ClassItems([], []), p.rest);
      if more.Fail? then Fail
      else Ok(ClassItems([p.value] + more.value.positional, more.value.attrs), more.rest)
  }
}
