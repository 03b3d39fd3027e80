/** Parsing the text of a pattern gives the pattern back. */
module PatternRoundTrip {
  import opened Options
  import opened PyAst
  import opened Tokens
  import opened ExprText
  import opened ExprGrammar
  import opened PatternText
  import opened PatternGrammar
  import opened Erasure

  /** What follows cannot continue a pattern of level `q`. */
  predicate Ends(q: int, ts: seq<Token>) {
    ts == [] || (ts[0] != Dot && ts[0] != LPar && (q <= BOR ==> ts[0] != Op(BitOr)) && (q <= TEST ==> ts[0] != KwAs))
  }

  function Parser(q: int, ts: seq<Token>): Parsed<Pattern> {
    if q <= TEST then ParsePattern(ts) else if q <= BOR then ParseAlternatives(ts) else ParseClosed(ts)
  }

  lemma Down(q: int, ts: seq<Token>, p: Pattern, rest: seq<Token>)
    requires Ends(q, rest) && ParseClosed(ts) == Ok(p, rest)
    ensures Parser(q, ts) == Ok(p, rest)
  {
    hide ParseClosed;
    if q <= BOR {
      assert AlternativeLoop(rest) == Ok([], rest);
      assert ParseAlternatives(ts) == Ok(p, rest);
    }
  }

  lemma DownFromOr(q: int, ts: seq<Token>, p: Pattern, rest: seq<Token>)
    requires q <= BOR && Ends(q, rest) && ParseAlternatives(ts) == Ok(p, rest)
    ensures Parser(q, ts) == Ok(p, rest)
  {
    hide ParseAlternatives;
  }

  /** The round trip, at every precedence a pattern context asks for. */
  lemma {:induction false} PatternRoundTrip(p: Pattern, q: int, rest: seq<Token>)
    requires ValidPattern(p) && TEST <= q <= ATOM && Ends(q, rest)
    ensures Parser(q, PatternToks(p, q) + rest) == Ok(ErasePattern(p), rest)
    decreases p, 5
  {
    hide ParsePattern, ParseAlternatives, ParseClosed, BarePattern, ErasePattern, Parser;
    var ts := PatternToks(p, q) + rest;
    if WrapsPattern(p, q) {
      assert ts == [LPar] + (BarePattern(p) + ([RPar] + rest));
      GroupRoundTrip(p, rest);
      Down(q, ts, ErasePattern(p), rest);
    } else if PatternLv(p) == ATOM {
      ClosedRoundTrip(p, rest);
      Down(q, ts, ErasePattern(p), rest);
    } else if p.MatchOr? {
      OrRoundTrip(p, rest);
      DownFromOr(q, ts, ErasePattern(p), rest);
    } else {
      AsRoundTrip(p, rest);
      IsPattern(ts);
    }
  }

  lemma IsPattern(ts: seq<Token>)
    ensures Parser(TEST, ts) == ParsePattern(ts)
    ensures Parser(BOR, ts) == ParseAlternatives(ts)
    ensures Parser(BXOR, ts) == ParseClosed(ts)
  {
    hide ParsePattern, ParseAlternatives, ParseClosed;
  }

  lemma {:induction false} AsRoundTrip(p: Pattern, rest: seq<Token>)
    requires ValidPattern(p) && PatternLv(p) == TEST && Ends(TEST, rest)
    ensures ParsePattern(BarePattern(p) + rest) == Ok(ErasePattern(p), rest)
    decreases p, 2
  {
    hide ParseAlternatives, PatternToks, Parser;
    var q, n := p.pattern.value, p.name.value;
    var after := [KwAs, Id(n)] + rest;
    assert BarePattern(p) + rest == PatternToks(q, BOR) + after;
    assert ErasePattern(p) == MatchAs(0, Some(ErasePattern(q)), Some(n)) && ValidPattern(q) && n != WILDCARD;
    hide BarePattern, ErasePattern, ValidPattern;
    PatternRoundTrip(q, BOR, after);
    IsPattern(BarePattern(p) + rest);
    NamedAs(BarePattern(p) + rest, ErasePattern(q), n, rest);
  }

  lemma NamedAs(ts: seq<Token>, q: Pattern, n: string, rest: seq<Token>)
    requires ParseAlternatives(ts) == Ok(q, [KwAs, Id(n)] + rest) && n != WILDCARD
    ensures ParsePattern(ts) == Ok(MatchAs(0, Some(q), Some(n)), rest)
  {
    hide ParseAlternatives;
    assert ([KwAs, Id(n)] + rest)[2..] == rest;
  }

  lemma {:induction false} OrRoundTrip(p: Pattern, rest: seq<Token>)
    requires ValidPattern(p) && p.MatchOr? && Ends(BOR, rest)
    ensures ParseAlternatives(BarePattern(p) + rest) == Ok(ErasePattern(p), rest)
    decreases p, 2
  {
    hide ParseClosed, PatternToks, Parser, AlternativeLoop;
    var ps := p.alternatives;
    var more := [Op(BitOr)] + (AlternativeToks(ps[1..]) + rest);
    assert BarePattern(p) + rest == PatternToks(ps[0], BXOR) + more;
    PatternRoundTrip(ps[0], BXOR, more);
    IsPattern(BarePattern(p) + rest);
    AlternativesRoundTrip(ps[1..], rest);
  }

  lemma {:induction false} AlternativesRoundTrip(ps: seq<Pattern>, rest: seq<Token>)
    requires ps != [] && ValidPatterns(ps) && Ends(BOR, rest)
    ensures AlternativeLoop([Op(BitOr)] + (AlternativeToks(ps) + rest)) == Ok(ErasePatterns(ps), rest)
    decreases ps, 6
  {
    hide ParseClosed, PatternToks, Parser, ErasePattern, AlternativeLoop, ValidPattern;
    var ts := AlternativeToks(ps) + rest;
    IsPattern(ts);
    if |ps| == 1 {
      assert ts == PatternToks(ps[0], BXOR) + rest;
      PatternRoundTrip(ps[0], BXOR, rest);
      assert ErasePatterns(ps) == [ErasePattern(ps[0])];
      OneAlternative(ts, ErasePattern(ps[0]), rest);
      NoAlternative(rest);
    } else {
      var more := [Op(BitOr)] + (AlternativeToks(ps[1..]) + rest);
      assert AlternativeToks(ps) == PatternToks(ps[0], BXOR) + [Op(BitOr)] + AlternativeToks(ps[1..]);
      Regroup4(PatternToks(ps[0], BXOR), [Op(BitOr)], AlternativeToks(ps[1..]), rest);
      assert ErasePatterns(ps) == [ErasePattern(ps[0])] + ErasePatterns(ps[1..]);
      hide AlternativeToks, ErasePatterns;
      PatternRoundTrip(ps[0], BXOR, more);
      AlternativesRoundTrip(ps[1..], rest);
      OneAlternative(ts, ErasePattern(ps[0]), more);
    }
  }

  lemma OneAlternative(ts: seq<Token>, p: Pattern, rest: seq<Token>)
    requires ParseClosed(ts) == Ok(p, rest)
    ensures var more := AlternativeLoop(rest);
            AlternativeLoop([Op(BitOr)] + ts) == if more.Fail? then Fail else Ok([p] + more.value, more.rest)
  {
    hide ParseClosed;
    Tail(Op(BitOr), ts);
  }

  lemma NoAlternative(rest: seq<Token>)
    requires !At(rest, Op(BitOr))
    ensures AlternativeLoop(rest) == Ok([], rest)
  {
  }

  lemma {:induction false} GroupRoundTrip(p: Pattern, rest: seq<Token>)
    requires ValidPattern(p) && PatternLv(p) < ATOM
    ensures ParseClosed([LPar] + (BarePattern(p) + ([RPar] + rest))) == Ok(ErasePattern(p), rest)
    decreases p, 3
  {
    hide ParsePattern, ParseAlternatives, BarePattern, ErasePattern, Parser, ParseElements;
    hide ParseClosed;
    var after := [RPar] + rest;
    var ts := BarePattern(p) + after;
    if p.MatchOr? {
      OrRoundTrip(p, after);
      DownFromOr(TEST, ts, ErasePattern(p), after);
      IsPattern(ts);
    } else {
      AsRoundTrip(p, after);
    }
    ErasedKind(p);
    Grouped(ts, ErasePattern(p), rest);
  }

  lemma Grouped(ts: seq<Token>, p: Pattern, rest: seq<Token>)
    requires ParsePattern(ts) == Ok(p, [RPar] + rest) && !p.MatchStar?
    ensures ParseClosed([LPar] + ts) == Ok(p, rest)
  {
    hide ParsePattern, ParseElements;
    OneElement(ts, p, [RPar] + rest);
    Tail(LPar, ts);
    Tail(RPar, rest);
  }

  lemma ErasedKind(p: Pattern)
    ensures ErasePattern(p).MatchStar? == p.MatchStar?
  {
  }

  lemma OneElement(ts: seq<Token>, p: Pattern, rest: seq<Token>)
    requires ParsePattern(ts) == Ok(p, rest) && !At(rest, Comma)
    ensures ParseElements(ts) == Ok(Patterns([p], false), rest)
  {
    hide ParsePattern;
  }

  lemma {:induction false} ElementRoundTrip(p: Pattern, rest: seq<Token>)
    requires ValidElement(p) && Ends(TEST, rest)
    ensures ParseElement(PatternToks(p, TEST) + rest) == Ok(ErasePattern(p), rest)
    decreases p, 6
  {
    hide ParsePattern, Parser;
    var ts := PatternToks(p, TEST) + rest;
    if p.MatchStar? {
      assert PatternToks(p, TEST) == [Op(Mult), Id(OrWildcard(p.star))];
      assert ts[2..] == rest;
    } else {
      PatternRoundTrip(p, TEST, rest);
      IsPattern(ts);
    }
  }

  /** Elements up to a closing bracket or parenthesis. */
  lemma {:induction false} ElementsRoundTrip(ps: seq<Pattern>, rest: seq<Token>)
    requires ps != [] && ValidElements(ps) && (At(rest, RBrk) || At(rest, RPar))
    ensures ParseElements(PatternJoin(ps) + rest) == Ok(Patterns(ErasePatterns(ps), false), rest)
    decreases ps, 6
  {
    hide ParseElement, ParseElements, PatternToks, ErasePattern, ValidElement;
    if |ps| == 1 {
      ElementRoundTrip(ps[0], rest);
      assert ErasePatterns(ps) == [ErasePattern(ps[0])];
      ElementsNext(PatternToks(ps[0], TEST) + rest, ErasePattern(ps[0]), rest);
    } else {
      var more := PatternJoin(ps[1..]) + rest;
      assert PatternJoin(ps) + rest == PatternToks(ps[0], TEST) + ([Comma] + more);
      ElementRoundTrip(ps[0], [Comma] + more);
      ElementsRoundTrip(ps[1..], rest);
      Tail(Comma, more);
      ElementsNext(PatternToks(ps[0], TEST) + ([Comma] + more), ErasePattern(ps[0]), [Comma] + more);
    }
  }

  /** An element, and those after it if there are any. */
  lemma ElementsNext(ts: seq<Token>, p: Pattern, tail: seq<Token>)
    requires ParseElement(ts) == Ok(p, tail)
    ensures !At(tail, Comma) ==> ParseElements(ts) == Ok(Patterns([p], false), tail)
    ensures At(tail, Comma) && ParseElements(tail[1..]).Ok? ==>
              var more := ParseElements(tail[1..]);
              ParseElements(ts) == Ok(Patterns([p] + more.value.ps, more.value.trailing), more.rest)
  {
    hide ParseElement;
  }

  /* ----- names with attributes ----- */

  function Root(e: Expr): string
    requires Dotted(e)
  {
    if e.Name? then e.name else Root(e.base)
  }

  function DotToks(e: Expr): seq<Token>
    requires Dotted(e)
  {
    if e.Name? then [] else DotToks(e.base) + [Dot, Id(e.attr)]
  }

  lemma {:induction false} DottedToks(e: Expr, q: int)
    requires Dotted(e) && q <= ATOM
    ensures Toks(e, q) == [Id(Root(e))] + DotToks(e)
    decreases e
  {
    if e.Attribute? { DottedToks(e.base, ATOM); }
  }

  lemma {:induction false} DottedRoundTrip(e: Expr, rest: seq<Token>)
    requires Dotted(e)
    ensures ParseDots(Name(0, Root(e)), DotToks(e) + rest) == ParseDots(Erase(e), rest)
    decreases e
  {
    if e.Name? {
      assert DotToks(e) + rest == rest;
    } else {
      var after := [Dot, Id(e.attr)] + rest;
      assert DotToks(e) + rest == DotToks(e.base) + after;
      DottedRoundTrip(e.base, after);
      assert after[2..] == rest;
    }
  }

  lemma DottedHead(e: Expr, q: int, rest: seq<Token>)
    requires Dotted(e) && q <= ATOM && !At(rest, Dot)
    ensures var ts := Toks(e, q) + rest;
            ts != [] && ts[0] == Id(Root(e)) && ParseDots(Name(0, Root(e)), ts[1..]) == Ok(Erase(e), rest)
  {
    hide Toks;
    DottedToks(e, q);
    DottedRoundTrip(e, rest);
    assert (Toks(e, q) + rest)[1..] == DotToks(e) + rest;
  }

  /* ----- closed patterns ----- */

  lemma {:induction false} ClosedRoundTrip(p: Pattern, rest: seq<Token>)
    requires ValidPattern(p) && PatternLv(p) == ATOM && Ends(ATOM, rest)
    ensures ParseClosed(BarePattern(p) + rest) == Ok(ErasePattern(p), rest)
    decreases p, 2
  {
    match p
    case MatchValue(_, v) => ValueRoundTrip(p, rest);
    case MatchSequence(_, ps) => SequenceRoundTrip(p, rest);
    case MatchMapping(_, es, r) => MappingRoundTrip(p, rest);
    case MatchClass(_, c, ps, as') => ClassRoundTrip(p, rest);
    case MatchSingleton(_, _) => SimpleRoundTrip(p, rest);
    case MatchAs(_, _, _) => SimpleRoundTrip(p, rest);
    case MatchStar(_, _) => assert false;
    case MatchOr(_, _) => assert false;
  }

  lemma SimpleRoundTrip(p: Pattern, rest: seq<Token>)
    requires ValidPattern(p) && PatternLv(p) == ATOM && (p.MatchSingleton? || p.MatchAs?) && Ends(ATOM, rest)
    ensures ParseClosed(BarePattern(p) + rest) == Ok(ErasePattern(p), rest)
  {
    hide ParsePattern, ParseElements, ParseEntries, ParseClassItems;
    assert (BarePattern(p) + rest)[1..] == rest;
  }

  lemma ValueRoundTrip(p: Pattern, rest: seq<Token>)
    requires ValidPattern(p) && p.MatchValue? && Ends(ATOM, rest)
    ensures ParseClosed(BarePattern(p) + rest) == Ok(ErasePattern(p), rest)
  {
    hide ParseElements, ParseEntries, ParseClassItems, ParseDots;
    var v, ts := p.value, BarePattern(p) + rest;
    if v.Attribute? {
      DottedHead(v, TEST, rest);
    } else if v.Constant? {
      assert Toks(v, TEST) == [Lit(v.value)];
      assert ts[1..] == rest;
    } else {
      NegativeValue(v, rest);
    }
  }

  /** A negative number may stand in parentheses. */
  lemma NegativeValue(v: Expr, rest: seq<Token>)
    requires v.UnaryOp? && v.unop.USub? && v.operand.Constant? && v.operand.value.Int?
    ensures ParseClosed(Toks(v, TEST) + rest) == Ok(MatchValue(0, Erase(v)), rest)
  {
    var c := v.operand.value;
    NegativeToks(v);
    assert Erase(v) == UnaryOp(0, USub, Constant(0, c));
    hide ParseClosed, Toks, Bare, Erase;
    if v.id == PAIRED {
      var inner := Bare(v) + ([RPar] + rest);
      assert Toks(v, TEST) + rest == [LPar] + inner;
      NegativeRead(c, [RPar] + rest);
      Down(TEST, inner, MatchValue(0, Erase(v)), [RPar] + rest);
      IsPattern(inner);
      Grouped(inner, MatchValue(0, Erase(v)), rest);
    } else {
      NegativeRead(c, rest);
    }
  }

  lemma NegativeToks(v: Expr)
    requires v.UnaryOp? && v.unop.USub? && v.operand.Constant?
    ensures Bare(v) == [Op(Sub), Lit(v.operand.value)]
    ensures Toks(v, TEST) == if v.id == PAIRED then [LPar] + Bare(v) + [RPar] else Bare(v)
  {
    assert Toks(v.operand, FACTOR) == [Lit(v.operand.value)];
  }

  lemma NegativeRead(c: Const, rest: seq<Token>)
    requires c.Int?
    ensures ParseClosed([Op(Sub), Lit(c)] + rest) == Ok(MatchValue(0, UnaryOp(0, USub, Constant(0, c))), rest)
  {
    hide ParseElements, ParseEntries, ParseClassItems, ParseDots;
    assert ([Op(Sub), Lit(c)] + rest)[2..] == rest;
  }

  lemma {:induction false} SequenceRoundTrip(p: Pattern, rest: seq<Token>)
    requires ValidPattern(p) && p.MatchSequence?
    ensures ParseClosed(BarePattern(p) + rest) == Ok(ErasePattern(p), rest)
    decreases p, 1
  {
    hide ParseElements, ParseClosed, PatternToks;
    var ps, after := p.elts, [RBrk] + rest;
    assert BarePattern(p) + rest == [LBrk] + (PatternJoin(ps) + after);
    assert ErasePattern(p) == MatchSequence(0, ErasePatterns(ps)) && ValidElements(ps);
    if ps == [] { assert PatternJoin(ps) + after == after && ErasePatterns(ps) == []; }
    hide BarePattern, ErasePattern, ValidElements;
    if ps != [] { ElementsRoundTrip(ps, after); }
    Bracketed(PatternJoin(ps) + after, ErasePatterns(ps), rest);
  }

  lemma Bracketed(ts: seq<Token>, ps: seq<Pattern>, rest: seq<Token>)
    requires if ps == [] then ts == [RBrk] + rest else ParseElements(ts) == Ok(Patterns(ps, false), [RBrk] + rest)
    ensures ParseClosed([LBrk] + ts) == Ok(MatchSequence(0, ps), rest)
  {
    hide ParseElements, ParseEntries, ParseClassItems, ParseDots;
    Tail(LBrk, ts);
    Tail(RBrk, rest);
    if ps == [] {
      assert ([LBrk] + ts)[2..] == rest;
    } else {
      assert StartsPattern(ts);
    }
  }

  lemma {:induction false} KeyRoundTrip(k: Expr, rest: seq<Token>)
    requires KeyExpr(k) && At(rest, Colon)
    requires k.id != PAIRED
    ensures ParseKey(Toks(k, TEST) + rest) == Ok(Erase(k), rest)
    ensures !At(Toks(k, TEST) + rest, RBrace) && !At(Toks(k, TEST) + rest, Op(Pow))
  {
    hide ParseDots;
    var ts := Toks(k, TEST) + rest;
    if k.Attribute? {
      DottedHead(k, TEST, rest);
    } else if k.Constant? {
      assert Toks(k, TEST) == [Lit(k.value)];
      assert ts[1..] == rest;
    } else {
      NegativeToks(k);
      assert ts[2..] == rest;
      assert Erase(k) == UnaryOp(0, USub, Constant(0, k.operand.value));
    }
  }

  function RestToks(r: Option<string>): seq<Token> {
    if r.None? then [] else [Op(Pow), Id(r.value)]
  }

  lemma {:induction false} EntryRoundTrip(e: Entry, tail: seq<Token>, items: MappingItems, rest: seq<Token>)
    requires ValidEntry(e)
    requires if At(tail, Comma) then ParseEntries(tail[1..]) == Ok(items, rest)
             else At(tail, RBrace) && items == MappingItems([], None) && rest == tail
    ensures ParseEntries(EntryTok(e) + tail) == Ok(MappingItems([EraseEntry(e)] + items.entries, items.rest), rest)
    decreases e, 6
  {
    hide ParsePattern, ParseKey, ParseEntries, Toks, PatternToks, Erase, ErasePattern, Parser, KeyExpr, ValidPattern;
    var value := PatternToks(e.pattern, TEST) + tail;
    var k := Erase(e.key);
    ExprErased(e.key);
    ValueErased(e.key);
    assert EntryTok(e) == Toks(k, TEST) + [Colon] + PatternToks(e.pattern, TEST);
    Regroup4(Toks(k, TEST), [Colon], PatternToks(e.pattern, TEST), tail);
    hide EntryTok;
    KeyRoundTrip(k, [Colon] + value);
    PatternRoundTrip(e.pattern, TEST, tail);
    IsPattern(value);
    EntryRead(Toks(k, TEST) + ([Colon] + value), k, value, ErasePattern(e.pattern), tail, items, rest);
  }

  /** A key, a colon, a pattern and the entries after it. */
  lemma EntryRead(ts: seq<Token>, k: Expr, value: seq<Token>, p: Pattern, tail: seq<Token>, items: MappingItems,
      rest: seq<Token>)
    requires !At(ts, RBrace) && !At(ts, Op(Pow)) && ParseKey(ts) == Ok(k, [Colon] + value)
    requires ParsePattern(value) == Ok(p, tail)
    requires if At(tail, Comma) then ParseEntries(tail[1..]) == Ok(items, rest)
             else items == MappingItems([], None) && rest == tail
    ensures ParseEntries(ts) == Ok(MappingItems([Entry(k, p)] + items.entries, items.rest), rest)
  {
    hide ParsePattern, ParseKey;
    Tail(Colon, value);
  }

  /** The entries of a mapping pattern and its `**` part. */
  function MappingToks(es: seq<Entry>, r: Option<string>): seq<Token> {
    EntryToks(es) + (if es == [] || r.None? then [] else [Comma]) + RestToks(r)
  }

  lemma MappingSplit(es: seq<Entry>, r: Option<string>, rest: seq<Token>)
    requires es != []
    ensures MappingToks(es, r) + rest
         == EntryTok(es[0]) + (if |es| == 1 && r.None? then rest else [Comma] + (MappingToks(es[1..], r) + rest))
  {
    hide EntryTok;
    var x, y, z := EntryTok(es[0]), EntryToks(es[1..]), RestToks(r);
    if |es| == 1 {
      assert y == [] && MappingToks(es[1..], r) == z && EntryToks(es) == x;
      if r.Some? { Regroup4(x, [Comma], z, rest); }
    } else {
      var comma := if r.None? then [] else [Comma];
      assert MappingToks(es, r) == (x + [Comma] + y) + comma + z && MappingToks(es[1..], r) == y + comma + z;
      hide MappingToks, EntryToks, RestToks;
      EntryRegroup(x, y, comma, z, rest);
    }
  }

  lemma EntryRegroup(x: seq<Token>, y: seq<Token>, comma: seq<Token>, z: seq<Token>, rest: seq<Token>)
    ensures (x + [Comma] + y) + comma + z + rest == x + ([Comma] + (y + comma + z + rest))
  {
  }

  lemma {:induction false} EntriesRoundTrip(es: seq<Entry>, r: Option<string>, rest: seq<Token>)
    requires ValidEntries(es) && r != Some(WILDCARD) && At(rest, RBrace)
    ensures ParseEntries(MappingToks(es, r) + rest) == Ok(MappingItems(EraseEntries(es), r), rest)
    decreases es, 6
  {
    hide ParseEntries, EntryTok, EraseEntry, MappingToks, ValidEntry;
    if es == [] {
      NoEntries(es, r, rest);
    } else {
      var inner := MappingToks(es[1..], r) + rest;
      var last := |es| == 1 && r.None?;
      var tail := if last then rest else [Comma] + inner;
      EntriesRoundTrip(es[1..], r, rest);
      MappingSplit(es, r, rest);
      if !last { assert tail[1..] == inner; }
      var items := if last then MappingItems([], None) else MappingItems(EraseEntries(es[1..]), r);
      assert EraseEntries(es) == [EraseEntry(es[0])] + items.entries;
      hide EraseEntries, ValidEntries;
      EntryRoundTrip(es[0], tail, items, rest);
    }
  }

  lemma NoEntries(es: seq<Entry>, r: Option<string>, rest: seq<Token>)
    requires es == [] && r != Some(WILDCARD) && At(rest, RBrace)
    ensures ParseEntries(MappingToks(es, r) + rest) == Ok(MappingItems(EraseEntries(es), r), rest)
  {
    hide ParsePattern, ParseKey;
    assert EntryToks(es) == [] && EraseEntries(es) == [];
    assert MappingToks(es, r) == RestToks(r);
    hide MappingToks, EntryToks, EraseEntries;
    if r.Some? {
      RestOnly(r.value, rest);
    } else {
      assert RestToks(r) + rest == rest;
    }
  }

  lemma RestOnly(n: string, rest: seq<Token>)
    requires n != WILDCARD && At(rest, RBrace)
    ensures ParseEntries([Op(Pow), Id(n)] + rest) == Ok(MappingItems([], Some(n)), rest)
  {
    hide ParsePattern, ParseKey;
    var ts := [Op(Pow), Id(n)] + rest;
    assert ts[2..] == rest;
  }

  lemma {:induction false} MappingRoundTrip(p: Pattern, rest: seq<Token>)
    requires ValidPattern(p) && p.MatchMapping?
    ensures ParseClosed(BarePattern(p) + rest) == Ok(ErasePattern(p), rest)
    decreases p, 1
  {
    hide ParseClosed, ParseEntries, PatternToks, EntryToks;
    var es, r, after := p.entries, p.rest, [RBrace] + rest;
    assert BarePattern(p) + rest == [LBrace] + (MappingToks(es, r) + after);
    assert ErasePattern(p) == MatchMapping(0, EraseEntries(es), r) && ValidEntries(es) && r != Some(WILDCARD);
    hide BarePattern, ErasePattern, ValidPattern, MappingToks, EraseEntries, ValidEntries;
    EntriesRoundTrip(es, r, after);
    Braced(MappingToks(es, r) + after, EraseEntries(es), r, rest);
  }

  lemma Braced(ts: seq<Token>, es: seq<Entry>, r: Option<string>, rest: seq<Token>)
    requires ParseEntries(ts) == Ok(MappingItems(es, r), [RBrace] + rest)
    ensures ParseClosed([LBrace] + ts) == Ok(MatchMapping(0, es, r), rest)
  {
    hide ParseElements, ParseEntries, ParseClassItems, ParseDots;
    Tail(LBrace, ts);
    Tail(RBrace, rest);
  }

  lemma {:induction false} AttrRoundTrip(keywords: bool, a: AttrPattern, tail: seq<Token>, items: ClassItems,
      rest: seq<Token>)
    requires ValidAttr(a)
    requires if At(tail, Comma) then ParseClassItems(true, tail[1..]) == Ok(items, rest)
             else At(tail, RPar) && items == ClassItems([], []) && rest == tail
    ensures ParseClassItems(keywords, AttrTok(a) + tail) == Ok(ClassItems(items.positional, [EraseAttr(a)]
        + items.attrs), rest)
    decreases a, 6
  {
    hide ParsePattern, PatternToks, ErasePattern, Parser;
    var value := PatternToks(a.pattern, TEST) + tail;
    assert AttrTok(a) + tail == [Id(a.attr)] + ([Assign] + value);
    hide AttrTok, ParseClassItems, ValidPattern;
    CaptureFirst(a.attr, [Assign] + value);
    PatternRoundTrip(a.pattern, TEST, tail);
    IsPattern(value);
    AttrRead(keywords, a.attr, [Id(a.attr)] + ([Assign] + value), value, ErasePattern(a.pattern), tail, items, rest);
  }

  /** A name, an equals sign, a pattern and the items after it. */
  lemma AttrRead(keywords: bool, n: string, ts: seq<Token>, value: seq<Token>, v: Pattern, tail: seq<Token>,
      items: ClassItems, rest: seq<Token>)
    requires ts != [] && ts[0] == Id(n) && ParsePattern(value) == Ok(v, tail)
    requires var p := ParsePattern(ts);
             p.Ok? && p.rest == [Assign] + value && p.value.MatchAs? && p.value.pattern.None?
    requires if At(tail, Comma) then ParseClassItems(true, tail[1..]) == Ok(items, rest)
             else items == ClassItems([], []) && rest == tail
    ensures ParseClassItems(keywords, ts) == Ok(ClassItems(items.positional, [AttrPattern(n, v)] + items.attrs), rest)
  {
    hide ParsePattern;
    Tail(Assign, value);
  }

  lemma {:induction false} AttrsRoundTrip(keywords: bool, as': seq<AttrPattern>, rest: seq<Token>)
    requires as' != [] && ValidAttrs(as') && At(rest, RPar)
    ensures ParseClassItems(keywords, AttrToks(as') + rest) == Ok(ClassItems([], EraseAttrs(as')), rest)
    decreases as', 6
  {
    hide ParseClassItems, AttrTok, EraseAttr;
    if |as'| == 1 {
      AttrRoundTrip(keywords, as'[0], rest, ClassItems([], []), rest);
      assert EraseAttrs(as') == [EraseAttr(as'[0])] + [];
    } else {
      var tail := [Comma] + (AttrToks(as'[1..]) + rest);
      assert tail[1..] == AttrToks(as'[1..]) + rest;
      assert AttrToks(as') + rest == AttrTok(as'[0]) + tail;
      AttrsRoundTrip(true, as'[1..], rest);
      AttrRoundTrip(keywords, as'[0], tail, ClassItems([], EraseAttrs(as'[1..])), rest);
    }
  }

  lemma CaptureFirst(n: string, rest: seq<Token>)
    requires At(rest, Assign)
    ensures ParsePattern([Id(n)] + rest) == Ok(MatchAs(0, None, if n == WILDCARD then None else Some(n)), rest)
  {
    hide ParseElements, ParseEntries, ParseClassItems, ParsePattern, Parser;
    var ts := [Id(n)] + rest;
    assert ts[1..] == rest;
    assert ParseDots(Name(0, n), rest) == Ok(Name(0, n), rest);
    var p := MatchAs(0, None, if n == WILDCARD then None else Some(n));
    assert ParseClosed(ts) == Ok(p, rest);
    Down(TEST, ts, p, rest);
    IsPattern(ts);
  }

  /** One positional sub-pattern. */
  lemma NoItems(rest: seq<Token>)
    requires At(rest, RPar)
    ensures ParseClassItems(false, rest) == Ok(ClassItems([], []), rest)
  {
  }

  lemma ClassStep(p: Pattern, ts: seq<Token>, tail: seq<Token>, items: ClassItems, rest: seq<Token>)
    requires ParsePattern(ts) == Ok(p, tail)
    requires if At(tail, Comma) then ParseClassItems(false, tail[1..]) == Ok(items, rest)
             else At(tail, RPar) && items == ClassItems([], []) && rest == tail
    ensures ParseClassItems(false, ts) == Ok(ClassItems([p] + items.positional, items.attrs), rest)
  {
    hide ParsePattern;
  }

  function ClassToks(ps: seq<Pattern>, as': seq<AttrPattern>): seq<Token> {
    PatternJoin(ps) + (if ps != [] && as' != [] then [Comma] else []) + AttrToks(as')
  }

  lemma ClassSplit(ps: seq<Pattern>, as': seq<AttrPattern>, rest: seq<Token>)
    ensures ps == [] ==> ClassToks(ps, as') + rest == AttrToks(as') + rest
    ensures ps != [] ==>
      ClassToks(ps, as') + rest
      == PatternToks(ps[0], TEST)
         + (if |ps| == 1 && as' == [] then rest else [Comma] + (ClassToks(ps[1..], as') + rest))
  {
    hide PatternToks;
    if |ps| == 1 {
      assert PatternJoin(ps[1..]) == [];
      assert ClassToks(ps[1..], as') == AttrToks(as');
      assert as' == [] ==> ClassToks(ps, as') == PatternToks(ps[0], TEST);
    } else if |ps| > 1 {
      assert PatternJoin(ps) == PatternToks(ps[0], TEST) + [Comma] + PatternJoin(ps[1..]);
      var c := if as' != [] then [Comma] else [];
      Regroup(PatternToks(ps[0], TEST) + [Comma] + PatternJoin(ps[1..]), c, AttrToks(as'));
      Regroup4(PatternToks(ps[0], TEST), [Comma], PatternJoin(ps[1..]), c + AttrToks(as'));
      Regroup(PatternJoin(ps[1..]), c, AttrToks(as'));
      assert ClassToks(ps, as') == PatternToks(ps[0], TEST) + ([Comma] + ClassToks(ps[1..], as'));
      hide ClassToks, PatternJoin;
      Regroup(PatternToks(ps[0], TEST), [Comma] + ClassToks(ps[1..], as'), rest);
      Regroup([Comma], ClassToks(ps[1..], as'), rest);
    }
  }

  lemma {:induction false} ClassItemsRoundTrip(ps: seq<Pattern>, as': seq<AttrPattern>, rest: seq<Token>)
    requires ValidPatterns(ps) && At(rest, RPar)
    requires as' != [] ==> ParseClassItems(false, AttrToks(as') + rest) == Ok(ClassItems([], EraseAttrs(as')), rest)
    ensures ParseClassItems(false, ClassToks(ps, as') + rest)
        == Ok(ClassItems(ErasePatterns(ps), EraseAttrs(as')), rest)
    decreases ps, 7
  {
    hide ParsePattern, PatternToks, ErasePattern, Parser, ParseClassItems, ClassToks, ValidPattern;
    if as' == [] { NoAttrs(as'); }
    ClassSplit(ps, as', rest);
    if ps == [] {
      assert ErasePatterns(ps) == [];
      if as' == [] {
        assert AttrToks(as') + rest == rest;
        NoItems(rest);
      }
    } else {
      hide AttrToks, EraseAttrs;
      var ts := ClassToks(ps, as') + rest;
      var inner := ClassToks(ps[1..], as') + rest;
      var last := |ps| == 1 && as' == [];
      var tail := if last then rest else [Comma] + inner;
      ClassItemsRoundTrip(ps[1..], as', rest);
      PatternRoundTrip(ps[0], TEST, tail);
      IsPattern(ts);
      if !last { assert tail[1..] == inner; }
      var items := if last then ClassItems([], []) else ClassItems(ErasePatterns(ps[1..]), EraseAttrs(as'));
      assert ErasePatterns(ps) == [ErasePattern(ps[0])] + items.positional;
      hide ErasePatterns, ValidPatterns;
      ClassStep(ErasePattern(ps[0]), ts, tail, items, rest);
    }
  }

  lemma NoAttrs(as': seq<AttrPattern>)
    requires as' == []
    ensures AttrToks(as') == [] && EraseAttrs(as') == []
  {
  }

  lemma {:induction false} ClassRoundTrip(p: Pattern, rest: seq<Token>)
    requires ValidPattern(p) && p.MatchClass?
    ensures ParseClosed(BarePattern(p) + rest) == Ok(ErasePattern(p), rest)
    decreases p, 1
  {
    hide ParseElements, ParseEntries, ParseClassItems, ParseDots, PatternToks, PatternJoin, AttrToks, Toks;
    var ps, as', after := p.positional, p.attrs, [RPar] + rest;
    var ts := BarePattern(p) + rest;
    var inner := ClassToks(ps, as') + after;
    assert ts == Toks(p.cls, ATOM) + ([LPar] + inner);
    if as' != [] { AttrsRoundTrip(false, as', after); }
    ClassItemsRoundTrip(ps, as', after);
    hide BarePattern, ClassToks, ValidPattern, ParseClosed;
    DottedHead(p.cls, ATOM, [LPar] + inner);
    ClassClosed(ts, Erase(p.cls), inner, ParseClassItems(false, inner).value, rest);
  }

  lemma ClassClosed(ts: seq<Token>, c: Expr, inner: seq<Token>, items: ClassItems, rest: seq<Token>)
    requires ts != [] && ts[0].Id? && ParseDots(Name(0, ts[0].name), ts[1..]) == Ok(c, [LPar] + inner)
    requires ParseClassItems(false, inner) == Ok(items, [RPar] + rest)
    ensures ParseClosed(ts) == Ok(MatchClass(0, c, items.positional, items.attrs), rest)
  {
    hide ParseDots, ParseClassItems;
    Tail(LPar, inner);
    Tail(RPar, rest);
  }

  /** A case pattern, followed by its guard or its colon. */
  lemma CasePatternRoundTrip(p: Pattern, rest: seq<Token>)
    requires ValidPattern(p) && (At(rest, KwIf) || At(rest, Colon))
    ensures ParseCasePattern(PatternToks(p, TEST) + rest) == Ok(ErasePattern(p), rest)
  {
    hide ParsePattern, PatternToks, Parser, ParseElements;
    var ts := PatternToks(p, TEST) + rest;
    PatternRoundTrip(p, TEST, rest);
    IsPattern(ts);
    OneElement(ts, ErasePattern(p), rest);
    ErasedKind(p);
  }
}
