/** The same for patterns and statements, and what it means for whole modules. */
module ParsedStmts {
  import opened Options
  import opened PyAst
  import opened Tokens
  import opened ExprGrammar
  import opened PatternText
  import opened PatternGrammar
  import opened StmtText
  import opened StmtGrammar
  import opened ParsedExprs

  /* ----- patterns ----- */

  predicate PlainPattern(p: Pattern) {
    ValidPattern(p) && ErasePattern(p) == p
  }

  predicate PlainElement(p: Pattern) {
    ValidElement(p) && ErasePattern(p) == p
  }

  predicate PlainElements(ps: seq<Pattern>) {
    ValidElements(ps) && ErasePatterns(ps) == ps
  }

  predicate PlainPatterns(ps: seq<Pattern>) {
    ValidPatterns(ps) && ErasePatterns(ps) == ps
  }

  lemma ElementsCons(p: Pattern, ps: seq<Pattern>)
    requires PlainElement(p) && PlainElements(ps)
    ensures PlainElements([p] + ps)
  {
    hide ValidPattern, ErasePattern;
    assert ([p] + ps)[1..] == ps;
  }

  lemma PatternsCons(p: Pattern, ps: seq<Pattern>)
    requires PlainPattern(p) && PlainPatterns(ps)
    ensures PlainPatterns([p] + ps)
  {
    hide ValidPattern, ErasePattern;
    assert ([p] + ps)[1..] == ps;
  }

  lemma FirstOf(ps: seq<Pattern>)
    requires ps != [] && PlainElements(ps)
    ensures !ps[0].MatchStar? ==> PlainPattern(ps[0])
    ensures PlainPattern(MatchSequence(0, ps))
  {
    assert ErasePatterns(ps)[0] == ErasePattern(ps[0]);
    assert ValidElement(ps[0]);
  }

  lemma {:induction false} CasePatternYields(ts: seq<Token>)
    requires ParseCasePattern(ts).Ok?
    ensures PlainPattern(ParseCasePattern(ts).value)
  {
    hide ParseElements, PlainPattern, PlainElements;
    ElementsYield(ts);
    FirstOf(ParseElements(ts).value.ps);
  }

  lemma {:induction false} PatternYields(ts: seq<Token>)
    requires ParsePattern(ts).Ok?
    ensures PlainPattern(ParsePattern(ts).value)
    decreases |ts|, 5
  {
    hide ParseAlternatives;
    AlternativesYield(ts);
  }

  lemma {:induction false} AlternativesYield(ts: seq<Token>)
    requires ParseAlternatives(ts).Ok?
    ensures PlainPattern(ParseAlternatives(ts).value)
    decreases |ts|, 4
  {
    hide ParseClosed, AlternativeLoop;
    var p := ParseClosed(ts);
    ClosedYields(ts);
    AlternativeLoopYields(p.rest);
    PatternsCons(p.value, AlternativeLoop(p.rest).value);
  }

  lemma {:induction false} AlternativeLoopYields(ts: seq<Token>)
    requires AlternativeLoop(ts).Ok?
    ensures PlainPatterns(AlternativeLoop(ts).value)
    decreases |ts|, 0
  {
    hide ParseClosed;
    if At(ts, Op(BitOr)) {
      var p := ParseClosed(ts[1..]);
      ClosedYields(ts[1..]);
      AlternativeLoopYields(p.rest);
      PatternsCons(p.value, AlternativeLoop(p.rest).value);
    }
  }

  lemma {:induction false} ClosedYields(ts: seq<Token>)
    requires ParseClosed(ts).Ok?
    ensures PlainPattern(ParseClosed(ts).value)
    decreases |ts|, 3
  {
    hide ParseDots, ParseClassItems, ParseElements, ValidPattern, ErasePattern;
    if ts[0].Id? {
      NamePatternYields(ts);
    } else if ts[0] == LBrk || ts[0] == LPar {
      SequenceYields(ts);
    } else if ts[0] == LBrace {
      hide ParseEntries;
      EntriesYield(ts[1..]);
      var m := ParseEntries(ts[1..]).value;
      MappingPlain(m.entries, m.rest);
    } else {
      ConstantPlain(if ts[0].Lit? then ts[0].c else ts[1].c);
    }
  }

  lemma MappingPlain(es: seq<Entry>, r: Option<string>)
    requires PlainEntries(es) && r != Some(WILDCARD)
    ensures PlainPattern(MatchMapping(0, es, r))
  {
    hide ValidEntries, EraseEntries;
  }

  lemma {:induction false} SequenceYields(ts: seq<Token>)
    requires At(ts, LBrk) || At(ts, LPar)
    requires ParseClosed(ts).Ok?
    ensures PlainPattern(ParseClosed(ts).value)
    decreases |ts|, 2
  {
    hide ParseElements, PlainElements;
    assert PlainPattern(MatchSequence(0, []));
    hide PlainPattern;
    if !At(ts[1..], if ts[0] == LBrk then RBrk else RPar) {
      ElementsYield(ts[1..]);
      FirstOf(ParseElements(ts[1..]).value.ps);
    }
  }

  lemma ConstantPlain(c: Const)
    ensures c.Int? ==> PlainPattern(MatchValue(0, Constant(0, c)))
    ensures c.Int? ==> PlainPattern(MatchValue(0, UnaryOp(0, USub, Constant(0, c))))
    ensures !c.Int? && !c.Ellipsis? ==> PlainPattern(MatchSingleton(0, c))
  {
    assert Erase(Constant(0, c)) == Constant(0, c);
    assert Erase(UnaryOp(0, USub, Constant(0, c))) == UnaryOp(0, USub, Constant(0, c));
  }

  lemma {:induction false} NamePatternYields(ts: seq<Token>)
    requires ts != [] && ts[0].Id? && ParseClosed(ts).Ok?
    ensures PlainPattern(ParseClosed(ts).value)
    decreases |ts|, 2
  {
    hide ParseDots, ParseClassItems, PlainPattern, PlainItems, Dotted, Erase;
    var d := ParseDots(Name(0, ts[0].name), ts[1..]);
    NameDotted(ts[0].name);
    DotsYield(Name(0, ts[0].name), ts[1..]);
    if At(d.rest, LPar) {
      ClassItemsYield(false, d.rest[1..]);
      ClassPlain(d.value, ParseClassItems(false, d.rest[1..]).value);
    } else {
      NamePlain(d.value, ts[0].name);
    }
  }

  lemma NameDotted(n: string)
    ensures Dotted(Name(0, n)) && Erase(Name(0, n)) == Name(0, n)
  {
  }

  lemma ClassPlain(e: Expr, items: ClassItems)
    requires Dotted(e) && Erase(e) == e && PlainItems(items)
    ensures PlainPattern(MatchClass(0, e, items.positional, items.attrs))
  {
  }

  lemma NamePlain(e: Expr, n: string)
    requires Dotted(e) && Erase(e) == e
    ensures e.Attribute? ==> PlainPattern(MatchValue(0, e))
    ensures PlainPattern(MatchAs(0, None, None)) && (n != WILDCARD ==> PlainPattern(MatchAs(0, None, Some(n))))
  {
  }

  lemma {:induction false} DotsYield(e: Expr, ts: seq<Token>)
    requires Dotted(e) && Erase(e) == e && ParseDots(e, ts).Ok?
    ensures Dotted(ParseDots(e, ts).value) && Erase(ParseDots(e, ts).value) == ParseDots(e, ts).value
    decreases |ts|
  {
    if At(ts, Dot) { DotsYield(Attribute(0, e, ts[1].name), ts[2..]); }
  }

  lemma {:induction false} ElementsYield(ts: seq<Token>)
    requires ParseElements(ts).Ok?
    ensures PlainElements(ParseElements(ts).value.ps)
    decreases |ts|, 7
  {
    hide ParseElement, PlainElement, PlainElements;
    assert PlainElements([]) by { NoElements(); }
    var p := ParseElement(ts);
    ElementYields(ts);
    ElementsCons(p.value, []);
    assert [p.value] + [] == [p.value];
    if At(p.rest, Comma) && StartsPattern(p.rest[1..]) {
      ElementsYield(p.rest[1..]);
      ElementsCons(p.value, ParseElements(p.rest[1..]).value.ps);
    }
  }

  lemma NoElements()
    ensures PlainElements([])
  {
  }

  lemma {:induction false} ElementYields(ts: seq<Token>)
    requires ParseElement(ts).Ok?
    ensures PlainElement(ParseElement(ts).value)
    decreases |ts|, 6
  {
    hide ParsePattern;
    if !At(ts, Op(Mult)) { PatternYields(ts); }
  }

  predicate PlainEntries(es: seq<Entry>) {
    ValidEntries(es) && EraseEntries(es) == es
  }

  lemma {:induction false} KeyYields(ts: seq<Token>)
    requires ParseKey(ts).Ok?
    ensures KeyExpr(ParseKey(ts).value) && Erase(ParseKey(ts).value) == ParseKey(ts).value
  {
    hide ParseDots;
    if ts[0].Id? { DotsYield(Name(0, ts[0].name), ts[1..]); }
  }

  lemma EntriesCons(e: Entry, es: seq<Entry>)
    requires KeyExpr(e.key) && Erase(e.key) == e.key && PlainPattern(e.pattern) && PlainEntries(es)
    ensures PlainEntries([e] + es)
  {
    assert ValidEntry(e) && EraseEntry(e) == e;
    hide ValidEntry, EraseEntry;
    assert ([e] + es)[1..] == es;
  }

  lemma {:induction false} EntriesYield(ts: seq<Token>)
    requires ParseEntries(ts).Ok?
    ensures var m := ParseEntries(ts).value; PlainEntries(m.entries) && m.rest != Some(WILDCARD)
    decreases |ts|, 7
  {
    hide ParseKey, ParsePattern, PlainPattern;
    if !At(ts, RBrace) && !At(ts, Op(Pow)) {
      var k := ParseKey(ts);
      KeyYields(ts);
      var p := ParsePattern(k.rest[1..]);
      PatternYields(k.rest[1..]);
      if At(p.rest, Comma) { EntriesYield(p.rest[1..]); }
      var more := if At(p.rest, Comma) then ParseEntries(p.rest[1..]) else Ok(MappingItems([], None), p.rest);
      EntriesCons(Entry(k.value, p.value), more.value.entries);
    }
  }

  predicate PlainItems(c: ClassItems) {
    PlainPatterns(c.positional) && ValidAttrs(c.attrs) && EraseAttrs(c.attrs) == c.attrs
  }

  lemma AttrsCons(a: AttrPattern, as': seq<AttrPattern>)
    requires PlainPattern(a.pattern) && ValidAttrs(as') && EraseAttrs(as') == as'
    ensures ValidAttrs([a] + as') && EraseAttrs([a] + as') == [a] + as'
  {
    hide ValidPattern, ErasePattern;
    assert ([a] + as')[1..] == as';
  }

  lemma {:induction false} ClassItemsYield(keywords: bool, ts: seq<Token>)
    requires ParseClassItems(keywords, ts).Ok?
    ensures PlainItems(ParseClassItems(keywords, ts).value)
    ensures keywords ==> ParseClassItems(keywords, ts).value.positional == []
    decreases |ts|, 7
  {
    hide ParsePattern, PlainPattern;
    if !At(ts, RPar) {
      var p := ParsePattern(ts);
      PatternYields(ts);
      if At(p.rest, Assign) {
        var v := ParsePattern(p.rest[1..]);
        PatternYields(p.rest[1..]);
        if At(v.rest, Comma) { ClassItemsYield(true, v.rest[1..]); }
        var more := if At(v.rest, Comma) then ParseClassItems(true, v.rest[1..]) else Ok(ClassItems([], []), v.rest);
        AttrsCons(AttrPattern(ts[0].name, v.value), more.value.attrs);
      } else {
        if At(p.rest, Comma) { ClassItemsYield(false, p.rest[1..]); }
        var more := if At(p.rest, Comma) then ParseClassItems(false, p.rest[1..]) else Ok(ClassItems([], []), p.rest);
        PatternsCons(p.value, more.value.positional);
      }
    }
  }

  /* ----- statements ----- */

  predicate PlainStmt(s: Stmt) {
    ValidStmt(s) && Image(false, s) == s
  }

  predicate PlainBody(b: seq<Stmt>) {
    ValidStmts(b) && ImageAll(false, b) == b
  }

  predicate PlainSuite(b: seq<Stmt>) {
    b != [] && PlainBody(b)
  }

  lemma BodyCons(s: Stmt, b: seq<Stmt>)
    requires PlainStmt(s) && PlainBody(b)
    ensures PlainBody([s] + b)
  {
    hide ValidStmt, Image;
    assert ([s] + b)[1..] == b;
  }

  lemma NoBody()
    ensures PlainBody([])
  {
  }

  lemma {:induction false} BodyYields(d: nat, ts: seq<Token>)
    requires ParseBody(d, ts).Ok?
    ensures PlainSuite(ParseBody(d, ts).value)
    decreases |ts|, 1
  {
    hide ParseStmt, PlainStmt, PlainBody;
    NoBody();
    var s := ParseStmt(d, ts[1..]);
    StmtYields(d, ts[1..]);
    BodyCons(s.value, []);
    assert [s.value] + [] == [s.value];
    if At(s.rest, Line(d)) {
      BodyYields(d, s.rest);
      BodyCons(s.value, ParseBody(d, s.rest).value);
    }
  }

  lemma {:induction false} SuiteYields(d: nat, ts: seq<Token>)
    requires ParseSuite(d, ts).Ok?
    ensures PlainSuite(ParseSuite(d, ts).value)
    decreases |ts|, 2
  {
    hide ParseBody, PlainSuite;
    BodyYields(ts[1].indent, ts[1..]);
  }

  lemma {:induction false} ElseYields(d: nat, ts: seq<Token>)
    requires ParseElse(d, ts).Ok?
    ensures PlainBody(ParseElse(d, ts).value)
    decreases |ts|, 3
  {
    hide ParseSuite, PlainBody;
    NoBody();
    if AtClause(d, KwElse, ts) { SuiteYields(d, ts[2..]); }
  }

  lemma {:induction false} StmtYields(d: nat, ts: seq<Token>)
    requires ParseStmt(d, ts).Ok?
    ensures PlainStmt(ParseStmt(d, ts).value)
    decreases |ts|, 3
  {
    hide ParseSuite, ParseElse, ParseIf, ParseFor, ParseWith, ParseTry, ParseMatch, ParseRaise, ParseSimple;
    hide ParseStarExprs, ParseNamed, PlainStmt, Valid, Erase;
    match ts[0]
    case KwPass => WordsPlain();
    case KwBreak => WordsPlain();
    case KwContinue => WordsPlain();
    case KwReturn =>
      if StartsElt(ts[1..]) {
        StarExprsYield(ts[1..]);
        ReturnPlain(Some(ParseStarExprs(ts[1..]).value));
      } else {
        ReturnPlain(None);
      }
    case KwRaise => RaiseYields(ts[1..]);
    case KwIf => IfYields(d, ts[1..]);
    case KwWhile =>
      var t := ParseNamed(ts[1..]);
      NamedYields(ts[1..]);
      var b := ParseSuite(d, t.rest);
      SuiteYields(d, t.rest);
      ElseYields(d, b.rest);
      WhilePlain(t.value, b.value, ParseElse(d, b.rest).value);
    case KwFor => ForYields(d, ts[1..]);
    case KwWith =>
      var items := ParseWith(ts[1..]);
      WithYields(ts[1..]);
      SuiteYields(d, items.rest);
      WithPlain(items.value, ParseSuite(d, items.rest).value);
    case KwTry => TryYields(d, ts[1..]);
    case KwMatch => MatchYields(d, ts[1..]);
    case _ => SimpleYields(ts);
  }

  lemma WordsPlain()
    ensures PlainStmt(Pass) && PlainStmt(Break) && PlainStmt(Continue)
  {
  }

  lemma ReturnPlain(v: Option<Expr>)
    requires v.Some? ==> PlainElt(v.value)
    ensures PlainStmt(Return(v))
  {
    hide Valid, Erase;
  }

  lemma WhilePlain(t: Expr, b: seq<Stmt>, o: seq<Stmt>)
    requires Plain(t) && PlainSuite(b) && PlainBody(o)
    ensures PlainStmt(While(t, b, o)) && PlainStmt(If(t, b, o))
  {
    assert ValidSuite(b);
    hide Valid, Erase, ValidStmts, ImageAll, ValidSuite;
  }

  lemma WithPlain(items: seq<WithItem>, b: seq<Stmt>)
    requires items != [] && ValidItems(items) && EraseItems(items) == items && PlainSuite(b)
    ensures PlainStmt(With(items, b))
  {
    assert ValidSuite(b);
    hide ValidItems, EraseItems, ValidStmts, ImageAll, ValidSuite;
  }

  lemma {:induction false} RaiseYields(ts: seq<Token>)
    requires ParseRaise(ts).Ok?
    ensures PlainStmt(ParseRaise(ts).value)
  {
    hide Parse, Valid, Erase;
    if ts != [] && Starts(TEST, ts[0]) {
      var e := Parse(TEST, ts);
      ParseYields(TEST, ts);
      if At(e.rest, KwFrom) { ParseYields(TEST, e.rest[1..]); }
    }
  }

  lemma {:induction false} IfYields(d: nat, ts: seq<Token>)
    requires ParseIf(d, ts).Ok?
    ensures PlainStmt(ParseIf(d, ts).value)
    decreases |ts|, 3
  {
    hide ParseNamed, ParseSuite, ParseElse, Plain, PlainStmt, PlainBody;
    var t := ParseNamed(ts);
    NamedYields(ts);
    var b := ParseSuite(d, t.rest);
    SuiteYields(d, t.rest);
    if AtClause(d, KwElif, b.rest) {
      var e := ParseIf(d, b.rest[2..]);
      IfYields(d, b.rest[2..]);
      NoBody();
      BodyCons(e.value, []);
      assert [e.value] + [] == [e.value];
      WhilePlain(t.value, b.value, [e.value]);
    } else {
      ElseYields(d, b.rest);
      WhilePlain(t.value, b.value, ParseElse(d, b.rest).value);
    }
  }

  predicate PlainTarget(e: Expr) {
    PlainElt(e) && IsTargetElt(e)
  }

  lemma {:induction false} ForYields(d: nat, ts: seq<Token>)
    requires ParseFor(d, ts).Ok?
    ensures PlainStmt(ParseFor(d, ts).value)
    decreases |ts|, 3
  {
    hide ParseTargets, ParseStarExprs, ParseSuite, ParseElse, PlainTarget, PlainElt, PlainStmt, PlainBody;
    var t := ParseTargets(ts);
    TargetsYield(ts);
    var i := ParseStarExprs(t.rest[1..]);
    StarExprsYield(t.rest[1..]);
    var b := ParseSuite(d, i.rest);
    SuiteYields(d, i.rest);
    ElseYields(d, b.rest);
    ForPlain(t.value, i.value, b.value, ParseElse(d, b.rest).value);
  }

  lemma ForPlain(t: Expr, i: Expr, b: seq<Stmt>, o: seq<Stmt>)
    requires PlainTarget(t) && PlainElt(i) && PlainSuite(b) && PlainBody(o)
    ensures PlainStmt(For(t, i, b, o))
  {
    assert ValidSuite(b) && ValidTarget(t);
    hide Valid, Erase, IsTarget, ValidStmts, ImageAll, ValidSuite, ValidTarget;
  }

  lemma {:induction false} TargetEltYields(ts: seq<Token>)
    requires ParseTargetElt(ts).Ok?
    ensures PlainTarget(ParseTargetElt(ts).value)
  {
    hide Parse, IsTarget;
    if At(ts, Op(Mult)) { ParseYields(ATOM, ts[1..]); } else { ParseYields(ATOM, ts); }
    hide Valid;
  }

  lemma {:induction false} TargetEltsYield(ts: seq<Token>)
    requires ParseTargetElts(ts).Ok?
    ensures var es := ParseTargetElts(ts).value.es; PlainElts(es) && AreTargets(es)
    decreases |ts|
  {
    hide ParseTargetElt, PlainElt, PlainElts, IsTargetElt;
    assert PlainElts([]) by { NoElts(); }
    var e := ParseTargetElt(ts);
    TargetEltYields(ts);
    EltsCons(e.value, []);
    assert [e.value] + [] == [e.value];
    if At(e.rest, Comma) && StartsElt(e.rest[1..]) {
      TargetEltsYield(e.rest[1..]);
      EltsCons(e.value, ParseTargetElts(e.rest[1..]).value.es);
    }
  }

  lemma {:induction false} TargetsYield(ts: seq<Token>)
    requires ParseTargets(ts).Ok?
    ensures PlainTarget(ParseTargets(ts).value)
  {
    hide ParseTargetElts, PlainElts, PlainElt;
    TargetEltsYield(ts);
    var es := ParseTargetElts(ts).value.es;
    OneOf(es);
    TupleOf(es);
    assert IsTargetElt(es[0]) && IsTarget(Tuple(0, es));
  }

  predicate PlainItem(i: WithItem) {
    ValidItem(i) && EraseItem(i) == i
  }

  lemma ItemsCons(i: WithItem, items: seq<WithItem>)
    requires PlainItem(i) && ValidItems(items) && EraseItems(items) == items
    ensures ValidItems([i] + items) && EraseItems([i] + items) == [i] + items
  {
    hide ValidItem, EraseItem;
    assert ([i] + items)[1..] == items;
  }

  lemma {:induction false} ItemYields(ts: seq<Token>)
    requires ParseItem(ts).Ok?
    ensures PlainItem(ParseItem(ts).value)
  {
    hide Parse, ParseTargetElt, Valid, Erase, IsTarget;
    var e := Parse(TEST, ts);
    ParseYields(TEST, ts);
    if At(e.rest, KwAs) && ParseTargetElt(e.rest[1..]).Ok? { TargetEltYields(e.rest[1..]); }
  }

  lemma {:induction false} ItemsYield(ts: seq<Token>)
    requires ParseItems(ts).Ok?
    ensures var r := ParseItems(ts).value; r != [] && ValidItems(r) && EraseItems(r) == r
    decreases |ts|
  {
    hide ParseItem, PlainItem;
    var i := ParseItem(ts);
    ItemYields(ts);
    ItemsCons(i.value, []);
    assert [i.value] + [] == [i.value];
    if At(i.rest, Comma) && ParseItems(i.rest[1..]).Ok? {
      ItemsYield(i.rest[1..]);
      ItemsCons(i.value, ParseItems(i.rest[1..]).value);
    }
  }

  lemma {:induction false} WithYields(ts: seq<Token>)
    requires ParseWith(ts).Ok?
    ensures var r := ParseWith(ts).value; r != [] && ValidItems(r) && EraseItems(r) == r
  {
    hide ParseItems, ValidItems, EraseItems;
    if ParseParenthesised(ts).Ok? { ItemsYield(ts[1..]); } else { ItemsYield(ts); }
  }

  predicate PlainHandlers(hs: seq<Handler>) {
    ValidHandlers(hs) && ImageHandlers(false, hs) == hs
  }

  predicate PlainHandler(h: Handler) {
    ValidHandler(h) && ImageHandler(false, h) == h
  }

  lemma HandlersCons(h: Handler, hs: seq<Handler>)
    requires PlainHandler(h) && PlainHandlers(hs)
    ensures PlainHandlers([h] + hs) && AllTyped([h] + hs) == (h.kind.Some? && AllTyped(hs))
  {
    hide ValidHandler, ImageHandler;
    assert ([h] + hs)[1..] == hs;
  }

  lemma {:induction false} HandlerYields(d: nat, star: bool, ts: seq<Token>)
    requires ParseHandler(d, star, ts).Ok?
    ensures PlainHandler(ParseHandler(d, star, ts).value)
    ensures star ==> ParseHandler(d, star, ts).value.kind.Some?
    decreases |ts|, 3
  {
    hide Parse, ParseSuite, PlainHandler, PlainSuite, Plain;
    if At(ts, Colon) {
      SuiteYields(d, ts);
      HandlerPlain(None, None, ParseSuite(d, ts).value);
    } else {
      var e := Parse(TEST, ts);
      ParseYields(TEST, ts);
      if At(e.rest, KwAs) && |e.rest| >= 2 && e.rest[1].Id? {
        SuiteYields(d, e.rest[2..]);
        HandlerPlain(Some(e.value), Some(e.rest[1].name), ParseSuite(d, e.rest[2..]).value);
      } else {
        SuiteYields(d, e.rest);
        HandlerPlain(Some(e.value), None, ParseSuite(d, e.rest).value);
      }
    }
  }

  lemma HandlerPlain(kind: Option<Expr>, name: Option<string>, b: seq<Stmt>)
    requires (kind.Some? ==> Plain(kind.value)) && (name.Some? ==> kind.Some?) && PlainSuite(b)
    ensures PlainHandler(Handler(kind, name, b))
  {
    assert ValidSuite(b);
    hide Valid, Erase, ValidStmts, ImageAll, ValidSuite;
  }

  lemma {:induction false} HandlersYield(d: nat, star: bool, ts: seq<Token>)
    requires ParseHandlers(d, star, ts).Ok?
    ensures var hs := ParseHandlers(d, star, ts).value;
            PlainHandlers(hs) && (star ==> AllTyped(hs)) && (AtClause(d, KwExcept, ts) ==> hs != [])
    decreases |ts|, 3
  {
    hide ParseHandler, PlainHandler;
    if AtClause(d, KwExcept, ts) {
      var after := if star then ts[3..] else ts[2..];
      var h := ParseHandler(d, star, after);
      HandlerYields(d, star, after);
      HandlersYield(d, star, h.rest);
      HandlersCons(h.value, ParseHandlers(d, star, h.rest).value);
    }
  }

  lemma {:induction false} TryYields(d: nat, ts: seq<Token>)
    requires ParseTry(d, ts).Ok?
    ensures PlainStmt(ParseTry(d, ts).value)
    decreases |ts|, 3
  {
    hide ParseSuite, ParseHandlers, ParseElse, PlainStmt, PlainBody, PlainHandlers, AllTyped;
    NoBody();
    var b := ParseSuite(d, ts);
    SuiteYields(d, ts);
    var star := |b.rest| >= 3 && AtClause(d, KwExcept, b.rest) && b.rest[2] == Op(Mult);
    var hs := ParseHandlers(d, star, b.rest);
    HandlersYield(d, star, b.rest);
    if hs.value != [] { ElseYields(d, hs.rest); }
    var o := if hs.value == [] then Ok([], hs.rest) else ParseElse(d, hs.rest);
    if AtClause(d, KwFinally, o.rest) {
      SuiteYields(d, o.rest[2..]);
      TryPlain(star, b.value, hs.value, o.value, ParseSuite(d, o.rest[2..]).value);
    } else {
      TryPlain(star, b.value, hs.value, o.value, []);
    }
  }

  lemma TryPlain(star: bool, b: seq<Stmt>, hs: seq<Handler>, o: seq<Stmt>, f: seq<Stmt>)
    requires PlainSuite(b) && PlainHandlers(hs) && PlainBody(o) && PlainBody(f)
    requires (hs == [] ==> o == [] && f != []) && (star ==> hs != [] && AllTyped(hs))
    ensures PlainStmt(Try(star, b, hs, o, f))
  {
    assert ValidSuite(b);
    hide ValidStmts, ImageAll, ValidHandlers, ImageHandlers, AllTyped, ValidSuite;
  }

  predicate PlainCases(cs: seq<Case>) {
    ValidCases(cs) && ImageCases(false, cs) == cs
  }

  predicate PlainCase(c: Case) {
    ValidCase(c) && ImageCase(false, c) == c
  }

  lemma CasesCons(c: Case, cs: seq<Case>)
    requires PlainCase(c) && PlainCases(cs)
    ensures PlainCases([c] + cs)
  {
    hide ValidCase, ImageCase;
    assert ([c] + cs)[1..] == cs;
  }

  lemma CasePlain(p: Pattern, g: Option<Expr>, b: seq<Stmt>)
    requires PlainPattern(p) && (g.Some? ==> Plain(g.value)) && PlainSuite(b)
    ensures PlainCase(Case(p, g, b))
  {
    assert ValidSuite(b);
    hide ValidPattern, ErasePattern, Valid, Erase, ValidStmts, ImageAll, ValidSuite;
  }

  lemma {:induction false} CaseYields(d: nat, ts: seq<Token>)
    requires ParseCase(d, ts).Ok?
    ensures PlainCase(ParseCase(d, ts).value)
    decreases |ts|, 3
  {
    hide ParseCasePattern, ParseNamed, ParseSuite, PlainPattern, Plain, PlainSuite, PlainCase;
    var p := ParseCasePattern(ts);
    CasePatternYields(ts);
    if At(p.rest, KwIf) {
      var g := ParseNamed(p.rest[1..]);
      NamedYields(p.rest[1..]);
      SuiteYields(d, g.rest);
      CasePlain(p.value, Some(g.value), ParseSuite(d, g.rest).value);
    } else {
      SuiteYields(d, p.rest);
      CasePlain(p.value, None, ParseSuite(d, p.rest).value);
    }
  }

  lemma {:induction false} CasesYield(d: nat, ts: seq<Token>)
    requires ParseCases(d, ts).Ok?
    ensures PlainCases(ParseCases(d, ts).value)
    decreases |ts|, 3
  {
    hide ParseCase, PlainCase;
    if AtClause(d, KwCase, ts) {
      var c := ParseCase(d, ts[2..]);
      CaseYields(d, ts[2..]);
      CasesYield(d, c.rest);
      CasesCons(c.value, ParseCases(d, c.rest).value);
    }
  }

  lemma {:induction false} MatchYields(d: nat, ts: seq<Token>)
    requires ParseMatch(d, ts).Ok?
    ensures PlainStmt(ParseMatch(d, ts).value)
    decreases |ts|, 3
  {
    hide ParseElts, ParseCases, PlainElts, PlainElt, Plain, PlainCases, PlainStmt;
    var es := ParseElts(true, ts);
    EltsYield(true, ts);
    OneOf(es.value.es);
    TupleOf(es.value.es);
    var single := |es.value.es| == 1 && !es.value.trailing;
    var v := if single then es.value.es[0] else Tuple(0, es.value.es);
    CasesYield(es.rest[1].indent, es.rest[1..]);
    MatchPlain(v, ParseCases(es.rest[1].indent, es.rest[1..]).value);
  }

  lemma MatchPlain(v: Expr, cs: seq<Case>)
    requires Plain(v) && cs != [] && PlainCases(cs)
    ensures PlainStmt(Match(v, cs))
  {
    hide Valid, Erase, ValidCases, ImageCases;
  }

  lemma {:induction false} RhsYields(ts: seq<Token>)
    requires ParseRhs(ts).Ok?
    ensures PlainElt(ParseRhs(ts).value)
  {
    hide ParseYield, ParseStarExprs, PlainElt, Plain;
    if At(ts, KwYield) {
      YieldYields(ts[1..]);
      PlainIsElt(ParseYield(ts[1..]).value);
    } else {
      StarExprsYield(ts);
    }
  }

  predicate PlainAssigned(a: Assigned) {
    ValidTargets(a.targets) && EraseAll(a.targets) == a.targets && PlainElt(a.value)
  }

  lemma TargetsCons(t: Expr, ts: seq<Expr>)
    requires PlainTarget(t) && ValidTargets(ts) && EraseAll(ts) == ts
    ensures ValidTargets([t] + ts) && EraseAll([t] + ts) == [t] + ts
  {
    hide Valid, Erase, IsTarget;
    assert ([t] + ts)[1..] == ts;
  }

  lemma {:induction false} AssignedYields(ts: seq<Token>)
    requires ParseAssigned(ts).Ok?
    ensures PlainAssigned(ParseAssigned(ts).value)
    decreases |ts|
  {
    hide ParseRhs, PlainElt, IsTargetElt;
    var v := ParseRhs(ts);
    RhsYields(ts);
    if At(v.rest, Assign) {
      AssignedYields(v.rest[1..]);
      TargetsCons(v.value, ParseAssigned(v.rest[1..]).value.targets);
    }
  }

  lemma {:induction false} SimpleYields(ts: seq<Token>)
    requires ParseSimple(ts).Ok?
    ensures PlainStmt(ParseSimple(ts).value)
  {
    hide ParseAssigned, ParseRhs, PlainElt, PlainStmt, ValidTargets;
    var a := ParseAssigned(ts);
    AssignedYields(ts);
    SimplePlain(a.value.targets, a.value.value, Add, a.value.value);
    if a.value.targets == [] && a.rest != [] && a.rest[0].Aug? {
      RhsYields(a.rest[1..]);
      SimplePlain([], ParseRhs(a.rest[1..]).value, a.rest[0].b, a.value.value);
    }
  }

  lemma SimplePlain(ts: seq<Expr>, v: Expr, op: Bin, t: Expr)
    requires ValidTargets(ts) && EraseAll(ts) == ts && PlainElt(v) && PlainElt(t)
    ensures PlainStmt(ExprStmt(v))
    ensures ts != [] ==> PlainStmt(AssignStmt(ts, v))
    ensures IsSingleTarget(t) ==> PlainStmt(AugAssign(t, op, v))
  {
    hide Valid, Erase, ValidTargets, EraseAll;
  }

  /** Whatever text the grammar accepts, its tree is valid and has no identities. */
  lemma ModuleYields(ts: seq<Token>)
    requires ParseModule(ts).Ok?
    ensures PlainBody(ParseModule(ts).value)
  {
    hide ParseBody, PlainBody;
    NoBody();
    if ts != [] { BodyYields(0, ts); }
  }
}
