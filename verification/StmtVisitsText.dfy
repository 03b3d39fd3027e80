/** The same for patterns and statements, at the indentation of their place. */
module StmtVisitsText {
  import opened Options
  import opened PyAst
  import opened Tokens
  import opened ExprText
  import opened PatternText
  import opened StmtText
  import opened Scripts
  import opened Faithful
  import opened Visits
  import opened VisitsText
  import opened Erasure

  /* ----- patterns ----- */

  predicate CopyPattern(plain: bool, t: Pattern, p: Pattern) {
    ErasePattern(t) == ErasePattern(p) && (plain ==> t == ErasePattern(p))
  }

  predicate CopyPatterns(plain: bool, ts: seq<Pattern>, ps: seq<Pattern>) {
    ErasePatterns(ts) == ErasePatterns(ps) && (plain ==> ts == ErasePatterns(ps))
  }

  lemma CopyPatternsCons(plain: bool, t: Pattern, ts: seq<Pattern>, ps: seq<Pattern>, i: nat)
    requires i < |ps| && CopyPattern(plain, t, ps[i]) && CopyPatterns(plain, ts, ps[i + 1..])
    ensures CopyPatterns(plain, [t] + ts, ps[i..])
  {
    hide ErasePattern;
    assert ps[i..][1..] == ps[i + 1..] && ([t] + ts)[1..] == ts;
  }

  lemma CopyPatternsNone(plain: bool, ps: seq<Pattern>, i: nat)
    requires i == |ps|
    ensures CopyPatterns(plain, [], ps[i..])
  {
  }

  lemma SamePatternLevel(t: Pattern, p: Pattern)
    requires ErasePattern(t) == ErasePattern(p)
    ensures PatternLv(t) == PatternLv(p)
  {
    hide ErasePatterns, EraseEntries, EraseAttrs, Erase;
  }

  lemma {:induction false} PatternMeant(j: Judge, c: Place, p: Pattern) returns (t: Pattern)
    requires Covers(j, c, PatternScript(p))
    ensures Text(j, c, PatternScript(p)) == PatternToks(t, c.Wanted(p.id)) && CopyPattern(j.Context?, t, p)
    decreases p, 2
  {
    hide Text, Covers, BarePattern, BarePatternScript, ErasePattern;
    Decided(j, c, p.id, PatternLv(p), BarePatternScript(p));
    t := BarePatternMeant(j, c.Forget(), p, if Extra(j, c, p.id, PatternLv(p)) then PAIRED else 0);
    SamePatternLevel(t, p);
  }

  lemma {:induction false} NewPatternMeant(j: Judge, c: Place, p: Pattern) returns (t: Pattern)
    requires c.ids == [] && Covers(j, c, PatternScript(p))
    ensures Text(j, c, PatternScript(p)) == PatternToks(t, TEST) && CopyPattern(j.Context?, t, p)
    decreases p, 3
  {
    hide Text, Covers, PatternToks, PatternScript, CopyPattern;
    t := PatternMeant(j, c, p);
  }

  lemma {:induction false} BarePatternMeant(j: Judge, c: Place, p: Pattern, id: nat) returns (t: Pattern)
    requires c.ids == [] && Covers(j, c, BarePatternScript(p))
    ensures Text(j, c, BarePatternScript(p)) == BarePattern(t) && t.id == id
    ensures CopyPattern(j.Context? && id == 0, t, p)
    decreases p, 1
  {
    hide Text, Covers, BarePattern, BarePatternScript, CopyPattern;
    if p.MatchMapping? {
      t := MappingMeant(j, c, p, id);
    } else if p.MatchClass? {
      t := ClassMeant(j, c, p, id);
    } else if p.MatchAs? {
      t := AsMeant(j, c, p, id);
    } else if p.MatchOr? {
      t := OrMeant(j, c, p, id);
    } else {
      t := ClosedMeant(j, c, p, id);
    }
  }

  lemma {:induction false} ClosedMeant(j: Judge, c: Place, p: Pattern, id: nat) returns (t: Pattern)
    requires (p.MatchValue? || p.MatchSingleton? || p.MatchSequence? || p.MatchStar?) && c.ids == []
    requires Covers(j, c, BarePatternScript(p))
    ensures Text(j, c, BarePatternScript(p)) == BarePattern(t) && t.id == id
    ensures CopyPattern(j.Context? && id == 0, t, p)
    decreases p, 0
  {
    hide Text, Covers, Toks, ExprScript, PatternJoin, PatternJoinScript, Erase, ErasePatterns;
    match p
    case MatchValue(_, v) =>
      var v' := NewMeant(j, c, v);
      t := MatchValue(id, v');
    case MatchSingleton(_, k) =>
      Simple(j, c, [], k);
      t := MatchSingleton(id, k);
    case MatchSequence(_, ps) =>
      var open, more, close := Put([LBrk]), PatternJoinScript(ps, 0), Put([RBrk]);
      var j1 := j.Later(open);
      Pair(j, c, open, Then(more, close));
      Pair(j1, c, more, close);
      Simple(j, c, [LBrk], True);
      Simple(j1.Later(more), c, [RBrk], True);
      var ps' := PatternJoinedMeant(j1, c, ps);
      Regroup([LBrk], PatternJoin(ps'), [RBrk]);
      t := MatchSequence(id, ps');
    case MatchStar(_, n) =>
      Simple(j, c, [Op(Mult), Id(OrWildcard(n))], True);
      t := MatchStar(id, n);
  }

  lemma {:induction false} AsMeant(j: Judge, c: Place, p: Pattern, id: nat) returns (t: Pattern)
    requires p.MatchAs? && c.ids == [] && Covers(j, c, BarePatternScript(p))
    ensures Text(j, c, BarePatternScript(p)) == BarePattern(t) && t.id == id
    ensures CopyPattern(j.Context? && id == 0, t, p)
    decreases p, 0
  {
    hide Text, Covers, PatternToks, PatternScript;
    var q, n := p.pattern, p.name;
    if n.None? {
      Simple(j, c, [Id(WILDCARD)], True);
      var x := NoName(q);
      t := MatchAs(id, x, n);
    } else if q.None? {
      Simple(j, c, [Id(n.value)], True);
      t := MatchAs(id, None, n);
    } else {
      var k, j0 := c.Ask([q.value.id], BOR), j.Told([q.value.id], BOR);
      var inner, name := Asking(k.ids, BOR, PatternScript(q.value)), Put([KwAs, Id(n.value)]);
      Pair(j, c, inner, name);
      Inside(j, c, k.ids, BOR, PatternScript(q.value));
      Simple(j.Later(inner), c, [KwAs, Id(n.value)], True);
      var q' := PatternMeant(j0, k, q.value);
      t := MatchAs(id, Some(q'), n);
    }
  }

  /** What a wildcard holds is not written. */
  lemma NoName(q: Option<Pattern>) returns (x: Option<Pattern>)
    ensures x == (if q.Some? then Some(ErasePattern(q.value)) else None)
    ensures (if x.Some? then Some(ErasePattern(x.value)) else None) == x
  {
    x := if q.Some? then Some(ErasePattern(q.value)) else None;
    if q.Some? { PatternErased(q.value); }
  }

  lemma {:induction false} OrMeant(j: Judge, c: Place, p: Pattern, id: nat) returns (t: Pattern)
    requires p.MatchOr? && c.ids == [] && Covers(j, c, BarePatternScript(p))
    ensures Text(j, c, BarePatternScript(p)) == BarePattern(t) && t.id == id
    ensures CopyPattern(j.Context? && id == 0, t, p)
    decreases p, 0
  {
    hide Text, Covers, AlternativeScript, AlternativeToks, ErasePatterns;
    var ps := p.alternatives;
    var ids := PatternHeads(ps);
    PatternHeadsAre(ps);
    Inside(j, c, ids, Next(BOR), AlternativeScript(ps, 0));
    var ts := AlternativeMeant(j.Told(ids, Next(BOR)), c.Ask(ids, Next(BOR)), ps, 0);
    assert ps[0..] == ps && [] + AlternativeToks(ts) == AlternativeToks(ts);
    t := MatchOr(id, ts);
  }

  lemma {:induction false} PatternHeadsAre(ps: seq<Pattern>)
    ensures forall i :: 0 <= i < |ps| ==> ps[i].id in PatternHeads(ps)
  {
    if ps != [] { PatternHeadsAre(ps[1..]); }
  }

  lemma {:induction false} AlternativeMeant(j: Judge, c: Place, ps: seq<Pattern>, i: nat) returns (ts: seq<Pattern>)
    requires i <= |ps| && c.level == Next(BOR) && forall k :: 0 <= k < |ps| ==> ps[k].id in c.ids
    requires Covers(j, c, AlternativeScript(ps, i))
    ensures Text(j, c, AlternativeScript(ps, i)) == SepToks(0 < i < |ps|, Op(BitOr)) + AlternativeToks(ts)
    ensures |ts| == |ps| - i && CopyPatterns(j.Context?, ts, ps[i..])
    decreases ps, 0, |ps| - i
  {
    hide Text, Covers, PatternToks, PatternScript, Sep, CopyPattern, CopyPatterns;
    if i == |ps| {
      Simple(j, c, [], True);
      CopyPatternsNone(j.Context?, ps, i);
      ts := [];
    } else {
      var sep, v, more := Sep(i > 0, Op(BitOr)), PatternScript(ps[i]), AlternativeScript(ps, i + 1);
      var j1 := j.Later(sep);
      var j2 := j1.Later(v);
      Pair(j, c, sep, Then(v, more));
      Pair(j1, c, v, more);
      SepMeant(j, c, i > 0, Op(BitOr));
      var x := PatternMeant(j1, c, ps[i]);
      var xs := AlternativeMeant(j2, c, ps, i + 1);
      hide AlternativeScript;
      ts := [x] + xs;
      CopyPatternsCons(j.Context?, x, xs, ps, i);
      assert ts[1..] == xs;
      Regroup(PatternToks(x, Next(BOR)), [Op(BitOr)], AlternativeToks(xs));
    }
  }

  lemma {:induction false} PatternJoinMeant(j: Judge, c: Place, ps: seq<Pattern>, i: nat) returns (ts: seq<Pattern>)
    requires i <= |ps| && c.ids == [] && Covers(j, c, PatternJoinScript(ps, i))
    ensures Text(j, c, PatternJoinScript(ps, i)) == SepToks(0 < i < |ps|, Comma) + PatternJoin(ts)
    ensures |ts| == |ps| - i && CopyPatterns(j.Context?, ts, ps[i..])
    decreases ps, 0, |ps| - i
  {
    hide Text, Covers, PatternToks, PatternScript, Sep, CopyPattern, CopyPatterns;
    if i == |ps| {
      Simple(j, c, [], True);
      CopyPatternsNone(j.Context?, ps, i);
      ts := [];
    } else {
      var sep, v, more := Sep(i > 0, Comma), PatternScript(ps[i]), PatternJoinScript(ps, i + 1);
      var j1 := j.Later(sep);
      var j2 := j1.Later(v);
      Pair(j, c, sep, Then(v, more));
      Pair(j1, c, v, more);
      SepMeant(j, c, i > 0, Comma);
      var x := NewPatternMeant(j1, c, ps[i]);
      var xs := PatternJoinMeant(j2, c, ps, i + 1);
      hide PatternJoinScript;
      ts := [x] + xs;
      CopyPatternsCons(j.Context?, x, xs, ps, i);
      assert ts[1..] == xs;
      Regroup(PatternToks(x, TEST), [Comma], PatternJoin(xs));
    }
  }

  lemma {:induction false} PatternJoinedMeant(j: Judge, c: Place, ps: seq<Pattern>) returns (ts: seq<Pattern>)
    requires c.ids == [] && Covers(j, c, PatternJoinScript(ps, 0))
    ensures Text(j, c, PatternJoinScript(ps, 0)) == PatternJoin(ts) && |ts| == |ps| && CopyPatterns(j.Context?, ts, ps)
    decreases ps, 1
  {
    hide Text, Covers, PatternJoin, PatternJoinScript, CopyPatterns;
    ts := PatternJoinMeant(j, c, ps, 0);
    assert ps[0..] == ps && [] + PatternJoin(ts) == PatternJoin(ts);
  }

  /* ----- mappings and classes ----- */

  function RestText(comma: bool, r: Option<string>): seq<Token> {
    if r.None? then [] else SepToks(comma, Comma) + [Op(Pow), Id(r.value)]
  }

  lemma RestMeant(j: Judge, c: Place, comma: bool, r: Option<string>)
    ensures Text(j, c, RestScript(comma, r)) == RestText(comma, r)
  {
    hide Text, Sep;
    Simple(j, c, [], True);
    if r.Some? {
      Pair(j, c, Sep(comma, Comma), Put([Op(Pow), Id(r.value)]));
      SepMeant(j, c, comma, Comma);
      Simple(j.Later(Sep(comma, Comma)), c, [Op(Pow), Id(r.value)], True);
    }
  }

  lemma {:induction false} MappingMeant(j: Judge, c: Place, p: Pattern, id: nat) returns (t: Pattern)
    requires p.MatchMapping? && c.ids == [] && Covers(j, c, BarePatternScript(p))
    ensures Text(j, c, BarePatternScript(p)) == BarePattern(t) && t.id == id
    ensures CopyPattern(j.Context? && id == 0, t, p)
    decreases p, 0
  {
    hide Text, Covers, EntryToks, EntryScript, RestScript, EraseEntries;
    var open, es, rest, close := Put([LBrace]), EntryScript(p.entries, 0), RestScript(p.entries != [], p.rest),
                                 Put([RBrace]);
    var j1 := j.Later(open);
    var j2 := j1.Later(es);
    Pair(j, c, open, Then(es, Then(rest, close)));
    Pair(j1, c, es, Then(rest, close));
    Pair(j2, c, rest, close);
    Simple(j, c, [LBrace], True);
    Simple(j2.Later(rest), c, [RBrace], True);
    var ts := EntryMeant(j1, c, p.entries, 0);
    assert p.entries[0..] == p.entries && [] + EntryToks(ts) == EntryToks(ts);
    RestMeant(j2, c, p.entries != [], p.rest);
    t := MatchMapping(id, ts, p.rest);
    assert BarePattern(t) == [LBrace] + EntryToks(ts) + RestText(ts != [], p.rest) + [RBrace];
    hide BarePattern, BarePatternScript, RestText;
    Regroup4([LBrace], EntryToks(ts), RestText(ts != [], p.rest), [RBrace]);
  }

  predicate CopyEntry(plain: bool, t: Entry, e: Entry) {
    EraseEntry(t) == EraseEntry(e) && (plain ==> t == EraseEntry(e))
  }

  lemma {:induction false} EntryMeant(j: Judge, c: Place, es: seq<Entry>, i: nat) returns (ts: seq<Entry>)
    requires i <= |es| && c.ids == [] && Covers(j, c, EntryScript(es, i))
    ensures Text(j, c, EntryScript(es, i)) == SepToks(0 < i < |es|, Comma) + EntryToks(ts) && |ts| == |es| - i
    ensures EraseEntries(ts) == EraseEntries(es[i..]) && (j.Context? ==> ts == EraseEntries(es[i..]))
    decreases es, 0, |es| - i
  {
    hide Text, Covers, EntryTok, EntryOne, Sep, EraseEntry;
    if i == |es| {
      Simple(j, c, [], True);
      ts := [];
    } else {
      var sep, v, more := Sep(i > 0, Comma), EntryOne(es[i]), EntryScript(es, i + 1);
      var j1 := j.Later(sep);
      var j2 := j1.Later(v);
      Pair(j, c, sep, Then(v, more));
      Pair(j1, c, v, more);
      SepMeant(j, c, i > 0, Comma);
      var x := EntryOneMeant(j1, c, es[i]);
      var xs := EntryMeant(j2, c, es, i + 1);
      hide EntryScript;
      ts := [x] + xs;
      assert es[i..][1..] == es[i + 1..] && ts[1..] == xs;
      Regroup(EntryTok(x), [Comma], EntryToks(xs));
    }
  }

  /** A key is written as its context wants it. */
  lemma {:induction false} EntryOneMeant(j: Judge, c: Place, e: Entry) returns (t: Entry)
    requires c.ids == [] && Covers(j, c, EntryOne(e))
    ensures Text(j, c, EntryOne(e)) == EntryTok(t) && CopyEntry(j.Context?, t, e)
    decreases e, 0
  {
    var key, colon, q := Key(ExprScript(e.key)), Put([Colon]), PatternScript(e.pattern);
    KeyMeant(j, c, e.key);
    hide Text, Covers, Toks, PatternToks, ExprScript, PatternScript, Erase, ErasePattern;
    var j1 := j.Later(key);
    Pair(j, c, key, Then(colon, q));
    Pair(j1, c, colon, q);
    Simple(j1, c, [Colon], True);
    var p := NewPatternMeant(j1.Later(colon), c, e.pattern);
    ExprErased(e.key);
    t := Entry(Erase(e.key), p);
    Regroup(Toks(Erase(e.key), TEST), [Colon], PatternToks(p, TEST));
  }

  lemma KeyMeant(j: Judge, c: Place, k: Expr)
    requires c.ids == []
    ensures Covers(j, c, Key(ExprScript(k))) ==> Text(j, c, Key(ExprScript(k))) == Toks(Erase(k), TEST)
  {
    hide ExprScript, Toks;
    if Covers(j, c, Key(ExprScript(k))) {
      AgreeingText(j, Context, c, ExprScript(k));
      SelfCovers(c, ExprScript(k));
      var t := NewMeant(Context, c, k);
    }
  }

  lemma {:induction false} ClassMeant(j: Judge, c: Place, p: Pattern, id: nat) returns (t: Pattern)
    requires p.MatchClass? && c.ids == [] && Covers(j, c, BarePatternScript(p))
    ensures Text(j, c, BarePatternScript(p)) == BarePattern(t) && t.id == id
    ensures CopyPattern(j.Context? && id == 0, t, p)
    decreases p, 0
  {
    hide Text, Covers, Toks, Asked, PatternJoin, PatternJoinScript, AttrToks, AttrScript, Sep, Erase, ErasePatterns,
        EraseAttrs;
    var comma := p.positional != [] && p.attrs != [];
    var k, ps, sep, as' := Asked(ATOM, p.cls), PatternJoinScript(p.positional, 0), Sep(comma, Comma),
                           AttrScript(p.attrs, 0);
    var j1 := j.Later(k);
    var j2 := j1.Later(ps);
    Pair(j, c, k, Parens(Then(ps, Then(sep, as'))));
    Within(j1, c, Then(ps, Then(sep, as')));
    Pair(j1, c, ps, Then(sep, as'));
    Pair(j2, c, sep, as');
    SepMeant(j2, c, comma, Comma);
    var k' := AskedMeant(j, c, ATOM, p.cls);
    var qs := PatternJoinedMeant(j1, c, p.positional);
    var xs := AttrMeant(j2.Later(sep), c, p.attrs, 0);
    assert p.attrs[0..] == p.attrs && [] + AttrToks(xs) == AttrToks(xs);
    t := MatchClass(id, k', qs, xs);
    var s := SepToks(comma, Comma);
    assert BarePattern(t) == Toks(k', ATOM) + [LPar] + PatternJoin(qs) + s + AttrToks(xs) + [RPar];
    hide BarePattern, BarePatternScript;
    CallRegroup(Toks(k', ATOM), PatternJoin(qs), s, AttrToks(xs));
  }

  lemma {:induction false} AttrMeant(j: Judge, c: Place, as': seq<AttrPattern>, i: nat) returns (ts: seq<AttrPattern>)
    requires i <= |as'| && c.ids == [] && Covers(j, c, AttrScript(as', i))
    ensures Text(j, c, AttrScript(as', i)) == SepToks(0 < i < |as'|, Comma) + AttrToks(ts) && |ts| == |as'| - i
    ensures EraseAttrs(ts) == EraseAttrs(as'[i..]) && (j.Context? ==> ts == EraseAttrs(as'[i..]))
    decreases as', 0, |as'| - i
  {
    hide Text, Covers, AttrTok, AttrOne, Sep, EraseAttr;
    if i == |as'| {
      Simple(j, c, [], True);
      ts := [];
    } else {
      var sep, v, more := Sep(i > 0, Comma), AttrOne(as'[i]), AttrScript(as', i + 1);
      var j1 := j.Later(sep);
      var j2 := j1.Later(v);
      Pair(j, c, sep, Then(v, more));
      Pair(j1, c, v, more);
      SepMeant(j, c, i > 0, Comma);
      var x := AttrOneMeant(j1, c, as'[i]);
      var xs := AttrMeant(j2, c, as', i + 1);
      hide AttrScript;
      ts := [x] + xs;
      assert as'[i..][1..] == as'[i + 1..] && ts[1..] == xs;
      Regroup(AttrTok(x), [Comma], AttrToks(xs));
    }
  }

  lemma {:induction false} AttrOneMeant(j: Judge, c: Place, a: AttrPattern) returns (t: AttrPattern)
    requires c.ids == [] && Covers(j, c, AttrOne(a))
    ensures Text(j, c, AttrOne(a)) == AttrTok(t)
    ensures EraseAttr(t) == EraseAttr(a) && (j.Context? ==> t == EraseAttr(a))
    decreases a, 0
  {
    hide Text, Covers, PatternToks, PatternScript, ErasePattern;
    var head := Put([Id(a.attr), Assign]);
    Pair(j, c, head, PatternScript(a.pattern));
    Simple(j, c, [Id(a.attr), Assign], True);
    var p := NewPatternMeant(j.Later(head), c, a.pattern);
    t := AttrPattern(a.attr, p);
  }

  /* ----- statements ----- */

  predicate CopyStmt(plain: bool, t: Stmt, s: Stmt) {
    Image(false, t) == Image(false, s) && (plain ==> t == Image(false, s))
  }

  predicate CopyBody(plain: bool, t: seq<Stmt>, b: seq<Stmt>) {
    ImageAll(false, t) == ImageAll(false, b) && (plain ==> t == ImageAll(false, b))
  }

  lemma CopyBodyCons(plain: bool, t: Stmt, ts: seq<Stmt>, b: seq<Stmt>, i: nat)
    requires i < |b| && CopyStmt(plain, t, b[i]) && CopyBody(plain, ts, b[i + 1..])
    ensures CopyBody(plain, [t] + ts, b[i..])
  {
    hide Image;
    assert b[i..][1..] == b[i + 1..] && ([t] + ts)[1..] == ts;
  }

  lemma {:induction false} StmtMeant(j: Judge, c: Place, s: Stmt) returns (t: Stmt)
    requires c.ids == [] && Covers(j, c, StmtScript(s))
    ensures Text(j, c, StmtScript(s)) == StmtToks(t, c.indent) && CopyStmt(j.Context?, t, s)
    decreases s, 3
  {
    hide Text, Covers, StmtScript, StmtToks, CopyStmt;
    if s.ExprStmt? || s.Return? || s.Pass? || s.Break? || s.Continue? {
      t := SimpleMeant(j, c, s);
    } else if s.AssignStmt? || s.AugAssign? {
      t := AssignedMeant(j, c, s);
    } else if s.Raise? {
      t := RaiseMeant(j, c, s);
    } else if s.If? {
      t := IfMeant(j, c, s);
    } else if s.While? {
      t := WhileMeant(j, c, s);
    } else if s.For? {
      t := ForMeant(j, c, s);
    } else if s.With? {
      t := WithStmtMeant(j, c, s);
    } else if s.Try? {
      t := TryMeant(j, c, s);
    } else {
      t := MatchMeant(j, c, s);
    }
  }

  /** A first line and the rest. */
  lemma FirstLine(j: Judge, c: Place, ts: seq<Mark>, rest: Script)
    ensures var k := j.Later(NewLine(ts));
            && Text(j, c, Then(NewLine(ts), rest)) == [Line(c.indent)] + (ts + Text(k, c, rest))
            && Covers(j, c, Then(NewLine(ts), rest)) == Covers(k, c, rest) && k.Context? == j.Context?
  {
    Simple(j, c, ts, True);
    Pair(j, c, NewLine(ts), rest);
    assert Covers(j, c, NewLine(ts));
    hide Text, Covers;
    Regroup([Line(c.indent)], ts, Text(j.Later(NewLine(ts)), c, rest));
  }

  lemma {:induction false} SimpleMeant(j: Judge, c: Place, s: Stmt) returns (t: Stmt)
    requires (s.ExprStmt? || s.Return? || s.Pass? || s.Break? || s.Continue?) && c.ids == []
    requires Covers(j, c, StmtScript(s))
    ensures Text(j, c, StmtScript(s)) == StmtToks(t, c.indent) && CopyStmt(j.Context?, t, s)
    decreases s, 0
  {
    hide Text, Covers, Toks, Asked, OptToks, OptScript, Erase, EraseOpt;
    match s
    case ExprStmt(v) =>
      FirstLine(j, c, [], Asked(YIELD, v));
      var v' := AskedMeant(j.Later(NewLine([])), c, YIELD, v);
      assert [] + Toks(v', YIELD) == Toks(v', YIELD);
      t := ExprStmt(v');
    case Return(v) =>
      FirstLine(j, c, [KwReturn], OptScript(v));
      var v' := OptMeant(j.Later(NewLine([KwReturn])), c, v);
      t := Return(v');
    case Pass => Simple(j, c, [KwPass], True); t := s;
    case Break => Simple(j, c, [KwBreak], True); t := s;
    case Continue => Simple(j, c, [KwContinue], True); t := s;
  }

  lemma {:induction false} AssignedMeant(j: Judge, c: Place, s: Stmt) returns (t: Stmt)
    requires (s.AssignStmt? || s.AugAssign?) && c.ids == [] && Covers(j, c, StmtScript(s))
    ensures Text(j, c, StmtScript(s)) == StmtToks(t, c.indent) && CopyStmt(j.Context?, t, s)
    decreases s, 0
  {
    hide Text, Covers, Toks, ExprScript, TargetToks, TargetScript, Erase, EraseAll;
    var j1 := j.Later(NewLine([]));
    if s.AssignStmt? {
      var ts := TargetScript(s.targets, 0);
      FirstLine(j, c, [], Then(ts, ExprScript(s.value)));
      Pair(j1, c, ts, ExprScript(s.value));
      var xs := TargetMeant(j1, c, s.targets, 0);
      assert s.targets[0..] == s.targets;
      var v := NewMeant(j1.Later(ts), c, s.value);
      assert [] + (TargetToks(xs) + Toks(v, TEST)) == TargetToks(xs) + Toks(v, TEST);
      t := AssignStmt(xs, v);
    } else {
      var x, op := ExprScript(s.target), Put([Aug(s.op)]);
      FirstLine(j, c, [], Then(x, Then(op, ExprScript(s.value))));
      var j2 := j1.Later(x);
      Pair(j1, c, x, Then(op, ExprScript(s.value)));
      Pair(j2, c, op, ExprScript(s.value));
      Simple(j2, c, [Aug(s.op)], True);
      var x' := NewMeant(j1, c, s.target);
      var v := NewMeant(j2.Later(op), c, s.value);
      Regroup4([], Toks(x', TEST), [Aug(s.op)], Toks(v, TEST));
      Regroup(Toks(x', TEST), [Aug(s.op)], Toks(v, TEST));
      assert [] + Toks(x', TEST) == Toks(x', TEST);
      t := AugAssign(x', s.op, v);
    }
  }

  lemma {:induction false} TargetMeant(j: Judge, c: Place, ts: seq<Expr>, i: nat) returns (xs: seq<Expr>)
    requires i <= |ts| && Covers(j, c, TargetScript(ts, i))
    ensures Text(j, c, TargetScript(ts, i)) == TargetToks(xs) && CopyAll(j.Context?, xs, ts[i..])
    decreases |ts| - i
  {
    hide Text, Covers, Toks, Asked, Copy, CopyAll;
    if i == |ts| {
      Simple(j, c, [], True);
      CopyNone(j.Context?, ts, i);
      xs := [];
    } else {
      var v, eq, more := Asked(TUPLE, ts[i]), Put([Assign]), TargetScript(ts, i + 1);
      var j1 := j.Later(v);
      Pair(j, c, v, Then(eq, more));
      Pair(j1, c, eq, more);
      Simple(j1, c, [Assign], True);
      var x := AskedMeant(j, c, TUPLE, ts[i]);
      var rest := TargetMeant(j1.Later(eq), c, ts, i + 1);
      hide TargetScript;
      xs := [x] + rest;
      CopyCons(j.Context?, x, rest, ts, i);
      assert xs[1..] == rest;
      Regroup(Toks(x, TUPLE), [Assign], TargetToks(rest));
    }
  }

  lemma {:induction false} RaiseMeant(j: Judge, c: Place, s: Stmt) returns (t: Stmt)
    requires s.Raise? && c.ids == [] && Covers(j, c, StmtScript(s))
    ensures Text(j, c, StmtScript(s)) == StmtToks(t, c.indent) && CopyStmt(j.Context?, t, s)
    decreases s, 0
  {
    var word, j1 := NewLine([KwRaise]), j.Later(NewLine([KwRaise]));
    assert s.exc.None? ==> Text(j1, c, CauseScript(s.exc, s.cause)) == [];
    hide Text, Covers, Toks, ExprScript, Clause, Erase;
    FirstLine(j, c, [KwRaise], CauseScript(s.exc, s.cause));
    if s.exc.Some? {
      var e := ExprScript(s.exc.value);
      Pair(j1, c, e, Clause(KwFrom, s.cause));
      var e' := NewMeant(j1, c, s.exc.value);
      var c' := ClauseMeant(j1.Later(e), c, KwFrom, s.cause);
      Regroup([KwRaise], Toks(e', TEST), ClauseToks(KwFrom, c'));
      t := Raise(Some(e'), c');
    } else {
      OptErased(s.cause);
      t := Raise(None, EraseOpt(s.cause));
    }
  }

  lemma {:induction false} BlockMeant(j: Judge, c: Place, b: seq<Stmt>) returns (t: seq<Stmt>)
    requires c.ids == [] && Covers(j, c, BlockScript(b))
    ensures Text(j, c, BlockScript(b)) == SuiteToks(t, c.indent) && CopyBody(j.Context?, t, b)
    decreases b, 1
  {
    hide Text, Covers, BodyToks, BodyScript, CopyBody;
    var j1 := j.Later(Put([Colon]));
    Pair(j, c, Put([Colon]), Indented(BodyScript(b, 0)));
    Simple(j, c, [Colon], True);
    Within(j1, c, BodyScript(b, 0));
    t := BodyMeant(j1, c.(indent := c.indent + 1), b, 0);
    assert b[0..] == b;
  }

  lemma {:induction false} BodyMeant(j: Judge, c: Place, b: seq<Stmt>, i: nat) returns (t: seq<Stmt>)
    requires i <= |b| && c.ids == [] && Covers(j, c, BodyScript(b, i))
    ensures Text(j, c, BodyScript(b, i)) == BodyToks(t, c.indent) && CopyBody(j.Context?, t, b[i..])
    decreases b, 0, |b| - i
  {
    hide Text, Covers, StmtToks, StmtScript, CopyStmt;
    if i == |b| {
      Simple(j, c, [], True);
      t := [];
    } else {
      hide CopyBody;
      var j1 := j.Later(StmtScript(b[i]));
      Pair(j, c, StmtScript(b[i]), BodyScript(b, i + 1));
      var x := StmtMeant(j, c, b[i]);
      var xs := BodyMeant(j1, c, b, i + 1);
      t := [x] + xs;
      CopyBodyCons(j.Context?, x, xs, b, i);
      assert t[1..] == xs;
    }
  }

  function PartToks(head: Mark, b: seq<Stmt>, d: nat): seq<Token> {
    if b == [] then [] else [Line(d), head] + SuiteToks(b, d)
  }

  /** `else` or `finally`. */
  lemma {:induction false} PartMeant(j: Judge, c: Place, head: Mark, b: seq<Stmt>) returns (t: seq<Stmt>)
    requires c.ids == [] && Covers(j, c, PartScript(head, b))
    ensures Text(j, c, PartScript(head, b)) == PartToks(head, t, c.indent) && CopyBody(j.Context?, t, b)
    ensures |t| == |b|
    decreases b, 2
  {
    hide Text, Covers, SuiteToks, BlockScript, Image;
    if b == [] {
      Simple(j, c, [], True);
      t := [];
    } else {
      FirstLine(j, c, [head], BlockScript(b));
      t := BlockMeant(j.Later(NewLine([head])), c, b);
      SameSize(t, b);
      assert [Line(c.indent)] + ([head] + SuiteToks(t, c.indent)) == [Line(c.indent), head] + SuiteToks(t, c.indent);
    }
  }

  lemma SameSize(t: seq<Stmt>, b: seq<Stmt>)
    requires ImageAll(false, t) == ImageAll(false, b)
    ensures |t| == |b|
  {
    assert |ImageAll(false, t)| == |t| && |ImageAll(false, b)| == |b|;
  }

  /* ----- conditionals ----- */

  /** What follows the suite of a conditional. */
  function ElifToks(o: seq<Stmt>, d: nat): seq<Token> {
    if |o| == 1 && o[0].If? then [Line(d), KwElif] + IfToks(o[0], d) else ElseToks(o, d)
  }

  lemma IfIs(t: Expr, b: seq<Stmt>, o: seq<Stmt>, d: nat)
    ensures IfToks(If(t, b, o), d) == Toks(t, TEST) + SuiteToks(b, d) + ElifToks(o, d)
  {
    hide Toks, SuiteToks, ElseToks;
  }

  lemma {:induction false} IfMeant(j: Judge, c: Place, s: Stmt) returns (t: Stmt)
    requires s.If? && c.ids == [] && Covers(j, c, StmtScript(s))
    ensures Text(j, c, StmtScript(s)) == StmtToks(t, c.indent) && CopyStmt(j.Context?, t, s)
    decreases s, 2
  {
    hide Text, Covers, ConditionScript, ElifScript, IfToks, Toks, SuiteToks, ElifToks, Erase, ImageAll;
    var cond, d := ConditionScript(KwIf, s), c.indent;
    Pair(j, c, cond, ElifScript(s));
    var x, b := ConditionMeant(j, c, KwIf, s);
    var o := ElifMeant(j.Later(cond), c, s);
    t := If(x, b, o);
    IfIs(x, b, o, d);
    Regroup([Line(d)] + [KwIf], Toks(x, TEST) + SuiteToks(b, d), ElifToks(o, d));
    Regroup([Line(d)], [KwIf], IfToks(t, d));
  }

  lemma {:induction false} ConditionMeant(j: Judge, c: Place, head: Mark, s: Stmt) returns (x: Expr, b: seq<Stmt>)
    requires s.If? && c.ids == [] && Covers(j, c, ConditionScript(head, s))
    ensures Text(j, c, ConditionScript(head, s))
         == [Line(c.indent)] + [head] + (Toks(x, TEST) + SuiteToks(b, c.indent))
    ensures Copy(j.Context?, x, s.test) && CopyBody(j.Context?, b, s.body)
    decreases s, 0
  {
    hide Text, Covers, Toks, ExprScript, SuiteToks, BlockScript, Copy, CopyBody;
    var test, block := ExprScript(s.test), BlockScript(s.body);
    var j1 := j.Later(NewLine([head]));
    FirstLine(j, c, [head], Then(test, block));
    Pair(j1, c, test, block);
    x := NewMeant(j1, c, s.test);
    b := BlockMeant(j1.Later(test), c, s.body);
    Regroup([Line(c.indent)], [head], Toks(x, TEST) + SuiteToks(b, c.indent));
  }

  lemma {:induction false} ElifMeant(j: Judge, c: Place, s: Stmt) returns (o: seq<Stmt>)
    requires s.If? && c.ids == [] && Covers(j, c, ElifScript(s))
    ensures Text(j, c, ElifScript(s)) == ElifToks(o, c.indent) && CopyBody(j.Context?, o, s.orelse)
    decreases s, 1
  {
    hide Text, Covers, Toks, SuiteToks, ConditionScript, PartScript, ElseToks, Erase, IfToks;
    var d := c.indent;
    if |s.orelse| == 1 && s.orelse[0].If? {
      var n := s.orelse[0];
      var cond := ConditionScript(KwElif, n);
      Pair(j, c, cond, ElifScript(n));
      var x, b := ConditionMeant(j, c, KwElif, n);
      var more := ElifMeant(j.Later(cond), c, n);
      o := [If(x, b, more)];
      IfIs(x, b, more, d);
      OneImage(o[0]);
      OneImage(n);
      assert s.orelse == [n];
      hide ElifScript, ImageAll;
      assert [Line(d)] + [KwElif] == [Line(d), KwElif];
      Regroup([Line(d), KwElif], Toks(x, TEST) + SuiteToks(b, d), ElifToks(more, d));
    } else {
      o := PartMeant(j, c, KwElse, s.orelse);
      SameKind(o, s.orelse);
      PartIs(o, d);
    }
  }

  lemma OneImage(s: Stmt)
    ensures ImageAll(false, [s]) == [Image(false, s)]
  {
  }

  lemma SameKind(o: seq<Stmt>, b: seq<Stmt>)
    requires ImageAll(false, o) == ImageAll(false, b) && |o| == |b|
    ensures (|o| == 1 && o[0].If?) == (|b| == 1 && b[0].If?)
  {
    if |o| == 1 {
      assert o == [o[0]] && b == [b[0]];
      OneImage(o[0]);
      OneImage(b[0]);
    }
  }

  lemma PartIs(b: seq<Stmt>, d: nat)
    ensures PartToks(KwElse, b, d) == ElseToks(b, d) && PartToks(KwFinally, b, d) == FinallyToks(b, d)
  {
    hide SuiteToks;
  }

  /* ----- loops and `with` ----- */

  lemma {:induction false} WhileMeant(j: Judge, c: Place, s: Stmt) returns (t: Stmt)
    requires s.While? && c.ids == [] && Covers(j, c, StmtScript(s))
    ensures Text(j, c, StmtScript(s)) == StmtToks(t, c.indent) && CopyStmt(j.Context?, t, s)
    decreases s, 0
  {
    hide Text, Covers, Toks, ExprScript, SuiteToks, BlockScript, ElseToks, PartScript, PartToks, Erase, ImageAll;
    var x, b, o := ExprScript(s.test), BlockScript(s.body), PartScript(KwElse, s.orelse);
    var j1 := j.Later(NewLine([KwWhile]));
    var j2 := j1.Later(x);
    FirstLine(j, c, [KwWhile], Then(x, Then(b, o)));
    Pair(j1, c, x, Then(b, o));
    Pair(j2, c, b, o);
    var x' := NewMeant(j1, c, s.test);
    var b' := BlockMeant(j2, c, s.body);
    var o' := PartMeant(j2.Later(b), c, KwElse, s.orelse);
    PartIs(o', c.indent);
    Regroup4([KwWhile], Toks(x', TEST), SuiteToks(b', c.indent), ElseToks(o', c.indent));
    t := While(x', b', o');
  }

  lemma {:induction false} ForMeant(j: Judge, c: Place, s: Stmt) returns (t: Stmt)
    requires s.For? && c.ids == [] && Covers(j, c, StmtScript(s))
    ensures Text(j, c, StmtScript(s)) == StmtToks(t, c.indent) && CopyStmt(j.Context?, t, s)
    decreases s, 0
  {
    hide Text, Covers, Toks, ExprScript, Asked, SuiteToks, BlockScript, ElseToks, PartScript, PartToks, Erase, ImageAll;
    var x, in', i, b, o :=
      Asked(TUPLE, s.target), Put([KwIn]), ExprScript(s.iter), BlockScript(s.body), PartScript(KwElse, s.orelse);
    var j1 := j.Later(NewLine([KwFor]));
    var j2 := j1.Later(x);
    var j3 := j2.Later(in');
    var j4 := j3.Later(i);
    assert StmtScript(s) == Then(NewLine([KwFor]), Then(x, Then(in', Then(i, Then(b, o)))));
    hide StmtScript;
    FirstLine(j, c, [KwFor], Then(x, Then(in', Then(i, Then(b, o)))));
    Pair(j1, c, x, Then(in', Then(i, Then(b, o))));
    Pair(j2, c, in', Then(i, Then(b, o)));
    Pair(j3, c, i, Then(b, o));
    Pair(j4, c, b, o);
    Simple(j2, c, [KwIn], True);
    var x' := AskedMeant(j1, c, TUPLE, s.target);
    var i' := NewMeant(j3, c, s.iter);
    var b' := BlockMeant(j4, c, s.body);
    var o' := PartMeant(j4.Later(b), c, KwElse, s.orelse);
    PartIs(o', c.indent);
    t := For(x', i', b', o');
    ForIs(x', i', b', o', c.indent);
  }

  lemma ForIs(x: Expr, i: Expr, b: seq<Stmt>, o: seq<Stmt>, d: nat)
    ensures StmtToks(For(x, i, b, o), d)
         == [Line(d)] + ([KwFor] + (Toks(x, TUPLE) + ([KwIn] + (Toks(i, TEST) + (SuiteToks(b, d) + ElseToks(o, d))))))
  {
    var u, v, w, y := Toks(x, TUPLE), Toks(i, TEST), SuiteToks(b, d), ElseToks(o, d);
    assert StmtToks(For(x, i, b, o), d) == [Line(d)] + ([KwFor] + u + [KwIn] + v + w + y);
    hide StmtToks, Toks, SuiteToks, ElseToks;
    Regroup4([KwFor] + u + [KwIn], v, w, y);
    Regroup4([KwFor], u, [KwIn], v + (w + y));
  }

  lemma {:induction false} WithStmtMeant(j: Judge, c: Place, s: Stmt) returns (t: Stmt)
    requires s.With? && c.ids == [] && Covers(j, c, StmtScript(s))
    ensures Text(j, c, StmtScript(s)) == StmtToks(t, c.indent) && CopyStmt(j.Context?, t, s)
    decreases s, 0
  {
    hide Text, Covers, WithToks, WithScript, SuiteToks, BlockScript, EraseItems, ImageAll;
    var items, b := WithScript(s.items, 0), BlockScript(s.body);
    var j1 := j.Later(NewLine([KwWith]));
    FirstLine(j, c, [KwWith], Then(items, b));
    Pair(j1, c, items, b);
    var xs := WithMeant(j1, c, s.items, 0);
    assert s.items[0..] == s.items && [] + WithToks(xs) == WithToks(xs);
    var b' := BlockMeant(j1.Later(items), c, s.body);
    Regroup([KwWith], WithToks(xs), SuiteToks(b', c.indent));
    t := With(xs, b');
  }

  lemma {:induction false} WithMeant(j: Judge, c: Place, items: seq<WithItem>, i: nat) returns (ts: seq<WithItem>)
    requires i <= |items| && c.ids == [] && Covers(j, c, WithScript(items, i))
    ensures Text(j, c, WithScript(items, i)) == SepToks(0 < i < |items|, Comma) + WithToks(ts) && |ts| == |items| - i
    ensures EraseItems(ts) == EraseItems(items[i..]) && (j.Context? ==> ts == EraseItems(items[i..]))
    decreases |items| - i
  {
    hide Text, Covers, WithItemTok, ItemOne, Sep, EraseItem;
    if i == |items| {
      Simple(j, c, [], True);
      ts := [];
    } else {
      var sep, v, more := Sep(i > 0, Comma), ItemOne(items[i]), WithScript(items, i + 1);
      var j1 := j.Later(sep);
      var j2 := j1.Later(v);
      Pair(j, c, sep, Then(v, more));
      Pair(j1, c, v, more);
      SepMeant(j, c, i > 0, Comma);
      var x := ItemOneMeant(j1, c, items[i]);
      var xs := WithMeant(j2, c, items, i + 1);
      hide WithScript;
      ts := [x] + xs;
      assert items[i..][1..] == items[i + 1..] && ts[1..] == xs;
      Regroup(WithItemTok(x), [Comma], WithToks(xs));
    }
  }

  lemma ItemOneMeant(j: Judge, c: Place, i: WithItem) returns (t: WithItem)
    requires c.ids == [] && Covers(j, c, ItemOne(i))
    ensures Text(j, c, ItemOne(i)) == WithItemTok(t)
    ensures EraseItem(t) == EraseItem(i) && (j.Context? ==> t == EraseItem(i))
  {
    hide Text, Covers, Toks, ExprScript, Clause, Erase, EraseOpt;
    Pair(j, c, ExprScript(i.context), Clause(KwAs, i.vars));
    var x := NewMeant(j, c, i.context);
    var v := ClauseMeant(j.Later(ExprScript(i.context)), c, KwAs, i.vars);
    t := WithItem(x, v);
  }

  /* ----- `try` ----- */

  lemma {:induction false} TryMeant(j: Judge, c: Place, s: Stmt) returns (t: Stmt)
    requires s.Try? && c.ids == [] && Covers(j, c, StmtScript(s))
    ensures Text(j, c, StmtScript(s)) == StmtToks(t, c.indent) && CopyStmt(j.Context?, t, s)
    decreases s, 0
  {
    var k := c.(star := s.star);
    TryScriptIs(j, c, s);
    hide Text, Covers, SuiteToks, BlockScript, ElseToks, FinallyToks, PartScript, PartToks, HandlerToks, HandlersScript;
    hide ImageAll, ImageHandlers;
    var b, h, o, f := BlockScript(s.body), HandlersScript(s.handlers, 0), PartScript(KwElse, s.orelse),
                      PartScript(KwFinally, s.finalbody);
    hide StmtScript, TryScript, StmtToks, Image;
    var j1 := j.Later(NewLine([KwTry]));
    var j2 := j1.Later(b);
    var j3 := j2.Later(h);
    FirstLine(j, k, [KwTry], Then(b, Then(h, Then(o, f))));
    Pair(j1, k, b, Then(h, Then(o, f)));
    Pair(j2, k, h, Then(o, f));
    Pair(j3, k, o, f);
    var b' := BlockMeant(j1, k, s.body);
    var h' := HandlersMeant(j2, k, s.handlers, 0);
    assert s.handlers[0..] == s.handlers;
    var o' := PartMeant(j3, k, KwElse, s.orelse);
    var f' := PartMeant(j3.Later(o), k, KwFinally, s.finalbody);
    PartIs(o', c.indent);
    PartIs(f', c.indent);
    t := Try(s.star, b', h', o', f');
    TryIs(s.star, b', h', o', f', c.indent);
    TryImage(t);
    TryImage(s);
  }

  lemma TryScriptIs(j: Judge, c: Place, s: Stmt)
    requires s.Try?
    ensures var k := c.(star := s.star);
            && Text(j, c, StmtScript(s)) == Text(j, k, TryScript(s))
            && Covers(j, c, StmtScript(s)) == Covers(j, k, TryScript(s))
    ensures TryScript(s) == Then(NewLine([KwTry]), Then(BlockScript(s.body), Then(HandlersScript(s.handlers, 0),
                                 Then(PartScript(KwElse, s.orelse), PartScript(KwFinally, s.finalbody)))))
  {
    hide BlockScript, HandlersScript, PartScript;
  }

  lemma TryImage(s: Stmt)
    requires s.Try?
    ensures Image(false, s) == Try(s.star, ImageAll(false, s.body), ImageHandlers(false, s.handlers),
                                   ImageAll(false, s.orelse), ImageAll(false, s.finalbody))
  {
    hide ImageAll, ImageHandlers;
  }

  lemma TryIs(star: bool, b: seq<Stmt>, hs: seq<Handler>, o: seq<Stmt>, f: seq<Stmt>, d: nat)
    ensures StmtToks(Try(star, b, hs, o, f), d)
         == [Line(d)] + ([KwTry] + (SuiteToks(b, d)
              + (HandlerToks(star, hs, d) + (ElseToks(o, d) + FinallyToks(f, d)))))
  {
    var w, x, y, z := SuiteToks(b, d), HandlerToks(star, hs, d), ElseToks(o, d), FinallyToks(f, d);
    assert StmtToks(Try(star, b, hs, o, f), d) == [Line(d)] + ([KwTry] + w + x + y + z);
    hide StmtToks, SuiteToks, HandlerToks, ElseToks, FinallyToks;
    Regroup4([KwTry] + w, x, y, z);
    Regroup([KwTry], w, x + (y + z));
  }

  lemma {:induction false} HandlersMeant(j: Judge, c: Place, hs: seq<Handler>, i: nat) returns (ts: seq<Handler>)
    requires i <= |hs| && c.ids == [] && Covers(j, c, HandlersScript(hs, i))
    ensures Text(j, c, HandlersScript(hs, i)) == HandlerToks(c.star, ts, c.indent)
    ensures ImageHandlers(false, ts) == ImageHandlers(false, hs[i..])
    ensures j.Context? ==> ts == ImageHandlers(false, hs[i..])
    decreases hs, 0, |hs| - i
  {
    hide Text, Covers, HandlerTok, HandlerScript, ImageHandler;
    if i == |hs| {
      Simple(j, c, [], True);
      ts := [];
    } else {
      var j1 := j.Later(HandlerScript(hs[i]));
      Pair(j, c, HandlerScript(hs[i]), HandlersScript(hs, i + 1));
      var x := HandlerMeant(j, c, hs[i]);
      var xs := HandlersMeant(j1, c, hs, i + 1);
      hide HandlersScript;
      ts := [x] + xs;
      assert hs[i..][1..] == hs[i + 1..] && ts[1..] == xs;
    }
  }

  lemma {:induction false} HandlerMeant(j: Judge, c: Place, h: Handler) returns (t: Handler)
    requires c.ids == [] && Covers(j, c, HandlerScript(h))
    ensures Text(j, c, HandlerScript(h)) == HandlerTok(c.star, t, c.indent)
    ensures ImageHandler(false, t) == ImageHandler(false, h) && (j.Context? ==> t == ImageHandler(false, h))
    decreases h, 0
  {
    var star, name := SepToks(c.star, Op(Mult)), AsName(h.name);
    var as' := if h.name.None? then Nothing else Put([KwAs, Id(h.name.value)]);
    var kind, block := OptScript(h.kind), BlockScript(h.body);
    var j1 := j.Later(NewLine([KwExcept]));
    var j2 := j1.Later(GroupStar);
    var j3 := j2.Later(kind);
    var j4 := j3.Later(as');
    assert Text(j1, c, GroupStar) == star && Text(j3, c, as') == name;
    assert HandlerScript(h) == Then(NewLine([KwExcept]), Then(GroupStar, Then(kind, Then(as', block))));
    hide Text, Covers, OptToks, OptScript, SuiteToks, BlockScript, EraseOpt, ImageAll, HandlerScript;
    FirstLine(j, c, [KwExcept], Then(GroupStar, Then(kind, Then(as', block))));
    Pair(j1, c, GroupStar, Then(kind, Then(as', block)));
    Pair(j2, c, kind, Then(as', block));
    Pair(j3, c, as', block);
    var e := OptMeant(j2, c, h.kind);
    var b := BlockMeant(j4, c, h.body);
    t := Handler(e, h.name, b);
    HandlerIs(c.star, e, h.name, b, c.indent);
  }

  function AsName(n: Option<string>): seq<Token> {
    if n.None? then [] else [KwAs, Id(n.value)]
  }

  lemma HandlerIs(star: bool, e: Option<Expr>, n: Option<string>, b: seq<Stmt>, d: nat)
    ensures HandlerTok(star, Handler(e, n, b), d)
         == [Line(d)] + ([KwExcept] + (SepToks(star, Op(Mult)) + (OptToks(e) + (AsName(n) + SuiteToks(b, d)))))
  {
    hide OptToks, SuiteToks;
    var name := AsName(n);
    var s := SepToks(star, Op(Mult));
    assert HandlerTok(star, Handler(e, n, b), d) == [Line(d), KwExcept] + s + OptToks(e) + name + SuiteToks(b, d);
    assert [Line(d)] + [KwExcept] == [Line(d), KwExcept];
    hide HandlerTok, SepToks, AsName;
    Regroup4([Line(d), KwExcept] + s, OptToks(e), name, SuiteToks(b, d));
    Regroup4([Line(d)], [KwExcept], s, OptToks(e) + (name + SuiteToks(b, d)));
  }

  /* ----- `match` ----- */

  lemma {:induction false} MatchMeant(j: Judge, c: Place, s: Stmt) returns (t: Stmt)
    requires s.Match? && c.ids == [] && Covers(j, c, StmtScript(s))
    ensures Text(j, c, StmtScript(s)) == StmtToks(t, c.indent) && CopyStmt(j.Context?, t, s)
    decreases s, 0
  {
    hide Text, Covers, Toks, ExprScript, CaseToks, CasesScript, Erase, ImageCases;
    var v, colon, cs := ExprScript(s.subject), Put([Colon]), CasesScript(s.cases, 0);
    var j1 := j.Later(NewLine([KwMatch]));
    var j2 := j1.Later(v);
    var j3 := j2.Later(colon);
    FirstLine(j, c, [KwMatch], Then(v, Then(colon, Indented(cs))));
    Pair(j1, c, v, Then(colon, Indented(cs)));
    Pair(j2, c, colon, Indented(cs));
    Simple(j2, c, [Colon], True);
    Within(j3, c, cs);
    var v' := NewMeant(j1, c, s.subject);
    var cs' := CasesMeant(j3, c.(indent := c.indent + 1), s.cases, 0);
    assert s.cases[0..] == s.cases;
    Regroup4([KwMatch], Toks(v', TEST), [Colon], CaseToks(cs', c.indent + 1));
    t := Match(v', cs');
  }

  lemma {:induction false} CasesMeant(j: Judge, c: Place, cs: seq<Case>, i: nat) returns (ts: seq<Case>)
    requires i <= |cs| && c.ids == [] && Covers(j, c, CasesScript(cs, i))
    ensures Text(j, c, CasesScript(cs, i)) == CaseToks(ts, c.indent)
    ensures ImageCases(false, ts) == ImageCases(false, cs[i..])
    ensures j.Context? ==> ts == ImageCases(false, cs[i..])
    decreases cs, 0, |cs| - i
  {
    hide Text, Covers, CaseTok, CaseScript, ImageCase;
    if i == |cs| {
      Simple(j, c, [], True);
      ts := [];
    } else {
      var j1 := j.Later(CaseScript(cs[i]));
      Pair(j, c, CaseScript(cs[i]), CasesScript(cs, i + 1));
      var x := CaseMeant(j, c, cs[i]);
      var xs := CasesMeant(j1, c, cs, i + 1);
      hide CasesScript;
      ts := [x] + xs;
      assert cs[i..][1..] == cs[i + 1..] && ts[1..] == xs;
    }
  }

  lemma {:induction false} CaseMeant(j: Judge, c: Place, k: Case) returns (t: Case)
    requires c.ids == [] && Covers(j, c, CaseScript(k))
    ensures Text(j, c, CaseScript(k)) == CaseTok(t, c.indent)
    ensures ImageCase(false, t) == ImageCase(false, k) && (j.Context? ==> t == ImageCase(false, k))
    decreases k, 0
  {
    hide Text, Covers, PatternToks, PatternScript, SuiteToks, BlockScript, Clause, ClauseToks, ErasePattern, EraseOpt,
        ImageAll;
    var p, g, b := PatternScript(k.pattern), Clause(KwIf, k.guard), BlockScript(k.body);
    var j1 := j.Later(NewLine([KwCase]));
    var j2 := j1.Later(p);
    FirstLine(j, c, [KwCase], Then(p, Then(g, b)));
    Pair(j1, c, p, Then(g, b));
    Pair(j2, c, g, b);
    var p' := NewPatternMeant(j1, c, k.pattern);
    var g' := ClauseMeant(j2, c, KwIf, k.guard);
    var b' := BlockMeant(j2.Later(g), c, k.body);
    t := Case(p', g', b');
    CaseIs(p', g', b', c.indent);
  }

  lemma CaseIs(p: Pattern, g: Option<Expr>, b: seq<Stmt>, d: nat)
    ensures CaseTok(Case(p, g, b), d)
         == [Line(d)] + ([KwCase] + (PatternToks(p, TEST) + (ClauseToks(KwIf, g) + SuiteToks(b, d))))
  {
    hide Toks, PatternToks, SuiteToks;
    var x, y, z := PatternToks(p, TEST), ClauseToks(KwIf, g), SuiteToks(b, d);
    assert CaseTok(Case(p, g, b), d) == [Line(d), KwCase] + x + y + z;
    assert [Line(d)] + [KwCase] == [Line(d), KwCase];
    hide CaseTok, ClauseToks;
    Regroup4([Line(d)] + [KwCase], x, y, z);
    Regroup([Line(d)], [KwCase], x + (y + z));
  }
}
