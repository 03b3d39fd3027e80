/** When two judges make the same text of a script: exactly when they decide alike on the
    parentheses of every node. With the dictionary and the contexts as judges, this says
    when a visit writes what it should. */
module Faithful {
  import opened PyAst
  import opened Tokens
  import opened Scripts

  /** Two judges decide alike on the parentheses of every node visited. */
  predicate Agrees(j: Judge, j': Judge, c: Place, d: Script)
    decreases d
  {
    match d
    case Then(a, b) => Agrees(j, j', c, a) && Agrees(j.Later(a), j'.Later(a), c, b)
    case Parens(b) => Agrees(j, j', c, b)
    case Buffered(b) => Agrees(j, j', c, b)
    case Key(b) => Agrees(j, j', c, b)
    case Asking(ids, p, b) => Agrees(j.Told(ids, p), j'.Told(ids, p), c.Ask(ids, p), b)
    case Node(id, own, b) => (j.Level(c, id) > own <==> j'.Level(c, id) > own) && Agrees(j, j', c.Forget(), b)
    case Indented(b) => Agrees(j, j', c.(indent := c.indent + 1), b)
    case TryKind(star, b) => Agrees(j, j', c.(star := star), b)
    case _ => true
  }

  /** No pair of parentheses that a context wants is missing, and no key of a mapping pattern
      has one that is not wanted. */
  predicate Covers(j: Judge, c: Place, d: Script)
    decreases d
  {
    match d
    case Then(a, b) => Covers(j, c, a) && Covers(j.Later(a), c, b)
    case Parens(b) => Covers(j, c, b)
    case Buffered(b) => Covers(j, c, b)
    case Key(b) => Agrees(j, Context, c, b)
    case Asking(ids, p, b) => Covers(j.Told(ids, p), c.Ask(ids, p), b)
    case Node(id, own, b) => (c.Wanted(id) > own ==> j.Level(c, id) > own) && Covers(j, c.Forget(), b)
    case Indented(b) => Covers(j, c.(indent := c.indent + 1), b)
    case TryKind(star, b) => Covers(j, c.(star := star), b)
    case _ => true
  }

  /** Deciding as the contexts want is one way. */
  lemma {:induction false} AgreeingCovers(j: Judge, c: Place, d: Script)
    requires Agrees(j, Context, c, d)
    ensures Covers(j, c, d)
    decreases d
  {
    match d
    case Then(a, b) => AgreeingCovers(j, c, a); AgreeingCovers(j.Later(a), c, b);
    case Parens(b) => AgreeingCovers(j, c, b);
    case Buffered(b) => AgreeingCovers(j, c, b);
    case Asking(ids, p, b) => AgreeingCovers(j.Told(ids, p), c.Ask(ids, p), b);
    case Node(id, own, b) => AgreeingCovers(j, c.Forget(), b);
    case Indented(b) => AgreeingCovers(j, c.(indent := c.indent + 1), b);
    case TryKind(star, b) => AgreeingCovers(j, c.(star := star), b);
    case _ =>
  }

  /** The script writes a token outside any parentheses. */
  predicate Open(d: Script) {
    match d
    case Put(ts) => ts != []
    case Literal(_) => true
    case Then(a, b) => Open(a) || Open(b)
    case Asking(_, _, b) => Open(b)
    case _ => false
  }

  /** Every node that can be parenthesised has a token of its own to tell by. */
  predicate Proper(d: Script) {
    match d
    case Then(a, b) => Proper(a) && Proper(b)
    case Parens(b) => Proper(b)
    case Buffered(b) => Proper(b)
    case Key(b) => Proper(b)
    case Asking(_, _, b) => Proper(b)
    case Node(_, own, b) => (own < ATOM ==> Open(b)) && Proper(b)
    case Indented(b) => Proper(b)
    case TryKind(_, b) => Proper(b)
    case _ => true
  }

  /* ----- counting parentheses ----- */

  function Step(t: Token): int {
    if t.LPar? then 1 else if t.RPar? then -1 else 0
  }

  function Depth(ts: seq<Token>): int {
    if ts == [] then 0 else Depth(ts[..|ts| - 1]) + Step(ts[|ts| - 1])
  }

  /** How many tokens are not parentheses. */
  function Marks(ts: seq<Token>): nat {
    if ts == [] then 0 else Marks(ts[..|ts| - 1]) + (if Step(ts[|ts| - 1]) == 0 then 1 else 0)
  }

  ghost predicate Balanced(ts: seq<Token>) {
    Depth(ts) == 0 && forall k :: 0 <= k <= |ts| ==> Depth(ts[..k]) >= 0
  }

  /** Token `k` is outside all parentheses. */
  ghost predicate OuterAt(ts: seq<Token>, k: nat) {
    k < |ts| && Step(ts[k]) == 0 && Depth(ts[..k]) == 0
  }

  lemma {:induction false} Counted(a: seq<Token>, b: seq<Token>)
    ensures Depth(a + b) == Depth(a) + Depth(b) && Marks(a + b) == Marks(a) + Marks(b)
    decreases |b|
  {
    if b == [] {
      assert a + b == a;
    } else {
      Counted(a, b[..|b| - 1]);
      assert (a + b)[..|a + b| - 1] == a + b[..|b| - 1];
    }
  }

  lemma Single(t: Token)
    ensures Depth([t]) == Step(t) && Marks([t]) == if Step(t) == 0 then 1 else 0
  {
    assert [t][..0] == [];
  }

  lemma BalancedJoin(a: seq<Token>, b: seq<Token>)
    requires Balanced(a) && Balanced(b)
    ensures Balanced(a + b)
  {
    Counted(a, b);
    forall k | 0 <= k <= |a + b| ensures Depth((a + b)[..k]) >= 0 {
      if k <= |a| {
        assert (a + b)[..k] == a[..k];
      } else {
        assert (a + b)[..k] == a + b[..k - |a|];
        Counted(a, b[..k - |a|]);
      }
    }
  }

  /** Inside added parentheses every position is one deeper. */
  lemma WrappedDepth(w: seq<Token>, u: seq<Token>, k: nat)
    requires Balanced(w) && 0 < k <= |w| + 1
    ensures Depth(([LPar] + w + [RPar] + u)[..k]) >= 1
  {
    assert ([LPar] + w + [RPar] + u)[..k] == [LPar] + w[..k - 1];
    Counted([LPar], w[..k - 1]);
    Single(LPar);
  }

  lemma WrappedCounts(w: seq<Token>)
    ensures Depth([LPar] + w + [RPar]) == Depth(w) && Marks([LPar] + w + [RPar]) == Marks(w)
  {
    Counted([LPar] + w, [RPar]);
    Counted([LPar], w);
    Single(LPar);
    Single(RPar);
  }

  lemma AnyWrap(parens: bool, w: seq<Token>)
    ensures Marks(Left(parens) + w + Right(parens)) == Marks(w) && Left(true) == [LPar] && Right(true) == [RPar]
  {
    WrappedCounts(w);
    assert [] + w + [] == w;
  }

  lemma Wrapped(w: seq<Token>)
    requires Balanced(w)
    ensures Balanced([LPar] + w + [RPar])
  {
    var t := [LPar] + w + [RPar];
    WrappedCounts(w);
    forall k | 0 <= k <= |t| ensures Depth(t[..k]) >= 0 {
      if 0 < k <= |w| + 1 {
        WrappedDepth(w, [], k);
        assert t + [] == t;
      } else if k == |t| {
        assert t[..k] == t;
      }
    }
  }

  lemma MarkedLater(p: seq<Token>, more: seq<Token>, a: seq<Token>, k: nat)
    requires k < |a| && a[..k] == p + more && Step(a[k]) == 0
    ensures Marks(a) > Marks(p)
  {
    assert a == a[..k] + [a[k]] + a[k + 1..];
    Counted(a[..k] + [a[k]], a[k + 1..]);
    Counted(a[..k], [a[k]]);
    Counted(p, more);
    Single(a[k]);
  }

  /** A text in parentheses of its own never begins like one that has as many other
      tokens, one of them outside all parentheses. */
  lemma NeverAlike(w: seq<Token>, u: seq<Token>, a: seq<Token>, v: seq<Token>, k: nat)
    requires Balanced(w) && Balanced(a) && Marks(w) == Marks(a) && OuterAt(a, k)
    ensures [LPar] + w + [RPar] + u != a + v
  {
    if [LPar] + w + [RPar] + u == a + v {
      var t := a + v;
      assert t[..k] == a[..k] && t[k] == a[k];
      if 0 < k <= |w| + 1 {
        WrappedDepth(w, u, k);
      } else {
        assert k != 0 by { assert t[0] == LPar; }
        var p := [LPar] + w + [RPar];
        var more := a[|p|..k];
        assert a[..k] == p + more by { assert a[..k] == t[..k] == p + t[|p|..k]; }
        MarkedLater(p, more, a, k);
        WrappedCounts(w);
      }
    }
  }

  lemma {:induction false} NoParens(ts: seq<Mark>)
    ensures Depth(ts) == 0 && Marks(ts) == |ts| && Balanced(ts)
    decreases |ts|
  {
    if ts != [] {
      NoParens(ts[..|ts| - 1]);
      forall k | 0 <= k <= |ts| ensures Depth(ts[..k]) >= 0 {
        if k < |ts| { assert ts[..k] == ts[..|ts| - 1][..k]; } else { assert ts[..k] == ts; }
      }
    }
  }

  lemma OneMark(t: Token)
    requires Step(t) == 0
    ensures Balanced([t])
  {
    Single(t);
    forall k | 0 <= k <= 1 ensures Depth([t][..k]) >= 0 {
      if k == 0 { assert [t][..k] == []; } else { assert [t][..k] == [t]; }
    }
  }

  lemma {:induction false} BalancedText(j: Judge, c: Place, d: Script)
    ensures Balanced(Text(j, c, d))
    decreases d
  {
    hide Balanced;
    assert Balanced([]) by { Empty(); }
    match d
    case Nothing =>
    case Put(ts) => NoParens(ts);
    case Literal(k) => OneMark(Lit(k));
    case Refuse =>
    case NewLine(ts) => OneMark(Line(c.indent)); NoParens(ts); BalancedJoin([Line(c.indent)], ts);
    case GroupStar => OneMark(Op(Mult));
    case Then(a, b) =>
      BalancedText(j, c, a);
      BalancedText(j.Later(a), c, b);
      BalancedJoin(Text(j, c, a), Text(j.Later(a), c, b));
    case Parens(b) =>
      BalancedText(j, c, b);
      Wrapped(Text(j, c, b));
    case Buffered(b) => BalancedText(j, c, b);
    case Key(b) => BalancedText(j, c, b);
    case Asking(ids, p, b) => BalancedText(j.Told(ids, p), c.Ask(ids, p), b);
    case Node(id, own, b) =>
      BalancedText(j, c.Forget(), b);
      Wrapped(Text(j, c.Forget(), b));
      assert [] + Text(j, c.Forget(), b) + [] == Text(j, c.Forget(), b);
    case Indented(b) => BalancedText(j, c.(indent := c.indent + 1), b);
    case TryKind(star, b) => BalancedText(j, c.(star := star), b);
  }

  lemma Empty()
    ensures Balanced([])
  {
  }

  /** Whoever decides, the same number of other tokens is written. */
  lemma {:induction false} SameMarks(j: Judge, c: Place, j': Judge, c': Place, d: Script)
    requires c.star == c'.star
    ensures Marks(Text(j, c, d)) == Marks(Text(j', c', d))
    decreases d
  {
    hide Marks, Left, Right;
    match d
    case Then(a, b) =>
      SameMarks(j, c, j', c', a);
      SameMarks(j.Later(a), c, j'.Later(a), c', b);
      Counted(Text(j, c, a), Text(j.Later(a), c, b));
      Counted(Text(j', c', a), Text(j'.Later(a), c', b));
    case Parens(b) =>
      SameMarks(j, c, j', c', b);
      AnyWrap(true, Text(j, c, b));
      AnyWrap(true, Text(j', c', b));
    case Buffered(b) => SameMarks(j, c, j', c', b);
    case Key(b) => SameMarks(j, c, j', c', b);
    case Asking(ids, p, b) => SameMarks(j.Told(ids, p), c.Ask(ids, p), j'.Told(ids, p), c'.Ask(ids, p), b);
    case Node(id, own, b) =>
      SameMarks(j, c.Forget(), j', c'.Forget(), b);
      AnyWrap(j.Level(c, id) > own, Text(j, c.Forget(), b));
      AnyWrap(j'.Level(c', id) > own, Text(j', c'.Forget(), b));
    case Indented(b) => SameMarks(j, c.(indent := c.indent + 1), j', c'.(indent := c'.indent + 1), b);
    case TryKind(star, b) => SameMarks(j, c.(star := star), j', c'.(star := star), b);
    case NewLine(ts) =>
      Counted([Line(c.indent)], ts);
      Counted([Line(c'.indent)], ts);
      Single(Line(c.indent));
      Single(Line(c'.indent));
    case _ =>
  }

  lemma {:induction false} OpenText(j: Judge, c: Place, d: Script) returns (k: nat)
    requires Open(d)
    ensures OuterAt(Text(j, c, d), k)
    decreases d
  {
    match d
    case Put(ts) => k := 0;
    case Literal(_) => k := 0;
    case Then(a, b) =>
      var s, t := Text(j, c, a), Text(j.Later(a), c, b);
      if Open(a) {
        k := OpenText(j, c, a);
        assert (s + t)[..k] == s[..k];
      } else {
        var i := OpenText(j.Later(a), c, b);
        k := |s| + i;
        BalancedText(j, c, a);
        assert (s + t)[..k] == s + t[..i];
        Counted(s, t[..i]);
      }
    case Asking(ids, p, b) => k := OpenText(j.Told(ids, p), c.Ask(ids, p), b);
  }

  /* ----- the theorem ----- */

  lemma {:induction false} AgreeingText(j: Judge, j': Judge, c: Place, d: Script)
    requires Agrees(j, j', c, d)
    ensures Text(j, c, d) == Text(j', c, d)
    decreases d
  {
    match d
    case Then(a, b) => AgreeingText(j, j', c, a); AgreeingText(j.Later(a), j'.Later(a), c, b);
    case Parens(b) => AgreeingText(j, j', c, b);
    case Buffered(b) => AgreeingText(j, j', c, b);
    case Key(b) => AgreeingText(j, j', c, b);
    case Asking(ids, p, b) => AgreeingText(j.Told(ids, p), j'.Told(ids, p), c.Ask(ids, p), b);
    case Node(id, own, b) => AgreeingText(j, j', c.Forget(), b);
    case Indented(b) => AgreeingText(j, j', c.(indent := c.indent + 1), b);
    case TryKind(star, b) => AgreeingText(j, j', c.(star := star), b);
    case _ =>
  }

  /** Whatever follows, the text tells which decisions were taken. */
  lemma {:induction false} TextAgrees(j: Judge, j': Judge, c: Place, d: Script, u: seq<Token>, v: seq<Token>)
    requires Proper(d) && Text(j, c, d) + u == Text(j', c, d) + v
    ensures Agrees(j, j', c, d) && u == v
    decreases d, 0
  {
    match d
    case Then(a, b) =>
      var t, t' := Text(j.Later(a), c, b), Text(j'.Later(a), c, b);
      Regroup(Text(j, c, a), t, u);
      Regroup(Text(j', c, a), t', v);
      TextAgrees(j, j', c, a, t + u, t' + v);
      TextAgrees(j.Later(a), j'.Later(a), c, b, u, v);
    case Parens(b) => WrapAgrees(j, j', c, b, u, v);
    case Buffered(b) => TextAgrees(j, j', c, b, u, v);
    case Key(b) => TextAgrees(j, j', c, b, u, v);
    case Asking(ids, p, b) => TextAgrees(j.Told(ids, p), j'.Told(ids, p), c.Ask(ids, p), b, u, v);
    case Node(id, own, b) => NodeAgrees(j, j', c, id, own, b, u, v);
    case Indented(b) => TextAgrees(j, j', c.(indent := c.indent + 1), b, u, v);
    case TryKind(star, b) => TextAgrees(j, j', c.(star := star), b, u, v);
    case _ => SameStart(Text(j', c, d), u, v);
  }

  lemma SameStart(a: seq<Token>, u: seq<Token>, v: seq<Token>)
    requires a + u == a + v
    ensures u == v
  {
    assert u == (a + u)[|a|..];
  }

  lemma WrapAgrees(j: Judge, j': Judge, c: Place, b: Script, u: seq<Token>, v: seq<Token>)
    requires Proper(b)
    requires [LPar] + Text(j, c, b) + [RPar] + u == [LPar] + Text(j', c, b) + [RPar] + v
    ensures Agrees(j, j', c, b) && u == v
    decreases b, 1
  {
    var w, a := Text(j, c, b), Text(j', c, b);
    hide Text, Proper, Agrees;
    Regroup4([LPar], w, [RPar], u);
    Regroup4([LPar], a, [RPar], v);
    SameStart([LPar], w + ([RPar] + u), a + ([RPar] + v));
    TextAgrees(j, j', c, b, [RPar] + u, [RPar] + v);
    SameStart([RPar], u, v);
  }

  /** A text of a script with parentheses around it never begins like one without. */
  lemma WrapTells(j: Judge, j': Judge, c: Place, b: Script, u: seq<Token>, v: seq<Token>)
    requires Open(b)
    ensures [LPar] + Text(j, c, b) + [RPar] + u != Text(j', c, b) + v
  {
    BalancedText(j, c, b);
    BalancedText(j', c, b);
    SameMarks(j, c, j', c, b);
    var k := OpenText(j', c, b);
    hide Text, Balanced, OuterAt, Depth, Marks;
    NeverAlike(Text(j, c, b), u, Text(j', c, b), v, k);
  }

  lemma NodeWritten(j: Judge, c: Place, id: nat, own: Level, b: Script)
    ensures var w := Text(j, c.Forget(), b);
            Text(j, c, Node(id, own, b)) == if j.Level(c, id) > own then [LPar] + w + [RPar] else w
  {
    var w := Text(j, c.Forget(), b);
    assert [] + w + [] == w;
  }

  lemma NodeAgrees(j: Judge, j': Judge, c: Place, id: nat, own: Level, b: Script, u: seq<Token>, v: seq<Token>)
    requires Proper(Node(id, own, b))
    requires Text(j, c, Node(id, own, b)) + u == Text(j', c, Node(id, own, b)) + v
    ensures Agrees(j, j', c, Node(id, own, b)) && u == v
    decreases b, 2
  {
    var f := c.Forget();
    var w, a := Text(j, f, b), Text(j', f, b);
    var taken, wanted := j.Level(c, id) > own, j'.Level(c, id) > own;
    NodeWritten(j, c, id, own, b);
    NodeWritten(j', c, id, own, b);
    assert Proper(b) && (taken || wanted ==> Open(b));
    assert Agrees(j, j', c, Node(id, own, b)) == (taken == wanted && Agrees(j, j', f, b));
    hide Text, Proper, Agrees;
    if taken && !wanted {
      WrapTells(j, j', f, b, u, v);
    } else if wanted && !taken {
      WrapTells(j', j, f, b, v, u);
    } else if taken {
      WrapAgrees(j, j', f, b, u, v);
    } else {
      TextAgrees(j, j', f, b, u, v);
    }
  }

  /** Two judges make one text if and only if they agree on every node. */
  lemma Exactly(j: Judge, j': Judge, c: Place, d: Script)
    requires Proper(d)
    ensures Text(j, c, d) == Text(j', c, d) <==> Agrees(j, j', c, d)
  {
    if Agrees(j, j', c, d) {
      AgreeingText(j, j', c, d);
    } else if Text(j, c, d) == Text(j', c, d) {
      TextAgrees(j, j', c, d, [], []);
    }
  }
}
