/** Runs of bytes: lines, whole items, and pieces of given lengths. */
module ByteRuns {
  import opened Octets

  const NEWLINE: byte := 10
  const SIZE_MAX := 0xffff_ffff_ffff_ffff

  function Min(a: int, b: int): int {
    if a < b then a else b
  }

  /** The size of `count` items. */
  function Bytes(itemSize: nat, count: nat): nat {
    itemSize * count
  }

  /** What fread() wants: the size of its items, or all that a size_t can hold. */
  function Want(itemSize: nat, count: nat): nat
    requires itemSize > 0
  {
    if count > SIZE_MAX / itemSize then SIZE_MAX else Bytes(itemSize, count)
  }

  function WholeItems(n: nat, itemSize: nat): nat
    requires itemSize > 0
  {
    n / itemSize
  }

  /** Length of the longest prefix of `u` of at most `limit` bytes that holds a
      newline, if any, only as its last byte. */
  function LineLen(u: seq<byte>, limit: nat): (k: nat)
    ensures k <= |u| && k <= limit
  {
    if u == [] || limit == 0 then 0
    else if u[0] == NEWLINE then 1
    else 1 + LineLen(u[1..], limit - 1)
  }

  /** The text ended before the line did, and before `limit` bytes of it. */
  predicate Broken(u: seq<byte>, line: seq<byte>, limit: nat) {
    |line| == |u| && |line| < limit && (line == [] || line[|line| - 1] != NEWLINE)
  }

  /** What LineLen measures. */
  lemma {:induction false} LineLenIs(u: seq<byte>, limit: nat)
    ensures var k := LineLen(u, limit);
            (forall i :: 0 <= i < k - 1 ==> u[i] != NEWLINE)
            && (k == |u| || k == limit || (k > 0 && u[k - 1] == NEWLINE))
            && (u != [] && limit > 0 ==> k > 0)
    decreases limit
  {
    if u != [] && limit > 0 && u[0] != NEWLINE {
      var v := u[1..];
      LineLenIs(v, limit - 1);
      var k := LineLen(v, limit - 1);
      forall i | 0 <= i < k ensures u[i] != NEWLINE {
        if i > 0 { assert u[i] == v[i - 1]; }
      }
      if k > 0 { assert u[k] == v[k - 1]; }
    }
  }

  /** Where the line goes on, and where it stops. */
  lemma {:induction false} LineGoesOn(u: seq<byte>, limit: nat, i: nat)
    requires i < LineLen(u, limit)
    ensures i + 1 < LineLen(u, limit) <==> u[i] != NEWLINE && i + 1 < limit && i + 1 < |u|
    decreases i
  {
    if u[0] != NEWLINE && i > 0 {
      LineGoesOn(u[1..], limit - 1, i - 1);
      assert u[1..][i - 1] == u[i];
    }
  }

  lemma LineStarts(u: seq<byte>, limit: nat)
    ensures LineLen(u, limit) > 0 <==> u != [] && limit > 0
  {
  }

  lemma Shift(u: seq<byte>, i: nat)
    requires i < |u|
    ensures u[..i] + u[i..][..1] == u[..i + 1] && u[i..][1..] == u[i + 1..] && u[i..][..1] == [u[i]]
  {
  }

  /** The capacity a buffer of `cap` bytes reaches for a line of `k` and its final zero,
      doubling while memory gives no more than `room` at a time. */
  function Grown(cap: nat, k: nat, room: nat): (r: nat)
    requires cap > 0
    ensures r >= cap
    decreases room - cap
  {
    if k < cap || 2 * cap > room then cap else Grown(2 * cap, k, room)
  }

  lemma GrownStep(cap: nat, k: nat, room: nat)
    requires cap > 0
    ensures Grown(cap, k, room) == if k < cap || 2 * cap > room then cap else Grown(2 * cap, k, room)
  {
  }

  /** Memory for twice the line, and more, is enough. */
  lemma {:induction false} GrownEnough(cap: nat, k: nat, room: nat)
    requires cap > 0 && room >= 2 * k
    ensures k < Grown(cap, k, room)
    decreases room - cap
  {
    if k >= cap && 2 * cap <= room { GrownEnough(2 * cap, k, room); }
  }

  /** The lines that repeated reading yields. */
  function Lines(u: seq<byte>): seq<seq<byte>>
    decreases |u|
  {
    if u == [] then []
    else
      var k := LineLen(u, |u|);
      if k == 0 then [] else [u[..k]] + Lines(u[k..])
  }

  function Concat(ls: seq<seq<byte>>): seq<byte> {
    if ls == [] then [] else ls[0] + Concat(ls[1..])
  }

  /** Nothing is lost, and lines break exactly after newlines. */
  lemma {:induction false} LinesLossless(u: seq<byte>)
    ensures Concat(Lines(u)) == u
    ensures forall l, i :: 0 <= l < |Lines(u)| && 0 <= i < |Lines(u)[l]| - 1 ==> Lines(u)[l][i] != NEWLINE
    ensures forall l :: 0 <= l < |Lines(u)| ==> Lines(u)[l] != []
    ensures forall l :: 0 <= l < |Lines(u)| - 1 ==> Lines(u)[l][|Lines(u)[l]| - 1] == NEWLINE
    decreases |u|
  {
    if u != [] {
      var k := LineLen(u, |u|);
      LineLenIs(u, |u|);
      LinesLossless(u[k..]);
      var ls := Lines(u[k..]);
      assert Lines(u) == [u[..k]] + ls;
      assert Concat(Lines(u)) == u[..k] + Concat(ls) by { assert Lines(u)[1..] == ls; }
      if |ls| > 0 { assert u[k..] != []; }
      LinesCons(u[..k], ls);
    }
  }

  lemma LinesCons(x: seq<byte>, ls: seq<seq<byte>>)
    requires x != [] && (forall i :: 0 <= i < |x| - 1 ==> x[i] != NEWLINE) && (ls != [] ==> x[|x| - 1] == NEWLINE)
    requires forall l, i :: 0 <= l < |ls| && 0 <= i < |ls[l]| - 1 ==> ls[l][i] != NEWLINE
    requires forall l :: 0 <= l < |ls| ==> ls[l] != []
    requires forall l :: 0 <= l < |ls| - 1 ==> ls[l][|ls[l]| - 1] == NEWLINE
    ensures var all := [x] + ls;
            && (forall l, i :: 0 <= l < |all| && 0 <= i < |all[l]| - 1 ==> all[l][i] != NEWLINE)
            && (forall l :: 0 <= l < |all| ==> all[l] != [])
            && (forall l :: 0 <= l < |all| - 1 ==> all[l][|all[l]| - 1] == NEWLINE)
  {
  }

  /* ----- reads into several buffers ----- */

  function Sum(lens: seq<nat>): nat {
    if lens == [] then 0 else lens[0] + Sum(lens[1..])
  }

  /** Data cut at the given lengths; a piece that comes up short is the last. */
  function Pieces(lens: seq<nat>, data: seq<byte>): seq<seq<byte>> {
    if lens == [] then []
    else if lens[0] <= |data| then [data[..lens[0]]] + Pieces(lens[1..], data[lens[0]..])
    else [data]
  }

  /** The pieces are one read of the lengths' sum. */
  lemma {:induction false} PiecesJoin(lens: seq<nat>, data: seq<byte>)
    ensures Concat(Pieces(lens, data)) == data[..Min(Sum(lens), |data|)]
  {
    if lens != [] {
      var n := lens[0];
      if n <= |data| {
        var rest := data[n..];
        PiecesJoin(lens[1..], rest);
        var more := Pieces(lens[1..], rest);
        assert Pieces(lens, data) == [data[..n]] + more && Sum(lens) == n + Sum(lens[1..]);
        hide Pieces, Sum;
        assert ([data[..n]] + more)[1..] == more;
        JoinTaken(data, n, Min(Sum(lens[1..]), |rest|));
      } else {
        assert Concat([data]) == data + Concat([]);
      }
    }
  }

  lemma {:induction false} ConcatSnoc(ps: seq<seq<byte>>, p: seq<byte>)
    ensures Concat(ps + [p]) == Concat(ps) + p
  {
    if ps == [] {
      assert [] + [p] == [p] && Concat([p]) == p + Concat([]);
    } else {
      assert (ps + [p])[1..] == ps[1..] + [p];
      ConcatSnoc(ps[1..], p);
    }
  }

  lemma NoPieces(lens: seq<nat>, data: seq<byte>)
    ensures lens[0..] == lens && Concat([]) == [] && [] + Pieces(lens, data) == Pieces(lens, data)
    ensures data[0..] == data && data[..0] == []
  {
  }

  lemma LastPieces(lens: seq<nat>, i: nat, pieces: seq<seq<byte>>, data: seq<byte>)
    requires i == |lens|
    ensures pieces + Pieces(lens[i..], data) == pieces
  {
  }

  lemma JoinTaken(u: seq<byte>, t: nat, n: nat)
    requires t + n <= |u|
    ensures u[..t] + u[t..][..n] == u[..t + n] && u[t..][n..] == u[t + n..]
  {
  }

  lemma Regrouped(pieces: seq<seq<byte>>, piece: seq<byte>, more: seq<seq<byte>>)
    ensures pieces + ([piece] + more) == (pieces + [piece]) + more
  {
  }

  lemma Sliced(b: seq<byte>, from: nat, to: nat, i: nat, n: nat)
    requires from + i + n <= to <= |b|
    ensures b[from..to][i..i + n] == b[from + i..from + i + n]
  {
    var s, t := b[from..to][i..i + n], b[from + i..from + i + n];
    forall k | 0 <= k < n ensures s[k] == t[k] { assert b[from..to][i + k] == b[from + (i + k)]; }
  }

  lemma SameLength(u: seq<byte>, a: nat, b: nat)
    requires a <= |u| && b <= |u|
    ensures u[..a] == u[..b] ==> a == b
  {
    assert |u[..a]| == a && |u[..b]| == b;
  }

  /** One turn of a vectored read. */
  lemma PiecesStep(lens: seq<nat>, i: nat, data: seq<byte>, pieces: seq<seq<byte>>)
    requires i < |lens|
    ensures pieces + Pieces(lens[i..], data)
         == if lens[i] <= |data| then (pieces + [data[..lens[i]]]) + Pieces(lens[i + 1..], data[lens[i]..])
            else pieces + [data[..|data|]]
  {
    assert lens[i..][1..] == lens[i + 1..];
    var n := Min(lens[i], |data|);
    if n == lens[i] {
      Regrouped(pieces, data[..n], Pieces(lens[i + 1..], data[n..]));
    } else {
      assert data[..n] == data;
    }
  }

  /** Copies data into one buffer after the other, up to the first short one. */
  method Scatter(data: seq<byte>, lens: seq<nat>) returns (pieces: seq<seq<byte>>, total: nat)
    ensures pieces == Pieces(lens, data) && total == Min(Sum(lens), |data|) && Concat(pieces) == data[..total]
  {
    hide Pieces, Sum, Concat;
    PiecesJoin(lens, data);
    NoPieces(lens, data);
    pieces, total := [], 0;
    var i := 0;
    var more := true;
    while more && i < |lens|
      invariant 0 <= i <= |lens| && total <= |data|
      invariant Concat(pieces) == data[..total]
      invariant Pieces(lens, data) == if more then pieces + Pieces(lens[i..], data[total..]) else pieces
      decreases |lens| - i
    {
      var n := Min(lens[i], |data| - total);
      PiecesStep(lens, i, data[total..], pieces);
      var piece := data[total..][..n];
      ConcatSnoc(pieces, piece);
      JoinTaken(data, total, n);
      pieces := pieces + [piece];
      total := total + n;
      more := n >= lens[i];
      i := i + 1;
    }
    if more { LastPieces(lens, i, pieces, data[total..]); }
    SameLength(data, total, Min(Sum(lens), |data|));
  }

  lemma Whole(n: nat, a: nat)
    requires a > 0
    ensures Bytes(WholeItems(n, a), a) <= n < Bytes(WholeItems(n, a) + 1, a)
  {
    var q, r := n / a, n % a;
    assert n == a * q + r && 0 <= r < a;
    assert (q + 1) * a == a * q + a;
  }

  lemma Exact(a: nat, b: nat)
    requires a > 0
    ensures Bytes(b, a) == Bytes(a, b) < Bytes(b + 1, a)
  {
    assert (b + 1) * a == b * a + a;
  }

  lemma NoBytes(a: nat, b: nat)
    requires a == 0 || b == 0
    ensures Bytes(a, b) == 0 && (a > 0 ==> Bytes(0, a) == 0 < Bytes(1, a))
  {
  }

  lemma MulMono(a: nat, x: nat, y: nat)
    requires x <= y
    ensures a * x <= a * y
  {
    assert a * y == a * x + a * (y - x);
  }

  lemma Division(n: nat, a: nat)
    requires a > 0
    ensures a * (n / a) <= n < a * (n / a + 1)
  {
    var q, r := n / a, n % a;
    assert n == a * q + r && 0 <= r < a;
    assert a * (q + 1) == a * q + a;
  }

  /** The overflow test of fread() is exact. */
  lemma OverflowTest(n: nat, a: nat, b: nat)
    requires a > 0
    ensures b > n / a <==> a * b > n
  {
    Division(n, a);
    var q := n / a;
    if b > q { MulMono(a, q + 1, b); } else { MulMono(a, b, q); }
  }

  lemma WantIs(a: nat, b: nat)
    requires a > 0
    ensures Want(a, b) == if Bytes(a, b) > SIZE_MAX then SIZE_MAX else Bytes(a, b)
  {
    OverflowTest(SIZE_MAX, a, b);
  }
}
