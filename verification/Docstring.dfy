/** String literals for docstrings: how the unparser quotes and escapes them, and
    how Python reads a triple-quoted literal back (section 2.4.1 of the Python
    Language Reference). Characters are code points. */
module Docstring {
  import opened Options

  type Char = x: int | 0 <= x < 0x11_0000
  type Text = seq<Char>

  const TAB: Char := 9
  const LF: Char := 10
  const CR: Char := 13
  const DQ: Char := 34
  const SQ: Char := 39
  const BACKSLASH: Char := 92

  const MULTI_QUOTES: seq<Text> := [[DQ, DQ, DQ], [SQ, SQ, SQ]]
  const ALL_QUOTES: seq<Text> := [[SQ], [DQ], [DQ, DQ, DQ], [SQ, SQ, SQ]]

  /** str.isprintable() of one character; Unicode decides it outside ASCII. */
  ghost predicate IsPrintable(p: Char -> bool) {
    forall c: Char :: c < 128 ==> (p(c) <==> 32 <= c < 127)
  }

  function Join(esc: Char -> Text, s: Text): Text {
    if s == [] then [] else esc(s[0]) + Join(esc, s[1..])
  }

  predicate At(s: Text, sub: Text, i: int) {
    0 <= i <= |s| - |sub| && s[i..i + |sub|] == sub
  }

  predicate Contains(s: Text, sub: Text) {
    exists i | 0 <= i <= |s| :: At(s, sub, i)
  }

  /* ----- writing ----- */

  function HexDigit(d: int): Char
    requires 0 <= d < 16
  {
    if d < 10 then 48 + d else 87 + d
  }

  function Hex(n: nat, v: nat): Text {
    if n == 0 then [] else Hex(n - 1, v / 16) + [HexDigit(v % 16)]
  }

  /** \xhh, \uhhhh or \Uhhhhhhhh, the shortest that fits. */
  function HexEscape(c: Char): Text {
    if c < 0x100 then [BACKSLASH, 120] + Hex(2, c)
    else if c < 0x1_0000 then [BACKSLASH, 117] + Hex(4, c)
    else [BACKSLASH, 85] + Hex(8, c)
  }

  /** The `unicode_escape` codec on one character. */
  function UnicodeEscape(c: Char): Text {
    if c == BACKSLASH then [BACKSLASH, BACKSLASH]
    else if c == TAB then [BACKSLASH, 116]
    else if c == LF then [BACKSLASH, 110]
    else if c == CR then [BACKSLASH, 114]
    else HexEscape(c)
  }

  function EscapeChar(p: Char -> bool, c: Char): Text {
    if c == LF || c == TAB then [c]
    else if c == BACKSLASH || !p(c) then UnicodeEscape(c)
    else [c]
  }

  /** One character inside repr(), between quotes `q`. */
  function ReprChar(p: Char -> bool, q: Char, c: Char): Text {
    if c == q || c == BACKSLASH then [BACKSLASH, c]
    else if c == TAB || c == LF || c == CR then UnicodeEscape(c)
    else if !p(c) then HexEscape(c)
    else [c]
  }

  function EscapeWith(p: Char -> bool): Char -> Text {
    c => EscapeChar(p, c)
  }

  function ReprWith(p: Char -> bool, q: Char): Char -> Text {
    c => ReprChar(p, q, c)
  }

  function ReprQuote(s: Text): Char {
    if SQ in s && DQ !in s then DQ else SQ
  }

  function Repr(p: Char -> bool, s: Text): Text {
    [ReprQuote(s)] + Join(ReprWith(p, ReprQuote(s)), s) + [ReprQuote(s)]
  }

  /** The quotes of `qs` that do not occur in `s`. */
  function Absent(qs: seq<Text>, s: Text): seq<Text> {
    if qs == [] then []
    else if Contains(s, qs[0]) then Absent(qs[1..], s)
    else [qs[0]] + Absent(qs[1..], s)
  }

  /** Those whose first character is, or is not, `c`, in order. */
  function Starting(qs: seq<Text>, c: Char, wanted: bool): seq<Text> {
    if qs == [] then []
    else if qs[0] != [] && (qs[0][0] == c) == wanted then [qs[0]] + Starting(qs[1..], c, wanted)
    else Starting(qs[1..], c, wanted)
  }

  /** Stable sort that puts the quotes starting with `c` last. */
  function SortedBy(qs: seq<Text>, c: Char): seq<Text> {
    Starting(qs, c, false) + Starting(qs, c, true)
  }

  function FirstWith(qs: seq<Text>, c: Char): Text {
    if qs == [] then [c] else if c in qs[0] then qs[0] else FirstWith(qs[1..], c)
  }

  /** The body of the literal and the quotes that can enclose it, preferred first. */
  function Helper(p: Char -> bool, s: Text, quotes: seq<Text>): (Text, seq<Text>) {
    var escaped := Join(EscapeWith(p), s);
    var possible := Absent(quotes, escaped);
    if possible == [] then
      var r := Repr(p, s);
      (r[1..|r| - 1], [FirstWith(quotes, r[0])])
    else if escaped == [] then (escaped, possible)
    else
      var last := escaped[|escaped| - 1];
      var sorted := SortedBy(possible, last);
      if sorted != [] && sorted[0] != [] && sorted[0][0] == last
      then (escaped[..|escaped| - 1] + [BACKSLASH, last], sorted)
      else (escaped, sorted)
  }

  /* ----- reading ----- */

  /** The raw body of a literal up to the closing triple `q`, and what follows. A
      backslash takes the next character with it. */
  function Scan(q: Char, s: Text): Option<(Text, Text)>
    decreases |s|
  {
    if |s| >= 3 && s[..3] == [q, q, q] then Some(([], s[3..]))
    else if s == [] || (s[0] == BACKSLASH && |s| == 1) then None
    else if s[0] == BACKSLASH then Prepend(s[..2], Scan(q, s[2..]))
    else Prepend(s[..1], Scan(q, s[1..]))
  }

  function Prepend(t: Text, r: Option<(Text, Text)>): Option<(Text, Text)> {
    if r.None? then None else Some((t + r.value.0, r.value.1))
  }

  function DigitValue(c: Char): Option<int> {
    if 48 <= c <= 57 then Some(c - 48)
    else if 97 <= c <= 102 then Some(c - 87)
    else if 65 <= c <= 70 then Some(c - 55)
    else None
  }

  function HexValue(s: Text): Option<nat> {
    if s == [] then Some(0)
    else
      var d, v := DigitValue(s[|s| - 1]), HexValue(s[..|s| - 1]);
      if d.None? || v.None? then None else Some(v.value * 16 + d.value)
  }

  /** `n` hexadecimal digits after a backslash and a letter. */
  function ReadHex(n: nat, s: Text): Option<(Text, Text)> {
    if |s| < 1 + n then None else
    var v := HexValue(s[1..1 + n]);
    if v.None? || v.value >= 0x11_0000 then None else Some(([v.value], s[1 + n..]))
  }

  /** Up to three octal digits. */
  function ReadOctal(n: nat, v: nat, s: Text): Option<(Text, Text)>
    requires v < 64 || (n == 0 && v < 512)
    requires n == 2 ==> v < 8
  {
    if n > 0 && n <= 2 && s != [] && 48 <= s[0] <= 55 then ReadOctal(n - 1, v * 8 + (s[0] - 48), s[1..])
        else Some(([v], s))
  }

  /** An escape sequence after its backslash: what it stands for, and what follows. */
  function ReadEscape(s: Text): Option<(Text, Text)>
    requires s != []
  {
    var c := s[0];
    if c == LF then Some(([], s[1..]))
    else if c == BACKSLASH || c == SQ || c == DQ then Some(([c], s[1..]))
    else if c == 97 then Some(([7], s[1..]))
    else if c == 98 then Some(([8], s[1..]))
    else if c == 102 then Some(([12], s[1..]))
    else if c == 110 then Some(([LF], s[1..]))
    else if c == 114 then Some(([CR], s[1..]))
    else if c == 116 then Some(([TAB], s[1..]))
    else if c == 118 then Some(([11], s[1..]))
    else if 48 <= c <= 55 then ReadOctal(2, c - 48, s[1..])
    else if c == 120 then ReadHex(2, s)
    else if c == 117 then ReadHex(4, s)
    else if c == 85 then ReadHex(8, s)
    else if c == 78 then None  // a character name: not written by the unparser
    else Some(([BACKSLASH, c], s[1..]))
  }

  lemma ReadEscapeShrinks(s: Text)
    requires s != [] && ReadEscape(s).Some?
    ensures |ReadEscape(s).value.1| < |s|
  {
    if 48 <= s[0] <= 55 { ReadOctalShrinks(2, s[0] - 48, s[1..]); }
  }

  lemma ReadOctalShrinks(n: nat, v: nat, s: Text)
    requires v < 64 || (n == 0 && v < 512)
    requires n == 2 ==> v < 8
    ensures ReadOctal(n, v, s).Some? && |ReadOctal(n, v, s).value.1| <= |s|
  {
  }

  /** The string a raw body denotes. */
  function Decode(s: Text): Option<Text>
    decreases |s|
  {
    if s == [] then Some([])
    else if s[0] != BACKSLASH then
      var t := Decode(s[1..]);
      if t.None? then None else Some([s[0]] + t.value)
    else if |s| == 1 then None
    else
      var e := ReadEscape(s[1..]);
      if e.None? then None else
      ReadEscapeShrinks(s[1..]);
      var t := Decode(e.value.1);
      if t.None? then None else Some(e.value.0 + t.value)
  }

  /* ----- one character at a time ----- */

  /** Characters that neither escape nor quote. */
  predicate Inert(s: Text) {
    forall i :: 0 <= i < |s| ==> s[i] != BACKSLASH && s[i] != SQ && s[i] != DQ
  }

  /** `u` is what an escaper writes for `c`: the character itself, or a backslash,
      a character it covers, and inert ones, which together denote `c`. */
  ghost predicate Unit(u: Text, c: Char) {
    || (u == [c] && c != BACKSLASH)
    || (|u| >= 2 && u[0] == BACKSLASH && Inert(u[2..])
        && forall x: Text :: ReadEscape(u[1..] + x) == Some(([c], x)))
  }

  function Pow16(n: nat): nat {
    if n == 0 then 1 else 16 * Pow16(n - 1)
  }

  lemma {:induction false} HexBack(n: nat, v: nat)
    requires v < Pow16(n)
    ensures |Hex(n, v)| == n && HexValue(Hex(n, v)) == Some(v) && Inert(Hex(n, v))
    decreases n
  {
    if n > 0 {
      HexBack(n - 1, v / 16);
      var h := Hex(n, v);
      assert h[..|h| - 1] == Hex(n - 1, v / 16);
      assert h[|h| - 1] == HexDigit(v % 16);
    }
  }

  lemma HexUnit(n: nat, letter: Char, c: Char)
    requires (n == 2 && letter == 120) || (n == 4 && letter == 117) || (n == 8 && letter == 85)
    requires c < Pow16(n)
    ensures Unit([BACKSLASH, letter] + Hex(n, c), c)
  {
    HexBack(n, c);
    hide Hex, HexValue, Pow16;
    var u := [BACKSLASH, letter] + Hex(n, c);
    assert u[2..] == Hex(n, c);
    hide ReadEscape;
    forall x: Text ensures ReadEscape(u[1..] + x) == Some(([c], x)) {
      assert u[1..] + x == [letter] + Hex(n, c) + x;
      HexRead(n, letter, c, Hex(n, c), x);
    }
  }

  lemma HexRead(n: nat, letter: Char, c: Char, h: Text, x: Text)
    requires (n == 2 && letter == 120) || (n == 4 && letter == 117) || (n == 8 && letter == 85)
    requires |h| == n && HexValue(h) == Some(c)
    ensures ReadEscape([letter] + h + x) == Some(([c], x))
  {
    hide HexValue;
    var s := [letter] + h + x;
    assert s[1..1 + n] == h;
    assert s[1 + n..] == x;
  }

  lemma HexEscapeUnit(c: Char)
    ensures Unit(HexEscape(c), c)
  {
    hide Hex, Unit;
    assert Pow16(2) == 0x100;
    assert Pow16(4) == 256 * Pow16(2);
    assert Pow16(8) == 0x1_0000 * Pow16(4) by { assert Pow16(6) == 256 * Pow16(4); }
    if c < 0x100 { HexUnit(2, 120, c); } else if c < 0x1_0000 { HexUnit(4, 117, c); } else { HexUnit(8, 85, c); }
  }

  lemma PairUnit(c: Char, d: Char)
    requires (d == c && (c == BACKSLASH || c == SQ || c == DQ))
          || (c == TAB && d == 116) || (c == LF && d == 110) || (c == CR && d == 114)
    ensures Unit([BACKSLASH, d], c)
  {
    var u := [BACKSLASH, d];
    forall x: Text ensures ReadEscape(u[1..] + x) == Some(([c], x)) {
      assert u[1..] + x == [d] + x;
      assert ([d] + x)[1..] == x;
    }
  }

  lemma EscapeUnit(p: Char -> bool, c: Char)
    ensures Unit(EscapeChar(p, c), c)
  {
    if c == BACKSLASH { PairUnit(c, c); } else if c == CR { PairUnit(c, 114); } else { HexEscapeUnit(c); }
  }

  lemma ReprUnit(p: Char -> bool, q: Char, c: Char)
    requires q == SQ || q == DQ
    ensures Unit(ReprChar(p, q, c), c) && ReprChar(p, q, c)[0] != q
  {
    if c == q || c == BACKSLASH { PairUnit(c, c); }
    else if c == TAB { PairUnit(c, 116); }
    else if c == LF { PairUnit(c, 110); }
    else if c == CR { PairUnit(c, 114); }
    else { HexEscapeUnit(c); }
  }

  /* ----- whole bodies ----- */

  ghost predicate Units(esc: Char -> Text, s: Text) {
    forall c :: c in s ==> Unit(esc(c), c)
  }

  /** One unit decodes to its character. */
  lemma DecodeUnit(u: Text, c: Char, t: Text)
    requires Unit(u, c) && Decode(t).Some?
    ensures Decode(u + t) == Some([c] + Decode(t).value)
  {
    hide ReadEscape;
    if u[0] == BACKSLASH {
      assert (u + t)[1..] == u[1..] + t;
    } else {
      assert (u + t)[1..] == t;
    }
  }

  lemma {:induction false} DecodeJoin(esc: Char -> Text, s: Text, x: Text)
    requires Units(esc, s) && Decode(x).Some?
    ensures Decode(Join(esc, s) + x) == Some(s + Decode(x).value)
    decreases |s|
  {
    hide Unit, Decode;
    if s == [] {
      assert Join(esc, s) + x == x && s + Decode(x).value == Decode(x).value;
    } else {
      var u, t := esc(s[0]), Join(esc, s[1..]) + x;
      DecodeJoin(esc, s[1..], x);
      DecodeUnit(u, s[0], t);
      assert Join(esc, s) + x == u + t;
      assert [s[0]] + (s[1..] + Decode(x).value) == s + Decode(x).value;
    }
  }

  lemma PrependPrepend(a: Text, b: Text, r: Option<(Text, Text)>)
    ensures Prepend(a, Prepend(b, r)) == Prepend(a + b, r)
  {
    if r.Some? { assert a + (b + r.value.0) == a + b + r.value.0; }
  }

  lemma ScanPlain(q: Char, c: Char, x: Text)
    requires c != BACKSLASH && (|[c] + x| < 3 || ([c] + x)[..3] != [q, q, q])
    ensures Scan(q, [c] + x) == Prepend([c], Scan(q, x))
  {
    assert ([c] + x)[1..] == x && ([c] + x)[..1] == [c];
  }

  lemma ScanPair(q: Char, d: Char, x: Text)
    requires q != BACKSLASH
    ensures Scan(q, [BACKSLASH, d] + x) == Prepend([BACKSLASH, d], Scan(q, x))
  {
    var s := [BACKSLASH, d] + x;
    assert s[2..] == x && s[..2] == [BACKSLASH, d];
    if |s| >= 3 { assert s[..3][0] == BACKSLASH; }
  }

  /** Inert characters do not close a literal. */
  lemma {:induction false} ScanInert(q: Char, h: Text, x: Text)
    requires (q == SQ || q == DQ) && Inert(h)
    ensures Scan(q, h + x) == Prepend(h, Scan(q, x))
    decreases |h|
  {
    hide Scan;
    if h == [] {
      assert h + x == x;
      if Scan(q, x).Some? { assert h + Scan(q, x).value.0 == Scan(q, x).value.0; }
    } else {
      ScanInert(q, h[1..], x);
      var t := h[1..] + x;
      assert h + x == [h[0]] + t;
      if |[h[0]] + t| >= 3 { assert ([h[0]] + t)[..3][0] == h[0]; }
      ScanPlain(q, h[0], t);
      PrependPrepend([h[0]], h[1..], Scan(q, x));
      assert [h[0]] + h[1..] == h;
    }
  }

  lemma ScanUnit(q: Char, u: Text, c: Char, x: Text)
    requires (q == SQ || q == DQ) && Unit(u, c)
    requires |u + x| < 3 || (u + x)[..3] != [q, q, q]
    ensures Scan(q, u + x) == Prepend(u, Scan(q, x))
  {
    hide Scan, ReadEscape;
    if u[0] == BACKSLASH {
      var h := u[2..];
      assert u == [BACKSLASH, u[1]] + h;
      assert u + x == [BACKSLASH, u[1]] + (h + x);
      ScanPair(q, u[1], h + x);
      ScanInert(q, h, x);
      PrependPrepend([BACKSLASH, u[1]], h, Scan(q, x));
    } else {
      ScanPlain(q, c, x);
    }
  }

  /** No closing quotes start at any character of `s` as printed before `x`. */
  ghost predicate NoClose(q: Char, esc: Char -> Text, s: Text, x: Text) {
    s == [] || ((var t := Join(esc, s) + x; |t| < 3 || t[..3] != [q, q, q]) && NoClose(q, esc, s[1..], x))
  }

  lemma {:induction false} ScanJoin(q: Char, esc: Char -> Text, s: Text, x: Text)
    requires (q == SQ || q == DQ) && Units(esc, s) && NoClose(q, esc, s, x)
    ensures Scan(q, Join(esc, s) + x) == Prepend(Join(esc, s), Scan(q, x))
    decreases |s|
  {
    hide Scan, Unit;
    if s == [] {
      assert Join(esc, s) + x == x;
      if Scan(q, x).Some? { assert [] + Scan(q, x).value.0 == Scan(q, x).value.0; }
    } else {
      var u, t := esc(s[0]), Join(esc, s[1..]) + x;
      assert Join(esc, s) + x == u + t;
      ScanJoin(q, esc, s[1..], x);
      ScanUnit(q, u, s[0], t);
      PrependPrepend(u, Join(esc, s[1..]), Scan(q, x));
    }
  }

  /* ----- the literal as a whole ----- */

  lemma {:induction false} JoinSnoc(esc: Char -> Text, s: Text, c: Char)
    ensures Join(esc, s + [c]) == Join(esc, s) + esc(c)
    decreases |s|
  {
    if s == [] {
      assert s + [c] == [c];
      assert Join(esc, [c][1..]) == [];
    } else {
      assert (s + [c])[1..] == s[1..] + [c];
      JoinSnoc(esc, s[1..], c);
    }
  }

  lemma AbsentMember(qs: seq<Text>, s: Text, q: Text)
    requires q in Absent(qs, s)
    ensures q in qs && !Contains(s, q)
  {
  }

  lemma StartingMember(qs: seq<Text>, c: Char, wanted: bool, q: Text)
    requires q in Starting(qs, c, wanted)
    ensures q in qs && q != [] && (q[0] == c) == wanted
  {
  }

  lemma StartingAll(qs: seq<Text>, c: Char)
    requires forall q :: q in qs ==> q != []
    ensures |SortedBy(qs, c)| == |qs|
  {
    if qs != [] {
      forall q | q in qs[1..] ensures q != [] { assert q in qs; }
      assert qs[0] in qs;
      StartingAll(qs[1..], c);
    }
  }

  lemma SortedMember(qs: seq<Text>, c: Char, q: Text)
    requires q in SortedBy(qs, c)
    ensures q in qs
  {
    if q in Starting(qs, c, false) { StartingMember(qs, c, false, q); } else { StartingMember(qs, c, true, q); }
  }

  /** The assertion inside the helper: a quote that could be escaped at the end is a
      triple one, whichever of the four quotes may be used. */
  lemma EscapedQuoteIsTriple(p: Char -> bool, s: Text, quotes: seq<Text>, q: Text)
    requires forall r :: r in quotes ==> r in ALL_QUOTES
    requires var escaped := Join(EscapeWith(p), s);
             escaped != [] && q in Absent(quotes, escaped) && q != [] && q[0] == escaped[|escaped| - 1]
    ensures |q| == 3
  {
    var escaped := Join(EscapeWith(p), s);
    AbsentMember(quotes, escaped, q);
    if |q| == 1 {
      Ending(escaped, q);
      assert false;
    }
  }

  lemma Ending(s: Text, q: Text)
    requires s != [] && |q| == 1 && q[0] == s[|s| - 1]
    ensures Contains(s, q)
  {
    assert At(s, q, |s| - 1);
  }

  predicate IsQuote(q: Char) {
    q == SQ || q == DQ
  }

  /** Three quotes at the start of `e + x` lie inside `e`, or straddle its end. */
  lemma Window(q: Char, all: Text, before: Text, e: Text, x: Text)
    requires all == before + e && e != []
    requires |e + x| >= 3 && (e + x)[..3] == [q, q, q]
    ensures Contains(all, [q, q, q]) || (all[|all| - 1] == q && x != [] && x[0] == q)
  {
    var t := e + x;
    assert t[0] == q && t[1] == q && t[2] == q;
    if |e| >= 3 {
      assert all[|before|..|before| + 3] == t[..3];
      assert At(all, [q, q, q], |before|);
    } else {
      assert all[|all| - 1] == e[|e| - 1] == t[|e| - 1];
      assert x[0] == t[|e|];
    }
  }

  lemma {:induction false} NothingCloses(q: Char, esc: Char -> Text, all: Text, before: Text, s: Text, x: Text)
    requires Units(esc, s) && IsQuote(q)
    requires all == before + Join(esc, s)
    requires !Contains(all, [q, q, q])
    requires (all != [] && all[|all| - 1] != q) || x == [] || x[0] != q
    ensures NoClose(q, esc, s, x)
    decreases |s|
  {
    if s != [] {
      hide Contains, Unit;
      var u, e := esc(s[0]), Join(esc, s);
      assert Unit(u, s[0]);
      UnitNotEmpty(u, s[0]);
      assert all == (before + u) + Join(esc, s[1..]);
      NothingCloses(q, esc, all, before + u, s[1..], x);
      if |e + x| >= 3 && (e + x)[..3] == [q, q, q] {
        Window(q, all, before, e, x);
        assert false;
      }
    }
  }

  lemma ScanClosing(q: Char, rest: Text)
    ensures Scan(q, [q, q, q] + rest) == Some(([], rest))
  {
    assert ([q, q, q] + rest)[..3] == [q, q, q] && ([q, q, q] + rest)[3..] == rest;
  }

  lemma EscapeUnits(p: Char -> bool, s: Text)
    ensures Units(EscapeWith(p), s)
  {
    hide Unit;
    forall c | c in s ensures Unit(EscapeWith(p)(c), c) { EscapeUnit(p, c); }
  }

  lemma ReprUnits(p: Char -> bool, q: Char, s: Text)
    requires IsQuote(q)
    ensures Units(ReprWith(p, q), s)
  {
    hide Unit;
    forall c | c in s ensures Unit(ReprWith(p, q)(c), c) { ReprUnit(p, q, c); }
  }

  /** What a literal with body `body` and quotes `q` is read as. */
  ghost predicate ReadsAs(q: Char, body: Text, s: Text, rest: Text) {
    Scan(q, body + ([q, q, q] + rest)) == Some((body, rest)) && Decode(body) == Some(s)
  }

  lemma DecodeAll(esc: Char -> Text, s: Text)
    requires Units(esc, s)
    ensures Decode(Join(esc, s)) == Some(s)
  {
    hide Unit, ReadEscape;
    assert Decode([]) == Some([]);
    DecodeJoin(esc, s, []);
    assert Join(esc, s) + [] == Join(esc, s) && s + [] == s;
  }

  lemma PlainEnding(p: Char -> bool, s: Text, q: Char, rest: Text)
    requires IsQuote(q)
    requires var e := Join(EscapeWith(p), s); !Contains(e, [q, q, q]) && (e == [] || e[|e| - 1] != q)
    ensures ReadsAs(q, Join(EscapeWith(p), s), s, rest)
  {
    hide Scan, Unit, Decode, Contains, Units;
    var esc, e, x := EscapeWith(p), Join(EscapeWith(p), s), [q, q, q] + rest;
    EscapeUnits(p, s);
    if s != [] {
      NotEmpty(esc, s);
      NothingCloses(q, esc, e, [], s, x);
    }
    ScanJoin(q, esc, s, x);
    ScanClosing(q, rest);
    assert e + [] == e;
    DecodeAll(esc, s);
  }

  lemma NotEmpty(esc: Char -> Text, s: Text)
    requires s != [] && Units(esc, s)
    ensures Join(esc, s) != []
  {
    assert Unit(esc(s[0]), s[0]);
  }

  /** Escapes contain no quotes. */
  lemma NoQuoteInEscape(p: Char -> bool, c: Char)
    ensures var u := EscapeChar(p, c); u == [c] || forall i :: 0 <= i < |u| ==> !IsQuote(u[i])
  {
    var u := EscapeChar(p, c);
    EscapeUnit(p, c);
    if u != [c] {
      assert Inert(u[2..]);
      forall i | 0 <= i < |u| ensures !IsQuote(u[i]) {
        if i >= 2 { assert u[i] == u[2..][i - 2]; }
      }
    }
  }

  lemma ContainsMore(s: Text, c: Char, sub: Text)
    ensures Contains(s, sub) ==> Contains(s + [c], sub)
  {
    if Contains(s, sub) {
      var i :| 0 <= i <= |s| && At(s, sub, i);
      assert At(s + [c], sub, i);
    }
  }

  /** Escaped text that ends in a quote ends in a quote of the string. */
  lemma EndsInQuote(p: Char -> bool, s: Text, q: Char)
    requires IsQuote(q)
    requires var e := Join(EscapeWith(p), s); e != [] && e[|e| - 1] == q
    ensures s != [] && s[|s| - 1] == q
    ensures Join(EscapeWith(p), s) == Join(EscapeWith(p), s[..|s| - 1]) + [q]
  {
    hide Unit, EscapeChar, Units;
    var esc, e := EscapeWith(p), Join(EscapeWith(p), s);
    assert s != [];
    var s0, c := s[..|s| - 1], s[|s| - 1];
    assert s == s0 + [c];
    JoinSnoc(esc, s0, c);
    EscapeUnit(p, c);
    var u := EscapeChar(p, c);
    UnitNotEmpty(u, c);
    NoQuoteInEscape(p, c);
    assert e[|e| - 1] == u[|u| - 1];
  }

  lemma EscapedEnding(p: Char -> bool, s: Text, q: Char, rest: Text)
    requires IsQuote(q)
    requires var e := Join(EscapeWith(p), s); !Contains(e, [q, q, q]) && e != [] && e[|e| - 1] == q
    ensures var e := Join(EscapeWith(p), s); ReadsAs(q, e[..|e| - 1] + [BACKSLASH, q], s, rest)
  {
    hide Unit, EscapeChar, Contains, Units, Join;
    EndsInQuote(p, s, q);
    var s0 := s[..|s| - 1];
    var e0 := Join(EscapeWith(p), s0);
    assert (e0 + [q])[..|e0|] == e0 && s0 + [q] == s;
    EscapedScan(p, s0, q, rest);
    EscapedDecode(p, s0, q);
  }

  lemma EscapedScan(p: Char -> bool, s: Text, q: Char, rest: Text)
    requires IsQuote(q) && !Contains(Join(EscapeWith(p), s) + [q], [q, q, q])
    ensures var body := Join(EscapeWith(p), s) + [BACKSLASH, q];
            Scan(q, body + ([q, q, q] + rest)) == Some((body, rest))
  {
    hide Scan, Unit, EscapeChar, Contains, Units, Join;
    var esc, e := EscapeWith(p), Join(EscapeWith(p), s);
    var tail := [q, q, q] + rest;
    var x := [BACKSLASH, q] + tail;
    EscapeUnits(p, s);
    ContainsMore(e, q, [q, q, q]);
    assert e == [] + e;
    NothingCloses(q, esc, e, [], s, x);
    ScanJoin(q, esc, s, x);
    ScanPair(q, q, tail);
    ScanClosing(q, rest);
    assert (e + [BACKSLASH, q]) + tail == e + x;
    assert [BACKSLASH, q] + [] == [BACKSLASH, q];
  }

  lemma EscapedDecode(p: Char -> bool, s: Text, q: Char)
    requires IsQuote(q)
    ensures Decode(Join(EscapeWith(p), s) + [BACKSLASH, q]) == Some(s + [q])
  {
    hide Unit, EscapeChar, Units, Join, Decode;
    EscapeUnits(p, s);
    LastQuote(q);
    DecodeJoin(EscapeWith(p), s, [BACKSLASH, q]);
  }

  lemma UnitNotEmpty(u: Text, c: Char)
    requires Unit(u, c)
    ensures u != []
  {
  }

  lemma LastQuote(q: Char)
    requires IsQuote(q)
    ensures Decode([BACKSLASH, q]) == Some([q])
  {
    var s := [BACKSLASH, q];
    assert s[1..] == [q] && [q][1..] == [];
    assert ReadEscape([q]) == Some(([q], []));
    assert Decode([]) == Some([]);
    assert [q] + [] == [q];
  }

  /** A quote in the escaped text comes from the string. */
  lemma {:induction false} QuoteFrom(p: Char -> bool, s: Text, q: Char)
    requires IsQuote(q) && q in Join(EscapeWith(p), s)
    ensures q in s
    decreases |s|
  {
    if s != [] {
      var u := EscapeChar(p, s[0]);
      assert Join(EscapeWith(p), s) == u + Join(EscapeWith(p), s[1..]);
      if q in u {
        NoQuoteInEscape(p, s[0]);
      } else {
        QuoteFrom(p, s[1..], q);
      }
    }
  }

  lemma ReprNoClose(p: Char -> bool, q: Char, s: Text, x: Text)
    requires IsQuote(q)
    ensures NoClose(q, ReprWith(p, q), s, x)
  {
    hide Unit;
    if s != [] {
      ReprUnit(p, q, s[0]);
      var t := Join(ReprWith(p, q), s) + x;
      assert t[0] == ReprChar(p, q, s[0])[0] by { NotEmptyRepr(p, q, s[0]); }
      if |t| >= 3 { assert t[..3][0] == t[0]; }
      ReprNoClose(p, q, s[1..], x);
    }
  }

  lemma NotEmptyRepr(p: Char -> bool, q: Char, c: Char)
    ensures ReprChar(p, q, c) != []
  {
  }

  lemma ReprReads(p: Char -> bool, s: Text, q: Char, rest: Text)
    requires IsQuote(q)
    ensures ReadsAs(q, Join(ReprWith(p, q), s), s, rest)
  {
    hide Scan, Unit, Decode, Units;
    var esc, e, x := ReprWith(p, q), Join(ReprWith(p, q), s), [q, q, q] + rest;
    ReprUnits(p, q, s);
    ReprNoClose(p, q, s, x);
    ScanJoin(q, esc, s, x);
    ScanClosing(q, rest);
    assert e + [] == e;
    DecodeAll(esc, s);
  }

  /** With both triple quotes in the escaped text, the fallback has its own quotes. */
  lemma FallbackReads(p: Char -> bool, s: Text, rest: Text)
    requires Absent(MULTI_QUOTES, Join(EscapeWith(p), s)) == []
    ensures var (body, qs) := Helper(p, s, MULTI_QUOTES);
            qs != [] && qs[0] in MULTI_QUOTES && ReadsAs(qs[0][0], body, s, rest)
  {
    hide Scan, Decode, ReadsAs;
    var e := Join(EscapeWith(p), s);
    BothAbsent(e);
    var i :| 0 <= i <= |e| && At(e, [SQ, SQ, SQ], i);
    assert e[i..i + 3][0] == SQ;
    var j :| 0 <= j <= |e| && At(e, [DQ, DQ, DQ], j);
    assert e[j..j + 3][0] == DQ;
    QuoteFrom(p, s, SQ);
    QuoteFrom(p, s, DQ);
    var r := Repr(p, s);
    assert r[1..|r| - 1] == Join(ReprWith(p, SQ), s);
    ReprReads(p, s, SQ, rest);
    assert FirstWith(MULTI_QUOTES, SQ) == [SQ, SQ, SQ];
  }

  /** The docstring literal of every string closes at its own quotes and denotes
      that string, whatever follows it. */
  lemma DocstringRoundTrip(p: Char -> bool, s: Text, rest: Text)
    ensures var (body, qs) := Helper(p, s, MULTI_QUOTES);
            qs != [] && qs[0] in MULTI_QUOTES && ReadsAs(qs[0][0], body, s, rest)
  {
    hide Scan, Decode, ReadsAs, Join, Absent, SortedBy, Contains, Repr, FirstWith;
    var e := Join(EscapeWith(p), s);
    var possible := Absent(MULTI_QUOTES, e);
    var (body, qs) := Helper(p, s, MULTI_QUOTES);
    if possible == [] {
      FallbackReads(p, s, rest);
    } else {
      forall q | q in possible ensures q in MULTI_QUOTES && !Contains(e, q) { AbsentMember(MULTI_QUOTES, e, q); }
      if e == [] {
        assert possible[0] in possible;
        PlainEnding(p, s, possible[0][0], rest);
      } else {
        var last := e[|e| - 1];
        StartingAll(possible, last);
        var q := SortedBy(possible, last)[0];
        SortedMember(possible, last, q);
        if q[0] == last { EscapedEnding(p, s, last, rest); } else { PlainEnding(p, s, q[0], rest); }
      }
    }
  }

  lemma BothAbsent(e: Text)
    requires Absent(MULTI_QUOTES, e) == []
    ensures Contains(e, [SQ, SQ, SQ]) && Contains(e, [DQ, DQ, DQ])
  {
    assert MULTI_QUOTES[1..] == [[SQ, SQ, SQ]];
    assert Absent(MULTI_QUOTES[1..], e) == [];
  }

  /** Characters that reading a source file leaves as they are. */
  predicate Kept(p: Char -> bool, s: Text) {
    forall i :: 0 <= i < |s| ==> s[i] == LF || s[i] == TAB || p(s[i])
  }

  lemma {:induction false} HexKept(p: Char -> bool, n: nat, v: nat)
    requires IsPrintable(p)
    ensures Kept(p, Hex(n, v))
    decreases n
  {
    if n > 0 { HexKept(p, n - 1, v / 16); }
  }

  lemma EscapesKept(p: Char -> bool, q: Char, c: Char)
    requires IsPrintable(p) && IsQuote(q)
    ensures Kept(p, EscapeChar(p, c)) && Kept(p, ReprChar(p, q, c))
  {
    HexKept(p, 2, c);
    HexKept(p, 4, c);
    HexKept(p, 8, c);
    EscapeKept(p, c);
    ReprKept(p, q, c);
  }

  lemma EscapeKept(p: Char -> bool, c: Char)
    requires IsPrintable(p) && Kept(p, Hex(2, c)) && Kept(p, Hex(4, c)) && Kept(p, Hex(8, c))
    ensures Kept(p, EscapeChar(p, c))
  {
    hide Hex;
  }

  lemma ReprKept(p: Char -> bool, q: Char, c: Char)
    requires IsPrintable(p) && IsQuote(q) && Kept(p, Hex(2, c)) && Kept(p, Hex(4, c)) && Kept(p, Hex(8, c))
    ensures Kept(p, ReprChar(p, q, c))
  {
    hide Hex;
  }

  lemma {:induction false} JoinKept(p: Char -> bool, esc: Char -> Text, s: Text)
    requires forall c :: Kept(p, esc(c))
    ensures Kept(p, Join(esc, s))
    decreases |s|
  {
    if s != [] {
      JoinKept(p, esc, s[1..]);
      assert Kept(p, esc(s[0]));
    }
  }

  /** The literal holds no raw carriage return, null or other character that a
      source file cannot carry: all but tabs and line feeds are printable. */
  lemma LiteralIsClean(p: Char -> bool, s: Text)
    requires IsPrintable(p)
    ensures Kept(p, Helper(p, s, MULTI_QUOTES).0)
  {
    hide Hex, HexEscape, EscapeChar, ReprChar;
    forall c: Char ensures Kept(p, EscapeWith(p)(c)) { EscapesKept(p, SQ, c); }
    forall c: Char ensures Kept(p, ReprWith(p, SQ)(c)) { EscapesKept(p, SQ, c); }
    forall c: Char ensures Kept(p, ReprWith(p, DQ)(c)) { EscapesKept(p, DQ, c); }
    JoinKept(p, EscapeWith(p), s);
    JoinKept(p, ReprWith(p, ReprQuote(s)), s);
    var r := Repr(p, s);
    assert r[1..|r| - 1] == Join(ReprWith(p, ReprQuote(s)), s);
    var e := Join(EscapeWith(p), s);
    var possible := Absent(MULTI_QUOTES, e);
    if possible != [] && e != [] {
      EndingKept(p, e);
    }
  }

  lemma EndingKept(p: Char -> bool, e: Text)
    requires IsPrintable(p) && Kept(p, e) && e != []
    ensures Kept(p, e[..|e| - 1] + [BACKSLASH, e[|e| - 1]])
  {
  }

  /* ----- what is written ----- */

  function HexChar(d: int): Char
    requires 0 <= d < 16
  {
    "0123456789abcdef"[d] as int
  }

  /** Two, four and eight digits, in lower case. */
  lemma HexDigits(v: nat)
    ensures Hex(2, v) == [HexChar(v / 16 % 16), HexChar(v % 16)]
    ensures Hex(4, v) == Hex(2, v / 0x100) + Hex(2, v) && Hex(8, v) == Hex(4, v / 0x1_0000) + Hex(4, v)
  {
    HexPair(v);
    hide Hex, HexDigit, HexChar;
    HexTwo(2, v);
    HexTwo(6, v);
    HexTwo(4, v / 0x100);
    assert v / 0x100 / 0x100 == v / 0x1_0000;
    Regroup(Hex(4, v / 0x1_0000), Hex(2, v / 0x100), Hex(2, v));
  }

  lemma Regroup(a: Text, b: Text, c: Text)
    ensures a + b + c == a + (b + c)
  {
  }

  lemma HexPair(v: nat)
    ensures Hex(2, v) == [HexChar(v / 16 % 16), HexChar(v % 16)]
  {
    SameDigit(v / 16 % 16);
    SameDigit(v % 16);
    HexStep(1, v);
    HexStep(0, v / 16);
    hide Hex, HexDigit, HexChar;
    assert Hex(0, v / 16 / 16) == [] by { HexNone(v / 16 / 16); }
  }

  lemma HexNone(v: nat)
    ensures Hex(0, v) == []
  {
  }

  lemma SameDigit(d: int)
    requires 0 <= d < 16
    ensures HexDigit(d) == HexChar(d)
  {
  }

  lemma HexTwo(n: nat, v: nat)
    ensures Hex(n + 2, v) == Hex(n, v / 256) + Hex(2, v)
  {
    HexStep(n + 1, v);
    HexStep(n, v / 16);
    HexStep(1, v);
    HexStep(0, v / 16);
    HexNone(v / 16 / 16);
    hide Hex, HexDigit;
    assert v / 16 / 16 == v / 256;
  }

  lemma HexStep(n: nat, v: nat)
    ensures Hex(n + 1, v) == Hex(n, v / 16) + [HexDigit(v % 16)]
  {
  }

  /** Line feeds, tabs and printable characters but the backslash stand as they are; any other
      is written as the shortest escape there is for it, in lower case. */
  lemma EscapeIs(p: Char -> bool, c: Char)
    ensures EscapeChar(p, c) == [c] <==> c == 9 || c == 10 || (c != 92 && p(c))
    ensures var e := EscapeChar(p, c);
            e == [c] || e == (if c == 92 then [92, 92] else if c == 13 then [92, 114]
                              else if c < 0x100 then [92, 120] + Hex(2, c)
                              else if c < 0x1_0000 then [92, 117] + Hex(4, c) else [92, 85] + Hex(8, c))
  {
    hide Hex;
  }

  lemma {:induction false} NothingEscaped(p: Char -> bool, s: Text)
    requires forall c :: c in s ==> c == 9 || c == 10 || (c != 92 && p(c))
    ensures Join(EscapeWith(p), s) == s
    decreases |s|
  {
    if s != [] {
      assert forall c :: c in s[1..] ==> c in s;
      NothingEscaped(p, s[1..]);
      assert s[0] in s;
      assert [s[0]] + s[1..] == s;
    }
  }

  /** A docstring without backslashes or control characters is written as it stands, in double
      quotes if they do not occur in it and it does not end in one, else in single ones if they do
      not occur; only where the other quotes occur is the last character escaped. */
  lemma VerbatimLiteral(p: Char -> bool, s: Text)
    requires forall c :: c in s ==> c == 9 || c == 10 || (c != 92 && p(c))
    ensures var (body, qs) := Helper(p, s, MULTI_QUOTES);
            var dq, sq := Contains(s, [34, 34, 34]), Contains(s, [39, 39, 39]);
            var last := if s == [] then 0 else s[|s| - 1];
            && (!dq && last != 34 ==> body == s && qs != [] && qs[0] == [34, 34, 34])
            && (!sq && last != 39 && (dq || last == 34) ==> body == s && qs != [] && qs[0] == [39, 39, 39])
            && (!dq && sq && last == 34 ==> body == s[..|s| - 1] + [92, 34] && qs == [[34, 34, 34]])
            && (dq && !sq && last == 39 ==> body == s[..|s| - 1] + [92, 39] && qs == [[39, 39, 39]])
  {
    hide Contains, Repr, FirstWith, Join, EscapeChar;
    var possible := Absent(MULTI_QUOTES, s);
    hide Absent, Starting, SortedBy;
    NothingEscaped(p, s);
    AbsentIs(s);
    if s != [] && possible != [] {
      var c := s[|s| - 1];
      SortedOne([34, 34, 34], c);
      SortedOne([39, 39, 39], c);
      SortedTwo(c);
    }
  }

  lemma AbsentIs(s: Text)
    ensures Absent(MULTI_QUOTES, s)
         == if Contains(s, [34, 34, 34]) then (if Contains(s, [39, 39, 39]) then [] else [[39, 39, 39]])
            else if Contains(s, [39, 39, 39]) then [[34, 34, 34]] else [[34, 34, 34], [39, 39, 39]]
  {
    hide Contains;
    assert MULTI_QUOTES[1..] == [[39, 39, 39]] && MULTI_QUOTES[1..][1..] == [];
    assert Absent([], s) == [];
  }

  lemma SortedOne(q: Text, c: Char)
    requires q != []
    ensures SortedBy([q], c) == [q]
  {
    assert [q][1..] == [];
    assert Starting([], c, true) == [] && Starting([], c, false) == [];
  }

  lemma SortedTwo(c: Char)
    ensures SortedBy([[34, 34, 34], [39, 39, 39]], c)
         == if c == 34 then [[39, 39, 39], [34, 34, 34]] else [[34, 34, 34], [39, 39, 39]]
  {
    var qs: seq<Text> := [[34, 34, 34], [39, 39, 39]];
    assert qs[1..] == [[39, 39, 39]] && qs[1..][1..] == [];
    assert Starting([], c, true) == [] && Starting([], c, false) == [];
    assert Starting(qs[1..], c, true) == if c == 39 then [[39, 39, 39]] else [];
    assert Starting(qs[1..], c, false) == if c == 39 then [] else [[39, 39, 39]];
  }
}
