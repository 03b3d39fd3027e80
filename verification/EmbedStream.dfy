/** A stream over a decompressed embedded file. Reads serve the unread bytes in
    order; ungetc() pushes a byte back by patching the shared buffer in place. */
module EmbedStream {
  import opened Octets

  datatype Whence = Set | Cur | End | Other

  /** The fields of an open virtual stream. Pointers are offsets into `buf`, whose
      first byte is headroom and whose last is spare. `saved` is 0, or 256 plus the
      byte that a pushback replaced at offset `at`. */
  datatype Stream = Stream(buf: seq<byte>, pos: int, end: nat, size: nat, saved: nat, at: nat, eof: bool, bad: bool)

  /** The content as decompressed, with the headroom before it. */
  ghost predicate Inv(s: Stream, content: seq<byte>) {
    && s.size == |content| && s.end == 1 + s.size && |s.buf| == s.size + 2 && s.pos >= 0
    && (s.saved == 0 || (256 <= s.saved < 512 && s.at <= s.size))
    && Restored(s).buf[..s.end] == [0] + content
  }

  function Restored(s: Stream): Stream {
    if s.saved == 0 || s.at >= |s.buf| then s
    else s.(buf := s.buf[s.at := s.saved % 256], saved := 0)
  }

  /** The bytes that reads have yet to return. */
  function Unread(s: Stream): seq<byte> {
    if 0 <= s.pos <= s.end <= |s.buf| then s.buf[s.pos..s.end] else []
  }

  /** A pushed-back byte that differs from the content is still unread. */
  predicate Pending(s: Stream) {
    s.saved != 0 && s.pos <= s.at
  }

  /* ----- the operations as functions of the state ----- */

  function Take(s: Stream, n: nat): Stream
    requires n <= |Unread(s)|
  {
    s.(pos := s.pos + n)
  }

  /** A patch already read is undone before a byte is pushed back. */
  function Unpatched(s: Stream): Stream {
    if s.saved != 0 && s.pos > s.at then Restored(s) else s
  }

  function Patched(s: Stream, i: nat, c: byte): Stream
    requires i < |s.buf|
  {
    s.(saved := 256 + (s.buf[i] as int), at := i, buf := s.buf[i := c])
  }

  function Back(s: Stream): Stream {
    s.(pos := s.pos - 1, eof := false)
  }

  function UngetStep(s: Stream, c: byte): (Stream, bool)
    requires |s.buf| == s.end + 1 && s.pos >= 0
  {
    if s.pos <= 0 || s.pos > s.end then (s, false)
    else
      var r := Unpatched(s);
      if r.buf[s.pos - 1] == c then (Back(r), true)
      else if r.saved != 0 then (s, false)
      else (Back(Patched(r, s.pos - 1, c)), true)
  }

  function SeekTarget(s: Stream, offset: int, whence: Whence): int {
    match whence
    case Set => offset
    case Cur => s.pos - (s.end - s.size) + offset
    case End => s.size + offset
    case Other => -1
  }

  function SeekStep(s: Stream, offset: int, whence: Whence): (Stream, int) {
    var target := SeekTarget(s, offset, whence);
    if target < 0 then (s, -1) else (Restored(s).(pos := s.end - s.size + target), target)
  }

  /* ----- what each operation keeps and promises ----- */

  lemma Shape(s: Stream, content: seq<byte>)
    requires Inv(s, content)
    ensures |s.buf| == s.end + 1 && s.pos >= 0 && s.end == 1 + |content| && s.size == |content|
  {
  }

  /** Undoing a patch that has been read does not touch the unread bytes. */
  lemma UnpatchedKeeps(s: Stream, content: seq<byte>)
    requires Inv(s, content)
    ensures var r := Unpatched(s);
            Inv(r, content) && Unread(r) == Unread(s) && r.pos == s.pos && r.end == s.end
            && (r.saved != 0 <==> Pending(s)) && (r.saved != 0 ==> r == s)
  {
    assert Restored(Restored(s)).buf == Restored(s).buf;
  }

  lemma BackKeeps(s: Stream, content: seq<byte>)
    requires Inv(s, content) && 0 < s.pos <= s.end
    ensures Inv(Back(s), content) && Unread(Back(s)) == [s.buf[s.pos - 1]] + Unread(s)
  {
    assert Restored(Back(s)).buf == Restored(s).buf;
  }

  lemma PatchedKeeps(s: Stream, c: byte, content: seq<byte>)
    requires Inv(s, content) && 0 < s.pos <= s.end && s.saved == 0
    ensures var t := Patched(s, s.pos - 1, c);
            Inv(t, content) && Unread(t) == Unread(s) && t.pos == s.pos && t.end == s.end && t.buf[s.pos - 1] == c
  {
    var i := s.pos - 1;
    var t := Patched(s, i, c);
    assert t.saved % 256 == s.buf[i];
    assert t.buf[i := s.buf[i]] == s.buf;
  }

  /** Pushing back: [c] goes in front of the unread bytes, or nothing changes. It
      fails only outside the buffer or over a differing byte already pending. */
  lemma UngetPrepends(s: Stream, c: byte, content: seq<byte>)
    requires Inv(s, content)
    ensures |s.buf| == s.end + 1
    ensures var (t, ok) := UngetStep(s, c);
            Inv(t, content) && (ok ==> Unread(t) == [c] + Unread(s) && t.pos == s.pos - 1 && !t.eof) && (!ok ==> t == s)
    ensures UngetStep(s, c).1 <==> 0 < s.pos <= s.end && (!Pending(s) || s.buf[s.pos - 1] == c)
  {
    hide Restored, Unpatched, Patched, Inv, Unread, Pending;
    Shape(s, content);
    if 0 < s.pos <= s.end {
      var r := Unpatched(s);
      UnpatchedKeeps(s, content);
      Shape(r, content);
      BackKeeps(r, content);
      if r.saved == 0 {
        var p := Patched(r, s.pos - 1, c);
        PatchedKeeps(r, c, content);
        Shape(p, content);
        BackKeeps(p, content);
      }
    }
  }

  /** ISO C guarantees one pushback; it works at the very start of a file too. */
  lemma FirstPushbackSucceeds(s: Stream, c: byte, content: seq<byte>)
    requires Inv(s, content) && s.saved == 0
    requires s.end - s.size <= s.pos <= s.end
    ensures UngetStep(s, c).1
  {
    UngetPrepends(s, c, content);
  }

  lemma TakeKeeps(s: Stream, n: nat, content: seq<byte>)
    requires Inv(s, content) && n <= |Unread(s)|
    ensures Inv(Take(s, n), content)
    ensures Unread(s) == Unread(s)[..n] + Unread(Take(s, n)) && Unread(Take(s, n)) == Unread(s)[n..]
  {
    assert Restored(Take(s, n)).buf == Restored(s).buf;
  }

  lemma TakenIs(s: Stream, n: nat)
    requires 0 < n <= |Unread(s)|
    ensures 0 <= s.pos && s.pos + n <= s.end <= |s.buf| && s.buf[s.pos..s.pos + n] == Unread(s)[..n]
  {
  }

  /** A successful seek brings the content back byte for byte; a failed one changes nothing. */
  lemma SeekRestores(s: Stream, offset: int, whence: Whence, content: seq<byte>)
    requires Inv(s, content)
    ensures var (t, r) := SeekStep(s, offset, whence);
            Inv(t, content) &&
            if r < 0 then t == s
            else t.saved == 0 && t.buf[1..t.end] == content
                 && Unread(t) == if r <= |content| then content[r..] else []
  {
    var (t, r) := SeekStep(s, offset, whence);
    if r >= 0 {
      assert t.buf == Restored(s).buf;
      var b := t.buf[..t.end];
      assert b == [0] + content;
      assert t.buf[1..t.end] == b[1..] == content;
      if r <= |content| { assert t.buf[1 + r..t.end] == b[1..][r..]; }
    }
  }

  /** Where a seek goes: to the offset, to the offset from the end of the content, or from the
      current position, which counts the bytes read while it is within the content. A seek before
      the start, or from nowhere, is refused; asking for the position afterwards gives the answer. */
  lemma SeekAnswers(s: Stream, offset: int, whence: Whence, content: seq<byte>)
    requires Inv(s, content)
    ensures var (t, r) := SeekStep(s, offset, whence);
            && (whence.Set? ==> r == if offset < 0 then -1 else offset)
            && (whence.End? ==> r == if |content| + offset < 0 then -1 else |content| + offset)
            && (whence.Cur? ==> r == if s.pos - 1 + offset < 0 then -1 else s.pos - 1 + offset)
            && (whence.Other? ==> r == -1)
            && (r >= 0 ==> t.pos == r + 1 && SeekStep(t, 0, Cur).1 == r)
            && t.eof == s.eof && t.bad == s.bad
    ensures 1 <= s.pos <= s.end ==> s.pos - 1 == |content| - |Unread(s)|
  {
  }

  /** What the buffer shows of the content: all of it but the patched byte. */
  lemma Shows(s: Stream, content: seq<byte>)
    requires Inv(s, content)
    ensures s.buf[1..s.end] == if s.saved == 0 || s.at == 0 then content else content[s.at - 1 := s.buf[s.at]]
  {
    var b := Restored(s).buf;
    assert b[..s.end][1..] == content;
    assert b[..s.end][1..] == b[1..s.end];
  }

  /** Pushing the bytes of `d` back, last one first. */
  function Pushback(s: Stream, d: seq<byte>): (Stream, bool)
    requires |s.buf| == s.end + 1 && s.pos >= 0
    decreases |d|
  {
    if d == [] then (s, true)
    else
      var (t, ok) := UngetStep(s, d[|d| - 1]);
      if ok then Pushback(t, d[..|d| - 1]) else (s, false)
  }

  /** At most one unread byte differs from the content, and it is the patched one. */
  lemma BelowPatch(s: Stream, i: nat, content: seq<byte>)
    requires Inv(s, content) && i < s.end && (s.saved == 0 || i != s.at)
    ensures s.buf[i] == ([0] + content)[i]
  {
    assert Restored(s).buf[i] == Restored(s).buf[..s.end][i];
  }

  /** Bytes just read can be pushed back in reverse: it always succeeds, and the
      unread bytes are again what they were. */
  lemma {:induction false} ReadThenPushBack(s: Stream, k: nat, content: seq<byte>)
    requires Inv(s, content) && k <= |Unread(s)|
    ensures var (t, ok) := Pushback(Take(s, k), Unread(s)[..k]);
            ok && Inv(t, content) && t.pos == s.pos && Unread(t) == Unread(s)
  {
    TakeKeeps(s, k, content);
    assert Unread(Take(s, k)) == Unread(s)[k..];
    PushBackFrom(s, Take(s, k), k, content);
  }

  lemma UngetMoves(s: Stream, c: byte)
    requires |s.buf| == s.end + 1 && s.pos >= 0 && UngetStep(s, c).1
    ensures var t := UngetStep(s, c).0; t.pos == s.pos - 1 && t.end == s.end && t.size == s.size
  {
  }

  /** Where a patch comes from: it was there, or the byte pushed differs from the content. */
  lemma PatchOrigin(s: Stream, c: byte, content: seq<byte>)
    requires Inv(s, content) && 0 < s.pos <= s.end
    ensures var t := UngetStep(s, c).0;
            t.saved != 0 ==> (s.saved != 0 && t.at == s.at) || (t.at == s.pos - 1 && c != ([0] + content)[s.pos - 1])
  {
    var r := Unpatched(s);
    UnpatchedKeeps(s, content);
    if r.saved == 0 { BelowPatch(r, s.pos - 1, content); }
  }

  /** `t` is `s` with `k` bytes read and not yet pushed back. A patch in `t`
      is where `s` had one. */
  ghost predicate Rewinding(s: Stream, t: Stream, k: nat, content: seq<byte>) {
    && Inv(s, content) && Inv(t, content) && t.pos == s.pos + k && t.end == s.end
    && k <= |Unread(s)| && Unread(t) == Unread(s)[k..]
    && (t.saved != 0 ==> s.saved != 0 && t.at == s.at)
  }

  lemma PushOne(s: Stream, t: Stream, k: nat, content: seq<byte>)
    requires Rewinding(s, t, k, content) && k > 0
    ensures var (t', ok) := UngetStep(t, Unread(s)[k - 1]); ok && Rewinding(s, t', k - 1, content)
  {
    hide UngetStep, Restored;
    var i := s.pos + k - 1;
    var c := Unread(s)[k - 1];
    assert c == s.buf[i];
    if s.saved == 0 || s.at != i { BelowPatch(s, i, content); }
    if t.saved == 0 || t.at != i { BelowPatch(t, i, content); }
    UngetPrepends(t, c, content);
    PatchOrigin(t, c, content);
    UngetMoves(t, c);
    assert [c] + Unread(s)[k..] == Unread(s)[k - 1..];
  }

  lemma {:induction false} PushBackFrom(s: Stream, t: Stream, k: nat, content: seq<byte>)
    requires Rewinding(s, t, k, content)
    ensures var (u, ok) := Pushback(t, Unread(s)[..k]);
            ok && Inv(u, content) && u.pos == s.pos && Unread(u) == Unread(s)
    decreases k
  {
    assert |t.buf| == t.end + 1 && t.pos >= 0;
    hide UngetStep, Restored, Unread, Inv;
    if k > 0 {
      var d := Unread(s)[..k];
      PushOne(s, t, k, content);
      assert d[..k - 1] == Unread(s)[..k - 1] && d[k - 1] == Unread(s)[k - 1];
      PushBackFrom(s, UngetStep(t, d[k - 1]).0, k - 1, content);
    }
  }
}
