/** An open virtual stream: the EFILE structure and the calls that read it,
    reposition it and push bytes back. */
module EmbedFile {
  import opened ByteRuns
  import opened Octets
  import opened EmbedStream

  class EFile {
    ghost const content: seq<byte>
    var buf: array<byte>
    var pos: int
    var end: nat
    var size: nat
    var saved: nat
    var at: nat
    var eof: bool
    var bad: bool

    ghost function View(): Stream
      reads this, buf
    {
      Stream(buf[..], pos, end, size, saved, at, eof, bad)
    }

    /** The unread bytes. */
    ghost function U(): seq<byte>
      reads this, buf
    {
      Unread(View())
    }

    ghost predicate Valid()
      reads this, buf
    {
      Inv(View(), content) && size + 2 <= SIZE_MAX
    }

    /** Opens a stream on the decompressed bytes of an entry. */
    constructor (bytes: seq<byte>)
      requires |bytes| + 2 <= SIZE_MAX
      ensures Valid() && fresh(buf) && content == bytes && U() == bytes && saved == 0 && !eof
    {
      content := bytes;
      buf := new byte[|bytes| + 2](i => if 0 < i <= |bytes| then bytes[i - 1] else 0);
      pos, end, size := 1, 1 + |bytes|, |bytes|;
      saved, at, eof, bad := 0, 0, false, false;
      new;
      assert buf[..end] == [0] + bytes;
      assert buf[1..end] == bytes;
    }

    method Avail() returns (n: nat)
      requires Valid()
      ensures n == |U()| < SIZE_MAX
    {
      n := if pos < end then end - pos else 0;
    }

    method UngetRestore()
      requires Valid()
      modifies this`saved, buf
      ensures Valid() && View() == Restored(old(View()))
    {
      RestoredValid(View(), content);
      if saved != 0 {
        buf[at] := saved % 256;
        saved := 0;
      }
    }

    /** ungetc(): on success the byte is in front of the unread ones; a failure
        changes nothing. */
    method Ungetc(c: byte) returns (ok: bool)
      requires Valid()
      modifies this`pos, this`saved, this`at, this`eof, buf
      ensures Valid() && (View(), ok) == UngetStep(old(View()), c)
      ensures ok ==> U() == [c] + old(U())
      ensures !ok ==> View() == old(View())
    {
      ghost var s := View();
      UngetPrepends(s, c, content);
      if pos <= 0 || pos > end { return false; }
      UnpatchedKeeps(s, content);
      if saved != 0 && pos > at { UngetRestore(); }
      assert View() == Unpatched(s);
      hide Restored, Inv, Unread, Unpatched, Patched, UngetStep, Back, Pending;
      UngetCases(s, c);
      var i := pos - 1;
      if buf[i] != c {
        if saved != 0 { return false; }
        Overwrite(i, c);
      }
      pos := i;
      eof := false;
      return true;
    }

    method Overwrite(i: nat, c: byte)
      requires i < buf.Length
      modifies this`saved, this`at, buf
      ensures View() == Patched(old(View()), i, c)
    {
      saved := 256 + (buf[i] as int);
      at := i;
      buf[i] := c;
    }

    /** lseek(): any position from 0 on, past the end too. */
    method VirtualSeek(offset: int, whence: Whence) returns (r: int)
      requires Valid()
      modifies this`pos, this`saved, buf
      ensures Valid() && (View(), r) == SeekStep(old(View()), offset, whence)
      ensures r < 0 ==> View() == old(View())
      ensures r >= 0 ==> U() == if r <= |content| then content[r..] else []
      ensures r >= 0 ==> buf[1..end] == content && pos == r + 1
      ensures whence == Set ==> r == if offset < 0 then -1 else offset
      ensures whence == End ==> r == if |content| + offset < 0 then -1 else |content| + offset
      ensures whence == Cur ==> r == if old(pos) - 1 + offset < 0 then -1 else old(pos) - 1 + offset
      ensures whence == Cur && 1 <= old(pos) <= end ==>
                var target := (|content| - |old(U())|) + offset; r == if target < 0 then -1 else target
      ensures whence == Other ==> r == -1
    {
      SeekRestores(View(), offset, whence, content);
      SeekAnswers(View(), offset, whence, content);
      var target;
      match whence {
        case Set => target := offset;
        case Cur => target := pos - (end - size) + offset;
        case End => target := size + offset;
        case Other => return -1;
      }
      if target < 0 { return -1; }
      ghost var s := View();
      UngetRestore();
      pos := end - size + target;
      assert View() == SeekStep(s, offset, whence).0;
      return target;
    }

    method Rewind()
      requires Valid()
      modifies this`pos, this`saved, this`eof, this`bad, buf
      ensures Valid() && U() == content && buf[1..end] == content && !eof && !bad
    {
      SeekRestores(View(), 0, Set, content);
      ghost var s := View();
      UngetRestore();
      pos := end - size;
      eof, bad := false, false;
      assert View() == SeekStep(s, 0, Set).0.(eof := false, bad := false);
    }

    method Fgetc() returns (c: int)
      requires Valid()
      modifies this`pos, this`eof
      ensures Valid() && buf[..] == old(buf[..])
      ensures if old(U()) == [] then c == -1 && eof && U() == []
              else c == old(U())[0] && U() == old(U())[1..] && eof == old(eof)
    {
      var n := Avail();
      if n == 0 {
        eof := true;
        assert Restored(View()).buf == Restored(old(View())).buf;
        return -1;
      }
      TakeKeeps(View(), 1, content);
      c := buf[pos];
      pos := pos + 1;
      assert View() == Take(old(View()), 1);
    }

    /** Copies out unread bytes and moves past them. */
    method Consume(n: nat) returns (data: seq<byte>)
      requires Valid() && n <= |U()|
      modifies this`pos
      ensures Valid() && buf[..] == old(buf[..])
      ensures data == old(U())[..n] && U() == old(U())[n..]
    {
      TakeKeeps(View(), n, content);
      data := [];
      if n > 0 {
        TakenIs(View(), n);
        data := buf[pos..pos + n];
        assert data == buf[..][pos..pos + n];
      }
      hide Inv, Unread, Restored;
      pos := pos + n;
      assert View() == Take(old(View()), n);
    }

    method SetEof()
      requires Valid()
      modifies this`eof
      ensures Valid() && U() == old(U()) && eof
    {
      eof := true;
      assert Restored(View()).buf == Restored(old(View())).buf;
    }

    /** read(): what is left, up to `count` bytes. */
    method Read(count: nat) returns (data: seq<byte>)
      requires Valid()
      modifies this`pos
      ensures Valid() && buf[..] == old(buf[..])
      ensures var n := Min(count, |old(U())|); data == old(U())[..n] && U() == old(U())[n..]
    {
      hide Inv, Unread, Restored, Valid, U, View;
      var n := Avail();
      if count < n { n := count; }
      data := Consume(n);
    }

    /** The next buffer of a vectored read that began with `u` unread. */
    method NextPiece(len: nat, done: nat, ghost u: seq<byte>) returns (piece: seq<byte>)
      requires Valid() && done <= |u| && U() == u[done..]
      modifies this`pos
      ensures Valid() && buf[..] == old(buf[..])
      ensures |piece| == Min(len, |u| - done) && piece == u[done..][..|piece|] && U() == u[done + |piece|..]
    {
      hide Inv, Unread, Restored, Valid, U, View;
      var left := Avail();
      var n := Min(len, left);
      piece := Consume(n);
      JoinTaken(u, done, n);
    }

    /** readv(): fills one buffer after the other and stops at the first short one.
        Together they are one read of the sum of the lengths. */
    method Readv(lens: seq<nat>) returns (pieces: seq<seq<byte>>, total: nat)
      requires Valid()
      modifies this`pos
      ensures Valid() && buf[..] == old(buf[..])
      ensures pieces == Pieces(lens, old(U())) && total == Min(Sum(lens), |old(U())|)
      ensures Concat(pieces) == old(U())[..total] && U() == old(U())[total..]
    {
      hide Inv, Unread, Restored, Valid, U, View, Pieces, Sum, Concat;
      ghost var u := U();
      PiecesJoin(lens, u);
      NoPieces(lens, u);
      pieces, total := [], 0;
      var i := 0;
      var more := true;
      while more && i < |lens|
        invariant Valid() && buf[..] == old(buf[..]) && 0 <= i <= |lens| && total <= |u|
        invariant U() == u[total..] && Concat(pieces) == u[..total]
        invariant Pieces(lens, u) == if more then pieces + Pieces(lens[i..], U()) else pieces
        decreases |lens| - i
      {
        PiecesStep(lens, i, u[total..], pieces);
        var piece := NextPiece(lens[i], total, u);
        var n := |piece|;
        ConcatSnoc(pieces, piece);
        JoinTaken(u, total, n);
        pieces := pieces + [piece];
        total := total + n;
        more := n >= lens[i];
        i := i + 1;
      }
      if more { LastPieces(lens, i, pieces, U()); }
      SameLength(u, total, Min(Sum(lens), |u|));
    }

    /** pread(): reads at an offset and leaves the position alone. A byte that was pushed back
        over the content is what it shows there. */
    method Pread(count: nat, offset: int) returns (data: seq<byte>, r: int)
      requires Valid()
      ensures offset < 0 ==> r == -1 && data == []
      ensures offset >= 0 ==> r == |data| && |data| == if offset >= |content| then 0 else Min(count, |content| - offset)
      ensures 0 <= offset < |content| ==> data == buf[1..end][offset..offset + |data|]
      ensures buf[1..end] == if saved == 0 || at == 0 then content else content[at - 1 := buf[at]]
    {
      Shows(View(), content);
      assert buf[..][1..end] == buf[1..end];
      if offset < 0 { return [], -1; }
      if offset >= size { return [], 0; }
      var n := size - offset;
      if count < n { n := count; }
      data := buf[end - size + offset..end - size + offset + n];
      Sliced(buf[..], 1, end, offset, n);
      return data, n;
    }

    /** preadv(): the same for several buffers, together one pread of the sum of the lengths. */
    method Preadv(lens: seq<nat>, offset: int) returns (pieces: seq<seq<byte>>, total: int)
      requires Valid()
      ensures offset < 0 ==> total == -1 && pieces == []
      ensures offset >= |content| ==> total == 0 && pieces == []
      ensures 0 <= offset < |content| ==>
                pieces == Pieces(lens, buf[1..end][offset..]) && total == Min(Sum(lens), |content| - offset)
                && Concat(pieces) == buf[1..end][offset..offset + total]
      ensures buf[1..end] == if saved == 0 || at == 0 then content else content[at - 1 := buf[at]]
    {
      Shows(View(), content);
      assert buf[..][1..end] == buf[1..end];
      if offset < 0 { return [], -1; }
      if offset >= size { return [], 0; }
      ghost var b := buf[1..end];
      assert buf[1 + offset..end] == b[offset..];
      pieces, total := Scatter(buf[end - size + offset..end], lens);
      assert b[offset..][..total] == b[offset..offset + total];
    }

    /** fread(): takes as many of the unread bytes as asked for and returns the
        number of whole items, even where the product overflows. */
    method Fread(itemSize: nat, count: nat) returns (data: seq<byte>, items: nat)
      requires Valid() && itemSize <= SIZE_MAX && count <= SIZE_MAX
      modifies this`pos, this`eof
      ensures Valid() && buf[..] == old(buf[..])
      ensures var n := Min(Bytes(itemSize, count), |old(U())|); data == old(U())[..n] && U() == old(U())[n..]
      ensures if itemSize == 0 then items == 0 else Bytes(items, itemSize) <= |data| < Bytes(items + 1, itemSize)
      ensures eof == (old(eof) || |old(U())| < Bytes(itemSize, count))
    {
      hide Inv, Unread, Restored, Bytes, Want, WholeItems, Valid, U, View;
      if itemSize == 0 || count == 0 {
        NoBytes(itemSize, count);
        return [], 0;
      }
      var avail := Avail();
      var want := Want(itemSize, count);
      WantIs(itemSize, count);
      if avail < want {
        data := Consume(avail);
        SetEof();
        items := WholeItems(avail, itemSize);
        Whole(avail, itemSize);
      } else {
        data := Consume(want);
        items := count;
        Exact(itemSize, count);
      }
    }

    /** Moves the next unread byte of `u` to the end of the line, and tells if the
        line goes on after it. */
    method AddByte(line: seq<byte>, num: int, ghost u: seq<byte>) returns (longer: seq<byte>, more: bool)
      requires Valid() && num > 1 && |line| < LineLen(u, num - 1) && line == u[..|line|] && U() == u[|line|..]
      modifies this`pos, this`eof
      ensures Valid() && buf[..] == old(buf[..])
      ensures longer == u[..|line| + 1] && U() == u[|line| + 1..]
      ensures more == (|longer| < LineLen(u, num - 1))
      ensures eof == (old(eof) || Broken(u, longer, num - 1))
    {
      hide Inv, Unread, Restored, LineLen, Valid, U, View;
      LineGoesOn(u, num - 1, |line|);
      Shift(u, |line|);
      var c := Consume(1);
      longer := line + c;
      if longer[|longer| - 1] == NEWLINE { return longer, false; }
      if |longer| == num - 1 { return longer, false; }
      var left := Avail();
      if left == 0 { SetEof(); }
      more := left != 0;
    }

    /** fgets(): a line of at most num - 1 bytes. */
    method Fgets(num: int) returns (line: seq<byte>, got: bool)
      requires Valid()
      modifies this`pos, this`eof
      ensures Valid() && buf[..] == old(buf[..])
      ensures got == (num > 1 && old(U()) != [])
      ensures line == if num > 1 then old(U())[..LineLen(old(U()), num - 1)] else []
      ensures U() == old(U())[|line|..]
      ensures eof == (old(eof) || (num > 1 && Broken(old(U()), line, num - 1)))
    {
      line := [];
      if num <= 1 { return line, false; }
      hide Inv, Unread, Restored, LineLen, Valid, U, View;
      ghost var u := U();
      ghost var k := LineLen(u, num - 1);
      LineStarts(u, num - 1);
      var avail := Avail();
      if avail == 0 {
        SetEof();
        return line, false;
      }
      var more := true;
      while more
        invariant Valid() && buf[..] == old(buf[..])
        invariant |line| <= k && line == u[..|line|] && U() == u[|line|..]
        invariant more == (|line| < k)
        invariant eof == (old(eof) || Broken(u, line, num - 1))
        decreases k - |line|
      {
        line, more := AddByte(line, num, u);
      }
      return line, true;
    }

    /** realloc() to twice the size. */
    method Grow(line: array<byte>, n: nat) returns (bigger: array<byte>)
      requires n <= line.Length
      ensures fresh(bigger) && bigger.Length == 2 * n && bigger[..n] == line[..n]
    {
      bigger := new byte[2 * n](i => 0);
      forall i | 0 <= i < n { bigger[i] := line[i]; }
    }

    /** Stores a byte, with room for one more, if memory gives it. */
    method Put(line: array<byte>, cap: nat, i: nat, c: byte, room: nat)
      returns (ok: bool, bigger: array<byte>, cap': nat)
      requires i < cap <= line.Length
      modifies line
      ensures ok == (i + 1 < cap || 2 * cap <= room)
      ensures cap' == (if i + 1 < cap || !ok then cap else 2 * cap) <= bigger.Length
      ensures bigger == line || fresh(bigger)
      ensures bigger[..i] == old(line[..i]) && (ok ==> bigger[..i + 1] == old(line[..i]) + [c])
    {
      ok, bigger, cap' := true, line, cap;
      if i + 1 >= cap {
        if 2 * cap > room { return false, line, cap; }
        bigger := Grow(line, cap);
        cap' := cap * 2;
      }
      bigger[i] := c;
    }

    /** One byte of the line `u[..k]`, the i-th, read and stored; -1 when there is none. */
    method ReadInto(line: array<byte>, cap: nat, i: nat, room: nat, ghost u: seq<byte>, ghost k: nat)
      returns (c: int, ok: bool, bigger: array<byte>, cap': nat)
      requires Valid() && line != buf && i < cap <= line.Length && i <= k && (i < k || i == |u|)
      requires k == LineLen(u, |u|) && U() == u[i..] && line[..i] == u[..i]
      modifies this`pos, this`eof, line
      ensures Valid() && buf[..] == old(buf[..]) && (bigger == line || fresh(bigger)) && bigger != buf
      ensures cap <= cap' <= bigger.Length && Grown(cap', k, room) == Grown(cap, k, room)
      ensures c == -1 ==> i == |u| && U() == u[i..] && cap' == cap && bigger[..i] == u[..i]
      ensures c != -1 ==> i < k && c == u[i] as int && U() == u[i + 1..] && ok == (i + 1 < cap || 2 * cap <= room)
      ensures c != -1 && ok ==> i + 1 < cap' && bigger[..i + 1] == u[..i + 1]
      ensures c != -1 && !ok ==> cap' == cap == i + 1 == Grown(cap, k, room) && bigger[..i] == u[..i]
    {
      hide Inv, Unread, Restored, LineLen, Valid, U, View, Grown;
      ok, bigger, cap' := true, line, cap;
      c := Fgetc();
      if c != -1 {
        Shift(u, i);
        GrownStep(cap, k, room);
        ok, bigger, cap' := Put(line, cap, i, c, room);
      }
    }

    /** The caller's buffer, or a new one if there is none. */
    method FirstBuffer(line: array?<byte>, n: nat) returns (data: array<byte>, cap: nat)
      requires line != null ==> n <= line.Length
      ensures (data == line || fresh(data)) && cap == (if line == null || n == 0 then 128 else n) <= data.Length
    {
      if line == null || n == 0 {
        data := new byte[128](i => 0);
        return data, 128;
      }
      return line, n;
    }

    /** Reads the next line into a buffer of `n` bytes, which doubles as the line grows. */
    method FillLine(first: array<byte>, n: nat, room: nat) returns (r: int, data: array<byte>, cap: nat)
      requires Valid() && 0 < n <= first.Length && first != buf
      modifies this`pos, this`eof, first
      ensures Valid() && buf[..] == old(buf[..]) && (data == first || fresh(data))
      ensures var k := LineLen(old(U()), |old(U())|);
              && cap == Grown(n, k, room) <= data.Length && U() == old(U())[if k < cap then k else cap..]
              && (if k < cap && k > 0 then r == k && data[..k] == old(U())[..k] && data[k] == 0
                  else r == -1 && (k >= cap ==> data[..cap - 1] == old(U())[..cap - 1]))
    {
      hide Inv, Unread, Restored, LineLen, Valid, U, View, Grown;
      ghost var u := U();
      ghost var k := LineLen(u, |u|);
      LineLenIs(u, |u|);
      data, cap := first, n;
      var i := 0;
      while true
        invariant Valid() && buf[..] == old(buf[..])
        invariant data != buf && (data == first || fresh(data)) && 0 < cap <= data.Length
        invariant i <= k && i < cap && U() == u[i..] && data[..i] == u[..i]
        invariant i < k || i == |u|
        invariant Grown(cap, k, room) == Grown(n, k, room)
        decreases |u| - i
      {
        var c: int, ok: bool;
        c, ok, data, cap := ReadInto(data, cap, i, room, u, k);
        if c == -1 { break; }
        LineGoesOn(u, |u|, i);
        if !ok { return -1, data, cap; }
        i := i + 1;
        if c == NEWLINE { break; }
      }
      GrownStep(cap, k, room);
      if i == 0 { return -1, data, cap; }
      data[i] := 0;
      assert data[..i] == u[..i];
      return i, data, cap;
    }

    /** getline(): the next line, newline included, in a buffer that doubles as the line
        grows; -1 when nothing is unread. `room` is the largest buffer memory gives. If it
        runs out in mid-line, -1 too: as many bytes as the buffer holds have been read,
        the last of them is lost, and no final zero is written. */
    method GetLine(line: array?<byte>, n: nat, room: nat) returns (r: int, out: array?<byte>, cap: nat)
      requires Valid() && (line != null ==> n <= line.Length && line != buf)
      modifies this`pos, this`eof, line
      ensures Valid() && buf[..] == old(buf[..])
      ensures out == line || fresh(out)
      ensures var none := line == null || n == 0;
              var k := LineLen(old(U()), |old(U())|);
              if none && room < 128 then r == -1 && out == line && cap == n && U() == old(U())
              else
                && out != null && cap == Grown(if none then 128 else n, k, room) <= out.Length
                && U() == old(U())[if k < cap then k else cap..]
                && (if k < cap && k > 0 then r == k && out[..k] == old(U())[..k] && out[k] == 0
                    else r == -1 && (k >= cap ==> out[..cap - 1] == old(U())[..cap - 1]))
    {
      hide Inv, Unread, Restored, LineLen, Valid, U, View, Grown;
      if (line == null || n == 0) && room < 128 { return -1, line, n; }
      var data;
      data, cap := FirstBuffer(line, n);
      r, out, cap := FillLine(data, cap, room);
    }

    /** getline() until it answers -1: with memory for twice what is unread, all its lines
        and nothing left. */
    method ReadAllLines(room: nat) returns (lines: seq<seq<byte>>)
      requires Valid() && room >= 128 && room >= 2 * |U()|
      modifies this`pos, this`eof
      ensures Valid() && buf[..] == old(buf[..])
      ensures lines == Lines(old(U())) && U() == []
    {
      hide Inv, Unread, Restored, LineLen, Valid, View, U, Lines, Grown;
      lines := [];
      ghost var u := U();
      NoMoreLines(lines);
      var line: array?<byte> := null;
      var n: nat := 0;
      while true
        invariant Valid() && buf[..] == old(buf[..])
        invariant line == null || (fresh(line) && n <= line.Length && line != buf)
        invariant lines + Lines(U()) == Lines(u)
        invariant room >= 2 * |U()|
        decreases |U()|
      {
        ghost var v := U();
        LineLenIs(v, |v|);
        ghost var k := LineLen(v, |v|);
        GrownEnough(if line == null || n == 0 then 128 else n, k, room);
        var r: int;
        r, line, n := GetLine(line, n, room);
        if r == -1 { break; }
        OneMoreLine(lines, v);
        lines := lines + [line[..r]];
      }
      NoMoreLines(lines);
    }
  }

  /** The lines read and those still to be read, before and after the next. */
  lemma OneMoreLine(lines: seq<seq<byte>>, v: seq<byte>)
    requires v != []
    ensures var k := LineLen(v, |v|); k > 0 && lines + Lines(v) == (lines + [v[..k]]) + Lines(v[k..])
  {
    LineLenIs(v, |v|);
  }

  lemma NoMoreLines(lines: seq<seq<byte>>)
    ensures Lines([]) == [] && lines + Lines([]) == lines && forall ls: seq<seq<byte>> :: [] + ls == ls
  {
    assert Lines([]) == [];
  }

  /** What a pushback inside the buffer comes to. */
  lemma UngetCases(s: Stream, c: byte)
    requires |s.buf| == s.end + 1 && 0 < s.pos <= s.end
    ensures var r := Unpatched(s);
            |r.buf| == |s.buf| && r.pos == s.pos
            && (r.buf[s.pos - 1] == c ==> UngetStep(s, c) == (r.(pos := s.pos - 1, eof := false), true))
            && (r.buf[s.pos - 1] != c && r.saved != 0 ==> UngetStep(s, c) == (s, false))
            && (r.buf[s.pos - 1] != c && r.saved == 0 ==>
                  UngetStep(s, c) == (Patched(r, s.pos - 1, c).(pos := s.pos - 1, eof := false), true))
  {
  }

  lemma RestoredValid(s: Stream, content: seq<byte>)
    requires Inv(s, content)
    ensures Inv(Restored(s), content)
  {
  }
}
