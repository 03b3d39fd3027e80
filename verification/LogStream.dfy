/** The text stream in front of the Android log: text is split into lines, lines
    into chunks, and chunks are joined into payloads of bounded size. */
module LogStream {
  import opened Octets
  import Logcat

  const MAX_BYTES_PER_WRITE := 4000
  const MAX_CHARS_PER_WRITE := MAX_BYTES_PER_WRITE / 4

  type Char = x: int | 0 <= x < 0x11_0000
  type Bytes = seq<byte>
  type Text = seq<Char>
  type Encoding = Char -> Bytes

  const LF: Char := 10
  const CR: Char := 13

  /** The line boundaries of str.splitlines(). */
  predicate IsBoundary(c: Char) {
    10 <= c <= 13 || 0x1c <= c <= 0x1e || c == 0x85 || c == 0x2028 || c == 0x2029
  }

  /** Length of the first line, its boundary included; "\r\n" is one boundary. */
  function LineLength(s: Text): (n: nat)
    requires s != []
    ensures 0 < n <= |s|
  {
    if s[0] == CR && |s| > 1 && s[1] == LF then 2
    else if IsBoundary(s[0]) || |s| == 1 then 1
    else 1 + LineLength(s[1..])
  }

  function SplitLines(s: Text): seq<Text>
    decreases |s|
  {
    if s == [] then [] else [s[..LineLength(s)]] + SplitLines(s[LineLength(s)..])
  }

  function Chunks(line: Text): seq<Text>
    decreases |line|
  {
    if line == [] then []
    else if |line| <= MAX_CHARS_PER_WRITE then [line]
    else [line[..MAX_CHARS_PER_WRITE]] + Chunks(line[MAX_CHARS_PER_WRITE..])
  }

  function AllChunks(lines: seq<Text>): seq<Text> {
    if lines == [] then [] else Chunks(lines[0]) + AllChunks(lines[1..])
  }

  function Encode(enc: Encoding, s: Text): Bytes {
    if s == [] then [] else enc(s[0]) + Encode(enc, s[1..])
  }

  function Join(bs: seq<Bytes>): Bytes {
    if bs == [] then [] else bs[0] + Join(bs[1..])
  }

  /** What the encodings in use guarantee about newlines: U+000A is the byte 10, and
      no other character has that byte. */
  ghost predicate NewlineSafe(enc: Encoding) {
    enc(LF) == [10] && forall c: Char :: c != LF ==> 10 !in enc(c)
  }

  /* ----- the stream as a function of the chunks written ----- */

  /** `sent` are the payloads handed to the log, none of them empty. */
  datatype State = State(sent: seq<Bytes>, pending: Bytes)

  function Flushed(t: State): State {
    State(if t.pending == [] then t.sent else t.sent + [t.pending], [])
  }

  predicate EndsLine(b: Bytes) {
    b != [] && b[|b| - 1] == 10
  }

  function ChunkStep(through: bool, b: Bytes, t: State): State {
    var u := if |t.pending| + |b| > MAX_BYTES_PER_WRITE then Flushed(t) else t;
    var v := u.(pending := u.pending + b);
    if through || EndsLine(b) || |v.pending| > MAX_BYTES_PER_WRITE then Flushed(v) else v
  }

  function Run(through: bool, enc: Encoding, chunks: seq<Text>, t: State): State
    decreases |chunks|
  {
    if chunks == [] then t else Run(through, enc, chunks[1..], ChunkStep(through, Encode(enc, chunks[0]), t))
  }

  class TextLogStream {
    const writeThrough: bool
    const enc: Encoding
    var pendingBytes: seq<Bytes>
    var pendingCount: nat
    var sent: seq<Bytes>

    ghost predicate Valid()
      reads this
    {
      pendingCount == |Join(pendingBytes)|
    }

    ghost function View(): State
      reads this
    {
      State(sent, Join(pendingBytes))
    }

    constructor (enc: Encoding, writeThrough: bool)
      ensures Valid() && View() == State([], []) && this.enc == enc && this.writeThrough == writeThrough
    {
      this.enc, this.writeThrough := enc, writeThrough;
      pendingBytes, pendingCount, sent := [], 0, [];
    }

    /** The binary stream underneath ignores empty writes. */
    method Flush()
      requires Valid()
      modifies this
      ensures Valid() && View() == Flushed(old(View()))
    {
      var b := Join(pendingBytes);
      if b != [] { sent := sent + [b]; }
      pendingBytes, pendingCount := [], 0;
    }

    method WriteChunk(s: Text)
      requires Valid()
      modifies this
      ensures Valid() && View() == ChunkStep(writeThrough, Encode(enc, s), old(View()))
    {
      var b := Encode(enc, s);
      if pendingCount + |b| > MAX_BYTES_PER_WRITE { Flush(); }
      JoinSnoc(pendingBytes, b);
      pendingBytes := pendingBytes + [b];
      pendingCount := pendingCount + |b|;
      if writeThrough || EndsLine(b) || pendingCount > MAX_BYTES_PER_WRITE { Flush(); }
    }

    method Write(s: Text) returns (n: nat)
      requires Valid()
      modifies this
      ensures Valid() && n == |s|
      ensures View() == Run(writeThrough, enc, AllChunks(SplitLines(s)), old(View()))
    {
      hide ChunkStep, Encode, SplitLines, IsBoundary, Run, Chunks, AllChunks;
      var lines := SplitLines(s);
      ghost var t := View();
      var i := 0;
      while i < |lines|
        invariant 0 <= i <= |lines| && Valid()
        invariant Run(writeThrough, enc, AllChunks(lines[i..]), View()) == Run(writeThrough, enc, AllChunks(lines), t)
      {
        var line := lines[i];
        ghost var more := AllChunks(lines[i + 1..]);
        FirstLine(lines, i);
        while line != []
          invariant Valid()
          invariant Run(writeThrough, enc, Chunks(line) + more, View()) == Run(writeThrough, enc, AllChunks(lines), t)
          decreases |line|
        {
          var n := if |line| < MAX_CHARS_PER_WRITE then |line| else MAX_CHARS_PER_WRITE;
          var chunk := line[..n];
          FirstChunk(line);
          Regroup([chunk], Chunks(line[n..]), more);
          RunNext(writeThrough, enc, chunk, Chunks(line[n..]) + more, View());
          line := line[n..];
          WriteChunk(chunk);
        }
        NoMoreChunks(more);
        i := i + 1;
      }
      NoMoreChunks(lines[i..]);
      RunNothing(writeThrough, enc, View());
      return |s|;
    }
  }

  lemma FirstLine(lines: seq<Text>, i: nat)
    requires i < |lines|
    ensures AllChunks(lines[i..]) == Chunks(lines[i]) + AllChunks(lines[i + 1..])
  {
    assert lines[i..][1..] == lines[i + 1..];
  }

  lemma RunNext(through: bool, enc: Encoding, chunk: Text, more: seq<Text>, t: State)
    ensures Run(through, enc, [chunk] + more, t) == Run(through, enc, more, ChunkStep(through, Encode(enc, chunk), t))
  {
    assert ([chunk] + more)[1..] == more;
  }

  lemma RunNothing(through: bool, enc: Encoding, t: State)
    ensures Run(through, enc, [], t) == t
  {
  }

  lemma NoMoreChunks(more: seq<Text>)
    ensures Chunks([]) + more == more && (more == [] ==> AllChunks(more) == [])
  {
  }

  lemma Regroup(a: seq<Text>, b: seq<Text>, c: seq<Text>)
    ensures (a + b) + c == a + (b + c)
  {
  }

  lemma FirstChunk(line: Text)
    requires line != []
    ensures var n := if |line| < MAX_CHARS_PER_WRITE then |line| else MAX_CHARS_PER_WRITE;
            Chunks(line) == [line[..n]] + Chunks(line[n..])
  {
    if |line| <= MAX_CHARS_PER_WRITE {
      assert line[..|line|] == line && Chunks(line[|line|..]) == [];
    }
  }

  lemma {:induction false} JoinSnoc(bs: seq<Bytes>, b: Bytes)
    ensures Join(bs + [b]) == Join(bs) + b
    decreases |bs|
  {
    if bs == [] {
      assert bs + [b] == [b];
    } else {
      assert (bs + [b])[1..] == bs[1..] + [b];
      JoinSnoc(bs[1..], b);
    }
  }

  /* ----- nothing is lost ----- */

  function Written(t: State): Bytes {
    Join(t.sent) + t.pending
  }

  lemma FlushedKeeps(t: State)
    ensures Written(Flushed(t)) == Written(t)
  {
    JoinSnoc(t.sent, t.pending);
  }

  lemma {:induction false} EncodeConcat(enc: Encoding, s: Text, t: Text)
    ensures Encode(enc, s + t) == Encode(enc, s) + Encode(enc, t)
    decreases |s|
  {
    if s == [] {
      assert s + t == t;
    } else {
      assert (s + t)[1..] == s[1..] + t;
      EncodeConcat(enc, s[1..], t);
    }
  }

  function Concat(chunks: seq<Text>): Text {
    if chunks == [] then [] else chunks[0] + Concat(chunks[1..])
  }

  lemma {:induction false} ConcatAppend(a: seq<Text>, b: seq<Text>)
    ensures Concat(a + b) == Concat(a) + Concat(b)
    decreases |a|
  {
    if a == [] {
      assert a + b == b;
    } else {
      assert (a + b)[1..] == a[1..] + b;
      ConcatAppend(a[1..], b);
    }
  }

  lemma {:induction false} ChunksWhole(line: Text)
    ensures Concat(Chunks(line)) == line
    decreases |line|
  {
    if line != [] {
      FirstChunk(line);
      var n := if |line| < MAX_CHARS_PER_WRITE then |line| else MAX_CHARS_PER_WRITE;
      ChunksWhole(line[n..]);
      assert Chunks(line)[1..] == Chunks(line[n..]);
    }
  }

  lemma {:induction false} AllChunksWhole(lines: seq<Text>)
    ensures Concat(AllChunks(lines)) == Concat(lines)
    decreases |lines|
  {
    if lines != [] {
      ChunksWhole(lines[0]);
      AllChunksWhole(lines[1..]);
      ConcatAppend(Chunks(lines[0]), AllChunks(lines[1..]));
    }
  }

  lemma {:induction false} LinesWhole(s: Text)
    ensures Concat(SplitLines(s)) == s
    decreases |s|
  {
    if s != [] {
      LinesWhole(s[LineLength(s)..]);
      assert SplitLines(s)[1..] == SplitLines(s[LineLength(s)..]);
    }
  }

  lemma {:induction false} RunKeeps(through: bool, enc: Encoding, chunks: seq<Text>, t: State)
    ensures Written(Run(through, enc, chunks, t)) == Written(t) + Encode(enc, Concat(chunks))
    decreases |chunks|
  {
    if chunks != [] {
      var b := Encode(enc, chunks[0]);
      var u := if |t.pending| + |b| > MAX_BYTES_PER_WRITE then Flushed(t) else t;
      var v := u.(pending := u.pending + b);
      FlushedKeeps(t);
      FlushedKeeps(v);
      assert Written(v) == Written(t) + b;
      RunKeeps(through, enc, chunks[1..], ChunkStep(through, b, t));
      EncodeConcat(enc, chunks[0], Concat(chunks[1..]));
    }
  }

  /** The payloads sent and the bytes pending, one after another, are the encoding
      of all the text written. */
  lemma WriteConserves(through: bool, enc: Encoding, s: Text, t: State)
    ensures Written(Run(through, enc, AllChunks(SplitLines(s)), t)) == Written(t) + Encode(enc, s)
  {
    RunKeeps(through, enc, AllChunks(SplitLines(s)), t);
    AllChunksWhole(SplitLines(s));
    LinesWhole(s);
  }

  /* ----- newlines ----- */

  /** A newline, if any, is the last element. */
  predicate NewlineLast(b: seq<int>) {
    forall i :: 0 <= i < |b| - 1 ==> b[i] != 10
  }

  /** Whether a line ends before the `i`-th character: after any of the ten characters that end
      one, but not between a carriage return and a line feed. */
  predicate BreaksAt(s: Text, i: int)
    requires 0 < i < |s|
  {
    s[i - 1] in {0x0A, 0x0B, 0x0C, 0x0D, 0x1C, 0x1D, 0x1E, 0x85, 0x2028, 0x2029}
    && !(s[i - 1] == 0x0D && s[i] == 0x0A)
  }

  lemma {:induction false} FirstBreak(s: Text)
    requires s != []
    ensures LineLength(s) < |s| ==> BreaksAt(s, LineLength(s))
    ensures forall i :: 0 < i < LineLength(s) ==> !BreaksAt(s, i)
    decreases |s|
  {
    if !(s[0] == CR && |s| > 1 && s[1] == LF) && !IsBoundary(s[0]) && |s| > 1 {
      FirstBreak(s[1..]);
      forall i | 0 < i < LineLength(s) ensures !BreaksAt(s, i) {
        if i > 1 { assert !BreaksAt(s[1..], i - 1); }
      }
    }
  }

  /** A text is cut into lines at its breaks and nowhere else. */
  lemma LinesAre(s: Text)
    requires s != []
    ensures var n := LineLength(s);
            && 0 < n <= |s| && (n < |s| ==> BreaksAt(s, n)) && (forall i :: 0 < i < n ==> !BreaksAt(s, i))
            && SplitLines(s) == [s[..n]] + SplitLines(s[n..])
  {
    FirstBreak(s);
    hide BreaksAt, LineLength;
  }

  lemma {:induction false} LineIsLine(s: Text)
    requires s != []
    ensures NewlineLast(s[..LineLength(s)])
    decreases |s|
  {
    if !IsBoundary(s[0]) && |s| > 1 {
      LineIsLine(s[1..]);
      var n := LineLength(s);
      forall i | 0 <= i < n - 1 ensures s[..n][i] != 10 {
        if i > 0 { assert s[i] == s[1..][..n - 1][i - 1]; }
      }
    }
  }

  lemma {:induction false} ChunksAreLines(line: Text)
    requires NewlineLast(line)
    ensures forall c :: c in Chunks(line) ==> c != [] && NewlineLast(c)
    decreases |line|
  {
    if line != [] {
      FirstChunk(line);
      var n := if |line| < MAX_CHARS_PER_WRITE then |line| else MAX_CHARS_PER_WRITE;
      ChunksAreLines(line[n..]);
    }
  }

  lemma {:induction false} AllChunksAreLines(s: Text)
    ensures forall c :: c in AllChunks(SplitLines(s)) ==> c != [] && NewlineLast(c)
    decreases |s|
  {
    if s != [] {
      var n := LineLength(s);
      LineIsLine(s);
      ChunksAreLines(s[..n]);
      AllChunksAreLines(s[n..]);
      assert SplitLines(s)[1..] == SplitLines(s[n..]);
    }
  }

  lemma {:induction false} EncodedLine(enc: Encoding, c: Text)
    requires NewlineSafe(enc) && NewlineLast(c)
    ensures NewlineLast(Encode(enc, c))
    decreases |c|
  {
    if |c| > 1 {
      EncodedLine(enc, c[1..]);
      assert c[0] != 10;
      var a, b := enc(c[0]), Encode(enc, c[1..]);
      forall i | 0 <= i < |a + b| - 1 ensures (a + b)[i] != 10 {
        if i < |a| { assert a[i] in a; }
      }
    } else if |c| == 1 {
      assert Encode(enc, c) == enc(c[0]) + [];
      if c[0] != LF {
        forall i | 0 <= i < |enc(c[0])| ensures enc(c[0])[i] != 10 { assert enc(c[0])[i] in enc(c[0]); }
      }
    }
  }

  /** What every write keeps: no newline waits, and none is inside a payload. */
  predicate LinesApart(t: State) {
    10 !in t.pending && forall p :: p in t.sent ==> p != [] && NewlineLast(p)
  }

  lemma StepApart(through: bool, b: Bytes, t: State)
    requires LinesApart(t) && NewlineLast(b)
    ensures LinesApart(ChunkStep(through, b, t))
  {
    var u := if |t.pending| + |b| > MAX_BYTES_PER_WRITE then Flushed(t) else t;
    var v := u.pending + b;
    forall i | 0 <= i < |v| - 1 ensures v[i] != 10 {
      if i < |u.pending| { assert u.pending[i] in u.pending; }
    }
    if !EndsLine(b) { NoNewline(u.pending, b); }
  }

  lemma NoNewline(a: Bytes, b: Bytes)
    requires 10 !in a && NewlineLast(b) && !EndsLine(b)
    ensures 10 !in a + b
  {
    forall x | x in a + b ensures x != 10 {
      var i :| 0 <= i < |a + b| && (a + b)[i] == x;
      if i < |a| { assert x in a; } else { assert x == b[i - |a|]; }
    }
  }

  lemma {:induction false} RunApart(through: bool, enc: Encoding, chunks: seq<Text>, t: State)
    requires NewlineSafe(enc) && LinesApart(t) && forall c :: c in chunks ==> NewlineLast(c)
    ensures LinesApart(Run(through, enc, chunks, t))
    decreases |chunks|
  {
    if chunks != [] {
      assert chunks[0] in chunks;
      EncodedLine(enc, chunks[0]);
      StepApart(through, Encode(enc, chunks[0]), t);
      forall c | c in chunks[1..] ensures NewlineLast(c) { assert c in chunks; }
      RunApart(through, enc, chunks[1..], ChunkStep(through, Encode(enc, chunks[0]), t));
    }
  }

  /** A newline byte only ever ends a payload. */
  lemma NewlineEndsPayload(through: bool, enc: Encoding, s: Text, t: State)
    requires NewlineSafe(enc) && LinesApart(t)
    ensures LinesApart(Run(through, enc, AllChunks(SplitLines(s)), t))
  {
    AllChunksAreLines(s);
    RunApart(through, enc, AllChunks(SplitLines(s)), t);
  }

  /* ----- payload sizes ----- */

  predicate Small(b: Bytes) {
    |b| <= 4000
  }

  predicate AllSmall(bs: seq<Bytes>) {
    forall b :: b in bs ==> Small(b)
  }

  lemma StepSizes(through: bool, b: Bytes, t: State)
    requires Small(t.pending)
    ensures var r := ChunkStep(through, b, t);
            Small(r.pending) && (AllSmall(r.sent) <==> AllSmall(t.sent) && Small(b))
  {
    var r := ChunkStep(through, b, t);
    if !Small(b) {
      assert b in r.sent by {
        var u := Flushed(t);
        assert u.pending + b == b;
        assert r.sent == u.sent + [b];
      }
    }
    if AllSmall(r.sent) {
      forall x | x in t.sent ensures Small(x) { assert x in r.sent; }
    }
  }

  lemma {:induction false} RunSizes(through: bool, enc: Encoding, chunks: seq<Text>, t: State)
    requires Small(t.pending)
    ensures var r := Run(through, enc, chunks, t);
            Small(r.pending)
            && (AllSmall(r.sent) <==> AllSmall(t.sent) && forall c :: c in chunks ==> Small(Encode(enc, c)))
    decreases |chunks|
  {
    if chunks != [] {
      var b := Encode(enc, chunks[0]);
      StepSizes(through, b, t);
      RunSizes(through, enc, chunks[1..], ChunkStep(through, b, t));
      if AllSmall(Run(through, enc, chunks, t).sent) {
        forall c | c in chunks ensures Small(Encode(enc, c)) {
          if c != chunks[0] { assert c in chunks[1..]; }
        }
      } else if Small(b) && AllSmall(t.sent) {
        var c :| c in chunks[1..] && !Small(Encode(enc, c));
        assert c in chunks;
      } else {
        assert chunks[0] in chunks;
      }
    }
  }

  /** What leaves the text stream stays within the limit exactly when no chunk of a thousand characters
      encodes to more than the limit. */
  lemma PayloadsFit(through: bool, enc: Encoding, s: Text, t: State)
    requires Small(t.pending) && AllSmall(t.sent)
    ensures var r := Run(through, enc, AllChunks(SplitLines(s)), t);
            && Small(r.pending)
            && (AllSmall(r.sent) <==> forall c :: c in AllChunks(SplitLines(s)) ==> Small(Encode(enc, c)))
  {
    RunSizes(through, enc, AllChunks(SplitLines(s)), t);
  }

  lemma {:induction false} EncodedSize(enc: Encoding, c: Text, k: nat)
    requires forall x :: x in c ==> |enc(x)| <= k
    ensures |Encode(enc, c)| <= k * |c|
    decreases |c|
  {
    if c != [] {
      assert c[0] in c;
      forall x | x in c[1..] ensures |enc(x)| <= k { assert x in c; }
      EncodedSize(enc, c[1..], k);
      assert k * |c| == k + k * |c[1..]|;
    }
  }

  lemma {:induction false} ChunkSizes(line: Text)
    ensures forall c :: c in Chunks(line) ==> |c| <= MAX_CHARS_PER_WRITE && forall x :: x in c ==> x in line
    decreases |line|
  {
    if |line| > MAX_CHARS_PER_WRITE { ChunkSizes(line[MAX_CHARS_PER_WRITE..]); }
  }

  /** A line is cut into chunks of 1000 characters, with what is left in the last. */
  lemma {:induction false} ChunksAre(line: Text, i: nat)
    ensures |Chunks(line)| == (|line| + 999) / 1000
    ensures i < |Chunks(line)| ==>
              Chunks(line)[i] == line[1000 * i..if 1000 * (i + 1) <= |line| then 1000 * (i + 1) else |line|]
    decreases |line|
  {
    if |line| > 1000 {
      var rest := line[1000..];
      ChunksAre(rest, if i == 0 then 0 else i - 1);
      assert Chunks(line)[1..] == Chunks(rest);
      if 0 < i < |Chunks(line)| {
        assert Chunks(line)[i] == Chunks(rest)[i - 1];
        var to := if 1000 * i <= |rest| then 1000 * i else |rest|;
        assert rest[1000 * (i - 1)..to] == line[1000 * i..1000 + to];
      }
    }
  }

  lemma {:induction false} AllChunkSizes(s: Text)
    ensures forall c :: c in AllChunks(SplitLines(s)) ==> |c| <= MAX_CHARS_PER_WRITE && forall x :: x in c ==> x in s
    decreases |s|
  {
    if s != [] {
      var n := LineLength(s);
      ChunkSizes(s[..n]);
      AllChunkSizes(s[n..]);
      assert SplitLines(s)[1..] == SplitLines(s[n..]);
    }
  }

  /* ----- message sizes ----- */

  /** The limit is on messages: on what the log is handed for each payload. */
  ghost predicate MessagesFit(sent: seq<Bytes>) {
    forall p :: p in sent ==> Small(Logcat.Payload(p))
  }

  /** A message keeps the limit if and only if its payload does with its null bytes
      counted twice, and a leading newline too. */
  lemma MessagesFitExactly(sent: seq<Bytes>)
    ensures MessagesFit(sent) <==>
            forall p :: p in sent ==> |p| + Logcat.Zeros(p) + (if At10(p) then 1 else 0) <= MAX_BYTES_PER_WRITE
  {
    forall p | p in sent
      ensures |Logcat.Payload(p)| == |p| + Logcat.Zeros(p) + (if At10(p) then 1 else 0)
    {
      Logcat.PayloadSize(p);
    }
    if !MessagesFit(sent) {
      var p :| p in sent && !Small(Logcat.Payload(p));
      assert |p| + Logcat.Zeros(p) + (if At10(p) then 1 else 0) > MAX_BYTES_PER_WRITE;
    }
  }

  predicate At10(p: Bytes) {
    p != [] && p[0] == 10
  }

  /** No payload and nothing pending has a null byte. */
  predicate NulFree(t: State) {
    0 !in t.pending && forall p :: p in t.sent ==> 0 !in p
  }

  lemma {:induction false} RunNulFree(through: bool, enc: Encoding, chunks: seq<Text>, t: State)
    requires NulFree(t) && forall c :: c in chunks ==> 0 !in Encode(enc, c)
    ensures NulFree(Run(through, enc, chunks, t))
    decreases |chunks|
  {
    if chunks != [] {
      assert chunks[0] in chunks;
      RunNulFree(through, enc, chunks[1..], ChunkStep(through, Encode(enc, chunks[0]), t));
    }
  }

  lemma {:induction false} EncodedNulFree(enc: Encoding, c: Text)
    requires forall x :: x in c ==> 0 !in enc(x)
    ensures 0 !in Encode(enc, c)
    decreases |c|
  {
    if c != [] {
      assert c[0] in c;
      forall x | x in c[1..] ensures 0 !in enc(x) { assert x in c; }
      EncodedNulFree(enc, c[1..]);
    }
  }

  lemma {:induction false} NoZeros(p: Bytes)
    requires 0 !in p
    ensures Logcat.Zeros(p) == 0
    decreases |p|
  {
    if p != [] {
      assert p[0] in p && forall x :: x in p[1..] ==> x in p;
      NoZeros(p[1..]);
    }
  }

  /** A payload without null bytes, whose only newline is its last byte, is a message
      within the limit exactly when it is itself. */
  lemma PlainMessage(p: Bytes)
    requires 0 !in p && NewlineLast(p)
    ensures Small(Logcat.Payload(p)) <==> Small(p)
  {
    Logcat.PayloadSize(p);
    NoZeros(p);
    if p != [] && p[0] == 10 { assert |p| == 1; }
  }

  /** For text without null characters, messages keep the limit if and only if no chunk
      of a thousand characters encodes to more. */
  lemma MessagesFitIff(through: bool, enc: Encoding, s: Text, t: State)
    requires NewlineSafe(enc) && forall x :: x in s ==> 0 !in enc(x)
    requires LinesApart(t) && NulFree(t) && Small(t.pending) && AllSmall(t.sent)
    ensures var r := Run(through, enc, AllChunks(SplitLines(s)), t);
            && LinesApart(r) && NulFree(r) && Small(r.pending)
            && (MessagesFit(r.sent) <==> AllSmall(r.sent))
            && (MessagesFit(r.sent) <==> forall c :: c in AllChunks(SplitLines(s)) ==> Small(Encode(enc, c)))
  {
    var r := Run(through, enc, AllChunks(SplitLines(s)), t);
    PayloadsFit(through, enc, s, t);
    NewlineEndsPayload(through, enc, s, t);
    AllChunkSizes(s);
    forall c | c in AllChunks(SplitLines(s)) ensures 0 !in Encode(enc, c) { EncodedNulFree(enc, c); }
    RunNulFree(through, enc, AllChunks(SplitLines(s)), t);
    forall p | p in r.sent ensures Small(Logcat.Payload(p)) <==> Small(p) { PlainMessage(p); }
  }

  /** What counts of some bytes: how many they are, how many are null, and whether a
      newline comes first. */
  datatype Weight = Weight(len: nat, nulls: nat, lead: bool)

  const NOTHING := Weight(0, 0, false)

  function Weigh(b: Bytes): Weight {
    Weight(|b|, Logcat.Zeros(b), At10(b))
  }

  function Heavier(u: Weight, v: Weight): Weight {
    Weight(u.len + v.len, u.nulls + v.nulls, if u.len == 0 then v.lead else u.lead)
  }

  predicate Light(w: Weight) {
    w.len + w.nulls + (if w.lead then 1 else 0) <= 4000
  }

  /** Whether every payload that the chunks complete is light, told from their weights
      alone: the payloads are made as the stream makes them, but only weighed. */
  predicate AllLight(through: bool, enc: Encoding, chunks: seq<Text>, pending: Weight)
    decreases |chunks|
  {
    chunks == [] ||
    var b := Encode(enc, chunks[0]);
    var full := pending.len + |b| > MAX_BYTES_PER_WRITE;
    var w := Heavier(if full then NOTHING else pending, Weigh(b));
    var sends := through || EndsLine(b) || w.len > MAX_BYTES_PER_WRITE;
    (full ==> Light(pending)) && (sends ==> Light(w))
    && AllLight(through, enc, chunks[1..], if sends then NOTHING else w)
  }

  lemma {:induction false} ZerosJoin(a: Bytes, b: Bytes)
    ensures Logcat.Zeros(a + b) == Logcat.Zeros(a) + Logcat.Zeros(b)
    decreases |a|
  {
    if a == [] {
      assert a + b == b;
    } else {
      assert (a + b)[1..] == a[1..] + b;
      ZerosJoin(a[1..], b);
    }
  }

  lemma WeighJoin(a: Bytes, b: Bytes)
    ensures Weigh(a + b) == Heavier(Weigh(a), Weigh(b))
  {
    ZerosJoin(a, b);
    LeadJoin(a, b);
    hide At10;
    var c := a + b;
    assert |c| == |a| + |b|;
  }

  lemma LeadJoin(a: Bytes, b: Bytes)
    ensures At10(a + b) == if |a| == 0 then At10(b) else At10(a)
  {
    if |a| > 0 { assert (a + b)[0] == a[0]; } else { assert a + b == b; }
  }

  lemma WeighNothing()
    ensures Weigh([]) == NOTHING
  {
  }

  lemma LightMessage(p: Bytes)
    ensures Small(Logcat.Payload(p)) <==> Light(Weigh(p))
  {
    Logcat.PayloadSize(p);
  }

  lemma FlushedFits(t: State)
    ensures MessagesFit(Flushed(t).sent) <==> MessagesFit(t.sent) && Light(Weigh(t.pending))
  {
    LightMessage(t.pending);
    if t.pending != [] && MessagesFit(Flushed(t).sent) {
      forall p | p in t.sent ensures Small(Logcat.Payload(p)) { assert p in Flushed(t).sent; }
      assert t.pending in Flushed(t).sent;
    }
  }

  /** For any text, null characters included, and any stream: messages keep the limit if
      and only if the payloads that the chunks complete are light by their weights. */
  lemma {:induction false} RunFits(through: bool, enc: Encoding, chunks: seq<Text>, t: State)
    ensures MessagesFit(Run(through, enc, chunks, t).sent) <==>
            MessagesFit(t.sent) && AllLight(through, enc, chunks, Weigh(t.pending))
    decreases |chunks|
  {
    hide Encode, MessagesFit;
    if chunks != [] {
      var b := Encode(enc, chunks[0]);
      var u := if |t.pending| + |b| > MAX_BYTES_PER_WRITE then Flushed(t) else t;
      var v := u.(pending := u.pending + b);
      FlushedFits(t);
      WeighNothing();
      WeighJoin(u.pending, b);
      FlushedFits(v);
      RunFits(through, enc, chunks[1..], ChunkStep(through, b, t));
    }
  }

  lemma TextFitsIff(through: bool, enc: Encoding, s: Text, t: State)
    ensures MessagesFit(Run(through, enc, AllChunks(SplitLines(s)), t).sent) <==>
            MessagesFit(t.sent) && AllLight(through, enc, AllChunks(SplitLines(s)), Weigh(t.pending))
  {
    RunFits(through, enc, AllChunks(SplitLines(s)), t);
  }

  /** For text without null characters, four bytes a character are enough. */
  lemma FourBytesFit(through: bool, enc: Encoding, s: Text, t: State)
    requires NewlineSafe(enc) && forall x :: x in s ==> 0 !in enc(x) && |enc(x)| <= 4
    requires LinesApart(t) && NulFree(t) && Small(t.pending) && AllSmall(t.sent)
    ensures MessagesFit(Run(through, enc, AllChunks(SplitLines(s)), t).sent)
  {
    AllChunkSizes(s);
    forall c | c in AllChunks(SplitLines(s)) ensures Small(Encode(enc, c)) {
      EncodedSize(enc, c, 4);
    }
    MessagesFitIff(through, enc, s, t);
  }

  /* ----- UTF-8 with backslashreplace, the defaults of the stream ----- */

  predicate Surrogate(x: Char) {
    0xD800 <= x < 0xE000
  }

  function HexDigit(d: nat): byte
    requires d < 16
  {
    if d < 10 then 48 + d else 87 + d
  }

  /** A lone surrogate has no encoding; it is written as a backslash, `u` and four digits. */
  function Utf8(x: Char): Bytes {
    if x < 0x80 then [x]
    else if x < 0x800 then [0xC0 + x / 0x40, 0x80 + x % 0x40]
    else if Surrogate(x) then
      [92, 117, HexDigit(x / 0x1000), HexDigit(x / 0x100 % 16), HexDigit(x / 16 % 16), HexDigit(x % 16)]
    else if x < 0x1_0000 then [0xE0 + x / 0x1000, 0x80 + x / 0x40 % 0x40, 0x80 + x % 0x40]
    else [0xF0 + x / 0x4_0000, 0x80 + x / 0x1000 % 0x40, 0x80 + x / 0x40 % 0x40, 0x80 + x % 0x40]
  }

  lemma Utf8Is(x: Char)
    ensures |Utf8(x)| <= if Surrogate(x) then 6 else 4
    ensures Surrogate(x) ==> |Utf8(x)| == 6
    ensures 0 in Utf8(x) <==> x == 0
    ensures 10 in Utf8(x) <==> x == LF
  {
    if x == 0 { assert Utf8(x)[0] == 0; }
    if x == LF { assert Utf8(x)[0] == 10; }
  }

  /** How many bytes a character takes, told by the first of them. */
  function Utf8Length(first: byte): nat {
    if first < 0xC0 then 1 else if first < 0xE0 then 2 else if first < 0xF0 then 3 else 4
  }

  /** The number that the bytes of one character make: six bits in every byte after the first. */
  function Utf8Value(b: Bytes): nat
    requires b != []
  {
    if |b| == 1 then (if b[0] < 0xC0 then b[0] else if b[0] < 0xE0 then b[0] % 32
                      else if b[0] < 0xF0 then b[0] % 16 else b[0] % 8)
    else 64 * Utf8Value(b[..|b| - 1]) + b[|b| - 1] % 64
  }

  /** Every character but a lone surrogate is read back by its own bytes, of which all but the
      first have the bits 10 in front; a lone surrogate is six ASCII characters. */
  lemma Utf8Read(x: Char)
    ensures var b := Utf8(x);
            if Surrogate(x) then b[..2] == [92, 117] && |b| == 6 && forall i :: 0 <= i < 6 ==> b[i] < 0x80
            else
              && |b| == Utf8Length(b[0]) && Utf8Value(b) == x
              && (b[0] < 0x80 || 0xC0 <= b[0] < 0xF8) && forall i :: 0 < i < |b| ==> 0x80 <= b[i] < 0xC0
  {
    if !Surrogate(x) { Utf8ValueIs(x); }
    hide Utf8Value;
    if 0x80 <= x < 0x800 { LeadByte(x / 0x40); }
  }

  lemma LeadByte(q: nat)
    requires q < 32
    ensures Utf8Length(0xC0 + q) == 2
  {
  }

  lemma Utf8ValueIs(x: Char)
    requires !Surrogate(x)
    ensures Utf8Value(Utf8(x)) == x
  {
    Digits(x);
    var k, m, n := x % 0x40, x / 0x40 % 0x40, x / 0x1000 % 0x40;
    hide Utf8Value;
    if x < 0x80 {
      Value1(x);
    } else if x < 0x800 {
      Read2(x / 0x40, k);
    } else if x < 0x1_0000 {
      Read3(x / 0x1000, m, k);
    } else {
      Read4(x / 0x4_0000, n, m, k);
    }
  }

  lemma Digits(x: nat)
    ensures x == 64 * (x / 0x40) + x % 0x40
    ensures x / 0x40 == 64 * (x / 0x1000) + x / 0x40 % 0x40
    ensures x / 0x1000 == 64 * (x / 0x4_0000) + x / 0x1000 % 0x40
  {
  }

  lemma Value1(x: byte)
    requires x < 0x80
    ensures Utf8Value([x]) == x
  {
  }

  lemma Read2(q: nat, k: nat)
    requires q < 32 && k < 64
    ensures Utf8Value([0xC0 + q, 0x80 + k]) == 64 * q + k
  {
    Value2(0xC0 + q, 0x80 + k);
  }

  lemma Read3(q: nat, m: nat, k: nat)
    requires q < 16 && m < 64 && k < 64
    ensures Utf8Value([0xE0 + q, 0x80 + m, 0x80 + k]) == 4096 * q + 64 * m + k
  {
    Value3(0xE0 + q, 0x80 + m, 0x80 + k);
  }

  lemma Read4(q: nat, n: nat, m: nat, k: nat)
    requires q < 8 && n < 64 && m < 64 && k < 64
    ensures Utf8Value([0xF0 + q, 0x80 + n, 0x80 + m, 0x80 + k]) == 262144 * q + 4096 * n + 64 * m + k
  {
    Value4(0xF0 + q, 0x80 + n, 0x80 + m, 0x80 + k);
  }

  lemma Value2(a: byte, b: byte)
    requires 0xC0 <= a
    ensures Utf8Value([a, b]) == 64 * (if a < 0xE0 then a % 32 else if a < 0xF0 then a % 16 else a % 8) + b % 64
  {
    assert [a, b][..1] == [a];
  }

  lemma Value3(a: byte, b: byte, c: byte)
    requires 0xE0 <= a
    ensures Utf8Value([a, b, c]) == 64 * (64 * (if a < 0xF0 then a % 16 else a % 8) + b % 64) + c % 64
  {
    Value2(a, b);
    assert [a, b, c][..2] == [a, b];
  }

  lemma Value4(a: byte, b: byte, c: byte, d: byte)
    requires 0xF0 <= a
    ensures Utf8Value([a, b, c, d]) == 64 * (64 * (64 * (a % 8) + b % 64) + c % 64) + d % 64
  {
    Value3(a, b, c);
    assert [a, b, c, d][..3] == [a, b, c];
  }

  lemma Utf8NewlineSafe()
    ensures NewlineSafe(Utf8)
  {
    forall c: Char | c != LF ensures 10 !in Utf8(c) { Utf8Is(c); }
  }

  /** Under the defaults, text without null characters and lone surrogates always fits. */
  lemma PlainTextFits(through: bool, s: Text, t: State)
    requires forall x :: x in s ==> x != 0 && !Surrogate(x)
    requires LinesApart(t) && NulFree(t) && Small(t.pending) && AllSmall(t.sent)
    ensures MessagesFit(Run(through, Utf8, AllChunks(SplitLines(s)), t).sent)
  {
    Utf8NewlineSafe();
    forall x | x in s ensures 0 !in Utf8(x) && |Utf8(x)| <= 4 { Utf8Is(x); }
    FourBytesFit(through, Utf8, s, t);
  }

  lemma {:induction false} EncodedRepeat(enc: Encoding, x: Char, n: nat, k: nat)
    requires |enc(x)| == k
    ensures |Encode(enc, seq(n, i => x))| == k * n
    decreases n
  {
    var s := seq(n, i => x);
    if n > 0 {
      assert s[1..] == seq(n - 1, i => x);
      EncodedRepeat(enc, x, n - 1, k);
      assert k * n == k + k * (n - 1);
    }
  }

  lemma {:induction false} OneLine(x: Char, n: nat)
    requires !IsBoundary(x) && n > 0
    ensures LineLength(seq(n, i => x)) == n
    decreases n
  {
    var s := seq(n, i => x);
    if n > 1 {
      assert s[1..] == seq(n - 1, i => x);
      OneLine(x, n - 1);
    }
  }

  /** One line of `n` equal characters. */
  lemma LineOf(x: Char, n: nat)
    requires !IsBoundary(x) && n > 0
    ensures SplitLines(seq(n, i => x)) == [seq(n, i => x)]
    ensures AllChunks(SplitLines(seq(n, i => x))) == Chunks(seq(n, i => x))
  {
    var s := seq(n, i => x);
    OneLine(x, n);
    assert s[..n] == s && s[n..] == [];
    assert SplitLines(s[n..]) == [] && AllChunks([]) == [];
    assert SplitLines(s) == [s] + [];
    assert Chunks(s) + [] == Chunks(s);
    assert SplitLines(s)[1..] == [];
  }

  /** Six bytes a surrogate: a line of a thousand goes out as one message over the limit. */
  lemma SurrogatesOverflow(through: bool)
    ensures var s := seq(MAX_CHARS_PER_WRITE, i => 0xDC80 as Char);
            !MessagesFit(Run(through, Utf8, AllChunks(SplitLines(s)), State([], [])).sent)
  {
    var x: Char := 0xDC80;
    var s := seq(MAX_CHARS_PER_WRITE, i => x);
    assert s == seq(MAX_CHARS_PER_WRITE, i => 0xDC80 as Char);
    LineOf(x, MAX_CHARS_PER_WRITE);
    Utf8Is(x);
    EncodedRepeat(Utf8, x, MAX_CHARS_PER_WRITE, 6);
    assert Chunks(s) == [s];
    var r := Run(through, Utf8, AllChunks(SplitLines(s)), State([], []));
    PayloadsFit(through, Utf8, s, State([], []));
    assert s in AllChunks(SplitLines(s)) && !Small(Encode(Utf8, s));
    var p :| p in r.sent && !Small(p);
    Logcat.PayloadSize(p);
  }

  predicate Nulls(b: Bytes) {
    forall x :: x in b ==> x == 0
  }

  /** Null characters take a byte each, so four chunks of them wait for one payload of
      four thousand bytes, which the log doubles. */
  lemma NullsOverflow()
    ensures var s := seq(4 * MAX_CHARS_PER_WRITE, i => 0 as Char);
            var r := Flushed(Run(false, Utf8, AllChunks(SplitLines(s)), State([], [])));
            AllSmall(r.sent) && exists p :: p in r.sent && |Logcat.Payload(p)| == 2 * MAX_BYTES_PER_WRITE
  {
    var n := MAX_CHARS_PER_WRITE;
    var s := seq(4 * n, i => 0 as Char);
    var e := Encode(Utf8, seq(n, i => 0 as Char));
    var p := e + e + e + e;
    hide Encode, Run, Utf8, SplitLines, AllChunks;
    NullsPending();
    EncodedRepeat(Utf8, 0, n, 1) by { Utf8Null(); }
    EncodedZeros(n);
    FourNulls(e);
    assert p in [p];
    assert Flushed(State([], p)) == State([p], []);
  }

  lemma FourNulls(e: Bytes)
    requires |e| == MAX_CHARS_PER_WRITE && Nulls(e)
    ensures var p := e + e + e + e; Small(p) && p != [] && |Logcat.Payload(p)| == 2 * MAX_BYTES_PER_WRITE
  {
    var p := e + e + e + e;
    AllZero(p);
    Logcat.PayloadSize(p);
  }

  lemma Utf8Null()
    ensures |Utf8(0)| == 1
  {
  }

  lemma NullsPending()
    ensures var s := seq(4 * MAX_CHARS_PER_WRITE, i => 0 as Char);
            var e := Encode(Utf8, seq(MAX_CHARS_PER_WRITE, i => 0 as Char));
            Run(false, Utf8, AllChunks(SplitLines(s)), State([], [])) == State([], e + e + e + e)
  {
    hide Encode, Run, Utf8, SplitLines, AllChunks, Chunks;
    var n, x: Char := MAX_CHARS_PER_WRITE, 0;
    assert seq(4 * n, i => x) == seq(4 * n, i => 0 as Char);
    var c := seq(n, i => x);
    assert c == seq(n, i => 0 as Char);
    LineOf(x, 4 * n);
    FourChunks(x);
    EncodedRepeat(Utf8, x, n, 1) by { Utf8Null(); }
    EncodedZeros(n);
    FourPending(Encode(Utf8, c), c);
  }

  lemma FourChunks(x: Char)
    ensures var n := MAX_CHARS_PER_WRITE;
            var c := seq(n, i => x);
            Chunks(seq(4 * n, i => x)) == [c, c, c, c]
  {
    var n := MAX_CHARS_PER_WRITE;
    var c := seq(n, i => x);
    var s4, s3, s2 := seq(4 * n, i => x), seq(3 * n, i => x), seq(2 * n, i => x);
    assert s4[..n] == c && s4[n..] == s3;
    assert s3[..n] == c && s3[n..] == s2;
    assert s2[..n] == c && s2[n..] == c;
    assert Chunks(c) == [c];
    assert Chunks(s2) == [c] + [c];
    assert Chunks(s3) == [c] + Chunks(s2);
  }

  lemma {:induction false} EncodedZeros(n: nat)
    ensures Nulls(Encode(Utf8, seq(n, i => 0 as Char)))
    decreases n
  {
    var s := seq(n, i => 0 as Char);
    if n > 0 {
      EncodedZeros(n - 1);
      assert s[1..] == seq(n - 1, i => 0 as Char);
    }
  }

  lemma {:induction false} AllZero(p: Bytes)
    requires Nulls(p)
    ensures Logcat.Zeros(p) == |p| && !At10(p)
    decreases |p|
  {
    if p != [] {
      assert p[0] in p;
      forall x | x in p[1..] ensures x == 0 { assert x in p; }
      AllZero(p[1..]);
    }
  }

  lemma FourPending(e: Bytes, c: Text)
    requires |e| == MAX_CHARS_PER_WRITE && Encode(Utf8, c) == e && Nulls(e)
    ensures Run(false, Utf8, [c, c, c, c], State([], [])) == State([], e + e + e + e)
  {
    hide Encode, Run;
    assert !EndsLine(e) by { assert e[|e| - 1] in e; }
    assert [] + e == e;
    assert [c, c, c, c] == [c] + [c, c, c] && [c, c, c] == [c] + [c, c] && [c, c] == [c] + [c] && [c] == [c] + [];
    Waits(c, [c, c, c], []);
    Waits(c, [c, c], e);
    Waits(c, [c], e + e);
    Waits(c, [], e + e + e);
    RunNothing(false, Utf8, State([], e + e + e + e));
  }

  /** A chunk that fills no payload and ends no line is kept. */
  lemma Waits(c: Text, more: seq<Text>, pending: Bytes)
    requires var e := Encode(Utf8, c); |pending| + |e| <= MAX_BYTES_PER_WRITE && !EndsLine(e)
    ensures Run(false, Utf8, [c] + more, State([], pending))
         == Run(false, Utf8, more, State([], pending + Encode(Utf8, c)))
  {
    hide Encode;
    assert ([c] + more)[1..] == more;
  }
}
