/** The rate limiter in front of the Android log: a token bucket over real time. */
module Logcat {
  import opened Octets

  const RATE := 1048576.0       // bytes per second
  const BUCKET_SIZE := 131072.0
  const PER_MESSAGE_OVERHEAD := 28

  /** Null bytes are written as the two bytes C0 80. */
  function EncodeNulls(m: seq<byte>): seq<byte> {
    if m == [] then []
    else (if m[0] == 0 then [0xC0, 0x80] else [m[0]]) + EncodeNulls(m[1..])
  }

  /** The message as it reaches the log. */
  function Payload(m: seq<byte>): seq<byte> {
    var e := EncodeNulls(m);
    if e != [] && e[0] == 10 then [32] + e else e
  }

  lemma {:induction false} NoNulls(m: seq<byte>)
    ensures 0 !in EncodeNulls(m)
    decreases |m|
  {
    if m != [] { NoNulls(m[1..]); }
  }

  /** No null byte can cut a message short, and no newline comes first. */
  lemma PayloadIsSafe(m: seq<byte>)
    ensures 0 !in Payload(m) && (Payload(m) != [] ==> Payload(m)[0] != 10)
  {
    NoNulls(m);
  }

  function Zeros(m: seq<byte>): nat {
    if m == [] then 0 else (if m[0] == 0 then 1 else 0) + Zeros(m[1..])
  }

  lemma {:induction false} EncodedSize(m: seq<byte>)
    ensures |EncodeNulls(m)| == |m| + Zeros(m)
    decreases |m|
  {
    if m != [] { EncodedSize(m[1..]); }
  }

  /** A message is longer than its bytes by one for every null byte, and by one more if a
      newline comes first. */
  lemma PayloadSize(m: seq<byte>)
    ensures |Payload(m)| == |m| + Zeros(m) + (if m != [] && m[0] == 10 then 1 else 0)
  {
    EncodedSize(m);
  }

  /** Reading the two bytes C0 80 as a null byte again. */
  function DecodeNulls(e: seq<byte>): seq<byte> {
    if e == [] then []
    else if |e| >= 2 && e[0] == 0xC0 && e[1] == 0x80 then [0] + DecodeNulls(e[2..])
    else [e[0]] + DecodeNulls(e[1..])
  }

  /** The two bytes that stand for a null byte occur as such. */
  predicate HasPair(m: seq<byte>) {
    exists i :: 0 <= i < |m| - 1 && m[i] == 0xC0 && m[i + 1] == 0x80
  }

  lemma {:induction false} DecodedIff(m: seq<byte>)
    ensures DecodeNulls(EncodeNulls(m)) == m <==> !HasPair(m)
    decreases |m|
  {
    if m != [] {
      var e, rest := EncodeNulls(m), EncodeNulls(m[1..]);
      DecodedIff(m[1..]);
      assert HasPair(m[1..]) ==> HasPair(m) by {
        if i :| 0 <= i < |m[1..]| - 1 && m[1..][i] == 0xC0 && m[1..][i + 1] == 0x80 { assert m[i + 1] == 0xC0; }
      }
      assert HasPair(m) ==> HasPair(m[1..]) || (m[0] == 0xC0 && m[1] == 0x80) by {
        if i :| 0 <= i < |m| - 1 && m[i] == 0xC0 && m[i + 1] == 0x80 {
          if i > 0 { assert m[1..][i - 1] == 0xC0 && m[1..][i] == 0x80; }
        }
      }
      if m[0] == 0 {
        assert e[2..] == rest;
      } else {
        assert e == [m[0]] + rest && e[1..] == rest;
        if m[0] == 0xC0 && |m| >= 2 && m[1] == 0x80 {
          PairStays(m);
          assert HasPair(m) by { assert m[0] == 0xC0; }
        } else {
          FirstByte(m[1..]);
        }
      }
      assert m == [m[0]] + m[1..];
    }
  }

  /** Who reads the log gets the message back, after a space if it begins with a newline, if and
      only if it does not itself contain the two bytes, which valid UTF-8 never does. */
  lemma PayloadDecoded(m: seq<byte>)
    ensures DecodeNulls(Payload(m)) == (if m != [] && m[0] == 10 then [32] + m else m) <==> !HasPair(m)
  {
    DecodedIff(m);
    FirstByte(m);
    if m != [] && m[0] == 10 {
      var p := Payload(m);
      assert p[1..] == EncodeNulls(m);
      assert DecodeNulls(p)[1..] == DecodeNulls(EncodeNulls(m)) && ([32] + m)[1..] == m;
    }
  }

  /** What begins with the pair is read back with a null byte first. */
  lemma PairStays(m: seq<byte>)
    requires |m| >= 2 && m[0] == 0xC0 && m[1] == 0x80
    ensures DecodeNulls(EncodeNulls(m)) != m
  {
    assert EncodeNulls(m) == [m[0]] + ([m[1]] + EncodeNulls(m[1..][1..]));
    assert DecodeNulls(EncodeNulls(m))[0] == 0;
  }

  lemma FirstByte(m: seq<byte>)
    ensures m == [] <==> EncodeNulls(m) == []
    ensures m != [] ==> EncodeNulls(m)[0] == if m[0] == 0 then 0xC0 else m[0]
  {
  }

  datatype Bucket = Bucket(level: real, prev: real)

  function Min(a: real, b: real): real { if a < b then a else b }
  function Max(a: real, b: real): real { if a < b then b else a }

  /** The level before a message is paid for. */
  function Refilled(b: Bucket, now: real): real {
    Max(0.0, Min(b.level + (now - b.prev) * RATE, BUCKET_SIZE))
  }

  function Step(b: Bucket, now: real, cost: real): Bucket {
    Bucket(Refilled(b, now) - cost, now)
  }

  /** How long the writer sleeps before the message goes out. */
  function Delay(b: Bucket): real {
    if b.level < 0.0 then -b.level / RATE else 0.0
  }

  /** What is handed to the log. */
  datatype Message = Message(prio: int, tag: string, payload: seq<byte>)

  /** From `b` to `r`, at time `now`, `m` has been paid for: the bucket has gained a mebibyte per
      second since the last message, up to 128 kibibytes and from zero at least, and lost 28
      bytes and those of the tag and of the payload. What is then missing is waited for. */
  predicate Paid(b: Bucket, m: Message, now: real, r: Bucket, sleep: real) {
    var level := b.level + (now - b.prev) * 1048576.0;
    var refilled := if level < 0.0 then 0.0 else if level > 131072.0 then 131072.0 else level;
    && r.prev == now
    && r.level == refilled - (28 + |m.tag| + |m.payload|) as real
    && sleep == if r.level < 0.0 then -r.level / 1048576.0 else 0.0
  }

  class Limiter {
    var bucketLevel: real
    var prevWriteTime: real
    ghost var log: seq<Message>

    function State(): Bucket
      reads this
    {
      Bucket(bucketLevel, prevWriteTime)
    }

    constructor (now: real)
      ensures State() == Bucket(0.0, now) && log == []
    {
      bucketLevel, prevWriteTime, log := 0.0, now, [];
    }

    /** One message, with `now` what the clock shows: how long to sleep, and what
        is then written. */
    method Write(prio: int, tag: string, message: seq<byte>, now: real) returns (sleep: real, payload: seq<byte>)
      modifies this
      ensures payload == Payload(message)
      ensures log == old(log) + [Message(prio, tag, payload)]
      ensures Paid(old(State()), Message(prio, tag, payload), now, State(), sleep)
    {
      payload := EncodeNulls(message);
      if payload != [] && payload[0] == 10 { payload := [32] + payload; }
      bucketLevel := bucketLevel + (now - prevWriteTime) * RATE;
      bucketLevel := Max(0.0, Min(bucketLevel, BUCKET_SIZE));
      prevWriteTime := now;
      bucketLevel := bucketLevel - (PER_MESSAGE_OVERHEAD + |tag| + |payload|) as real;
      sleep := 0.0;
      if bucketLevel < 0.0 { sleep := -bucketLevel / RATE; }
      log := log + [Message(prio, tag, payload)];
    }
  }

  /* ----- whole runs ----- */

  /** One write: when it began, when its message went out, what it cost. */
  datatype Event = Event(began: real, sent: real, cost: real)

  function After(b: Bucket, es: seq<Event>): Bucket
    decreases |es|
  {
    if es == [] then b else After(Step(b, es[0].began, es[0].cost), es[1..])
  }

  /** The clock never goes back, sleeps last at least as long as asked, and writes
      exclude one another. */
  predicate Honest(b: Bucket, ready: real, es: seq<Event>)
    decreases |es|
  {
    es == [] || (
      var e := es[0];
      var b' := Step(b, e.began, e.cost);
      e.began >= ready && e.sent >= e.began + Delay(b') && e.cost >= 0.0 && Honest(b', e.sent, es[1..]))
  }

  function Total(es: seq<Event>): real {
    if es == [] then 0.0 else es[0].cost + Total(es[1..])
  }

  /** The bucket has been paid back by `ready`. */
  predicate Settled(b: Bucket, ready: real) {
    ready >= b.prev && b.level + (ready - b.prev) * RATE >= 0.0
  }

  lemma DelaySettles(b: Bucket, sent: real)
    requires sent >= b.prev + Delay(b)
    ensures Settled(b, sent)
  {
    if b.level < 0.0 {
      assert Delay(b) * RATE == -b.level;
      assert (sent - b.prev) * RATE >= Delay(b) * RATE;
    }
  }

  /* ----- any clock ----- */

  /** What the guard against a clock set back adds to the bucket: all that is missing. */
  function Reset(b: Bucket, now: real): real {
    Max(0.0, -(b.level + (now - b.prev) * RATE))
  }

  function Resets(b: Bucket, es: seq<Event>): real
    decreases |es|
  {
    if es == [] then 0.0
    else Reset(b, es[0].began) + Resets(Step(b, es[0].began, es[0].cost), es[1..])
  }

  /** The sleep, by the clock, lasted at least as long as asked. */
  predicate Slept(b: Bucket, e: Event) {
    e.sent >= e.began + Delay(Step(b, e.began, e.cost))
  }

  lemma {:induction false} Spent(b: Bucket, es: seq<Event>)
    requires es != []
    ensures var b' := Step(b, es[0].began, es[0].cost);
            Total(es) <= Refilled(b, es[0].began) - After(b, es).level
                         + RATE * (es[|es| - 1].began - es[0].began) + Resets(b', es[1..])
    decreases |es|
  {
    var b' := Step(b, es[0].began, es[0].cost);
    if |es| == 1 {
      assert Total(es[1..]) == 0.0 && After(b', es[1..]) == b';
    } else {
      Spent(b', es[1..]);
      assert Refilled(b', es[1].began) <= b'.level + (es[1].began - b'.prev) * RATE + Reset(b', es[1].began);
    }
  }

  /** Whatever the clock shows, between any two messages of a run the log receives no more
      than one full bucket, what the time between them allows, and what the resets between
      them added. */
  lemma RateBoundAnyClock(b: Bucket, es: seq<Event>, i: nat, j: nat)
    requires i <= j < |es| && Slept(After(b, es[..j]), es[j])
    ensures Total(es[i..j + 1]) <= BUCKET_SIZE + RATE * (es[j].sent - es[i].began)
                                   + Resets(After(b, es[..i + 1]), es[i + 1..j + 1])
  {
    var run := es[i..j + 1];
    var b0 := After(b, es[..i]);
    Spent(b0, run);
    AfterSplit(b, es, i, i + 1);
    AfterSplit(b, es, i, j);
    AfterSplit(b, es, i, j + 1);
    AfterSplit(b, es, j, j + 1);
    assert es[i..i + 1] == [es[i]] && es[j..j + 1] == [es[j]];
    AfterOne(b0, es[i]);
    AfterOne(After(b, es[..j]), es[j]);
    assert run[1..] == es[i + 1..j + 1];
    var last := After(b, es[..j + 1]);
    DelaySettles(last, es[j].sent);
  }

  lemma AfterOne(b: Bucket, e: Event)
    ensures After(b, [e]) == Step(b, e.began, e.cost)
  {
    assert [e][1..] == [];
  }

  lemma {:induction false} AfterSplit(b: Bucket, es: seq<Event>, i: nat, j: nat)
    requires i <= j <= |es|
    ensures After(b, es[..j]) == After(After(b, es[..i]), es[i..j])
    decreases i
  {
    if i == 0 {
      assert es[..j] == es[0..j];
    } else {
      AfterSplit(Step(b, es[0].began, es[0].cost), es[1..], i - 1, j - 1);
      assert es[..j][1..] == es[1..][..j - 1] && es[..i][1..] == es[1..][..i - 1];
      assert es[1..][i - 1..j - 1] == es[i..j];
    }
  }

  /* ----- a clock that never goes back ----- */

  /** With such a clock the reset to zero never happens. */
  lemma {:induction false} NoResets(b: Bucket, ready: real, es: seq<Event>)
    requires Settled(b, ready) && Honest(b, ready, es)
    ensures Resets(b, es) == 0.0
    decreases |es|
  {
    if es != [] {
      var e := es[0];
      var b' := Step(b, e.began, e.cost);
      assert (e.began - ready) * RATE >= 0.0;
      DelaySettles(b', e.sent);
      NoResets(b', e.sent, es[1..]);
    }
  }

  /** A run that goes on from the bucket another left behind. */
  lemma {:induction false} Resume(b: Bucket, ready: real, es: seq<Event>, i: nat)
    requires Settled(b, ready) && Honest(b, ready, es) && i < |es|
    ensures var b' := After(b, es[..i]);
            var ready' := if i == 0 then ready else es[i - 1].sent;
            Settled(b', ready') && Honest(b', ready', es[i..])
    decreases i
  {
    if i == 0 {
      assert es[0..] == es;
    } else {
      var b' := Step(b, es[0].began, es[0].cost);
      DelaySettles(b', es[0].sent);
      Resume(b', es[0].sent, es[1..], i - 1);
      assert es[..i][1..] == es[1..][..i - 1] && es[1..][i - 1..] == es[i..];
      if i > 1 { assert es[1..][i - 2] == es[i - 1]; }
    }
  }

  lemma {:induction false} Prefix(b: Bucket, ready: real, es: seq<Event>, n: nat)
    requires Honest(b, ready, es) && n <= |es|
    ensures Honest(b, ready, es[..n])
    decreases n
  {
    if n > 0 {
      Prefix(Step(b, es[0].began, es[0].cost), es[0].sent, es[1..], n - 1);
      assert es[..n][1..] == es[1..][..n - 1];
    }
  }

  /** Then between any two messages of a run the log receives no more than one full
      bucket plus what the time between them allows. */
  lemma RateBound(start: real, es: seq<Event>, i: nat, j: nat)
    requires Honest(Bucket(0.0, start), start, es) && i <= j < |es|
    ensures Total(es[i..j + 1]) <= BUCKET_SIZE + RATE * (es[j].sent - es[i].began)
  {
    var b := Bucket(0.0, start);
    Resume(b, start, es, j);
    assert Slept(After(b, es[..j]), es[j]);
    RateBoundAnyClock(b, es, i, j);
    if i < j {
      Prefix(b, start, es, j + 1);
      var run := es[..j + 1];
      Resume(b, start, run, i + 1);
      assert run[..i + 1] == es[..i + 1] && run[i + 1..] == es[i + 1..j + 1];
      NoResets(After(b, es[..i + 1]), es[i].sent, es[i + 1..j + 1]);
    } else {
      assert es[i + 1..j + 1] == [];
    }
  }

  /** The bound is the best possible: a burst after a quiet eighth of a second meets it. */
  lemma RateBoundIsTight(cost: real)
    requires cost >= BUCKET_SIZE
    ensures var t := (cost - BUCKET_SIZE) / RATE;
            var es := [Event(0.125, 0.125 + t, cost)];
            Honest(Bucket(0.0, 0.0), 0.0, es) && Total(es) == BUCKET_SIZE + RATE * (es[0].sent - es[0].began)
  {
    var t := (cost - BUCKET_SIZE) / RATE;
    var es := [Event(0.125, 0.125 + t, cost)];
    var b := Step(Bucket(0.0, 0.0), 0.125, cost);
    assert b.level == BUCKET_SIZE - cost;
    assert es[1..] == [];
    assert Total(es[1..]) == 0.0;
    assert t * RATE == cost - BUCKET_SIZE;
  }

  /** With a clock set back by an eighth of a second between two messages, three buckets
      pass where the bound allows one; a reset added the other two. */
  lemma ClockSetBack()
    ensures var b1 := Step(Bucket(0.0, 0.0), 0.125, 2.0 * BUCKET_SIZE);
            var b2 := Step(b1, 0.0, BUCKET_SIZE);
            var es := [Event(0.125, 0.125 + Delay(b1), 2.0 * BUCKET_SIZE), Event(0.0, Delay(b2), BUCKET_SIZE)];
            Total(es) > BUCKET_SIZE + RATE * (es[1].sent - es[0].began)
            && Total(es) == BUCKET_SIZE + RATE * (es[1].sent - es[0].began) + Resets(b1, es[1..])
  {
    var b1 := Step(Bucket(0.0, 0.0), 0.125, 2.0 * BUCKET_SIZE);
    var b2 := Step(b1, 0.0, BUCKET_SIZE);
    var es := [Event(0.125, 0.125 + Delay(b1), 2.0 * BUCKET_SIZE), Event(0.0, Delay(b2), BUCKET_SIZE)];
    assert Refilled(b1, 0.0) == 0.0;
    assert Delay(b2) == 0.125;
    assert es[1..] == [es[1]] && es[1..][1..] == [];
    assert Total(es[1..]) == BUCKET_SIZE + Total([]);
    assert Resets(b1, es[1..]) == Reset(b1, 0.0) + Resets(b2, []);
  }

  /* ----- whole runs of writes ----- */

  /** One call of the limiter: when it began, what it handed to the log and when. */
  datatype Sent = Sent(began: real, sent: real, m: Message)

  /** Calls one after the other, each leaving the bucket to the next. */
  predicate Writes(bs: seq<Bucket>, ws: seq<Sent>, sleeps: seq<real>) {
    && |bs| == |ws| + 1 && |sleeps| == |ws|
    && forall k :: 0 <= k < |ws| ==> Paid(bs[k], ws[k].m, ws[k].began, bs[k + 1], sleeps[k])
  }

  /** From a new limiter, with a clock that never goes back and sleeps no shorter than asked. */
  predicate InTime(bs: seq<Bucket>, ws: seq<Sent>, sleeps: seq<real>) {
    && Writes(bs, ws, sleeps) && bs[0].level == 0.0
    && (forall k :: 0 <= k < |ws| ==> ws[k].sent >= ws[k].began + sleeps[k])
    && (forall k :: 0 <= k < |ws| ==> ws[k].began >= Ready(bs, ws, k))
  }

  /** When the `k`-th call could begin: after the one before it, or after the limiter was made. */
  function Ready(bs: seq<Bucket>, ws: seq<Sent>, k: nat): real
    requires bs != [] && k <= |ws|
  {
    if k == 0 then bs[0].prev else ws[k - 1].sent
  }

  /** The bytes of the messages as the log counts them. */
  function LogSize(ws: seq<Sent>): nat {
    if ws == [] then 0 else 28 + |ws[0].m.tag| + |ws[0].m.payload| + LogSize(ws[1..])
  }

  function EventOf(w: Sent): Event {
    Event(w.began, w.sent, (28 + |w.m.tag| + |w.m.payload|) as real)
  }

  function EventsOf(ws: seq<Sent>): (es: seq<Event>)
    ensures |es| == |ws| && forall k :: 0 <= k < |ws| ==> es[k] == EventOf(ws[k])
  {
    if ws == [] then [] else [EventOf(ws[0])] + EventsOf(ws[1..])
  }

  lemma PaidIsStep(b: Bucket, w: Sent, r: Bucket, sleep: real)
    requires Paid(b, w.m, w.began, r, sleep)
    ensures r == Step(b, w.began, EventOf(w).cost) && sleep == Delay(r)
  {
  }

  /** The calls are events to which the bounds above apply, whatever the clock shows: the bucket
      they leave is the one of the events, and the sleeps are what the bucket asks. */
  lemma {:induction false} WritesAreEvents(bs: seq<Bucket>, ws: seq<Sent>, sleeps: seq<real>, n: nat)
    requires Writes(bs, ws, sleeps) && n <= |ws|
    ensures After(bs[0], EventsOf(ws)[..n]) == bs[n]
    ensures n < |ws| ==>
            Step(bs[n], ws[n].began, EventOf(ws[n]).cost) == bs[n + 1] && sleeps[n] == Delay(bs[n + 1])
    decreases n
  {
    var es := EventsOf(ws);
    if n < |ws| { PaidIsStep(bs[n], ws[n], bs[n + 1], sleeps[n]); }
    if n > 0 {
      WritesAreEvents(bs, ws, sleeps, n - 1);
      AfterSplit(bs[0], es, n - 1, n);
      assert es[n - 1..n] == [EventOf(ws[n - 1])];
      AfterOne(bs[n - 1], es[n - 1]);
    } else {
      assert es[..0] == [];
    }
  }

  lemma {:induction false} WritesHonest(bs: seq<Bucket>, ws: seq<Sent>, sleeps: seq<real>, n: nat)
    requires InTime(bs, ws, sleeps) && n <= |ws|
    ensures Honest(bs[n], Ready(bs, ws, n), EventsOf(ws)[n..])
    decreases |ws| - n
  {
    var es := EventsOf(ws);
    if n < |ws| {
      WritesHonest(bs, ws, sleeps, n + 1);
      PaidIsStep(bs[n], ws[n], bs[n + 1], sleeps[n]);
      assert ws[n].began >= Ready(bs, ws, n) && ws[n].sent >= ws[n].began + sleeps[n];
      assert es[n..][1..] == es[n + 1..] && es[n..][0] == es[n] == EventOf(ws[n]);
      HonestFirst(bs[n], Ready(bs, ws, n), es[n..], bs[n + 1]);
    } else {
      assert es[n..] == [];
    }
  }

  lemma HonestFirst(b: Bucket, ready: real, es: seq<Event>, b': Bucket)
    requires es != [] && b' == Step(b, es[0].began, es[0].cost) && Honest(b', es[0].sent, es[1..])
    requires es[0].began >= ready && es[0].sent >= es[0].began + Delay(b') && es[0].cost >= 0.0
    ensures Honest(b, ready, es)
  {
  }

  lemma {:induction false} LogSizeIs(ws: seq<Sent>, i: nat, j: nat)
    requires i <= j <= |ws|
    ensures Total(EventsOf(ws)[i..j]) == LogSize(ws[i..j]) as real
    decreases j - i
  {
    if i < j {
      LogSizeIs(ws, i + 1, j);
      assert ws[i..j][1..] == ws[i + 1..j] && EventsOf(ws)[i..j][1..] == EventsOf(ws)[i + 1..j];
      assert EventsOf(ws)[i..j][0] == EventOf(ws[i]) && ws[i..j][0] == ws[i];
    }
  }

  /** However many messages are written and whatever they hold: from any message to any later one
      the log receives, with 28 bytes and the tag for each, at most 128 kibibytes and a mebibyte
      for every second from the beginning of the first to the sending of the last. */
  lemma WritesBound(bs: seq<Bucket>, ws: seq<Sent>, sleeps: seq<real>, i: nat, j: nat)
    requires InTime(bs, ws, sleeps) && i <= j < |ws|
    ensures LogSize(ws[i..j + 1]) as real <= 131072.0 + 1048576.0 * (ws[j].sent - ws[i].began)
  {
    var es := EventsOf(ws);
    WritesHonest(bs, ws, sleeps, 0);
    assert es[0..] == es && bs[0] == Bucket(0.0, bs[0].prev);
    RateBound(bs[0].prev, es, i, j);
    LogSizeIs(ws, i, j + 1);
  }
}
