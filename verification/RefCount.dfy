/** Reference counts of the 64-bit build with the GIL: the lower 32 bits count, and a
    count of 2^31 or more marks an immortal object. */
module RefCount {

  const WORD := 0x1_0000_0000
  const BILLION := 0x4000_0000            // 2^30
  const IMMORTAL_MINIMUM := 0x8000_0000   // 2^31
  const IMMORTAL_INITIAL := 0xC000_0000   // 3 * 2^30

  type UInt32 = x: int | 0 <= x < WORD

  /** `low` is the count, `high` the overflow and flag bits above it. Old extensions
      see the two as one 64-bit number. */
  datatype Rc = Rc(low: UInt32, high: UInt32, dead: bool)

  datatype Op = Incref | Decref | SetRefcnt(n: nat) | UnawareInc | UnawareDec

  predicate IsImmortal(o: Rc) {
    o.low >= IMMORTAL_MINIMUM
  }

  predicate Aware(op: Op) {
    op.Incref? || op.Decref? || op.SetRefcnt?
  }

  function Plus(o: Rc): Rc {
    if o.low < WORD - 1 then o.(low := o.low + 1) else Rc(0, (o.high + 1) % WORD, o.dead)
  }

  function Minus(o: Rc): Rc {
    if o.low > 0 then o.(low := o.low - 1) else Rc(WORD - 1, (o.high + WORD - 1) % WORD, o.dead)
  }

  function Step(o: Rc, op: Op): Rc {
    match op
    case Incref => if o.low >= IMMORTAL_INITIAL then o else o.(low := o.low + 1)
    case Decref =>
      if IsImmortal(o) then o
      else var l := (o.low + WORD - 1) % WORD; o.(low := l, dead := o.dead || l == 0)
    case SetRefcnt(n) => if IsImmortal(o) then o else o.(low := n % WORD)
    case UnawareInc => Plus(o)
    case UnawareDec => var r := Minus(o); r.(dead := o.dead || (r.low == 0 && r.high == 0))
  }

  function Run(o: Rc, ops: seq<Op>): Rc {
    if ops == [] then o else Step(Run(o, ops[..|ops| - 1]), ops[|ops| - 1])
  }

  function Count(ops: seq<Op>, op: Op): nat {
    if ops == [] then 0 else Count(ops[..|ops| - 1], op) + if ops[|ops| - 1] == op then 1 else 0
  }

  ghost predicate AllAware(ops: seq<Op>) {
    forall i :: 0 <= i < |ops| ==> Aware(ops[i])
  }

  /** Whatever code that knows of immortality does, an immortal count stays one: it
      never falls, never passes the initial value unless it started there, and the
      object is never deallocated. */
  lemma {:induction false} ImmortalForever(o: Rc, ops: seq<Op>)
    requires IsImmortal(o) && AllAware(ops)
    ensures var r := Run(o, ops);
            o.low <= r.low <= (if o.low > IMMORTAL_INITIAL then o.low else IMMORTAL_INITIAL)
            && r.high == o.high && r.dead == o.dead && IsImmortal(r)
    decreases |ops|
  {
    if ops != [] { ImmortalForever(o, ops[..|ops| - 1]); }
  }

  /** The number of increfs that still move it. */
  lemma {:induction false} ImmortalRises(o: Rc, ops: seq<Op>)
    requires 0x8000_0000 <= o.low <= 0xC000_0000 && AllAware(ops)
    ensures Run(o, ops).low == if o.low + Count(ops, Incref) <= 0xC000_0000 then o.low + Count(ops, Incref)
                               else 0xC000_0000
    decreases |ops|
  {
    if ops != [] {
      var before := ops[..|ops| - 1];
      assert forall i :: 0 <= i < |before| ==> before[i] == ops[i];
      ImmortalRises(o, before);
      ImmortalForever(o, before);
    }
  }

  /** Every moment of the run leaves the object immortal and alive. */
  ghost predicate KeepsImmortal(o: Rc, ops: seq<Op>) {
    forall n :: 0 <= n <= |ops| ==> IsImmortal(Run(o, ops[..n])) && !Run(o, ops[..n]).dead
  }

  /** Old code may be off by about a billion either way. */
  lemma {:induction false} Bounds(o: Rc, ops: seq<Op>)
    requires o.low == IMMORTAL_INITIAL && !o.dead
    requires Count(ops, UnawareDec) <= BILLION && Count(ops, UnawareInc) < BILLION
    ensures var r := Run(o, ops);
            && IMMORTAL_INITIAL - Count(ops, UnawareDec) <= r.low <= IMMORTAL_INITIAL + Count(ops, UnawareInc)
            && r.high == o.high && !r.dead
    decreases |ops|
  {
    if ops != [] { Bounds(o, ops[..|ops| - 1]); }
  }

  lemma {:induction false} CountPrefix(ops: seq<Op>, op: Op, n: nat)
    requires n <= |ops|
    ensures Count(ops[..n], op) <= Count(ops, op)
    decreases |ops|
  {
    if n < |ops| {
      var before := ops[..|ops| - 1];
      assert before[..n] == ops[..n];
      CountPrefix(before, op, n);
    } else {
      assert ops[..n] == ops;
    }
  }

  lemma Tolerant(o: Rc, ops: seq<Op>)
    requires o.low == IMMORTAL_INITIAL && !o.dead
    requires Count(ops, UnawareDec) <= BILLION && Count(ops, UnawareInc) < BILLION
    ensures KeepsImmortal(o, ops)
  {
    forall n | 0 <= n <= |ops| ensures IsImmortal(Run(o, ops[..n])) && !Run(o, ops[..n]).dead {
      CountPrefix(ops, UnawareDec, n);
      CountPrefix(ops, UnawareInc, n);
      Bounds(o, ops[..n]);
    }
  }

  function Repeat(op: Op, n: nat): (r: seq<Op>)
    ensures |r| == n
  {
    if n == 0 then [] else Repeat(op, n - 1) + [op]
  }

  lemma {:induction false} CountRepeat(op: Op, n: nat, x: Op)
    ensures Count(Repeat(op, n), x) == if x == op then n else 0
  {
    if n > 0 {
      CountRepeat(op, n - 1, x);
      assert Repeat(op, n)[..n - 1] == Repeat(op, n - 1);
    }
  }

  lemma {:induction false} CountAppend(a: seq<Op>, b: seq<Op>, op: Op)
    ensures Count(a + b, op) == Count(a, op) + Count(b, op)
    decreases |b|
  {
    if b == [] {
      assert a + b == a;
    } else {
      assert (a + b)[..|a + b| - 1] == a + b[..|b| - 1];
      CountAppend(a, b[..|b| - 1], op);
    }
  }

  lemma {:induction false} Falls(o: Rc, n: nat)
    requires n <= o.low
    ensures Run(o, Repeat(UnawareDec, n)).low == o.low - n
  {
    if n > 0 {
      Falls(o, n - 1);
      assert Repeat(UnawareDec, n)[..n - 1] == Repeat(UnawareDec, n - 1);
    }
  }

  lemma {:induction false} Climbs(o: Rc, n: nat)
    requires o.low + n < WORD
    ensures Run(o, Repeat(UnawareInc, n)).low == o.low + n
  {
    if n > 0 {
      Climbs(o, n - 1);
      assert Repeat(UnawareInc, n)[..n - 1] == Repeat(UnawareInc, n - 1);
    }
  }

  lemma {:induction false} RepeatPrefix(op: Op, n: nat, m: nat)
    requires m <= n
    ensures Repeat(op, n)[..m] == Repeat(op, m)
    decreases n
  {
    if m < n {
      RepeatPrefix(op, n - 1, m);
      assert Repeat(op, n)[..m] == Repeat(op, n - 1)[..m];
    }
  }

  /** What `d` decrements and `u` increments by old code can do, mixed into any run. */
  ghost predicate Tolerated(o: Rc, d: nat, u: nat) {
    forall ops :: Count(ops, UnawareDec) == d && Count(ops, UnawareInc) == u ==> KeepsImmortal(o, ops)
  }

  /** The tolerance is exactly 2^30 decrements and 2^30 - 1 increments. */
  lemma ToleranceIsExact(o: Rc, d: nat, u: nat)
    requires o.low == 0xC000_0000 && !o.dead
    ensures Tolerated(o, d, u) <==> d <= 0x4000_0000 && u < 0x4000_0000
  {
    if d <= BILLION && u < BILLION {
      forall ops | Count(ops, UnawareDec) == d && Count(ops, UnawareInc) == u ensures KeepsImmortal(o, ops) {
        Tolerant(o, ops);
      }
    } else if d > BILLION {
      var n := BILLION + 1;
      Loses(o, UnawareDec, d, UnawareInc, u, n);
      Falls(o, n);
      Witness(o, Repeat(UnawareDec, d) + Repeat(UnawareInc, u), d, u, n);
    } else {
      var n := BILLION;
      Loses(o, UnawareInc, u, UnawareDec, d, n);
      Overflows(o);
      Witness(o, Repeat(UnawareInc, u) + Repeat(UnawareDec, d), d, u, n);
    }
  }

  /** 2^30 increments carry out of the 32 bits. */
  lemma Overflows(o: Rc)
    requires o.low == IMMORTAL_INITIAL
    ensures Run(o, Repeat(UnawareInc, BILLION)).low == 0
  {
    Climbs(o, BILLION - 1);
    assert Repeat(UnawareInc, BILLION)[..BILLION - 1] == Repeat(UnawareInc, BILLION - 1);
  }

  lemma Loses(o: Rc, a: Op, m: nat, b: Op, k: nat, n: nat)
    requires n <= m && a != b
    ensures var ops := Repeat(a, m) + Repeat(b, k);
            ops[..n] == Repeat(a, n) && Count(ops, a) == m && Count(ops, b) == k
  {
    RepeatPrefix(a, m, n);
    CountAppend(Repeat(a, m), Repeat(b, k), a);
    CountAppend(Repeat(a, m), Repeat(b, k), b);
    CountRepeat(a, m, a);
    CountRepeat(a, m, b);
    CountRepeat(b, k, a);
    CountRepeat(b, k, b);
  }

  lemma Witness(o: Rc, ops: seq<Op>, d: nat, u: nat, n: nat)
    requires Count(ops, UnawareDec) == d && Count(ops, UnawareInc) == u
    requires n <= |ops| && !IsImmortal(Run(o, ops[..n]))
    ensures !Tolerated(o, d, u)
  {
  }

  /* ----- mortal objects ----- */

  /** References outstanding after some increfs and decrefs. */
  function Net(k: int, ops: seq<Op>): int {
    k + Count(ops, Incref) - Count(ops, Decref)
  }

  /** No reference is given up that is not held, and there are fewer than 2^31. */
  ghost predicate Balanced(k: int, ops: seq<Op>) {
    && (forall i :: 0 <= i < |ops| ==> ops[i].Incref? || ops[i].Decref?)
    && (forall n :: 0 <= n < |ops| ==> 0 < Net(k, ops[..n]))
    && (forall n :: 0 <= n <= |ops| ==> Net(k, ops[..n]) < IMMORTAL_MINIMUM)
  }

  /** A mortal count is the number of outstanding references, and the object is
      deallocated exactly when that reaches zero. */
  lemma {:induction false} MortalCounts(o: Rc, ops: seq<Op>)
    requires 0 < o.low && !o.dead && Balanced(o.low, ops)
    ensures Run(o, ops).low == Net(o.low, ops) && (Run(o, ops).dead <==> Net(o.low, ops) == 0)
    decreases |ops|
  {
    assert ops[..|ops|] == ops;
    if ops != [] {
      var n := |ops| - 1;
      var before := ops[..n];
      assert forall m :: 0 <= m <= n ==> before[..m] == ops[..m];
      MortalCounts(o, before);
    }
  }

  /** Setting the count of a mortal object sets it: references are counted from there, cut to 32
      bits, and from 2^31 on the object is immortal. */
  lemma SetThenCounts(o: Rc, n: nat, ops: seq<Op>)
    requires o.low < 0x8000_0000 && !o.dead
    ensures var r := Step(o, SetRefcnt(n));
            && r.high == o.high && !r.dead && (n < 0x1_0000_0000 ==> r.low == n)
            && Step(o, SetRefcnt(n + 0x1_0000_0000)) == r
            && (0x8000_0000 <= n < 0x1_0000_0000 ==> IsImmortal(r))
            && (0 < n < 0x8000_0000 && Balanced(n, ops) ==>
                  && Run(r, ops).low == n + Count(ops, Incref) - Count(ops, Decref)
                  && (Run(r, ops).dead <==> n + Count(ops, Incref) == Count(ops, Decref)))
  {
    if 0 < n < 0x8000_0000 && Balanced(n, ops) { MortalCounts(Step(o, SetRefcnt(n)), ops); }
  }

  /* ----- the operations on an object ----- */

  class PyObject {
    var refcnt: UInt32
    var high: UInt32
    var deallocated: bool

    function Now(): Rc
      reads this
    {
      Rc(refcnt, high, deallocated)
    }

    constructor (n: UInt32)
      ensures Now() == Rc(n, 0, false)
    {
      refcnt, high, deallocated := n, 0, false;
    }

    method PyIncref()
      modifies this
      ensures Now() == Step(old(Now()), Incref)
    {
      var current := refcnt;
      if current >= IMMORTAL_INITIAL { return; }
      refcnt := current + 1;
    }

    method PyDecref()
      modifies this
      ensures Now() == Step(old(Now()), Decref)
    {
      if IsImmortal(Now()) { return; }
      refcnt := (refcnt + WORD - 1) % WORD;
      if refcnt == 0 { deallocated := true; }
    }

    /** The count is cut to 32 bits. */
    method PySetRefcnt(n: nat)
      modifies this
      ensures Now() == Step(old(Now()), SetRefcnt(n))
    {
      if IsImmortal(Now()) { return; }
      refcnt := n % WORD;
    }
  }
}
