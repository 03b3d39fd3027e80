/** The fd table as an array of 512 slots, and the calls that use it. */
module FdTable {
  import opened FdSlots
  import opened Options
  import opened Descriptors

  /* ----- the map that the slots stand for ----- */

  function Table(ss: seq<Slot>): map<int, Obj> {
    if ss == [] then map[]
    else
      var n := |ss| - 1;
      if ss[n].fd == -1 || ss[n].f.None? then Table(ss[..n]) else Table(ss[..n])[ss[n].fd := ss[n].f.value]
  }

  /** Free slots are empty, the others name distinct fds. */
  ghost predicate Tidy(ss: seq<Slot>) {
    && (forall i :: 0 <= i < |ss| ==> ss[i].fd >= -1 && (ss[i].fd == -1 <==> ss[i].f == None))
    && (forall i, j :: 0 <= i < j < |ss| && ss[i].fd == ss[j].fd ==> ss[i].fd == -1)
  }

  function Occupied(ss: seq<Slot>): nat {
    if ss == [] then 0 else Occupied(ss[..|ss| - 1]) + if ss[|ss| - 1].fd == -1 then 0 else 1
  }

  lemma {:induction false} FromTable(ss: seq<Slot>, fd: int)
    requires Tidy(ss)
    ensures fd in Table(ss) <==> exists i :: 0 <= i < |ss| && ss[i].fd == fd != -1
    decreases |ss|
  {
    if ss != [] {
      var n := |ss| - 1;
      FromTable(ss[..n], fd);
      if i :| 0 <= i < n && ss[..n][i].fd == fd != -1 { assert ss[i].fd == fd; }
    }
  }

  lemma {:induction false} InTable(ss: seq<Slot>, i: nat)
    requires Tidy(ss) && i < |ss| && ss[i].fd != -1
    ensures ss[i].fd in Table(ss) && ss[i].f == Some(Table(ss)[ss[i].fd])
    decreases |ss|
  {
    var n := |ss| - 1;
    if i < n { InTable(ss[..n], i); }
  }

  /** The table has as many fds as there are occupied slots. */
  lemma {:induction false} TableSize(ss: seq<Slot>)
    requires Tidy(ss)
    ensures |Table(ss)| == Occupied(ss) <= |ss|
    ensures Occupied(ss) == |ss| <==> forall i :: 0 <= i < |ss| ==> ss[i].fd != -1
    decreases |ss|
  {
    if ss != [] {
      var n := |ss| - 1;
      TableSize(ss[..n]);
      FromTable(ss[..n], ss[n].fd);
      assert forall i :: 0 <= i < n ==> ss[..n][i] == ss[i];
    }
  }

  lemma {:induction false} TableFilled(ss: seq<Slot>, i: nat, fd: int, e: Obj)
    requires Tidy(ss) && i < |ss| && ss[i].fd == -1 && fd >= 0 && fd !in Table(ss)
    ensures Tidy(ss[i := Slot(fd, Some(e))]) && Table(ss[i := Slot(fd, Some(e))]) == Table(ss)[fd := e]
    decreases |ss|
  {
    var t, n := ss[i := Slot(fd, Some(e))], |ss| - 1;
    FromTable(ss, fd);
    if i == n {
      assert t[..n] == ss[..n];
    } else {
      assert t[..n] == ss[..n][i := Slot(fd, Some(e))];
      assert fd !in Table(ss[..n]);
      TableFilled(ss[..n], i, fd, e);
      assert ss[n].fd != fd;
      assert Table(t) == Table(ss)[fd := e];
    }
  }

  lemma {:induction false} TableCleared(ss: seq<Slot>, i: nat)
    requires Tidy(ss) && i < |ss| && ss[i].fd != -1
    ensures Tidy(ss[i := Slot(-1, None)]) && Table(ss[i := Slot(-1, None)]) == Table(ss) - {ss[i].fd}
    decreases |ss|
  {
    var t, n, fd := ss[i := Slot(-1, None)], |ss| - 1, ss[i].fd;
    assert Tidy(t) && Tidy(ss[..n]);
    if i == n {
      assert t[..n] == ss[..n];
      FromTable(ss[..n], fd);
      assert fd !in Table(ss[..n]);
      hide Tidy;
      assert Table(ss) - {fd} == Table(ss[..n]);
    } else {
      assert t[..n] == ss[..n][i := Slot(-1, None)] && ss[n].fd != fd && t[n] == ss[n];
      TableCleared(ss[..n], i);
      hide Tidy;
      AddThenDrop(Table(ss[..n]), ss[n], fd);
    }
  }

  lemma AddThenDrop(own: map<int, Obj>, x: Slot, fd: int)
    requires x.fd != fd
    ensures x.f.Some? ==> own[x.fd := x.f.value] - {fd} == (own - {fd})[x.fd := x.f.value]
  {
  }

  class DescriptorTable {
    var slots: array<Slot>
    var live: map<Obj, Efile>
    ghost var gone: set<Obj>
    var kernel: set<int>
    var next: Obj

    ghost function Now(): World
      reads this, slots
    {
      World(Table(slots[..]), live, gone, kernel, next)
    }

    ghost predicate Valid()
      reads this, slots
    {
      slots.Length == SLOTS && Tidy(slots[..]) && Consistent(Now(), {})
    }

    constructor ()
      ensures Valid() && fresh(slots) && Now() == NOTHING
    {
      slots := new Slot[SLOTS](i => Slot(-1, None));
      live, gone, kernel, next := map[], {}, {}, 0;
      new;
      EmptyTable(slots[..]);
    }

    /** Claims the first free slot. */
    method Register(fd: int, e: Obj) returns (ok: bool)
      requires slots.Length == SLOTS && Tidy(slots[..]) && fd >= 0 && fd !in Table(slots[..])
      modifies slots
      ensures Tidy(slots[..]) && ok == (|old(Table(slots[..]))| < SLOTS)
      ensures Table(slots[..]) == if ok then old(Table(slots[..]))[fd := e] else old(Table(slots[..]))
    {
      ghost var ss := slots[..];
      TableSize(ss);
      var i := 0;
      while i < SLOTS
        invariant 0 <= i <= SLOTS && slots[..] == ss
        invariant forall j :: 0 <= j < i ==> ss[j].fd != -1
      {
        if slots[i].fd == -1 {
          TableFilled(ss, i, fd, e);
          slots[i] := Slot(fd, Some(e));
          assert slots[..] == ss[i := Slot(fd, Some(e))];
          return true;
        }
        i := i + 1;
      }
      return false;
    }

    method Lookup(fd: int) returns (f: Option<Obj>)
      requires slots.Length == SLOTS && Tidy(slots[..])
      ensures f == if fd in Table(slots[..]) then Some(Table(slots[..])[fd]) else None
    {
      FromTable(slots[..], fd);
      if fd < 0 { return None; }
      var i := 0;
      while i < SLOTS
        invariant 0 <= i <= SLOTS
        invariant forall j :: 0 <= j < i ==> slots[..][j].fd != fd
      {
        if slots[i].fd == fd {
          InTable(slots[..], i);
          return slots[i].f;
        }
        i := i + 1;
      }
      return None;
    }

    method Unregister(fd: int) returns (f: Option<Obj>)
      requires slots.Length == SLOTS && Tidy(slots[..])
      modifies slots
      ensures Tidy(slots[..]) && Table(slots[..]) == old(Table(slots[..])) - {fd}
      ensures f == if fd in old(Table(slots[..])) then Some(old(Table(slots[..]))[fd]) else None
    {
      ghost var ss := slots[..];
      FromTable(ss, fd);
      if fd < 0 {
        assert Table(ss) - {fd} == Table(ss);
        return None;
      }
      var i := 0;
      while i < SLOTS
        invariant 0 <= i <= SLOTS && slots[..] == ss
        invariant forall j :: 0 <= j < i ==> ss[j].fd != fd
      {
        if slots[i].fd == fd {
          InTable(ss, i);
          TableCleared(ss, i);
          f := slots[i].f;
          slots[i] := Slot(-1, None);
          assert slots[..] == ss[i := Slot(-1, None)];
          return f;
        }
        i := i + 1;
      }
      assert Table(ss) - {fd} == Table(ss);
      return None;
    }

    method Make(f: Efile) returns (e: Obj)
      modifies this`live, this`next
      ensures e == old(next) && live == old(live)[e := f] && next == e + 1
    {
      e := next;
      live := live[e := f];
      next := next + 1;
    }

    /** Only an EFILE that is still live can be destroyed. */
    method Destroy(e: Obj)
      requires e in live
      modifies this`live, this`gone
      ensures live == old(live) - {e} && gone == old(gone) + {e}
    {
      live := live - {e};
      gone := gone + {e};
    }

    /** open() of an embedded entry. The last three arguments tell if memory could be
        had, if the content could be decompressed, and what the kernel answered. */
    method OpenVirtual(entry: Entry, writes: bool, wantsDirectory: bool, memory: bool, loaded: bool, answer: int)
        returns (r: int)
      requires Valid() && Plausible(Now(), Open(entry, writes, wantsDirectory, memory, loaded, answer))
      modifies this`live, this`gone, this`kernel, this`next, slots
      ensures Valid() && (Now(), r) == Step(old(Now()), Open(entry, writes, wantsDirectory, memory, loaded, answer))
    {
      ghost var c := Open(entry, writes, wantsDirectory, memory, loaded, answer);
      hide Consistent, Table, Tidy, Opened, Plausible, Step;
      StepKeeps(Now(), c, {});
      OpenIs(Now(), c);
      if writes { return -1; }
      if wantsDirectory && entry.isFile { return -1; }
      if !memory { return -1; }
      var e := Make(Opened(entry));
      if !loaded {
        Destroy(e);
        return -1;
      }
      if answer < 0 {
        Destroy(e);
        return -1;
      }
      kernel := kernel + {answer};
      var ok := Register(answer, e);
      if !ok {
        kernel := kernel - {answer};
        assert kernel == old(kernel);
        Destroy(e);
        return -1;
      }
      return answer;
    }

    method CloseFd(fd: int) returns (r: int)
      requires Valid()
      modifies this`live, this`gone, this`kernel, slots
      ensures Valid() && (Now(), r) == Step(old(Now()), Close(fd))
    {
      hide Consistent, Table, Tidy, Step;
      StepKeeps(Now(), Close(fd), {});
      CloseIs(Now(), fd);
      NothingRemoved(Now().own, fd);
      var e := Unregister(fd);
      if e.Some? { Destroy(e.value); }
      r := if fd in kernel then 0 else -1;
      kernel := kernel - {fd};
    }

    /** Registers a new duplicate with a copy of `src`; closes it again on failure. */
    method Adopt(fd2: int, src: Obj, memory: bool, loaded: bool) returns (r: int)
      requires slots.Length == SLOTS && Tidy(slots[..]) && fd2 >= 0 && fd2 !in Table(slots[..]) && src in live
      modifies this`live, this`gone, this`kernel, this`next, slots
      ensures Tidy(slots[..]) && (Now(), r) == AdoptStep(old(Now()), fd2, old(live)[src], memory, loaded)
    {
      hide Table, Tidy, Copied;
      if memory {
        var copies := live[src].stream.Some? ==> loaded;
        var e := Make(Copied(live[src]));
        if copies {
          var ok := Register(fd2, e);
          if ok { return fd2; }
        }
        Destroy(e);
      }
      kernel := kernel - {fd2};
      return -1;
    }

    method DupFd(fd: int, memory: bool, loaded: bool, answer: int) returns (r: int)
      requires Valid() && Plausible(Now(), Dup(fd, memory, loaded, answer))
      modifies this`live, this`gone, this`kernel, this`next, slots
      ensures Valid() && (Now(), r) == Step(old(Now()), Dup(fd, memory, loaded, answer))
    {
      hide Consistent, Table, Tidy, AdoptStep, Plausible, Step;
      StepKeeps(Now(), Dup(fd, memory, loaded, answer), {});
      DupIs(Now(), Dup(fd, memory, loaded, answer));
      var e := Lookup(fd);
      if answer < 0 { return answer; }
      kernel := kernel + {answer};
      if e.Some? {
        r := Adopt(answer, e.value, memory, loaded);
      } else {
        r := answer;
      }
    }

    /** fcntl(F_DUPFD) asks the kernel first and the table afterwards. */
    method FcntlDupFd(fd: int, memory: bool, loaded: bool, answer: int) returns (r: int)
      requires Valid() && Plausible(Now(), Dup(fd, memory, loaded, answer))
      modifies this`live, this`gone, this`kernel, this`next, slots
      ensures Valid() && (Now(), r) == Step(old(Now()), Dup(fd, memory, loaded, answer))
    {
      hide Consistent, Table, Tidy, AdoptStep, Plausible, Step;
      StepKeeps(Now(), Dup(fd, memory, loaded, answer), {});
      DupIs(Now(), Dup(fd, memory, loaded, answer));
      if answer < 0 { return answer; }
      kernel := kernel + {answer};
      var e := Lookup(fd);
      if e.None? { return answer; }
      r := Adopt(answer, e.value, memory, loaded);
    }

    /** The target of a dup2() leaves the table. */
    method TakeTarget(fd: int, fd2: int) returns (f: Option<Obj>)
      requires slots.Length == SLOTS && Tidy(slots[..])
      modifies slots
      ensures var own, loses := old(Table(slots[..])), fd != fd2 && fd2 in old(Table(slots[..]));
              && Tidy(slots[..]) && Table(slots[..]) == (if loses then own - {fd2} else own)
              && f == if loses then Some(own[fd2]) else None
    {
      hide Table, Tidy;
      if fd == fd2 { return None; }
      NothingRemoved(Table(slots[..]), fd2);
      f := Unregister(fd2);
    }

    /** dup2() and dup3(). */
    method DupFdOnto(fd: int, fd2: int, memory: bool, loaded: bool, answer: int) returns (r: int)
      requires Valid() && Plausible(Now(), DupOnto(fd, fd2, memory, loaded, answer))
      modifies this`live, this`gone, this`kernel, this`next, slots
      ensures Valid() && (Now(), r) == Step(old(Now()), DupOnto(fd, fd2, memory, loaded, answer))
    {
      ghost var w := Now();
      ghost var c := DupOnto(fd, fd2, memory, loaded, answer);
      hide Consistent, Table, Tidy, AdoptStep, Plausible, Step;
      StepKeeps(w, c, {});
      DupOntoIs(w, c);
      Targets(w, c);
      var e := Lookup(fd);
      var old' := TakeTarget(fd, fd2);
      if answer < 0 {
        if old'.Some? { var _ := Register(fd2, old'.value); }
        return answer;
      }
      kernel := kernel + {fd2};
      if old'.Some? { Destroy(old'.value); }
      if e.None? || fd == fd2 { return answer; }
      r := Adopt(fd2, e.value, memory, loaded);
      r := if r < 0 then -1 else answer;
    }
  }

  lemma EmptyTable(ss: seq<Slot>)
    requires forall i :: 0 <= i < |ss| ==> ss[i] == Slot(-1, None)
    ensures Tidy(ss) && Table(ss) == map[]
    decreases |ss|
  {
    if ss != [] { EmptyTable(ss[..|ss| - 1]); }
  }

  lemma CloseIs(w: World, fd: int)
    requires Consistent(w, {})
    ensures Step(w, Close(fd)) == CloseStep(w, fd) && (fd in w.own ==> w.own[fd] in w.live)
  {
  }

  lemma DupOntoIs(w: World, c: Call)
    requires c.DupOnto?
    ensures Step(w, c) == DupOntoStep(w, c.fd, c.fd2, c.memory, c.loaded, c.answer)
  {
  }

  lemma OpenIs(w: World, c: Call)
    requires Consistent(w, {}) && Plausible(w, c) && c.Open?
    ensures Step(w, c) == OpenStep(w, c)
    ensures c.answer >= 0 ==> c.answer !in w.own && c.answer !in w.kernel
  {
  }

  lemma DupIs(w: World, c: Call)
    requires Consistent(w, {}) && Plausible(w, c) && c.Dup?
    ensures Step(w, c) == DupStep(w, c.fd, c.memory, c.loaded, c.answer)
    ensures c.answer >= 0 ==> c.answer !in w.own
    ensures c.fd in w.own ==> w.own[c.fd] in w.live
  {
  }

  lemma NothingRemoved(own: map<int, Obj>, fd: int)
    ensures fd !in own ==> own - {fd} == own
  {
  }

  /** The two fds of a dup2() have different EFILEs, and the target can be put back. */
  lemma Targets(w: World, c: Call)
    requires Consistent(w, {}) && Plausible(w, c) && c.DupOnto?
    ensures c.fd in w.own ==> w.own[c.fd] in w.live
    ensures c.fd2 in w.own ==> c.fd2 >= 0 && w.own[c.fd2] in w.live && |Removed(w, c.fd2).own| < SLOTS
    ensures c.fd in w.own && c.fd2 in w.own && c.fd != c.fd2 ==> w.own[c.fd] != w.own[c.fd2]
    ensures c.answer >= 0 ==> c.answer == c.fd2 >= 0
  {
    if c.fd2 in w.own { RemovedKeeps(w, c.fd2, {}); }
  }
}
