/** Descriptors of virtual files as one thread sees them: which EFILE each one has,
    and what open, close, dup, dup2 and F_DUPFD do to them, failures included. */
module Descriptors {
  import opened Octets
  import opened EmbedStream
  import opened FdSlots
  import opened Options

  /** An embedded file, or a directory. */
  datatype Entry = Entry(isFile: bool, content: seq<byte>)

  /** An EFILE: a directory has no buffer. */
  datatype Efile = Efile(entry: Entry, stream: Option<Stream>)

  /** `own` is the fd table; `live` are the EFILEs allocated and not yet destroyed,
      `gone` those destroyed; `kernel` are the open fds of any kind. */
  datatype World = World(own: map<int, Obj>, live: map<Obj, Efile>, gone: set<Obj>, kernel: set<int>, next: Obj)

  function Start(content: seq<byte>): Stream {
    Stream([0] + content + [0], 1, 1 + |content|, |content|, 0, 0, false, false)
  }

  function Opened(e: Entry): Efile {
    Efile(e, if e.isFile then Some(Start(e.content)) else None)
  }

  /** The EFILE of a duplicate: decompressed anew, and moved to the same place. */
  function Copied(f: Efile): Efile {
    match f.stream
    case None => f
    case Some(s) =>
      var at := s.pos - (s.end - s.size);
      var start := Start(f.entry.content);
      var t := if at > 0 then SeekStep(start, at, Set).0 else start;
      Efile(f.entry, Some(t.(eof := s.eof, bad := s.bad)))
  }

  ghost predicate FileOk(f: Efile) {
    && (f.entry.isFile <==> f.stream.Some?)
    && (f.stream.Some? ==> Inv(f.stream.value, f.entry.content))
  }

  /* ----- one step at a time ----- */

  function Made(w: World, f: Efile): World {
    w.(live := w.live[w.next := f], next := w.next + 1)
  }

  function Destroyed(w: World, e: Obj): World {
    w.(live := w.live - {e}, gone := w.gone + {e})
  }

  function Removed(w: World, fd: int): World {
    w.(own := w.own - {fd})
  }

  function Registered(w: World, fd: int, e: Obj): World {
    if |w.own| < SLOTS then w.(own := w.own[fd := e]) else w
  }

  function KernelOpen(w: World, fd: int): World {
    w.(kernel := w.kernel + {fd})
  }

  function KernelClose(w: World, fd: int): World {
    w.(kernel := w.kernel - {fd})
  }

  /* ----- the calls, with what the kernel and the allocator answer ----- */

  datatype Call =
    | Open(entry: Entry, writes: bool, wantsDirectory: bool, memory: bool, loaded: bool, answer: int)
    | OpenPlain(answer: int)
    | Close(fd: int)
    | Dup(fd: int, memory: bool, loaded: bool, answer: int)   // dup() and F_DUPFD
    | DupOnto(fd: int, fd2: int, memory: bool, loaded: bool, answer: int)
    | Move(fd: int, to: Stream)                               // a read, a seek or a pushback

  /** What a kernel can answer: a number not in use for open() and dup(), fd2 for
      dup2(), or a failure; only open fds can be duplicated. */
  ghost predicate Plausible(w: World, c: Call) {
    match c
    case Open(_, _, _, _, _, answer) => answer < 0 || answer !in w.kernel
    case OpenPlain(answer) => answer < 0 || answer !in w.kernel
    case Close(_) => true
    case Dup(fd, _, _, answer) => answer < 0 || (fd in w.kernel && answer !in w.kernel)
    case DupOnto(fd, fd2, _, _, answer) => answer < 0 || (fd in w.kernel && answer == fd2)
    case Move(fd, to) =>
      fd in w.own && w.own[fd] in w.live && w.live[w.own[fd]].stream.Some? && Inv(to, w.live[w.own[fd]].entry.content)
  }

  function OpenStep(w: World, c: Call): (World, int)
    requires c.Open?
  {
    if c.writes || (c.wantsDirectory && c.entry.isFile) || !c.memory then (w, -1)
    else
      var m := Made(w, Opened(c.entry));
      if !c.loaded || c.answer < 0 then (Destroyed(m, w.next), -1)
      else if |w.own| < SLOTS then (KernelOpen(Registered(m, c.answer, w.next), c.answer), c.answer)
      else (Destroyed(m, w.next), -1)
  }

  function CloseStep(w: World, fd: int): (World, int) {
    var u := if fd in w.own then Destroyed(Removed(w, fd), w.own[fd]) else w;
    (KernelClose(u, fd), if fd in w.kernel then 0 else -1)
  }

  /** Only a file is decompressed for its copy. */
  predicate Copies(src: Efile, loaded: bool) {
    src.stream.Some? ==> loaded
  }

  /** A new duplicate is registered with a copy, or closed again. */
  function AdoptStep(w: World, fd2: int, src: Efile, memory: bool, loaded: bool): (World, int) {
    if !memory then (KernelClose(w, fd2), -1)
    else
      var m := Made(w, Copied(src));
      if Copies(src, loaded) && |w.own| < SLOTS then (Registered(m, fd2, w.next), fd2)
      else (KernelClose(Destroyed(m, w.next), fd2), -1)
  }

  function DupStep(w: World, fd: int, memory: bool, loaded: bool, answer: int): (World, int) {
    if answer < 0 then (w, answer)
    else if fd in w.own && w.own[fd] in w.live then
      AdoptStep(KernelOpen(w, answer), answer, w.live[w.own[fd]], memory, loaded)
    else (KernelOpen(w, answer), answer)
  }

  /** dup2(): the target's EFILE leaves the table first, comes back if the kernel
      refuses, and is destroyed otherwise. */
  function DupOntoStep(w: World, fd: int, fd2: int, memory: bool, loaded: bool, answer: int): (World, int) {
    var loses := fd != fd2 && fd2 in w.own;
    var u := if loses then Removed(w, fd2) else w;
    if answer < 0 then (if loses then Registered(u, fd2, w.own[fd2]) else u, answer)
    else
      var k := KernelOpen(u, fd2);
      var d := if loses then Destroyed(k, w.own[fd2]) else k;
      if fd != fd2 && fd in w.own && w.own[fd] in w.live then
        var (a, r) := AdoptStep(d, fd2, w.live[w.own[fd]], memory, loaded);
        (a, if r < 0 then -1 else answer)
      else (d, answer)
  }

  function MoveStep(w: World, fd: int, to: Stream): World {
    if fd in w.own && w.own[fd] in w.live then
      w.(live := w.live[w.own[fd] := w.live[w.own[fd]].(stream := Some(to))])
    else w
  }

  function Step(w: World, c: Call): (World, int) {
    match c
    case Open(_, _, _, _, _, _) => OpenStep(w, c)
    case OpenPlain(answer) => (if answer < 0 then w else KernelOpen(w, answer), answer)
    case Close(fd) => CloseStep(w, fd)
    case Dup(fd, memory, loaded, answer) => DupStep(w, fd, memory, loaded, answer)
    case DupOnto(fd, fd2, memory, loaded, answer) => DupOntoStep(w, fd, fd2, memory, loaded, answer)
    case Move(fd, to) => (MoveStep(w, fd, to), 0)
  }

  /* ----- what every call keeps ----- */

  /** The table: open fds, each with a live EFILE of its own; `spares` are EFILEs that
      some call holds outside the table for a while. */
  ghost predicate Consistent(w: World, spares: set<Obj>) {
    && |w.own| <= SLOTS
    && (forall fd :: fd in w.own ==> fd >= 0 && fd in w.kernel && w.own[fd] in w.live && w.own[fd] !in spares)
    && (forall fd, fd' :: fd in w.own && fd' in w.own && w.own[fd] == w.own[fd'] ==> fd == fd')
    && (forall e :: e in w.live ==> FileOk(w.live[e]) && e < w.next && e !in w.gone)
    && (forall e :: e in w.live ==> e in spares || Owned(w, e))
    && (forall e :: e in w.gone ==> e < w.next)
    && (forall e :: 0 <= e < w.next ==> e in w.live || e in w.gone)
    && spares <= w.live.Keys
  }

  ghost predicate Has(w: World, fd: int, e: Obj) {
    fd in w.own && w.own[fd] == e
  }

  ghost predicate Owned(w: World, e: Obj) {
    exists fd :: Has(w, fd, e)
  }

  lemma StillOwned(w: World, m: World, e: Obj)
    requires Owned(w, e) && forall fd :: fd in w.own && w.own[fd] == e ==> fd in m.own && m.own[fd] == e
    ensures Owned(m, e)
  {
    var fd :| Has(w, fd, e);
    assert Has(m, fd, e);
  }

  lemma StartOk(content: seq<byte>)
    ensures Inv(Start(content), content) && Unread(Start(content)) == content
  {
    var s := Start(content);
    assert s.buf[..s.end] == [0] + content;
    assert s.buf[1..s.end] == content;
  }

  lemma OpenedOk(e: Entry)
    ensures FileOk(Opened(e))
  {
    StartOk(e.content);
  }

  lemma CopiedOk(f: Efile)
    requires FileOk(f)
    ensures FileOk(Copied(f))
  {
    if f.stream.Some? {
      var s, start := f.stream.value, Start(f.entry.content);
      StartOk(f.entry.content);
      var at := s.pos - (s.end - s.size);
      SeekRestores(start, at, Set, f.entry.content);
      var t := if at > 0 then SeekStep(start, at, Set).0 else start;
      assert Restored(t.(eof := s.eof, bad := s.bad)).buf == Restored(t).buf;
    }
  }

  lemma MadeKeeps(w: World, f: Efile, spares: set<Obj>)
    requires Consistent(w, spares) && FileOk(f)
    ensures Consistent(Made(w, f), spares + {w.next}) && w.next !in spares
  {
    hide FileOk, Owned;
    var m := Made(w, f);
    assert w.next !in w.live && w.next !in w.gone;
    forall e | e in m.live && e !in spares + {w.next} ensures Owned(m, e) { StillOwned(w, m, e); }
    assert forall e :: e in m.live ==> e == w.next || (e in w.live && m.live[e] == w.live[e]);
  }

  lemma DestroyedKeeps(w: World, e: Obj, spares: set<Obj>)
    requires Consistent(w, spares) && e in spares
    ensures Consistent(Destroyed(w, e), spares - {e})
  {
    hide FileOk, Owned;
    var d := Destroyed(w, e);
    forall x | x in d.live && x !in spares - {e} ensures Owned(d, x) { StillOwned(w, d, x); }
  }

  lemma RemovedKeeps(w: World, fd: int, spares: set<Obj>)
    requires Consistent(w, spares) && fd in w.own
    ensures Consistent(Removed(w, fd), spares + {w.own[fd]}) && |Removed(w, fd).own| == |w.own| - 1
    ensures w.own[fd] !in spares
  {
    hide FileOk, Owned;
    var u := Removed(w, fd);
    assert u.own.Keys == w.own.Keys - {fd};
    forall e | e in u.live && e !in spares + {w.own[fd]} ensures Owned(u, e) { StillOwned(w, u, e); }
  }

  lemma RegisteredKeeps(w: World, fd: int, e: Obj, spares: set<Obj>)
    requires Consistent(w, spares) && e in spares && fd >= 0 && fd in w.kernel && fd !in w.own && |w.own| < SLOTS
    ensures Consistent(Registered(w, fd, e), spares - {e})
  {
    var r := Registered(w, fd, e);
    assert r.own.Keys == w.own.Keys + {fd};
    assert Owned(r, e) by { assert Has(r, fd, e); }
    hide FileOk, Owned;
    forall x | x in r.live && x !in spares ensures Owned(r, x) { StillOwned(w, r, x); }
  }

  lemma KernelKeeps(w: World, fd: int, spares: set<Obj>)
    requires Consistent(w, spares)
    ensures Consistent(KernelOpen(w, fd), spares)
    ensures fd !in w.own ==> Consistent(KernelClose(w, fd), spares)
  {
    hide FileOk, Owned;
    var o, c := KernelOpen(w, fd), KernelClose(w, fd);
    forall e | e in w.live && e !in spares ensures Owned(o, e) && Owned(c, e) {
      StillOwned(w, o, e);
      StillOwned(w, c, e);
    }
  }

  /** An EFILE made and destroyed in one call. */
  lemma MadeAndDestroyed(w: World, f: Efile, spares: set<Obj>)
    requires Consistent(w, spares) && FileOk(f)
    ensures Consistent(Destroyed(Made(w, f), w.next), spares)
  {
    MadeKeeps(w, f, spares);
    assert spares + {w.next} - {w.next} == spares;
    hide Consistent, FileOk;
    DestroyedKeeps(Made(w, f), w.next, spares + {w.next});
  }

  /** An EFILE made for an fd that the kernel has just opened. */
  lemma MadeAndRegistered(w: World, fd: int, f: Efile, spares: set<Obj>)
    requires Consistent(w, spares) && FileOk(f) && fd >= 0 && fd in w.kernel && fd !in w.own && |w.own| < SLOTS
    ensures Consistent(Registered(Made(w, f), fd, w.next), spares)
  {
    MadeKeeps(w, f, spares);
    assert spares + {w.next} - {w.next} == spares;
    hide Consistent, FileOk;
    RegisteredKeeps(Made(w, f), fd, w.next, spares + {w.next});
  }

  lemma AdoptKeeps(w: World, fd2: int, src: Efile, memory: bool, loaded: bool, spares: set<Obj>)
    requires Consistent(w, spares) && fd2 >= 0 && fd2 in w.kernel && fd2 !in w.own && FileOk(src)
    ensures Consistent(AdoptStep(w, fd2, src, memory, loaded).0, spares)
  {
    hide Consistent, FileOk, Copied;
    if !memory {
      KernelKeeps(w, fd2, spares);
    } else {
      CopiedOk(src);
      if Copies(src, loaded) && |w.own| < SLOTS {
        MadeAndRegistered(w, fd2, Copied(src), spares);
      } else {
        MadeAndDestroyed(w, Copied(src), spares);
        KernelKeeps(Destroyed(Made(w, Copied(src)), w.next), fd2, spares);
      }
    }
  }

  lemma OpenKeeps(w: World, c: Call, spares: set<Obj>)
    requires Consistent(w, spares) && c.Open? && Plausible(w, c)
    ensures Consistent(OpenStep(w, c).0, spares)
  {
    OpenedOk(c.entry);
    assert c.answer >= 0 ==> c.answer !in w.own;
    hide Consistent, FileOk, Opened, Made, Destroyed, Registered, KernelOpen, Plausible;
    var f := Opened(c.entry);
    MadeAndDestroyed(w, f, spares);
    if c.answer >= 0 && |w.own| < SLOTS {
      var k := KernelOpen(w, c.answer);
      KernelKeeps(w, c.answer, spares);
      MadeAndRegistered(k, c.answer, f, spares);
      OpenedInOrder(w, f, c.answer);
    }
  }

  /** Whether the kernel's fd or the slot comes first makes no difference. */
  lemma OpenedInOrder(w: World, f: Efile, fd: int)
    ensures Registered(Made(KernelOpen(w, fd), f), fd, w.next) == KernelOpen(Registered(Made(w, f), fd, w.next), fd)
  {
  }

  lemma CloseKeeps(w: World, fd: int, spares: set<Obj>)
    requires Consistent(w, spares)
    ensures Consistent(CloseStep(w, fd).0, spares)
  {
    hide Consistent;
    if fd in w.own {
      var e := w.own[fd];
      RemovedKeeps(w, fd, spares);
      DestroyedKeeps(Removed(w, fd), e, spares + {e});
      assert spares + {e} - {e} == spares;
      KernelKeeps(Destroyed(Removed(w, fd), e), fd, spares);
    } else {
      KernelKeeps(w, fd, spares);
    }
  }

  lemma DupKeeps(w: World, c: Call, spares: set<Obj>)
    requires Consistent(w, spares) && c.Dup? && Plausible(w, c)
    ensures Consistent(DupStep(w, c.fd, c.memory, c.loaded, c.answer).0, spares)
  {
    if c.answer >= 0 {
      assert c.answer !in w.own;
      assert c.fd in w.own ==> FileOk(w.live[w.own[c.fd]]);
      hide Consistent, FileOk;
      KernelKeeps(w, c.answer, spares);
      if c.fd in w.own && w.own[c.fd] in w.live {
        AdoptKeeps(KernelOpen(w, c.answer), c.answer, w.live[w.own[c.fd]], c.memory, c.loaded, spares);
      }
    }
  }

  /** Taken out of the table and put back. */
  lemma PutBack(w: World, fd: int)
    requires fd in w.own && |w.own| <= SLOTS
    ensures Registered(Removed(w, fd), fd, w.own[fd]) == w
  {
    assert (w.own - {fd}).Keys == w.own.Keys - {fd};
    assert (w.own - {fd})[fd := w.own[fd]] == w.own;
  }

  /** A dup2() the kernel refuses changes nothing, if no other call comes between. */
  lemma RefusedDup2(w: World, c: Call, spares: set<Obj>)
    requires Consistent(w, spares) && c.DupOnto? && c.answer < 0
    ensures Step(w, c) == (w, c.answer)
  {
    assert |w.own| <= SLOTS;
    hide Consistent, Removed, Registered, Destroyed, KernelOpen, AdoptStep;
    if c.fd != c.fd2 && c.fd2 in w.own { PutBack(w, c.fd2); }
  }

  lemma DupOntoKeeps(w: World, c: Call, spares: set<Obj>)
    requires Consistent(w, spares) && c.DupOnto? && Plausible(w, c)
    ensures Consistent(DupOntoStep(w, c.fd, c.fd2, c.memory, c.loaded, c.answer).0, spares)
  {
    var fd, fd2 := c.fd, c.fd2;
    if c.answer < 0 {
      RefusedDup2(w, c, spares);
      hide Consistent, DupOntoStep;
    } else {
      assert fd in w.own ==> w.own[fd] in w.live && FileOk(w.live[w.own[fd]]);
      assert fd in w.own && fd2 in w.own && fd != fd2 ==> w.own[fd] != w.own[fd2];
      assert fd2 == c.answer && (fd != fd2 && fd2 in w.own ==> fd2 !in Removed(w, fd2).own);
      hide Consistent, FileOk, AdoptStep, Plausible;
      TargetTaken(w, fd, fd2, spares);
      var d := Taken(w, fd, fd2);
      if fd != fd2 && fd in w.own { AdoptKeeps(d, fd2, w.live[w.own[fd]], c.memory, c.loaded, spares); }
    }
  }

  /** What a successful dup2() has done before it adopts the copy. */
  function Taken(w: World, fd: int, fd2: int): World {
    if fd != fd2 && fd2 in w.own then Destroyed(KernelOpen(Removed(w, fd2), fd2), w.own[fd2]) else KernelOpen(w, fd2)
  }

  lemma TargetTaken(w: World, fd: int, fd2: int, spares: set<Obj>)
    requires Consistent(w, spares)
    ensures Consistent(Taken(w, fd, fd2), spares)
  {
    hide Consistent;
    if fd != fd2 && fd2 in w.own {
      var e := w.own[fd2];
      RemovedKeeps(w, fd2, spares);
      KernelKeeps(Removed(w, fd2), fd2, spares + {e});
      DestroyedKeeps(KernelOpen(Removed(w, fd2), fd2), e, spares + {e});
      assert spares + {e} - {e} == spares;
    } else {
      KernelKeeps(w, fd2, spares);
    }
  }

  lemma MoveKeeps(w: World, c: Call, spares: set<Obj>)
    requires Consistent(w, spares) && c.Move? && Plausible(w, c)
    ensures Consistent(MoveStep(w, c.fd, c.to), spares)
  {
    hide Inv;
    var m := MoveStep(w, c.fd, c.to);
    hide Owned;
    forall e | e in w.live && e !in spares ensures Owned(m, e) { StillOwned(w, m, e); }
  }

  /** Every call, however it ends, keeps the table and the EFILEs in step. */
  lemma StepKeeps(w: World, c: Call, spares: set<Obj>)
    requires Consistent(w, spares) && Plausible(w, c)
    ensures Consistent(Step(w, c).0, spares)
  {
    match c
    case Open(_, _, _, _, _, _) => OpenKeeps(w, c, spares);
    case OpenPlain(answer) => KernelKeeps(w, answer, spares);
    case Close(fd) => CloseKeeps(w, fd, spares);
    case Dup(_, _, _, _) => DupKeeps(w, c, spares);
    case DupOnto(_, _, _, _, _) => DupOntoKeeps(w, c, spares);
    case Move(_, _) => MoveKeeps(w, c, spares);
  }

  /* ----- calls of other threads inside a dup2() ----- */

  /** A call that does not name `fd`. */
  predicate Avoids(c: Call, fd: int) {
    match c
    case Close(d) => d != fd
    case Dup(d, _, _, _) => d != fd
    case DupOnto(d, d2, _, _, _) => d != fd && d2 != fd
    case Move(d, _) => d != fd
    case _ => true
  }

  /** What other threads do, one call after another, to fds other than `fd`. */
  ghost predicate Elsewhere(b: seq<World>, cs: seq<Call>, fd: int) {
    && |b| == |cs| + 1
    && forall i :: 0 <= i < |cs| ==> Plausible(b[i], cs[i]) && Avoids(cs[i], fd) && b[i + 1] == Step(b[i], cs[i]).0
  }

  /** `fd` is open but in no slot, and so is the live EFILE `e`. */
  ghost predicate Apart(w: World, fd: int, e: Obj) {
    fd !in w.own && fd in w.kernel && e in w.live && e < w.next && forall d :: d in w.own ==> w.own[d] != e
  }

  lemma AdoptElsewhere(w: World, fd2: int, src: Efile, memory: bool, loaded: bool, fd: int, e: Obj)
    requires Apart(w, fd, e) && fd2 != fd
    ensures var r := AdoptStep(w, fd2, src, memory, loaded).0;
            Apart(r, fd, e) && r.live[e] == w.live[e]
  {
    hide Copied;
  }

  lemma DupOntoElsewhere(w: World, c: Call, fd: int, e: Obj)
    requires Apart(w, fd, e) && c.DupOnto? && Avoids(c, fd)
    ensures var r := DupOntoStep(w, c.fd, c.fd2, c.memory, c.loaded, c.answer).0;
            Apart(r, fd, e) && r.live[e] == w.live[e]
  {
    var fd2 := c.fd2;
    var loses := c.fd != fd2 && fd2 in w.own;
    var u := if loses then Removed(w, fd2) else w;
    var k := KernelOpen(u, fd2);
    var d := if loses then Destroyed(k, w.own[fd2]) else k;
    if c.answer >= 0 && c.fd != fd2 && c.fd in w.own && w.own[c.fd] in w.live {
      assert Apart(d, fd, e) && d.live[e] == w.live[e];
      AdoptElsewhere(d, fd2, w.live[w.own[c.fd]], c.memory, c.loaded, fd, e);
      hide AdoptStep;
    }
  }

  /** An fd outside the table stays open and outside, and an EFILE held outside is left
      as it is. */
  lemma StepElsewhere(w: World, c: Call, fd: int, e: Obj)
    requires Apart(w, fd, e) && Plausible(w, c) && Avoids(c, fd)
    ensures var r := Step(w, c).0; Apart(r, fd, e) && r.live[e] == w.live[e]
  {
    hide Opened, AdoptStep, DupOntoStep, Inv;
    match c
    case Dup(d, memory, loaded, answer) =>
      if answer >= 0 && d in w.own && w.own[d] in w.live {
        AdoptElsewhere(KernelOpen(w, answer), answer, w.live[w.own[d]], memory, loaded, fd, e);
      }
    case DupOnto(_, _, _, _, _) => DupOntoElsewhere(w, c, fd, e);
    case _ =>
  }

  lemma {:induction false} RunElsewhere(b: seq<World>, cs: seq<Call>, fd: int, e: Obj, n: nat)
    requires Elsewhere(b, cs, fd) && n < |b| && Consistent(b[0], {e}) && Apart(b[0], fd, e)
    ensures Consistent(b[n], {e}) && Apart(b[n], fd, e) && b[n].live[e] == b[0].live[e]
    decreases n
  {
    hide Step, Plausible, Consistent;
    if n > 0 {
      RunElsewhere(b, cs, fd, e, n - 1);
      StepKeeps(b[n - 1], cs[n - 1], {e});
      StepElsewhere(b[n - 1], cs[n - 1], fd, e);
    }
  }

  /** A dup2() that the kernel refuses, with any calls of other threads between taking the
      target out of the table and putting it back: the target keeps its EFILE, unchanged,
      if and only if a slot is free when it is put back. Otherwise it stays open without
      one, and the EFILE stays alive in no slot. */
  lemma RefusedDup2Between(w: World, fd2: int, b: seq<World>, cs: seq<Call>)
    requires Consistent(w, {}) && fd2 in w.own
    requires Elsewhere(b, cs, fd2) && b[0] == Removed(w, fd2)
    ensures var e, v := w.own[fd2], b[|cs|];
            var r := Registered(v, fd2, e);
            && (Has(r, fd2, e) <==> |v.own| < SLOTS)
            && (|v.own| < SLOTS ==> Consistent(r, {}) && r.own == v.own[fd2 := e])
            && (|v.own| == SLOTS ==> r == v && fd2 !in r.own && forall fd :: !Has(r, fd, e))
            && |v.own| <= SLOTS && fd2 in r.kernel && e in r.live && r.live[e] == w.live[e]
  {
    var e, v := w.own[fd2], b[|cs|];
    assert fd2 >= 0;
    RemovedKeeps(w, fd2, {});
    assert {} + {e} == {e};
    assert Apart(b[0], fd2, e);
    RunElsewhere(b, cs, fd2, e, |cs|);
    hide Elsewhere;
    PutBackOrNot(v, fd2, e);
  }

  /** Registering what a thread holds for an fd that is in no slot. */
  lemma PutBackOrNot(v: World, fd: int, e: Obj)
    requires Consistent(v, {e}) && Apart(v, fd, e) && fd >= 0
    ensures var r := Registered(v, fd, e);
            && (Has(r, fd, e) <==> |v.own| < SLOTS)
            && (|v.own| < SLOTS ==> Consistent(r, {}) && r.own == v.own[fd := e])
            && (|v.own| == SLOTS ==> r == v && fd !in r.own && forall d :: !Has(r, d, e))
            && |v.own| <= SLOTS && fd in r.kernel && e in r.live && r.live == v.live
  {
    assert |v.own| <= SLOTS;
    hide Consistent;
    if |v.own| < SLOTS {
      RegisteredKeeps(v, fd, e, {e});
      assert {e} - {e} == {};
    }
  }

  /** So it happens: with a full table, any file opened in between takes the last slot. */
  lemma LastSlotTaken(w: World, fd2: int, c: Call)
    requires Consistent(w, {}) && fd2 in w.own && |w.own| == SLOTS
    requires c.Open? && Plausible(Removed(w, fd2), c) && Step(Removed(w, fd2), c).1 >= 0
    ensures var e, v := w.own[fd2], Step(Removed(w, fd2), c).0;
            var r := Registered(v, fd2, e);
            fd2 !in r.own && fd2 in r.kernel && e in r.live && forall fd :: !Has(r, fd, e)
  {
    var u := Removed(w, fd2);
    var v := Step(u, c).0;
    RemovedKeeps(w, fd2, {});
    assert c.answer !in u.own;
    hide Consistent;
    FileOpened(u, c);
    var b := [u, v];
    assert Elsewhere(b, [c], fd2);
    RefusedDup2Between(w, fd2, b, [c]);
    assert v.own.Keys == u.own.Keys + {c.answer};
  }

  lemma FileOpened(u: World, c: Call)
    requires c.Open? && Step(u, c).1 >= 0
    ensures Step(u, c).0.own == u.own[c.answer := u.next]
  {
  }

  /* ----- whole runs ----- */

  const NOTHING := World(map[], map[], {}, {}, 0)

  ghost predicate IsRun(b: seq<World>, cs: seq<Call>) {
    && |b| == |cs| + 1 && b[0].own == map[] && b[0].live == map[] && b[0].gone == {} && b[0].next == 0
    && forall i :: 0 <= i < |cs| ==> Plausible(b[i], cs[i]) && b[i + 1] == Step(b[i], cs[i]).0
  }

  lemma {:induction false} RunKeeps(b: seq<World>, cs: seq<Call>, n: nat)
    requires IsRun(b, cs) && n < |b|
    ensures Consistent(b[n], {})
    decreases n
  {
    hide Step, Plausible;
    if n == 0 {
      assert Consistent(b[0], {});
    } else {
      hide Consistent;
      RunKeeps(b, cs, n - 1);
      StepKeeps(b[n - 1], cs[n - 1], {});
    }
  }

  /** Objects that each have an fd are no more than the fds. */
  lemma {:induction false} NoMoreObjs(own: map<int, Obj>, objs: set<Obj>)
    requires forall e :: e in objs ==> exists fd :: fd in own && own[fd] == e
    ensures |objs| <= |own|
    decreases |objs|
  {
    if objs != {} {
      var e :| e in objs;
      var fd :| fd in own && own[fd] == e;
      var rest := own - {fd};
      assert own.Keys == rest.Keys + {fd};
      forall x | x in objs - {e} ensures exists d :: d in rest && rest[d] == x {
        var d :| d in own && own[d] == x;
        assert d in rest && rest[d] == x;
      }
      NoMoreObjs(rest, objs - {e});
    }
  }

  lemma {:induction false} UpTo(n: nat, s: set<nat>)
    requires forall e: nat :: e in s <==> e < n
    ensures |s| == n
    decreases n
  {
    if n > 0 {
      UpTo(n - 1, s - {n - 1});
    } else {
      assert s == {};
    }
  }

  lemma LiveAreOwned(w: World)
    requires Consistent(w, {})
    ensures |w.live| <= |w.own| && forall e :: e in w.live <==> Owned(w, e)
  {
    forall e | e in w.live.Keys ensures exists fd :: fd in w.own && w.own[fd] == e {
      var fd :| Has(w, fd, e);
      assert fd in w.own && w.own[fd] == e;
    }
    NoMoreObjs(w.own, w.live.Keys);
  }

  lemma AllAccounted(w: World)
    requires Consistent(w, {})
    ensures w.live.Keys !! w.gone && |w.live| + |w.gone| == w.next
  {
    var made := w.live.Keys + w.gone;
    UpTo(w.next, made);
  }

  /** After any run: the live EFILEs are exactly those of the fds in the table, no two
      fds share one, they are at most 512, and every EFILE ever made is live or was
      destroyed, never both. */
  lemma Conservation(b: seq<World>, cs: seq<Call>, n: nat)
    requires IsRun(b, cs) && n < |b|
    ensures var w := b[n];
            && |w.live| <= |w.own| <= SLOTS
            && (forall e :: e in w.live <==> Owned(w, e))
            && (forall e, fd, fd' :: Has(w, fd, e) && Has(w, fd', e) ==> fd == fd')
            && (forall fd :: fd in w.own ==> fd in w.kernel)
            && w.live.Keys !! w.gone && |w.live| + |w.gone| == w.next
  {
    RunKeeps(b, cs, n);
    LiveAreOwned(b[n]);
    AllAccounted(b[n]);
    hide IsRun;
  }

  /** A duplicate has the unread bytes of its source exactly when no pushed-back byte
      is waiting there; what was pushed back stays behind. */
  lemma CopyReads(f: Efile)
    requires FileOk(f) && f.stream.Some?
    ensures var s, t := f.stream.value, Copied(f).stream;
            t.Some? && (Unread(t.value) == Unread(s) <==> s.pos >= 1 && (Pending(s) ==> s.buf[s.at] == s.saved % 256))
    ensures var s, t := f.stream.value, Copied(f).stream;
            t.Some? && t.value.saved == 0 && (s.pos >= 1 ==> t.value.pos == s.pos) && t.value.eof == s.eof
  {
    var s, content := f.stream.value, f.entry.content;
    var start, at := Start(content), s.pos - (s.end - s.size);
    StartOk(content);
    SeekRestores(start, at, Set, content);
    var t := Copied(f).stream.value;
    assert t.buf == start.buf;
    if 1 <= s.pos <= s.end {
      SameTail(s, t, content);
    }
  }

  lemma SameTail(s: Stream, t: Stream, content: seq<byte>)
    requires Inv(s, content) && 1 <= s.pos == t.pos <= s.end == t.end && t.buf == Start(content).buf
    ensures Unread(t) == Unread(s) <==> (Pending(s) ==> s.buf[s.at] == s.saved % 256)
  {
    var r := Restored(s);
    forall i | 0 <= i < s.end ensures r.buf[i] == t.buf[i] {
      assert r.buf[..s.end][i] == ([0] + content)[i];
    }
    if Pending(s) {
      assert Unread(s)[s.at - s.pos] == s.buf[s.at];
      assert Unread(t)[s.at - s.pos] == t.buf[s.at] == s.saved % 256;
      if s.buf[s.at] == s.saved % 256 {
        assert r.buf == s.buf;
        assert forall i :: 0 <= i < s.end - s.pos ==>
              Unread(s)[i] == s.buf[i + s.pos] && Unread(t)[i] == t.buf[i + s.pos];
        assert Unread(s) == Unread(t);
      }
    } else {
      assert forall i :: s.pos <= i < s.end ==> s.buf[i] == r.buf[i];
      assert forall i :: 0 <= i < s.end - s.pos ==>
            Unread(s)[i] == s.buf[i + s.pos] && Unread(t)[i] == t.buf[i + s.pos];
      assert Unread(s) == Unread(t);
    }
  }

  /** Descriptors do not share a position: moving one leaves the others alone. */
  lemma Independent(w: World, c: Call, other: int)
    requires Consistent(w, {}) && c.Move? && Plausible(w, c) && other in w.own && other != c.fd
    ensures var r := Step(w, c).0;
            other in r.own && r.own[other] in r.live && r.live[r.own[other]] == w.live[w.own[other]]
  {
  }

  /** A successful dup() or dup2() of a virtual fd onto another number gives it a
      copy, with an EFILE of its own, and leaves the source as it was. */
  lemma DupCopies(w: World, c: Call)
    requires Consistent(w, {}) && Plausible(w, c)
    requires (c.Dup? || (c.DupOnto? && c.fd != c.fd2)) && c.fd in w.own && Step(w, c).1 >= 0
    ensures var (r, fd2) := Step(w, c);
            && fd2 in r.own && c.fd in r.own && r.own[fd2] != r.own[c.fd] == w.own[c.fd]
            && r.own[fd2] in r.live && r.live[r.own[fd2]] == Copied(w.live[w.own[c.fd]])
            && w.own[c.fd] in r.live && r.live[w.own[c.fd]] == w.live[w.own[c.fd]]
  {
    var fd, e := c.fd, w.own[c.fd];
    assert e in w.live && e < w.next && w.next !in w.live && forall d :: d in w.own && d != fd ==> w.own[d] != e;
    hide Copied, FileOk, Consistent, AdoptStep, Opened;
    if c.Dup? {
      Adopted(KernelOpen(w, c.answer), c.answer, fd, w.live[e], c.memory, c.loaded);
    } else {
      Adopted(Taken(w, fd, c.fd2), c.fd2, fd, w.live[e], c.memory, c.loaded);
    }
  }

  lemma Adopted(w: World, fd2: int, fd: int, src: Efile, memory: bool, loaded: bool)
    requires fd in w.own && w.own[fd] in w.live && w.own[fd] != w.next && fd != fd2
    requires AdoptStep(w, fd2, src, memory, loaded).1 >= 0
    ensures var r := AdoptStep(w, fd2, src, memory, loaded).0;
            && r.own == w.own[fd2 := w.next] && r.live == w.live[w.next := Copied(src)]
  {
    hide Copied;
  }

  /** When the copy of the EFILE fails after the kernel's dup2() succeeded, the target
      ends up closed; the call has then changed more than a refused one. */
  lemma FailedCopyClosesTarget(w: World, c: Call)
    requires Consistent(w, {}) && Plausible(w, c) && c.DupOnto? && c.answer >= 0
    requires c.fd in w.own && c.fd != c.fd2 && (c.memory ==> !Copies(w.live[w.own[c.fd]], c.loaded))
    ensures var (r, fd2) := Step(w, c);
            fd2 == -1 && c.fd2 !in r.kernel && c.fd2 !in r.own && r.own == w.own - {c.fd2}
            && r.live == if c.fd2 in w.own then w.live - {w.own[c.fd2]} else w.live
  {
    hide FileOk, Copied;
    var u := if c.fd2 in w.own then Removed(w, c.fd2) else w;
    var k := KernelOpen(u, c.fd2);
    var d := if c.fd2 in w.own then Destroyed(k, w.own[c.fd2]) else k;
    var src := w.live[w.own[c.fd]];
    assert d.next !in d.live;
    UnregisteredAdopt(d, c.fd2, src, c.memory, c.loaded);
    hide AdoptStep;
    assert w.own - {c.fd2} == d.own;
  }

  /** A copy that fails leaves only the descriptor closed. */
  lemma UnregisteredAdopt(w: World, fd2: int, src: Efile, memory: bool, loaded: bool)
    requires w.next !in w.live && (memory ==> !Copies(src, loaded))
    ensures var (r, a) := AdoptStep(w, fd2, src, memory, loaded);
            a == -1 && r.own == w.own && r.live == w.live && r.kernel == w.kernel - {fd2}
  {
    hide Copied;
  }

  /* ----- what each call comes to ----- */

  /** An embedded file is opened exactly if it is not to be written, is a directory where one is
      wanted, memory and content can be had, the kernel gives an fd and one of 512 slots is free.
      The fd then has a new EFILE with the whole content unread; otherwise nothing is open that
      was not, and no EFILE left. */
  lemma OpenDoes(w: World, c: Call)
    requires Consistent(w, {}) && Plausible(w, c) && c.Open?
    ensures var (r, a) := Step(w, c);
            var opens := !c.writes && (c.wantsDirectory ==> !c.entry.isFile) && c.memory && c.loaded
                         && c.answer >= 0 && |w.own| < 512;
            if opens then
              && a == c.answer && a !in w.own && r.own == w.own[a := w.next]
              && r.kernel == w.kernel + {a} && r.gone == w.gone
              && w.next in r.live && r.live == w.live[w.next := r.live[w.next]]
              && var f := r.live[w.next];
                 f.entry == c.entry && (f.stream.Some? <==> c.entry.isFile)
                 && (f.stream.Some? ==> Unread(f.stream.value) == c.entry.content && !f.stream.value.eof)
            else
              a == -1 && r.own == w.own && r.live == w.live && r.kernel == w.kernel
  {
    OpenIsNew(w, c);
    hide Consistent, Plausible;
    StartOk(c.entry.content);
  }

  lemma OpenIsNew(w: World, c: Call)
    requires Consistent(w, {}) && Plausible(w, c) && (c.Open? || c.Dup?)
    ensures w.next !in w.live && (c.answer >= 0 ==> c.answer !in w.kernel && c.answer !in w.own)
  {
  }

  /** A close leaves its fd neither open nor in the table, with its EFILE destroyed, and all
      other fds as they were. */
  lemma CloseDoes(w: World, fd: int)
    requires Consistent(w, {})
    ensures var (r, a) := Step(w, Close(fd));
            && a == (if fd in w.kernel then 0 else -1)
            && fd !in r.kernel && fd !in r.own && r.own == w.own - {fd} && r.kernel == w.kernel - {fd}
            && (if fd in w.own
                then w.own[fd] in r.gone && w.own[fd] !in r.live && r.live == w.live - {w.own[fd]}
                else r.live == w.live && r.gone == w.gone)
  {
    hide Consistent;
    if fd !in w.own { assert w.own - {fd} == w.own; }
  }

  /** Whether an EFILE can be copied for a new fd. */
  predicate Copyable(f: Efile, memory: bool, loaded: bool, taken: nat) {
    memory && (f.entry.isFile ==> loaded) && taken < 512
  }

  /** What dup() of an fd comes to. A plain fd is duplicated by the kernel alone; a virtual one
      exactly if its EFILE can be copied, and otherwise the duplicate is closed again. */
  lemma DupDoes(w: World, c: Call)
    requires Consistent(w, {}) && Plausible(w, c) && c.Dup?
    ensures var (r, a) := Step(w, c);
            if c.answer < 0 then (r, a) == (w, c.answer)
            else if c.fd !in w.own then
              a == c.answer && r.own == w.own && r.live == w.live && r.kernel == w.kernel + {a}
            else if Copyable(w.live[w.own[c.fd]], c.memory, c.loaded, |w.own|) then
              a == c.answer && r.own == w.own[a := w.next] && r.kernel == w.kernel + {a}
              && r.live == w.live[w.next := Copied(w.live[w.own[c.fd]])]
            else a == -1 && r.own == w.own && r.live == w.live && r.kernel == w.kernel
  {
    OpenIsNew(w, c);
    assert c.fd in w.own ==> w.own[c.fd] in w.live && FileOk(w.live[w.own[c.fd]]);
    hide Consistent, Plausible, Copied, Inv;
  }

  /** What dup2() comes to. Refused, or onto the same fd, it changes nothing. Otherwise the
      target's EFILE is destroyed; a plain source leaves the target plain, and a virtual one
      leaves it with a copy, or closed if there can be none. */
  lemma DupOntoDoes(w: World, c: Call)
    requires Consistent(w, {}) && Plausible(w, c) && c.DupOnto?
    ensures var (r, a) := Step(w, c);
            var live := if c.fd2 in w.own then w.live - {w.own[c.fd2]} else w.live;
            if c.answer < 0 || c.fd == c.fd2 then (r, a) == (w, c.answer)
            else if c.fd !in w.own then
              a == c.answer && r.own == w.own - {c.fd2} && r.live == live && r.kernel == w.kernel + {c.fd2}
            else if Copyable(w.live[w.own[c.fd]], c.memory, c.loaded, |w.own - {c.fd2}|) then
              a == c.fd2 && r.own == w.own[c.fd2 := w.next] && r.kernel == w.kernel + {c.fd2}
              && r.live == live[w.next := Copied(w.live[w.own[c.fd]])]
            else a == -1 && r.own == w.own - {c.fd2} && r.live == live && r.kernel == w.kernel - {c.fd2}
  {
    var fd, fd2 := c.fd, c.fd2;
    if c.answer < 0 {
      RefusedDup2(w, c, {});
    } else if fd == fd2 {
      assert w.kernel + {fd2} == w.kernel;
      hide Consistent, AdoptStep;
    } else if fd in w.own {
      assert w.next !in w.live && w.own[fd] in w.live && FileOk(w.live[w.own[fd]]);
      assert fd2 in w.own ==> w.own[fd] != w.own[fd2];
      hide Consistent, Plausible, Inv, Copied;
      OntoCopied(w, fd, fd2, c.memory, c.loaded, c.answer);
    } else {
      assert fd2 !in w.own ==> w.own - {fd2} == w.own;
      hide Consistent, Plausible, AdoptStep;
    }
  }

  lemma OntoCopied(w: World, fd: int, fd2: int, memory: bool, loaded: bool, answer: int)
    requires w.next !in w.live && fd in w.own && w.own[fd] in w.live && fd != fd2 && answer >= 0 && answer == fd2
    requires fd2 in w.own ==> w.own[fd] != w.own[fd2]
    requires w.live[w.own[fd]].entry.isFile <==> w.live[w.own[fd]].stream.Some?
    ensures var (r, a) := DupOntoStep(w, fd, fd2, memory, loaded, answer);
            var live := if fd2 in w.own then w.live - {w.own[fd2]} else w.live;
            if Copyable(w.live[w.own[fd]], memory, loaded, |w.own - {fd2}|) then
              a == fd2 && r.own == w.own[fd2 := w.next] && r.kernel == w.kernel + {fd2}
              && r.live == live[w.next := Copied(w.live[w.own[fd]])]
            else a == -1 && r.own == w.own - {fd2} && r.live == live && r.kernel == w.kernel - {fd2}
  {
    var d, src := Taken(w, fd, fd2), w.live[w.own[fd]];
    assert fd2 !in w.own ==> w.own - {fd2} == w.own;
    hide AdoptStep, Copyable, Copied;
    AdoptDoes(d, fd2, src, memory, loaded);
    assert d.own == w.own - {fd2} && d.next == w.next && d.kernel == w.kernel + {fd2};
    assert (w.own - {fd2})[fd2 := w.next] == w.own[fd2 := w.next];
    assert w.kernel + {fd2} - {fd2} == w.kernel - {fd2};
  }

  lemma AdoptDoes(w: World, fd2: int, src: Efile, memory: bool, loaded: bool)
    requires w.next !in w.live && (src.entry.isFile <==> src.stream.Some?)
    ensures var (r, a) := AdoptStep(w, fd2, src, memory, loaded);
            && r.gone >= w.gone && r.next >= w.next
            && if Copyable(src, memory, loaded, |w.own|) then
                 a == fd2 && r.own == w.own[fd2 := w.next] && r.kernel == w.kernel
                 && r.live == w.live[w.next := Copied(src)]
               else a == -1 && r.own == w.own && r.live == w.live && r.kernel == w.kernel - {fd2}
  {
    hide Copied;
  }
}
