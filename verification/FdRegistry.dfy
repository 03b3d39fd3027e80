/** The registry of virtual file descriptors, shared by threads: slots are claimed
    and released under a lock, while lookups scan them without one. Every step is
    a single access to shared memory or one call of the kernel, so that opens, closes,
    lookups and duplications of different threads interleave half done. */
module FdRegistry {
  import opened FdSlots
  import opened Options

  type Tid = nat

  /** What a lookup is for: itself, dup(), dup2() onto a target, or the copy for an fd that
      F_DUPFD has already made. */
  datatype Goal = JustLook | ToDup | ToDupOnto(target: int) | ToAdopt(copy: int)

  /** What is registered: a new file, a duplicate, or the target of a refused dup2(). */
  datatype Why = ByOpen | ByAdopt | PutBack

  /** Why an fd is unregistered: close(), the wrapped close(), which asks the kernel first,
      or a dup2() onto it from `source`, whose lookup answered `found`. */
  datatype Leave = ByClose | ByWrapClose | ByOnto(source: int, found: Option<Obj>)

  /** Where a thread stands. */
  datatype Local =
    | Idle
    | Scanning(fd: int, i: nat, goal: Goal)                       // lock-free lookup
    | Found(fd: int, i: nat, goal: Goal)                          // fd matched, object not yet read
    | Looked(fd: int, result: Option<Obj>, goal: Goal)
    | Opened(fd: int, e: Obj, why: Why)                           // fd and object, no slot yet
    | Registering(fd: int, e: Obj, i: nat, why: Why)              // locked: looking for a free slot
    | Claimed(fd: int, e: Obj, i: nat)                            // locked: object stored, fd not yet
    | RegisterFailed(fd: int, e: Obj, why: Why)
    | FailDestroy(e: Obj)
    | Closing(fd: int, leave: Leave)
    | Unregistering(fd: int, i: nat, leave: Leave)                // locked: looking for the fd
    | Releasing(fd: int, i: nat, removed: Option<Obj>, leave: Leave)  // locked: fd cleared, object not yet
    | Unregistered(fd: int, removed: Option<Obj>, leave: Leave)
    | ClosingKernel(fd: int)
    | Replacing(fd: int, removed: Option<Obj>, source: int, found: Option<Obj>)  // dup2() has succeeded
    | Copying(fd: int, source: int, copied: Obj)                  // about to read the source
    | Unlocking(after: Local)

  /** `kernel` maps every open fd to the thread that owns it; `live` are the objects
      not yet destroyed; `own` is the plain map that the slots stand for. */
  datatype State = State(slots: seq<Slot>, lock: Option<Tid>, kernel: map<int, Tid>, live: set<Obj>,
                         own: map<int, Obj>, local: map<Tid, Local>)

  datatype Action =
    | KernelOpen(newFd: int, newObj: Obj)   // open of a virtual file
    | KernelOpenPlain(plainFd: int)         // open of any other file
    | HandOver(handFd: int, to: Tid)        // another thread takes the fd over
    | LookUp(lookFd: int)
    | Dup(dupFd: int)
    | FcntlDup(fcntlFd: int, madeFd: int)   // F_DUPFD: the kernel has made the duplicate
    | DupOnto(fromFd: int, ontoFd: int)
    | Close(closeFd: int)
    | WrapClose(wrapFd: int)
    | Answer(answer: int)                   // the kernel's answer to dup() or dup2()
    | Allocate(obj: Option<Obj>)            // the copy of a source, if there is memory
    | Proceed                               // the next access of the call under way

  ghost predicate Init(s: State) {
    && |s.slots| == 512 && (forall i :: 0 <= i < 512 ==> s.slots[i] == Slot(-1, None))
    && s.lock == None && s.own == map[] && s.live == {} && s.kernel == map[]
    && forall t :: t in s.local ==> s.local[t] == Idle
  }

  /** An fd that the thread owns. */
  predicate Mine(s: State, t: Tid, fd: int) {
    fd in s.kernel && s.kernel[fd] == t
  }

  /** What starting a call needs: a thread only names fds it owns, and the kernel only
      gives out fds that are not open. */
  predicate Starts(s: State, t: Tid, a: Action)
    requires t in s.local
  {
    s.local[t].Idle? &&
    match a
    case KernelOpen(fd, e) => fd >= 0 && fd !in s.kernel && e !in s.live
    case KernelOpenPlain(fd) => fd >= 0 && fd !in s.kernel
    case HandOver(fd, to) => Mine(s, t, fd) && to in s.local
    case LookUp(fd) => Mine(s, t, fd)
    case Dup(fd) => Mine(s, t, fd)
    case FcntlDup(fd, made) => Mine(s, t, fd) && made >= 0 && made !in s.kernel
    case DupOnto(fd, onto) => Mine(s, t, fd) && Mine(s, t, onto)
    case Close(fd) => Mine(s, t, fd)
    case WrapClose(fd) => Mine(s, t, fd)
    case _ => false
  }

  /** Waiting for the kernel's answer. */
  predicate Asks(l: Local) {
    (l.Looked? && l.goal.ToDup?) || (l.Unregistered? && l.leave.ByOnto?)
  }

  predicate Enabled(s: State, t: Tid, a: Action) {
    t in s.local && |s.slots| == SLOTS &&
    var l := s.local[t];
    match a
    case Answer(n) => Asks(l) && (l.Looked? ==> n < 0 || n !in s.kernel)
    case Allocate(o) => l.Copying? && (o.Some? ==> o.value !in s.live)
    case Proceed =>
      !l.Idle? && !Asks(l) && !l.Copying? && ((l.Opened? || l.Closing?) ==> s.lock == None)
      && (l.Scanning? || l.Registering? || l.Unregistering? ==> l.i <= SLOTS)
      && (l.Found? || l.Claimed? || l.Releasing? ==> l.i < SLOTS)
    case _ => Starts(s, t, a)
  }

  function At(s: State, t: Tid, l: Local): State {
    s.(local := s.local[t := l])
  }

  function Step(s: State, t: Tid, a: Action): State
    requires Enabled(s, t, a)
  {
    if a.Proceed? then
      var l := s.local[t];
      if Stores(l) then StoreStep(s, t)
      else if Frees(l) then FreeStep(s, t)
      else if Looks(l) then LookStep(s, t)
      else SyncStep(s, t)
    else if a.Answer? || a.Allocate? then AnswerStep(s, t, a)
    else StartStep(s, t, a)
  }

  function StartStep(s: State, t: Tid, a: Action): State {
    match a
    case KernelOpen(fd, e) => At(s, t, Opened(fd, e, ByOpen)).(kernel := s.kernel[fd := t], live := s.live + {e})
    case KernelOpenPlain(fd) => s.(kernel := s.kernel[fd := t])
    case HandOver(fd, to) => s.(kernel := s.kernel[fd := to])
    case LookUp(fd) => At(s, t, Scanning(fd, 0, JustLook))
    case Dup(fd) => At(s, t, Scanning(fd, 0, ToDup))
    case FcntlDup(fd, made) => At(s, t, Scanning(fd, 0, ToAdopt(made))).(kernel := s.kernel[made := t])
    case DupOnto(fd, onto) => At(s, t, Scanning(fd, 0, ToDupOnto(onto)))
    case Close(fd) => At(s, t, Closing(fd, ByClose))
    case WrapClose(fd) => At(s, t, Closing(fd, ByWrapClose))
    case _ => s
  }

  /** The kernel answers dup() with a new fd or a refusal, dup2() with success or a refusal,
      and the allocator gives room for a copy or not. */
  function AnswerStep(s: State, t: Tid, a: Action): State
    requires t in s.local
  {
    match (s.local[t], a)
    case (Looked(fd, r, _), Answer(n)) =>
      if n < 0 then At(s, t, Idle)
      else At(s, t, if r.None? then Idle else Copying(n, fd, r.value)).(kernel := s.kernel[n := t])
    case (Unregistered(fd, removed, ByOnto(source, found)), Answer(n)) =>
      if n >= 0 then At(s, t, Replacing(fd, removed, source, found))
      else At(s, t, if removed.None? then Idle else Opened(fd, removed.value, PutBack))
    case (Copying(fd, _, _), Allocate(o)) =>
      if o.None? then At(s, t, ClosingKernel(fd))
      else At(s, t, Opened(fd, o.value, ByAdopt)).(live := s.live + {o.value})
    case _ => s
  }

  /** One access to a slot, under the lock. */
  predicate Stores(l: Local) {
    l.Registering? || l.Claimed? || l.Unregistering? || l.Releasing?
  }

  function StoreStep(s: State, t: Tid): State
    requires Enabled(s, t, Proceed) && Stores(s.local[t])
  {
    match s.local[t]
    case Registering(fd, e, i, why) =>
      if i == SLOTS then At(s, t, Unlocking(RegisterFailed(fd, e, why)))
      else if s.slots[i].fd == -1 then At(s, t, Claimed(fd, e, i)).(slots := s.slots[i := Slot(-1, Some(e))])
      else At(s, t, Registering(fd, e, i + 1, why))
    case Claimed(fd, e, i) =>
      At(s, t, Unlocking(Idle)).(slots := s.slots[i := s.slots[i].(fd := fd)], own := s.own[fd := e])
    case Unregistering(fd, i, why) =>
      if i == SLOTS then At(s, t, Unlocking(Unregistered(fd, None, why)))
      else if s.slots[i].fd == fd then
        At(s, t, Releasing(fd, i, s.slots[i].f, why))
          .(slots := s.slots[i := s.slots[i].(fd := -1)], own := s.own - {fd})
      else At(s, t, Unregistering(fd, i + 1, why))
    case Releasing(fd, i, e, why) =>
      At(s, t, Unlocking(Unregistered(fd, e, why))).(slots := s.slots[i := Slot(-1, None)])
  }

  /** Objects and kernel fds given back. */
  predicate Frees(l: Local) {
    l.RegisterFailed? || l.FailDestroy? || l.Unregistered? || l.ClosingKernel? || l.Replacing?
  }

  function Without(live: set<Obj>, e: Option<Obj>): set<Obj> {
    if e.Some? then live - {e.value} else live
  }

  function FreeStep(s: State, t: Tid): State
    requires t in s.local
  {
    match s.local[t]
    case RegisterFailed(fd, e, ByOpen) => At(s, t, FailDestroy(e)).(kernel := s.kernel - {fd})
    case RegisterFailed(fd, e, ByAdopt) => At(s, t, ClosingKernel(fd)).(live := s.live - {e})
    case RegisterFailed(_, _, PutBack) => At(s, t, Idle)
    case FailDestroy(e) => At(s, t, Idle).(live := s.live - {e})
    case Unregistered(fd, e, ByWrapClose) =>
      At(s, t, if e.None? then Idle else FailDestroy(e.value)).(kernel := s.kernel - {fd})
    case Unregistered(fd, e, _) => At(s, t, ClosingKernel(fd)).(live := Without(s.live, e))
    case ClosingKernel(fd) => At(s, t, Idle).(kernel := s.kernel - {fd})
    case Replacing(fd, e, source, found) =>
      At(s, t, if found.None? then Idle else Copying(fd, source, found.value)).(live := Without(s.live, e))
    case _ => s
  }

  /** One read by a lookup, without the lock. */
  predicate Looks(l: Local) {
    l.Scanning? || l.Found? || l.Looked?
  }

  function LookStep(s: State, t: Tid): State
    requires Enabled(s, t, Proceed) && Looks(s.local[t])
  {
    match s.local[t]
    case Scanning(fd, i, g) =>
      if i == SLOTS then At(s, t, Looked(fd, None, g))
      else if s.slots[i].fd == fd then At(s, t, Found(fd, i, g))
      else At(s, t, Scanning(fd, i + 1, g))
    case Found(fd, i, g) => At(s, t, Looked(fd, s.slots[i].f, g))
    case Looked(fd, r, ToDupOnto(onto)) => At(s, t, if onto == fd then Idle else Closing(onto, ByOnto(fd, r)))
    case Looked(fd, r, ToAdopt(made)) => At(s, t, if r.None? then Idle else Copying(made, fd, r.value))
    case Looked(_, _, _) => At(s, t, Idle)
  }

  /** The lock taken or dropped. */
  function SyncStep(s: State, t: Tid): State
    requires t in s.local
  {
    match s.local[t]
    case Opened(fd, e, why) => At(s, t, Registering(fd, e, 0, why)).(lock := Some(t))
    case Closing(fd, why) => At(s, t, Unregistering(fd, 0, why)).(lock := Some(t))
    case Unlocking(l) => At(s, t, l).(lock := None)
    case _ => s
  }

  /* ----- the invariant ----- */

  predicate Locked(l: Local) {
    l.Registering? || l.Claimed? || l.Unregistering? || l.Releasing? || l.Unlocking?
  }

  function LeaveFds(w: Leave): set<int> {
    if w.ByOnto? then {w.source} else {}
  }

  /** The fds a thread is working on. */
  function Fds(l: Local): set<int> {
    match l
    case Idle => {}
    case FailDestroy(_) => {}
    case Unlocking(m) =>
      if m.RegisterFailed? then {m.fd} else if m.Unregistered? then {m.fd} + LeaveFds(m.leave) else {}
    case Scanning(fd, _, g) => {fd} + GoalFds(g)
    case Found(fd, _, g) => {fd} + GoalFds(g)
    case Looked(fd, _, g) => {fd} + GoalFds(g)
    case Closing(fd, w) => {fd} + LeaveFds(w)
    case Unregistering(fd, _, w) => {fd} + LeaveFds(w)
    case Releasing(fd, _, _, w) => {fd} + LeaveFds(w)
    case Unregistered(fd, _, w) => {fd} + LeaveFds(w)
    case Replacing(fd, _, source, _) => {fd, source}
    case Copying(fd, source, _) => {fd, source}
    case _ => {l.fd}
  }

  function GoalFds(g: Goal): set<int> {
    match g
    case ToDupOnto(onto) => {onto}
    case ToAdopt(made) => {made}
    case _ => {}
  }

  /** The object a thread alone holds: not yet in a slot, or no longer. */
  function Held(l: Local): Option<Obj> {
    match l
    case Opened(_, e, _) => Some(e)
    case Registering(_, e, _, _) => Some(e)
    case Claimed(_, e, _) => Some(e)
    case RegisterFailed(_, e, _) => Some(e)
    case FailDestroy(e) => Some(e)
    case Releasing(_, _, e, _) => e
    case Unregistered(_, e, _) => e
    case Replacing(_, e, _, _) => e
    case Unlocking(m) => if m.RegisterFailed? then Some(m.e) else if m.Unregistered? then m.removed else None
    case _ => None
  }

  /** The thread's fd that is in no slot at all, if there is one. */
  function Slotless(l: Local): Option<int> {
    match l
    case Opened(fd, _, _) => Some(fd)
    case Registering(fd, _, _, _) => Some(fd)
    case Claimed(fd, _, _) => Some(fd)
    case RegisterFailed(fd, _, _) => Some(fd)
    case Releasing(fd, _, _, _) => Some(fd)
    case Unregistered(fd, _, _) => Some(fd)
    case ClosingKernel(fd) => Some(fd)
    case Replacing(fd, _, _, _) => Some(fd)
    case Copying(fd, _, _) => Some(fd)
    case Unlocking(m) => if m.RegisterFailed? || m.Unregistered? then Some(m.fd) else None
    case Scanning(_, _, g) => GoalCopy(g)
    case Found(_, _, g) => GoalCopy(g)
    case Looked(_, _, g) => GoalCopy(g)
    case _ => None
  }

  function GoalCopy(g: Goal): Option<int> {
    if g.ToAdopt? then Some(g.copy) else None
  }

  /** What a thread has learnt of an fd by looking it up. */
  datatype Fact = Fact(fd: int, entry: Option<Obj>)

  function Knows(l: Local): Option<Fact> {
    match l
    case Looked(fd, r, _) => Some(Fact(fd, r))
    case Closing(_, ByOnto(source, found)) => Some(Fact(source, found))
    case Unregistering(_, _, ByOnto(source, found)) => Some(Fact(source, found))
    case Releasing(_, _, _, ByOnto(source, found)) => Some(Fact(source, found))
    case Unregistered(_, _, ByOnto(source, found)) => Some(Fact(source, found))
    case Unlocking(Unregistered(_, _, ByOnto(source, found))) => Some(Fact(source, found))
    case Replacing(_, _, source, found) => Some(Fact(source, found))
    case Copying(_, source, e) => Some(Fact(source, Some(e)))
    case _ => None
  }

  function OwnOf(s: State, fd: int): Option<Obj> {
    if fd in s.own then Some(s.own[fd]) else None
  }

  /** A dup2() under way has two different fds, a duplicate is not its source, and only what
      follows unlocking waits in it. */
  predicate Shaped(l: Local) {
    match l
    case Scanning(fd, _, ToAdopt(made)) => made != fd
    case Found(fd, _, ToAdopt(made)) => made != fd
    case Looked(fd, _, ToAdopt(made)) => made != fd
    case Closing(fd, w) => fd !in LeaveFds(w)
    case Unregistering(fd, _, w) => fd !in LeaveFds(w)
    case Releasing(fd, _, _, w) => fd !in LeaveFds(w)
    case Unregistered(fd, _, w) => fd !in LeaveFds(w)
    case Replacing(fd, _, source, _) => fd != source
    case Copying(fd, source, _) => fd != source
    case Unlocking(m) => m.Idle? || m.RegisterFailed? || (m.Unregistered? && m.fd !in LeaveFds(m.leave))
    case _ => true
  }

  predicate HasSlot(slots: seq<Slot>, fd: int) {
    exists i | 0 <= i < |slots| :: slots[i].fd == fd
  }

  predicate SlotsOk(s: State) {
    && |s.slots| == SLOTS
    && (forall fd | fd in s.kernel :: fd >= 0)
    && (forall i | 0 <= i < SLOTS :: s.slots[i].fd != -1 ==>
          s.slots[i].fd >= 0 && s.slots[i].fd in s.kernel && s.slots[i].fd in s.own
          && s.slots[i].f == Some(s.own[s.slots[i].fd]))
    && (forall i, j | 0 <= i < j < SLOTS :: s.slots[i].fd == s.slots[j].fd ==> s.slots[i].fd == -1)
    && (forall fd | fd in s.own :: fd >= 0 && HasSlot(s.slots, fd))
    && (forall fd | fd in s.own :: s.own[fd] in s.live)
    && (forall fd, fd' | fd in s.own && fd' in s.own :: s.own[fd] == s.own[fd'] ==> fd == fd')
  }

  /** The thread works on fds it owns, one of which may be in no slot; what it has learnt of
      another is still so; and it alone holds an object, if it holds one. */
  predicate Owns(s: State, t: Tid) {
    t in s.local &&
    var l := s.local[t];
    && Shaped(l)
    && (Locked(l) <==> s.lock == Some(t))
    && (forall fd | fd in Fds(l) :: Mine(s, t, fd))
    && (Held(l).Some? ==> Held(l).value in s.live && forall fd | fd in s.own :: s.own[fd] != Held(l).value)
    && (Slotless(l).Some? ==> Slotless(l).value !in s.own)
    && (Knows(l).Some? ==> Knows(l).value.entry == OwnOf(s, Knows(l).value.fd))
  }

  /** Where the thread stands among the slots. */
  predicate Stands(s: State, t: Tid) {
    t in s.local && |s.slots| == SLOTS &&
    match s.local[t]
    case Registering(_, _, i, _) => i <= SLOTS && forall j | 0 <= j < i :: s.slots[j].fd != -1
    case Claimed(_, e, i) => i < SLOTS && s.slots[i] == Slot(-1, Some(e))
    case Releasing(_, i, _, _) => i < SLOTS && s.slots[i].fd == -1
    case Scanning(fd, i, _) => i <= SLOTS && forall j | 0 <= j < i :: s.slots[j].fd != fd
    case Unregistering(fd, i, _) => i <= SLOTS && forall j | 0 <= j < i :: s.slots[j].fd != fd
    case Found(fd, i, _) => i < SLOTS && s.slots[i].fd == fd
    case _ => true
  }

  predicate ThreadOk(s: State, t: Tid) {
    Owns(s, t) && Stands(s, t)
  }

  /** No object is held by two threads. */
  predicate Apart(s: State, t: Tid, u: Tid) {
    t in s.local && u in s.local && t != u && Held(s.local[t]).Some? ==> Held(s.local[t]) != Held(s.local[u])
  }

  predicate Inv(s: State) {
    && SlotsOk(s)
    && (s.lock.Some? ==> s.lock.value in s.local)
    && (forall t | t in s.local :: ThreadOk(s, t))
    && (forall t, u | t in s.local && u in s.local :: Apart(s, t, u))
  }

  lemma InitInv(s: State)
    requires Init(s)
    ensures Inv(s)
  {
  }

  /** A scan that passed every slot has missed nothing. */
  lemma NotRegistered(s: State, fd: int)
    requires SlotsOk(s) && forall j | 0 <= j < SLOTS :: s.slots[j].fd != fd
    ensures fd !in s.own
  {
  }

  /* ----- what a step leaves alone ----- */

  /** A step of `t` from `s` to `r`: the lock changes only from or to `t`, other threads
      keep their fds, only what `t` holds is destroyed, the map changes only under the lock,
      at fds that `t` works on and by what it holds, and what it comes to hold was held,
      registered or did not exist. */
  ghost predicate Gentle(s: State, r: State, t: Tid) {
    && t in s.local && t in r.local && r.local == s.local[t := r.local[t]]
    && (r.lock == s.lock || (s.lock == None && r.lock == Some(t)) || (s.lock == Some(t) && r.lock == None))
    && (forall fd | fd in s.kernel && s.kernel[fd] != t :: fd in r.kernel && r.kernel[fd] == s.kernel[fd])
    && (forall e | e in s.live && e !in r.live :: Held(s.local[t]) == Some(e))
    && (forall fd | fd !in Fds(s.local[t]) :: OwnOf(r, fd) == OwnOf(s, fd))
    && (forall fd | fd in r.own :: OwnOf(r, fd) == OwnOf(s, fd) || OwnOf(r, fd) == Held(s.local[t]))
    && (r.own == s.own || s.lock == Some(t))
    && Gained(s, Held(s.local[t]), Held(r.local[t]))
  }

  ghost predicate Gained(s: State, before: Option<Obj>, after: Option<Obj>) {
    after.None? || after == before || after.value !in s.live || exists fd :: fd in s.own && s.own[fd] == after.value
  }

  /** Slots change only under the lock, and only between free and an fd of the thread. */
  predicate GentleSlots(s: State, r: State, t: Tid) {
    t in s.local && |s.slots| == |r.slots| == SLOTS &&
    forall j | 0 <= j < SLOTS :: r.slots[j] != s.slots[j] ==>
      && s.lock == Some(t)
      && (s.slots[j].fd == -1 || s.slots[j].fd in Fds(s.local[t]))
      && (r.slots[j].fd == -1 || r.slots[j].fd in Fds(s.local[t]))
  }

  lemma OthersOwn(s: State, r: State, t: Tid, u: Tid)
    requires Gentle(s, r, t) && Owns(s, t) && Owns(s, u) && Apart(s, t, u) && u != t
    ensures Owns(r, u)
  {
    var l := s.local[u];
    hide Shaped, Fds, Held, Slotless, Knows, Locked;
    assert forall fd | fd in Fds(l) :: fd !in Fds(s.local[t]);
    if Slotless(l).Some? { SlotlessIsMine(l); }
    if Knows(l).Some? { KnownIsMine(l); }
    if Held(l).Some? {
      forall fd | fd in r.own ensures r.own[fd] != Held(l).value {
        assert OwnOf(r, fd) == OwnOf(s, fd) || OwnOf(r, fd) == Held(s.local[t]);
      }
    }
  }

  lemma SlotlessIsMine(l: Local)
    requires Slotless(l).Some?
    ensures Slotless(l).value in Fds(l)
  {
  }

  lemma KnownIsMine(l: Local)
    requires Knows(l).Some?
    ensures Knows(l).value.fd in Fds(l)
  {
  }

  lemma OthersStand(s: State, r: State, t: Tid, u: Tid)
    requires Gentle(s, r, t) && GentleSlots(s, r, t) && Owns(s, t) && Owns(s, u) && Stands(s, u) && u != t
    requires SlotsOk(s)
    ensures Stands(r, u)
  {
    var l := s.local[u];
    assert r.local[u] == l;
    FdIsMine(l);
    assert forall fd | fd in Fds(l) :: fd !in Fds(s.local[t]) && fd != -1;
    hide Gentle, Owns, Fds, SlotsOk;
  }

  lemma FdIsMine(l: Local)
    ensures l.Scanning? || l.Unregistering? || l.Found? ==> l.fd in Fds(l)
    ensures l.Registering? || l.Claimed? || l.Releasing? ==> Locked(l)
  {
  }

  lemma ApartStays(s: State, r: State, t: Tid, u: Tid, v: Tid)
    requires Gentle(s, r, t) && u in s.local && v in s.local
    requires Owns(s, u) && Owns(s, v) && Apart(s, t, u) && Apart(s, t, v) && Apart(s, u, v)
    ensures Apart(r, u, v)
  {
    hide Shaped, Fds, Held, Slotless, Knows, Locked, Mine;
  }

  /* ----- every step is gentle ----- */

  lemma GentleRegistering(s: State, t: Tid)
    requires SlotsOk(s) && ThreadOk(s, t) && Enabled(s, t, Proceed) && s.local[t].Registering?
    ensures Gentle(s, StoreStep(s, t), t) && GentleSlots(s, StoreStep(s, t), t)
  {
    hide Shaped, Slotless, Knows;
  }

  lemma GentleClaimed(s: State, t: Tid)
    requires SlotsOk(s) && ThreadOk(s, t) && Enabled(s, t, Proceed) && s.local[t].Claimed?
    ensures Gentle(s, StoreStep(s, t), t) && GentleSlots(s, StoreStep(s, t), t)
  {
    hide Shaped, Slotless, Knows;
  }

  lemma GentleUnregistering(s: State, t: Tid)
    requires SlotsOk(s) && ThreadOk(s, t) && Enabled(s, t, Proceed) && s.local[t].Unregistering?
    ensures Gentle(s, StoreStep(s, t), t) && GentleSlots(s, StoreStep(s, t), t)
  {
    hide Shaped, Slotless, Knows;
  }

  lemma GentleReleasing(s: State, t: Tid)
    requires SlotsOk(s) && ThreadOk(s, t) && Enabled(s, t, Proceed) && s.local[t].Releasing?
    ensures Gentle(s, StoreStep(s, t), t) && GentleSlots(s, StoreStep(s, t), t)
  {
    hide Shaped, Slotless, Knows;
  }

  lemma StoreGentle(s: State, t: Tid)
    requires SlotsOk(s) && ThreadOk(s, t) && Enabled(s, t, Proceed) && Stores(s.local[t])
    ensures Gentle(s, StoreStep(s, t), t) && GentleSlots(s, StoreStep(s, t), t)
  {
    assert t in s.local;
    hide SlotsOk, ThreadOk, Gentle, GentleSlots, StoreStep, Enabled;
    match s.local[t]
    case Registering(_, _, _, _) => GentleRegistering(s, t);
    case Claimed(_, _, _) => GentleClaimed(s, t);
    case Unregistering(_, _, _) => GentleUnregistering(s, t);
    case Releasing(_, _, _, _) => GentleReleasing(s, t);
  }

  lemma StartGentle(s: State, t: Tid, a: Action)
    requires t in s.local && |s.slots| == SLOTS && Starts(s, t, a)
    ensures Gentle(s, StartStep(s, t, a), t) && GentleSlots(s, StartStep(s, t, a), t)
  {
    assert s.local[t := s.local[t]] == s.local;
    hide Shaped, Slotless, Knows;
  }

  lemma GentleDuplicated(s: State, t: Tid, a: Action)
    requires ThreadOk(s, t) && Enabled(s, t, a) && (a.Answer? || a.Allocate?) && s.local[t].Looked?
    ensures Gentle(s, AnswerStep(s, t, a), t) && GentleSlots(s, AnswerStep(s, t, a), t)
  {
    hide Shaped, Slotless, Knows, Stands, Locked;
  }

  lemma GentleRetargeted(s: State, t: Tid, a: Action)
    requires ThreadOk(s, t) && Enabled(s, t, a) && (a.Answer? || a.Allocate?) && s.local[t].Unregistered?
    ensures Gentle(s, AnswerStep(s, t, a), t) && GentleSlots(s, AnswerStep(s, t, a), t)
  {
    hide Shaped, Slotless, Knows, Stands, Locked;
  }

  lemma GentleAllocated(s: State, t: Tid, a: Action)
    requires ThreadOk(s, t) && Enabled(s, t, a) && (a.Answer? || a.Allocate?) && s.local[t].Copying?
    ensures Gentle(s, AnswerStep(s, t, a), t) && GentleSlots(s, AnswerStep(s, t, a), t)
  {
    hide Shaped, Slotless, Knows, Stands, Locked;
  }

  lemma AnswerGentle(s: State, t: Tid, a: Action)
    requires ThreadOk(s, t) && Enabled(s, t, a) && (a.Answer? || a.Allocate?)
    ensures Gentle(s, AnswerStep(s, t, a), t) && GentleSlots(s, AnswerStep(s, t, a), t)
  {
    hide ThreadOk, Gentle, GentleSlots, AnswerStep;
    match s.local[t]
    case Looked(_, _, _) => GentleDuplicated(s, t, a);
    case Unregistered(_, _, _) => GentleRetargeted(s, t, a);
    case Copying(_, _, _) => GentleAllocated(s, t, a);
  }

  lemma GentleFailing(s: State, t: Tid)
    requires ThreadOk(s, t) && |s.slots| == SLOTS && Frees(s.local[t])
    requires s.local[t].RegisterFailed? || s.local[t].FailDestroy?
    ensures Gentle(s, FreeStep(s, t), t) && GentleSlots(s, FreeStep(s, t), t)
  {
    hide Shaped, Slotless, Knows, Stands, Locked;
  }

  lemma GentleClosing(s: State, t: Tid)
    requires ThreadOk(s, t) && |s.slots| == SLOTS && Frees(s.local[t]) && !Asks(s.local[t])
    requires !s.local[t].RegisterFailed? && !s.local[t].FailDestroy?
    ensures Gentle(s, FreeStep(s, t), t) && GentleSlots(s, FreeStep(s, t), t)
  {
    hide Shaped, Slotless, Knows, Stands, Locked;
  }

  lemma FreeGentle(s: State, t: Tid)
    requires ThreadOk(s, t) && |s.slots| == SLOTS && Frees(s.local[t]) && !Asks(s.local[t])
    ensures Gentle(s, FreeStep(s, t), t) && GentleSlots(s, FreeStep(s, t), t)
  {
    assert t in s.local;
    hide ThreadOk, FreeStep, Gentle, GentleSlots;
    if s.local[t].RegisterFailed? || s.local[t].FailDestroy? {
      GentleFailing(s, t);
    } else {
      GentleClosing(s, t);
    }
  }

  lemma LookGentle(s: State, t: Tid)
    requires ThreadOk(s, t) && Enabled(s, t, Proceed) && Looks(s.local[t])
    ensures Gentle(s, LookStep(s, t), t) && GentleSlots(s, LookStep(s, t), t)
  {
    hide Shaped, Slotless, Knows, Fds, Stands;
  }

  lemma SyncGentle(s: State, t: Tid)
    requires ThreadOk(s, t) && Enabled(s, t, Proceed)
    ensures Gentle(s, SyncStep(s, t), t) && GentleSlots(s, SyncStep(s, t), t)
  {
    hide Slotless, Knows, Fds, Stands;
    assert s.local[t := s.local[t]] == s.local;
  }

  lemma StepGentle(s: State, t: Tid, a: Action)
    requires Inv(s) && Enabled(s, t, a)
    ensures Gentle(s, Step(s, t, a), t) && GentleSlots(s, Step(s, t, a), t)
  {
    assert SlotsOk(s) && ThreadOk(s, t) && |s.slots| == SLOTS;
    hide Inv, SlotsOk, ThreadOk, Gentle, GentleSlots, StoreStep, FreeStep, LookStep, SyncStep, StartStep, AnswerStep;
    if a.Proceed? {
      var l := s.local[t];
      if Stores(l) { StoreGentle(s, t); }
      else if Frees(l) { FreeGentle(s, t); }
      else if Looks(l) { LookGentle(s, t); }
      else { SyncGentle(s, t); }
    } else if a.Answer? || a.Allocate? {
      AnswerGentle(s, t, a);
    } else {
      StartGentle(s, t, a);
    }
  }

  /* ----- the thread that moves ----- */

  lemma StartMover(s: State, t: Tid, a: Action)
    requires SlotsOk(s) && ThreadOk(s, t) && Enabled(s, t, a) && !a.Proceed? && !a.Answer? && !a.Allocate?
    ensures ThreadOk(StartStep(s, t, a), t)
  {
    OwnIsOpen(s);
    OwnIsLive(s);
    hide SlotsOk, ThreadOk;
    if a.KernelOpen? || a.KernelOpenPlain? || a.HandOver? {
      MoverOpening(s, t, a);
    } else {
      MoverCalling(s, t, a);
    }
  }

  lemma MoverOpening(s: State, t: Tid, a: Action)
    requires ThreadOk(s, t) && |s.slots| == SLOTS && Starts(s, t, a)
    requires forall fd :: fd in s.own ==> fd in s.kernel && s.own[fd] in s.live
    requires a.KernelOpen? || a.KernelOpenPlain? || a.HandOver?
    ensures ThreadOk(StartStep(s, t, a), t)
  {
  }

  lemma MoverCalling(s: State, t: Tid, a: Action)
    requires ThreadOk(s, t) && |s.slots| == SLOTS && Starts(s, t, a)
    requires forall fd :: fd in s.own ==> fd in s.kernel
    requires !a.KernelOpen? && !a.KernelOpenPlain? && !a.HandOver?
    ensures ThreadOk(StartStep(s, t, a), t)
  {
  }

  lemma OwnIsOpen(s: State)
    requires SlotsOk(s)
    ensures forall fd :: fd in s.own ==> fd in s.kernel
    ensures |s.slots| == SLOTS && forall fd :: fd in s.kernel ==> fd >= 0
  {
    forall fd | fd in s.own ensures fd in s.kernel {
      var i :| 0 <= i < SLOTS && s.slots[i].fd == fd;
    }
  }

  lemma MoverDuplicated(s: State, t: Tid, a: Action)
    requires SlotsOk(s) && ThreadOk(s, t) && Enabled(s, t, a) && (a.Answer? || a.Allocate?) && s.local[t].Looked?
    ensures ThreadOk(AnswerStep(s, t, a), t)
  {
    OwnIsOpen(s);
    OwnIsLive(s);
    hide SlotsOk;
  }

  lemma MoverRetargeted(s: State, t: Tid, a: Action)
    requires SlotsOk(s) && ThreadOk(s, t) && Enabled(s, t, a) && (a.Answer? || a.Allocate?) && s.local[t].Unregistered?
    ensures ThreadOk(AnswerStep(s, t, a), t)
  {
    OwnIsOpen(s);
    OwnIsLive(s);
    hide SlotsOk;
  }

  lemma MoverAllocated(s: State, t: Tid, a: Action)
    requires SlotsOk(s) && ThreadOk(s, t) && Enabled(s, t, a) && (a.Answer? || a.Allocate?) && s.local[t].Copying?
    ensures ThreadOk(AnswerStep(s, t, a), t)
  {
    OwnIsOpen(s);
    OwnIsLive(s);
    hide SlotsOk;
  }

  lemma AnswerMover(s: State, t: Tid, a: Action)
    requires SlotsOk(s) && ThreadOk(s, t) && Enabled(s, t, a) && (a.Answer? || a.Allocate?)
    ensures ThreadOk(AnswerStep(s, t, a), t)
  {
    hide SlotsOk, ThreadOk, AnswerStep;
    match s.local[t]
    case Looked(_, _, _) => MoverDuplicated(s, t, a);
    case Unregistered(_, _, _) => MoverRetargeted(s, t, a);
    case Copying(_, _, _) => MoverAllocated(s, t, a);
  }

  lemma OwnIsLive(s: State)
    requires SlotsOk(s)
    ensures forall fd :: fd in s.own ==> s.own[fd] in s.live
    ensures forall fd, fd' :: fd in s.own && fd' in s.own && s.own[fd] == s.own[fd'] ==> fd == fd'
  {
  }

  lemma MoverRegistering(s: State, t: Tid)
    requires SlotsOk(s) && ThreadOk(s, t) && Enabled(s, t, Proceed) && s.local[t].Registering?
    ensures ThreadOk(StoreStep(s, t), t)
  {
  }

  lemma MoverClaimed(s: State, t: Tid)
    requires SlotsOk(s) && ThreadOk(s, t) && Enabled(s, t, Proceed) && s.local[t].Claimed?
    ensures ThreadOk(StoreStep(s, t), t)
  {
  }

  lemma MoverUnregistering(s: State, t: Tid)
    requires SlotsOk(s) && ThreadOk(s, t) && Enabled(s, t, Proceed) && s.local[t].Unregistering?
    ensures ThreadOk(StoreStep(s, t), t)
  {
    var l := s.local[t];
    assert l.fd != -1 by { assert l.fd in Fds(l); }
    if l.i == SLOTS {
      NotRegistered(s, l.fd);
    } else if s.slots[l.i].fd == l.fd {
      assert l.fd in s.own && s.slots[l.i].f == Some(s.own[l.fd]);
    }
    OwnIsLive(s);
    hide SlotsOk;
  }

  lemma MoverReleasing(s: State, t: Tid)
    requires SlotsOk(s) && ThreadOk(s, t) && Enabled(s, t, Proceed) && s.local[t].Releasing?
    ensures ThreadOk(StoreStep(s, t), t)
  {
  }

  lemma StoreMover(s: State, t: Tid)
    requires SlotsOk(s) && ThreadOk(s, t) && Enabled(s, t, Proceed) && Stores(s.local[t])
    ensures ThreadOk(StoreStep(s, t), t)
  {
    assert t in s.local;
    hide SlotsOk, ThreadOk, StoreStep, Enabled;
    match s.local[t]
    case Registering(_, _, _, _) => MoverRegistering(s, t);
    case Claimed(_, _, _) => MoverClaimed(s, t);
    case Unregistering(_, _, _) => MoverUnregistering(s, t);
    case Releasing(_, _, _, _) => MoverReleasing(s, t);
  }

  lemma FreeMover(s: State, t: Tid)
    requires ThreadOk(s, t) && |s.slots| == SLOTS && Frees(s.local[t]) && !Asks(s.local[t])
    ensures ThreadOk(FreeStep(s, t), t)
  {
  }

  lemma MoverScanning(s: State, t: Tid)
    requires SlotsOk(s) && ThreadOk(s, t) && Enabled(s, t, Proceed) && s.local[t].Scanning?
    ensures ThreadOk(LookStep(s, t), t)
  {
    var l := s.local[t];
    if l.i == SLOTS { NotRegistered(s, l.fd); }
    hide SlotsOk;
  }

  lemma MoverFound(s: State, t: Tid)
    requires SlotsOk(s) && ThreadOk(s, t) && Enabled(s, t, Proceed) && s.local[t].Found?
    ensures ThreadOk(LookStep(s, t), t)
  {
    var l := s.local[t];
    assert l.fd in Fds(l);
    assert l.fd != -1 && s.slots[l.i].f == OwnOf(s, l.fd);
    hide SlotsOk;
  }

  lemma MoverLooked(s: State, t: Tid)
    requires ThreadOk(s, t) && Enabled(s, t, Proceed) && s.local[t].Looked?
    ensures ThreadOk(LookStep(s, t), t)
  {
  }

  lemma LookMover(s: State, t: Tid)
    requires SlotsOk(s) && ThreadOk(s, t) && Enabled(s, t, Proceed) && Looks(s.local[t])
    ensures ThreadOk(LookStep(s, t), t)
  {
    assert t in s.local;
    hide SlotsOk, ThreadOk, LookStep, Enabled;
    match s.local[t]
    case Scanning(_, _, _) => MoverScanning(s, t);
    case Found(_, _, _) => MoverFound(s, t);
    case Looked(_, _, _) => MoverLooked(s, t);
  }

  lemma SyncMover(s: State, t: Tid)
    requires ThreadOk(s, t) && Enabled(s, t, Proceed)
    ensures ThreadOk(SyncStep(s, t), t)
  {
  }

  lemma MoverKept(s: State, t: Tid, a: Action)
    requires Inv(s) && Enabled(s, t, a)
    ensures ThreadOk(Step(s, t, a), t)
  {
    assert SlotsOk(s) && ThreadOk(s, t) && |s.slots| == SLOTS;
    hide Inv, SlotsOk, ThreadOk, StoreStep, FreeStep, LookStep, SyncStep, StartStep, AnswerStep;
    if a.Proceed? {
      var l := s.local[t];
      if Stores(l) { StoreMover(s, t); }
      else if Frees(l) { FreeMover(s, t); }
      else if Looks(l) { LookMover(s, t); }
      else { SyncMover(s, t); }
    } else if a.Answer? || a.Allocate? {
      AnswerMover(s, t, a);
    } else {
      StartMover(s, t, a);
    }
  }

  /* ----- the slots ----- */

  /** The slots stay in order while every registered fd stays open, with its object alive. */
  lemma SlotsFrame(s: State, r: State)
    requires SlotsOk(s) && r.slots == s.slots && r.own == s.own
    requires forall fd :: fd in r.kernel ==> fd >= 0
    requires forall fd :: fd in s.own ==> fd in r.kernel && s.own[fd] in r.live
    ensures SlotsOk(r)
  {
  }

  lemma OtherSlots(s: State, t: Tid, a: Action)
    requires SlotsOk(s) && ThreadOk(s, t) && Enabled(s, t, a) && (a.Proceed? ==> !Stores(s.local[t]))
    ensures SlotsOk(Step(s, t, a))
  {
    var r := Step(s, t, a);
    assert |s.slots| == SLOTS by { OwnIsOpen(s); }
    hide SlotsOk, ThreadOk, StoreStep, FreeStep, LookStep, SyncStep, StartStep, AnswerStep;
    if a.Proceed? {
      if Frees(s.local[t]) { FreeFrame(s, t); }
      else if Looks(s.local[t]) { LookFrame(s, t); }
      else { SyncFrame(s, t); }
    } else if a.Answer? || a.Allocate? {
      AnswerFrame(s, t, a);
    } else {
      StartFrame(s, t, a);
    }
    SlotsFrame(s, r);
  }

  lemma StartFrame(s: State, t: Tid, a: Action)
    requires SlotsOk(s) && t in s.local && Starts(s, t, a)
    ensures var r := StartStep(s, t, a);
            && r.slots == s.slots && r.own == s.own && (forall fd :: fd in r.kernel ==> fd >= 0)
            && forall fd :: fd in s.own ==> fd in r.kernel && s.own[fd] in r.live
  {
    OwnIsOpen(s);
    OwnIsLive(s);
    hide SlotsOk;
  }

  lemma AnswerFrame(s: State, t: Tid, a: Action)
    requires SlotsOk(s) && Enabled(s, t, a) && (a.Answer? || a.Allocate?)
    ensures var r := AnswerStep(s, t, a);
            && r.slots == s.slots && r.own == s.own && (forall fd :: fd in r.kernel ==> fd >= 0)
            && forall fd :: fd in s.own ==> fd in r.kernel && s.own[fd] in r.live
  {
    OwnIsOpen(s);
    OwnIsLive(s);
    hide SlotsOk;
  }

  lemma LookFrame(s: State, t: Tid)
    requires SlotsOk(s) && Enabled(s, t, Proceed) && Looks(s.local[t])
    ensures var r := LookStep(s, t);
            && r.slots == s.slots && r.own == s.own && (forall fd :: fd in r.kernel ==> fd >= 0)
            && forall fd :: fd in s.own ==> fd in r.kernel && s.own[fd] in r.live
  {
    OwnIsOpen(s);
    OwnIsLive(s);
    hide SlotsOk;
  }

  lemma SyncFrame(s: State, t: Tid)
    requires SlotsOk(s) && t in s.local
    ensures var r := SyncStep(s, t);
            && r.slots == s.slots && r.own == s.own && (forall fd :: fd in r.kernel ==> fd >= 0)
            && forall fd :: fd in s.own ==> fd in r.kernel && s.own[fd] in r.live
  {
    OwnIsOpen(s);
    OwnIsLive(s);
    hide SlotsOk;
  }

  lemma FreeFrame(s: State, t: Tid)
    requires SlotsOk(s) && ThreadOk(s, t) && Frees(s.local[t]) && !Asks(s.local[t])
    ensures var r := FreeStep(s, t);
            && r.slots == s.slots && r.own == s.own && (forall fd :: fd in r.kernel ==> fd >= 0)
            && forall fd :: fd in s.own ==> fd in r.kernel && s.own[fd] in r.live
  {
    OwnIsOpen(s);
    OwnIsLive(s);
    hide SlotsOk, Stands, Knows, Shaped;
  }

  /** A store at slot `i` leaves the fds of the other slots where they are. */
  lemma StillThere(slots: seq<Slot>, i: nat, x: Slot, fd: int)
    requires HasSlot(slots, fd) && i < |slots| && slots[i].fd != fd
    ensures HasSlot(slots[i := x], fd)
  {
    var j :| 0 <= j < |slots| && slots[j].fd == fd;
    assert slots[i := x][j].fd == fd;
  }

  /** What a free slot holds besides does not matter. */
  lemma FreeSlotAnyHow(s: State, i: nat, f: Option<Obj>)
    requires SlotsOk(s) && i < SLOTS && s.slots[i].fd == -1
    ensures SlotsOk(s.(slots := s.slots[i := Slot(-1, f)]))
  {
    hide HasSlot;
    var x := Slot(-1, f);
    forall fd | fd in s.own ensures HasSlot(s.slots[i := x], fd) { StillThere(s.slots, i, x, fd); }
  }

  lemma SlotTaken(s: State, i: nat, fd: int, e: Obj)
    requires SlotsOk(s) && i < SLOTS && s.slots[i] == Slot(-1, Some(e))
    requires fd in s.kernel && fd !in s.own && e in s.live && forall d | d in s.own :: s.own[d] != e
    ensures SlotsOk(s.(slots := s.slots[i := Slot(fd, Some(e))], own := s.own[fd := e]))
  {
    var x := Slot(fd, Some(e));
    assert HasSlot(s.slots[i := x], fd) by { assert s.slots[i := x][i].fd == fd; }
    hide HasSlot;
    forall d | d in s.own ensures HasSlot(s.slots[i := x], d) { StillThere(s.slots, i, x, d); }
  }

  lemma SlotLeft(s: State, i: nat)
    requires SlotsOk(s) && i < SLOTS && s.slots[i].fd != -1
    ensures SlotsOk(s.(slots := s.slots[i := s.slots[i].(fd := -1)], own := s.own - {s.slots[i].fd}))
  {
    hide HasSlot;
    var x := s.slots[i].(fd := -1);
    forall d | d in s.own && d != s.slots[i].fd ensures HasSlot(s.slots[i := x], d) { StillThere(s.slots, i, x, d); }
  }

  lemma SlotsRegistering(s: State, t: Tid)
    requires SlotsOk(s) && ThreadOk(s, t) && Enabled(s, t, Proceed) && s.local[t].Registering?
    ensures SlotsOk(StoreStep(s, t))
  {
    var r, l := StoreStep(s, t), s.local[t];
    OwnIsOpen(s);
    OwnIsLive(s);
    var m := s;
    if l.i < SLOTS && s.slots[l.i].fd == -1 {
      FreeSlotAnyHow(s, l.i, Some(l.e));
      m := s.(slots := r.slots);
    }
    assert r.slots == m.slots && r.own == m.own && r.kernel == m.kernel && r.live == m.live;
    hide SlotsOk, StoreStep, ThreadOk;
    SlotsFrame(m, r);
  }

  lemma SlotsClaimed(s: State, t: Tid)
    requires SlotsOk(s) && ThreadOk(s, t) && Enabled(s, t, Proceed) && s.local[t].Claimed?
    ensures SlotsOk(StoreStep(s, t))
  {
    var r, l := StoreStep(s, t), s.local[t];
    OwnIsOpen(s);
    OwnIsLive(s);
    assert Mine(s, t, l.fd) && l.fd !in s.own && l.e in s.live by { assert l.fd in Fds(l); }
    hide SlotsOk;
    SlotTaken(s, l.i, l.fd, l.e);
    SlotsFrame(s.(slots := r.slots, own := r.own), r);
  }

  lemma SlotsUnregistering(s: State, t: Tid)
    requires SlotsOk(s) && ThreadOk(s, t) && Enabled(s, t, Proceed) && s.local[t].Unregistering?
    ensures SlotsOk(StoreStep(s, t))
  {
    var r, l := StoreStep(s, t), s.local[t];
    OwnIsOpen(s);
    OwnIsLive(s);
    assert l.fd != -1 by { assert l.fd in Fds(l); }
    hide SlotsOk, ThreadOk;
    if l.i < SLOTS && s.slots[l.i].fd == l.fd {
      SlotLeft(s, l.i);
      SlotsFrame(s.(slots := r.slots, own := r.own), r);
    } else {
      SlotsFrame(s, r);
    }
  }

  lemma SlotsReleasing(s: State, t: Tid)
    requires SlotsOk(s) && ThreadOk(s, t) && Enabled(s, t, Proceed) && s.local[t].Releasing?
    ensures SlotsOk(StoreStep(s, t))
  {
    var r, l := StoreStep(s, t), s.local[t];
    OwnIsOpen(s);
    OwnIsLive(s);
    FreeSlotAnyHow(s, l.i, None);
    hide SlotsOk, ThreadOk;
    SlotsFrame(s.(slots := r.slots), r);
  }

  lemma SlotsKept(s: State, t: Tid, a: Action)
    requires Inv(s) && Enabled(s, t, a)
    ensures SlotsOk(Step(s, t, a))
  {
    assert SlotsOk(s) && ThreadOk(s, t);
    hide Inv, SlotsOk, ThreadOk, StoreStep, FreeStep, LookStep, SyncStep, StartStep, AnswerStep;
    if a.Proceed? && Stores(s.local[t]) {
      match s.local[t]
      case Registering(_, _, _, _) => SlotsRegistering(s, t);
      case Claimed(_, _, _) => SlotsClaimed(s, t);
      case Unregistering(_, _, _) => SlotsUnregistering(s, t);
      case Releasing(_, _, _, _) => SlotsReleasing(s, t);
    } else {
      OtherSlots(s, t, a);
    }
  }

  /** Every step of every thread keeps the invariant. */
  lemma StepInv(s: State, t: Tid, a: Action)
    requires Inv(s) && Enabled(s, t, a)
    ensures Inv(Step(s, t, a))
  {
    var r := Step(s, t, a);
    assert SlotsOk(s) && ThreadOk(s, t);
    assert forall u | u in s.local :: ThreadOk(s, u);
    assert forall u, v | u in s.local && v in s.local :: Apart(s, u, v);
    StepGentle(s, t, a);
    SlotsKept(s, t, a);
    MoverKept(s, t, a);
    hide SlotsOk, Apart, Step, Enabled, Owns, Stands, GentleSlots;
    assert r.local.Keys == s.local.Keys && (r.lock.Some? ==> r.lock.value in r.local) by { LockInside(s, r, t); }
    forall u | u in r.local && u != t ensures ThreadOk(r, u) {
      OthersOwn(s, r, t, u);
      OthersStand(s, r, t, u);
    }
    forall u, v | u in r.local && v in r.local ensures Apart(r, u, v) { ApartStays(s, r, t, u, v); }
  }

  lemma LockInside(s: State, r: State, t: Tid)
    requires Gentle(s, r, t) && (s.lock.Some? ==> s.lock.value in s.local)
    ensures r.local.Keys == s.local.Keys && (r.lock.Some? ==> r.lock.value in r.local)
  {
  }

  /* ----- whole runs ----- */

  datatype Event = Event(who: Tid, what: Action)

  /** Any interleaving of any threads' steps. */
  ghost predicate IsRun(b: seq<State>, es: seq<Event>) {
    |b| == |es| + 1 && Init(b[0]) && Follows(b, es)
  }

  ghost predicate Follows(b: seq<State>, es: seq<Event>) {
    && |b| == |es| + 1
    && forall i :: 0 <= i < |es| ==>
         Enabled(b[i], es[i].who, es[i].what) && b[i + 1] == Step(b[i], es[i].who, es[i].what)
  }

  lemma {:induction false} RunInv(b: seq<State>, es: seq<Event>, n: nat)
    requires IsRun(b, es) && n < |b|
    ensures Inv(b[n])
    decreases n
  {
    hide Inv, Step, Enabled;
    if n == 0 {
      InitInv(b[0]);
    } else {
      RunInv(b, es, n - 1);
      StepInv(b[n - 1], es[n - 1].who, es[n - 1].what);
    }
  }

  /** Occupied slots name open fds, each fd once, with live objects, one per fd. */
  ghost predicate SlotsSafe(s: State) {
    && |s.slots| == SLOTS
    && (forall i :: 0 <= i < SLOTS && s.slots[i].fd != -1 ==>
          s.slots[i].fd in s.kernel && s.slots[i].f.Some? && s.slots[i].f.value in s.live)
    && (forall i, j :: 0 <= i < j < SLOTS && s.slots[i].fd != -1 && s.slots[j].fd != -1 ==>
          s.slots[i].fd != s.slots[j].fd && s.slots[i].f != s.slots[j].f)
  }

  lemma InvSafe(s: State)
    requires Inv(s)
    ensures SlotsSafe(s)
  {
    hide ThreadOk, Apart;
  }

  /** At every moment of every run the slots are safe, and a lookup that has just
      ended returns what the slot with its fd holds, which is the live object registered
      for the fd, or nothing if no slot has it. */
  lemma RegistrySafety(b: seq<State>, es: seq<Event>, n: nat, t: Tid)
    requires IsRun(b, es) && n < |b|
    ensures SlotsSafe(b[n])
    ensures var s := b[n];
            t in s.local && s.local[t].Looked? ==>
            var fd, r := s.local[t].fd, s.local[t].result;
            if fd in s.own then r == Some(s.own[fd]) && r.value in s.live
            else r == None && forall i :: 0 <= i < SLOTS ==> s.slots[i].fd != fd
    ensures var s := b[n];
            t in s.local && s.local[t].Looked? ==>
            forall i :: 0 <= i < SLOTS && s.slots[i].fd == s.local[t].fd ==> s.slots[i].f == s.local[t].result
  {
    RunInv(b, es, n);
    InvSafe(b[n]);
    if t in b[n].local {
      assert ThreadOk(b[n], t) && SlotsOk(b[n]);
      hide IsRun, Inv;
      var l := b[n].local[t];
      if l.Looked? { assert Mine(b[n], t, l.fd) by { assert l.fd in Fds(l); } }
    }
  }

  /** Whenever dup(), dup2() or F_DUPFD is about to copy its source, that is still the live
      object of the source fd, whatever other threads have done since it was looked up; and
      the duplicate is in no slot yet. */
  lemma SourceAlive(b: seq<State>, es: seq<Event>, n: nat, t: Tid)
    requires IsRun(b, es) && n < |b| && t in b[n].local && b[n].local[t].Copying?
    ensures var s, l := b[n], b[n].local[t];
            && l.source in s.own && s.own[l.source] == l.copied && l.copied in s.live
            && Mine(s, t, l.source) && Mine(s, t, l.fd) && l.fd !in s.own && l.fd != l.source
  {
    RunInv(b, es, n);
    assert ThreadOk(b[n], t) && SlotsOk(b[n]);
    OwnIsLive(b[n]);
    hide IsRun, Inv, SlotsOk, Stands;
  }

  /** Mutual exclusion, from the invariant. */
  lemma OneLockHolder(b: seq<State>, es: seq<Event>, n: nat, t: Tid, u: Tid)
    requires IsRun(b, es) && n < |b| && t in b[n].local && u in b[n].local
    requires Locked(b[n].local[t]) && Locked(b[n].local[u])
    ensures t == u
  {
    RunInv(b, es, n);
    assert ThreadOk(b[n], t) && ThreadOk(b[n], u);
  }

  /* ----- when a registration succeeds ----- */

  /** Some slot is free. */
  ghost predicate Room(slots: seq<Slot>) {
    exists i :: 0 <= i < |slots| && slots[i].fd == -1
  }

  /** Where a registration of `e` for `fd` stands that found these slots when it took the
      lock: at a slot with none free before it, or past claiming a free one. */
  ghost predicate Searching(s: State, t: Tid, fd: int, e: Obj, why: Why, slots: seq<Slot>) {
    t in s.local && |s.slots| == |slots| == SLOTS && s.lock == Some(t) &&
    match s.local[t]
    case Registering(d, o, i, w) =>
      d == fd && o == e && w == why && i <= SLOTS && s.slots == slots
      && forall j | 0 <= j < i :: slots[j].fd != -1
    case Claimed(d, o, i) => d == fd && o == e && i < SLOTS && slots[i].fd == -1
    case Unlocking(Idle) => Room(slots) && fd in s.own && s.own[fd] == e
    case Unlocking(RegisterFailed(d, o, w)) => d == fd && o == e && w == why && s.slots == slots && !Room(slots)
    case _ => false
  }

  /** While a thread holds the lock, the others leave the slots and the map alone as far as
      it is concerned. */
  lemma SearchingKept(s: State, u: Tid, a: Action, t: Tid, fd: int, e: Obj, why: Why, slots: seq<Slot>)
    requires Inv(s) && Enabled(s, u, a) && Searching(s, t, fd, e, why, slots)
    requires u == t ==> !s.local[t].Unlocking?
    ensures Searching(Step(s, u, a), t, fd, e, why, slots)
  {
    hide Inv, Step, Enabled, Searching;
    if u != t {
      StepGentle(s, u, a);
      LockedOut(s, Step(s, u, a), u, t, fd, e, why, slots);
    } else {
      assert a == Proceed by { Searches(s, t, a, fd, e, why, slots); }
      SearchOn(s, t, fd, e, why, slots);
    }
  }

  lemma Searches(s: State, t: Tid, a: Action, fd: int, e: Obj, why: Why, slots: seq<Slot>)
    requires Searching(s, t, fd, e, why, slots) && Enabled(s, t, a)
    ensures a == Proceed
  {
  }

  lemma LockedOut(s: State, r: State, u: Tid, t: Tid, fd: int, e: Obj, why: Why, slots: seq<Slot>)
    requires Gentle(s, r, u) && GentleSlots(s, r, u) && u != t && Searching(s, t, fd, e, why, slots)
    ensures Searching(r, t, fd, e, why, slots)
  {
    assert r.lock == s.lock && r.slots == s.slots && r.own == s.own && r.local[t] == s.local[t];
    hide Gentle, GentleSlots;
  }

  lemma SearchOn(s: State, t: Tid, fd: int, e: Obj, why: Why, slots: seq<Slot>)
    requires Enabled(s, t, Proceed) && Searching(s, t, fd, e, why, slots) && !s.local[t].Unlocking?
    ensures Searching(Step(s, t, Proceed), t, fd, e, why, slots)
  {
    var l := s.local[t];
    if l.Registering? && l.i == SLOTS { assert !Room(slots); }
    if l.Claimed? { assert Room(slots); }
  }

  /** Thread `t` takes the lock at moment `m` to register what it holds, and `n` is the
      moment at which it is about to drop it again. */
  ghost predicate Registers(b: seq<State>, es: seq<Event>, m: nat, n: nat, t: Tid) {
    && IsRun(b, es) && m < n < |b| && t in b[m].local && b[m].local[t].Opened? && es[m] == Event(t, Proceed)
    && t in b[n].local && b[n].local[t].Unlocking?
    && forall k :: m < k < n ==> t in b[k].local && !b[k].local[t].Unlocking?
  }

  lemma SearchStarts(s: State, t: Tid)
    requires Enabled(s, t, Proceed) && s.local[t].Opened?
    ensures var l := s.local[t]; Searching(Step(s, t, Proceed), t, l.fd, l.e, l.why, s.slots)
  {
  }

  lemma {:induction false} SearchingAt(b: seq<State>, es: seq<Event>, m: nat, n: nat, k: nat, t: Tid)
    requires Registers(b, es, m, n, t) && m < k <= n
    ensures var l := b[m].local[t]; Searching(b[k], t, l.fd, l.e, l.why, b[m].slots)
    decreases k
  {
    var l := b[m].local[t];
    hide Searching, Inv, Enabled, Step;
    if k == m + 1 {
      SearchStarts(b[m], t);
    } else {
      SearchingAt(b, es, m, n, k - 1, t);
      RunInv(b, es, k - 1);
      SearchingKept(b[k - 1], es[k - 1].who, es[k - 1].what, t, l.fd, l.e, l.why, b[m].slots);
    }
  }

  /** Whatever the other threads do meanwhile, half-done registrations, closes and dup2()
      calls included, a registration succeeds exactly if some slot is free at the moment
      when it takes the lock. */
  lemma RegistersIff(b: seq<State>, es: seq<Event>, m: nat, n: nat, t: Tid)
    requires Registers(b, es, m, n, t)
    ensures var l, s := b[m].local[t], b[n];
            && OwnOf(s, l.fd) == (if Room(b[m].slots) then Some(l.e) else None)
            && s.local[t] == Unlocking(if Room(b[m].slots) then Idle else RegisterFailed(l.fd, l.e, l.why))
            && l.e in s.live && Mine(b[m], t, l.fd)
  {
    SearchingAt(b, es, m, n, n, t);
    RunInv(b, es, m);
    RunInv(b, es, n);
    assert ThreadOk(b[m], t) && ThreadOk(b[n], t) && SlotsOk(b[n]);
    hide IsRun, Inv, SlotsOk, Stands, Room, Knows;
    OwnIsLive(b[n]);
  }

  /* ----- what becomes of every object ----- */

  /** Registered, or in the hands of a thread. */
  ghost predicate Kept(s: State, e: Obj) {
    (exists fd :: fd in s.own && s.own[fd] == e) || exists t :: t in s.local && Held(s.local[t]) == Some(e)
  }

  /** The thread is about to return from a refused dup2() that found no slot for its target. */
  predicate GivesUp(s: State, t: Tid, e: Obj) {
    t in s.local && s.local[t].RegisterFailed? && s.local[t].why.PutBack? && s.local[t].e == e
  }

  /** A step passes on what its thread holds, destroys it or gives it up; what it takes out of
      the map and what it makes it holds. */
  ghost predicate Passes(s: State, r: State, t: Tid) {
    && t in s.local && t in r.local
    && (forall e | Held(s.local[t]) == Some(e) && e in r.live && !GivesUp(s, t, e) ::
          Held(r.local[t]) == Some(e) || exists fd :: fd in r.own && r.own[fd] == e)
    && (forall fd | fd in s.own :: OwnOf(r, fd) == OwnOf(s, fd) || Held(r.local[t]) == OwnOf(s, fd))
    && (forall e | e in r.live && e !in s.live :: Held(r.local[t]) == Some(e))
    && (forall e | GivesUp(s, t, e) :: e in r.live && Held(r.local[t]).None? && r.own == s.own)
  }

  lemma PassesRegistering(s: State, t: Tid)
    requires Enabled(s, t, Proceed) && s.local[t].Registering?
    ensures Passes(s, StoreStep(s, t), t)
  {
  }

  lemma PassesClaimed(s: State, t: Tid)
    requires ThreadOk(s, t) && Enabled(s, t, Proceed) && s.local[t].Claimed?
    ensures Passes(s, StoreStep(s, t), t)
  {
    var l, r := s.local[t], StoreStep(s, t);
    assert l.fd in r.own && r.own[l.fd] == l.e;
    hide Fds, Knows, Shaped, Locked;
  }

  lemma PassesUnregistering(s: State, t: Tid)
    requires SlotsOk(s) && Enabled(s, t, Proceed) && s.local[t].Unregistering?
    ensures Passes(s, StoreStep(s, t), t)
  {
    var l, r := s.local[t], StoreStep(s, t);
    assert l.i < SLOTS && s.slots[l.i].fd == l.fd && l.fd in s.own ==> s.slots[l.i].f == Some(s.own[l.fd]);
    assert l.fd in s.own || r.own == s.own;
    hide SlotsOk;
  }

  lemma PassesReleasing(s: State, t: Tid)
    requires Enabled(s, t, Proceed) && s.local[t].Releasing?
    ensures Passes(s, StoreStep(s, t), t)
  {
  }

  lemma StorePasses(s: State, t: Tid)
    requires SlotsOk(s) && ThreadOk(s, t) && Enabled(s, t, Proceed) && Stores(s.local[t])
    ensures Passes(s, StoreStep(s, t), t)
  {
    assert t in s.local;
    hide SlotsOk, ThreadOk, StoreStep, Enabled, Passes;
    match s.local[t]
    case Registering(_, _, _, _) => PassesRegistering(s, t);
    case Claimed(_, _, _) => PassesClaimed(s, t);
    case Unregistering(_, _, _) => PassesUnregistering(s, t);
    case Releasing(_, _, _, _) => PassesReleasing(s, t);
  }

  lemma FreePasses(s: State, t: Tid)
    requires ThreadOk(s, t) && Frees(s.local[t]) && !Asks(s.local[t])
    ensures Passes(s, FreeStep(s, t), t)
  {
    hide Fds, Knows, Shaped, Locked, Slotless, Stands;
  }

  lemma LookPasses(s: State, t: Tid)
    requires Enabled(s, t, Proceed) && Looks(s.local[t])
    ensures Passes(s, LookStep(s, t), t)
  {
  }

  lemma SyncPasses(s: State, t: Tid)
    requires ThreadOk(s, t) && !Stores(s.local[t]) && !Frees(s.local[t]) && !Looks(s.local[t])
    ensures Passes(s, SyncStep(s, t), t)
  {
    hide Fds, Knows, Slotless, Stands;
  }

  lemma AnswerPasses(s: State, t: Tid, a: Action)
    requires Enabled(s, t, a) && (a.Answer? || a.Allocate?)
    ensures Passes(s, AnswerStep(s, t, a), t)
  {
  }

  lemma StartPasses(s: State, t: Tid, a: Action)
    requires t in s.local && Starts(s, t, a)
    ensures Passes(s, StartStep(s, t, a), t)
  {
  }

  lemma StepPasses(s: State, t: Tid, a: Action)
    requires Inv(s) && Enabled(s, t, a)
    ensures Passes(s, Step(s, t, a), t)
  {
    assert SlotsOk(s) && ThreadOk(s, t) && |s.slots| == SLOTS;
    hide Inv, SlotsOk, ThreadOk, Passes, StoreStep, FreeStep, LookStep, SyncStep, StartStep, AnswerStep;
    if a.Proceed? {
      var l := s.local[t];
      if Stores(l) { StorePasses(s, t); }
      else if Frees(l) { FreePasses(s, t); }
      else if Looks(l) { LookPasses(s, t); }
      else { SyncPasses(s, t); }
    } else if a.Answer? || a.Allocate? {
      AnswerPasses(s, t, a);
    } else {
      StartPasses(s, t, a);
    }
  }

  /** Live, but in no slot and in no thread's hands: nothing will ever destroy it. */
  ghost predicate Lost(s: State, e: Obj) {
    e in s.live && !Kept(s, e)
  }

  /** A step loses exactly what it gives up, and what is lost stays lost. */
  lemma StepLoses(s: State, t: Tid, a: Action, e: Obj)
    requires Inv(s) && Enabled(s, t, a)
    ensures Lost(Step(s, t, a), e) <==> Lost(s, e) || GivesUp(s, t, e)
  {
    var r := Step(s, t, a);
    StepPasses(s, t, a);
    StepGentle(s, t, a);
    assert SlotsOk(s) && forall u | u in s.local :: ThreadOk(s, u);
    assert forall u | u in s.local :: Apart(s, t, u);
    hide Inv, SlotsOk, Step, Enabled, Held, Fds, Passes, Gentle, GivesUp, Kept, Owns, Stands, Apart;
    if Lost(s, e) {
      StaysLost(s, r, t, e);
    } else if GivesUp(s, t, e) {
      GivenUpIsLost(s, r, t, e);
    } else if e in r.live {
      KeptOn(s, r, t, e);
    }
  }

  lemma StaysLost(s: State, r: State, t: Tid, e: Obj)
    requires Gentle(s, r, t) && Lost(s, e)
    ensures Lost(r, e)
  {
    hide Fds, Held;
    assert e in r.live;
    forall fd | fd in r.own ensures r.own[fd] != e {
      assert OwnOf(r, fd) == OwnOf(s, fd) || OwnOf(r, fd) == Held(s.local[t]);
    }
    assert Held(s.local[t]) != Some(e);
    assert forall u | u in r.local && u != t :: r.local[u] == s.local[u];
  }

  lemma GivenUpIsLost(s: State, r: State, t: Tid, e: Obj)
    requires Gentle(s, r, t) && Passes(s, r, t) && GivesUp(s, t, e)
    requires Owns(s, t) && forall u | u in s.local :: Apart(s, t, u)
    ensures Lost(r, e)
  {
    assert Held(s.local[t]) == Some(e);
    hide Held, Fds, Knows, Slotless, Shaped, Locked;
    forall u | u in r.local ensures Held(r.local[u]) != Some(e) {
      if u != t { assert r.local[u] == s.local[u] && Apart(s, t, u); }
    }
  }

  lemma KeptOn(s: State, r: State, t: Tid, e: Obj)
    requires Gentle(s, r, t) && Passes(s, r, t) && !Lost(s, e) && !GivesUp(s, t, e) && e in r.live
    ensures Kept(r, e)
  {
    hide Held, Fds, GivesUp, Gained;
    if e in s.live {
      if fd :| fd in s.own && s.own[fd] == e {
        assert OwnOf(s, fd) == Some(e);
      } else {
        var u :| u in s.local && Held(s.local[u]) == Some(e);
        assert u != t ==> r.local[u] == s.local[u];
      }
    }
  }

  /** Before moment `n` of the run, some thread returned from a refused dup2() that found no
      slot for its target, whose object was `e`. */
  ghost predicate GivenUp(b: seq<State>, es: seq<Event>, n: nat, e: Obj)
    requires IsRun(b, es) && n < |b|
  {
    exists k :: 0 <= k < n && GivesUp(b[k], es[k].who, e)
  }

  lemma {:induction false} LostIff(b: seq<State>, es: seq<Event>, n: nat, e: Obj)
    requires IsRun(b, es) && n < |b|
    ensures Lost(b[n], e) <==> GivenUp(b, es, n, e)
    decreases n
  {
    hide Lost, GivesUp, Inv, Enabled, Step;
    if n == 0 {
      NoneAtFirst(b[0], e);
    } else {
      LostIff(b, es, n - 1, e);
      RunInv(b, es, n - 1);
      StepLoses(b[n - 1], es[n - 1].who, es[n - 1].what, e);
    }
  }

  lemma NoneAtFirst(s: State, e: Obj)
    requires Init(s)
    ensures !Lost(s, e)
  {
  }

  /** At every moment of every run an object is alive exactly if it is registered, or held by
      a thread, or was the target's in a refused dup2() that found all slots taken when it put
      the target back; what is so given up is never registered, held or destroyed again. */
  lemma Accounted(b: seq<State>, es: seq<Event>, n: nat, e: Obj)
    requires IsRun(b, es) && n < |b|
    ensures e in b[n].live <==> Kept(b[n], e) || GivenUp(b, es, n, e)
    ensures !(Kept(b[n], e) && GivenUp(b, es, n, e))
  {
    LostIff(b, es, n, e);
    RunInv(b, es, n);
    assert SlotsOk(b[n]) && forall t | t in b[n].local :: ThreadOk(b[n], t);
    OwnIsLive(b[n]);
    hide IsRun, Inv, SlotsOk, Stands, GivenUp, Fds, Held, Shaped, Slotless, Knows, Locked;
  }
}
