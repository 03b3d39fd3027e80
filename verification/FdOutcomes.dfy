/** What a finished call on the shared registry leaves behind, whatever other threads do
    half done in the meantime; and that every call finishes. */
module FdOutcomes {
  import opened FdSlots
  import opened Options
  import opened FdRegistry

  /* ----- what a thread does in the course of a call ----- */

  /** What the kernel and the allocator answered, whether a slot was free when the lock was
      taken to register something, and which objects and fds the thread's own steps made,
      destroyed, opened and closed. */
  datatype Deeds = Deeds(answer: Option<int>, copy: Option<Option<Obj>>, room: Option<bool>,
                         made: set<Obj>, destroyed: set<Obj>, newFds: set<int>, closed: set<int>)

  const NOTHING := Deeds(None, None, None, {}, {}, {}, {})

  ghost function Noted(d: Deeds, s: State, t: Tid, a: Action, r: State): Deeds {
    Deeds(if a.Answer? then Some(a.answer) else d.answer,
          if a.Allocate? then Some(a.obj) else d.copy,
          if a.Proceed? && t in s.local && s.local[t].Opened? then Some(Room(s.slots)) else d.room,
          d.made + (r.live - s.live), d.destroyed + (s.live - r.live),
          d.newFds + (r.kernel.Keys - s.kernel.Keys), d.closed + (s.kernel.Keys - r.kernel.Keys))
  }

  /** The deeds of thread `t` from moment `m` to moment `n` of a run. */
  ghost function DeedsOf(b: seq<State>, es: seq<Event>, t: Tid, m: nat, n: nat): Deeds
    requires m <= n < |b| && |b| == |es| + 1
    decreases n
  {
    if n == m then NOTHING
    else
      var d := DeedsOf(b, es, t, m, n - 1);
      if es[n - 1].who == t then Noted(d, b[n - 1], t, es[n - 1].what, b[n]) else d
  }

  function Opt(e: Option<Obj>): set<Obj> {
    if e.Some? then {e.value} else {}
  }

  /* ----- how a call ends ----- */

  /** A copy for `fd`, in an EFILE of its own, is registered if the allocator gave one and a slot
      was free; otherwise it is gone again and `fd` closed. `before` was destroyed already. */
  ghost predicate Adopted(before: set<Obj>, fd: int, t: Tid, d: Deeds, s: State) {
    match d.copy
    case None => false
    case Some(None) =>
      d.room == None && d.made == {} && d.destroyed == before && d.closed == {fd} && fd !in s.kernel && fd !in s.own
    case Some(Some(e)) =>
      d.made == {e} &&
      if d.room == Some(true) then
        d.destroyed == before && d.closed == {} && OwnOf(s, fd) == Some(e) && Mine(s, t, fd)
      else
        && d.room == Some(false) && d.destroyed == before + {e} && d.closed == {fd}
        && fd !in s.kernel && fd !in s.own
  }

  /** The end of the call that `a` began in state `s0`, for the thread's deeds `d` in it. */
  ghost predicate Over(a: Action, s0: State, t: Tid, d: Deeds, s: State) {
    match a
    case KernelOpen(fd, e) =>
      d == NOTHING.(room := d.room, made := {e}, destroyed := d.destroyed, newFds := {fd}, closed := d.closed) &&
      if d.room == Some(true) then
        d.destroyed == {} && d.closed == {} && OwnOf(s, fd) == Some(e) && Mine(s, t, fd)
      else d.room == Some(false) && d.destroyed == {e} && d.closed == {fd}
    case LookUp(_) => d == NOTHING
    case Close(fd) =>
      d == NOTHING.(destroyed := Opt(OwnOf(s0, fd)), closed := {fd}) && fd !in s.kernel && fd !in s.own
    case WrapClose(fd) =>
      d == NOTHING.(destroyed := Opt(OwnOf(s0, fd)), closed := {fd})
      && (OwnOf(s0, fd).None? ==> fd !in s.kernel && fd !in s.own)
    case Dup(fd) =>
      d.answer.Some? &&
      var n := d.answer.value;
      if n < 0 then d == NOTHING.(answer := Some(n))
      else if OwnOf(s0, fd).None? then
        d == NOTHING.(answer := Some(n), newFds := {n}) && OwnOf(s, n) == None && Mine(s, t, n)
      else d.newFds == {n} && Adopted({}, n, t, d, s)
    case FcntlDup(fd, n) =>
      d.answer == None && d.newFds == {n} &&
      if OwnOf(s0, fd).None? then d == NOTHING.(newFds := {n}) && OwnOf(s, n) == None && Mine(s, t, n)
      else Adopted({}, n, t, d, s)
    case DupOnto(fd, onto) =>
      if fd == onto then d == NOTHING
      else
        d.answer.Some? && d.newFds == {} &&
        var had := OwnOf(s0, onto);
        if d.answer.value < 0 then
          d == NOTHING.(answer := d.answer, room := d.room) && Mine(s, t, onto) && (had.Some? <==> d.room.Some?)
          && OwnOf(s, onto) == if d.room == Some(true) then had else None
        else if OwnOf(s0, fd).None? then
          d == NOTHING.(answer := d.answer, destroyed := Opt(had)) && OwnOf(s, onto) == None && Mine(s, t, onto)
        else Adopted(Opt(had), onto, t, d, s)
    case _ => false
  }

  /* ----- a call under way ----- */

  function Source(a: Action): Option<int> {
    match a
    case LookUp(fd) => Some(fd)
    case Dup(fd) => Some(fd)
    case FcntlDup(fd, _) => Some(fd)
    case DupOnto(fd, _) => Some(fd)
    case _ => None
  }

  function Target(a: Action): Option<int> {
    match a
    case Close(fd) => Some(fd)
    case WrapClose(fd) => Some(fd)
    case DupOnto(_, onto) => Some(onto)
    case _ => None
  }

  function GoalOf(a: Action): Goal {
    match a
    case Dup(_) => ToDup
    case FcntlDup(_, made) => ToAdopt(made)
    case DupOnto(_, onto) => ToDupOnto(onto)
    case _ => JustLook
  }

  function LeaveOf(a: Action, s0: State): Leave {
    match a
    case WrapClose(_) => ByWrapClose
    case DupOnto(fd, _) => ByOnto(fd, OwnOf(s0, fd))
    case _ => ByClose
  }

  function FirstDeeds(a: Action): Deeds {
    match a
    case KernelOpen(fd, e) => NOTHING.(made := {e}, newFds := {fd})
    case FcntlDup(_, made) => NOTHING.(newFds := {made})
    case _ => NOTHING
  }

  /** Just before `fd` gets a copy of the source. */
  predicate ToCopy(a: Action, s0: State, fd: int, d: Deeds) {
    match a
    case Dup(source) => 0 <= fd != source && d == NOTHING.(answer := Some(fd), newFds := {fd})
    case FcntlDup(source, made) => fd == made != source && d == NOTHING.(newFds := {made})
    case DupOnto(source, onto) =>
      fd == onto != source && d.answer.Some? && d.answer.value >= 0
      && d == NOTHING.(answer := d.answer, destroyed := Opt(OwnOf(s0, onto)))
    case _ => false
  }

  /** Before `e` is registered for `fd`. */
  predicate ToRegister(a: Action, s0: State, fd: int, e: Obj, why: Why, d: Deeds) {
    match why
    case ByOpen => a == KernelOpen(fd, e) && d == FirstDeeds(a)
    case PutBack =>
      && a.DupOnto? && a.ontoFd == fd != a.fromFd && OwnOf(s0, fd) == Some(e)
      && d.answer.Some? && d.answer.value < 0 && d == NOTHING.(answer := d.answer)
    case ByAdopt =>
      && Source(a).Some? && OwnOf(s0, Source(a).value).Some? && d.copy == Some(Some(e)) && d.made == {e}
      && ToCopy(a, s0, fd, d.(copy := None, made := {}))
  }

  /** What is destroyed before the source is copied. */
  function Before(a: Action, s0: State): set<Obj> {
    if a.DupOnto? then Opt(OwnOf(s0, a.ontoFd)) else {}
  }

  /** Before the kernel closes `fd`. */
  predicate ToClose(a: Action, s0: State, fd: int, d: Deeds) {
    if a.Close? then fd == a.closeFd && d == NOTHING.(destroyed := Opt(OwnOf(s0, fd)))
    else
      && Source(a).Some? && OwnOf(s0, Source(a).value).Some? && d.copy.Some? &&
      match d.copy.value
      case None => ToCopy(a, s0, fd, d.(copy := None))
      case Some(e) =>
        && ToCopy(a, s0, fd, d.(copy := None, made := {}, room := None, destroyed := Before(a, s0)))
        && d.made == {e} && d.room == Some(false) && d.destroyed == Before(a, s0) + {e}
  }

  /** Before the target of a close or dup2() is unregistered, and after. */
  predicate ToLeave(a: Action, s0: State, fd: int, leave: Leave, d: Deeds) {
    && (a.Close? || a.WrapClose? || (a.DupOnto? && a.fromFd != fd)) && Target(a) == Some(fd)
    && leave == LeaveOf(a, s0) && d == NOTHING
  }

  /** The thread's place in the call that `a` began in `s0`, for its deeds so far. */
  ghost predicate Along(a: Action, s0: State, t: Tid, d: Deeds, s: State) {
    t in s.local && Steady(a, s0, t, s) &&
    match s.local[t]
    case Idle => Over(a, s0, t, d, s)
    case Scanning(fd, _, g) => Looking(a, s0, fd, g, d, s)
    case Found(fd, _, g) => Looking(a, s0, fd, g, d, s)
    case Looked(fd, r, g) => Looking(a, s0, fd, g, d, s) && r == OwnOf(s0, fd)
    case Closing(fd, w) => ToLeave(a, s0, fd, w, d) && OwnOf(s, fd) == OwnOf(s0, fd)
    case Unregistering(fd, _, w) => ToLeave(a, s0, fd, w, d) && OwnOf(s, fd) == OwnOf(s0, fd)
    case Releasing(fd, _, e, w) => ToLeave(a, s0, fd, w, d) && e == OwnOf(s0, fd)
    case Unregistered(fd, e, w) => ToLeave(a, s0, fd, w, d) && e == OwnOf(s0, fd)
    case Replacing(fd, e, source, found) =>
      && a == DupOnto(source, fd) && source != fd && e == OwnOf(s0, fd) && found == OwnOf(s0, source)
      && d.answer.Some? && d.answer.value >= 0 && d == NOTHING.(answer := d.answer)
    case Copying(fd, source, e) => Source(a) == Some(source) && OwnOf(s0, source) == Some(e) && ToCopy(a, s0, fd, d)
    case Opened(fd, e, why) => ToRegister(a, s0, fd, e, why, d)
    case Registering(fd, e, _, why) =>
      ToRegister(a, s0, fd, e, why, d.(room := None)) && d.room == Some(Room(s.slots))
    case Claimed(fd, e, _) => d.room == Some(true) && WillRegister(a, s0, fd, e, d.(room := None))
    case RegisterFailed(fd, e, why) => ToRegister(a, s0, fd, e, why, d.(room := None)) && d.room == Some(false)
    case FailDestroy(e) =>
      (a.KernelOpen? && e == a.newObj && d == FirstDeeds(a).(room := Some(false), closed := {a.newFd}))
      || (a.WrapClose? && OwnOf(s0, a.wrapFd) == Some(e) && d == NOTHING.(closed := {a.wrapFd}))
    case ClosingKernel(fd) => ToClose(a, s0, fd, d)
    case Unlocking(m) =>
      match m
      case Idle => Over(a, s0, t, d, s) && d.room == Some(true)
      case RegisterFailed(fd, e, why) => ToRegister(a, s0, fd, e, why, d.(room := None)) && d.room == Some(false)
      case Unregistered(fd, e, w) => ToLeave(a, s0, fd, w, d) && e == OwnOf(s0, fd)
      case _ => false
  }

  ghost predicate WillRegister(a: Action, s0: State, fd: int, e: Obj, d: Deeds) {
    exists why :: ToRegister(a, s0, fd, e, why, d)
  }

  ghost predicate Looking(a: Action, s0: State, fd: int, g: Goal, d: Deeds, s: State) {
    && Source(a) == Some(fd) && g == GoalOf(a) && d == FirstDeeds(a)
    && (a.DupOnto? ==> OwnOf(s, a.ontoFd) == OwnOf(s0, a.ontoFd))
    && (a.FcntlDup? ==> a.madeFd != fd)
  }

  /** The source of a lookup stays the thread's, with the same entry, to the end. */
  predicate Steady(a: Action, s0: State, t: Tid, s: State) {
    Source(a).Some? ==> Mine(s, t, Source(a).value) && OwnOf(s, Source(a).value) == OwnOf(s0, Source(a).value)
  }

  /* ----- steps of other threads ----- */

  /** What is the thread's stays so, with its entry. */
  lemma MineStays(s: State, r: State, u: Tid, t: Tid, fd: int)
    requires Gentle(s, r, u) && Owns(s, u) && u != t && Mine(s, t, fd)
    ensures Mine(r, t, fd) && OwnOf(r, fd) == OwnOf(s, fd)
  {
    hide Shaped, Fds, Held, Slotless, Knows, Locked;
    assert fd !in Fds(s.local[u]);
  }

  lemma OthersAlong(a: Action, s0: State, t: Tid, d: Deeds, s: State, u: Tid, x: Action)
    requires Inv(s) && Enabled(s, u, x) && u != t && Along(a, s0, t, d, s) && !s.local[t].Idle?
    ensures Along(a, s0, t, d, Step(s, u, x))
  {
    var r, l := Step(s, u, x), s.local[t];
    StepGentle(s, u, x);
    assert ThreadOk(s, u) && ThreadOk(s, t);
    assert r.local[t] == l;
    assert l.Registering? ==> r.slots == s.slots;
    assert forall fd | fd in Fds(l) :: Mine(s, t, fd);
    hide Inv, Step, Enabled, Stands, GentleSlots, Along;
    forall fd | Mine(s, t, fd) ensures Mine(r, t, fd) && OwnOf(r, fd) == OwnOf(s, fd) { MineStays(s, r, u, t, fd); }
    hide Gentle, Owns;
    UntouchedAlong(a, s0, t, d, s, r);
  }

  lemma UntouchedAlong(a: Action, s0: State, t: Tid, d: Deeds, s: State, r: State)
    requires Along(a, s0, t, d, s) && !s.local[t].Idle? && t in r.local && r.local[t] == s.local[t]
    requires s.local[t].Registering? ==> r.slots == s.slots
    requires forall fd | fd in Fds(s.local[t]) :: Mine(s, t, fd)
    requires forall fd | Mine(s, t, fd) :: Mine(r, t, fd) && OwnOf(r, fd) == OwnOf(s, fd)
    ensures Along(a, s0, t, d, r)
  {
    var l := s.local[t];
    if l == Unlocking(Idle) {
      UntouchedOver(a, s0, t, d, s, r);
      hide Over, Fds;
    } else {
      hide Over, ToCopy, ToClose, ToRegister, ToLeave, LeaveOf, GoalOf;
    }
  }

  lemma UntouchedOver(a: Action, s0: State, t: Tid, d: Deeds, s: State, r: State)
    requires Over(a, s0, t, d, s) && d.room == Some(true)
    requires forall fd | Mine(s, t, fd) :: Mine(r, t, fd) && OwnOf(r, fd) == OwnOf(s, fd)
    ensures Over(a, s0, t, d, r)
  {
  }

  /* ----- steps of the thread itself ----- */

  lemma FirstStep(s: State, t: Tid, a: Action)
    requires Inv(s) && Enabled(s, t, a) && s.local[t].Idle? && !a.HandOver? && !a.KernelOpenPlain?
    ensures var r := Step(s, t, a); Along(a, s, t, Noted(NOTHING, s, t, a, r), r) && !r.local[t].Idle?
  {
    assert SlotsOk(s);
    OwnIsOpen(s);
    OwnIsLive(s);
    hide Inv, SlotsOk, Over, Along, Noted;
    assert Step(s, t, a) == StartStep(s, t, a);
    hide Step;
    if Source(a).Some? { StartsLooking(s, t, a); } else { StartsOther(s, t, a); }
  }

  lemma StartsLooking(s: State, t: Tid, a: Action)
    requires t in s.local && Starts(s, t, a) && Source(a).Some?
    requires forall fd :: fd in s.own ==> fd in s.kernel
    ensures var r := StartStep(s, t, a); Along(a, s, t, Noted(NOTHING, s, t, a, r), r) && !r.local[t].Idle?
  {
    hide Over, ToCopy, ToClose, ToRegister, ToLeave;
  }

  lemma StartsOther(s: State, t: Tid, a: Action)
    requires t in s.local && Starts(s, t, a) && (a.KernelOpen? || a.Close? || a.WrapClose?)
    ensures var r := StartStep(s, t, a); Along(a, s, t, Noted(NOTHING, s, t, a, r), r) && !r.local[t].Idle?
  {
    hide Over, ToCopy, ToClose;
  }

  lemma LookAlong(a: Action, s0: State, t: Tid, d: Deeds, s: State)
    requires Inv(s) && Enabled(s, t, Proceed) && Looks(s.local[t]) && Along(a, s0, t, d, s)
    ensures var r := LookStep(s, t); Along(a, s0, t, Noted(d, s, t, Proceed, r), r)
  {
    var r, l := LookStep(s, t), s.local[t];
    assert r.live == s.live && r.kernel == s.kernel && !l.Opened?;
    assert l.Looked? || l.Scanning? || l.Found?;
    hide *;
    LookMoverKnows(s, t);
    NothingNoted(d, s, t, Proceed, r);
    if l.Looked? {
      LookedAlong(a, s0, t, d, s);
    } else {
      ScannedAlong(a, s0, t, d, s);
    }
  }

  lemma ScannedAlong(a: Action, s0: State, t: Tid, d: Deeds, s: State)
    requires Enabled(s, t, Proceed) && (s.local[t].Scanning? || s.local[t].Found?) && Along(a, s0, t, d, s)
    requires var l := LookStep(s, t).local[t]; l.Looked? ==> l.result == OwnOf(s, l.fd)
    ensures Along(a, s0, t, d, LookStep(s, t))
  {
    hide Over, ToCopy, ToClose, ToRegister, ToLeave, GoalOf, FirstDeeds;
  }

  /** A lookup that has ended goes on to what it was for. */
  lemma LookedAlong(a: Action, s0: State, t: Tid, d: Deeds, s: State)
    requires Enabled(s, t, Proceed) && s.local[t].Looked? && Along(a, s0, t, d, s)
    requires Slotless(s.local[t]).Some? ==> Mine(s, t, Slotless(s.local[t]).value)
    requires Slotless(s.local[t]).Some? ==> Slotless(s.local[t]).value !in s.own
    ensures Along(a, s0, t, d, LookStep(s, t))
  {
    hide ToClose, ToRegister;
    match s.local[t].goal
    case ToAdopt(_) => hide ToLeave;
    case _ => hide ToCopy;
  }

  lemma LookMoverKnows(s: State, t: Tid)
    requires Inv(s) && Enabled(s, t, Proceed) && Looks(s.local[t])
    ensures var l := LookStep(s, t).local[t]; l.Looked? ==> l.result == OwnOf(s, l.fd)
    ensures var m := Slotless(s.local[t]); m.Some? ==> m.value !in s.own && Mine(s, t, m.value)
  {
    LookMover(s, t);
    assert ThreadOk(s, t);
    if Slotless(s.local[t]).Some? { SlotlessIsMine(s.local[t]); }
  }

  lemma AnswerAlong(a: Action, s0: State, t: Tid, d: Deeds, s: State, x: Action)
    requires Inv(s) && Enabled(s, t, x) && (x.Answer? || x.Allocate?) && Along(a, s0, t, d, s)
    ensures var r := AnswerStep(s, t, x); Along(a, s0, t, Noted(d, s, t, x, r), r)
  {
    assert SlotsOk(s) && ThreadOk(s, t);
    OwnIsOpen(s);
    OwnIsLive(s);
    hide Inv, SlotsOk;
    if s.local[t].Looked? {
      AnsweredDup(a, s0, t, d, s, x);
    } else if s.local[t].Unregistered? {
      AnsweredOnto(a, s0, t, d, s, x);
    } else {
      AnsweredCopy(a, s0, t, d, s, x);
    }
  }

  lemma AnsweredDup(a: Action, s0: State, t: Tid, d: Deeds, s: State, x: Action)
    requires Enabled(s, t, x) && x.Answer? && s.local[t].Looked? && Along(a, s0, t, d, s)
    requires forall fd :: fd in s.own ==> fd in s.kernel
    ensures var r := AnswerStep(s, t, x); Along(a, s0, t, Noted(d, s, t, x, r), r)
  {
  }

  lemma AnsweredOnto(a: Action, s0: State, t: Tid, d: Deeds, s: State, x: Action)
    requires Enabled(s, t, x) && x.Answer? && s.local[t].Unregistered? && Along(a, s0, t, d, s) && ThreadOk(s, t)
    ensures var r := AnswerStep(s, t, x); Along(a, s0, t, Noted(d, s, t, x, r), r)
  {
  }

  lemma AnsweredCopy(a: Action, s0: State, t: Tid, d: Deeds, s: State, x: Action)
    requires Enabled(s, t, x) && x.Allocate? && s.local[t].Copying? && Along(a, s0, t, d, s)
    ensures var r := AnswerStep(s, t, x); Along(a, s0, t, Noted(d, s, t, x, r), r)
  {
    hide Over;
  }

  lemma RegisteringAlong(a: Action, s0: State, t: Tid, d: Deeds, s: State)
    requires Inv(s) && Enabled(s, t, Proceed) && s.local[t].Registering? && Along(a, s0, t, d, s)
    ensures var r := StoreStep(s, t); Along(a, s0, t, Noted(d, s, t, Proceed, r), r)
  {
    var l := s.local[t];
    assert ThreadOk(s, t) && |s.slots| == SLOTS;
    NothingNoted(d, s, t, Proceed, StoreStep(s, t));
    assert l.i == SLOTS ==> !Room(s.slots);
    assert l.i < SLOTS && s.slots[l.i].fd == -1 ==> Room(s.slots) && WillRegister(a, s0, l.fd, l.e, d.(room := None));
    hide Inv, Over, Owns, Noted, Room, ToRegister;
    RegisteringOn(a, s0, t, d, s);
    hide Along, StoreStep, Enabled, Stands;
  }

  lemma RegisteringOn(a: Action, s0: State, t: Tid, d: Deeds, s: State)
    requires Enabled(s, t, Proceed) && s.local[t].Registering? && Along(a, s0, t, d, s)
    requires var l := s.local[t];
             && (l.i == SLOTS ==> !Room(s.slots))
             && (l.i < SLOTS && s.slots[l.i].fd == -1 ==>
                   Room(s.slots) && WillRegister(a, s0, l.fd, l.e, d.(room := None)))
    ensures Along(a, s0, t, d, StoreStep(s, t))
  {
    hide Over, Room, ToRegister, ToCopy, ToClose, ToLeave, WillRegister;
  }

  lemma NothingNoted(d: Deeds, s: State, t: Tid, a: Action, r: State)
    requires r.live == s.live && r.kernel == s.kernel && a.Proceed? && t in s.local && !s.local[t].Opened?
    ensures Noted(d, s, t, a, r) == d
  {
  }

  lemma ClaimedAlong(a: Action, s0: State, t: Tid, d: Deeds, s: State)
    requires Inv(s) && Enabled(s, t, Proceed) && s.local[t].Claimed? && Along(a, s0, t, d, s)
    ensures var r := StoreStep(s, t); Along(a, s0, t, Noted(d, s, t, Proceed, r), r)
  {
    var l, r := s.local[t], StoreStep(s, t);
    assert ThreadOk(s, t);
    assert Mine(s, t, l.fd) by { assert l.fd in Fds(l); }
    NothingNoted(d, s, t, Proceed, r);
    hide Inv, ThreadOk, Noted, ToRegister, Over;
    ClaimedOver(a, s0, t, d, s);
    assert Steady(a, s0, t, s) && r.kernel == s.kernel && r.own == s.own[l.fd := l.e];
    hide StoreStep, Enabled, Stands, Owns;
    assert Steady(a, s0, t, r);
  }

  lemma ClaimedOver(a: Action, s0: State, t: Tid, d: Deeds, s: State)
    requires Enabled(s, t, Proceed) && s.local[t].Claimed? && Along(a, s0, t, d, s)
    requires Mine(s, t, s.local[t].fd)
    ensures var r := StoreStep(s, t); Over(a, s0, t, d, r) && r.local[t] == Unlocking(Idle)
    ensures d.room == Some(true) && Source(a) != Some(s.local[t].fd)
  {
    var l, r := s.local[t], StoreStep(s, t);
    var why :| ToRegister(a, s0, l.fd, l.e, why, d.(room := None));
    hide ToRegister, Over;
    EndsRegistered(a, s0, t, d, r, l.fd, l.e, why);
  }

  /** Whatever is registered in the end completes its call. */
  lemma EndsRegistered(a: Action, s0: State, t: Tid, d: Deeds, r: State, fd: int, e: Obj, why: Why)
    requires ToRegister(a, s0, fd, e, why, d.(room := None)) && d.room == Some(true)
    requires OwnOf(r, fd) == Some(e) && Mine(r, t, fd)
    ensures Over(a, s0, t, d, r)
    ensures Source(a) != Some(fd)
  {
  }

  lemma LeavingAlong(a: Action, s0: State, t: Tid, d: Deeds, s: State)
    requires Inv(s) && Enabled(s, t, Proceed) && (s.local[t].Unregistering? || s.local[t].Releasing?)
    requires Along(a, s0, t, d, s)
    ensures var r := StoreStep(s, t); Along(a, s0, t, Noted(d, s, t, Proceed, r), r)
  {
    var l := s.local[t];
    assert ThreadOk(s, t) && SlotsOk(s);
    assert l.fd != -1 by { assert l.fd in Fds(l); }
    if l.Unregistering? && l.i == SLOTS { NotRegistered(s, l.fd); }
    assert l.Unregistering? && l.i < SLOTS && s.slots[l.i].fd == l.fd ==> s.slots[l.i].f == OwnOf(s, l.fd);
    NothingNoted(d, s, t, Proceed, StoreStep(s, t));
    hide Inv, ThreadOk, Noted;
    LeftAlong(a, s0, t, d, s);
  }

  lemma LeftAlong(a: Action, s0: State, t: Tid, d: Deeds, s: State)
    requires Enabled(s, t, Proceed) && (s.local[t].Unregistering? || s.local[t].Releasing?)
    requires Along(a, s0, t, d, s)
    requires var l := s.local[t];
             l.Unregistering? ==>
             if l.i == SLOTS then OwnOf(s, l.fd) == None
             else s.slots[l.i].fd == l.fd ==> s.slots[l.i].f == OwnOf(s, l.fd)
    ensures Along(a, s0, t, d, StoreStep(s, t))
  {
    var l := s.local[t];
    assert Target(a) == Some(l.fd) && Source(a) != Some(l.fd);
    hide Over, ToCopy, ToClose, ToRegister, ToLeave, Along, StoreStep, Enabled;
    if l.Unregistering? { UnregisteringLeft(a, s0, t, d, s); } else { ReleasingLeft(a, s0, t, d, s); }
  }

  lemma UnregisteringLeft(a: Action, s0: State, t: Tid, d: Deeds, s: State)
    requires Enabled(s, t, Proceed) && s.local[t].Unregistering? && Along(a, s0, t, d, s)
    requires Source(a) != Some(s.local[t].fd)
    requires var l := s.local[t];
             if l.i == SLOTS then OwnOf(s, l.fd) == None
             else s.slots[l.i].fd == l.fd ==> s.slots[l.i].f == OwnOf(s, l.fd)
    ensures Along(a, s0, t, d, StoreStep(s, t))
  {
    hide Over, ToCopy, ToClose, ToRegister, ToLeave, LeaveOf, Source;
  }

  lemma ReleasingLeft(a: Action, s0: State, t: Tid, d: Deeds, s: State)
    requires Enabled(s, t, Proceed) && s.local[t].Releasing? && Along(a, s0, t, d, s)
    ensures Along(a, s0, t, d, StoreStep(s, t))
  {
    hide Over, ToCopy, ToClose, ToRegister, ToLeave, LeaveOf, Source;
  }

  lemma FreeAlong(a: Action, s0: State, t: Tid, d: Deeds, s: State)
    requires Inv(s) && Enabled(s, t, Proceed) && Frees(s.local[t]) && Along(a, s0, t, d, s)
    ensures var r := FreeStep(s, t); Along(a, s0, t, Noted(d, s, t, Proceed, r), r)
  {
    assert ThreadOk(s, t) && SlotsOk(s);
    hide Inv, SlotsOk, ThreadOk, Along, Noted, FreeStep;
    match s.local[t]
    case RegisterFailed(_, _, _) => FailedAlong(a, s0, t, d, s);
    case FailDestroy(_) => DestroyAlong(a, s0, t, d, s);
    case Unregistered(_, _, _) => UnregisteredAlong(a, s0, t, d, s);
    case ClosingKernel(_) => ClosingAlong(a, s0, t, d, s);
    case Replacing(_, _, _, _) => ReplacingAlong(a, s0, t, d, s);
  }

  lemma FailedAlong(a: Action, s0: State, t: Tid, d: Deeds, s: State)
    requires ThreadOk(s, t) && s.local[t].RegisterFailed? && Along(a, s0, t, d, s)
    ensures var r := FreeStep(s, t); Along(a, s0, t, Noted(d, s, t, Proceed, r), r)
  {
    assert t in s.local;
    hide ThreadOk, Along, Noted, FreeStep;
    match s.local[t].why
    case ByOpen => FailedOpen(a, s0, t, d, s);
    case ByAdopt => FailedAdopt(a, s0, t, d, s);
    case PutBack => FailedPutBack(a, s0, t, d, s);
  }

  lemma FailedOpen(a: Action, s0: State, t: Tid, d: Deeds, s: State)
    requires ThreadOk(s, t) && s.local[t].RegisterFailed? && s.local[t].why.ByOpen? && Along(a, s0, t, d, s)
    ensures var r := FreeStep(s, t); Along(a, s0, t, Noted(d, s, t, Proceed, r), r)
  {
    hide Shaped, Knows, Stands, ToCopy, ToClose, ToLeave, Over;
  }

  lemma FailedAdopt(a: Action, s0: State, t: Tid, d: Deeds, s: State)
    requires ThreadOk(s, t) && s.local[t].RegisterFailed? && s.local[t].why.ByAdopt? && Along(a, s0, t, d, s)
    ensures var r := FreeStep(s, t); Along(a, s0, t, Noted(d, s, t, Proceed, r), r)
  {
    hide Shaped, Knows, Stands, ToLeave, Over;
  }

  lemma FailedPutBack(a: Action, s0: State, t: Tid, d: Deeds, s: State)
    requires ThreadOk(s, t) && s.local[t].RegisterFailed? && s.local[t].why.PutBack? && Along(a, s0, t, d, s)
    ensures var r := FreeStep(s, t); Along(a, s0, t, Noted(d, s, t, Proceed, r), r)
  {
    hide Shaped, Knows, Stands, ToCopy, ToClose, ToLeave;
  }

  lemma DestroyAlong(a: Action, s0: State, t: Tid, d: Deeds, s: State)
    requires ThreadOk(s, t) && s.local[t].FailDestroy? && Along(a, s0, t, d, s)
    ensures var r := FreeStep(s, t); Along(a, s0, t, Noted(d, s, t, Proceed, r), r)
  {
  }

  lemma UnregisteredAlong(a: Action, s0: State, t: Tid, d: Deeds, s: State)
    requires ThreadOk(s, t) && s.local[t].Unregistered? && !Asks(s.local[t]) && Along(a, s0, t, d, s)
    ensures var r := FreeStep(s, t); Along(a, s0, t, Noted(d, s, t, Proceed, r), r)
  {
  }

  lemma ClosingAlong(a: Action, s0: State, t: Tid, d: Deeds, s: State)
    requires ThreadOk(s, t) && s.local[t].ClosingKernel? && Along(a, s0, t, d, s)
    ensures var r := FreeStep(s, t); Along(a, s0, t, Noted(d, s, t, Proceed, r), r)
  {
  }

  lemma ReplacingAlong(a: Action, s0: State, t: Tid, d: Deeds, s: State)
    requires ThreadOk(s, t) && s.local[t].Replacing? && Along(a, s0, t, d, s)
    ensures var r := FreeStep(s, t); Along(a, s0, t, Noted(d, s, t, Proceed, r), r)
  {
  }

  lemma SyncAlong(a: Action, s0: State, t: Tid, d: Deeds, s: State)
    requires Inv(s) && Enabled(s, t, Proceed) && (s.local[t].Opened? || s.local[t].Closing? || s.local[t].Unlocking?)
    requires Along(a, s0, t, d, s)
    ensures var r := SyncStep(s, t); Along(a, s0, t, Noted(d, s, t, Proceed, r), r)
  {
    hide Inv;
    if s.local[t].Unlocking? {
      NothingNoted(d, s, t, Proceed, SyncStep(s, t));
      hide Noted;
      UnlockedAlong(a, s0, t, d, s);
    } else {
      hide Over, ToCopy, ToClose, ToRegister, ToLeave;
    }
  }

  lemma UnlockedAlong(a: Action, s0: State, t: Tid, d: Deeds, s: State)
    requires t in s.local && s.local[t].Unlocking? && Along(a, s0, t, d, s)
    ensures Along(a, s0, t, d, SyncStep(s, t))
  {
    if s.local[t].after.Idle? { UntouchedOver(a, s0, t, d, s, SyncStep(s, t)); }
    hide Over, ToCopy, ToClose, ToRegister, ToLeave;
  }

  lemma StoreAlong(a: Action, s0: State, t: Tid, d: Deeds, s: State)
    requires Inv(s) && Enabled(s, t, Proceed) && Stores(s.local[t]) && Along(a, s0, t, d, s)
    ensures var r := StoreStep(s, t); Along(a, s0, t, Noted(d, s, t, Proceed, r), r)
  {
    assert t in s.local;
    hide Inv, Along, StoreStep, Noted, Enabled;
    match s.local[t]
    case Registering(_, _, _, _) => RegisteringAlong(a, s0, t, d, s);
    case Claimed(_, _, _) => ClaimedAlong(a, s0, t, d, s);
    case _ => LeavingAlong(a, s0, t, d, s);
  }

  lemma OwnStepAlong(a: Action, s0: State, t: Tid, d: Deeds, s: State, x: Action)
    requires Inv(s) && Enabled(s, t, x) && !s.local[t].Idle? && Along(a, s0, t, d, s)
    ensures var r := Step(s, t, x); Along(a, s0, t, Noted(d, s, t, x, r), r)
  {
    hide Inv, Along, Noted, StoreStep, FreeStep, LookStep, SyncStep, StartStep, AnswerStep;
    if x.Proceed? {
      var l := s.local[t];
      if Stores(l) { StoreAlong(a, s0, t, d, s); }
      else if Frees(l) { FreeAlong(a, s0, t, d, s); }
      else if Looks(l) { LookAlong(a, s0, t, d, s); }
      else { SyncAlong(a, s0, t, d, s); }
    } else {
      assert x.Answer? || x.Allocate?;
      AnswerAlong(a, s0, t, d, s, x);
    }
  }

  /* ----- whole calls ----- */

  /** In the run, thread `t` begins a call at moment `m` and is still in it until moment `n`. */
  ghost predicate InCall(b: seq<State>, es: seq<Event>, m: nat, n: nat, t: Tid) {
    && IsRun(b, es) && m < n < |b| && es[m].who == t && b[m].local[t].Idle?
    && !es[m].what.HandOver? && !es[m].what.KernelOpenPlain?
    && forall k :: m < k < n ==> t in b[k].local && !b[k].local[t].Idle?
  }

  /** It returns at moment `n`. */
  ghost predicate Returns(b: seq<State>, es: seq<Event>, m: nat, n: nat, t: Tid) {
    InCall(b, es, m, n, t) && t in b[n].local && b[n].local[t].Idle?
  }

  lemma {:induction false} CallAlong(b: seq<State>, es: seq<Event>, m: nat, n: nat, t: Tid)
    requires InCall(b, es, m, n, t)
    ensures Along(es[m].what, b[m], t, DeedsOf(b, es, t, m, n), b[n])
    decreases n
  {
    hide Along, Inv, Step, Enabled, Noted;
    RunInv(b, es, n - 1);
    if n == m + 1 {
      FirstStep(b[m], t, es[m].what);
    } else {
      CallAlong(b, es, m, n - 1, t);
      var e, d := es[n - 1], DeedsOf(b, es, t, m, n - 1);
      if e.who == t {
        OwnStepAlong(es[m].what, b[m], t, d, b[n - 1], e.what);
      } else {
        OthersAlong(es[m].what, b[m], t, d, b[n - 1], e.who, e.what);
      }
    }
  }

  /** Every call on the registry ends as `Over` says, whatever the others do half done. */
  lemma CallEnds(b: seq<State>, es: seq<Event>, m: nat, n: nat, t: Tid)
    requires Returns(b, es, m, n, t)
    ensures Over(es[m].what, b[m], t, DeedsOf(b, es, t, m, n), b[n])
  {
    CallAlong(b, es, m, n, t);
    hide InCall, Over, DeedsOf;
  }

  /** dup2() onto another fd. Granted, with a source to copy, memory for the copy and a free slot
      when the lock was taken, it leaves its target with the new, live object; without memory or
      slot, it leaves it closed; without a source, open as a plain fd. Refused, it puts back what
      the target had if a slot was free. In no other case is anything made, opened or closed. */
  lemma DupOntoEnds(b: seq<State>, es: seq<Event>, m: nat, n: nat, t: Tid)
    requires Returns(b, es, m, n, t) && es[m].what.DupOnto? && es[m].what.fromFd != es[m].what.ontoFd
    ensures var fd, onto, d := es[m].what.fromFd, es[m].what.ontoFd, DeedsOf(b, es, t, m, n);
            && d.answer.Some? && d.newFds == {} &&
            var source, had, refused := OwnOf(b[m], fd), OwnOf(b[m], onto), d.answer.value < 0;
            && (!refused && source.Some? && d.copy.Some? && d.copy.value.Some? && d.room == Some(true) ==>
                  var e := d.copy.value.value;
                  OwnOf(b[n], onto) == Some(e) && e in b[n].live && d.made == {e} && d.closed == {})
            && (!refused && source.Some? ==>
                  && d.copy.Some? && (d.copy.value.Some? ==> d.room.Some?)
                  && (d.copy.value.None? || d.room == Some(false) ==>
                        onto !in b[n].own && onto !in b[n].kernel && d.closed == {onto} && d.made <= d.destroyed))
            && (!refused && source.None? ==> onto !in b[n].own && Mine(b[n], t, onto) && d.made == d.closed == {})
            && (!refused && had.Some? ==> had.value in d.destroyed)
            && (refused ==> d.made == d.destroyed == d.closed == {} && Mine(b[n], t, onto))
            && (refused && had.Some? ==> d.room.Some? && OwnOf(b[n], onto) == if d.room.value then had else None)
            && (refused && had.None? ==> onto !in b[n].own)
            && OwnOf(b[n], fd) == source
  {
    CallAlong(b, es, m, n, t);
    RunInv(b, es, n);
    assert SlotsOk(b[n]);
    OwnIsLive(b[n]);
    hide InCall, DeedsOf, Inv, SlotsOk;
  }

  /** The fd that dup() or F_DUPFD gives out, if it does. */
  function GivenOut(a: Action, d: Deeds): Option<int> {
    match a
    case Dup(_) => if d.answer.Some? && d.answer.value >= 0 then d.answer else None
    case FcntlDup(_, made) => Some(made)
    case _ => None
  }

  /** dup() and F_DUPFD alike: what the kernel gives out ends with the new, live object if the
      source had one to copy, memory for the copy and a free slot were found; closed again if
      memory or slot was missing; and as a plain fd if the source is one. Refused, they do nothing. */
  lemma DupEnds(b: seq<State>, es: seq<Event>, m: nat, n: nat, t: Tid)
    requires Returns(b, es, m, n, t) && (es[m].what.Dup? || es[m].what.FcntlDup?)
    ensures var a, d := es[m].what, DeedsOf(b, es, t, m, n);
            var fd, out := if a.Dup? then a.dupFd else a.fcntlFd, GivenOut(a, d);
            var source := OwnOf(b[m], fd);
            && (a.Dup? ==> d.answer.Some?)
            && d.newFds == (if out.Some? then {out.value} else {})
            && (out.None? ==> d.made == d.destroyed == d.closed == {})
            && (out.Some? ==>
                  var made := out.value;
                  && (source.Some? && d.copy.Some? && d.copy.value.Some? && d.room == Some(true) ==>
                        var e := d.copy.value.value;
                        && OwnOf(b[n], made) == Some(e) && e in b[n].live && d.made == {e}
                        && d.closed == d.destroyed == {})
                  && (source.Some? ==>
                        && d.copy.Some? && (d.copy.value.Some? ==> d.room.Some?)
                        && (d.copy.value.None? || d.room == Some(false) ==>
                              made !in b[n].own && made !in b[n].kernel && d.closed == {made} && d.made == d.destroyed))
                  && (source.None? ==>
                        made !in b[n].own && Mine(b[n], t, made) && d.made == d.destroyed == d.closed == {}))
            && OwnOf(b[n], fd) == source
  {
    CallAlong(b, es, m, n, t);
    RunInv(b, es, n);
    assert SlotsOk(b[n]);
    OwnIsLive(b[n]);
    hide InCall, DeedsOf, Inv, SlotsOk;
  }

  /** A close() leaves its fd closed and in no slot, having destroyed the fd's object, if it had
      one, and nothing else. The wrapped close() lets go of the fd before it destroys the object,
      so that another thread may have the fd again by the time it returns; `DeedsMean` says what
      having closed it means. */
  lemma CloseEnds(b: seq<State>, es: seq<Event>, m: nat, n: nat, t: Tid)
    requires Returns(b, es, m, n, t) && (es[m].what.Close? || es[m].what.WrapClose?)
    ensures var a, d := es[m].what, DeedsOf(b, es, t, m, n);
            var fd := if a.Close? then a.closeFd else a.wrapFd;
            && d.closed == {fd} && d.made == d.newFds == {}
            && d.destroyed == (if fd in b[m].own then {b[m].own[fd]} else {})
            && (a.Close? || fd !in b[m].own ==> fd !in b[n].own && fd !in b[n].kernel)
  {
    CallEnds(b, es, m, n, t);
    hide InCall, DeedsOf;
  }

  /** An open of a virtual file ends with the file registered and its object alive if a slot was
      free; otherwise the object is destroyed and the fd closed. */
  lemma OpenEnds(b: seq<State>, es: seq<Event>, m: nat, n: nat, t: Tid)
    requires Returns(b, es, m, n, t) && es[m].what.KernelOpen?
    ensures var fd, e, d := es[m].what.newFd, es[m].what.newObj, DeedsOf(b, es, t, m, n);
            && d.made == {e} && d.newFds == {fd} && d.room.Some?
            && (d.room.value ==>
                  && OwnOf(b[n], fd) == Some(e) && e in b[n].live && Mine(b[n], t, fd)
                  && d.destroyed == d.closed == {})
            && (!d.room.value ==> d.destroyed == {e} && d.closed == {fd})
  {
    CallEnds(b, es, m, n, t);
    RunInv(b, es, n);
    assert SlotsOk(b[n]);
    OwnIsLive(b[n]);
    hide InCall, DeedsOf, Inv, SlotsOk;
  }

  /** `fd` is neither open nor in a slot. */
  ghost predicate Shut(s: State, fd: int) {
    fd !in s.kernel && fd !in s.own && !HasSlot(s.slots, fd)
  }

  /** `e` is not alive, and no slot holds it for any fd. */
  ghost predicate Dead(s: State, e: Obj) {
    e !in s.live && forall i :: 0 <= i < |s.slots| && s.slots[i].fd != -1 ==> s.slots[i].f != Some(e)
  }

  /** In the step from moment `k` thread `t` shuts `fd`. */
  ghost predicate Shuts(b: seq<State>, es: seq<Event>, t: Tid, k: nat, fd: int) {
    && k < |es| && k + 1 < |b| && es[k].who == t && fd in b[k].kernel && Shut(b[k + 1], fd)
  }

  /** In the step from moment `k` thread `t` destroys `e`. */
  ghost predicate Destroys(b: seq<State>, es: seq<Event>, t: Tid, k: nat, e: Obj) {
    && k < |es| && k + 1 < |b| && es[k].who == t && e in b[k].live && Dead(b[k + 1], e)
  }

  /** In the step from moment `k` thread `t` makes the object `e`, which did not exist. */
  ghost predicate Makes(b: seq<State>, es: seq<Event>, t: Tid, k: nat, e: Obj) {
    k < |es| && k + 1 < |b| && es[k].who == t && e !in b[k].live && e in b[k + 1].live
  }

  /** What a thread is said to have closed, destroyed or made it has. */
  lemma {:induction false} DeedsMean(b: seq<State>, es: seq<Event>, m: nat, n: nat, t: Tid)
    requires IsRun(b, es) && m <= n < |b|
    ensures forall fd | fd in DeedsOf(b, es, t, m, n).closed :: exists k :: m <= k < n && Shuts(b, es, t, k, fd)
    ensures forall e | e in DeedsOf(b, es, t, m, n).destroyed :: exists k :: m <= k < n && Destroys(b, es, t, k, e)
    ensures forall e | e in DeedsOf(b, es, t, m, n).made :: exists k :: m <= k < n && Makes(b, es, t, k, e)
    decreases n
  {
    hide Inv, Enabled, Step;
    if n > m {
      DeedsMean(b, es, m, n - 1, t);
      if es[n - 1].who == t {
        RunInv(b, es, n - 1);
        RunInv(b, es, n);
        StepMeans(b, es, t, n - 1);
      }
    }
  }

  lemma ClosedHasNoSlot(s: State, fd: int)
    requires SlotsOk(s) && fd !in s.kernel && fd >= 0
    ensures !HasSlot(s.slots, fd)
  {
  }

  lemma StepMeans(b: seq<State>, es: seq<Event>, t: Tid, k: nat)
    requires |b| == |es| + 1 && k < |es| && es[k].who == t && Inv(b[k]) && Inv(b[k + 1])
    ensures var s, r := b[k], b[k + 1];
            && (forall fd | fd in s.kernel.Keys - r.kernel.Keys :: Shuts(b, es, t, k, fd))
            && (forall e | e in s.live - r.live :: Destroys(b, es, t, k, e))
            && forall e | e in r.live - s.live :: Makes(b, es, t, k, e)
  {
    var s, r := b[k], b[k + 1];
    assert SlotsOk(s) && SlotsOk(r);
    OwnIsOpen(s);
    OwnIsOpen(r);
    OwnIsLive(r);
    hide Inv;
    forall fd | fd in s.kernel.Keys - r.kernel.Keys ensures Shuts(b, es, t, k, fd) { ClosedHasNoSlot(r, fd); }
    forall e | e in s.live - r.live ensures Destroys(b, es, t, k, e) { assert Dead(r, e); }
  }

  /* ----- every call finishes ----- */

  /** More than the number of accesses that the call under way can still make. */
  function Rank(l: Local): nat {
    match l
    case Idle => 0
    case ClosingKernel(_) => 1
    case FailDestroy(_) => 1
    case RegisterFailed(_, _, _) => 2
    case Claimed(_, _, _) => 2
    case Unlocking(m) => Rank(m) + 1
    case Registering(_, _, i, _) => 4 + Left(i)
    case Opened(_, _, _) => SLOTS + 5
    case Copying(_, _, _) => SLOTS + 6
    case Replacing(_, _, _, _) => SLOTS + 7
    case Unregistered(_, _, _) => SLOTS + 8
    case Releasing(_, _, _, _) => SLOTS + 10
    case Unregistering(_, i, _) => SLOTS + 11 + Left(i)
    case Closing(_, _) => 2 * SLOTS + 12
    case Looked(_, _, _) => 2 * SLOTS + 13
    case Found(_, _, _) => 2 * SLOTS + 14
    case Scanning(_, i, _) => 2 * SLOTS + 15 + Left(i)
  }

  function Left(i: int): nat {
    if 0 <= i <= SLOTS then SLOTS - i else SLOTS
  }

  lemma OwnStepRank(s: State, t: Tid, a: Action)
    requires Inv(s) && Enabled(s, t, a) && !s.local[t].Idle?
    ensures t in Step(s, t, a).local && Rank(Step(s, t, a).local[t]) < Rank(s.local[t])
  {
    assert Shaped(s.local[t]) by { assert ThreadOk(s, t); }
    hide Inv, StoreStep, FreeStep, LookStep, SyncStep, AnswerStep, Rank, Shaped;
    if a.Proceed? {
      var l := s.local[t];
      if Stores(l) { StoreRank(s, t); }
      else if Frees(l) { FreeRank(s, t); }
      else if Looks(l) { LookRank(s, t); }
      else { SyncRank(s, t); }
    } else {
      assert a.Answer? || a.Allocate?;
      AnswerRank(s, t, a);
    }
  }

  lemma StoreRank(s: State, t: Tid)
    requires Enabled(s, t, Proceed) && Stores(s.local[t])
    ensures Rank(StoreStep(s, t).local[t]) < Rank(s.local[t])
  {
    assert t in s.local && s.local[t].Registering? ==> s.local[t].i <= SLOTS;
    match s.local[t]
    case Registering(_, _, _, _) =>
    case Unregistering(_, _, _) =>
    case _ =>
  }

  lemma FreeRank(s: State, t: Tid)
    requires Enabled(s, t, Proceed) && Frees(s.local[t])
    ensures Rank(FreeStep(s, t).local[t]) < Rank(s.local[t])
  {
  }

  lemma LookRank(s: State, t: Tid)
    requires Enabled(s, t, Proceed) && Looks(s.local[t])
    ensures Rank(LookStep(s, t).local[t]) < Rank(s.local[t])
  {
  }

  lemma SyncRank(s: State, t: Tid)
    requires Enabled(s, t, Proceed) && (s.local[t].Opened? || s.local[t].Closing? || s.local[t].Unlocking?)
    ensures Rank(SyncStep(s, t).local[t]) < Rank(s.local[t])
  {
  }

  lemma AnswerRank(s: State, t: Tid, a: Action)
    requires Enabled(s, t, a) && (a.Answer? || a.Allocate?)
    ensures Rank(AnswerStep(s, t, a).local[t]) < Rank(s.local[t])
  {
  }

  /** How many steps the thread makes between two moments of a run. */
  function StepsOf(es: seq<Event>, t: Tid, m: nat, n: nat): nat
    requires m <= n <= |es|
    decreases n
  {
    if n == m then 0 else StepsOf(es, t, m, n - 1) + if es[n - 1].who == t then 1 else 0
  }

  /** No call makes more than 1552 steps of its own, however the threads interleave. */
  lemma {:induction false} CallBounded(b: seq<State>, es: seq<Event>, m: nat, n: nat, t: Tid)
    requires InCall(b, es, m, n, t)
    ensures t in b[n].local && StepsOf(es, t, m, n) + Rank(b[n].local[t]) <= 1552
    decreases n
  {
    hide Inv, Step, Enabled, Rank;
    RunInv(b, es, n - 1);
    var e, s := es[n - 1], b[n - 1];
    if n == m + 1 {
      FirstRank(s, t, e.what);
      assert StepsOf(es, t, m, m) == 0;
    } else {
      CallBounded(b, es, m, n - 1, t);
      if e.who == t { OwnStepRank(s, t, e.what); } else { StepGentle(s, e.who, e.what); }
    }
  }

  lemma FirstRank(s: State, t: Tid, a: Action)
    requires Enabled(s, t, a) && s.local[t].Idle? && !a.HandOver? && !a.KernelOpenPlain?
    ensures t in Step(s, t, a).local && Rank(Step(s, t, a).local[t]) < 1552
  {
  }

  /** Whenever a thread is in a call, some thread in a call can make its next step. */
  lemma NoDeadlock(b: seq<State>, es: seq<Event>, n: nat, t: Tid)
    requires IsRun(b, es) && n < |b| && t in b[n].local && !b[n].local[t].Idle?
    ensures exists u, a :: Enabled(b[n], u, a) && !b[n].local[u].Idle?
  {
    RunInv(b, es, n);
    var s := b[n];
    hide IsRun;
    assert ThreadOk(s, t) && |s.slots| == SLOTS;
    if (s.local[t].Opened? || s.local[t].Closing?) && s.lock.Some? {
      var u := s.lock.value;
      assert ThreadOk(s, u);
      assert Locked(s.local[u]);
      hide Inv, ThreadOk;
      var _ := Moves(s, u);
    } else {
      hide Inv, ThreadOk;
      var _ := Moves(s, t);
    }
  }

  /** A thread in a call can go on unless it waits for the lock. */
  lemma Moves(s: State, t: Tid) returns (a: Action)
    requires ThreadOk(s, t) && |s.slots| == SLOTS && !s.local[t].Idle?
    requires s.local[t].Opened? || s.local[t].Closing? ==> s.lock.None?
    ensures Enabled(s, t, a)
  {
    a := if Asks(s.local[t]) then Answer(-1) else if s.local[t].Copying? then Allocate(None) else Proceed;
    hide Owns;
  }
}
