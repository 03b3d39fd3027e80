/** File mappings of embedded files: handles and views share one decompressed copy,
    which must live until both are gone. */
module Mappings {
  import opened Options

  /** The size of each of the two tables. */
  const PLACES := 512

  /** Identity of a mapping object; a freed one may be handed out again. */
  type Id = nat

  datatype Mapping = Mapping(size: nat, views: nat, closed: bool)

  /** The address of a view: a place in the data of its mapping. */
  datatype View = View(m: Id, offset: nat)

  /** The two tables and the heap; `created` and `released` count allocations and frees. */
  datatype State = State(handles: seq<Option<Id>>, views: seq<Option<View>>, heap: map<Id, Mapping>,
                         created: nat, released: nat)

  /** The first place that holds `v`, or the length. */
  function Find<T(==)>(s: seq<T>, v: T): (i: nat)
    ensures i <= |s| && (i < |s| ==> s[i] == v)
  {
    if s == [] || s[0] == v then 0 else 1 + Find(s[1..], v)
  }

  lemma {:induction false} FindIs<T>(s: seq<T>, v: T, i: nat)
    requires i <= |s| && (i < |s| ==> s[i] == v) && forall j :: 0 <= j < i ==> s[j] != v
    ensures Find(s, v) == i
    decreases |s|
  {
    if i > 0 {
      assert forall j :: 0 <= j < i - 1 ==> s[1..][j] == s[j + 1];
      FindIs(s[1..], v, i - 1);
    }
  }

  lemma {:induction false} FoundFirst<T>(s: seq<T>, v: T)
    ensures forall j :: 0 <= j < Find(s, v) ==> s[j] != v
    ensures Find(s, v) < |s| <==> v in s
    decreases |s|
  {
    if s != [] && s[0] != v {
      FoundFirst(s[1..], v);
      forall j | 0 <= j < Find(s, v) ensures s[j] != v {
        if j > 0 { assert s[j] == s[1..][j - 1]; }
      }
    }
  }

  /* ----- the calls ----- */

  datatype Call =
    | Create(size: nat, writes: bool, maxSize: nat, memory: bool, loaded: bool, id: Id)
    | MapView(h: Id, writes: bool, offset: nat)
    | Unmap(v: View)
    | CloseHandle(h: Id)

  /** What a call answers: a handle, an address, plain success, failure, or nothing
      because the handle or address is not one of ours. */
  datatype Answer = Handle(h: Id) | Address(v: View) | Done | Failed | Foreign

  /** Memory is only handed out while it is free. */
  predicate Plausible(s: State, c: Call) {
    c.Create? ==> c.id !in s.heap
  }

  function CreateStep(s: State, c: Call): (State, Answer)
    requires c.Create?
  {
    var i := Find(s.handles, None);
    if c.writes || c.size == 0 || c.maxSize > c.size || !c.memory || !c.loaded then (s, Failed)
    else if i == |s.handles| then (s.(created := s.created + 1, released := s.released + 1), Failed)
    else
      (s.(handles := s.handles[i := Some(c.id)], heap := s.heap[c.id := Mapping(c.size, 0, false)],
          created := s.created + 1),
       Handle(c.id))
  }

  function MapStep(s: State, h: Id, writes: bool, offset: nat): (State, Answer) {
    var i, j := Find(s.handles, Some(h)), Find(s.views, None);
    if i == |s.handles| || h !in s.heap then (s, Foreign)
    else if writes || offset >= s.heap[h].size || j == |s.views| then (s, Failed)
    else
      var m := s.heap[h];
      (s.(views := s.views[j := Some(View(h, offset))], heap := s.heap[h := m.(views := m.views + 1)]),
          Address(View(h, offset)))
  }

  function Released(s: State, id: Id): State {
    s.(heap := s.heap - {id}, released := s.released + 1)
  }

  function UnmapStep(s: State, v: View): (State, Answer) {
    var i := Find(s.views, Some(v));
    if i == |s.views| || v.m !in s.heap || s.heap[v.m].views == 0 then (s, Foreign)
    else
      var m := s.heap[v.m].(views := s.heap[v.m].views - 1);
      var t := s.(views := s.views[i := None], heap := s.heap[v.m := m]);
      (if m.views == 0 && m.closed then Released(t, v.m) else t, Done)
  }

  function CloseStep(s: State, h: Id): (State, Answer) {
    var i := Find(s.handles, Some(h));
    if i == |s.handles| || h !in s.heap then (s, Foreign)
    else
      var m := s.heap[h].(closed := true);
      var t := s.(handles := s.handles[i := None], heap := s.heap[h := m]);
      (if m.views == 0 then Released(t, h) else t, Done)
  }

  function Step(s: State, c: Call): (State, Answer) {
    match c
    case Create(_, _, _, _, _, _) => CreateStep(s, c)
    case MapView(h, writes, offset) => MapStep(s, h, writes, offset)
    case Unmap(v) => UnmapStep(s, v)
    case CloseHandle(h) => CloseStep(s, h)
  }

  /* ----- what the calls answer ----- */

  /** One place that held `v` holds `w`. */
  predicate Replaced<T(==)>(s: seq<T>, r: seq<T>, v: T, w: T) {
    && |r| == |s| && v in s
    && multiset(r) == multiset(s) - multiset{v} + multiset{w}
    && exists i :: 0 <= i < |s| && s[i] == v && r[i] == w && forall j :: 0 <= j < |s| && j != i ==> r[j] == s[j]
  }

  lemma FirstReplaced<T>(s: seq<T>, v: T, w: T)
    requires Find(s, v) < |s|
    ensures Replaced(s, s[Find(s, v) := w], v, w)
  {
    var i := Find(s, v);
    var r := s[i := w];
    assert s[i] == v && r[i] == w && forall j :: 0 <= j < |s| && j != i ==> r[j] == s[j];
  }

  /** A mapping is made exactly if no write is asked, the file is not empty, it is no larger than
      the file, there is memory, the content can be had and a handle is free; it is then open
      without views. */
  predicate Creates(s: State, r: State, c: Call, a: Answer)
    requires c.Create?
  {
    && (a == Handle(c.id) <==>
          !c.writes && 0 < c.size && c.maxSize <= c.size && c.memory && c.loaded && None in s.handles)
    && r.views == s.views
    && if a == Handle(c.id) then
         && Replaced(s.handles, r.handles, None, Some(c.id))
         && r.heap == s.heap[c.id := Mapping(c.size, 0, false)]
         && r.created == s.created + 1 && r.released == s.released
       else
         a == Failed && r.handles == s.handles && r.heap == s.heap && r.created - s.created == r.released - s.released
  }

  /** A view is given exactly of an open mapping, without write access, below its size and if a
      place is free: it is the place in the data that was asked for, and counted once. */
  predicate Maps(s: State, r: State, h: Id, writes: bool, offset: nat, a: Answer) {
    && (a == Foreign <==> Some(h) !in s.handles)
    && (a == Address(View(h, offset)) <==>
          Some(h) in s.handles && !writes && h in s.heap && offset < s.heap[h].size && None in s.views)
    && if a == Address(View(h, offset)) then
         && Replaced(s.views, r.views, None, Some(View(h, offset)))
         && r.heap == s.heap[h := s.heap[h].(views := s.heap[h].views + 1)]
         && r.handles == s.handles && r.created == s.created && r.released == s.released
       else
         a in {Foreign, Failed} && r == s
  }

  /** A view is taken back exactly if it was given: one place is free again, and the data goes
      with the last view of a closed mapping. */
  predicate Unmaps(s: State, r: State, v: View, a: Answer) {
    && (a == Done <==> Some(v) in s.views)
    && if a == Done then
         v.m in s.heap && s.heap[v.m].views > 0 &&
         var m := s.heap[v.m];
         && Replaced(s.views, r.views, Some(v), None)
         && r.heap == (if m.views == 1 && m.closed then s.heap - {v.m}
                       else s.heap[v.m := Mapping(m.size, m.views - 1, m.closed)])
         && r.released - s.released == (if m.views == 1 && m.closed then 1 else 0)
         && r.handles == s.handles && r.created == s.created
       else
         a == Foreign && r == s
  }

  /** A handle is closed exactly if it is open, and the data goes with it unless a view remains. */
  predicate Closes(s: State, r: State, h: Id, a: Answer) {
    && (a == Done <==> Some(h) in s.handles)
    && if a == Done then
         h in s.heap &&
         var m := s.heap[h];
         && Replaced(s.handles, r.handles, Some(h), None)
         && r.heap == (if m.views == 0 then s.heap - {h} else s.heap[h := Mapping(m.size, m.views, true)])
         && r.released - s.released == (if m.views == 0 then 1 else 0)
         && r.views == s.views && r.created == s.created
       else
         a == Foreign && r == s
  }

  lemma CreateAnswers(s: State, c: Call)
    requires c.Create? && Plausible(s, c)
    ensures var (r, a) := CreateStep(s, c); Creates(s, r, c, a)
  {
    FoundFirst(s.handles, None);
    if None in s.handles { FirstReplaced(s.handles, None, Some(c.id)); }
    hide Replaced;
  }

  lemma MapAnswers(s: State, h: Id, writes: bool, offset: nat)
    requires Some(h) in s.handles ==> h in s.heap
    ensures var (r, a) := MapStep(s, h, writes, offset); Maps(s, r, h, writes, offset, a)
  {
    FoundFirst(s.handles, Some(h));
    FoundFirst(s.views, None);
    if None in s.views { FirstReplaced(s.views, None, Some(View(h, offset))); }
    hide Replaced;
  }

  lemma UnmapAnswers(s: State, v: View)
    requires Some(v) in s.views ==> v.m in s.heap && s.heap[v.m].views > 0
    ensures var (r, a) := UnmapStep(s, v); Unmaps(s, r, v, a)
  {
    FoundFirst(s.views, Some(v));
    if Some(v) in s.views {
      FirstReplaced(s.views, Some(v), None);
      hide Replaced;
      var m := s.heap[v.m].(views := s.heap[v.m].views - 1);
      assert s.heap[v.m := m] - {v.m} == s.heap - {v.m};
    }
  }

  lemma CloseAnswers(s: State, h: Id)
    requires Some(h) in s.handles ==> h in s.heap
    ensures var (r, a) := CloseStep(s, h); Closes(s, r, h, a)
  {
    FoundFirst(s.handles, Some(h));
    if Some(h) in s.handles {
      FirstReplaced(s.handles, Some(h), None);
      hide Replaced;
      assert s.heap[h := s.heap[h].(closed := true)] - {h} == s.heap - {h};
    }
  }

  /* ----- the invariant ----- */

  predicate IsViewOf(v: Option<View>, id: Id) {
    v.Some? && v.value.m == id
  }

  /** How many slots hold a view of the mapping, at whatever address. */
  function Count(views: seq<Option<View>>, id: Id): nat {
    if views == [] then 0 else Count(views[..|views| - 1], id) + if IsViewOf(views[|views| - 1], id) then 1 else 0
  }

  ghost predicate HandlesOk(s: State) {
    && (forall i :: 0 <= i < |s.handles| && s.handles[i].Some? ==>
          s.handles[i].value in s.heap && !s.heap[s.handles[i].value].closed)
    && (forall i, j :: 0 <= i < j < |s.handles| && s.handles[i].Some? ==> s.handles[i] != s.handles[j])
    && (forall id :: id in s.heap && !s.heap[id].closed ==> Some(id) in s.handles)
  }

  ghost predicate ViewsOk(s: State) {
    && (forall i :: 0 <= i < |s.views| && s.views[i].Some? ==>
          s.views[i].value.m in s.heap && s.views[i].value.offset < s.heap[s.views[i].value.m].size)
    && (forall id :: id in s.heap ==> s.heap[id].views == Count(s.views, id))
  }

  ghost predicate Inv(s: State) {
    && |s.handles| == PLACES && |s.views| == PLACES
    && HandlesOk(s) && ViewsOk(s)
    && (forall id :: id in s.heap && s.heap[id].closed ==> s.heap[id].views > 0)
    && s.created == s.released + |s.heap|
  }

  lemma {:induction false} CountUpdate(views: seq<Option<View>>, i: nat, v: Option<View>, id: Id)
    requires i < |views|
    ensures Count(views[i := v], id) + (if IsViewOf(views[i], id) then 1 else 0)
         == Count(views, id) + (if IsViewOf(v, id) then 1 else 0)
    decreases |views|
  {
    var n := |views| - 1;
    if i == n {
      assert views[i := v][..n] == views[..n];
    } else {
      assert views[i := v][..n] == views[..n][i := v];
      CountUpdate(views[..n], i, v, id);
    }
  }

  lemma {:induction false} CountPositive(views: seq<Option<View>>, id: Id)
    ensures Count(views, id) > 0 <==> exists i :: 0 <= i < |views| && IsViewOf(views[i], id)
    decreases |views|
  {
    if views != [] {
      var n := |views| - 1;
      CountPositive(views[..n], id);
      if i :| 0 <= i < n && IsViewOf(views[..n][i], id) { assert IsViewOf(views[i], id); }
      if i :| 0 <= i < |views| && IsViewOf(views[i], id) {
        if i < n { assert IsViewOf(views[..n][i], id); }
      }
    }
  }

  lemma NoViews(s: State, id: Id)
    requires ViewsOk(s) && id !in s.heap
    ensures Count(s.views, id) == 0
  {
    CountPositive(s.views, id);
  }

  lemma CreateKeeps(s: State, c: Call)
    requires Inv(s) && c.Create? && Plausible(s, c)
    ensures Inv(CreateStep(s, c).0)
  {
    hide Find, HandlesOk, ViewsOk;
    var r := CreateStep(s, c).0;
    if CreateStep(s, c).1.Handle? {
      HandleAdded(s, r, Find(s.handles, None), c.id);
      MappingAdded(s, r, c.id);
      OneMore(s.heap, c.id, r.heap[c.id]);
    } else {
      TablesSame(s, r);
    }
  }

  lemma OneMore(heap: map<Id, Mapping>, id: Id, m: Mapping)
    requires id !in heap
    ensures |heap[id := m]| == |heap| + 1
  {
    assert heap[id := m].Keys == heap.Keys + {id};
  }

  lemma TablesSame(s: State, r: State)
    requires HandlesOk(s) && ViewsOk(s) && r.handles == s.handles && r.views == s.views && r.heap == s.heap
    ensures HandlesOk(r) && ViewsOk(r)
  {
  }

  lemma MappingAdded(s: State, r: State, id: Id)
    requires ViewsOk(s) && id !in s.heap && r.views == s.views
    requires id in r.heap && r.heap[id].views == 0 && r.heap == s.heap[id := r.heap[id]]
    ensures ViewsOk(r)
  {
    NoViews(s, id);
  }

  lemma HandleAdded(s: State, r: State, i: nat, id: Id)
    requires HandlesOk(s) && i < |s.handles| && s.handles[i] == None && r.handles == s.handles[i := Some(id)]
    requires id !in s.heap && id in r.heap && !r.heap[id].closed && r.heap == s.heap[id := r.heap[id]]
    ensures HandlesOk(r)
  {
    assert r.handles[i] == Some(id);
    forall x | x in s.heap && !s.heap[x].closed ensures Some(x) in r.handles {
      var j :| 0 <= j < |s.handles| && s.handles[j] == Some(x);
      assert r.handles[j] == Some(x);
    }
  }

  lemma SameHandles(s: State, r: State, id: Id)
    requires HandlesOk(s) && r.handles == s.handles && id in s.heap && id in r.heap
    requires r.heap == s.heap[id := r.heap[id]]
    requires r.heap[id].closed == s.heap[id].closed
    ensures HandlesOk(r) && r.heap.Keys == s.heap.Keys
  {
  }

  lemma ViewChanged(s: State, r: State, id: Id, i: nat)
    requires ViewsOk(s) && id in s.heap && id in r.heap && r.heap == s.heap[id := r.heap[id]] && i < |s.views|
    requires r.heap[id].size == s.heap[id].size && |r.views| == |s.views| && r.views == s.views[i := r.views[i]]
    requires (s.views[i].Some? ==> s.views[i].value.m == id)
        && (r.views[i].Some? ==> r.views[i].value.m == id && r.views[i].value.offset < s.heap[id].size)
    requires r.heap[id].views == Count(r.views, id)
    ensures ViewsOk(r)
  {
    forall x | x in r.heap ensures r.heap[x].views == Count(r.views, x) {
      CountUpdate(s.views, i, r.views[i], x);
    }
  }

  lemma MapKeeps(s: State, h: Id, writes: bool, offset: nat)
    requires Inv(s)
    ensures Inv(MapStep(s, h, writes, offset).0)
  {
    var r := MapStep(s, h, writes, offset).0;
    if r != s {
      var j := Find(s.views, None);
      CountUpdate(s.views, j, Some(View(h, offset)), h);
      SameHandles(s, r, h);
      ViewChanged(s, r, h, j);
    }
  }

  /** A closed mapping without views can go. */
  lemma ReleaseKeeps(s: State, id: Id)
    requires HandlesOk(s) && ViewsOk(s) && id in s.heap && s.heap[id].closed && s.heap[id].views == 0
    ensures HandlesOk(Released(s, id)) && ViewsOk(Released(s, id)) && |Released(s, id).heap| == |s.heap| - 1
  {
    var r := Released(s, id);
    CountPositive(s.views, id);
    assert r.heap.Keys == s.heap.Keys - {id};
    forall i | 0 <= i < |s.views| && s.views[i].Some? ensures s.views[i].value.m in r.heap {
      assert IsViewOf(s.views[i], s.views[i].value.m);
    }
  }

  lemma UnmapKeeps(s: State, v: View)
    requires Inv(s)
    ensures Inv(UnmapStep(s, v).0)
  {
    hide HandlesOk, ViewsOk;
    var i := Find(s.views, Some(v));
    if i < |s.views| && v.m in s.heap && s.heap[v.m].views > 0 {
      var m := s.heap[v.m].(views := s.heap[v.m].views - 1);
      var t := s.(views := s.views[i := None], heap := s.heap[v.m := m]);
      CountUpdate(s.views, i, None, v.m);
      assert s.heap[v.m].views == Count(s.views, v.m) by { ViewCount(s, v.m); }
      SameHandles(s, t, v.m);
      ViewChanged(s, t, v.m, i);
      if m.views == 0 && m.closed { ReleaseKeeps(t, v.m); }
    }
  }

  lemma ViewCount(s: State, id: Id)
    requires ViewsOk(s) && id in s.heap
    ensures s.heap[id].views == Count(s.views, id)
  {
  }

  lemma CloseKeeps(s: State, h: Id)
    requires Inv(s)
    ensures Inv(CloseStep(s, h).0)
  {
    var i := Find(s.handles, Some(h));
    hide Find, HandlesOk, ViewsOk;
    if i < |s.handles| && h in s.heap {
      var m := s.heap[h].(closed := true);
      var t := s.(handles := s.handles[i := None], heap := s.heap[h := m]);
      assert t.heap.Keys == s.heap.Keys;
      HandleDropped(s, i, h);
      if m.views == 0 { ReleaseKeeps(t, h); }
    }
  }

  /** A handle taken out of the table, and its mapping marked closed. */
  lemma HandleDropped(s: State, i: nat, h: Id)
    requires HandlesOk(s) && ViewsOk(s) && i < |s.handles| && s.handles[i] == Some(h) && h in s.heap
    ensures var t := s.(handles := s.handles[i := None], heap := s.heap[h := s.heap[h].(closed := true)]);
            HandlesOk(t) && ViewsOk(t)
  {
    var t := s.(handles := s.handles[i := None], heap := s.heap[h := s.heap[h].(closed := true)]);
    forall id | id in t.heap && !t.heap[id].closed ensures Some(id) in t.handles {
      var j :| 0 <= j < |s.handles| && s.handles[j] == Some(id);
      assert t.handles[j] == Some(id);
    }
  }

  lemma StepKeeps(s: State, c: Call)
    requires Inv(s) && Plausible(s, c)
    ensures Inv(Step(s, c).0)
  {
    match c
    case Create(_, _, _, _, _, _) => CreateKeeps(s, c);
    case MapView(h, writes, offset) => MapKeeps(s, h, writes, offset);
    case Unmap(v) => UnmapKeeps(s, v);
    case CloseHandle(h) => CloseKeeps(s, h);
  }

  /* ----- whole runs ----- */

  ghost predicate Fresh(s: State) {
    && |s.handles| == 512 && |s.views| == 512 && s.heap == map[] && s.created == s.released == 0
    && (forall i :: 0 <= i < PLACES ==> s.handles[i] == None && s.views[i] == None)
  }

  ghost predicate IsRun(b: seq<State>, cs: seq<Call>) {
    && |b| == |cs| + 1 && Fresh(b[0])
    && forall i :: 0 <= i < |cs| ==> Plausible(b[i], cs[i]) && b[i + 1] == Step(b[i], cs[i]).0
  }

  lemma {:induction false} RunInv(b: seq<State>, cs: seq<Call>, n: nat)
    requires IsRun(b, cs) && n < |b|
    ensures Inv(b[n])
    decreases n
  {
    hide Step, Plausible;
    if n == 0 {
      assert HandlesOk(b[0]) && ViewsOk(b[0]);
    } else {
      hide Inv;
      RunInv(b, cs, n - 1);
      StepKeeps(b[n - 1], cs[n - 1]);
    }
  }

  ghost predicate InUse(s: State, id: Id) {
    Some(id) in s.handles || exists i :: 0 <= i < |s.views| && IsViewOf(s.views[i], id)
  }

  /** A mapping's data is there exactly while its handle is open or a view remains,
      and its counter is the number of its views, repeated addresses included. */
  lemma LiveWhileInUse(s: State, id: Id)
    requires Inv(s)
    ensures id in s.heap <==> InUse(s, id)
    ensures id in s.heap ==> s.heap[id].views == Count(s.views, id) && (s.heap[id].closed <==> Some(id) !in s.handles)
  {
    CountPositive(s.views, id);
    if i :| 0 <= i < |s.handles| && s.handles[i] == Some(id) { assert id in s.heap; }
  }

  /** At every moment of every run: the data is there exactly while in use, and every
      allocation but those still there was freed once. */
  lemma Lifetime(b: seq<State>, cs: seq<Call>, n: nat)
    requires IsRun(b, cs) && n < |b|
    ensures forall id :: id in b[n].heap <==> InUse(b[n], id)
    ensures forall id :: id in b[n].heap ==> b[n].heap[id].views == Count(b[n].views, id)
    ensures b[n].created == b[n].released + |b[n].heap|
  {
    hide Step, Plausible, InUse;
    RunInv(b, cs, n);
    forall id ensures id in b[n].heap <==> InUse(b[n], id)
      ensures id in b[n].heap ==> b[n].heap[id].views == Count(b[n].views, id)
    {
      LiveWhileInUse(b[n], id);
    }
  }

  /** A call frees a mapping exactly when it takes away its last use. */
  lemma FreedAtLastUse(s: State, c: Call, id: Id)
    requires Inv(s) && Plausible(s, c) && id in s.heap
    ensures id !in Step(s, c).0.heap <==> InUse(s, id) && !InUse(Step(s, c).0, id)
  {
    StepKeeps(s, c);
    hide Inv, InUse, Step, Plausible;
    LiveWhileInUse(s, id);
    LiveWhileInUse(Step(s, c).0, id);
  }

  /** Views can always be taken back: unmapping what a map call answered is never
      mistaken for a foreign address, however many views share it. */
  lemma MappedCanBeUnmapped(s: State, h: Id, writes: bool, offset: nat)
    requires Inv(s) && MapStep(s, h, writes, offset).1.Address?
    ensures var (r, a) := MapStep(s, h, writes, offset);
            UnmapStep(r, a.v).1 == Done && Count(UnmapStep(r, a.v).0.views, h) == Count(s.views, h)
  {
    var (r, a) := MapStep(s, h, writes, offset);
    MapKeeps(s, h, writes, offset);
    var j, i := Find(s.views, None), Find(r.views, Some(a.v));
    assert r.views[j] == Some(a.v);
    FoundFirst(r.views, Some(a.v));
    CountUpdate(s.views, j, Some(a.v), h);
    CountUpdate(r.views, i, None, h);
  }
}
