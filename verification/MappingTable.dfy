/** The mapping calls over their two tables of 512 slots. */
module MappingTable {
  import opened Mappings
  import opened Options

  class MappingTable {
    var handles: array<Option<Id>>
    var views: array<Option<View>>
    var heap: map<Id, Mapping>
    ghost var created: nat
    ghost var released: nat

    ghost function Now(): State
      reads this, handles, views
    {
      State(handles[..], views[..], heap, created, released)
    }

    ghost predicate Valid()
      reads this, handles, views
    {
      Inv(Now())
    }

    constructor ()
      ensures Valid() && Fresh(Now()) && fresh(handles) && fresh(views)
    {
      handles := new Option<Id>[PLACES](i => None);
      views := new Option<View>[PLACES](i => None);
      heap, created, released := map[], 0, 0;
      new;
      assert forall i :: 0 <= i < PLACES ==> handles[..][i] == None && views[..][i] == None;
      assert HandlesOk(Now()) && ViewsOk(Now());
    }

    method FindHandle(h: Option<Id>) returns (i: nat)
      ensures i == Find(handles[..], h)
    {
      i := 0;
      while i < handles.Length && handles[i] != h
        invariant i <= handles.Length
        invariant forall j :: 0 <= j < i ==> handles[..][j] != h
      {
        i := i + 1;
      }
      FindIs(handles[..], h, i);
    }

    method FindView(v: Option<View>) returns (i: nat)
      ensures i == Find(views[..], v)
    {
      i := 0;
      while i < views.Length && views[i] != v
        invariant i <= views.Length
        invariant forall j :: 0 <= j < i ==> views[..][j] != v
      {
        i := i + 1;
      }
      FindIs(views[..], v, i);
    }

    /** Frees a mapping, which must not have been freed yet. */
    method Free(id: Id)
      requires id in heap
      modifies this`heap, this`released
      ensures heap == old(heap) - {id} && released == old(released) + 1
    {
      heap := heap - {id};
      released := released + 1;
    }

    /** CreateFileMapping() on a virtual file of the given size; the last three
        arguments tell if memory could be had, if the content could be decompressed,
        and where the mapping was allocated. */
    method CreateFileMapping(size: nat, writes: bool, maxSize: nat, memory: bool, loaded: bool, id: Id)
        returns (a: Answer)
      requires Valid() && Plausible(Now(), Create(size, writes, maxSize, memory, loaded, id))
      modifies this`heap, this`created, this`released, handles
      ensures Valid() && (Now(), a) == Step(old(Now()), Create(size, writes, maxSize, memory, loaded, id))
      ensures Creates(old(Now()), Now(), Create(size, writes, maxSize, memory, loaded, id), a)
    {
      hide Inv, Find, Step, MapStep, UnmapStep, CloseStep, Creates;
      ghost var c := Create(size, writes, maxSize, memory, loaded, id);
      StepKeeps(Now(), c);
      StepIs(Now(), c);
      CreateAnswers(Now(), c);
      if writes { return Failed; }
      if size == 0 { return Failed; }
      if maxSize > size { return Failed; }
      if !memory || !loaded { return Failed; }
      heap := heap[id := Mapping(size, 0, false)];
      created := created + 1;
      var i := FindHandle(None);
      if i < handles.Length {
        handles[i] := Some(id);
        assert handles[..] == old(handles[..])[i := Some(id)];
        return Handle(id);
      }
      Free(id);
      assert heap == old(heap);
      return Failed;
    }

    method MapViewOfFile(h: Id, writes: bool, offset: nat) returns (a: Answer)
      requires Valid()
      modifies this`heap, views
      ensures Valid() && (Now(), a) == Step(old(Now()), MapView(h, writes, offset))
      ensures Maps(old(Now()), Now(), h, writes, offset, a)
    {
      hide Inv, Find, Step, Plausible, Maps, CreateStep, UnmapStep, CloseStep;
      StepKeeps(Now(), MapView(h, writes, offset));
      StepIs(Now(), MapView(h, writes, offset));
      HandleIsLive(Now(), h);
      MapAnswers(Now(), h, writes, offset);
      var i := FindHandle(Some(h));
      if i == handles.Length { return Foreign; }
      if writes { return Failed; }
      if offset >= heap[h].size { return Failed; }
      var j := FindView(None);
      if j == views.Length { return Failed; }
      views[j] := Some(View(h, offset));
      assert views[..] == old(views[..])[j := Some(View(h, offset))];
      heap := heap[h := heap[h].(views := heap[h].views + 1)];
      return Address(View(h, offset));
    }

    method UnmapViewOfFile(v: View) returns (a: Answer)
      requires Valid()
      modifies this`heap, this`released, views
      ensures Valid() && (Now(), a) == Step(old(Now()), Unmap(v))
      ensures Unmaps(old(Now()), Now(), v, a)
    {
      hide Inv, Find, Step, Plausible, Unmaps, CreateStep, MapStep, CloseStep;
      StepKeeps(Now(), Unmap(v));
      StepIs(Now(), Unmap(v));
      ViewIsLive(Now(), v);
      UnmapAnswers(Now(), v);
      var i := FindView(Some(v));
      if i == views.Length { return Foreign; }
      views[i] := None;
      assert views[..] == old(views[..])[i := None];
      var m := heap[v.m].(views := heap[v.m].views - 1);
      heap := heap[v.m := m];
      if m.views == 0 && m.closed { Free(v.m); }
      return Done;
    }

    method CloseMapping(h: Id) returns (a: Answer)
      requires Valid()
      modifies this`heap, this`released, handles
      ensures Valid() && (Now(), a) == Step(old(Now()), CloseHandle(h))
      ensures Closes(old(Now()), Now(), h, a)
    {
      hide Inv, Find, Step, Plausible, Closes, CreateStep, MapStep, UnmapStep;
      StepKeeps(Now(), CloseHandle(h));
      StepIs(Now(), CloseHandle(h));
      HandleIsLive(Now(), h);
      CloseAnswers(Now(), h);
      var i := FindHandle(Some(h));
      if i == handles.Length { return Foreign; }
      handles[i] := None;
      assert handles[..] == old(handles[..])[i := None];
      var m := heap[h].(closed := true);
      heap := heap[h := m];
      if m.views == 0 { Free(h); }
      return Done;
    }
  }

  lemma StepIs(s: State, c: Call)
    ensures c.Create? ==> Step(s, c) == CreateStep(s, c)
    ensures c.MapView? ==> Step(s, c) == MapStep(s, c.h, c.writes, c.offset)
    ensures c.Unmap? ==> Step(s, c) == UnmapStep(s, c.v)
    ensures c.CloseHandle? ==> Step(s, c) == CloseStep(s, c.h)
  {
  }

  lemma HandleIsLive(s: State, h: Id)
    requires Inv(s)
    ensures Find(s.handles, Some(h)) < |s.handles| ==> h in s.heap
    ensures Some(h) in s.handles ==> h in s.heap
  {
    FoundFirst(s.handles, Some(h));
    hide Find;
  }

  lemma ViewIsLive(s: State, v: View)
    requires Inv(s)
    ensures Find(s.views, Some(v)) < |s.views| ==> v.m in s.heap && s.heap[v.m].views > 0
    ensures Some(v) in s.views ==> v.m in s.heap && s.heap[v.m].views > 0
  {
    FoundFirst(s.views, Some(v));
    var i := Find(s.views, Some(v));
    if i < |s.views| {
      assert IsViewOf(s.views[i], v.m);
      CountPositive(s.views, v.m);
    }
    hide Find;
  }
}
