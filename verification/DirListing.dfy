/** Listing a virtual directory: the embedded children first, then what the directory
    on disk has besides them. */
module DirListing {
  import opened Options
  import opened Paths

  const PATH_MAX := 4096
  const NAME_MAX := 255

  /** The last component of a path. */
  function FilePart(path: string): string
    decreases |path|
  {
    if SLASH !in path then path else FilePart(path[SegLen(path) + 1..])
  }

  /** As much of it as a directory entry has room for. */
  function EntryName(path: string): string {
    var name := FilePart(path);
    if |name| <= NAME_MAX then name else name[..NAME_MAX]
  }

  lemma {:induction false} SegLenAtMost(p: string, i: nat)
    requires i < |p| && p[i] == SLASH
    ensures SegLen(p) <= i
  {
    if p[0] != SLASH { SegLenAtMost(p[1..], i - 1); }
  }

  lemma {:induction false} FilePartIs(dir: string, name: string)
    requires SLASH !in name
    ensures FilePart(dir + [SLASH] + name) == name
    decreases |dir|
  {
    var p := dir + [SLASH] + name;
    assert p[|dir|] == SLASH;
    var k := SegLen(p);
    if SLASH in dir {
      var i :| 0 <= i < |dir| && dir[i] == SLASH;
      assert p[i] == SLASH;
      SegLenAtMost(p, i);
      assert p[k + 1..] == dir[k + 1..] + [SLASH] + name;
      FilePartIs(dir[k + 1..], name);
    } else {
      assert forall i :: 0 <= i < |dir| ==> p[i] == dir[i];
      SegLenIs(p, |dir|);
      assert p[k + 1..] == name;
    }
  }

  /** A name on disk that is not listed: `.`, `..`, and any that an embedded entry has,
      whatever its ASCII case. */
  predicate Shadowed(dir: string, stored: set<string>, name: string) {
    name == "." || name == ".." || (|dir + [SLASH] + name| < PATH_MAX && LowerAll(dir + [SLASH] + name) in stored)
  }

  function Unshadowed(dir: string, stored: set<string>, names: seq<string>): seq<string> {
    if names == [] then []
    else (if Shadowed(dir, stored, names[0]) then [] else [names[0]]) + Unshadowed(dir, stored, names[1..])
  }

  function Names(children: seq<string>): (r: seq<string>)
    ensures |r| == |children|
  {
    if children == [] then [] else [EntryName(children[0])] + Names(children[1..])
  }

  /** The whole listing. */
  function Listing(dir: string, stored: set<string>, children: seq<string>, disk: seq<string>): seq<string> {
    Names(children) + Unshadowed(dir, stored, disk)
  }

  /** Names on disk are listed as often as they are there, or not at all. */
  lemma {:induction false} ListedOnce(dir: string, stored: set<string>, names: seq<string>, name: string)
    ensures multiset(Unshadowed(dir, stored, names))[name] == if Shadowed(dir, stored, name) then 0
        else multiset(names)[name]
  {
    if names != [] {
      ListedOnce(dir, stored, names[1..], name);
      assert names == [names[0]] + names[1..];
      var u := if Shadowed(dir, stored, names[0]) then [] else [names[0]];
      assert multiset(Unshadowed(dir, stored, names)) == multiset(u) + multiset(Unshadowed(dir, stored, names[1..]));
    }
  }

  /** Both parts of a listing are in order. */
  lemma {:induction false} InOrder(dir: string, stored: set<string>, a: seq<string>, b: seq<string>)
    ensures Unshadowed(dir, stored, a + b) == Unshadowed(dir, stored, a) + Unshadowed(dir, stored, b)
    ensures Names(a + b) == Names(a) + Names(b)
    decreases |a|
  {
    hide EntryName, Shadowed;
    if a == [] {
      assert a + b == b;
    } else {
      assert (a + b)[1..] == a[1..] + b;
      InOrder(dir, stored, a[1..], b);
    }
  }

  /** A listing begins with the names of the children, as they are stored and in that order. */
  lemma {:induction false} ChildrenFirst(dir: string, stored: set<string>, children: seq<string>, disk: seq<string>,
                                         i: nat, name: string)
    requires i < |children| && children[i] == dir + "/" + name && '/' !in name && |name| <= 255
    ensures |Listing(dir, stored, children, disk)| >= |children|
    ensures Listing(dir, stored, children, disk)[i] == name
  {
    FilePartIs(dir, name);
    NamesAt(children, i);
  }

  lemma {:induction false} NamesAt(children: seq<string>, i: nat)
    requires i < |children|
    ensures Names(children)[i] == EntryName(children[i])
  {
    hide EntryName;
    if i > 0 { NamesAt(children[1..], i - 1); }
  }

  /** The children of a directory: stored entries one component below it. */
  ghost predicate ChildrenOf(dir: string, stored: set<string>, children: seq<string>) {
    forall i :: 0 <= i < |children| ==> ChildOf(dir, stored, children[i])
  }

  ghost predicate ChildOf(dir: string, stored: set<string>, child: string) {
    && child in stored
    && exists name :: child == dir + [SLASH] + name && SLASH !in name && |name| <= NAME_MAX
  }

  lemma LowerConcat(a: string, b: string)
    ensures LowerAll(a + b) == LowerAll(a) + LowerAll(b)
  {
    if a == "" {
      assert a + b == b;
    } else {
      assert (a + b)[1..] == a[1..] + b;
      LowerConcat(a[1..], b);
    }
  }

  /** A name on disk that an embedded child has too, up to case, is listed beside it if
      and only if the joined path does not fit the buffer, and it is not `.` or `..`. */
  lemma CaseTwinListed(dir: string, stored: set<string>, children: seq<string>, disk: seq<string>, i: nat, name: string)
    requires ChildrenOf(dir, stored, children) && i < |children| && LowerAll(dir) == dir
    requires name in disk && LowerAll(name) == EntryName(children[i])
    ensures name in Unshadowed(dir, stored, disk) <==>
            name != "." && name != ".." && |dir| + 1 + |name| >= 4096
  {
    hide Unshadowed, LowerAll, FilePart;
    assert ChildOf(dir, stored, children[i]);
    var child :| children[i] == dir + [SLASH] + child && SLASH !in child && |child| <= NAME_MAX;
    FilePartIs(dir, child);
    ListedOnce(dir, stored, disk, name);
    assert multiset(disk)[name] > 0;
    LowerJoined(dir, name);
  }

  lemma LowerJoined(dir: string, name: string)
    ensures LowerAll(dir + [SLASH] + name) == LowerAll(dir) + [SLASH] + LowerAll(name)
  {
    LowerConcat(dir + [SLASH], name);
    LowerConcat(dir, [SLASH]);
    assert LowerAll([SLASH]) == [SLASH];
  }

  /** So where every name fits, nothing on disk is listed beside a child that equals it
      up to case. */
  lemma NoCaseTwins(dir: string, stored: set<string>, children: seq<string>, disk: seq<string>, i: nat, name: string)
    requires ChildrenOf(dir, stored, children) && i < |children| && LowerAll(dir) == dir
    requires name in Unshadowed(dir, stored, disk) && LowerAll(name) == EntryName(children[i])
    ensures |dir| + 1 + |name| >= 4096
  {
    hide Unshadowed, LowerAll, FilePart;
    ListedOnce(dir, stored, disk, name);
    assert multiset(Unshadowed(dir, stored, disk))[name] > 0;
    assert multiset(disk)[name] > 0;
    CaseTwinListed(dir, stored, children, disk, i, name);
  }

  /** What one step of reading leaves of the listing. */
  lemma NextChild(children: seq<string>, i: nat, more: seq<string>)
    requires i < |children|
    ensures var rest := Names(children[i..]) + more;
            rest[0] == EntryName(children[i]) && rest[1..] == Names(children[i + 1..]) + more
  {
    hide EntryName;
    assert children[i..][1..] == children[i + 1..];
  }

  lemma NextOnDisk(dir: string, stored: set<string>, disk: seq<string>, i: nat)
    requires i < |disk|
    ensures var rest := Unshadowed(dir, stored, disk[i..]);
            if Shadowed(dir, stored, disk[i]) then rest == Unshadowed(dir, stored, disk[i + 1..])
            else rest != [] && rest[0] == disk[i] && rest[1..] == Unshadowed(dir, stored, disk[i + 1..])
  {
    hide Shadowed;
    assert disk[i..][1..] == disk[i + 1..];
  }

  lemma NothingOnDisk(dir: string, stored: set<string>, disk: seq<string>)
    ensures disk == [] ==> Unshadowed(dir, stored, disk) == []
  {
  }

  lemma NoNames(children: seq<string>, more: seq<string>)
    ensures children == [] ==> Names(children) + more == more
  {
  }

  /** An open directory stream. `disk` is what the directory on disk holds, if there
      is one. */
  class VDir {
    const dir: string
    const stored: set<string>
    const children: seq<string>
    const disk: Option<seq<string>>
    var nextChild: nat
    var diskPos: nat

    ghost predicate Valid()
      reads this
    {
      nextChild <= |children| && diskPos <= |OnDisk()|
    }

    function OnDisk(): seq<string> {
      if disk.None? then [] else disk.value
    }

    /** What is yet to be read. */
    function Rest(): seq<string>
      reads this
      requires nextChild <= |children| && diskPos <= |OnDisk()|
    {
      Names(children[nextChild..]) + Unshadowed(dir, stored, OnDisk()[diskPos..])
    }

    constructor (dir: string, stored: set<string>, children: seq<string>, disk: Option<seq<string>>)
      ensures Valid() && this.dir == dir && this.stored == stored && this.children == children && this.disk == disk
      ensures Rest() == Listing(dir, stored, children, if disk.None? then [] else disk.value)
    {
      this.dir, this.stored, this.children, this.disk := dir, stored, children, disk;
      nextChild, diskPos := 0, 0;
      new;
      assert children[0..] == children && OnDisk()[0..] == OnDisk();
    }

    /** The next entry, or none at the end. */
    method ReadDir() returns (name: Option<string>)
      requires Valid()
      modifies this
      ensures Valid()
      ensures name == if old(Rest()) == [] then None else Some(old(Rest())[0])
      ensures Rest() == if old(Rest()) == [] then [] else old(Rest())[1..]
    {
      hide Names, Unshadowed, Shadowed, EntryName;
      ghost var rest := Rest();
      if nextChild >= |children| {
        NoNames(children[nextChild..], Unshadowed(dir, stored, OnDisk()[diskPos..]));
        while disk.Some? && diskPos < |disk.value|
          invariant diskPos <= |OnDisk()| && nextChild == old(nextChild)
          invariant Unshadowed(dir, stored, OnDisk()[diskPos..]) == rest
        {
          var onDisk := disk.value[diskPos];
          NextOnDisk(dir, stored, OnDisk(), diskPos);
          diskPos := diskPos + 1;
          if !Shadowed(dir, stored, onDisk) { return Some(onDisk); }
        }
        NothingOnDisk(dir, stored, OnDisk()[diskPos..]);
        return None;
      }
      NextChild(children, nextChild, Unshadowed(dir, stored, OnDisk()[diskPos..]));
      name := Some(EntryName(children[nextChild]));
      nextChild := nextChild + 1;
    }

    /** Back to the start: the same entries come again. */
    method RewindDir()
      requires Valid()
      modifies this
      ensures Valid() && Rest() == Listing(dir, stored, children, OnDisk())
    {
      nextChild, diskPos := 0, 0;
      assert children[0..] == children && OnDisk()[0..] == OnDisk();
    }

    /** Reading to the end gives what was left, nothing else. */
    method ReadAll() returns (names: seq<string>)
      requires Valid()
      modifies this
      ensures Valid() && names == old(Rest()) && Rest() == []
    {
      hide Rest;
      names := [];
      var name := ReadDir();
      while name.Some?
        invariant Valid()
        invariant old(Rest()) == names + (if name.Some? then [name.value] + Rest() else [])
        invariant name.None? ==> Rest() == []
        decreases |Rest()| + if name.Some? then 1 else 0
      {
        NextOf(names, name.value, Rest());
        names := names + [name.value];
        name := ReadDir();
      }
    }
  }

  /** One name after another: the next one moves from what is left to what was read. */
  lemma NextOf(names: seq<string>, name: string, rest: seq<string>)
    ensures names + ([name] + rest) == names + [name] + rest
    ensures rest != [] ==> rest == [rest[0]] + rest[1..]
  {
  }
}
