/** Lexical path resolution: how a path is normalised, when it lies in a folder, and
    the two ways of finding an embedded file, by absolute path and from a directory. */
module Paths {
  import opened Options

  const SLASH := '/'

  /** Characters before the first slash. */
  function SegLen(p: string): (k: nat)
    ensures k <= |p| && (forall i :: 0 <= i < k ==> p[i] != SLASH) && (k < |p| ==> p[k] == SLASH)
  {
    if p == "" || p[0] == SLASH then 0 else 1 + SegLen(p[1..])
  }

  /** The non-empty segments between slashes. */
  function Tokens(p: string): seq<string>
    decreases |p|
  {
    if p == "" then []
    else if p[0] == SLASH then Tokens(p[1..])
    else [p[..SegLen(p)]] + Tokens(p[SegLen(p)..])
  }

  /** Takes `.` and `..` away; `..` at the root stays at the root. */
  function Resolve(ts: seq<string>, done: seq<string>): seq<string>
    decreases |ts|
  {
    if ts == [] then done
    else if ts[0] == ".." then Resolve(ts[1..], if done == [] then [] else done[..|done| - 1])
    else if ts[0] == "." then Resolve(ts[1..], done)
    else Resolve(ts[1..], done + [ts[0]])
  }

  function Join(ts: seq<string>): string {
    if ts == [] then "" else [SLASH] + ts[0] + Join(ts[1..])
  }

  function Rooted(ts: seq<string>): string {
    if ts == [] then [SLASH] else Join(ts)
  }

  function Norm(p: string): string {
    Rooted(Resolve(Tokens(p), []))
  }

  predicate IsToken(t: string) {
    t != "" && SLASH !in t
  }

  predicate IsName(t: string) {
    IsToken(t) && t != "." && t != ".."
  }

  predicate AreNames(ts: seq<string>) {
    forall i :: 0 <= i < |ts| ==> IsName(ts[i])
  }

  predicate AreTokens(ts: seq<string>) {
    forall i :: 0 <= i < |ts| ==> IsToken(ts[i])
  }

  /* ----- tokens ----- */

  lemma {:induction false} TokensAre(p: string)
    ensures AreTokens(Tokens(p))
    decreases |p|
  {
    if p != "" {
      if p[0] == SLASH { TokensAre(p[1..]); } else { TokensAre(p[SegLen(p)..]); }
    }
  }

  lemma {:induction false} SegLenIs(p: string, k: nat)
    requires k <= |p| && (forall i :: 0 <= i < k ==> p[i] != SLASH) && (k < |p| ==> p[k] == SLASH)
    ensures SegLen(p) == k
  {
    if k > 0 {
      assert forall i :: 0 <= i < k - 1 ==> p[1..][i] == p[i + 1];
      SegLenIs(p[1..], k - 1);
    }
  }

  lemma TokensFirst(p: string, k: nat)
    requires p != "" && p[0] != SLASH && k == SegLen(p)
    ensures Tokens(p) == [p[..k]] + Tokens(p[k..])
  {
  }

  lemma {:induction false} TokensSlash(a: string, b: string)
    ensures Tokens(a + [SLASH] + b) == Tokens(a) + Tokens(b)
    decreases |a|
  {
    var p := a + [SLASH] + b;
    if a == "" {
      assert p[0] == SLASH && p[1..] == b;
    } else if a[0] == SLASH {
      assert p[1..] == a[1..] + [SLASH] + b;
      TokensSlash(a[1..], b);
    } else {
      var k := SegLen(a);
      SegLenIs(p, k);
      TokensSlash(a[k..], b);
      TokensFirst(p, k);
      TokensFirst(a, k);
      hide Tokens, SegLen;
      assert p[..k] == a[..k] && p[k..] == a[k..] + [SLASH] + b;
    }
  }

  lemma {:induction false} TokensJoin(ts: seq<string>)
    requires AreTokens(ts)
    ensures Tokens(Join(ts)) == ts
  {
    if ts != [] {
      var t, j := ts[0], Join(ts[1..]);
      var p := t + j;
      assert Join(ts)[1..] == p;
      SegLenIs(p, |t|);
      assert p[..|t|] == t && p[|t|..] == j;
      TokensJoin(ts[1..]);
    }
  }

  lemma TokensRooted(ts: seq<string>)
    requires AreTokens(ts)
    ensures Tokens(Rooted(ts)) == ts
  {
    if ts == [] {
      assert [SLASH][1..] == "";
    } else {
      TokensJoin(ts);
    }
  }

  lemma {:induction false} JoinAppend(a: seq<string>, b: seq<string>)
    ensures Join(a + b) == Join(a) + Join(b)
  {
    if a == [] {
      assert a + b == b && "" + Join(b) == Join(b);
    } else {
      assert (a + b)[1..] == a[1..] + b;
      JoinAppend(a[1..], b);
    }
  }

  /* ----- resolution ----- */

  lemma {:induction false} ResolveAppend(a: seq<string>, b: seq<string>, done: seq<string>)
    ensures Resolve(a + b, done) == Resolve(b, Resolve(a, done))
    decreases |a|
  {
    if a == [] {
      assert a + b == b;
    } else {
      assert (a + b)[1..] == a[1..] + b;
      ResolveAppend(a[1..], b, if a[0] == ".." then if done == [] then [] else done[..|done| - 1]
                               else if a[0] == "." then done else done + [a[0]]);
    }
  }

  lemma {:induction false} ResolveNames(ts: seq<string>, done: seq<string>)
    requires AreNames(ts)
    ensures Resolve(ts, done) == done + ts
    decreases |ts|
  {
    if ts == [] {
      assert done + ts == done;
    } else {
      ResolveNames(ts[1..], done + [ts[0]]);
      assert done + [ts[0]] + ts[1..] == done + ts;
    }
  }

  lemma {:induction false} ResolveIsNames(ts: seq<string>, done: seq<string>)
    requires AreTokens(ts) && AreNames(done)
    ensures AreNames(Resolve(ts, done))
    decreases |ts|
  {
    if ts != [] {
      ResolveIsNames(ts[1..], if ts[0] == ".." then if done == [] then [] else done[..|done| - 1]
                              else if ts[0] == "." then done else done + [ts[0]]);
    }
  }

  /** What a normalised path consists of. */
  lemma Normalised(p: string)
    ensures AreNames(Tokens(Norm(p))) && Tokens(Norm(p)) == Resolve(Tokens(p), []) && Norm(p)[0] == SLASH
  {
    TokensAre(p);
    ResolveIsNames(Tokens(p), []);
    TokensRooted(Resolve(Tokens(p), []));
  }

  /** Normalising twice changes nothing more. */
  lemma NormIdempotent(p: string)
    ensures Norm(Norm(p)) == Norm(p)
  {
    Normalised(p);
    ResolveNames(Tokens(Norm(p)), []);
    assert [] + Tokens(Norm(p)) == Tokens(Norm(p));
  }

  /** A path may be normalised before something is appended to it. */
  lemma NormAppend(p: string, q: string)
    ensures Norm(p + [SLASH] + q) == Norm(Norm(p) + [SLASH] + q)
  {
    Normalised(p);
    TokensSlash(p, q);
    TokensSlash(Norm(p), q);
    ResolveAppend(Tokens(p), Tokens(q), []);
    ResolveAppend(Tokens(Norm(p)), Tokens(q), []);
    ResolveNames(Tokens(Norm(p)), []);
    assert [] + Tokens(Norm(p)) == Tokens(Norm(p));
  }

  /** The normal form, one component after another: nothing and `.` leave a path where it is, a
      name goes below it, and `..` takes that name away again but does not lead above the root. */
  lemma NormSteps(p: string, name: string)
    requires name != "" && '/' !in name && name != "." && name != ".."
    ensures Norm("") == "/" && Norm("..") == "/" && Norm("/" + p) == Norm(p)
    ensures Norm(p + "/") == Norm(p) && Norm(p + "/" + ".") == Norm(p)
    ensures Norm(p + "/" + name) == (if Norm(p) == "/" then "/" + name else Norm(p) + "/" + name)
    ensures Norm(p + "/" + name + "/" + "..") == Norm(p)
  {
    TokensAre(p);
    var ts := Tokens(p);
    ResolveIsNames(ts, []);
    var rs := Resolve(ts, []);
    assert Tokens("") == [] && Join([]) == "";
    OneToken(".");
    OneToken("..");
    OneToken(name);
    assert "" + "/" + p == "/" + p && p + "/" + "" == p + "/";
    TokensSlash("", p);
    TokensSlash(p, "");
    TokensSlash(p, ".");
    TokensSlash(p, name);
    TokensSlash(p + "/" + name, "..");
    assert [] + ts == ts && ts + [] == ts;
    ResolveAppend(ts, ["."], []);
    ResolveAppend(ts, [name], []);
    ResolveAppend(ts + [name], [".."], []);
    ResolveOne(rs, name);
    hide Tokens, Resolve, Join, SegLen;
    RootedSnoc(rs, name);
  }

  lemma OneToken(t: string)
    requires t != "" && '/' !in t
    ensures Tokens(t) == [t]
  {
    SegLenIs(t, |t|);
    assert t[..|t|] == t && t[|t|..] == "";
  }

  lemma ResolveOne(rs: seq<string>, name: string)
    requires name != "." && name != ".."
    ensures Resolve([name], rs) == rs + [name] && Resolve(["."], rs) == rs && Resolve([".."], rs + [name]) == rs
    ensures Resolve([".."], []) == []
  {
    assert (rs + [name])[..|rs + [name]| - 1] == rs;
    assert [name][1..] == [] && ["."][1..] == [] && [".."][1..] == [];
  }

  lemma RootedSnoc(rs: seq<string>, name: string)
    requires AreNames(rs) && name != ""
    ensures Rooted(rs + [name]) == if Rooted(rs) == "/" then "/" + name else Rooted(rs) + "/" + name
  {
    JoinAppend(rs, [name]);
    assert [name][1..] == [] && Join([]) == "";
    assert Join([name]) == "/" + name;
    if rs != [] { assert |Join(rs)| >= 1 + |rs[0]| > 1; }
  }

  lemma {:induction false} JoinTokensFits(p: string)
    ensures |Join(Tokens(p))| <= |p| + (if p != "" && p[0] != SLASH then 1 else 0)
    decreases |p|
  {
    if p != "" {
      if p[0] == SLASH {
        JoinTokensFits(p[1..]);
      } else {
        var k := SegLen(p);
        JoinTokensFits(p[k..]);
        assert ([p[..k]] + Tokens(p[k..]))[1..] == Tokens(p[k..]);
      }
    }
  }

  lemma {:induction false} ResolveShrinks(ts: seq<string>, done: seq<string>)
    ensures |Join(Resolve(ts, done))| <= |Join(done)| + |Join(ts)|
    decreases |ts|
  {
    if ts != [] {
      if ts[0] == ".." && done != [] {
        var less := done[..|done| - 1];
        assert done == less + [done[|done| - 1]];
        JoinAppend(less, [done[|done| - 1]]);
        ResolveShrinks(ts[1..], less);
      } else if ts[0] == ".." || ts[0] == "." {
        ResolveShrinks(ts[1..], done);
      } else {
        JoinAppend(done, [ts[0]]);
        assert Join([ts[0]]) == [SLASH] + ts[0] + Join([]);
        ResolveShrinks(ts[1..], done + [ts[0]]);
      }
    }
  }

  /** A path that starts with a slash never gets longer, any other by at most one. */
  lemma NormFits(p: string)
    ensures |Norm(p)| <= |p| + (if p != "" && p[0] == SLASH then 0 else 1)
  {
    JoinTokensFits(p);
    ResolveShrinks(Tokens(p), []);
  }

  /* ----- folders ----- */

  /** Length of the folder if the path lies in it. A final slash, which only the root
      has, is not counted. */
  function FolderPrefix(path: string, folder: string): (r: Option<nat>)
    ensures r.Some? ==> r.value <= |path|
  {
    var n := |folder|;
    if n == 0 || n > |path| || path[..n] != folder then None
    else if folder[n - 1] == SLASH then Some(n - 1)
    else if n == |path| || path[n] == SLASH then Some(n)
    else None
  }

  lemma {:induction false} JoinPrefix(fs: seq<string>, ps: seq<string>)
    requires AreNames(fs) && AreNames(ps)
    requires |Join(fs)| <= |Join(ps)| && Join(ps)[..|Join(fs)|] == Join(fs)
    requires |Join(fs)| == |Join(ps)| || Join(ps)[|Join(fs)|] == SLASH
    ensures fs <= ps
  {
    var jf, jp := Join(fs), Join(ps);
    TokensJoin(fs);
    TokensJoin(ps);
    hide Join, Tokens, AreNames;
    if |jf| == |jp| {
      assert jp == jf;
    } else {
      var rest := jp[|jf| + 1..];
      assert jp == jf + [SLASH] + rest;
      TokensSlash(jf, rest);
      assert ps == fs + Tokens(rest);
    }
  }

  /** The folder test holds exactly when the folder's components begin the path's,
      and then what follows is the rest of them. */
  lemma FolderPrefixIs(ps: seq<string>, fs: seq<string>)
    requires AreNames(ps) && AreNames(fs)
    ensures FolderPrefix(Rooted(ps), Rooted(fs)).Some? <==> fs <= ps
    ensures var rest := if fs == [] then Rooted(ps) else if fs <= ps then Join(ps[|fs|..]) else "";
            fs <= ps ==> Rooted(ps)[FolderPrefix(Rooted(ps), Rooted(fs)).value..] == rest
  {
    var path, folder := Rooted(ps), Rooted(fs);
    if fs == [] {
      assert path[..1] == folder;
      assert path[0..] == path;
    } else {
      LastIsNotSlash(fs);
      if fs <= ps {
        assert ps == fs + ps[|fs|..];
        JoinAppend(fs, ps[|fs|..]);
        assert path[..|folder|] == folder && path[|folder|..] == Join(ps[|fs|..]);
      } else if FolderPrefix(path, folder).Some? && ps != [] {
        JoinPrefix(fs, ps);
      } else if ps == [] {
        assert |Join(fs)| >= 2;
      }
    }
  }

  lemma {:induction false} LastIsNotSlash(ts: seq<string>)
    requires AreNames(ts) && ts != []
    ensures |Join(ts)| >= 2 && Join(ts)[|Join(ts)| - 1] != SLASH
  {
    if |ts| > 1 {
      LastIsNotSlash(ts[1..]);
    } else {
      assert Join(ts[1..]) == "";
    }
  }

  /* ----- the two lookups ----- */

  function Lower(c: char): char {
    if 'A' <= c <= 'Z' then c + ('a' - 'A') else c
  }

  function LowerAll(s: string): (r: string)
    ensures |r| == |s|
  {
    if s == "" then "" else [Lower(s[0])] + LowerAll(s[1..])
  }

  /** As LowerAll, with backslashes turned round. */
  function Fold(s: string): (r: string)
    ensures |r| == |s|
  {
    if s == "" then "" else [if s[0] == '\\' then SLASH else Lower(s[0])] + Fold(s[1..])
  }

  /** Where an absolute path is looked up: "~" and the rest below the executable's
      folder or its alias, else the path itself. */
  function VirtualPath(path: string, folder: string, alias: string): string {
    var p := FolderPrefix(path, folder);
    var q := if p.None? && alias != "" then FolderPrefix(path, alias) else p;
    if q.Some? then "~" + Fold(path[q.value..]) else Fold(path)
  }

  /** Where a path relative to an open directory is looked up. */
  function VirtualJoin(dir: string, rel: string): string {
    if dir != "" && dir[0] == '~' then "~" + Norm(dir[1..] + [SLASH] + rel) else Norm(dir + [SLASH] + rel)
  }

  /** No prefix of the path leads above where it starts. */
  predicate Stays(ts: seq<string>, depth: nat)
    decreases |ts|
  {
    if ts == [] then true
    else if ts[0] == ".." then depth > 0 && Stays(ts[1..], depth - 1)
    else if ts[0] == "." then Stays(ts[1..], depth)
    else Stays(ts[1..], depth + 1)
  }

  /** A path that stays resolves below any base as it does below the root. */
  lemma {:induction false} StaysBelow(base: seq<string>, ts: seq<string>, done: seq<string>)
    requires Stays(ts, |done|)
    ensures Resolve(ts, base + done) == base + Resolve(ts, done)
    decreases |ts|
  {
    if ts != [] {
      if ts[0] == ".." {
        assert (base + done)[..|base + done| - 1] == base + done[..|done| - 1];
        StaysBelow(base, ts[1..], done[..|done| - 1]);
      } else if ts[0] == "." {
        StaysBelow(base, ts[1..], done);
      } else {
        assert base + done + [ts[0]] == base + (done + [ts[0]]);
        StaysBelow(base, ts[1..], done + [ts[0]]);
      }
    }
  }

  /** A path that leads above its start resolves to the same tail there, but under
      less of the base than it started from. */
  lemma {:induction false} LeavesBelow(base: seq<string>, ts: seq<string>, done: seq<string>)
    returns (k: nat)
    requires !Stays(ts, |done|) && base != []
    ensures k < |base| && Resolve(ts, base + done) == base[..k] + Resolve(ts, done)
    decreases |ts|
  {
    if ts[0] == ".." && done == [] {
      assert base + done == base;
      var less := base[..|base| - 1];
      if less == [] {
        k := 0;
        assert base[..0] + Resolve(ts, done) == Resolve(ts, done);
      } else if Stays(ts[1..], 0) {
        StaysBelow(less, ts[1..], []);
        assert less + [] == less;
        k := |less|;
      } else {
        assert less + [] == less;
        k := LeavesBelow(less, ts[1..], []);
        assert less[..k] == base[..k];
      }
    } else if ts[0] == ".." {
      assert (base + done)[..|base + done| - 1] == base + done[..|done| - 1];
      k := LeavesBelow(base, ts[1..], done[..|done| - 1]);
    } else if ts[0] == "." {
      k := LeavesBelow(base, ts[1..], done);
    } else {
      assert base + done + [ts[0]] == base + (done + [ts[0]]);
      k := LeavesBelow(base, ts[1..], done + [ts[0]]);
    }
  }

  /** Character by character: capitals become the small letter in the same place of the alphabet,
      backslashes slashes in the one, and everything else stays. */
  lemma {:induction false} FoldAt(s: string, i: nat)
    requires i < |s|
    ensures var small := "abcdefghijklmnopqrstuvwxyz";
            var low := if 'A' <= s[i] <= 'Z' then small[s[i] as int - 'A' as int] else s[i];
            LowerAll(s)[i] == low && Fold(s)[i] == if s[i] == '\\' then '/' else low
  {
    if i > 0 { FoldAt(s[1..], i - 1); }
  }

  lemma {:induction false} FoldIsLower(s: string)
    requires '\\' !in s
    ensures Fold(s) == LowerAll(s)
  {
    if s != "" { FoldIsLower(s[1..]); }
  }

  lemma {:induction false} NoBackslash(ts: seq<string>)
    requires forall i :: 0 <= i < |ts| ==> '\\' !in ts[i]
    ensures '\\' !in Join(ts)
  {
    if ts != [] { NoBackslash(ts[1..]); }
  }

  lemma {:induction false} TokensFrom(p: string)
    requires '\\' !in p
    ensures forall i :: 0 <= i < |Tokens(p)| ==> '\\' !in Tokens(p)[i]
    decreases |p|
  {
    if p != "" {
      if p[0] == SLASH { TokensFrom(p[1..]); } else { TokensFrom(p[SegLen(p)..]); }
    }
  }

  lemma {:induction false} ResolveFrom(ts: seq<string>, done: seq<string>)
    requires forall i :: 0 <= i < |ts| ==> '\\' !in ts[i]
    requires forall i :: 0 <= i < |done| ==> '\\' !in done[i]
    ensures forall i :: 0 <= i < |Resolve(ts, done)| ==> '\\' !in Resolve(ts, done)[i]
    decreases |ts|
  {
    if ts != [] {
      ResolveFrom(ts[1..], if ts[0] == ".." then if done == [] then [] else done[..|done| - 1]
                           else if ts[0] == "." then done else done + [ts[0]]);
    }
  }

  lemma {:induction false} LongerJoin(a: seq<string>, b: seq<string>)
    requires AreTokens(a) && a != []
    ensures |Join(a + b)| > |Join(b)|
  {
    JoinAppend(a, b);
  }

  /** The tokens of a directory's path below the folder, and of a path from it. */
  function From(ds: seq<string>, rel: string): seq<string> {
    ds + Tokens(rel)
  }

  lemma JoinIs(ds: seq<string>, rel: string)
    requires AreNames(ds)
    ensures VirtualJoin("~" + Join(ds), rel) == "~" + Rooted(Resolve(From(ds, rel), []))
  {
    assert ("~" + Join(ds))[1..] == Join(ds);
    TokensSlash(Join(ds), rel);
    TokensJoin(ds);
  }

  lemma BaseTokens(xs: seq<string>, ds: seq<string>)
    requires AreNames(xs) && AreNames(ds)
    ensures Tokens(Rooted(xs) + Join(ds)) == xs + ds
  {
    if xs == [] {
      var p := [SLASH] + Join(ds);
      assert p[1..] == Join(ds);
      TokensJoin(ds);
      assert xs + ds == ds;
    } else {
      JoinAppend(xs, ds);
      TokensJoin(xs + ds);
    }
  }

  lemma AbsoluteIs(xs: seq<string>, ds: seq<string>, rel: string)
    requires AreNames(xs) && AreNames(ds)
    ensures Norm(Rooted(xs) + Join(ds) + [SLASH] + rel) == Rooted(Resolve(From(ds, rel), xs))
  {
    hide Tokens, Resolve, Join, Rooted, AreNames;
    var p := Rooted(xs) + Join(ds);
    BaseTokens(xs, ds);
    TokensSlash(p, rel);
    assert (xs + ds) + Tokens(rel) == xs + From(ds, rel);
    ResolveAppend(xs, From(ds, rel), []);
    ResolveNames(xs, []);
    assert [] + xs == xs;
  }

  /** The prefix that the lookup of a path strips: the executable's folder, else its alias. */
  function Stripped(whole: seq<string>, xs: seq<string>, alias: Option<seq<string>>): Option<seq<string>> {
    if xs <= whole then Some(xs) else if alias.Some? && alias.value <= whole then alias else None
  }

  function AliasPath(alias: Option<seq<string>>): string {
    if alias.None? then "" else Rooted(alias.value)
  }

  lemma KeyIs(whole: seq<string>, xs: seq<string>, alias: Option<seq<string>>)
    requires AreNames(whole) && AreNames(xs) && (alias.Some? ==> AreNames(alias.value))
    ensures var fs := Stripped(whole, xs, alias);
            VirtualPath(Rooted(whole), Rooted(xs), AliasPath(alias)) ==
            if fs.None? then Fold(Rooted(whole))
            else "~" + Fold(if fs.value == [] then Rooted(whole) else Join(whole[|fs.value|..]))
  {
    hide Fold, Rooted, FolderPrefix, AreNames;
    FolderPrefixIs(whole, xs);
    if alias.Some? {
      FolderPrefixIs(whole, alias.value);
      assert Rooted(alias.value) != "" by { RootedStarts(alias.value); }
    }
  }

  lemma RootedStarts(ts: seq<string>)
    ensures Rooted(ts) != "" && Rooted(ts)[0] == SLASH && |Rooted(ts)| >= |Join(ts)|
    ensures ts != [] ==> Rooted(ts) == Join(ts)
  {
  }

  /** Where a path resolves under a base: to a part of the base and what it resolves to
      under the root. */
  lemma WholeIs(zs: seq<string>, ts: seq<string>) returns (k: nat)
    ensures k <= |zs| && Resolve(ts, zs) == zs[..k] + Resolve(ts, [])
    ensures zs != [] ==> (k == |zs| <==> Stays(ts, 0))
  {
    assert zs + [] == zs && zs[..|zs|] == zs;
    if Stays(ts, 0) {
      StaysBelow(zs, ts, []);
      k := |zs|;
    } else if zs == [] {
      assert zs[..0] + Resolve(ts, []) == Resolve(ts, zs);
      k := 0;
    } else {
      k := LeavesBelow(zs, ts, []);
    }
  }

  /** Stripping a prefix leaves the path from the directory, or a text of another length. */
  lemma StripAgrees(whole: seq<string>, below: seq<string>, zs: seq<string>, k: nat, fs: seq<string>)
    requires AreNames(whole) && AreNames(zs) && k <= |zs| && whole == zs[..k] + below && fs <= whole
    requires '\\' !in Rooted(below) && '\\' !in Join(below)
    ensures LowerAll(Rooted(below)) == Fold(if fs == [] then Rooted(whole) else Join(whole[|fs|..]))
       <==> whole[|fs|..] == below && (below != [] || fs == [])
  {
    var n, rest := |fs|, whole[|fs|..];
    assert AreNames(zs[..k]) && AreNames(below) by { PartsAreNames(zs, k, below); }
    RootedStarts(below);
    if n < k {
      assert rest == zs[n..k] + below;
      LongerJoin(zs[n..k], below);
      RootedStarts(whole);
      if below == [] { LongEnough(rest); }
    } else if n > k {
      assert below == whole[k..n] + rest;
      LongerJoin(whole[k..n], rest);
    } else {
      assert rest == below;
      FoldIsLower(Rooted(below));
      FoldIsLower(Join(below));
    }
  }

  lemma PartsAreNames(zs: seq<string>, k: nat, below: seq<string>)
    requires AreNames(zs) && k <= |zs| && AreNames(zs[..k] + below)
    ensures AreNames(zs[..k]) && AreNames(below)
  {
    forall i | 0 <= i < |below| ensures below[i] == (zs[..k] + below)[k + i] {}
  }

  lemma LongEnough(ts: seq<string>)
    requires AreNames(ts) && ts != []
    ensures |Join(ts)| > 1
  {
    LastIsNotSlash(ts);
  }

  /** An embedded directory's descriptor and an absolute path through any base find the
      same entry, up to ASCII case, exactly when some prefix is stripped from the absolute
      path and leaves what the path from the directory resolves to, not empty unless that
      prefix is the root. */
  lemma LookupsAgree(xs: seq<string>, alias: Option<seq<string>>, zs: seq<string>, ds: seq<string>, rel: string)
    requires AreNames(xs) && AreNames(zs) && AreNames(ds) && (alias.Some? ==> AreNames(alias.value))
    requires '\\' !in rel && '\\' !in Join(ds)
    ensures var whole, below := Resolve(From(ds, rel), zs), Resolve(From(ds, rel), []);
            var fs := Stripped(whole, xs, alias);
            LowerAll(VirtualJoin("~" + Join(ds), rel))
              == VirtualPath(Norm(Rooted(zs) + Join(ds) + [SLASH] + rel), Rooted(xs), AliasPath(alias))
            <==> fs.Some? && whole[|fs.value|..] == below && (below != [] || fs.value == [])
  {
    hide Tokens, Norm, VirtualJoin, VirtualPath, AreNames, Resolve;
    var ts := From(ds, rel);
    var below, whole := Resolve(ts, []), Resolve(ts, zs);
    JoinIs(ds, rel);
    AbsoluteIs(zs, ds, rel);
    NamesFrom(zs, ds, rel);
    PlainBelow(ds, rel);
    LowerTilde(Rooted(below));
    KeyIs(whole, xs, alias);
    var k := WholeIs(zs, ts);
    var fs := Stripped(whole, xs, alias);
    if fs.Some? {
      StripAgrees(whole, below, zs, k, fs.value);
      TildeApart(LowerAll(Rooted(below)), Fold(if fs.value == [] then Rooted(whole) else Join(whole[|fs.value|..])));
    } else {
      RootedStarts(whole);
      FoldStarts(Rooted(whole));
    }
  }

  lemma TildeApart(a: string, b: string)
    ensures "~" + a == "~" + b <==> a == b
  {
    assert ("~" + a)[1..] == a && ("~" + b)[1..] == b;
  }

  lemma FoldStarts(p: string)
    requires p != "" && p[0] == SLASH
    ensures Fold(p) != "" && Fold(p)[0] == SLASH
  {
  }

  /** The same through the executable's folder and without an alias: exactly when no part of
      the way leads out of the folder and the result lies strictly below it, or that folder
      is the root. */
  lemma JoinAgrees(xs: seq<string>, ds: seq<string>, rel: string)
    requires AreNames(xs) && AreNames(ds) && '\\' !in rel && '\\' !in Join(ds)
    ensures LowerAll(VirtualJoin("~" + Join(ds), rel))
         == VirtualPath(Norm(Rooted(xs) + Join(ds) + [SLASH] + rel), Rooted(xs), "")
       <==> xs == [] || (Stays(From(ds, rel), 0) && Resolve(From(ds, rel), []) != [])
  {
    hide Tokens, Norm, VirtualJoin, VirtualPath, AreNames, Resolve, LowerAll, Stays;
    LookupsAgree(xs, None, xs, ds, rel);
    var below := Resolve(From(ds, rel), []);
    var k := WholeIs(xs, From(ds, rel));
    if xs != [] && k < |xs| && xs <= xs[..k] + below {
      assert |(xs[..k] + below)[|xs|..]| < |below|;
    }
  }

  lemma LowerTilde(s: string)
    ensures LowerAll("~" + s) == "~" + LowerAll(s)
  {
    assert ("~" + s)[1..] == s;
  }

  lemma NamesFrom(xs: seq<string>, ds: seq<string>, rel: string)
    requires AreNames(xs) && AreNames(ds)
    ensures AreNames(Resolve(From(ds, rel), xs)) && AreNames(Resolve(From(ds, rel), []))
  {
    TokensAre(rel);
    ResolveIsNames(From(ds, rel), xs);
    ResolveIsNames(From(ds, rel), []);
  }

  lemma PlainBelow(ds: seq<string>, rel: string)
    requires AreNames(ds) && '\\' !in rel && '\\' !in Join(ds)
    ensures '\\' !in Rooted(Resolve(From(ds, rel), [])) && '\\' !in Join(Resolve(From(ds, rel), []))
  {
    TokensJoin(ds);
    TokensFrom(Join(ds));
    TokensFrom(rel);
    ResolveFrom(From(ds, rel), []);
    NoBackslash(Resolve(From(ds, rel), []));
  }

  /** A final slash in the directory's name makes no difference. */
  lemma TrailingSlash(d: string, rel: string)
    requires d != "" && d[0] == '~'
    ensures VirtualJoin(d + [SLASH], rel) == VirtualJoin(d, rel)
  {
    var t := d[1..];
    assert (d + [SLASH])[1..] == t + [SLASH];
    assert t + [SLASH] + [SLASH] + rel == t + [SLASH] + ([SLASH] + rel);
    TokensSlash(t, [SLASH] + rel);
    TokensSlash(t, rel);
    assert ([SLASH] + rel)[1..] == rel;
  }
}
