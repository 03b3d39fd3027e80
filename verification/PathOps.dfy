/** The loops of path resolution: cutting a path at its slashes, putting it together
    again, and writing the lookup key. */
module PathOps {
  import opened Options
  import opened Paths

  const PATH_MAX := 4096

  /** strtok_r(): the next segment from `pos` on, and where it ends. */
  method NextToken(path: string, pos: nat) returns (token: Option<string>, next: nat)
    requires pos <= |path|
    ensures pos <= next <= |path|
    ensures token.None? ==> Tokens(path[pos..]) == []
    ensures token.Some? ==> pos < next && Tokens(path[pos..]) == [token.value] + Tokens(path[next..])
  {
    var i := pos;
    while i < |path| && path[i] == SLASH
      invariant pos <= i <= |path|
      invariant Tokens(path[i..]) == Tokens(path[pos..])
    {
      assert path[i..][1..] == path[i + 1..];
      i := i + 1;
    }
    if i == |path| { return None, i; }
    var j := i;
    while j < |path| && path[j] != SLASH
      invariant i <= j <= |path|
      invariant forall k :: i <= k < j ==> path[k] != SLASH
    {
      j := j + 1;
    }
    SegmentAt(path, i, j);
    return Some(path[i..j]), j;
  }

  lemma SegmentAt(path: string, i: nat, j: nat)
    requires i < j <= |path| && (j < |path| ==> path[j] == SLASH) && forall k :: i <= k < j ==> path[k] != SLASH
    ensures Tokens(path[i..]) == [path[i..j]] + Tokens(path[j..])
  {
    SegLenIs(path[i..], j - i);
    assert path[i..][..j - i] == path[i..j] && path[i..][j - i..] == path[j..];
  }

  /** mp_normalize_path(): a stack of segments, joined again at the end. */
  method NormalizePath(path: string) returns (resolved: string)
    requires |path| < PATH_MAX
    ensures resolved == Norm(path)
  {
    var tokens := new string[PATH_MAX](i => "");
    var depth := 0;
    assert path[0..] == path;
    var token, pos := NextToken(path, 0);
    while token.Some?
      invariant pos <= |path| && depth <= pos && (token.Some? ==> depth < pos)
      invariant token.None? ==> tokens[..depth] == Resolve(Tokens(path), [])
      invariant token.Some? ==>
                  Resolve([token.value] + Tokens(path[pos..]), tokens[..depth]) == Resolve(Tokens(path), [])
      decreases |path| - pos + (if token.Some? then 1 else 0)
    {
      ghost var t, rest := token.value, Tokens(path[pos..]);
      assert ([t] + rest)[0] == t && ([t] + rest)[1..] == rest;
      if token.value == ".." {
        if depth > 0 {
          assert tokens[..depth][..depth - 1] == tokens[..depth - 1];
          depth := depth - 1;
        }
      } else if token.value != "." {
        tokens[depth] := token.value;
        assert tokens[..depth + 1] == tokens[..depth] + [t];
        depth := depth + 1;
      }
      assert Resolve(rest, tokens[..depth]) == Resolve(Tokens(path), []);
      token, pos := NextToken(path, pos);
    }
    resolved := Concatenate(tokens, depth);
    if depth == 0 { resolved := [SLASH]; }
  }

  method Concatenate(tokens: array<string>, depth: nat) returns (text: string)
    requires depth <= tokens.Length
    ensures text == Join(tokens[..depth])
  {
    text := "";
    var i := 0;
    while i < depth
      invariant 0 <= i <= depth
      invariant text == Join(tokens[..i])
    {
      assert tokens[..i + 1] == tokens[..i] + [tokens[i]];
      JoinAppend(tokens[..i], [tokens[i]]);
      assert Join([tokens[i]]) == [SLASH] + tokens[i] + Join([]);
      text := text + [SLASH] + tokens[i];
      i := i + 1;
    }
  }

  /** The joined path as it is written to the buffer, before it is normalised. */
  function JoinText(dir: string, rel: string): string {
    (if dir != "" && dir[0] == '~' then dir[1..] else dir) + [SLASH] + rel
  }

  /** mp_virtual_join(): snprintf() cuts the joined path where the buffer ends. */
  method JoinVirtual(dir: string, rel: string) returns (out: string)
    ensures var text := Cut(JoinText(dir, rel), 4094);
            out == if dir != "" && dir[0] == '~' then "~" + Norm(text) else Norm(text)
    ensures |JoinText(dir, rel)| <= 4094 ==> out == VirtualJoin(dir, rel)
  {
    var relativeRoot := dir != "" && dir[0] == '~';
    var text := (if relativeRoot then dir[1..] else dir) + [SLASH] + rel;
    if |text| > PATH_MAX - 2 { text := text[..PATH_MAX - 2]; }
    out := NormalizePath(text);
    if relativeRoot { out := "~" + out; }
  }

  /** get_virtual_path(): the key is cut off where the buffer ends. */
  method GetVirtualPath(path: string, folder: string, alias: string) returns (key: string)
    ensures key == Cut(VirtualPath(path, folder, alias), 4095)
  {
    var prefix := FolderPrefix(path, folder);
    if prefix.None? && alias != "" { prefix := FolderPrefix(path, alias); }
    if prefix.Some? {
      key := WriteFolded("~", path, prefix.value);
    } else {
      assert path[0..] == path && "" + Fold(path) == Fold(path);
      key := WriteFolded("", path, 0);
    }
  }

  /** Appends the path from `from` on, as far as there is room. */
  method WriteFolded(start: string, path: string, from: nat) returns (key: string)
    requires from <= |path| && |start| <= 1
    ensures key == Cut(start + Fold(path[from..]), PATH_MAX - 1)
  {
    hide Fold, Lower;
    key := start;
    var i := from;
    while i < |path| && |key| < PATH_MAX - 1
      invariant i <= |path| && |key| <= PATH_MAX - 1
      invariant key + Fold(path[i..]) == start + Fold(path[from..])
    {
      FoldStep(key, path, i);
      key := key + [if path[i] == '\\' then SLASH else Lower(path[i])];
      i := i + 1;
    }
    if i == |path| { FoldEnd(path); }
    CutIs(key, Fold(path[i..]));
  }

  lemma CutIs(key: string, rest: string)
    ensures (key + rest)[..|key|] == key && (rest == "" ==> key + rest == key)
  {
  }

  lemma FoldEnd(path: string)
    ensures Fold(path[|path|..]) == ""
  {
  }

  lemma FoldStep(key: string, path: string, i: nat)
    requires i < |path|
    ensures key + [if path[i] == '\\' then SLASH else Lower(path[i])] + Fold(path[i + 1..]) == key + Fold(path[i..])
  {
    assert path[i..][1..] == path[i + 1..];
  }

  function Cut(s: string, n: nat): string {
    if |s| <= n then s else s[..n]
  }

  /** Both ways to look up a path from an open embedded directory, through its descriptor
      and as an absolute path through any base. Nothing is cut while the absolute path, as
      it is given, has at most 4094 characters; then what the two calls answer
      agrees, up to ASCII case, exactly under the condition of LookupsAgree. */
  method BothLookups(xs: seq<string>, alias: Option<seq<string>>, zs: seq<string>, ds: seq<string>, rel: string)
    returns (joined: string, key: string)
    requires AreNames(xs) && AreNames(zs) && AreNames(ds) && (alias.Some? ==> AreNames(alias.value))
    requires '\\' !in rel && '\\' !in Join(ds)
    requires |Rooted(zs) + Join(ds) + [SLASH] + rel| <= 4094
    ensures joined == VirtualJoin("~" + Join(ds), rel)
    ensures key == VirtualPath(Norm(Rooted(zs) + Join(ds) + [SLASH] + rel), Rooted(xs), AliasPath(alias))
    ensures var whole, below := Resolve(From(ds, rel), zs), Resolve(From(ds, rel), []);
            var fs := Stripped(whole, xs, alias);
            LowerAll(joined) == key <==>
              fs.Some? && whole[|fs.value|..] == below && (below != [] || fs.value == [])
  {
    hide Resolve, Stripped, AreNames, LowerAll, Fold;
    LookupsAgree(xs, alias, zs, ds, rel);
    var path := Rooted(zs) + Join(ds) + [SLASH] + rel;
    assert path[0] == SLASH by { RootedStarts(zs); }
    NormFits(path);
    assert JoinText("~" + Join(ds), rel) == Join(ds) + [SLASH] + rel;
    hide Norm, VirtualJoin, Rooted, Join;
    joined := JoinVirtual("~" + Join(ds), rel);
    var absolute := NormalizePath(path);
    KeyFits(absolute, Rooted(xs), AliasPath(alias));
    key := GetVirtualPath(absolute, Rooted(xs), AliasPath(alias));
  }

  /** The key is at most one character longer than the path. */
  lemma KeyFits(path: string, folder: string, alias: string)
    ensures |VirtualPath(path, folder, alias)| <= |path| + 1
  {
  }

  /** The key is lowered in place before the lookup. */
  method LowerInPlace(a: array<char>)
    modifies a
    ensures a[..] == LowerAll(old(a[..]))
  {
    ghost var s := a[..];
    var i := 0;
    while i < a.Length
      invariant 0 <= i <= a.Length && a[i..] == s[i..]
      invariant a[..i] + LowerAll(s[i..]) == LowerAll(s)
    {
      assert s[i..][0] == s[i] && s[i..][1..] == s[i + 1..];
      assert a[..i] + ([Lower(s[i])] + LowerAll(s[i + 1..])) == (a[..i] + [Lower(s[i])]) + LowerAll(s[i + 1..]);
      ghost var before := a[..i];
      a[i] := Lower(a[i]);
      assert a[..i + 1] == before + [Lower(s[i])];
      i := i + 1;
    }
    assert a[..i] == a[..] && LowerAll(s[i..]) == "";
  }
}
