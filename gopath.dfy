/** Go's `path.Base` and `path.Dir` on slash-separated paths, which the hub
    uses to derive the new cluster's directory names. */
module GoPath {

  /** Index of the last '/' in `s`, or -1 (Go's `strings.LastIndex(s, "/")`). */
  function LastSlash(s: string): (i: int)
    ensures -1 <= i < |s|
    ensures i >= 0 ==> s[i] == '/'
    ensures forall k | i < k < |s| :: s[k] != '/'
  {
    if s == [] then -1
    else if s[|s| - 1] == '/' then |s| - 1
    else LastSlash(s[..|s| - 1])
  }

  /** `s` without its trailing slashes. */
  function StripTrailingSlashes(s: string): (r: string)
    ensures |r| <= |s| && r == s[..|r|]
    ensures forall k | |r| <= k < |s| :: s[k] == '/'
    ensures r == [] || r[|r| - 1] != '/'
  {
    if s != [] && s[|s| - 1] == '/' then StripTrailingSlashes(s[..|s| - 1]) else s
  }

  /** Go's `path.Base`: the last element of the path once trailing slashes
      are removed; "." for the empty path and "/" for a path of slashes. */
  function Base(p: string): (r: string)
    ensures r != []
    ensures '/' in r ==> r == "/"
    ensures p == [] ==> r == "."
  {
    if p == [] then "."
    else
      var trimmed := StripTrailingSlashes(p);
      var last := trimmed[LastSlash(trimmed) + 1..];
      if last == [] then "/" else last
  }

  /** Go's `path.Dir`: everything before the last element, with the
      separating slashes removed; "/" when only the root is left and "." when
      the path has no slash. */
  function Dir(p: string): (r: string)
    ensures r != []
    ensures r == "." || r == "/" || (|r| <= |p| && r == p[..|r|] && r[|r| - 1] != '/')
  {
    var split := p[..LastSlash(p) + 1];
    var d := StripTrailingSlashes(split);
    assert d == p[..|d|] by {
      assert d == split[..|d|];
    }
    if d != [] then d else if split != [] then "/" else "."
  }

  lemma {:induction false} LastSlashOfJoin(d: string, b: string)
    requires '/' !in b
    ensures LastSlash(d + "/" + b) == |d|
    decreases |b|
  {
    var p := d + "/" + b;
    if b != [] {
      assert b[|b| - 1] in b;
      assert p[..|p| - 1] == d + "/" + b[..|b| - 1];
      LastSlashOfJoin(d, b[..|b| - 1]);
    }
  }

  /** Dir and Base split a path "d/b" back into `d` and `b` whenever `b` is
      a plain element and `d` a non-empty directory without a trailing
      slash: the two functions are inverse to joining with a slash. */
  lemma DirBaseOfJoin(d: string, b: string)
    requires b != [] && '/' !in b
    requires d != [] && d[|d| - 1] != '/'
    ensures Dir(d + "/" + b) == d
    ensures Base(d + "/" + b) == b
  {
    var p := d + "/" + b;
    LastSlashOfJoin(d, b);
    assert p[..|d| + 1] == d + "/";
    assert (d + "/")[..|d|] == d;
    assert StripTrailingSlashes(d + "/") == d;
    assert b[|b| - 1] in b;
    assert p[|p| - 1] == b[|b| - 1];
    assert StripTrailingSlashes(p) == p;
    assert p[|d| + 1..] == b;
  }

  /** Go's `filepath.Join(dir, name)` for a plain file name: the two joined
      by one slash, an empty directory contributing nothing. Of the cleaning
      `filepath.Join` does, only the collapsing of the directory's trailing
      slashes is modelled. */
  function JoinPath(dir: string, name: string): (p: string)
    ensures dir == [] ==> p == name
    ensures dir != [] && dir[|dir| - 1] != '/' ==> p == dir + "/" + name
  {
    if dir == [] then name else StripTrailingSlashes(dir) + "/" + name
  }

  /** A plain file name joined to a directory is what Base gives back, and
      Dir gives back the directory. */
  lemma BaseOfJoinPath(dir: string, name: string)
    requires dir != [] && dir[|dir| - 1] != '/'
    requires name != [] && '/' !in name
    ensures Base(JoinPath(dir, name)) == name
    ensures Dir(JoinPath(dir, name)) == dir
  {
    DirBaseOfJoin(dir, name);
  }
}
