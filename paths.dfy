/**
 * The string and path helpers of Go's standard library that the restore engine
 * and the permanence check rely on (strings.HasPrefix, strings.HasSuffix,
 * strings.TrimSuffix, path.Join, filepath.Base on a Unix system).
 * Strings are sequences of bytes in Go; here each byte is one char.
 */
module Paths {

  /** strings.HasPrefix */
  predicate HasPrefix(s: string, prefix: string)
    ensures HasPrefix(s, prefix) <==> |prefix| <= |s| && forall i :: 0 <= i < |prefix| ==> s[i] == prefix[i]
  {
    |prefix| <= |s| && s[..|prefix|] == prefix
  }

  /** strings.HasSuffix */
  predicate HasSuffix(s: string, suffix: string)
    ensures HasSuffix(s, suffix) <==>
              |suffix| <= |s| && forall i :: 0 <= i < |suffix| ==> s[|s| - |suffix| + i] == suffix[i]
  {
    |suffix| <= |s| && s[|s| - |suffix|..] == suffix
  }

  /** strings.TrimSuffix: s without a trailing suffix; s itself when it does not end with suffix. */
  function TrimSuffix(s: string, suffix: string): (r: string)
    ensures HasSuffix(s, suffix) ==> r + suffix == s
    ensures !HasSuffix(s, suffix) ==> r == s
    ensures HasPrefix(s, r)
  {
    if HasSuffix(s, suffix) then
      assert s[..|s| - |suffix|] + s[|s| - |suffix|..] == s;
      s[..|s| - |suffix|]
    else
      s
  }

  /**
   * path.Join of a directory and a name: the non-empty elements separated by
   * one slash. The lexical clean-up Join applies afterwards (path.Clean) is not
   * part of this model.
   */
  function Join(dir: string, name: string): (r: string)
    ensures HasPrefix(r, dir) && HasSuffix(r, name)
    ensures dir == "" ==> r == name
    ensures dir != "" && name == "" ==> r == dir
    ensures dir != "" && name != "" ==> |r| == |dir| + 1 + |name| && r[|dir|] == '/'
  {
    if dir == "" then name
    else if name == "" then dir
    else dir + "/" + name
  }

  /** The element of p that starts at index i is "." or "..". */
  predicate DotElementAt(p: string, i: nat)
    requires i < |p|
  {
    p[i] == '.' && (i + 1 == |p| || p[i + 1] == '/' || (p[i + 1] == '.' && (i + 2 == |p| || p[i + 2] == '/')))
  }

  /**
   * p is a path that path.Clean leaves unchanged and that is neither "." nor
   * "/": non-empty, without a trailing or doubled slash, and without "." or
   * ".." elements. For such a directory and such a relative name, path.Join
   * (with its clean-up) gives exactly what Join above gives.
   */
  predicate IsCleanPath(p: string) {
    && p != "" && p[|p| - 1] != '/'
    && (forall i :: 0 <= i < |p| - 1 ==> !(p[i] == '/' && p[i + 1] == '/'))
    && (forall i :: 0 <= i < |p| && (i == 0 || p[i - 1] == '/') ==> !DotElementAt(p, i))
  }

  /** The index of the last slash of p, or -1 when p has none. */
  function LastSlash(p: string): (i: int)
    ensures -1 <= i < |p|
    ensures i >= 0 ==> p[i] == '/'
    ensures forall j :: i < j < |p| ==> p[j] != '/'
  {
    if p == [] then -1
    else if p[|p| - 1] == '/' then |p| - 1
    else LastSlash(p[..|p| - 1])
  }

  /** p without its trailing slashes. */
  function TrimTrailingSlashes(p: string): (r: string)
    ensures HasPrefix(p, r)
    ensures r == [] || r[|r| - 1] != '/'
    ensures forall j :: |r| <= j < |p| ==> p[j] == '/'
  {
    if p != [] && p[|p| - 1] == '/' then TrimTrailingSlashes(p[..|p| - 1]) else p
  }

  /**
   * filepath.Base on Unix: "." for the empty path, "/" for a path made only of
   * slashes, otherwise the last element once trailing slashes are removed.
   */
  function Base(path: string): (r: string)
    ensures r != ""
    ensures path == "" ==> r == "."
    ensures path != "" && (forall j :: 0 <= j < |path| ==> path[j] == '/') ==> r == "/"
    ensures path != "" && path[|path| - 1] != '/' ==>
              && HasSuffix(path, r)
              && (forall j :: 0 <= j < |r| ==> r[j] != '/')
              && (|r| == |path| || path[|path| - |r| - 1] == '/')
  {
    if path == "" then "."
    else
      var p := TrimTrailingSlashes(path);
      if p == "" then "/"
      else
        assert p[..|p|] == p;
        p[LastSlash(p) + 1..]
  }

  /** Trimming the base name of `name` off `prefix + name` leaves `prefix` and the parent part of `name`. */
  lemma TrimBaseOfJoined(prefix: string, name: string)
    requires name != "" && name[|name| - 1] != '/'
    ensures TrimSuffix(prefix + name, Base(name)) == prefix + name[..|name| - |Base(name)|]
  {
    var base := Base(name);
    assert |base| <= |name| && name[|name| - |base|..] == base;
    SplitAtSuffix(prefix, name, |base|);
    assert HasSuffix(prefix + name, base);
  }

  /** Cutting a suffix of at most |b| characters off a + b cuts it off b. */
  lemma SplitAtSuffix(a: string, b: string, n: nat)
    requires n <= |b|
    ensures (a + b)[|a + b| - n..] == b[|b| - n..]
    ensures (a + b)[..|a + b| - n] == a + b[..|b| - n]
  {
  }
}
