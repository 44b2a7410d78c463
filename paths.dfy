/** path.Base and path.Dir from Go's "path" package, as daemon.go and
    systemv.go use them on slash-separated paths. */
module Paths {

  /** Index of the last '/' in `s`, or -1. */
  function LastSlash(s: string): (r: int)
    ensures -1 <= r < |s|
    ensures r >= 0 ==> s[r] == '/'
    ensures forall j :: r < j < |s| ==> s[j] != '/'
  {
    if s == [] then -1
    else if s[|s| - 1] == '/' then |s| - 1
    else LastSlash(s[..|s| - 1])
  }

  /** `s` without its trailing slashes. */
  function TrimTrailingSlashes(s: string): (r: string)
    ensures |r| <= |s| && r == s[..|r|]
    ensures forall j :: |r| <= j < |s| ==> s[j] == '/'
    ensures r == [] || r[|r| - 1] != '/'
  {
    if s != [] && s[|s| - 1] == '/' then TrimTrailingSlashes(s[..|s| - 1]) else s
  }

  /** path.Base: the last element of the path. */
  function Base(p: string): (r: string)
    ensures r != ""
  {
    if p == "" then "."
    else
      var q := TrimTrailingSlashes(p);
      var b := q[LastSlash(q) + 1..];
      if b == "" then "/" else b
  }

  /** path.Dir: everything before the last element, with the trailing
      slashes removed ("/" for an element at the root, "." when there is no
      slash). The lexical clean-up of "." and ".." elements and of repeated
      slashes inside the result is not modelled. */
  function Dir(p: string): (r: string)
    ensures r != ""
  {
    var i := LastSlash(p);
    if i < 0 then "."
    else
      var d := TrimTrailingSlashes(p[..i + 1]);
      if d == "" then "/" else d
  }

  /** A clean absolute path to a file: starts at the root, has a last
      element, and no two slashes in a row. */
  predicate IsCleanAbs(p: string)
  {
    |p| > 1 && p[0] == '/' && p[|p| - 1] != '/'
    && forall i :: 0 <= i < |p| - 1 ==> !(p[i] == '/' && p[i + 1] == '/')
  }

  /** Joining the directory and the base of a clean absolute path gives the
      path back, and the base holds no slash. */
  lemma DirBaseJoin(p: string)
    requires IsCleanAbs(p)
    ensures '/' !in Base(p)
    ensures (if Dir(p) == "/" then "/" else Dir(p) + "/") + Base(p) == p
  {
    var i := LastSlash(p);
    assert TrimTrailingSlashes(p) == p;
    assert 0 <= i < |p| - 1;
    var d := p[..i + 1];
    if i == 0 {
      assert TrimTrailingSlashes(d) == TrimTrailingSlashes([]);
    } else {
      assert d[..i] == p[..i];
      assert TrimTrailingSlashes(d) == TrimTrailingSlashes(p[..i]);
      assert p[..i][i - 1] != '/';
    }
  }
}
