/** The path and name operations `getCurrentFunc` applies to what the runtime reports:
    `filepath.Base` and `filepath.Ext` with '/' as separator, and `strings.TrimLeft(_, ".")`. */
module Filepath {
  import opened Strings

  /** `p` without its trailing separators. */
  function TrimTrailingSlashes(p: string): (q: string)
    ensures |q| <= |p| && q == p[..|q|]
    ensures q == [] || q[|q| - 1] != '/'
    ensures forall i :: |q| <= i < |p| ==> p[i] == '/'
  {
    if p != [] && p[|p| - 1] == '/' then TrimTrailingSlashes(p[..|p| - 1]) else p
  }

  /** The text after the last separator of `p`. */
  function LastElement(p: string): (e: string)
    ensures '/' !in e
  {
    var e := SplitLastRun(p, c => c != '/').1;
    assert forall i :: 0 <= i < |e| ==> e[i] != '/';
    e
  }

  /** `filepath.Base`: the last element of `p` once trailing separators are removed; "." for
      the empty path and "/" for a path made only of separators. */
  function Base(p: string): (b: string)
    ensures b != []
    ensures '/' in b ==> b == "/"
  {
    if p == [] then "."
    else
      var q := TrimTrailingSlashes(p);
      if q == [] then "/" else LastElement(q)
  }

  /** The last element of a path made of a directory and a name is that name. */
  lemma BaseOfJoin(dir: string, name: string)
    requires name != [] && '/' !in name
    ensures Base(dir + "/" + name) == name
  {
    var p := dir + "/" + name;
    assert p[|p| - 1] == name[|name| - 1];
    assert TrimTrailingSlashes(p) == p;
    assert forall i :: 0 <= i < |name| ==> name[i] != '/';
    SplitLastRunOf(dir + "/", name, c => c != '/');
  }

  /** A name without separators is its own base. */
  lemma BaseOfName(name: string)
    requires name != [] && '/' !in name
    ensures Base(name) == name
  {
    assert TrimTrailingSlashes(name) == name;
    assert forall i :: 0 <= i < |name| ==> name[i] != '/';
    SplitLastRunOf([], name, c => c != '/');
    assert [] + name == name;
  }

  /** `filepath.Ext`: the suffix of the last element that starts at its last '.', or "" when
      the last element has no '.'. */
  function Ext(p: string): (e: string)
    ensures e == [] || (e[0] == '.' && '.' !in e[1..] && '/' !in e)
    ensures |e| <= |p| && e == p[|p| - |e|..]
  {
    var (a, b) := SplitLastRun(p, c => c != '/' && c != '.');
    assert forall i :: 0 <= i < |b| ==> b[i] != '/' && b[i] != '.';
    if a != [] && a[|a| - 1] == '.' then
      assert p[|p| - |b| - 1..] == "." + b;
      "." + b
    else []
  }

  /** The extension of `stem.ext` is `.ext` when `ext` holds neither '.' nor '/'. */
  lemma ExtOf(stem: string, ext: string)
    requires '.' !in ext && '/' !in ext
    ensures Ext(stem + "." + ext) == "." + ext
  {
    assert forall i :: 0 <= i < |ext| ==> ext[i] != '/' && ext[i] != '.';
    SplitLastRunOf(stem + ".", ext, c => c != '/' && c != '.');
  }

  /** A path whose last element has no '.' has no extension: `dir` is empty or ends with the
      separator, and `name` holds neither '.' nor '/'. */
  lemma ExtOfPlain(dir: string, name: string)
    requires dir == [] || dir[|dir| - 1] == '/'
    requires '.' !in name && '/' !in name
    ensures Ext(dir + name) == []
  {
    assert forall i :: 0 <= i < |name| ==> name[i] != '/' && name[i] != '.';
    SplitLastRunOf(dir, name, c => c != '/' && c != '.');
  }

  /** `strings.TrimLeft(s, ".")`: `s` without its leading dots. */
  function TrimLeftDots(s: string): (r: string)
    ensures r == [] || r[0] != '.'
    ensures |r| <= |s| && r == s[|s| - |r|..]
    ensures forall i :: 0 <= i < |s| - |r| ==> s[i] == '.'
  {
    if s != [] && s[0] == '.' then TrimLeftDots(s[1..]) else s
  }

  /** The function name `getCurrentFunc` prints: the extension of the runtime's qualified
      name without its dot. */
  function ShortFuncName(qualified: string): (r: string)
    ensures '.' !in r && '/' !in r
    ensures Ext(qualified) != [] ==> r == Ext(qualified)[1..]
    ensures Ext(qualified) == [] ==> r == []
  {
    var e := Ext(qualified);
    assert e != [] ==> (e[1..] == [] || e[1..][0] != '.') && TrimLeftDots(e[1..]) == e[1..];
    TrimLeftDots(e)
  }

  /** The short name of `pkg.name` is `name`; a package path with dots ("github.com/x") and a
      receiver ("(*T)") before the last dot are dropped with the rest. */
  lemma ShortFuncNameOf(pkg: string, name: string)
    requires '.' !in name && '/' !in name
    ensures ShortFuncName(pkg + "." + name) == name
  {
    ExtOf(pkg, name);
    assert ("." + name)[1..] == name;
  }
}
