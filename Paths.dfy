/**
 * The string and path operations the shim generator's driver relies on:
 * `String.replace(char, char)` for turning the target package into a
 * directory, and the parts of `java.io.File` it uses on `/`-separated paths
 * (`getParent` and the `(parent, child)` constructors).
 */
module Paths {

  datatype Option<T> = None | Some(value: T)

  /** `s.replace(from, to)`: every occurrence of `from` becomes `to`, every other character stays. */
  function Replace(s: string, from: char, to: char): (r: string)
    ensures |r| == |s|
    ensures forall i :: 0 <= i < |s| ==> r[i] == (if s[i] == from then to else s[i])
  {
    if s == [] then []
    else [if s[0] == from then to else s[0]] + Replace(s[1..], from, to)
  }

  /** The package as a relative directory: `a.b.c` is stored under `a/b/c`. */
  function PackageDir(pkg: string): (r: string)
    ensures |r| == |pkg|
    ensures '.' !in r
    ensures forall i :: 0 <= i < |pkg| && pkg[i] == '.' ==> r[i] == '/'
    ensures forall i :: 0 <= i < |pkg| && pkg[i] != '.' ==> r[i] == pkg[i]
  {
    Replace(pkg, '.', '/')
  }

  /** A package name has no `/` of its own, so its directory determines it: turning each `/` back gives the package. */
  lemma PackageDirRoundTrip(pkg: string)
    requires '/' !in pkg
    ensures Replace(PackageDir(pkg), '/', '.') == pkg
  {
  }

  /** `p.lastIndexOf('/')`: the position of the last separator, -1 when there is none. */
  function LastSeparator(p: string): (k: int)
    ensures -1 <= k < |p|
    ensures k >= 0 ==> p[k] == '/'
    ensures forall j :: k < j < |p| ==> p[j] != '/'
  {
    if p == [] then -1
    else if p[|p| - 1] == '/' then |p| - 1
    else LastSeparator(p[..|p| - 1])
  }

  /** `getName()`: what follows the last separator. */
  function FileName(p: string): (r: string)
    ensures '/' !in r
    ensures |r| <= |p| && r == p[|p| - |r|..]
    ensures |r| < |p| ==> p[|p| - |r| - 1] == '/'
  {
    p[LastSeparator(p) + 1..]
  }

  /**
   * `getParent()` on a Unix path: what precedes the last separator, `/` when
   * that separator is the leading one, and null (`None`) when the path has no
   * separator or is the root itself.
   */
  function Parent(p: string): (r: Option<string>)
    ensures r.None? <==> '/' !in p || p == "/"
    ensures r.Some? ==> 0 < |r.value| < |p|
    ensures r.Some? && r.value != "/" ==> p == r.value + "/" + FileName(p)
    ensures r == Some("/") ==> p[0] == '/' && '/' !in p[2..]
  {
    var k := LastSeparator(p);
    if k < 0 then None
    else if k == 0 then (if |p| > 1 then Some("/") else None)
    else Some(p[..k])
  }

  /** `UnixFileSystem.resolve(parent, child)`: append `child` below `parent`. */
  function Resolve(parent: string, child: string): string
  {
    if child == "" then parent
    else if child[0] == '/' then (if parent == "/" then child else parent + child)
    else if parent == "/" then parent + child
    else parent + "/" + child
  }

  /**
   * `new File(parent, child)`: a null parent leaves `child` as it is, an
   * empty parent stands for the root directory.
   */
  function Child(parent: Option<string>, child: string): string
  {
    match parent
    case None => child
    case Some(d) => if d == "" then Resolve("/", child) else Resolve(d, child)
  }

  /** A file name that `Child` appends after a separator rather than as an absolute path. */
  predicate Relative(c: string)
  {
    c != "" && c[0] != '/'
  }

  /** A path as `java.io.File` keeps it: no doubled separator, no trailing one (except the root). */
  predicate Normal(p: string)
  {
    && (forall i :: 0 <= i < |p| - 1 ==> p[i] == '/' ==> p[i + 1] != '/')
    && (|p| > 1 ==> p[|p| - 1] != '/')
  }

  /** Two files put under the same parent are the same file only when their names are the same. */
  lemma ChildInjective(parent: Option<string>, a: string, b: string)
    requires Relative(a) && Relative(b)
    requires Child(parent, a) == Child(parent, b)
    ensures a == b
  {
    var prefix := match parent
      case None => ""
      case Some(d) => if d == "" || d == "/" then "/" else d + "/";
    assert Child(parent, a) == prefix + a && Child(parent, b) == prefix + b;
    assert a == (prefix + a)[|prefix|..] && b == (prefix + b)[|prefix|..];
  }

  /** When `x` ends in a separator and `c` holds none, the last separator of `x + c` is the one ending `x`. */
  lemma LastSeparatorBeforeName(x: string, c: string)
    requires x != "" && x[|x| - 1] == '/' && '/' !in c
    ensures LastSeparator(x + c) == |x| - 1
  {
    var p := x + c;
    var k := LastSeparator(p);
    assert p[|x| - 1] == '/';
    assert forall j :: |x| <= j < |p| ==> p[j] == c[j - |x|];
  }

  /**
   * A file named `c` placed in the parent directory of `p` is a sibling of `p`:
   * it has the same parent, and its own name is `c`.
   */
  lemma SiblingOf(p: string, c: string)
    requires c != "" && '/' !in c
    ensures Parent(Child(Parent(p), c)) == Parent(p)
    ensures FileName(Child(Parent(p), c)) == c
  {
    match Parent(p)
    case None =>
      assert Child(Parent(p), c) == c;
    case Some(d) =>
      var x := if d == "/" then "/" else d + "/";
      assert c[0] != '/' by { assert c[0] in c; }
      assert Child(Parent(p), c) == x + c;
      LastSeparatorBeforeName(x, c);
      assert (x + c)[..|x| - 1] == (if d == "/" then "" else d);
      assert (x + c)[|x|..] == c;
  }

  /**
   * A normal path is the file named `FileName(p)` in `Parent(p)`: the two
   * pieces `getParent` and `getName` give put it together again.
   */
  lemma ParentNameRoundTrip(p: string)
    requires Normal(p) && p != "/"
    ensures Child(Parent(p), FileName(p)) == p
  {
    var k := LastSeparator(p);
    if k == 0 {
      assert |p| > 1 && p[1] != '/';
      assert FileName(p) == p[1..];
      assert p == "/" + p[1..];
    } else if k > 0 {
      assert p[k - 1] != '/';
      assert k < |p| - 1;
      var d := p[..k];
      assert |d| == k && d[k - 1] == p[k - 1];
      assert p == d + "/" + p[k + 1..];
    }
  }
}
