/** The subset of Python's `os.path` (POSIX flavour) the pipeline uses to derive
    its artifact paths, and the filesystem as the set of paths that exist. */
module Paths {

  /** The index of the last `/` in `p`, or -1: `p.rfind('/')`. */
  function LastSlash(p: string): (i: int)
    ensures -1 <= i < |p|
    ensures i >= 0 ==> p[i] == '/'
    ensures forall j :: i < j < |p| ==> p[j] != '/'
  {
    if p == [] then -1
    else if p[|p| - 1] == '/' then |p| - 1
    else LastSlash(p[..|p| - 1])
  }

  /** `os.path.basename(p)`: what follows the last `/`. */
  function Basename(p: string): (b: string)
    ensures '/' !in b
    ensures |b| <= |p| && p[|p| - |b|..] == b
  {
    p[LastSlash(p) + 1..]
  }

  predicate AllSlashes(s: string) {
    forall i :: 0 <= i < |s| ==> s[i] == '/'
  }

  function RStripSlashes(s: string): (r: string)
    ensures |r| <= |s| && s[..|r|] == r
    ensures r == [] || r[|r| - 1] != '/'
  {
    if s != [] && s[|s| - 1] == '/' then RStripSlashes(s[..|s| - 1]) else s
  }

  /** A path as `dirname` returns it: empty, the root (all slashes), or without a trailing `/`. */
  predicate IsDirShape(d: string) {
    d == [] || AllSlashes(d) || d[|d| - 1] != '/'
  }

  /** `os.path.dirname(p)`: everything up to the last `/`, with trailing slashes
      removed unless only slashes remain. */
  function Dirname(p: string): (d: string)
    ensures IsDirShape(d)
    ensures |d| <= |p|
  {
    var head := p[..LastSlash(p) + 1];
    if head != [] && !AllSlashes(head) then RStripSlashes(head) else head
  }

  /** `os.path.join(a, b)`. */
  function Join(a: string, b: string): string {
    if b != [] && b[0] == '/' then b
    else if a == [] || a[|a| - 1] == '/' then a + b
    else a + "/" + b
  }

  /** `os.path.abspath(p)` relative to the working directory `cwd`, without the
      normalisation of `.`, `..` and repeated slashes. */
  function Abspath(cwd: string, p: string): string {
    if p != [] && p[0] == '/' then p else Join(cwd, p)
  }

  /** The index of the last `.` in `name`, or -1. */
  function LastDot(name: string): (i: int)
    ensures -1 <= i < |name|
    ensures i >= 0 ==> name[i] == '.'
  {
    if name == [] then -1
    else if name[|name| - 1] == '.' then |name| - 1
    else LastDot(name[..|name| - 1])
  }

  /** `os.path.splitext(name)[0]` for a name without `/`: the name without its
      last extension; leading dots do not start an extension. */
  function Stem(name: string): (s: string)
    ensures |s| <= |name| && name[..|s|] == s
  {
    var d := LastDot(name);
    if d > 0 && exists j :: 0 <= j < d && name[j] != '.' then name[..d] else name
  }

  /** `os.makedirs(p)` creates `p` and every missing ancestor. */
  function Lineage(p: string): (r: set<string>)
    ensures p in r
    decreases |p|
  {
    var d := Dirname(p);
    if d != [] && |d| < |p| then {p} + Lineage(d) else {p}
  }

  /** Joining onto the same directory keeps relative names apart, and makes them longer. */
  lemma JoinInjective(d: string, a: string, b: string)
    requires (a == [] || a[0] != '/') && (b == [] || b[0] != '/')
    ensures Join(d, a) == Join(d, b) ==> a == b
    ensures |Join(d, a)| >= |d| + |a|
  {
    var pre := if d == [] || d[|d| - 1] == '/' then d else d + "/";
    assert Join(d, a) == pre + a && Join(d, b) == pre + b;
    if Join(d, a) == Join(d, b) {
      assert a == (pre + a)[|pre|..];
      assert b == (pre + b)[|pre|..];
    }
  }

  /** `os.makedirs(p)` touches nothing longer than `p`. */
  lemma {:induction false} LineageShort(p: string)
    ensures forall q :: q in Lineage(p) ==> |q| <= |p|
    decreases |p|
  {
    var d := Dirname(p);
    if d != [] && |d| < |p| {
      LineageShort(d);
    }
  }

  lemma {:induction false} LastSlashAfter(x: string, n: string)
    requires '/' !in n
    ensures LastSlash(x + n) == LastSlash(x)
    decreases |n|
  {
    if n != [] {
      var xn := x + n;
      assert xn[..|xn| - 1] == x + n[..|n| - 1];
      LastSlashAfter(x, n[..|n| - 1]);
    } else {
      assert x + n == x;
    }
  }

  /** Joining a directory (as `dirname` produces it) with a plain name, then taking
      the path apart again, gives back the directory and the name. */
  lemma JoinSplit(d: string, n: string)
    requires n != [] && '/' !in n && IsDirShape(d)
    ensures Basename(Join(d, n)) == n
    ensures Dirname(Join(d, n)) == d
  {
    var p := Join(d, n);
    assert n[0] != '/';
    if d == [] {
      assert p == n;
      LastSlashAfter([], n);
      assert n == [] + n;
    } else if d[|d| - 1] == '/' {
      assert p == d + n;
      LastSlashAfter(d, n);
      assert LastSlash(d) == |d| - 1;
      assert p[..|d|] == d;
      assert AllSlashes(d);
    } else {
      assert p == (d + "/") + n;
      LastSlashAfter(d + "/", n);
      assert LastSlash(d + "/") == |d|;
      assert p[..|d| + 1] == d + "/";
      assert !AllSlashes(d + "/") by {
        assert (d + "/")[|d| - 1] != '/';
      }
      assert (d + "/")[..|d|] == d;
      assert RStripSlashes(d + "/") == RStripSlashes(d) == d;
    }
  }

  /** Joining a plain name gives a path in the shape `dirname` returns. */
  lemma JoinPlainShape(d: string, n: string)
    requires n != [] && '/' !in n
    ensures IsDirShape(Join(d, n))
  {
    assert n[0] != '/' && n[|n| - 1] != '/';
    var p := Join(d, n);
    assert p[|p| - 1] == n[|n| - 1];
  }

  /** The stem of a plain name is itself a plain name. */
  lemma StemIsPlain(name: string)
    requires '/' !in name
    ensures '/' !in Stem(name)
  {
  }

  /** The filesystem: the set of paths that exist. Files' contents are not tracked. */
  class FileSystem {
    var paths: set<string>

    constructor (initial: set<string>)
      ensures paths == initial
    {
      paths := initial;
    }

    /** `os.path.exists(p)`. */
    predicate Exists(p: string)
      reads this
    {
      p in paths
    }

    /** `os.makedirs(p)` (creating an existing directory is not an error here). */
    method MakeDirs(p: string)
      modifies this
      ensures paths == old(paths) + Lineage(p)
    {
      paths := paths + Lineage(p);
    }

    /** Writes (or overwrites) the file at `p`. */
    method Write(p: string)
      modifies this
      ensures paths == old(paths) + {p}
    {
      paths := paths + {p};
    }
  }
}
