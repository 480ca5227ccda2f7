/**
 * File-system paths as sequences of segments.  `Combine` appends a relative
 * path, `DirectoryName` drops the last segment and `FullPath` resolves "."
 * and ".." segments the way a full-path normalisation does.
 */
module Paths {

  type Segment = string
  type Path = seq<Segment>

  /** A segment that names a directory or file, rather than ".", ".." or an empty one. */
  predicate IsPlain(s: Segment) {
    s != "" && s != "." && s != ".."
  }

  /** A path with nothing left for `FullPath` to resolve. */
  predicate IsNormal(p: Path) {
    forall i :: 0 <= i < |p| ==> IsPlain(p[i])
  }

  function Combine(p: Path, relative: seq<Segment>): Path {
    p + relative
  }

  function DirectoryName(p: Path): Path
    requires p != []
  {
    p[..|p| - 1]
  }

  /** One segment of full-path resolution applied to an already resolved prefix. */
  function Resolve(resolved: Path, s: Segment): Path {
    if s == ".." then (if resolved == [] then [] else resolved[..|resolved| - 1])
    else if s == "" || s == "." then resolved
    else resolved + [s]
  }

  /** The normalised form of `p`, resolving its segments from left to right. */
  function FullPath(p: Path): (r: Path)
    ensures IsNormal(r)
    ensures |r| <= |p|
    decreases |p|
  {
    if p == [] then [] else Resolve(FullPath(p[..|p| - 1]), p[|p| - 1])
  }

  /** The textual form of a path, segments joined by the Windows separator. */
  function Render(p: Path): string
    decreases |p|
  {
    if p == [] then ""
    else if |p| == 1 then p[0]
    else Render(p[..|p| - 1]) + "\\" + p[|p| - 1]
  }

  lemma {:induction false} FullPathOfNormal(p: Path)
    requires IsNormal(p)
    ensures FullPath(p) == p
    decreases |p|
  {
    if p != [] {
      var init := p[..|p| - 1];
      FullPathOfNormal(init);
      assert init + [p[|p| - 1]] == p;
    }
  }

  /** Going up twice from any path gives the grandparent of its normalised form, or the empty path above it. */
  lemma UpTwice(p: Path)
    ensures var n := FullPath(p);
            FullPath(Combine(p, ["..", ".."])) == if |n| >= 2 then n[..|n| - 2] else []
  {
    var once := p + [".."];
    var twice := Combine(p, ["..", ".."]);
    assert twice[..|twice| - 1] == once;
    assert once[..|once| - 1] == p;
    assert FullPath(once) == Resolve(FullPath(p), "..");
    assert FullPath(twice) == Resolve(FullPath(once), "..");
  }

  /** Going up twice from a normal path of two or more segments drops its last two segments. */
  lemma GrandparentOfNormal(p: Path)
    requires IsNormal(p) && |p| >= 2
    ensures FullPath(Combine(p, ["..", ".."])) == p[..|p| - 2]
  {
    UpTwice(p);
    FullPathOfNormal(p);
  }

  /** Appending plain segments to a path appends them to its normalised form. */
  lemma {:induction false} FullPathAppendNormal(p: Path, q: seq<Segment>)
    requires IsNormal(q)
    ensures FullPath(p + q) == FullPath(p) + q
    decreases |q|
  {
    if q == [] {
      assert p + q == p;
    } else {
      var init := q[..|q| - 1];
      FullPathAppendNormal(p, init);
      assert (p + q)[..|p + q| - 1] == p + init;
      var last := q[|q| - 1];
      assert IsPlain(last);
      assert FullPath(p + q) == Resolve(FullPath(p + init), last);
      assert init + [last] == q;
      assert FullPath(p) + init + [last] == FullPath(p) + q;
    }
  }
}
