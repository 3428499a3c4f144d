/** Relative paths as `pathlib` sees them: a sequence of components, so
    `stubs/six/six.pyi` is `["stubs", "six", "six.pyi"]` and `.` is `[]`.
    Every path the drivers handle is relative to the repository root. */
module Paths {
  import opened Strings

  type Path = seq<string>

  /** `a in p.parents`: `a` is a strict prefix of `p`. */
  predicate IsProperAncestor(a: Path, p: Path) {
    |a| < |p| && p[..|a|] == a
  }

  /** `a == p or a in p.parents`. */
  predicate IsSelfOrAncestor(a: Path, p: Path) {
    a == p || IsProperAncestor(a, p)
  }

  /** `p.name`: the last component. */
  function Name(p: Path): string {
    if |p| == 0 then "" else p[|p| - 1]
  }

  /** `s.rfind(c)`: the index of the last `c`, or -1. */
  function RFind(s: string, c: char): (i: int)
    ensures -1 <= i < |s|
    ensures i >= 0 ==> s[i] == c
    ensures forall j :: i < j < |s| ==> s[j] != c
    decreases |s|
  {
    if |s| == 0 then -1
    else if s[|s| - 1] == c then |s| - 1
    else RFind(s[..|s| - 1], c)
  }

  /** `PurePath(name).suffix`: from the last dot on, unless that dot is the
      first or the last character of the name. */
  function Suffix(name: string): string {
    var i := RFind(name, '.');
    if 0 < i < |name| - 1 then name[i..] else ""
  }

  /** `PurePath(name).stem`: the name without its suffix. */
  function Stem(name: string): string {
    var i := RFind(name, '.');
    if 0 < i < |name| - 1 then name[..i] else name
  }

  /** The stem and the suffix split the name. */
  lemma StemAndSuffix(name: string)
    ensures Stem(name) + Suffix(name) == name
  {
    var i := RFind(name, '.');
    if 0 < i < |name| - 1 {
      assert name[..i] + name[i..] == name;
    }
  }

  /** A name has the suffix `.pyi` exactly when it ends in `.pyi` and has at
      least one character before the dot: `.pyi` alone has no suffix. */
  lemma PyiSuffix(name: string)
    ensures Suffix(name) == ".pyi" <==> |name| >= 5 && EndsWith(name, ".pyi")
  {
    var i := RFind(name, '.');
    if |name| >= 5 && EndsWith(name, ".pyi") {
      var k := |name| - 4;
      assert name[k] == '.';
      assert forall j :: k < j < |name| ==> name[j] != '.' by {
        assert name[k..] == ".pyi";
        forall j | k < j < |name| ensures name[j] != '.' {
          assert name[j] == ".pyi"[j - k];
        }
      }
      assert i >= k;
      assert i <= k;
      assert i == k;
    }
    if Suffix(name) == ".pyi" {
      assert 0 < i < |name| - 1 && name[i..] == ".pyi";
    }
  }

  /** `fnmatch(name, "*.pyi")`, as `Path.rglob` applies it: the name ends in
      `.pyi` (pathlib's `*` also matches a leading dot). */
  predicate MatchesPyiGlob(name: string) {
    EndsWith(name, ".pyi")
  }

  /** `str(p)` for a relative path. */
  function PathString(p: Path): string {
    if |p| == 0 then "." else Join(p, '/')
  }
}
