/** Which paths a run tests: the `match` predicate over the `filter` and
    `--exclude` paths, `add_files`, and the "equal to or a parent of some
    filter path" test that picks the passes and the distributions. */
module Selection {
  import opened Strings
  import opened Orders
  import opened Paths
  import opened Versions

  /** `TestConfig`: the settings of one run for one version and platform. */
  datatype TestConfig = TestConfig(
    verbose: nat,
    filter: seq<Path>,
    exclude: seq<Path>,
    version: VersionTuple,
    platform: string)

  /** `DIRECTORIES_TO_TEST`. */
  const DirectoriesToTest: seq<Path> := [["stdlib"], ["stubs"]]

  /** Some path of `roots` is `p` itself or one of its parents. */
  predicate UnderSome(p: Path, roots: seq<Path>) {
    exists i :: 0 <= i < |roots| && IsSelfOrAncestor(roots[i], p)
  }

  /** One of `match`'s two loops: walk `roots` in order and stop at the first
      that is `p` or a parent of `p`. */
  function ScanRoots(p: Path, roots: seq<Path>): (found: bool)
    ensures found <==> UnderSome(p, roots)
    decreases |roots|
  {
    if |roots| == 0 then false
    else if IsSelfOrAncestor(roots[0], p) then true
    else
      var found := ScanRoots(p, roots[1..]);
      assert forall i :: 1 <= i < |roots| ==> roots[i] == roots[1..][i - 1];
      found
  }

  /** `match`: the exclude paths are consulted first and win; otherwise a
      path is tested when it lies at or below some filter path. */
  function Match(p: Path, cfg: TestConfig): (r: bool)
    ensures UnderSome(p, cfg.exclude) ==> !r
    ensures !UnderSome(p, cfg.exclude) ==> (r <==> UnderSome(p, cfg.filter))
  {
    if ScanRoots(p, cfg.exclude) then false
    else ScanRoots(p, cfg.filter)
  }

  /** `d in filter or any(d in f.parents for f in filter)`: some filter path
      is `d` or lies below it. */
  predicate Reaches(filter: seq<Path>, d: Path) {
    exists i :: 0 <= i < |filter| && IsSelfOrAncestor(d, filter[i])
  }

  /** The distribution test of `test_third_party_stubs`: `stubs` itself is a
      filter path, or some filter path lies at or below `stubs/<name>`. */
  predicate DistributionSelected(filter: seq<Path>, name: string) {
    Reaches(filter, ["stubs", name]) || ["stubs"] in filter
  }

  /** The shape check of `valid_path`: the path is `stdlib` or `stubs` or
      lies below one of them. */
  predicate InTestedTree(p: Path) {
    UnderSome(p, DirectoriesToTest)
  }

  /** Selecting a distribution implies the third-party pass runs at all:
      the two tests agree. */
  lemma SelectedDistributionReachesStubs(filter: seq<Path>, name: string)
    requires DistributionSelected(filter, name)
    ensures Reaches(filter, ["stubs"])
  {
    if !(["stubs"] in filter) {
      var i :| 0 <= i < |filter| && IsSelfOrAncestor(["stubs", name], filter[i]);
      assert filter[i][..1] == ["stubs", name][..1];
    } else {
      var i :| 0 <= i < |filter| && filter[i] == ["stubs"];
    }
  }

  /** No distribution holding a file that `match` accepts is skipped: with
      filter paths that passed `valid_path`, a matching file below
      `stubs/<name>` makes that distribution selected. */
  lemma MatchingFileSelectsDistribution(cfg: TestConfig, name: string, f: Path)
    requires forall i :: 0 <= i < |cfg.filter| ==> InTestedTree(cfg.filter[i])
    requires IsProperAncestor(["stubs", name], f)
    requires Match(f, cfg)
    ensures DistributionSelected(cfg.filter, name)
  {
    var i :| 0 <= i < |cfg.filter| && IsSelfOrAncestor(cfg.filter[i], f);
    var g := cfg.filter[i];
    var k :| 0 <= k < |DirectoriesToTest| && IsSelfOrAncestor(DirectoriesToTest[k], g);
    assert |g| >= 1 && g[..1] == DirectoriesToTest[k];
    assert g[0] == f[0] == "stubs";
    if |g| == 1 {
      assert g == ["stubs"];
    } else {
      assert g[..2] == f[..2] == ["stubs", name];
      assert IsSelfOrAncestor(["stubs", name], g);
    }
  }

  /** Likewise a matching file below `stdlib` makes the standard-library
      pass run. */
  lemma MatchingFileReachesStdlib(cfg: TestConfig, f: Path)
    requires forall i :: 0 <= i < |cfg.filter| ==> InTestedTree(cfg.filter[i])
    requires IsProperAncestor(["stdlib"], f)
    requires Match(f, cfg)
    ensures Reaches(cfg.filter, ["stdlib"])
  {
    var i :| 0 <= i < |cfg.filter| && IsSelfOrAncestor(cfg.filter[i], f);
    var g := cfg.filter[i];
    var k :| 0 <= k < |DirectoriesToTest| && IsSelfOrAncestor(DirectoriesToTest[k], g);
    assert |g| >= 1 && g[..1] == DirectoriesToTest[k];
    assert g[0] == f[0] == "stdlib";
    assert g[..1] == ["stdlib"];
  }

  // ---------------------------------------------------------------------------
  // add_files

  /** The regular files of the repository, in the order a directory walk
      meets them; directories are implied by the paths. */
  datatype FileSystem = FileSystem(files: seq<Path>)

  /** `module.rglob("*.pyi")`: the files strictly below `module` whose name
      matches `*.pyi`, in walk order. */
  function RGlobPyi(paths: seq<Path>, target: Path): (r: seq<Path>)
    ensures multiset(r) <= multiset(paths)
    ensures forall f :: f in r <==> f in paths && IsProperAncestor(target, f) && MatchesPyiGlob(Name(f))
    decreases |paths|
  {
    if |paths| == 0 then []
    else
      var rest := RGlobPyi(paths[1..], target);
      assert paths == [paths[0]] + paths[1..];
      if IsProperAncestor(target, paths[0]) && MatchesPyiGlob(Name(paths[0])) then [paths[0]] + rest else rest
  }

  /** The generator `(f for f in paths if match(f, args))`. */
  function KeepMatching(paths: seq<Path>, cfg: TestConfig): (r: seq<Path>)
    ensures multiset(r) <= multiset(paths)
    ensures forall f :: f in r <==> f in paths && Match(f, cfg)
    decreases |paths|
  {
    if |paths| == 0 then []
    else
      var rest := KeepMatching(paths[1..], cfg);
      assert paths == [paths[0]] + paths[1..];
      if Match(paths[0], cfg) then [paths[0]] + rest else rest
  }

  /** `module.is_file() and module.suffix == ".pyi"`. */
  predicate IsStubFile(fs: FileSystem, target: Path) {
    target in fs.files && Suffix(Name(target)) == ".pyi"
  }

  /** `add_files`: only appends. A stub file is appended when it matches;
      anything else contributes the sorted list of the matching `*.pyi`
      files below it. */
  function AddFiles(files: seq<Path>, target: Path, fs: FileSystem, cfg: TestConfig): (r: seq<Path>)
    ensures |files| <= |r| && r[..|files|] == files
    ensures IsStubFile(fs, target) ==> r[|files|..] == (if Match(target, cfg) then [target] else [])
    ensures !IsStubFile(fs, target) ==>
      && SortedBy(r[|files|..], PathLess)
      && forall f :: f in r[|files|..] <==>
           f in fs.files && IsProperAncestor(target, f) && MatchesPyiGlob(Name(f)) && Match(f, cfg)
    ensures !IsStubFile(fs, target) ==> multiset(r[|files|..]) <= multiset(fs.files)
  {
    if IsStubFile(fs, target) then
      var block := if Match(target, cfg) then [target] else [];
      assert (files + block)[|files|..] == block;
      files + block
    else
      PathLessIsStrictTotalOrder();
      var block := SortBy(KeepMatching(RGlobPyi(fs.files, target), cfg), PathLess);
      assert (files + block)[|files|..] == block;
      assert forall f :: f in block <==> f in multiset(block);
      files + block
  }

  /** A walk lists every file once, so the block `add_files` appends for
      a directory holds every matching file exactly once. */
  lemma AddFilesOnce(files: seq<Path>, target: Path, fs: FileSystem, cfg: TestConfig)
    requires forall i, j :: 0 <= i < j < |fs.files| ==> fs.files[i] != fs.files[j]
    requires !IsStubFile(fs, target)
    ensures var block := AddFiles(files, target, fs, cfg)[|files|..];
      forall f :: f in block ==> multiset(block)[f] == 1
  {
    var block := AddFiles(files, target, fs, cfg)[|files|..];
    forall f | f in block ensures multiset(block)[f] == 1 {
      DistinctOnce(fs.files, f);
    }
  }

  /** In a list without repeats nothing occurs twice. */
  lemma {:induction false} DistinctOnce<T>(s: seq<T>, x: T)
    requires forall i, j :: 0 <= i < j < |s| ==> s[i] != s[j]
    ensures multiset(s)[x] <= 1
    decreases |s|
  {
    if |s| > 0 {
      assert s == [s[0]] + s[1..];
      DistinctOnce(s[1..], x);
      if x == s[0] {
        assert x !in s[1..] by {
          forall k | 0 <= k < |s[1..]| ensures s[1..][k] != x {
            assert s[1..][k] == s[k + 1];
          }
        }
      }
    }
  }

  /** The block `add_files` appends does not depend on what was gathered
      before. */
  lemma AddFilesAppendsBlock(files: seq<Path>, target: Path, fs: FileSystem, cfg: TestConfig)
    ensures AddFiles(files, target, fs, cfg) == files + AddFiles([], target, fs, cfg)
  {
  }
}
