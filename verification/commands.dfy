/** The command lines the driver builds: mypy's flags and command
    (`run_mypy`), the `pip install` command of a venv
    (`install_requirements_for_venv`) and the MYPYPATH of a third-party run
    (`test_third_party_distribution`). */
module Commands {
  import opened Strings
  import opened Orders
  import opened Paths

  /** The flags every mypy run gets, before the conditional ones. */
  function FixedFlags(version: string, platform: string, typeshedDir: string, configFile: string): (r: seq<string>)
    ensures |r| == 17
    ensures r[1] == version && r[6] == platform && r[8] == typeshedDir && r[16] == configFile
  {
    [ "--python-version", version,
      "--show-traceback",
      "--warn-incomplete-stub",
      "--no-error-summary",
      "--platform", platform,
      "--custom-typeshed-dir", typeshedDir,
      "--strict",
      "--allow-untyped-defs",
      "--allow-incomplete-defs",
      "--allow-subclassing-any",
      "--enable-error-code", "ignore-without-code",
      "--config-file", configFile ]
  }

  /** The full flag list of `run_mypy`: a third-party run adds
      `--explicit-package-bases`, and a run without non-types dependencies
      adds `--no-site-packages`. */
  function MypyFlags(version: string, platform: string, typeshedDir: string, configFile: string,
                     testingStdlib: bool, nonTypesDependencies: bool): (r: seq<string>)
    ensures |r| == 17 + (if testingStdlib then 0 else 1) + (if nonTypesDependencies then 0 else 1)
    ensures r[..17] == FixedFlags(version, platform, typeshedDir, configFile)
  {
    FixedFlags(version, platform, typeshedDir, configFile)
      + (if testingStdlib then [] else ["--explicit-package-bases"])
      + (if nonTypesDependencies then [] else ["--no-site-packages"])
  }

  /** None of the run's own values is spelled like a conditional flag. */
  predicate PlainValues(version: string, platform: string, typeshedDir: string, configFile: string) {
    forall v :: v in [version, platform, typeshedDir, configFile] ==>
      v != "--explicit-package-bases" && v != "--no-site-packages"
  }

  /** The two conditional flags follow the two switches exactly. */
  lemma ConditionalFlags(version: string, platform: string, typeshedDir: string, configFile: string,
                         testingStdlib: bool, nonTypesDependencies: bool)
    requires PlainValues(version, platform, typeshedDir, configFile)
    ensures var flags := MypyFlags(version, platform, typeshedDir, configFile, testingStdlib, nonTypesDependencies);
      && ("--explicit-package-bases" in flags <==> !testingStdlib)
      && ("--no-site-packages" in flags <==> !nonTypesDependencies)
  {
    var fixed := FixedFlags(version, platform, typeshedDir, configFile);
    assert version in [version, platform, typeshedDir, configFile];
    assert platform in [version, platform, typeshedDir, configFile];
    assert typeshedDir in [version, platform, typeshedDir, configFile];
    assert configFile in [version, platform, typeshedDir, configFile];
    assert "--explicit-package-bases" !in fixed;
    assert "--no-site-packages" !in fixed;
  }

  /** `[venv_info.python_exe, "-m", "mypy", *flags, *map(str, files)]`. */
  function MypyCommand(pythonExe: string, flags: seq<string>, files: seq<Path>): (r: seq<string>)
    ensures |r| == 3 + |flags| + |files|
    ensures r[..3] == [pythonExe, "-m", "mypy"]
    ensures r[3..3 + |flags|] == flags
    ensures forall i :: 0 <= i < |files| ==> r[3 + |flags| + i] == PathString(files[i])
  {
    var shown := seq(|files|, i requires 0 <= i < |files| => PathString(files[i]));
    assert ([pythonExe, "-m", "mypy"] + flags + shown)[3..3 + |flags|] == flags;
    [pythonExe, "-m", "mypy"] + flags + shown
  }

  // ---------------------------------------------------------------------------
  // pip

  /** `[pip_exe, "install", mypy_req, *sorted(requirements), "--no-cache-dir"]`:
      the requirement set is listed once each, in code-point order. */
  function PipInstallCommand(pipExe: string, mypyReq: string, requirements: seq<string>): (r: seq<string>)
    ensures |r| >= 4 && r[..3] == [pipExe, "install", mypyReq] && r[|r| - 1] == "--no-cache-dir"
    ensures StrictlySortedBy(r[3..|r| - 1], StrLess)
    ensures Elems(r[3..|r| - 1]) == Elems(requirements)
  {
    StrLessIsStrictTotalOrder();
    var sorted := SortDistinct(requirements, StrLess);
    var r := [pipExe, "install", mypyReq] + sorted + ["--no-cache-dir"];
    assert r[3..|r| - 1] == sorted;
    r
  }

  /** The command depends on the requirement set only: its order and
      repetitions in the metadata do not matter. */
  lemma PipCommandDependsOnSetOnly(pipExe: string, mypyReq: string, a: seq<string>, b: seq<string>)
    requires Elems(a) == Elems(b)
    ensures PipInstallCommand(pipExe, mypyReq, a) == PipInstallCommand(pipExe, mypyReq, b)
  {
    var ra := PipInstallCommand(pipExe, mypyReq, a);
    var rb := PipInstallCommand(pipExe, mypyReq, b);
    StrLessIsStrictTotalOrder();
    StrictlySortedUnique(ra[3..|ra| - 1], rb[3..|rb| - 1], StrLess);
    assert ra == ra[..3] + ra[3..|ra| - 1] + [ra[|ra| - 1]];
    assert rb == rb[..3] + rb[3..|rb| - 1] + [rb[|rb| - 1]];
  }

  // ---------------------------------------------------------------------------
  // MYPYPATH

  /** `str(Path("stubs", dist))`. */
  function StubsDir(dist: string): (r: string)
    ensures r == "stubs/" + dist
  {
    assert Join(["stubs", dist], '/') == "stubs" + "/" + Join([dist], '/');
    PathString(["stubs", dist])
  }

  /** `str(Path("stubs", dist))` for each distribution, in order. */
  function StubsDirs(dists: seq<string>): (r: seq<string>)
    ensures |r| == |dists|
    ensures forall i :: 0 <= i < |dists| ==> r[i] == "stubs/" + dists[i]
  {
    seq(|dists|, i requires 0 <= i < |dists| => StubsDir(dists[i]))
  }

  /** `os.pathsep.join(str(Path("stubs", dist)) for dist in seen_dists)` on
      POSIX. Python iterates the set in an unspecified order; the model lists
      the distributions in code-point order. */
  function MypyPath(seen: seq<string>): (r: string)
    ensures |seen| > 0 ==> StartsWith(r, "stubs/")
  {
    StrLessIsStrictTotalOrder();
    var dists := SortDistinct(seen, StrLess);
    ElemsEmpty(seen);
    ElemsEmpty(dists);
    var dirs := StubsDirs(dists);
    if |dists| == 0 then ""
    else
      assert Join(dirs, ':')[..6] == dirs[0][..6];
      Join(dirs, ':')
  }

  /** Splitting MYPYPATH at `:` gives back the directories, in order, when
      no distribution name holds a `:`. */
  lemma MypyPathSplits(seen: seq<string>)
    requires |seen| > 0
    requires forall i :: 0 <= i < |seen| ==> ':' !in seen[i]
    ensures StrictTotalOrder(StrLess)
    ensures Split(MypyPath(seen), ':') == StubsDirs(SortDistinct(seen, StrLess))
  {
    StrLessIsStrictTotalOrder();
    var dists := SortDistinct(seen, StrLess);
    ElemsEmpty(seen);
    ElemsEmpty(dists);
    var dirs := StubsDirs(dists);
    assert MypyPath(seen) == Join(dirs, ':');
    StubsDirsHaveNoColon(dists, seen);
    SplitJoin(dirs, ':');
  }

  /** The directories of colon-free names hold no colon. */
  lemma StubsDirsHaveNoColon(dists: seq<string>, seen: seq<string>)
    requires Elems(dists) == Elems(seen)
    requires forall i :: 0 <= i < |seen| ==> ':' !in seen[i]
    ensures forall i :: 0 <= i < |dists| ==> ':' !in StubsDirs(dists)[i]
  {
    var dirs := StubsDirs(dists);
    forall i | 0 <= i < |dirs| ensures ':' !in dirs[i] {
      assert dists[i] in Elems(seen);
      assert dirs[i] == "stubs/" + dists[i];
    }
  }

  /** Distinct names give distinct directories. */
  lemma StubsDirsDistinct(dists: seq<string>)
    requires StrictlySortedBy(dists, StrLess)
    ensures forall i, j :: 0 <= i < j < |dists| ==> StubsDirs(dists)[i] != StubsDirs(dists)[j]
  {
    var dirs := StubsDirs(dists);
    forall i, j | 0 <= i < j < |dirs| ensures dirs[i] != dirs[j] {
      assert StrLess(dists[i], dists[j]);
      LexIrreflexive(dists[i], CharLess);
      assert dirs[i][6..] == dists[i] && dirs[j][6..] == dists[j];
    }
  }

  /** The directories are those of the listed names. */
  lemma StubsDirsOf(dists: seq<string>, seen: seq<string>)
    requires Elems(dists) == Elems(seen)
    ensures forall e :: e in StubsDirs(dists) <==> exists i :: 0 <= i < |seen| && e == "stubs/" + seen[i]
  {
    var dirs := StubsDirs(dists);
    forall e | e in dirs ensures exists i :: 0 <= i < |seen| && e == "stubs/" + seen[i] {
      var k :| 0 <= k < |dirs| && dirs[k] == e;
      assert dists[k] in Elems(seen);
    }
    forall i | 0 <= i < |seen| ensures "stubs/" + seen[i] in dirs {
      assert seen[i] in Elems(dists);
      var k :| 0 <= k < |dists| && dists[k] == seen[i];
      assert dirs[k] == "stubs/" + seen[i];
    }
  }

  /** Splitting MYPYPATH at `:` gives back one `stubs/<dist>` entry per seen
      distribution, each once, when no distribution name holds a `:` or a
      `/`. */
  lemma MypyPathEntries(seen: seq<string>)
    requires |seen| > 0
    requires forall i :: 0 <= i < |seen| ==> ':' !in seen[i] && '/' !in seen[i]
    ensures var entries := Split(MypyPath(seen), ':');
      && (forall e :: e in entries <==> exists i :: 0 <= i < |seen| && e == "stubs/" + seen[i])
      && (forall i, j :: 0 <= i < j < |entries| ==> entries[i] != entries[j])
  {
    MypyPathSplits(seen);
    var dists := SortDistinct(seen, StrLess);
    StubsDirsOf(dists, seen);
    StubsDirsDistinct(dists);
  }

  /** Like the pip command, MYPYPATH depends on the set of seen distributions
      only. */
  lemma MypyPathDependsOnSetOnly(a: seq<string>, b: seq<string>)
    requires Elems(a) == Elems(b)
    ensures MypyPath(a) == MypyPath(b)
  {
    StrLessIsStrictTotalOrder();
    StrictlySortedUnique(SortDistinct(a, StrLess), SortDistinct(b, StrLess), StrLess);
  }
}
