/** The passes of `mypy_test.py`: the stdlib pass, the third-party pass
    (one mypy run per selected distribution) and `main`'s loop over every
    version and platform. The file tree, the decoded metadata and the
    machine are explicit values; mypy itself is an oracle from the
    invocation to its exit code. */
module Driver {
  import opened Wrappers
  import opened Strings
  import opened Orders
  import opened Paths
  import opened Versions
  import opened Selection
  import opened Toml
  import opened MypyConfig
  import opened Commands
  import opened Venvs
  import opened Results

  /** What the passes read from the repository. */
  datatype Repo = Repo(
    fs: FileSystem,                                 // the regular files, for `is_file` and `rglob`
    listings: map<Path, seq<string>>,               // `os.listdir` of each directory
    metadata: map<string, Table>,                   // the decoded `stubs/<dist>/METADATA.toml`
    requirements: map<string, PackageDependencies>, // `get_recursive_requirements(dist)`
    versionsLines: seq<string>)                     // the lines of `stdlib/VERSIONS`

  /** What one mypy run is given: its command line, MYPYPATH (unset for the
      stdlib) and the text of its configuration file. */
  datatype Invocation = Invocation(command: seq<string>, mypypath: Option<string>, configText: string)

  /** The machine the passes run on and the helpers outside this model. */
  datatype Host = Host(
    sysExecutable: string,
    sysPlatform: string,
    typeshedDir: string,                    // the `--custom-typeshed-dir` argument
    configFile: string,                     // the temporary configuration file's name
    mypyReq: string,                        // the pinned mypy requirement
    syntax: LineSyntax,                     // the regular expressions of `parse_versions`
    gitignored: Path -> bool,               // `spec_matches_path(get_gitignore_spec(), p)`
    venvInfoFor: set<string> -> VenvInfo,   // where the venv of a requirement set lives
    render: Value -> string,                // Python's `str()` of a decoded value
    mypy: Invocation -> int)                // mypy's exit code

  /** Why a pass stops without a result: a failed assertion, an uncaught
      exception or `sys.exit(1)`. */
  datatype RunError =
    | BadVersions(versionsError: VersionsError)   // `parse_versions` rejects a line
    | NotInVersions(moduleName: string)           // `supported_versions[module]` raises `KeyError`
    | NoListing(directory: Path)                  // `os.listdir` of a missing directory
    | NoRequirements(distribution: string)        // `get_recursive_requirements` fails
    | NoMetadata(distribution: string)            // `METADATA.toml` cannot be read
    | BadConfiguration(configError: ConfigError)  // an assertion of `add_configuration`
    | NoFilesFound(distribution: string)          // "no files found", `sys.exit(1)`
    | MappingMismatch                             // the venv mapping's keys differ from the selection

  // ---------------------------------------------------------------------------
  // The stdlib pass

  /** The entries of `stdlib` the loop looks at. */
  predicate Considered(name: string) {
    name != "VERSIONS" && !StartsWith(name, ".")
  }

  /** The entry's module is listed in VERSIONS with a window that holds the
      tested version. */
  predicate InVersionWindow(name: string, table: map<string, VersionRange>, v: VersionTuple) {
    Stem(name) in table && InWindow(table[Stem(name)], v)
  }

  /** The files `add_files` gathers for the entry `name` of `stdlib`. */
  function StdlibBlock(fs: FileSystem, cfg: TestConfig): (blockOf: string -> seq<Path>)
    ensures forall name, files :: files + blockOf(name) == AddFiles(files, ["stdlib", name], fs, cfg)
  {
    forall name, files ensures files + AddFiles([], ["stdlib", name], fs, cfg) == AddFiles(files, ["stdlib", name], fs, cfg) {
      AddFilesAppendsBlock(files, ["stdlib", name], fs, cfg);
    }
    name => AddFiles([], ["stdlib", name], fs, cfg)
  }

  /** The loop of `test_stdlib`: every considered entry's module must be in
      VERSIONS, and the first one that is not stops the loop; the files
      gathered are those of the considered entries whose window holds the
      tested version. `add_files` appends the entry's block of files, given
      as `blockOf`. */
  function GatherStdlib(names: seq<string>, table: map<string, VersionRange>, v: VersionTuple,
                        blockOf: string -> seq<Path>)
    : (r: Result<seq<Path>, RunError>)
    ensures r.Success? <==> forall k :: 0 <= k < |names| && Considered(names[k]) ==> Stem(names[k]) in table
    ensures r.Failure? ==>
      exists k :: 0 <= k < |names| && Considered(names[k]) && Stem(names[k]) !in table
        && r.error == NotInVersions(Stem(names[k]))
    ensures r.Success? ==> forall f :: f in r.value <==>
      exists k :: 0 <= k < |names| && Considered(names[k]) && InVersionWindow(names[k], table, v) && f in blockOf(names[k])
    decreases |names|
  {
    if |names| == 0 then Success([])
    else
      var init := names[..|names| - 1];
      var name := names[|names| - 1];
      assert forall k :: 0 <= k < |init| ==> init[k] == names[k];
      match GatherStdlib(init, table, v, blockOf)
      case Failure(e) => Failure(e)
      case Success(files) =>
        if !Considered(name) then Success(files)
        else if Stem(name) !in table then Failure(NotInVersions(Stem(name)))
        else if InWindow(table[Stem(name)], v) then Success(files + blockOf(name))
        else Success(files)
  }

  /** The one mypy run of the stdlib pass: the host interpreter, stdlib
      flags, no MYPYPATH and a configuration file with no sections. */
  function StdlibInvocation(cfg: TestConfig, host: Host, files: seq<Path>): Invocation {
    Invocation(
      MypyCommand(host.sysExecutable,
        MypyFlags(VersionString(cfg.version), cfg.platform, host.typeshedDir, host.configFile, true, false),
        files),
      None,
      ConfigText([], host.render))
  }

  /** The stdlib run checks the stdlib as the standard library: no
      `--explicit-package-bases`, with `--no-site-packages`, and a
      configuration file that reads back as the bare `[mypy]` section. */
  lemma StdlibRunShape(cfg: TestConfig, host: Host, files: seq<Path>)
    requires PlainValues(VersionString(cfg.version), cfg.platform, host.typeshedDir, host.configFile)
    ensures var inv := StdlibInvocation(cfg, host, files);
      var flags := inv.command[3..3 + |MypyFlags(VersionString(cfg.version), cfg.platform, host.typeshedDir, host.configFile, true, false)|];
      && "--explicit-package-bases" !in flags
      && "--no-site-packages" in flags
      && inv.mypypath.None?
      && Split(inv.configText, '\n') == ["[mypy]", ""]
  {
    ConditionalFlags(VersionString(cfg.version), cfg.platform, host.typeshedDir, host.configFile, true, false);
    ConfigTextLines([], host.render);
  }

  /** `test_stdlib`: VERSIONS must parse and cover every entry; mypy runs
      once, over every gathered file, and only when there is one. */
  function TestStdlib(code: int, cfg: TestConfig, repo: Repo, host: Host): (r: Result<TestResults, RunError>)
    ensures r.Failure? ==> !r.error.MappingMismatch?
    ensures ParseVersions(repo.versionsLines, host.syntax).Failure? ==>
      r == Failure(BadVersions(ParseVersions(repo.versionsLines, host.syntax).error))
    ensures ["stdlib"] !in repo.listings && ParseVersions(repo.versionsLines, host.syntax).Success? ==>
      r == Failure(NoListing(["stdlib"]))
    ensures ParseVersions(repo.versionsLines, host.syntax).Success? && ["stdlib"] in repo.listings ==>
      var g := GatherStdlib(repo.listings[["stdlib"]], ParseVersions(repo.versionsLines, host.syntax).value, cfg.version, StdlibBlock(repo.fs, cfg));
      && (g.Failure? ==> r == Failure(g.error))
      && (g.Success? ==> r.Success? && r.value.filesChecked == |g.value|)
    ensures r.Success? ==> r.value.exitCode >= code
    ensures r.Success? && r.value.filesChecked == 0 ==> r.value.exitCode == code
    ensures r.Success? && r.value.filesChecked > 0 ==>
      var files := GatherStdlib(repo.listings[["stdlib"]], ParseVersions(repo.versionsLines, host.syntax).value, cfg.version, StdlibBlock(repo.fs, cfg));
      && files.Success? && |files.value| == r.value.filesChecked
      && var m := host.mypy(StdlibInvocation(cfg, host, files.value));
         r.value.exitCode == (if m > code then m else code)
  {
    match ParseVersions(repo.versionsLines, host.syntax)
    case Failure(e) => Failure(BadVersions(e))
    case Success(table) =>
      if ["stdlib"] !in repo.listings then Failure(NoListing(["stdlib"]))
      else
        match GatherStdlib(repo.listings[["stdlib"]], table, cfg.version, StdlibBlock(repo.fs, cfg))
        case Failure(e) => Failure(e)
        case Success(files) =>
          if |files| == 0 then Success(TestResults(code, 0))
          else
            var thisCode := host.mypy(StdlibInvocation(cfg, host, files));
            Success(TestResults(if thisCode > code then thisCode else code, |files|))
  }

  // ---------------------------------------------------------------------------
  // One third-party distribution

  /** Entries whose name starts with a dot are skipped. */
  predicate Hidden(name: string) {
    StartsWith(name, ".")
  }

  /** The entries of a distribution's directory the loop looks at, in
      listing order. */
  function Visible(names: seq<string>): (r: seq<string>)
    ensures forall n :: n in r <==> n in names && !Hidden(n)
    ensures |r| <= |names|
    decreases |names|
  {
    if |names| == 0 then []
    else
      assert names == [names[0]] + names[1..];
      if Hidden(names[0]) then Visible(names[1..]) else [names[0]] + Visible(names[1..])
  }

  /** The files `add_files` contributes for each entry, one block after
      another. */
  function Blocks(dist: string, names: seq<string>, fs: FileSystem, cfg: TestConfig): seq<Path>
    decreases |names|
  {
    if |names| == 0 then [] else AddFiles([], ["stubs", dist, names[0]], fs, cfg) + Blocks(dist, names[1..], fs, cfg)
  }

  lemma BlocksCons(dist: string, name: string, rest: seq<string>, fs: FileSystem, cfg: TestConfig)
    ensures Blocks(dist, [name] + rest, fs, cfg) == AddFiles([], ["stubs", dist, name], fs, cfg) + Blocks(dist, rest, fs, cfg)
  {
    assert ([name] + rest)[1..] == rest;
  }

  /** A visible first entry contributes the first block. */
  lemma VisibleEntryBlocks(dist: string, names: seq<string>, fs: FileSystem, cfg: TestConfig)
    requires |names| > 0 && !Hidden(names[0])
    ensures Visible(names) == [names[0]] + Visible(names[1..])
    ensures Blocks(dist, Visible(names), fs, cfg) == AddFiles([], ["stubs", dist, names[0]], fs, cfg) + Blocks(dist, Visible(names[1..]), fs, cfg)
  {
    BlocksCons(dist, names[0], Visible(names[1..]), fs, cfg);
  }

  /** `k` copies of `block`, one after another. */
  function Repeat<T>(block: seq<T>, k: nat): (r: seq<T>)
    ensures |r| == k * |block|
    decreases k
  {
    if k == 0 then [] else block + Repeat(block, k - 1)
  }

  /** One more copy of a block appended in front of the others. */
  lemma RepeatStep(confs: seq<MypyDistConf>, block: Result<seq<MypyDistConf>, ConfigError>, k: nat)
    requires block.Success?
    ensures confs + block.value + Repeat(block.value, k) == confs + Repeat(block.value, k + 1)
    ensures confs + block.value == confs + Repeat(block.value, 1)
  {
    assert Repeat(block.value, 1) == block.value + [];
  }

  /** The loop of `add_third_party_files`: for each visible entry, its files
      and then the distribution's configurations are appended, so the
      configurations appear once per visible entry. */
  function AddEntries(dist: string, names: seq<string>, files: seq<Path>, confs: seq<MypyDistConf>,
                      data: Table, fs: FileSystem, cfg: TestConfig)
    : (r: Result<(seq<Path>, seq<MypyDistConf>), ConfigError>)
    ensures |Visible(names)| == 0 ==> r == Success((files, confs))
    ensures |Visible(names)| > 0 ==> (r.Success? <==> AddConfiguration([], data).Success?)
    ensures r.Failure? ==> AddConfiguration([], data) == Failure(r.error)
    ensures r.Success? && |Visible(names)| > 0 ==>
      r.value.1 == confs + Repeat(AddConfiguration([], data).value, |Visible(names)|)
    ensures r.Success? ==> r.value.0 == files + Blocks(dist, Visible(names), fs, cfg)
    decreases |names|
  {
    if |names| == 0 then Success((files, confs))
    else if Hidden(names[0]) then
      AddEntries(dist, names[1..], files, confs, data, fs, cfg)
    else
      AddFilesAppendsBlock(files, ["stubs", dist, names[0]], fs, cfg);
      AddConfigurationAppends(confs, data);
      match AddConfiguration(confs, data)
      case Failure(e) => Failure(e)
      case Success(more) =>
        var r := AddEntries(dist, names[1..], AddFiles(files, ["stubs", dist, names[0]], fs, cfg), more, data, fs, cfg);
        VisibleEntryBlocks(dist, names, fs, cfg);
        RepeatStep(confs, AddConfiguration([], data), |Visible(names[1..])|);
        r
  }

  /** What `add_third_party_files` accumulates: the files, the
      configurations and the distributions already seen. */
  datatype Gathered = Gathered(files: seq<Path>, confs: seq<MypyDistConf>, seen: set<string>)

  /** `add_third_party_files`: a distribution already seen adds nothing;
      otherwise it and its typeshed dependencies become seen, and every
      visible entry of its directory adds its files and the distribution's
      configurations. */
  function AddThirdPartyFiles(dist: string, acc: Gathered, cfg: TestConfig, repo: Repo): (r: Result<Gathered, RunError>)
    ensures r.Failure? ==> !r.error.MappingMismatch? && !r.error.NoFilesFound?
    ensures dist in acc.seen ==> r == Success(acc)
    ensures r.Success? ==> dist in r.value.seen && acc.seen <= r.value.seen
    ensures r.Success? ==> |acc.files| <= |r.value.files| && r.value.files[..|acc.files|] == acc.files
    ensures r.Success? ==> |acc.confs| <= |r.value.confs| && r.value.confs[..|acc.confs|] == acc.confs
    ensures r.Success? && dist !in acc.seen ==>
      && dist in repo.requirements && ["stubs", dist] in repo.listings
      && r.value.seen == acc.seen + {dist} + Elems(repo.requirements[dist].typeshedPkgs)
      && r.value.files == acc.files + Blocks(dist, Visible(repo.listings[["stubs", dist]]), repo.fs, cfg)
  {
    if dist in acc.seen then Success(acc)
    else if dist !in repo.requirements then Failure(NoRequirements(dist))
    else if ["stubs", dist] !in repo.listings then Failure(NoListing(["stubs", dist]))
    else
      var names := repo.listings[["stubs", dist]];
      var seen := acc.seen + {dist} + Elems(repo.requirements[dist].typeshedPkgs);
      if |Visible(names)| > 0 && dist !in repo.metadata then Failure(NoMetadata(dist))
      else
        var data := if dist in repo.metadata then repo.metadata[dist] else [];
        match AddEntries(dist, names, acc.files, acc.confs, data, repo.fs, cfg)
        case Failure(e) => Failure(BadConfiguration(e))
        case Success(gathered) =>
          assert (acc.files + Blocks(dist, Visible(names), repo.fs, cfg))[..|acc.files|] == acc.files;
          assert |Visible(names)| > 0 ==>
            (acc.confs + Repeat(AddConfiguration([], data).value, |Visible(names)|))[..|acc.confs|] == acc.confs;
          Success(Gathered(gathered.0, gathered.1, seen))
  }

  /** Adding a distribution a second time changes nothing: the seen set
      makes `add_third_party_files` idempotent. */
  lemma AddThirdPartyFilesIdempotent(dist: string, acc: Gathered, cfg: TestConfig, repo: Repo)
    requires AddThirdPartyFiles(dist, acc, cfg, repo).Success?
    ensures var once := AddThirdPartyFiles(dist, acc, cfg, repo).value;
      AddThirdPartyFiles(dist, once, cfg, repo) == Success(once)
  {
  }

  /** The interpreter a venv runs mypy with. */
  function PythonExe(venv: Venv, host: Host): string {
    match venv
    case HostVenv => host.sysExecutable
    case IsolatedVenv(requirements) => host.venvInfoFor(requirements).pythonExe
  }

  /** The mypy run of one distribution. A distribution tested in a venv of
      its own has non-types dependencies installed there. */
  function ThirdPartyInvocation(dist: string, cfg: TestConfig, venv: Venv, g: Gathered, repo: Repo, host: Host): Invocation
    requires dist in repo.requirements
  {
    Invocation(
      MypyCommand(PythonExe(venv, host),
        MypyFlags(VersionString(cfg.version), cfg.platform, host.typeshedDir, host.configFile, false, venv.IsolatedVenv?),
        g.files),
      Some(MypyPath([dist] + repo.requirements[dist].typeshedPkgs)),
      ConfigText(g.confs, host.render))
  }

  /** A third-party run always passes `--explicit-package-bases`, and passes
      `--no-site-packages` exactly when the distribution runs on the host
      interpreter; MYPYPATH lists the distribution and its typeshed
      dependencies, which are what `add_third_party_files` saw. */
  lemma ThirdPartyRunShape(dist: string, cfg: TestConfig, venv: Venv, repo: Repo, host: Host)
    requires PlainValues(VersionString(cfg.version), cfg.platform, host.typeshedDir, host.configFile)
    requires AddThirdPartyFiles(dist, Gathered([], [], {}), cfg, repo).Success?
    ensures dist in repo.requirements
    ensures var g := AddThirdPartyFiles(dist, Gathered([], [], {}), cfg, repo).value;
      var inv := ThirdPartyInvocation(dist, cfg, venv, g, repo, host);
      var flags := inv.command[3..3 + |MypyFlags(VersionString(cfg.version), cfg.platform, host.typeshedDir, host.configFile, false, venv.IsolatedVenv?)|];
      && "--explicit-package-bases" in flags
      && ("--no-site-packages" in flags <==> venv == HostVenv)
      && Elems([dist] + repo.requirements[dist].typeshedPkgs) == g.seen
  {
    var g := AddThirdPartyFiles(dist, Gathered([], [], {}), cfg, repo).value;
    SeenIsDistributionAndDependencies(dist, cfg, repo);
    ThirdPartyFlags(dist, cfg, venv, g, repo, host);
  }

  /** The flags of a third-party run. */
  lemma ThirdPartyFlags(dist: string, cfg: TestConfig, venv: Venv, g: Gathered, repo: Repo, host: Host)
    requires PlainValues(VersionString(cfg.version), cfg.platform, host.typeshedDir, host.configFile)
    requires dist in repo.requirements
    ensures var inv := ThirdPartyInvocation(dist, cfg, venv, g, repo, host);
      var flags := inv.command[3..3 + |MypyFlags(VersionString(cfg.version), cfg.platform, host.typeshedDir, host.configFile, false, venv.IsolatedVenv?)|];
      && "--explicit-package-bases" in flags
      && ("--no-site-packages" in flags <==> venv == HostVenv)
  {
    ConditionalFlags(VersionString(cfg.version), cfg.platform, host.typeshedDir, host.configFile, false, venv.IsolatedVenv?);
  }

  /** What `add_third_party_files` saw, starting afresh: the distribution
      and its typeshed dependencies. */
  lemma SeenIsDistributionAndDependencies(dist: string, cfg: TestConfig, repo: Repo)
    requires AddThirdPartyFiles(dist, Gathered([], [], {}), cfg, repo).Success?
    ensures dist in repo.requirements
    ensures Elems([dist] + repo.requirements[dist].typeshedPkgs) == AddThirdPartyFiles(dist, Gathered([], [], {}), cfg, repo).value.seen
  {
    var pkgs := repo.requirements[dist].typeshedPkgs;
    assert Elems([dist] + pkgs) == {dist} + Elems(pkgs);
  }

  /** `test_third_party_distribution`: no files is a clean skip when a
      filter was given and "no files found" otherwise; else one mypy run
      over every gathered file. */
  function TestThirdPartyDistribution(dist: string, cfg: TestConfig, venv: Venv, repo: Repo, host: Host)
    : (r: Result<TestResults, RunError>)
    ensures var g := AddThirdPartyFiles(dist, Gathered([], [], {}), cfg, repo);
      && (g.Failure? ==> r == Failure(g.error))
      && (g.Success? && |g.value.files| == 0 && |cfg.filter| > 0 ==> r == Success(TestResults(0, 0)))
      && (g.Success? && |g.value.files| == 0 && |cfg.filter| == 0 ==> r == Failure(NoFilesFound(dist)))
      && (g.Success? && |g.value.files| > 0 ==>
            r == Success(TestResults(host.mypy(ThirdPartyInvocation(dist, cfg, venv, g.value, repo, host)), |g.value.files|)))
    ensures r.Success? && r.value.filesChecked == 0 ==> r.value.exitCode == 0 && |cfg.filter| > 0
    ensures r.Failure? ==> !r.error.MappingMismatch?
  {
    match AddThirdPartyFiles(dist, Gathered([], [], {}), cfg, repo)
    case Failure(e) => Failure(e)
    case Success(g) =>
      if |g.files| == 0 && |cfg.filter| > 0 then Success(TestResults(0, 0))
      else if |g.files| == 0 then Failure(NoFilesFound(dist))
      else Success(TestResults(host.mypy(ThirdPartyInvocation(dist, cfg, venv, g, repo, host)), |g.files|))
  }

  // ---------------------------------------------------------------------------
  // The third-party pass

  /** The names of the selected distributions. */
  function NameSet(dists: seq<Distribution>): (r: set<string>)
    ensures forall n :: n in r <==> Listed(dists, n)
  {
    set i | 0 <= i < |dists| :: dists[i].0
  }

  /** Dictionary keys are distinct, so there are as many as entries. */
  lemma {:induction false} NameSetSize(dists: seq<Distribution>)
    requires DistinctNames(dists)
    ensures |NameSet(dists)| == |dists|
    decreases |dists|
  {
    if |dists| > 0 {
      var rest := dists[1..];
      assert dists == [dists[0]] + rest;
      ListedCons(dists[0], rest);
      assert DistinctNames(rest) by {
        forall i, j | 0 <= i < j < |rest| ensures rest[i].0 != rest[j].0 {
          assert rest[i] == dists[i + 1] && rest[j] == dists[j + 1];
        }
      }
      NameSetSize(rest);
      assert dists[0].0 !in NameSet(rest);
      assert NameSet(dists) == {dists[0].0} + NameSet(rest);
    }
  }

  /** A directory of `stubs` the third-party pass tests: not git-ignored,
      and selected by the filter. */
  predicate Chosen(name: string, filter: seq<Path>, host: Host) {
    !host.gitignored(["stubs", name]) && DistributionSelected(filter, name)
  }

  /** The distribution loop of `test_third_party_stubs`: a chosen directory
      is recorded with its requirements, which must be known. */
  function SelectDistributions(names: seq<string>, filter: seq<Path>, repo: Repo, host: Host)
    : (r: Result<seq<Distribution>, RunError>)
    ensures r.Success? <==>
      forall k :: 0 <= k < |names| && Chosen(names[k], filter, host) ==> names[k] in repo.requirements
    ensures r.Failure? ==> r.error.NoRequirements?
    ensures r.Failure? ==> exists k ::
      && 0 <= k < |names| && names[k] == r.error.distribution
      && Chosen(names[k], filter, host) && names[k] !in repo.requirements
      && forall j :: 0 <= j < k ==> !(Chosen(names[j], filter, host) && names[j] !in repo.requirements)
    ensures r.Success? ==> forall n :: Listed(r.value, n) <==> n in names && Chosen(n, filter, host)
    ensures r.Success? ==> forall i :: 0 <= i < |r.value| ==>
      r.value[i].0 in repo.requirements && r.value[i].1 == repo.requirements[r.value[i].0]
    decreases |names|
  {
    if |names| == 0 then Success([])
    else
      var n := names[0];
      assert forall k :: 1 <= k < |names| ==> names[k] == names[1..][k - 1];
      assert forall m :: m in names <==> m == n || m in names[1..];
      match SelectDistributions(names[1..], filter, repo, host)
      case Failure(e) =>
        if Chosen(n, filter, host) && n !in repo.requirements then Failure(NoRequirements(n))
        else
          var k :| 0 <= k < |names[1..]| && names[1..][k] == e.distribution
            && Chosen(names[1..][k], filter, host) && names[1..][k] !in repo.requirements
            && forall j :: 0 <= j < k ==> !(Chosen(names[1..][j], filter, host) && names[1..][j] !in repo.requirements);
          assert names[k + 1] == names[1..][k];
          Failure(e)
      case Success(rest) =>
        if !Chosen(n, filter, host) then Success(rest)
        else if n !in repo.requirements then Failure(NoRequirements(n))
        else
          ListedCons((n, repo.requirements[n]), rest);
          Success([(n, repo.requirements[n])] + rest)
  }

  /** The names of a distribution list with one more in front. */
  lemma ListedCons(d: Distribution, rest: seq<Distribution>)
    ensures forall m :: Listed([d] + rest, m) <==> m == d.0 || Listed(rest, m)
    ensures forall i :: 1 <= i < |rest| + 1 ==> ([d] + rest)[i] == rest[i - 1]
  {
    var r := [d] + rest;
    assert r[0].0 == d.0;
    forall m | Listed(rest, m) ensures Listed(r, m) {
      var i :| 0 <= i < |rest| && rest[i].0 == m;
      assert r[i + 1].0 == m;
    }
  }

  /** The selection keeps the listing's order: from names in increasing
      order it records distributions in increasing order. */
  lemma {:induction false} SelectionIncreasing(names: seq<string>, filter: seq<Path>, repo: Repo, host: Host)
    requires StrictlySortedBy(names, StrLess)
    requires SelectDistributions(names, filter, repo, host).Success?
    ensures var r := SelectDistributions(names, filter, repo, host).value;
      forall i, j :: 0 <= i < j < |r| ==> StrLess(r[i].0, r[j].0)
    decreases |names|
  {
    if |names| > 0 {
      var n := names[0];
      assert StrictlySortedBy(names[1..], StrLess);
      SelectionIncreasing(names[1..], filter, repo, host);
      var rest := SelectDistributions(names[1..], filter, repo, host).value;
      if Chosen(n, filter, host) {
        ListedCons((n, repo.requirements[n]), rest);
        forall j | 0 <= j < |rest| ensures StrLess(n, rest[j].0) {
          assert Listed(rest, rest[j].0);
          var k :| 0 <= k < |names[1..]| && names[1..][k] == rest[j].0;
          assert names[k + 1] == rest[j].0;
        }
      }
    }
  }

  /** Names in strictly increasing order are distinct. */
  lemma IncreasingNamesAreDistinct(dists: seq<Distribution>)
    requires forall i, j :: 0 <= i < j < |dists| ==> StrLess(dists[i].0, dists[j].0)
    ensures DistinctNames(dists)
  {
    forall i, j | 0 <= i < j < |dists| ensures dists[i].0 != dists[j].0 {
      LexIrreflexive(dists[i].0, CharLess);
    }
  }

  /** The selection of the third-party pass: the sorted listing of `stubs`,
      filtered. It depends on the filter paths only, not on the version or
      platform of the run. */
  function Selected(filter: seq<Path>, repo: Repo, host: Host): (r: Result<seq<Distribution>, RunError>)
    ensures r.Failure? ==> !r.error.MappingMismatch?
    ensures r.Success? <==>
      && ["stubs"] in repo.listings
      && forall n :: n in repo.listings[["stubs"]] && Chosen(n, filter, host) ==> n in repo.requirements
    ensures r.Failure? ==>
      || r.error == NoListing(["stubs"])
      || (&& ["stubs"] in repo.listings && r.error.NoRequirements?
          && r.error.distribution in repo.listings[["stubs"]] && Chosen(r.error.distribution, filter, host)
          && r.error.distribution !in repo.requirements)
    ensures r.Success? ==> ["stubs"] in repo.listings
    ensures r.Success? ==> forall n :: Listed(r.value, n) <==> n in repo.listings[["stubs"]] && Chosen(n, filter, host)
    ensures r.Success? ==> forall i :: 0 <= i < |r.value| ==>
      r.value[i].0 in repo.requirements && r.value[i].1 == repo.requirements[r.value[i].0]
  {
    if ["stubs"] !in repo.listings then Failure(NoListing(["stubs"]))
    else
      StrLessIsStrictTotalOrder();
      var names := SortDistinct(repo.listings[["stubs"]], StrLess);
      var r := SelectDistributions(names, filter, repo, host);
      assert forall n :: n in names <==> n in repo.listings[["stubs"]] by {
        assert forall n :: n in names <==> n in Elems(names);
      }
      r
  }

  /** The selection has no name twice: it is recorded from the sorted
      listing, in increasing order. */
  lemma SelectedIsDistinct(filter: seq<Path>, repo: Repo, host: Host)
    requires Selected(filter, repo, host).Success?
    ensures DistinctNames(Selected(filter, repo, host).value)
  {
    StrLessIsStrictTotalOrder();
    var names := SortDistinct(repo.listings[["stubs"]], StrLess);
    SelectionIncreasing(names, filter, repo, host);
    IncreasingNamesAreDistinct(Selected(filter, repo, host).value);
  }

  /** One distribution after another, each in the venv the mapping names;
      `run` tests one distribution in one venv. The first failure stops the
      loop. */
  function DistributionRuns(dists: seq<Distribution>, mapping: map<string, Venv>,
                            run: (string, Venv) -> Result<TestResults, RunError>)
    : (r: Result<seq<TestResults>, RunError>)
    requires forall i :: 0 <= i < |dists| ==> dists[i].0 in mapping
    ensures r.Success? <==> forall i :: 0 <= i < |dists| ==> run(dists[i].0, mapping[dists[i].0]).Success?
    ensures r.Success? ==> |r.value| == |dists|
    ensures r.Success? ==> forall i :: 0 <= i < |dists| ==> Success(r.value[i]) == run(dists[i].0, mapping[dists[i].0])
    ensures r.Failure? ==> exists i :: 0 <= i < |dists| && run(dists[i].0, mapping[dists[i].0]) == Failure(r.error)
    decreases |dists|
  {
    if |dists| == 0 then Success([])
    else
      assert forall i :: 1 <= i < |dists| ==> dists[i] == dists[1..][i - 1];
      match run(dists[0].0, mapping[dists[0].0])
      case Failure(e) => Failure(e)
      case Success(first) =>
        match DistributionRuns(dists[1..], mapping, run)
        case Failure(e) => Failure(e)
        case Success(rest) =>
          assert forall i :: 1 <= i < |dists| ==> ([first] + rest)[i] == rest[i - 1];
          Success([first] + rest)
  }

  /** The venv each selected distribution is tested in once the venvs are
      set up: the one its requirement set calls for. */
  function VenvMapping(dists: seq<Distribution>, repo: Repo): map<string, Venv> {
    map n | n in repo.requirements && Listed(dists, n) :: VenvFor(repo.requirements[n])
  }

  /** Each distribution is recorded with its requirements, as the selection
      records them. */
  predicate RecordedRequirements(dists: seq<Distribution>, repo: Repo) {
    forall i :: 0 <= i < |dists| ==> dists[i].0 in repo.requirements && dists[i].1 == repo.requirements[dists[i].0]
  }

  /** The session is fresh, or its mapping is the one setting the venvs up
      for the selection makes. */
  predicate SessionFits(session: Session, filter: seq<Path>, repo: Repo, host: Host) {
    var sel := Selected(filter, repo, host);
    |session.mapping| == 0 || (sel.Success? && session.mapping == VenvMapping(sel.value, repo))
  }

  /** A session holding the mapping the setup makes fits. */
  lemma SetUpSessionFits(session: Session, filter: seq<Path>, repo: Repo, host: Host)
    requires Selected(filter, repo, host).Success?
    requires session.mapping == VenvMapping(Selected(filter, repo, host).value, repo)
    ensures SessionFits(session, filter, repo, host)
  {
  }

  /** Setting the venvs up from an empty mapping gives every selected
      distribution the venv its requirement set calls for, and nothing else
      an entry. */
  lemma FirstSetupGivesVenvMapping(dists: seq<Distribution>, repo: Repo, m: map<string, Venv>)
    requires RecordedRequirements(dists, repo)
    requires MappingAfterSetup(map[], dists, m)
    ensures m == VenvMapping(dists, repo)
  {
    var v := VenvMapping(dists, repo);
    forall n | n in m ensures n in v && m[n] == v[n] {
      var i :| 0 <= i < |dists| && dists[i].0 == n;
    }
    assert m.Keys == v.Keys;
  }

  /** The keys of that mapping are the selection's names. */
  lemma VenvMappingKeys(dists: seq<Distribution>, repo: Repo)
    requires RecordedRequirements(dists, repo)
    ensures VenvMapping(dists, repo).Keys == NameSet(dists)
  {
    forall n | Listed(dists, n) ensures n in repo.requirements {
      var i :| 0 <= i < |dists| && dists[i].0 == n;
    }
  }

  /** A mapping whose keys are the selection has an entry for each name. */
  lemma KeysCoverNames(dists: seq<Distribution>, m: map<string, Venv>)
    requires m.Keys == NameSet(dists)
    ensures forall i :: 0 <= i < |dists| ==> dists[i].0 in m
  {
    forall i | 0 <= i < |dists| ensures dists[i].0 in m {
      assert Listed(dists, dists[i].0);
    }
  }

  /** The guarded call of `setup_virtual_environments` for the selection:
      a fresh session gets the mapping the setup makes, any other is kept. */
  method SetupForSelection(session: Session, filter: seq<Path>, repo: Repo, host: Host) returns (next: Session)
    requires Selected(filter, repo, host).Success?
    ensures |session.mapping| > 0 ==> next == session
    ensures |session.mapping| == 0 ==> next.mapping == VenvMapping(Selected(filter, repo, host).value, repo)
  {
    var dists := Selected(filter, repo, host).value;
    SelectedIsDistinct(filter, repo, host);
    var out := SetupOnce(session, dists, host.venvInfoFor, host.mypyReq);
    if |session.mapping| == 0 {
      FirstSetupGivesVenvMapping(dists, repo, out.session.mapping);
    }
    next := out.session;
  }

  /** The test of one distribution in a given venv. */
  function DistributionTest(cfg: TestConfig, repo: Repo, host: Host): (string, Venv) -> Result<TestResults, RunError> {
    (d, v) => TestThirdPartyDistribution(d, cfg, v, repo, host)
  }

  /** The loop of `test_third_party_stubs` as the code writes it: each
      distribution in turn, in its venv, combined into `acc` as it
      finishes; the first error ends the loop. */
  function RunInTurn(acc: TestResults, dists: seq<Distribution>, mapping: map<string, Venv>,
                     run: (string, Venv) -> Result<TestResults, RunError>)
    : Result<TestResults, RunError>
    requires forall i :: 0 <= i < |dists| ==> dists[i].0 in mapping
    decreases |dists|
  {
    if |dists| == 0 then Success(acc)
    else
      assert forall i :: 1 <= i < |dists| ==> dists[i] == dists[1..][i - 1];
      match run(dists[0].0, mapping[dists[0].0])
      case Failure(e) => Failure(e)
      case Success(t) => RunInTurn(Combine(acc, t), dists[1..], mapping, run)
  }

  /** Running every distribution first and folding the results afterwards
      gives what the loop gives, error included. */
  lemma {:induction false} RunInTurnIsFold(acc: TestResults, dists: seq<Distribution>, mapping: map<string, Venv>,
                                           run: (string, Venv) -> Result<TestResults, RunError>)
    requires forall i :: 0 <= i < |dists| ==> dists[i].0 in mapping
    ensures var runs := DistributionRuns(dists, mapping, run);
      && (runs.Success? ==> RunInTurn(acc, dists, mapping, run) == Success(Fold(acc, runs.value)))
      && (runs.Failure? ==> RunInTurn(acc, dists, mapping, run) == Failure(runs.error))
    decreases |dists|
  {
    if |dists| > 0 {
      assert forall i :: 1 <= i < |dists| ==> dists[i] == dists[1..][i - 1];
      var first := run(dists[0].0, mapping[dists[0].0]);
      if first.Success? {
        RunInTurnIsFold(Combine(acc, first.value), dists[1..], mapping, run);
        var rest := DistributionRuns(dists[1..], mapping, run);
        if rest.Success? {
          var runs := [first.value] + rest.value;
          assert DistributionRuns(dists, mapping, run) == Success(runs);
          assert runs[1..] == rest.value;
        }
      }
    }
  }

  /** What the third-party pass computes with the venv mapping `mapping`:
      the keys assertion, then every selected distribution tested in its
      venv, the code the largest seen and the counts added up. */
  function ThirdPartyRuns(code: int, cfg: TestConfig, mapping: map<string, Venv>, repo: Repo, host: Host)
    : Result<TestResults, RunError>
  {
    match Selected(cfg.filter, repo, host)
    case Failure(e) => Failure(e)
    case Success(dists) =>
      if mapping.Keys != NameSet(dists) then Failure(MappingMismatch)
      else
        KeysCoverNames(dists, mapping);
        RunInTurn(TestResults(code, 0), dists, mapping, DistributionTest(cfg, repo, host))
  }

  /** The third-party pass of one version and platform: the runs with the
      mapping that setting the venvs up for the selection makes. */
  function ThirdPartyPass(code: int, cfg: TestConfig, repo: Repo, host: Host): Result<TestResults, RunError> {
    match Selected(cfg.filter, repo, host)
    case Failure(e) => Failure(e)
    case Success(dists) => ThirdPartyRuns(code, cfg, VenvMapping(dists, repo), repo, host)
  }

  /** A pass run from `acc`'s code, as the callers take its result in:
      `code, checked = ...` then `files_checked += checked`. An error
      passes through. */
  function AddPass(acc: TestResults, pass: Result<TestResults, RunError>): Result<TestResults, RunError> {
    match pass
    case Failure(e) => Failure(e)
    case Success(t) => Success(TestResults(t.exitCode, acc.filesChecked + t.filesChecked))
  }

  /** Adding a pass's result is adding the counts its method returned. */
  lemma AddPassOf(acc: TestResults, t: Result<(TestResults, Session), RunError>, pass: Result<TestResults, RunError>)
    requires WithoutSession(t) == pass
    ensures t.Failure? ==> AddPass(acc, pass) == Failure(t.error)
    ensures t.Success? ==> AddPass(acc, pass) == Success(TestResults(t.value.0.exitCode, acc.filesChecked + t.value.0.filesChecked))
  {
  }

  /** A pass's result without the session it leaves behind. */
  function WithoutSession(r: Result<(TestResults, Session), RunError>): Result<TestResults, RunError> {
    match r
    case Success(v) => Success(v.0)
    case Failure(e) => Failure(e)
  }

  /** `test_third_party_stubs`: select, set the venvs up on the first call,
      check the mapping covers exactly the selection, then test each
      distribution in its venv. The code never decreases and a later call
      keeps the session. Whatever the session, a success is the runs with
      the mapping it leaves; from a fitting session the result is the
      third-party pass, and the session left is the one the setup makes. */
  method TestThirdPartyStubs(code: int, cfg: TestConfig, session: Session, repo: Repo, host: Host)
    returns (r: Result<(TestResults, Session), RunError>)
    ensures r.Success? ==> r.value.0.exitCode >= code
    ensures r.Success? && |session.mapping| > 0 ==> r.value.1 == session
    ensures r.Success? ==>
      && Selected(cfg.filter, repo, host).Success?
      && r.value.1.mapping.Keys == NameSet(Selected(cfg.filter, repo, host).value)
    ensures SessionFits(session, cfg.filter, repo, host) ==> WithoutSession(r) == ThirdPartyPass(code, cfg, repo, host)
    ensures r.Success? && SessionFits(session, cfg.filter, repo, host) ==>
      r.value.1.mapping == VenvMapping(Selected(cfg.filter, repo, host).value, repo)
    ensures r.Failure? && SessionFits(session, cfg.filter, repo, host) ==> !r.error.MappingMismatch?
  {
    var sel := Selected(cfg.filter, repo, host);
    if sel.Failure? {
      return Failure(sel.error);
    }
    var dists := sel.value;
    var next := SetupForSelection(session, cfg.filter, repo, host);
    var mapping := next.mapping;
    if SessionFits(session, cfg.filter, repo, host) {
      VenvMappingKeys(dists, repo);
    }
    if mapping.Keys != NameSet(dists) {
      return Failure(MappingMismatch);
    }
    KeysCoverNames(dists, mapping);
    var runs := DistributionRuns(dists, mapping, DistributionTest(cfg, repo, host));
    if runs.Failure? {
      ghost var i :| 0 <= i < |dists| && TestThirdPartyDistribution(dists[i].0, cfg, mapping[dists[i].0], repo, host) == Failure(runs.error);
      RunInTurnIsFold(TestResults(code, 0), dists, mapping, DistributionTest(cfg, repo, host));
      return Failure(runs.error);
    }
    RunInTurnIsFold(TestResults(code, 0), dists, mapping, DistributionTest(cfg, repo, host));
    r := Success((Fold(TestResults(code, 0), runs.value), next));
  }

  // ---------------------------------------------------------------------------
  // One version and platform, and `main`

  /** The stdlib part of `test_typeshed`: TestStdlib when the filter
      reaches `stdlib`, otherwise nothing checked and the code unchanged. */
  function StdlibPass(code: int, cfg: TestConfig, repo: Repo, host: Host): Result<TestResults, RunError> {
    if Reaches(cfg.filter, ["stdlib"]) then TestStdlib(code, cfg, repo, host) else Success(TestResults(code, 0))
  }

  /** The third-party part of `test_typeshed`, after the stdlib part left
      `acc`: when the filter reaches `stubs`, the third-party pass from
      `acc`'s code, its count added to `acc`'s; otherwise `acc`. */
  function StubsPart(acc: TestResults, cfg: TestConfig, repo: Repo, host: Host): Result<TestResults, RunError> {
    if !Reaches(cfg.filter, ["stubs"]) then Success(acc)
    else AddPass(acc, ThirdPartyPass(acc.exitCode, cfg, repo, host))
  }

  /** What `test_typeshed` computes for one version and platform: the
      stdlib part, then the third-party part from what it left. */
  function TypeshedPass(code: int, cfg: TestConfig, repo: Repo, host: Host): Result<TestResults, RunError> {
    match StdlibPass(code, cfg, repo, host)
    case Failure(e) => Failure(e)
    case Success(s) => StubsPart(s, cfg, repo, host)
  }

  /** The second half of `test_typeshed`. From a fitting session the
      result is StubsPart and the session left fits too. */
  method TestStubsPart(acc: TestResults, cfg: TestConfig, session: Session, repo: Repo, host: Host)
    returns (r: Result<(TestResults, Session), RunError>)
    ensures !Reaches(cfg.filter, ["stubs"]) ==> r == Success((acc, session))
    ensures r.Success? ==> r.value.0.exitCode >= acc.exitCode
    ensures SessionFits(session, cfg.filter, repo, host) ==> WithoutSession(r) == StubsPart(acc, cfg, repo, host)
    ensures r.Success? && SessionFits(session, cfg.filter, repo, host) ==> SessionFits(r.value.1, cfg.filter, repo, host)
    ensures r.Failure? && SessionFits(session, cfg.filter, repo, host) ==> !r.error.MappingMismatch?
  {
    if !Reaches(cfg.filter, ["stubs"]) {
      return Success((acc, session));
    }
    var t := TestThirdPartyStubs(acc.exitCode, cfg, session, repo, host);
    if t.Failure? {
      return Failure(t.error);
    }
    if SessionFits(session, cfg.filter, repo, host) {
      SetUpSessionFits(t.value.1, cfg.filter, repo, host);
    }
    r := Success((TestResults(t.value.0.exitCode, acc.filesChecked + t.value.0.filesChecked), t.value.1));
  }

  /** `test_typeshed`: the stdlib pass when the filter reaches `stdlib`,
      then the third-party pass when it reaches `stubs`. From a fitting
      session the result is TypeshedPass and the session left fits too. */
  method TestTypeshed(code: int, cfg: TestConfig, session: Session, repo: Repo, host: Host)
    returns (r: Result<(TestResults, Session), RunError>)
    ensures !Reaches(cfg.filter, ["stdlib"]) && !Reaches(cfg.filter, ["stubs"]) ==>
      r == Success((TestResults(code, 0), session))
    ensures r.Success? ==> r.value.0.exitCode >= code
    ensures r.Success? && !Reaches(cfg.filter, ["stubs"]) ==> r.value.1 == session
    ensures SessionFits(session, cfg.filter, repo, host) ==> WithoutSession(r) == TypeshedPass(code, cfg, repo, host)
    ensures r.Success? && SessionFits(session, cfg.filter, repo, host) ==> SessionFits(r.value.1, cfg.filter, repo, host)
    ensures r.Failure? && SessionFits(session, cfg.filter, repo, host) ==> !r.error.MappingMismatch?
  {
    var first := StdlibPass(code, cfg, repo, host);
    if first.Failure? {
      return Failure(first.error);
    }
    r := TestStubsPart(first.value, cfg, session, repo, host);
  }

  /** The command line: an empty list stands for an option not given. */
  datatype CommandLineArgs = CommandLineArgs(
    verbose: nat,
    filter: seq<Path>,
    exclude: seq<Path>,
    pythonVersions: seq<VersionTuple>,
    platforms: seq<string>)

  /** `given or default`. */
  function OrDefault<T>(given: seq<T>, default: seq<T>): (r: seq<T>)
    ensures |given| > 0 ==> r == given
    ensures |given| == 0 ==> r == default
  {
    if |given| > 0 then given else default
  }

  /** What `main` computes over the version and platform pairs `runs`,
      taken in turn: each pass starts from the code the ones before left,
      the counts add up, and the first error ends the loop. */
  function MainRuns(args: CommandLineArgs, filter: seq<Path>, runs: seq<(VersionTuple, string)>, repo: Repo, host: Host)
    : Result<TestResults, RunError>
    decreases |runs|
  {
    if |runs| == 0 then Success(TestResults(0, 0))
    else
      match MainRuns(args, filter, runs[..|runs| - 1], repo, host)
      case Failure(e) => Failure(e)
      case Success(acc) =>
        var last := runs[|runs| - 1];
        AddPass(acc, TypeshedPass(acc.exitCode, TestConfig(args.verbose, filter, args.exclude, last.0, last.1), repo, host))
  }

  /** One more pass of `main`'s loop. */
  lemma MainRunsStep(args: CommandLineArgs, filter: seq<Path>, runs: seq<(VersionTuple, string)>, i: nat,
                     repo: Repo, host: Host, acc: TestResults)
    requires i < |runs| && MainRuns(args, filter, runs[..i], repo, host) == Success(acc)
    ensures MainRuns(args, filter, runs[..i + 1], repo, host) ==
      AddPass(acc, TypeshedPass(acc.exitCode, TestConfig(args.verbose, filter, args.exclude, runs[i].0, runs[i].1), repo, host))
  {
    assert runs[..i + 1][..i] == runs[..i];
  }

  /** An error in the first `k` passes is the error of them all. */
  lemma {:induction false} MainRunsStopAtError(args: CommandLineArgs, filter: seq<Path>, runs: seq<(VersionTuple, string)>,
                                               k: nat, repo: Repo, host: Host)
    requires k <= |runs|
    requires MainRuns(args, filter, runs[..k], repo, host).Failure?
    ensures MainRuns(args, filter, runs, repo, host) == MainRuns(args, filter, runs[..k], repo, host)
    decreases |runs|
  {
    if k < |runs| {
      var init := runs[..|runs| - 1];
      assert init[..k] == runs[..k];
      MainRunsStopAtError(args, filter, init, k, repo, host);
    } else {
      assert runs[..k] == runs;
    }
  }

  /** One turn of `main`'s loop: `test_typeshed` for the i-th version and
      platform, its counts added to those so far. */
  method RunOne(args: CommandLineArgs, filter: seq<Path>, runs: seq<(VersionTuple, string)>, i: nat,
                acc: TestResults, session: Session, repo: Repo, host: Host)
    returns (r: Result<(TestResults, Session), RunError>)
    requires i < |runs| && acc.exitCode >= 0 && SessionFits(session, filter, repo, host)
    requires MainRuns(args, filter, runs[..i], repo, host) == Success(acc)
    ensures r.Failure? ==> MainRuns(args, filter, runs[..i + 1], repo, host) == Failure(r.error)
    ensures r.Failure? ==> !r.error.MappingMismatch?
    ensures r.Success? ==> MainRuns(args, filter, runs[..i + 1], repo, host) == Success(r.value.0)
    ensures r.Success? ==> r.value.0.exitCode >= acc.exitCode && SessionFits(r.value.1, filter, repo, host)
  {
    var cfg := TestConfig(args.verbose, filter, args.exclude, runs[i].0, runs[i].1);
    var t := TestTypeshed(acc.exitCode, cfg, session, repo, host);
    MainRunsStep(args, filter, runs, i, repo, host, acc);
    AddPassOf(acc, t, TypeshedPass(acc.exitCode, cfg, repo, host));
    if t.Failure? {
      return Failure(t.error);
    }
    r := Success((TestResults(t.value.0.exitCode, acc.filesChecked + t.value.0.filesChecked), t.value.1));
  }

  /** `main`: every version and platform in turn, one session for all of
      them. The outcome is MainRuns over the product of the versions and
      platforms asked for (or their defaults); an error ends the process
      with status 1, otherwise the status is the largest exit code, or 1
      when no file was checked. The largest code is never negative, and the
      venv mapping's keys check never fails, because every run selects the
      same distributions. */
  method RunMain(args: CommandLineArgs, repo: Repo, host: Host) returns (status: int, outcome: Result<TestResults, RunError>)
    ensures outcome == MainRuns(args, OrDefault(args.filter, DirectoriesToTest),
      Product(OrDefault(args.pythonVersions, SupportedVersions), OrDefault(args.platforms, [host.sysPlatform])), repo, host)
    ensures outcome.Failure? ==> status == 1
    ensures outcome.Success? ==> status == ExitStatus(outcome.value.exitCode, outcome.value.filesChecked)
    ensures outcome.Success? ==> outcome.value.exitCode >= 0
    ensures outcome.Failure? ==> !outcome.error.MappingMismatch?
    ensures status == 0 <==> outcome.Success? && outcome.value.exitCode == 0 && outcome.value.filesChecked > 0
  {
    var versions := OrDefault(args.pythonVersions, SupportedVersions);
    var platforms := OrDefault(args.platforms, [host.sysPlatform]);
    var filter := OrDefault(args.filter, DirectoriesToTest);
    var runs := Product(versions, platforms);
    var code := 0;
    var total: nat := 0;
    var session := Session(map[]);
    var i := 0;
    assert runs[..0] == [];
    while i < |runs|
      invariant 0 <= i <= |runs|
      invariant code >= 0
      invariant SessionFits(session, filter, repo, host)
      invariant MainRuns(args, filter, runs[..i], repo, host) == Success(TestResults(code, total))
    {
      var r := RunOne(args, filter, runs, i, TestResults(code, total), session, repo, host);
      if r.Failure? {
        MainRunsStopAtError(args, filter, runs, i + 1, repo, host);
        return 1, Failure(r.error);
      }
      code := r.value.0.exitCode;
      total := r.value.0.filesChecked;
      session := r.value.1;
      i := i + 1;
    }
    assert runs[..i] == runs;
    outcome := Success(TestResults(code, total));
    status := ExitStatus(code, total);
  }
}
