/** `check_metadata`: the rules a distribution's decoded `METADATA.toml`
    must satisfy. Each rule is an `assert` or a call that raises, checked in
    source order; the first one broken is the reason given. Version and
    requirement parsing (`packaging`) and `METADATA_MAPPING` are
    parameters. */
module Metadata {
  import opened Wrappers
  import opened Strings
  import opened Toml
  import opened DistNames

  /** `metadata_keys`. */
  const MetadataKeys: set<string> := {
    "version", "requires", "extra_description", "stub_distribution",
    "obsolete_since", "no_longer_updated", "upload", "tool" }

  /** `tool_keys["stubtest"]`. */
  const StubtestKeys: set<string> := {
    "skip", "apt_dependencies", "brew_dependencies", "choco_dependencies",
    "extras", "ignore_missing_stub", "platforms" }

  /** `supported_stubtest_platforms`. The source iterates a set, whose
      order depends on the string-hash seed; the model visits this order,
      and OnlyOffenderReported states what holds in every order. */
  const SupportedPlatforms: seq<string> := ["darwin", "linux", "win32"]

  /** The helpers `check_metadata` calls that are not part of this model:
      whether `packaging` parses a version or a requirement, and
      `METADATA_MAPPING`, the stubtest key listing a platform's system
      dependencies. */
  datatype Parsers = Parsers(versionParses: string -> bool, requirementParses: string -> bool,
                             systemDepsKey: string -> string)

  /** One constructor per check, in source order. */
  datatype MetadataError =
    | MissingVersion
    | UnsupportedVersion                      // `version` is not a string
    | InvalidVersion(version: string)         // `Version(...)` raises
    | UnexpectedKey(key: string)
    | InvalidRequires                         // `requires` is not a list
    | InvalidRequirement                      // an element is not a string
    | RequirementWhitespace(requirement: string)
    | BadRequirement(requirement: string)     // `Requirement(...)` raises
    | InvalidStubDistribution
    | InvalidUpload
    | UnrecognisedTool
    | ToolNotTable                            // `.get` on a `tool` that is not a table
    | UnrecognisedStubtestKey
    | StubtestNotTable                        // `.get` on a `stubtest` that is not a table
    | UnrecognisedPlatforms
    | SystemDepsForUnspecifiedPlatform(platform: string)

  /** `s.removesuffix(suffix)`. */
  function RemoveSuffix(s: string, suffix: string): (r: string)
    ensures |suffix| > 0 && EndsWith(s, suffix) ==> r + suffix == s
    ensures !(|suffix| > 0 && EndsWith(s, suffix)) ==> r == s
  {
    if |suffix| > 0 && EndsWith(s, suffix) then
      assert s == s[..|s| - |suffix|] + s[|s| - |suffix|..];
      s[..|s| - |suffix|]
    else s
  }

  // ---------------------------------------------------------------------------
  // What a valid record is

  /** One element of `requires`: a string with no space, tab or newline
      that `packaging` accepts. */
  predicate RequirementOk(dep: Value, p: Parsers) {
    dep.TStr? && ' ' !in dep.s && '\t' !in dep.s && '\n' !in dep.s && p.requirementParses(dep.s)
  }

  /** The names in `set(items)` when every item is a string. */
  function StringSet(items: seq<Value>): set<string> {
    set i | 0 <= i < |items| && items[i].TStr? :: items[i].s
  }

  /** The platform rules for a `stubtest` table: the platforms (default
      `["linux"]`) iterate to supported platform names, and no unspecified
      platform has its system-dependency key set. */
  predicate PlatformsOk(st: Table, p: Parsers) {
    var platforms := Iterate(GetOr(st, "platforms", TArray([TStr("linux")])));
    && platforms.Some?
    && (forall i :: 0 <= i < |platforms.value| ==>
          platforms.value[i].TStr? && platforms.value[i].s in SupportedPlatforms)
    && forall plat :: plat in SupportedPlatforms && plat !in StringSet(platforms.value) ==>
          !HasKey(st, p.systemDepsKey(plat))
  }

  /** `[tool.stubtest]`: a table of known keys whose platforms are valid. */
  predicate StubtestOk(st: Value, p: Parsers) {
    && st.TTable?
    && (forall i :: 0 <= i < |st.entries| ==> st.entries[i].0 in StubtestKeys)
    && PlatformsOk(st.entries, p)
  }

  /** A valid metadata record. */
  predicate ValidMetadata(data: Table, p: Parsers) {
    && HasKey(data, "version")
    && GetOr(data, "version", TInt(0)).TStr?
    && p.versionParses(RemoveSuffix(GetOr(data, "version", TInt(0)).s, ".*"))
    && (forall i :: 0 <= i < |data| ==> data[i].0 in MetadataKeys)
    && GetOr(data, "requires", TArray([])).TArray?
    && (forall i :: 0 <= i < |GetOr(data, "requires", TArray([])).items| ==>
          RequirementOk(GetOr(data, "requires", TArray([])).items[i], p))
    && (HasKey(data, "stub_distribution") ==>
          GetOr(data, "stub_distribution", TInt(0)).TStr? && ValidDistName(GetOr(data, "stub_distribution", TInt(0)).s))
    && GetOr(data, "upload", TBool(true)).TBool?
    && (HasKey(data, "tool") ==>
          && GetOr(data, "tool", TInt(0)).TTable?
          && (forall i :: 0 <= i < |GetOr(data, "tool", TInt(0)).entries| ==>
                GetOr(data, "tool", TInt(0)).entries[i].0 == "stubtest")
          && StubtestOk(GetOr(GetOr(data, "tool", TInt(0)).entries, "stubtest", TTable([])), p))
  }

  // ---------------------------------------------------------------------------
  // The checks, in source order

  /** `for key in data: assert key in metadata_keys`. */
  function CheckKeys(t: Table, allowed: set<string>): (r: Option<string>)
    ensures r.None? <==> forall i :: 0 <= i < |t| ==> t[i].0 in allowed
    ensures r.Some? ==> r.value !in allowed && exists i :: 0 <= i < |t| && t[i].0 == r.value
    decreases |t|
  {
    if |t| == 0 then None
    else if t[0].0 !in allowed then Some(t[0].0)
    else
      var r := CheckKeys(t[1..], allowed);
      assert forall i :: 1 <= i < |t| ==> t[i] == t[1..][i - 1];
      r
  }

  /** The checks of one requirement: a string, then no space, tab or
      newline (in that order), then it parses. */
  function CheckRequirement(dep: Value, p: Parsers): (r: Outcome<MetadataError>)
    ensures r.Pass? <==> RequirementOk(dep, p)
  {
    if !dep.TStr? then Fail(InvalidRequirement)
    else if ' ' in dep.s then Fail(RequirementWhitespace(dep.s))
    else if '\t' in dep.s then Fail(RequirementWhitespace(dep.s))
    else if '\n' in dep.s then Fail(RequirementWhitespace(dep.s))
    else if !p.requirementParses(dep.s) then Fail(BadRequirement(dep.s))
    else Pass
  }

  /** The loop over `requires`: the first bad element stops it. */
  function CheckRequirements(deps: seq<Value>, p: Parsers): (r: Outcome<MetadataError>)
    ensures r.Pass? <==> forall i :: 0 <= i < |deps| ==> RequirementOk(deps[i], p)
    ensures r.Fail? ==> exists i :: 0 <= i < |deps| && CheckRequirement(deps[i], p) == r
    decreases |deps|
  {
    if |deps| == 0 then Pass
    else
      assert forall i :: 1 <= i < |deps| ==> deps[i] == deps[1..][i - 1];
      match CheckRequirement(deps[0], p)
      case Fail(e) => Fail(e)
      case Pass => CheckRequirements(deps[1..], p)
  }

  /** `set(data.get("tool", []))` iterates `tool` and hashes its items;
      the subset test then needs every item to be `"stubtest"`. */
  predicate ToolNamesKnown(tool: Value) {
    var items := Iterate(tool);
    items.Some? && forall i :: 0 <= i < |items.value| ==> items.value[i] == TStr("stubtest")
  }

  /** `for key in tool_stubtest: assert key in tk`: iterating must work and
      every item must be a known key. */
  predicate StubtestKeysKnown(st: Value) {
    var items := Iterate(st);
    items.Some? && forall i :: 0 <= i < |items.value| ==> items.value[i].TStr? && items.value[i].s in StubtestKeys
  }

  /** The loop over the supported platforms: an unspecified platform must
      not list system dependencies. */
  function CheckSystemDeps(plats: seq<string>, specified: set<string>, st: Table, p: Parsers)
    : (r: Outcome<MetadataError>)
    ensures r.Pass? <==> forall i :: 0 <= i < |plats| && plats[i] !in specified ==> !HasKey(st, p.systemDepsKey(plats[i]))
    ensures r.Fail? ==> exists i :: 0 <= i < |plats| && plats[i] !in specified && HasKey(st, p.systemDepsKey(plats[i]))
                                   && r == Fail(SystemDepsForUnspecifiedPlatform(plats[i]))
    decreases |plats|
  {
    if |plats| == 0 then Pass
    else
      assert forall i :: 1 <= i < |plats| ==> plats[i] == plats[1..][i - 1];
      if plats[0] !in specified && HasKey(st, p.systemDepsKey(plats[0])) then
        Fail(SystemDepsForUnspecifiedPlatform(plats[0]))
      else CheckSystemDeps(plats[1..], specified, st, p)
  }

  /** The stubtest part: known keys, a table, supported platforms, and no
      system dependencies for an unspecified platform. */
  function CheckStubtest(st: Value, p: Parsers): (r: Outcome<MetadataError>)
    ensures r.Pass? <==> StubtestOk(st, p)
  {
    if !StubtestKeysKnown(st) then Fail(UnrecognisedStubtestKey)
    else if !st.TTable? then Fail(StubtestNotTable)
    else
      var platforms := Iterate(GetOr(st.entries, "platforms", TArray([TStr("linux")])));
      if platforms.None? then Fail(UnrecognisedPlatforms)
      else if exists i :: 0 <= i < |platforms.value| && !(platforms.value[i].TStr? && platforms.value[i].s in SupportedPlatforms)
      then Fail(UnrecognisedPlatforms)
      else
        assert forall i :: 0 <= i < |st.entries| ==> st.entries[i].0 in StubtestKeys by {
          var items := Iterate(st).value;
          forall i | 0 <= i < |st.entries| ensures st.entries[i].0 in StubtestKeys {
            assert items[i] == TStr(st.entries[i].0);
          }
        }
        CheckSystemDeps(SupportedPlatforms, StringSet(platforms.value), st.entries, p)
  }

  /** The tool part: `tool` names only `stubtest` and is a table, and its
      stubtest section passes. A missing `tool` is an empty table. */
  function CheckTool(data: Table, p: Parsers): (r: Outcome<MetadataError>)
    ensures r.Pass? <==>
      (HasKey(data, "tool") ==>
        && GetOr(data, "tool", TInt(0)).TTable?
        && (forall i :: 0 <= i < |GetOr(data, "tool", TInt(0)).entries| ==>
              GetOr(data, "tool", TInt(0)).entries[i].0 == "stubtest")
        && StubtestOk(GetOr(GetOr(data, "tool", TInt(0)).entries, "stubtest", TTable([])), p))
  {
    match Get(data, "tool")
    case None => CheckStubtest(TTable([]), p)
    case Some(tool) =>
      if !ToolNamesKnown(tool) then Fail(UnrecognisedTool)
      else if !tool.TTable? then Fail(ToolNotTable)
      else
        assert forall i :: 0 <= i < |tool.entries| ==> tool.entries[i].0 == "stubtest" by {
          var items := Iterate(tool).value;
          forall i | 0 <= i < |tool.entries| ensures tool.entries[i].0 == "stubtest" {
            assert items[i] == TStr(tool.entries[i].0);
          }
        }
        CheckStubtest(GetOr(tool.entries, "stubtest", TTable([])), p)
  }

  /** The checks after the version: keys, `requires`, `stub_distribution`,
      `upload` and `tool`, in that order. */
  function CheckFields(data: Table, p: Parsers): (r: Outcome<MetadataError>)
    ensures r.Pass? <==>
      && (forall i :: 0 <= i < |data| ==> data[i].0 in MetadataKeys)
      && GetOr(data, "requires", TArray([])).TArray?
      && (forall i :: 0 <= i < |GetOr(data, "requires", TArray([])).items| ==>
            RequirementOk(GetOr(data, "requires", TArray([])).items[i], p))
      && (HasKey(data, "stub_distribution") ==>
            GetOr(data, "stub_distribution", TInt(0)).TStr? && ValidDistName(GetOr(data, "stub_distribution", TInt(0)).s))
      && GetOr(data, "upload", TBool(true)).TBool?
      && CheckTool(data, p).Pass?
  {
    match CheckKeys(data, MetadataKeys)
    case Some(key) => Fail(UnexpectedKey(key))
    case None =>
      var reqs := GetOr(data, "requires", TArray([]));
      if !reqs.TArray? then Fail(InvalidRequires)
      else
        match CheckRequirements(reqs.items, p)
        case Fail(e) => Fail(e)
        case Pass =>
          var stubDistribution := GetOr(data, "stub_distribution", TInt(0));
          if HasKey(data, "stub_distribution") && !(stubDistribution.TStr? && DistNameReFullmatch(stubDistribution.s))
          then Fail(InvalidStubDistribution)
          else if !GetOr(data, "upload", TBool(true)).TBool? then Fail(InvalidUpload)
          else CheckTool(data, p)
  }

  /** `check_metadata` for one distribution. */
  function CheckMetadata(data: Table, p: Parsers): (r: Outcome<MetadataError>)
    ensures !HasKey(data, "version") ==> r == Fail(MissingVersion)
    ensures HasKey(data, "version") && !GetOr(data, "version", TInt(0)).TStr? ==> r == Fail(UnsupportedVersion)
  {
    match Get(data, "version")
    case None => Fail(MissingVersion)
    case Some(version) =>
      if !version.TStr? then Fail(UnsupportedVersion)
      else if !p.versionParses(RemoveSuffix(version.s, ".*")) then Fail(InvalidVersion(version.s))
      else CheckFields(data, p)
  }

  /** The checks pass exactly on valid records. */
  lemma CheckMetadataAcceptsValid(data: Table, p: Parsers)
    ensures CheckMetadata(data, p).Pass? <==> ValidMetadata(data, p)
  {
    var _ := CheckFields(data, p);
    var _ := CheckTool(data, p);
  }

  /** Why a distribution in `stubs` fails: its `METADATA.toml` cannot be
      opened, or its record breaks a rule. */
  datatype DistributionError =
    | NoMetadataFile(distribution: string)
    | BadMetadata(distribution: string, error: MetadataError)

  /** The loop of `check_metadata` over the directories of `stubs`, given
      as a listing and the decoded records found, for any per-record check:
      the first failure stops it, and names the distribution and why. */
  function CheckEach(dists: seq<string>, records: map<string, Table>, check: Table -> Outcome<MetadataError>)
    : (r: Outcome<DistributionError>)
    ensures r.Pass? <==> forall i :: 0 <= i < |dists| ==> dists[i] in records && check(records[dists[i]]).Pass?
    ensures r.Fail? ==> exists i :: FailsAt(dists, records, check, i, r.error)
    decreases |dists|
  {
    if |dists| == 0 then Pass
    else if dists[0] !in records then
      assert FailsAt(dists, records, check, 0, NoMetadataFile(dists[0]));
      Fail(NoMetadataFile(dists[0]))
    else
      var c := check(records[dists[0]]);
      if c.Fail? then
        assert FailsAt(dists, records, check, 0, BadMetadata(dists[0], c.error));
        Fail(BadMetadata(dists[0], c.error))
      else
        var r := CheckEach(dists[1..], records, check);
        assert forall i :: 1 <= i < |dists| ==> dists[i] == dists[1..][i - 1];
        assert r.Fail? ==> exists i :: FailsAt(dists, records, check, i, r.error) by {
          if r.Fail? {
            var i :| FailsAt(dists[1..], records, check, i, r.error);
            assert FailsAt(dists, records, check, i + 1, r.error);
          }
        }
        r
  }

  /** The failure names the `i`-th distribution: its record is missing, or
      it breaks a rule. */
  predicate FailsAt(dists: seq<string>, records: map<string, Table>, check: Table -> Outcome<MetadataError>,
                    i: int, e: DistributionError) {
    && 0 <= i < |dists|
    && e.distribution == dists[i]
    && (if dists[i] in records then e.BadMetadata? && check(records[dists[i]]) == Fail(e.error)
        else e == NoMetadataFile(dists[i]))
  }

  /** `check_metadata` over every distribution. */
  function CheckAllMetadata(dists: seq<string>, records: map<string, Table>, p: Parsers)
    : (r: Outcome<DistributionError>)
    ensures r.Pass? <==> forall i :: 0 <= i < |dists| ==>
      dists[i] in records && CheckMetadata(records[dists[i]], p).Pass?
    ensures r.Fail? ==> exists i ::
      && 0 <= i < |dists|
      && r.error.distribution == dists[i]
      && (if dists[i] in records then r.error.BadMetadata? && CheckMetadata(records[dists[i]], p) == Fail(r.error.error)
          else r.error == NoMetadataFile(dists[i]))
  {
    var check := t => CheckMetadata(t, p);
    var r := CheckEach(dists, records, check);
    if r.Fail? then
      var i :| FailsAt(dists, records, check, i, r.error);
      assert dists[i] in records ==> check(records[dists[i]]) == CheckMetadata(records[dists[i]], p);
      r
    else r
  }

  /** The loop passes exactly when every distribution has a valid record. */
  lemma CheckAllMetadataAcceptsValid(dists: seq<string>, records: map<string, Table>, p: Parsers)
    ensures CheckAllMetadata(dists, records, p).Pass? <==>
      forall i :: 0 <= i < |dists| ==> dists[i] in records && ValidMetadata(records[dists[i]], p)
  {
    forall d | d in records {
      CheckMetadataAcceptsValid(records[d], p);
    }
  }

  // ---------------------------------------------------------------------------
  // Examples, with the mapping of the repository's helper module

  /** Parsers that accept the version `1.2` and any requirement, with
      `METADATA_MAPPING` as the repository defines it. */
  function ExampleParsers(): Parsers {
    Parsers(v => v == "1.2", r => true,
      plat => if plat == "linux" then "apt_dependencies"
              else if plat == "darwin" then "brew_dependencies"
              else "choco_dependencies")
  }

  /** A record whose version parses goes on to the field checks. */
  lemma VersionAccepted(data: Table, p: Parsers, version: string)
    requires Get(data, "version") == Some(TStr(version))
    requires p.versionParses(RemoveSuffix(version, ".*"))
    ensures CheckMetadata(data, p) == CheckFields(data, p)
  {
  }

  /** A record of known keys without `requires`, `stub_distribution` and
      `upload` is decided by its `tool` table. */
  lemma OnlyToolDecides(data: Table, p: Parsers)
    requires forall i :: 0 <= i < |data| ==> data[i].0 in MetadataKeys
    requires !HasKey(data, "requires") && !HasKey(data, "stub_distribution") && !HasKey(data, "upload")
    ensures CheckFields(data, p) == CheckTool(data, p)
  {
  }

  /** A `tool` table holding only a `stubtest` table is decided by it. */
  lemma StubtestDecides(data: Table, p: Parsers, st: Value)
    requires Get(data, "tool") == Some(TTable([("stubtest", st)]))
    ensures CheckTool(data, p) == CheckStubtest(st, p)
  {
    var tool := TTable([("stubtest", st)]);
    assert ToolNamesKnown(tool);
    assert GetOr(tool.entries, "stubtest", TTable([])) == st;
  }

  /** A stubtest table of known keys whose platforms are all supported is
      decided by the system-dependency loop. */
  lemma PlatformsDecide(st: Value, p: Parsers, platforms: seq<Value>)
    requires StubtestKeysKnown(st) && st.TTable?
    requires Iterate(GetOr(st.entries, "platforms", TArray([TStr("linux")]))) == Some(platforms)
    requires forall i :: 0 <= i < |platforms| ==> platforms[i].TStr? && platforms[i].s in SupportedPlatforms
    ensures CheckStubtest(st, p) == CheckSystemDeps(SupportedPlatforms, StringSet(platforms), st.entries, p)
  {
  }

  /** Whatever order the platforms are visited in, an unspecified platform
      with dependencies is the one reported when it is the only one. */
  lemma OnlyOffenderReported(plats: seq<string>, platform: string, specified: set<string>, st: Table, p: Parsers)
    requires platform in plats && platform !in specified && HasKey(st, p.systemDepsKey(platform))
    requires forall i :: 0 <= i < |plats| && plats[i] != platform && plats[i] !in specified ==>
      !HasKey(st, p.systemDepsKey(plats[i]))
    ensures CheckSystemDeps(plats, specified, st, p) == Fail(SystemDepsForUnspecifiedPlatform(platform))
  {
    var k :| 0 <= k < |plats| && plats[k] == platform;
    var r := CheckSystemDeps(plats, specified, st, p);
    assert !r.Pass?;
  }

  /** A record with only a wildcard version is valid. */
  lemma MinimalRecordIsValid()
    ensures CheckMetadata([("version", TStr("1.2.*"))], ExampleParsers()) == Pass
  {
    var data := [("version", TStr("1.2.*"))];
    assert RemoveSuffix("1.2.*", ".*") == "1.2";
    VersionAccepted(data, ExampleParsers(), "1.2.*");
  }

  /** A key outside the eight allowed ones is rejected. */
  lemma UnknownKeyRejected()
    ensures CheckMetadata([("version", TStr("1.2")), ("homepage", TStr("x"))], ExampleParsers())
      == Fail(UnexpectedKey("homepage"))
  {
    var data := [("version", TStr("1.2")), ("homepage", TStr("x"))];
    assert RemoveSuffix("1.2", ".*") == "1.2";
    VersionAccepted(data, ExampleParsers(), "1.2");
    assert CheckKeys(data, MetadataKeys) == Some("homepage") by {
      assert "homepage" !in MetadataKeys;
      assert CheckKeys(data[1..], MetadataKeys) == Some("homepage");
    }
  }

  /** A record with version `1.2` and a `tool` table holding only a
      `stubtest` section is decided by that section. */
  lemma StubtestOnlyRecordDecided(st: Value)
    ensures CheckMetadata([("version", TStr("1.2")), ("tool", TTable([("stubtest", st)]))], ExampleParsers())
      == CheckStubtest(st, ExampleParsers())
  {
    var p := ExampleParsers();
    var data := [("version", TStr("1.2")), ("tool", TTable([("stubtest", st)]))];
    assert RemoveSuffix("1.2", ".*") == "1.2";
    VersionAccepted(data, p, "1.2");
    OnlyToolDecides(data, p);
    StubtestDecides(data, p, st);
  }

  /** A stubtest section naming an unsupported platform fails. */
  lemma UnknownPlatformStubtest()
    ensures CheckStubtest(TTable([("platforms", TArray([TStr("plan9")]))]), ExampleParsers()) == Fail(UnrecognisedPlatforms)
  {
    var st := [("platforms", TArray([TStr("plan9")]))];
    KnownStubtestKeys(st);
    assert GetOr(st, "platforms", TArray([TStr("linux")])) == TArray([TStr("plan9")]);
    var platforms := Iterate(TArray([TStr("plan9")]));
    assert platforms == Some([TStr("plan9")]);
    assert "plan9" != SupportedPlatforms[0] && "plan9" != SupportedPlatforms[1] && "plan9" != SupportedPlatforms[2];
    assert !(platforms.value[0].TStr? && platforms.value[0].s in SupportedPlatforms);
  }

  /** A platform outside `win32`, `darwin` and `linux` is rejected. */
  lemma UnknownPlatformRejected()
    ensures var st := TTable([("platforms", TArray([TStr("plan9")]))]);
      CheckMetadata([("version", TStr("1.2")), ("tool", TTable([("stubtest", st)]))], ExampleParsers())
        == Fail(UnrecognisedPlatforms)
  {
    UnknownPlatformStubtest();
    StubtestOnlyRecordDecided(TTable([("platforms", TArray([TStr("plan9")]))]));
  }

  /** A stubtest table whose keys are all known passes the key check. */
  lemma KnownStubtestKeys(st: Table)
    requires forall i :: 0 <= i < |st| ==> st[i].0 in StubtestKeys
    ensures StubtestKeysKnown(TTable(st))
  {
    var items := Iterate(TTable(st)).value;
    assert forall i :: 0 <= i < |items| ==> items[i] == TStr(st[i].0);
  }

  /** A stubtest section with Homebrew dependencies and the default
      platforms fails for darwin. */
  lemma UnspecifiedPlatformStubtest()
    ensures CheckStubtest(TTable([("brew_dependencies", TArray([TStr("foo")]))]), ExampleParsers())
      == Fail(SystemDepsForUnspecifiedPlatform("darwin"))
  {
    var p := ExampleParsers();
    var st := [("brew_dependencies", TArray([TStr("foo")]))];
    KnownStubtestKeys(st);
    var platforms := [TStr("linux")];
    assert !HasKey(st, "platforms") by {
      assert st[0].0 != "platforms" by { assert st[0].0[0] != "platforms"[0]; }
    }
    assert platforms[0].s == SupportedPlatforms[1];
    PlatformsDecide(TTable(st), p, platforms);
    assert "darwin" !in StringSet(platforms);
    assert st[0].0 == p.systemDepsKey("darwin");
    assert !HasKey(st, "apt_dependencies") by { assert st[0].0[0] != "apt_dependencies"[0]; }
    assert !HasKey(st, "choco_dependencies") by { assert st[0].0[0] != "choco_dependencies"[0]; }
    OnlyOffenderReported(SupportedPlatforms, "darwin", StringSet(platforms), st, p);
  }

  /** With the default platforms, Homebrew dependencies are refused: darwin
      is not specified. */
  lemma UnspecifiedPlatformDepsRejected()
    ensures var st := TTable([("brew_dependencies", TArray([TStr("foo")]))]);
      CheckMetadata([("version", TStr("1.2")), ("tool", TTable([("stubtest", st)]))], ExampleParsers())
        == Fail(SystemDepsForUnspecifiedPlatform("darwin"))
  {
    UnspecifiedPlatformStubtest();
    StubtestOnlyRecordDecided(TTable([("brew_dependencies", TArray([TStr("foo")]))]));
  }

  /** `requires` must be a list, and its elements must not hold spaces. */
  lemma RequiresShapeEnforced()
    ensures CheckMetadata([("version", TStr("1.2")), ("requires", TStr("six"))], ExampleParsers())
      == Fail(InvalidRequires)
    ensures CheckMetadata([("version", TStr("1.2")), ("requires", TArray([TStr("six >= 1")]))], ExampleParsers())
      == Fail(RequirementWhitespace("six >= 1"))
  {
    assert RemoveSuffix("1.2", ".*") == "1.2";
    VersionAccepted([("version", TStr("1.2")), ("requires", TStr("six"))], ExampleParsers(), "1.2");
    VersionAccepted([("version", TStr("1.2")), ("requires", TArray([TStr("six >= 1")]))], ExampleParsers(), "1.2");
    assert "six >= 1"[3] == ' ';
  }
}
