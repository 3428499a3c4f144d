/** `setup_virtual_environments`: group the selected distributions by their
    set of external (non-types) requirements, give the ones without any the
    host interpreter, make one venv per distinct non-empty set, and record
    which venv each distribution is tested in. The session-wide
    `_DISTRIBUTION_TO_VENV_MAPPING` is the explicit `Session` value. */
module Venvs {
  import opened Wrappers
  import opened Orders
  import opened Commands

  /** `PackageDependencies`: what `get_recursive_requirements` reports. */
  datatype PackageDependencies = PackageDependencies(typeshedPkgs: seq<string>, externalPkgs: seq<string>)

  /** A virtual environment, identified by what it was made for: the host
      interpreter, or the venv made for one requirement set. */
  datatype Venv = HostVenv | IsolatedVenv(requirements: set<string>)

  /** `VenvInfo`: the executables of a venv. */
  datatype VenvInfo = VenvInfo(pipExe: string, pythonExe: string)

  /** The state that outlives one call of `test_third_party_stubs`. */
  datatype Session = Session(mapping: map<string, Venv>)

  /** An item of `distributions_to_check`. */
  type Distribution = (string, PackageDependencies)

  /** Dictionary keys: no name twice. */
  predicate DistinctNames(dists: seq<Distribution>) {
    forall i, j :: 0 <= i < j < |dists| ==> dists[i].0 != dists[j].0
  }

  predicate Listed(dists: seq<Distribution>, n: string) {
    exists i :: 0 <= i < |dists| && dists[i].0 == n
  }

  /** The venv a distribution is meant to be tested in: the host when it has
      no external requirements, otherwise the venv of its requirement set. */
  function VenvFor(deps: PackageDependencies): Venv {
    if |deps.externalPkgs| == 0 then HostVenv else IsolatedVenv(Elems(deps.externalPkgs))
  }

  /** Two distributions share a venv exactly when their requirement sets are
      equal, whatever order or repetitions the lists have. */
  lemma SameVenvIffSameRequirements(a: PackageDependencies, b: PackageDependencies)
    ensures VenvFor(a) == VenvFor(b) <==> Elems(a.externalPkgs) == Elems(b.externalPkgs)
  {
    ElemsEmpty(a.externalPkgs);
    ElemsEmpty(b.externalPkgs);
  }

  // ---------------------------------------------------------------------------
  // Stage 1, stated over the whole input: who gets the host, which sets
  // exist, who shares each set.

  /** The distributions without external requirements, in order. */
  function HostsOf(dists: seq<Distribution>): (r: seq<string>)
    ensures forall n :: n in r <==> exists i :: 0 <= i < |dists| && dists[i].0 == n && |dists[i].1.externalPkgs| == 0
    decreases |dists|
  {
    if |dists| == 0 then []
    else
      var init := dists[..|dists| - 1];
      var d := dists[|dists| - 1];
      assert forall i :: 0 <= i < |init| ==> init[i] == dists[i];
      HostsOf(init) + (if |d.1.externalPkgs| == 0 then [d.0] else [])
  }

  /** The distributions whose requirement set is `key`, in order. */
  function MembersOf(dists: seq<Distribution>, key: set<string>): (r: seq<string>)
    ensures forall n :: n in r <==>
      exists i :: 0 <= i < |dists| && dists[i].0 == n && |dists[i].1.externalPkgs| > 0 && Elems(dists[i].1.externalPkgs) == key
    decreases |dists|
  {
    if |dists| == 0 then []
    else
      var init := dists[..|dists| - 1];
      var d := dists[|dists| - 1];
      assert forall i :: 0 <= i < |init| ==> init[i] == dists[i];
      MembersOf(init, key) + (if |d.1.externalPkgs| > 0 && Elems(d.1.externalPkgs) == key then [d.0] else [])
  }

  /** The distinct non-empty requirement sets, in order of first appearance:
      the keys of `external_requirements_to_distributions`. */
  function RequirementKeys(dists: seq<Distribution>): (r: seq<set<string>>)
    ensures forall j, k :: 0 <= j < k < |r| ==> r[j] != r[k]
    ensures forall key :: key in r <==>
      exists i :: 0 <= i < |dists| && |dists[i].1.externalPkgs| > 0 && Elems(dists[i].1.externalPkgs) == key
    decreases |dists|
  {
    if |dists| == 0 then []
    else
      var init := dists[..|dists| - 1];
      var d := dists[|dists| - 1];
      assert forall i :: 0 <= i < |init| ==> init[i] == dists[i];
      var prev := RequirementKeys(init);
      if |d.1.externalPkgs| > 0 && Elems(d.1.externalPkgs) !in prev then prev + [Elems(d.1.externalPkgs)] else prev
  }

  // ---------------------------------------------------------------------------
  // Stage 1 as the loop runs it.

  /** A list of `external_requirements_to_distributions`: a requirement set,
      the requirement list it was first built from (what `sorted()` is
      applied to), and the distributions that need it. */
  datatype RequirementGroup = RequirementGroup(requirements: set<string>, listed: seq<string>, members: seq<string>)

  datatype Grouping = Grouping(hosts: seq<string>, groups: seq<RequirementGroup>, withExternal: nat)

  function KeysOf(groups: seq<RequirementGroup>): (r: seq<set<string>>)
    ensures |r| == |groups| && forall j :: 0 <= j < |groups| ==> r[j] == groups[j].requirements
  {
    seq(|groups|, j requires 0 <= j < |groups| => groups[j].requirements)
  }

  predicate DistinctKeys(keys: seq<set<string>>) {
    forall j, k :: 0 <= j < k < |keys| ==> keys[j] != keys[k]
  }

  /** Where the group for `key` sits. */
  function FindKey(groups: seq<RequirementGroup>, key: set<string>): (j: nat)
    requires key in KeysOf(groups)
    ensures j < |groups| && groups[j].requirements == key
    decreases |groups|
  {
    if groups[|groups| - 1].requirements == key then |groups| - 1
    else
      var init := groups[..|groups| - 1];
      assert KeysOf(groups) == KeysOf(init) + [groups[|groups| - 1].requirements];
      FindKey(init, key)
  }

  /** `external_requirements_to_distributions[key].append(name)` on a
      `defaultdict(list)`. */
  function AddToGroup(groups: seq<RequirementGroup>, key: set<string>, listed: seq<string>, name: string): (r: seq<RequirementGroup>)
    requires DistinctKeys(KeysOf(groups))
    ensures KeysOf(r) == if key in KeysOf(groups) then KeysOf(groups) else KeysOf(groups) + [key]
    ensures forall j :: 0 <= j < |r| ==>
      r[j].members == (if j < |groups| then groups[j].members else []) + (if r[j].requirements == key then [name] else [])
    ensures forall j :: 0 <= j < |r| ==> r[j].listed == (if j < |groups| then groups[j].listed else listed)
  {
    if key in KeysOf(groups) then
      var j := FindKey(groups, key);
      var r := groups[j := groups[j].(members := groups[j].members + [name])];
      assert forall k :: 0 <= k < |groups| && k != j ==> groups[k].requirements != key by {
        assert forall k :: 0 <= k < |groups| ==> KeysOf(groups)[k] == groups[k].requirements;
      }
      assert KeysOf(r) == KeysOf(groups);
      r
    else
      var r := groups + [RequirementGroup(key, listed, [name])];
      assert forall k :: 0 <= k < |groups| ==> groups[k].requirements != key by {
        assert forall k :: 0 <= k < |groups| ==> KeysOf(groups)[k] == groups[k].requirements;
      }
      assert KeysOf(r) == KeysOf(groups) + [key];
      r
  }

  /** The grouping of a prefix of the distributions is what stage 1 is
      meant to compute for it. */
  predicate GroupedAs(dists: seq<Distribution>, g: Grouping) {
    && g.hosts == HostsOf(dists)
    && KeysOf(g.groups) == RequirementKeys(dists)
    && (forall j :: 0 <= j < |g.groups| ==> g.groups[j].members == MembersOf(dists, g.groups[j].requirements))
    && (forall j :: 0 <= j < |g.groups| ==> Elems(g.groups[j].listed) == g.groups[j].requirements)
    && (g.withExternal == 0 <==> forall i :: 0 <= i < |dists| ==> |dists[i].1.externalPkgs| == 0)
  }

  /** One iteration of the stage-1 loop. */
  function GroupStep(g: Grouping, d: Distribution): Grouping
    requires DistinctKeys(KeysOf(g.groups))
  {
    if |d.1.externalPkgs| > 0 then
      Grouping(g.hosts, AddToGroup(g.groups, Elems(d.1.externalPkgs), d.1.externalPkgs, d.0), g.withExternal + 1)
    else
      Grouping(g.hosts + [d.0], g.groups, g.withExternal)
  }

  /** A requirement set nobody has yet has no members yet. */
  lemma {:induction false} NoMembersBeforeFirst(dists: seq<Distribution>, key: set<string>)
    requires key !in RequirementKeys(dists)
    ensures MembersOf(dists, key) == []
    decreases |dists|
  {
    if |dists| > 0 {
      var init := dists[..|dists| - 1];
      assert forall i :: 0 <= i < |init| ==> init[i] == dists[i];
      NoMembersBeforeFirst(init, key);
    }
  }

  lemma StepKeys(dists: seq<Distribution>, g: Grouping)
    requires |dists| > 0
    requires GroupedAs(dists[..|dists| - 1], g)
    ensures DistinctKeys(KeysOf(g.groups))
    ensures KeysOf(GroupStep(g, dists[|dists| - 1]).groups) == RequirementKeys(dists)
  {
    var init := dists[..|dists| - 1];
    var d := dists[|dists| - 1];
    var prev := RequirementKeys(init);
    assert forall i :: 0 <= i < |init| ==> init[i] == dists[i];
    assert RequirementKeys(dists) ==
      if |d.1.externalPkgs| > 0 && Elems(d.1.externalPkgs) !in prev then prev + [Elems(d.1.externalPkgs)] else prev;
    assert KeysOf(g.groups) == prev;
  }

  lemma StepMembers(dists: seq<Distribution>, g: Grouping)
    requires |dists| > 0
    requires GroupedAs(dists[..|dists| - 1], g)
    ensures DistinctKeys(KeysOf(g.groups))
    ensures var r := GroupStep(g, dists[|dists| - 1]);
      forall j :: 0 <= j < |r.groups| ==> r.groups[j].members == MembersOf(dists, r.groups[j].requirements)
  {
    var init := dists[..|dists| - 1];
    var d := dists[|dists| - 1];
    StepKeys(dists, g);
    var r := GroupStep(g, d);
    assert forall i :: 0 <= i < |init| ==> init[i] == dists[i];
    if |d.1.externalPkgs| > 0 {
      var key := Elems(d.1.externalPkgs);
      if key !in KeysOf(g.groups) {
        NoMembersBeforeFirst(init, key);
      }
    }
  }

  lemma StepRest(dists: seq<Distribution>, g: Grouping)
    requires |dists| > 0
    requires GroupedAs(dists[..|dists| - 1], g)
    ensures DistinctKeys(KeysOf(g.groups))
    ensures var r := GroupStep(g, dists[|dists| - 1]);
      && r.hosts == HostsOf(dists)
      && (forall j :: 0 <= j < |r.groups| ==> Elems(r.groups[j].listed) == r.groups[j].requirements)
      && (r.withExternal == 0 <==> forall i :: 0 <= i < |dists| ==> |dists[i].1.externalPkgs| == 0)
  {
    var init := dists[..|dists| - 1];
    var d := dists[|dists| - 1];
    StepKeys(dists, g);
    assert forall i :: 0 <= i < |init| ==> init[i] == dists[i];
    assert HostsOf(dists) == HostsOf(init) + (if |d.1.externalPkgs| == 0 then [d.0] else []);
  }

  /** One iteration keeps the loop's invariant. */
  lemma GroupStepKeepsGrouping(dists: seq<Distribution>, g: Grouping)
    requires |dists| > 0
    requires GroupedAs(dists[..|dists| - 1], g)
    ensures DistinctKeys(KeysOf(g.groups))
    ensures GroupedAs(dists, GroupStep(g, dists[|dists| - 1]))
  {
    StepKeys(dists, g);
    StepMembers(dists, g);
    StepRest(dists, g);
  }

  /** Stage 1 of `setup_virtual_environments`: one pass over the
      distributions in dictionary order. */
  method GroupDistributions(dists: seq<Distribution>) returns (g: Grouping)
    ensures GroupedAs(dists, g)
  {
    g := Grouping([], [], 0);
    var i := 0;
    while i < |dists|
      invariant 0 <= i <= |dists|
      invariant GroupedAs(dists[..i], g)
    {
      assert dists[..i + 1][..i] == dists[..i];
      GroupStepKeepsGrouping(dists[..i + 1], g);
      g := GroupStep(g, dists[i]);
      i := i + 1;
    }
    assert dists[..i] == dists;
  }

  // ---------------------------------------------------------------------------
  // Stages 2 to 4.

  /** `mapping.update(dict.fromkeys(members, venv))`. */
  function AssignGroup(m: map<string, Venv>, group: RequirementGroup): (r: map<string, Venv>)
    ensures forall n :: n in r <==> n in m || n in group.members
    ensures forall n :: n in group.members ==> r[n] == IsolatedVenv(group.requirements)
    ensures forall n :: n in m && n !in group.members ==> r[n] == m[n]
  {
    m + map n | n in group.members :: IsolatedVenv(group.requirements)
  }

  /** The last group that lists `n`, which decides its entry in stage 4. */
  function Owner(groups: seq<RequirementGroup>, n: string): (r: Option<nat>)
    ensures r.None? <==> forall j :: 0 <= j < |groups| ==> n !in groups[j].members
    ensures r.Some? ==> r.value < |groups| && n in groups[r.value].members
    ensures r.Some? ==> forall k :: r.value < k < |groups| ==> n !in groups[k].members
    decreases |groups|
  {
    if |groups| == 0 then None
    else if n in groups[|groups| - 1].members then Some(|groups| - 1)
    else
      var init := groups[..|groups| - 1];
      assert forall j :: 0 <= j < |init| ==> init[j] == groups[j];
      Owner(init, n)
  }

  /** Stage 4: every group in turn, a later group overwriting an earlier
      one (which the grouping never lets happen). */
  function AssignGroups(m: map<string, Venv>, groups: seq<RequirementGroup>): map<string, Venv>
    decreases |groups|
  {
    if |groups| == 0 then m
    else AssignGroup(AssignGroups(m, groups[..|groups| - 1]), groups[|groups| - 1])
  }

  /** After stage 4 a name has the venv of the last group listing it, and
      keeps its earlier entry (or stays absent) when no group lists it. */
  lemma {:induction false} AssignGroupsAt(m: map<string, Venv>, groups: seq<RequirementGroup>, n: string)
    ensures var r := AssignGroups(m, groups);
      && (n in r <==> n in m || Owner(groups, n).Some?)
      && (n in r && Owner(groups, n).None? ==> r[n] == m[n])
      && (Owner(groups, n).Some? ==> r[n] == IsolatedVenv(groups[Owner(groups, n).value].requirements))
    decreases |groups|
  {
    if |groups| > 0 {
      var init := groups[..|groups| - 1];
      assert forall j :: 0 <= j < |init| ==> init[j] == groups[j];
      AssignGroupsAt(m, init, n);
    }
  }

  /** What one call of `setup_virtual_environments` leaves behind: the new
      session, the requirement sets a venv was made for (stage 2) and the
      `pip install` commands run in them (stage 3). */
  datatype SetupOutcome = SetupOutcome(session: Session, created: seq<set<string>>, installs: seq<seq<string>>)

  /** The host entries of stage 1 (`no_external_dependencies_venv`). */
  function AssignHosts(m: map<string, Venv>, hosts: seq<string>): (r: map<string, Venv>)
    ensures forall n :: n in r <==> n in m || n in hosts
    ensures forall n :: n in hosts ==> r[n] == HostVenv
    ensures forall n :: n in m && n !in hosts ==> r[n] == m[n]
  {
    m + map n | n in hosts :: HostVenv
  }

  /** A distribution is in at most one place of the grouping: the hosts, or
      the group of its own requirement set. */
  lemma GroupingPlacesEachOnce(dists: seq<Distribution>, groups: seq<RequirementGroup>, i: nat)
    requires DistinctNames(dists) && i < |dists|
    requires forall j :: 0 <= j < |groups| ==> groups[j].members == MembersOf(dists, groups[j].requirements)
    ensures forall j :: 0 <= j < |groups| ==>
      (dists[i].0 in groups[j].members <==> |dists[i].1.externalPkgs| > 0 && groups[j].requirements == Elems(dists[i].1.externalPkgs))
  {
  }

  /** There are requirement sets exactly when some distribution has
      external requirements. */
  lemma {:induction false} NoKeysIffAllEmpty(dists: seq<Distribution>)
    ensures |RequirementKeys(dists)| == 0 <==> forall i :: 0 <= i < |dists| ==> |dists[i].1.externalPkgs| == 0
    decreases |dists|
  {
    if |dists| > 0 {
      var init := dists[..|dists| - 1];
      assert forall i :: 0 <= i < |init| ==> init[i] == dists[i];
      NoKeysIffAllEmpty(init);
    }
  }

  /** Stage 1 and stage 4 together give a distribution the venv its
      requirement set calls for. */
  lemma SetupMappingAt(m0: map<string, Venv>, dists: seq<Distribution>, g: Grouping, i: nat)
    requires DistinctNames(dists) && GroupedAs(dists, g) && i < |dists|
    ensures var m := AssignGroups(AssignHosts(m0, g.hosts), g.groups);
      dists[i].0 in m && m[dists[i].0] == VenvFor(dists[i].1)
  {
    var n := dists[i].0;
    var m1 := AssignHosts(m0, g.hosts);
    AssignGroupsAt(m1, g.groups, n);
    GroupingPlacesEachOnce(dists, g.groups, i);
    if |dists[i].1.externalPkgs| == 0 {
      assert n in g.hosts;
    } else {
      var key := Elems(dists[i].1.externalPkgs);
      assert key in RequirementKeys(dists);
      assert key in KeysOf(g.groups);
      var j :| 0 <= j < |g.groups| && KeysOf(g.groups)[j] == key;
      assert n in g.groups[j].members;
    }
  }

  /** Names that were not passed in keep their entry, or stay absent. */
  lemma SetupMappingElsewhere(m0: map<string, Venv>, dists: seq<Distribution>, g: Grouping, n: string)
    requires GroupedAs(dists, g) && !Listed(dists, n)
    ensures var m := AssignGroups(AssignHosts(m0, g.hosts), g.groups);
      && (n in m <==> n in m0)
      && (n in m ==> m[n] == m0[n])
  {
    var m1 := AssignHosts(m0, g.hosts);
    AssignGroupsAt(m1, g.groups, n);
    assert n !in g.hosts;
    assert forall j :: 0 <= j < |g.groups| ==> n !in g.groups[j].members;
  }

  /** What setting up the venvs for `dists` must do to the mapping `m0`:
      every distribution gets an entry, the venv its requirement set calls
      for, and every other entry is kept. */
  ghost predicate MappingAfterSetup(m0: map<string, Venv>, dists: seq<Distribution>, m: map<string, Venv>) {
    && (forall n :: n in m <==> n in m0 || Listed(dists, n))
    && (forall i :: 0 <= i < |dists| ==> dists[i].0 in m && m[dists[i].0] == VenvFor(dists[i].1))
    && (forall n :: n in m0 && !Listed(dists, n) ==> m[n] == m0[n])
  }

  /** What stages 2 and 3 must do: one venv per distinct non-empty
      requirement set, none when every set is empty, and in each venv one
      `pip install` of exactly its set. */
  predicate VenvsMade(dists: seq<Distribution>, created: seq<set<string>>, installs: seq<seq<string>>,
                      venvInfoFor: set<string> -> VenvInfo, mypyReq: string) {
    && created == RequirementKeys(dists)
    && (|created| == 0 <==> forall i :: 0 <= i < |dists| ==> |dists[i].1.externalPkgs| == 0)
    && |installs| == |created|
    && forall j :: 0 <= j < |installs| ==>
      && |installs[j]| >= 4
      && installs[j][..3] == [venvInfoFor(created[j]).pipExe, "install", mypyReq]
      && Elems(installs[j][3..|installs[j]| - 1]) == created[j]
  }

  /** The mapping stages 1 and 4 leave behind, for every name. */
  lemma SetupMapping(m0: map<string, Venv>, dists: seq<Distribution>, g: Grouping)
    requires DistinctNames(dists) && GroupedAs(dists, g)
    ensures MappingAfterSetup(m0, dists, AssignGroups(AssignHosts(m0, g.hosts), g.groups))
  {
    var m := AssignGroups(AssignHosts(m0, g.hosts), g.groups);
    forall i | 0 <= i < |dists| ensures dists[i].0 in m && m[dists[i].0] == VenvFor(dists[i].1) {
      SetupMappingAt(m0, dists, g, i);
    }
    forall n ensures n in m <==> n in m0 || Listed(dists, n) {
      if Listed(dists, n) {
        var i :| 0 <= i < |dists| && dists[i].0 == n;
        SetupMappingAt(m0, dists, g, i);
      } else {
        SetupMappingElsewhere(m0, dists, g, n);
      }
    }
    forall n | n in m0 && !Listed(dists, n) ensures m[n] == m0[n] {
      SetupMappingElsewhere(m0, dists, g, n);
    }
  }

  /** The stage-3 commands: one `pip install` per requirement set, of exactly
      that set. */
  function InstallCommands(groups: seq<RequirementGroup>, venvInfoFor: set<string> -> VenvInfo, mypyReq: string): (r: seq<seq<string>>)
    requires forall j :: 0 <= j < |groups| ==> Elems(groups[j].listed) == groups[j].requirements
    ensures |r| == |groups|
    ensures forall j :: 0 <= j < |groups| ==>
      && |r[j]| >= 4
      && r[j][..3] == [venvInfoFor(groups[j].requirements).pipExe, "install", mypyReq]
      && Elems(r[j][3..|r[j]| - 1]) == groups[j].requirements
  {
    var r := seq(|groups|, j requires 0 <= j < |groups| =>
      PipInstallCommand(venvInfoFor(groups[j].requirements).pipExe, mypyReq, groups[j].listed));
    assert forall j :: 0 <= j < |groups| ==>
      r[j] == PipInstallCommand(venvInfoFor(groups[j].requirements).pipExe, mypyReq, groups[j].listed);
    r
  }

  /** The venvs stages 2 and 3 make from a correct grouping, and the early
      return when there are none to make. */
  lemma StagesTwoAndThree(dists: seq<Distribution>, g: Grouping, venvInfoFor: set<string> -> VenvInfo, mypyReq: string)
    requires GroupedAs(dists, g)
    ensures g.withExternal == 0 ==> VenvsMade(dists, [], [], venvInfoFor, mypyReq)
    ensures g.withExternal != 0 ==> VenvsMade(dists, KeysOf(g.groups), InstallCommands(g.groups, venvInfoFor, mypyReq), venvInfoFor, mypyReq)
  {
    NoKeysIffAllEmpty(dists);
  }

  /** `setup_virtual_environments`. Afterwards every distribution has an
      entry, it is the venv its requirement set calls for, entries of
      distributions not passed in are kept, one venv was made per distinct
      non-empty requirement set (none when every set is empty), and each
      venv got one `pip install` of exactly its set. Whether an install
      succeeded does not matter: `concurrent.futures.wait` does not re-raise
      a worker's exception. */
  method SetupVirtualEnvironments(session: Session, dists: seq<Distribution>,
                                  venvInfoFor: set<string> -> VenvInfo, mypyReq: string)
    returns (out: SetupOutcome)
    requires DistinctNames(dists)
    ensures MappingAfterSetup(session.mapping, dists, out.session.mapping)
    ensures VenvsMade(dists, out.created, out.installs, venvInfoFor, mypyReq)
  {
    var g := GroupDistributions(dists);
    var m := AssignGroups(AssignHosts(session.mapping, g.hosts), g.groups);
    SetupMapping(session.mapping, dists, g);
    StagesTwoAndThree(dists, g, venvInfoFor, mypyReq);
    if g.withExternal == 0 {
      // The early return: stage 1 found no external requirements, so
      // there are no groups and `m` holds the host entries only.
      out := SetupOutcome(Session(m), [], []);
    } else {
      out := SetupOutcome(Session(m), KeysOf(g.groups), InstallCommands(g.groups, venvInfoFor, mypyReq));
    }
  }

  /** The guard at the call site: the venvs are set up only while the
      session mapping is empty, so at most once per run. */
  method SetupOnce(session: Session, dists: seq<Distribution>,
                   venvInfoFor: set<string> -> VenvInfo, mypyReq: string)
    returns (out: SetupOutcome)
    requires DistinctNames(dists)
    ensures |session.mapping| > 0 ==> out == SetupOutcome(session, [], [])
    ensures |session.mapping| == 0 ==>
      && MappingAfterSetup(map[], dists, out.session.mapping)
      && VenvsMade(dists, out.created, out.installs, venvInfoFor, mypyReq)
  {
    if |session.mapping| == 0 {
      out := SetupVirtualEnvironments(session, dists, venvInfoFor, mypyReq);
    } else {
      out := SetupOutcome(session, [], []);
    }
  }
}
