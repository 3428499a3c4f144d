/** `check_versions` and `_find_stdlib_modules`: `stdlib/VERSIONS` lists
    every top-level module of the standard-library stubs exactly once, and
    lists nothing else. */
module VersionsCheck {
  import opened Wrappers
  import opened Strings
  import opened Paths
  import opened Versions

  // ---------------------------------------------------------------------------
  // The modules VERSIONS lists

  /** The module a line lists: none for a line that is blank once comments
      are stripped, or that `VERSIONS_RE` does not match. */
  function ModuleAt(syntax: LineSyntax, raw: string): Option<string> {
    var line := syntax.stripComments(raw);
    if line == "" then None
    else
      match syntax.matchLine(line)
      case None => None
      case Some(m) => Some(m.moduleName)
  }

  /** A line that is blank or that `VERSIONS_RE` matches. */
  predicate LineOk(syntax: LineSyntax, raw: string) {
    var line := syntax.stripComments(raw);
    line == "" || syntax.matchLine(line).Some?
  }

  /** The first `n` lines all parse. */
  predicate WellFormedUpTo(syntax: LineSyntax, lines: seq<string>, n: nat)
    requires n <= |lines|
  {
    forall k :: 0 <= k < n ==> LineOk(syntax, lines[k])
  }

  /** No module is listed twice in the first `n` lines. */
  predicate DistinctUpTo(syntax: LineSyntax, lines: seq<string>, n: nat)
    requires n <= |lines|
  {
    forall j, k :: 0 <= j < k < n && ModuleAt(syntax, lines[j]).Some? ==>
      ModuleAt(syntax, lines[k]) != ModuleAt(syntax, lines[j])
  }

  /** The modules the first `n` lines list. */
  function ListedUpTo(syntax: LineSyntax, lines: seq<string>, n: nat): set<string>
    requires n <= |lines|
  {
    set k | 0 <= k < n && ModuleAt(syntax, lines[k]).Some? :: ModuleAt(syntax, lines[k]).value
  }

  /** `{m.split(".")[0] for m in modules}`. */
  function TopLevel(modules: set<string>): set<string> {
    set m | m in modules :: Split(m, '.')[0]
  }

  datatype VersionsCheckError =
    | BadVersionsLine(line: string)
    | DuplicateModule(moduleName: string)
    | ModulesNotInVersions(missing: set<string>)
    | VersionsNotInModules(extra: set<string>)

  /** `check_versions`, given the lines of `stdlib/VERSIONS` and the modules
      found under `stdlib`: every line parses, no module is listed twice,
      every top-level module is listed, and every listed name is a module. */
  method CheckVersions(lines: seq<string>, syntax: LineSyntax, modules: set<string>)
    returns (r: Outcome<VersionsCheckError>)
    ensures r.Pass? <==>
      && WellFormedUpTo(syntax, lines, |lines|)
      && DistinctUpTo(syntax, lines, |lines|)
      && TopLevel(modules) <= ListedUpTo(syntax, lines, |lines|)
      && ListedUpTo(syntax, lines, |lines|) <= modules
    ensures r.Fail? && r.error.BadVersionsLine? ==> !WellFormedUpTo(syntax, lines, |lines|)
    ensures r.Fail? && r.error.DuplicateModule? ==> !DistinctUpTo(syntax, lines, |lines|)
    ensures r.Fail? && r.error.ModulesNotInVersions? ==>
      r.error.missing == TopLevel(modules) - ListedUpTo(syntax, lines, |lines|) != {}
    ensures r.Fail? && r.error.VersionsNotInModules? ==>
      && TopLevel(modules) <= ListedUpTo(syntax, lines, |lines|)
      && r.error.extra == ListedUpTo(syntax, lines, |lines|) - modules != {}
  {
    var versions: set<string> := {};
    var i := 0;
    while i < |lines|
      invariant 0 <= i <= |lines|
      invariant WellFormedUpTo(syntax, lines, i)
      invariant DistinctUpTo(syntax, lines, i)
      invariant versions == ListedUpTo(syntax, lines, i)
    {
      var line := syntax.stripComments(lines[i]);
      if line != "" {
        match syntax.matchLine(line) {
          case None =>
            return Fail(BadVersionsLine(line));
          case Some(m) =>
            if m.moduleName in versions {
              var j :| 0 <= j < i && ModuleAt(syntax, lines[j]) == Some(m.moduleName);
              assert ModuleAt(syntax, lines[i]) == ModuleAt(syntax, lines[j]);
              return Fail(DuplicateModule(m.moduleName));
            }
            versions := versions + {m.moduleName};
        }
      }
      assert ListedUpTo(syntax, lines, i + 1) == ListedUpTo(syntax, lines, i)
        + (if ModuleAt(syntax, lines[i]).Some? then {ModuleAt(syntax, lines[i]).value} else {});
      i := i + 1;
    }
    var missing := TopLevel(modules) - versions;
    if missing != {} {
      return Fail(ModulesNotInVersions(missing));
    }
    var extra := versions - modules;
    if extra != {} {
      return Fail(VersionsNotInModules(extra));
    }
    return Pass;
  }

  /** A line that `parse_versions` reads as an entry lists its module, and
      a listed line that it does not reject is such an entry. */
  lemma EntryListsModule(syntax: LineSyntax, raw: string)
    ensures ParseLine(syntax, raw).Entry? ==> ModuleAt(syntax, raw) == Some(ParseLine(syntax, raw).moduleName)
    ensures ModuleAt(syntax, raw).Some? && !ParseLine(syntax, raw).Bad? ==>
      ParseLine(syntax, raw).Entry? && ParseLine(syntax, raw).moduleName == ModuleAt(syntax, raw).value
  {
  }

  /** Given the same lines, `parse_versions` in the test driver keys its
      table by exactly the modules this check collects. */
  lemma ParsedTableListsSameModules(lines: seq<string>, syntax: LineSyntax)
    requires ParseVersions(lines, syntax).Success?
    ensures ParseVersions(lines, syntax).value.Keys == ListedUpTo(syntax, lines, |lines|)
  {
    TableListsNamedModules(lines, syntax);
    var table := ParseVersions(lines, syntax).value;
    var listed := ListedUpTo(syntax, lines, |lines|);
    forall m | m in listed ensures m in table {
      var k :| 0 <= k < |lines| && ModuleAt(syntax, lines[k]) == Some(m);
      EntryListsModule(syntax, lines[k]);
      assert Names(syntax, lines[k], m);
    }
    forall m | m in table ensures m in listed {
      var k :| 0 <= k < |lines| && Names(syntax, lines[k], m);
      EntryListsModule(syntax, lines[k]);
    }
  }

  // ---------------------------------------------------------------------------
  // _find_stdlib_modules

  /** `os.path.splitext(name)[0]`: the name up to its last dot, unless only
      dots come before that dot. */
  function SplitextRoot(name: string): (root: string)
    ensures |root| <= |name| && root == name[..|root|]
  {
    var i := RFind(name, '.');
    if i >= 0 && exists j :: 0 <= j < i && name[j] != '.' then name[..i] else name
  }

  /** The module a file in `stdlib/<dir>` defines: `__init__.pyi` defines
      the package, another `.pyi` file a module inside it, anything else
      nothing. `dir` is the path below `stdlib`. */
  function ModuleOfFile(dir: Path, fileName: string): (r: Option<string>)
    ensures r.Some? <==> EndsWith(fileName, ".pyi")
  {
    var base := Join(dir, '.');
    if fileName == "__init__.pyi" then Some(base)
    else if EndsWith(fileName, ".pyi") then
      var stem := SplitextRoot(fileName);
      Some(if base != "" then base + "." + stem else stem)
    else None
  }

  /** `_find_stdlib_modules`, given the files `os.walk("stdlib")` reports,
      each as its directory below `stdlib` and its name. */
  function FindStdlibModules(files: seq<(Path, string)>): (r: set<string>)
    ensures forall m :: m in r <==>
      exists i :: 0 <= i < |files| && ModuleOfFile(files[i].0, files[i].1) == Some(m)
    decreases |files|
  {
    if |files| == 0 then {}
    else
      var rest := FindStdlibModules(files[..|files| - 1]);
      assert forall i :: 0 <= i < |files| - 1 ==> files[..|files| - 1][i] == files[i];
      match ModuleOfFile(files[|files| - 1].0, files[|files| - 1].1)
      case None => rest
      case Some(m) => rest + {m}
  }

  /** Files that are not stubs add no module. */
  lemma {:induction false} OnlyStubsCount(files: seq<(Path, string)>, other: seq<(Path, string)>)
    requires forall i :: 0 <= i < |other| ==> !EndsWith(other[i].1, ".pyi")
    ensures FindStdlibModules(files + other) == FindStdlibModules(files)
  {
    var all := files + other;
    assert forall k :: |files| <= k < |all| ==> all[k] == other[k - |files|];
    forall m | m in FindStdlibModules(all) ensures m in FindStdlibModules(files) {
      var i :| 0 <= i < |all| && ModuleOfFile(all[i].0, all[i].1) == Some(m);
      assert i < |files|;
      assert all[i] == files[i];
    }
    forall m | m in FindStdlibModules(files) ensures m in FindStdlibModules(all) {
      var i :| 0 <= i < |files| && ModuleOfFile(files[i].0, files[i].1) == Some(m);
      assert all[i] == files[i];
    }
  }

  /** A plain component: not empty and without a dot. */
  predicate PlainName(s: string) {
    |s| > 0 && '.' !in s
  }

  /** Module names read back as their paths: splitting the name of
      `<dir>/<stem>.pyi` at dots gives the directories and then the stem,
      and the name of `<dir>/__init__.pyi` gives the directories. */
  lemma {:induction false} ModuleNameSplitsBack(dir: Path, stem: string)
    requires forall k :: 0 <= k < |dir| ==> PlainName(dir[k])
    requires PlainName(stem) && stem + ".pyi" != "__init__.pyi"
    ensures Split(ModuleOfFile(dir, stem + ".pyi").value, '.') == dir + [stem]
    ensures |dir| > 0 ==> Split(ModuleOfFile(dir, "__init__.pyi").value, '.') == dir
  {
    SplitextOfStub(stem);
    if |dir| > 0 {
      assert |Join(dir, '.')| > 0;
      JoinAppend(dir, stem);
      SplitJoin(dir + [stem], '.');
      SplitJoin(dir, '.');
    } else {
      SplitWithoutSeparator(stem, '.');
    }
  }

  /** The root of `<stem>.pyi` is the stem when the stem has no dot. */
  lemma SplitextOfStub(stem: string)
    requires PlainName(stem)
    ensures SplitextRoot(stem + ".pyi") == stem
  {
    var name := stem + ".pyi";
    assert RFind(name, '.') == |stem| by {
      assert name[|stem|] == '.';
      forall j | |stem| < j < |name| ensures name[j] != '.' {
        assert name[j] == ".pyi"[j - |stem|];
      }
      forall j | 0 <= j < |stem| ensures name[j] != '.' {
        assert name[j] == stem[j];
      }
    }
    assert name[0] == stem[0] && stem[0] != '.';
    assert name[..|stem|] == stem;
  }

  /** `".".join(dir + [s]) == ".".join(dir) + "." + s` for a non-empty
      `dir`. */
  lemma {:induction false} JoinAppend(dir: seq<string>, s: string)
    requires |dir| > 0
    ensures Join(dir + [s], '.') == Join(dir, '.') + "." + s
    decreases |dir|
  {
    if |dir| == 1 {
      assert dir + [s] == [dir[0], s];
      assert [dir[0], s][1..] == [s];
    } else {
      assert (dir + [s])[1..] == dir[1..] + [s];
      JoinAppend(dir[1..], s);
    }
  }

  /** The examples the layout of `stdlib` follows. */
  lemma StdlibModuleNames()
    ensures ModuleOfFile(["a", "b"], "__init__.pyi") == Some("a.b")
    ensures ModuleOfFile(["a"], "c.pyi") == Some("a.c")
    ensures ModuleOfFile([], "c.pyi") == Some("c")
    ensures ModuleOfFile(["a"], "README.md") == None
  {
    assert ["a", "b"][1..] == ["b"];
    assert Join(["a", "b"], '.') == "a" + "." + "b" == "a.b";
    assert Join(["a"], '.') == "a";
    SplitextOfStub("c");
    assert "c" + ".pyi" == "c.pyi";
    assert "c.pyi"[5 - 4..] == ".pyi";
    assert "a" + "." + "c" == "a.c";
  }
}
