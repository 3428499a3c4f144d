/** The layout rules of `check_consistent.py` over directory trees:
    `assert_consistent_filetypes` and the three checks built on it
    (`check_stdlib`, `check_stubs`, `check_test_cases`). Listing order,
    gitignore matching and `str.isidentifier` are parameters. */
module Filetypes {
  import opened Wrappers
  import opened Strings
  import opened Paths
  import opened DistNames

  /** A directory entry: a file with the lines it holds, or a directory with
      its entries in the order `iterdir` lists them. */
  datatype Entry = File(name: string, lines: seq<string>) | Dir(name: string, children: seq<Entry>)

  /** What one call of `assert_consistent_filetypes` is given: the directory
      checked (from the repository root), the required suffix, the allowed
      relative paths, whether file stems need to be identifiers, and the
      helpers `str.isidentifier` and gitignore matching. */
  datatype FiletypeRules = FiletypeRules(
    root: Path, kind: string, allowed: set<Path>, allowNonIdentifier: bool,
    isIdentifier: string -> bool, gitignored: Path -> bool)

  datatype FiletypeError =
    | NotAModule(path: Path)         // a file stem that is not an identifier
    | WrongFileType(path: Path)      // a file without the required suffix
    | NotAPackage(path: Path)        // a directory name that is not an identifier

  /** An entry below `parent` (relative to the checked directory) is fine:
      it is ignored by git or allowed outright, or it is a file with an
      identifier stem (when that is required) and the required suffix, or a
      directory with an identifier name whose entries are all fine. */
  predicate EntryOk(c: FiletypeRules, parent: Path, e: Entry)
    decreases e
  {
    var rel := parent + [e.name];
    || c.gitignored(c.root + rel)
    || rel in c.allowed
    || match e
       case File(name, _) => (c.allowNonIdentifier || c.isIdentifier(Stem(name))) && Suffix(name) == c.kind
       case Dir(name, children) =>
         c.isIdentifier(name) && forall i :: 0 <= i < |children| ==> EntryOk(c, rel, children[i])
  }

  /** Every entry of a directory's listing is fine. */
  predicate ContentsOk(c: FiletypeRules, contents: seq<Entry>) {
    forall i :: 0 <= i < |contents| ==> EntryOk(c, [], contents[i])
  }

  // ---------------------------------------------------------------------------
  // The worklist of assert_consistent_filetypes

  /** An entry waiting in the worklist, with the path of its directory. */
  type Item = (Path, Entry)

  predicate ItemsOk(c: FiletypeRules, work: seq<Item>) {
    forall k :: 0 <= k < |work| ==> EntryOk(c, work[k].0, work[k].1)
  }

  /** The number of entries in a tree. */
  function Size(e: Entry): nat
    decreases e, 1
  {
    match e
    case File(_, _) => 1
    case Dir(_, children) => 1 + SizeOf(children)
  }

  function SizeOf(es: seq<Entry>): nat
    decreases es, 0
  {
    if |es| == 0 then 0 else SizeOf(es[..|es| - 1]) + Size(es[|es| - 1])
  }

  /** The entries the worklist still has to visit, counting subtrees. */
  function ItemsSize(work: seq<Item>): nat
    decreases |work|
  {
    if |work| == 0 then 0 else ItemsSize(work[..|work| - 1]) + Size(work[|work| - 1].1)
  }

  /** The children of a directory as worklist items. */
  function ChildItems(rel: Path, children: seq<Entry>): (r: seq<Item>)
    ensures |r| == |children|
    ensures forall i :: 0 <= i < |children| ==> r[i] == (rel, children[i])
  {
    seq(|children|, i requires 0 <= i < |children| => (rel, children[i]))
  }

  lemma {:induction false} ItemsSizeAppend(work: seq<Item>, more: seq<Item>)
    ensures ItemsSize(work + more) == ItemsSize(work) + ItemsSize(more)
    decreases |more|
  {
    if |more| > 0 {
      assert (work + more)[..|work + more| - 1] == work + more[..|more| - 1];
      ItemsSizeAppend(work, more[..|more| - 1]);
    } else {
      assert work + more == work;
    }
  }

  lemma {:induction false} ChildItemsSize(rel: Path, children: seq<Entry>)
    ensures ItemsSize(ChildItems(rel, children)) == SizeOf(children)
    decreases |children|
  {
    if |children| > 0 {
      var init := children[..|children| - 1];
      assert ChildItems(rel, children)[..|children| - 1] == ChildItems(rel, init);
      ChildItemsSize(rel, init);
    }
  }

  /** The last item of the worklist, split off. */
  lemma ItemsOkPop(c: FiletypeRules, work: seq<Item>)
    requires |work| > 0
    ensures ItemsOk(c, work) <==>
      ItemsOk(c, work[..|work| - 1]) && EntryOk(c, work[|work| - 1].0, work[|work| - 1].1)
  {
    assert forall k :: 0 <= k < |work| - 1 ==> work[..|work| - 1][k] == work[k];
  }

  /** Two worklists, one after the other. */
  lemma ItemsOkAppend(c: FiletypeRules, a: seq<Item>, b: seq<Item>)
    ensures ItemsOk(c, a + b) <==> ItemsOk(c, a) && ItemsOk(c, b)
  {
    assert forall k :: 0 <= k < |a| ==> (a + b)[k] == a[k];
    assert forall k :: 0 <= k < |b| ==> (a + b)[|a| + k] == b[k];
  }

  /** `assert_consistent_filetypes`: pop entries from the end of the
      worklist, skip ignored and allowed ones, check files, and push the
      entries of directories. It passes exactly when every entry is fine. */
  method CheckFiletypes(c: FiletypeRules, contents: seq<Entry>) returns (r: Outcome<FiletypeError>)
    ensures r.Pass? <==> ContentsOk(c, contents)
  {
    var work := ChildItems([], contents);
    while |work| > 0
      invariant ContentsOk(c, contents) <==> ItemsOk(c, work)
      decreases ItemsSize(work)
    {
      var parent: Path := work[|work| - 1].0;
      var e: Entry := work[|work| - 1].1;
      var rest := work[..|work| - 1];
      ItemsOkPop(c, work);
      var rel := parent + [e.name];
      if c.gitignored(c.root + rel) || rel in c.allowed {
        work := rest;
        continue;
      }
      match e {
        case File(name, _) =>
          if !c.allowNonIdentifier && !c.isIdentifier(Stem(name)) {
            return Fail(NotAModule(rel));
          }
          if Suffix(name) != c.kind {
            return Fail(WrongFileType(rel));
          }
          work := rest;
        case Dir(name, children) =>
          if !c.isIdentifier(name) {
            return Fail(NotAPackage(rel));
          }
          var pushed := ChildItems(rel, children);
          ItemsSizeAppend(rest, pushed);
          ChildItemsSize(rel, children);
          ItemsOkAppend(c, rest, pushed);
          work := rest + pushed;
      }
    }
    return Pass;
  }

  /** The verdict does not depend on the order `iterdir` lists a
      directory in. */
  lemma ListingOrderIrrelevant(c: FiletypeRules, a: seq<Entry>, b: seq<Entry>)
    requires multiset(a) == multiset(b)
    ensures ContentsOk(c, a) <==> ContentsOk(c, b)
  {
    forall i | 0 <= i < |a| ensures exists j :: 0 <= j < |b| && b[j] == a[i] {
      assert a[i] in multiset(b);
    }
    forall j | 0 <= j < |b| ensures exists i :: 0 <= i < |a| && a[i] == b[j] {
      assert b[j] in multiset(a);
    }
  }

  /** An allowed entry is not looked into: an allowed directory may hold
      anything, and an allowed file may have any suffix. */
  lemma AllowedEntriesAreSkipped(c: FiletypeRules, name: string, children: seq<Entry>, lines: seq<string>)
    requires [name] in c.allowed
    ensures ContentsOk(c, [Dir(name, children)]) && ContentsOk(c, [File(name, lines)])
  {
    assert [] + [name] == [name];
  }

  // ---------------------------------------------------------------------------
  // check_stdlib

  /** The rules `check_stdlib` applies to `stdlib`. */
  function StdlibRules(isIdentifier: string -> bool, gitignored: Path -> bool): (c: FiletypeRules)
    ensures c.kind == ".pyi" && !c.allowNonIdentifier
    ensures ["VERSIONS"] in c.allowed && ["_typeshed", "README.md"] in c.allowed && |c.allowed| == 2
  {
    FiletypeRules(["stdlib"], ".pyi", {["_typeshed", "README.md"], ["VERSIONS"]}, false, isIdentifier, gitignored)
  }

  /** `check_stdlib`: only stubs in `stdlib`, apart from `VERSIONS` and the
      README of `_typeshed`. */
  method CheckStdlib(contents: seq<Entry>, isIdentifier: string -> bool, gitignored: Path -> bool)
    returns (r: Outcome<FiletypeError>)
    ensures r.Pass? <==> ContentsOk(StdlibRules(isIdentifier, gitignored), contents)
  {
    r := CheckFiletypes(StdlibRules(isIdentifier, gitignored), contents);
  }

  // ---------------------------------------------------------------------------
  // check_stubs

  /** The entries a distribution directory may hold besides stubs. */
  const StubsAllowed: set<Path> := {["METADATA.toml"], ["README"], ["README.md"], ["README.rst"], ["@tests"]}

  function DistributionRules(name: string, isIdentifier: string -> bool, gitignored: Path -> bool)
    : (c: FiletypeRules)
    ensures c.root == ["stubs", name] && c.kind == ".pyi" && !c.allowNonIdentifier && c.allowed == StubsAllowed
  {
    FiletypeRules(["stubs", name], ".pyi", StubsAllowed, false, isIdentifier, gitignored)
  }

  datatype StubsError =
    | NotADirectory(name: string)
    | BadName(nameError: NameError)
    | BadDistributionLayout(distribution: string, filetypeError: FiletypeError)

  /** An entry of `stubs` is fine: ignored by git, or a directory with a
      valid distribution name that does not start with `types-`, holding
      only stubs and the allowed extras. */
  predicate DistributionOk(e: Entry, isIdentifier: string -> bool, gitignored: Path -> bool) {
    || gitignored(["stubs", e.name])
    || (&& e.Dir?
        && ValidDistName(e.name)
        && !StartsWith(e.name, "types-")
        && ContentsOk(DistributionRules(e.name, isIdentifier, gitignored), e.children))
  }

  /** `check_stubs` over the entries of `stubs`. */
  method CheckStubs(dists: seq<Entry>, isIdentifier: string -> bool, gitignored: Path -> bool)
    returns (r: Outcome<StubsError>)
    ensures r.Pass? <==> forall i :: 0 <= i < |dists| ==> DistributionOk(dists[i], isIdentifier, gitignored)
    ensures r.Fail? && r.error.BadName? ==>
      exists i :: 0 <= i < |dists| && CheckStubDirName(dists[i].name) == Fail(r.error.nameError)
  {
    var i := 0;
    while i < |dists|
      invariant 0 <= i <= |dists|
      invariant forall k :: 0 <= k < i ==> DistributionOk(dists[k], isIdentifier, gitignored)
    {
      var dist := dists[i];
      if !gitignored(["stubs", dist.name]) {
        if !dist.Dir? {
          return Fail(NotADirectory(dist.name));
        }
        match CheckStubDirName(dist.name) {
          case Fail(e) => return Fail(BadName(e));
          case Pass =>
        }
        var layout := CheckFiletypes(DistributionRules(dist.name, isIdentifier, gitignored), dist.children);
        if layout.Fail? {
          return Fail(BadDistributionLayout(dist.name, layout.error));
        }
      }
      i := i + 1;
    }
    return Pass;
  }

  // ---------------------------------------------------------------------------
  // check_test_cases

  const FutureAnnotations := "from __future__ import annotations"
  const PyrightSetting := "# pyright: reportUnnecessaryTypeIgnoreComment=true"

  /** `[f(x) for x in s]`. */
  function Mapped<T, U>(s: seq<T>, f: T -> U): (r: seq<U>)
    ensures |r| == |s| && forall i :: 0 <= i < |s| ==> r[i] == f(s[i])
    decreases |s|
  {
    if |s| == 0 then []
    else
      var rest := Mapped(s[1..], f);
      assert forall i :: 1 <= i < |s| ==> s[i] == s[1..][i - 1];
      [f(s[0])] + rest
  }

  /** `y` is among the mapped values exactly when some element maps to it. */
  lemma MappedHas<T, U>(s: seq<T>, f: T -> U, y: U)
    ensures y in Mapped(s, f) <==> exists i :: 0 <= i < |s| && f(s[i]) == y
  {
    var m := Mapped(s, f);
    if y in m {
      var i :| 0 <= i < |m| && m[i] == y;
      assert f(s[i]) == y;
    }
  }

  /** `target in {line.strip() for line in lines}`. */
  predicate HasStrippedLine(lines: seq<string>, target: string) {
    target in Mapped(lines, Strip)
  }

  /** Some line is the target once stripped. */
  lemma HasStrippedLineMeans(lines: seq<string>, target: string)
    ensures HasStrippedLine(lines, target) <==> exists i :: 0 <= i < |lines| && Strip(lines[i]) == target
  {
    MappedHas(lines, Strip, target);
  }

  datatype TestCaseError =
    | BadTestCaseName(fileName: string)
    | NoFutureAnnotations(fileName: string)
    | NoPyrightSetting(fileName: string)
    | BadTestCaseLayout(packageName: string, filetypeError: FiletypeError)

  /** A test-case file is fine: its stem starts with `check_`, it imports
      `annotations` from `__future__`, and, outside `stdlib`, it enables
      pyright's unnecessary-type-ignore report; each line counts with its
      surrounding whitespace stripped. */
  predicate TestCaseFileOk(packageName: string, fileName: string, lines: seq<string>) {
    && StartsWith(Stem(fileName), "check_")
    && HasStrippedLine(lines, FutureAnnotations)
    && (packageName != "stdlib" ==> HasStrippedLine(lines, PyrightSetting))
  }

  /** The same rules, line by line. */
  lemma TestCaseFileRules(packageName: string, fileName: string, lines: seq<string>)
    ensures TestCaseFileOk(packageName, fileName, lines) <==>
      && StartsWith(Stem(fileName), "check_")
      && (exists i :: 0 <= i < |lines| && Strip(lines[i]) == FutureAnnotations)
      && (packageName != "stdlib" ==> exists i :: 0 <= i < |lines| && Strip(lines[i]) == PyrightSetting)
  {
    HasStrippedLineMeans(lines, FutureAnnotations);
    HasStrippedLineMeans(lines, PyrightSetting);
  }

  /** The checks of one test-case file, in source order. */
  function CheckTestCaseFile(packageName: string, fileName: string, lines: seq<string>)
    : (r: Outcome<TestCaseError>)
    ensures r.Pass? <==> TestCaseFileOk(packageName, fileName, lines)
    ensures r.Fail? ==> !r.error.BadTestCaseLayout? && r.error.fileName == fileName
  {
    if !StartsWith(Stem(fileName), "check_") then Fail(BadTestCaseName(fileName))
    else if !HasStrippedLine(lines, FutureAnnotations) then Fail(NoFutureAnnotations(fileName))
    else if packageName != "stdlib" && !HasStrippedLine(lines, PyrightSetting) then Fail(NoPyrightSetting(fileName))
    else Pass
  }

  lemma CheckXIsATestCaseName()
    ensures StartsWith(Stem("check_x.py"), "check_")
  {
    assert RFind("check_x.py", '.') == 7;
    assert Stem("check_x.py") == "check_x";
    assert "check_x"[..6] == "check_";
  }

  /** A stdlib test case needs only the `__future__` import, whatever
      whitespace surrounds it. */
  lemma StdlibTestCaseNeedsFutureImport()
    ensures TestCaseFileOk("stdlib", "check_x.py", ["  " + FutureAnnotations + "\n"])
  {
    var line := "  " + FutureAnnotations + "\n";
    StripRemovesSurroundingSpace("  ", FutureAnnotations, "\n");
    assert [line][0] == line;
    HasStrippedLineMeans([line], FutureAnnotations);
    CheckXIsATestCaseName();
  }

  /** A third-party test case also needs the pyright setting. */
  lemma ThirdPartyTestCaseNeedsPyrightSetting()
    ensures CheckTestCaseFile("six", "check_x.py", [FutureAnnotations]) == Fail(NoPyrightSetting("check_x.py"))
  {
    FutureImportAlone();
    CheckXIsATestCaseName();
  }

  lemma FutureImportAlone()
    ensures HasStrippedLine([FutureAnnotations], FutureAnnotations)
    ensures !HasStrippedLine([FutureAnnotations], PyrightSetting)
  {
    StripRemovesSurroundingSpace("", FutureAnnotations, "");
    assert "" + FutureAnnotations + "" == FutureAnnotations;
    assert [FutureAnnotations][0] == FutureAnnotations;
    assert |FutureAnnotations| != |PyrightSetting|;
    HasStrippedLineMeans([FutureAnnotations], FutureAnnotations);
    HasStrippedLineMeans([FutureAnnotations], PyrightSetting);
  }

  /** Test-case files are named `check_*`. */
  lemma TestCaseNamesStartWithCheck()
    ensures CheckTestCaseFile("six", "x.py", []) == Fail(BadTestCaseName("x.py"))
  {
    assert RFind("x.py", '.') == 1;
    assert Stem("x.py") == "x";
  }

  /** The file `f` (name and lines) lies somewhere below the listing. */
  predicate FileBelow(es: seq<Entry>, f: (string, seq<string>))
    decreases es, 0
  {
    exists i :: 0 <= i < |es| && FileAt(es[i], f)
  }

  /** The file `f` is `e` itself or lies below it. */
  predicate FileAt(e: Entry, f: (string, seq<string>))
    decreases e, 1
  {
    match e
    case File(name, lines) => f == (name, lines)
    case Dir(_, children) => FileBelow(children, f)
  }

  /** A file lies below a listing when it lies at its first entry or below
      the rest. */
  lemma FileBelowCons(es: seq<Entry>)
    requires |es| > 0
    ensures forall f :: FileBelow(es, f) <==> FileAt(es[0], f) || FileBelow(es[1..], f)
  {
    forall f ensures FileBelow(es, f) <==> FileAt(es[0], f) || FileBelow(es[1..], f) {
      if FileBelow(es, f) {
        var i :| 0 <= i < |es| && FileAt(es[i], f);
        if i > 0 {
          assert es[1..][i - 1] == es[i];
        }
      }
      if FileBelow(es[1..], f) {
        var j :| 0 <= j < |es[1..]| && FileAt(es[1..][j], f);
        assert es[j + 1] == es[1..][j];
      }
    }
  }

  /** `rglob("*.py")` over a listing: the name and lines of every file
      anywhere below whose name ends in `.py`, depth first, and nothing
      else. Ignored and allowed entries are included: `rglob` knows nothing
      of them. */
  function PyFiles(es: seq<Entry>): (r: seq<(string, seq<string>)>)
    ensures forall f :: f in r <==> FileBelow(es, f) && EndsWith(f.0, ".py")
    decreases es, 0
  {
    if |es| == 0 then []
    else
      FileBelowCons(es);
      PyFilesOf(es[0]) + PyFiles(es[1..])
  }

  function PyFilesOf(e: Entry): (r: seq<(string, seq<string>)>)
    ensures forall f :: f in r <==> FileAt(e, f) && EndsWith(f.0, ".py")
    decreases e, 1
  {
    match e
    case File(name, lines) => if EndsWith(name, ".py") then [(name, lines)] else []
    case Dir(_, children) => PyFiles(children)
  }

  /** A directory of test cases, as `get_all_testcase_directories` reports
      it: the package it tests, its path and its listing. */
  datatype TestCaseDir = TestCaseDir(packageName: string, path: Path, contents: seq<Entry>)

  function TestCaseRules(d: TestCaseDir, isIdentifier: string -> bool, gitignored: Path -> bool)
    : (c: FiletypeRules)
    ensures c.root == d.path && c.kind == ".py" && c.allowNonIdentifier && c.allowed == {["README.md"]}
  {
    FiletypeRules(d.path, ".py", {["README.md"]}, true, isIdentifier, gitignored)
  }

  /** A test-case directory is fine: only `.py` files besides its README,
      and every `.py` file below it follows the test-case rules. */
  predicate TestCaseDirOk(d: TestCaseDir, isIdentifier: string -> bool, gitignored: Path -> bool) {
    && ContentsOk(TestCaseRules(d, isIdentifier, gitignored), d.contents)
    && forall k :: 0 <= k < |PyFiles(d.contents)| ==>
         TestCaseFileOk(d.packageName, PyFiles(d.contents)[k].0, PyFiles(d.contents)[k].1)
  }

  /** The loop over the `.py` files of one directory of test cases: the
      first file that breaks a rule stops it and gives the reason. */
  function CheckTestCaseFiles(packageName: string, files: seq<(string, seq<string>)>): (r: Outcome<TestCaseError>)
    ensures r.Pass? <==> forall k :: 0 <= k < |files| ==> TestCaseFileOk(packageName, files[k].0, files[k].1)
    ensures r.Fail? ==> exists k :: 0 <= k < |files| && CheckTestCaseFile(packageName, files[k].0, files[k].1) == r
    decreases |files|
  {
    if |files| == 0 then Pass
    else
      var first := CheckTestCaseFile(packageName, files[0].0, files[0].1);
      if first.Fail? then first
      else
        var r := CheckTestCaseFiles(packageName, files[1..]);
        assert TestCaseFileOk(packageName, files[0].0, files[0].1);
        assert r.Pass? ==> forall k :: 1 <= k < |files| ==> TestCaseFileOk(packageName, files[k].0, files[k].1) by {
          if r.Pass? {
            forall k | 1 <= k < |files| ensures TestCaseFileOk(packageName, files[k].0, files[k].1) {
              assert files[k] == files[1..][k - 1];
            }
          }
        }
        assert (forall k :: 1 <= k < |files| ==> TestCaseFileOk(packageName, files[k].0, files[k].1)) ==> r.Pass? by {
          if forall k :: 1 <= k < |files| ==> TestCaseFileOk(packageName, files[k].0, files[k].1) {
            forall k | 0 <= k < |files| - 1 ensures TestCaseFileOk(packageName, files[1..][k].0, files[1..][k].1) {
              assert files[1..][k] == files[k + 1];
            }
          }
        }
        assert r.Fail? ==> exists k :: 0 <= k < |files| && CheckTestCaseFile(packageName, files[k].0, files[k].1) == r by {
          if r.Fail? {
            var k :| 0 <= k < |files[1..]| && CheckTestCaseFile(packageName, files[1..][k].0, files[1..][k].1) == r;
            assert files[k + 1] == files[1..][k];
          }
        }
        r
  }

  /** `check_test_cases` over the directories of test cases. */
  method CheckTestCases(dirs: seq<TestCaseDir>, isIdentifier: string -> bool, gitignored: Path -> bool)
    returns (r: Outcome<TestCaseError>)
    ensures r.Pass? <==> forall i :: 0 <= i < |dirs| ==> TestCaseDirOk(dirs[i], isIdentifier, gitignored)
  {
    var i := 0;
    while i < |dirs|
      invariant 0 <= i <= |dirs|
      invariant forall k :: 0 <= k < i ==> TestCaseDirOk(dirs[k], isIdentifier, gitignored)
    {
      var d := dirs[i];
      var layout := CheckFiletypes(TestCaseRules(d, isIdentifier, gitignored), d.contents);
      if layout.Fail? {
        return Fail(BadTestCaseLayout(d.packageName, layout.error));
      }
      var files := CheckTestCaseFiles(d.packageName, PyFiles(d.contents));
      if files.Fail? {
        return files;
      }
      i := i + 1;
    }
    return Pass;
  }
}
