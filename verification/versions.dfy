/** Python versions as the drivers handle them: the `(major, minor)` tuples
    of `parse_version`, the `stdlib/VERSIONS` table of `parse_versions`, and
    the window a standard-library module is tested in. */
module Versions {
  import opened Wrappers
  import opened Strings

  /** A `(major, minor)` tuple of ints. */
  datatype VersionTuple = VersionTuple(major: nat, minor: nat)

  /** Python's `<=` on two-element int tuples: lexicographic. */
  predicate VersionLe(a: VersionTuple, b: VersionTuple) {
    a.major < b.major || (a.major == b.major && a.minor <= b.minor)
  }

  /** The string the command line uses for a version, as `"3.10"`. */
  function VersionString(v: VersionTuple): string {
    NatToString(v.major) + "." + NatToString(v.minor)
  }

  /** `SUPPORTED_VERSIONS`, in the order the source lists them. */
  const SupportedVersions: seq<VersionTuple> :=
    [VersionTuple(3, 11), VersionTuple(3, 10), VersionTuple(3, 9), VersionTuple(3, 8), VersionTuple(3, 7)]

  /** The maximum `parse_versions` assumes when a line gives none. */
  const Unbounded: VersionTuple := VersionTuple(99, 99)

  // ---------------------------------------------------------------------------
  // parse_version

  /** The text the pattern `^([23])\.(\d+)$` must cover: `re.match` lets `$`
      match just before one final newline. */
  function WithoutFinalNewline(s: string): string {
    if |s| > 0 && s[|s| - 1] == '\n' then s[..|s| - 1] else s
  }

  /** `parse_version`: `2.N` or `3.N` with a decimal `N`, else the assertion
      fails (`None`). */
  function ParseVersion(s: string): (r: Option<VersionTuple>)
    ensures r.Some? ==> r.value.major == 2 || r.value.major == 3
  {
    var b := WithoutFinalNewline(s);
    if |b| >= 3 && (b[0] == '2' || b[0] == '3') && b[1] == '.' && AllDigits(b[2..]) then
      Some(VersionTuple(if b[0] == '2' then 2 else 3, DecimalValue(b[2..])))
    else None
  }

  lemma VersionStringShape(v: VersionTuple)
    requires v.major == 2 || v.major == 3
    ensures var s := VersionString(v);
      && |s| >= 3 && s[0] == (if v.major == 2 then '2' else '3') && s[1] == '.'
      && s[2..] == NatToString(v.minor)
  {
    assert NatToString(v.major) == [DigitChar(v.major)];
  }

  /** Every `2.N` / `3.N` version string parses back to its tuple, with or
      without a final newline. */
  lemma ParseVersionString(v: VersionTuple)
    requires v.major == 2 || v.major == 3
    ensures ParseVersion(VersionString(v)) == Some(v)
    ensures ParseVersion(VersionString(v) + "\n") == Some(v)
  {
    var s := VersionString(v);
    VersionStringShape(v);
    DecimalOfNatToString(v.minor);
    assert WithoutFinalNewline(s) == s;
    assert WithoutFinalNewline(s + "\n") == s;
  }

  /** Conversely, a version string that parses and is written canonically
      (no final newline, no leading zero in the minor number) is exactly the
      string of its tuple. */
  lemma ParsedVersionIsCanonical(s: string)
    requires ParseVersion(s).Some?
    requires |s| > 0 && s[|s| - 1] != '\n'
    requires s[2] != '0' || |s| == 3
    ensures s == VersionString(ParseVersion(s).value)
  {
    var v := ParseVersion(s).value;
    assert WithoutFinalNewline(s) == s;
    NatToStringOfDecimal(s[2..]);
    VersionStringShape(v);
    assert s == s[..2] + s[2..];
  }

  /** A minor number written with leading zeros parses to the same
      version: `"3.010"` is `(3, 10)`. */
  lemma ParseVersionLeadingZero(major: char, ds: string)
    requires (major == '2' || major == '3') && |ds| >= 1 && AllDigits(ds)
    ensures ParseVersion([major, '.', '0'] + ds) == ParseVersion([major, '.'] + ds)
    ensures ParseVersion([major, '.'] + ds).Some?
  {
    DecimalLeadingZero(ds);
    var a := [major, '.', '0'] + ds;
    var b := [major, '.'] + ds;
    assert a[2..] == "0" + ds;
    assert b[2..] == ds;
    assert IsDigit(ds[|ds| - 1]);
    assert WithoutFinalNewline(a) == a;
    assert WithoutFinalNewline(b) == b;
  }

  lemma {:induction false} DecimalPositive(ds: string)
    requires |ds| >= 1 && AllDigits(ds) && ds[0] != '0'
    ensures DecimalValue(ds) >= 1
    decreases |ds|
  {
    if |ds| > 1 {
      DecimalPositive(ds[..|ds| - 1]);
    }
  }

  /** `str(int(ds)) == ds` for digits without a leading zero. */
  lemma {:induction false} NatToStringOfDecimal(ds: string)
    requires |ds| >= 1 && AllDigits(ds)
    requires ds[0] != '0' || |ds| == 1
    ensures NatToString(DecimalValue(ds)) == ds
    decreases |ds|
  {
    var n := DecimalValue(ds);
    if |ds| == 1 {
      assert ds[..|ds| - 1] == [];
      assert DecimalValue(ds[..|ds| - 1]) == 0;
      assert IsDigit(ds[0]);
      assert n < 10;
      assert [DigitChar(n)] == ds;
    } else {
      var p := ds[..|ds| - 1];
      DecimalPositive(p);
      NatToStringOfDecimal(p);
      assert n / 10 == DecimalValue(p) && n % 10 == (ds[|ds| - 1] as int) - ('0' as int);
      assert ds == p + [ds[|ds| - 1]];
    }
  }

  /** `3.10` is a later version than `3.9`, although it sorts first as a
      string: the window compares int tuples. */
  lemma TuplesOrderNumerically()
    ensures ParseVersion("3.9") == Some(VersionTuple(3, 9))
    ensures ParseVersion("3.10") == Some(VersionTuple(3, 10))
    ensures VersionLe(VersionTuple(3, 9), VersionTuple(3, 10))
    ensures !VersionLe(VersionTuple(3, 10), VersionTuple(3, 9))
  {
    assert WithoutFinalNewline("3.9") == "3.9";
    assert "3.9"[2..] == "9";
    assert DecimalValue("9") == 9 by {
      assert "9"[..0] == "";
    }
    assert WithoutFinalNewline("3.10") == "3.10";
    assert "3.10"[2..] == "10";
    assert DecimalValue("10") == 10 by {
      assert "10"[..1] == "1";
      assert "1"[..0] == "";
    }
  }

  /** Version tokens outside the `2.N` / `3.N` shape are refused. */
  lemma MalformedVersionsRefused()
    ensures ParseVersion("3.x") == None
    ensures ParseVersion("4.1") == None
    ensures ParseVersion("3.") == None
    ensures ParseVersion("3.8-3.10") == None
  {
    assert WithoutFinalNewline("3.x") == "3.x";
    assert !IsDigit("3.x"[2..][0]);
    assert WithoutFinalNewline("4.1") == "4.1";
    assert WithoutFinalNewline("3.") == "3.";
    assert WithoutFinalNewline("3.8-3.10") == "3.8-3.10";
    assert !IsDigit("3.8-3.10"[2..][1]);
  }

  // ---------------------------------------------------------------------------
  // parse_versions

  /** The groups `VERSIONS_RE` captures from a line: module, minimum, and
      the optional maximum. */
  datatype VersionsLine = VersionsLine(moduleName: string, minVersion: string, maxVersion: Option<string>)

  /** The helpers `utils.strip_comments` and `utils.VERSIONS_RE`, which are
      not part of this model, as parameters. */
  datatype LineSyntax = LineSyntax(stripComments: string -> string, matchLine: string -> Option<VersionsLine>)

  /** The inclusive window `(min, max)` of a module. */
  datatype VersionRange = VersionRange(min: VersionTuple, max: VersionTuple)

  datatype VersionsError = InvalidVersionsLine(line: string) | InvalidVersion(version: string)

  /** What one line of `stdlib/VERSIONS` contributes. */
  datatype LineParse = Blank | Entry(moduleName: string, range: VersionRange) | Bad(error: VersionsError)

  /** One iteration of `parse_versions`' loop. */
  function ParseLine(syntax: LineSyntax, raw: string): (r: LineParse)
    ensures r.Entry? ==> VersionLe(VersionTuple(2, 0), r.range.min)
  {
    var line := syntax.stripComments(raw);
    if line == "" then Blank
    else
      match syntax.matchLine(line)
      case None => Bad(InvalidVersionsLine(line))
      case Some(m) =>
        match ParseVersion(m.minVersion)
        case None => Bad(InvalidVersion(m.minVersion))
        case Some(lo) =>
          if m.maxVersion.None? || m.maxVersion.value == "" then Entry(m.moduleName, VersionRange(lo, Unbounded))
          else
            match ParseVersion(m.maxVersion.value)
            case None => Bad(InvalidVersion(m.maxVersion.value))
            case Some(hi) => Entry(m.moduleName, VersionRange(lo, hi))
  }

  /** A matched line without a maximum gets the window from its minimum up
      to `(99, 99)`; a blank line (once comments are stripped) is skipped,
      and a non-blank line the pattern refuses is reported. */
  lemma ParseLineCases(syntax: LineSyntax, raw: string)
    ensures syntax.stripComments(raw) == "" <==> ParseLine(syntax, raw).Blank?
    ensures syntax.stripComments(raw) != "" && syntax.matchLine(syntax.stripComments(raw)).None? ==>
      ParseLine(syntax, raw) == Bad(InvalidVersionsLine(syntax.stripComments(raw)))
    ensures var line := syntax.stripComments(raw);
      line != "" && syntax.matchLine(line).Some? && syntax.matchLine(line).value.maxVersion.None?
      && ParseVersion(syntax.matchLine(line).value.minVersion).Some? ==>
        ParseLine(syntax, raw) == Entry(syntax.matchLine(line).value.moduleName,
          VersionRange(ParseVersion(syntax.matchLine(line).value.minVersion).value, VersionTuple(99, 99)))
  {
  }

  /** A line that names `moduleName`. */
  predicate Names(syntax: LineSyntax, raw: string, moduleName: string) {
    var p := ParseLine(syntax, raw);
    p.Entry? && p.moduleName == moduleName
  }

  /** `parse_versions`: blank and comment-only lines are skipped, the first
      bad line stops the run, and the table holds exactly the modules the
      lines name. */
  function ParseVersions(lines: seq<string>, syntax: LineSyntax): (r: Result<map<string, VersionRange>, VersionsError>)
    ensures r.Success? <==> forall i :: 0 <= i < |lines| ==> !ParseLine(syntax, lines[i]).Bad?
    decreases |lines|
  {
    if |lines| == 0 then Success(map[])
    else
      var init := lines[..|lines| - 1];
      assert forall i :: 0 <= i < |init| ==> init[i] == lines[i];
      VersionsStep(ParseVersions(init, syntax), ParseLine(syntax, lines[|lines| - 1]))
  }

  /** The loop over lines already parsed. */
  function Steps(ps: seq<LineParse>): Result<map<string, VersionRange>, VersionsError>
    decreases |ps|
  {
    if |ps| == 0 then Success(map[]) else VersionsStep(Steps(ps[..|ps| - 1]), ps[|ps| - 1])
  }

  /** Each line, parsed. */
  function ParsedLines(lines: seq<string>, syntax: LineSyntax): (r: seq<LineParse>)
    ensures |r| == |lines|
    decreases |lines|
  {
    if |lines| == 0 then [] else ParsedLines(lines[..|lines| - 1], syntax) + [ParseLine(syntax, lines[|lines| - 1])]
  }

  lemma {:induction false} ParsedLinesAt(lines: seq<string>, syntax: LineSyntax)
    ensures forall i :: 0 <= i < |lines| ==> ParsedLines(lines, syntax)[i] == ParseLine(syntax, lines[i])
    decreases |lines|
  {
    if |lines| > 0 {
      var init := lines[..|lines| - 1];
      ParsedLinesAt(init, syntax);
      forall i | 0 <= i < |init| ensures ParsedLines(lines, syntax)[i] == ParseLine(syntax, lines[i]) {
        assert init[i] == lines[i];
      }
    }
  }

  /** `parse_versions` is the loop run over the parsed lines. */
  lemma {:induction false} ParseVersionsIsSteps(lines: seq<string>, syntax: LineSyntax)
    ensures ParseVersions(lines, syntax) == Steps(ParsedLines(lines, syntax))
    decreases |lines|
  {
    if |lines| > 0 {
      var init := lines[..|lines| - 1];
      ParseVersionsIsSteps(init, syntax);
      var ps := ParsedLines(lines, syntax);
      assert ps[..|ps| - 1] == ParsedLines(init, syntax);
    }
  }

  /** The loop's table holds exactly the modules of the entries. */
  lemma {:induction false} StepsKeys(ps: seq<LineParse>)
    requires Steps(ps).Success?
    ensures forall m :: m in Steps(ps).value <==> exists i :: 0 <= i < |ps| && ps[i].Entry? && ps[i].moduleName == m
    decreases |ps|
  {
    if |ps| > 0 {
      var init := ps[..|ps| - 1];
      StepsKeys(init);
      forall m ensures m in Steps(ps).value <==> exists i :: 0 <= i < |ps| && ps[i].Entry? && ps[i].moduleName == m {
        if exists i :: 0 <= i < |init| && init[i].Entry? && init[i].moduleName == m {
          var i :| 0 <= i < |init| && init[i].Entry? && init[i].moduleName == m;
          assert ps[i] == init[i];
        }
        if exists i :: 0 <= i < |ps| && ps[i].Entry? && ps[i].moduleName == m {
          var i :| 0 <= i < |ps| && ps[i].Entry? && ps[i].moduleName == m;
          if i < |init| {
            assert init[i] == ps[i];
          }
        }
      }
    }
  }

  /** The table holds exactly the modules the lines name. */
  lemma TableListsNamedModules(lines: seq<string>, syntax: LineSyntax)
    requires ParseVersions(lines, syntax).Success?
    ensures forall m :: m in ParseVersions(lines, syntax).value <==> exists i :: 0 <= i < |lines| && Names(syntax, lines[i], m)
  {
    ParseVersionsIsSteps(lines, syntax);
    ParsedLinesAt(lines, syntax);
    StepsKeys(ParsedLines(lines, syntax));
  }

  /** The run stops at the first bad line and reports it. */
  lemma {:induction false} FirstBadLineStops(lines: seq<string>, syntax: LineSyntax)
    requires ParseVersions(lines, syntax).Failure?
    ensures exists i ::
      && 0 <= i < |lines|
      && ParseLine(syntax, lines[i]) == Bad(ParseVersions(lines, syntax).error)
      && forall j :: 0 <= j < i ==> !ParseLine(syntax, lines[j]).Bad?
    decreases |lines|
  {
    var init := lines[..|lines| - 1];
    assert forall i :: 0 <= i < |init| ==> init[i] == lines[i];
    if ParseVersions(init, syntax).Failure? {
      FirstBadLineStops(init, syntax);
      var i :| 0 <= i < |init| && ParseLine(syntax, init[i]) == Bad(ParseVersions(init, syntax).error)
        && forall j :: 0 <= j < i ==> !ParseLine(syntax, init[j]).Bad?;
      assert ParseLine(syntax, lines[i]) == Bad(ParseVersions(lines, syntax).error);
    } else {
      assert ParseLine(syntax, lines[|lines| - 1]) == Bad(ParseVersions(lines, syntax).error);
    }
  }

  /** One iteration of `parse_versions`' loop: a bad line stops it, an
      entry sets its module's window, a blank line changes nothing. */
  function VersionsStep(prev: Result<map<string, VersionRange>, VersionsError>, line: LineParse)
    : (r: Result<map<string, VersionRange>, VersionsError>)
    ensures r.Success? <==> prev.Success? && !line.Bad?
    ensures r.Failure? ==> if prev.Failure? then r == prev else line == Bad(r.error)
    ensures r.Success? && line.Blank? ==> r.value == prev.value
    ensures r.Success? && line.Entry? ==>
      && r.value.Keys == prev.value.Keys + {line.moduleName}
      && r.value[line.moduleName] == line.range
      && forall m :: m in prev.value && m != line.moduleName ==> r.value[m] == prev.value[m]
  {
    if prev.Failure? then prev
    else
      match line
      case Blank => prev
      case Entry(name, range) => Success(prev.value[name := range])
      case Bad(e) => Failure(e)
  }

  /** A later line for the same module overwrites an earlier one: the table
      holds the range of the last line naming the module. */
  lemma {:induction false} LastLineWins(lines: seq<string>, syntax: LineSyntax, i: nat)
    requires ParseVersions(lines, syntax).Success?
    requires i < |lines| && ParseLine(syntax, lines[i]).Entry?
    requires forall j :: i < j < |lines| ==> !Names(syntax, lines[j], ParseLine(syntax, lines[i]).moduleName)
    ensures var table := ParseVersions(lines, syntax).value;
      && ParseLine(syntax, lines[i]).moduleName in table
      && table[ParseLine(syntax, lines[i]).moduleName] == ParseLine(syntax, lines[i]).range
    decreases |lines|
  {
    var init := lines[..|lines| - 1];
    assert forall k :: 0 <= k < |init| ==> init[k] == lines[k];
    if i < |lines| - 1 {
      LastLineWins(init, syntax, i);
    }
  }

  /** `min <= version <= max` on int tuples. */
  predicate InWindow(range: VersionRange, v: VersionTuple) {
    VersionLe(range.min, v) && VersionLe(v, range.max)
  }
}
