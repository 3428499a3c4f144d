/** The `[mypy-tests]` section of a distribution's `METADATA.toml`
    (`add_configuration`) and the mypy configuration file `run_mypy` writes
    from it. */
module MypyConfig {
  import opened Wrappers
  import opened Strings
  import opened Toml

  /** `MypyDistConf`: a module name and the option table mypy gets for it. */
  datatype MypyDistConf = MypyDistConf(moduleName: string, values: Table)

  /** One constructor per assertion of `add_configuration`. */
  datatype ConfigError =
    | NotASection                          // "mypy-tests should be a section"
    | SectionNotTable(section: string)     // "<section> should be a section"
    | MissingModuleName(section: string)   // "... should have a module_name key"
    | ModuleNameNotString(section: string) // "... should be a key-value pair"
    | MissingValues(section: string)       // "... should have a values section"
    | ValuesNotTable(section: string)      // "values should be a section"

  /** What a well-formed subsection looks like: a table whose `module_name`
      is a string and whose `values` is a table. */
  predicate WellFormedSection(v: Value) {
    && v.TTable?
    && GetOr(v.entries, "module_name", TInt(0)).TStr?
    && HasKey(v.entries, "module_name")
    && HasKey(v.entries, "values")
    && GetOr(v.entries, "values", TInt(0)).TTable?
  }

  /** One iteration of the loop over the `mypy-tests` subsections. */
  function ParseSection(name: string, v: Value): (r: Result<MypyDistConf, ConfigError>)
    ensures r.Success? <==> WellFormedSection(v)
    ensures r.Success? ==>
      && Get(v.entries, "module_name") == Some(TStr(r.value.moduleName))
      && Get(v.entries, "values") == Some(TTable(r.value.values))
    ensures r.Failure? ==> !r.error.NotASection? && r.error.section == name
  {
    if !v.TTable? then Failure(SectionNotTable(name))
    else
      match Get(v.entries, "module_name")
      case None => Failure(MissingModuleName(name))
      case Some(m) =>
        if !m.TStr? then Failure(ModuleNameNotString(name))
        else
          match Get(v.entries, "values")
          case None => Failure(MissingValues(name))
          case Some(vals) =>
            if !vals.TTable? then Failure(ValuesNotTable(name))
            else Success(MypyDistConf(m.s, vals.entries))
  }

  /** The loop over the subsections, in document order: the first malformed
      one stops it. */
  function ParseSections(sections: Table): (r: Result<seq<MypyDistConf>, ConfigError>)
    ensures r.Success? <==> forall i :: 0 <= i < |sections| ==> WellFormedSection(sections[i].1)
    ensures r.Success? ==>
      && |r.value| == |sections|
      && forall i :: 0 <= i < |sections| ==> Success(r.value[i]) == ParseSection(sections[i].0, sections[i].1)
    ensures r.Failure? ==>
      exists i :: 0 <= i < |sections|
        && ParseSection(sections[i].0, sections[i].1) == Failure(r.error)
        && forall j :: 0 <= j < i ==> WellFormedSection(sections[j].1)
    decreases |sections|
  {
    if |sections| == 0 then Success([])
    else
      match ParseSection(sections[0].0, sections[0].1)
      case Failure(e) => Failure(e)
      case Success(c) =>
        var rest := ParseSections(sections[1..]);
        assert forall i :: 1 <= i < |sections| ==> sections[i] == sections[1..][i - 1];
        match rest
        case Failure(e) =>
          var k :| 0 <= k < |sections[1..]|
            && ParseSection(sections[1..][k].0, sections[1..][k].1) == Failure(e)
            && forall j :: 0 <= j < k ==> WellFormedSection(sections[1..][j].1);
          assert ParseSection(sections[k + 1].0, sections[k + 1].1) == Failure(e);
          Failure(e)
        case Success(cs) => Success([c] + cs)
  }

  /** `add_configuration`, given the decoded metadata document: a missing or
      falsy `mypy-tests` adds nothing, anything else must be a table of
      well-formed subsections, each adding one configuration in order. */
  function AddConfiguration(confs: seq<MypyDistConf>, data: Table): (r: Result<seq<MypyDistConf>, ConfigError>)
    ensures !HasKey(data, "mypy-tests") ==> r == Success(confs)
    ensures HasKey(data, "mypy-tests") && !Truthy(GetOr(data, "mypy-tests", TInt(0))) ==> r == Success(confs)
    ensures HasKey(data, "mypy-tests") && Truthy(GetOr(data, "mypy-tests", TInt(0))) ==>
      var section := GetOr(data, "mypy-tests", TInt(0));
      && (!section.TTable? ==> r == Failure(NotASection))
      && (section.TTable? ==> r.Success? == ParseSections(section.entries).Success?)
    ensures r.Success? ==> |confs| <= |r.value| && r.value[..|confs|] == confs
  {
    match Get(data, "mypy-tests")
    case None => Success(confs)
    case Some(section) =>
      if !Truthy(section) then Success(confs)
      else if !section.TTable? then Failure(NotASection)
      else
        match ParseSections(section.entries)
        case Failure(e) => Failure(e)
        case Success(cs) =>
          assert (confs + cs)[..|confs|] == confs;
          Success(confs + cs)
  }

  /** The block `add_configuration` appends, and whether it fails, do not
      depend on the configurations gathered before: calling it once per
      entry of a distribution appends the same block each time. */
  lemma AddConfigurationAppends(confs: seq<MypyDistConf>, data: Table)
    ensures AddConfiguration(confs, data).Success? <==> AddConfiguration([], data).Success?
    ensures AddConfiguration(confs, data).Success? ==>
      AddConfiguration(confs, data).value == confs + AddConfiguration([], data).value
    ensures AddConfiguration(confs, data).Failure? ==>
      AddConfiguration(confs, data).error == AddConfiguration([], data).error
  {
    assert [] + confs == confs;
  }

  // ---------------------------------------------------------------------------
  // The configuration file

  /** The lines one configuration contributes: its `[mypy-<module>]` header
      and one `key = value` line per option. `render` is Python's `str()` of
      a decoded value. */
  function ConfBlock(c: MypyDistConf, render: Value -> string): (r: seq<string>)
    ensures |r| == 1 + |c.values|
    ensures r[0] == "[mypy-" + c.moduleName + "]"
    ensures forall i :: 0 <= i < |c.values| ==> r[1 + i] == c.values[i].0 + " = " + render(c.values[i].1)
  {
    ["[mypy-" + c.moduleName + "]"]
      + seq(|c.values|, i requires 0 <= i < |c.values| => c.values[i].0 + " = " + render(c.values[i].1))
  }

  /** The blocks of all configurations, in order. */
  function ConfBlocks(confs: seq<MypyDistConf>, render: Value -> string): seq<string>
    decreases |confs|
  {
    if |confs| == 0 then [] else ConfBlock(confs[0], render) + ConfBlocks(confs[1..], render)
  }

  /** The lines of the file: `[mypy]`, then every block. */
  function ConfigLines(confs: seq<MypyDistConf>, render: Value -> string): (r: seq<string>)
    ensures |r| >= 1 && r[0] == "[mypy]"
  {
    ["[mypy]"] + ConfBlocks(confs, render)
  }

  /** Every line written with its terminating newline. */
  function Terminated(lines: seq<string>): string
    decreases |lines|
  {
    if |lines| == 0 then "" else lines[0] + "\n" + Terminated(lines[1..])
  }

  /** The text `run_mypy` writes to its temporary configuration file. */
  function ConfigText(confs: seq<MypyDistConf>, render: Value -> string): (r: string)
    ensures StartsWith(r, "[mypy]\n")
  {
    var lines := ConfigLines(confs, render);
    assert lines == [lines[0]] + lines[1..];
    assert Terminated(lines) == "[mypy]\n" + Terminated(lines[1..]);
    Terminated(lines)
  }

  /** The blocks of a concatenation are the concatenated blocks: each
      configuration's lines appear in the file in list order. */
  lemma {:induction false} ConfBlocksAppend(a: seq<MypyDistConf>, b: seq<MypyDistConf>, render: Value -> string)
    ensures ConfBlocks(a + b, render) == ConfBlocks(a, render) + ConfBlocks(b, render)
    decreases |a|
  {
    if |a| == 0 {
      assert a + b == b;
    } else {
      assert (a + b)[0] == a[0] && (a + b)[1..] == a[1..] + b;
      ConfBlocksAppend(a[1..], b, render);
    }
  }

  /** Terminating every line is joining them with newlines and ending with
      one more. */
  lemma {:induction false} TerminatedIsJoin(lines: seq<string>)
    ensures Terminated(lines) == Join(lines + [""], '\n')
    decreases |lines|
  {
    if |lines| > 0 {
      TerminatedIsJoin(lines[1..]);
      assert (lines + [""])[1..] == lines[1..] + [""];
      assert (lines + [""])[0] == lines[0];
    }
  }

  /** Reading the file back line by line gives exactly the lines written,
      when no module name, key or rendered value holds a newline. */
  lemma ConfigTextLines(confs: seq<MypyDistConf>, render: Value -> string)
    requires forall i :: 0 <= i < |ConfigLines(confs, render)| ==> '\n' !in ConfigLines(confs, render)[i]
    ensures Split(ConfigText(confs, render), '\n') == ConfigLines(confs, render) + [""]
  {
    var lines := ConfigLines(confs, render);
    TerminatedIsJoin(lines);
    assert forall i :: 0 <= i < |lines + [""]| ==> '\n' !in (lines + [""])[i] by {
      forall i | 0 <= i < |lines + [""]| ensures '\n' !in (lines + [""])[i] {
        if i < |lines| {
          assert (lines + [""])[i] == lines[i];
        }
      }
    }
    SplitJoin(lines + [""], '\n');
  }
}
