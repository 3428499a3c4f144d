# typeshed test drivers, modelled in Dafny

typeshed ships two scripts that guard its stub tree.

- `tests/mypy_test.py` runs mypy over `stdlib` and over every third-party distribution in `stubs`, once for each Python version and platform. It does the following:
  - selects files through an exclude-before-include `match`;
  - reads `stdlib/VERSIONS` to decide which standard-library modules exist in the tested version;
  - gathers each distribution's files, together with the `[mypy-tests]` sections of its `METADATA.toml`;
  - groups distributions by their external requirements into shared virtual environments;
  - builds the mypy and pip command lines, the MYPYPATH and the temporary configuration file;
  - folds the exit codes and file counts into one exit status.
- `tests/check_consistent.py` validates the repository's layout:
  - only stubs in `stdlib` and `stubs`, plus a few allowed extras;
  - distribution directory names;
  - the rules of test-case files;
  - `VERSIONS` against the modules that actually exist;
  - each distribution's `METADATA.toml` record.

The model keeps the decision logic of both scripts as pure functions over immutable data.

- **Paths** are sequences of components. `a in p.parents` becomes "a is a strict prefix of p".
- **The repository** is a value (`Driver.Repo`). It holds:
  - the regular files in walk order;
  - `os.listdir` results;
  - the decoded metadata records;
  - the dependency information `get_recursive_requirements` reports;
  - the lines of `VERSIONS`.
- **The environment** (`Driver.Host`) supplies whatever the scripts take from their environment or from the `utils` module. These are all parameters:
  - the `VERSIONS_RE` pattern and `strip_comments`;
  - gitignore matching;
  - `str()` of a decoded TOML value;
  - where a venv lives;
  - mypy itself, as a function from an invocation to an exit code.
- **The module-level venv mapping** is an explicit `Session` value. It is threaded through `test_third_party_stubs`, `test_typeshed` and `main`.
- **A venv** is identified by what it was made for: the host interpreter, or the requirement set it was created for.

Modules follow the scripts' structure:

- `Selection`, `Versions`, `MypyConfig`, `Commands`, `Venvs`, `Results` and `Driver` model `mypy_test.py`.
- `Filetypes`, `DistNames`, `Metadata` and `VersionsCheck` model `check_consistent.py`.
- `Strings`, `Orders`, `Paths`, `Toml` and `Wrappers` hold the Python built-ins both scripts use:
  - `str.split`, `str.strip`, `str.join`;
  - `sorted`, `set`;
  - `PurePath.suffix` and `.stem`;
  - `dict.get`, iteration of decoded TOML values;
  - the result types.

## Model

| member | source | states |
|---|---|---|
| Selection.ScanRoots | tests/mypy_test.py:140-153 | each loop of `match` stops at a root that is the path or one of its parents, and reports whether one exists |
| Selection.Match | tests/mypy_test.py:139-158 | a path under (or equal to) an exclude path never matches, whatever the filter; otherwise it matches exactly when it lies at or below some filter path |
| Selection.SelectedDistributionReachesStubs | tests/mypy_test.py:489-494 | a selected distribution implies the third-party pass is reached: the distribution test and the pass test of `test_typeshed` agree |
| Selection.MatchingFileSelectsDistribution | tests/mypy_test.py:489-494 | with filter paths that `valid_path` accepts, a file below `stubs/<name>` that `match` accepts makes `<name>` a selected distribution |
| Selection.MatchingFileReachesStdlib | tests/mypy_test.py:519 | likewise, a matching file below `stdlib` means the stdlib pass runs |
| Selection.RGlobPyi | tests/mypy_test.py:192 | `rglob("*.pyi")` yields exactly the files strictly below the directory whose name matches `*.pyi`, each at most as often as it exists |
| Selection.KeepMatching | tests/mypy_test.py:192 | the filter keeps exactly the paths `match` accepts |
| Selection.AddFiles | tests/mypy_test.py:186-192 | `add_files` only appends; a stub file is appended iff it matches; otherwise the appended block is sorted, holds exactly the matching `.pyi` files below the directory, and holds none more often than the walk lists it |
| Selection.AddFilesOnce | tests/mypy_test.py:186-192 | when the walk lists each file once, so does the block appended for a directory, so the block's length counts distinct files |
| Selection.AddFilesAppendsBlock | tests/mypy_test.py:186-192 | the appended block does not depend on the files gathered before |
| Versions.ParseVersion | tests/mypy_test.py:177-183 | a parsed version always has major version 2 or 3 |
| Versions.ParseVersionLeadingZero | tests/mypy_test.py:177-183 | leading zeros in the minor number are ignored by `int()`: `3.010` parses as `3.10` does, and both are accepted |
| Versions.ParseVersionString | tests/mypy_test.py:177-183 | every `2.N`/`3.N` string parses back to `(major, N)`, with or without one final newline |
| Versions.ParsedVersionIsCanonical | tests/mypy_test.py:177-183 | every accepted string without a leading zero or newline is the canonical spelling of its tuple, so the accepted strings are exactly the `2.N`/`3.N` forms written with ASCII digits |
| Versions.MalformedVersionsRefused | tests/mypy_test.py:177-183 | `3.x`, `4.1`, `3.` and `3.8-3.10` are refused |
| Versions.TuplesOrderNumerically | tests/mypy_test.py:365 | the window compares int tuples, so `3.10` is later than `3.9` |
| Versions.ParseLine | tests/mypy_test.py:164-173 | an entry's minimum is at least `2.0` |
| Versions.ParseLineCases | tests/mypy_test.py:165-173 | a line that strips to nothing is skipped; an unmatched line is reported; a matched line without a maximum gets the window from its minimum to `(99, 99)` |
| Versions.ParseVersions | tests/mypy_test.py:161-174 | parsing succeeds exactly when no line is bad |
| Versions.TableListsNamedModules | tests/mypy_test.py:161-174 | the table's keys are exactly the modules the lines name |
| Versions.ParseVersionsIsSteps | tests/mypy_test.py:164-174 | parsing the file is running the loop over its lines parsed one by one |
| Versions.StepsKeys | tests/mypy_test.py:164-174 | the loop's table has exactly the modules of the entry lines as keys |
| Versions.FirstBadLineStops | tests/mypy_test.py:164-169 | a failure reports the first bad line, and every earlier line is fine |
| Versions.VersionsStep | tests/mypy_test.py:164-173 | one iteration: a bad line stops, a blank line changes nothing, an entry sets its module's window and keeps every other entry |
| Versions.LastLineWins | tests/mypy_test.py:173 | a later line for a module overwrites an earlier one: the table holds the window of the last line naming it |
| MypyConfig.ParseSection | tests/mypy_test.py:218-229 | a subsection is accepted iff it is a table with a string `module_name` and a table `values`; the result carries exactly those; every failure names the subsection |
| MypyConfig.ParseSections | tests/mypy_test.py:218-229 | the loop succeeds iff every subsection is well formed, giving one configuration per subsection in order; otherwise it reports the first malformed one |
| MypyConfig.AddConfiguration | tests/mypy_test.py:209-229 | a missing or falsy `mypy-tests` adds nothing; a truthy non-table is refused; otherwise the subsections decide; the list is only appended to |
| MypyConfig.AddConfigurationAppends | tests/mypy_test.py:209-229 | what `add_configuration` appends, or why it fails, does not depend on the list it is given |
| MypyConfig.ConfBlock | tests/mypy_test.py:247-250 | one configuration's block is its `[mypy-<module>]` header, then one `k = v` line per value, in order |
| MypyConfig.ConfigText | tests/mypy_test.py:245-251 | the configuration file starts with `[mypy]` and a newline |
| MypyConfig.ConfBlocksAppend | tests/mypy_test.py:247-250 | the configurations' blocks appear in list order |
| MypyConfig.ConfigTextLines | tests/mypy_test.py:245-251 | read back line by line, the file is exactly `[mypy]` followed by every block, provided no name, key or value holds a newline |
| Commands.FixedFlags | tests/mypy_test.py:253-272 | seventeen fixed flags carry the version, platform, typeshed directory and configuration file in their places |
| Commands.MypyFlags | tests/mypy_test.py:253-276 | the fixed flags come first, followed by at most the two conditional flags |
| Commands.ConditionalFlags | tests/mypy_test.py:273-276 | `--explicit-package-bases` is present iff the run is not a stdlib run; `--no-site-packages` is present iff there are no non-types dependencies |
| Commands.MypyCommand | tests/mypy_test.py:278-279 | the interpreter, `-m mypy`, all the flags, then the files in order |
| Commands.PipInstallCommand | tests/mypy_test.py:389 | `pip install`, the mypy requirement, every requirement of the set once in code-point order, then `--no-cache-dir` |
| Commands.PipCommandDependsOnSetOnly | tests/mypy_test.py:389 | the pip command depends only on the requirement set, not on its order or repetitions |
| Commands.MypyPath | tests/mypy_test.py:341 | a non-empty MYPYPATH starts with a `stubs/` directory |
| Commands.MypyPathSplits | tests/mypy_test.py:341 | split at `:`, MYPYPATH gives back the directories of the distinct seen distributions |
| Commands.StubsDirsDistinct | tests/mypy_test.py:341 | distinct distributions give distinct directories |
| Commands.StubsDirsOf | tests/mypy_test.py:341 | the directories are exactly those of the seen distributions |
| Commands.MypyPathEntries | tests/mypy_test.py:341 | MYPYPATH lists the directory of every seen distribution, nothing else and none twice |
| Commands.MypyPathDependsOnSetOnly | tests/mypy_test.py:341 | MYPYPATH depends only on the set of seen distributions |
| Venvs.SameVenvIffSameRequirements | tests/mypy_test.py:407-416 | two distributions share a venv exactly when their external requirement sets are equal |
| Venvs.HostsOf | tests/mypy_test.py:410-416 | the host-venv distributions are exactly those without external requirements |
| Venvs.MembersOf | tests/mypy_test.py:410-414 | a requirement set's list holds exactly the distributions with that non-empty set |
| Venvs.RequirementKeys | tests/mypy_test.py:407-414 | the defaultdict's keys are the distinct non-empty requirement sets, none twice |
| Venvs.AddToGroup | tests/mypy_test.py:414 | appending to a defaultdict list creates the key on first use and appends the name to that key's list only |
| Venvs.GroupStepKeepsGrouping | tests/mypy_test.py:410-416 | one iteration of the stage-1 loop keeps the grouping correct for the distributions seen so far |
| Venvs.GroupDistributions | tests/mypy_test.py:405-416 | stage 1 gives the hosts, the distinct requirement sets with their members, and the count of distributions with external requirements |
| Venvs.AssignGroup | tests/mypy_test.py:474 | `update(dict.fromkeys(...))` maps every member to the group's venv and keeps other entries |
| Venvs.AssignGroupsAt | tests/mypy_test.py:472-474 | after stage 4 a name has the venv of the last group listing it, or keeps its old entry |
| Venvs.AssignHosts | tests/mypy_test.py:416 | distributions without external requirements map to the host venv |
| Venvs.GroupingPlacesEachOnce | tests/mypy_test.py:410-416 | a distribution lies in exactly the group of its own non-empty requirement set |
| Venvs.NoKeysIffAllEmpty | tests/mypy_test.py:408-422 | there are requirement sets exactly when some distribution has external requirements, which is when the early return is skipped |
| Venvs.SetupMappingAt | tests/mypy_test.py:405-416 | stages 1 and 4 give every input distribution the venv its requirement set calls for |
| Venvs.SetupMappingElsewhere | tests/mypy_test.py:472-474 | names that were not passed in keep their entry or stay absent |
| Venvs.SetupMapping | tests/mypy_test.py:400-474 | the mapping after setup covers every input distribution with its venv and changes nothing else |
| Venvs.InstallCommands | tests/mypy_test.py:457-461 | one `pip install` per requirement set, run in that set's venv, of exactly that set |
| Venvs.StagesTwoAndThree | tests/mypy_test.py:419-461 | no venv and no install when every set is empty; otherwise one venv and one install per distinct non-empty set |
| Venvs.SetupVirtualEnvironments | tests/mypy_test.py:400-474 | the resulting mapping and the venvs made are as stated above |
| Venvs.SetupOnce | tests/mypy_test.py:499-500 | setup runs only while the session mapping is empty; otherwise the session is kept and nothing is made |
| Results.Combine | tests/mypy_test.py:509-510 | the code becomes the larger of the two codes, and the counts add |
| Results.Fold | tests/mypy_test.py:504-510 | the code never decreases, is at least every run's code and is one of them; the count is the sum |
| Results.SumFilesPermutation | tests/mypy_test.py:504-510 | the total count does not depend on the order of the runs |
| Results.FoldOrderInsensitive | tests/mypy_test.py:504-510 | the folded result does not depend on the order the mapping yields the distributions in |
| Results.NegativeCodesAreMasked | tests/mypy_test.py:509 | starting from 0, runs ending with negative codes (signals) leave the code at 0 |
| Results.FoldExample | tests/mypy_test.py:509-510 | codes 0, 2, 1 over 3, 5, 1 files fold to `(2, 9)` |
| Results.ExitStatus | tests/mypy_test.py:546-552 | the status is the code when non-zero, else 1 when no file was checked, else 0 |
| Results.Product | tests/mypy_test.py:542 | `product` yields every version–platform pair and nothing else |
| Driver.StdlibBlock | tests/mypy_test.py:366 | the block gathered for a `stdlib` entry is what `add_files` appends for it |
| Driver.GatherStdlib | tests/mypy_test.py:360-366 | fails with the first entry whose module VERSIONS lacks; otherwise gathers exactly the files of entries whose window holds the version |
| Driver.StdlibRunShape | tests/mypy_test.py:370-372 | the stdlib run has no `--explicit-package-bases`, has `--no-site-packages`, no MYPYPATH, and a configuration with only `[mypy]` |
| Driver.TestStdlib | tests/mypy_test.py:356-375 | a VERSIONS parse error, a missing `stdlib` and a module VERSIONS lacks (the `KeyError` of the gather) are reported as such; otherwise the count is the number of gathered files, mypy runs once over them only when there are some, and the code is then exactly the larger of the old code and mypy's code |
| Driver.Visible | tests/mypy_test.py:306-308 | exactly the entries not starting with a dot |
| Driver.AddEntries | tests/mypy_test.py:306-310 | each visible entry adds its files block and a copy of the distribution's configuration, so the configuration is repeated once per entry |
| Driver.AddThirdPartyFiles | tests/mypy_test.py:298-310 | a seen distribution adds nothing; otherwise it and its typeshed dependencies become seen, and its files are appended entry by entry |
| Driver.AddThirdPartyFilesIdempotent | tests/mypy_test.py:301-304 | adding a distribution a second time changes nothing |
| Driver.ThirdPartyRunShape | tests/mypy_test.py:341-352 | a distribution's run has `--explicit-package-bases`, and `--no-site-packages` iff it uses the host venv; the MYPYPATH distributions, itself and its typeshed dependencies, are exactly the seen set |
| Driver.ThirdPartyFlags | tests/mypy_test.py:344-352 | the conditional flags of a third-party run follow the venv it runs in |
| Driver.SeenIsDistributionAndDependencies | tests/mypy_test.py:301-304 | starting afresh, the seen set is the distribution and its typeshed dependencies |
| Driver.TestThirdPartyDistribution | tests/mypy_test.py:318-353 | no files under a non-empty filter gives `(0, 0)`; no files otherwise is an error; else mypy runs once over the files |
| Driver.NameSetSize | tests/mypy_test.py:481 | dictionary keys are distinct, so a selection without repeated names has as many keys as entries |
| Driver.SelectDistributions | tests/mypy_test.py:483-494 | succeeds iff every chosen name has known requirements, and then records exactly the listed, non-ignored directories the filter selects, each with its requirements; otherwise it fails for the first chosen name without them |
| Driver.SelectionIncreasing | tests/mypy_test.py:483 | iterating the sorted listing records the distributions in increasing order |
| Driver.IncreasingNamesAreDistinct | tests/mypy_test.py:481 | increasing names are distinct dictionary keys |
| Driver.Selected | tests/mypy_test.py:481-494 | succeeds iff `stubs` is listed and every chosen entry has known requirements; then it names exactly the chosen entries, each with its recorded requirements; a failure is the missing listing or a chosen entry without requirements |
| Driver.SelectedIsDistinct | tests/mypy_test.py:481-494 | no name is selected twice, as for the keys of a dictionary |
| Driver.DistributionRuns | tests/mypy_test.py:504-508 | one run per distribution in its venv; the first failing run stops the loop |
| Driver.FirstSetupGivesVenvMapping | tests/mypy_test.py:499-500 | setting up from an empty mapping gives each selected distribution the venv of its requirement set, and nothing else an entry |
| Driver.VenvMappingKeys | tests/mypy_test.py:502 | that mapping's keys are the selection's names, so the assertion holds |
| Driver.SetupForSelection | tests/mypy_test.py:499-500 | a fresh session gets that mapping; any other session is kept |
| Driver.RunInTurnIsFold | tests/mypy_test.py:504-510 | running the distributions in turn and combining as it goes is the fold of the runs, and the first failure is that of the runs |
| Driver.TestThirdPartyStubs | tests/mypy_test.py:477-512 | from a fresh session or one set up for this selection, the result is the fold (max of codes, sum of counts) of one run per selected distribution in its venv, and the session then holds that venv mapping; the code never decreases; a later call keeps the session; the keys assertion never fails |
| Driver.TestStubsPart | tests/mypy_test.py:524-527 | the stubs half of `test_typeshed`: skipped unless the filter reaches `stubs`; otherwise the third-party pass from the current code, its count added |
| Driver.TestTypeshed | tests/mypy_test.py:515-529 | the result is the stdlib pass (when reached) followed by the third-party pass (when reached), each from the code so far, with counts added; a filter reaching neither tree does nothing; the code never decreases; a fitting session stays fitting |
| Driver.MainRunsStep | tests/mypy_test.py:542-545 | one turn of `main`'s loop adds one `test_typeshed` pass from the code so far |
| Driver.MainRunsStopAtError | tests/mypy_test.py:542-545 | an error in some turn is the outcome of the whole loop |
| Driver.RunOne | tests/mypy_test.py:542-545 | a turn of the loop computes the next prefix of the runs over the version–platform pairs |
| Driver.RunMain | tests/mypy_test.py:532-552 | the outcome is the `test_typeshed` passes over every version–platform pair of the product (or the defaults), in order, each from the previous code, counts summed; the status is 0 iff no error, code 0 and some file checked; the code is never negative; the keys assertion never fails |
| DistNames.ScanGroupAccepts | tests/check_consistent.py:52 | the scan accepts iff every remaining character is a name character and the name ends on a letter or digit |
| DistNames.DistNameReFullmatch | tests/check_consistent.py:52 | `dist_name_re.fullmatch` accepts exactly the valid distribution names |
| DistNames.MiddleMatches | tests/check_consistent.py:90 | `[A-Z0-9._-]*` accepts a run iff every character is a name character |
| DistNames.SameNameRule | tests/check_consistent.py:90-93 | the pattern of `check_stubs` and `dist_name_re` accept the same names |
| DistNames.AcceptedNames | tests/check_consistent.py:52 | single letters, punctuation inside, and letters folded by IGNORECASE are accepted |
| DistNames.RefusedNames | tests/check_consistent.py:52 | the empty name, leading or trailing punctuation, spaces and a trailing newline are refused |
| DistNames.CheckStubDirName | tests/check_consistent.py:90-94 | a directory name passes iff it is a valid distribution name not starting with `types-`, with the errors in source order |
| Filetypes.CheckFiletypes | tests/check_consistent.py:55-76 | the worklist passes exactly when every entry is fine: ignored or allowed, a file with an identifier stem and the right suffix, or an identifier-named directory whose entries are fine |
| Filetypes.ListingOrderIrrelevant | tests/check_consistent.py:60-76 | the verdict does not depend on `iterdir`'s order |
| Filetypes.AllowedEntriesAreSkipped | tests/check_consistent.py:66-68 | an allowed directory is not looked into, and an allowed file may have any suffix |
| Filetypes.CheckStdlib | tests/check_consistent.py:79-80 | passes exactly when `stdlib` follows those rules |
| Filetypes.CheckStubs | tests/check_consistent.py:83-97 | passes iff every non-ignored entry is a directory with a good name and layout; a name error comes from one of the entries |
| Filetypes.HasStrippedLineMeans | tests/check_consistent.py:107-108 | the target is in the set of stripped lines exactly when some line strips to it |
| Filetypes.TestCaseFileRules | tests/check_consistent.py:104-116 | a test-case file is fine iff its stem starts with `check_`, some stripped line is the `__future__` import, and outside `stdlib` some stripped line is the pyright setting |
| Filetypes.CheckTestCaseFile | tests/check_consistent.py:105-116 | the checks of one file pass exactly on fine files, and every failure names the file |
| Filetypes.CheckXIsATestCaseName | tests/check_consistent.py:105 | `check_x.py` has a `check_` stem |
| Filetypes.StdlibTestCaseNeedsFutureImport | tests/check_consistent.py:107-109 | a stdlib test case needs only the `__future__` import, whatever whitespace surrounds it |
| Filetypes.ThirdPartyTestCaseNeedsPyrightSetting | tests/check_consistent.py:109-116 | a third-party test case without the pyright setting fails for that reason |
| Filetypes.FutureImportAlone | tests/check_consistent.py:107-115 | the `__future__` line alone is not the pyright setting |
| Filetypes.TestCaseNamesStartWithCheck | tests/check_consistent.py:105 | a file not named `check_*` fails for its name |
| Filetypes.PyFiles | tests/check_consistent.py:104 | every regular file anywhere below whose name ends in `.py` is collected, and no other file |
| Filetypes.CheckTestCaseFiles | tests/check_consistent.py:104-116 | passes iff every `.py` file is fine; a failure is that of one of the files |
| Filetypes.CheckTestCases | tests/check_consistent.py:100-116 | passes exactly when every test-case directory has a good layout and good files |
| Metadata.RemoveSuffix | tests/check_consistent.py:172 | `removesuffix(".*")` drops the suffix exactly when it is there |
| Metadata.CheckKeys | tests/check_consistent.py:173-174 | passes iff every key is allowed; otherwise reports a present key that is not |
| Metadata.CheckRequirement | tests/check_consistent.py:176-181 | a requirement passes iff it is a string without space, tab or newline that parses |
| Metadata.CheckRequirements | tests/check_consistent.py:176-181 | the loop passes iff every element does, and a failure is that of one of them |
| Metadata.CheckSystemDeps | tests/check_consistent.py:199-204 | passes iff no unspecified supported platform has its system-dependency key; a failure names such a platform |
| Metadata.CheckStubtest | tests/check_consistent.py:189-204 | the stubtest section passes iff its keys are known, its platforms (default `linux`) are supported, and no unspecified platform has dependencies |
| Metadata.CheckTool | tests/check_consistent.py:188-193 | passes iff `tool` is absent, or a table naming only `stubtest` whose section passes |
| Metadata.CheckFields | tests/check_consistent.py:173-193 | passes iff the keys are allowed, `requires` is a list of good requirements, `stub_distribution` is a valid name, `upload` is a bool, and the tool part passes |
| Metadata.CheckMetadata | tests/check_consistent.py:167-170 | a missing version, or one that is not a string, is refused with that reason |
| Metadata.CheckMetadataAcceptsValid | tests/check_consistent.py:163-204 | the checks pass exactly on valid records |
| Metadata.CheckEach | tests/check_consistent.py:164-166 | the loop over distributions passes iff each has a record that passes; a failure names a distribution and its reason |
| Metadata.CheckAllMetadata | tests/check_consistent.py:163-204 | `check_metadata` passes iff every distribution has a record that passes; a failure names the distribution, a missing file or the record's error |
| Metadata.CheckAllMetadataAcceptsValid | tests/check_consistent.py:163-204 | `check_metadata` passes exactly when every distribution has a valid record |
| Metadata.VersionAccepted | tests/check_consistent.py:167-172 | a string version that parses hands the record on to the field checks |
| Metadata.OnlyToolDecides | tests/check_consistent.py:173-188 | a record of known keys without `requires`, `stub_distribution` or `upload` is decided by its tool part |
| Metadata.StubtestDecides | tests/check_consistent.py:188-193 | a `tool` table holding only `stubtest` is decided by that section |
| Metadata.PlatformsDecide | tests/check_consistent.py:193-204 | once keys and platforms are fine, the system-dependency loop decides |
| Metadata.OnlyOffenderReported | tests/check_consistent.py:200-204 | in any visiting order, an unspecified platform with dependencies is the one reported when no other unspecified platform has any |
| Metadata.MinimalRecordIsValid | tests/check_consistent.py:167-172 | a record holding only a wildcard version is valid |
| Metadata.UnknownKeyRejected | tests/check_consistent.py:173-174 | a key outside the eight allowed ones is reported |
| Metadata.StubtestOnlyRecordDecided | tests/check_consistent.py:188-193 | a record with a version and only a stubtest section is decided by that section |
| Metadata.UnknownPlatformStubtest | tests/check_consistent.py:194-197 | a stubtest section naming `plan9` fails |
| Metadata.UnknownPlatformRejected | tests/check_consistent.py:194-197 | a record naming an unsupported platform fails for that reason |
| Metadata.KnownStubtestKeys | tests/check_consistent.py:189-191 | a stubtest table of the seven allowed keys passes the key check |
| Metadata.UnspecifiedPlatformStubtest | tests/check_consistent.py:199-204 | Homebrew dependencies with the default platforms fail for darwin |
| Metadata.UnspecifiedPlatformDepsRejected | tests/check_consistent.py:199-204 | a record with those dependencies fails for darwin |
| Metadata.RequiresShapeEnforced | tests/check_consistent.py:175-179 | a `requires` that is not a list is refused, and so is a requirement with a space |
| VersionsCheck.CheckVersions | tests/check_consistent.py:128-147 | passes iff every line is blank or matches, no module is listed twice, every top-level module is listed and every listed name is a module; each error reports the set it found |
| VersionsCheck.EntryListsModule | tests/check_consistent.py:132-139 | the two scripts read the same module from a line |
| VersionsCheck.ParsedTableListsSameModules | tests/check_consistent.py:132-141 | `parse_versions`' table has exactly the modules this check collects |
| VersionsCheck.SplitextRoot | tests/check_consistent.py:158 | the root of `splitext` is a prefix of the name |
| VersionsCheck.ModuleOfFile | tests/check_consistent.py:153-159 | a file gives a module exactly when its name ends in `.pyi` |
| VersionsCheck.FindStdlibModules | tests/check_consistent.py:150-160 | the modules are exactly those the files give |
| VersionsCheck.OnlyStubsCount | tests/check_consistent.py:155-159 | files that are not stubs add no module |
| VersionsCheck.ModuleNameSplitsBack | tests/check_consistent.py:154-159 | splitting the dotted name gives back the directories and the stem, or only the directories for `__init__.pyi` |
| VersionsCheck.SplitextOfStub | tests/check_consistent.py:158 | the root of `<stem>.pyi` is the stem |
| VersionsCheck.StdlibModuleNames | tests/check_consistent.py:150-160 | `a/b/__init__.pyi` is `a.b`, `a/c.pyi` is `a.c`, `c.pyi` is `c`, and `README.md` is nothing |
| Toml.Get | tests/check_consistent.py:175 | `dict.get` finds a value iff the key is present, and it is that key's value |
| Toml.Iterate | tests/check_consistent.py:190 | iterating a string yields its characters, a table its keys; an int or bool cannot be iterated |
| Strings.Split | tests/check_consistent.py:144 | `split` gives at least one piece and no piece holds the separator |
| Strings.SplitJoin | tests/mypy_test.py:341 | splitting a join gives the parts back when no part holds the separator |
| Strings.JoinSplit | tests/check_consistent.py:144 | joining a split gives the string back |
| Strings.DecimalOfNatToString | tests/mypy_test.py:183 | `int(str(n)) == n` |
| Strings.Strip | tests/check_consistent.py:107 | a stripped line has no whitespace at either end |
| Strings.StripRemovesSurroundingSpace | tests/check_consistent.py:107 | `strip` removes exactly the surrounding whitespace |
| Paths.StemAndSuffix | tests/mypy_test.py:363 | stem and suffix split the name |
| Paths.PyiSuffix | tests/mypy_test.py:188 | a name has suffix `.pyi` iff it ends in `.pyi` with something before the dot |
| Orders.StrLessIsStrictTotalOrder | tests/mypy_test.py:483 | string comparison is a strict total order |
| Orders.PathLessIsStrictTotalOrder | tests/mypy_test.py:192 | path comparison is a strict total order |
| Orders.SortBy | tests/mypy_test.py:192 | `sorted` gives a sorted permutation |
| Orders.SortDistinct | tests/mypy_test.py:389 | `sorted(set(s))` gives the distinct elements, strictly increasing |
| Orders.StrictlySortedUnique | tests/mypy_test.py:389 | two strictly sorted lists with the same elements are equal |

## Left out

- I/O: running mypy and pip, `make_venv`, temporary files and directories, printing, colouring and `log`. The commands and file text are built. mypy's exit code comes from a function parameter; pip's result is not used (see below).
- Threads: the thread pools and `_PRINT_LOCK` do not change the resulting mapping. The stages are modelled one after another.
- Venv directory names: `hash(requirements_set)` in the directory name is not modelled. Python's hash can collide, so a venv is identified by its requirement set.
- `pip install` failures: `install_requirements_for_venv` re-raises a failed install (tests/mypy_test.py:395-397), so a failure is evidently meant to be fatal. But the caller waits on the futures with `concurrent.futures.wait`, which does not re-raise a worker's exception. The model follows the code, so install outcomes are ignored.
- `utils` helpers: `get_recursive_requirements`, `VERSIONS_RE`, `strip_comments`, `METADATA_MAPPING`, gitignore matching, `get_mypy_req` and `get_all_testcase_directories` are parameters. They have no source here.
- Library parsing: `packaging` (`Version`, `Requirement`) is given as predicates. `tomli` and `yaml` decoding is not modelled: records arrive decoded. TOML floats and dates are not part of the value type.
- Unmodelled checks: `check_requirements` and `get_precommit_requirements` (both depend on `packaging` equality and YAML), `check_no_symlinks` (symlinks are not part of the file model), argparse, and `valid_path`'s existence check.
- `str.isidentifier`: a parameter.
- Traversal results: `os.walk`, `listdir` and `rglob` are given as their results. In `Selection`, `rglob` matching a directory named `*.pyi` is not modelled, because its file system holds files only.
- Filetypes.PyFiles: `rglob("*.py")` (tests/check_consistent.py:104) also yields a directory whose name ends in `.py`, such as a gitignored `check_a.py/` that the layout check skips. The source then fails on it, at the stem check (:105) or when `open()` raises `IsADirectoryError` (:106). The model collects files only, so CheckTestCases passes such a directory.
- MYPYPATH order: it joins the seen set in Python's set-iteration order, which is unspecified. The model uses code-point order; MypyPathDependsOnSetOnly shows the set alone decides.
- Venv mapping order: the source iterates the mapping in insertion order, which is the host-venv distributions first (tests/mypy_test.py:416), then each requirement group in turn (tests/mypy_test.py:472-474), and stops at the first exception. The model runs the selection in sorted order, and TestThirdPartyStubs is tied to that order. The mapping has the same keys, and FoldOrderInsensitive shows that when every run succeeds the order cannot change the result. When two or more distributions fail, the error reported can differ from the source's; the exit status is 1 either way.
- Metadata.CheckSystemDeps: the source loops over the set `supported_stubtest_platforms` (tests/check_consistent.py:50, 200), whose order follows the string-hash seed. The model visits darwin, linux, win32. When two unspecified platforms both have dependencies, which one the source reports is not fixed; OnlyOffenderReported states only the order-independent case.
- Versions.ParseVersion: `\d` in a `str` pattern matches every Unicode decimal digit and `int()` converts them; the model accepts ASCII `0`-`9` only, so `3.` followed by non-ASCII digits is refused where the source accepts it. Its own contract states only the major version; ParseVersionString, ParsedVersionIsCanonical and ParseVersionLeadingZero state the rest.
- Driver.TestThirdPartyStubs: the tie to the fold is stated for a fresh session or one set up for the same selection, which is every call `main` makes. A session set up for another selection fails the keys assertion or runs other venvs, and the contract does not describe that result. The runs go in sorted selection order rather than the mapping's insertion order (see "Venv mapping order"), so with several failing distributions the error it reports may not be the source's.
- Errors: uncaught exceptions and failed assertions become constructors of error datatypes. The message texts are not modelled.
- `non_types_dependencies`: it compares `python_exe` with `sys.executable`. The model reads it off the venv handle: any venv made for a requirement set is not the host.
- Driver.RunMain: the status is the argument of `sys.exit`. The operating system's truncation of a status above 255 to 8 bits is not modelled.
- Metadata.CheckMetadata: its own contract covers only the version checks. The full rule set is stated by CheckMetadataAcceptsValid.
- Versions.ParseLine: its own contract states only the minimum's lower bound. ParseLineCases and VersionsStep state the line cases.
