# bpytest core in Dafny

This project models the core of bpytest, a pytest-like test runner for
Blender. It covers:

- the fixture engine: registration, scoped caching, resolution of a
  function's parameters, generator teardown, end-of-session teardown;
- test discovery and selection: collector strings, parsing test files,
  walking directories, the path, unit and keyword filters;
- the runners and managers that run the selected tests, record each
  unit's outcome and lines, and tally the session;
- configuration: `load_from_dict`/`as_dict`, the newer
  `serialize`/`deserialize` JSON hand-off, the pyproject loaders and the
  command-line merge of `main.py`;
- the helpers: `bpyprint`, the add-on's `OutputHandler`, `tmp_path` with
  its temporary-directory cleanup, and the `singleton` session.

The repository keeps several generations of the same program side by
side: `core/`, `bpytest/`, `addon/` and `src/bpytest/blender_module/bpytest/`.
Each generation gets its own member where it behaves differently, and a
lemma states how the generations compare where that is the point (for
example `Collector.GenerationsAgree`, `Runner.ZeroResultDiffers`,
`LegacyFixtures.LastWinsAgainstFirstWins`). Where two files are the same
code, one member models both and its row cites one of them:
`src/bpytest/blender_module/bpytest/entity.py` repeats `core/entity.py`,
`src/bpytest/blender_module/bpytest/collector.py` repeats the
`collect_conftest_files` and `get_py_files_recursive` of
`core/collector.py`, and `addon/test_manager/test_manager.py` repeats
the `_compute_result` of `bpytest/manager.py`. The first twenty lines of
`bpytest/test_manager/fixtures.py` repeat `bpytest/fixtures.py`; the rest
of that file declares a demonstration fixture and two tests at import
time, which `LegacyFixtures.DemoImport` and
`Runner.DemoTestFailsInRunner` model.

Everything the program asks of the outside world is a parameter:

- the file system (`is_file`, `is_dir`, file contents);
- the results of `glob`, `os.walk`, `iterdir` and `fnmatch`;
- the exit code and output of a subprocess;
- the random draw of the session id;
- creation times.

Python values are the `PyValue` datatype. Provider and test results are
symbolic values that record which fixture made them and with which
arguments. A run records a trace of events: a provider's body starting, a
teardown running, a test body running. The fixture engine's termination
rests on a rank map on fixture names, which witnesses that no fixture
depends on itself.

Modules: `Strings`, `Seqs`, `Paths` and `Py` (helpers), `Fixtures`,
`FixtureCache`, `FixtureOrder`, `LegacyFixtures`, `Entity`, `Collector`,
`NameSelection`, `Runner`, `Manager`, `AddonProcess`, `RunOperator`,
`ConfigValues`, `ConfigDict`, `BpyConfig`, `BpyPrint`, `Session`,
`TmpDir`.

## Model

| member | source | states |
|---|---|---|
| Py.IdentityFinerThanEquality | src/bpytest/blender_module/bpytest/runner.py:80 | the identity test against `False` implies the equality test, and the two differ exactly on the values other than `False` that compare equal to it: `0`, `0.0` and any other object whose `== False` holds |
| Fixtures.ParseScope | core/fixtures.py:297 | an empty scope name is FUNCTION; otherwise the upper-cased name must be one of the four member names, and the lookup fails (the KeyError) exactly when it is none of them |
| Fixtures.ParseScopeLongS | core/fixtures.py:297 | a long s followed by anything that upper-cases to `ESSION` is the SESSION scope, as Python's Unicode upper-casing makes it |
| Fixtures.ParseScopeSharpS | core/fixtures.py:297 | anything that upper-cases to `CLA` followed by a sharp s is the CLASS scope |
| Fixtures.ParseScopeLetters | core/fixtures.py:297 | an accepted non-empty scope name is made only of ASCII letters and the characters that upper-case to ASCII letters |
| Strings.UpperCapitalsSource | core/fixtures.py:297 | a string whose upper-case form is all ASCII capitals contains only ASCII letters and characters that upper-case to ASCII letters |
| Fixtures.Lookup | core/fixtures.py:217-220 | the entry found is in the registry under the requested name; nothing is found exactly when no entry has that name |
| Fixtures.Register | core/fixtures.py:179-187 | a name already present leaves the registry unchanged; a new name is added at the end |
| Fixtures.RegisterFirstWins | core/fixtures.py:179-187 | after registering, looking up the new name yields the new fixture only if the name was absent before, and every other lookup is unchanged: the first registration wins |
| Fixtures.RegisterUnique | core/fixtures.py:182-187 | registration keeps names distinct, and registering the same fixture twice is the same as registering it once |
| Fixtures.Decorate | core/fixtures.py:287-305 | an unknown scope string fails with the KeyError and registers nothing; otherwise the function comes back unchanged and is registered under its own name with the parsed scope, unless the name was already taken, in which case the registry is unchanged |
| Fixtures.CallProvider | core/fixtures.py:29-56 | a call whose positional arguments cannot bind is a TypeError; a provider that declares `request` is called through the plain wrapper, so a generator one yields an unstarted generator object and no setup; a generator provider that yields nothing raises "did not yield a value"; otherwise the value records the fixture and its positional arguments, and a teardown is returned only by a generator provider without `request` |
| Fixtures.ValueByScope | core/fixtures.py:243-281 | FUNCTION and CLASS always call the provider and return its teardown; SESSION and MODULE (keyed by the requester's file) return the stored value with no teardown once the slot is filled, fill it from the provider otherwise, and never change a slot that was already filled |
| Fixtures.GetFixture | core/fixtures.py:203-241 | an unregistered name raises "not registered" and changes nothing; the request it returns is for the requested name and the given requester; no cache slot is ever dropped |
| Fixtures.Inspect | core/fixtures.py:78-110 | one request and one value per parameter that is registered and not `request`, in declaration order; unregistered names are skipped |
| Fixtures.Requested | core/fixtures.py:86-92 | the parameters that produce a request are parameters of the function, registered, and not `request` |
| Fixtures.Resolve | src/bpytest/blender_module/bpytest/runner.py:67-69 | resolving a test's parameters yields requests for exactly the registered non-`request` parameters, in order, paired with as many values |
| Fixtures.RunFinalizer | core/fixtures.py:59-75 | resuming the generator records a teardown; it succeeds only when the generator finishes, and a second `yield` raises "has more than one yield" with the function's name, or an AttributeError when the provider was wrapped in a `functools.partial` |
| Fixtures.Finalize | core/fixtures.py:20-26 | a request's own finalizer runs before its children, in order; the walk succeeds exactly when every finalizer in the tree does, and then produces exactly the parent-first teardown order |
| Fixtures.FinalizeAll | src/bpytest/blender_module/bpytest/runner.py:77-78 | the top-level requests are finalized in request order; success exactly when every tree is clean |
| Fixtures.FinalizeSession | core/manager.py:92-97 | the stored teardown of every SESSION fixture runs once, in registry order; MODULE slots are left alone and the cache is unchanged |
| FixtureCache.ValueByScopeOnce | core/fixtures.py:251-281 | consulting or filling a SESSION or MODULE slot keeps the invariant that each filled slot's provider started at most once and an empty slot's never |
| FixtureCache.GetFixtureOnce | core/fixtures.py:203-241 | resolving any fixture, dependencies first, keeps the at-most-once invariant |
| FixtureCache.InspectOnce | core/fixtures.py:78-110 | resolving a function's parameters keeps the at-most-once invariant |
| FixtureCache.ResolveOnce | src/bpytest/blender_module/bpytest/runner.py:67-69 | resolving a test's parameters keeps the at-most-once invariant |
| FixtureCache.RunFinalizerOnce | core/fixtures.py:59-75 | running a teardown starts no provider |
| FixtureCache.FinalizeOnce | core/fixtures.py:20-26 | tearing down a request tree starts no provider |
| FixtureCache.FinalizeAllOnce | src/bpytest/blender_module/bpytest/runner.py:77-78 | tearing down a test's requests starts no provider |
| FixtureCache.FinalizeSessionOnce | core/manager.py:92-97 | the end-of-session teardowns start no provider |
| FixtureCache.RegisterOnce | core/fixtures.py:179-187 | registering a fixture keeps the invariant: a new name has never been set up |
| FixtureCache.InitialOnce | core/fixtures.py:164-168 | a fresh registry with empty caches satisfies the invariant |
| FixtureCache.SessionAtMostOnce | core/fixtures.py:251-260 | a SESSION provider that cannot fail has started at most once, and not at all while its slot is empty |
| FixtureCache.ModuleAtMostOnce | core/fixtures.py:262-279 | a MODULE provider that cannot fail has started at most once per file defining the requesting function |
| FixtureOrder.GetFixtureSetups | core/fixtures.py:224-241 | with uncached providers, resolution sets up exactly the nodes of the returned request, dependencies before the fixture that needs them, and every finalizer belongs to its own node |
| FixtureOrder.InspectSetups | core/fixtures.py:86-110 | resolving a function's parameters sets up each requested tree in turn, in declaration order |
| FixtureOrder.ResolveSetups | src/bpytest/blender_module/bpytest/runner.py:67-69 | resolving a test's parameters sets up exactly the post-order of the requests returned |
| FixtureOrder.ChainTeardownReversesSetup | core/fixtures.py:20-26 | along a chain of dependent fixtures the teardown order is the setup order reversed: a consumer tears down before its dependencies |
| FixtureOrder.SiblingsTeardownInSetupOrder | src/bpytest/blender_module/bpytest/runner.py:77-78 | sibling fixtures without dependencies tear down in the order they were set up, not reversed |
| Entity.MakeCollectorString | core/entity.py:23-34 | the text is kept as given; the path is the absolute form of the text before the first `::` (all of it when there is none); the unit is the segment after the first `::` up to the next one, or empty; the directory is the path's parent when the path is a file and the path itself otherwise |
| Entity.UnitStringRoundTrip | core/entity.py:159-161 | a unit's own collector string `<file>::<name>` gives back its file as path and its name as unit |
| Entity.NewUnit | core/entity.py:154-164 | a new unit is unselected and unsuccessful, has no lines, and is identified by the collector string `<file>::<name>` |
| Entity.TestName | core/entity.py:199 | the name is what follows the first `def `, cut at the next `(` or the next `def `, whichever comes first |
| Entity.ParseNames | core/entity.py:193-199 | one name per line containing `def test_`, duplicates kept |
| Entity.ParseNamesAppend | core/entity.py:195-200 | parsing goes line by line, so the names of a concatenation are the concatenated names and file order is kept |
| Entity.ParseNamesOne | core/entity.py:196-199 | a line contributes its name exactly when it contains `def test_` |
| Entity.ParseTestUnits | core/entity.py:187-202 | one fresh unit per test line, in order, each the unit for the parsed name |
| Entity.MakeTestFile | core/entity.py:182-185 | a test file keeps its path and holds one unit per test line of its text |
| Entity.SelectByCollectorString | core/entity.py:204-228 | a unit becomes selected when it was already selected or passes the filter (same file for a file filter, below it for a directory filter, same unit name when one is given); nothing else about any unit changes |
| Entity.SelectByKeyword | core/entity.py:230-235 | a unit stays selected exactly when it was selected and its name contains the keyword; nothing else changes |
| Entity.SelectionMonotone | core/entity.py:204-235 | the path and unit selection never deselects, and the keyword selection never selects |
| Entity.SelectionIdempotent | core/entity.py:204-235 | applying either selection twice is applying it once |
| Entity.EmptyKeywordKeepsAll | core/entity.py:233-235 | the empty keyword keeps every unit as it is |
| Entity.SelectedIffBoth | core/entity.py:204-235 | from fresh units, the two passes select exactly the units that pass the filter and whose name contains the keyword |
| Entity.UnitSelectsItself | core/entity.py:204-228 | every unit passes its own collector string as a filter |
| Entity.NoPathNoConstraint | core/entity.py:210-226 | a filter path that is neither a file nor a directory constrains only the unit name |
| Collector.AnyMatchIffSome | core/collector.py:155-161 | the pattern loop that breaks at the first match skips a file exactly when some pattern matches its relative path |
| Collector.Sift | core/collector.py:151-173 | the glob loop raises exactly when there is a pattern to try and some candidate is not below the base; otherwise it keeps, in order, the candidates that no pattern skips and that pass the file checks |
| Collector.SiftMembers | core/collector.py:151-173 | a path is kept exactly when it is a candidate, passes the file checks, and no pattern matches its path relative to the base |
| Collector.PyFiles | core/collector.py:146-175 | every file returned has a name containing `_test.py` but not `test_`, ends in `.py` and is a file; the result is a subsequence of the glob |
| Collector.PyFilesBelowRoot | core/collector.py:151-158 | when every globbed path lies below the root the walk never raises |
| Collector.ConftestFiles | core/collector.py:21-49 | the conftest walk raises exactly when there is a pattern and some conftest lies outside the working directory; otherwise it returns files only, a subsequence of the glob |
| Collector.AllUnitsAppend | core/collector.py:95-103 | the units of two file lists are the units of each, concatenated |
| Collector.ParseAll | core/collector.py:73-78 | one test file per path, in order, each parsed from its path |
| Collector.GatherFiles | core/collector.py:70-78 | a file path is appended to the class-level list; a directory path replaces the instance's view with the walked files and leaves the class list alone; a path that is neither leaves the instance on the class list; the walk's error is the only error |
| Collector.FilterByCollectorString | core/collector.py:105-133 | the result is a subsequence of the units, every one of which passes the path and unit filter |
| Collector.FilterByKeyword | core/collector.py:135-144 | the result is a subsequence of the units, every one of which contains the keyword |
| Collector.KeywordFilterExact | core/collector.py:135-144 | a unit is kept exactly when it is a unit containing the keyword; the empty keyword keeps the list unchanged |
| Collector.CoreCollect | core/collector.py:60-93 | the ignore list is the caller's extended by `IGNORE_DIRS`, the units are those of the files, the selection is a subsequence of them, and it fails exactly when gathering the files fails |
| Collector.TallyConsistent | core/collector.py:89-93 | the collected count is the deselected plus the selected count, and the deselected count is never negative |
| Collector.SubsequenceShorter | core/collector.py:82-87 | a filtered list is never longer than the list it was filtered from |
| Collector.SubsequenceTrans | core/collector.py:82-87 | filtering a filtered list keeps a subsequence of the original |
| Collector.CoreSelectedExactly | core/collector.py:80-87 | a unit is selected exactly when it is collected, passes the collector-string filter and contains the keyword |
| Collector.SelectFile | src/bpytest/blender_module/bpytest/collector.py:75-81 | the selection passes keep a file's path and its number of units |
| Collector.SelectFiles | src/bpytest/blender_module/bpytest/collector.py:75-81 | every file is selected in place, in order |
| Collector.BlenderCollect | src/bpytest/blender_module/bpytest/collector.py:55-88 | the blender collector gathers the files as the core one does, selects within each file, and its flags are seen through the class-level list when the instance shares it |
| Collector.SelectedTotalBounded | src/bpytest/blender_module/bpytest/collector.py:90-101 | the selected total is the number of flagged units and never exceeds the total, so the deselected count printed is non-negative |
| Collector.SelectFileFlags | src/bpytest/blender_module/bpytest/collector.py:75-81 | on unselected units, each unit ends up flagged exactly when it passes the filter and contains the keyword |
| Collector.MarkedFilter | src/bpytest/blender_module/bpytest/collector.py:90-101 | reading the flagged units back gives exactly the units the predicate keeps, in order |
| Collector.FilesMarked | src/bpytest/blender_module/bpytest/collector.py:75-101 | across all files, the flagged units are the units the combined predicate keeps, in order |
| Collector.GenerationsAgree | src/bpytest/blender_module/bpytest/collector.py:75-81 | over the same fresh files, the blender collector flags exactly the units, in the same order, that the core collector's two filters select |
| Collector.StepFiles | bpytest/collector.py:90-96 | the files of one walk step are the names ending in `.py` that contain `_test.py` and not `test_`, joined to the step's root |
| Collector.WalkPyFiles | bpytest/collector.py:82-98 | a path is walked exactly when some step not containing an ignore name in its root yields it |
| Collector.IgnoredStepContributesNothing | bpytest/collector.py:87-88 | a step whose root contains an ignore name anywhere contributes no file |
| Collector.LegacyCollect | bpytest/collector.py:30-49 | the legacy collector fails exactly when it has collected some unit, since its collector-string filter calls a method the unit does not have; otherwise nothing is collected or selected |
| Collector.ManagerCollect | bpytest/test_manager/collector.py:27-39 | a file path is appended to the class-level list, a directory path replaces the view with one file per walked readable file, and every file's selected names remain names it found |
| NameSelection.SelectNames | addon/test_manager/test_file.py:31-43 | an empty selection, or `[""]` where that rule applies, keeps every found name; any other selection keeps, in order, the found names it lists |
| NameSelection.SelectedSublist | addon/test_manager/test_file.py:31-43 | the selected names are an order-preserving sub-list of the found names, and a name is selected exactly when it was found and either everything is selected or it is listed |
| NameSelection.BlankSelectionDiffers | addon/operator/run_tests.py:39-45 | on the selection `[""]` the test-manager file keeps every name while the operator's file keeps none |
| NameSelection.MakeNamedFile | addon/test_manager/test_file.py:11-15 | a file keeps its path, finds one name per `def test_` line, and selects from those names |
| NameSelection.TalliesAddUp | bpytest/test_manager/collector.py:41-66 | the collected count is the selected plus the deselected count, and the deselected count lies between zero and the collected count |
| NameSelection.MadeFilesWellSelected | bpytest/test_manager/collector.py:33 | every file built from a path selects no more names than it found |
| RunOperator.StripAll | addon/operator/run_tests.py:125-129 | one right-stripped line per printed line, in order |
| RunOperator.ProcessExecute | addon/operator/run_tests.py:116-136 | the unit succeeds exactly when the exit code is 0; the shared log keeps what it held and gains every printed line right-stripped |
| RunOperator.RunAll | addon/operator/run_tests.py:236-246 | one unit per selected (file, function) pair, in order, each successful exactly when its subprocess exits with 0; the shared log only grows |
| RunOperator.LogAccumulates | addon/operator/run_tests.py:55 | the class-level log ends up holding its old lines followed by every line of every test, so lines pile up across units and runs |
| RunOperator.RunAndTally | addon/operator/run_tests.py:236-253 | failed plus success is the number of units, nothing failed exactly when every subprocess exited with 0, and "Tests Failed" is raised exactly when some test failed and `raise_error` is set |
| RunOperator.Execute | addon/operator/run_tests.py:211-258 | an unset source directory is reported; a missing configuration or python path raises; a missing test path is reported; otherwise one unit per selected name of the collected files is run and tallied |
| RunOperator.EarlyReturnRunsNothing | addon/operator/run_tests.py:213-231 | with no source directory or no test path the operator ends with a report and runs nothing |
| RunOperator.OperatorSelectionIsLiteral | addon/operator/run_tests.py:39-45 | the operator's collector treats `[""]` as a literal list, so a file whose names are all non-empty selects none |
| Runner.Report | src/bpytest/blender_module/bpytest/runner.py:84-86 | a passed test gives `ExecutionResult(True)` with no lines; a failed one gives success false and exactly one line, the last line of its traceback |
| Runner.InvalidFixtureNameIdentifiesTest | src/bpytest/blender_module/bpytest/exception.py:7-8 | the failure line of an `InvalidFixtureName` determines the test's name |
| Runner.LoadDecls | core/fixtures.py:292-300 | running a module's `@fixture` decorators only adds to the registry; the only error it can raise is the KeyError of an unknown scope |
| Runner.LoadDeclsOutcome | core/fixtures.py:292-300 | loading fails exactly when some declaration names an unknown scope; otherwise every declared fixture is registered afterwards |
| Runner.LoadDeclsOnce | core/fixtures.py:179-187 | loading a module's fixtures keeps the at-most-once invariant of the caches |
| Runner.LoadDeclsRanked | core/fixtures.py:224-226 | declarations whose dependencies rank below them keep the registry acyclic, so resolution terminates |
| Runner.LoadedRegistry | src/bpytest/blender_module/bpytest/runner.py:56-57 | executing a module only adds fixtures to the registry |
| Runner.AfterTest | src/bpytest/blender_module/bpytest/runner.py:76-84 | after the test returns, every request is finalized in order; the test passes exactly when teardown is clean and the result is not identically `False`; `False` fails only after the teardowns ran; a failing teardown fails the test |
| Runner.CallTest | src/bpytest/blender_module/bpytest/runner.py:66-86 | an error while resolving fixtures fails the test with that error and nothing else happens; no cache slot is dropped |
| Runner.BlenderRun | src/bpytest/blender_module/bpytest/runner.py:40-88 | the fixtures a module declares before its import stops stay registered; a missing module is then a failed result with its one line; any other import error escapes; a non-callable attribute passes without resolving fixtures; a missing attribute escapes from `getattr` |
| Runner.CallTestPasses | src/bpytest/blender_module/bpytest/runner.py:70-84 | with fixtures resolved, the test passes exactly when it binds, its teardowns are clean and it returns something other than `False` (or is a generator function); the trace is the test run followed by the teardowns |
| Runner.RaisingTestSkipsTeardown | src/bpytest/blender_module/bpytest/runner.py:70-78 | a test that raises fails without any teardown running, and only a TypeError is reported as `InvalidFixtureName` |
| Runner.FalseResultStillTearsDown | src/bpytest/blender_module/bpytest/runner.py:76-83 | a test returning `False` fails, after all of its fixtures were torn down |
| Runner.CallTestOnce | src/bpytest/blender_module/bpytest/runner.py:66-78 | running a test keeps SESSION and MODULE providers started at most once per slot |
| Runner.BlenderRunOnce | src/bpytest/blender_module/bpytest/runner.py:56-88 | loading the module and running one test keeps the at-most-once invariant |
| Runner.RunUnit | src/bpytest/blender_module/bpytest/runner.py:188-192 | the unit's success is the result's; on failure its lines are replaced by the result's, on success the unit is unchanged |
| Runner.PlainCall | core/runner.py:72-75 | the older runners pass a test exactly when it binds and its result is not `== False`; `0` and `0.0` therefore fail |
| Runner.CoreRun | core/runner.py:41-79 | import errors of any kind escape, after the fixtures declared before them were registered; an executed module keeps the cache, and its trace grows by at most the test run |
| Runner.CoreFixtureTestsAlwaysFail | core/runner.py:64-66 | a callable test with any registered parameter fails with the TypeError of the three-argument `FixtureRequest`, before any fixture or the test body runs |
| Runner.BlenderFixtureTestsCanPass | src/bpytest/blender_module/bpytest/runner.py:66-84 | the same test passes in the Blender-module runner when its fixtures tear down cleanly and it returns something other than `False`; its fixtures are set up, then the test runs, then they are torn down |
| Runner.ZeroResultDiffers | core/runner.py:73 | a test returning any value that equals `False` without being it (`0`, `0.0`, ...) passes in the newest runner (`is False`) and fails in the older ones (`== False`) |
| Runner.LegacyRun | bpytest/runner.py:24-56 | import errors escape; a missing attribute escapes; the registry after the run is the one the module's decorators leave; the trace only grows |
| Runner.LegacyNeverTearsDown | bpytest/runner.py:44-47 | the oldest runner calls each fixture once and never resumes it, so no teardown ever runs |
| Runner.BackgroundUnit | core/runner.py:152-158 | a background test passes exactly when Blender exits with 0; otherwise `Error: <stderr>` is appended to the unit's lines and nothing else changes |
| Runner.BackgroundAppendsRuntimeReplaces | core/runner.py:152-199 | a background failure keeps the unit's earlier lines, while an in-process failure replaces them with the one failure line |
| Manager.Tally | core/manager.py:52-62 | each finished test raises exactly one of the two counters: failed plus success is the number of tests, failed is the number of unsuccessful ones, and it is zero exactly when every test succeeded |
| Manager.Flags | core/manager.py:58-62 | the flags the tally reads are the finished units' success flags, in order |
| Manager.Summarize | core/manager.py:52-62 | failed plus success equals the number of finished tests, and nothing failed exactly when every test succeeded |
| Manager.VerdictOfSession | core/manager.py:123-135 | the header is red, and the exit code 1, exactly when some finished test failed; the exit code is 0 exactly when all succeeded |
| Manager.Finish | core/manager.py:114-115 | a finished unit carries the runner's verdict; on success its lines are untouched, on failure they are the result's; nothing else about the unit changes |
| Manager.RunTests | core/manager.py:106-118 | every selected unit runs once, in order: as many finished units as selected, each the same test with only its flag and lines set, a passing unit's lines untouched and a failing one's a single line; the registry only grows and stays acyclic |
| Manager.RunTestsOnce | core/manager.py:106-118 | the session loop keeps every SESSION and MODULE provider started at most once per slot |
| Manager.LoadConftests | core/manager.py:81-90 | every conftest file is executed in order before the tests; a file that raises ends the session; the registry only grows |
| Manager.ConftestFixturesRegistered | core/manager.py:87-90 | after the conftest files have run, every fixture any of them declares is registered |
| Manager.LoadConftestsKeeps | core/manager.py:102-104 | loading the conftest files keeps the registry acyclic and the at-most-once invariant |
| Manager.CoreSession | core/manager.py:99-135 | a session finishes every selected unit; failed plus success is the number of units; the exit code is 1 and the header red exactly when something failed; the trace ends with the SESSION teardowns |
| Manager.SessionProvidersStartOnce | core/manager.py:99-120 | over a whole session, every registered SESSION provider that cannot fail starts at most once |
| Manager.SessionTeardownsCount | core/manager.py:92-97 | the end-of-session teardowns are exactly one per SESSION fixture holding a stored teardown, and nothing else |
| Manager.AbstractRunnerEndsSession | core/manager.py:108-112 | as written, any session with a selected unit ends with the TypeError of instantiating the abstract runner; with nothing selected it matches the corrected session |
| Manager.LegacyRunTests | bpytest/manager.py:80-104 | the runner class follows the runner type; every unit runs once in order; a background unit succeeds exactly when its subprocess exits with 0 and keeps its earlier lines, and a background session touches neither registry nor trace |
| Manager.LegacySession | bpytest/manager.py:106-113 | failed plus success is the number of units, and the header is red exactly when one failed |
| Manager.AddonUnits | addon/test_manager/test_manager.py:84-86 | tests are visited file by file, and within a file by its selected names, one visit per selected name |
| Manager.AddonUnitsOrder | addon/test_manager/test_manager.py:84-86 | the k-th selected name of the first file is the k-th visit, and the remaining files follow |
| Manager.AddonRunTests | addon/test_manager/test_manager.py:84-96 | whatever the mode, the first selected test ends the session with the AttributeError for `show_log`, which the configuration never sets; a session finishes, with nothing run, exactly when nothing is selected |
| Manager.AddonRunTestsCountOnly | addon/test_manager/test_manager.py:84-96 | the outcome depends only on whether anything is selected, not on the mode or the names, and no selected test ever finishes |
| LegacyFixtures.RegisterFixture | bpytest/fixtures.py:7-8 | registering sets the name's entry to the new function, whatever it was, and leaves every other name alone |
| LegacyFixtures.LegacyGetFixture | bpytest/fixtures.py:10-13 | an unknown name raises "not registered"; a known one gives its registered function |
| LegacyFixtures.LegacyDecorate | bpytest/fixtures.py:17-19 | the decorator returns the function unchanged, which is then what the name resolves to; other names resolve as before |
| LegacyFixtures.LegacyLoad | bpytest/fixtures.py:17-19 | a module's declarations only add names |
| LegacyFixtures.LegacyLoadLastWins | bpytest/fixtures.py:7-8 | the last declaration of a name is the one registered afterwards |
| LegacyFixtures.LegacyLoadKeeps | bpytest/fixtures.py:7-8 | a name no declaration mentions keeps what it resolved to |
| LegacyFixtures.LastWinsAgainstFirstWins | bpytest/fixtures.py:7-8 | registering two functions under one name keeps the first in the engine of the newer generation and the second in this one |
| LegacyFixtures.CallLegacyFixture | bpytest/runner.py:46-47 | a fixture that needs arguments fails with a TypeError; a generator fixture only creates its generator, so its body never starts; otherwise the value is made for the fixture with no arguments |
| LegacyFixtures.LegacyResolve | bpytest/runner.py:44-47 | one value per registered parameter, in declaration order, naming that parameter; the events added are only setups |
| LegacyFixtures.DemoImport | bpytest/test_manager/fixtures.py:23-31 | importing the file registers `setup_teardown_example` in the registry of the `fixtures` module it imports, and leaves every other name alone |
| Runner.DemoTestFailsInRunner | bpytest/runner.py:13-54 | a demonstration test run by the oldest runner, whose registry is `bpytest.fixtures` and so never holds the demonstration fixture, skips its one parameter and fails with the call's TypeError, whatever registry the demonstration import wrote to |
| AddonProcess.NewHandler | addon/test_manager/process.py:14-17 | a new handler keeps its display flag and starts with no messages |
| AddonProcess.Write | addon/test_manager/process.py:19-29 | the empty string and a lone newline leave the buffer alone; any other message appends exactly one line, a prefix of the message with its trailing whitespace removed; buffered lines stay stripped |
| AddonProcess.BlankMessageAppendsEmptyLine | addon/test_manager/process.py:20-24 | whitespace other than a lone newline is kept as an empty line |
| AddonProcess.Flush | addon/test_manager/process.py:31-32 | flushing leaves the buffer unchanged |
| AddonProcess.Play | addon/test_manager/process.py:19-32 | whatever code writes through the handler, the buffer only grows at its end and stays stripped |
| AddonProcess.FlushIsInert | addon/test_manager/process.py:31-32 | dropping every flush from a stream of writes leaves the buffer the same |
| AddonProcess.PlayLength | addon/test_manager/process.py:19-29 | the buffer gains one line per write that is neither empty nor a lone newline |
| AddonProcess.Captured | addon/test_manager/process.py:42-51 | after a normal return the unit's lines are the handler's buffer and the result passes through; an exception passes through and the lines are never set |
| AddonProcess.BackgroundExecute | addon/test_manager/process.py:98-109 | the test passes exactly when the exit code is 0, leaving the buffer alone; otherwise the line `Error: ` plus the standard error is appended |
| AddonProcess.BackgroundErrorNotStripped | addon/test_manager/process.py:106 | for every failing exit code and every standard error that ends in whitespace, the buffered error line keeps that whitespace and so differs from the line a write of the same text would leave |
| AddonProcess.BackgroundResultLines | addon/test_manager/process.py:83-109 | from a fresh handler a background run records no lines on success and exactly the error line on failure |
| AddonProcess.RuntimeExecute | addon/test_manager/process.py:114-134 | import failures and a missing attribute escape; otherwise the test fails exactly when the attribute is callable and calling it with no arguments raises |
| AddonProcess.RuntimeIgnoresReturnValue | addon/test_manager/process.py:127-134 | a callable that returns any value, `False` included, passes, with what it printed in the buffer |
| AddonProcess.RuntimeFailureLines | addon/test_manager/process.py:128-132 | a raising test fails and leaves what it printed followed by the traceback text in the unit's lines |
| BpyPrint.Emit | src/bpytest/common/bpyprint.py:5-9 | the printed line is recognised as tagged and carries the text right after the marker |
| BpyPrint.Decode | src/bpytest/common/bpyprint.py:17-19 | decoding never lengthens a line, leaves a marker-free line alone, and shortens any line containing the marker |
| BpyPrint.DecodeEmit | src/bpytest/common/bpyprint.py:5-19 | a line printed for marker-free text decodes back to that text |
| BpyPrint.DecodeCanRevealMarker | src/bpytest/common/bpyprint.py:17-19 | decoding is not idempotent: removing one marker can join the pieces of another |
| Session.Decorate | core/session.py:11-20 | a decorated class starts with an empty cache |
| Session.Call | core/session.py:14-18 | the first call builds the instance from its arguments and caches it; later calls return the cached instance and ignore their arguments |
| Session.Calls | core/session.py:14-18 | one instance per call, and after any call the cache is filled |
| Session.OneInstance | core/session.py:11-20 | however many calls and with whatever arguments, every call returns the instance built from the first call's arguments |
| Session.CachedStays | core/session.py:16-18 | once cached, every call returns the cached instance and the cache stays as it is |
| Session.SeparateCaches | core/session.py:12 | two decorated classes keep separate caches |
| Session.RandInt | core/session.py:30 | the drawn id lies in the closed range |
| Session.NewSession | core/session.py:28-31 | a session id lies between 0 and 1000000 and the session keeps its configuration |
| Session.SecondSessionReusesFirst | core/session.py:47-51 | a second `wrap_session` in one process runs with the first call's configuration and id |
| TmpDir.RecursiveRemoveSound | core/tmpdir.py:19-26 | removing a folder touches exactly the paths of its tree (`TreePaths`): every entry is removed, nothing else is, and no path twice (`DistinctPaths`), so with the count each entry exactly once; the folder itself goes last, and each folder only after everything below it |
| TmpDir.RemoveEntrySound | core/tmpdir.py:21-25 | removing one entry stays below the folder, inside that entry, children first |
| TmpDir.RemoveEntriesSound | core/tmpdir.py:21-25 | the entries from a given position on are removed below the folder, never under the name of an earlier entry, children first |
| TmpDir.Insert | core/tmpdir.py:41-43 | inserting into a list ordered by creation time keeps it ordered and adds exactly the one entry |
| TmpDir.SortByCtime | core/tmpdir.py:41-43 | the sorted listing is ordered by creation time and is a permutation of the listing |
| TmpDir.RetentionSplit | core/tmpdir.py:44 | the removed and the kept entries together are a permutation of the listing, at most three are kept (all when there are at most three), and nothing removed is newer than anything kept |
| TmpDir.SortKeepsDistinct | core/tmpdir.py:41-43 | sorting keeps entry names distinct |
| TmpDir.LatestIsKept | core/tmpdir.py:41-45 | an entry strictly newer than every other one survives the cleanup |
| TmpDir.RemoveAll | core/tmpdir.py:44-45 | the cleanup finishes exactly when every removed entry is a folder, each of which is then removed; otherwise it stops at the first plain file, on that file's path |
| TmpDir.RemoveAllStaysInside | core/tmpdir.py:44-45 | every removal lies strictly below the temporary root, inside one of the entries chosen for removal |
| TmpDir.DeleteOldTempFolders | core/tmpdir.py:38-45 | with at most three entries nothing is removed; the cleanup finishes exactly when all but the newest three are folders |
| TmpDir.OldestNotNewest | core/tmpdir.py:44 | with distinct names, no removed entry shares its name with a kept one |
| TmpDir.KeptUntouched | core/tmpdir.py:38-45 | no removal touches anything inside one of the three newest entries |
| TmpDir.TmpPath | core/tmpdir.py:48-55 | the fixture runs the cleanup first and yields a directory two levels below the temporary root exactly when the cleanup did not raise |
| TmpDir.TmpPathsDistinct | core/tmpdir.py:29-35 | two requests share a directory exactly when they come from the same session and from requesters of the same name |
| TmpDir.TmpPathFromEngine | core/tmpdir.py:48-55 | resolved through the fixture engine, `tmp_path` is handed the requesting test itself, so the directory is named after the test |
| ConfigDict.Convert | core/entity.py:87-95 | the field type converts the value: a run mode accepts exactly `background` and `runtime`, and the optional-path type of `main.py` is not callable and raises |
| ConfigDict.ParseList | core/entity.py:82-86 | a bracketed value always yields at least one item |
| ConfigDict.DecodeEntry | core/entity.py:73-98 | one entry only ever assigns its own key and keeps every other attribute; it can raise only for an existing attribute whose value is not a literal or a list; an unknown key with a plain value is ignored |
| ConfigDict.LoadFromDict | core/entity.py:71-98 | loading assigns only keys of the data and leaves every other attribute as it was, also when an entry raises part way |
| ConfigDict.AsDict | core/entity.py:124-136 | one entry per attribute, in attribute order, under the attribute's name |
| ConfigDict.DictText | core/entity.py:131-134 | a run mode is written as its value and every other value as its `str` |
| ConfigDict.DecodeText | core/entity.py:71-98 | loading the written text of a value that survives the round trip puts that value back |
| ConfigDict.AsDictRoundTrip | core/entity.py:71-136 | loading the `as_dict` output restores every attribute whose value survives, raises nothing, and leaves every other attribute of the target alone |
| ConfigDict.StringTrueComesBackAsBool | core/entity.py:75-76 | the string `True` is written as `True` and read back as the boolean |
| ConfigDict.EmptyListComesBackBlank | core/entity.py:81-86 | the empty list is written as `[]` and read back as `[""]` |
| ConfigDict.BlenderExeAlwaysPath | src/bpytest/main.py:36-38 | `main.py` reads `blender_exe` as a path even from `None`, where the core class reads `None` |
| ConfigDict.ParseReprList | core/entity.py:81-86 | the list parsing reads back exactly the `str` of a list of clean items (non-empty printable ASCII with no comma, quote or backslash and no surrounding whitespace) |
| ConfigDict.PositionalCollectorString | src/bpytest/main.py:138-143 | the positional collector string always has a value |
| ConfigDict.MergeCli | src/bpytest/main.py:177-184 | `nocapture` always takes the flag; keyword, collector string and ignored directories take the command line's value when it gives one; every other attribute is kept |
| ConfigDict.ConfigCollectorStringNeverSurvives | src/bpytest/main.py:138-184 | the configured collector string is always replaced, by the given one or by `.`, and the configured `blender_exe` is never replaced |
| ConfigDict.Launch | src/bpytest/main.py:186-193 | without a `blender_exe`, or with one that does not exist, the exit code is 1 and nothing starts; otherwise the exit code is the subprocess's |
| ConfigValues.FieldTypeOf | core/entity.py:89-91 | a key has a field type exactly when some field has that name, and then the type is that field's |
| BpyConfig.FindField | src/bpytest/common/bpytest_config.py:47 | the lookup finds nothing exactly when no field has the name, and otherwise finds the first field of that name |
| BpyConfig.GetAttrHelp | src/bpytest/common/bpytest_config.py:43-53 | an unknown attribute gets a message naming it; a field gets its own help text, or the general message when it has none |
| BpyConfig.EveryFieldHasHelp | src/bpytest/common/bpytest_config.py:145-211 | every field of the combined configuration has help text and answers with it |
| BpyConfig.Assign | src/bpytest/common/bpytest_config.py:87-89 | assigning pairs adds exactly their keys and keeps every attribute no pair names |
| BpyConfig.StrictLoad | src/bpytest/common/bpytest_config.py:85-91 | the strict loader succeeds exactly when every key names an attribute, assigning them all; otherwise it raises `ValueError` naming an unknown key and the class |
| BpyConfig.StrictLoadStopsAtFirst | src/bpytest/common/bpytest_config.py:87-91 | a failing strict load stops at the first unknown key, with exactly the keys before it assigned |
| BpyConfig.AssignPresent | src/bpytest/common/bpytest_config.py:236-241 | each listed name present in the table is set from it and every other attribute is kept |
| BpyConfig.LenientLoad | src/bpytest/common/bpytest_config.py:233-241 | the combined configuration reads exactly the keys of its own fields from the table, ignores every other key and raises nothing |
| BpyConfig.PackageKeyRejectedOnlyByStrictLoader | src/bpytest/common/bpytest_config.py:85-241 | a package-level key is ignored by the combined loader but makes the strict Blender-level loader raise |
| BpyConfig.Serialize | src/bpytest/common/bpytest_config.py:243-254 | serialising fails exactly when some attribute is an enum member; otherwise it writes one JSON entry per field, in field order, a path as its POSIX text |
| BpyConfig.SerializeFrom | src/bpytest/common/bpytest_config.py:247-252 | over any list of keys, one JSON entry per key in order, failing exactly on an enum member |
| BpyConfig.Coerce | src/bpytest/common/bpytest_config.py:263-267 | a path accepts only text, a list accepts a list or text, a boolean and a string accept anything, an enum accepts only its values, and the optional path type always fails |
| BpyConfig.Decode | src/bpytest/common/bpytest_config.py:262-273 | an unknown key raises `KeyError`; a known key coerces its value with the field's type |
| BpyConfig.Deserialize | src/bpytest/common/bpytest_config.py:256-273 | the load succeeds exactly when every entry decodes, touches no attribute outside the document, and keeps every attribute the document does not name |
| BpyConfig.DeserializeSetsEvery | src/bpytest/common/bpytest_config.py:261-269 | after a successful load with distinct keys every key holds its decoded value |
| BpyConfig.DeserializeFirstFailure | src/bpytest/common/bpytest_config.py:261-273 | a failing load reports the error of the first entry that does not decode |
| BpyConfig.FieldTypeOfUnique | src/bpytest/common/bpytest_config.py:263-265 | with unique field names, a field's name finds that field's type |
| BpyConfig.DecodeJsonOf | src/bpytest/common/bpytest_config.py:249-267 | the JSON form of a well-typed attribute decodes back to the attribute |
| BpyConfig.BpyFieldsShape | src/bpytest/common/bpytest_config.py:145-218 | the combined configuration's field names are unique and every field type survives the JSON round trip |
| BpyConfig.RoundTripFields | src/bpytest/common/bpytest_config.py:243-273 | for unique transportable fields, loading a document listing every field in order reproduces the object in any blank target |
| BpyConfig.SerializeWellTyped | src/bpytest/common/bpytest_config.py:243-254 | a well-typed configuration serialises to one entry per field, each the field's JSON form |
| BpyConfig.ConfigDictKeys | src/bpytest/common/bpytest_config.py:218 | the attributes of a configuration are exactly its field names |
| BpyConfig.SerializeRoundTrip | src/bpytest/common/bpytest_config.py:243-273 | serialising a well-typed configuration and deserialising the text into any other configuration reproduces every attribute without error |

## Left out

- Blender itself: `bpy` calls, `--background` process start-up, `toggle_console` and the console toggle, and `sys.path` edits are not modelled. A subprocess is a function from its inputs to an exit code and output.
- Module import (`importlib`) is a `TestModule` value: not found, raised while executing, or loaded with its attributes and fixture declarations.
- Output capture: redirecting `sys.stdout`, the `nocapture` switch and echoing to the console change no modelled state. Only the lines that reach a unit are modelled.
- Traceback text: a failed test keeps one line, standing for the last line of its traceback. Stack frames are not modelled. Where the message comes from Python itself rather than the source, the line is a placeholder: a call whose arguments do not bind is `TypeError in <name>` (Python writes `<name>() missing 1 required positional argument: ...`).
- Exception classes are compared by name, so `except TypeError` in the Blender-module runner does not catch subclasses of `TypeError`.
- Runner.BlenderRun: `src/bpytest/blender_module/bpytest/fixtures.py` is not part of this model; the Blender-module runner is modelled on the engine of `core/fixtures.py`, whose interface it uses.
- Fixture code that raises is reported with a placeholder line naming the fixture, not with Python's message.
- FixtureCache.ModuleAtMostOnce: MODULE-scoped teardowns are never run by the source (only SESSION ones are, at `core/manager.py:92-97`), and the model does not run them either.
- Fixtures.GetFixture: the source has no guard against a fixture that depends on itself; the model requires a rank map instead, so cyclic registries are not modelled.
- Manager.AddonRunTests: the process classes are never called in this generation, because reading `show_log` fails first; their behaviour is stated on its own in `AddonProcess`.
- Fixtures.ParseScope: upper-casing is exact for every character whose upper-case form is ASCII. Those are the ASCII letters and ten others (sharp s, dotless i, long s, U+FB00 to U+FB06), taken from the Unicode 15.0 case tables. Any other character outside ASCII is kept as it is, so the names accepted are Python's.
- Fixtures.Decorate: inherits the upper-casing of `Fixtures.ParseScope`. The accepted scope strings agree with Python, but the `KeyError` text for a rejected name with other non-ASCII letters keeps them in lower case.
- ConfigDict.ParseReprList: stated for printable ASCII items. An item with characters outside ASCII that `repr` leaves as they are (such as `é`) also survives in the source, but the model does not state it.
- ConfigDict.DecodeText: list values are covered only when every item is printable ASCII, as for `ConfigDict.ParseReprList`.
- ConfigDict.AsDictRoundTrip: list attributes are covered only when every item is printable ASCII, as for `ConfigDict.ParseReprList`.
- LegacyFixtures.DemoImport: the `if __name__ == "__main__"` block of `bpytest/test_manager/fixtures.py` and the demo tests' print statements are not modelled. Which file the `from fixtures import` line finds depends on `sys.path`, so its registry is a parameter. A failing import at that line (`ModuleNotFoundError` out of `exec_module`) is covered by the general `TestModule` import failures, not by `Runner.DemoModule`. No collector picks the file up, because its name does not end in `_test.py`; `Runner.DemoTestFailsInRunner` is about naming it directly.
- Fixtures.CallProvider: keyword-only and variadic parameters are not modelled. `Func.params` is the `getfullargspec().args` list, so a provider whose `request` is keyword-only, which the source's `inspect.signature` check would wrap, is not wrapped in the model.
- ConfigValues.ReprList: `repr` is modelled for strings that need no escaping; escape sequences are not modelled.
- Paths.Absolute: paths are POSIX strings; `pathlib` normalisation of `.`, `..` and repeated separators is not modelled.
- Dunder attributes: `hasattr` sees the instance attributes and the declared methods only.
- `load_from_pyproject_toml` (core/entity.py, src/bpytest/main.py, the add-on `ConfigFile`) reads a TOML file; the model takes its result as an optional configuration.
- BpyConfig.Deserialize: the `ValueError` re-raise in `deserialize` is not modelled separately, because for JSON values only the enum type can raise `ValueError`, and the model reports that error with its key.
- `help()`: the `textwrap` layout of `_BaseConfig.help` is not modelled; `get_attr_help` is.
- BpyConfig.Serialize: the JSON document is an ordered list of keys and values; the text form and `json.loads` parsing are not modelled.
- TmpDir.TmpPath: the `mkdir` calls of `_get_default_bpytest_temp_dir` and `_get_test_temp_directory` are not modelled; the temporary root is a parameter.
- Session.RandInt: the random draw is a parameter, so uniformity is not stated.
- TmpDir.RecursiveRemoveSound: stated for well-formed trees (distinct names within each folder), which a real directory always is.
- TmpDir.KeptUntouched: stated for listings with distinct names, which a real directory listing always has.
- TmpDir.SortByCtime: sorting is stable in the source; the model states order and permutation, not stability.
- Runner.LegacyRun: the printing of results (`print_helper`) is not modelled.
- Collector.LegacyCollect: the class-level `test_units` and `selected` lists of `bpytest/collector.py` are modelled only through the instance values.
- Collector.ManagerCollect: walked paths that are not readable files, and the `open` error for them, are not modelled. The `TestFile` of bpytest/test_manager (its test_file.py is not part of this model) is assumed to behave like addon/test_manager/test_file.py:31-43, including `[""]` selecting every test.
- Py.IdentityFinerThanEquality: a float is a real number, so NaN and the infinities are not modelled; an `__eq__` that raises, or returns an object whose truth test raises, is not modelled either (`PyObject` only records whether `== False` holds).
- Runner.PlainCall: the `== False` test on a returned object is taken from `PyObject`'s flag rather than computed from a user `__eq__`.

## Findings

| source | as written | input that shows it | evidently intended | confidence | as-written member | corrected member |
|---|---|---|---|---|---|---|
| core/runner.py:66 | `FixtureRequest(obj, session_info, config)` passes three of the four constructor arguments, so the `TypeError` is caught by the bare `except` and the test fails | a test function with any parameter that names a registered fixture, e.g. `def test_a(tmp_path)` | build the request with the requesting function, its name, the session and the configuration, as the Blender-module runner does, so the fixture is resolved and the test can pass | high; not executed | Runner.CoreFixtureTestsAlwaysFail | Runner.BlenderFixtureTestsCanPass |
| core/manager.py:108 | `_run_tests` instantiates `TestRunner` from `core/runner.py`, an abstract class, which raises `TypeError` | a session with at least one selected test unit | run each unit with a concrete runner and tally the results | high; not executed | Manager.AbstractRunnerEndsSession | Manager.SessionProvidersStartOnce |
