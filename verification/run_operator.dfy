/** The "Run Tests" operator of the add-on (`addon/operator/run_tests.py`):
    it reads the add-on's configuration, collects test files by name, runs
    every selected function in its own Blender subprocess, and tallies the
    outcome.  The subprocess is an oracle from (file, function) to its exit
    code and the lines it printed. */
module RunOperator {
  import opened Strings
  import opened Seqs
  import opened Py
  import opened Paths
  import opened Entity
  import opened NameSelection
  import opened Collector
  import opened Manager

  /** `[line.rstrip() for line in lines]`. */
  function StripAll(lines: seq<string>): (r: seq<string>)
    ensures |r| == |lines|
    ensures forall k :: 0 <= k < |lines| ==> r[k] == RStrip(lines[k])
  {
    seq(|lines|, k requires 0 <= k < |lines| => RStrip(lines[k]))
  }

  /** `TestProcess.execute`: every line the subprocess prints is
      right-stripped and appended to `log_lines`, which is a class attribute
      and so one list shared by every unit; the test succeeds exactly when
      the exit code is 0. */
  function ProcessExecute(log: seq<string>, output: seq<string>, returncode: int): (r: (bool, seq<string>))
    ensures r.0 <==> returncode == 0
    ensures |r.1| == |log| + |output| && r.1[..|log|] == log
    ensures forall k :: 0 <= k < |output| ==> r.1[|log| + k] == RStrip(output[k])
  {
    (returncode == 0, log + StripAll(output))
  }

  /** A unit of the operator: its file, its function and its outcome. */
  datatype OperatorUnit = OperatorUnit(filepath: string, name: string, success: bool)

  /** What the subprocess of one test reports: exit code and printed lines. */
  type Subprocess = (string, string) -> (int, seq<string>)

  /** The nested loop of `execute`: one process per (file, function) pair,
      in order, all writing to the same log. */
  function RunAll(pairs: seq<(string, string)>, subprocess: Subprocess, log: seq<string>)
    : (r: (seq<OperatorUnit>, seq<string>))
    ensures |r.0| == |pairs|
    ensures forall k :: 0 <= k < |pairs| ==>
      r.0[k].filepath == pairs[k].0 && r.0[k].name == pairs[k].1
      && (r.0[k].success <==> subprocess(pairs[k].0, pairs[k].1).0 == 0)
    ensures |log| <= |r.1| && r.1[..|log|] == log
    decreases |pairs|
  {
    if |pairs| == 0 then ([], log)
    else
      var (rc, output) := subprocess(pairs[0].0, pairs[0].1);
      var (ok, log') := ProcessExecute(log, output, rc);
      var (rest, log'') := RunAll(pairs[1..], subprocess, log');
      assert log''[..|log|] == log''[..|log'|][..|log|];
      ([OperatorUnit(pairs[0].0, pairs[0].1, ok)] + rest, log'')
  }

  /** Everything the subprocesses print, stripped, in run order. */
  function Printed(pairs: seq<(string, string)>, subprocess: Subprocess): seq<string>
    decreases |pairs|
  {
    if |pairs| == 0 then []
    else StripAll(subprocess(pairs[0].0, pairs[0].1).1) + Printed(pairs[1..], subprocess)
  }

  /** The shared log ends up holding what it held before followed by every
      line of every test, so lines pile up across units and across runs. */
  lemma {:induction false} LogAccumulates(pairs: seq<(string, string)>, subprocess: Subprocess, log: seq<string>)
    ensures RunAll(pairs, subprocess, log).1 == log + Printed(pairs, subprocess)
    decreases |pairs|
  {
    if |pairs| > 0 {
      var (rc, output) := subprocess(pairs[0].0, pairs[0].1);
      LogAccumulates(pairs[1..], subprocess, log + StripAll(output));
    }
  }

  /** The settings `ConfigFile` reads from `[tool.bpytest]`. */
  datatype OperatorConfig = OperatorConfig(
    pythonpath: Option<string>,
    testDirectory: string,
    showLog: bool,
    selectedFunctions: seq<string>,
    toggleConsole: bool,
    raiseError: bool)

  /** How `execute` can end normally. */
  datatype OperatorEnd =
    | Reported(message: string)
    | Finished(units: seq<OperatorUnit>, summary: Summary, log: seq<string>)

  /** How it can end by raising: `ConfigFile` left its attributes unset
      (no `pyproject.toml`, or no `[tool.bpytest]` table) and reading them
      raises `AttributeError`; `pythonpath` was not configured and building
      the path raises `TypeError`; or the tests failed with `raise_error`
      set. */
  datatype OperatorEscape =
    | ConfigMissing
    | PythonpathMissing
    | TestsFailed(units: seq<OperatorUnit>, summary: Summary, log: seq<string>)

  /** The test path: the python path under the source directory, the test
      directory under that, both made absolute. */
  function TestPath(cwd: string, sourceDir: string, pythonpath: string, testDirectory: string): string {
    Absolute(cwd, Absolute(Absolute(cwd, Absolute(sourceDir, pythonpath)), testDirectory))
  }

  function OperatorUnitsSucceed(units: seq<OperatorUnit>): seq<bool> {
    seq(|units|, k requires 0 <= k < |units| => units[k].success)
  }

  /** The files the operator's collector yields for a test path. */
  function OperatorFiles(fs: FileSystem, testPath: string, cfg: OperatorConfig, walk: seq<WalkEntry>, classFiles: seq<NamedFile>)
    : seq<NamedFile>
  {
    ManagerCollect(fs, testPath, cfg.selectedFunctions, false, [], walk, classFiles).0
  }

  /** The loop, the tally and the final check of `execute`: the operator
      raises "Tests Failed" exactly when some test's subprocess exited with
      a non-zero code and `raise_error` is set. */
  function RunAndTally(pairs: seq<(string, string)>, subprocess: Subprocess, log: seq<string>, raiseError: bool)
    : (r: Result<OperatorEnd, OperatorEscape>)
    ensures r.Ok? ==> r.value.Finished?
    ensures r.Err? ==> r.error.TestsFailed?
    ensures r.Err? <==> raiseError && exists k :: 0 <= k < |pairs| && subprocess(pairs[k].0, pairs[k].1).0 != 0
    ensures var (units, summary, log') := if r.Ok? then (r.value.units, r.value.summary, r.value.log)
                                           else (r.error.units, r.error.summary, r.error.log);
      |units| == |pairs|
      && summary.failed + summary.success == |pairs|
      && (summary.failed == 0 <==> forall k :: 0 <= k < |pairs| ==> subprocess(pairs[k].0, pairs[k].1).0 == 0)
      && (forall k :: 0 <= k < |pairs| ==>
            units[k] == OperatorUnit(pairs[k].0, pairs[k].1, subprocess(pairs[k].0, pairs[k].1).0 == 0))
      && log' == log + Printed(pairs, subprocess)
  {
    var (units, log') := RunAll(pairs, subprocess, log);
    LogAccumulates(pairs, subprocess, log);
    var flags := OperatorUnitsSucceed(units);
    var summary := Manager.Tally(flags);
    assert forall k :: 0 <= k < |pairs| ==> (flags[k] <==> subprocess(pairs[k].0, pairs[k].1).0 == 0);
    if summary.failed > 0 && raiseError then Err(TestsFailed(units, summary, log'))
    else Ok(Finished(units, summary, log'))
  }

  /** The operator gets as far as collecting: a source directory is set,
      the configuration was read and names a python path. */
  predicate Configured(sourceDir: string, config: Option<OperatorConfig>) {
    sourceDir != "" && config.Some? && config.value.pythonpath.Some?
  }

  /** `BPYTEST_OT_Tests.execute`. */
  function Execute(cwd: string, sourceDir: string, config: Option<OperatorConfig>, fs: FileSystem,
                   walk: seq<WalkEntry>, classFiles: seq<NamedFile>, classLog: seq<string>, subprocess: Subprocess)
    : (r: Result<OperatorEnd, OperatorEscape>)
    ensures sourceDir == "" ==> r == Ok(Reported("Source Directory not set"))
    ensures sourceDir != "" && config.None? ==> r == Err(ConfigMissing)
    ensures sourceDir != "" && config.Some? && config.value.pythonpath.None? ==> r == Err(PythonpathMissing)
    ensures Configured(sourceDir, config) ==>
      var cfg := config.value;
      var tp := TestPath(cwd, sourceDir, cfg.pythonpath.value, cfg.testDirectory);
      if !IsFile(fs, tp) && !IsDir(fs, tp) then r == Ok(Reported("Test path not found: " + tp))
      else
        var files := OperatorFiles(fs, tp, cfg, walk, classFiles);
        |AddonUnits(files)| == SelectedCount(files)
        && r == RunAndTally(AddonUnits(files), subprocess, classLog, cfg.raiseError)
  {
    if sourceDir == "" then Ok(Reported("Source Directory not set"))
    else if config.None? then Err(ConfigMissing)
    else
      var cfg := config.value;
      if cfg.pythonpath.None? then Err(PythonpathMissing)
      else
        var tp := TestPath(cwd, sourceDir, cfg.pythonpath.value, cfg.testDirectory);
        if !IsFile(fs, tp) && !IsDir(fs, tp) then Ok(Reported("Test path not found: " + tp))
        else RunAndTally(AddonUnits(OperatorFiles(fs, tp, cfg, walk, classFiles)), subprocess, classLog, cfg.raiseError)
  }

  /** Nothing runs and nothing is logged when the source directory is unset
      or the test path is missing. */
  lemma EarlyReturnRunsNothing(cwd: string, sourceDir: string, config: Option<OperatorConfig>, fs: FileSystem,
                               walk: seq<WalkEntry>, classFiles: seq<NamedFile>, classLog: seq<string>, subprocess: Subprocess)
    requires sourceDir == "" || (Configured(sourceDir, config) &&
      var tp := TestPath(cwd, sourceDir, config.value.pythonpath.value, config.value.testDirectory);
      !IsFile(fs, tp) && !IsDir(fs, tp))
    ensures Execute(cwd, sourceDir, config, fs, walk, classFiles, classLog, subprocess).Ok?
    ensures Execute(cwd, sourceDir, config, fs, walk, classFiles, classLog, subprocess).value.Reported?
  {
  }

  /** The operator walks every directory (it has no ignore list) and does
      not treat the selection `[""]` as "everything". */
  lemma OperatorSelectionIsLiteral(fs: FileSystem, testPath: string, cfg: OperatorConfig, walk: seq<WalkEntry>,
                                   classFiles: seq<NamedFile>)
    requires IsFile(fs, testPath) && !IsDir(fs, testPath)
    requires cfg.selectedFunctions == [""]
    requires forall k :: 0 <= k < |ParseNames(fs.files[testPath])| ==> ParseNames(fs.files[testPath])[k] != ""
    ensures var files := OperatorFiles(fs, testPath, cfg, walk, classFiles);
      files[|files| - 1].selected == []
  {
    BlankSelectionDiffers(ParseNames(fs.files[testPath]));
  }
}
