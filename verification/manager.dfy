/** The test sessions: `core/manager.py`, `bpytest/manager.py` and
    `addon/test_manager/test_manager.py`.  A session runs every selected
    unit once, in order, stores each unit's success flag, and reports how
    many failed and how many passed. */
module Manager {
  import opened Strings
  import opened Seqs
  import opened Py
  import opened Entity
  import opened NameSelection
  import opened Fixtures
  import opened FixtureCache
  import opened LegacyFixtures
  import opened Runner

  // ----------------------------------------------------------------- tallies

  /** `_failed` and `_success` after `_compute_result`. */
  datatype Summary = Summary(failed: nat, success: nat)

  datatype Colour = Red | Green

  function Failing(): bool -> bool {
    (ok: bool) => !ok
  }

  /** The loop of `_compute_result` over the success flags of the finished
      tests: one of the two counters goes up per test. */
  function Tally(flags: seq<bool>): (s: Summary)
    ensures s.failed + s.success == |flags|
    ensures s.failed == CountWhere(flags, Failing())
    ensures s.failed == 0 <==> forall k :: 0 <= k < |flags| ==> flags[k]
    decreases |flags|
  {
    if |flags| == 0 then Summary(0, 0)
    else
      var rest := Tally(flags[1..]);
      assert (forall k :: 0 <= k < |flags| ==> flags[k]) <==>
        flags[0] && forall k :: 0 <= k < |flags[1..]| ==> flags[1..][k]
      by {
        if forall k :: 0 <= k < |flags[1..]| ==> flags[1..][k] {
          assert forall k :: 1 <= k < |flags| ==> flags[k] == flags[1..][k - 1];
        }
      }
      if flags[0] then Summary(rest.failed, rest.success + 1)
      else Summary(rest.failed + 1, rest.success)
  }

  /** The success flags of the finished tests, in order. */
  function Flags(finished: seq<TestUnit>): (flags: seq<bool>)
    ensures |flags| == |finished|
    ensures forall k :: 0 <= k < |finished| ==> flags[k] == finished[k].success
  {
    seq(|finished|, k requires 0 <= k < |finished| => finished[k].success)
  }

  /** `_compute_result` on the finished units. */
  function Summarize(finished: seq<TestUnit>): (s: Summary)
    ensures s.failed + s.success == |finished|
    ensures s.failed == 0 <==> forall k :: 0 <= k < |finished| ==> finished[k].success
  {
    Tally(Flags(finished))
  }

  /** The colour of the summary header. */
  function HeaderColour(s: Summary): Colour {
    if s.failed > 0 then Red else Green
  }

  /** `TestManager.execute` of `core/manager.py`: 1 when a test failed. */
  function ExitCode(s: Summary): int {
    if s.failed > 0 then 1 else 0
  }

  /** The outcome of a session: red and exit code 1 exactly when a
      finished test failed. */
  lemma VerdictOfSession(finished: seq<TestUnit>)
    ensures var s := Summarize(finished);
      (HeaderColour(s) == Red <==> exists k :: 0 <= k < |finished| && !finished[k].success)
      && (ExitCode(s) == 1 <==> exists k :: 0 <= k < |finished| && !finished[k].success)
      && (ExitCode(s) == 0 <==> forall k :: 0 <= k < |finished| ==> finished[k].success)
  {
  }

  // ------------------------------------------------------------ core session

  /** The unit after it ran: `test_unit.success = result` on top of what
      `_execute` did to its lines. */
  function Finish(u: TestUnit, res: ExecutionResult): (d: TestUnit)
    ensures d.success == res.success
    ensures SameTest(d, u)
    ensures d.success ==> d.lines == u.lines
    ensures !d.success ==> d.lines == res.lines
  {
    var (ok, u') := RunUnit(u, res);
    u'.(success := ok)
  }

  /** `d` is `u`, apart from its success flag and its lines. */
  predicate SameTest(d: TestUnit, u: TestUnit) {
    d.(success := u.success, lines := u.lines) == u
  }

  /** The loop of `_run_tests`: each selected unit runs once, in order, with
      the runner of the Blender module; what a module load does is given by
      `load`.  An exception out of `execute` ends the loop. */
  function RunTests(reg: Registry, rank: map<string, nat>, load: string -> TestModule<Decl>, units: seq<TestUnit>, st: State)
    : (r: Result<(Registry, State, seq<TestUnit>), Escape>)
    requires Ranked(reg, rank)
    requires forall p :: ModuleRanked(rank, load(p))
    ensures r.Ok? ==> reg <= r.value.0 && Ranked(r.value.0, rank)
    ensures r.Ok? ==> st.cache.Keys <= r.value.1.cache.Keys
    ensures r.Ok? ==> |r.value.2| == |units|
    ensures r.Ok? ==> forall k :: 0 <= k < |units| ==> SameTest(r.value.2[k], units[k])
    ensures r.Ok? ==> forall k :: 0 <= k < |units| ==>
      if r.value.2[k].success then r.value.2[k].lines == units[k].lines else |r.value.2[k].lines| == 1
    decreases |units|
  {
    if |units| == 0 then Ok((reg, st, []))
    else
      var u := units[0];
      var m := load(u.filepath);
      assert Ranked(LoadedRegistry(reg, m), rank) by {
        assert ModuleRanked(rank, load(u.filepath));
        LoadDeclsRanked(reg, rank, m.decls);
      }
      match BlenderRun(reg, rank, u.filepath, m, u.name, st)
      case Err(e) => Err(e)
      case Ok((v, reg', st')) =>
        var done := Finish(u, Report(v));
        match RunTests(reg', rank, load, units[1..], st')
        case Err(e) => Err(e)
        case Ok((reg'', st'', rest)) =>
          FinishedCons(done, u, rest, units[1..]);
          assert [u] + units[1..] == units;
          Ok((reg'', st'', [done] + rest))
  }

  /** The per-unit facts of `RunTests` extend from the rest of the units
      to the whole list. */
  lemma FinishedCons(d: TestUnit, u: TestUnit, ds: seq<TestUnit>, us: seq<TestUnit>)
    requires SameTest(d, u) && if d.success then d.lines == u.lines else |d.lines| == 1
    requires |ds| == |us|
    requires forall k :: 0 <= k < |us| ==> SameTest(ds[k], us[k])
    requires forall k :: 0 <= k < |us| ==> if ds[k].success then ds[k].lines == us[k].lines else |ds[k].lines| == 1
    ensures forall k :: 0 <= k < |us| + 1 ==> SameTest(([d] + ds)[k], ([u] + us)[k])
    ensures forall k :: 0 <= k < |us| + 1 ==>
      if ([d] + ds)[k].success then ([d] + ds)[k].lines == ([u] + us)[k].lines else |([d] + ds)[k].lines| == 1
  {
    forall k | 1 <= k < |us| + 1
      ensures ([d] + ds)[k] == ds[k - 1] && ([u] + us)[k] == us[k - 1]
    {
    }
  }

  /** The loop keeps every SESSION and MODULE provider started at most once
      per slot. */
  lemma {:induction false} RunTestsOnce(reg: Registry, rank: map<string, nat>, load: string -> TestModule<Decl>, units: seq<TestUnit>, st: State)
    requires Ranked(reg, rank)
    requires forall p :: ModuleRanked(rank, load(p))
    requires Once(reg, st)
    ensures var r := RunTests(reg, rank, load, units, st);
      r.Ok? ==> Once(r.value.0, r.value.1)
    decreases |units|
  {
    if |units| > 0 {
      var u := units[0];
      var m := load(u.filepath);
      assert ModuleRanked(rank, load(u.filepath));
      LoadDeclsRanked(reg, rank, m.decls);
      BlenderRunOnce(reg, rank, u.filepath, m, u.name, st);
      var one := BlenderRun(reg, rank, u.filepath, m, u.name, st);
      if one.Ok? {
        RunTestsOnce(one.value.1, rank, load, units[1..], one.value.2);
      }
    }
  }

  /** `_register_conftest_files`: execute every conftest file in order; any
      exception it raises ends the session. */
  function LoadConftests(reg: Registry, conftests: seq<TestModule<Decl>>): (r: Result<Registry, Escape>)
    ensures r.Ok? ==> reg <= r.value
    ensures r.Ok? ==> forall k :: 0 <= k < |conftests| ==> conftests[k].Loaded?
    decreases |conftests|
  {
    if |conftests| == 0 then Ok(reg)
    else
      var (reg', err) := LoadDecls(reg, conftests[0].decls);
      if err.Some? then Err(DeclRaised(err.value))
      else match conftests[0]
        case ModuleNotFound(_) => Err(ImportFailed(true))
        case ImportRaised(_) => Err(ImportFailed(false))
        case Loaded(_, _) =>
          var rest := LoadConftests(reg', conftests[1..]);
          assert rest.Ok? ==> forall k :: 1 <= k < |conftests| ==> conftests[k] == conftests[1..][k - 1];
          rest
  }

  /** After loading, every fixture a conftest file declares is registered. */
  lemma {:induction false} ConftestFixturesRegistered(reg: Registry, conftests: seq<TestModule<Decl>>, k: nat, j: nat)
    requires LoadConftests(reg, conftests).Ok?
    requires k < |conftests| && conftests[k].Loaded? && j < |conftests[k].decls|
    ensures Registered(LoadConftests(reg, conftests).value, conftests[k].decls[j].func.name)
    decreases |conftests|
  {
    var decls := conftests[0].decls;
    var next := LoadDecls(reg, decls).0;
    assert LoadConftests(reg, conftests) == LoadConftests(next, conftests[1..]);
    if k == 0 {
      LoadDeclsOutcome(reg, decls);
      RegisteredPrefix(next, LoadConftests(reg, conftests).value, decls[j].func.name);
    } else {
      assert conftests[1..][k - 1] == conftests[k];
      ConftestFixturesRegistered(next, conftests[1..], k - 1, j);
    }
  }

  lemma {:induction false} LoadConftestsKeeps(reg: Registry, rank: map<string, nat>, conftests: seq<TestModule<Decl>>, st: State)
    requires Ranked(reg, rank)
    requires forall k :: 0 <= k < |conftests| ==> ModuleRanked(rank, conftests[k])
    requires Once(reg, st)
    ensures LoadConftests(reg, conftests).Ok? ==>
      Ranked(LoadConftests(reg, conftests).value, rank) && Once(LoadConftests(reg, conftests).value, st)
    decreases |conftests|
  {
    if |conftests| > 0 {
      var decls := conftests[0].decls;
      LoadDeclsRanked(reg, rank, decls);
      LoadDeclsOnce(reg, decls, st);
      if LoadDecls(reg, decls).1.None? {
        assert forall k :: 0 <= k < |conftests[1..]| ==> conftests[1..][k] == conftests[k + 1];
        LoadConftestsKeeps(LoadDecls(reg, decls).0, rank, conftests[1..], st);
      }
    }
  }

  /** What a finished session leaves behind. */
  datatype SessionEnd = SessionEnd(
    finished: seq<TestUnit>,
    summary: Summary,
    colour: Colour,
    exitCode: int,
    registry: Registry,
    state: State)

  /** `TestManager.execute` of `core/manager.py`, with the runner of the
      Blender module running each unit: conftest files first, then the
      units, then the SESSION teardowns, then the tally. */
  function CoreSession(reg: Registry, rank: map<string, nat>, conftests: seq<TestModule<Decl>>,
                       load: string -> TestModule<Decl>, units: seq<TestUnit>, st: State)
    : (r: Result<SessionEnd, Escape>)
    requires Ranked(reg, rank)
    requires forall k :: 0 <= k < |conftests| ==> ModuleRanked(rank, conftests[k])
    requires forall p :: ModuleRanked(rank, load(p))
    ensures r.Ok? ==> |r.value.finished| == |units| && r.value.summary == Summarize(r.value.finished)
    ensures r.Ok? ==> r.value.summary.failed + r.value.summary.success == |units|
    ensures r.Ok? ==> (r.value.exitCode == 1 <==> r.value.summary.failed > 0)
    ensures r.Ok? ==> (r.value.exitCode == 0 <==> r.value.summary.failed == 0)
    ensures r.Ok? ==> (r.value.colour == Red <==> r.value.summary.failed > 0)
    ensures r.Ok? ==> forall k :: 0 <= k < |units| ==> SameTest(r.value.finished[k], units[k])
    ensures r.Ok? ==> var t := r.value.state.trace;
      var tail := SessionTeardowns(r.value.registry, r.value.state.cache);
      |tail| <= |t| && t[|t| - |tail|..] == tail
  {
    match LoadConftests(reg, conftests)
    case Err(e) => Err(e)
    case Ok(reg1) =>
      assert Ranked(reg1, rank) by {
        InitialOnce(reg);
        LoadConftestsKeeps(reg, rank, conftests, State(map[], []));
      }
      match RunTests(reg1, rank, load, units, st)
      case Err(e) => Err(e)
      case Ok((reg2, st2, finished)) =>
        var fin := FinalizeSession(reg2, st2);
        if fin.result.Err? then Err(SessionTeardownRaised(fin.result.error))
        else
          var s := Summarize(finished);
          Ok(SessionEnd(finished, s, HeaderColour(s), ExitCode(s), reg2, fin.state))
  }

  /** Over a whole session, the provider of every registered SESSION
      fixture that settles starts at most once, and not at all if it never
      filled its slot. */
  lemma SessionProvidersStartOnce(reg: Registry, rank: map<string, nat>, conftests: seq<TestModule<Decl>>,
                                  load: string -> TestModule<Decl>, units: seq<TestUnit>, st: State, fx: Fixture)
    requires Ranked(reg, rank)
    requires forall k :: 0 <= k < |conftests| ==> ModuleRanked(rank, conftests[k])
    requires forall p :: ModuleRanked(rank, load(p))
    requires Once(reg, st)
    requires CoreSession(reg, rank, conftests, load, units, st).Ok?
    requires var e := CoreSession(reg, rank, conftests, load, units, st).value;
      Lookup(e.registry, fx.name) == Some(fx) && fx.scope == SessionScope && Settles(fx)
    ensures var e := CoreSession(reg, rank, conftests, load, units, st).value;
      SetupsFor(e.state.trace, SessionKey(fx.name)) <= 1
  {
    var reg1 := LoadConftests(reg, conftests).value;
    LoadConftestsKeeps(reg, rank, conftests, st);
    RunTestsOnce(reg1, rank, load, units, st);
    var run := RunTests(reg1, rank, load, units, st).value;
    FinalizeSessionOnce(run.0, run.1);
    SessionAtMostOnce(run.0, FinalizeSession(run.0, run.1).state, fx);
  }

  /** The end-of-session teardowns: one per SESSION entry of the registry
      that holds a stored teardown, and none for any other scope. */
  function HasSessionTeardown(cache: Cache): Fixture -> bool {
    (fx: Fixture) => fx.scope == SessionScope && SessionKey(fx.name) in cache && cache[SessionKey(fx.name)].teardown.Some?
  }

  lemma {:induction false} SessionTeardownsCount(reg: Registry, cache: Cache)
    ensures |SessionTeardowns(reg, cache)| == CountWhere(reg, HasSessionTeardown(cache))
    ensures forall i :: 0 <= i < |SessionTeardowns(reg, cache)| ==> SessionTeardowns(reg, cache)[i].Teardown?
    decreases |reg|
  {
    if |reg| > 0 {
      SessionTeardownsCount(reg[1..], cache);
    }
  }

  /** `_run_tests` of `core/manager.py` as written: it instantiates the
      abstract `TestRunner` of `core/runner.py`, which raises `TypeError`
      as soon as there is a unit to run. */
  function CoreSessionAsWritten(reg: Registry, conftests: seq<TestModule<Decl>>, units: seq<TestUnit>, st: State)
    : (r: Result<SessionEnd, Escape>)
  {
    match LoadConftests(reg, conftests)
    case Err(e) => Err(e)
    case Ok(reg1) =>
      if |units| > 0 then Err(AbstractRunner)
      else
        var fin := FinalizeSession(reg1, st);
        if fin.result.Err? then Err(SessionTeardownRaised(fin.result.error))
        else Ok(SessionEnd([], Summary(0, 0), Green, 0, reg1, fin.state))
  }

  /** As written, no session with a selected unit gets past its first
      unit, while with nothing selected it agrees with `CoreSession`. */
  lemma AbstractRunnerEndsSession(reg: Registry, rank: map<string, nat>, conftests: seq<TestModule<Decl>>,
                                  load: string -> TestModule<Decl>, units: seq<TestUnit>, st: State)
    requires Ranked(reg, rank)
    requires forall k :: 0 <= k < |conftests| ==> ModuleRanked(rank, conftests[k])
    requires forall p :: ModuleRanked(rank, load(p))
    requires LoadConftests(reg, conftests).Ok?
    ensures |units| > 0 ==> CoreSessionAsWritten(reg, conftests, units, st) == Err(AbstractRunner)
    ensures |units| == 0 ==> CoreSessionAsWritten(reg, conftests, units, st) == CoreSession(reg, rank, conftests, load, units, st)
  {
    if |units| == 0 {
      var reg1 := LoadConftests(reg, conftests).value;
      InitialOnce(reg);
      LoadConftestsKeeps(reg, rank, conftests, State(map[], []));
      assert RunTests(reg1, rank, load, units, st) == Ok((reg1, st, []));
    }
  }

  // ---------------------------------------------------------- bpytest/ session

  /** `RunnerType`. */
  datatype RunnerType = Background | Runtime

  /** `_run_tests` of `bpytest/manager.py`: the runner class follows the
      runner type; a background run is judged by the exit code and error
      output `subprocess` reports for the unit. */
  function LegacyRunTests(kind: RunnerType, reg: LegacyRegistry, load: string -> TestModule<Func>,
                          subprocess: TestUnit -> (int, string), units: seq<TestUnit>, trace: seq<Event>)
    : (r: Result<(LegacyRegistry, seq<Event>, seq<TestUnit>), Escape>)
    ensures kind == Background ==> r.Ok? && r.value.0 == reg && r.value.1 == trace
    ensures r.Ok? ==> |r.value.2| == |units|
    ensures r.Ok? ==> forall k :: 0 <= k < |units| ==> SameTest(r.value.2[k], units[k])
    ensures r.Ok? && kind == Background ==> forall k :: 0 <= k < |units| ==>
      (r.value.2[k].success <==> subprocess(units[k]).0 == 0)
    ensures r.Ok? && kind == Background ==> forall k :: 0 <= k < |units| ==>
      units[k].lines <= r.value.2[k].lines
    decreases |units|
  {
    if |units| == 0 then Ok((reg, trace, []))
    else
      var u := units[0];
      var one: Result<(LegacyRegistry, seq<Event>, TestUnit), Escape> :=
        match kind
        case Background =>
          var (ok, u') := BackgroundUnit(u, subprocess(u).0, subprocess(u).1);
          Ok((reg, trace, u'.(success := ok)))
        case Runtime =>
          match LegacyRun(reg, load(u.filepath), u.name, trace)
          case Err(e) => Err(e)
          case Ok((v, reg', trace')) => Ok((reg', trace', Finish(u, Report(v))));
      match one
      case Err(e) => Err(e)
      case Ok((reg', trace', done)) =>
        match LegacyRunTests(kind, reg', load, subprocess, units[1..], trace')
        case Err(e) => Err(e)
        case Ok((reg'', trace'', rest)) => Ok((reg'', trace'', [done] + rest))
  }

  /** `TestManager.execute` of `bpytest/manager.py`: run, then tally; it
      returns no exit code. */
  function LegacySession(kind: RunnerType, reg: LegacyRegistry, load: string -> TestModule<Func>,
                         subprocess: TestUnit -> (int, string), units: seq<TestUnit>)
    : (r: Result<(seq<TestUnit>, Summary, Colour), Escape>)
    ensures r.Ok? ==> |r.value.0| == |units| && r.value.1.failed + r.value.1.success == |units|
    ensures r.Ok? ==> (r.value.2 == Red <==> exists k :: 0 <= k < |units| && !r.value.0[k].success)
  {
    match LegacyRunTests(kind, reg, load, subprocess, units, [])
    case Err(e) => Err(e)
    case Ok((_, _, finished)) =>
      var s := Summarize(finished);
      Ok((finished, s, HeaderColour(s)))
  }

  // ------------------------------------------------------- add-on session

  /** The order in which `addon/test_manager/test_manager.py` visits tests:
      file by file, and within a file its selected names in order. */
  function AddonUnits(files: seq<NamedFile>): (r: seq<(string, string)>)
    ensures |r| == SelectedCount(files)
    decreases |files|
  {
    if |files| == 0 then []
    else
      seq(|files[0].selected|, i requires 0 <= i < |files[0].selected| => (files[0].filepath, files[0].selected[i]))
      + AddonUnits(files[1..])
  }

  /** The `k`-th selected name of the first file is visited `k`-th; the
      later files follow. */
  lemma AddonUnitsOrder(files: seq<NamedFile>, k: nat)
    requires |files| > 0 && k < |files[0].selected|
    ensures AddonUnits(files)[k] == (files[0].filepath, files[0].selected[k])
    ensures AddonUnits(files)[|files[0].selected|..] == AddonUnits(files[1..])
  {
  }

  /** `_run_tests` of the add-on manager: `test_mode` picks `BackgroundTest`
      or `RuntimeTest`, and the keyword arguments are evaluated before the
      chosen class is called. The last of them reads `show_log` from the
      configuration, which the configuration object never sets, so the first
      selected test ends the session with `AttributeError` whatever the mode,
      before any process starts; with nothing selected the session finishes
      with nothing run. (`test_mode` itself is always set here: a manager whose
      configuration lacks `tool.bpytest` already fails in its constructor.) */
  function AddonRunTests(mode: RunnerType, files: seq<NamedFile>): (r: Result<seq<(string, string)>, Escape>)
    ensures r.Ok? <==> SelectedCount(files) == 0
    ensures r.Ok? ==> r.value == AddonUnits(files) == []
    ensures r.Err? ==> r.error == MissingAttribute("show_log")
  {
    var units := AddonUnits(files);
    if |units| == 0 then Ok([])
    else match mode
      case Background => Err(MissingAttribute("show_log"))
      case Runtime => Err(MissingAttribute("show_log"))
  }

  /** The outcome depends only on how many names are selected: neither the
      mode, nor the files, nor the names themselves change it, and no
      selected test ever finishes. */
  lemma AddonRunTestsCountOnly(m1: RunnerType, m2: RunnerType, f1: seq<NamedFile>, f2: seq<NamedFile>)
    requires (SelectedCount(f1) == 0) == (SelectedCount(f2) == 0)
    ensures AddonRunTests(m1, f1) == AddonRunTests(m2, f2)
    ensures AddonRunTests(m1, f1).Ok? ==> |AddonRunTests(m1, f1).value| == 0
  {
  }
}
