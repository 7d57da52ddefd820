/** Running one test function, in the three generations of the runner:

    - `src/bpytest/blender_module/bpytest/runner.py`: fixtures are resolved
      by the engine of `core/fixtures.py`, the test is called with their
      values, the requests are finalized, and only `False` itself fails;
    - `core/runner.py`: the same entry point, but it builds its fixture
      request with too few arguments and compares the result with `==`;
    - `bpytest/runner.py`: registered fixtures are called without
      arguments from a last-wins dictionary and nothing is torn down.

    Loading a module, the attribute it exposes and what the test body does
    are inputs; the state of the fixture engine is threaded through. */
module Runner {
  import opened Strings
  import opened Seqs
  import opened Py
  import opened Entity
  import opened Fixtures
  import opened FixtureCache
  import opened LegacyFixtures
  import FixtureOrder

  // ------------------------------------------------------------ test modules

  /** A fixture a module declares with `@fixture(scope=...)`. */
  datatype Decl = Decl(func: Func, scope: string)

  /** What a test function does once called with its arguments: return a
      value, raise an exception (its class name and message), or, for a
      generator function, hand back a generator whose body has not started.
      The `body` field of the test's `Func` is not consulted. */
  datatype TestBody = Returns(value: PyValue) | Raises(exception: string, message: string) | Generator

  /** `getattr(test_file, function_name)`, as far as `hasattr(obj, "__call__")` goes. */
  datatype Attribute = Callable(func: Func, behaves: TestBody) | NotCallable

  /** What `spec.loader.exec_module` does with a test file: run the module
      body, which declares fixtures (of kind `D`) in order and leaves
      attributes, or raise `ModuleNotFoundError` or something else part way.
      `decls` are the fixture declarations the body runs before it ends or
      raises, so a module that fails to import can still have registered
      fixtures. */
  datatype TestModule<D> =
    | ModuleNotFound(decls: seq<D>)
    | ImportRaised(decls: seq<D>)
    | Loaded(decls: seq<D>, attrs: map<string, Attribute>)

  /** Exceptions that leave `execute`, or a session loop, instead of
      becoming a failed result. */
  datatype Escape =
    | ImportFailed(notFound: bool)
    | DeclRaised(error: Error)
    | MissingAttribute(name: string)
    | SessionTeardownRaised(error: Error)   // a SESSION teardown at the end of the session
    | AbstractRunner                        // instantiating an abstract runner class

  /** Why a test failed. */
  datatype Failure =
    | MissingModule(path: string)                 // ModuleNotFoundError caught by the newest runner
    | FixtureFailed(error: Error)                 // resolving or finalizing a fixture raised
    | InvalidFixtureName(test: string)            // a TypeError out of calling the test
    | TestRaised(exception: string, message: string)
    | CallFailed(test: string)                    // TypeError binding the call, older runners
    | RequestConstruction                         // FixtureRequest(obj, session_info, config)
    | ReturnedFalse                               // Exception("Test failed, returned False")

  datatype Verdict = Passed | Failed(failure: Failure)

  /** `ExecutionResult(success, result_lines)`. */
  datatype ExecutionResult = ExecutionResult(success: bool, lines: seq<string>)

  // -------------------------------------------------------------- messages

  /** The final line of the traceback of an engine error: exception class
      and message where the source writes the message itself, the exception
      class and the raising function where the message comes from user code. */
  function ErrorLine(e: Error): string {
    match e
    case NotRegistered(n) => "ValueError: Fixture '" + n + "' not registered."
    case CallTypeError(f) => "TypeError in " + f
    case ProviderRaised(f) => "exception in fixture " + f
    case DidNotYield(f) => "ValueError: " + f + " did not yield a value"
    case MoreThanOneYield(f) => "ValueError: " + f + " has more than one yield"
    case NoNameAttribute => "AttributeError: 'functools.partial' object has no attribute '__name__'"
    case TeardownRaised(f) => "exception in teardown of fixture " + f
    case UnknownScope(s) => "KeyError: '" + Upper(s) + "'"
  }

  /** The line a failed `ExecutionResult` carries: `traceback.format_exc()`,
      of which the model keeps the final line, or the fixed message for a
      module that cannot be found. */
  function FailureLine(f: Failure): string {
    match f
    case MissingModule(p) => "ModuleNotFoundError: " + p
    case FixtureFailed(e) => ErrorLine(e)
    case InvalidFixtureName(t) => "bpytest.exception.InvalidFixtureName: Invalid fixture name for test: " + t
    case TestRaised(exc, msg) => exc + ": " + msg
    case CallFailed(t) => "TypeError in " + t
    case RequestConstruction => "TypeError: FixtureRequest.__init__() missing 1 required positional argument: 'config'"
    case ReturnedFalse => "Exception: Test failed, returned False"
  }

  /** `ExecutionResult(True)` or `ExecutionResult(False, [line])`. */
  function Report(v: Verdict): (r: ExecutionResult)
    ensures r.success <==> v.Passed?
    ensures r.success ==> r.lines == []
    ensures !r.success ==> |r.lines| == 1 && r.lines[0] == FailureLine(v.failure)
  {
    if v.Passed? then ExecutionResult(true, []) else ExecutionResult(false, [FailureLine(v.failure)])
  }

  /** Distinct test names give distinct `InvalidFixtureName` lines, so the
      line identifies the test. */
  lemma InvalidFixtureNameIdentifiesTest(a: string, b: string)
    requires FailureLine(InvalidFixtureName(a)) == FailureLine(InvalidFixtureName(b))
    ensures a == b
  {
    var prefix := "bpytest.exception.InvalidFixtureName: Invalid fixture name for test: ";
    assert a == (prefix + a)[|prefix|..];
    assert b == (prefix + b)[|prefix|..];
  }

  // ---------------------------------------------------------------- loading

  /** Running the module body: every `@fixture` decorator in order; an
      unknown scope raises `KeyError`, and what was registered before it
      stays registered. */
  function LoadDecls(reg: Registry, decls: seq<Decl>): (r: (Registry, Option<Error>))
    ensures reg <= r.0
    ensures r.1.Some? ==> r.1.value.UnknownScope?
    decreases |decls|
  {
    if |decls| == 0 then (reg, None)
    else match Decorate(reg, decls[0].func, decls[0].scope)
      case Err(e) => (reg, Some(e))
      case Ok(p) => LoadDecls(p.0, decls[1..])
  }

  lemma RegisteredPrefix(a: Registry, b: Registry, name: string)
    requires a <= b
    requires Registered(a, name)
    ensures Registered(b, name)
  {
    var i :| 0 <= i < |a| && a[i].name == name;
    assert b[i] == a[i];
  }

  /** Loading fails exactly when some declaration names an unknown scope;
      otherwise every declared fixture is registered afterwards. */
  lemma {:induction false} LoadDeclsOutcome(reg: Registry, decls: seq<Decl>)
    ensures LoadDecls(reg, decls).1.None? <==>
      forall k :: 0 <= k < |decls| ==> ParseScope(decls[k].scope).Some?
    ensures LoadDecls(reg, decls).1.None? ==>
      forall k :: 0 <= k < |decls| ==> Registered(LoadDecls(reg, decls).0, decls[k].func.name)
    decreases |decls|
  {
    if |decls| > 0 {
      var d := Decorate(reg, decls[0].func, decls[0].scope);
      if d.Ok? {
        var next := d.value.0;
        LoadDeclsOutcome(next, decls[1..]);
        var r := LoadDecls(reg, decls);
        assert r == LoadDecls(next, decls[1..]);
        assert Registered(next, decls[0].func.name);
        if r.1.None? {
          RegisteredPrefix(next, r.0, decls[0].func.name);
          forall k | 0 <= k < |decls| ensures Registered(r.0, decls[k].func.name) {
            if k > 0 {
              assert decls[k] == decls[1..][k - 1];
            }
          }
        }
        if forall k :: 0 <= k < |decls| ==> ParseScope(decls[k].scope).Some? {
          assert forall k :: 0 <= k < |decls[1..]| ==> decls[1..][k] == decls[k + 1];
        } else {
          var k :| 0 <= k < |decls| && ParseScope(decls[k].scope).None?;
          assert k > 0;
          assert decls[1..][k - 1] == decls[k];
        }
      }
    }
  }

  /** Loading keeps the at-most-once bookkeeping of the engine. */
  lemma {:induction false} LoadDeclsOnce(reg: Registry, decls: seq<Decl>, st: State)
    requires Once(reg, st)
    ensures Once(LoadDecls(reg, decls).0, st)
    decreases |decls|
  {
    if |decls| > 0 {
      var d := Decorate(reg, decls[0].func, decls[0].scope);
      if d.Ok? {
        var fx := Fixture(decls[0].func.name, decls[0].func, ParseScope(decls[0].scope).value);
        assert d.value.0 == Register(reg, fx);
        RegisterOnce(reg, fx, st);
        LoadDeclsOnce(d.value.0, decls[1..], st);
      }
    }
  }

  /** Every declared fixture ranks its own registered dependencies below
      itself, so registering it keeps the registry acyclic. */
  predicate DeclsRanked(rank: map<string, nat>, decls: seq<Decl>) {
    forall k :: 0 <= k < |decls| ==>
      decls[k].func.name in rank && Below(rank, decls[k].func, rank[decls[k].func.name])
  }

  predicate ModuleRanked(rank: map<string, nat>, m: TestModule<Decl>) {
    DeclsRanked(rank, m.decls)
  }

  lemma {:induction false} LoadDeclsRanked(reg: Registry, rank: map<string, nat>, decls: seq<Decl>)
    requires Ranked(reg, rank)
    requires DeclsRanked(rank, decls)
    ensures Ranked(LoadDecls(reg, decls).0, rank)
    decreases |decls|
  {
    if |decls| > 0 {
      var d := Decorate(reg, decls[0].func, decls[0].scope);
      if d.Ok? {
        var fx := Fixture(decls[0].func.name, decls[0].func, ParseScope(decls[0].scope).value);
        assert d.value.0 == Register(reg, fx);
        assert Ranked(d.value.0, rank) by {
          if !Registered(reg, fx.name) {
            assert d.value.0 == reg + [fx];
          }
        }
        assert DeclsRanked(rank, decls[1..]) by {
          forall k | 0 <= k < |decls[1..]|
            ensures decls[1..][k].func.name in rank && Below(rank, decls[1..][k].func, rank[decls[1..][k].func.name])
          {
            assert decls[1..][k] == decls[k + 1];
          }
        }
        LoadDeclsRanked(d.value.0, rank, decls[1..]);
      }
    }
  }

  /** The registry once a module has been executed. */
  function LoadedRegistry(reg: Registry, m: TestModule<Decl>): (r: Registry)
    ensures reg <= r
  {
    LoadDecls(reg, m.decls).0
  }

  // ------------------------------------------------ runner of the Blender module

  /** The checks after the test has returned: finalize every request, in
      order, and only then look at the returned value with `is False`. */
  function AfterTest(reqs: seq<Request>, v: PyValue, st: State): (r: (Verdict, State))
    ensures r.1.cache == st.cache
    ensures r.0.Passed? <==> CleanForest(reqs) && !IsFalse(v)
    ensures r.0 == Failed(ReturnedFalse) <==> CleanForest(reqs) && IsFalse(v)
    ensures CleanForest(reqs) ==> r.1.trace == st.trace + TeardownOrderAll(reqs)
    ensures !CleanForest(reqs) ==> r.0.Failed? && r.0.failure.FixtureFailed?
  {
    var fin := FinalizeAll(reqs, st);
    if fin.result.Err? then (Failed(FixtureFailed(fin.result.error)), fin.state)
    else if IsFalse(v) then (Failed(ReturnedFalse), fin.state)
    else (Passed, fin.state)
  }

  /** The `try` block of `execute`: resolve the fixtures, call the test with
      their values, finalize, check the result. */
  function CallTest(reg: Registry, rank: map<string, nat>, name: string, func: Func, behaves: TestBody, st: State)
    : (r: (Verdict, State))
    requires Ranked(reg, rank)
    ensures st.cache.Keys <= r.1.cache.Keys
    ensures Resolve(reg, rank, func, st).result.Err? ==>
      r == (Failed(FixtureFailed(Resolve(reg, rank, func, st).result.error)), Resolve(reg, rank, func, st).state)
  {
    var res := Resolve(reg, rank, func, st);
    if res.result.Err? then (Failed(FixtureFailed(res.result.error)), res.state)
    else
      var (reqs, vals) := res.result.value;
      if !Binds(func.params, func.defaults, |vals|, false) then (Failed(InvalidFixtureName(name)), res.state)
      else
        match behaves
        case Raises(exc, msg) =>
          var ran := res.state.(trace := res.state.trace + [Run(name)]);
          (Failed(if exc == "TypeError" then InvalidFixtureName(name) else TestRaised(exc, msg)), ran)
        case Generator => AfterTest(reqs, PyObject(false), res.state)
        case Returns(v) => AfterTest(reqs, v, res.state.(trace := res.state.trace + [Run(name)]))
  }

  /** `execute` of the Blender module: a missing module is a failed result,
      a module that raises otherwise, an unknown scope or a missing
      attribute escape, an attribute that is not callable passes. */
  function BlenderRun(reg: Registry, rank: map<string, nat>, path: string, m: TestModule<Decl>, name: string, st: State)
    : (r: Result<(Verdict, Registry, State), Escape>)
    requires Ranked(LoadedRegistry(reg, m), rank)
    ensures LoadDecls(reg, m.decls).1.Some? ==> r == Err(DeclRaised(LoadDecls(reg, m.decls).1.value))
    ensures m.ModuleNotFound? && LoadDecls(reg, m.decls).1.None? ==>
      r == Ok((Failed(MissingModule(path)), LoadedRegistry(reg, m), st))
    ensures m.ImportRaised? && LoadDecls(reg, m.decls).1.None? ==> r == Err(ImportFailed(false))
    ensures r.Ok? ==> r.value.1 == LoadedRegistry(reg, m)
    ensures r.Ok? ==> st.cache.Keys <= r.value.2.cache.Keys
    ensures m.Loaded? && LoadDecls(reg, m.decls).1.None? && name in m.attrs && m.attrs[name].NotCallable? ==>
      r == Ok((Passed, LoadedRegistry(reg, m), st))
    ensures m.Loaded? && LoadDecls(reg, m.decls).1.None? ==> (r.Err? <==> name !in m.attrs)
  {
    var (reg', err) := LoadDecls(reg, m.decls);
    if err.Some? then Err(DeclRaised(err.value))
    else match m
      case ModuleNotFound(_) => Ok((Failed(MissingModule(path)), reg', st))
      case ImportRaised(_) => Err(ImportFailed(false))
      case Loaded(_, attrs) =>
        if name !in attrs then Err(MissingAttribute(name))
        else match attrs[name]
          case NotCallable => Ok((Passed, reg', st))
          case Callable(func, behaves) =>
            var (v, st') := CallTest(reg', rank, name, func, behaves, st);
            Ok((v, reg', st'))
  }

  /** When everything around it succeeds, the test passes exactly when it
      returns something other than `False` or is a generator function, and
      the trace shows its fixtures set up, the test run, and their teardowns. */
  lemma CallTestPasses(reg: Registry, rank: map<string, nat>, name: string, func: Func, behaves: TestBody, st: State)
    requires Ranked(reg, rank)
    requires Resolve(reg, rank, func, st).result.Ok?
    ensures var res := Resolve(reg, rank, func, st);
      var (reqs, vals) := res.result.value;
      var r := CallTest(reg, rank, name, func, behaves, st);
      (r.0.Passed? <==> Binds(func.params, func.defaults, |vals|, false) && CleanForest(reqs)
                        && (behaves.Generator? || (behaves.Returns? && !IsFalse(behaves.value))))
      && (Binds(func.params, func.defaults, |vals|, false) && CleanForest(reqs) && behaves.Returns? ==>
            r.1.trace == res.state.trace + [Run(name)] + TeardownOrderAll(reqs))
  {
  }

  /** A test that raises skips the finalizer loop: its fixtures are set up
      but never torn down. */
  lemma RaisingTestSkipsTeardown(reg: Registry, rank: map<string, nat>, name: string, func: Func, exc: string, msg: string, st: State)
    requires Ranked(reg, rank)
    requires Resolve(reg, rank, func, st).result.Ok?
    requires Binds(func.params, func.defaults, |Resolve(reg, rank, func, st).result.value.1|, false)
    ensures var res := Resolve(reg, rank, func, st);
      var r := CallTest(reg, rank, name, func, TestBody.Raises(exc, msg), st);
      r.0.Failed? && r.1 == res.state.(trace := res.state.trace + [Run(name)])
      && (r.0.failure.InvalidFixtureName? <==> exc == "TypeError")
  {
  }

  /** A test returning `False` still has its fixtures torn down before it
      is reported as failed. */
  lemma FalseResultStillTearsDown(reg: Registry, rank: map<string, nat>, name: string, func: Func, st: State)
    requires Ranked(reg, rank)
    requires Resolve(reg, rank, func, st).result.Ok?
    requires Binds(func.params, func.defaults, |Resolve(reg, rank, func, st).result.value.1|, false)
    requires CleanForest(Resolve(reg, rank, func, st).result.value.0)
    ensures var res := Resolve(reg, rank, func, st);
      var r := CallTest(reg, rank, name, func, TestBody.Returns(PyBool(false)), st);
      r.0 == Failed(ReturnedFalse)
      && r.1.trace == res.state.trace + [Run(name)] + TeardownOrderAll(res.result.value.0)
  {
  }

  /** The test, resolution included, keeps every SESSION and MODULE provider
      started at most once per slot. */
  lemma CallTestOnce(reg: Registry, rank: map<string, nat>, name: string, func: Func, behaves: TestBody, st: State)
    requires Ranked(reg, rank)
    requires Once(reg, st)
    ensures Once(reg, CallTest(reg, rank, name, func, behaves, st).1)
  {
    var res := Resolve(reg, rank, func, st);
    ResolveOnce(reg, rank, func, st);
    if res.result.Ok? {
      var (reqs, vals) := res.result.value;
      var ran := res.state.(trace := res.state.trace + [Run(name)]);
      OnceOther(reg, res.state, Run(name));
      FinalizeAllOnce(reg, reqs, res.state);
      FinalizeAllOnce(reg, reqs, ran);
    }
  }

  lemma BlenderRunOnce(reg: Registry, rank: map<string, nat>, path: string, m: TestModule<Decl>, name: string, st: State)
    requires Ranked(LoadedRegistry(reg, m), rank)
    requires Once(reg, st)
    ensures var r := BlenderRun(reg, rank, path, m, name, st);
      r.Ok? ==> Once(r.value.1, r.value.2)
  {
    LoadDeclsOnce(reg, m.decls, st);
    if m.Loaded? {
      var reg' := LoadDecls(reg, m.decls).0;
      if LoadDecls(reg, m.decls).1.None? && name in m.attrs && m.attrs[name].Callable? {
        CallTestOnce(reg', rank, name, m.attrs[name].func, m.attrs[name].behaves, st);
      }
    }
  }

  /** `TestRunner._execute` after `execute`: on failure the unit's lines are
      replaced by the result's, on success the unit is left as it is. */
  function RunUnit(u: TestUnit, res: ExecutionResult): (r: (bool, TestUnit))
    ensures r.0 == res.success
    ensures r.1.lines == (if res.success then u.lines else res.lines)
    ensures r.1.(lines := u.lines) == u
  {
    if !res.success then (false, u.(lines := res.lines)) else (true, u)
  }

  // ----------------------------------------------------------- runner of core/

  /** Some parameter of the test is a registered fixture name. */
  predicate AnyRegistered(reg: Registry, params: seq<string>) {
    exists j :: 0 <= j < |params| && Registered(reg, params[j])
  }

  /** Calling the test with `count` positional arguments and judging the
      result with `== False`, as both older runners do. */
  function PlainCall(name: string, func: Func, behaves: TestBody, count: nat, trace: seq<Event>): (r: (Verdict, seq<Event>))
    ensures r.1 == trace || r.1 == trace + [Run(name)]
    ensures r.1 != trace <==> Binds(func.params, func.defaults, count, false) && !behaves.Generator?
    ensures r.0.Passed? <==>
      (Binds(func.params, func.defaults, count, false) && (behaves.Generator? || (behaves.Returns? && !EqualsFalse(behaves.value))))
  {
    if !Binds(func.params, func.defaults, count, false) then (Failed(CallFailed(name)), trace)
    else match behaves
      case Raises(exc, msg) => (Failed(TestRaised(exc, msg)), trace + [Run(name)])
      case Generator => (Passed, trace)
      case Returns(v) => (if EqualsFalse(v) then Failed(ReturnedFalse) else Passed, trace + [Run(name)])
  }

  /** `execute` of `core/runner.py`: nothing around the module load is
      caught, and the first registered parameter builds
      `FixtureRequest(obj, session_info, config)`, one positional argument
      short, which raises inside the `try`. */
  function CoreRun(reg: Registry, m: TestModule<Decl>, name: string, st: State)
    : (r: Result<(Verdict, Registry, State), Escape>)
    ensures !m.Loaded? ==> r.Err?
    ensures m.ModuleNotFound? && LoadDecls(reg, m.decls).1.None? ==> r == Err(ImportFailed(true))
    ensures m.ImportRaised? && LoadDecls(reg, m.decls).1.None? ==> r == Err(ImportFailed(false))
    ensures r.Ok? ==> r.value.1 == LoadedRegistry(reg, m) && r.value.2.cache == st.cache
    ensures r.Ok? ==> r.value.2.trace == st.trace || r.value.2.trace == st.trace + [Run(name)]
  {
    var (reg', err) := LoadDecls(reg, m.decls);
    if err.Some? then Err(DeclRaised(err.value))
    else match m
      case ModuleNotFound(_) => Err(ImportFailed(true))
      case ImportRaised(_) => Err(ImportFailed(false))
      case Loaded(_, attrs) =>
        if name !in attrs then Err(MissingAttribute(name))
        else match attrs[name]
          case NotCallable => Ok((Passed, reg', st))
          case Callable(func, behaves) =>
            if AnyRegistered(reg', func.params) then Ok((Failed(RequestConstruction), reg', st))
            else
              var (v, trace) := PlainCall(name, func, behaves, 0, st.trace);
              Ok((v, reg', st.(trace := trace)))
  }

  /** A callable test that declares any registered fixture never passes in
      `core/runner.py`, and neither its fixtures nor its body ever run. */
  lemma CoreFixtureTestsAlwaysFail(reg: Registry, m: TestModule<Decl>, name: string, st: State)
    requires m.Loaded? && name in m.attrs && m.attrs[name].Callable?
    requires LoadDecls(reg, m.decls).1.None?
    requires AnyRegistered(LoadedRegistry(reg, m), m.attrs[name].func.params)
    ensures CoreRun(reg, m, name, st) == Ok((Failed(RequestConstruction), LoadedRegistry(reg, m), st))
  {
  }

  /** In the Blender module's runner the same test is resolved: with
      uncached providers that tear down cleanly and a result other than
      `False`, it passes, and each requested fixture is set up before the
      test runs. */
  lemma BlenderFixtureTestsCanPass(reg: Registry, rank: map<string, nat>, name: string, func: Func, v: PyValue, st: State)
    requires Ranked(reg, rank)
    requires FixtureOrder.Uncached(reg)
    requires Resolve(reg, rank, func, st).result.Ok?
    requires Binds(func.params, func.defaults, |Resolve(reg, rank, func, st).result.value.1|, false)
    requires CleanForest(Resolve(reg, rank, func, st).result.value.0)
    requires !IsFalse(v)
    ensures var res := Resolve(reg, rank, func, st);
      var r := CallTest(reg, rank, name, func, TestBody.Returns(v), st);
      r.0 == Passed
      && Names(res.result.value.0) == Requested(reg, func.params)
      && r.1.trace == st.trace + FixtureOrder.SetupOrderAll(res.result.value.0) + [Run(name)] + TeardownOrderAll(res.result.value.0)
  {
    FixtureOrder.ResolveSetups(reg, rank, func, st);
  }

  /** The newest runner lets a test that returns `0`, `0.0` or any other
      value equal to but not identical with `False` pass; both older ones
      fail it, since they compare with `==`. */
  lemma ZeroResultDiffers(reg: Registry, rank: map<string, nat>, name: string, func: Func, v: PyValue, st: State)
    requires Ranked(reg, rank)
    requires func.params == []
    requires EqualsFalse(v) && !IsFalse(v)
    ensures CallTest(reg, rank, name, func, TestBody.Returns(v), st).0 == Passed
    ensures PlainCall(name, func, TestBody.Returns(v), 0, st.trace).0 == Failed(ReturnedFalse)
  {
    assert Resolve(reg, rank, func, st) == Outcome(Ok(([], [])), st);
  }

  // ------------------------------------------------------ runner of bpytest/

  /** `execute` of `bpytest/runner.py`: every registered parameter is
      called with no arguments and its value passed positionally. */
  function LegacyRun(reg: LegacyRegistry, m: TestModule<Func>, name: string, trace: seq<Event>)
    : (r: Result<(Verdict, LegacyRegistry, seq<Event>), Escape>)
    ensures m.ModuleNotFound? ==> r == Err(ImportFailed(true))
    ensures m.ImportRaised? ==> r == Err(ImportFailed(false))
    ensures m.Loaded? ==> (r.Err? <==> name !in m.attrs)
    ensures r.Ok? ==> r.value.1 == LegacyLoad(reg, m.decls)
    ensures r.Ok? ==> |trace| <= |r.value.2| && r.value.2[..|trace|] == trace
  {
    match m
    case ModuleNotFound(_) => Err(ImportFailed(true))
    case ImportRaised(_) => Err(ImportFailed(false))
    case Loaded(decls, attrs) =>
      var reg' := LegacyLoad(reg, decls);
      if name !in attrs then Err(MissingAttribute(name))
      else match attrs[name]
        case NotCallable => Ok((Passed, reg', trace))
        case Callable(func, behaves) =>
          var res := LegacyResolve(reg', func.params, CallerOf(func), trace);
          if res.0.Err? then Ok((Failed(FixtureFailed(res.0.error)), reg', res.1))
          else
            var (v, trace') := PlainCall(name, func, behaves, |res.0.value|, res.1);
            Ok((v, reg', trace'))
  }

  /** `bpytest/test_manager/fixtures.py` as the oldest runner loads it:
      its decorator writes to the top-level `fixtures` module, not to
      `bpytest.fixtures`, so it declares nothing the runner sees; its two
      demonstration tests each take `setup_teardown_example`. */
  function DemoModule(file: string, behaves: TestBody): TestModule<Func> {
    var test := (n: string) => Callable(Func(n, file, ["setup_teardown_example"], 0, Body.Returns), behaves);
    Loaded([], map["test_example" := test("test_example"), "test_another_example" := test("test_another_example"),
      "setup_teardown_example" := Callable(DemoFixture(file), TestBody.Generator)])
  }

  /** Running a demonstration test with the runner's own registry, which
      the demonstration import never reaches: the parameter is skipped as
      unregistered, so the test is called with no arguments and fails with
      the call's `TypeError`, whatever the demonstration registry holds. */
  lemma DemoTestFailsInRunner(reg: LegacyRegistry, demoReg: LegacyRegistry, file: string, behaves: TestBody,
                              test: string, trace: seq<Event>)
    requires test == "test_example" || test == "test_another_example"
    requires "setup_teardown_example" !in reg
    ensures LegacyGetFixture(DemoImport(demoReg, file), "setup_teardown_example").Ok?
    ensures LegacyRun(reg, DemoModule(file, behaves), test, trace) == Ok((Failed(CallFailed(test)), reg, trace))
  {
    var m := DemoModule(file, behaves);
    assert test in m.attrs && m.attrs[test].Callable?;
    var func := m.attrs[test].func;
    assert func.params == ["setup_teardown_example"] && func.defaults == 0;
    assert LegacyLoad(reg, []) == reg;
    assert func.params[1..] == [];
    assert LegacyResolve(reg, func.params, CallerOf(func), trace) == (Ok([]), trace);
    assert !Binds(func.params, func.defaults, 0, false);
  }

  /** The oldest runner never runs anything after a fixture's `yield`: the
      events it adds are set-ups and at most the test run. */
  lemma LegacyNeverTearsDown(reg: LegacyRegistry, m: TestModule<Func>, name: string, trace: seq<Event>)
    requires LegacyRun(reg, m, name, trace).Ok?
    ensures var t := LegacyRun(reg, m, name, trace).value.2;
      forall k :: |trace| <= k < |t| ==> !t[k].Teardown?
  {
    if m.Loaded? && name in m.attrs && m.attrs[name].Callable? {
      var func := m.attrs[name].func;
      var res := LegacyResolve(LegacyLoad(reg, m.decls), func.params, CallerOf(func), trace);
      if res.0.Ok? {
        var call := PlainCall(name, func, m.attrs[name].behaves, |res.0.value|, res.1);
        assert forall k :: |trace| <= k < |res.1| ==> res.1[k].Setup?;
        assert forall k :: |res.1| <= k < |call.1| ==> call.1[k] == Run(name);
      }
    }
  }

  // ---------------------------------------------------- background runners

  /** `BackgroundTest._execute` of `core/runner.py` and `bpytest/runner.py`:
      the test passes exactly when the Blender subprocess exits with 0; on a
      non-zero exit its decoded standard error is appended to the lines. */
  function BackgroundUnit(u: TestUnit, returncode: int, stderr: string): (r: (bool, TestUnit))
    ensures r.0 <==> returncode == 0
    ensures r.0 ==> r.1 == u
    ensures !r.0 ==> r.1.lines == u.lines + ["Error: " + stderr] && r.1.(lines := u.lines) == u
  {
    if returncode != 0 then (false, u.(lines := u.lines + ["Error: " + stderr])) else (true, u)
  }

  /** A background failure keeps the lines the unit already had, while an
      in-process failure replaces them. */
  lemma BackgroundAppendsRuntimeReplaces(u: TestUnit, returncode: int, stderr: string, f: Failure)
    requires returncode != 0
    ensures BackgroundUnit(u, returncode, stderr).1.lines[..|u.lines|] == u.lines
    ensures RunUnit(u, Report(Failed(f))).1.lines == [FailureLine(f)]
  {
  }
}
