/** The fixture registry of the oldest generation (`bpytest/fixtures.py`;
    `bpytest/test_manager/fixtures.py` starts with the same code and then,
    at import time, declares a demonstration fixture and two tests that use
    it): a plain dictionary from name to function, where a later
    registration replaces an earlier one, and fixtures are called with no
    arguments at all. */
module LegacyFixtures {
  import opened Strings
  import opened Py
  import opened Seqs
  import opened Fixtures

  /** `FixtureManager.fixtures`. */
  type LegacyRegistry = map<string, Func>

  /** `register_fixture`: the entry for `name` becomes `f`, whatever it was. */
  function RegisterFixture(reg: LegacyRegistry, name: string, f: Func): (r: LegacyRegistry)
    ensures r.Keys == reg.Keys + {name}
    ensures r[name] == f
    ensures forall n :: n in reg && n != name ==> r[n] == reg[n]
  {
    reg[name := f]
  }

  /** `get_fixture`: the registered function, or the `ValueError`
      "Fixture '<name>' not registered.". */
  function LegacyGetFixture(reg: LegacyRegistry, name: string): (r: Result<Func, Error>)
    ensures r.Err? <==> name !in reg
    ensures r.Err? ==> r.error == NotRegistered(name)
    ensures r.Ok? ==> r.value == reg[name]
  {
    if name !in reg then Err(NotRegistered(name)) else Ok(reg[name])
  }

  /** The `fixture` decorator: register under `func.__name__` and hand the
      function back. */
  function LegacyDecorate(reg: LegacyRegistry, func: Func): (r: (LegacyRegistry, Func))
    ensures r.1 == func
    ensures LegacyGetFixture(r.0, func.name) == Ok(func)
    ensures forall n :: n != func.name ==> LegacyGetFixture(r.0, n) == LegacyGetFixture(reg, n)
  {
    (RegisterFixture(reg, func.name, func), func)
  }

  /** Registering every fixture a module declares, in order. */
  function LegacyLoad(reg: LegacyRegistry, decls: seq<Func>): (r: LegacyRegistry)
    ensures reg.Keys <= r.Keys
    decreases |decls|
  {
    if |decls| == 0 then reg else LegacyLoad(LegacyDecorate(reg, decls[0]).0, decls[1..])
  }

  /** The last declaration of a name is the one that stays registered. */
  lemma {:induction false} LegacyLoadLastWins(reg: LegacyRegistry, decls: seq<Func>, k: nat)
    requires k < |decls|
    requires forall j :: k < j < |decls| ==> decls[j].name != decls[k].name
    ensures LegacyGetFixture(LegacyLoad(reg, decls), decls[k].name) == Ok(decls[k])
    decreases |decls|
  {
    var next := LegacyDecorate(reg, decls[0]).0;
    if k == 0 {
      LegacyLoadKeeps(next, decls[1..], decls[0].name);
    } else {
      LegacyLoadLastWins(next, decls[1..], k - 1);
    }
  }

  /** A name no further declaration mentions keeps its entry. */
  lemma {:induction false} LegacyLoadKeeps(reg: LegacyRegistry, decls: seq<Func>, name: string)
    requires forall j :: 0 <= j < |decls| ==> decls[j].name != name
    ensures LegacyGetFixture(LegacyLoad(reg, decls), name) == LegacyGetFixture(reg, name)
    decreases |decls|
  {
    if |decls| > 0 {
      LegacyLoadKeeps(LegacyDecorate(reg, decls[0]).0, decls[1..], name);
    }
  }

  /** Where the engine of `core/fixtures.py` keeps the first registration of
      a name, this registry keeps the last. */
  lemma LastWinsAgainstFirstWins(reg: Registry, lreg: LegacyRegistry, f: Func, g: Func)
    requires f.name == g.name && f != g
    requires !Registered(reg, f.name)
    ensures Lookup(Register(Register(reg, Fixture(f.name, f, FunctionScope)), Fixture(g.name, g, FunctionScope)), f.name) == Some(Fixture(f.name, f, FunctionScope))
    ensures LegacyGetFixture(LegacyDecorate(LegacyDecorate(lreg, f).0, g).0, f.name) == Ok(g)
  {
    var fx := Fixture(f.name, f, FunctionScope);
    var gx := Fixture(g.name, g, FunctionScope);
    RegisterFirstWins(reg, fx, f.name);
    RegisterFirstWins(Register(reg, fx), gx, f.name);
  }

  /** The arguments the oldest runner passes: the registered parameters, in
      declaration order (`request` is not special here). */
  function InRegistry(reg: LegacyRegistry): string -> bool {
    p => p in reg
  }

  /** `fixture_func()`: call a registered fixture with no arguments on
      behalf of the test `caller`.  The value stands for whatever the call
      returns; a generator function only creates its generator, so its body
      never starts and nothing after its `yield` ever runs. */
  function CallLegacyFixture(name: string, f: Func, caller: Caller, trace: seq<Event>): (r: (Result<Value, Error>, seq<Event>))
    ensures !Binds(f.params, f.defaults, 0, false) ==> r == (Err(CallTypeError(f.name)), trace)
    ensures r.1 == trace || r.1 == trace + [Setup(name, caller)]
    ensures r.1 != trace <==> Binds(f.params, f.defaults, 0, false) && !f.body.Yields?
    ensures r.0.Ok? <==> Binds(f.params, f.defaults, 0, false) && !f.body.Raises?
    ensures r.0.Ok? ==> r.0.value.fixture == name && r.0.value.args == []
  {
    if !Binds(f.params, f.defaults, 0, false) then (Err(CallTypeError(f.name)), trace)
    else match f.body
      case Returns => (Ok(Made(name, [], None)), trace + [Setup(name, caller)])
      case Raises => (Err(ProviderRaised(name)), trace + [Setup(name, caller)])
      case Yields(_, _) => (Ok(Generator(name, [], caller)), trace)
  }

  /** The loop of `bpytest/runner.py` over the test's parameters: every
      registered one is called, in order; the first failure stops it. */
  function LegacyResolve(reg: LegacyRegistry, params: seq<string>, caller: Caller, trace: seq<Event>)
    : (r: (Result<seq<Value>, Error>, seq<Event>))
    ensures r.0.Ok? ==> |r.0.value| == |Filter(params, InRegistry(reg))|
    ensures r.0.Ok? ==> forall k :: 0 <= k < |r.0.value| ==> r.0.value[k].fixture == Filter(params, InRegistry(reg))[k]
    ensures |trace| <= |r.1| && r.1[..|trace|] == trace
    ensures forall k :: |trace| <= k < |r.1| ==> r.1[k].Setup?
    decreases |params|
  {
    if |params| == 0 then (Ok([]), trace)
    else if params[0] !in reg then LegacyResolve(reg, params[1..], caller, trace)
    else
      var called := CallLegacyFixture(params[0], reg[params[0]], caller, trace);
      if called.0.Err? then (Err(called.0.error), called.1)
      else
        var rest := LegacyResolve(reg, params[1..], caller, called.1);
        if rest.0.Err? then rest
        else (Ok([called.0.value] + rest.0.value), rest.1)
  }

  /** The demonstration fixture of `bpytest/test_manager/fixtures.py`: a
      generator function with no parameters that yields once. */
  function DemoFixture(file: string): Func {
    Func("setup_teardown_example", file, [], 0, Yields(1, false))
  }

  /** Importing `bpytest/test_manager/fixtures.py`: its own registry code
      runs first, then `from fixtures import fixture` rebinds the decorator
      to the top-level `fixtures` module the import finds, whose registry is
      `reg`, and the demonstration fixture is registered there. That module
      is not `bpytest.fixtures`, so the runner's registry is untouched.
      Defining the two demonstration tests registers nothing. */
  function DemoImport(reg: LegacyRegistry, file: string): (r: LegacyRegistry)
    ensures LegacyGetFixture(r, "setup_teardown_example") == Ok(DemoFixture(file))
    ensures forall n :: n != "setup_teardown_example" ==> LegacyGetFixture(r, n) == LegacyGetFixture(reg, n)
  {
    LegacyDecorate(reg, DemoFixture(file)).0
  }
}
