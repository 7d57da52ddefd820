/** The fixture engine of `core/fixtures.py`.

    Providers are described by their signature and by what their body does
    (return, raise, or yield some number of times); the values they produce
    are symbolic terms recording which fixture made them, from which
    dependency values, and for which requester.  The module-level cache of
    the source (session slot and per-module slots inside each `Fixture`)
    is threaded through as explicit state together with a trace of the
    observable events: a provider body starting (`Setup`), the code after
    its first `yield` running (`Teardown`) and a test body running (`Run`). */
module Fixtures {
  import opened Strings
  import opened Py

  /** `Scope` (core/fixtures.py:137-143).  `CLASS` is declared but handled
      exactly like `FUNCTION`. */
  datatype Scope = FunctionScope | ClassScope | ModuleScope | SessionScope

  /** The enum member name, as `Scope[...]` looks it up. */
  function MemberName(sc: Scope): string {
    match sc
    case FunctionScope => "FUNCTION"
    case ClassScope => "CLASS"
    case ModuleScope => "MODULE"
    case SessionScope => "SESSION"
  }

  /** `Scope[scope.upper()] if scope else Scope.FUNCTION`; `None` is the
      `KeyError` raised for a name that is not a member. */
  function ParseScope(s: string): (r: Option<Scope>)
    ensures s == "" ==> r == Some(FunctionScope)
    ensures s != "" && r.Some? ==> Upper(s) == MemberName(r.value)
    ensures r.None? <==> s != "" && forall sc: Scope :: Upper(s) != MemberName(sc)
  {
    if s == "" then Some(FunctionScope)
    else
      var u := Upper(s);
      if u == "FUNCTION" then Some(FunctionScope)
      else if u == "CLASS" then Some(ClassScope)
      else if u == "MODULE" then Some(ModuleScope)
      else if u == "SESSION" then Some(SessionScope)
      else None
  }

  /** Upper-casing follows Python's Unicode rules where they lead to a
      member name: a long s followed by anything that upper-cases to
      `ESSION` (such as `ession`) spells `session`. */
  lemma ParseScopeLongS(rest: string)
    requires Upper(rest) == "ESSION"
    ensures ParseScope(['\U{017F}'] + rest) == Some(SessionScope)
  {
    var s := ['\U{017F}'] + rest;
    UpperCons('\U{017F}', rest);
    assert s[0] == '\U{017F}' && s[1..] == rest;
    assert UpperChar(s[0]) == "S";
    assert "S" + "ESSION" == "SESSION";
    assert s != "" && Upper(s) == "SESSION";
  }

  /** Anything that upper-cases to `CLA` (such as `cla`) followed by a
      sharp s spells `class`. */
  lemma ParseScopeSharpS(pre: string)
    requires Upper(pre) == "CLA"
    ensures ParseScope(pre + ['\U{00DF}']) == Some(ClassScope)
  {
    UpperSnoc(pre, '\U{00DF}');
    assert UpperChar('\U{00DF}') == "SS";
    assert "CLA" + "SS" == "CLASS";
    assert Upper(pre + ['\U{00DF}']) == "CLASS";
  }

  /** A scope name with a character that is neither an ASCII letter nor
      one that folds to ASCII letters is unknown. */
  lemma ParseScopeLetters(s: string)
    requires s != "" && ParseScope(s).Some?
    ensures forall i :: 0 <= i < |s| ==> 'a' <= s[i] <= 'z' || 'A' <= s[i] <= 'Z' || FoldsToAscii(s[i])
  {
    var sc := ParseScope(s).value;
    MemberNameCapitals(sc);
    assert Upper(s) == MemberName(sc);
    UpperCapitalsSource(s);
  }

  lemma MemberNameCapitals(sc: Scope)
    ensures forall i :: 0 <= i < |MemberName(sc)| ==> 'A' <= MemberName(sc)[i] <= 'Z'
  {
  }

  /** What a function body does when called: return normally, raise, or
      (for a generator function) yield `count` times and then finish, the
      code after the first `yield` raising when `teardownRaises`. A
      generator function that raises before its first `yield` is `Raises`
      when it takes no `request` (the first `next` raises out of the fixture
      call) and `Yields` when it does (calling it only makes the generator). */
  datatype Body = Returns | Raises | Yields(count: nat, teardownRaises: bool)

  /** A Python function as the engine sees it: `__name__`, the file that
      defines it (`inspect.getfile`), its positional parameters
      (`getfullargspec(func).args`), how many trailing ones have defaults,
      and its body. */
  datatype Func = Func(name: string, file: string, params: seq<string>, defaults: nat, body: Body)

  /** The `Fixture` record without its cache fields, which live in `Cache`. */
  datatype Fixture = Fixture(name: string, func: Func, scope: Scope)

  /** `fixture_manager.fixtures`, in insertion order. */
  type Registry = seq<Fixture>

  /** The requesting function a `FixtureRequest` carries: its name
      (`request.name`) and its defining file. */
  datatype Caller = Caller(name: string, file: string)

  function CallerOf(f: Func): Caller {
    Caller(f.name, f.file)
  }

  /** A provider's result.  `Made` records the dependency values bound
      positionally and, when the provider declares `request`, the requester
      it was handed.  `Generator` is the un-started generator object returned
      when a generator provider declaring `request` is called through the
      plain wrapper. */
  datatype Value =
    | Made(fixture: string, args: seq<Value>, request: Option<Caller>)
    | Generator(fixture: string, args: seq<Value>, caller: Caller)

  /** `functools.partial(_teardown_yield_fixture, fixturefunc, generator)`:
      what resuming the generator will do.  `named` is false when the
      provider was wrapped in `functools.partial`, which has no `__name__`. */
  datatype Finalizer = Finalizer(fixture: string, funcName: string, again: bool, raises: bool, named: bool)

  datatype Error =
    | NotRegistered(name: string)      // ValueError "Fixture '<name>' not registered."
    | CallTypeError(func: string)      // TypeError from binding the call's arguments
    | ProviderRaised(fixture: string)  // the provider body raised
    | DidNotYield(fixture: string)     // ValueError "<name> did not yield a value"
    | MoreThanOneYield(func: string)   // ValueError "<name> has more than one yield"
    | NoNameAttribute                  // AttributeError: a partial has no __name__
    | TeardownRaised(fixture: string)  // the code after the yield raised
    | UnknownScope(scope: string)      // KeyError from Scope[...]

  datatype Event = Setup(fixture: string, caller: Caller) | Teardown(fixture: string) | Run(test: string)

  /** Cache slots: `session_value` per fixture, `module_values[file]` per
      fixture and requesting file. */
  datatype Key = SessionKey(fixture: string) | ModuleKey(fixture: string, file: string)
  datatype Slot = Slot(value: Value, teardown: Option<Finalizer>)
  type Cache = map<Key, Slot>

  datatype State = State(cache: Cache, trace: seq<Event>)

  /** The result of a step together with the state it leaves behind; the
      state persists whether or not the step raised. */
  datatype Outcome<T> = Outcome(result: Result<T, Error>, state: State)

  /** `FixtureRequest`: the requested name, the requesting function, the
      teardown to run and the requests made while resolving the provider's
      own dependencies. */
  datatype Request = Request(fixturename: string, caller: Caller, finalizer: Option<Finalizer>, children: seq<Request>)

  // ---------------------------------------------------------------- registry

  predicate Registered(reg: Registry, name: string) {
    exists i :: 0 <= i < |reg| && reg[i].name == name
  }

  /** `fixtures[name]`: the entry registered under `name`. */
  function Lookup(reg: Registry, name: string): (r: Option<Fixture>)
    ensures r.Some? ==> r.value in reg && r.value.name == name
    ensures r.None? <==> !Registered(reg, name)
  {
    if |reg| == 0 then None
    else if reg[0].name == name then Some(reg[0])
    else
      var r := Lookup(reg[1..], name);
      assert Registered(reg, name) <==> Registered(reg[1..], name) by {
        if Registered(reg, name) {
          var i :| 0 <= i < |reg| && reg[i].name == name;
          assert reg[1..][i - 1].name == name;
        }
        if Registered(reg[1..], name) {
          var i :| 0 <= i < |reg[1..]| && reg[1..][i].name == name;
          assert reg[i + 1].name == name;
        }
      }
      r
  }

  predicate UniqueNames(reg: Registry) {
    forall i, j :: 0 <= i < j < |reg| ==> reg[i].name != reg[j].name
  }

  /** `register_fixture`: a name already present leaves the registry as it
      is, a new name is appended. */
  function Register(reg: Registry, fx: Fixture): (r: Registry)
    ensures Registered(reg, fx.name) ==> r == reg
    ensures !Registered(reg, fx.name) ==> r == reg + [fx]
  {
    if Lookup(reg, fx.name).Some? then reg else reg + [fx]
  }

  /** The first registration of a name wins; other names are unaffected. */
  lemma {:induction false} RegisterFirstWins(reg: Registry, fx: Fixture, name: string)
    ensures Lookup(Register(reg, fx), name) ==
      (if name == fx.name && !Registered(reg, fx.name) then Some(fx) else Lookup(reg, name))
  {
    if !Registered(reg, fx.name) {
      LookupAppend(reg, fx, name);
    }
  }

  lemma {:induction false} LookupAppend(reg: Registry, fx: Fixture, name: string)
    ensures Lookup(reg + [fx], name) == (if Registered(reg, name) then Lookup(reg, name)
                                         else if fx.name == name then Some(fx) else None)
    decreases |reg|
  {
    if |reg| > 0 {
      assert (reg + [fx])[0] == reg[0];
      assert (reg + [fx])[1..] == reg[1..] + [fx];
      LookupAppend(reg[1..], fx, name);
    } else {
      assert reg + [fx] == [fx];
    }
  }

  /** Registration keeps the names distinct and registering twice is
      registering once. */
  lemma RegisterUnique(reg: Registry, fx: Fixture)
    requires UniqueNames(reg)
    ensures UniqueNames(Register(reg, fx))
    ensures Register(Register(reg, fx), fx) == Register(reg, fx)
  {
    var r := Register(reg, fx);
    if !Registered(reg, fx.name) {
      assert r[|reg|] == fx;
      assert Registered(r, fx.name);
    }
  }

  /** The `fixture` decorator: register under `func.__name__` with the
      parsed scope and hand the function back unchanged; an unknown scope
      name raises before anything is registered. */
  function Decorate(reg: Registry, func: Func, scope: string): (r: Result<(Registry, Func), Error>)
    ensures r.Err? <==> ParseScope(scope).None?
    ensures r.Err? ==> r.error == UnknownScope(scope)
    ensures r.Ok? ==> r.value.1 == func
    ensures r.Ok? ==> Lookup(r.value.0, func.name).Some?
    ensures r.Ok? && !Registered(reg, func.name) ==>
      Lookup(r.value.0, func.name) == Some(Fixture(func.name, func, ParseScope(scope).value))
    ensures r.Ok? && Registered(reg, func.name) ==> r.value.0 == reg
    ensures r.Ok? ==> reg <= r.value.0
  {
    match ParseScope(scope)
    case None => Err(UnknownScope(scope))
    case Some(sc) =>
      var fx := Fixture(func.name, func, sc);
      RegisterFirstWins(reg, fx, func.name);
      Ok((Register(reg, fx), func))
  }

  // ------------------------------------------------------------ termination

  /** Every registered dependency of `func` ranks strictly below `level`. */
  predicate Below(rank: map<string, nat>, func: Func, level: nat) {
    forall p :: p in func.params && p != "request" && p in rank ==> rank[p] < level
  }

  /** `rank` witnesses that resolving any registered fixture terminates:
      the source has no cycle guard, so a cyclic registry recurses until
      Python's recursion limit. */
  predicate Ranked(reg: Registry, rank: map<string, nat>) {
    forall i :: 0 <= i < |reg| ==> reg[i].name in rank && Below(rank, reg[i].func, rank[reg[i].name])
  }

  /** A level above every ranked parameter of `params`. */
  function Ceiling(rank: map<string, nat>, params: seq<string>): (level: nat)
    ensures forall p :: p in params && p in rank ==> rank[p] < level
  {
    if |params| == 0 then 0
    else
      var here := if params[0] in rank then rank[params[0]] + 1 else 0;
      var rest := Ceiling(rank, params[1..]);
      assert forall p :: p in params ==> p == params[0] || p in params[1..];
      if here < rest then rest else here
  }

  lemma RankedLookup(reg: Registry, rank: map<string, nat>, name: string)
    requires Ranked(reg, rank)
    requires Lookup(reg, name).Some?
    ensures name in rank && Below(rank, Lookup(reg, name).value.func, rank[name])
  {
    var fx := Lookup(reg, name).value;
    var i :| 0 <= i < |reg| && reg[i] == fx;
  }

  // ------------------------------------------------------------- providers

  /** Python's binding of a call with `count` positional arguments, plus the
      keyword argument `request=` when `keyword`: no parameter is given
      twice and every parameter left over has a default or is `request`. */
  predicate Binds(params: seq<string>, defaults: nat, count: nat, keyword: bool) {
    count <= |params|
    && (keyword ==> "request" in params[count..])
    && forall j :: count <= j < |params| ==> (keyword && params[j] == "request") || j >= |params| - defaults
  }

  /** The provider declares `request`, so `_create_wrapped_fixture` wraps it
      in a plain function that injects the request object. */
  predicate TakesRequest(f: Func) {
    "request" in f.params
  }

  /** `call_fixture_func` on the wrapped provider of `fx` with the
      dependency values `args` bound positionally. */
  function CallProvider(fx: Fixture, args: seq<Value>, caller: Caller, st: State): (o: Outcome<(Value, Option<Finalizer>)>)
    ensures o.state.cache == st.cache
    ensures !Binds(fx.func.params, fx.func.defaults, |args|, TakesRequest(fx.func)) ==>
      o == Outcome(Err(CallTypeError(fx.func.name)), st)
    ensures o.state.trace == st.trace || o.state.trace == st.trace + [Setup(fx.name, caller)]
    ensures o.state.trace != st.trace <==>
      Binds(fx.func.params, fx.func.defaults, |args|, TakesRequest(fx.func))
      && !(TakesRequest(fx.func) && fx.func.body.Yields?)
    ensures o.result.Ok? <==>
      Binds(fx.func.params, fx.func.defaults, |args|, TakesRequest(fx.func))
      && (fx.func.body.Returns? || (fx.func.body.Yields? && (TakesRequest(fx.func) || fx.func.body.count >= 1)))
    ensures o.result.Ok? ==> o.result.value.0.fixture == fx.name && o.result.value.0.args == args
    ensures o.result.Ok? && o.result.value.1.Some? ==>
      fx.func.body.Yields? && !TakesRequest(fx.func) && o.result.value.1.value.fixture == fx.name
  {
    var keyword := TakesRequest(fx.func);
    if !Binds(fx.func.params, fx.func.defaults, |args|, keyword) then
      Outcome(Err(CallTypeError(fx.func.name)), st)
    else if keyword && fx.func.body.Yields? then
      // the wrapper is not a generator function: calling it only creates the generator
      Outcome(Ok((Generator(fx.name, args, caller), None)), st)
    else
      var started := st.(trace := st.trace + [Setup(fx.name, caller)]);
      var request := if keyword then Some(caller) else None;
      match fx.func.body
      case Returns => Outcome(Ok((Made(fx.name, args, request), None)), started)
      case Raises => Outcome(Err(ProviderRaised(fx.name)), started)
      case Yields(n, raises) =>
        if n == 0 then Outcome(Err(DidNotYield(fx.name)), started)
        else
          var fin := Finalizer(fx.name, fx.func.name, n >= 2, raises, |args| == 0);
          Outcome(Ok((Made(fx.name, args, None), Some(fin))), started)
  }

  /** The cache slot a scope uses, or `None` for FUNCTION and CLASS. */
  function KeyOf(fx: Fixture, caller: Caller): Option<Key> {
    match fx.scope
    case SessionScope => Some(SessionKey(fx.name))
    case ModuleScope => Some(ModuleKey(fx.name, caller.file))
    case _ => None
  }

  /** `_get_fixture_value_by_scope`. */
  function ValueByScope(fx: Fixture, args: seq<Value>, caller: Caller, st: State): (o: Outcome<(Value, Option<Finalizer>)>)
    ensures st.cache.Keys <= o.state.cache.Keys
    ensures KeyOf(fx, caller).None? ==> o == CallProvider(fx, args, caller, st)
    ensures KeyOf(fx, caller).Some? && KeyOf(fx, caller).value in st.cache ==>
      o == Outcome(Ok((st.cache[KeyOf(fx, caller).value].value, None)), st)
    ensures KeyOf(fx, caller).Some? ==> o.result.Ok? ==> o.result.value.1.None?
    ensures KeyOf(fx, caller).Some? && o.result.Ok? ==>
      KeyOf(fx, caller).value in o.state.cache && o.state.cache[KeyOf(fx, caller).value].value == o.result.value.0
    ensures forall k :: k in st.cache ==> k in o.state.cache && o.state.cache[k] == st.cache[k]
  {
    match KeyOf(fx, caller)
    case None => CallProvider(fx, args, caller, st)
    case Some(k) =>
      if k in st.cache then Outcome(Ok((st.cache[k].value, None)), st)
      else
        var o := CallProvider(fx, args, caller, st);
        if o.result.Err? then o
        else
          var (v, fin) := o.result.value;
          Outcome(Ok((v, None)), o.state.(cache := o.state.cache[k := Slot(v, fin)]))
  }

  // ------------------------------------------------------------ resolution

  /** `get_fixture(name, request)`: resolve the provider's own dependencies
      first (always, cached or not), then obtain the value by scope. */
  function GetFixture(reg: Registry, rank: map<string, nat>, name: string, caller: Caller, st: State): (o: Outcome<(Request, Value)>)
    requires Ranked(reg, rank)
    ensures st.cache.Keys <= o.state.cache.Keys
    ensures !Registered(reg, name) ==> o == Outcome(Err(NotRegistered(name)), st)
    ensures o.result.Ok? ==> o.result.value.0.fixturename == name && o.result.value.0.caller == caller
    decreases if name in rank then rank[name] else 0, 1
  {
    match Lookup(reg, name)
    case None => Outcome(Err(NotRegistered(name)), st)
    case Some(fx) =>
      RankedLookup(reg, rank, name);
      var deps := Inspect(reg, rank, fx.func, rank[name], 0, st);
      if deps.result.Err? then Outcome(Err(deps.result.error), deps.state)
      else
        var (children, args) := deps.result.value;
        var got := ValueByScope(fx, args, caller, deps.state);
        if got.result.Err? then Outcome(Err(got.result.error), got.state)
        else
          var (v, fin) := got.result.value;
          Outcome(Ok((Request(name, caller, fin, children), v)), got.state)
  }

  /** `inspect_func_for_fixtures` from parameter `i` on: every registered
      parameter other than `request` yields one request and one value, in
      declaration order; the others are skipped. */
  function Inspect(reg: Registry, rank: map<string, nat>, func: Func, level: nat, i: nat, st: State)
    : (o: Outcome<(seq<Request>, seq<Value>)>)
    requires Ranked(reg, rank)
    requires Below(rank, func, level)
    requires i <= |func.params|
    ensures st.cache.Keys <= o.state.cache.Keys
    ensures o.result.Ok? ==> |o.result.value.0| == |o.result.value.1|
    ensures o.result.Ok? ==> Names(o.result.value.0) == Requested(reg, func.params[i..])
    decreases level, 0, |func.params| - i
  {
    if i == |func.params| then Outcome(Ok(([], [])), st)
    else
      var p := func.params[i];
      assert func.params[i..] == [p] + func.params[i + 1..];
      if p == "request" || !Registered(reg, p) then Inspect(reg, rank, func, level, i + 1, st)
      else
        var got := GetFixture(reg, rank, p, CallerOf(func), st);
        if got.result.Err? then Outcome(Err(got.result.error), got.state)
        else
          var rest := Inspect(reg, rank, func, level, i + 1, got.state);
          if rest.result.Err? then rest
          else
            var (reqs, vals) := rest.result.value;
            assert ([got.result.value.0] + reqs)[1..] == reqs;
            Outcome(Ok(([got.result.value.0] + reqs, [got.result.value.1] + vals)), rest.state)
  }

  function Names(reqs: seq<Request>): (r: seq<string>)
    ensures |r| == |reqs|
  {
    if |reqs| == 0 then [] else [reqs[0].fixturename] + Names(reqs[1..])
  }

  /** The parameters that produce a request: registered and not `request`. */
  function Requested(reg: Registry, params: seq<string>): (r: seq<string>)
    ensures |r| <= |params|
    ensures forall j :: 0 <= j < |r| ==> r[j] in params && r[j] != "request" && Registered(reg, r[j])
  {
    if |params| == 0 then []
    else if params[0] == "request" || !Registered(reg, params[0]) then Requested(reg, params[1..])
    else [params[0]] + Requested(reg, params[1..])
  }

  /** Resolve every fixture parameter of a function (a test or a fixture). */
  function Resolve(reg: Registry, rank: map<string, nat>, func: Func, st: State): (o: Outcome<(seq<Request>, seq<Value>)>)
    requires Ranked(reg, rank)
    ensures st.cache.Keys <= o.state.cache.Keys
    ensures o.result.Ok? ==> |o.result.value.0| == |o.result.value.1|
    ensures o.result.Ok? ==> Names(o.result.value.0) == Requested(reg, func.params)
  {
    assert func.params[0..] == func.params;
    Inspect(reg, rank, func, Ceiling(rank, func.params), 0, st)
  }

  // -------------------------------------------------------------- teardown

  /** `_teardown_yield_fixture`: resume the generator once more. */
  function RunFinalizer(fin: Finalizer, st: State): (o: Outcome<()>)
    ensures o.state == st.(trace := st.trace + [Teardown(fin.fixture)])
    ensures o.result.Ok? <==> !fin.raises && !fin.again
    ensures o.result.Err? && !fin.raises ==>
      o.result.error == (if fin.named then MoreThanOneYield(fin.funcName) else NoNameAttribute)
  {
    var st' := st.(trace := st.trace + [Teardown(fin.fixture)]);
    if fin.raises then Outcome(Err(TeardownRaised(fin.fixture)), st')
    else if fin.again then
      Outcome(Err(if fin.named then MoreThanOneYield(fin.funcName) else NoNameAttribute), st')
    else Outcome(Ok(()), st')
  }

  /** The teardown events a request tree produces when nothing fails: the
      request's own finalizer, then each child's, depth first. */
  function TeardownOrder(req: Request): seq<Event>
    decreases req, 1
  {
    (if req.finalizer.Some? then [Teardown(req.finalizer.value.fixture)] else []) + TeardownOrderAll(req.children)
  }

  function TeardownOrderAll(reqs: seq<Request>): seq<Event>
    decreases reqs, 0
  {
    if |reqs| == 0 then [] else TeardownOrder(reqs[0]) + TeardownOrderAll(reqs[1..])
  }

  /** Every finalizer in the tree completes normally. */
  predicate CleanTree(req: Request)
    decreases req, 1
  {
    (req.finalizer.Some? ==> !req.finalizer.value.raises && !req.finalizer.value.again)
    && CleanForest(req.children)
  }

  predicate CleanForest(reqs: seq<Request>)
    decreases reqs, 0
  {
    |reqs| == 0 || (CleanTree(reqs[0]) && CleanForest(reqs[1..]))
  }

  /** `execute_finalize_request`: own finalizer first, then the children in
      order; the first failure stops the walk. */
  function Finalize(req: Request, st: State): (o: Outcome<()>)
    ensures o.state.cache == st.cache
    ensures o.result.Ok? <==> CleanTree(req)
    ensures o.result.Ok? ==> o.state.trace == st.trace + TeardownOrder(req)
    decreases req, 1
  {
    if req.finalizer.None? then FinalizeAll(req.children, st)
    else
      var own := RunFinalizer(req.finalizer.value, st);
      if own.result.Err? then own
      else
        var rest := FinalizeAll(req.children, own.state);
        assert rest.result.Ok? ==> rest.state.trace == st.trace + TeardownOrder(req);
        rest
  }

  /** Finalize a list of requests in order (the loop of the runner, and the
      loop over `child_requests`). */
  function FinalizeAll(reqs: seq<Request>, st: State): (o: Outcome<()>)
    ensures o.state.cache == st.cache
    ensures o.result.Ok? <==> CleanForest(reqs)
    ensures o.result.Ok? ==> o.state.trace == st.trace + TeardownOrderAll(reqs)
    decreases reqs, 0
  {
    if |reqs| == 0 then Outcome(Ok(()), st)
    else
      var first := Finalize(reqs[0], st);
      if first.result.Err? then first
      else
        var rest := FinalizeAll(reqs[1..], first.state);
        assert rest.result.Ok? ==> rest.state.trace == st.trace + TeardownOrderAll(reqs);
        rest
  }

  /** `_finalize_session_fixtures`: in registry order, run the stored
      teardown of every SESSION fixture that has one.  MODULE slots are
      left alone. */
  function FinalizeSession(reg: Registry, st: State): (o: Outcome<()>)
    ensures o.state.cache == st.cache
    ensures o.result.Ok? ==> o.state.trace == st.trace + SessionTeardowns(reg, st.cache)
  {
    if |reg| == 0 then Outcome(Ok(()), st)
    else
      var k := SessionKey(reg[0].name);
      if reg[0].scope == SessionScope && k in st.cache && st.cache[k].teardown.Some? then
        var own := RunFinalizer(st.cache[k].teardown.value, st);
        if own.result.Err? then own
        else
          var rest := FinalizeSession(reg[1..], own.state);
          assert rest.result.Ok? ==> rest.state.trace == st.trace + SessionTeardowns(reg, st.cache);
          rest
      else FinalizeSession(reg[1..], st)
  }

  /** The teardown events of the stored SESSION finalizers, in registry order. */
  function SessionTeardowns(reg: Registry, cache: Cache): seq<Event> {
    if |reg| == 0 then []
    else
      var k := SessionKey(reg[0].name);
      (if reg[0].scope == SessionScope && k in cache && cache[k].teardown.Some?
       then [Teardown(cache[k].teardown.value.fixture)] else [])
      + SessionTeardowns(reg[1..], cache)
  }
}
