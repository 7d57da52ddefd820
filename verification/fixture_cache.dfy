/** Why SESSION and MODULE providers run at most once per cache slot.

    A slot is claimed only after its provider has returned; a provider whose
    body, once started, always produces a value (a plain function that
    returns, or a generator that yields at least once) therefore starts at
    most once per slot, however many requests, tests and finalizations
    happen in between. */
module FixtureCache {
  import opened Strings
  import opened Py
  import opened Fixtures

  /** The setup event `e` is one that fills slot `k`. */
  predicate MatchesKey(e: Event, k: Key) {
    e.Setup? && e.fixture == k.fixture && (k.ModuleKey? ==> e.caller.file == k.file)
  }

  /** How many times the provider of slot `k` started in `trace`. */
  function SetupsFor(trace: seq<Event>, k: Key): nat
    decreases |trace|
  {
    if |trace| == 0 then 0
    else SetupsFor(trace[..|trace| - 1], k) + (if MatchesKey(trace[|trace| - 1], k) then 1 else 0)
  }

  /** A provider body that cannot fail once it has started. */
  predicate Settles(fx: Fixture) {
    fx.func.body.Returns? || (fx.func.body.Yields? && fx.func.body.count >= 1)
  }

  /** `k` is the slot a registered, settling SESSION or MODULE fixture uses. */
  predicate Guarded(reg: Registry, k: Key) {
    match Lookup(reg, k.fixture)
    case None => false
    case Some(fx) =>
      Settles(fx)
      && (k.SessionKey? ==> fx.scope == SessionScope)
      && (k.ModuleKey? ==> fx.scope == ModuleScope)
  }

  /** Every provider that started is a registered one. */
  predicate SetupsRegistered(reg: Registry, trace: seq<Event>) {
    forall i :: 0 <= i < |trace| && trace[i].Setup? ==> Registered(reg, trace[i].fixture)
  }

  /** The invariant: a guarded slot that is still empty saw no setup, and a
      filled one saw at most one. */
  ghost predicate Once(reg: Registry, st: State) {
    SetupsRegistered(reg, st.trace)
    && forall k :: Guarded(reg, k) ==> SetupsFor(st.trace, k) <= (if k in st.cache then 1 else 0)
  }

  lemma SetupsForSnoc(t: seq<Event>, e: Event, k: Key)
    ensures SetupsFor(t + [e], k) == SetupsFor(t, k) + (if MatchesKey(e, k) then 1 else 0)
  {
    assert (t + [e])[..|t|] == t;
  }

  /** A trace without any setup of fixture `name` counts no setup for its slots. */
  lemma {:induction false} SetupsForAbsent(t: seq<Event>, k: Key)
    requires forall i :: 0 <= i < |t| && t[i].Setup? ==> t[i].fixture != k.fixture
    ensures SetupsFor(t, k) == 0
    decreases |t|
  {
    if |t| > 0 {
      SetupsForAbsent(t[..|t| - 1], k);
    }
  }

  /** Appending a non-setup event keeps the invariant. */
  lemma OnceOther(reg: Registry, st: State, e: Event)
    requires Once(reg, st)
    requires !e.Setup?
    ensures Once(reg, st.(trace := st.trace + [e]))
  {
    forall k | Guarded(reg, k)
      ensures SetupsFor(st.trace + [e], k) <= (if k in st.cache then 1 else 0)
    {
      SetupsForSnoc(st.trace, e, k);
    }
  }

  /** Filling the slot of `fx`, or merely consulting it, keeps the invariant. */
  lemma {:induction false} ValueByScopeOnce(reg: Registry, fx: Fixture, args: seq<Value>, caller: Caller, st: State)
    requires Lookup(reg, fx.name) == Some(fx)
    requires Once(reg, st)
    ensures Once(reg, ValueByScope(fx, args, caller, st).state)
  {
    var o := ValueByScope(fx, args, caller, st);
    var c := CallProvider(fx, args, caller, st);
    if c.state.trace != st.trace {
      var e := Setup(fx.name, caller);
      assert c.state.trace == st.trace + [e];
      if KeyOf(fx, caller).None? || KeyOf(fx, caller).value !in st.cache {
        assert o.state.trace == c.state.trace;
        forall k | Guarded(reg, k)
          ensures SetupsFor(o.state.trace, k) <= (if k in o.state.cache then 1 else 0)
        {
          SetupsForSnoc(st.trace, e, k);
          if MatchesKey(e, k) {
            assert Settles(fx) && KeyOf(fx, caller) == Some(k);
            assert c.result.Ok?;
          }
        }
        assert SetupsRegistered(reg, o.state.trace) by {
          assert Registered(reg, fx.name) by {
            assert Lookup(reg, fx.name).Some?;
          }
        }
      }
    }
  }

  /** Resolving a fixture keeps the invariant. */
  lemma {:induction false} GetFixtureOnce(reg: Registry, rank: map<string, nat>, name: string, caller: Caller, st: State)
    requires Ranked(reg, rank)
    requires Once(reg, st)
    ensures Once(reg, GetFixture(reg, rank, name, caller, st).state)
    decreases if name in rank then rank[name] else 0, 1
  {
    match Lookup(reg, name)
    case None =>
    case Some(fx) =>
      RankedLookup(reg, rank, name);
      var deps := Inspect(reg, rank, fx.func, rank[name], 0, st);
      InspectOnce(reg, rank, fx.func, rank[name], 0, st);
      if deps.result.Ok? {
        ValueByScopeOnce(reg, fx, deps.result.value.1, caller, deps.state);
      }
  }

  lemma {:induction false} InspectOnce(reg: Registry, rank: map<string, nat>, func: Func, level: nat, i: nat, st: State)
    requires Ranked(reg, rank)
    requires Below(rank, func, level)
    requires i <= |func.params|
    requires Once(reg, st)
    ensures Once(reg, Inspect(reg, rank, func, level, i, st).state)
    decreases level, 0, |func.params| - i
  {
    if i < |func.params| {
      var p := func.params[i];
      if p == "request" || !Registered(reg, p) {
        InspectOnce(reg, rank, func, level, i + 1, st);
      } else {
        RankedLookup(reg, rank, p);
        var got := GetFixture(reg, rank, p, CallerOf(func), st);
        GetFixtureOnce(reg, rank, p, CallerOf(func), st);
        if got.result.Ok? {
          InspectOnce(reg, rank, func, level, i + 1, got.state);
        }
      }
    }
  }

  lemma ResolveOnce(reg: Registry, rank: map<string, nat>, func: Func, st: State)
    requires Ranked(reg, rank)
    requires Once(reg, st)
    ensures Once(reg, Resolve(reg, rank, func, st).state)
  {
    InspectOnce(reg, rank, func, Ceiling(rank, func.params), 0, st);
  }

  lemma RunFinalizerOnce(reg: Registry, fin: Finalizer, st: State)
    requires Once(reg, st)
    ensures Once(reg, RunFinalizer(fin, st).state)
  {
    OnceOther(reg, st, Teardown(fin.fixture));
  }

  /** Tearing down never starts a provider. */
  lemma {:induction false} FinalizeOnce(reg: Registry, req: Request, st: State)
    requires Once(reg, st)
    ensures Once(reg, Finalize(req, st).state)
    decreases req, 1
  {
    if req.finalizer.None? {
      FinalizeAllOnce(reg, req.children, st);
    } else {
      var own := RunFinalizer(req.finalizer.value, st);
      RunFinalizerOnce(reg, req.finalizer.value, st);
      if own.result.Ok? {
        FinalizeAllOnce(reg, req.children, own.state);
      }
    }
  }

  lemma {:induction false} FinalizeAllOnce(reg: Registry, reqs: seq<Request>, st: State)
    requires Once(reg, st)
    ensures Once(reg, FinalizeAll(reqs, st).state)
    decreases reqs, 0
  {
    if |reqs| > 0 {
      var first := Finalize(reqs[0], st);
      FinalizeOnce(reg, reqs[0], st);
      if first.result.Ok? {
        FinalizeAllOnce(reg, reqs[1..], first.state);
      }
    }
  }

  lemma {:induction false} FinalizeSessionOnce(reg: Registry, st: State)
    requires Once(reg, st)
    ensures Once(reg, FinalizeSession(reg, st).state)
  {
    FinalizeSessionOnceFrom(reg, reg, st);
  }

  /** `FinalizeSession` over any sub-list of the registry keeps the invariant. */
  lemma {:induction false} FinalizeSessionOnceFrom(reg: Registry, rest: Registry, st: State)
    requires Once(reg, st)
    ensures Once(reg, FinalizeSession(rest, st).state)
    decreases |rest|
  {
    if |rest| > 0 {
      var k := SessionKey(rest[0].name);
      if rest[0].scope == SessionScope && k in st.cache && st.cache[k].teardown.Some? {
        var own := RunFinalizer(st.cache[k].teardown.value, st);
        RunFinalizerOnce(reg, st.cache[k].teardown.value, st);
        if own.result.Ok? {
          FinalizeSessionOnceFrom(reg, rest[1..], own.state);
        }
      } else {
        FinalizeSessionOnceFrom(reg, rest[1..], st);
      }
    }
  }

  /** Registering more fixtures keeps the invariant: a newly registered
      name has never been set up. */
  lemma RegisterOnce(reg: Registry, fx: Fixture, st: State)
    requires Once(reg, st)
    ensures Once(Register(reg, fx), st)
  {
    var reg' := Register(reg, fx);
    forall n ensures Lookup(reg', n) == (if n == fx.name && !Registered(reg, fx.name) then Some(fx) else Lookup(reg, n)) {
      RegisterFirstWins(reg, fx, n);
    }
    forall i | 0 <= i < |st.trace| && st.trace[i].Setup?
      ensures Registered(reg', st.trace[i].fixture)
    {
      assert Lookup(reg', st.trace[i].fixture).Some?;
    }
    forall k | Guarded(reg', k)
      ensures SetupsFor(st.trace, k) <= (if k in st.cache then 1 else 0)
    {
      if !Guarded(reg, k) {
        SetupsForAbsent(st.trace, k);
      }
    }
  }

  /** The empty state satisfies the invariant. */
  lemma InitialOnce(reg: Registry)
    ensures Once(reg, State(map[], []))
  {
  }

  /** The counting form of the invariant for one SESSION fixture: the
      number of times its provider started. */
  lemma SessionAtMostOnce(reg: Registry, st: State, fx: Fixture)
    requires Once(reg, st)
    requires Lookup(reg, fx.name) == Some(fx) && fx.scope == SessionScope && Settles(fx)
    ensures SetupsFor(st.trace, SessionKey(fx.name)) <= 1
    ensures SessionKey(fx.name) !in st.cache ==> SetupsFor(st.trace, SessionKey(fx.name)) == 0
  {
    assert Guarded(reg, SessionKey(fx.name));
  }

  /** The counting form for one MODULE fixture and one requesting file. */
  lemma ModuleAtMostOnce(reg: Registry, st: State, fx: Fixture, file: string)
    requires Once(reg, st)
    requires Lookup(reg, fx.name) == Some(fx) && fx.scope == ModuleScope && Settles(fx)
    ensures SetupsFor(st.trace, ModuleKey(fx.name, file)) <= 1
  {
    assert Guarded(reg, ModuleKey(fx.name, file));
  }
}
