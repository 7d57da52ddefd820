/** Setup and teardown order.

    When every provider is FUNCTION- or CLASS-scoped, resolving a request
    starts the providers in post-order of the request tree (dependencies
    before their consumer), while finalizing it runs their teardowns in
    pre-order (consumer before its dependencies).  Along a chain of
    dependencies the teardowns therefore come out in exactly the reverse
    order of the setups; for sibling requests of one test both orders are
    the request order. */
module FixtureOrder {
  import opened Strings
  import opened Py
  import opened Fixtures

  /** No provider is cached and every provider body really starts when called. */
  predicate Uncached(reg: Registry) {
    forall i :: 0 <= i < |reg| ==>
      (reg[i].scope == FunctionScope || reg[i].scope == ClassScope)
      && !(TakesRequest(reg[i].func) && reg[i].func.body.Yields?)
  }

  /** Setup events of a resolved tree: children first, then the node. */
  function SetupOrder(req: Request): seq<Event>
    decreases req, 1
  {
    SetupOrderAll(req.children) + [Setup(req.fixturename, req.caller)]
  }

  function SetupOrderAll(reqs: seq<Request>): seq<Event>
    decreases reqs, 0
  {
    if |reqs| == 0 then [] else SetupOrder(reqs[0]) + SetupOrderAll(reqs[1..])
  }

  /** Each finalizer in the tree belongs to the fixture of its node. */
  predicate OwnFinalizers(req: Request)
    decreases req, 1
  {
    (req.finalizer.Some? ==> req.finalizer.value.fixture == req.fixturename)
    && OwnFinalizersAll(req.children)
  }

  predicate OwnFinalizersAll(reqs: seq<Request>)
    decreases reqs, 0
  {
    |reqs| == 0 || (OwnFinalizersAll(reqs[1..]) && OwnFinalizers(reqs[0]))
  }

  /** Resolution with uncached providers emits exactly the post-order setups
      of the request it returns. */
  lemma {:induction false} GetFixtureSetups(reg: Registry, rank: map<string, nat>, name: string, caller: Caller, st: State)
    requires Ranked(reg, rank)
    requires Uncached(reg)
    ensures var o := GetFixture(reg, rank, name, caller, st);
      o.result.Ok? ==> o.state.trace == st.trace + SetupOrder(o.result.value.0) && OwnFinalizers(o.result.value.0)
    decreases if name in rank then rank[name] else 0, 1
  {
    match Lookup(reg, name)
    case None =>
    case Some(fx) =>
      RankedLookup(reg, rank, name);
      var i :| 0 <= i < |reg| && reg[i] == fx;
      var deps := Inspect(reg, rank, fx.func, rank[name], 0, st);
      InspectSetups(reg, rank, fx.func, rank[name], 0, st);
      if deps.result.Ok? {
        var got := ValueByScope(fx, deps.result.value.1, caller, deps.state);
        assert KeyOf(fx, caller).None?;
        if got.result.Ok? {
          assert got.state.trace == deps.state.trace + [Setup(name, caller)];
        }
      }
  }

  lemma {:induction false} InspectSetups(reg: Registry, rank: map<string, nat>, func: Func, level: nat, i: nat, st: State)
    requires Ranked(reg, rank)
    requires Uncached(reg)
    requires Below(rank, func, level)
    requires i <= |func.params|
    ensures var o := Inspect(reg, rank, func, level, i, st);
      o.result.Ok? ==> o.state.trace == st.trace + SetupOrderAll(o.result.value.0) && OwnFinalizersAll(o.result.value.0)
    decreases level, 0, |func.params| - i
  {
    if i < |func.params| {
      var p := func.params[i];
      if p == "request" || !Registered(reg, p) {
        assert Inspect(reg, rank, func, level, i, st) == Inspect(reg, rank, func, level, i + 1, st);
        InspectSetups(reg, rank, func, level, i + 1, st);
      } else {
        RankedLookup(reg, rank, p);
        var got := GetFixture(reg, rank, p, CallerOf(func), st);
        GetFixtureSetups(reg, rank, p, CallerOf(func), st);
        if got.result.Ok? {
          var rest := Inspect(reg, rank, func, level, i + 1, got.state);
          InspectSetups(reg, rank, func, level, i + 1, got.state);
          if rest.result.Ok? {
            assert Inspect(reg, rank, func, level, i, st)
              == Outcome(Ok(([got.result.value.0] + rest.result.value.0, [got.result.value.1] + rest.result.value.1)), rest.state);
            ConsSetups(st.trace, got.result.value.0, rest.result.value.0, got.state.trace, rest.state.trace);
            ConsOwnFinalizers(got.result.value.0, rest.result.value.0);
          }
        }
      }
    }
  }

  lemma ConsSetups(t0: seq<Event>, first: Request, reqs: seq<Request>, t1: seq<Event>, t2: seq<Event>)
    requires t1 == t0 + SetupOrder(first)
    requires t2 == t1 + SetupOrderAll(reqs)
    ensures t2 == t0 + SetupOrderAll([first] + reqs)
  {
    assert ([first] + reqs)[1..] == reqs;
  }

  lemma ConsOwnFinalizers(first: Request, reqs: seq<Request>)
    requires OwnFinalizers(first) && OwnFinalizersAll(reqs)
    ensures OwnFinalizersAll([first] + reqs)
  {
    assert ([first] + reqs)[1..] == reqs;
  }

  /** The whole of a function's fixture resolution. */
  lemma ResolveSetups(reg: Registry, rank: map<string, nat>, func: Func, st: State)
    requires Ranked(reg, rank)
    requires Uncached(reg)
    ensures var o := Resolve(reg, rank, func, st);
      o.result.Ok? ==> o.state.trace == st.trace + SetupOrderAll(o.result.value.0) && OwnFinalizersAll(o.result.value.0)
  {
    InspectSetups(reg, rank, func, Ceiling(rank, func.params), 0, st);
  }

  /** Every node of a chain has at most one child, and every node has a finalizer. */
  predicate FinalizedChain(req: Request)
    decreases req
  {
    req.finalizer.Some? && |req.children| <= 1 && (|req.children| == 1 ==> FinalizedChain(req.children[0]))
  }

  function Reverse<T>(s: seq<T>): (r: seq<T>)
    ensures |r| == |s|
  {
    if |s| == 0 then [] else Reverse(s[1..]) + [s[0]]
  }

  /** The fixture an event is about (the test, for `Run`). */
  function Subject(e: Event): string {
    match e
    case Setup(f, _) => f
    case Teardown(f) => f
    case Run(t) => t
  }

  function Subjects(es: seq<Event>): (r: seq<string>)
    ensures |r| == |es|
  {
    if |es| == 0 then [] else [Subject(es[0])] + Subjects(es[1..])
  }

  lemma {:induction false} SubjectsAppend(a: seq<Event>, b: seq<Event>)
    ensures Subjects(a + b) == Subjects(a) + Subjects(b)
    decreases |a|
  {
    if |a| > 0 {
      assert (a + b)[1..] == a[1..] + b;
      SubjectsAppend(a[1..], b);
    } else {
      assert a + b == b;
    }
  }

  /** Along a chain the teardowns are the setups reversed. */
  lemma {:induction false} ChainTeardownReversesSetup(req: Request)
    requires FinalizedChain(req)
    requires OwnFinalizers(req)
    ensures Subjects(TeardownOrder(req)) == Reverse(Subjects(SetupOrder(req)))
    decreases req
  {
    var own := [Teardown(req.fixturename)];
    if |req.children| == 0 {
      assert TeardownOrder(req) == own + [];
      assert SetupOrder(req) == [] + [Setup(req.fixturename, req.caller)];
    } else {
      var c := req.children[0];
      assert req.children == [c];
      assert req.children[1..] == [];
      assert OwnFinalizers(c);
      ChainTeardownReversesSetup(c);
      assert req.finalizer.value.fixture == req.fixturename;
      assert TeardownOrderAll(req.children) == TeardownOrder(c) + [];
      assert SetupOrderAll(req.children) == SetupOrder(c) + [];
      assert TeardownOrder(req) == own + TeardownOrder(c);
      assert SetupOrder(req) == SetupOrder(c) + [Setup(req.fixturename, req.caller)];
      SubjectsAppend(own, TeardownOrder(c));
      SubjectsAppend(SetupOrder(c), [Setup(req.fixturename, req.caller)]);
      ReverseAppendOne(Subjects(SetupOrder(c)), req.fixturename);
      assert Subjects([Setup(req.fixturename, req.caller)]) == [req.fixturename];
      assert Subjects(own) == [req.fixturename];
    }
  }

  lemma {:induction false} ReverseAppendOne<T>(s: seq<T>, x: T)
    ensures Reverse(s + [x]) == [x] + Reverse(s)
    decreases |s|
  {
    if |s| > 0 {
      assert (s + [x])[1..] == s[1..] + [x];
      ReverseAppendOne(s[1..], x);
    } else {
      assert s + [x] == [x];
    }
  }

  /** A request that needs no further fixture. */
  predicate FinalizedLeaf(req: Request) {
    req.finalizer.Some? && req.finalizer.value.fixture == req.fixturename && |req.children| == 0
  }

  /** Sibling requests without dependencies tear down in request order, the
      order in which they were set up. */
  lemma {:induction false} SiblingsTeardownInSetupOrder(reqs: seq<Request>)
    requires forall i :: 0 <= i < |reqs| ==> FinalizedLeaf(reqs[i])
    ensures Subjects(TeardownOrderAll(reqs)) == Subjects(SetupOrderAll(reqs))
    decreases |reqs|
  {
    if |reqs| > 0 {
      var r := reqs[0];
      SiblingsTeardownInSetupOrder(reqs[1..]);
      assert TeardownOrder(r) == [Teardown(r.fixturename)] + [];
      assert SetupOrder(r) == [] + [Setup(r.fixturename, r.caller)];
      SubjectsAppend(TeardownOrder(r), TeardownOrderAll(reqs[1..]));
      SubjectsAppend(SetupOrder(r), SetupOrderAll(reqs[1..]));
    }
  }
}
