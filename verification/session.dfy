/** The singleton decorator and the session object of `core/session.py`. */
module Session {
  import opened Strings

  /** One decorated class: how to construct an instance from the call's
      arguments, and the instance cached by the decorator's closure. */
  datatype Singleton<!A, T> = Singleton(construct: A -> T, instance: Option<T>)

  /** `singleton(cls)`: a fresh closure with an empty cache. */
  function Decorate<A, T>(construct: A -> T): (s: Singleton<A, T>)
    ensures s.instance.None? && s.construct == construct
  {
    Singleton(construct, None)
  }

  /** `get_instance(*args)`: the first call constructs and caches an
      instance from its arguments; every later call returns the cached one
      and ignores its arguments. */
  function Call<A, T>(s: Singleton<A, T>, args: A): (r: (Singleton<A, T>, T))
    ensures s.instance.None? ==> r.1 == s.construct(args)
    ensures s.instance.Some? ==> r.1 == s.instance.value
    ensures r.0 == Singleton(s.construct, Some(r.1))
  {
    match s.instance
    case None => var t := s.construct(args); (Singleton(s.construct, Some(t)), t)
    case Some(t) => (s, t)
  }

  /** Calling a decorated class with a sequence of argument lists: the
      instances it returns, in order. */
  function Calls<A, T>(s: Singleton<A, T>, argss: seq<A>): (r: (Singleton<A, T>, seq<T>))
    ensures |r.1| == |argss|
    ensures r.0.construct == s.construct
    ensures |argss| > 0 ==> r.0.instance.Some?
    decreases |argss|
  {
    if |argss| == 0 then (s, [])
    else
      var (s', t) := Call(s, argss[0]);
      var (s'', ts) := Calls(s', argss[1..]);
      (s'', [t] + ts)
  }

  /** However many calls are made and with whatever arguments, a fresh
      decorated class hands out one instance: the one built from the first
      call's arguments. */
  lemma {:induction false} OneInstance<A, T>(construct: A -> T, argss: seq<A>)
    requires |argss| > 0
    ensures forall k :: 0 <= k < |argss| ==> Calls(Decorate(construct), argss).1[k] == construct(argss[0])
  {
    var (s', t) := Call(Decorate(construct), argss[0]);
    CachedStays(s', argss[1..]);
  }

  /** Once an instance is cached, every call returns it and the cache
      stays as it is. */
  lemma {:induction false} CachedStays<A, T>(s: Singleton<A, T>, argss: seq<A>)
    requires s.instance.Some?
    ensures Calls(s, argss).0 == s
    ensures forall k :: 0 <= k < |argss| ==> Calls(s, argss).1[k] == s.instance.value
    decreases |argss|
  {
    if |argss| > 0 {
      CachedStays(s, argss[1..]);
    }
  }

  /** Two decorated classes keep separate caches: calling one leaves the
      other's cache untouched, so each gets its own first construction. */
  lemma SeparateCaches<A, T, B, U>(c1: A -> T, c2: B -> U, a: A, b: B, a2: A)
    ensures var (s1, t1) := Call(Decorate(c1), a);
      var (s2, t2) := Call(Decorate(c2), b);
      t1 == c1(a) && t2 == c2(b) && Call(s1, a2).1 == c1(a)
  {
  }

  /** `random.randint(lo, hi)`: some integer of the closed range.  The draw
      is the source of randomness, taken as a parameter. */
  function RandInt(lo: int, hi: int, draw: nat): (r: int)
    requires lo <= hi
    ensures lo <= r <= hi
  {
    lo + draw % (hi - lo + 1)
  }

  /** `Session`: its id and the configuration it was built with. */
  datatype SessionObj<C> = SessionObj(id: int, config: C)

  /** `Session.__init__`, with the random draw as a parameter. */
  function NewSession<C>(config: C, draw: nat): (s: SessionObj<C>)
    ensures 0 <= s.id <= 1000000
    ensures s.config == config
  {
    SessionObj(RandInt(0, 1000000, draw), config)
  }

  /** `wrap_session` called twice in one process: the second call runs with
      the first call's configuration and session id. */
  lemma SecondSessionReusesFirst<C>(draw: nat, first: C, second: C)
    ensures var s := Decorate((c: C) => NewSession(c, draw));
      var (s', one) := Call(s, first);
      var (_, two) := Call(s', second);
      two == one && two.config == first && 0 <= two.id <= 1000000
  {
  }
}
