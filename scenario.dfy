/** Concrete uses of the provider with a small cache adapter and the default checker:
    what a caller can prove from the contracts alone. */
module Scenario {
  import opened JsValues
  import opened Equality
  import opened Provider

  datatype Action = Request(key: string) | Resolve(key: string, data: JsValue) | Unknown

  /** The projection of a key nobody has requested yet. */
  const Idle := CacheEntry(Undefined, Undefined, Boolean(false))
  const Loading := CacheEntry(Undefined, Undefined, Boolean(true))

  function Reduce(s: map<string, CacheEntry>, a: Action): map<string, CacheEntry> {
    match a
    case Request(k) => s[k := Loading]
    case Resolve(k, d) => s[k := CacheEntry(d, Undefined, Boolean(false))]
    case Unknown => s
  }

  function Lookup(s: map<string, CacheEntry>, k: string): CacheEntry {
    if k in s then s[k] else Idle
  }

  /** A request for "a" updates the selector on "a" once and leaves the one on "b" alone. */
  method RequestScenario() {
    var p := new FetchyeProvider(Cache(Reduce, Lookup), None, map[], Unknown, DefaultEqualityChecker);
    var a := p.Mount("a");
    var b := p.Mount("b");
    assert "a" in Reduce(map[], Request("a"));
    p.Dispatch(Request("a"));
    assert p.notifications == 1;
    assert p.consumers[a].cached == Loading && p.consumers[a].renders == 1;
    assert p.consumers[b].cached == Idle && p.consumers[b].renders == 0;
  }

  /** An action the reducer ignores leaves the state as it was, so nothing is broadcast. */
  method UnknownActionScenario() {
    var p := new FetchyeProvider(Cache(Reduce, Lookup), Some(map[]), map[], Unknown, DefaultEqualityChecker);
    var a := p.Mount("a");
    p.Dispatch(Unknown);
    assert p.notifications == 0 && p.consumers[a].renders == 0;
  }

  /** Two selectors on the same key both update on one dispatch, each once. */
  method SharedKeyScenario() {
    var p := new FetchyeProvider(Cache(Reduce, Lookup), Some(map[]), map[], Unknown, DefaultEqualityChecker);
    var x1 := p.Mount("x");
    var x2 := p.Mount("x");
    assert "x" in Reduce(map[], Request("x"));
    p.Dispatch(Request("x"));
    assert p.consumers[x1].cached == Loading && p.consumers[x1].renders == 1;
    assert p.consumers[x2].cached == Loading && p.consumers[x2].renders == 1;
  }

  /** After switching from "a" to "b", a request for "a" does not fire the selector. The
      value kept across the switch is the idle projection of "a", and that is also the
      projection of "b"; a value of "a" that had already changed would fire it, as
      `StaleKeySwitchScenario` shows. */
  method KeySwitchScenario() {
    var p := new FetchyeProvider(Cache(Reduce, Lookup), Some(map[]), map[], Unknown, DefaultEqualityChecker);
    var c := p.Mount("a");
    var v := p.Rerender(c, "b");
    assert v == Idle;
    assert "a" in Reduce(map[], Request("a"));
    p.Dispatch(Request("a"));
    assert p.consumers[c].renders == 0 && p.consumers[c].cached == Idle;
  }

  /** After switching from "a" to "b", a request for "b" does reach the selector. */
  method KeySwitchUpdateScenario() {
    var p := new FetchyeProvider(Cache(Reduce, Lookup), Some(map[]), map[], Unknown, DefaultEqualityChecker);
    var c := p.Mount("a");
    var v := p.Rerender(c, "b");
    assert "b" in Reduce(map[], Request("b"));
    p.Dispatch(Request("b"));
    assert p.consumers[c].renders == 1 && p.consumers[c].cached == Loading;
  }

  /** Unmounting twice is harmless, and an unmounted selector never fires again. */
  method UnmountScenario() {
    var p := new FetchyeProvider(Cache(Reduce, Lookup), Some(map[]), map[], Unknown, DefaultEqualityChecker);
    var c := p.Mount("a");
    p.Unmount(c);
    p.Unmount(c);
    assert "a" in Reduce(map[], Request("a"));
    p.Dispatch(Request("a"));
    assert p.consumers[c].renders == 0 && p.notifications == 1;
  }

  /** A selector mounted on "a" that has seen the request for "a". */
  method LoadingOnA() returns (p: FetchyeProvider<map<string, CacheEntry>, Action, string, CacheEntry>, c: ConsumerId)
    ensures fresh(p) && fresh(p.notifier)
    ensures p.Valid() && p.cache == Cache(Reduce, Lookup) && p.equalityChecker == DefaultEqualityChecker
    ensures p.state == map["a" := Loading] && p.notifications == 1
    ensures c in p.consumers && p.consumers[c].effect.Some?
    ensures p.consumers[c].key == "a" && p.consumers[c].cached == Loading && p.consumers[c].renders == 1
  {
    p := new FetchyeProvider(Cache(Reduce, Lookup), Some(map[]), map[], Unknown, DefaultEqualityChecker);
    c := p.Mount("a");
    assert "a" in Reduce(map[], Request("a"));
    p.Dispatch(Request("a"));
  }

  /** The code as written: the value cached under "a" survives the switch to "b", so a
      dispatch that changes only "a" still fires the selector, now on "b", although the
      projection of "b" did not change. */
  method StaleKeySwitchScenario() returns (renders: nat, cached: CacheEntry)
    ensures renders == 2 && cached == Idle
  {
    var p, c := LoadingOnA();
    var v := p.Rerender(c, "b");
    assert v == Loading && p.consumers[c].cached == Loading;
    assert Reduce(p.state, Resolve("a", Ref(1))) != p.state by {
      assert Reduce(p.state, Resolve("a", Ref(1)))["a"] != Loading;
    }
    p.Dispatch(Resolve("a", Ref(1)));
    assert Lookup(p.state, "b") == Lookup(map["a" := Loading], "b") == Idle;
    renders, cached := p.consumers[c].renders, p.consumers[c].cached;
  }

  /** The same steps with the re-projecting key switch: the dispatch that changes only
      "a" leaves the selector on "b" alone. */
  method FreshKeySwitchScenario() returns (renders: nat, cached: CacheEntry)
    ensures renders == 1 && cached == Idle
  {
    var p, c := LoadingOnA();
    var v := p.RerenderReprojecting(c, "b");
    assert v == Idle && p.consumers[c].cached == Idle && p.consumers[c].renders == 1;
    assert Reduce(p.state, Resolve("a", Ref(1))) != p.state by {
      assert Reduce(p.state, Resolve("a", Ref(1)))["a"] != Loading;
    }
    p.Dispatch(Resolve("a", Ref(1)));
    assert Lookup(p.state, "b") == Idle;
    renders, cached := p.consumers[c].renders, p.consumers[c].cached;
  }

  /** A commit caused by the parent broadcasts too, with no state change: after a key
      switch it refreshes the stale value at once. */
  method CommitScenario() returns (renders: nat, cached: CacheEntry)
    ensures renders == 2 && cached == Idle
  {
    var p, c := LoadingOnA();
    var v := p.Rerender(c, "b");
    assert p.consumers[c].key == "b" && p.consumers[c].cached == Loading && p.consumers[c].effect.Some?;
    assert Lookup(p.state, "b") == Idle;
    p.Commit();
    assert p.notifications == 2;
    renders, cached := p.consumers[c].renders, p.consumers[c].cached;
  }
}
