/** The provider's state container, its keyed selectors and the broadcast that connects
    them: `makeFetchyeSelector` and the wiring inside `FetchyeProvider`. */
module Provider {
  import opened Subscription

  datatype Option<T> = None | Some(value: T)

  /** Identifies one `checkForUpdates` closure. Every run of a selector's effect creates
      a new closure, so every subscription gets a new id. */
  type CallbackId = nat

  /** Identifies one consumer: one mounted component that calls `useFetchyeSelector`. */
  type ConsumerId = nat

  /** The cache adapter: `cache.reducer` and `cache.getCacheByKey`, both pure. */
  datatype Cache<!S, !A, !K, P> = Cache(reducer: (S, A) -> S, getCacheByKey: (S, K) -> P)

  /** What a consumer's hook keeps between renders: the key of its last render, its
      `selectorValue` ref, the number of `forceRender` calls so far, and the callback its
      current effect subscribed (`None` once unmounted). */
  datatype Consumer<K, P> = Consumer(key: K, cached: P, renders: nat, effect: Option<CallbackId>)

  /** A `checkForUpdates` closure: the consumer whose ref it updates and the key it
      captured. It captures no state: it reads the state cell when it runs. */
  datatype Callback<K> = Callback(consumer: ConsumerId, key: K)

  /** One run of `checkForUpdates` on its consumer, given the fresh projection. */
  function Checked<K, P>(c: Consumer<K, P>, next: P, equalityChecker: (P, P) -> bool): Consumer<K, P>
  {
    if equalityChecker(c.cached, next) then c else c.(cached := next, renders := c.renders + 1)
  }

  /** Every subscribed callback is known and belongs to a known consumer. */
  predicate Wired<K, P>(m: map<ConsumerId, Consumer<K, P>>, callbacks: map<CallbackId, Callback<K>>, subs: seq<CallbackId>)
  {
    forall i :: 0 <= i < |subs| ==> subs[i] in callbacks && callbacks[subs[i]].consumer in m
  }

  /** No consumer has two subscribed callbacks. */
  predicate OwnersDistinct<K>(callbacks: map<CallbackId, Callback<K>>, subs: seq<CallbackId>)
  {
    forall i, j :: 0 <= i < j < |subs| && subs[i] in callbacks && subs[j] in callbacks ==>
      callbacks[subs[i]].consumer != callbacks[subs[j]].consumer
  }

  /** `notify()`: runs the subscribed callbacks in the order `Set.forEach` visits them,
      each against the projection of `state` (the state cell at broadcast time) for its
      own key. Only the cached values and render counters of consumers change. */
  function Broadcast<S, K, P>(m: map<ConsumerId, Consumer<K, P>>, callbacks: map<CallbackId, Callback<K>>,
                              subs: seq<CallbackId>, state: S, getCacheByKey: (S, K) -> P,
                              equalityChecker: (P, P) -> bool): (r: map<ConsumerId, Consumer<K, P>>)
    requires Wired(m, callbacks, subs)
    ensures r.Keys == m.Keys
    ensures forall c :: c in r ==> r[c].key == m[c].key && r[c].effect == m[c].effect
    decreases |subs|
  {
    if subs == [] then m
    else
      var prev := Broadcast(m, callbacks, subs[..|subs| - 1], state, getCacheByKey, equalityChecker);
      var cb := callbacks[subs[|subs| - 1]];
      prev[cb.consumer := Checked(prev[cb.consumer], getCacheByKey(state, cb.key), equalityChecker)]
  }

  /** Extending a broadcast by one more subscribed callback checks that callback's consumer. */
  lemma BroadcastStep<S, K, P>(m: map<ConsumerId, Consumer<K, P>>, callbacks: map<CallbackId, Callback<K>>,
                               subs: seq<CallbackId>, state: S, getCacheByKey: (S, K) -> P,
                               equalityChecker: (P, P) -> bool, i: nat)
    requires Wired(m, callbacks, subs) && i < |subs|
    ensures Wired(m, callbacks, subs[..i]) && Wired(m, callbacks, subs[..i + 1])
    ensures var prev := Broadcast(m, callbacks, subs[..i], state, getCacheByKey, equalityChecker);
            var cb := callbacks[subs[i]];
            Broadcast(m, callbacks, subs[..i + 1], state, getCacheByKey, equalityChecker)
            == prev[cb.consumer := Checked(prev[cb.consumer], getCacheByKey(state, cb.key), equalityChecker)]
  {
    assert subs[..i + 1][..i] == subs[..i];
  }

  /** A consumer none of whose callbacks is subscribed is left exactly as it was: a
      released subscription never fires into its consumer. */
  lemma {:induction false} BroadcastUnvisited<S, K, P>(m: map<ConsumerId, Consumer<K, P>>, callbacks: map<CallbackId, Callback<K>>,
                                                        subs: seq<CallbackId>, state: S, getCacheByKey: (S, K) -> P,
                                                        equalityChecker: (P, P) -> bool, c: ConsumerId)
    requires Wired(m, callbacks, subs) && c in m
    requires forall i :: 0 <= i < |subs| ==> callbacks[subs[i]].consumer != c
    ensures Broadcast(m, callbacks, subs, state, getCacheByKey, equalityChecker)[c] == m[c]
    decreases |subs|
  {
    if subs != [] {
      BroadcastUnvisited(m, callbacks, subs[..|subs| - 1], state, getCacheByKey, equalityChecker, c);
    }
  }

  /** The consumer of the `i`-th subscribed callback is checked exactly once, against
      the projection of the broadcast state for that callback's key. */
  lemma {:induction false} BroadcastVisited<S, K, P>(m: map<ConsumerId, Consumer<K, P>>, callbacks: map<CallbackId, Callback<K>>,
                                                      subs: seq<CallbackId>, state: S, getCacheByKey: (S, K) -> P,
                                                      equalityChecker: (P, P) -> bool, i: nat)
    requires Wired(m, callbacks, subs) && OwnersDistinct(callbacks, subs) && i < |subs|
    ensures var c := callbacks[subs[i]].consumer;
            Broadcast(m, callbacks, subs, state, getCacheByKey, equalityChecker)[c]
            == Checked(m[c], getCacheByKey(state, callbacks[subs[i]].key), equalityChecker)
    decreases |subs|
  {
    var n := |subs| - 1;
    var front := subs[..n];
    assert Wired(m, callbacks, front) && OwnersDistinct(callbacks, front) by {
      forall j | 0 <= j < n ensures front[j] == subs[j] { }
    }
    var c := callbacks[subs[i]].consumer;
    if i == n {
      forall j | 0 <= j < |front| ensures callbacks[front[j]].consumer != c {
        assert front[j] == subs[j];
      }
      BroadcastUnvisited(m, callbacks, front, state, getCacheByKey, equalityChecker, c);
    } else {
      assert front[i] == subs[i];
      BroadcastVisited(m, callbacks, front, state, getCacheByKey, equalityChecker, i);
      assert callbacks[subs[n]].consumer != c;
    }
  }

  /** Per consumer, a broadcast fires the render signal at most once, and the cached
      value never changes without a signal. */
  lemma BroadcastSignalsOnce<S, K, P>(m: map<ConsumerId, Consumer<K, P>>, callbacks: map<CallbackId, Callback<K>>,
                                      subs: seq<CallbackId>, state: S, getCacheByKey: (S, K) -> P,
                                      equalityChecker: (P, P) -> bool, c: ConsumerId)
    requires Wired(m, callbacks, subs) && OwnersDistinct(callbacks, subs) && c in m
    ensures var r := Broadcast(m, callbacks, subs, state, getCacheByKey, equalityChecker);
            (r[c].renders == m[c].renders && r[c].cached == m[c].cached) ||
            r[c].renders == m[c].renders + 1
  {
    if i :| 0 <= i < |subs| && callbacks[subs[i]].consumer == c {
      BroadcastVisited(m, callbacks, subs, state, getCacheByKey, equalityChecker, i);
    } else {
      BroadcastUnvisited(m, callbacks, subs, state, getCacheByKey, equalityChecker, c);
    }
  }

  /** The consumers in `m` whose render counter differs in `r`. */
  ghost function Fired<K, P>(m: map<ConsumerId, Consumer<K, P>>, r: map<ConsumerId, Consumer<K, P>>): set<ConsumerId>
  {
    set c | c in m && c in r && r[c].renders != m[c].renders
  }

  /** The consumers owning the subscribed callbacks. */
  ghost function Owners<K>(callbacks: map<CallbackId, Callback<K>>, subs: seq<CallbackId>): set<ConsumerId>
    requires forall i :: 0 <= i < |subs| ==> subs[i] in callbacks
  {
    set i | 0 <= i < |subs| :: callbacks[subs[i]].consumer
  }

  lemma {:induction false} OwnersBound<K>(callbacks: map<CallbackId, Callback<K>>, subs: seq<CallbackId>)
    requires forall i :: 0 <= i < |subs| ==> subs[i] in callbacks
    ensures |Owners(callbacks, subs)| <= |subs|
    decreases |subs|
  {
    if subs != [] {
      var n := |subs| - 1;
      var front := subs[..n];
      assert forall j :: 0 <= j < n ==> front[j] == subs[j];
      OwnersBound(callbacks, front);
      assert Owners(callbacks, subs) == Owners(callbacks, front) + {callbacks[subs[n]].consumer};
    }
  }

  lemma SubsetCardinality<T>(a: set<T>, b: set<T>)
    requires a <= b
    ensures |a| <= |b|
  {
    assert b == a + (b - a);
  }

  /** One broadcast over N subscriptions fires at most N render signals. */
  lemma BroadcastSignalsBounded<S, K, P>(m: map<ConsumerId, Consumer<K, P>>, callbacks: map<CallbackId, Callback<K>>,
                                         subs: seq<CallbackId>, state: S, getCacheByKey: (S, K) -> P,
                                         equalityChecker: (P, P) -> bool)
    requires Wired(m, callbacks, subs)
    ensures |Fired(m, Broadcast(m, callbacks, subs, state, getCacheByKey, equalityChecker))| <= |subs|
  {
    var r := Broadcast(m, callbacks, subs, state, getCacheByKey, equalityChecker);
    forall c | c in Fired(m, r) ensures c in Owners(callbacks, subs) {
      if forall i :: 0 <= i < |subs| ==> callbacks[subs[i]].consumer != c {
        BroadcastUnvisited(m, callbacks, subs, state, getCacheByKey, equalityChecker, c);
      }
    }
    SubsetCardinality(Fired(m, r), Owners(callbacks, subs));
    OwnersBound(callbacks, subs);
  }

  /** A second broadcast of the same state changes nothing, as long as the checker
      judges each projection it sees equal to itself. */
  lemma BroadcastIdempotent<S, K, P>(m: map<ConsumerId, Consumer<K, P>>, callbacks: map<CallbackId, Callback<K>>,
                                     subs: seq<CallbackId>, state: S, getCacheByKey: (S, K) -> P,
                                     equalityChecker: (P, P) -> bool)
    requires Wired(m, callbacks, subs) && OwnersDistinct(callbacks, subs)
    requires forall i :: 0 <= i < |subs| ==>
      equalityChecker(getCacheByKey(state, callbacks[subs[i]].key), getCacheByKey(state, callbacks[subs[i]].key))
    ensures var once := Broadcast(m, callbacks, subs, state, getCacheByKey, equalityChecker);
            Broadcast(once, callbacks, subs, state, getCacheByKey, equalityChecker) == once
  {
    var once := Broadcast(m, callbacks, subs, state, getCacheByKey, equalityChecker);
    var twice := Broadcast(once, callbacks, subs, state, getCacheByKey, equalityChecker);
    forall c | c in once ensures twice[c] == once[c] {
      if i :| 0 <= i < |subs| && callbacks[subs[i]].consumer == c {
        BroadcastVisited(m, callbacks, subs, state, getCacheByKey, equalityChecker, i);
        BroadcastVisited(once, callbacks, subs, state, getCacheByKey, equalityChecker, i);
      } else {
        BroadcastUnvisited(once, callbacks, subs, state, getCacheByKey, equalityChecker, c);
      }
    }
  }

  /** Key isolation: what a broadcast does to a consumer depends only on the projections
      of its own subscribed keys, so two states that agree on them have the same effect
      on it, however much they differ elsewhere. */
  lemma BroadcastIsolation<S, K, P>(m: map<ConsumerId, Consumer<K, P>>, callbacks: map<CallbackId, Callback<K>>,
                                    subs: seq<CallbackId>, s1: S, s2: S, getCacheByKey: (S, K) -> P,
                                    equalityChecker: (P, P) -> bool, c: ConsumerId)
    requires Wired(m, callbacks, subs) && OwnersDistinct(callbacks, subs) && c in m
    requires forall i :: 0 <= i < |subs| && callbacks[subs[i]].consumer == c ==>
      getCacheByKey(s1, callbacks[subs[i]].key) == getCacheByKey(s2, callbacks[subs[i]].key)
    ensures Broadcast(m, callbacks, subs, s1, getCacheByKey, equalityChecker)[c]
         == Broadcast(m, callbacks, subs, s2, getCacheByKey, equalityChecker)[c]
  {
    if i :| 0 <= i < |subs| && callbacks[subs[i]].consumer == c {
      BroadcastVisited(m, callbacks, subs, s1, getCacheByKey, equalityChecker, i);
      BroadcastVisited(m, callbacks, subs, s2, getCacheByKey, equalityChecker, i);
    } else {
      BroadcastUnvisited(m, callbacks, subs, s1, getCacheByKey, equalityChecker, c);
      BroadcastUnvisited(m, callbacks, subs, s2, getCacheByKey, equalityChecker, c);
    }
  }

  /** `FetchyeProvider` with its selectors, stripped of rendering: the reducer state, the
      `fetchyeState` cell, the subscriber set, and the hook state of every consumer. */
  class FetchyeProvider<S(==), A, K(==), P> {
    const cache: Cache<S, A, K, P>
    const equalityChecker: (P, P) -> bool
    const notifier: Subscribers<CallbackId>
    var state: S
    var current: S
    var consumers: map<ConsumerId, Consumer<K, P>>
    var callbacks: map<CallbackId, Callback<K>>
    var nextConsumer: nat
    var nextCallback: nat
    /** The number of `notify()` calls so far: one per commit of the provider. */
    ghost var notifications: nat

    /** The subscribed callback `cb` is the current effect of its consumer and carries
        that consumer's key. */
    ghost predicate Registered(cb: CallbackId)
      reads this
    {
      cb in callbacks && callbacks[cb].consumer in consumers &&
      consumers[callbacks[cb].consumer].effect == Some(cb) &&
      callbacks[cb].key == consumers[callbacks[cb].consumer].key
    }

    /** The current effect of a mounted consumer `c` is subscribed and belongs to `c`. */
    ghost predicate Subscribed(c: ConsumerId)
      reads this, notifier
      requires c in consumers && consumers[c].effect.Some?
    {
      var cb := consumers[c].effect.value;
      cb in notifier.members && cb in callbacks && callbacks[cb].consumer == c
    }

    /** The invariant of the subscriptions and the consumers they belong to. */
    ghost predicate Wiring()
      reads this, notifier
    {
      notifier.Valid() &&
      (forall cb :: cb in callbacks ==> cb < nextCallback) &&
      (forall c :: c in consumers ==> c < nextConsumer) &&
      (forall cb :: cb in notifier.members ==> Registered(cb)) &&
      (forall c :: c in consumers && consumers[c].effect.Some? ==> Subscribed(c))
    }

    /** Between commits the state cell holds the state of the last render. */
    ghost predicate Valid()
      reads this, notifier
    {
      Wiring() && current == state
    }

    lemma WiredWhenValid()
      requires Valid()
      ensures Wired(consumers, callbacks, notifier.members)
      ensures OwnersDistinct(callbacks, notifier.members)
    {
      var subs := notifier.members;
      forall i | 0 <= i < |subs| ensures subs[i] in callbacks && callbacks[subs[i]].consumer in consumers {
        assert Registered(subs[i]);
      }
      forall i, j | 0 <= i < j < |subs| && subs[i] in callbacks && subs[j] in callbacks
        ensures callbacks[subs[i]].consumer != callbacks[subs[j]].consumer
      {
        assert Registered(subs[i]) && Registered(subs[j]);
      }
    }

    /** Seen per consumer, a broadcast of state `s` checks every mounted consumer once,
        against the projection of `s` for the key of its last render, and leaves every
        unmounted consumer as it was. */
    lemma BroadcastPerConsumer(s: S)
      requires Valid()
      ensures Wired(consumers, callbacks, notifier.members)
      ensures var r := Broadcast(consumers, callbacks, notifier.members, s, cache.getCacheByKey, equalityChecker);
              forall c :: c in consumers ==>
                r[c] == if consumers[c].effect.Some?
                        then Checked(consumers[c], cache.getCacheByKey(s, consumers[c].key), equalityChecker)
                        else consumers[c]
    {
      WiredWhenValid();
      var subs := notifier.members;
      forall c | c in consumers
        ensures Broadcast(consumers, callbacks, subs, s, cache.getCacheByKey, equalityChecker)[c]
                == if consumers[c].effect.Some?
                   then Checked(consumers[c], cache.getCacheByKey(s, consumers[c].key), equalityChecker)
                   else consumers[c]
      {
        if consumers[c].effect.Some? {
          assert Subscribed(c);
          var cb := consumers[c].effect.value;
          var i :| 0 <= i < |subs| && subs[i] == cb;
          assert Registered(cb);
          BroadcastVisited(consumers, callbacks, subs, s, cache.getCacheByKey, equalityChecker, i);
        } else {
          forall i | 0 <= i < |subs| ensures callbacks[subs[i]].consumer != c {
            assert Registered(subs[i]);
          }
          BroadcastUnvisited(consumers, callbacks, subs, s, cache.getCacheByKey, equalityChecker, c);
        }
      }
    }

    /** The initial state is `initialState` when one is supplied and otherwise
        `cache.reducer(undefined, { type: '' })`; `undefinedState` and `emptyAction`
        stand for those two JavaScript values. */
    constructor (cache: Cache<S, A, K, P>, initialState: Option<S>, undefinedState: S, emptyAction: A,
                 equalityChecker: (P, P) -> bool)
      ensures Valid() && fresh(notifier)
      ensures this.cache == cache && this.equalityChecker == equalityChecker
      ensures state == (if initialState.Some? then initialState.value else cache.reducer(undefinedState, emptyAction))
      ensures current == state
      ensures consumers == map[] && callbacks == map[] && notifier.members == []
      ensures notifications == 0
    {
      this.cache := cache;
      this.equalityChecker := equalityChecker;
      notifier := new Subscribers();
      var s := if initialState.Some? then initialState.value else cache.reducer(undefinedState, emptyAction);
      state, current := s, s;
      consumers, callbacks := map[], map[];
      nextConsumer, nextCallback := 0, 0;
      notifications := 0;
    }

    /** `checkForUpdates`: re-projects the state cell as it is now for the callback's key.
        If the checker judges it equal to the cached value, nothing changes; otherwise
        the cached value becomes the new projection and the consumer's render counter
        goes up by exactly one. No other consumer is touched. */
    method CheckForUpdates(cb: CallbackId)
      requires Valid() && cb in notifier.members
      modifies this
      ensures Valid()
      ensures var c := old(callbacks[cb].consumer);
              var next := cache.getCacheByKey(current, old(callbacks[cb].key));
              && consumers == old(consumers)[c := Checked(old(consumers[c]), next, equalityChecker)]
              && (equalityChecker(old(consumers[c].cached), next) ==> consumers == old(consumers))
              && (!equalityChecker(old(consumers[c].cached), next) ==>
                    consumers[c].cached == next && consumers[c].renders == old(consumers[c].renders) + 1)
      ensures state == old(state) && current == old(current) && callbacks == old(callbacks)
      ensures nextConsumer == old(nextConsumer) && nextCallback == old(nextCallback)
      ensures notifications == old(notifications)
    {
      assert Registered(cb);
      var c := callbacks[cb].consumer;
      var nextValue := cache.getCacheByKey(current, callbacks[cb].key);
      if equalityChecker(consumers[c].cached, nextValue) {
        return;
      }
      consumers := consumers[c := consumers[c].(cached := nextValue, renders := consumers[c].renders + 1)];
    }

    /** `notify()`: every subscribed callback runs once, in subscription order, against
        the current state cell. */
    method Notify()
      requires Valid()
      modifies this
      ensures Valid()
      ensures Wired(old(consumers), callbacks, notifier.members)
      ensures consumers == Broadcast(old(consumers), callbacks, notifier.members, current,
                                     cache.getCacheByKey, equalityChecker)
      ensures forall c :: c in old(consumers) ==>
                c in consumers &&
                consumers[c] == if old(consumers[c].effect).Some?
                                then Checked(old(consumers[c]), cache.getCacheByKey(current, old(consumers[c].key)), equalityChecker)
                                else old(consumers[c])
      ensures state == old(state) && current == old(current) && callbacks == old(callbacks)
      ensures nextConsumer == old(nextConsumer) && nextCallback == old(nextCallback)
      ensures notifications == old(notifications) + 1
    {
      BroadcastPerConsumer(current);
      WiredWhenValid();
      var subs := notifier.members;
      var i := 0;
      while i < |subs|
        invariant 0 <= i <= |subs|
        invariant Valid()
        invariant notifier.members == subs && Wired(old(consumers), callbacks, subs)
        invariant consumers == Broadcast(old(consumers), callbacks, subs[..i], current,
                                         cache.getCacheByKey, equalityChecker)
        invariant state == old(state) && current == old(current) && callbacks == old(callbacks)
        invariant nextConsumer == old(nextConsumer) && nextCallback == old(nextCallback)
        invariant notifications == old(notifications)
      {
        BroadcastStep(old(consumers), callbacks, subs, current, cache.getCacheByKey, equalityChecker, i);
        CheckForUpdates(subs[i]);
        i := i + 1;
      }
      assert subs[..i] == subs;
      notifications := notifications + 1;
    }

    /** A commit of the provider. Its render copies the state into the `fetchyeState`
        cell, and then the `[notify, state]` effect runs `notify()`. `useSubscription`
        returns a new `notify` function on every render, so this effect runs after every
        commit: after the first mount (the effects of consumers mounted in the same commit
        have already subscribed, since a child's effects run before its parent's), after
        every re-render caused by the parent, and after every state change. */
    method Commit()
      requires Wiring()
      modifies this
      ensures Valid()
      ensures Wired(old(consumers), callbacks, notifier.members)
      ensures consumers == Broadcast(old(consumers), callbacks, notifier.members, state,
                                     cache.getCacheByKey, equalityChecker)
      ensures forall c :: c in old(consumers) ==>
                c in consumers &&
                consumers[c] == if old(consumers[c].effect).Some?
                                then Checked(old(consumers[c]), cache.getCacheByKey(state, old(consumers[c].key)), equalityChecker)
                                else old(consumers[c])
      ensures state == old(state) && current == state && callbacks == old(callbacks)
      ensures nextConsumer == old(nextConsumer) && nextCallback == old(nextCallback)
      ensures notifications == old(notifications) + 1
    {
      current := state;
      Notify();
    }

    /** `dispatch(action)`: the state becomes `reducer(state, action)`. If that changed
        the state, the provider re-renders and commits, which broadcasts exactly once;
        if the reducer returned the same state, React skips the render, so there is no
        commit and no broadcast. */
    method Dispatch(action: A)
      requires Valid()
      modifies this
      ensures Valid()
      ensures state == cache.reducer(old(state), action) && current == state
      ensures Wired(old(consumers), callbacks, notifier.members)
      ensures consumers == if state == old(state) then old(consumers)
                           else Broadcast(old(consumers), callbacks, notifier.members, state,
                                          cache.getCacheByKey, equalityChecker)
      ensures state != old(state) ==>
                forall c :: c in old(consumers) ==>
                  c in consumers &&
                  consumers[c] == if old(consumers[c].effect).Some?
                                  then Checked(old(consumers[c]), cache.getCacheByKey(state, old(consumers[c].key)), equalityChecker)
                                  else old(consumers[c])
      ensures notifications == old(notifications) + (if state == old(state) then 0 else 1)
      ensures callbacks == old(callbacks)
      ensures nextConsumer == old(nextConsumer) && nextCallback == old(nextCallback)
    {
      WiredWhenValid();
      var next := cache.reducer(state, action);
      if next == state {
        return;
      }
      state := next;
      Commit();
    }

    /** First render and first effect of a consumer of `key`: the cached value starts as
        the projection of the current state cell, the render counter at zero, and one
        fresh callback for `key` joins the subscribers. */
    method Mount(key: K) returns (c: ConsumerId)
      requires Valid()
      modifies this, notifier
      ensures Valid()
      ensures c !in old(consumers) && old(nextCallback) !in old(callbacks)
      ensures consumers == old(consumers)[c := Consumer(key, cache.getCacheByKey(current, key), 0, Some(old(nextCallback)))]
      ensures callbacks == old(callbacks)[old(nextCallback) := Callback(c, key)]
      ensures notifier.members == old(notifier.members) + [old(nextCallback)]
      ensures state == old(state) && current == old(current) && notifications == old(notifications)
    {
      c := nextConsumer;
      var cb := nextCallback;
      nextConsumer, nextCallback := nextConsumer + 1, nextCallback + 1;
      consumers := consumers[c := Consumer(key, cache.getCacheByKey(current, key), 0, Some(cb))];
      callbacks := callbacks[cb := Callback(c, key)];
      notifier.Subscribe(cb);
      assert forall x :: x in old(notifier.members) ==> x != cb;
      forall x | x in notifier.members ensures Registered(x) {
        if x != cb {
          assert old(Registered(x));
        }
      }
    }

    /** A later render of consumer `c` with `key`. It returns the cached value. The
        effect depends on `[key]`: when the key is unchanged nothing else happens; when it
        changed, the old callback is unsubscribed before a fresh one for the new key is
        subscribed. The cached value and render counter are not recomputed: the ref
        initialiser runs only on the first render. */
    method Rerender(c: ConsumerId, key: K) returns (value: P)
      requires Valid() && c in consumers && consumers[c].effect.Some?
      modifies this, notifier
      ensures Valid()
      ensures value == old(consumers[c].cached)
      ensures key == old(consumers[c].key) ==>
                consumers == old(consumers) && callbacks == old(callbacks) &&
                notifier.members == old(notifier.members)
      ensures key != old(consumers[c].key) ==>
                old(nextCallback) !in old(callbacks) &&
                consumers == old(consumers)[c := old(consumers[c]).(key := key, effect := Some(old(nextCallback)))] &&
                callbacks == old(callbacks)[old(nextCallback) := Callback(c, key)] &&
                notifier.members == Remove(old(notifier.members), old(consumers[c].effect.value)) + [old(nextCallback)]
      ensures state == old(state) && current == old(current) && notifications == old(notifications)
    {
      value := consumers[c].cached;
      if key == consumers[c].key {
        return;
      }
      var stale := consumers[c].effect.value;
      notifier.Unsubscribe(stale);
      var cb := nextCallback;
      nextCallback := nextCallback + 1;
      consumers := consumers[c := consumers[c].(key := key, effect := Some(cb))];
      callbacks := callbacks[cb := Callback(c, key)];
      assert cb !in notifier.members;
      notifier.Subscribe(cb);
      forall x | x in notifier.members ensures Registered(x) {
        if x != cb {
          assert x in old(notifier.members) && x != stale;
          assert old(Registered(x));
        }
      }
      forall d | d in consumers && consumers[d].effect.Some? ensures Subscribed(d) {
        if d != c {
          assert old(Subscribed(d));
        }
      }
    }

    /** The key switch as the selector evidently intends it: like `Rerender`, but on a
        key change the cached value is re-projected from the current state cell for the
        new key, so the value handed out and later compared belongs to the new key. */
    method RerenderReprojecting(c: ConsumerId, key: K) returns (value: P)
      requires Valid() && c in consumers && consumers[c].effect.Some?
      modifies this, notifier
      ensures Valid()
      ensures c in consumers && value == consumers[c].cached
      ensures key == old(consumers[c].key) ==>
                value == old(consumers[c].cached) &&
                consumers == old(consumers) && callbacks == old(callbacks) &&
                notifier.members == old(notifier.members)
      ensures key != old(consumers[c].key) ==>
                value == cache.getCacheByKey(current, key) &&
                old(nextCallback) !in old(callbacks) &&
                consumers == old(consumers)[c := old(consumers[c]).(key := key, cached := value, effect := Some(old(nextCallback)))] &&
                callbacks == old(callbacks)[old(nextCallback) := Callback(c, key)] &&
                notifier.members == Remove(old(notifier.members), old(consumers[c].effect.value)) + [old(nextCallback)]
      ensures state == old(state) && current == old(current) && notifications == old(notifications)
    {
      var previous := consumers[c].key;
      value := Rerender(c, key);
      if key != previous {
        value := cache.getCacheByKey(current, key);
        consumers := consumers[c := consumers[c].(cached := value)];
      }
    }

    /** Key isolation for a consumer whose cached value is the projection of the current
        state for its own key, which `RerenderReprojecting` establishes at a key switch:
        a broadcast of any state that leaves that projection as it is does not touch the
        consumer, provided the checker judges the projection equal to itself. */
    lemma InSyncIsolation(s: S, c: ConsumerId)
      requires Valid() && c in consumers && consumers[c].effect.Some?
      requires consumers[c].cached == cache.getCacheByKey(current, consumers[c].key)
      requires cache.getCacheByKey(s, consumers[c].key) == cache.getCacheByKey(current, consumers[c].key)
      requires equalityChecker(consumers[c].cached, consumers[c].cached)
      ensures Wired(consumers, callbacks, notifier.members)
      ensures Broadcast(consumers, callbacks, notifier.members, s, cache.getCacheByKey, equalityChecker)[c] == consumers[c]
    {
      BroadcastPerConsumer(s);
    }

    /** Unmounting consumer `c` runs its effect cleanup: its callback is unsubscribed.
        Unmounting again changes nothing. */
    method Unmount(c: ConsumerId)
      requires Valid() && c in consumers
      modifies this, notifier
      ensures Valid()
      ensures consumers == old(consumers)[c := old(consumers[c]).(effect := None)]
      ensures notifier.members == if old(consumers[c].effect).Some?
                                  then Remove(old(notifier.members), old(consumers[c].effect.value))
                                  else old(notifier.members)
      ensures forall cb :: cb in notifier.members ==> callbacks[cb].consumer != c
      ensures state == old(state) && current == old(current) && callbacks == old(callbacks)
      ensures notifications == old(notifications)
    {
      if consumers[c].effect.Some? {
        notifier.Unsubscribe(consumers[c].effect.value);
      }
      consumers := consumers[c := consumers[c].(effect := None)];
      forall x | x in notifier.members ensures Registered(x) {
        assert old(Registered(x));
      }
      forall d | d in consumers && consumers[d].effect.Some? ensures Subscribed(d) {
        assert old(Subscribed(d));
      }
    }
  }
}
