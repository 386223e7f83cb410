# Fetchye provider: keyed change notification

This project models the change-notification core of fetchye's `FetchyeProvider`. There is
one reducer-driven state, and a broadcast fires on every state change. Each consumer's
selector watches one key. It re-projects that key from the current state on every
broadcast and re-renders only when the pluggable equality checker says the projection
changed. React is stripped away. What remains is a single-threaded state machine:

- `js_values.dfy` (`JsValues`): JavaScript values as `===` sees them. Primitives are
  compared by value, objects by identity (an address), and `NaN` is unequal to itself.
- `equality.dfy` (`Equality`): the `{ data, error, loading }` projection shape and
  `defaultEqualityChecker`.
- `subscription.dfy` (`Subscription`): `useSubscription`'s `Set` of callbacks. It is
  kept as a duplicate-free sequence in insertion order, which is the order
  `Set.forEach` visits it in. The pure functions `Add` and `Remove` describe
  `Set.add` and `Set.delete`, and they are proved correct as lemmas.
- `provider.dfy` (`Provider`): the class `FetchyeProvider`. It holds the reducer state,
  the `fetchyeState` cell, the subscriber set and, per consumer, the hook state: the
  key of its last render, the `selectorValue` ref, the number of `forceRender` calls and
  the callback its current effect subscribed. Callbacks are ids rather than closures.
  Every run of a selector's effect creates a fresh `checkForUpdates` closure, so every
  subscription gets a fresh id. `notify()` is specified by the pure fold `Broadcast`,
  and the lemmas about `Broadcast` state what one broadcast does:
  - each subscribed consumer is checked exactly once, against the state at broadcast time;
  - a consumer with no subscription is untouched;
  - a consumer's result depends only on its own key's projection;
  - at most one signal fires per subscription;
  - broadcasting the same state twice changes nothing, as long as the checker judges
    each projection it sees equal to itself. Under the default checker that fails for an
    entry with a NaN field.
- `scenario.dfy` (`Scenario`): client methods that use a small concrete cache adapter
  with the default checker. They cover a request touching one key and not another, an
  ignored action, two selectors on one key, key switches, a commit with no state change,
  and a double unmount.

The reducer, `getCacheByKey` and the equality checker are parameters: total,
heap-independent functions. `cache.reducer(undefined, { type: '' })` is modelled by
passing the values that stand for `undefined` and `{ type: '' }` to the constructor.

On a key change the selector does not compute a fresh projection for the new key. The
`useRef` initialiser at src/FetchyeProvider.jsx:52 only runs on the first render. So the
first broadcast after a switch compares the value cached under the old key with the new
key's projection. `Rerender` models this as written, and "## Findings" below shows what
it leads to.

`notify()` runs from the effect that depends on `[notify, state]`. `useSubscription`
returns a fresh `notify` function on every render, so this effect runs after every commit
of the provider. That includes the first mount, every re-render caused by its parent and
every state change. `Commit` models one such commit: it copies the state into the
`fetchyeState` cell and broadcasts. React skips the render, and so the commit, when the
reducer returns the identical state. So `Dispatch` commits exactly once when the state
changed and not at all otherwise. Commits caused by the parent are explicit `Commit` calls.

Equality `==` on the state type and on the key type stands for `Object.is`, the comparison
React uses for the reducer bail-out and for the `[key]` dependency. The class is generic in
both types. An instance whose state values are structured data, like the one in
`scenario.dfy`, treats two states with equal content as the same state. A reducer that
returns a fresh object with equal content is modelled by using state values that carry
an identity.

## Model

| member | source | states |
|---|---|---|
| JsValues.NumberEquals | src/FetchyeProvider.jsx:67-69 | `===` on numbers: equal exactly when the two numbers are the same and not NaN |
| JsValues.StrictEquals | src/FetchyeProvider.jsx:67-69 | `===`, computed by type and then value or identity, is plain equality of the modelled values except that NaN equals nothing |
| Equality.DefaultEqualityChecker | src/FetchyeProvider.jsx:67-69 | two entries are judged equal iff they are the same `{data, error, loading}` value (both directions) and no field is NaN |
| Equality.DefaultEqualityCheckerSymmetric | src/FetchyeProvider.jsx:67-69 | the default checker is symmetric |
| Equality.DefaultEqualityCheckerReflexive | src/FetchyeProvider.jsx:67-69 | the default checker is reflexive on entries with no NaN field |
| Equality.DefaultEqualityCheckerNaN | src/FetchyeProvider.jsx:67-69 | an entry with a NaN field is unequal to every entry, itself included |
| Equality.DefaultEqualityCheckerTransitive | src/FetchyeProvider.jsx:67-69 | the default checker is transitive |
| Subscription.Add | src/FetchyeProvider.jsx:40 | `Set.add` puts the callback in the set, keeps every earlier member in its place, adds nothing else and keeps the set duplicate-free |
| Subscription.Remove | src/FetchyeProvider.jsx:42 | `Set.delete` removes exactly that callback, keeps every other member and keeps the set duplicate-free |
| Subscription.RemoveAt | src/FetchyeProvider.jsx:42 | in a duplicate-free set, deleting a member keeps all other members in their old order |
| Subscription.RemoveAbsent | src/FetchyeProvider.jsx:41-43 | unsubscribing a callback that is not registered changes nothing |
| Subscription.RemoveIdempotent | src/FetchyeProvider.jsx:41-43 | calling the unsubscribe closure twice is the same as calling it once |
| Subscription.SubscribeThenUnsubscribe | src/FetchyeProvider.jsx:39-44 | subscribing a new callback and then calling the returned unsubscribe restores the exact previous registrations, order included |
| Subscription.RemoveCommutes | src/FetchyeProvider.jsx:41-43 | unsubscribing different callbacks in either order gives the same set and order |
| Subscription.Subscribers.constructor | src/FetchyeProvider.jsx:32 | the subscriber set starts empty |
| Subscription.Subscribers.Subscribe | src/FetchyeProvider.jsx:39-40 | the new set is `Add` of the old one, so subscribing a callback twice still gives one registration |
| Subscription.Subscribers.Unsubscribe | src/FetchyeProvider.jsx:41-43 | the new set is `Remove` of the old one |
| Provider.Broadcast | src/FetchyeProvider.jsx:34-38 | a broadcast keeps the set of consumers and every consumer's key and subscription; only cached values and render counters change |
| Provider.BroadcastUnvisited | src/FetchyeProvider.jsx:34-38 | a consumer with no subscribed callback is left exactly as it was |
| Provider.BroadcastVisited | src/FetchyeProvider.jsx:34-38 | the consumer of each subscribed callback is checked exactly once, against the projection of the broadcast state for that callback's key |
| Provider.BroadcastSignalsOnce | src/FetchyeProvider.jsx:56-60 | in one broadcast a consumer's render counter rises by at most one, and its cached value never changes without that rise |
| Provider.BroadcastSignalsBounded | src/FetchyeProvider.jsx:34-38 | a broadcast over N subscriptions fires at most N render signals |
| Provider.BroadcastIdempotent | src/FetchyeProvider.jsx:54-61 | broadcasting the same state a second time changes nothing, when the checker judges each projection it sees equal to itself |
| Provider.BroadcastIsolation | src/FetchyeProvider.jsx:55 | two states that agree on a consumer's subscribed key have the same effect on it, however much they differ on other keys |
| Provider.FetchyeProvider.BroadcastPerConsumer | src/FetchyeProvider.jsx:53-63 | a broadcast of state `s` checks every mounted consumer once, against `s`'s projection for its last key, and leaves every unmounted consumer unchanged |
| Provider.FetchyeProvider.constructor | src/FetchyeProvider.jsx:72-77 | the state is the supplied initial state, or else `reducer(undefined, { type: '' })`; the state cell holds it; there are no subscribers |
| Provider.FetchyeProvider.CheckForUpdates | src/FetchyeProvider.jsx:54-61 | re-projects the current state cell for the callback's key; if the checker says equal, nothing changes; otherwise the cached value becomes the new projection and the render counter rises by exactly one; other consumers untouched |
| Provider.FetchyeProvider.Notify | src/FetchyeProvider.jsx:34-38 | every subscribed callback runs once in subscription order against the current state cell; each mounted consumer ends `Checked` against its own key, unmounted ones are unchanged |
| Provider.FetchyeProvider.Commit | src/FetchyeProvider.jsx:76-94 | a commit copies the state into the state cell and broadcasts it once; each subscribed consumer ends `Checked` against its own key's projection of the state, the others are unchanged, and the state itself does not change |
| Provider.FetchyeProvider.Dispatch | src/FetchyeProvider.jsx:74-94 | the state becomes `reducer(state, action)` and is copied into the state cell; if it changed there is exactly one broadcast, judged against `getCacheByKey(reducer(old, action), key)` per consumer; if not, nothing is broadcast |
| Provider.FetchyeProvider.Mount | src/FetchyeProvider.jsx:51-62 | a new consumer caches `getCacheByKey(current, key)` with render counter zero, and one fresh callback for the key joins the subscribers |
| Provider.FetchyeProvider.Rerender | src/FetchyeProvider.jsx:52-64 | returns the cached value; with the same key nothing else changes; with a new key the old callback is unsubscribed before a fresh one for the new key is subscribed, and the cached value is not recomputed |
| Provider.FetchyeProvider.Unmount | src/FetchyeProvider.jsx:53-63 | the effect cleanup unsubscribes the consumer's callback, so no subscribed callback belongs to it afterwards; unmounting again changes nothing |
| Provider.FetchyeProvider.RerenderReprojecting | src/FetchyeProvider.jsx:52-64 | the corrected key switch: like `Rerender`, but with a new key the cached value and the returned value become the projection of the current state cell for the new key |
| Provider.FetchyeProvider.InSyncIsolation | src/FetchyeProvider.jsx:54-61 | a consumer whose cached value is its key's projection of the current state is untouched by a broadcast of any state with the same projection for that key, when the checker judges that projection equal to itself |
| Scenario.StaleKeySwitchScenario | src/FetchyeProvider.jsx:52-63 | as written: after a switch from "a" to "b", a change to "a" alone makes the selector on "b" re-render a second time and cache the unchanged projection of "b" |
| Scenario.FreshKeySwitchScenario | src/FetchyeProvider.jsx:52-63 | with the corrected key switch, the same change to "a" leaves the selector on "b" at one render |
| Scenario.CommitScenario | src/FetchyeProvider.jsx:92-94 | a commit with no state change still broadcasts, and refreshes a stale value left by a key switch |

## Left out

- `RerenderShield`, `FetchyeContext.Provider`, JSX and PropTypes (src/FetchyeProvider.jsx:25-29, 96-115): they integrate with the UI tree and hold no checkable logic.
- The memoised configuration object (src/FetchyeProvider.jsx:79-90): its parts (dispatch, the cache, the selector hook) are modelled one by one; when React recomputes the object is not modelled.
- The defaults `cache = SimpleCache()`, `fetcher = defaultFetcher` and `fetchClient = fetch`: they come from code that is not part of this model, and fetching is network I/O. The cache adapter is a constructor parameter.
- The default `equalityChecker = defaultEqualityChecker`: the class is generic in the projection type, so the caller passes `Equality.DefaultEqualityChecker` when projections have the `{data, error, loading}` shape.
- React scheduling: several dispatches before one render give React one broadcast of the final state; the model broadcasts after each dispatch. The first render and the first effect of a consumer happen together in `Mount`, so a broadcast between them is not modelled.
- Re-entrant changes to the subscriber set during `notify()`: `checkForUpdates` never changes the set, since `forceRender` only schedules a render, so `Notify` visiting a snapshot is exact for the code shown. Changes made by other code during a pass are not modelled.
- Exceptions thrown by the reducer, by `getCacheByKey` or by the equality checker, including the TypeError the default checker throws when a projection is `undefined` or `null`: they only propagate.
- `renders` counts `forceRender` calls, not the renders React actually performs after batching.
- JavaScript BigInt values and the distinction between +0 and -0 (which `===` ignores) are not represented.
- Equality.DefaultEqualityCheckerReflexive: holds only for entries without a NaN field, because `NaN === NaN` is false in JavaScript; an entry holding NaN re-renders its consumer on every broadcast.
- Provider.FetchyeProvider.Rerender: requires a mounted consumer, because React never re-renders an unmounted component.
- Provider.FetchyeProvider.RerenderReprojecting: requires a mounted consumer, for the same reason.
- When commits happen: a commit caused by the parent is an explicit `Commit` call, and the model does not decide when React performs one.
- `Object.is` on states and keys: it is `==` on the type parameters, so reference identity is captured only when those values carry an identity (see above).
- Changing props: `cache` and `equalityChecker` are fixed for the provider's lifetime. When they change, React recomputes the configuration, and a subscription made before the change keeps calling the `getCacheByKey` and `equalityChecker` it captured. Neither is modelled.

## Findings

| source | as written | input that shows it | evidently intended | confidence | as-written member | corrected member |
|---|---|---|---|---|---|---|
| src/FetchyeProvider.jsx:52 | on a key change `selectorValue` keeps the value projected for the old key, and the next broadcast compares that value with the new key's projection | mount on "a", dispatch a request for "a", re-render with key "b", dispatch a resolve of "a": the selector on "b" re-renders although "b"'s projection never changed | the cached value is re-projected for the new key at the switch, so a change to a key the selector has left never makes it re-render | not executed; medium | Scenario.StaleKeySwitchScenario | Provider.FetchyeProvider.RerenderReprojecting |
