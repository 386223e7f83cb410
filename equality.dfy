/** The default equality checker of the provider, `defaultEqualityChecker`. */
module Equality {
  import opened JsValues

  /** The projection shape `{ data, error, loading }` that the default checker reads.
      A field the object lacks reads as `Undefined`. */
  datatype CacheEntry = CacheEntry(data: JsValue, error: JsValue, loading: JsValue)

  predicate HasNaN(e: CacheEntry) {
    IsNaN(e.data) || IsNaN(e.error) || IsNaN(e.loading)
  }

  /** `a.data === b.data && a.error === b.error && a.loading === b.loading`. Two entries
      are judged equal exactly when they are the same value (same primitives, same
      references) and none of their fields is NaN. */
  function DefaultEqualityChecker(a: CacheEntry, b: CacheEntry): (r: bool)
    ensures r <==> a == b && !HasNaN(a)
  {
    StrictEquals(a.data, b.data) && StrictEquals(a.error, b.error) && StrictEquals(a.loading, b.loading)
  }

  lemma DefaultEqualityCheckerSymmetric(a: CacheEntry, b: CacheEntry)
    ensures DefaultEqualityChecker(a, b) == DefaultEqualityChecker(b, a)
  {
  }

  /** Reflexive on every entry without a NaN field. */
  lemma DefaultEqualityCheckerReflexive(a: CacheEntry)
    requires !HasNaN(a)
    ensures DefaultEqualityChecker(a, a)
  {
  }

  /** An entry with a NaN field is unequal to itself, so a selector caching it sees a
      change on every broadcast. */
  lemma DefaultEqualityCheckerNaN(a: CacheEntry, b: CacheEntry)
    requires HasNaN(a) || HasNaN(b)
    ensures !DefaultEqualityChecker(a, b)
  {
  }

  lemma DefaultEqualityCheckerTransitive(a: CacheEntry, b: CacheEntry, c: CacheEntry)
    requires DefaultEqualityChecker(a, b) && DefaultEqualityChecker(b, c)
    ensures DefaultEqualityChecker(a, c)
  {
  }
}
