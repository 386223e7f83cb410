/** The broadcast notifier `useSubscription`: a JavaScript `Set` of callbacks, kept as a
    duplicate-free sequence in insertion order (the order `Set.forEach` visits). */
module Subscription {

  predicate Distinct<T(==)>(s: seq<T>) {
    forall i, j :: 0 <= i < j < |s| ==> s[i] != s[j]
  }

  /** `Set.prototype.add`: appends `x` unless it is already there. */
  function Add<T(==)>(s: seq<T>, x: T): (r: seq<T>)
    ensures x in r && |s| <= |r| && r[..|s|] == s
    ensures forall i :: 0 <= i < |r| ==> r[i] in s || r[i] == x
    ensures Distinct(s) ==> Distinct(r)
  {
    if x in s then s else s + [x]
  }

  /** `Set.prototype.delete`: drops `x` and keeps the others in their order. */
  function Remove<T(==)>(s: seq<T>, x: T): (r: seq<T>)
    ensures x !in r
    ensures forall i :: 0 <= i < |r| ==> r[i] in s
    ensures forall i :: 0 <= i < |s| && s[i] != x ==> s[i] in r
    ensures |r| <= |s|
    ensures Distinct(s) ==> Distinct(r)
  {
    if s == [] then []
    else if s[0] == x then Remove(s[1..], x)
    else [s[0]] + Remove(s[1..], x)
  }

  /** Deleting a callback that is not registered is a no-op. */
  lemma {:induction false} RemoveAbsent<T>(s: seq<T>, x: T)
    requires x !in s
    ensures Remove(s, x) == s
  {
    if s != [] {
      RemoveAbsent(s[1..], x);
    }
  }

  lemma DistinctTail<T>(s: seq<T>)
    requires Distinct(s) && s != []
    ensures Distinct(s[1..]) && s[0] !in s[1..]
  {
    var t := s[1..];
    forall i, j | 0 <= i < j < |t| ensures t[i] != t[j] {
      assert t[i] == s[i + 1] && t[j] == s[j + 1];
    }
  }

  /** In a duplicate-free sequence, deleting the member at index `k` gives the members
      before `k` followed by the members after `k`, all in their old order. */
  lemma {:induction false} RemoveAt<T>(s: seq<T>, k: nat)
    requires Distinct(s) && k < |s|
    ensures Remove(s, s[k]) == s[..k] + s[k + 1..]
  {
    DistinctTail(s);
    var t := s[1..];
    if k == 0 {
      RemoveAbsent(t, s[0]);
    } else {
      assert t[k - 1] == s[k];
      RemoveAt(t, k - 1);
      assert s[..k] == [s[0]] + t[..k - 1];
      assert s[k + 1..] == t[k..];
    }
  }

  /** Unsubscribing twice is the same as unsubscribing once. */
  lemma RemoveIdempotent<T>(s: seq<T>, x: T)
    ensures Remove(Remove(s, x), x) == Remove(s, x)
  {
    RemoveAbsent(Remove(s, x), x);
  }

  lemma {:induction false} RemoveAppend<T>(s: seq<T>, t: seq<T>, x: T)
    ensures Remove(s + t, x) == Remove(s, x) + Remove(t, x)
  {
    if s == [] {
      assert s + t == t;
    } else {
      assert (s + t)[1..] == s[1..] + t;
      RemoveAppend(s[1..], t, x);
    }
  }

  /** Subscribing a new callback and then calling the returned unsubscribe restores the
      registrations exactly, order included. */
  lemma SubscribeThenUnsubscribe<T>(s: seq<T>, x: T)
    requires x !in s
    ensures Remove(Add(s, x), x) == s
  {
    RemoveAppend(s, [x], x);
    RemoveAbsent(s, x);
    assert Remove([x], x) == [];
  }

  /** Unsubscribing one callback leaves the relative order of all others in place:
      removals of different callbacks commute. */
  lemma {:induction false} RemoveCommutes<T>(s: seq<T>, x: T, y: T)
    ensures Remove(Remove(s, x), y) == Remove(Remove(s, y), x)
  {
    if s != [] {
      RemoveCommutes(s[1..], x, y);
    }
  }

  /** The subscriber set behind `subscribers.current`. */
  class Subscribers<C(==)> {
    var members: seq<C>

    ghost predicate Valid()
      reads this
    {
      Distinct(members)
    }

    /** `useRef(new Set())` */
    constructor ()
      ensures Valid() && members == []
    {
      members := [];
    }

    /** `subscribe(callback)`: registers `callback`; a callback already registered stays
        registered once, in its old place. */
    method Subscribe(callback: C)
      requires Valid()
      modifies this
      ensures Valid()
      ensures members == Add(old(members), callback)
    {
      if callback !in members {
        members := members + [callback];
      }
    }

    /** The unsubscribe closure that `subscribe` returns: deletes exactly `callback`. */
    method Unsubscribe(callback: C)
      requires Valid()
      modifies this
      ensures Valid()
      ensures members == Remove(old(members), callback)
    {
      members := Remove(members, callback);
    }
  }
}
