/** Filling a `defaultdict(list)` from a sequence of (key, value) pairs, as the video
    synthesis scripts do with shots per scene: the keys in the dict's iteration order
    (first appearance) and the list filed under each key. */
module Grouping {
  /** The distinct keys of `pairs` in order of first appearance. */
  function KeyOrder<K(==), V>(pairs: seq<(K, V)>): seq<K>
    decreases |pairs|
  {
    if pairs == [] then []
    else
      var keys := KeyOrder(pairs[..|pairs| - 1]);
      var k := pairs[|pairs| - 1].0;
      if k in keys then keys else keys + [k]
  }

  /** The values appended under `k`, in order. */
  function Group<K(==), V>(pairs: seq<(K, V)>, k: K): seq<V>
    decreases |pairs|
  {
    if pairs == [] then []
    else
      var last := pairs[|pairs| - 1];
      Group(pairs[..|pairs| - 1], k) + (if last.0 == k then [last.1] else [])
  }

  /** The loop `for k, v in pairs: groups[k].append(v)`, with the dict's keys kept in
      insertion order beside it. */
  method GroupByKey<K(==), V>(pairs: seq<(K, V)>) returns (keys: seq<K>, groups: map<K, seq<V>>)
    ensures keys == KeyOrder(pairs)
    ensures forall k :: k in groups <==> k in keys
    ensures forall k | k in groups :: groups[k] == Group(pairs, k)
  {
    keys := [];
    groups := map[];
    var i := 0;
    while i < |pairs|
      invariant 0 <= i <= |pairs|
      invariant keys == KeyOrder(pairs[..i])
      invariant forall k :: k in groups <==> k in keys
      invariant forall k | k in groups :: groups[k] == Group(pairs[..i], k)
    {
      var (k, v) := pairs[i];
      assert pairs[..i + 1][..i] == pairs[..i];
      if k !in keys {
        UnlistedGroupEmpty(pairs[..i], k);
      }
      if k in groups {
        groups := groups[k := groups[k] + [v]];
      } else {
        keys := keys + [k];
        groups := groups[k := [v]];
      }
      i := i + 1;
    }
    assert pairs[..i] == pairs;
  }

  /** A key is listed exactly when some pair carries it. */
  lemma {:induction false} KeyOrderComplete<K, V>(pairs: seq<(K, V)>, k: K)
    ensures k in KeyOrder(pairs) <==> exists i :: 0 <= i < |pairs| && pairs[i].0 == k
    decreases |pairs|
  {
    if pairs != [] {
      var init := pairs[..|pairs| - 1];
      KeyOrderComplete(init, k);
      if k in KeyOrder(init) {
        var i :| 0 <= i < |init| && init[i].0 == k;
        assert pairs[i] == init[i];
      }
      if exists i :: 0 <= i < |pairs| && pairs[i].0 == k {
        var i :| 0 <= i < |pairs| && pairs[i].0 == k;
        if i < |init| {
          assert init[i] == pairs[i];
        }
      }
    }
  }

  /** No key is listed twice, so every key's group is visited once. */
  lemma {:induction false} KeyOrderDistinct<K, V>(pairs: seq<(K, V)>)
    ensures forall i, j | 0 <= i < j < |KeyOrder(pairs)| :: KeyOrder(pairs)[i] != KeyOrder(pairs)[j]
    decreases |pairs|
  {
    if pairs != [] {
      KeyOrderDistinct(pairs[..|pairs| - 1]);
    }
  }

  /** Filing `a` and then `b` puts `a`'s values for a key before `b`'s: appearance order is
      kept within each group. */
  lemma {:induction false} GroupAppend<K, V>(a: seq<(K, V)>, b: seq<(K, V)>, k: K)
    ensures Group(a + b, k) == Group(a, k) + Group(b, k)
    decreases |b|
  {
    if b == [] {
      assert a + b == a;
    } else {
      var b' := b[..|b| - 1];
      assert (a + b)[..|a + b| - 1] == a + b';
      GroupAppend(a, b', k);
    }
  }

  /** A group holds exactly the values of the pairs with its key. */
  lemma {:induction false} GroupMembers<K, V>(pairs: seq<(K, V)>, k: K, v: V)
    ensures v in Group(pairs, k) <==> (k, v) in pairs
    decreases |pairs|
  {
    if pairs != [] {
      var init := pairs[..|pairs| - 1];
      GroupMembers(init, k, v);
      assert pairs == init + [pairs[|pairs| - 1]];
    }
  }

  /** Every group of a listed key holds at least one value. */
  lemma {:induction false} ListedGroupNonEmpty<K, V>(pairs: seq<(K, V)>, k: K)
    requires k in KeyOrder(pairs)
    ensures Group(pairs, k) != []
    decreases |pairs|
  {
    var init := pairs[..|pairs| - 1];
    if k in KeyOrder(init) {
      ListedGroupNonEmpty(init, k);
    }
  }

  /** A key that is not listed has an empty group. */
  lemma {:induction false} UnlistedGroupEmpty<K, V>(pairs: seq<(K, V)>, k: K)
    requires k !in KeyOrder(pairs)
    ensures Group(pairs, k) == []
    decreases |pairs|
  {
    if pairs != [] {
      UnlistedGroupEmpty(pairs[..|pairs| - 1], k);
    }
  }
}
