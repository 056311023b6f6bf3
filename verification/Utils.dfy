/** Iteration over the keys of a map in a fixed order. */
module Utils {
  import opened GoTypes

  /** less is the order of an ordered type. */
  ghost predicate IsOrder<K(!new)>(less: (K, K) -> bool) {
    && (forall a :: !less(a, a))
    && (forall a, b, c :: less(a, b) && less(b, c) ==> less(a, c))
    && (forall a, b :: less(a, b) || a == b || less(b, a))
  }

  predicate Increasing<K>(keys: seq<K>, less: (K, K) -> bool) {
    forall i, j | 0 <= i < j < |keys| :: less(keys[i], keys[j])
  }

  function InsertKey<K(==)>(keys: seq<K>, k: K, less: (K, K) -> bool): (r: seq<K>) {
    if keys == [] || less(k, keys[0]) then [k] + keys else [keys[0]] + InsertKey(keys[1..], k, less)
  }

  lemma {:induction false} InsertKeyIncreasing<K(!new)>(keys: seq<K>, k: K, less: (K, K) -> bool)
    requires IsOrder(less) && Increasing(keys, less) && k !in keys
    ensures Increasing(InsertKey(keys, k, less), less)
    ensures forall x :: x in InsertKey(keys, k, less) <==> x == k || x in keys
  {
    if keys == [] || less(k, keys[0]) {
    } else {
      InsertKeyIncreasing(keys[1..], k, less);
      var tail := InsertKey(keys[1..], k, less);
      assert keys == [keys[0]] + keys[1..];
      forall j | 0 <= j < |tail| ensures less(keys[0], tail[j]) {
        assert tail[j] in tail;
        if tail[j] in keys[1..] {
          var i :| 0 <= i < |keys| - 1 && keys[1..][i] == tail[j];
        } else {
          assert keys[0] in keys;
        }
      }
    }
  }

  /** The keys in increasing order. */
  method DeterministicKeys<K(==, !new), V>(m: map<K, V>, less: (K, K) -> bool) returns (keys: seq<K>)
    requires IsOrder(less)
    ensures Increasing(keys, less)
    ensures forall k :: k in keys <==> k in m
  {
    keys := [];
    var rest := m.Keys;
    while rest != {}
      invariant Increasing(keys, less)
      invariant forall k :: k in keys <==> k in m.Keys && k !in rest
      decreases rest
    {
      var k := AnyKey(rest);
      InsertKeyIncreasing(keys, k, less);
      keys := InsertKey(keys, k, less);
      rest := rest - {k};
    }
  }

  /** The keys visited when one more is. */
  lemma {:induction false} NextKey<K(!new)>(keys: seq<K>, less: (K, K) -> bool, i: nat)
    requires IsOrder(less) && Increasing(keys, less) && i < |keys|
    ensures keys[i] !in keys[..i]
    ensures forall k :: k in keys[..i + 1] <==> k in keys[..i] || k == keys[i]
  {
    assert keys[..i + 1] == keys[..i] + [keys[i]];
  }

  /** The order of the keys is all that is left open by their set: there is only one result. */
  lemma {:induction false} OneEnumeration<K(!new)>(a: seq<K>, b: seq<K>, less: (K, K) -> bool)
    requires IsOrder(less) && Increasing(a, less) && Increasing(b, less)
    requires forall k :: k in a <==> k in b
    ensures a == b
  {
    assert a != [] ==> a[0] in a && a[0] in b;
    assert b != [] ==> b[0] in b && b[0] in a;
    if a == [] {
    } else {
      var i :| 0 <= i < |b| && b[i] == a[0];
      var j :| 0 <= j < |a| && a[j] == b[0];
      assert a[0] == b[0];
      forall k ensures k in a[1..] <==> k in b[1..] {
        Tail(a, less, k);
        Tail(b, less, k);
      }
      OneEnumeration(a[1..], b[1..], less);
      assert a == [a[0]] + a[1..] && b == [b[0]] + b[1..];
    }
  }

  lemma {:induction false} Tail<K(!new)>(keys: seq<K>, less: (K, K) -> bool, k: K)
    requires IsOrder(less) && Increasing(keys, less) && keys != []
    ensures k in keys[1..] <==> k in keys && k != keys[0]
  {
    if k in keys && k != keys[0] {
      var i :| 0 <= i < |keys| && keys[i] == k;
      assert keys[1..][i - 1] == k;
    }
    if k in keys[1..] {
      var i :| 0 <= i < |keys| - 1 && keys[1..][i] == k;
      assert keys[i + 1] == k;
    }
  }
}
