// Sums of an integer weight over a finite set, as SQL aggregates compute them.
module Sums {

  ghost function Sum<K>(keys: set<K>, weight: K -> int): int
  {
    if keys == {} then 0
    else
      var k :| k in keys;
      weight(k) + Sum(keys - {k}, weight)
  }

  // The order in which the keys are picked does not matter.
  lemma {:induction false} SumRemove<K>(keys: set<K>, weight: K -> int, k: K)
    requires k in keys
    ensures Sum(keys, weight) == weight(k) + Sum(keys - {k}, weight)
    decreases keys
  {
    var picked :| picked in keys && Sum(keys, weight) == weight(picked) + Sum(keys - {picked}, weight);
    if picked != k {
      SumRemove(keys - {picked}, weight, k);
      SumRemove(keys - {k}, weight, picked);
      assert keys - {picked} - {k} == keys - {k} - {picked};
    }
  }

  lemma {:induction false} SumCongruence<K>(keys: set<K>, left: K -> int, right: K -> int)
    requires forall k :: k in keys ==> left(k) == right(k)
    ensures Sum(keys, left) == Sum(keys, right)
    decreases keys
  {
    if keys != {} {
      var k :| k in keys;
      SumRemove(keys, left, k);
      SumRemove(keys, right, k);
      SumCongruence(keys - {k}, left, right);
    }
  }

  // Changing the weight of one key changes the sum by the same amount.
  lemma SumUpdate<K>(keys: set<K>, left: K -> int, right: K -> int, k: K)
    requires k in keys
    requires forall other :: other in keys && other != k ==> left(other) == right(other)
    ensures Sum(keys, right) == Sum(keys, left) - left(k) + right(k)
  {
    SumRemove(keys, left, k);
    SumRemove(keys, right, k);
    SumCongruence(keys - {k}, left, right);
  }

  // A key that was not there adds its own weight.
  lemma SumInsert<K>(keys: set<K>, left: K -> int, right: K -> int, k: K)
    requires k !in keys
    requires forall other :: other in keys ==> left(other) == right(other)
    ensures Sum(keys + {k}, right) == Sum(keys, left) + right(k)
  {
    SumRemove(keys + {k}, right, k);
    assert keys + {k} - {k} == keys;
    SumCongruence(keys, left, right);
  }

  lemma {:induction false} SumNonNegative<K>(keys: set<K>, weight: K -> int)
    requires forall k :: k in keys ==> weight(k) >= 0
    ensures Sum(keys, weight) >= 0
    decreases keys
  {
    if keys != {} {
      var k :| k in keys;
      SumRemove(keys, weight, k);
      SumNonNegative(keys - {k}, weight);
    }
  }
}
