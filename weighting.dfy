/** The check that the numeric values of a weighting object add up to a
    target, within ten machine epsilons. */
module Weighting {
  import opened Common

  /** `10 * Number.EPSILON`. */
  const TOLERANCE: real := 10.0 * EPSILON

  /** The numeric entries of a weighting object. */
  function NumericPart<K(!new)>(weights: map<K, Entry>): (r: map<K, real>)
    ensures forall k :: k in r <==> k in weights && weights[k].Num?
    ensures forall k :: k in r ==> r[k] == weights[k].x
  {
    map k | k in weights && weights[k].Num? :: weights[k].x
  }

  /** The sum of the numeric values of a weighting object. */
  ghost function NumericSum<K(!new)>(weights: map<K, Entry>): real
  {
    MapSum(NumericPart(weights))
  }

  /** Whether the numeric values of `weights` sum to `target`. */
  ghost predicate SumsTo<K(!new)>(weights: map<K, Entry>, target: real)
  {
    Abs(NumericSum(weights) - target) < TOLERANCE
  }

  /** Visits the keys in any order, adds up the numeric values and skips the
      others; the answer is the same whatever the visit order. */
  method CheckWeightingObject<K(!new)>(weights: map<K, Entry>, target: real := 100.0) returns (ok: bool)
    ensures ok <==> SumsTo(weights, target)
  {
    ghost var numeric := NumericPart(weights);
    var sum := 0.0;
    var remaining := weights.Keys;
    ghost var done: set<K> := {};
    while remaining != {}
      invariant remaining <= weights.Keys
      invariant done == weights.Keys - remaining
      invariant sum == SumOver(numeric, done * numeric.Keys)
      decreases remaining
    {
      var key :| key in remaining;
      if weights[key].Num? {
        SumOverStep(numeric, done * numeric.Keys, key);
        assert (done + {key}) * numeric.Keys == done * numeric.Keys + {key};
        sum := sum + weights[key].x;
      } else {
        assert (done + {key}) * numeric.Keys == done * numeric.Keys;
      }
      remaining := remaining - {key};
      done := done + {key};
    }
    assert done * numeric.Keys == numeric.Keys;
    ok := Abs(sum - target) < TOLERANCE;
  }

  /** Replacing an entry by `null` or `undefined` has the same effect on the
      sum as removing it: entries whose `typeof` is not "number" are
      skipped. */
  lemma NonNumericSkipped<K(!new)>(weights: map<K, Entry>, key: K, e: Entry)
    requires !e.Num?
    ensures NumericSum(weights[key := e]) == NumericSum(weights - {key})
  {
    assert NumericPart(weights[key := e]) == NumericPart(weights - {key});
  }

  /** A numeric entry contributes its value to the sum, whatever the other
      entries are. */
  lemma {:induction false} NumericEntryAdds<K(!new)>(weights: map<K, Entry>, key: K, v: real)
    requires key !in weights
    ensures NumericSum(weights[key := Num(v)]) == NumericSum(weights) + v
  {
    var before, after := NumericPart(weights), NumericPart(weights[key := Num(v)]);
    SumOverPick(after, after.Keys, key);
    assert after.Keys - {key} == before.Keys;
    SumOverAgree(after, before, before.Keys);
  }

  /** An object with no entries passes exactly when the target itself is
      within the tolerance of zero. */
  lemma EmptyObject<K(!new)>(target: real)
    ensures var empty: map<K, Entry> := map[]; SumsTo(empty, target) <==> Abs(target) < TOLERANCE
  {
    var empty: map<K, Entry> := map[];
    assert NumericPart(empty) == map[];
  }
}
