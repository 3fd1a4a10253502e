/** Shared vocabulary of the Bladeburner model: error wrappers, the seven stat
    keys, map entries that may be non-numeric, real-number rounding as the
    JavaScript Math functions do it, and an order-free sum over a map. */
module Common {

  datatype Option<+T> = None | Some(value: T)

  datatype Result<+T, +E> = Ok(value: T) | Err(error: E)

  /** The seven stat keys of an `IStatMap` ("hack", "str", "def", "dex",
      "agi", "cha", "int"). */
  datatype Stat = Hack | Str | Def | Dex | Agi | Cha | Int

  /** A value stored under a key of an `IStatMap<number>` object: a number,
      `null`, or `undefined` (what reading a missing key also gives). */
  datatype Entry = Num(x: real) | Null | Undefined

  /** The number JavaScript arithmetic reads from an entry: `null` counts as
      0 (so `null * x` is 0 and `Math.pow(x, null)` is `Math.pow(x, 0)`);
      `undefined` reads as NaN and has no value here. */
  function Arith(e: Entry): real
    requires !e.Undefined?
  {
    if e.Num? then e.x else 0.0
  }

  /** `Number.EPSILON`, the gap between 1 and the next double, 2^-52. */
  const EPSILON: real := 1.0 / 4503599627370496.0

  function Min(a: real, b: real): real { if a <= b then a else b }

  function Max(a: real, b: real): real { if a >= b then a else b }

  function Abs(x: real): real { if x >= 0.0 then x else -x }

  /** `Math.floor`. */
  function Floor(x: real): (r: int)
    ensures r as real <= x < r as real + 1.0
  {
    x.Floor
  }

  /** `Math.floor(a * b)`, kept apart so that the solver treats the product as
      one term. */
  function FloorOfProduct(a: real, b: real): (r: int)
    ensures r as real <= a * b < r as real + 1.0
  {
    (a * b).Floor
  }

  /** `Math.ceil`. */
  function Ceil(x: real): (r: int)
    ensures r as real - 1.0 < x <= r as real
  {
    -((-x).Floor)
  }

  /** `Math.round`: the nearest integer, halves rounded towards +infinity. */
  function Round(x: real): (r: int)
    ensures x - 0.5 < r as real <= x + 0.5
  {
    (x + 0.5).Floor
  }

  lemma FloorMonotonic(x: real, y: real)
    requires x <= y
    ensures Floor(x) <= Floor(y)
  {
  }

  lemma CeilMonotonic(x: real, y: real)
    requires x <= y
    ensures Ceil(x) <= Ceil(y)
  {
  }

  /** Sum of the values that `m` holds under the keys `ks`, taking the keys in
      an arbitrary order. */
  ghost function SumOver<K>(m: map<K, real>, ks: set<K>): real
    requires ks <= m.Keys
    decreases ks
  {
    if ks == {} then 0.0
    else
      var k :| k in ks;
      m[k] + SumOver(m, ks - {k})
  }

  /** Sum of all values of a map. */
  ghost function MapSum<K>(m: map<K, real>): real
  {
    SumOver(m, m.Keys)
  }

  /** Whichever key is taken first, the sum is the same: the sum does not
      depend on the order in which keys are visited. */
  lemma {:induction false} SumOverPick<K>(m: map<K, real>, ks: set<K>, k: K)
    requires ks <= m.Keys && k in ks
    ensures SumOver(m, ks) == m[k] + SumOver(m, ks - {k})
    decreases ks
  {
    var j :| j in ks && SumOver(m, ks) == m[j] + SumOver(m, ks - {j});
    if j != k {
      SumOverPick(m, ks - {j}, k);
      SumOverPick(m, ks - {k}, j);
      assert ks - {j} - {k} == ks - {k} - {j};
    }
  }

  /** The sum over `n` keys that all hold `c` is `n * c`. */
  lemma {:induction false} SumOverConstant<K>(m: map<K, real>, ks: set<K>, c: real)
    requires ks <= m.Keys
    requires forall k :: k in ks ==> m[k] == c
    ensures SumOver(m, ks) == |ks| as real * c
    decreases ks
  {
    if ks != {} {
      var k :| k in ks;
      SumOverPick(m, ks, k);
      SumOverConstant(m, ks - {k}, c);
    }
  }

  /** Adding one key to the visited set adds its value to the running sum:
      the step of every for-in summing loop of the model. */
  lemma SumOverStep<K>(m: map<K, real>, done: set<K>, k: K)
    requires done <= m.Keys && k in m && k !in done
    ensures SumOver(m, done + {k}) == SumOver(m, done) + m[k]
  {
    SumOverPick(m, done + {k}, k);
    assert done + {k} - {k} == done;
  }

  /** The sum over `ks` only reads the values under `ks`. */
  lemma {:induction false} SumOverAgree<K>(m1: map<K, real>, m2: map<K, real>, ks: set<K>)
    requires ks <= m1.Keys && ks <= m2.Keys
    requires forall k :: k in ks ==> m1[k] == m2[k]
    ensures SumOver(m1, ks) == SumOver(m2, ks)
    decreases ks
  {
    if ks != {} {
      var k :| k in ks;
      SumOverPick(m1, ks, k);
      SumOverPick(m2, ks, k);
      SumOverAgree(m1, m2, ks - {k});
    }
  }
}
