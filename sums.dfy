/** Finite sums over the records of a table, each record weighed by a function:
    the sum of all balances of one token, the sum of all deltas of one subject. */
module Sums {

  /** The weight of the record stored under k, or zero when there is none. */
  function Weight<V>(m: map<string, V>, k: string, w: V -> real): real {
    if k in m then w(m[k]) else 0.0
  }

  ghost function SumOver<V>(m: map<string, V>, keys: set<string>, w: V -> real): real
    decreases keys
  {
    if keys == {} then 0.0
    else
      var k :| k in keys;
      Weight(m, k, w) + SumOver(m, keys - {k}, w)
  }

  /** The sum of the weights of every record of the table. */
  ghost function Total<V>(m: map<string, V>, w: V -> real): real {
    SumOver(m, m.Keys, w)
  }

  /** Any key of the set can be taken out first. */
  lemma {:induction false} SumOverPick<V>(m: map<string, V>, keys: set<string>, w: V -> real, j: string)
    requires j in keys
    ensures SumOver(m, keys, w) == Weight(m, j, w) + SumOver(m, keys - {j}, w)
    decreases keys
  {
    var k :| k in keys && SumOver(m, keys, w) == Weight(m, k, w) + SumOver(m, keys - {k}, w);
    if k != j {
      SumOverPick(m, keys - {k}, w, j);
      SumOverPick(m, keys - {j}, w, k);
      assert keys - {k} - {j} == keys - {j} - {k};
    }
  }

  /** Sums agree when the weights agree key by key. */
  lemma {:induction false} SumOverAgree<V>(m1: map<string, V>, m2: map<string, V>, keys: set<string>, w: V -> real)
    requires forall k | k in keys :: Weight(m1, k, w) == Weight(m2, k, w)
    ensures SumOver(m1, keys, w) == SumOver(m2, keys, w)
    decreases keys
  {
    if keys != {} {
      var k :| k in keys;
      SumOverPick(m1, keys, w, k);
      SumOverPick(m2, keys, w, k);
      SumOverAgree(m1, m2, keys - {k}, w);
    }
  }

  /** Keys outside the table weigh nothing, so summing over a larger key set
      gives the table's total. */
  lemma {:induction false} SumOverSuperset<V>(m: map<string, V>, keys: set<string>, w: V -> real)
    requires m.Keys <= keys
    ensures SumOver(m, keys, w) == Total(m, w)
    decreases keys
  {
    if keys - m.Keys != {} {
      var k :| k in keys - m.Keys;
      SumOverPick(m, keys, w, k);
      SumOverSuperset(m, keys - {k}, w);
    } else {
      forall x | x in keys ensures x in m.Keys {
        assert x !in keys - m.Keys;
      }
      assert keys == m.Keys;
    }
  }

  /** If two tables weigh the same everywhere except at d, their totals differ by
      the difference at d. */
  lemma TotalChange<V>(m1: map<string, V>, m2: map<string, V>, w: V -> real, d: string)
    requires forall k | k != d :: Weight(m1, k, w) == Weight(m2, k, w)
    ensures Total(m2, w) - Total(m1, w) == Weight(m2, d, w) - Weight(m1, d, w)
  {
    var keys := m1.Keys + m2.Keys + {d};
    SumOverSuperset(m1, keys, w);
    SumOverSuperset(m2, keys, w);
    SumOverPick(m1, keys, w, d);
    SumOverPick(m2, keys, w, d);
    SumOverAgree(m1, m2, keys - {d}, w);
  }

  /** Tables that weigh the same everywhere have the same total. */
  lemma TotalSame<V>(m1: map<string, V>, m2: map<string, V>, w: V -> real)
    requires forall k :: Weight(m1, k, w) == Weight(m2, k, w)
    ensures Total(m2, w) == Total(m1, w)
  {
    var keys := m1.Keys + m2.Keys;
    SumOverSuperset(m1, keys, w);
    SumOverSuperset(m2, keys, w);
    SumOverAgree(m1, m2, keys, w);
  }

  /** A table whose every record weighs nothing totals zero. */
  lemma {:induction false} SumOverZero<V>(m: map<string, V>, keys: set<string>, w: V -> real)
    requires forall k | k in keys :: Weight(m, k, w) == 0.0
    ensures SumOver(m, keys, w) == 0.0
    decreases keys
  {
    if keys != {} {
      var k :| k in keys;
      SumOverPick(m, keys, w, k);
      SumOverZero(m, keys - {k}, w);
    }
  }
}
