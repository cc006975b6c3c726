/** Sums over finite maps, used for held stock and for the progress measure. */
module Sums {
  ghost function Sum<K>(m: map<K, int>): int {
    SumOver(m.Keys, m)
  }

  ghost function SumOver<K>(keys: set<K>, m: map<K, int>): int
    requires keys <= m.Keys
    decreases keys
  {
    if keys == {} then 0
    else
      var k :| k in keys;
      m[k] + SumOver(keys - {k}, m)
  }

  /** Any key may be split off first. */
  lemma {:induction false} SumSplit<K>(keys: set<K>, m: map<K, int>, k: K)
    requires keys <= m.Keys && k in keys
    ensures SumOver(keys, m) == m[k] + SumOver(keys - {k}, m)
    decreases keys
  {
    var p :| p in keys && SumOver(keys, m) == m[p] + SumOver(keys - {p}, m);
    if p != k {
      SumSplit(keys - {p}, m, k);
      SumSplit(keys - {k}, m, p);
      assert keys - {p} - {k} == keys - {k} - {p};
    }
  }

  lemma {:induction false} SumAgree<K>(keys: set<K>, m: map<K, int>, m': map<K, int>)
    requires keys <= m.Keys && keys <= m'.Keys
    requires forall k :: k in keys ==> m[k] == m'[k]
    ensures SumOver(keys, m) == SumOver(keys, m')
    decreases keys
  {
    if keys != {} {
      var k :| k in keys;
      SumSplit(keys, m, k);
      SumSplit(keys, m', k);
      SumAgree(keys - {k}, m, m');
    }
  }

  lemma SumUpdate<K>(m: map<K, int>, k: K, v: int)
    ensures Sum(m[k := v]) == Sum(m) + v - (if k in m then m[k] else 0)
  {
    var m' := m[k := v];
    SumSplit(m'.Keys, m', k);
    SumAgree(m'.Keys - {k}, m', m'- {k});
    SumRemove(m, k);
    assert m'.Keys - {k} == (m - {k}).Keys;
    assert m' - {k} == m - {k};
  }

  lemma SumRemove<K>(m: map<K, int>, k: K)
    ensures Sum(m - {k}) == Sum(m) - (if k in m then m[k] else 0)
  {
    var m' := m - {k};
    assert m'.Keys == m.Keys - {k};
    SumAgree(m'.Keys, m', m);
    if k in m {
      SumSplit(m.Keys, m, k);
    } else {
      assert m'.Keys == m.Keys;
    }
  }

  /** Dropping keys with non-negative values cannot raise the sum. */
  lemma {:induction false} SumRestrict<K>(keys: set<K>, keep: set<K>, m: map<K, int>)
    requires keep <= keys <= m.Keys
    requires forall k :: k in keys ==> m[k] >= 0
    ensures 0 <= SumOver(keep, m) <= SumOver(keys, m)
    decreases keys
  {
    if keys != {} {
      var p :| p in keys;
      SumSplit(keys, m, p);
      SumRestrict(keys - {p}, keep - {p}, m);
      if p in keep {
        SumSplit(keep, m, p);
      } else {
        assert keep - {p} == keep;
      }
    }
  }

  lemma {:induction false} SumBelow<K>(keys: set<K>, m: map<K, int>, m': map<K, int>)
    requires keys <= m.Keys && keys <= m'.Keys
    requires forall k :: k in keys ==> m[k] <= m'[k]
    ensures SumOver(keys, m) <= SumOver(keys, m')
    decreases keys
  {
    if keys != {} {
      var k :| k in keys;
      SumSplit(keys, m, k);
      SumSplit(keys, m', k);
      SumBelow(keys - {k}, m, m');
    }
  }

  lemma {:induction false} SumNonNegative<K>(keys: set<K>, m: map<K, int>)
    requires keys <= m.Keys
    requires forall k :: k in keys ==> m[k] >= 0
    ensures SumOver(keys, m) >= 0
    decreases keys
  {
    if keys != {} {
      var k :| k in keys;
      SumSplit(keys, m, k);
      SumNonNegative(keys - {k}, m);
    }
  }
}
