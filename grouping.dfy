/**
 * The two grouping shapes the analyses use: `value_counts` / `groupby().size()`
 * followed by a sort on the count, and `groupby(key)['price'].agg(['mean',
 * 'median', 'count'])`.
 */
module Grouping {
  import opened Wrappers
  import opened Sequences
  import opened Ordering
  import opened Stats
  import opened Flights

  datatype Counted<K> = Counted(key: K, count: nat)

  /** In a ranking by count, an entry past the first `n` has no larger count than any of them. */
  lemma RankedPrefixIsTop<K>(vc: seq<Counted<K>>, n: int, j: int)
    requires forall a, b :: 0 <= a < b < |vc| ==> vc[a].count >= vc[b].count
    requires 0 <= n <= j < |vc|
    ensures forall i :: 0 <= i < n ==> vc[j].count <= vc[i].count
  {
  }

  /** Larger count first; equal counts in ascending key order. */
  function ByCountDesc<K>(lt: (K, K) -> bool): (Counted<K>, Counted<K>) -> bool
  {
    (a: Counted<K>, b: Counted<K>) => a.count > b.count || (a.count == b.count && lt(a.key, b.key))
  }

  lemma ByCountDescIsStrictTotal<K(!new)>(lt: (K, K) -> bool)
    requires StrictTotalOrder(lt)
    ensures StrictTotalOrder(ByCountDesc(lt))
  {
    var o := ByCountDesc(lt);
    forall a: Counted<K>, b: Counted<K> | a != b ensures o(a, b) || o(b, a) {
      if a.count == b.count {
        assert a.key != b.key;
      }
    }
  }

  /**
   * Entries with distinct keys ranked by count, larger first, equal counts in
   * ascending key order (the tie-break this model fixes for `sort_values`).
   */
  function RankByCount<K(==,!new)>(entries: seq<Counted<K>>, lt: (K, K) -> bool): (r: seq<Counted<K>>)
    requires StrictTotalOrder(lt)
    requires forall i, j :: 0 <= i < j < |entries| ==> entries[i].key != entries[j].key
    ensures |r| == |entries|
    ensures forall c :: c in r <==> c in entries
    ensures forall i, j :: 0 <= i < j < |r| ==> r[i].count >= r[j].count && r[i].key != r[j].key
    ensures forall i, j :: 0 <= i < j < |r| && r[i].count == r[j].count ==> lt(r[i].key, r[j].key)
  {
    ByCountDescIsStrictTotal(lt);
    var r := SortedDistinct(entries, ByCountDesc(lt));
    SortedDistinctLength(entries, ByCountDesc(lt));
    StrictlySortedDistinct(r, ByCountDesc(lt));
    forall i, j | 0 <= i < j < |r| ensures r[i].count >= r[j].count && r[i].key != r[j].key {
      assert ByCountDesc(lt)(r[i], r[j]);
      assert r[i].count > r[j].count || (r[i].count == r[j].count && lt(r[i].key, r[j].key));
      assert r[i] in entries && r[j] in entries;
      var a :| 0 <= a < |entries| && entries[a] == r[i];
      var b :| 0 <= b < |entries| && entries[b] == r[j];
      assert a != b;
    }
    r
  }

  /** Sorting distinct elements keeps all of them. */
  lemma SortedDistinctLength<K(!new)>(keys: seq<K>, lt: (K, K) -> bool)
    requires StrictTotalOrder(lt)
    requires forall i, j :: 0 <= i < j < |keys| ==> keys[i] != keys[j]
    ensures |SortedDistinct(keys, lt)| == |keys|
  {
    var r := SortedDistinct(keys, lt);
    StrictlySortedDistinct(r, lt);
    DistinctCardinality(keys);
    DistinctCardinality(r);
    var a := set i | 0 <= i < |keys| :: keys[i];
    var b := set i | 0 <= i < |r| :: r[i];
    assert a <= b by {
      forall k | k in a ensures k in b {
        var i :| 0 <= i < |keys| && keys[i] == k;
        assert k in keys;
      }
    }
    assert b <= a by {
      forall k | k in b ensures k in a {
        var i :| 0 <= i < |r| && r[i] == k;
        assert k in r;
      }
    }
    assert a == b;
  }

  /**
   * `value_counts()` of a column: each distinct value once with its number of
   * occurrences, most frequent first.
   */
  function ValueCounts<K(==,!new)>(keys: seq<K>, lt: (K, K) -> bool): (r: seq<Counted<K>>)
    requires StrictTotalOrder(lt)
    ensures forall i, j :: 0 <= i < j < |r| ==> r[i].count >= r[j].count && r[i].key != r[j].key
    ensures forall i, j :: 0 <= i < j < |r| && r[i].count == r[j].count ==> lt(r[i].key, r[j].key)
    ensures forall i :: 0 <= i < |r| ==> r[i].key in keys && r[i].count == multiset(keys)[r[i].key]
    ensures forall k :: k in keys ==> Counted(k, multiset(keys)[k]) in r
    ensures |r| <= |keys|
  {
    var counted := CountEach(keys, lt);
    var r := RankByCount(counted, lt);
    assert forall i :: 0 <= i < |r| ==> r[i].key in keys && r[i].count == multiset(keys)[r[i].key] by {
      forall i | 0 <= i < |r| ensures r[i].key in keys && r[i].count == multiset(keys)[r[i].key] {
        assert r[i] in counted;
      }
    }
    r
  }

  /** Each distinct value of `keys` once, paired with its number of occurrences. */
  function CountEach<K(==,!new)>(keys: seq<K>, lt: (K, K) -> bool): (c: seq<Counted<K>>)
    requires StrictTotalOrder(lt)
    ensures |c| <= |keys|
    ensures forall i, j :: 0 <= i < j < |c| ==> c[i].key != c[j].key
    ensures forall i :: 0 <= i < |c| ==> c[i].key in keys && c[i].count == multiset(keys)[c[i].key]
    ensures forall k :: k in keys ==> Counted(k, multiset(keys)[k]) in c
  {
    var distinct := SortedDistinct(keys, lt);
    StrictlySortedDistinct(distinct, lt);
    DistinctAtMost(distinct, keys);
    var c := MapSeq(distinct, k => Counted(k, multiset(keys)[k]));
    assert forall k :: k in keys ==> Counted(k, multiset(keys)[k]) in c by {
      forall k | k in keys ensures Counted(k, multiset(keys)[k]) in c {
        var i :| 0 <= i < |distinct| && distinct[i] == k;
        assert c[i] == Counted(k, multiset(keys)[k]);
      }
    }
    c
  }

  /**
   * `value_counts().idxmax()`: the most frequent value, the smallest one among
   * equally frequent values; None (pandas raises) on an empty column.
   */
  function MostFrequent<K(==,!new)>(keys: seq<K>, lt: (K, K) -> bool): (m: Option<K>)
    requires StrictTotalOrder(lt)
    ensures m.Some? <==> keys != []
    ensures m.Some? ==> m.value in keys
    ensures m.Some? ==> forall k :: k in keys ==> multiset(keys)[k] <= multiset(keys)[m.value]
    ensures m.Some? ==> forall k :: k in keys && k != m.value && multiset(keys)[k] == multiset(keys)[m.value]
                                    ==> lt(m.value, k)
  {
    var vc := ValueCounts(keys, lt);
    if keys == [] then None
    else
      assert Counted(keys[0], multiset(keys)[keys[0]]) in vc;
      forall k | k in keys
        ensures multiset(keys)[k] <= vc[0].count
        ensures k != vc[0].key && multiset(keys)[k] == vc[0].count ==> lt(vc[0].key, k)
      {
        var j :| 0 <= j < |vc| && vc[j] == Counted(k, multiset(keys)[k]);
      }
      Some(vc[0].key)
  }

  /** `groupby(key)['price'].agg(['mean', 'median', 'count'])` row of one group. */
  datatype PriceGroup<K> = PriceGroup(key: K, avgPrice: Num, medianPrice: Num, flightCount: nat)

  function AggregatePrices<K(==)>(rows: seq<Row>, key: Row -> K, k: K): (g: PriceGroup<K>)
    ensures g.key == k
    ensures g.flightCount == |PricesOf(GroupRows(rows, key, k))| <= |GroupRows(rows, key, k)|
    ensures g.avgPrice.Real? <==> g.flightCount > 0
    ensures g.medianPrice.Real? <==> g.flightCount > 0
    ensures g.flightCount > 0 ==>
              var ps := PricesOf(GroupRows(rows, key, k));
              && MinOf(ps) <= g.avgPrice.r <= MaxOf(ps)
              && MinOf(ps) <= g.medianPrice.r <= MaxOf(ps)
  {
    var ps := PricesOf(GroupRows(rows, key, k));
    var g := PriceGroup(k, Mean(ps), Median(ps), |ps|);
    if ps == [] then g
    else
      MeanBounds(ps);
      MedianIsHalfQuantile(ps);
      g
  }

  /**
   * One aggregate per distinct key, in ascending key order: the mean, median
   * and number of the non-missing prices of the group.
   */
  function GroupPrices<K(==,!new)>(rows: seq<Row>, key: Row -> K, lt: (K, K) -> bool): (r: seq<PriceGroup<K>>)
    requires StrictTotalOrder(lt)
    ensures forall i, j :: 0 <= i < j < |r| ==> lt(r[i].key, r[j].key)
    ensures forall j :: 0 <= j < |r| ==> r[j].key in MapSeq(rows, key)
    ensures forall j :: 0 <= j < |r| ==> r[j] == AggregatePrices(rows, key, r[j].key)
  {
    var keys := GroupKeys(rows, key, lt);
    AggregateEach(rows, key, keys)
  }

  /** Every key of `rows` has its aggregate. */
  lemma GroupPricesCover<K(!new)>(rows: seq<Row>, key: Row -> K, lt: (K, K) -> bool)
    requires StrictTotalOrder(lt)
    ensures forall i :: 0 <= i < |rows| ==>
              exists j :: 0 <= j < |GroupPrices(rows, key, lt)| && GroupPrices(rows, key, lt)[j].key == key(rows[i])
  {
    var keys := GroupKeys(rows, key, lt);
    var r := GroupPrices(rows, key, lt);
    assert r == AggregateEach(rows, key, keys);
    forall i | 0 <= i < |rows| ensures exists j :: 0 <= j < |r| && r[j].key == key(rows[i]) {
      var j :| 0 <= j < |keys| && keys[j] == key(rows[i]);
      assert r[j].key == keys[j];
    }
  }

  /** The distinct group keys of `rows`, ascending. */
  function GroupKeys<K(==,!new)>(rows: seq<Row>, key: Row -> K, lt: (K, K) -> bool): (keys: seq<K>)
    requires StrictTotalOrder(lt)
    ensures forall i, j :: 0 <= i < j < |keys| ==> lt(keys[i], keys[j])
    ensures forall i :: 0 <= i < |rows| ==> key(rows[i]) in keys
    ensures forall j :: 0 <= j < |keys| ==> keys[j] in MapSeq(rows, key)
  {
    var all := MapSeq(rows, key);
    var keys := SortedDistinct(all, lt);
    assert forall i :: 0 <= i < |rows| ==> all[i] in all;
    keys
  }

  function AggregateEach<K(==)>(rows: seq<Row>, key: Row -> K, keys: seq<K>): (r: seq<PriceGroup<K>>)
    ensures |r| == |keys|
    ensures forall j :: 0 <= j < |r| ==> r[j].key == keys[j] && r[j] == AggregatePrices(rows, key, keys[j])
  {
    MapSeq(keys, k => AggregatePrices(rows, key, k))
  }

  /**
   * `groupby(key).size()`: every key present once with its number of rows,
   * in ascending key order.
   */
  function GroupCounts<K(==,!new)>(rows: seq<Row>, key: Row -> K, lt: (K, K) -> bool): (r: seq<Counted<K>>)
    requires StrictTotalOrder(lt)
    ensures forall i, j :: 0 <= i < j < |r| ==> lt(r[i].key, r[j].key)
    ensures forall i :: 0 <= i < |rows| ==> exists j :: 0 <= j < |r| && r[j].key == key(rows[i])
    ensures forall j :: 0 <= j < |r| ==> r[j].count == |GroupRows(rows, key, r[j].key)| > 0
  {
    var keys := GroupKeys(rows, key, lt);
    var r := MapSeq(keys, (k: K) => Counted(k, |GroupRows(rows, key, k)|));
    forall j | 0 <= j < |r| ensures r[j].key == keys[j] && r[j].count == |GroupRows(rows, key, r[j].key)| > 0 {
      CountIsGroupSize(rows, key, keys[j]);
    }
    forall i | 0 <= i < |rows| ensures exists j :: 0 <= j < |r| && r[j].key == key(rows[i]) {
      var j :| 0 <= j < |keys| && keys[j] == key(rows[i]);
      assert r[j].key == keys[j];
    }
    r
  }

  /** The number of occurrences of a key is the size of its group (`groupby().size()`). */
  lemma {:induction false} CountIsGroupSize<K>(rows: seq<Row>, key: Row -> K, k: K)
    ensures multiset(MapSeq(rows, key))[k] == |GroupRows(rows, key, k)|
    decreases |rows|
  {
    if rows != [] {
      CountIsGroupSize(rows[1..], key, k);
      assert MapSeq(rows, key) == [key(rows[0])] + MapSeq(rows[1..], key);
    }
  }

  /** (year, week) pairs in lexicographic order. */
  predicate PairLt(a: (int, int), b: (int, int))
  {
    a.0 < b.0 || (a.0 == b.0 && a.1 < b.1)
  }

  lemma PairLtIsStrictTotal()
    ensures StrictTotalOrder(PairLt)
  {
  }

  predicate MonthLt(a: Month, b: Month)
  {
    a < b
  }

  lemma MonthLtIsStrictTotal()
    ensures StrictTotalOrder(MonthLt)
  {
  }

  predicate WeekdayLt(a: Weekday, b: Weekday)
  {
    a < b
  }

  lemma WeekdayLtIsStrictTotal()
    ensures StrictTotalOrder(WeekdayLt)
  {
  }
}
