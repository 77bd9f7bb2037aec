/**
 * Orders used to pin down the iteration order of groupings and sorts.
 * pandas `groupby` emits groups in ascending key order; `sort_values` and
 * `value_counts` leave ties unspecified, and this model breaks every tie by
 * ascending key. Both are expressed as sorting distinct values under a strict
 * total order.
 */
module Ordering {

  ghost predicate StrictTotalOrder<K(!new)>(lt: (K, K) -> bool)
  {
    && (forall a :: !lt(a, a))
    && (forall a, b, c :: lt(a, b) && lt(b, c) ==> lt(a, c))
    && (forall a, b :: a != b ==> lt(a, b) || lt(b, a))
  }

  predicate StrictlySorted<K>(s: seq<K>, lt: (K, K) -> bool)
  {
    forall i, j :: 0 <= i < j < |s| ==> lt(s[i], s[j])
  }

  /** Python string comparison: lexicographic by code point, a proper prefix first. */
  predicate StrLt(a: string, b: string)
    decreases |a|
  {
    if |a| == 0 then |b| > 0
    else if |b| == 0 then false
    else a[0] < b[0] || (a[0] == b[0] && StrLt(a[1..], b[1..]))
  }

  lemma {:induction false} StrLtIrreflexive(a: string)
    ensures !StrLt(a, a)
    decreases |a|
  {
    if |a| > 0 {
      StrLtIrreflexive(a[1..]);
    }
  }

  lemma {:induction false} StrLtTransitive(a: string, b: string, c: string)
    requires StrLt(a, b) && StrLt(b, c)
    ensures StrLt(a, c)
    decreases |a|
  {
    if |a| > 0 && a[0] == b[0] && b[0] == c[0] {
      StrLtTransitive(a[1..], b[1..], c[1..]);
    }
  }

  lemma {:induction false} StrLtTotal(a: string, b: string)
    requires a != b
    ensures StrLt(a, b) || StrLt(b, a)
    decreases |a|
  {
    if |a| > 0 && |b| > 0 && a[0] == b[0] {
      assert a == [a[0]] + a[1..] && b == [b[0]] + b[1..];
      StrLtTotal(a[1..], b[1..]);
    }
  }

  lemma StrLtIsStrictTotal()
    ensures StrictTotalOrder(StrLt)
  {
    forall a | true ensures !StrLt(a, a) { StrLtIrreflexive(a); }
    forall a, b, c | StrLt(a, b) && StrLt(b, c) ensures StrLt(a, c) { StrLtTransitive(a, b, c); }
    forall a, b | a != b ensures StrLt(a, b) || StrLt(b, a) { StrLtTotal(a, b); }
  }

  predicate IntLt(a: int, b: int) { a < b }

  lemma IntLtIsStrictTotal()
    ensures StrictTotalOrder(IntLt)
  {
  }

  /** Insert `x` into a strictly sorted sequence unless it is already there. */
  function Insert<K(==,!new)>(s: seq<K>, x: K, lt: (K, K) -> bool): (r: seq<K>)
    requires StrictTotalOrder(lt) && StrictlySorted(s, lt)
    ensures StrictlySorted(r, lt)
    ensures forall k :: k in r <==> k in s || k == x
    decreases |s|
  {
    if s == [] then [x]
    else if x == s[0] then s
    else if lt(x, s[0]) then
      assert forall k :: k in s ==> k == s[0] || lt(s[0], k);
      [x] + s
    else
      var rest := Insert(s[1..], x, lt);
      assert forall k :: k in s[1..] ==> lt(s[0], k);
      assert forall k :: k in rest ==> lt(s[0], k);
      [s[0]] + rest
  }

  /** The distinct values of `keys` in ascending order (the key order of a pandas `groupby`). */
  function SortedDistinct<K(==,!new)>(keys: seq<K>, lt: (K, K) -> bool): (r: seq<K>)
    requires StrictTotalOrder(lt)
    ensures StrictlySorted(r, lt)
    ensures forall k :: k in r <==> k in keys
    decreases |keys|
  {
    if keys == [] then []
    else
      var rest := SortedDistinct(keys[..|keys| - 1], lt);
      assert keys == keys[..|keys| - 1] + [keys[|keys| - 1]];
      Insert(rest, keys[|keys| - 1], lt)
  }

  /** A strictly sorted sequence has no repeated element. */
  lemma StrictlySortedDistinct<K(!new)>(s: seq<K>, lt: (K, K) -> bool)
    requires StrictTotalOrder(lt) && StrictlySorted(s, lt)
    ensures forall i, j :: 0 <= i < j < |s| ==> s[i] != s[j]
  {
  }
}
