/** Row selection on sequences: boolean-mask filters, order-preserving subsequences and `head(n)`. */
module Sequences {
  import opened Wrappers

  /** `r` can be obtained from `s` by deleting elements, without reordering the rest. */
  ghost predicate SubsequenceOf<T>(r: seq<T>, s: seq<T>)
    decreases |s|
  {
    if r == [] then true
    else if s == [] then false
    else (r[0] == s[0] && SubsequenceOf(r[1..], s[1..])) || SubsequenceOf(r, s[1..])
  }

  lemma {:induction false} SubsequenceOfRefl<T>(s: seq<T>)
    ensures SubsequenceOf(s, s)
    decreases |s|
  {
    if s != [] {
      SubsequenceOfRefl(s[1..]);
    }
  }

  lemma {:induction false} SubsequenceOfTrans<T>(a: seq<T>, b: seq<T>, c: seq<T>)
    requires SubsequenceOf(a, b) && SubsequenceOf(b, c)
    ensures SubsequenceOf(a, c)
    decreases |c|
  {
    if a != [] {
      assert b != [] && c != [];
      if b[0] == c[0] && SubsequenceOf(b[1..], c[1..]) {
        if a[0] == b[0] && SubsequenceOf(a[1..], b[1..]) {
          SubsequenceOfTrans(a[1..], b[1..], c[1..]);
        } else {
          SubsequenceOfTrans(a, b[1..], c[1..]);
        }
      } else {
        SubsequenceOfTrans(a, b, c[1..]);
      }
    }
  }

  /** The rows of `s` for which `p` holds, in their original order (a pandas boolean mask). */
  function Filter<T>(s: seq<T>, p: T -> bool): (r: seq<T>)
    ensures |r| <= |s|
    ensures forall i :: 0 <= i < |r| ==> r[i] in s && p(r[i])
    ensures forall i :: 0 <= i < |s| && p(s[i]) ==> s[i] in r
    ensures SubsequenceOf(r, s)
    decreases |s|
  {
    if s == [] then []
    else
      var rest := Filter(s[1..], p);
      if p(s[0]) then [s[0]] + rest else rest
  }

  /** A mask keeps every copy of a passing row and no copy of any other. */
  lemma {:induction false} FilterMultiset<T>(s: seq<T>, p: T -> bool)
    ensures forall x :: multiset(Filter(s, p))[x] == if p(x) then multiset(s)[x] else 0
    decreases |s|
  {
    if s != [] {
      FilterMultiset(s[1..], p);
      assert s == [s[0]] + s[1..];
    }
  }

  /** Number of elements of `s` satisfying `p`. */
  function Count<T>(s: seq<T>, p: T -> bool): nat
  {
    |Filter(s, p)|
  }

  lemma {:induction false} FilterAppend<T>(a: seq<T>, b: seq<T>, p: T -> bool)
    ensures Filter(a + b, p) == Filter(a, p) + Filter(b, p)
    decreases |a|
  {
    if a == [] {
      assert a + b == b;
    } else {
      assert (a + b)[1..] == a[1..] + b;
      FilterAppend(a[1..], b, p);
    }
  }

  /** Filtering with `p` and then with `q` keeps exactly the rows both keep. */
  lemma {:induction false} FilterFilter<T>(s: seq<T>, p: T -> bool, q: T -> bool)
    ensures Filter(Filter(s, p), q) == Filter(s, x => p(x) && q(x))
    decreases |s|
  {
    if s != [] {
      FilterFilter(s[1..], p, q);
    }
  }

  /** A filter that keeps `p`-rows and a filter that keeps the others (`q`) split `s` without loss. */
  lemma {:induction false} FilterSplitCount<T>(s: seq<T>, p: T -> bool, q: T -> bool)
    requires forall x :: q(x) <==> !p(x)
    ensures Count(s, p) + Count(s, q) == |s|
    decreases |s|
  {
    if s != [] {
      FilterSplitCount(s[1..], p, q);
    }
  }

  /** pandas `head(n)`: the first n rows; a negative n drops the last |n| rows. */
  function Head<T>(s: seq<T>, n: int): (r: seq<T>)
    ensures n >= 0 ==> |r| == Min(n, |s|)
    ensures n < 0 ==> |r| == Max(|s| + n, 0)
    ensures |r| <= |s|
    ensures forall i :: 0 <= i < |r| ==> r[i] == s[i]
  {
    if n >= 0 then s[..Min(n, |s|)] else s[..Max(|s| + n, 0)]
  }

  lemma {:induction false} PrefixIsSubsequence<T>(s: seq<T>, k: nat)
    requires k <= |s|
    ensures SubsequenceOf(s[..k], s)
    decreases |s|
  {
    if k == |s| {
      assert s[..k] == s;
      SubsequenceOfRefl(s);
    } else {
      PrefixIsSubsequence(s[..|s| - 1], k);
      assert s[..|s| - 1][..k] == s[..k];
      DropLastIsSubsequence(s);
      SubsequenceOfTrans(s[..k], s[..|s| - 1], s);
    }
  }

  lemma {:induction false} DropLastIsSubsequence<T>(s: seq<T>)
    requires s != []
    ensures SubsequenceOf(s[..|s| - 1], s)
    decreases |s|
  {
    if |s| == 1 {
    } else {
      DropLastIsSubsequence(s[1..]);
      assert s[1..][..|s[1..]| - 1] == s[..|s| - 1][1..];
    }
  }

  /** The elements of `s` in order, each transformed by `f`. */
  function MapSeq<T, U>(s: seq<T>, f: T -> U): (r: seq<U>)
    ensures |r| == |s|
    ensures forall i :: 0 <= i < |s| ==> r[i] == f(s[i])
  {
    seq(|s|, i requires 0 <= i < |s| => f(s[i]))
  }

  /** A sequence without repeats has as many distinct elements as positions. */
  lemma {:induction false} DistinctCardinality<T>(s: seq<T>)
    requires forall i, j :: 0 <= i < j < |s| ==> s[i] != s[j]
    ensures |set i | 0 <= i < |s| :: s[i]| == |s|
    decreases |s|
  {
    if s != [] {
      var n := |s| - 1;
      DistinctCardinality(s[..n]);
      var front := set i | 0 <= i < n :: s[..n][i];
      assert (set i | 0 <= i < |s| :: s[i]) == front + {s[n]};
      assert s[n] !in front;
    }
  }

  lemma {:induction false} ElementsAtMost<T>(s: seq<T>)
    ensures |set i | 0 <= i < |s| :: s[i]| <= |s|
    decreases |s|
  {
    if s != [] {
      var n := |s| - 1;
      ElementsAtMost(s[..n]);
      var front := set i | 0 <= i < n :: s[..n][i];
      assert (set i | 0 <= i < |s| :: s[i]) == front + {s[n]};
    }
  }

  /** A repeat-free sequence drawn from the elements of `s` is no longer than `s`. */
  lemma DistinctAtMost<T>(d: seq<T>, s: seq<T>)
    requires forall i, j :: 0 <= i < j < |d| ==> d[i] != d[j]
    requires forall i :: 0 <= i < |d| ==> d[i] in s
    ensures |d| <= |s|
  {
    var a := set i | 0 <= i < |d| :: d[i];
    var b := set i | 0 <= i < |s| :: s[i];
    DistinctCardinality(d);
    ElementsAtMost(s);
    assert a <= b;
    assert b == a + (b - a);
  }

  /** The values of the `Some` entries of `s`, in order (records appended only when one is produced). */
  function Somes<T>(s: seq<Option<T>>): (r: seq<T>)
    ensures |r| <= |s|
    decreases |s|
  {
    if s == [] then []
    else
      var n := |s| - 1;
      match s[n]
      case None => Somes(s[..n])
      case Some(x) => Somes(s[..n]) + [x]
  }

  lemma {:induction false} SomesMembers<T>(s: seq<Option<T>>, x: T)
    ensures x in Somes(s) <==> Some(x) in s
    decreases |s|
  {
    if s != [] {
      var n := |s| - 1;
      SomesMembers(s[..n], x);
      assert s == s[..n] + [s[n]];
    }
  }
}
