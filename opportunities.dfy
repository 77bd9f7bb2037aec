/**
 * `DataProcessor.analyze_market_opportunities`: three rules, each adding
 * records to one list. Rule 1 picks high-demand routes priced above the other
 * high-demand routes. Rule 2 picks routes whose weekend median is well above
 * their weekday median. Rule 3 picks origins whose monthly medians spread
 * widely.
 */
module Opportunities {
  import opened Wrappers
  import opened Sequences
  import opened Ordering
  import opened Stats
  import opened Flights
  import opened Grouping
  import opened Cleaning

  datatype Opportunity =
    | HighDemandHighPrice(route: Route, frequency: nat, medianPrice: real)
    | WeekendPremium(route: Route, weekdayPrice: real, weekendPrice: real, priceDifference: real)
    | SeasonalVariation(origin: string, destination: string, highPriceMonth: string,
                        lowPriceMonth: string, priceRatio: real)

  /** Rules 1 and 2 keep at most this many records (`head(5)`). */
  const RecordsPerRule := 5

  /** Filtering a strictly sorted sequence leaves it strictly sorted. */
  lemma {:induction false} FilterKeepsSorted<T>(s: seq<T>, p: T -> bool, lt: (T, T) -> bool)
    requires StrictlySorted(s, lt)
    ensures StrictlySorted(Filter(s, p), lt)
    decreases |s|
  {
    if s != [] {
      FilterKeepsSorted(s[1..], p, lt);
      var rest := Filter(s[1..], p);
      assert forall i :: 0 <= i < |rest| ==> rest[i] in s[1..];
    }
  }

  // ---------------------------------------------------------------- rule 1: high demand, high price

  /** `groupby(['origin', 'destination']).size()`: every route once with its number of rows, in route order. */
  function RouteDemand(rows: seq<Row>): (d: seq<Counted<Route>>)
    ensures StrictlySorted(MapSeq(d, (c: Counted<Route>) => c.key), RouteLt)
    ensures forall j :: 0 <= j < |d| ==> d[j].count == |RouteRows(rows, d[j].key)| > 0
    ensures forall i :: 0 <= i < |rows| ==> exists j :: 0 <= j < |d| && d[j].key == RouteOf(rows[i])
  {
    RouteLtIsStrictTotal();
    var d := GroupCounts(rows, RouteOf, RouteLt);
    forall j | 0 <= j < |d| ensures d[j].count == |RouteRows(rows, d[j].key)| {
      RouteRowsAreGroupRows(rows, d[j].key);
    }
    d
  }

  /** The median number of rows per route; NaN when there are no rows. */
  function DemandMedian(rows: seq<Row>): Num
  {
    Median(MapSeq(RouteDemand(rows), (c: Counted<Route>) => c.count as real))
  }

  /** A route is in high demand when it has more rows than the median route. */
  predicate AboveDemandMedian(m: Num, c: Counted<Route>)
  {
    m.Real? && c.count as real > m.r
  }

  /** `route_demand[route_demand['frequency'] > median]`, in route order. */
  function HighDemand(rows: seq<Row>): seq<Counted<Route>>
  {
    var m := DemandMedian(rows);
    Filter(RouteDemand(rows), (c: Counted<Route>) => AboveDemandMedian(m, c))
  }

  /** One row of `route_analysis`: a high-demand route with its median price. */
  datatype DemandPrice = DemandPrice(route: Route, frequency: nat, price: Num)

  /**
   * The merge of the high-demand routes with the per-route median prices.
   * Every route has a median-price row (NaN when none of its prices is
   * known), so the inner merge keeps every high-demand route, in order.
   */
  function RouteAnalysis(rows: seq<Row>): (a: seq<DemandPrice>)
    ensures |a| == |HighDemand(rows)|
    ensures forall k :: 0 <= k < |a| ==>
              a[k] == DemandPrice(HighDemand(rows)[k].key, HighDemand(rows)[k].count,
                                  RouteMedian(rows, HighDemand(rows)[k].key))
  {
    MapSeq(HighDemand(rows), (c: Counted<Route>) => DemandPrice(c.key, c.count, RouteMedian(rows, c.key)))
  }

  /** The known median prices of `route_analysis`, in order (pandas skips NaN). */
  function KnownPrices(a: seq<DemandPrice>): (ps: seq<real>)
    ensures forall x :: x in ps <==> exists k :: 0 <= k < |a| && a[k].price == Real(x)
    decreases |a|
  {
    if a == [] then []
    else
      var rest := KnownPrices(a[1..]);
      assert forall k :: 1 <= k < |a| ==> a[k] == a[1..][k - 1];
      if a[0].price.Real? then [a[0].price.r] + rest else rest
  }

  /** The median of the high-demand routes' median prices. */
  function AnalysisMedian(rows: seq<Row>): Num
  {
    Median(KnownPrices(RouteAnalysis(rows)))
  }

  /** The record of a `route_analysis` row whose price is known and above `m`. */
  predicate AbovePriceMedian(a: DemandPrice, m: Num)
  {
    a.price.Real? && m.Real? && a.price.r > m.r
  }

  /**
   * `route_analysis[route_analysis['price'] > median]`, each kept row turned
   * into its record (a NaN price compares false and is dropped).
   */
  function AbovePrice(a: seq<DemandPrice>, m: Num): (r: seq<Opportunity>)
    ensures |r| <= |a|
    ensures forall i :: 0 <= i < |r| ==>
              exists k :: 0 <= k < |a| && AbovePriceMedian(a[k], m) &&
                          r[i] == HighDemandHighPrice(a[k].route, a[k].frequency, a[k].price.r)
    decreases |a|
  {
    if a == [] then []
    else
      var rest := AbovePrice(a[1..], m);
      assert forall k :: 1 <= k < |a| ==> a[k] == a[1..][k - 1];
      if AbovePriceMedian(a[0], m) then [HighDemandHighPrice(a[0].route, a[0].frequency, a[0].price.r)] + rest
      else rest
  }

  /** Every row of `route_analysis` above the price median gives a record. */
  lemma {:induction false} AbovePriceKeeps(a: seq<DemandPrice>, m: Num, k: int)
    requires 0 <= k < |a| && AbovePriceMedian(a[k], m)
    ensures HighDemandHighPrice(a[k].route, a[k].frequency, a[k].price.r) in AbovePrice(a, m)
    decreases |a|
  {
    if k > 0 {
      assert a[k] == a[1..][k - 1];
      AbovePriceKeeps(a[1..], m, k - 1);
    }
  }

  /** The boolean mask `route_analysis['price'] > median`. */
  function AboveMedian(m: Num): DemandPrice -> bool
  {
    (a: DemandPrice) => AbovePriceMedian(a, m)
  }

  /** `r` holds the record of each row of `kept`, in order. */
  ghost predicate RecordsOf(r: seq<Opportunity>, kept: seq<DemandPrice>)
  {
    |r| == |kept| &&
    forall i :: 0 <= i < |r| ==>
      kept[i].price.Real? && r[i] == HighDemandHighPrice(kept[i].route, kept[i].frequency, kept[i].price.r)
  }

  /** The records above the median are the records of the masked rows, in order. */
  lemma {:induction false} AbovePriceIsFilter(a: seq<DemandPrice>, m: Num)
    ensures RecordsOf(AbovePrice(a, m), Filter(a, AboveMedian(m)))
    decreases |a|
  {
    if a != [] {
      AbovePriceIsFilter(a[1..], m);
      var rest := AbovePrice(a[1..], m);
      var kept := Filter(a[1..], AboveMedian(m));
      var r := AbovePrice(a, m);
      var all := Filter(a, AboveMedian(m));
      if AbovePriceMedian(a[0], m) {
        assert r == [HighDemandHighPrice(a[0].route, a[0].frequency, a[0].price.r)] + rest;
        assert all == [a[0]] + kept;
        assert |r| == |all|;
        forall i | 0 <= i < |r|
          ensures all[i].price.Real? && r[i] == HighDemandHighPrice(all[i].route, all[i].frequency, all[i].price.r)
        {
          if i > 0 {
            assert r[i] == rest[i - 1] && all[i] == kept[i - 1];
          }
        }
      } else {
        assert r == rest && all == kept;
      }
    }
  }

  /** The records of rule 1 before `head(5)`. */
  function HighDemandCandidates(rows: seq<Row>): seq<Opportunity>
  {
    AbovePrice(RouteAnalysis(rows), AnalysisMedian(rows))
  }

  /** Rule 1: only when the table has a price column; at most five records, the first in route order. */
  function HighDemandOpportunities(t: Table): (r: seq<Opportunity>)
    ensures |r| <= RecordsPerRule
    ensures PriceCol !in t.columns ==> r == []
    ensures PriceCol in t.columns ==>
              |r| == Min(RecordsPerRule, |HighDemandCandidates(t.rows)|) &&
              forall i :: 0 <= i < |r| ==> r[i] == HighDemandCandidates(t.rows)[i]
  {
    if PriceCol in t.columns then Head(HighDemandCandidates(t.rows), RecordsPerRule) else []
  }

  /**
   * A route is a rule-1 candidate exactly when it has more rows than the
   * median route and its median price is known and above the median of the
   * high-demand routes' median prices; the record carries its row count and
   * its median price.
   */
  lemma HighDemandCandidateIff(rows: seq<Row>, route: Route, frequency: nat, price: real)
    ensures HighDemandHighPrice(route, frequency, price) in HighDemandCandidates(rows) <==>
              && frequency == |RouteRows(rows, route)|
              && AboveDemandMedian(DemandMedian(rows), Counted(route, frequency))
              && RouteMedian(rows, route) == Real(price)
              && AnalysisMedian(rows).Real? && price > AnalysisMedian(rows).r
  {
    if HighDemandHighPrice(route, frequency, price) in HighDemandCandidates(rows) {
      CandidateQualifies(rows, route, frequency, price);
    }
    if && frequency == |RouteRows(rows, route)|
       && AboveDemandMedian(DemandMedian(rows), Counted(route, frequency))
       && RouteMedian(rows, route) == Real(price)
       && AnalysisMedian(rows).Real? && price > AnalysisMedian(rows).r
    {
      QualifyingIsCandidate(rows, route, frequency, price);
    }
  }

  lemma CandidateQualifies(rows: seq<Row>, route: Route, frequency: nat, price: real)
    requires HighDemandHighPrice(route, frequency, price) in HighDemandCandidates(rows)
    ensures frequency == |RouteRows(rows, route)|
    ensures AboveDemandMedian(DemandMedian(rows), Counted(route, frequency))
    ensures RouteMedian(rows, route) == Real(price)
    ensures AnalysisMedian(rows).Real? && price > AnalysisMedian(rows).r
  {
    var a := RouteAnalysis(rows);
    var m := AnalysisMedian(rows);
    var c := AbovePrice(a, m);
    var i :| 0 <= i < |c| && c[i] == HighDemandHighPrice(route, frequency, price);
    var k :| 0 <= k < |a| && AbovePriceMedian(a[k], m) &&
             c[i] == HighDemandHighPrice(a[k].route, a[k].frequency, a[k].price.r);
    AnalysisRowQualifies(rows, k);
  }

  /** Every row of `route_analysis` is a high-demand route with its own row count and median price. */
  lemma AnalysisRowQualifies(rows: seq<Row>, k: int)
    requires 0 <= k < |RouteAnalysis(rows)|
    ensures var x := RouteAnalysis(rows)[k];
            && x.frequency == |RouteRows(rows, x.route)|
            && AboveDemandMedian(DemandMedian(rows), Counted(x.route, x.frequency))
            && x.price == RouteMedian(rows, x.route)
  {
    var h := HighDemand(rows);
    var d := RouteDemand(rows);
    assert h[k] in d && AboveDemandMedian(DemandMedian(rows), h[k]);
    var j :| 0 <= j < |d| && d[j] == h[k];
  }

  lemma QualifyingIsCandidate(rows: seq<Row>, route: Route, frequency: nat, price: real)
    requires frequency == |RouteRows(rows, route)|
    requires AboveDemandMedian(DemandMedian(rows), Counted(route, frequency))
    requires RouteMedian(rows, route) == Real(price)
    requires AnalysisMedian(rows).Real? && price > AnalysisMedian(rows).r
    ensures HighDemandHighPrice(route, frequency, price) in HighDemandCandidates(rows)
  {
    var k := HighDemandIndexOf(rows, route, frequency);
    var a := RouteAnalysis(rows);
    assert a[k] == DemandPrice(route, frequency, Real(price));
    AbovePriceKeeps(a, AnalysisMedian(rows), k);
  }

  /** A route above the demand median has its entry among the high-demand routes. */
  lemma HighDemandIndexOf(rows: seq<Row>, route: Route, frequency: nat) returns (k: nat)
    requires frequency == |RouteRows(rows, route)| > 0
    requires AboveDemandMedian(DemandMedian(rows), Counted(route, frequency))
    ensures k < |HighDemand(rows)| && HighDemand(rows)[k] == Counted(route, frequency)
  {
    var d := RouteDemand(rows);
    var h := HighDemand(rows);
    var rr := RouteRows(rows, route);
    assert rr[0] in rows && RouteOf(rr[0]) == route;
    var i :| 0 <= i < |rows| && rows[i] == rr[0];
    var j :| 0 <= j < |d| && d[j].key == RouteOf(rows[i]);
    assert d[j] == Counted(route, frequency);
    assert d[j] in h;
    k :| 0 <= k < |h| && h[k] == d[j];
  }

  /** The rule-1 candidates, and so the records of rule 1, come in strictly ascending route order. */
  lemma HighDemandCandidatesInRouteOrder(rows: seq<Row>)
    ensures forall i, j :: 0 <= i < j < |HighDemandCandidates(rows)| ==>
              RouteLt(HighDemandCandidates(rows)[i].route, HighDemandCandidates(rows)[j].route)
  {
    var d := RouteDemand(rows);
    var m := DemandMedian(rows);
    var h := HighDemand(rows);
    var keys := MapSeq(d, (c: Counted<Route>) => c.key);
    // the order of `d` read off its keys
    assert StrictlySorted(d, (x: Counted<Route>, y: Counted<Route>) => RouteLt(x.key, y.key)) by {
      forall i, j | 0 <= i < j < |d| ensures RouteLt(d[i].key, d[j].key) {
        assert keys[i] == d[i].key && keys[j] == d[j].key;
      }
    }
    FilterKeepsSorted(d, (c: Counted<Route>) => AboveDemandMedian(m, c),
                      (x: Counted<Route>, y: Counted<Route>) => RouteLt(x.key, y.key));
    var a := RouteAnalysis(rows);
    AbovePriceKeepsOrder(a, AnalysisMedian(rows));
  }

  lemma {:induction false} AbovePriceKeepsOrder(a: seq<DemandPrice>, m: Num)
    requires forall i, j :: 0 <= i < j < |a| ==> RouteLt(a[i].route, a[j].route)
    ensures forall i, j :: 0 <= i < j < |AbovePrice(a, m)| ==>
              RouteLt(AbovePrice(a, m)[i].route, AbovePrice(a, m)[j].route)
    decreases |a|
  {
    if a != [] {
      assert forall i, j :: 0 <= i < j < |a[1..]| ==> RouteLt(a[1..][i].route, a[1..][j].route) by {
        forall i, j | 0 <= i < j < |a[1..]| ensures RouteLt(a[1..][i].route, a[1..][j].route) {
          assert a[1..][i] == a[i + 1] && a[1..][j] == a[j + 1];
        }
      }
      AbovePriceKeepsOrder(a[1..], m);
      var rest := AbovePrice(a[1..], m);
      forall i | 0 <= i < |rest| ensures RouteLt(a[0].route, rest[i].route) {
        var k :| 0 <= k < |a[1..]| && AbovePriceMedian(a[1..][k], m) &&
                 rest[i] == HighDemandHighPrice(a[1..][k].route, a[1..][k].frequency, a[1..][k].price.r);
        assert a[1..][k] == a[k + 1];
      }
    }
  }

  // ---------------------------------------------------------------- rule 2: weekend premium

  /** The median price of one route on weekend days (`weekend`) or on weekdays; NaN when none is known. */
  function SideMedian(rows: seq<Row>, route: Route, weekend: bool): Num
  {
    Median(PricesOf(Filter(RouteRows(rows, route), (r: Row) => r.isWeekend == weekend)))
  }

  /** One row of the pivot table: a route with its weekday and weekend medians. */
  datatype SideMedians = SideMedians(route: Route, weekday: Num, weekend: Num)

  /**
   * `groupby(['origin', 'destination', 'is_weekend'])['price'].median()`
   * pivoted on `is_weekend`: one row per route, in route order. (The pivot
   * drops a route whose two cells are both NaN; such a row never passes the
   * ratio filter, so it is kept here.)
   */
  function PivotRows(rows: seq<Row>): (p: seq<SideMedians>)
    ensures |p| == |Routes(rows)|
    ensures forall i :: 0 <= i < |p| ==>
              p[i] == SideMedians(Routes(rows)[i], SideMedian(rows, Routes(rows)[i], false),
                                  SideMedian(rows, Routes(rows)[i], true))
  {
    MapSeq(Routes(rows), (route: Route) =>
      SideMedians(route, SideMedian(rows, route, false), SideMedian(rows, route, true)))
  }

  /**
   * The pivot has a weekday (`weekend` false) or weekend column exactly when
   * some route has a known median on that side (an all-NaN column is dropped).
   */
  predicate HasSideColumn(p: seq<SideMedians>, weekend: bool)
  {
    exists i :: 0 <= i < |p| && (if weekend then p[i].weekend else p[i].weekday).Real?
  }

  /**
   * `weekend / weekday > k` under IEEE division: x / 0 is +inf for x > 0,
   * -inf for x < 0 and NaN for 0; dividing by a negative weekday flips the
   * comparison.
   */
  predicate RatioAbove(weekend: real, weekday: real, k: real)
  {
    if weekday > 0.0 then weekend > k * weekday
    else if weekday == 0.0 then weekend > 0.0
    else weekend < k * weekday
  }

  /** For a non-zero weekday median the test is the quotient comparison itself. */
  lemma RatioAboveIsQuotient(weekend: real, weekday: real)
    requires weekday != 0.0
    ensures RatioAbove(weekend, weekday, 1.3) <==> weekend / weekday > 1.3
  {
    var q := weekend / weekday;
    assert q * weekday == weekend;
    if weekday > 0.0 {
      assert q > 1.3 <==> q * weekday > 1.3 * weekday;
    } else {
      assert q > 1.3 <==> q * weekday < 1.3 * weekday;
    }
  }

  /** A route whose two medians are known and whose weekend median is above 1.3 times the weekday one. */
  datatype WeekendGap = WeekendGap(route: Route, weekdayPrice: real, weekendPrice: real)

  function Difference(p: WeekendGap): real
  {
    p.weekendPrice - p.weekdayPrice
  }

  /**
   * `sort_values('price_difference', ascending=False)`: larger difference
   * first; ties (which pandas leaves unordered) in route order, then by
   * weekday median.
   */
  predicate PremiumLt(a: WeekendGap, b: WeekendGap)
  {
    || Difference(a) > Difference(b)
    || (Difference(a) == Difference(b) &&
        (RouteLt(a.route, b.route) || (a.route == b.route && a.weekdayPrice < b.weekdayPrice)))
  }

  lemma PremiumLtIsStrictTotal()
    ensures StrictTotalOrder(PremiumLt)
  {
    RouteLtIsStrictTotal();
  }

  predicate PremiumRow(s: SideMedians)
  {
    s.weekday.Real? && s.weekend.Real? && RatioAbove(s.weekend.r, s.weekday.r, 1.3)
  }

  /** `weekend_premium[weekend_premium['price_ratio'] > 1.3]`: a NaN cell fails the comparison. */
  function PremiumRows(p: seq<SideMedians>): (c: seq<WeekendGap>)
    ensures |c| <= |p|
    decreases |p|
  {
    if p == [] then []
    else
      var rest := PremiumRows(p[1..]);
      if PremiumRow(p[0]) then [WeekendGap(p[0].route, p[0].weekday.r, p[0].weekend.r)] + rest else rest
  }

  /** The rows the ratio filter keeps are exactly the pivot rows that pass it. */
  lemma {:induction false} PremiumRowsMembers(p: seq<SideMedians>, x: WeekendGap)
    ensures x in PremiumRows(p) <==>
              exists i :: 0 <= i < |p| && PremiumRow(p[i]) && x == WeekendGap(p[i].route, p[i].weekday.r, p[i].weekend.r)
    decreases |p|
  {
    if p != [] {
      PremiumRowsMembers(p[1..], x);
      assert forall i :: 1 <= i < |p| ==> p[i] == p[1..][i - 1];
      if x in PremiumRows(p[1..]) {
        var i :| 0 <= i < |p[1..]| && PremiumRow(p[1..][i]) &&
                 x == WeekendGap(p[1..][i].route, p[1..][i].weekday.r, p[1..][i].weekend.r);
        assert p[i + 1] == p[1..][i];
      }
    }
  }

  /** The rule-2 rows, largest difference first. */
  function RankedPremiums(rows: seq<Row>): (r: seq<WeekendGap>)
    ensures StrictlySorted(r, PremiumLt)
    ensures forall x :: x in r <==> x in PremiumRows(PivotRows(rows))
  {
    PremiumLtIsStrictTotal();
    SortedDistinct(PremiumRows(PivotRows(rows)), PremiumLt)
  }

  function PremiumRecord(p: WeekendGap): Opportunity
  {
    WeekendPremium(p.route, p.weekdayPrice, p.weekendPrice, Difference(p))
  }

  /** Some row on that side of the week (`weekend` or not) has a known price. */
  predicate SideKnown(rows: seq<Row>, weekend: bool)
  {
    exists i :: 0 <= i < |rows| && rows[i].isWeekend == weekend && rows[i].price.Some?
  }

  /** The pivot has a column for a side of the week exactly when some row on that side has a known price. */
  lemma PivotColumnIff(rows: seq<Row>, weekend: bool)
    ensures HasSideColumn(PivotRows(rows), weekend) <==> SideKnown(rows, weekend)
  {
    if HasSideColumn(PivotRows(rows), weekend) {
      var p := PivotRows(rows);
      var j :| 0 <= j < |p| && (if weekend then p[j].weekend else p[j].weekday).Real?;
      KnownSideMedianHasRow(rows, Routes(rows)[j], weekend);
    }
    if SideKnown(rows, weekend) {
      var i :| 0 <= i < |rows| && rows[i].isWeekend == weekend && rows[i].price.Some?;
      RowGivesSideMedian(rows, i);
    }
  }

  lemma KnownSideMedianHasRow(rows: seq<Row>, route: Route, weekend: bool)
    requires SideMedian(rows, route, weekend).Real?
    ensures SideKnown(rows, weekend)
  {
    var f := Filter(RouteRows(rows, route), (r: Row) => r.isWeekend == weekend);
    assert PricesOf(f) != [];
    var k :| 0 <= k < |f| && f[k].price.Some?;
    assert f[k] in RouteRows(rows, route);
    var i :| 0 <= i < |rows| && rows[i] == f[k];
  }

  lemma RowGivesSideMedian(rows: seq<Row>, i: int)
    requires 0 <= i < |rows| && rows[i].price.Some?
    ensures HasSideColumn(PivotRows(rows), rows[i].isWeekend)
  {
    var weekend := rows[i].isWeekend;
    var route := RouteOf(rows[i]);
    var rs := Routes(rows);
    assert route in rs;
    var j :| 0 <= j < |rs| && rs[j] == route;
    assert rows[i] in RouteRows(rows, route);
    var f := Filter(RouteRows(rows, route), (r: Row) => r.isWeekend == weekend);
    assert rows[i] in f;
    var k :| 0 <= k < |f| && f[k] == rows[i];
    assert PricesOf(f) != [];
    assert SideMedian(rows, route, weekend).Real?;
    var p := PivotRows(rows);
    assert (if weekend then p[j].weekend else p[j].weekday).Real?;
  }

  /**
   * Rule 2 applies when the table has `is_weekend` and `price` and the pivot
   * has both of its columns (see PivotColumnIff).
   */
  predicate WeekendRuleApplies(t: Table)
  {
    && IsWeekendCol in t.columns && PriceCol in t.columns
    && SideKnown(t.rows, false) && SideKnown(t.rows, true)
  }

  /** Rule 2: the first five ranked rows, as records. */
  function WeekendOpportunities(t: Table): (r: seq<Opportunity>)
    ensures |r| <= RecordsPerRule
    ensures !WeekendRuleApplies(t) ==> r == []
  {
    if WeekendRuleApplies(t) then MapSeq(Head(RankedPremiums(t.rows), RecordsPerRule), PremiumRecord)
    else []
  }

  /**
   * A route's premium row exists exactly when both of its medians are known
   * and the weekend median passes the ratio test against the weekday one.
   */
  lemma PremiumRowIff(rows: seq<Row>, x: WeekendGap)
    ensures x in RankedPremiums(rows) <==>
              && (exists i :: 0 <= i < |rows| && RouteOf(rows[i]) == x.route)
              && SideMedian(rows, x.route, false) == Real(x.weekdayPrice)
              && SideMedian(rows, x.route, true) == Real(x.weekendPrice)
              && RatioAbove(x.weekendPrice, x.weekdayPrice, 1.3)
  {
    if x in RankedPremiums(rows) {
      RankedPremiumQualifies(rows, x);
    }
    if && (exists i :: 0 <= i < |rows| && RouteOf(rows[i]) == x.route)
       && SideMedian(rows, x.route, false) == Real(x.weekdayPrice)
       && SideMedian(rows, x.route, true) == Real(x.weekendPrice)
       && RatioAbove(x.weekendPrice, x.weekdayPrice, 1.3)
    {
      QualifyingIsRanked(rows, x);
    }
  }

  lemma RankedPremiumQualifies(rows: seq<Row>, x: WeekendGap)
    requires x in RankedPremiums(rows)
    ensures exists i :: 0 <= i < |rows| && RouteOf(rows[i]) == x.route
    ensures SideMedian(rows, x.route, false) == Real(x.weekdayPrice)
    ensures SideMedian(rows, x.route, true) == Real(x.weekendPrice)
    ensures RatioAbove(x.weekendPrice, x.weekdayPrice, 1.3)
  {
    var p := PivotRows(rows);
    var rs := Routes(rows);
    PremiumRowsMembers(p, x);
    var i :| 0 <= i < |p| && PremiumRow(p[i]) && x == WeekendGap(p[i].route, p[i].weekday.r, p[i].weekend.r);
    assert rs[i] in rs;
  }

  lemma QualifyingIsRanked(rows: seq<Row>, x: WeekendGap)
    requires exists i :: 0 <= i < |rows| && RouteOf(rows[i]) == x.route
    requires SideMedian(rows, x.route, false) == Real(x.weekdayPrice)
    requires SideMedian(rows, x.route, true) == Real(x.weekendPrice)
    requires RatioAbove(x.weekendPrice, x.weekdayPrice, 1.3)
    ensures x in RankedPremiums(rows)
  {
    QualifyingIsPremiumRow(rows, x);
  }

  /** A route whose side medians pass the ratio test is kept by the ratio filter. */
  lemma QualifyingIsPremiumRow(rows: seq<Row>, x: WeekendGap)
    requires exists i :: 0 <= i < |rows| && RouteOf(rows[i]) == x.route
    requires SideMedian(rows, x.route, false) == Real(x.weekdayPrice)
    requires SideMedian(rows, x.route, true) == Real(x.weekendPrice)
    requires RatioAbove(x.weekendPrice, x.weekdayPrice, 1.3)
    ensures x in PremiumRows(PivotRows(rows))
  {
    var p := PivotRows(rows);
    var rs := Routes(rows);
    assert x.route in rs;
    var i :| 0 <= i < |rs| && rs[i] == x.route;
    assert p[i] == SideMedians(x.route, Real(x.weekdayPrice), Real(x.weekendPrice));
    assert PremiumRow(p[i]) && x == WeekendGap(p[i].route, p[i].weekday.r, p[i].weekend.r);
    PremiumRowsMembers(p, x);
  }

  /**
   * The rule-2 records are the largest premiums: differences never increase
   * along the list, and a ranked row left out means five records were kept,
   * each with a difference at least as large as the left-out one.
   */
  lemma WeekendOpportunitiesAreLargest(t: Table, x: WeekendGap)
    requires WeekendRuleApplies(t)
    requires x in RankedPremiums(t.rows) && PremiumRecord(x) !in WeekendOpportunities(t)
    ensures |WeekendOpportunities(t)| == RecordsPerRule
    ensures forall i :: 0 <= i < RecordsPerRule ==>
              WeekendOpportunities(t)[i].priceDifference >= Difference(x)
  {
    var r := RankedPremiums(t.rows);
    var w := WeekendOpportunities(t);
    var k :| 0 <= k < |r| && r[k] == x;
    assert forall i :: 0 <= i < |w| ==> w[i] == PremiumRecord(r[i]);
    assert k >= |w|;
    forall i | 0 <= i < RecordsPerRule ensures w[i].priceDifference >= Difference(x) {
      assert PremiumLt(r[i], r[k]);
    }
  }

  /** Along the rule-2 records the price difference never increases. */
  lemma WeekendOpportunitiesDescend(t: Table)
    ensures forall i, j :: 0 <= i < j < |WeekendOpportunities(t)| ==>
              WeekendOpportunities(t)[i].priceDifference >= WeekendOpportunities(t)[j].priceDifference
  {
    var r := RankedPremiums(t.rows);
    var w := WeekendOpportunities(t);
    forall i, j | 0 <= i < j < |w| ensures w[i].priceDifference >= w[j].priceDifference {
      assert PremiumLt(r[i], r[j]);
    }
  }

  // ---------------------------------------------------------------- rule 3: seasonal variation

  /** One row of `monthly_prices`: a route in one month with its median price. */
  datatype MonthlyPrice = MonthlyPrice(origin: string, destination: string, month: Month, price: Num)

  function RouteMonthOf(r: Row): (Route, Month)
  {
    (RouteOf(r), r.month)
  }

  /** (origin, destination, month) in ascending order, as `groupby` sorts the triple. */
  predicate RouteMonthLt(a: (Route, Month), b: (Route, Month))
  {
    RouteLt(a.0, b.0) || (a.0 == b.0 && a.1 < b.1)
  }

  lemma RouteMonthLtIsStrictTotal()
    ensures StrictTotalOrder(RouteMonthLt)
  {
    RouteLtIsStrictTotal();
  }

  /** The (route, month) group a row of `monthly_prices` stands for. */
  function MonthlyKey(m: MonthlyPrice): (Route, Month)
  {
    (Route(m.origin, m.destination), m.month)
  }

  /** The row of `monthly_prices` for one (route, month) group: the median of its known prices. */
  function MonthlyPriceOf(rows: seq<Row>, k: (Route, Month)): (m: MonthlyPrice)
    ensures MonthlyKey(m) == k
    ensures m.price == Median(PricesOf(GroupRows(rows, RouteMonthOf, k)))
  {
    MonthlyPrice(k.0.origin, k.0.destination, k.1, Median(PricesOf(GroupRows(rows, RouteMonthOf, k))))
  }

  /**
   * `groupby(['origin', 'destination', 'month'])['price'].median().reset_index()`:
   * every (origin, destination, month) group of the rows once, in ascending
   * order, with the median of its known prices.
   */
  function MonthlyPrices(rows: seq<Row>): (m: seq<MonthlyPrice>)
    ensures StrictlySorted(MapSeq(m, MonthlyKey), RouteMonthLt)
    ensures forall k :: 0 <= k < |rows| ==> RouteMonthOf(rows[k]) in MapSeq(m, MonthlyKey)
    ensures forall i :: 0 <= i < |m| ==> MonthlyKey(m[i]) in MapSeq(rows, RouteMonthOf)
    ensures forall i :: 0 <= i < |m| ==> m[i].price == Median(PricesOf(GroupRows(rows, RouteMonthOf, MonthlyKey(m[i]))))
  {
    RouteMonthLtIsStrictTotal();
    var keys := GroupKeys(rows, RouteMonthOf, RouteMonthLt);
    var m := MapSeq(keys, (k: (Route, Month)) => MonthlyPriceOf(rows, k));
    assert MapSeq(m, MonthlyKey) == keys;
    m
  }

  /** The origins of `monthly_prices` never decrease down the frame, which is sorted by origin first. */
  lemma MonthlyOriginsAscend(rows: seq<Row>)
    ensures var m := MonthlyPrices(rows);
            forall i, j :: 0 <= i < j < |m| ==> m[i].origin == m[j].origin || StrLt(m[i].origin, m[j].origin)
  {
    var m := MonthlyPrices(rows);
    var keys := MapSeq(m, MonthlyKey);
    forall i, j | 0 <= i < j < |m|
      ensures m[i].origin == m[j].origin || StrLt(m[i].origin, m[j].origin)
    {
      assert RouteMonthLt(keys[i], keys[j]);
    }
  }

  /** pandas `unique()`: each value once, in order of first appearance. */
  function Unique<T(==,!new)>(s: seq<T>): (u: seq<T>)
    ensures forall x :: x in u <==> x in s
    ensures forall i, j :: 0 <= i < j < |u| ==> u[i] != u[j]
    decreases |s|
  {
    if s == [] then []
    else
      var front := s[..|s| - 1];
      var u := Unique(front);
      assert s == front + [s[|s| - 1]];
      if s[|s| - 1] in front then u else u + [s[|s| - 1]]
  }

  /** `unique()` of a sequence that never decreases is strictly ascending. */
  lemma {:induction false} UniqueOfAscending<T(!new)>(s: seq<T>, lt: (T, T) -> bool)
    requires forall i, j :: 0 <= i < j < |s| ==> s[i] == s[j] || lt(s[i], s[j])
    ensures StrictlySorted(Unique(s), lt)
    decreases |s|
  {
    if s != [] {
      var n := |s| - 1;
      var front := s[..n];
      UniqueOfAscending(front, lt);
      assert s == front + [s[n]];
      var u := Unique(front);
      if s[n] !in front {
        forall i | 0 <= i < |u|
          ensures lt(u[i], s[n])
        {
          assert u[i] in front;
          var k :| 0 <= k < |front| && front[k] == u[i];
          assert s[k] == u[i];
        }
      }
    }
  }

  /** A row of `monthly_prices` with its index label (its position in the whole frame). */
  datatype Labelled = Labelled(frameIndex: nat, row: MonthlyPrice)

  /**
   * `monthly_prices[monthly_prices['origin'] == origin]`: the rows of one
   * origin in frame order, each keeping its index label.
   */
  function OriginRows(monthly: seq<MonthlyPrice>, origin: string): (d: seq<Labelled>)
    ensures |d| <= |monthly|
    ensures forall k :: 0 <= k < |d| ==>
              d[k].frameIndex < |monthly| && monthly[d[k].frameIndex] == d[k].row && d[k].row.origin == origin
    ensures forall i :: 0 <= i < |monthly| && monthly[i].origin == origin ==>
              exists k :: 0 <= k < |d| && d[k].frameIndex == i
    decreases |monthly|
  {
    if monthly == [] then []
    else
      var n := |monthly| - 1;
      var d := OriginRows(monthly[..n], origin);
      assert forall i :: 0 <= i < n ==> monthly[..n][i] == monthly[i];
      if monthly[n].origin == origin then
        var e := d + [Labelled(n, monthly[n])];
        assert e[|d|].frameIndex == n;
        assert forall k :: 0 <= k < |d| ==> e[k] == d[k];
        e
      else d
  }

  /** The known prices of an origin's rows, in order (`max`, `min` and the idx variants skip NaN). */
  function LabelledPrices(d: seq<Labelled>): (ps: seq<real>)
    ensures forall x :: x in ps <==> exists k :: 0 <= k < |d| && d[k].row.price == Real(x)
    decreases |d|
  {
    if d == [] then []
    else
      var rest := LabelledPrices(d[1..]);
      assert forall k :: 1 <= k < |d| ==> d[k] == d[1..][k - 1];
      if d[0].row.price.Real? then [d[0].row.price.r] + rest else rest
  }

  /** The position of the first row whose price is `v` (`idxmax` / `idxmin` report the first extreme). */
  function FirstAt(d: seq<Labelled>, v: real): (k: nat)
    requires exists k :: 0 <= k < |d| && d[k].row.price == Real(v)
    ensures k < |d| && d[k].row.price == Real(v)
    ensures forall j :: 0 <= j < k ==> d[j].row.price != Real(v)
    decreases |d|
  {
    if d[0].row.price == Real(v) then 0
    else
      assert forall j :: 1 <= j < |d| ==> d[j] == d[1..][j - 1];
      assert exists k :: 0 <= k < |d[1..]| && d[1..][k].row.price == Real(v) by {
        var k :| 0 <= k < |d| && d[k].row.price == Real(v);
        assert d[1..][k - 1] == d[k];
      }
      1 + FirstAt(d[1..], v)
  }

  /**
   * `max / min if min > 0 else 1` over an origin's known monthly medians (with
   * no known price both are NaN, the comparison fails and the ratio is 1).
   */
  function SpreadRatio(ps: seq<real>): (ratio: real)
    ensures ps != [] && MinOf(ps) > 0.0 ==> ratio == MaxOf(ps) / MinOf(ps)
    ensures ps == [] || MinOf(ps) <= 0.0 ==> ratio == 1.0
  {
    if ps != [] && MinOf(ps) > 0.0 then MaxOf(ps) / MinOf(ps) else 1.0
  }

  /** An origin is reported when it has more than one row and its ratio exceeds 1.5. */
  predicate WideSpread(d: seq<Labelled>)
  {
    |d| > 1 && SpreadRatio(LabelledPrices(d)) > 1.5
  }

  /**
   * The record rule 3 means to emit for one origin: the destination and month
   * of its (first) most expensive row and the month of its (first) cheapest
   * row.
   */
  function OriginSeasonality(monthly: seq<MonthlyPrice>, origin: string): (o: Option<Opportunity>)
    ensures o.Some? <==> WideSpread(OriginRows(monthly, origin))
    ensures o.Some? ==> o.value.SeasonalVariation? && o.value.origin == origin && o.value.priceRatio > 1.5
  {
    var d := OriginRows(monthly, origin);
    var ps := LabelledPrices(d);
    if !WideSpread(d) then None
    else
      var h := FirstAt(d, MaxOf(ps));
      var l := FirstAt(d, MinOf(ps));
      Some(SeasonalVariation(origin, d[h].row.destination, MonthName(d[h].row.month),
                             MonthName(d[l].row.month), SpreadRatio(ps)))
  }

  /**
   * A rule-3 record names the destination and month of a row of the origin
   * holding its highest known monthly median, the month of a row holding its
   * lowest, and the ratio of the two, which is above 1.5.
   */
  lemma SeasonalityNamesExtremes(monthly: seq<MonthlyPrice>, origin: string)
    requires OriginSeasonality(monthly, origin).Some?
    ensures var o := OriginSeasonality(monthly, origin).value;
            var ps := LabelledPrices(OriginRows(monthly, origin));
            && ps != [] && MinOf(ps) > 0.0 && o.priceRatio == MaxOf(ps) / MinOf(ps)
            && (exists i :: 0 <= i < |monthly| && monthly[i].origin == origin &&
                  monthly[i].destination == o.destination && MonthName(monthly[i].month) == o.highPriceMonth &&
                  monthly[i].price == Real(MaxOf(ps)))
            && (exists i :: 0 <= i < |monthly| && monthly[i].origin == origin &&
                  MonthName(monthly[i].month) == o.lowPriceMonth && monthly[i].price == Real(MinOf(ps)))
  {
    var d := OriginRows(monthly, origin);
    var ps := LabelledPrices(d);
    var h := FirstAt(d, MaxOf(ps));
    var l := FirstAt(d, MinOf(ps));
    assert monthly[d[h].frameIndex] == d[h].row;
    assert monthly[d[l].frameIndex] == d[l].row;
  }

  /** `OriginSeasonality` of the frame, as a function of the origin. */
  function SeasonalityIn(monthly: seq<MonthlyPrice>): string -> Option<Opportunity>
  {
    (origin: string) => OriginSeasonality(monthly, origin)
  }

  /** Rule 3 over the given origins, in order: the record of each origin that has one. */
  function SeasonalOver(monthly: seq<MonthlyPrice>, origins: seq<string>): (r: seq<Opportunity>)
    ensures |r| <= |origins|
  {
    Somes(MapSeq(origins, SeasonalityIn(monthly)))
  }

  /** The origin a record is about: the origin of its route, or the origin of a rule-3 record. */
  function OpportunityOrigin(o: Opportunity): string
  {
    match o
    case HighDemandHighPrice(route, _, _) => route.origin
    case WeekendPremium(route, _, _, _) => route.origin
    case SeasonalVariation(origin, _, _, _, _) => origin
  }

  /** Rule 3's records over some origins are seasonal records of those origins. */
  lemma SeasonalOverRecords(monthly: seq<MonthlyPrice>, origins: seq<string>)
    ensures var r := SeasonalOver(monthly, origins);
            forall i :: 0 <= i < |r| ==> r[i].SeasonalVariation? && r[i].origin in origins
  {
    var f := SeasonalityIn(monthly);
    SomesKeyed(origins, f, OpportunityOrigin, (o: Opportunity) => o.SeasonalVariation?);
  }

  /** Rule-3 records whose origins strictly ascend, so that no origin has two. */
  ghost predicate OriginsAscending(r: seq<Opportunity>)
  {
    forall i, j :: 0 <= i < j < |r| ==>
      r[i].SeasonalVariation? && r[j].SeasonalVariation? && StrLt(r[i].origin, r[j].origin)
  }

  /**
   * Over strictly ascending origins, rule 3's records are in strictly
   * ascending origin order, so there is one per origin at most.
   */
  lemma SeasonalOverFollowsOrigins(monthly: seq<MonthlyPrice>, origins: seq<string>)
    requires StrictlySorted(origins, StrLt)
    ensures OriginsAscending(SeasonalOver(monthly, origins))
  {
    var f := SeasonalityIn(monthly);
    SomesKeyed(origins, f, OpportunityOrigin, (o: Opportunity) => o.SeasonalVariation?);
    SomesFollowKeys(origins, f, OpportunityOrigin, StrLt);
  }

  /** The origins of `monthly_prices` in `unique()` order. */
  function Origins(monthly: seq<MonthlyPrice>): seq<string>
  {
    Unique(OriginColumn(monthly))
  }

  /** The origin column of the frame. */
  function OriginColumn(monthly: seq<MonthlyPrice>): (c: seq<string>)
    ensures |c| == |monthly| && forall i :: 0 <= i < |c| ==> c[i] == monthly[i].origin
  {
    MapSeq(monthly, (m: MonthlyPrice) => m.origin)
  }

  /** Rule 3 applies when the table has `month` and `price`. */
  predicate SeasonalRuleApplies(t: Table)
  {
    MonthCol in t.columns && PriceCol in t.columns
  }

  /** Rule 3: one record per origin whose monthly medians spread by more than 1.5, in origin order. */
  function SeasonalOpportunities(t: Table): (r: seq<Opportunity>)
    ensures !SeasonalRuleApplies(t) ==> r == []
  {
    if SeasonalRuleApplies(t) then
      var monthly := MonthlyPrices(t.rows);
      SeasonalOver(monthly, Origins(monthly))
    else []
  }

  /** Rule 3 reports exactly the origins of the table whose monthly medians spread widely. */
  lemma SeasonalOpportunitiesIff(t: Table, o: Opportunity)
    requires SeasonalRuleApplies(t)
    ensures var monthly := MonthlyPrices(t.rows);
            o in SeasonalOpportunities(t) <==>
              exists i :: 0 <= i < |monthly| && OriginSeasonality(monthly, monthly[i].origin) == Some(o)
  {
    var monthly := MonthlyPrices(t.rows);
    var keys := OriginColumn(monthly);
    var f := SeasonalityIn(monthly);
    SomesOverUnique(keys, f, o);
    assert forall i :: 0 <= i < |monthly| ==> f(keys[i]) == OriginSeasonality(monthly, monthly[i].origin);
  }

  /**
   * Rule 3 visits the origins in ascending order (the order of `unique()` on
   * the sorted frame), so its records have strictly ascending origins and
   * there is at most one per origin.
   */
  lemma SeasonalOpportunitiesAscend(t: Table)
    ensures OriginsAscending(SeasonalOpportunities(t))
  {
    if SeasonalRuleApplies(t) {
      var monthly := MonthlyPrices(t.rows);
      MonthlyOriginsAscend(t.rows);
      SeasonalOverOriginsAscend(monthly);
      assert SeasonalOpportunities(t) == SeasonalOver(monthly, Origins(monthly));
    }
  }

  /** Over a frame whose origins never descend, rule 3's records have strictly ascending origins. */
  lemma SeasonalOverOriginsAscend(monthly: seq<MonthlyPrice>)
    requires forall i, j :: 0 <= i < j < |monthly| ==>
               monthly[i].origin == monthly[j].origin || StrLt(monthly[i].origin, monthly[j].origin)
    ensures OriginsAscending(SeasonalOver(monthly, Origins(monthly)))
  {
    UniqueOfAscending(OriginColumn(monthly), StrLt);
    SeasonalOverFollowsOrigins(monthly, Origins(monthly));
  }

  /** Collecting the results of `f` over the distinct keys finds exactly the results of `f` at some key. */
  lemma SomesOverUnique<K(!new), T>(keys: seq<K>, f: K -> Option<T>, o: T)
    ensures o in Somes(MapSeq(Unique(keys), f)) <==> exists i :: 0 <= i < |keys| && f(keys[i]) == Some(o)
  {
    var u := Unique(keys);
    var xs := MapSeq(u, f);
    SomesMembers(xs, o);
    if Some(o) in xs {
      var i :| 0 <= i < |xs| && xs[i] == Some(o);
      assert u[i] in keys;
    }
    if exists i :: 0 <= i < |keys| && f(keys[i]) == Some(o) {
      var i :| 0 <= i < |keys| && f(keys[i]) == Some(o);
      assert keys[i] in u;
      var j :| 0 <= j < |u| && u[j] == keys[i];
      assert xs[j] == Some(o);
    }
  }

  /** Every result passes `good` and names, through `key`, one of the keys. */
  ghost predicate Keyed<K, T>(r: seq<T>, key: T -> K, good: T -> bool, keys: seq<K>)
  {
    forall i :: 0 <= i < |r| ==> good(r[i]) && key(r[i]) in keys
  }

  /** The keys the results name strictly ascend. */
  ghost predicate KeysAscend<K, T>(r: seq<T>, key: T -> K, lt: (K, K) -> bool)
  {
    forall i, j :: 0 <= i < j < |r| ==> lt(key(r[i]), key(r[j]))
  }

  /**
   * When each result names the key it was computed for (through `key`) and
   * passes `good`, the collected results pass `good` and name given keys.
   */
  lemma {:induction false} SomesKeyed<K, T>(keys: seq<K>, f: K -> Option<T>, key: T -> K, good: T -> bool)
    requires forall k :: f(k).Some? ==> good(f(k).value) && key(f(k).value) == k
    ensures Keyed(Somes(MapSeq(keys, f)), key, good, keys)
    decreases |keys|
  {
    if keys != [] {
      var n := |keys| - 1;
      var front := keys[..n];
      SomesKeyed(front, f, key, good);
      var xs := MapSeq(keys, f);
      assert xs[..n] == MapSeq(front, f);
      var prev := Somes(MapSeq(front, f));
      forall i | 0 <= i < |prev|
        ensures key(prev[i]) in keys
      {
        var k :| 0 <= k < |front| && front[k] == key(prev[i]);
        assert keys[k] == key(prev[i]);
      }
      assert Somes(xs) == if xs[n].Some? then prev + [xs[n].value] else prev;
    }
  }

  /** Over strictly ascending keys, results that name their keys come out in strictly ascending key order. */
  lemma {:induction false} SomesFollowKeys<K, T>(keys: seq<K>, f: K -> Option<T>, key: T -> K, lt: (K, K) -> bool)
    requires forall k :: f(k).Some? ==> key(f(k).value) == k
    requires StrictlySorted(keys, lt)
    ensures KeysAscend(Somes(MapSeq(keys, f)), key, lt)
    decreases |keys|
  {
    if keys != [] {
      var n := |keys| - 1;
      var front := keys[..n];
      assert StrictlySorted(front, lt) by {
        forall i, j | 0 <= i < j < |front| ensures lt(front[i], front[j]) {
          assert front[i] == keys[i] && front[j] == keys[j];
        }
      }
      SomesFollowKeys(front, f, key, lt);
      SomesKeyed(front, f, key, (t: T) => true);
      var xs := MapSeq(keys, f);
      assert xs[..n] == MapSeq(front, f);
      var prev := Somes(MapSeq(front, f));
      var r := Somes(xs);
      assert r == if xs[n].Some? then prev + [xs[n].value] else prev;
      forall i, j | 0 <= i < j < |r|
        ensures lt(key(r[i]), key(r[j]))
      {
        if j < |prev| {
          assert r[i] == prev[i] && r[j] == prev[j];
        } else {
          assert r[i] == prev[i] && r[j] == xs[n].value;
          var k :| 0 <= k < |front| && front[k] == key(prev[i]);
          assert lt(keys[k], keys[n]);
        }
      }
    }
  }

  /** Scans the keys in order: the first error ends the scan; otherwise the results that are present. */
  function SomesOrError<K, T, E>(keys: seq<K>, f: K -> Result<Option<T>, E>): (r: Result<seq<T>, E>)
    ensures r.Ok? ==> |r.value| <= |keys|
    decreases |keys|
  {
    if keys == [] then Ok([])
    else
      var n := |keys| - 1;
      match SomesOrError(keys[..n], f)
      case Err(e) => Err(e)
      case Ok(prev) =>
        match f(keys[n])
        case Err(e) => Err(e)
        case Ok(None) => Ok(prev)
        case Ok(Some(x)) => Ok(prev + [x])
  }

  /** The scan fails exactly when some key's result is an error. */
  lemma {:induction false} SomesOrErrorOk<K, T, E>(keys: seq<K>, f: K -> Result<Option<T>, E>)
    ensures SomesOrError(keys, f).Ok? <==> forall i :: 0 <= i < |keys| ==> f(keys[i]).Ok?
    decreases |keys|
  {
    if keys != [] {
      var n := |keys| - 1;
      SomesOrErrorOk(keys[..n], f);
      assert forall i :: 0 <= i < n ==> keys[..n][i] == keys[i];
    }
  }

  /** `SomesKeyed` for a scan that succeeds. */
  lemma {:induction false} SomesOrErrorKeyed<K, T, E>(keys: seq<K>, f: K -> Result<Option<T>, E>,
                                                     key: T -> K, good: T -> bool)
    requires forall k :: f(k).Ok? && f(k).value.Some? ==> good(f(k).value.value) && key(f(k).value.value) == k
    ensures SomesOrError(keys, f).Ok? ==> Keyed(SomesOrError(keys, f).value, key, good, keys)
    decreases |keys|
  {
    var r := SomesOrError(keys, f);
    if keys != [] && r.Ok? {
      var n := |keys| - 1;
      var front := keys[..n];
      SomesOrErrorKeyed(front, f, key, good);
      var prev := SomesOrError(front, f).value;
      forall i | 0 <= i < |prev|
        ensures key(prev[i]) in keys
      {
        var k :| 0 <= k < |front| && front[k] == key(prev[i]);
        assert keys[k] == key(prev[i]);
      }
    }
  }

  /** `SomesFollowKeys` for a scan that succeeds. */
  lemma {:induction false} SomesOrErrorFollowsKeys<K, T, E>(keys: seq<K>, f: K -> Result<Option<T>, E>,
                                                            key: T -> K, lt: (K, K) -> bool)
    requires forall k :: f(k).Ok? && f(k).value.Some? ==> key(f(k).value.value) == k
    requires StrictlySorted(keys, lt)
    ensures SomesOrError(keys, f).Ok? ==> KeysAscend(SomesOrError(keys, f).value, key, lt)
    decreases |keys|
  {
    var r := SomesOrError(keys, f);
    if keys != [] && r.Ok? {
      var n := |keys| - 1;
      var front := keys[..n];
      assert StrictlySorted(front, lt) by {
        forall i, j | 0 <= i < j < |front| ensures lt(front[i], front[j]) {
          assert front[i] == keys[i] && front[j] == keys[j];
        }
      }
      SomesOrErrorFollowsKeys(front, f, key, lt);
      SomesOrErrorKeyed(front, f, key, (t: T) => true);
      var prev := SomesOrError(front, f).value;
      forall i, j | 0 <= i < j < |r.value|
        ensures lt(key(r.value[i]), key(r.value[j]))
      {
        if j < |prev| {
          assert r.value[i] == prev[i] && r.value[j] == prev[j];
        } else {
          assert r.value[i] == prev[i] && r.value[j] == f(keys[n]).value.value;
          var k :| 0 <= k < |front| && front[k] == key(prev[i]);
          assert lt(keys[k], keys[n]);
        }
      }
    }
  }

  // ---------------------------------------------------------------- rule 3 as written

  /**
   * Rule 3 for one origin as the source writes it: `idxmax()` / `idxmin()`
   * return index labels of the whole `monthly_prices` frame, which `iloc`
   * then reads as positions within the origin's rows. A label past the end
   * of those rows raises IndexError; a smaller one reads some other row.
   */
  function OriginSeasonalityAsWritten(monthly: seq<MonthlyPrice>, origin: string)
    : (r: Result<Option<Opportunity>, PandasError>)
    ensures OriginSeasonality(monthly, origin).None? ==> r == Ok(None)
    ensures r.Err? ==> OriginSeasonality(monthly, origin).Some? &&
                       r.error.IndexError? && r.error.position >= |OriginRows(monthly, origin)|
    ensures r.Ok? && r.value.Some? ==> r.value.value.SeasonalVariation? && r.value.value.origin == origin
  {
    var d := OriginRows(monthly, origin);
    var ps := LabelledPrices(d);
    if !WideSpread(d) then Ok(None)
    else
      var hl := d[FirstAt(d, MaxOf(ps))].frameIndex;
      var ll := d[FirstAt(d, MinOf(ps))].frameIndex;
      if hl >= |d| then Err(IndexError(hl))
      else if ll >= |d| then Err(IndexError(ll))
      else
        Ok(Some(SeasonalVariation(origin, d[hl].row.destination, MonthName(d[hl].row.month),
                                  MonthName(d[ll].row.month), SpreadRatio(ps))))
  }

  /**
   * Rule 3 as written over the given origins, in order: the first IndexError
   * ends the scan; otherwise the record of each origin that has one.
   */
  function SeasonalOverAsWritten(monthly: seq<MonthlyPrice>, origins: seq<string>)
    : (r: Result<seq<Opportunity>, PandasError>)
    ensures r.Ok? ==> |r.value| <= |origins|
  {
    SomesOrError(origins, SeasonalityAsWrittenIn(monthly))
  }

  /** `OriginSeasonalityAsWritten` of the frame, as a function of the origin. */
  function SeasonalityAsWrittenIn(monthly: seq<MonthlyPrice>): string -> Result<Option<Opportunity>, PandasError>
  {
    (origin: string) => OriginSeasonalityAsWritten(monthly, origin)
  }

  /** The scan as written raises exactly when one of the origins raises. */
  lemma SeasonalOverAsWrittenRaises(monthly: seq<MonthlyPrice>, origins: seq<string>)
    ensures SeasonalOverAsWritten(monthly, origins).Ok? <==>
              forall i :: 0 <= i < |origins| ==> OriginSeasonalityAsWritten(monthly, origins[i]).Ok?
  {
    SomesOrErrorOk(origins, SeasonalityAsWrittenIn(monthly));
  }

  /**
   * When the scan as written succeeds, its records are seasonal records of
   * the given origins; over strictly ascending origins they come in strictly
   * ascending origin order, one per origin at most.
   */
  lemma SeasonalOverAsWrittenFollowsOrigins(monthly: seq<MonthlyPrice>, origins: seq<string>)
    ensures var r := SeasonalOverAsWritten(monthly, origins);
            r.Ok? ==> forall i :: 0 <= i < |r.value| ==> r.value[i].SeasonalVariation? && r.value[i].origin in origins
    ensures SeasonalOverAsWritten(monthly, origins).Ok? && StrictlySorted(origins, StrLt) ==>
              OriginsAscending(SeasonalOverAsWritten(monthly, origins).value)
  {
    var f := SeasonalityAsWrittenIn(monthly);
    SomesOrErrorKeyed(origins, f, OpportunityOrigin, (o: Opportunity) => o.SeasonalVariation?);
    if StrictlySorted(origins, StrLt) {
      SomesOrErrorFollowsKeys(origins, f, OpportunityOrigin, StrLt);
    }
  }

  /**
   * On a real `monthly_prices` frame, a successful scan as written has the
   * shape of the intended one: seasonal records in strictly ascending origin
   * order.
   */
  lemma SeasonalAsWrittenOrdered(rows: seq<Row>)
    ensures SeasonalOverAsWritten(MonthlyPrices(rows), Origins(MonthlyPrices(rows))).Ok? ==>
              OriginsAscending(SeasonalOverAsWritten(MonthlyPrices(rows), Origins(MonthlyPrices(rows))).value)
  {
    var monthly := MonthlyPrices(rows);
    MonthlyOriginsAscend(rows);
    UniqueOfAscending(OriginColumn(monthly), StrLt);
    SeasonalOverAsWrittenFollowsOrigins(monthly, Origins(monthly));
  }

  /** A `monthly_prices` frame: one row from origin A, then two from origin B. */
  const IlocExample: seq<MonthlyPrice> := [
    MonthlyPrice("A", "X", 1, Real(100.0)),
    MonthlyPrice("B", "Y", 1, Real(100.0)),
    MonthlyPrice("B", "Y", 6, Real(400.0))
  ]

  /**
   * In the frame above B's rows carry the labels 1 and 2. B's June median is
   * the maximum, at label 2, and `iloc[2]` on B's two rows raises
   * IndexError. The intended rule reports B to Y, June high and January low,
   * at ratio 4.
   */
  lemma SeasonalIlocCounterexample()
    ensures SeasonalOverAsWritten(IlocExample, Origins(IlocExample)) == Err(IndexError(2))
    ensures SeasonalOver(IlocExample, Origins(IlocExample)) == [SeasonalVariation("B", "Y", "June", "January", 4.0)]
  {
    ExampleOrigins();
    ExampleAsWritten();
    ExampleIntended();
  }

  lemma ExampleAsWritten()
    requires Origins(IlocExample) == ["A", "B"]
    ensures SeasonalOverAsWritten(IlocExample, ["A", "B"]) == Err(IndexError(2))
  {
    ExampleOriginA();
    ExampleOriginB();
    SomesOrErrorSecondRaises("A", "B", SeasonalityAsWrittenIn(IlocExample));
  }

  /** Two keys, of which the first has no result and the second raises, raise the second's error. */
  lemma SomesOrErrorSecondRaises<K, T, E>(a: K, b: K, f: K -> Result<Option<T>, E>)
    requires f(a) == Ok(None) && f(b).Err?
    ensures SomesOrError([a, b], f) == Err(f(b).error)
  {
    var ks := [a, b];
    assert ks[..1] == [a] && ks[..1][..0] == [];
    assert SomesOrError(ks[..1][..0], f) == Ok([]);
    assert SomesOrError(ks[..1], f) == Ok([]);
  }

  lemma ExampleIntended()
    ensures SeasonalOver(IlocExample, ["A", "B"]) == [SeasonalVariation("B", "Y", "June", "January", 4.0)]
  {
    ExampleOriginA();
    ExampleOriginB();
    SeasonalOverSecondOnly(IlocExample, "A", "B");
  }

  /** Two origins of which only the second has a record give that record alone. */
  lemma SeasonalOverSecondOnly(monthly: seq<MonthlyPrice>, a: string, b: string)
    requires OriginSeasonality(monthly, a).None? && OriginSeasonality(monthly, b).Some?
    ensures SeasonalOver(monthly, [a, b]) == [OriginSeasonality(monthly, b).value]
  {
    var f := SeasonalityIn(monthly);
    var xs := MapSeq([a, b], f);
    assert xs == [None, OriginSeasonality(monthly, b)];
    assert xs[..1] == [None] && xs[..1][..0] == [];
    assert Somes(xs[..1]) == [];
  }

  lemma ExampleOrigins()
    ensures Origins(IlocExample) == ["A", "B"]
  {
    var keys := OriginColumn(IlocExample);
    assert keys == ["A", "B", "B"];
    assert keys[..2][..1] == keys[..1] == ["A"];
    assert Unique(keys[..1]) == ["A"];
    assert Unique(keys[..2]) == ["A", "B"];
  }

  lemma ExampleOriginA()
    ensures OriginSeasonality(IlocExample, "A") == None
    ensures OriginSeasonalityAsWritten(IlocExample, "A") == Ok(None)
  {
    var m := IlocExample;
    assert m[..2][..1] == m[..1] == [m[0]];
    assert OriginRows(m[..1], "A") == [Labelled(0, m[0])];
    assert OriginRows(m[..2], "A") == [Labelled(0, m[0])];
    assert OriginRows(m, "A") == [Labelled(0, m[0])];
  }

  lemma ExampleRowsB()
    ensures OriginRows(IlocExample, "B") == [Labelled(1, IlocExample[1]), Labelled(2, IlocExample[2])]
  {
    var m := IlocExample;
    assert m[..2][..1] == m[..1] == [m[0]];
    assert OriginRows(m[..1], "B") == [];
    assert OriginRows(m[..2], "B") == [Labelled(1, m[1])];
  }

  lemma ExamplePricesB()
    ensures var d := OriginRows(IlocExample, "B");
            && LabelledPrices(d) == [100.0, 400.0]
            && FirstAt(d, 400.0) == 1 && FirstAt(d, 100.0) == 0
  {
    ExampleRowsB();
    var d := OriginRows(IlocExample, "B");
    assert d[1..] == [Labelled(2, IlocExample[2])];
    assert LabelledPrices(d[1..]) == [400.0];
  }

  lemma ExampleOriginB()
    ensures OriginSeasonality(IlocExample, "B") == Some(SeasonalVariation("B", "Y", "June", "January", 4.0))
    ensures OriginSeasonalityAsWritten(IlocExample, "B") == Err(IndexError(2))
  {
    ExampleRowsB();
    ExamplePricesB();
    var ps: seq<real> := [100.0, 400.0];
    assert MaxOf(ps) == 400.0 && MinOf(ps) == 100.0;
    assert SpreadRatio(ps) == 4.0;
  }

  // ---------------------------------------------------------------- the whole pass

  /** The records of the three rules, in rule order. */
  function MarketOpportunities(t: Table): seq<Opportunity>
  {
    HighDemandOpportunities(t) + WeekendOpportunities(t) + SeasonalOpportunities(t)
  }

  /** One more origin adds its record, if it has one, at the end. */
  lemma SeasonalOverStep(monthly: seq<MonthlyPrice>, origins: seq<string>, i: int)
    requires 0 <= i < |origins|
    ensures SeasonalOver(monthly, origins[..i + 1]) ==
              SeasonalOver(monthly, origins[..i]) +
              (match OriginSeasonality(monthly, origins[i]) case None => [] case Some(o) => [o])
  {
    var f := SeasonalityIn(monthly);
    var xs := MapSeq(origins[..i + 1], f);
    assert xs[..i] == MapSeq(origins[..i], f);
  }

  /** `for row in rows: records.append(f(row))`. */
  method AppendEach<T, U>(records: seq<U>, rows: seq<T>, f: T -> U) returns (r: seq<U>)
    ensures |r| == |records| + |rows|
    ensures r[..|records|] == records
    ensures forall i :: 0 <= i < |rows| ==> r[|records| + i] == f(rows[i])
    ensures r == records + MapSeq(rows, f)
  {
    r := records;
    for i := 0 to |rows|
      invariant |r| == |records| + i
      invariant r[..|records|] == records
      invariant forall k :: 0 <= k < i ==> r[|records| + k] == f(rows[k])
    {
      r := r + [f(rows[i])];
    }
    assert r[|records|..] == MapSeq(rows, f);
    assert r == r[..|records|] + r[|records|..];
  }

  /** Rule 3's loop over the origins, appending a record for each origin that has one. */
  method CollectSeasonal(t: Table) returns (records: seq<Opportunity>)
    ensures records == SeasonalOpportunities(t)
  {
    records := [];
    if SeasonalRuleApplies(t) {
      var monthly := MonthlyPrices(t.rows);
      var origins := Origins(monthly);
      for i := 0 to |origins|
        invariant records == SeasonalOver(monthly, origins[..i])
      {
        SeasonalOverStep(monthly, origins, i);
        var found := OriginSeasonality(monthly, origins[i]);
        if found.Some? {
          records := records + [found.value];
        }
      }
      assert origins[..|origins|] == origins;
    }
  }

  /** Rule 1's loop: `high_opportunity.head(5).iterrows()`, one record per row. */
  method CollectHighDemand(t: Table) returns (records: seq<Opportunity>)
    ensures records == HighDemandOpportunities(t)
  {
    records := [];
    if PriceCol in t.columns {
      var top := Head(Filter(RouteAnalysis(t.rows), AboveMedian(AnalysisMedian(t.rows))), RecordsPerRule);
      HighDemandRecords(t);
      for i := 0 to |top|
        invariant RecordsOf(records, top[..i])
      {
        records := AppendRecord(records, top, i);
      }
      assert top[..|top|] == top;
      RecordsOfUnique(records, HighDemandOpportunities(t), top);
    }
  }

  /** One step of rule 1's loop: the record of the next masked row. */
  method AppendRecord(records: seq<Opportunity>, top: seq<DemandPrice>, i: nat) returns (r: seq<Opportunity>)
    requires i < |top| && top[i].price.Real?
    requires RecordsOf(records, top[..i])
    ensures RecordsOf(r, top[..i + 1])
  {
    r := records + [HighDemandHighPrice(top[i].route, top[i].frequency, top[i].price.r)];
  }

  /** Rows determine their records. */
  lemma RecordsOfUnique(r1: seq<Opportunity>, r2: seq<Opportunity>, kept: seq<DemandPrice>)
    requires RecordsOf(r1, kept) && RecordsOf(r2, kept)
    ensures r1 == r2
  {
    assert forall i :: 0 <= i < |r1| ==> r1[i] == r2[i];
  }

  /** Rule 1's records are those of the first five masked rows of `route_analysis`. */
  lemma HighDemandRecords(t: Table)
    requires PriceCol in t.columns
    ensures RecordsOf(HighDemandOpportunities(t),
                      Head(Filter(RouteAnalysis(t.rows), AboveMedian(AnalysisMedian(t.rows))), RecordsPerRule))
  {
    var analysis := RouteAnalysis(t.rows);
    var m := AnalysisMedian(t.rows);
    AbovePriceIsFilter(analysis, m);
    RecordsOfHead(AbovePrice(analysis, m), Filter(analysis, AboveMedian(m)), RecordsPerRule);
  }

  /** The first `n` records are the records of the first `n` rows. */
  lemma RecordsOfHead(r: seq<Opportunity>, kept: seq<DemandPrice>, n: nat)
    requires RecordsOf(r, kept)
    ensures RecordsOf(Head(r, n), Head(kept, n))
  {
  }

  method CollectWeekendPremiums(t: Table) returns (records: seq<Opportunity>)
    ensures records == WeekendOpportunities(t)
  {
    records := [];
    if WeekendRuleApplies(t) {
      var top := Head(RankedPremiums(t.rows), RecordsPerRule);
      records := AppendEach(records, top, PremiumRecord);
      assert records == [] + MapSeq(top, PremiumRecord);
    }
  }

  /**
   * The pass as the source runs it: the three rules append their records to
   * one list, which ends up holding them in rule order.
   */
  method CollectOpportunities(t: Table) returns (ops: seq<Opportunity>)
    ensures ops == MarketOpportunities(t)
  {
    var first := CollectHighDemand(t);
    var second := CollectWeekendPremiums(t);
    var third := CollectSeasonal(t);
    ops := first + second + third;
  }
}
