/**
 * The per-pass aggregations of the DataProcessor analyses: route popularity,
 * daily and weekly price trends, monthly and day-of-week patterns with the
 * peak months, and the price statistics with their categories. The class in
 * module Processor runs them and stores what they return.
 */
module Analyses {
  import opened Wrappers
  import opened Sequences
  import opened Ordering
  import opened Stats
  import opened Config
  import opened Flights
  import opened Grouping

  // ---------------------------------------------------------------- popular routes

  /** One record of `popular_routes`. */
  datatype RouteCount = RouteCount(route: Route, frequency: nat, isDomestic: bool)

  function RouteKeys(rows: seq<Row>): seq<Route>
  {
    MapSeq(rows, RouteOf)
  }

  /** The number of rows of a route: its count in the (origin, destination) column pair. */
  function RouteFrequency(rows: seq<Row>, route: Route): nat
  {
    multiset(RouteKeys(rows))[route]
  }

  /** The count of a route is the size of its `groupby(['origin', 'destination'])` group. */
  lemma RouteFrequencyIsGroupSize(rows: seq<Row>, route: Route)
    ensures RouteFrequency(rows, route) == |RouteRows(rows, route)|
  {
    CountIsGroupSize(rows, RouteOf, route);
    RouteRowsAreGroupRows(rows, route);
  }

  /** Every route with its number of rows, most frequent first, ties in route order. */
  function RouteFrequencies(rows: seq<Row>): (vc: seq<Counted<Route>>)
    ensures forall i, j :: 0 <= i < j < |vc| ==> vc[i].count >= vc[j].count && vc[i].key != vc[j].key
    ensures forall i :: 0 <= i < |vc| ==> vc[i].count == RouteFrequency(rows, vc[i].key) > 0
    ensures forall k :: 0 <= k < |rows| ==> Counted(RouteOf(rows[k]), RouteFrequency(rows, RouteOf(rows[k]))) in vc
    ensures |vc| <= |rows|
  {
    RouteLtIsStrictTotal();
    var keys := RouteKeys(rows);
    assert forall k :: 0 <= k < |rows| ==> RouteOf(rows[k]) == keys[k] && keys[k] in keys;
    ValueCounts(keys, RouteLt)
  }

  function ToRouteCount(c: Counted<Route>): (rc: RouteCount)
    ensures rc.route == c.key && rc.frequency == c.count
    ensures rc.isDomestic <==> IsDomesticRoute(c.key.origin, c.key.destination)
  {
    RouteCount(c.key, c.count, IsDomesticRoute(c.key.origin, c.key.destination))
  }

  /** The first `topN` entries of the ranking (pandas `head`, so a negative `topN` drops that many from the end). */
  function TopRoutes(rows: seq<Row>, topN: int): (top: seq<Counted<Route>>)
    ensures topN >= 0 ==> |top| == Min(topN, |RouteFrequencies(rows)|)
    ensures |top| <= |RouteFrequencies(rows)|
    ensures forall i :: 0 <= i < |top| ==> top[i] == RouteFrequencies(rows)[i]
  {
    Head(RouteFrequencies(rows), topN)
  }

  /**
   * analyze_popular_routes: route frequencies sorted by frequency, the first
   * `topN`, each flagged domestic when both airports are Australian.
   */
  function PopularRoutes(rows: seq<Row>, topN: int): (r: seq<RouteCount>)
    ensures topN >= 0 ==> |r| <= topN
    ensures forall i, j :: 0 <= i < j < |r| ==> r[i].frequency >= r[j].frequency && r[i].route != r[j].route
    ensures forall i :: 0 <= i < |r| ==> r[i].frequency == RouteFrequency(rows, r[i].route) > 0
    ensures forall i :: 0 <= i < |r| ==> (r[i].isDomestic <==> IsDomesticRoute(r[i].route.origin, r[i].route.destination))
  {
    var top := TopRoutes(rows, topN);
    var vc := RouteFrequencies(rows);
    var r := MapSeq(top, ToRouteCount);
    forall i | 0 <= i < |r| ensures r[i].route == vc[i].key && r[i].frequency == vc[i].count {
      assert r[i] == ToRouteCount(top[i]);
    }
    r
  }

  /** The listed routes are the first entries of the ranking, in ranking order. */
  lemma PopularRoutesFollowRanking(rows: seq<Row>, topN: int)
    ensures var r := PopularRoutes(rows, topN);
            var vc := RouteFrequencies(rows);
            && |r| == |TopRoutes(rows, topN)| <= |vc|
            && forall i :: 0 <= i < |r| ==> r[i].route == vc[i].key && r[i].frequency == vc[i].count
  {
    var top := TopRoutes(rows, topN);
    assert PopularRoutes(rows, topN) == MapSeq(top, ToRouteCount);
  }

  /**
   * The entries are the top of the ranking: a route of the table that is left
   * out has no more rows than any route listed.
   */
  lemma PopularRoutesAreTop(rows: seq<Row>, topN: int, k: int)
    requires 0 <= k < |rows|
    requires forall i :: 0 <= i < |PopularRoutes(rows, topN)| ==> PopularRoutes(rows, topN)[i].route != RouteOf(rows[k])
    ensures forall i :: 0 <= i < |PopularRoutes(rows, topN)| ==>
              RouteFrequency(rows, RouteOf(rows[k])) <= PopularRoutes(rows, topN)[i].frequency
  {
    var vc := RouteFrequencies(rows);
    var r := PopularRoutes(rows, topN);
    var route := RouteOf(rows[k]);
    var j :| 0 <= j < |vc| && vc[j] == Counted(route, RouteFrequency(rows, route));
    PopularRoutesFollowRanking(rows, topN);
    assert j >= |r|;
    RankedPrefixIsTop(vc, |r|, j);
  }

  /** When `topN` is at least the number of rows, every route of the table is listed. */
  lemma PopularRoutesComplete(rows: seq<Row>, topN: int, k: int)
    requires 0 <= k < |rows| && topN >= |rows|
    ensures exists i :: 0 <= i < |PopularRoutes(rows, topN)| && PopularRoutes(rows, topN)[i].route == RouteOf(rows[k])
  {
    var vc := RouteFrequencies(rows);
    var route := RouteOf(rows[k]);
    var j :| 0 <= j < |vc| && vc[j] == Counted(route, RouteFrequency(rows, route));
    var r := PopularRoutes(rows, topN);
    PopularRoutesFollowRanking(rows, topN);
    assert |TopRoutes(rows, topN)| == |vc| by {
      assert |vc| <= |rows|;
    }
    assert 0 <= j < |r| && r[j].route == vc[j].key;
  }

  // ---------------------------------------------------------------- price trends

  /** `isocalendar()` week and year, written into the table as columns week and year. */
  function WithIsoWeek(r: Row): (w: Row)
  {
    r.(week := r.flightDate.isoWeek, year := r.flightDate.isoYear)
  }

  function AddIsoWeek(t: Table): (r: Table)
    ensures r.columns == t.columns + {WeekCol, YearCol} && r.dates == t.dates
    ensures |r.rows| == |t.rows|
    ensures forall i :: 0 <= i < |t.rows| ==> r.rows[i] == WithIsoWeek(t.rows[i])
  {
    t.(columns := t.columns + {WeekCol, YearCol}, rows := MapSeq(t.rows, WithIsoWeek))
  }

  function DayKey(r: Row): int
  {
    r.flightDate.day
  }

  function YearWeekKey(r: Row): (int, int)
  {
    (r.year, r.week)
  }

  /** daily_price_trends: one aggregate per flight date, in date order. */
  function DailyTrends(rows: seq<Row>): (r: seq<PriceGroup<int>>)
    ensures forall i, j :: 0 <= i < j < |r| ==> r[i].key < r[j].key
    ensures forall j :: 0 <= j < |r| ==> r[j] == AggregatePrices(rows, DayKey, r[j].key)
  {
    IntLtIsStrictTotal();
    GroupPrices(rows, DayKey, IntLt)
  }

  /** weekly_price_trends: one aggregate per ISO (year, week), in calendar order. */
  function WeeklyTrends(rows: seq<Row>): (r: seq<PriceGroup<(int, int)>>)
    ensures forall i, j :: 0 <= i < j < |r| ==> PairLt(r[i].key, r[j].key)
    ensures forall j :: 0 <= j < |r| ==> r[j] == AggregatePrices(rows, YearWeekKey, r[j].key)
  {
    PairLtIsStrictTotal();
    GroupPrices(rows, YearWeekKey, PairLt)
  }

  /** Every flight date of the table has its daily aggregate. */
  lemma DailyTrendsCoverDates(rows: seq<Row>)
    ensures forall i :: 0 <= i < |rows| ==>
              exists j :: 0 <= j < |DailyTrends(rows)| && DailyTrends(rows)[j].key == DayKey(rows[i])
  {
    IntLtIsStrictTotal();
    var r := DailyTrends(rows);
    assert r == GroupPrices(rows, DayKey, IntLt);
    GroupPricesCover(rows, DayKey, IntLt);
    forall i | 0 <= i < |rows| ensures exists j :: 0 <= j < |r| && r[j].key == DayKey(rows[i]) {
      var j :| 0 <= j < |r| && r[j].key == DayKey(rows[i]);
    }
  }

  /** Every ISO week of the table has its weekly aggregate. */
  lemma WeeklyTrendsCoverWeeks(rows: seq<Row>)
    ensures forall i :: 0 <= i < |rows| ==>
              exists j :: 0 <= j < |WeeklyTrends(rows)| && WeeklyTrends(rows)[j].key == YearWeekKey(rows[i])
  {
    PairLtIsStrictTotal();
    var r := WeeklyTrends(rows);
    assert r == GroupPrices(rows, YearWeekKey, PairLt);
    GroupPricesCover(rows, YearWeekKey, PairLt);
    forall i | 0 <= i < |rows| ensures exists j :: 0 <= j < |r| && r[j].key == YearWeekKey(rows[i]) {
      var j :| 0 <= j < |r| && r[j].key == YearWeekKey(rows[i]);
    }
  }

  // ---------------------------------------------------------------- seasonal patterns

  /**
   * `monthly_patterns` or `day_of_week_patterns`: with a price column, the
   * mean, median and number of prices of each group; without one, the number
   * of rows of each group. Groups are in ascending key order.
   */
  datatype Patterns<K> = Priced(groups: seq<PriceGroup<K>>) | Unpriced(counts: seq<Counted<K>>)

  /** The `flight_count` column: each group's key with its count. */
  function FlightCounts<K>(p: Patterns<K>): (c: seq<Counted<K>>)
    ensures p.Priced? ==> |c| == |p.groups| && forall j :: 0 <= j < |c| ==> c[j] == Counted(p.groups[j].key, p.groups[j].flightCount)
    ensures p.Unpriced? ==> c == p.counts
  {
    match p
    case Priced(groups) => MapSeq(groups, (g: PriceGroup<K>) => Counted(g.key, g.flightCount))
    case Unpriced(counts) => counts
  }

  /**
   * The aggregation of lines 162-164 and 174-176 as the pass intends it: price
   * aggregates when the table has prices, row counts otherwise.
   */
  function GroupPatterns<K(==,!new)>(t: Table, key: Row -> K, lt: (K, K) -> bool): (p: Patterns<K>)
    requires StrictTotalOrder(lt)
    ensures p.Priced? <==> PriceCol in t.columns
    ensures p.Priced? ==> forall j :: 0 <= j < |p.groups| ==> p.groups[j] == AggregatePrices(t.rows, key, p.groups[j].key)
    ensures p.Unpriced? ==> forall j :: 0 <= j < |p.counts| ==> p.counts[j].count == |GroupRows(t.rows, key, p.counts[j].key)| > 0
  {
    if PriceCol in t.columns then Priced(GroupPrices(t.rows, key, lt))
    else Unpriced(GroupCounts(t.rows, key, lt))
  }

  /** Every group key of the table is listed once, in ascending order, with its count. */
  lemma GroupPatternsCover<K(!new)>(t: Table, key: Row -> K, lt: (K, K) -> bool)
    requires StrictTotalOrder(lt)
    ensures var c := FlightCounts(GroupPatterns(t, key, lt));
            && (forall i, j :: 0 <= i < j < |c| ==> lt(c[i].key, c[j].key))
            && (forall i :: 0 <= i < |t.rows| ==> exists j :: 0 <= j < |c| && c[j].key == key(t.rows[i]))
  {
    if PriceCol in t.columns {
      PricedCountsCover(t.rows, key, lt);
    } else {
      assert FlightCounts(GroupPatterns(t, key, lt)) == GroupCounts(t.rows, key, lt);
    }
  }

  lemma PricedCountsCover<K(!new)>(rows: seq<Row>, key: Row -> K, lt: (K, K) -> bool)
    requires StrictTotalOrder(lt)
    ensures var c := FlightCounts(Priced(GroupPrices(rows, key, lt)));
            && (forall i, j :: 0 <= i < j < |c| ==> lt(c[i].key, c[j].key))
            && (forall i :: 0 <= i < |rows| ==> exists j :: 0 <= j < |c| && c[j].key == key(rows[i]))
  {
    var g := GroupPrices(rows, key, lt);
    var c := FlightCounts(Priced(g));
    GroupPricesCover(rows, key, lt);
    forall i | 0 <= i < |rows| ensures exists j :: 0 <= j < |c| && c[j].key == key(rows[i]) {
      var j :| 0 <= j < |g| && g[j].key == key(rows[i]);
      assert c[j].key == g[j].key;
    }
  }

  function MonthKey(r: Row): Month
  {
    r.month
  }

  function WeekdayKey(r: Row): Weekday
  {
    r.dayOfWeek
  }

  /** `df['month'] = df['flight_date'].dt.month` on a table that lacks the month column. */
  function AddMonth(t: Table): (r: Table)
    ensures r.columns == t.columns + {MonthCol} && r.dates == t.dates && |r.rows| == |t.rows|
    ensures forall i :: 0 <= i < |t.rows| ==> r.rows[i] == t.rows[i].(month := t.rows[i].flightDate.month)
  {
    t.(columns := t.columns + {MonthCol}, rows := MapSeq(t.rows, (r: Row) => r.(month := r.flightDate.month)))
  }

  /** monthly_patterns as the pass intends them. */
  function MonthlyPatterns(t: Table): (p: Patterns<Month>)
    ensures p.Priced? <==> PriceCol in t.columns
    ensures p.Priced? ==> forall j :: 0 <= j < |p.groups| ==> p.groups[j] == AggregatePrices(t.rows, MonthKey, p.groups[j].key)
    ensures p.Unpriced? ==> forall j :: 0 <= j < |p.counts| ==> p.counts[j].count == |GroupRows(t.rows, MonthKey, p.counts[j].key)| > 0
  {
    MonthLtIsStrictTotal();
    GroupPatterns(t, MonthKey, MonthLt)
  }

  /** Every month of the table is reported once, January first. */
  lemma MonthlyPatternsCoverMonths(t: Table)
    ensures var c := FlightCounts(MonthlyPatterns(t));
            && (forall i, j :: 0 <= i < j < |c| ==> c[i].key < c[j].key)
            && (forall i :: 0 <= i < |t.rows| ==> exists j :: 0 <= j < |c| && c[j].key == t.rows[i].month)
  {
    MonthLtIsStrictTotal();
    GroupPatternsCover(t, MonthKey, MonthLt);
  }

  /**
   * monthly_patterns as written at lines 162-164: without a price column the
   * aggregation still names 'price', which pandas rejects with KeyError.
   */
  function MonthlyPatternsAsWritten(t: Table): (r: Result<Patterns<Month>, PandasError>)
    ensures r.Err? <==> PriceCol !in t.columns
    ensures r.Err? ==> r.error == KeyError(PriceCol)
  {
    if PriceCol in t.columns then Ok(MonthlyPatterns(t))
    else Err(KeyError(PriceCol))
  }

  /**
   * Without a price column the pass as written raises, while the intended one
   * reports every month of the table with its number of rows.
   */
  lemma SeasonalWithoutPricesRaises(t: Table)
    requires PriceCol !in t.columns && t.rows != []
    ensures MonthlyPatternsAsWritten(t) == Err(KeyError(PriceCol))
    ensures MonthlyPatterns(t).Unpriced? && MonthlyPatterns(t).counts != []
    ensures forall j :: 0 <= j < |MonthlyPatterns(t).counts| ==>
              MonthlyPatterns(t).counts[j].count == |GroupRows(t.rows, MonthKey, MonthlyPatterns(t).counts[j].key)| > 0
  {
    MonthlyPatternsCoverMonths(t);
    var c := FlightCounts(MonthlyPatterns(t));
    var j :| 0 <= j < |c| && c[j].key == t.rows[0].month;
  }

  /** day_of_week_patterns: the weekday groups, each with the weekday's name. */
  datatype DayPatterns = DayPatterns(patterns: Patterns<Weekday>, dayNames: seq<string>)

  function DayOfWeekPatterns(t: Table): (r: DayPatterns)
    ensures r.patterns.Priced? <==> PriceCol in t.columns
    ensures r.patterns.Priced? ==> forall j :: 0 <= j < |r.patterns.groups| ==>
              r.patterns.groups[j] == AggregatePrices(t.rows, WeekdayKey, r.patterns.groups[j].key)
    ensures r.patterns.Unpriced? ==> forall j :: 0 <= j < |r.patterns.counts| ==>
              r.patterns.counts[j].count == |GroupRows(t.rows, WeekdayKey, r.patterns.counts[j].key)| > 0
    ensures |r.dayNames| == |FlightCounts(r.patterns)|
    ensures forall i :: 0 <= i < |r.dayNames| ==> r.dayNames[i] == DayNames[FlightCounts(r.patterns)[i].key]
  {
    WeekdayLtIsStrictTotal();
    var p := GroupPatterns(t, WeekdayKey, WeekdayLt);
    DayPatterns(p, MapSeq(FlightCounts(p), (c: Counted<Weekday>) => DayName(c.key)))
  }

  /** Every weekday of the table is reported once, Monday first. */
  lemma DayOfWeekPatternsCoverDays(t: Table)
    ensures var c := FlightCounts(DayOfWeekPatterns(t).patterns);
            && (forall i, j :: 0 <= i < j < |c| ==> c[i].key < c[j].key)
            && (forall i :: 0 <= i < |t.rows| ==> exists j :: 0 <= j < |c| && c[j].key == t.rows[i].dayOfWeek)
  {
    WeekdayLtIsStrictTotal();
    GroupPatternsCover(t, WeekdayKey, WeekdayLt);
  }

  /** The months ranked by flight count, larger first, earlier month first on ties. */
  function RankedMonths(monthly: seq<Counted<Month>>): (r: seq<Counted<Month>>)
    requires forall i, j :: 0 <= i < j < |monthly| ==> monthly[i].key < monthly[j].key
    ensures |r| == |monthly|
    ensures forall c :: c in r <==> c in monthly
    ensures forall i, j :: 0 <= i < j < |r| ==> r[i].count >= r[j].count
    ensures forall i, j :: 0 <= i < j < |r| && r[i].count == r[j].count ==> r[i].key < r[j].key
  {
    MonthLtIsStrictTotal();
    RankByCount(monthly, MonthLt)
  }

  /** peak_travel_periods before naming: the first two months of the ranking. */
  function PeakMonths(monthly: seq<Counted<Month>>): (r: seq<Month>)
    requires forall i, j :: 0 <= i < j < |monthly| ==> monthly[i].key < monthly[j].key
    ensures |r| == Min(2, |monthly|)
    ensures forall i :: 0 <= i < |r| ==> exists j :: 0 <= j < |monthly| && monthly[j].key == r[i]
  {
    var ranked := RankedMonths(monthly);
    var r := MapSeq(Head(ranked, 2), (c: Counted<Month>) => c.key);
    forall i | 0 <= i < |r| ensures exists j :: 0 <= j < |monthly| && monthly[j].key == r[i] {
      assert r[i] == ranked[i].key;
      assert ranked[i] in monthly;
    }
    r
  }

  /**
   * The peak months are the busiest: a month left out has no larger flight
   * count than any month chosen.
   */
  lemma PeakMonthsAreBusiest(monthly: seq<Counted<Month>>, j: int, i: int)
    requires forall a, b :: 0 <= a < b < |monthly| ==> monthly[a].key < monthly[b].key
    requires 0 <= j < |monthly| && monthly[j].key !in PeakMonths(monthly)
    requires 0 <= i < |PeakMonths(monthly)|
    ensures exists k :: 0 <= k < |monthly| && monthly[k].key == PeakMonths(monthly)[i]
                        && monthly[j].count <= monthly[k].count
  {
    var ranked := RankedMonths(monthly);
    var peaks := PeakMonths(monthly);
    assert monthly[j] in ranked;
    var m :| 0 <= m < |ranked| && ranked[m] == monthly[j];
    assert forall a :: 0 <= a < |peaks| ==> peaks[a] == ranked[a].key;
    assert m >= |peaks|;
    RankedPrefixIsTop(ranked, |peaks|, m);
    assert ranked[i] in monthly;
    var k :| 0 <= k < |monthly| && monthly[k] == ranked[i];
  }

  /** The pass as a whole: monthly patterns, weekday patterns when the column exists, and the peak months. */
  datatype Seasonal = Seasonal(monthly: Patterns<Month>, dayOfWeek: Option<DayPatterns>, peakMonths: seq<Month>)

  function SeasonalOf(t: Table): (r: Seasonal)
    ensures r.dayOfWeek.Some? <==> DayOfWeekCol in t.columns
    ensures r.monthly.Priced? <==> PriceCol in t.columns
    ensures |r.peakMonths| == Min(2, |FlightCounts(r.monthly)|)
  {
    var monthly := MonthlyPatterns(t);
    MonthlyPatternsCoverMonths(t);
    var peaks := PeakMonths(FlightCounts(monthly));
    Seasonal(monthly, if DayOfWeekCol in t.columns then Some(DayOfWeekPatterns(t)) else None, peaks)
  }

  /** Each peak month is the month of some row of the table. */
  lemma PeakMonthsArePresent(t: Table, i: int)
    requires 0 <= i < |SeasonalOf(t).peakMonths|
    ensures exists j :: 0 <= j < |t.rows| && t.rows[j].month == SeasonalOf(t).peakMonths[i]
  {
    var counts := FlightCounts(MonthlyPatterns(t));
    MonthlyPatternsCoverMonths(t);
    assert SeasonalOf(t).peakMonths == PeakMonths(counts);
    var k := PeakMonthIsCounted(counts, i);
    MonthlyKeyIsPresent(t, k);
  }

  /** The position in the monthly counts of peak month `i`. */
  lemma PeakMonthIsCounted(counts: seq<Counted<Month>>, i: int) returns (k: int)
    requires forall i, j :: 0 <= i < j < |counts| ==> counts[i].key < counts[j].key
    requires 0 <= i < |PeakMonths(counts)|
    ensures 0 <= k < |counts| && counts[k].key == PeakMonths(counts)[i]
  {
    k :| 0 <= k < |counts| && counts[k].key == PeakMonths(counts)[i];
  }

  /** A month the patterns report is the month of some row. */
  lemma MonthlyKeyIsPresent(t: Table, k: int)
    requires 0 <= k < |FlightCounts(MonthlyPatterns(t))|
    ensures exists j :: 0 <= j < |t.rows| && t.rows[j].month == FlightCounts(MonthlyPatterns(t))[k].key
  {
    MonthLtIsStrictTotal();
    var p := MonthlyPatterns(t);
    var c := FlightCounts(p);
    var m := c[k].key;
    if PriceCol in t.columns {
      assert m == p.groups[k].key;
      assert m in MapSeq(t.rows, MonthKey);
    } else {
      assert |GroupRows(t.rows, MonthKey, m)| > 0;
      var g := GroupRows(t.rows, MonthKey, m);
      assert g[0] in t.rows;
    }
  }

  function PeakMonthNames(months: seq<Month>): (names: seq<string>)
    ensures |names| == |months|
    ensures forall i :: 0 <= i < |months| ==> names[i] == MonthNames[months[i] - 1]
  {
    MapSeq(months, MonthName)
  }

  // ---------------------------------------------------------------- price distribution

  /** price_stats without the sample standard deviation. */
  datatype PriceStats = PriceStats(min: Num, max: Num, mean: Num, median: Num, q1: Num, q3: Num)

  /** Column statistics of the non-missing prices; all NaN when there is none. */
  function PriceStatsOf(rows: seq<Row>): (s: PriceStats)
    ensures s.min.Real? <==> PricesOf(rows) != []
    ensures PricesOf(rows) == [] ==> s == PriceStats(NaN, NaN, NaN, NaN, NaN, NaN)
    ensures s.min.Real? ==>
              && s.max.Real? && s.mean.Real? && s.median.Real? && s.q1.Real? && s.q3.Real?
              && s.min.r <= s.q1.r <= s.median.r <= s.q3.r <= s.max.r
              && s.min.r <= s.mean.r <= s.max.r
  {
    var ps := PricesOf(rows);
    var s := PriceStats(Minimum(ps), Maximum(ps), Mean(ps), Median(ps), Quantile(ps, 1), Quantile(ps, 3));
    if ps == [] then s
    else
      MeanBounds(ps);
      MedianIsHalfQuantile(ps);
      QuantileMonotone(ps, 1, 2);
      QuantileMonotone(ps, 2, 3);
      s
  }

  /**
   * `pd.cut(bins=[0, 200, 500, 1000, inf])`: right-closed intervals, so 200 is
   * Budget and 1000 Premium; a price of 0 or below, or a missing one, has no
   * category.
   */
  function CategoryOf(price: Option<real>): (c: Option<Category>)
    ensures c.Some? <==> price.Some? && price.value > 0.0
  {
    if price.None? || price.value <= 0.0 then None
    else if price.value <= 200.0 then Some(Budget)
    else if price.value <= 500.0 then Some(Economy)
    else if price.value <= 1000.0 then Some(Premium)
    else Some(Luxury)
  }

  function CategoryRank(c: Category): int
  {
    match c
    case Budget => 0
    case Economy => 1
    case Premium => 2
    case Luxury => 3
  }

  predicate CategoryLt(a: Category, b: Category)
  {
    CategoryRank(a) < CategoryRank(b)
  }

  lemma CategoryLtIsStrictTotal()
    ensures StrictTotalOrder(CategoryLt)
  {
  }

  /** A higher price never falls in a lower category. */
  lemma CategoryMonotone(p: real, q: real)
    requires 0.0 < p <= q
    ensures CategoryRank(CategoryOf(Some(p)).value) <= CategoryRank(CategoryOf(Some(q)).value)
  {
  }

  /** The bin edges belong to the lower category. */
  lemma CategoryEdges()
    ensures CategoryOf(Some(200.0)) == Some(Budget)
    ensures CategoryOf(Some(500.0)) == Some(Economy)
    ensures CategoryOf(Some(1000.0)) == Some(Premium)
    ensures CategoryOf(Some(0.0)) == None
  {
  }

  /** The price_category column, as `df['price_category'] = pd.cut(...)` adds it. */
  function Categorize(t: Table): (r: Table)
    ensures r.columns == t.columns + {PriceCategoryCol} && r.dates == t.dates && |r.rows| == |t.rows|
    ensures forall i :: 0 <= i < |t.rows| ==>
              r.rows[i] == t.rows[i].(priceCategory := CategoryOf(t.rows[i].price))
  {
    t.(columns := t.columns + {PriceCategoryCol},
       rows := MapSeq(t.rows, (r: Row) => r.(priceCategory := CategoryOf(r.price))))
  }

  /** Number of rows whose price falls in category `c`. */
  function CategoryCount(rows: seq<Row>, c: Category): nat
    decreases |rows|
  {
    if rows == [] then 0
    else (if CategoryOf(rows[0].price) == Some(c) then 1 else 0) + CategoryCount(rows[1..], c)
  }

  const AllCategories: seq<Category> := [Budget, Economy, Premium, Luxury]

  /**
   * price_categories: `value_counts()` of a categorical column lists every
   * category, empty ones included, most frequent first; equal counts keep the
   * category order.
   */
  function CategoryCounts(rows: seq<Row>): (r: seq<Counted<Category>>)
    ensures |r| == 4
    ensures forall c :: Counted(c, CategoryCount(rows, c)) in r
    ensures forall i :: 0 <= i < |r| ==> r[i].count == CategoryCount(rows, r[i].key)
    ensures forall i, j :: 0 <= i < j < |r| ==> r[i].count >= r[j].count
    ensures forall i, j :: 0 <= i < j < |r| && r[i].count == r[j].count ==> CategoryLt(r[i].key, r[j].key)
  {
    CategoryLtIsStrictTotal();
    var counted := MapSeq(AllCategories, (c: Category) => Counted(c, CategoryCount(rows, c)));
    var r := RankByCount(counted, CategoryLt);
    assert forall c :: Counted(c, CategoryCount(rows, c)) in counted by {
      forall c ensures Counted(c, CategoryCount(rows, c)) in counted {
        assert counted[CategoryRank(c)] == Counted(c, CategoryCount(rows, c));
      }
    }
    assert forall i :: 0 <= i < |r| ==> r[i].count == CategoryCount(rows, r[i].key) by {
      forall i | 0 <= i < |r| ensures r[i].count == CategoryCount(rows, r[i].key) {
        assert r[i] in counted;
      }
    }
    r
  }

  predicate HasPositivePrice(r: Row)
  {
    r.price.Some? && r.price.value > 0.0
  }

  /** The four category counts add up to the number of rows with a positive price. */
  lemma {:induction false} CategoryCountsCoverPositivePrices(rows: seq<Row>)
    ensures CategoryCount(rows, Budget) + CategoryCount(rows, Economy)
            + CategoryCount(rows, Premium) + CategoryCount(rows, Luxury)
            == Count(rows, HasPositivePrice)
    decreases |rows|
  {
    if rows != [] {
      CategoryCountsCoverPositivePrices(rows[1..]);
      assert Count(rows, HasPositivePrice) == (if HasPositivePrice(rows[0]) then 1 else 0) + Count(rows[1..], HasPositivePrice);
    }
  }
}
