/**
 * `DataProcessor.generate_summary_insights`: flight counts and the domestic
 * share, price averages, the five busiest origin and destination airports
 * with their city names, the busiest weekday and month, and the weekend price
 * premium. Rounding to one or two decimals is not modelled: every figure is
 * the exact quantity before `round`.
 */
module Summary {
  import opened Wrappers
  import opened Sequences
  import opened Ordering
  import opened Stats
  import opened Config
  import opened Flights
  import opened Grouping

  // ---------------------------------------------------------------- counts and the domestic share

  predicate IsDomesticRow(r: Row)
  {
    r.isDomestic
  }

  datatype DomesticSplit = DomesticSplit(domesticFlights: nat, internationalFlights: nat, domesticPercentage: Num)

  /**
   * `is_domestic.sum()`, the rest of the rows, and the domestic count as a
   * percentage of all rows (0 / 0 is NaN on an empty table).
   */
  function DomesticSplitOf(rows: seq<Row>): (s: DomesticSplit)
    ensures s.domesticFlights == Count(rows, IsDomesticRow)
    ensures s.domesticFlights + s.internationalFlights == |rows|
    ensures s.domesticPercentage.Real? <==> rows != []
  {
    var domestic := Count(rows, IsDomesticRow);
    var pct := if rows == [] then NaN else Real(domestic as real / |rows| as real * 100.0);
    DomesticSplit(domestic, |rows| - domestic, pct)
  }

  predicate IsInternationalRow(r: Row)
  {
    !r.isDomestic
  }

  /**
   * The international count is the number of non-domestic rows, and the
   * domestic percentage of a non-empty table lies between 0 and 100.
   */
  lemma DomesticSplitAddsUp(rows: seq<Row>)
    ensures DomesticSplitOf(rows).internationalFlights == Count(rows, IsInternationalRow)
    ensures rows != [] ==> 0.0 <= DomesticSplitOf(rows).domesticPercentage.r <= 100.0
  {
    FilterSplitCount(rows, IsDomesticRow, IsInternationalRow);
    if rows != [] {
      PercentageBetween(Count(rows, IsDomesticRow), |rows|);
    }
  }

  /** A part of a positive whole is between 0 and 100 percent of it. */
  lemma PercentageBetween(part: nat, whole: nat)
    requires 0 < whole && part <= whole
    ensures 0.0 <= part as real / whole as real * 100.0 <= 100.0
  {
    var q := part as real / whole as real;
    DivBetween(part as real, whole as real, 0.0, 1.0);
    assert 0.0 <= q * 100.0 <= 100.0;
  }

  // ---------------------------------------------------------------- prices

  /** The mean known price of the rows `keep` selects. */
  function MeanPriceWhere(rows: seq<Row>, keep: Row -> bool): Num
  {
    Mean(PricesOf(Filter(rows, keep)))
  }

  /**
   * `(weekend mean / weekday mean - 1) * 100`. A NaN mean gives NaN; a zero
   * weekday mean is NaN here too (the source's float division would give an
   * infinity or NaN).
   */
  function WeekendPremiumOf(rows: seq<Row>): (p: Num)
    ensures p.Real? ==> MeanPriceWhere(rows, (r: Row) => !r.isWeekend).Real?
  {
    var weekend := MeanPriceWhere(rows, (r: Row) => r.isWeekend);
    var weekday := MeanPriceWhere(rows, (r: Row) => !r.isWeekend);
    if weekend.Real? && weekday.Real? && weekday.r != 0.0 then Real((weekend.r / weekday.r - 1.0) * 100.0)
    else NaN
  }

  /** For a positive weekday mean the premium is positive exactly when weekend flights cost more on average. */
  lemma WeekendPremiumSign(rows: seq<Row>)
    requires MeanPriceWhere(rows, (r: Row) => r.isWeekend).Real?
    requires MeanPriceWhere(rows, (r: Row) => !r.isWeekend).Real?
    requires MeanPriceWhere(rows, (r: Row) => !r.isWeekend).r > 0.0
    ensures WeekendPremiumOf(rows).Real?
    ensures WeekendPremiumOf(rows).r > 0.0 <==>
              MeanPriceWhere(rows, (r: Row) => r.isWeekend).r > MeanPriceWhere(rows, (r: Row) => !r.isWeekend).r
  {
    var weekend := MeanPriceWhere(rows, (r: Row) => r.isWeekend).r;
    var weekday := MeanPriceWhere(rows, (r: Row) => !r.isWeekend).r;
    QuotientAboveOne(weekend, weekday);
  }

  lemma QuotientAboveOne(a: real, b: real)
    requires b > 0.0
    ensures a / b > 1.0 <==> a > b
  {
    var q := a / b;
    assert b * q == a;
    assert b * (q - 1.0) == a - b;
    if q > 1.0 {
      assert b * (q - 1.0) > 0.0;
    }
    if a > b {
      PositiveFactor(b, q - 1.0);
      assert q != 1.0;
    }
  }

  // ---------------------------------------------------------------- busiest airports

  /** One entry of `top_origins` / `top_destinations`; `city` is added by a later loop. */
  datatype AirportCount = AirportCount(code: string, count: nat, city: Option<string>)

  function ToAirportCount(c: Counted<string>): AirportCount
  {
    AirportCount(c.key, c.count, None)
  }

  /** `value_counts()` of an airport column: every code once, most frequent first, ties in code order. */
  function AirportRanking(codes: seq<string>): (vc: seq<Counted<string>>)
    ensures forall i, j :: 0 <= i < j < |vc| ==> vc[i].count >= vc[j].count && vc[i].key != vc[j].key
    ensures forall i :: 0 <= i < |vc| ==> vc[i].count == multiset(codes)[vc[i].key] > 0
    ensures forall code :: code in codes ==> Counted(code, multiset(codes)[code]) in vc
  {
    StrLtIsStrictTotal();
    ValueCounts(codes, StrLt)
  }

  /** `value_counts().head(5)` of an airport column: the five most frequent codes, most frequent first. */
  function TopAirports(codes: seq<string>): seq<AirportCount>
  {
    MapSeq(Head(AirportRanking(codes), 5), ToAirportCount)
  }

  /**
   * At most five airports, each with its number of rows and no city yet,
   * most frequent first and no code twice.
   */
  lemma TopAirportsRanked(codes: seq<string>)
    ensures var r := TopAirports(codes);
            && |r| <= 5
            && (forall i :: 0 <= i < |r| ==> r[i].count == multiset(codes)[r[i].code] > 0 && r[i].city.None?)
            && (forall i, j :: 0 <= i < j < |r| ==> r[i].count >= r[j].count && r[i].code != r[j].code)
  {
    TopAirportsFollowRanking(codes);
    var r := TopAirports(codes);
    forall i | 0 <= i < |r| ensures r[i].city.None? {
      assert r[i] == ToAirportCount(Head(AirportRanking(codes), 5)[i]);
    }
  }

  /** The list is the head of the ranking. */
  lemma TopAirportsFollowRanking(codes: seq<string>)
    ensures |TopAirports(codes)| == Min(5, |AirportRanking(codes)|)
    ensures forall i :: 0 <= i < |TopAirports(codes)| ==>
              TopAirports(codes)[i].code == AirportRanking(codes)[i].key &&
              TopAirports(codes)[i].count == AirportRanking(codes)[i].count
  {
    var vc := AirportRanking(codes);
    assert TopAirports(codes) == MapSeq(Head(vc, 5), ToAirportCount);
  }

  /**
   * The listed airports are the busiest: a code that is not listed means five
   * codes are, each at least as frequent.
   */
  lemma TopAirportsAreBusiest(codes: seq<string>, code: string)
    requires code in codes
    requires forall i :: 0 <= i < |TopAirports(codes)| ==> TopAirports(codes)[i].code != code
    ensures |TopAirports(codes)| == 5
    ensures forall i :: 0 <= i < 5 ==> TopAirports(codes)[i].count >= multiset(codes)[code]
  {
    var vc := AirportRanking(codes);
    var r := TopAirports(codes);
    var j :| 0 <= j < |vc| && vc[j] == Counted(code, multiset(codes)[code]);
    TopAirportsFollowRanking(codes);
    assert j >= |r|;
    RankedPrefixIsTop(vc, |r|, j);
  }

  function OriginCode(r: Row): string
  {
    r.origin
  }

  function DestinationCode(r: Row): string
  {
    r.destination
  }

  /** The entry with its city: the configured city of the code, or the code itself. */
  function WithCity(a: AirportCount): AirportCount
  {
    a.(city := Some(CityOf(a.code)))
  }

  /** The loop over `top_origins` / `top_destinations` that adds each entry's `city`. */
  method AttachCities(items: seq<AirportCount>) returns (r: seq<AirportCount>)
    ensures |r| == |items|
    ensures forall i :: 0 <= i < |r| ==>
              r[i].code == items[i].code && r[i].count == items[i].count && r[i].city == Some(CityOf(items[i].code))
  {
    r := items;
    for i := 0 to |r|
      invariant |r| == |items|
      invariant forall k :: 0 <= k < i ==> r[k] == WithCity(items[k])
      invariant forall k :: i <= k < |r| ==> r[k] == items[k]
    {
      r := r[i := WithCity(r[i])];
    }
  }

  // ---------------------------------------------------------------- busiest day and month

  function DayOfWeekKey(r: Row): Weekday
  {
    r.dayOfWeek
  }

  function MonthOfRow(r: Row): Month
  {
    r.month
  }

  /** The `day_of_week` column. */
  function DaysOf(rows: seq<Row>): (days: seq<Weekday>)
    ensures |days| == |rows|
  {
    MapSeq(rows, DayOfWeekKey)
  }

  /** The `month` column. */
  function MonthsOf(rows: seq<Row>): (months: seq<Month>)
    ensures |months| == |rows|
  {
    MapSeq(rows, MonthOfRow)
  }

  /** `day_of_week.value_counts().idxmax()` named; argmax of an empty column raises. */
  function BusiestDay(t: Table): (r: Result<Option<string>, PandasError>)
    ensures DayOfWeekCol !in t.columns ==> r == Ok(None)
    ensures DayOfWeekCol in t.columns ==> (r.Err? <==> t.rows == [])
    ensures r.Err? ==> r.error == EmptyArgmax(DayOfWeekCol)
  {
    if DayOfWeekCol !in t.columns then Ok(None)
    else
      WeekdayLtIsStrictTotal();
      match MostFrequent<Weekday>(DaysOf(t.rows), WeekdayLt)
      case None => Err(EmptyArgmax(DayOfWeekCol))
      case Some(d) => Ok(Some(DayName(d)))
  }

  /** `month.value_counts().idxmax()` named; argmax of an empty column raises. */
  function BusiestMonth(t: Table): (r: Result<Option<string>, PandasError>)
    ensures MonthCol !in t.columns ==> r == Ok(None)
    ensures MonthCol in t.columns ==> (r.Err? <==> t.rows == [])
    ensures r.Err? ==> r.error == EmptyArgmax(MonthCol)
  {
    if MonthCol !in t.columns then Ok(None)
    else
      MonthLtIsStrictTotal();
      match MostFrequent<Month>(MonthsOf(t.rows), MonthLt)
      case None => Err(EmptyArgmax(MonthCol))
      case Some(m) => Ok(Some(MonthName(m)))
  }

  /** The busiest day names a weekday with no fewer rows than any other, the earliest among equals. */
  lemma BusiestDayIsMostFrequent(t: Table)
    requires BusiestDay(t).Ok? && BusiestDay(t).value.Some?
    ensures exists d: Weekday ::
              && DayName(d) == BusiestDay(t).value.value
              && d in DaysOf(t.rows)
              && (forall e :: e in DaysOf(t.rows) ==>
                    multiset(DaysOf(t.rows))[e] <= multiset(DaysOf(t.rows))[d])
              && (forall e :: e in DaysOf(t.rows) && e < d ==>
                    multiset(DaysOf(t.rows))[e] < multiset(DaysOf(t.rows))[d])
  {
    WeekdayLtIsStrictTotal();
    var days := DaysOf(t.rows);
    var d: Weekday := MostFrequent<Weekday>(days, WeekdayLt).value;
    assert DayName(d) == BusiestDay(t).value.value;
    MostFrequentWeekday(days, d);
  }

  /** The most frequent weekday has no fewer rows than any other and is the earliest among equals. */
  lemma MostFrequentWeekday(days: seq<Weekday>, d: Weekday)
    requires days != [] && StrictTotalOrder(WeekdayLt)
    requires d == MostFrequent<Weekday>(days, WeekdayLt).value
    ensures d in days
    ensures forall e :: e in days ==> multiset(days)[e] <= multiset(days)[d]
    ensures forall e :: e in days && e < d ==> multiset(days)[e] < multiset(days)[d]
  {
    forall e | e in days && e < d
      ensures multiset(days)[e] < multiset(days)[d]
    {
      assert !WeekdayLt(d, e);
    }
  }

  /** The busiest month names a month with no fewer rows than any other, the earliest among equals. */
  lemma BusiestMonthIsMostFrequent(t: Table)
    requires BusiestMonth(t).Ok? && BusiestMonth(t).value.Some?
    ensures exists m: Month ::
              && MonthName(m) == BusiestMonth(t).value.value
              && m in MonthsOf(t.rows)
              && (forall e :: e in MonthsOf(t.rows) ==>
                    multiset(MonthsOf(t.rows))[e] <= multiset(MonthsOf(t.rows))[m])
              && (forall e :: e in MonthsOf(t.rows) && e < m ==>
                    multiset(MonthsOf(t.rows))[e] < multiset(MonthsOf(t.rows))[m])
  {
    MonthLtIsStrictTotal();
    var months := MonthsOf(t.rows);
    var m: Month := MostFrequent<Month>(months, MonthLt).value;
    assert MonthName(m) == BusiestMonth(t).value.value;
    MostFrequentMonth(months, m);
  }

  /** The most frequent month has no fewer rows than any other and is the earliest among equals. */
  lemma MostFrequentMonth(months: seq<Month>, m: Month)
    requires months != [] && StrictTotalOrder(MonthLt)
    requires m == MostFrequent<Month>(months, MonthLt).value
    ensures m in months
    ensures forall e :: e in months ==> multiset(months)[e] <= multiset(months)[m]
    ensures forall e :: e in months && e < m ==> multiset(months)[e] < multiset(months)[m]
  {
    forall e | e in months && e < m
      ensures multiset(months)[e] < multiset(months)[m]
    {
      assert !MonthLt(m, e);
    }
  }

  // ---------------------------------------------------------------- the summary

  datatype Summary = Summary(
    totalFlights: nat,
    domestic: Option<DomesticSplit>,
    avgPrice: Option<Num>,
    medianPrice: Option<Num>,
    avgDomesticPrice: Option<Num>,
    avgInternationalPrice: Option<Num>,
    topOrigins: seq<AirportCount>,
    topDestinations: seq<AirportCount>,
    busiestDay: Option<string>,
    weekendPricePremium: Option<Num>,
    busiestMonth: Option<string>)

  /** `weekend_price_premium` is computed only under the day-of-week branch, with both halves of the week present. */
  predicate WeekendPremiumKept(t: Table)
  {
    && DayOfWeekCol in t.columns && IsWeekendCol in t.columns && PriceCol in t.columns
    && Count(t.rows, (r: Row) => r.isWeekend) > 0 && Count(t.rows, (r: Row) => !r.isWeekend) > 0
  }

  /** The mean price of one side of the domestic split, kept when that side has rows. */
  function SideMeanPrice(t: Table, domestic: bool): Option<Num>
  {
    var keep := (r: Row) => r.isDomestic == domestic;
    if PriceCol in t.columns && IsDomesticCol in t.columns && Count(t.rows, keep) > 0
    then Some(MeanPriceWhere(t.rows, keep)) else None
  }

  /** The summary as the statements before the city loops leave it; the busiest day is looked up before the month. */
  function SummaryBeforeCities(t: Table): (r: Result<Summary, PandasError>)
    ensures r.Err? <==> (DayOfWeekCol in t.columns || MonthCol in t.columns) && t.rows == []
  {
    var rows := t.rows;
    var priced := PriceCol in t.columns;
    match BusiestDay(t)
    case Err(e) => Err(e)
    case Ok(day) =>
      match BusiestMonth(t)
      case Err(e) => Err(e)
      case Ok(month) =>
        Ok(Summary(
          |rows|,
          if IsDomesticCol in t.columns then Some(DomesticSplitOf(rows)) else None,
          if priced then Some(Mean(PricesOf(rows))) else None,
          if priced then Some(Median(PricesOf(rows))) else None,
          SideMeanPrice(t, true),
          SideMeanPrice(t, false),
          TopAirports(MapSeq(rows, OriginCode)),
          TopAirports(MapSeq(rows, DestinationCode)),
          day,
          if WeekendPremiumKept(t) then Some(WeekendPremiumOf(rows)) else None,
          month))
  }

  /** The summary stored under `summary`: the airport lists carry their cities. */
  function SummaryOf(t: Table): (r: Result<Summary, PandasError>)
    ensures r.Err? <==> SummaryBeforeCities(t).Err?
  {
    match SummaryBeforeCities(t)
    case Err(e) => Err(e)
    case Ok(s) =>
      Ok(s.(topOrigins := MapSeq(s.topOrigins, WithCity), topDestinations := MapSeq(s.topDestinations, WithCity)))
  }

  /**
   * The stored summary: the counts add up, and the weekend premium is present
   * exactly when both halves of the week have rows (under the day-of-week
   * branch).
   */
  lemma SummaryProperties(t: Table)
    requires SummaryOf(t).Ok?
    ensures var s := SummaryOf(t).value;
            && s.totalFlights == |t.rows|
            && (s.domestic.Some? <==> IsDomesticCol in t.columns)
            && (s.domestic.Some? ==> s.domestic.value.domesticFlights + s.domestic.value.internationalFlights == s.totalFlights)
            && (s.weekendPricePremium.Some? <==> WeekendPremiumKept(t))
            && (s.avgPrice.Some? <==> PriceCol in t.columns)
  {
  }

  /** Every stored top airport carries its number of rows and a city that falls back to its code. */
  lemma SummaryAirports(t: Table)
    requires SummaryOf(t).Ok?
    ensures var s := SummaryOf(t).value;
            && |s.topOrigins| <= 5 && |s.topDestinations| <= 5
            && (forall i :: 0 <= i < |s.topOrigins| ==>
                  s.topOrigins[i].count == multiset(MapSeq(t.rows, OriginCode))[s.topOrigins[i].code] &&
                  s.topOrigins[i].city == Some(CityOf(s.topOrigins[i].code)))
            && (forall i :: 0 <= i < |s.topDestinations| ==>
                  s.topDestinations[i].count == multiset(MapSeq(t.rows, DestinationCode))[s.topDestinations[i].code] &&
                  s.topDestinations[i].city == Some(CityOf(s.topDestinations[i].code)))
  {
    var s := SummaryOf(t).value;
    var origins := MapSeq(t.rows, OriginCode);
    var destinations := MapSeq(t.rows, DestinationCode);
    assert s.topOrigins == MapSeq(TopAirports(origins), WithCity);
    assert s.topDestinations == MapSeq(TopAirports(destinations), WithCity);
    CitiesAttached(origins);
    CitiesAttached(destinations);
  }

  /** Attaching cities keeps the top list's codes and counts. */
  lemma CitiesAttached(codes: seq<string>)
    ensures var r := MapSeq(TopAirports(codes), WithCity);
            && |r| <= 5
            && forall i :: 0 <= i < |r| ==>
                 r[i].count == multiset(codes)[r[i].code] && r[i].city == Some(CityOf(r[i].code))
  {
    TopAirportsRanked(codes);
  }
}
