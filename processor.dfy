/**
 * The `DataProcessor` object: the raw table, the cleaned table that the
 * analyses read and extend with derived columns, and the insights dictionary
 * every analysis writes its results into.
 */
module Processor {
  import opened Wrappers
  import opened Sequences
  import opened Flights
  import opened Grouping
  import opened Cleaning
  import opened Analyses
  import opened Opportunities
  import opened Summary

  // ---------------------------------------------------------------- the insights dictionary

  /** The keys the analyses write. */
  datatype InsightKey =
    | PopularRoutesKey | DailyPriceTrendsKey | WeeklyPriceTrendsKey
    | DayOfWeekPatternsKey | MonthlyPatternsKey | PeakTravelPeriodsKey
    | PriceStatsKey | PriceCategoriesKey | MarketOpportunitiesKey | SummaryKey

  /** The value stored under each key. */
  datatype InsightValue =
    | RoutesValue(routes: seq<RouteCount>)
    | DailyValue(daily: seq<PriceGroup<int>>)
    | WeeklyValue(weekly: seq<PriceGroup<(int, int)>>)
    | DayPatternsValue(days: DayPatterns)
    | MonthlyValue(monthly: Patterns<Month>)
    | PeakPeriodsValue(names: seq<string>)
    | StatsValue(stats: PriceStats)
    | CategoriesValue(categories: seq<Counted<Category>>)
    | OpportunitiesValue(opportunities: seq<Opportunity>)
    | SummaryValue(summary: Summary)

  /** The dictionary key each insight is stored under. */
  function KeyName(k: InsightKey): string
  {
    match k
    case PopularRoutesKey => "popular_routes"
    case DailyPriceTrendsKey => "daily_price_trends"
    case WeeklyPriceTrendsKey => "weekly_price_trends"
    case DayOfWeekPatternsKey => "day_of_week_patterns"
    case MonthlyPatternsKey => "monthly_patterns"
    case PeakTravelPeriodsKey => "peak_travel_periods"
    case PriceStatsKey => "price_stats"
    case PriceCategoriesKey => "price_categories"
    case MarketOpportunitiesKey => "market_opportunities"
    case SummaryKey => "summary"
  }

  const AllKeys: seq<InsightKey> := [
    PopularRoutesKey, DailyPriceTrendsKey, WeeklyPriceTrendsKey, DayOfWeekPatternsKey, MonthlyPatternsKey,
    PeakTravelPeriodsKey, PriceStatsKey, PriceCategoriesKey, MarketOpportunitiesKey, SummaryKey]

  /** The key a category string names, if any. */
  function KeyNamed(name: string): (k: Option<InsightKey>)
    ensures k.Some? ==> KeyName(k.value) == name
  {
    KeyNamedIn(AllKeys, name)
  }

  function KeyNamedIn(keys: seq<InsightKey>, name: string): (k: Option<InsightKey>)
    ensures k.Some? ==> KeyName(k.value) == name && k.value in keys
    ensures k.None? ==> forall key :: key in keys ==> KeyName(key) != name
  {
    if keys == [] then None
    else if KeyName(keys[0]) == name then Some(keys[0])
    else KeyNamedIn(keys[1..], name)
  }

  /** Every key is found again from its name. */
  lemma KeyNamedFindsEveryKey(k: InsightKey)
    ensures KeyNamed(KeyName(k)) == Some(k)
  {
    assert k in AllKeys;
    var found := KeyNamed(KeyName(k));
    assert found.Some?;
    KeyNamesDistinct(found.value, k);
  }

  /** Different keys have different names. */
  lemma KeyNamesDistinct(a: InsightKey, b: InsightKey)
    requires KeyName(a) == KeyName(b)
    ensures a == b
  {
    var x := KeyName(a);
    assert |x| > 0 && x[0] == KeyName(b)[0];
    assert |x| > 6 && x[6] == KeyName(b)[6];
  }

  /** The entries the price-trend analysis stores. */
  function TrendEntries(daily: seq<PriceGroup<int>>, weekly: seq<PriceGroup<(int, int)>>): map<InsightKey, InsightValue>
  {
    map[DailyPriceTrendsKey := DailyValue(daily), WeeklyPriceTrendsKey := WeeklyValue(weekly)]
  }

  /** The entries the price-distribution analysis stores. */
  function DistributionEntries(stats: PriceStats, categories: seq<Counted<Category>>): map<InsightKey, InsightValue>
  {
    map[PriceStatsKey := StatsValue(stats), PriceCategoriesKey := CategoriesValue(categories)]
  }

  /** The entry the market-opportunities analysis stores. */
  function OpportunityEntries(ops: seq<Opportunity>): map<InsightKey, InsightValue>
  {
    map[MarketOpportunitiesKey := OpportunitiesValue(ops)]
  }

  /**
   * The entries the seasonal analysis stores: day_of_week_patterns when the
   * weekday column exists, then monthly_patterns and the names of the peak
   * months.
   */
  function SeasonalEntries(s: Seasonal): (m: map<InsightKey, InsightValue>)
    ensures forall k :: k in m ==> k == DayOfWeekPatternsKey || k == MonthlyPatternsKey || k == PeakTravelPeriodsKey
  {
    (if s.dayOfWeek.Some? then map[DayOfWeekPatternsKey := DayPatternsValue(s.dayOfWeek.value)] else map[])
    + map[MonthlyPatternsKey := MonthlyValue(s.monthly), PeakTravelPeriodsKey := PeakPeriodsValue(PeakMonthNames(s.peakMonths))]
  }

  // ---------------------------------------------------------------- one run, step by step

  /** What the analyses read and write: the processed table and the insights. */
  datatype State = State(processed: Option<Table>, insights: map<InsightKey, InsightValue>)

  /** `analyze_popular_routes(top_n)`: stores the busiest routes. */
  function RoutesStep(s: State, topN: int): (r: State)
    ensures r.processed == s.processed && s.insights.Keys <= r.insights.Keys
  {
    if s.processed.None? then s
    else s.(insights := s.insights[PopularRoutesKey := RoutesValue(PopularRoutes(s.processed.value.rows, topN))])
  }

  /** `analyze_price_trends`: with prices and typed dates, adds the ISO week and stores the aggregates. */
  function TrendsStep(s: State): (r: State)
    ensures r.processed.Some? <==> s.processed.Some?
    ensures s.insights.Keys <= r.insights.Keys
  {
    if s.processed.None? || PriceCol !in s.processed.value.columns || !DatesTyped(s.processed.value) then s
    else
      var t := AddIsoWeek(s.processed.value);
      State(Some(t), s.insights + TrendEntries(DailyTrends(t.rows), WeeklyTrends(t.rows)))
  }

  /** `analyze_seasonal_patterns`: adds the month when needed and possible, then stores the patterns. */
  function SeasonalStep(s: State): (r: State)
    ensures r.processed.Some? <==> s.processed.Some?
    ensures s.insights.Keys <= r.insights.Keys
  {
    if s.processed.None? then s
    else if MonthCol !in s.processed.value.columns && !DatesTyped(s.processed.value) then s
    else
      var t := if MonthCol in s.processed.value.columns then s.processed.value else AddMonth(s.processed.value);
      State(Some(t), s.insights + SeasonalEntries(SeasonalOf(t)))
  }

  /** `analyze_price_distribution`: with prices, stores the statistics and adds the category. */
  function DistributionStep(s: State): (r: State)
    ensures r.processed.Some? <==> s.processed.Some?
    ensures s.insights.Keys <= r.insights.Keys
  {
    if s.processed.None? || PriceCol !in s.processed.value.columns then s
    else
      var t := s.processed.value;
      State(Some(Categorize(t)), s.insights + DistributionEntries(PriceStatsOf(t.rows), CategoryCounts(t.rows)))
  }

  /** `analyze_market_opportunities`: stores the records of the three rules. */
  function OpportunitiesStep(s: State): (r: State)
    ensures r.processed == s.processed && s.insights.Keys <= r.insights.Keys
  {
    if s.processed.None? then s
    else s.(insights := s.insights + OpportunityEntries(MarketOpportunities(s.processed.value)))
  }

  /** `generate_summary_insights`: stores the summary, or raises and stores nothing. */
  function SummaryStep(s: State): (r: (State, Outcome<PandasError>))
    ensures r.0.processed == s.processed && s.insights.Keys <= r.0.insights.Keys
    ensures r.1.Fail? ==> r.0 == s
  {
    if s.processed.None? then (s, Pass)
    else
      match SummaryOf(s.processed.value)
      case Ok(sum) => (s.(insights := s.insights[SummaryKey := SummaryValue(sum)]), Pass)
      case Err(e) => (s, Fail(e))
  }

  /** Routes (with the default ten), trends, then seasonal patterns. */
  function TableAnalyses(s: State): State
  {
    SeasonalStep(TrendsStep(RoutesStep(s, 10)))
  }

  /** Distribution, opportunities, then the summary. */
  function MarketAnalyses(s: State): (State, Outcome<PandasError>)
  {
    SummaryStep(OpportunitiesStep(DistributionStep(s)))
  }

  /**
   * `run_all_analyses`: nothing without raw data; otherwise cleaning (which
   * keeps the old processed table when there are no raw rows and stops the
   * run when it raises) followed by the six analyses.
   */
  function RunAll(raw: Option<Table>, s: State): (State, Outcome<PandasError>)
  {
    if raw.None? then (s, Pass)
    else if raw.value.rows == [] then MarketAnalyses(TableAnalyses(s))
    else
      match CleanTable(raw.value)
      case Err(e) => (s, Fail(e))
      case Ok(c) => MarketAnalyses(TableAnalyses(s.(processed := Some(c))))
  }

  /** The cleaned table once the trend and seasonal analyses have added their columns. */
  function DatedTable(c: Table): Table
  {
    var t := if PriceCol in c.columns && DatesTyped(c) then AddIsoWeek(c) else c;
    if MonthCol !in t.columns && DatesTyped(t) then AddMonth(t) else t
  }

  /** The table with the price category added when it has prices. */
  function Categorized(t: Table): Table
  {
    if PriceCol in t.columns then Categorize(t) else t
  }

  /** The cleaned table once every analysis has added its columns. */
  function ExtendedTable(c: Table): Table
  {
    Categorized(DatedTable(c))
  }

  /** The trend analysis keeps every entry outside its own two keys. */
  lemma TrendsStepKeeps(s: State, k: InsightKey)
    requires k in s.insights && k != DailyPriceTrendsKey && k != WeeklyPriceTrendsKey
    ensures k in TrendsStep(s).insights && TrendsStep(s).insights[k] == s.insights[k]
  {
  }

  /** The seasonal analysis keeps every entry outside its own three keys. */
  lemma SeasonalStepKeeps(s: State, k: InsightKey)
    requires k in s.insights && k != DayOfWeekPatternsKey && k != MonthlyPatternsKey && k != PeakTravelPeriodsKey
    ensures k in SeasonalStep(s).insights && SeasonalStep(s).insights[k] == s.insights[k]
  {
  }

  /** The first three analyses over a cleaned table add its date columns and keep every stored key. */
  lemma TableAnalysesOfClean(c: Table, s: State)
    ensures var r := TableAnalyses(s.(processed := Some(c)));
            r.processed == Some(DatedTable(c)) && s.insights.Keys <= r.insights.Keys
  {
  }

  /** The first three analyses over a cleaned table store its ten busiest routes. */
  lemma TableAnalysesStoreRoutes(c: Table, s: State)
    ensures var r := TableAnalyses(s.(processed := Some(c)));
            PopularRoutesKey in r.insights && r.insights[PopularRoutesKey] == RoutesValue(PopularRoutes(c.rows, 10))
  {
    var s1 := RoutesStep(s.(processed := Some(c)), 10);
    TrendsStepKeeps(s1, PopularRoutesKey);
    SeasonalStepKeeps(TrendsStep(s1), PopularRoutesKey);
  }

  /** The distribution analysis keeps every entry outside its own two keys. */
  lemma DistributionStepKeeps(s: State, k: InsightKey)
    requires k in s.insights && k != PriceStatsKey && k != PriceCategoriesKey
    ensures k in DistributionStep(s).insights && DistributionStep(s).insights[k] == s.insights[k]
  {
  }

  /**
   * The last three analyses over a processed table add the price category
   * when there are prices, store the opportunities of that table, and pass
   * exactly when its summary can be computed, storing it then.
   */
  lemma MarketAnalysesOf(s: State)
    requires s.processed.Some?
    ensures var e := Categorized(s.processed.value);
            var r := MarketAnalyses(s);
            && r.0.processed == Some(e)
            && s.insights.Keys <= r.0.insights.Keys
            && MarketOpportunitiesKey in r.0.insights
            && r.0.insights[MarketOpportunitiesKey] == OpportunitiesValue(MarketOpportunities(e))
            && (r.1.Pass? <==> SummaryOf(e).Ok?)
            && (r.1.Pass? ==> SummaryKey in r.0.insights && r.0.insights[SummaryKey] == SummaryValue(SummaryOf(e).value))
  {
  }

  /** The last three analyses keep every entry outside the four keys they write. */
  lemma MarketAnalysesKeep(s: State, k: InsightKey)
    requires k in s.insights
    requires k != PriceStatsKey && k != PriceCategoriesKey && k != MarketOpportunitiesKey && k != SummaryKey
    ensures k in MarketAnalyses(s).0.insights && MarketAnalyses(s).0.insights[k] == s.insights[k]
  {
    DistributionStepKeeps(s, k);
  }

  /** A run over raw rows that clean without error is the six analyses over the cleaned table. */
  lemma RunAllOfClean(raw: Table, s: State)
    requires raw.rows != [] && CleanTable(raw).Ok?
    ensures RunAll(Some(raw), s) == MarketAnalyses(TableAnalyses(s.(processed := Some(CleanTable(raw).value))))
  {
  }

  /**
   * A run over raw rows that clean without error leaves the cleaned table,
   * extended with the derived columns, as the processed table.
   */
  lemma RunAllProcessed(raw: Table, s: State)
    requires raw.rows != [] && CleanTable(raw).Ok?
    ensures RunAll(Some(raw), s).0.processed == Some(ExtendedTable(CleanTable(raw).value))
  {
    var c := CleanTable(raw).value;
    RunAllOfClean(raw, s);
    TableAnalysesOfClean(c, s);
    MarketAnalysesOf(TableAnalyses(s.(processed := Some(c))));
  }

  /** A run over raw rows that clean without error stores the ten busiest routes of the cleaned rows. */
  lemma RunAllStoresRoutes(raw: Table, s: State)
    requires raw.rows != [] && CleanTable(raw).Ok?
    ensures var r := RunAll(Some(raw), s).0;
            PopularRoutesKey in r.insights &&
            r.insights[PopularRoutesKey] == RoutesValue(PopularRoutes(CleanTable(raw).value.rows, 10))
  {
    var c := CleanTable(raw).value;
    RunAllOfClean(raw, s);
    TableAnalysesStoreRoutes(c, s);
    MarketAnalysesKeep(TableAnalyses(s.(processed := Some(c))), PopularRoutesKey);
  }

  /** A run over raw rows that clean without error stores the opportunities of the extended table. */
  lemma RunAllStoresOpportunities(raw: Table, s: State)
    requires raw.rows != [] && CleanTable(raw).Ok?
    ensures var r := RunAll(Some(raw), s).0;
            MarketOpportunitiesKey in r.insights &&
            r.insights[MarketOpportunitiesKey] == OpportunitiesValue(MarketOpportunities(ExtendedTable(CleanTable(raw).value)))
  {
    var c := CleanTable(raw).value;
    RunAllOfClean(raw, s);
    TableAnalysesOfClean(c, s);
    MarketAnalysesOf(TableAnalyses(s.(processed := Some(c))));
  }

  /**
   * A run over raw rows that clean without error passes exactly when the
   * summary of the extended table can be computed, and then stores it.
   */
  lemma RunAllSummary(raw: Table, s: State)
    requires raw.rows != [] && CleanTable(raw).Ok?
    ensures var e := ExtendedTable(CleanTable(raw).value);
            var r := RunAll(Some(raw), s);
            && (r.1.Pass? <==> SummaryOf(e).Ok?)
            && (r.1.Pass? ==> SummaryKey in r.0.insights && r.0.insights[SummaryKey] == SummaryValue(SummaryOf(e).value))
  {
    var c := CleanTable(raw).value;
    RunAllOfClean(raw, s);
    TableAnalysesOfClean(c, s);
    MarketAnalysesOf(TableAnalyses(s.(processed := Some(c))));
  }

  /** A run never removes an insight: every key stored before is stored after. */
  lemma RunAllKeepsKeys(raw: Option<Table>, s: State)
    ensures s.insights.Keys <= RunAll(raw, s).0.insights.Keys
  {
    if raw.Some? && raw.value.rows != [] && CleanTable(raw.value).Ok? {
      TableAnalysesOfClean(CleanTable(raw.value).value, s);
    }
  }

  /** What `get_insights` hands back. */
  datatype InsightsView =
    | NoInsights
    | AllInsights(all: map<InsightKey, InsightValue>)
    | OneInsight(value: InsightValue)

  // ---------------------------------------------------------------- the processor

  class DataProcessor {
    var raw: Option<Table>
    var processed: Option<Table>
    var insights: map<InsightKey, InsightValue>

    /** A processor over optional raw data, with nothing processed and no insights. */
    constructor (rawData: Option<Table>)
      ensures raw == rawData && processed == None && insights == map[]
    {
      raw := rawData;
      processed := None;
      insights := map[];
    }

    /** Replaces the raw data; the processed table and the insights stay. */
    method LoadData(data: Option<Table>)
      modifies this
      ensures raw == data && processed == old(processed) && insights == old(insights)
    {
      raw := data;
    }

    /**
     * Cleans the raw table into the processed one. Without raw rows nothing
     * changes (a processed table of an earlier run is kept); an error of the
     * de-duplication step leaves the state as it was.
     */
    method CleanData() returns (outcome: Outcome<PandasError>)
      modifies this
      ensures raw == old(raw) && insights == old(insights)
      ensures old(raw).None? || old(raw).value.rows == [] ==> outcome == Pass && processed == old(processed)
      ensures old(raw).Some? && old(raw).value.rows != [] ==>
                match CleanTable(old(raw).value)
                case Ok(c) => outcome == Pass && processed == Some(c)
                case Err(e) => outcome == Fail(e) && processed == old(processed)
    {
      if raw.None? || raw.value.rows == [] {
        return Pass;
      }
      match CleanTable(raw.value)
      case Ok(c) =>
        processed := Some(c);
        outcome := Pass;
      case Err(e) =>
        outcome := Fail(e);
    }

    /** The `top_n` busiest routes, stored under popular_routes. */
    method AnalyzePopularRoutes(topN: int) returns (r: Option<seq<RouteCount>>)
      modifies this
      ensures State(processed, insights) == RoutesStep(State(old(processed), old(insights)), topN)
      ensures old(insights).Keys <= insights.Keys && (processed.Some? <==> old(processed).Some?)
      ensures processed.Some? ==> PopularRoutesKey in insights
      ensures raw == old(raw) && processed == old(processed)
      ensures old(processed).None? ==> r.None? && insights == old(insights)
      ensures old(processed).Some? ==>
                && r == Some(PopularRoutes(old(processed).value.rows, topN))
                && insights == old(insights)[PopularRoutesKey := RoutesValue(r.value)]
    {
      if processed.None? {
        return None;
      }
      var routes := PopularRoutes(processed.value.rows, topN);
      insights := insights[PopularRoutesKey := RoutesValue(routes)];
      r := Some(routes);
    }

    /**
     * Daily and weekly price aggregates, when there are prices and typed
     * dates; the ISO week and year columns are written into the processed
     * table.
     */
    method AnalyzePriceTrends() returns (r: Option<(seq<PriceGroup<int>>, seq<PriceGroup<(int, int)>>)>)
      modifies this
      ensures State(processed, insights) == TrendsStep(State(old(processed), old(insights)))
      ensures old(insights).Keys <= insights.Keys && (processed.Some? <==> old(processed).Some?)
      ensures raw == old(raw)
      ensures old(processed).None? || PriceCol !in old(processed).value.columns || !DatesTyped(old(processed).value) ==>
                r.None? && processed == old(processed) && insights == old(insights)
      ensures old(processed).Some? && PriceCol in old(processed).value.columns && DatesTyped(old(processed).value) ==>
                && processed == Some(AddIsoWeek(old(processed).value))
                && r == Some((DailyTrends(processed.value.rows), WeeklyTrends(processed.value.rows)))
                && insights == old(insights) + TrendEntries(r.value.0, r.value.1)
    {
      if processed.None? || PriceCol !in processed.value.columns || !DatesTyped(processed.value) {
        return None;
      }
      var t := AddIsoWeek(processed.value);
      processed := Some(t);
      var daily := DailyTrends(t.rows);
      var weekly := WeeklyTrends(t.rows);
      insights := insights + TrendEntries(daily, weekly);
      r := Some((daily, weekly));
    }

    /**
     * Monthly and weekday patterns and the two peak months. A table without
     * a month column gets one from typed dates; without either the analysis
     * stops.
     */
    method AnalyzeSeasonalPatterns() returns (r: Option<Seasonal>)
      modifies this
      ensures State(processed, insights) == SeasonalStep(State(old(processed), old(insights)))
      ensures old(insights).Keys <= insights.Keys && (processed.Some? <==> old(processed).Some?)
      ensures raw == old(raw)
      ensures old(processed).None? ||
              (MonthCol !in old(processed).value.columns && !DatesTyped(old(processed).value)) ==>
                r.None? && processed == old(processed) && insights == old(insights)
      ensures old(processed).Some? && MonthCol in old(processed).value.columns ==> processed == old(processed)
      ensures old(processed).Some? && MonthCol !in old(processed).value.columns && DatesTyped(old(processed).value) ==>
                processed == Some(AddMonth(old(processed).value))
      ensures old(processed).Some? &&
              (MonthCol in old(processed).value.columns || DatesTyped(old(processed).value)) ==>
                && processed.Some?
                && r == Some(SeasonalOf(processed.value))
                && insights == old(insights) + SeasonalEntries(r.value)
    {
      if processed.None? {
        return None;
      }
      var t := processed.value;
      if MonthCol !in t.columns {
        if !DatesTyped(t) {
          return None;
        }
        t := AddMonth(t);
        processed := Some(t);
      }
      var s := SeasonalOf(t);
      insights := insights + SeasonalEntries(s);
      r := Some(s);
    }

    /** Price statistics and category counts; the price_category column is written into the processed table. */
    method AnalyzePriceDistribution() returns (r: Option<(PriceStats, seq<Counted<Category>>)>)
      modifies this
      ensures State(processed, insights) == DistributionStep(State(old(processed), old(insights)))
      ensures old(insights).Keys <= insights.Keys && (processed.Some? <==> old(processed).Some?)
      ensures raw == old(raw)
      ensures old(processed).None? || PriceCol !in old(processed).value.columns ==>
                r.None? && processed == old(processed) && insights == old(insights)
      ensures old(processed).Some? && PriceCol in old(processed).value.columns ==>
                && processed == Some(Categorize(old(processed).value))
                && r == Some((PriceStatsOf(old(processed).value.rows), CategoryCounts(old(processed).value.rows)))
                && insights == old(insights) + DistributionEntries(r.value.0, r.value.1)
    {
      if processed.None? || PriceCol !in processed.value.columns {
        return None;
      }
      var t := processed.value;
      var stats := PriceStatsOf(t.rows);
      processed := Some(Categorize(t));
      var categories := CategoryCounts(t.rows);
      insights := insights + DistributionEntries(stats, categories);
      r := Some((stats, categories));
    }

    /** The three opportunity rules, stored under market_opportunities. */
    method AnalyzeMarketOpportunities() returns (r: Option<seq<Opportunity>>)
      modifies this
      ensures State(processed, insights) == OpportunitiesStep(State(old(processed), old(insights)))
      ensures old(insights).Keys <= insights.Keys && (processed.Some? <==> old(processed).Some?)
      ensures processed.Some? ==> MarketOpportunitiesKey in insights
      ensures raw == old(raw) && processed == old(processed)
      ensures old(processed).None? ==> r.None? && insights == old(insights)
      ensures old(processed).Some? ==>
                && r == Some(MarketOpportunities(old(processed).value))
                && insights == old(insights) + OpportunityEntries(r.value)
    {
      if processed.None? {
        return None;
      }
      var ops := CollectOpportunities(processed.value);
      StoreOpportunities(ops);
      r := Some(ops);
    }

    /** Stores the records under market_opportunities. */
    method StoreOpportunities(ops: seq<Opportunity>)
      modifies this
      ensures raw == old(raw) && processed == old(processed)
      ensures old(insights).Keys <= insights.Keys && MarketOpportunitiesKey in insights
      ensures insights == old(insights) + OpportunityEntries(ops)
    {
      insights := insights + OpportunityEntries(ops);
    }

    /**
     * The dashboard summary, stored under summary. Without a processed table
     * the empty result is returned and nothing is stored; an argmax over an
     * empty column stops the method before it stores anything.
     */
    method GenerateSummaryInsights() returns (r: Result<Option<Summary>, PandasError>)
      modifies this
      ensures (State(processed, insights), if r.Err? then Fail(r.error) else Pass) ==
                SummaryStep(State(old(processed), old(insights)))
      ensures old(insights).Keys <= insights.Keys
      ensures processed.Some? && r.Ok? ==> SummaryKey in insights
      ensures raw == old(raw) && processed == old(processed)
      ensures old(processed).None? ==> r == Ok(None) && insights == old(insights)
      ensures old(processed).Some? ==>
                match SummaryOf(old(processed).value)
                case Ok(s) => r == Ok(Some(s)) && insights == old(insights)[SummaryKey := SummaryValue(s)]
                case Err(e) => r == Err(e) && insights == old(insights)
    {
      if processed.None? {
        return Ok(None);
      }
      var t := processed.value;
      match SummaryBeforeCities(t)
      case Err(e) =>
        r := Err(e);
      case Ok(s) =>
        var origins := AttachCities(s.topOrigins);
        var destinations := AttachCities(s.topDestinations);
        assert origins == MapSeq(s.topOrigins, WithCity);
        assert destinations == MapSeq(s.topDestinations, WithCity);
        var summary := s.(topOrigins := origins, topDestinations := destinations);
        insights := insights[SummaryKey := SummaryValue(summary)];
        r := Ok(Some(summary));
    }

    /**
     * Cleaning followed by every analysis in source order, with the default
     * of ten popular routes. Without raw data nothing happens; an error stops
     * the run where it is raised. Insights are only ever added or replaced,
     * never removed.
     */
    method RunAllAnalyses() returns (outcome: Outcome<PandasError>)
      modifies this
      ensures raw == old(raw)
      ensures (State(processed, insights), outcome) == RunAll(old(raw), State(old(processed), old(insights)))
      ensures old(raw).None? ==> outcome == Pass && processed == old(processed) && insights == old(insights)
      ensures old(insights).Keys <= insights.Keys
      ensures old(raw).Some? && outcome.Pass? && processed.Some? ==>
                {PopularRoutesKey, MarketOpportunitiesKey, SummaryKey} <= insights.Keys
      ensures old(raw).Some? && old(raw).value.rows == [] && old(processed).None? ==>
                outcome == Pass && processed.None? && insights == old(insights)
    {
      if raw.None? {
        return Pass;
      }
      outcome := CleanData();
      if outcome.Fail? {
        return;
      }
      RunTableAnalyses();
      outcome := RunMarketAnalyses();
    }

    /** The first three analyses of a run: popular routes, price trends and seasonal patterns. */
    method RunTableAnalyses()
      modifies this
      ensures State(processed, insights) == TableAnalyses(State(old(processed), old(insights)))
      ensures raw == old(raw) && (processed.Some? <==> old(processed).Some?)
      ensures old(insights).Keys <= insights.Keys
      ensures processed.Some? ==> PopularRoutesKey in insights
      ensures old(processed).None? ==> processed.None? && insights == old(insights)
    {
      var routes := AnalyzePopularRoutes(10);
      var trends := AnalyzePriceTrends();
      var seasonal := AnalyzeSeasonalPatterns();
    }

    /** The last three analyses of a run: price distribution, opportunities and the summary, which can raise. */
    method RunMarketAnalyses() returns (outcome: Outcome<PandasError>)
      modifies this
      ensures (State(processed, insights), outcome) == MarketAnalyses(State(old(processed), old(insights)))
      ensures raw == old(raw) && (processed.Some? <==> old(processed).Some?)
      ensures old(insights).Keys <= insights.Keys
      ensures outcome.Pass? && processed.Some? ==> {MarketOpportunitiesKey, SummaryKey} <= insights.Keys
      ensures old(processed).None? ==> outcome == Pass && processed.None? && insights == old(insights)
    {
      var distribution := AnalyzePriceDistribution();
      var opportunities := AnalyzeMarketOpportunities();
      var summary := GenerateSummaryInsights();
      outcome := if summary.Err? then Fail(summary.error) else Pass;
    }

    /**
     * `get_insights`: nothing when no insight exists yet; the entry of the
     * category when it names a stored key; otherwise every insight.
     */
    function GetInsights(category: Option<string>): (v: InsightsView)
      reads this
      ensures insights == map[] <==> v.NoInsights?
      ensures v.OneInsight? <==>
                insights != map[] && category.Some? && KeyNamed(category.value).Some? &&
                KeyNamed(category.value).value in insights
      ensures v.OneInsight? ==> exists k :: k in insights && KeyName(k) == category.value && insights[k] == v.value
      ensures v.AllInsights? ==> v.all == insights
    {
      if insights == map[] then NoInsights
      else if category.Some? && KeyNamed(category.value).Some? && KeyNamed(category.value).value in insights
      then OneInsight(insights[KeyNamed(category.value).value])
      else AllInsights(insights)
    }
  }
}
