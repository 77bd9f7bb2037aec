# Airline market demand: the analysis pipeline in Dafny

This project models the analysis core of the airline booking market-demand
web app, together with its two small neighbours.

The core is the `DataProcessor` class of `data_processor.py`. It turns a table
of flight records into a dictionary of "insights".

- **Cleaning** (`clean_data`) runs four steps in order:
  - fill missing prices, first with the route median and then with the column median;
  - parse the flight dates;
  - drop duplicate flights, keeping the first;
  - drop prices outside the interquartile fence, then derive `day_of_week`, `month` and `is_weekend`.
- **Aggregation** runs six analyses:
  - popular routes;
  - daily and weekly price trends;
  - monthly and weekday patterns with the two peak months;
  - price statistics and price categories;
  - three rule-based market-opportunity scans;
  - a dashboard summary.

  Each analysis writes its own keys into `insights`. `run_all_analyses` runs
  everything in order, and `get_insights` reads the dictionary back.

The two neighbours are:
- the dashboard's `filter_data` (`app.py`), a row filter by route type and price range;
- the two string helpers of `utils.py`, `format_airport_code` and `extract_city_name`.

## Structure

| file | module | contents |
|---|---|---|
| `wrappers.dfy` | `Wrappers` | `Option`, `Result`, `Outcome` |
| `sequences.dfy` | `Sequences` | filters, counts, heads, maps and subsequences over `seq` |
| `ordering.dfy` | `Ordering` | strict total orders, Python string order, and sorting the distinct values (the key order of a `groupby`) |
| `stats.dfy` | `Stats` | pandas column statistics over exact reals: `NaN` for an empty column, min, max, mean, median, and linear-interpolation quantiles |
| `config.dfy` | `Config` | the two airport tables and the code → city lookup |
| `flights.dfy` | `Flights` | the table (a set of present columns, the state of the date column, rows with optional cells), routes, and month and day names |
| `grouping.dfy` | `Grouping` | `value_counts`, `idxmax`, `groupby().size()`, and `groupby().agg(['mean','median','count'])` |
| `cleaning.dfy` | `Cleaning` | the steps of `clean_data` and their composition |
| `analyses.dfy` | `Analyses` | routes, trends, seasonal patterns, and the price distribution |
| `opportunities.dfy` | `Opportunities` | the three opportunity rules, the loops that collect them, and rule 3 as written |
| `summary.dfy` | `Summary` | `generate_summary_insights` |
| `processor.dfy` | `Processor` | the `DataProcessor` class: fields `raw`, `processed` and `insights`, and its methods |
| `app_filter.dfy` | `AppFilter` | `filter_data` |
| `text_utils.dfy` | `TextUtils` | `format_airport_code` and `extract_city_name` |

### Modelling choices

- **Pure and imperative parts.** Each analysis is a pure function of the
  processed table. The class methods call these functions and then update
  the fields. Where the source loops, the model loops too:
  - the opportunity rules append records in loops (`CollectHighDemand`, `CollectWeekendPremiums`, `CollectSeasonal`);
  - the summary adds a city to each top airport in a loop (`AttachCities`);
  - `extract_city_name` loops over its patterns and suffixes (`ExtractCityName`).

  Each of these methods is proved equal to the function that specifies it.
- **Missing values.** A missing cell is `None`. Aggregates over no values
  are `NaN`, as in pandas. Comparisons with a missing value are false, so
  the boolean masks drop those rows.
- **Group and sort order.** pandas `groupby` emits keys in ascending order.
  Routes are ordered by origin, then destination, in Python string order.
  `sort_values` and `value_counts` leave ties unordered. This model breaks
  every tie by ascending key; categories are ordered Budget < Economy <
  Premium < Luxury.
- **Exceptions.** Exceptions pandas would raise are `Err` values:
  - a `KeyError` when a de-duplication key column is missing;
  - `idxmax` of an empty column;
  - the `is_domestic` column missing in `filter_data`.

## Model

| member | source | states |
|---|---|---|
| Config.AirportToCityInvertsAustralian | config.py:28-39 | the code→city lookup sends every Australian airport code to its city |
| Config.AirportToCityInvertsInternational | config.py:42-53 | the lookup sends every international airport code to its city |
| Config.AirportToCityFromTables | data_processor.py:380-381 | every entry of the lookup is a (city, code) pair of one of the two tables |
| Config.CityOf | data_processor.py:385 | an unknown code is its own city; a known one gives a city that the tables pair with it |
| Config.SydneyMelbourneIsDomestic | data_processor.py:101-105 | a route between two Australian airports is domestic |
| Sequences.FilterMultiset | data_processor.py:77 | a boolean mask keeps each passing row as often as it occurs, and drops every other row |
| Flights.Routes | data_processor.py:95 | the distinct (origin, destination) pairs of the rows, each once, in ascending `groupby` order |
| Stats.Minimum | data_processor.py:216 | NaN exactly for an empty column; otherwise an element no larger than any other |
| Stats.Maximum | data_processor.py:217 | NaN exactly for an empty column; otherwise an element no smaller than any other |
| Stats.MeanBounds | data_processor.py:218 | the mean lies between the smallest and the largest value |
| Stats.Quantile | data_processor.py:68-69 | the linear-interpolation quantile is NaN exactly for an empty column and lies between its minimum and maximum |
| Stats.QuantileMonotone | data_processor.py:68-70 | a higher quantile level never gives a lower value, so Q1 <= Q3 and the IQR is not negative |
| Stats.MedianIsHalfQuantile | data_processor.py:219 | the median equals the 0.5 quantile and lies between the minimum and the maximum |
| Grouping.RankByCount | data_processor.py:98 | ranking keeps exactly the entries, orders counts non-increasing, and orders equal counts by ascending key |
| Grouping.ValueCounts | data_processor.py:372 | `value_counts`: each distinct value once with its number of occurrences; no other entries; counts non-increasing, ties by ascending key |
| Grouping.MostFrequent | data_processor.py:393 | `value_counts().idxmax()`: absent exactly for an empty column; otherwise a value no less frequent than any other, the smallest among equally frequent ones |
| Grouping.AggregatePrices | data_processor.py:124 | a group's count is its number of known prices; its mean and median are NaN exactly when that is 0, and otherwise lie between the group's extreme prices |
| Grouping.GroupPrices | data_processor.py:124 | one aggregate per key occurring in the rows, in strictly ascending key order |
| Grouping.GroupPricesCover | data_processor.py:124 | every row's key has an aggregate |
| Grouping.GroupCounts | data_processor.py:254 | `groupby().size()`: every key of the rows once, ascending, with the positive size of its group |
| Grouping.CountIsGroupSize | data_processor.py:95 | a key's number of occurrences equals the size of its group |
| Cleaning.ImputePrices | data_processor.py:46-51 | imputation keeps the columns, the row count and every cell except the price |
| Cleaning.ImputeKeepsPresentPrices | data_processor.py:46-51 | a row whose price was present is unchanged |
| Cleaning.ImputeUsesRouteMedian | data_processor.py:48-49 | a missing price on a route with a known price takes the median of that route's known prices |
| Cleaning.ImputeFallsBackToOverallMedian | data_processor.py:51 | a missing price on a route with no known price takes the median of the column after the route fill |
| Cleaning.ImputeFillsEveryPrice | data_processor.py:46-51 | if any price is known, no price is missing after imputation |
| Cleaning.ParseDates | data_processor.py:54-58 | a present, parseable date column becomes typed; an unparseable one stays untyped; columns and rows never change |
| Cleaning.DedupFrom | data_processor.py:62-63 | keep='first': an order-preserving subsequence with pairwise distinct keys that contains the first row of every key |
| Cleaning.DedupFromKeptAt | data_processor.py:62-63 | the kept rows are the rows at increasing positions, and a position is kept exactly when its row is the first of its key and that key is not yet seen |
| Cleaning.KeptAtUnique | data_processor.py:62-63 | those positions determine the result: two sequences kept at keep='first' positions are equal |
| Cleaning.DedupFromIsKeepFirst | data_processor.py:62-63 | any sequence of the keep='first' rows in original order equals what deduplication returns (so `[a, b, a]` gives `[a, b]`, never `[b, a]`) |
| Cleaning.IncreasingSameMembers | data_processor.py:62-63 | two strictly increasing position lists with the same members are equal |
| Cleaning.DropDuplicates | data_processor.py:61-63 | with at most 3 columns nothing changes; a missing key column raises KeyError; otherwise the kept rows are the first row of each key, at increasing positions, and those positions are exactly the first of each key |
| Cleaning.PriceFence | data_processor.py:68-74 | the fence exists exactly when there is a price, and it encloses [Q1, Q3] |
| Cleaning.RemoveOutliers | data_processor.py:66-77 | with a price column, an order-preserving subsequence that keeps every copy of each row inside the fence and no row outside it; without one, the table unchanged |
| Cleaning.OutliersLeaveNoMissingPrice | data_processor.py:77 | every row kept by the outlier filter has a price |
| Cleaning.NoPricesDropsEveryRow | data_processor.py:66-77 | with no known price the quartiles are NaN and every row is dropped |
| Cleaning.WithCalendar | data_processor.py:81-83 | `day_of_week` and `month` come from the date; `is_weekend` holds exactly for days 5 and 6 |
| Cleaning.DeriveCalendar | data_processor.py:80-83 | with typed dates, the three calendar columns are added and every row gets them; otherwise the table is unchanged |
| Cleaning.CleanTableColumns | data_processor.py:43-85 | cleaning keeps the price and flight_date columns as they were; the calendar columns exist exactly when the dates are typed or they were already there |
| Cleaning.CleanTableShrinks | data_processor.py:43-85 | cleaning never adds a row |
| Cleaning.CleanTablePricesInFence | data_processor.py:66-85 | with a price column, every cleaned row has a price inside the IQR fence of the de-duplicated prices |
| Analyses.RouteFrequencyIsGroupSize | data_processor.py:95 | a route's frequency is the number of its rows |
| Analyses.RouteFrequencies | data_processor.py:95-98 | every route of the rows once with its positive row count, counts non-increasing |
| Analyses.ToRouteCount | data_processor.py:101-107 | a record is domestic exactly when both airports are Australian |
| Analyses.TopRoutes | data_processor.py:98 | `head(top_n)`: the first min(top_n, #routes) entries of the ranking |
| Analyses.PopularRoutes | data_processor.py:88-111 | at most top_n routes, distinct, frequencies non-increasing, each frequency the route's row count, domestic flag as in the config |
| Analyses.PopularRoutesFollowRanking | data_processor.py:98 | the list is the head of the frequency ranking |
| Analyses.PopularRoutesAreTop | data_processor.py:98 | a route left out has no more rows than any listed route |
| Analyses.PopularRoutesComplete | data_processor.py:98 | when top_n is at least the number of rows, every route is listed |
| Analyses.AddIsoWeek | data_processor.py:128-129 | adds the week and year columns and writes every row's ISO week and year |
| Analyses.DailyTrends | data_processor.py:124-125 | one aggregate per flight date, dates strictly ascending |
| Analyses.WeeklyTrends | data_processor.py:130-131 | one aggregate per ISO (year, week), strictly ascending |
| Analyses.DailyTrendsCoverDates | data_processor.py:124 | every date of the table has its daily aggregate |
| Analyses.WeeklyTrendsCoverWeeks | data_processor.py:130 | every ISO week of the table has its weekly aggregate |
| Analyses.GroupPatterns | data_processor.py:162-164 | the result has price aggregates exactly when the table has a price column; each priced group is the aggregate of the rows with its key, and each unpriced count is the non-zero number of rows with its key |
| Analyses.GroupPatternsCover | data_processor.py:162-176 | the flight counts list every key of the table, in strictly ascending order |
| Analyses.AddMonth | data_processor.py:154-156 | adds the month column and gives every row its date's month |
| Analyses.MonthlyPatterns | data_processor.py:161-170 | monthly price aggregates with a price column; otherwise the positive row count of each month |
| Analyses.MonthlyPatternsCoverMonths | data_processor.py:162-164 | every month of the table is reported once, January first |
| Analyses.MonthlyPatternsAsWritten | data_processor.py:162-164 | as written, the pass raises KeyError('price') exactly when the table has no price column |
| Analyses.SeasonalWithoutPricesRaises | data_processor.py:162-164 | without prices, the pass as written raises, while the intended pass reports every month with its row count |
| Analyses.DayOfWeekPatterns | data_processor.py:173-187 | the weekday groups: each priced group is the aggregate of that weekday's rows, each unpriced count the non-zero number of that weekday's rows; each is named Monday..Sunday by its number |
| Analyses.DayOfWeekPatternsCoverDays | data_processor.py:174-176 | every weekday of the table is reported once, Monday first |
| Analyses.RankedMonths | data_processor.py:196 | the months ranked by flight count, non-increasing, ties earlier month first |
| Analyses.PeakMonths | data_processor.py:196 | min(2, #months) months, each of which the patterns report |
| Analyses.PeakMonthsAreBusiest | data_processor.py:196 | a month left out has no larger flight count than any chosen one |
| Analyses.SeasonalOf | data_processor.py:161-198 | weekday patterns exactly when the column exists; priced patterns exactly with prices; min(2, #months) peak months |
| Analyses.PeakMonthsArePresent | data_processor.py:196 | each peak month is the month of some row |
| Analyses.MonthlyKeyIsPresent | data_processor.py:162-164 | each reported month is the month of some row |
| Analyses.PeakMonthNames | data_processor.py:197 | each month is named by the twelve-entry name table |
| Analyses.PriceStatsOf | data_processor.py:215-223 | all NaN without a known price; otherwise min <= q1 <= median <= q3 <= max and min <= mean <= max |
| Analyses.CategoryOf | data_processor.py:226-228 | a price has a category exactly when it is known and positive |
| Analyses.CategoryMonotone | data_processor.py:226-228 | a higher price never falls in a lower category |
| Analyses.CategoryEdges | data_processor.py:226-228 | the bins are right-closed: 200 is Budget, 500 Economy, 1000 Premium, 0 has none |
| Analyses.Categorize | data_processor.py:228 | adds price_category and gives each row the category of its price |
| Analyses.CategoryCounts | data_processor.py:231-232 | all four categories, each with its row count, counts non-increasing, ties in category order |
| Analyses.CategoryCountsCoverPositivePrices | data_processor.py:226-232 | the four counts add up to the number of rows with a positive price |
| Opportunities.RouteDemand | data_processor.py:254 | every route once, in ascending route order, with its positive row count |
| Opportunities.RouteAnalysis | data_processor.py:259-260 | the merge keeps every high-demand route in order, with its row count and median price |
| Opportunities.KnownPrices | data_processor.py:263 | exactly the known median prices of the merged rows |
| Opportunities.AbovePrice | data_processor.py:263 | every record comes from a merged row whose price is known and above the median |
| Opportunities.AbovePriceKeeps | data_processor.py:263 | every merged row above the median gives a record |
| Opportunities.AbovePriceIsFilter | data_processor.py:263 | the records above the median are the records of the rows the mask keeps, one each, in order |
| Opportunities.HighDemandRecords | data_processor.py:263-272 | with prices, rule 1's records are those of the first five masked rows of route_analysis, in order |
| Opportunities.HighDemandOpportunities | data_processor.py:258-272 | no records without prices; otherwise the first min(5, #candidates) candidates |
| Opportunities.HighDemandCandidateIff | data_processor.py:254-263 | a route is a rule-1 candidate iff it has more rows than the median route and a known median price above the median of the high-demand routes' medians |
| Opportunities.CandidateQualifies | data_processor.py:254-263 | a rule-1 candidate has more rows than the median route and a known median price above the high-demand median |
| Opportunities.QualifyingIsCandidate | data_processor.py:254-263 | a route meeting both thresholds is a rule-1 candidate |
| Opportunities.AnalysisRowQualifies | data_processor.py:255-260 | every merged row is a high-demand route with its own count and median |
| Opportunities.HighDemandIndexOf | data_processor.py:255 | a route above the demand median is among the high-demand routes |
| Opportunities.HighDemandCandidatesInRouteOrder | data_processor.py:254-264 | the rule-1 candidates come in strictly ascending (origin, destination) order |
| Opportunities.PivotRows | data_processor.py:276-283 | one pivot row per route, in route order, with its weekday and weekend medians |
| Opportunities.PivotColumnIff | data_processor.py:279-285 | the pivot has a column for a side of the week iff some row on that side has a known price |
| Opportunities.RatioAboveIsQuotient | data_processor.py:288-291 | for a non-zero weekday median the ratio test is `weekend / weekday > 1.3` |
| Opportunities.PremiumRowsMembers | data_processor.py:291 | the ratio filter keeps exactly the pivot rows with both medians known and passing the test |
| Opportunities.RankedPremiums | data_processor.py:291-293 | the rows passing the filter, sorted by price difference descending |
| Opportunities.WeekendOpportunities | data_processor.py:275-304 | at most 5 records; none unless is_weekend and price exist and both sides of the week have a known price (both pivot columns) |
| Opportunities.PremiumRowIff | data_processor.py:276-291 | a premium row exists iff its route occurs, both medians are known and the ratio test passes |
| Opportunities.RankedPremiumQualifies | data_processor.py:276-291 | a ranked premium row's route occurs, its medians are the route's, and it passes the ratio test |
| Opportunities.QualifyingIsRanked | data_processor.py:276-291 | a route passing the ratio test is ranked |
| Opportunities.QualifyingIsPremiumRow | data_processor.py:291 | a route passing the ratio test is kept by the filter |
| Opportunities.WeekendOpportunitiesAreLargest | data_processor.py:291-295 | a ranked row left out means 5 records were kept, each with a difference at least as large |
| Opportunities.WeekendOpportunitiesDescend | data_processor.py:291-295 | price differences never increase along the rule-2 records |
| Opportunities.MonthlyPrices | data_processor.py:308 | the monthly frame: every (origin, destination, month) group of the rows exactly once, in strictly ascending group order, each carrying the median of that group's prices |
| Opportunities.MonthlyOriginsAscend | data_processor.py:308-311 | origins never descend along the monthly frame |
| Opportunities.UniqueOfAscending | data_processor.py:311 | `unique()` of a column whose values never descend is strictly ascending |
| Opportunities.Unique | data_processor.py:311 | `unique()`: the same values, each once |
| Opportunities.OriginRows | data_processor.py:312 | exactly the origin's rows of the frame, each with its frame label |
| Opportunities.LabelledPrices | data_processor.py:314-315 | exactly the known prices of the origin's rows |
| Opportunities.FirstAt | data_processor.py:318-320 | the first position holding a given price |
| Opportunities.SpreadRatio | data_processor.py:315 | max/min when the minimum is positive, else 1 |
| Opportunities.OriginSeasonality | data_processor.py:311-330 | a record exactly when the origin has more than one row and ratio > 1.5; it names the origin and the ratio |
| Opportunities.SeasonalityNamesExtremes | data_processor.py:314-328 | the record names a row holding the origin's highest median (destination and month), a row holding its lowest, and ratio max/min |
| Opportunities.SeasonalOpportunitiesIff | data_processor.py:307-330 | a record is reported by rule 3 exactly when it is the record of some origin of monthly_prices |
| Opportunities.SeasonalOpportunitiesAscend | data_processor.py:311-330 | rule 3 gives variation records in strictly ascending origin order, so at most one per origin |
| Opportunities.SeasonalOverRecords | data_processor.py:311-330 | each record collected over a list of origins is a variation record of one of them |
| Opportunities.SeasonalOverFollowsOrigins | data_processor.py:311-330 | over strictly ascending origins, the records follow the origins in strictly ascending order |
| Opportunities.SeasonalOverOriginsAscend | data_processor.py:308-330 | over a frame whose origins never descend, the records of its `unique()` origins have strictly ascending origins |
| Opportunities.OriginSeasonalityAsWritten | data_processor.py:318-320 | as written: agrees when there is no record; an error is an IndexError at a position past the origin's rows |
| Opportunities.SeasonalOverAsWritten | data_processor.py:311-330 | as written, a scan that completes gives no more records than origins; one per origin and the order are stated by SeasonalOverAsWrittenFollowsOrigins and SeasonalAsWrittenOrdered |
| Opportunities.SeasonalOverAsWrittenRaises | data_processor.py:311-330 | as written, the scan completes exactly when no origin's lookup raises |
| Opportunities.SeasonalOverAsWrittenFollowsOrigins | data_processor.py:311-330 | as written, a scan that completes gives variation records of the given origins, strictly ascending when the origins are |
| Opportunities.SeasonalAsWrittenOrdered | data_processor.py:307-330 | as written, a scan of the monthly frame's own origins that completes gives one record per origin, in ascending origin order |
| Opportunities.SomesOrErrorOk | data_processor.py:311-330 | a loop whose body may raise completes exactly when no iteration raises |
| Opportunities.SeasonalIlocCounterexample | data_processor.py:318-320 | on a three-row frame the code as written raises IndexError(2), while the intended rule reports B→Y, June high, January low, ratio 4 |
| Opportunities.SeasonalOverStep | data_processor.py:311-330 | one more origin adds its record, if any, at the end |
| Opportunities.AppendEach | data_processor.py:295-304 | the append loop leaves the old records followed by one new record per row |
| Opportunities.CollectHighDemand | data_processor.py:263-272 | the `head(5).iterrows()` loop appends one record per row and produces exactly the rule-1 records |
| Opportunities.CollectWeekendPremiums | data_processor.py:295-304 | rule 2's loop produces exactly the rule-2 records |
| Opportunities.CollectSeasonal | data_processor.py:311-330 | rule 3's loop over the origins produces exactly the rule-3 records |
| Opportunities.CollectOpportunities | data_processor.py:250-335 | the list holds the rule-1, rule-2 and rule-3 records in that order |
| Summary.DomesticSplitOf | data_processor.py:350-354 | the domestic count is the number of domestic rows; domestic + international = total; the percentage is NaN exactly on an empty table |
| Summary.DomesticSplitAddsUp | data_processor.py:350-354 | the international count is the number of non-domestic rows; the percentage lies in [0, 100] |
| Summary.PercentageBetween | data_processor.py:354 | a part of a positive whole is between 0 and 100 percent of it |
| Summary.WeekendPremiumOf | data_processor.py:403-405 | a real premium implies a real weekday mean |
| Summary.WeekendPremiumSign | data_processor.py:403-405 | for a positive weekday mean, the premium is positive iff the weekend mean is higher |
| Summary.AirportRanking | data_processor.py:372 | every code once with its positive count, counts non-increasing |
| Summary.TopAirportsRanked | data_processor.py:371-377 | at most 5 airports, distinct, each with its row count and no city yet, counts non-increasing |
| Summary.TopAirportsFollowRanking | data_processor.py:372-373 | the top list is the first min(5, #codes) entries of the ranking |
| Summary.TopAirportsAreBusiest | data_processor.py:372 | a code left out means five codes are listed, each at least as frequent |
| Summary.AttachCities | data_processor.py:383-389 | the loop keeps each entry's code and count and sets its city to the configured city or the code |
| Summary.BusiestDay | data_processor.py:392-396 | none without a day_of_week column; with it, an error exactly on an empty table |
| Summary.BusiestMonth | data_processor.py:407-409 | none without a month column; with it, an error exactly on an empty table |
| Summary.BusiestDayIsMostFrequent | data_processor.py:393-396 | the busiest day names a weekday of the table with no fewer rows than any other, and strictly more than every earlier weekday |
| Summary.MostFrequentWeekday | data_processor.py:393 | idxmax over weekdays is a most frequent weekday and the earliest among equals |
| Summary.BusiestMonthIsMostFrequent | data_processor.py:407-409 | the busiest month names a month of the table with no fewer rows than any other, and strictly more than every earlier month |
| Summary.MostFrequentMonth | data_processor.py:408 | idxmax over months is a most frequent month and the earliest among equals |
| Summary.SummaryBeforeCities | data_processor.py:337-409 | the summary fails exactly when a day or month column exists on an empty table |
| Summary.SummaryOf | data_processor.py:337-412 | the stored summary fails exactly when the summary before the city loops does |
| Summary.SummaryProperties | data_processor.py:348-405 | total = number of rows; the domestic split exists iff is_domestic does, and its parts add up to the total; the weekend premium exists iff day_of_week, is_weekend and price exist and both halves of the week have rows; avg_price exists iff price does |
| Summary.SummaryAirports | data_processor.py:371-389 | both top lists have at most 5 entries; each count is the code's number of rows; each city is the configured city or the code |
| Summary.CitiesAttached | data_processor.py:380-389 | attaching cities keeps at most 5 entries, their counts, and sets each city with the code fallback |
| Processor.KeyNamed | data_processor.py:441 | a found key has the given name |
| Processor.KeyNamedFindsEveryKey | data_processor.py:441-442 | every insight key is found again from its name |
| Processor.KeyNamesDistinct | data_processor.py:441-442 | different insight keys have different names |
| Processor.RoutesStep | data_processor.py:88-111 | the routes step keeps the processed table and every stored key |
| Processor.TrendsStep | data_processor.py:113-143 | the trends step keeps whether a table is processed and every stored key |
| Processor.SeasonalStep | data_processor.py:145-204 | the seasonal step keeps whether a table is processed and every stored key |
| Processor.DistributionStep | data_processor.py:206-241 | the distribution step keeps whether a table is processed and every stored key |
| Processor.OpportunitiesStep | data_processor.py:243-335 | the opportunities step keeps the processed table and every stored key |
| Processor.SummaryStep | data_processor.py:337-414 | the summary step keeps the processed table and every stored key, and a raising summary changes nothing |
| Processor.TrendsStepKeeps | data_processor.py:113-143 | the trend analysis leaves every entry outside daily_price_trends and weekly_price_trends as it was |
| Processor.SeasonalStepKeeps | data_processor.py:145-204 | the seasonal analysis leaves every entry outside its three keys as it was |
| Processor.DistributionStepKeeps | data_processor.py:206-241 | the distribution analysis leaves every entry outside price_stats and price_categories as it was |
| Processor.TableAnalysesOfClean | data_processor.py:426-428 | the first three analyses over a cleaned table leave it with its ISO-week and month columns added, and keep every key |
| Processor.TableAnalysesStoreRoutes | data_processor.py:426-428 | the first three analyses over a cleaned table store its ten busiest routes |
| Processor.MarketAnalysesOf | data_processor.py:429-431 | the last three analyses add the price category when there are prices, store the opportunities of that table, keep every key, and pass exactly when its summary can be computed, storing it then |
| Processor.MarketAnalysesKeep | data_processor.py:429-431 | the last three analyses leave every entry outside their four keys as it was |
| Processor.RunAllOfClean | data_processor.py:416-433 | a run over raw rows that clean without error is the six analyses over the cleaned table |
| Processor.RunAllProcessed | data_processor.py:416-433 | after such a run the processed table is the cleaned table with the week, year, month and price_category columns added |
| Processor.RunAllStoresRoutes | data_processor.py:416-433 | such a run stores the ten busiest routes of the cleaned rows under popular_routes |
| Processor.RunAllStoresOpportunities | data_processor.py:416-433 | such a run stores the opportunities of the extended cleaned table |
| Processor.RunAllSummary | data_processor.py:416-433 | such a run passes exactly when the summary of the extended cleaned table can be computed, and then stores it |
| Processor.RunAllKeepsKeys | data_processor.py:416-433 | a run never removes an insight stored before it |
| Processor.DataProcessor.constructor | data_processor.py:26-30 | stores the raw data, with no processed table and no insights |
| Processor.DataProcessor.LoadData | data_processor.py:32-35 | replaces the raw data and nothing else |
| Processor.DataProcessor.CleanData | data_processor.py:37-86 | without raw rows nothing changes; otherwise the processed table becomes the cleaned table, or a de-duplication KeyError is returned and the state is kept |
| Processor.DataProcessor.AnalyzePopularRoutes | data_processor.py:88-111 | the new state is RoutesStep of the old; without a processed table nothing changes; otherwise it returns the popular routes and stores them under popular_routes |
| Processor.DataProcessor.AnalyzePriceTrends | data_processor.py:113-143 | the new state is TrendsStep of the old; it needs prices and typed dates, adds the week and year columns to the processed table and stores the daily and weekly trends |
| Processor.DataProcessor.AnalyzeSeasonalPatterns | data_processor.py:145-204 | the new state is SeasonalStep of the old; without a month column or typed dates nothing changes; otherwise it adds month if needed and stores the patterns and peak month names (the counting pass of the Findings, also without prices) |
| Processor.DataProcessor.AnalyzePriceDistribution | data_processor.py:206-241 | the new state is DistributionStep of the old; it needs a price column, adds price_category to the processed table and stores the statistics and category counts |
| Processor.DataProcessor.AnalyzeMarketOpportunities | data_processor.py:243-335 | the new state is OpportunitiesStep of the old; without a processed table nothing changes; otherwise it returns the three rules' records and stores them under market_opportunities; rule 3 is the intended one of the Findings, where the code as written can raise IndexError |
| Processor.DataProcessor.StoreOpportunities | data_processor.py:332-333 | writes market_opportunities and leaves the other entries and the tables as they were |
| Processor.DataProcessor.GenerateSummaryInsights | data_processor.py:337-414 | the new state and outcome are SummaryStep of the old state; without a processed table it returns an empty result and stores nothing; otherwise it stores the summary with cities, or returns an argmax error without storing |
| Processor.DataProcessor.RunAllAnalyses | data_processor.py:416-433 | the new state and outcome are RunAll of the old raw data and state; without raw data nothing changes; an empty raw table with nothing processed stores nothing; keys are never removed; a successful run stores popular_routes, market_opportunities and summary |
| Processor.DataProcessor.RunTableAnalyses | data_processor.py:426-428 | the new state is TableAnalyses of the old: routes with top_n 10, trends, then seasonal patterns; every key is kept; with a processed table popular_routes is stored; without one nothing changes |
| Processor.DataProcessor.RunMarketAnalyses | data_processor.py:429-431 | the new state and outcome are MarketAnalyses of the old state: distribution, opportunities, then the summary; every key is kept; on success market_opportunities and summary are stored; without a processed table nothing changes |
| Processor.DataProcessor.GetInsights | data_processor.py:435-444 | nothing exactly when no insight exists; the one entry when the category names a stored key; otherwise the whole dictionary |
| AppFilter.RouteScope | app.py:228-233 | a route type is filtered exactly when one of "Domestic" and "International" is selected, and it is domestic exactly when that one is "Domestic" |
| AppFilter.FilterData | app.py:219-240 | None or no rows gives the empty frame; a single route type without is_domestic raises KeyError; otherwise the same columns and an order-preserving subsequence that keeps every copy of each row passing both masks and no other row |
| AppFilter.MasksMultiset | app.py:231-238 | the route-type mask followed by the price mask keeps every copy of a passing row and no copy of any other |
| AppFilter.FilterDataKeeps | app.py:225-240 | a row is in the result iff it is an input row passing the route-type mask and, with prices, the closed price range |
| AppFilter.FilterDataPricesInRange | app.py:236-238 | with a price column, every kept row has a price within the inclusive bounds |
| AppFilter.FilterDataIdempotent | app.py:219-240 | filtering a non-empty result again with the same selection changes nothing |
| TextUtils.UpperChar | utils.py:29 | the result is not a lower-case letter; other characters, and whitespace, are kept |
| TextUtils.Strip | utils.py:29 | no longer than the input, with no Python whitespace (the full `str.isspace` set) at either end; empty only for all-whitespace input |
| TextUtils.StripIsSlice | utils.py:29 | strip returns a middle slice with only whitespace around it |
| TextUtils.StripFixed | utils.py:29 | a string with no surrounding whitespace is its own strip |
| TextUtils.FormatAirportCode | utils.py:23-35 | an empty code gives ""; otherwise no longer than the input, no lower-case letter, and no whitespace at either end |
| TextUtils.FormatAirportCodeIdempotent | utils.py:23-35 | formatting a formatted code changes nothing |
| TextUtils.FormatAirportCodeUppercases | utils.py:29 | a code without surrounding whitespace is only upper-cased |
| TextUtils.InvalidCodeIsReturned | utils.py:32-35 | an invalid code (" mel1 ") is still returned, formatted ("MEL1") |
| TextUtils.LastMatch | utils.py:61-62 | the greedy group end: a match, and no larger end matches |
| TextUtils.PatternGroup | utils.py:61-66 | the group is non-empty letters and whitespace, the name's prefix up to the largest matching end; none exactly when nothing matches |
| TextUtils.FirstGroupFrom | utils.py:65-68 | a found group is a non-empty run of letters and whitespace |
| TextUtils.RemoveAll | utils.py:74 | `replace(w, '')` never lengthens the string |
| TextUtils.RemoveSuffixes | utils.py:71-75 | the suffix removals never lengthen the string |
| TextUtils.RemoveParenthesisedWithoutClose | utils.py:77 | with no ')' there is nothing parenthesised to remove |
| TextUtils.CityText | utils.py:56-77 | the text to strip is never longer than the name (empty for an empty name) |
| TextUtils.CityName | utils.py:53-79 | the city has no surrounding whitespace and is never longer than the name, so an empty name gives "" |
| TextUtils.ExtractCityName | utils.py:53-79 | the pattern loop with early return and the suffix loop compute exactly CityName |
| TextUtils.FirstPatternCity | utils.py:61-68 | when the first pattern matches, the city is the longest matching group, stripped |
| TextUtils.SecondPatternCity | utils.py:61-68 | when only the second pattern matches, the city is its longest matching group, stripped |
| TextUtils.FallbackCity | utils.py:70-79 | when no pattern matches, the suffixes are removed in order, then the parenthesised parts, then the rest is stripped |
| TextUtils.PatternCityIsNamePrefix | utils.py:60-68 | a pattern city consists of letters and whitespace and is a slice of the matched prefix |
| TextUtils.MatchedGroupEnd | utils.py:65-68 | the first matching pattern has a group end k, and the city is the name's first k characters, stripped |
| TextUtils.PlainNameIsKept | utils.py:53-79 | a name made only of letters is returned as it is |
| TextUtils.NoSpaceNoSuffix | utils.py:71-75 | suffixes that begin with a space leave a string without spaces unchanged |
| TextUtils.RemoveAbsent | utils.py:74 | removing a space-led word from a letters-only string changes nothing |
| TextUtils.SydneyAirportExample | utils.py:55 | "Sydney Airport (SYD)" gives "Sydney" |

## Left out

- **Floating-point arithmetic.** Prices are exact reals. IEEE rounding is not modelled, and neither is `round(..., 1 or 2)` in the summary; every summary figure is the quantity before rounding.
- **Analyses.PriceStatsOf:** the sample standard deviation (`std`) is not modelled, because it needs a square root.
- **Calendar computations.** `pd.to_datetime`, `dt.dayofweek`, `dt.month` and `isocalendar()` are not computed. A parsed date carries its month, weekday, ISO year and ISO week. The date column is either wholly parseable or wholly not. A missing date (NaT) is not modelled.
- **Summary.WeekendPremiumOf:** a zero weekday mean gives NaN here. Float division in the source would give an infinity or NaN.
- **Opportunities.RatioAbove:** models the IEEE behaviour of `weekend / weekday > 1.3` for a zero or negative weekday median, without dividing.
- **Opportunities.PivotRows:** keeps a route whose two medians are both NaN; `pivot_table` drops it. Such a row never passes the ratio filter, so the records are the same.
- **Tie orders.** pandas leaves the order of equal counts or equal differences unspecified. The model fixes ascending key everywhere; rule 2 breaks ties by route, then weekday median.
- **Origin and destination columns.** They are always present in the model. So the `'origin' in df.columns` and `'destination' in df.columns` guards (data_processor.py:253, 371, 375) always pass.
- **Cells of absent columns.** The model keeps cells of columns a table does not have, but never reads them.
- **The insights dictionary** is a `map` from keys to typed values. Key insertion order and the `to_dict('records')` layout are not captured. Opportunity records carry their fields, but not the fixed `type` and `opportunity` strings.
- **Rule 3 labels.** The `opportunity` text of a rule-3 record is not modelled, because it formats the ratio with two decimals.
- **Logging.** Every `logger.warning` call has no model, including the invalid-code warning of `format_airport_code`.
- **None inputs.** `format_airport_code(None)` and `extract_city_name(None)` are not modelled; the model's inputs are strings, and the empty string is covered.
- **Character classes.** Whitespace is Python's full `str.isspace` set: the ASCII controls `\t` to `\r`, U+001C to U+001F, the space, and the Unicode spaces. Two things stay ASCII:
  - `upper()` changes only a–z;
  - `[A-Za-z]` is ASCII letters.

  Python's `str.upper` also maps other Unicode letters.
- **Data collection, visualisation and the rest of the dashboard.** HTTP clients, mock data, charts, the Streamlit layout, PDF export and the AI-insight text generators are not part of this model.
- **`filter_data` and copies.** The function is modelled on values, so the caller's table cannot change. The copy at app.py:225 has no separate model.
- **Aliasing in the processor.** In the source, the analyses add columns to `processed_data` through the alias `df`. The model instead writes the extended table back into `processed`: `week`/`year` in AnalyzePriceTrends, `month` in AnalyzeSeasonalPatterns, `price_category` in AnalyzePriceDistribution.
- Processor.DataProcessor.AnalyzeSeasonalPatterns: it runs the corrected counting pass of the Findings. On a processed table with a month column (or typed dates) but no price column, the source adds `month` (data_processor.py:156) and then raises KeyError at data_processor.py:162-164. It stores no patterns. The model stores each month's row count instead.
- Processor.DataProcessor.RunAllAnalyses: `run_all_analyses` (data_processor.py:416-433) does not catch that KeyError. In the source, such a run stops at the seasonal pass, and the distribution, opportunities and summary passes never run. In the model the run goes on to all of them.
- Processor.DataProcessor.AnalyzeMarketOpportunities: it runs the intended rule 3 (Opportunities.SeasonalOver). Where the source's `iloc` lookup raises IndexError (data_processor.py:318-320, see Findings), the source stores nothing and stops the run; the model stores the intended records. The code as written is Opportunities.SeasonalOverAsWritten.

## Findings

| source | as written | input that shows it | evidently intended | confidence | as-written member | corrected member |
|---|---|---|---|---|---|---|
| data_processor.py:318-320 | `route_data.iloc[route_data['price'].idxmax()]`: `idxmax`/`idxmin` return index labels of the whole `monthly_prices` frame, and `iloc` reads them as positions among the origin's rows | frame rows (A, X, Jan, 100), (B, Y, Jan, 100), (B, Y, Jun, 400). B's rows carry labels 1 and 2, its maximum is at label 2, and `iloc[2]` on two rows raises IndexError | the destination and month of the origin's most expensive row and the month of its cheapest: B→Y, June high, January low, ratio 4 | high; not executed | Opportunities.OriginSeasonalityAsWritten, Opportunities.SeasonalIlocCounterexample | Opportunities.OriginSeasonality, Opportunities.SeasonalityNamesExtremes |
| data_processor.py:162-164 | `agg({'price': 'count'})` when the table has no price column: the aggregation still names `price`, which pandas rejects with KeyError (the weekday aggregation at lines 174-176 is the same) | any non-empty processed table with a month column and no price column | the number of rows of each month (and each weekday) | medium; not executed | Analyses.MonthlyPatternsAsWritten, Analyses.SeasonalWithoutPricesRaises | Analyses.MonthlyPatterns, Analyses.MonthlyPatternsCoverMonths |

## Behaviour worth knowing

- **Price categories.** `pd.cut` closes its bins on the right by default, so a price of exactly 200 is Budget and 500 is Economy (Analyses.CategoryEdges).
- **Cleaning is not idempotent.** The IQR fence is recomputed from the rows that are left. For example, prices [0, 0, 0, 0, 10, 100] lose 100 in the first pass and 10 in the second. The model states only what one pass does.
- **Insights are never reset.** `self.insights` is not cleared between runs, so a second run adds to or replaces the first run's entries (Processor.RunAllKeepsKeys).
