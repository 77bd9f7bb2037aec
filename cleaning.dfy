/**
 * The cleaning stage of `DataProcessor.clean_data`, step by step: price
 * imputation, date parsing, de-duplication, outlier removal and the calendar
 * columns. `CleanTable` composes the steps in the order the method runs them.
 */
module Cleaning {
  import opened Wrappers
  import opened Sequences
  import opened Stats
  import opened Flights

  // ---------------------------------------------------------------- imputation

  predicate HasMissingPrice(rows: seq<Row>)
  {
    exists i :: 0 <= i < |rows| && rows[i].price.None?
  }

  /** Median of the non-missing prices on one route (`transform('median')`); NaN when there are none. */
  function RouteMedian(rows: seq<Row>, route: Route): Num
  {
    Median(PricesOf(RouteRows(rows, route)))
  }

  /** `fillna(v)` on one cell: a missing price takes `v` unless `v` is NaN. */
  function FillPrice(r: Row, v: Num): (f: Row)
    ensures f == r.(price := f.price)
    ensures r.price.Some? ==> f.price == r.price
    ensures r.price.None? && v.Real? ==> f.price == Some(v.r)
    ensures r.price.None? && v.NaN? ==> f.price.None?
  {
    if r.price.None? && v.Real? then r.(price := Some(v.r)) else r
  }

  /** First fill: each missing price takes the median of its route in `source`. */
  function FillByRoute(rows: seq<Row>, source: seq<Row>): (f: seq<Row>)
    ensures |f| == |rows|
    ensures forall i :: 0 <= i < |rows| ==> f[i] == FillPrice(rows[i], RouteMedian(source, RouteOf(rows[i])))
  {
    MapSeq(rows, (r: Row) => FillPrice(r, RouteMedian(source, RouteOf(r))))
  }

  /** Second fill: each price still missing takes `v`. */
  function FillAll(rows: seq<Row>, v: Num): (f: seq<Row>)
    ensures |f| == |rows|
    ensures forall i :: 0 <= i < |rows| ==> f[i] == FillPrice(rows[i], v)
  {
    MapSeq(rows, (r: Row) => FillPrice(r, v))
  }

  /**
   * Lines 46-51 of clean_data: when the price column exists and some price is
   * missing, fill from the route median, then from the median of the column
   * after that first fill.
   */
  function ImputePrices(t: Table): (r: Table)
    ensures r.columns == t.columns && r.dates == t.dates && |r.rows| == |t.rows|
    ensures forall i :: 0 <= i < |t.rows| ==> r.rows[i] == t.rows[i].(price := r.rows[i].price)
  {
    if PriceCol in t.columns && HasMissingPrice(t.rows) then
      var byRoute := FillByRoute(t.rows, t.rows);
      t.(rows := FillAll(byRoute, Median(PricesOf(byRoute))))
    else t
  }

  /** Imputation never changes a price that was present. */
  lemma ImputeKeepsPresentPrices(t: Table, i: int)
    requires 0 <= i < |t.rows| && t.rows[i].price.Some?
    ensures ImputePrices(t).rows[i] == t.rows[i]
  {
    if PriceCol in t.columns && HasMissingPrice(t.rows) {
      var byRoute := FillByRoute(t.rows, t.rows);
      assert byRoute[i] == t.rows[i];
    }
  }

  /** A missing price on a route with some known price takes that route's median. */
  lemma ImputeUsesRouteMedian(t: Table, i: int)
    requires PriceCol in t.columns
    requires 0 <= i < |t.rows| && t.rows[i].price.None?
    requires PricesOf(RouteRows(t.rows, RouteOf(t.rows[i]))) != []
    ensures ImputePrices(t).rows[i].price == Some(RouteMedian(t.rows, RouteOf(t.rows[i])).r)
  {
    assert HasMissingPrice(t.rows);
    var byRoute := FillByRoute(t.rows, t.rows);
    assert byRoute[i].price.Some?;
  }

  /**
   * A missing price whose route has no known price takes the median of the
   * column after the route fill.
   */
  lemma ImputeFallsBackToOverallMedian(t: Table, i: int)
    requires PriceCol in t.columns
    requires 0 <= i < |t.rows| && t.rows[i].price.None?
    requires PricesOf(RouteRows(t.rows, RouteOf(t.rows[i]))) == []
    ensures var overall := Median(PricesOf(FillByRoute(t.rows, t.rows)));
            ImputePrices(t).rows[i].price == if overall.Real? then Some(overall.r) else None
  {
    assert HasMissingPrice(t.rows);
    var byRoute := FillByRoute(t.rows, t.rows);
    assert byRoute[i].price.None?;
  }

  /** If any price is known, no price is missing after imputation. */
  lemma ImputeFillsEveryPrice(t: Table)
    requires PriceCol in t.columns
    requires exists i :: 0 <= i < |t.rows| && t.rows[i].price.Some?
    ensures forall i :: 0 <= i < |ImputePrices(t).rows| ==> ImputePrices(t).rows[i].price.Some?
  {
    if HasMissingPrice(t.rows) {
      var byRoute := FillByRoute(t.rows, t.rows);
      var k :| 0 <= k < |t.rows| && t.rows[k].price.Some?;
      RouteFillKeepsKnownPrice(t.rows, k);
      FillAllLeavesNoGap(byRoute, Median(PricesOf(byRoute)));
    }
  }

  lemma RouteFillKeepsKnownPrice(rows: seq<Row>, k: int)
    requires 0 <= k < |rows| && rows[k].price.Some?
    ensures Median(PricesOf(FillByRoute(rows, rows))).Real?
  {
    var byRoute := FillByRoute(rows, rows);
    assert byRoute[k].price.Some?;
  }

  lemma FillAllLeavesNoGap(rows: seq<Row>, v: Num)
    requires v.Real?
    ensures forall i :: 0 <= i < |FillAll(rows, v)| ==> FillAll(rows, v)[i].price.Some?
  {
  }

  // ---------------------------------------------------------------- dates

  /**
   * `pd.to_datetime` on flight_date: text that parses becomes datetimes; text
   * that does not parse raises, the exception is swallowed and the column is
   * left as it was.
   */
  function ParseDates(t: Table): (r: Table)
    ensures r.columns == t.columns && r.rows == t.rows
    ensures FlightDateCol in t.columns && t.dates != DateUnparseable ==> DatesTyped(r)
    ensures t.dates == DateUnparseable ==> !DatesTyped(r)
    ensures FlightDateCol !in t.columns ==> r == t
  {
    if FlightDateCol in t.columns && t.dates == DateText then t.(dates := DateTyped) else t
  }

  // ---------------------------------------------------------------- duplicates

  /** The `subset=` of `drop_duplicates`: flight_date, flight_time, origin, destination, airline. */
  datatype DedupKey = DedupKey(flightDate: Date, flightTime: Option<string>, origin: string,
                               destination: string, airline: Option<string>)

  function KeyOf(r: Row): DedupKey
  {
    DedupKey(r.flightDate, r.flightTime, r.origin, r.destination, r.airline)
  }

  /** No earlier row has the key of row `i`. */
  ghost predicate FirstOfKey(rows: seq<Row>, i: int)
    requires 0 <= i < |rows|
  {
    forall j :: 0 <= j < i ==> KeyOf(rows[j]) != KeyOf(rows[i])
  }

  /** Row `i` is kept by keep='first' after the keys in `seen`: its key is new and it is the first of its key. */
  ghost predicate Kept(rows: seq<Row>, seen: set<DedupKey>, i: int)
    requires 0 <= i < |rows|
  {
    KeyOf(rows[i]) !in seen && FirstOfKey(rows, i)
  }

  ghost predicate Increasing(idx: seq<int>)
  {
    forall k, l :: 0 <= k < l < |idx| ==> idx[k] < idx[l]
  }

  /** `r` lists the rows of `rows` at the positions `idx`. */
  ghost predicate PicksAt(r: seq<Row>, rows: seq<Row>, idx: seq<int>)
  {
    |idx| == |r| && forall k :: 0 <= k < |idx| ==> 0 <= idx[k] < |rows| && r[k] == rows[idx[k]]
  }

  /** The positions in `idx` are exactly the kept ones. */
  ghost predicate KeptPositions(rows: seq<Row>, seen: set<DedupKey>, idx: seq<int>)
  {
    forall i :: 0 <= i < |rows| ==> (i in idx <==> Kept(rows, seen, i))
  }

  /**
   * `r` is the rows of `rows` at the increasing positions `idx`, and the
   * positions in `idx` are exactly the kept ones: keep='first', in the
   * original order.
   */
  ghost predicate KeptAt(r: seq<Row>, rows: seq<Row>, seen: set<DedupKey>, idx: seq<int>)
  {
    PicksAt(r, rows, idx) && Increasing(idx) && KeptPositions(rows, seen, idx)
  }

  /**
   * `drop_duplicates(keep='first')` continued after the keys in `seen` have
   * already been kept: each row whose key is new is kept, the others dropped.
   */
  function DedupFrom(rows: seq<Row>, seen: set<DedupKey>): (r: seq<Row>)
    ensures SubsequenceOf(r, rows)
    ensures forall i :: 0 <= i < |r| ==> KeyOf(r[i]) !in seen
    ensures forall i, j :: 0 <= i < j < |r| ==> KeyOf(r[i]) != KeyOf(r[j])
    ensures forall i :: 0 <= i < |rows| && KeyOf(rows[i]) !in seen && FirstOfKey(rows, i) ==> rows[i] in r
    decreases |rows|
  {
    if rows == [] then []
    else
      var k := KeyOf(rows[0]);
      if k in seen then
        var rest := DedupFrom(rows[1..], seen);
        assert forall i :: 1 <= i < |rows| && FirstOfKey(rows, i) ==> FirstOfKey(rows[1..], i - 1);
        rest
      else
        var rest := DedupFrom(rows[1..], seen + {k});
        assert forall i :: 1 <= i < |rows| && FirstOfKey(rows, i) ==>
                 FirstOfKey(rows[1..], i - 1) && KeyOf(rows[1..][i - 1]) != k;
        [rows[0]] + rest
  }

  /** Positions shifted past one more leading row. */
  function Shifted(idx: seq<int>): (s: seq<int>)
    ensures |s| == |idx| && forall k :: 0 <= k < |s| ==> s[k] == idx[k] + 1
  {
    seq(|idx|, k requires 0 <= k < |idx| => idx[k] + 1)
  }

  lemma ShiftedMembers(idx: seq<int>, i: int)
    requires forall k :: 0 <= k < |idx| ==> 0 <= idx[k]
    ensures i in Shifted(idx) <==> 1 <= i && i - 1 in idx
  {
    var s := Shifted(idx);
    if i in s {
      var k :| 0 <= k < |s| && s[k] == i;
      assert idx[k] == i - 1;
    }
    if 1 <= i && i - 1 in idx {
      var k :| 0 <= k < |idx| && idx[k] == i - 1;
      assert s[k] == i;
    }
  }

  /** Row `i` is first of its key iff row 0 differs in key and it is first of its key in the tail. */
  lemma FirstOfKeyTail(rows: seq<Row>, i: int)
    requires 1 <= i < |rows|
    ensures rows[1..][i - 1] == rows[i]
    ensures FirstOfKey(rows, i) <==> KeyOf(rows[0]) != KeyOf(rows[i]) && FirstOfKey(rows[1..], i - 1)
  {
    assert forall j :: 1 <= j < i ==> rows[j] == rows[1..][j - 1];
  }

  /** A first row whose key was already seen is dropped: the kept positions shift by one. */
  lemma KeptAtSkip(rows: seq<Row>, seen: set<DedupKey>, rest: seq<Row>, idx: seq<int>)
    requires rows != [] && KeyOf(rows[0]) in seen
    requires KeptAt(rest, rows[1..], seen, idx)
    ensures KeptAt(rest, rows, seen, Shifted(idx))
  {
    var s := Shifted(idx);
    forall k | 0 <= k < |s|
      ensures 0 <= s[k] < |rows| && rest[k] == rows[s[k]]
    {
      assert rows[1..][idx[k]] == rows[s[k]];
    }
    forall i | 0 <= i < |rows|
      ensures i in s <==> Kept(rows, seen, i)
    {
      ShiftedMembers(idx, i);
      if 1 <= i {
        FirstOfKeyTail(rows, i);
        assert i - 1 in idx <==> Kept(rows[1..], seen, i - 1);
      }
    }
  }

  /** A first row with a new key is kept: position 0, then the shifted positions of the rest. */
  lemma KeptAtKeep(rows: seq<Row>, seen: set<DedupKey>, rest: seq<Row>, idx: seq<int>)
    requires rows != [] && KeyOf(rows[0]) !in seen
    requires KeptAt(rest, rows[1..], seen + {KeyOf(rows[0])}, idx)
    ensures KeptAt([rows[0]] + rest, rows, seen, [0] + Shifted(idx))
  {
    var seen' := seen + {KeyOf(rows[0])};
    var s := [0] + Shifted(idx);
    var r := [rows[0]] + rest;
    forall k | 0 <= k < |s|
      ensures 0 <= s[k] < |rows| && r[k] == rows[s[k]]
    {
      if k > 0 {
        assert s[k] == idx[k - 1] + 1 && r[k] == rest[k - 1];
        assert rows[1..][idx[k - 1]] == rows[s[k]];
      }
    }
    forall i | 0 <= i < |rows|
      ensures i in s <==> Kept(rows, seen, i)
    {
      ShiftedMembers(idx, i);
      if 1 <= i {
        FirstOfKeyTail(rows, i);
        assert i - 1 in idx <==> Kept(rows[1..], seen', i - 1);
      }
    }
  }

  /** What `DedupFrom` returns is keep='first' in the original order. */
  lemma {:induction false} DedupFromKeptAt(rows: seq<Row>, seen: set<DedupKey>)
    ensures exists idx :: KeptAt(DedupFrom(rows, seen), rows, seen, idx)
    decreases |rows|
  {
    if rows == [] {
      assert KeptAt(DedupFrom(rows, seen), rows, seen, []);
    } else {
      var k := KeyOf(rows[0]);
      if k in seen {
        var rest := DedupFrom(rows[1..], seen);
        DedupFromKeptAt(rows[1..], seen);
        var idx :| KeptAt(rest, rows[1..], seen, idx);
        KeptAtSkip(rows, seen, rest, idx);
        assert KeptAt(DedupFrom(rows, seen), rows, seen, Shifted(idx));
      } else {
        var rest := DedupFrom(rows[1..], seen + {k});
        DedupFromKeptAt(rows[1..], seen + {k});
        var idx :| KeptAt(rest, rows[1..], seen + {k}, idx);
        KeptAtKeep(rows, seen, rest, idx);
        assert KeptAt(DedupFrom(rows, seen), rows, seen, [0] + Shifted(idx));
      }
    }
  }

  /** Two increasing position lists with the same members are the same list. */
  lemma {:induction false} IncreasingSameMembers(a: seq<int>, b: seq<int>)
    requires Increasing(a) && Increasing(b)
    requires forall x :: x in a <==> x in b
    ensures a == b
    decreases |a|
  {
    if a != [] {
      assert a[0] in a;
      var k :| 0 <= k < |b| && b[k] == a[0];
      assert b[0] in b;
      var l :| 0 <= l < |a| && a[l] == b[0];
      assert a[0] == b[0];
      forall x
        ensures x in a[1..] <==> x in b[1..]
      {
        if x in a[1..] {
          var k :| 1 <= k < |a| && a[k] == x;
          assert x in a;
          assert x != b[0];
        }
        if x in b[1..] {
          var k :| 1 <= k < |b| && b[k] == x;
          assert x in b;
          assert x != a[0];
        }
      }
      IncreasingSameMembers(a[1..], b[1..]);
      assert a == [a[0]] + a[1..] && b == [b[0]] + b[1..];
    }
  }

  /** The keep='first' positions determine the result: two results kept at them are equal. */
  lemma KeptAtUnique(r1: seq<Row>, r2: seq<Row>, rows: seq<Row>, seen: set<DedupKey>, idx1: seq<int>, idx2: seq<int>)
    requires KeptAt(r1, rows, seen, idx1) && KeptAt(r2, rows, seen, idx2)
    ensures r1 == r2
  {
    forall x
      ensures x in idx1 <==> x in idx2
    {
      if x in idx1 {
        var k :| 0 <= k < |idx1| && idx1[k] == x;
      }
      if x in idx2 {
        var k :| 0 <= k < |idx2| && idx2[k] == x;
      }
    }
    IncreasingSameMembers(idx1, idx2);
  }

  /** `DedupFrom` is the one sequence of keep='first' rows in the original order. */
  lemma DedupFromIsKeepFirst(rows: seq<Row>, seen: set<DedupKey>, r: seq<Row>, idx: seq<int>)
    requires KeptAt(r, rows, seen, idx)
    ensures DedupFrom(rows, seen) == r
  {
    DedupFromKeptAt(rows, seen);
    var idx' :| KeptAt(DedupFrom(rows, seen), rows, seen, idx');
    KeptAtUnique(DedupFrom(rows, seen), r, rows, seen, idx', idx);
  }

  function MissingKeyColumn(t: Table): Option<Column>
  {
    if FlightDateCol !in t.columns then Some(FlightDateCol)
    else if FlightTimeCol !in t.columns then Some(FlightTimeCol)
    else if AirlineCol !in t.columns then Some(AirlineCol)
    else None
  }

  /**
   * Lines 61-63 of clean_data: with more than three columns, keep the first
   * row of each key; pandas raises KeyError when a key column is absent.
   */
  function DropDuplicates(t: Table): (r: Result<Table, PandasError>)
    ensures ColumnCount(t) <= 3 ==> r == Ok(t)
    ensures ColumnCount(t) > 3 && MissingKeyColumn(t).Some? ==> r == Err(KeyError(MissingKeyColumn(t).value))
    ensures r.Ok? ==> r.value.columns == t.columns && r.value.dates == t.dates
    ensures r.Ok? && ColumnCount(t) > 3 ==>
              && SubsequenceOf(r.value.rows, t.rows)
              && (forall i, j :: 0 <= i < j < |r.value.rows| ==> KeyOf(r.value.rows[i]) != KeyOf(r.value.rows[j]))
              && (forall i :: 0 <= i < |t.rows| && FirstOfKey(t.rows, i) ==> t.rows[i] in r.value.rows)
              && (exists idx :: KeptAt(r.value.rows, t.rows, {}, idx))
  {
    if ColumnCount(t) <= 3 then Ok(t)
    else if MissingKeyColumn(t).Some? then Err(KeyError(MissingKeyColumn(t).value))
    else
      DedupFromKeptAt(t.rows, {});
      Ok(t.(rows := DedupFrom(t.rows, {})))
  }

  // ---------------------------------------------------------------- outliers

  /** The IQR fence [Q1 - 1.5 IQR, Q3 + 1.5 IQR]; None when the quartiles are NaN (no price at all). */
  function PriceFence(prices: seq<real>): (f: Option<(real, real)>)
    ensures f.Some? <==> prices != []
    ensures f.Some? ==> f.value.0 <= Quantile(prices, 1).r <= Quantile(prices, 3).r <= f.value.1
  {
    var q1 := Quantile(prices, 1);
    var q3 := Quantile(prices, 3);
    if q1.NaN? || q3.NaN? then None
    else
      QuantileMonotone(prices, 1, 3);
      var iqr := q3.r - q1.r;
      Some((q1.r - 1.5 * iqr, q3.r + 1.5 * iqr))
  }

  /** The comparison mask of line 77: a missing price or a NaN fence compares false. */
  predicate InFence(r: Row, fence: Option<(real, real)>)
  {
    r.price.Some? && fence.Some? && fence.value.0 <= r.price.value <= fence.value.1
  }

  /**
   * Lines 66-77 of clean_data: keep exactly the rows whose price lies inside
   * the fence computed from the current price column.
   */
  function RemoveOutliers(t: Table): (r: Table)
    ensures r.columns == t.columns && r.dates == t.dates
    ensures PriceCol !in t.columns ==> r == t
    ensures PriceCol in t.columns ==>
              var fence := PriceFence(PricesOf(t.rows));
              && SubsequenceOf(r.rows, t.rows)
              && (forall i :: 0 <= i < |r.rows| ==> InFence(r.rows[i], fence))
              && (forall i :: 0 <= i < |t.rows| && InFence(t.rows[i], fence) ==> t.rows[i] in r.rows)
              && (forall x :: multiset(r.rows)[x] == if InFence(x, fence) then multiset(t.rows)[x] else 0)
  {
    if PriceCol in t.columns then
      var fence := PriceFence(PricesOf(t.rows));
      FilterMultiset(t.rows, (row: Row) => InFence(row, fence));
      t.(rows := Filter(t.rows, (row: Row) => InFence(row, fence)))
    else t
  }

  /** Every row kept by the outlier filter has a price, so the cleaned price column has no gap. */
  lemma OutliersLeaveNoMissingPrice(t: Table)
    requires PriceCol in t.columns
    ensures forall i :: 0 <= i < |RemoveOutliers(t).rows| ==> RemoveOutliers(t).rows[i].price.Some?
  {
  }

  /** With no known price the quartiles are NaN and every row is dropped. */
  lemma NoPricesDropsEveryRow(t: Table)
    requires PriceCol in t.columns
    requires forall i :: 0 <= i < |t.rows| ==> t.rows[i].price.None?
    ensures RemoveOutliers(t).rows == []
  {
    assert PricesOf(t.rows) == [];
  }

  // ---------------------------------------------------------------- calendar

  function WithCalendar(r: Row): (c: Row)
    ensures c.dayOfWeek == r.flightDate.dayOfWeek && c.month == r.flightDate.month
    ensures c.isWeekend <==> c.dayOfWeek == 5 || c.dayOfWeek == 6
    ensures c == r.(dayOfWeek := c.dayOfWeek, month := c.month, isWeekend := c.isWeekend)
  {
    var d := r.flightDate.dayOfWeek;
    r.(dayOfWeek := d, month := r.flightDate.month, isWeekend := d == 5 || d == 6)
  }

  const CalendarColumns: set<Column> := {DayOfWeekCol, MonthCol, IsWeekendCol}

  /** Lines 80-83 of clean_data: day_of_week, month and is_weekend, only when flight_date holds datetimes. */
  function DeriveCalendar(t: Table): (r: Table)
    ensures r.dates == t.dates && |r.rows| == |t.rows|
    ensures DatesTyped(t) ==> r.columns == t.columns + CalendarColumns
    ensures DatesTyped(t) ==> forall i :: 0 <= i < |t.rows| ==> r.rows[i] == WithCalendar(t.rows[i])
    ensures !DatesTyped(t) ==> r == t
    ensures PriceCol in r.columns <==> PriceCol in t.columns
  {
    if DatesTyped(t) then t.(columns := t.columns + CalendarColumns, rows := MapSeq(t.rows, WithCalendar))
    else t
  }

  // ---------------------------------------------------------------- the stage

  /** clean_data on a non-empty table: the steps in source order; KeyError from de-duplication aborts. */
  function CleanTable(t: Table): Result<Table, PandasError>
  {
    var parsed := ParseDates(ImputePrices(t));
    match DropDuplicates(parsed)
    case Err(e) => Err(e)
    case Ok(unique) => Ok(DeriveCalendar(RemoveOutliers(unique)))
  }

  /**
   * After cleaning the price and flight_date columns are those of the input,
   * and the calendar columns exist exactly when flight_date is of datetime
   * type or they were there already.
   */
  lemma CleanTableColumns(t: Table)
    requires CleanTable(t).Ok?
    ensures var c := CleanTable(t).value;
            && c.columns * {PriceCol, FlightDateCol} == t.columns * {PriceCol, FlightDateCol}
            && (CalendarColumns <= c.columns <==> DatesTyped(c) || CalendarColumns <= t.columns)
  {
  }

  /** Cleaning never adds a row. */
  lemma CleanTableShrinks(t: Table)
    requires CleanTable(t).Ok?
    ensures |CleanTable(t).value.rows| <= |t.rows|
  {
    var parsed := ParseDates(ImputePrices(t));
    var unique := DropDuplicates(parsed).value;
    var kept := RemoveOutliers(unique);
    if ColumnCount(parsed) > 3 {
      SubsequenceLength(unique.rows, parsed.rows);
    }
    if PriceCol in unique.columns {
      SubsequenceLength(kept.rows, unique.rows);
    }
  }

  /**
   * With a price column, every cleaned row has a price, inside the fence
   * computed from the de-duplicated prices.
   */
  lemma CleanTablePricesInFence(t: Table)
    requires CleanTable(t).Ok? && PriceCol in CleanTable(t).value.columns
    ensures var c := CleanTable(t).value;
            var unique := DropDuplicates(ParseDates(ImputePrices(t))).value;
            forall i :: 0 <= i < |c.rows| ==> InFence(c.rows[i], PriceFence(PricesOf(unique.rows)))
  {
    var unique := DropDuplicates(ParseDates(ImputePrices(t))).value;
    var kept := RemoveOutliers(unique);
    var fence := PriceFence(PricesOf(unique.rows));
    assert CleanTable(t).value == DeriveCalendar(kept);
    assert PriceCol in kept.columns;
    assert forall i :: 0 <= i < |kept.rows| ==> InFence(kept.rows[i], fence);
    CalendarKeepsFence(kept, fence);
  }

  /** Deriving the calendar columns leaves every price as it was. */
  lemma CalendarKeepsFence(t: Table, fence: Option<(real, real)>)
    requires forall i :: 0 <= i < |t.rows| ==> InFence(t.rows[i], fence)
    ensures forall i :: 0 <= i < |DeriveCalendar(t).rows| ==> InFence(DeriveCalendar(t).rows[i], fence)
  {
    var c := DeriveCalendar(t);
    forall i | 0 <= i < |c.rows| ensures InFence(c.rows[i], fence) {
      assert c.rows[i].price == t.rows[i].price;
    }
  }

  lemma {:induction false} SubsequenceLength<T>(r: seq<T>, s: seq<T>)
    requires SubsequenceOf(r, s)
    ensures |r| <= |s|
    decreases |s|
  {
    if r != [] {
      if r[0] == s[0] && SubsequenceOf(r[1..], s[1..]) {
        SubsequenceLength(r[1..], s[1..]);
      } else {
        SubsequenceLength(r, s[1..]);
      }
    }
  }
}
