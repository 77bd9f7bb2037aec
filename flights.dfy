/**
 * The flight table: a set of present columns, the state of the flight_date
 * column, and a sequence of rows whose cells may be missing. origin and
 * destination are always present (every pass reads them unguarded).
 */
module Flights {
  import opened Wrappers
  import opened Sequences
  import opened Ordering
  import opened Stats

  type Month = m: int | 1 <= m <= 12 witness 1
  /** pandas `dayofweek`: 0 = Monday .. 6 = Sunday. */
  type Weekday = d: int | 0 <= d <= 6

  /**
   * A parsed calendar date. `day` orders dates (days since an epoch); the
   * calendar facts pandas derives from a date (month, weekday, ISO year and
   * week) are carried with it rather than computed.
   */
  datatype Date = Date(day: int, month: Month, dayOfWeek: Weekday, isoYear: int, isoWeek: int)

  datatype Category = Budget | Economy | Premium | Luxury

  datatype Column =
    | FlightDateCol | FlightTimeCol | AirlineCol | PriceCol | DurationCol | IsDomesticCol
    | DayOfWeekCol | MonthCol | IsWeekendCol | WeekCol | YearCol | PriceCategoryCol
    | OtherCol(name: string)

  /**
   * The flight_date column: still text that `pd.to_datetime` can parse, text it
   * cannot parse (conversion raises and the column is left alone), or already of
   * datetime type.
   */
  datatype DateState = DateText | DateUnparseable | DateTyped

  /**
   * One row. A None cell is a missing value (NaN or None); the date, calendar
   * and flag cells are always present. A cell of a column the table does not
   * have is never read.
   */
  datatype Row = Row(
    flightDate: Date,
    flightTime: Option<string>,
    origin: string,
    destination: string,
    price: Option<real>,
    airline: Option<string>,
    isDomestic: bool,
    dayOfWeek: Weekday,
    month: Month,
    isWeekend: bool,
    week: int,
    year: int,
    priceCategory: Option<Category>)

  /** The exceptions the pipeline can raise. */
  datatype PandasError =
    | KeyError(column: Column)    // a column a step indexes is absent
    | EmptyArgmax(column: Column) // `idxmax` of an empty `value_counts`
    | IndexError(position: int)   // `iloc` past the end of a frame

  datatype Table = Table(columns: set<Column>, dates: DateState, rows: seq<Row>)

  /** `len(df.columns)`: the optional columns plus origin and destination. */
  function ColumnCount(t: Table): nat
  {
    |t.columns| + 2
  }

  /** flight_date holds datetimes (`is_datetime64_any_dtype`). */
  predicate DatesTyped(t: Table)
  {
    FlightDateCol in t.columns && t.dates == DateTyped
  }

  datatype Route = Route(origin: string, destination: string)

  function RouteOf(r: Row): Route
  {
    Route(r.origin, r.destination)
  }

  /** (origin, destination) in ascending lexicographic order, as `groupby` sorts the pair. */
  predicate RouteLt(a: Route, b: Route)
  {
    StrLt(a.origin, b.origin) || (a.origin == b.origin && StrLt(a.destination, b.destination))
  }

  lemma RouteLtIsStrictTotal()
    ensures StrictTotalOrder(RouteLt)
  {
    StrLtIsStrictTotal();
  }

  /** The non-missing prices of `rows`, in row order (pandas skips NaN in every aggregate). */
  function PricesOf(rows: seq<Row>): (ps: seq<real>)
    ensures |ps| <= |rows|
    ensures (exists i :: 0 <= i < |rows| && rows[i].price.Some?) <==> ps != []
    decreases |rows|
  {
    if rows == [] then []
    else
      var rest := PricesOf(rows[1..]);
      assert forall i :: 1 <= i < |rows| ==> rows[i] == rows[1..][i - 1];
      if rows[0].price.Some? then [rows[0].price.value] + rest else rest
  }

  lemma {:induction false} PricesOfAppend(a: seq<Row>, b: seq<Row>)
    ensures PricesOf(a + b) == PricesOf(a) + PricesOf(b)
    decreases |a|
  {
    if a == [] {
      assert a + b == b;
    } else {
      assert (a + b)[1..] == a[1..] + b;
      PricesOfAppend(a[1..], b);
    }
  }

  /** The rows whose group key is `k`. */
  function GroupRows<K(==)>(rows: seq<Row>, key: Row -> K, k: K): seq<Row>
  {
    Filter(rows, (r: Row) => key(r) == k)
  }

  /** Rows of one (origin, destination) route. */
  function RouteRows(rows: seq<Row>, route: Route): seq<Row>
  {
    Filter(rows, (r: Row) => RouteOf(r) == route)
  }

  /** The rows of a route are its group under the (origin, destination) key. */
  lemma {:induction false} RouteRowsAreGroupRows(rows: seq<Row>, route: Route)
    ensures RouteRows(rows, route) == GroupRows(rows, RouteOf, route)
    decreases |rows|
  {
    if rows != [] {
      RouteRowsAreGroupRows(rows[1..], route);
    }
  }

  /** The distinct routes of `rows` in `groupby(['origin', 'destination'])` order. */
  function Routes(rows: seq<Row>): (rs: seq<Route>)
    ensures StrictlySorted(rs, RouteLt)
    ensures forall route :: route in rs <==> exists i :: 0 <= i < |rows| && RouteOf(rows[i]) == route
  {
    RouteLtIsStrictTotal();
    var keys := MapSeq(rows, RouteOf);
    SortedDistinct(keys, RouteLt)
  }

  const MonthNames: seq<string> := [
    "January", "February", "March", "April", "May", "June",
    "July", "August", "September", "October", "November", "December"
  ]

  /** `datetime(2000, m, 1).strftime('%B')`. */
  function MonthName(m: Month): string
  {
    MonthNames[m - 1]
  }

  const DayNames: seq<string> := ["Monday", "Tuesday", "Wednesday", "Thursday", "Friday", "Saturday", "Sunday"]

  function DayName(d: Weekday): string
  {
    DayNames[d]
  }
}
