/**
 * The dashboard's `filter_data`: keeps the routes of the selected type and
 * the flights whose price lies in the selected range.
 */
module AppFilter {
  import opened Wrappers
  import opened Sequences
  import opened Flights

  /** `pd.DataFrame()`: no rows and none of the optional columns. */
  const EmptyFrame: Table := Table({}, DateText, [])

  /**
   * The route-type filter: Some(true) keeps domestic routes, Some(false)
   * international ones, None keeps all (both types or neither selected).
   */
  function RouteScope(routeTypes: seq<string>): (scope: Option<bool>)
    ensures scope.Some? <==> ("Domestic" in routeTypes) != ("International" in routeTypes)
    ensures scope.Some? ==> (scope.value <==> "Domestic" in routeTypes)
  {
    if "Domestic" in routeTypes && "International" in routeTypes then None
    else if "Domestic" in routeTypes then Some(true)
    else if "International" in routeTypes then Some(false)
    else None
  }

  /** `price >= low & price <= high`; a missing price compares false. */
  predicate InPriceRange(r: Row, priceRange: (real, real))
  {
    r.price.Some? && priceRange.0 <= r.price.value && r.price.value <= priceRange.1
  }

  /** The route-type mask, when one applies. */
  function ByRouteType(rows: seq<Row>, scope: Option<bool>): seq<Row>
  {
    if scope.None? then rows else Filter(rows, (r: Row) => r.isDomestic == scope.value)
  }

  /** The price mask, when the table has prices. */
  function ByPrice(rows: seq<Row>, priced: bool, priceRange: (real, real)): seq<Row>
  {
    if priced then Filter(rows, (r: Row) => InPriceRange(r, priceRange)) else rows
  }

  /** Whether a row passes both masks. */
  predicate Keeps(t: Table, routeTypes: seq<string>, priceRange: (real, real), r: Row)
  {
    && (RouteScope(routeTypes).None? || r.isDomestic == RouteScope(routeTypes).value)
    && (PriceCol !in t.columns || InPriceRange(r, priceRange))
  }

  /**
   * `filter_data`: no data gives the empty frame; selecting one route type
   * on a table without is_domestic raises KeyError; otherwise the rows that
   * pass both masks, in their order, under the same columns.
   */
  function FilterData(data: Option<Table>, routeTypes: seq<string>, priceRange: (real, real)): (r: Result<Table, PandasError>)
    ensures data.None? || data.value.rows == [] ==> r == Ok(EmptyFrame)
    ensures r.Err? <==>
              data.Some? && data.value.rows != [] && RouteScope(routeTypes).Some? && IsDomesticCol !in data.value.columns
    ensures r.Err? ==> r.error == KeyError(IsDomesticCol)
    ensures r.Ok? && data.Some? && data.value.rows != [] ==>
              && r.value.columns == data.value.columns && r.value.dates == data.value.dates
              && SubsequenceOf(r.value.rows, data.value.rows)
              && (forall x :: multiset(r.value.rows)[x] ==
                    if Keeps(data.value, routeTypes, priceRange, x) then multiset(data.value.rows)[x] else 0)
  {
    if data.None? || data.value.rows == [] then Ok(EmptyFrame)
    else
      var t := data.value;
      var scope := RouteScope(routeTypes);
      if scope.Some? && IsDomesticCol !in t.columns then Err(KeyError(IsDomesticCol))
      else
        var routed := ByRouteType(t.rows, scope);
        var priced := ByPrice(routed, PriceCol in t.columns, priceRange);
        SubsequenceOfRefl(t.rows);
        SubsequenceOfRefl(routed);
        SubsequenceOfTrans(priced, routed, t.rows);
        MasksMultiset(t, routeTypes, priceRange);
        Ok(t.(rows := priced))
  }

  /** The two masks keep every copy of a passing row and no copy of any other. */
  lemma MasksMultiset(t: Table, routeTypes: seq<string>, priceRange: (real, real))
    ensures var routed := ByRouteType(t.rows, RouteScope(routeTypes));
            var priced := ByPrice(routed, PriceCol in t.columns, priceRange);
            forall x :: multiset(priced)[x] == if Keeps(t, routeTypes, priceRange, x) then multiset(t.rows)[x] else 0
  {
    var scope := RouteScope(routeTypes);
    if scope.Some? {
      FilterMultiset(t.rows, (r: Row) => r.isDomestic == scope.value);
    }
    var routed := ByRouteType(t.rows, scope);
    if PriceCol in t.columns {
      FilterMultiset(routed, (r: Row) => InPriceRange(r, priceRange));
    }
  }

  /** A row is in the filtered table exactly when it is a row of the input that passes both masks. */
  lemma FilterDataKeeps(data: Option<Table>, routeTypes: seq<string>, priceRange: (real, real), x: Row)
    requires FilterData(data, routeTypes, priceRange).Ok? && data.Some? && data.value.rows != []
    ensures x in FilterData(data, routeTypes, priceRange).value.rows <==>
              x in data.value.rows && Keeps(data.value, routeTypes, priceRange, x)
  {
    var t := data.value;
    var scope := RouteScope(routeTypes);
    var routed := ByRouteType(t.rows, scope);
    if x in t.rows {
      var i :| 0 <= i < |t.rows| && t.rows[i] == x;
    }
    if x in routed {
      var i :| 0 <= i < |routed| && routed[i] == x;
    }
    var kept := FilterData(data, routeTypes, priceRange).value.rows;
    if x in kept {
      var i :| 0 <= i < |kept| && kept[i] == x;
    }
  }

  /** With a price column, every kept flight costs between the two bounds. */
  lemma FilterDataPricesInRange(data: Option<Table>, routeTypes: seq<string>, priceRange: (real, real))
    requires FilterData(data, routeTypes, priceRange).Ok? && data.Some? && data.value.rows != []
    requires PriceCol in data.value.columns
    ensures forall i :: 0 <= i < |FilterData(data, routeTypes, priceRange).value.rows| ==>
              var p := FilterData(data, routeTypes, priceRange).value.rows[i].price;
              p.Some? && priceRange.0 <= p.value <= priceRange.1
  {
    var rows := FilterData(data, routeTypes, priceRange).value.rows;
    forall i | 0 <= i < |rows|
      ensures rows[i].price.Some? && priceRange.0 <= rows[i].price.value <= priceRange.1
    {
      assert rows[i] in rows;
      FilterDataKeeps(data, routeTypes, priceRange, rows[i]);
    }
  }

  /**
   * Filtering a non-empty result again with the same selection changes
   * nothing. (An empty result is not a fixed point: filtering it gives the
   * column-less empty frame.)
   */
  lemma FilterDataIdempotent(data: Option<Table>, routeTypes: seq<string>, priceRange: (real, real))
    requires FilterData(data, routeTypes, priceRange).Ok?
    requires FilterData(data, routeTypes, priceRange).value.rows != []
    ensures FilterData(Some(FilterData(data, routeTypes, priceRange).value), routeTypes, priceRange)
            == FilterData(data, routeTypes, priceRange)
  {
    var t := data.value;
    var once := FilterData(data, routeTypes, priceRange).value;
    var scope := RouteScope(routeTypes);
    forall i | 0 <= i < |once.rows|
      ensures (scope.None? || once.rows[i].isDomestic == scope.value)
              && (PriceCol !in t.columns || InPriceRange(once.rows[i], priceRange))
    {
      assert once.rows[i] in once.rows;
      FilterDataKeeps(data, routeTypes, priceRange, once.rows[i]);
    }
    FilterKeepsAll(once.rows, scope, PriceCol in t.columns, priceRange);
  }

  /** The masks keep every row of a sequence that already passed them. */
  lemma FilterKeepsAll(rows: seq<Row>, scope: Option<bool>, priced: bool, priceRange: (real, real))
    requires forall i :: 0 <= i < |rows| ==>
               (scope.None? || rows[i].isDomestic == scope.value) && (!priced || InPriceRange(rows[i], priceRange))
    ensures ByPrice(ByRouteType(rows, scope), priced, priceRange) == rows
  {
    if scope.Some? {
      FilterAll(rows, (r: Row) => r.isDomestic == scope.value);
    }
    if priced {
      FilterAll(ByRouteType(rows, scope), (r: Row) => InPriceRange(r, priceRange));
    }
  }

  /** A mask every element passes keeps the sequence. */
  lemma {:induction false} FilterAll<T>(s: seq<T>, p: T -> bool)
    requires forall i :: 0 <= i < |s| ==> p(s[i])
    ensures Filter(s, p) == s
    decreases |s|
  {
    if s != [] {
      FilterAll(s[1..], p);
    }
  }
}
