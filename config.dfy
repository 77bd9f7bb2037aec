/**
 * The two airport tables of the configuration: Australian city -> airport
 * code and popular international city -> airport code, in their declared
 * order, and the code -> city lookup the summary builds from them.
 */
module Config {

  const AustralianCities: seq<(string, string)> := [
    ("Sydney", "SYD"),
    ("Melbourne", "MEL"),
    ("Brisbane", "BNE"),
    ("Perth", "PER"),
    ("Adelaide", "ADL"),
    ("Darwin", "DRW"),
    ("Gold Coast", "OOL"),
    ("Cairns", "CNS"),
    ("Canberra", "CBR"),
    ("Hobart", "HBA")
  ]

  const PopularInternationalDestinations: seq<(string, string)> := [
    ("Auckland", "AKL"),
    ("Singapore", "SIN"),
    ("Bali", "DPS"),
    ("Tokyo", "HND"),
    ("Hong Kong", "HKG"),
    ("Los Angeles", "LAX"),
    ("London", "LHR"),
    ("Dubai", "DXB"),
    ("Bangkok", "BKK"),
    ("Kuala Lumpur", "KUL")
  ]

  /** The airport codes of the Australian cities (the values of the first table). */
  const DomesticCodes: set<string> := set p | p in AustralianCities :: p.1

  /** A route is domestic when both of its airports are Australian. */
  predicate IsDomesticRoute(origin: string, destination: string)
  {
    origin in DomesticCodes && destination in DomesticCodes
  }

  /**
   * The code -> city lookup the summary builds: the Australian table
   * inverted, then updated with the inverted international table. No code
   * appears in both tables, so the update overwrites nothing.
   */
  const AirportToCity: map<string, string> := map[
    "SYD" := "Sydney", "MEL" := "Melbourne", "BNE" := "Brisbane", "PER" := "Perth", "ADL" := "Adelaide",
    "DRW" := "Darwin", "OOL" := "Gold Coast", "CNS" := "Cairns", "CBR" := "Canberra", "HBA" := "Hobart",
    "AKL" := "Auckland", "SIN" := "Singapore", "DPS" := "Bali", "HND" := "Tokyo", "HKG" := "Hong Kong",
    "LAX" := "Los Angeles", "LHR" := "London", "DXB" := "Dubai", "BKK" := "Bangkok", "KUL" := "Kuala Lumpur"]

  /** `m` sends the code of every (city, code) pair to its city. */
  predicate Inverts(m: map<string, string>, pairs: seq<(string, string)>)
  {
    forall p :: p in pairs ==> p.1 in m && m[p.1] == p.0
  }

  /** The lookup inverts the Australian table. */
  lemma AirportToCityInvertsAustralian()
    ensures Inverts(AirportToCity, AustralianCities)
  {
    var a := AustralianCities;
    assert forall i :: 0 <= i < |a| ==> a[i].1 in AirportToCity && AirportToCity[a[i].1] == a[i].0;
  }

  /** The lookup inverts the international table. */
  lemma AirportToCityInvertsInternational()
    ensures Inverts(AirportToCity, PopularInternationalDestinations)
  {
    var b := PopularInternationalDestinations;
    assert forall i :: 0 <= i < |b| ==> b[i].1 in AirportToCity && AirportToCity[b[i].1] == b[i].0;
  }

  /** Every entry of the lookup comes from one of the two tables. */
  lemma AirportToCityFromTables(code: string)
    requires code in AirportToCity
    ensures (AirportToCity[code], code) in AustralianCities + PopularInternationalDestinations
  {
  }

  /** The city of an airport code, or the code itself when no table names it. */
  function CityOf(code: string): (city: string)
    ensures code !in AirportToCity ==> city == code
    ensures code in AirportToCity ==> (city, code) in AustralianCities + PopularInternationalDestinations
  {
    if code in AirportToCity then
      AirportToCityFromTables(code);
      AirportToCity[code]
    else code
  }

  lemma SydneyMelbourneIsDomestic()
    ensures IsDomesticRoute("SYD", "MEL")
  {
    assert ("Sydney", "SYD") in AustralianCities;
    assert ("Melbourne", "MEL") in AustralianCities;
  }
}
