/** The synthetic fallback generator: one row per monitoring site of the
    registry, with a per-county base AQI and a per-site jitter.

    The random draws are inputs, one `CountyDraw` per county and one
    `SiteDraw` per site, in the registry's order. numpy's `randint(lo, hi)`
    excludes `hi`, which `Drawn` mirrors. */
module MockData {
  import opened Registry

  /** The two metropolitan counties whose base AQI is drawn from a lower range. */
  const MetroCounties: seq<string> := ["臺北市", "新北市"]

  /** Provenance tag of every synthetic row. */
  const FallbackStatus := "備援"

  /** `x` is a possible value of numpy's `randint(lo, hi)`. */
  predicate Drawn(x: int, lo: int, hi: int)
  {
    lo <= x < hi
  }

  /** Draws for one site: the AQI jitter and the ozone reading. */
  datatype SiteDraw = SiteDraw(jitter: int, o3: int)

  /** Draws for one county: its base AQI and one `SiteDraw` per site. */
  datatype CountyDraw = CountyDraw(base: int, sites: seq<SiteDraw>)

  /** One synthetic observation row. */
  datatype Row = Row(county: string, sitename: string, aqi: int, pm25: int, pm10: int, o3: int, status: string)

  /** Python's `int(x * num / 5)` for an integer `x`: the quotient truncated
      toward zero. */
  function TruncFifths(x: int, num: nat): int
  {
    if x >= 0 then x * num / 5 else -((-x) * num / 5)
  }

  /** `int(aqi * 0.4)`. */
  function Pm25Of(aqi: int): (pm: int)
    ensures aqi >= 0 ==> 0 <= 5 * pm <= 2 * aqi < 5 * pm + 5
  {
    TruncFifths(aqi, 2)
  }

  /** `int(aqi * 0.8)`. */
  function Pm10Of(aqi: int): (pm: int)
    ensures aqi >= 0 ==> 0 <= 5 * pm <= 4 * aqi < 5 * pm + 5
  {
    TruncFifths(aqi, 4)
  }

  /** The range a county's base AQI is drawn from, as `randint` bounds. */
  function BaseRange(county: string): (bounds: (int, int))
  {
    if county in MetroCounties then (20, 60) else (60, 140)
  }

  /** The draws fit the registry and each lies in the range it is drawn from. */
  predicate ValidDraws(counties: seq<County>, draws: seq<CountyDraw>)
  {
    && |draws| == |counties|
    && forall c :: 0 <= c < |counties| ==>
         && |draws[c].sites| == |counties[c].sites|
         && Drawn(draws[c].base, BaseRange(counties[c].name).0, BaseRange(counties[c].name).1)
         && forall s :: 0 <= s < |draws[c].sites| ==>
              Drawn(draws[c].sites[s].jitter, -15, 15) && Drawn(draws[c].sites[s].o3, 20, 80)
  }

  /** What the generator promises of every row it makes. */
  predicate PlausibleRow(r: Row)
  {
    && 10 <= r.aqi <= 153
    && (r.county in MetroCounties ==> r.aqi <= 73)
    && (r.county !in MetroCounties ==> 45 <= r.aqi)
    && 0 <= r.pm25 <= r.pm10 <= r.aqi
    && 5 * r.pm25 <= 2 * r.aqi < 5 * r.pm25 + 5
    && 5 * r.pm10 <= 4 * r.aqi < 5 * r.pm10 + 5
    && 20 <= r.o3 < 80
    && r.status == FallbackStatus
  }

  /** The row of one site. */
  function SiteRow(county: string, site: string, base: int, d: SiteDraw): (r: Row)
    requires Drawn(base, BaseRange(county).0, BaseRange(county).1)
    requires Drawn(d.jitter, -15, 15) && Drawn(d.o3, 20, 80)
    ensures r.county == county && r.sitename == site
    ensures r.aqi >= 10 && r.aqi >= base + d.jitter
    ensures r.aqi == 10 || r.aqi == base + d.jitter
    ensures r.o3 == d.o3
    ensures PlausibleRow(r)
  {
    var aqi := if base + d.jitter >= 10 then base + d.jitter else 10;
    Row(county, site, aqi, Pm25Of(aqi), Pm10Of(aqi), d.o3, FallbackStatus)
  }

  /** The (county, site) pair each row belongs to. */
  function Keys(rows: seq<Row>): (keys: seq<(string, string)>)
    ensures |keys| == |rows|
    ensures forall i :: 0 <= i < |rows| ==> keys[i] == (rows[i].county, rows[i].sitename)
  {
    if rows == [] then [] else [(rows[0].county, rows[0].sitename)] + Keys(rows[1..])
  }

  /** The (county, site) pairs of a registry, county by county. */
  function SitePairs(counties: seq<County>): seq<(string, string)>
  {
    if counties == [] then []
    else Pair(counties[0].name, counties[0].sites) + SitePairs(counties[1..])
  }

  /** One county's (county, site) pairs. */
  function Pair(county: string, sites: seq<string>): (pairs: seq<(string, string)>)
    ensures |pairs| == |sites|
    ensures forall i :: 0 <= i < |sites| ==> pairs[i] == (county, sites[i])
  {
    if sites == [] then [] else [(county, sites[0])] + Pair(county, sites[1..])
  }

  lemma {:induction false} KeysAppend(a: seq<Row>, b: seq<Row>)
    ensures Keys(a + b) == Keys(a) + Keys(b)
  {
    if a == [] {
      assert a + b == b;
    } else {
      assert (a + b)[1..] == a[1..] + b;
      KeysAppend(a[1..], b);
    }
  }

  /** The rows of one county's sites, in site order: row `i` is the row of
      site `i` made from the county's base and that site's own draws. */
  function CountyRows(county: string, base: int, sites: seq<string>, draws: seq<SiteDraw>): (rows: seq<Row>)
    requires |draws| == |sites|
    requires Drawn(base, BaseRange(county).0, BaseRange(county).1)
    requires forall s :: 0 <= s < |draws| ==> Drawn(draws[s].jitter, -15, 15) && Drawn(draws[s].o3, 20, 80)
    ensures |rows| == |sites|
    ensures forall i :: 0 <= i < |rows| ==> rows[i] == SiteRow(county, sites[i], base, draws[i])
    ensures Keys(rows) == Pair(county, sites)
    ensures forall i :: 0 <= i < |rows| ==> PlausibleRow(rows[i])
  {
    if sites == [] then []
    else
      var rest := CountyRows(county, base, sites[1..], draws[1..]);
      KeysAppend([SiteRow(county, sites[0], base, draws[0])], rest);
      [SiteRow(county, sites[0], base, draws[0])] + rest
  }

  /** Number of site draws over all counties: one per generated row. */
  function DrawCount(draws: seq<CountyDraw>): nat
  {
    if draws == [] then 0 else |draws[0].sites| + DrawCount(draws[1..])
  }

  /** Where the rows of county `c` start: the number of site draws of the
      counties before it. */
  function Offset(draws: seq<CountyDraw>, c: nat): (o: nat)
    requires c < |draws|
    ensures o + |draws[c].sites| <= DrawCount(draws)
  {
    if c == 0 then 0 else |draws[0].sites| + Offset(draws[1..], c - 1)
  }

  /** The rows of every county, county by county. */
  function MockRows(counties: seq<County>, draws: seq<CountyDraw>): (rows: seq<Row>)
    requires ValidDraws(counties, draws)
    ensures |rows| == DrawCount(draws)
    ensures forall i :: 0 <= i < |rows| ==> PlausibleRow(rows[i])
  {
    if counties == [] then []
    else
      CountyRows(counties[0].name, draws[0].base, counties[0].sites, draws[0].sites)
        + MockRows(counties[1..], draws[1..])
  }

  /** One row per (county, site) pair of the table, county by county. */
  lemma {:induction false} MockRowsKeys(counties: seq<County>, draws: seq<CountyDraw>)
    requires ValidDraws(counties, draws)
    ensures Keys(MockRows(counties, draws)) == SitePairs(counties)
  {
    if counties != [] {
      MockRowsCons(counties, draws);
      MockRowsKeys(counties[1..], draws[1..]);
      KeysAppend(CountyRows(counties[0].name, draws[0].base, counties[0].sites, draws[0].sites),
                 MockRows(counties[1..], draws[1..]));
    }
  }

  /** The first county's rows, then the rest of the table's. */
  lemma {:induction false} MockRowsCons(counties: seq<County>, draws: seq<CountyDraw>)
    requires ValidDraws(counties, draws) && counties != []
    ensures ValidDraws(counties[1..], draws[1..])
    ensures MockRows(counties, draws)
      == CountyRows(counties[0].name, draws[0].base, counties[0].sites, draws[0].sites) + MockRows(counties[1..], draws[1..])
  {
  }

  /** Each row comes from its own draws: the rows of county `c` start after
      the sites of the counties before it, and the row of its site `s` is
      made from the county's base draw and that site's jitter and ozone. */
  lemma {:induction false} MockRowsFromDraws(counties: seq<County>, draws: seq<CountyDraw>, c: nat, s: nat)
    requires ValidDraws(counties, draws)
    requires c < |counties| && s < |counties[c].sites|
    ensures MockRows(counties, draws)[Offset(draws, c) + s]
      == SiteRow(counties[c].name, counties[c].sites[s], draws[c].base, draws[c].sites[s])
  {
    MockRowsCons(counties, draws);
    var first := CountyRows(counties[0].name, draws[0].base, counties[0].sites, draws[0].sites);
    var rest := MockRows(counties[1..], draws[1..]);
    var want := SiteRow(counties[c].name, counties[c].sites[s], draws[c].base, draws[c].sites[s]);
    if c == 0 {
      assert Offset(draws, c) == 0;
      assert first[s] == want;
      assert (first + rest)[s] == first[s];
    } else {
      MockRowsFromDraws(counties[1..], draws[1..], c - 1, s);
      var k := Offset(draws[1..], c - 1) + s;
      assert counties[1..][c - 1] == counties[c];
      assert draws[1..][c - 1] == draws[c];
      assert rest[k] == want;
      assert Offset(draws, c) == |first| + Offset(draws[1..], c - 1);
      assert (first + rest)[|first| + k] == rest[k];
    }
  }

  /** The fallback data set: one row per registered site, county by county
      in the table's order, each made from its own county's and site's
      draws, and each plausible. */
  function GenerateRichMockData(draws: seq<CountyDraw>): (rows: seq<Row>)
    requires ValidDraws(SiteMap, draws)
    ensures |rows| == DrawCount(draws)
    ensures forall i :: 0 <= i < |rows| ==> PlausibleRow(rows[i])
    ensures forall c, s :: 0 <= c < |SiteMap| && 0 <= s < |SiteMap[c].sites| ==>
      rows[Offset(draws, c) + s] == SiteRow(SiteMap[c].name, SiteMap[c].sites[s], draws[c].base, draws[c].sites[s])
  {
    var rows := MockRows(SiteMap, draws);
    forall c, s | 0 <= c < |SiteMap| && 0 <= s < |SiteMap[c].sites|
      ensures rows[Offset(draws, c) + s] == SiteRow(SiteMap[c].name, SiteMap[c].sites[s], draws[c].base, draws[c].sites[s])
    {
      MockRowsFromDraws(SiteMap, draws, c, s);
    }
    rows
  }
}
