/** The dashboard's static location tables: the county display order used by
    the county selector, and the county -> monitoring-site and county ->
    centroid tables of the synthetic fallback generator. */
module Registry {

  /** Counties in the order the county selector lists them (north to south,
      then the east coast and the outlying islands). */
  const GeoOrder: seq<string> := [
    "基隆市", "臺北市", "新北市", "桃園市", "新竹市", "新竹縣", "苗栗縣", "臺中市",
    "彰化縣", "南投縣", "雲林縣", "嘉義市", "嘉義縣", "臺南市", "高雄市", "屏東縣",
    "宜蘭縣", "花蓮縣", "臺東縣", "澎湖縣", "金門縣", "連江縣"
  ]

  /** One county of the fallback generator with its monitoring sites, in order. */
  datatype County = County(name: string, sites: seq<string>)

  /** The fallback generator's county -> site table, in its insertion order. */
  const SiteMap: seq<County> := [
    County("基隆市", ["基隆"]),
    County("臺北市", ["士林", "中山", "萬華", "古亭", "松山"]),
    County("新北市", ["板橋", "土城", "新店", "汐止", "林口"]),
    County("桃園市", ["桃園", "中壢"]),
    County("新竹市", ["新竹"]),
    County("新竹縣", ["竹東"]),
    County("苗栗縣", ["苗栗"]),
    County("臺中市", ["西屯", "忠明", "大里"]),
    County("彰化縣", ["彰化"]),
    County("南投縣", ["南投"]),
    County("雲林縣", ["斗六"]),
    County("嘉義市", ["嘉義"]),
    County("嘉義縣", ["朴子"]),
    County("臺南市", ["臺南", "安南"]),
    County("高雄市", ["左營", "前金", "小港"]),
    County("屏東縣", ["屏東"]),
    County("宜蘭縣", ["宜蘭"]),
    County("花蓮縣", ["花蓮"]),
    County("臺東縣", ["臺東"]),
    County("澎湖縣", ["馬公"]),
    County("金門縣", ["金門"]),
    County("連江縣", ["馬祖"])
  ]

  /** A latitude/longitude pair in hundredths of a degree. */
  datatype Coord = Coord(lat: int, lon: int)

  /** The fallback generator's nominal county centroids. */
  const GeoMap: map<string, Coord> := map[
    "基隆市" := Coord(2513, 12174), "臺北市" := Coord(2504, 12156), "新北市" := Coord(2501, 12146),
    "桃園市" := Coord(2499, 12130), "新竹市" := Coord(2480, 12096), "新竹縣" := Coord(2484, 12101),
    "苗栗縣" := Coord(2456, 12082), "臺中市" := Coord(2415, 12066), "彰化縣" := Coord(2408, 12054),
    "南投縣" := Coord(2397, 12068), "雲林縣" := Coord(2370, 12043), "嘉義市" := Coord(2348, 12045),
    "嘉義縣" := Coord(2345, 12025), "臺南市" := Coord(2300, 12020), "高雄市" := Coord(2262, 12031),
    "屏東縣" := Coord(2266, 12048), "宜蘭縣" := Coord(2475, 12175), "花蓮縣" := Coord(2399, 12160),
    "臺東縣" := Coord(2275, 12114), "澎湖縣" := Coord(2357, 11956), "金門縣" := Coord(2443, 11831),
    "連江縣" := Coord(2615, 11993)
  ]

  /** The centroid used when a county has no entry in the table. */
  const DefaultCentroid: Coord := Coord(2400, 12100)

  /** A coordinate that lies on the globe. */
  predicate OnGlobe(c: Coord) {
    -9000 <= c.lat <= 9000 && -18000 <= c.lon <= 18000
  }

  /** The centroid the generator jitters a county's sites around. */
  function Centroid(county: string): (c: Coord)
    ensures OnGlobe(c)
    ensures county in GeoMap ==> c == GeoMap[county]
    ensures county !in GeoMap ==> c == DefaultCentroid
  {
    if county in GeoMap then GeoMap[county] else DefaultCentroid
  }

  /** The county names of a site table, in order. */
  function Names(counties: seq<County>): (names: seq<string>)
    ensures |names| == |counties|
    ensures forall i :: 0 <= i < |counties| ==> names[i] == counties[i].name
  {
    seq(|counties|, i requires 0 <= i < |counties| => counties[i].name)
  }

  /** No county name occurs twice. */
  predicate Distinct(s: seq<string>) {
    forall i, j :: 0 <= i < j < |s| ==> s[i] != s[j]
  }

  /** No county appears twice in the display order. */
  lemma GeoOrderDistinct()
    ensures Distinct(GeoOrder)
  {
    forall i, j | 0 <= i < j < |GeoOrder|
      ensures GeoOrder[i] != GeoOrder[j]
    {
      assert GeoOrder[i][0] != GeoOrder[j][0] || GeoOrder[i][1] != GeoOrder[j][1] || GeoOrder[i][2] != GeoOrder[j][2];
    }
  }

  /** The fallback table lists exactly the selector's counties, in the
      selector's order, and none of them twice. */
  lemma SiteMapFollowsGeoOrder()
    ensures Names(SiteMap) == GeoOrder
    ensures Distinct(GeoOrder)
  {
    GeoOrderDistinct();
  }

  /** Every county of the fallback table has its own centroid, so the
      default centroid is never used, and every centroid lies on the globe. */
  lemma SiteMapCentroids()
    ensures forall i :: 0 <= i < |SiteMap| ==> SiteMap[i].name in GeoMap && Centroid(SiteMap[i].name) == GeoMap[SiteMap[i].name]
  {
  }

  /** Every county of the fallback table has at least one site. */
  lemma SiteMapSitesNonEmpty()
    ensures forall i :: 0 <= i < |SiteMap| ==> |SiteMap[i].sites| >= 1
  {
  }
}
