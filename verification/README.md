# Air-quality dashboard core, modelled in Dafny

The dashboard (`app.py`) shows one Taiwanese monitoring site's air quality. It also scores a personal health risk and draws a twelve-hour trend. Most of the file is Streamlit, Plotly and HTTP plumbing. This project models the five pure pieces of decision and data-shaping logic inside it:

- **Risk engine** (`RiskEngine`, `risk_engine.dfy`): `advanced_risk_engine`.
  - An AQI reading adds 0, 20, 50 or 80 points.
  - Each condition tag adds 30, 20 or 15 points.
  - An activity multiplier of ×1.5, ×1.2 or ×1 is applied to the sum.
  - Thresholds at 40, 80 and 120 then pick one of the tiers 安全 / 注意 / 警告 / 危險 and its colour and icon.
  - Scores are kept multiplied by 10: multipliers 15/12/10, thresholds 400/800/1200. This keeps every comparison exact. The sum before the multiplier is always a multiple of 5. Two floating-point products land exactly on a threshold: 80 × 1.5 and 100 × 1.2, both on 120. In IEEE doubles 80 × 1.5 is exact and 100 × 1.2 evaluates to exactly 120.0. So the scaled integer comparisons agree with the source's float comparisons.
- **Trend synthesiser** (`Trend`, `trend.dfy`): `generate_full_trend`.
  - The past walk runs backwards from the current reading. Its steps come from `randint(-8, 8)`, so each lies in [-8, 7].
  - The future walk runs forwards. Its steps come from `randint(-5, 12)`, so each lies in [-5, 11].
  - Every generated value is floored at 10.
  - The random draws are inputs to the model.
- **Fallback data generator** (`MockData`, `mock_data.dfy`, using the tables in `Registry`, `registry.dfy`): the per-site rows of `generate_rich_mock_data`.
  - Each county draws a base AQI: [20, 59] for 臺北市 and 新北市, [60, 139] elsewhere.
  - Each site adds a jitter in [-15, 14] to that base and floors the result at 10.
  - PM2.5 is `int(aqi*0.4)` and PM10 is `int(aqi*0.8)`. Both are modelled as integer truncation toward zero of `aqi*2/5` and `aqi*4/5`. The doubles 0.4 and 0.8 lie slightly above their decimal values, so the float product of a whole AQI never falls below an exact integer. Truncation therefore gives the same value.
- **Map status text** (`MapStatus`, `map_status.dfy`): `get_status_text`, the three-way map bucketing.
- **County selector order** (`CountyOrder`, `county_order.dfy`):
  - The unique county names, in order of first appearance.
  - Stably sorted by their position in `geo_order`, with key 999 for counties not in the list.
  - Also the live feed's `台`→`臺` county-name normalisation.

Behaviours of the code worth noting:

- The risk engine returns only a (label, colour, icon) triple. It produces no list of reasons.
- An unrecognised condition tag adds 15 rather than being rejected.
- An unrecognised activity gets multiplier ×1 rather than being rejected.
- The forward series does not contain the current reading. The chart prepends the reading when it draws the prediction line (`app.py:219`). `Trend.PredictionLine` models that line.
- `advanced_risk_engine` takes a `pm25` argument and never reads it.
- Its line `if 'activity' not in locals()` is dead code, because `activity` is always a parameter. The model has no counterpart for it.

## Model

| member | source | states |
|---|---|---|
| RiskEngine.AdvancedRiskEngine | app.py:112-129 | the label is 安全/注意/警告/危險 exactly when the ×10 score is below 400, in [400,800), in [800,1200), or at least 1200; the triple is always one of the four (label, colour, icon) triples |
| RiskEngine.BaseScoreEdges | app.py:115-118 | the AQI contribution at the breakpoint edges: 50→0, 51→20, 100→20, 101→50, 150→50, 151→80 |
| RiskEngine.BaseScoreMonotone | app.py:115-118 | a higher AQI never gives a smaller contribution |
| RiskEngine.ConditionSum | app.py:119-122 | the condition total lies between 15 and 30 points per tag |
| RiskEngine.ConditionSumAppend | app.py:119-122 | the total over a concatenation is the sum of the totals |
| RiskEngine.ConditionSumByCounts | app.py:119-122 | the tag-by-tag total equals 30 per asthma/cardiovascular tag, 20 per elderly/infant tag and 15 per other tag, counted from the multiset of tags |
| RiskEngine.ConditionSumPermutation | app.py:119-122 | two tag lists with the same multiset have the same total |
| RiskEngine.DuplicateTagCountsTwice | app.py:119-122 | a tag listed twice adds its weight twice |
| RiskEngine.TierOf | app.py:126-129 | a tier's rank is the number of thresholds (400, 800, 1200) that the ×10 score has reached |
| RiskEngine.TierOfMonotone | app.py:126-129 | a higher score never gives a less severe tier |
| RiskEngine.AssessMonotoneInAqi | app.py:115-129 | a worse AQI never lowers the tier, whatever the conditions and activity |
| RiskEngine.AssessMonotoneInConditions | app.py:119-129 | appending a condition tag never lowers the tier |
| RiskEngine.AssessMonotoneInActivity | app.py:123-129 | going from resting to light to high-intensity activity never lowers the tier |
| RiskEngine.RiskIgnoresConditionOrder | app.py:119-122 | permuting the condition list does not change the result triple |
| RiskEngine.RiskIgnoresPm25 | app.py:112-129 | the `pm25` argument has no influence on the result |
| RiskEngine.HighRiskExample | app.py:112-129 | AQI 160, asthma, running scores 165 (1650 scaled) and is 危險/red/☠️ |
| RiskEngine.RestingExample | app.py:112-129 | AQI 30, no conditions, resting is 安全/green/✅ |
| Trend.WalkStep | app.py:145-146 | one walk step never goes below 10, and it moves by exactly the drawn step unless that would go below 10 |
| Trend.PastWalk | app.py:136-140 | six past values: the last is the current reading unchanged; each earlier one is one floored step back from its successor, using the draws in drawing order; each earlier value is ≥ 10 and within 8 per hour below and 7 per hour above the reading (or 10) |
| Trend.FutureWalk | app.py:142-147 | six future values, not including the current reading: the first is one floored step from the reading, each further one a floored step from its predecessor; each value is ≥ 10 and within 5 per hour below and 11 per hour above the reading (or 10) |
| Trend.GenerateFullTrend | app.py:134-148 | six past and six future values; the past ends with the reading and each earlier value is one floored step back from its successor, using the past draws in drawing order; every generated value is ≥ 10 and within the past walk's (8 below, 7 above per hour) or the future walk's (5 below, 11 above per hour) bounds of the reading (or 10); the chart's prediction line starts at the reading, and each later point is one floored step of the future walk from the point before |
| Trend.PredictionLine | app.py:219 | the prediction line is the current reading followed by every future value, in order |
| MockData.Pm25Of | app.py:61 | for a non-negative AQI, PM2.5 is the floor of 0.4·AQI |
| MockData.Pm10Of | app.py:61 | for a non-negative AQI, PM10 is the floor of 0.8·AQI |
| MockData.SiteRow | app.py:58-62 | a site's AQI is its county base plus its jitter, floored at 10; the row carries its county, site name and drawn ozone, and satisfies the plausibility bounds |
| MockData.CountyRows | app.py:57-63 | one row per site of the county, in site order; row i is the row of site i made from the county's base draw and site i's own jitter and ozone draws; each row is plausible |
| MockData.MockRows | app.py:53-63 | one row per site draw, each plausible |
| MockData.MockRowsKeys | app.py:53-63 | the rows' (county, site) pairs are exactly the table's pairs, county by county and site by site |
| MockData.MockRowsFromDraws | app.py:53-63 | the rows of county c start after the sites of the counties before it, and the row of its site s is that site's row made from county c's base draw and site s's jitter and ozone draws |
| MockData.GenerateRichMockData | app.py:28-64 | for draws that fit the site table and their numpy ranges: one row per site draw, that is one per site of the table; the row of site s of county c sits after the rows of the counties before it and is made from county c's base draw and site s's own draws, with the county and site names of the table; every row has 10 ≤ AQI ≤ 153 (≤ 73 in 臺北市/新北市, ≥ 45 elsewhere), 0 ≤ PM2.5 ≤ PM10 ≤ AQI with the 0.4/0.8 floors, ozone in [20, 79], and the 備援 status tag |
| Registry.Centroid | app.py:55 | the centroid a county's sites are scattered around lies on the globe; it is the county's table entry when it has one and (24°, 121°) otherwise |
| Registry.SiteMapFollowsGeoOrder | app.py:42-51 | the fallback site table lists the selector's 22 counties in the selector's order, none twice |
| Registry.SiteMapCentroids | app.py:31-40 | every county of the site table has its own centroid, so the default centroid is never used |
| Registry.SiteMapSitesNonEmpty | app.py:42-51 | every county of the site table has at least one site |
| MapStatus.GetStatusText | app.py:233-236 | 良好 exactly when AQI ≤ 50, 普通 exactly when 50 < AQI ≤ 100, 不健康 exactly when AQI > 100 |
| MapStatus.StatusMonotone | app.py:233-236 | a worse AQI never moves a site to a better map bucket |
| MapStatus.StatusAgreesWithRiskBreakpoints | app.py:233-236 | 良好 is exactly a zero AQI risk contribution, 普通 exactly a contribution of 20, 不健康 a contribution of 50 or 80 |
| CountyOrder.NormalizeCounty | app.py:78 | the result has the same length, maps each '台' to '臺' and leaves every other character, and contains no '台' |
| CountyOrder.NormalizeIdempotent | app.py:78 | normalising twice is normalising once |
| CountyOrder.NormalizeFixesPlainNames | app.py:78 | a name without '台' is unchanged |
| CountyOrder.NormalizeFixesGeoOrder | app.py:78 | every name of the display order is already in normal form |
| CountyOrder.NormalizeTaichung | app.py:78 | the feed spelling 台中市 is not listed, and normalises to the listed 臺中市 |
| CountyOrder.IndexOf | app.py:94 | the first position of a present element, or -1 for an absent one |
| CountyOrder.Unique | app.py:93 | the same elements as the column, in strictly increasing order of first appearance |
| CountyOrder.UniqueIsDistinct | app.py:93 | the unique list has no repeated county |
| CountyOrder.SortKey | app.py:94 | a listed county's key is its position in the display order; an unlisted county's key is 999 |
| CountyOrder.Sort | app.py:94 | the result is a permutation of the input with the same elements, sorted by key, and for every key the elements with that key keep their input order (stability); distinct input gives distinct output |
| CountyOrder.SortedCounties | app.py:93-94 | the selector's list holds exactly the column's counties, none twice, in non-decreasing order of display position (999 for unlisted counties) |
| CountyOrder.SortOfSorted | app.py:94 | sorting an already key-sorted list leaves it unchanged |
| CountyOrder.SortedCountiesArePermutation | app.py:93-94 | the selector's list is a permutation of the unique counties, contains exactly the column's counties, and contains none twice |
| CountyOrder.ListedBeforeUnlisted | app.py:94 | every county in the display order comes before every county not in it |
| CountyOrder.ListedFollowGeoOrder | app.py:92-94 | listed counties appear with strictly increasing sort keys, that is, strictly increasing position in the display order |
| CountyOrder.UnlistedKeepOrder | app.py:93-94 | unlisted counties keep their order of first appearance |
| CountyOrder.CountyColumn | app.py:93 | the county column has one entry per row, the row's county |
| CountyOrder.UniqueOfExpand | app.py:53-58 | a site table with distinct county names and no empty county yields its county names, in order, as the unique counties of its rows |
| CountyOrder.FallbackCountiesInGeoOrder | app.py:92-94 | with the fallback data set, the county selector lists exactly the display order `geo_order` |

## Left out

- The HTTP fetch in `fetch_data` (`app.py:66-83`) is network I/O. This covers the request, JSON decoding, pandas numeric coercion, `dropna`, and the fall-back to generated data on any exception. Only the `台`→`臺` replacement from it is modelled, as `CountyOrder.NormalizeCounty`. It is modelled per name rather than per data-frame column.
- The `st.cache_data` five-minute cache is framework behaviour.
- Page configuration, CSS, sidebar widgets, the default county index (`app.py:96`), the site list and row selection (`app.py:99-101`), and the recommendation messages (`app.py:197-209`) are user-interface code.
- Plotly gauges, the gradient step table, the trend chart (apart from its prediction line), the map and its colour map, and the detail table are rendering only.
- The generated rows' coordinates (`np.random.normal` around the centroid) and carbon monoxide (`np.random.uniform`) are floating-point draws with no contract beyond plausibility. Only the centroid table is modelled.
- The timestamps of the trend series depend on the wall clock. Only the value sequences are modelled.
- Live-data rows are not modelled as a type. The selector model works on any column of county names.
- RiskEngine.AdvancedRiskEngine: takes the AQI as an integer. A live reading that pandas parses as a non-integral float is not modelled.
- Trend.GenerateFullTrend: takes the current reading as an integer, as the dashboard passes `int(current_data['aqi'])`. The truncation of a float reading is not modelled.
