/** The status bucket the air-quality map colours each site by. */
module MapStatus {
  import RiskEngine

  const Good := "良好 (0-50)"
  const Moderate := "普通 (51-100)"
  const Unhealthy := "不健康 (>100)"

  /** The map legend entry of a site's AQI. */
  function GetStatusText(aqi: int): (text: string)
    ensures text == Good <==> aqi <= 50
    ensures text == Moderate <==> 50 < aqi <= 100
    ensures text == Unhealthy <==> 100 < aqi
  {
    if aqi <= 50 then Good
    else if aqi <= 100 then Moderate
    else Unhealthy
  }

  /** Position of a legend entry from best to worst. */
  function StatusRank(text: string): nat
  {
    if text == Good then 0 else if text == Moderate then 1 else 2
  }

  /** A worse reading never moves a site to a better bucket. */
  lemma StatusMonotone(lower: int, higher: int)
    requires lower <= higher
    ensures StatusRank(GetStatusText(lower)) <= StatusRank(GetStatusText(higher))
  {
  }

  /** The map's buckets share their first two edges with the risk engine's
      AQI breakpoints: "good" is exactly a zero AQI contribution, "moderate"
      exactly a contribution of 20, and "unhealthy" merges the 50 and 80
      bands. */
  lemma StatusAgreesWithRiskBreakpoints(aqi: int)
    ensures GetStatusText(aqi) == Good <==> RiskEngine.BaseScore(aqi) == 0
    ensures GetStatusText(aqi) == Moderate <==> RiskEngine.BaseScore(aqi) == 20
    ensures GetStatusText(aqi) == Unhealthy <==> RiskEngine.BaseScore(aqi) >= 50
  {
  }
}
