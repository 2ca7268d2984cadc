/** The personalised risk engine: an AQI reading, a list of health-condition
    tags and an activity level are turned into one of four ordered risk tiers
    and the tier's (label, colour, icon) triple.

    The source computes the score in floating point (`score *= 1.5`). Here
    every score is kept multiplied by 10, so the multipliers become 15, 12 and
    10 and the tier thresholds 400, 800 and 1200; all arithmetic is exact. */
module RiskEngine {

  // Condition tags offered by the health-profile selector.
  const Asthma := "氣喘/呼吸道疾病"
  const Cardiovascular := "心血管疾病"
  const Elderly := "65歲以上長者"
  const Infant := "嬰幼兒"

  // Activity levels offered by the activity selector.
  const Resting := "休息/辦公"
  const LightActivity := "輕度活動 (散步)"
  const HighIntensity := "高強度運動 (跑步/球類)"

  /** The four risk tiers, from least to most severe. */
  datatype Tier = Safe | Caution | Warning | Danger {
    /** Position of the tier in the severity order. */
    function Rank(): nat {
      match this
      case Safe => 0
      case Caution => 1
      case Warning => 2
      case Danger => 3
    }
  }

  /** Step 1: the contribution of the AQI reading alone. */
  function BaseScore(aqi: int): nat
  {
    if aqi <= 50 then 0
    else if aqi <= 100 then 20
    else if aqi <= 150 then 50
    else 80
  }

  /** Step 2: the weight one condition tag adds; unrecognised tags add 15. */
  function ConditionWeight(tag: string): nat
  {
    if tag == Asthma || tag == Cardiovascular then 30
    else if tag == Elderly || tag == Infant then 20
    else 15
  }

  /** Step 2: the weights of all tags, each occurrence counted. */
  function ConditionSum(conditions: seq<string>): (total: nat)
    ensures 15 * |conditions| <= total <= 30 * |conditions|
  {
    if conditions == [] then 0
    else ConditionWeight(conditions[0]) + ConditionSum(conditions[1..])
  }

  /** Step 3: the activity multiplier, times 10; any other activity gives x1. */
  function ActivityMultiplier(activity: string): nat
  {
    if activity == HighIntensity then 15
    else if activity == LightActivity then 12
    else 10
  }

  /** The risk score, times 10. */
  function Score(aqi: int, conditions: seq<string>, activity: string): nat
  {
    (BaseScore(aqi) + ConditionSum(conditions)) * ActivityMultiplier(activity)
  }

  /** 1 when a score has reached a threshold, 0 otherwise. */
  function Reached(threshold: int, score: int): nat
  {
    if threshold <= score then 1 else 0
  }

  /** Step 4: the tier of a score (times 10). */
  function TierOf(score: int): (t: Tier)
    ensures t.Rank() == Reached(400, score) + Reached(800, score) + Reached(1200, score)
  {
    if score < 400 then Safe
    else if score < 800 then Caution
    else if score < 1200 then Warning
    else Danger
  }

  /** The tier of a reading for a health profile. */
  function Assess(aqi: int, conditions: seq<string>, activity: string): Tier
  {
    TierOf(Score(aqi, conditions, activity))
  }

  /** The (label, colour, icon) triple the dashboard shows for a tier. */
  function Presentation(t: Tier): (string, string, string)
  {
    match t
    case Safe => ("安全", "green", "✅")
    case Caution => ("注意", "yellow", "⚠️")
    case Warning => ("警告", "orange", "⛔")
    case Danger => ("危險", "red", "☠️")
  }

  /** The engine as the dashboard calls it. The fine-particulate reading is
      accepted but never consulted. */
  function AdvancedRiskEngine(aqi: int, pm25: int, conditions: seq<string>, activity: string): (r: (string, string, string))
    ensures r.0 == "安全" <==> Score(aqi, conditions, activity) < 400
    ensures r.0 == "注意" <==> 400 <= Score(aqi, conditions, activity) < 800
    ensures r.0 == "警告" <==> 800 <= Score(aqi, conditions, activity) < 1200
    ensures r.0 == "危險" <==> 1200 <= Score(aqi, conditions, activity)
    ensures r in {("安全", "green", "✅"), ("注意", "yellow", "⚠️"), ("警告", "orange", "⛔"), ("危險", "red", "☠️")}
  {
    Presentation(Assess(aqi, conditions, activity))
  }

  // ---------------------------------------------------------------------
  // Properties
  // ---------------------------------------------------------------------

  /** The AQI contribution at the exact breakpoint edges. */
  lemma BaseScoreEdges()
    ensures BaseScore(0) == 0 && BaseScore(50) == 0
    ensures BaseScore(51) == 20 && BaseScore(100) == 20
    ensures BaseScore(101) == 50 && BaseScore(150) == 50
    ensures BaseScore(151) == 80 && BaseScore(300) == 80
  {
  }

  /** A higher reading never lowers the AQI contribution. */
  lemma BaseScoreMonotone(lower: int, higher: int)
    requires lower <= higher
    ensures BaseScore(lower) <= BaseScore(higher)
  {
  }

  /** Concatenating two tag lists adds their weights. */
  lemma {:induction false} ConditionSumAppend(a: seq<string>, b: seq<string>)
    ensures ConditionSum(a + b) == ConditionSum(a) + ConditionSum(b)
  {
    if a == [] {
      assert a + b == b;
    } else {
      assert (a + b)[1..] == a[1..] + b;
      ConditionSumAppend(a[1..], b);
    }
  }

  /** Reference definition of the condition total: 30 per high-severity
      tag, 20 per medium-severity tag and 15 per other tag, counted from
      the multiset of tags. */
  function WeightByCounts(tags: multiset<string>): int
  {
    30 * (tags[Asthma] + tags[Cardiovascular])
    + 20 * (tags[Elderly] + tags[Infant])
    + 15 * (|tags| - tags[Asthma] - tags[Cardiovascular] - tags[Elderly] - tags[Infant])
  }

  /** The summing loop agrees with the count-based reference definition. */
  lemma {:induction false} ConditionSumByCounts(conditions: seq<string>)
    ensures ConditionSum(conditions) == WeightByCounts(multiset(conditions))
  {
    if conditions != [] {
      var c := conditions[0];
      var rest := conditions[1..];
      assert conditions == [c] + rest;
      assert multiset(conditions) == multiset{c} + multiset(rest);
      ConditionSumByCounts(rest);
      assert WeightByCounts(multiset{c} + multiset(rest)) == ConditionWeight(c) + WeightByCounts(multiset(rest));
    }
  }

  /** Reordering the tags does not change the total: it depends only on
      how often each tag occurs. */
  lemma ConditionSumPermutation(a: seq<string>, b: seq<string>)
    requires multiset(a) == multiset(b)
    ensures ConditionSum(a) == ConditionSum(b)
  {
    ConditionSumByCounts(a);
    ConditionSumByCounts(b);
  }

  /** A repeated tag is counted every time it occurs. */
  lemma DuplicateTagCountsTwice(conditions: seq<string>, tag: string)
    ensures ConditionSum(conditions + [tag, tag]) == ConditionSum(conditions) + 2 * ConditionWeight(tag)
  {
    ConditionSumAppend(conditions, [tag, tag]);
    assert [tag, tag][1..] == [tag];
  }

  /** A higher score never gives a less severe tier. */
  lemma TierOfMonotone(lower: int, higher: int)
    requires lower <= higher
    ensures TierOf(lower).Rank() <= TierOf(higher).Rank()
  {
  }

  /** A worse AQI reading never lowers the tier. */
  lemma AssessMonotoneInAqi(lower: int, higher: int, conditions: seq<string>, activity: string)
    requires lower <= higher
    ensures Assess(lower, conditions, activity).Rank() <= Assess(higher, conditions, activity).Rank()
  {
    BaseScoreMonotone(lower, higher);
    var m := ActivityMultiplier(activity);
    var c := ConditionSum(conditions);
    assert (BaseScore(lower) + c) * m <= (BaseScore(higher) + c) * m;
    TierOfMonotone(Score(lower, conditions, activity), Score(higher, conditions, activity));
  }

  /** Adding a condition tag never lowers the tier. */
  lemma AssessMonotoneInConditions(aqi: int, conditions: seq<string>, tag: string, activity: string)
    ensures Assess(aqi, conditions, activity).Rank() <= Assess(aqi, conditions + [tag], activity).Rank()
  {
    ConditionSumAppend(conditions, [tag]);
    var m := ActivityMultiplier(activity);
    var b := BaseScore(aqi);
    assert (b + ConditionSum(conditions)) * m <= (b + ConditionSum(conditions + [tag])) * m;
    TierOfMonotone(Score(aqi, conditions, activity), Score(aqi, conditions + [tag], activity));
  }

  /** Order of activity intensity: resting, then light, then high intensity. */
  function ActivityRank(activity: string): nat
  {
    if activity == HighIntensity then 2
    else if activity == LightActivity then 1
    else 0
  }

  /** A more intense activity never lowers the tier. */
  lemma AssessMonotoneInActivity(aqi: int, conditions: seq<string>, calmer: string, harder: string)
    requires ActivityRank(calmer) <= ActivityRank(harder)
    ensures Assess(aqi, conditions, calmer).Rank() <= Assess(aqi, conditions, harder).Rank()
  {
    var s := BaseScore(aqi) + ConditionSum(conditions);
    assert s * ActivityMultiplier(calmer) <= s * ActivityMultiplier(harder);
    TierOfMonotone(Score(aqi, conditions, calmer), Score(aqi, conditions, harder));
  }

  /** The order in which conditions were selected does not matter. */
  lemma RiskIgnoresConditionOrder(aqi: int, pm25: int, a: seq<string>, b: seq<string>, activity: string)
    requires multiset(a) == multiset(b)
    ensures AdvancedRiskEngine(aqi, pm25, a, activity) == AdvancedRiskEngine(aqi, pm25, b, activity)
  {
    ConditionSumPermutation(a, b);
  }

  /** The fine-particulate argument has no influence on the result. */
  lemma RiskIgnoresPm25(aqi: int, p: int, q: int, conditions: seq<string>, activity: string)
    ensures AdvancedRiskEngine(aqi, p, conditions, activity) == AdvancedRiskEngine(aqi, q, conditions, activity)
  {
  }

  /** AQI 160, asthma, running: (80 + 30) x 1.5 = 165, which is danger. */
  lemma HighRiskExample(pm25: int)
    ensures Score(160, [Asthma], HighIntensity) == 1650
    ensures AdvancedRiskEngine(160, pm25, [Asthma], HighIntensity) == ("危險", "red", "☠️")
  {
    assert ConditionSum([Asthma]) == 30 by {
      assert [Asthma][1..] == [];
    }
  }

  /** AQI 30, no conditions, resting: score 0, which is safe. */
  lemma RestingExample(pm25: int)
    ensures AdvancedRiskEngine(30, pm25, [], Resting) == ("安全", "green", "✅")
  {
  }
}
