/** `FREDCollector.assess_market_conditions`: the latest values of three
    macro indicators (VIX, the unemployment rate and the 10-year Treasury
    yield) are scored against fixed bands, and the share of the possible
    risk points sets a 0-100 score, a level and one recommendation.
    Indicator values are passed in as a map from series name to value. */
module Fred {
  import opened Common

  datatype RiskLevel = Low | Medium | High

  /** The fixed messages the assessment can emit; `Text` gives each one's
      wording. */
  datatype Message =
    | LowVolatility | NormalVolatility | ElevatedVolatility | HighVolatility
    | LowUnemployment | ModerateUnemployment | ElevatedUnemployment | HighUnemployment
    | LowRates | ModerateRates | ElevatedRates | HighRates
    | VolatilityRising | VolatilityExtreme | UnemploymentRising | RecessionRisk | RatesRising | RatesHigh
    | Aggressive | Standard | Defensive

  function Text(m: Message): string
  {
    match m
    case LowVolatility => "Low volatility (calm market)"
    case NormalVolatility => "Normal volatility"
    case ElevatedVolatility => "Elevated volatility"
    case HighVolatility => "High volatility (fear in market)"
    case LowUnemployment => "Low unemployment (strong economy)"
    case ModerateUnemployment => "Moderate unemployment"
    case ElevatedUnemployment => "Elevated unemployment"
    case HighUnemployment => "High unemployment (weak economy)"
    case LowRates => "Low interest rates"
    case ModerateRates => "Moderate interest rates"
    case ElevatedRates => "Elevated interest rates"
    case HighRates => "High interest rates"
    case VolatilityRising => "Increased market volatility"
    case VolatilityExtreme => "Very high market volatility - consider reducing positions"
    case UnemploymentRising => "Rising unemployment may indicate economic slowdown"
    case RecessionRisk => "High unemployment - recession risk"
    case RatesRising => "Rising rates may pressure equity valuations"
    case RatesHigh => "High rates - consider bonds over stocks"
    case Aggressive => "Favorable conditions for aggressive trading"
    case Standard => "Normal market conditions - standard position sizing"
    case Defensive => "Elevated risk - consider reducing position sizes or staying in cash"
  }

  datatype Assessment = Assessment(
    riskLevel: RiskLevel, riskScore: int,
    conditions: seq<Message>, warnings: seq<Message>, recommendations: seq<Message>)

  /** What one assessed indicator adds: its points out of its maximum, one
      condition and possibly one warning. */
  datatype Reading = Reading(points: int, maxPoints: int, condition: Message, warning: Option<Message>)

  /** VIX bands: below 15, 20, 30 and above. */
  function VixReading(vix: real): (r: Reading)
    ensures r.maxPoints == 20 && 0 <= r.points <= r.maxPoints
    ensures r.points == 0 <==> vix < 15.0
    ensures r.points == 5 <==> 15.0 <= vix < 20.0
    ensures r.points == 12 <==> 20.0 <= vix < 30.0
    ensures r.points == 20 <==> 30.0 <= vix
    ensures r.warning.Some? <==> vix >= 20.0
  {
    if vix < 15.0 then Reading(0, 20, LowVolatility, None)
    else if vix < 20.0 then Reading(5, 20, NormalVolatility, None)
    else if vix < 30.0 then Reading(12, 20, ElevatedVolatility, Some(VolatilityRising))
    else Reading(20, 20, HighVolatility, Some(VolatilityExtreme))
  }

  /** Unemployment bands: below 4.0, 5.5, 7.0 and above. */
  function UnemploymentReading(rate: real): (r: Reading)
    ensures r.maxPoints == 20 && 0 <= r.points <= r.maxPoints
    ensures r.points == 0 <==> rate < 4.0
    ensures r.points == 5 <==> 4.0 <= rate < 5.5
    ensures r.points == 12 <==> 5.5 <= rate < 7.0
    ensures r.points == 20 <==> 7.0 <= rate
    ensures r.warning.Some? <==> rate >= 5.5
  {
    if rate < 4.0 then Reading(0, 20, LowUnemployment, None)
    else if rate < 5.5 then Reading(5, 20, ModerateUnemployment, None)
    else if rate < 7.0 then Reading(12, 20, ElevatedUnemployment, Some(UnemploymentRising))
    else Reading(20, 20, HighUnemployment, Some(RecessionRisk))
  }

  /** 10-year yield bands: below 2.0, 4.0, 5.0 and above. */
  function TreasuryReading(rate: real): (r: Reading)
    ensures r.maxPoints == 15 && 0 <= r.points <= r.maxPoints
    ensures r.points == 0 <==> rate < 2.0
    ensures r.points == 5 <==> 2.0 <= rate < 4.0
    ensures r.points == 10 <==> 4.0 <= rate < 5.0
    ensures r.points == 15 <==> 5.0 <= rate
    ensures r.warning.Some? <==> rate >= 4.0
  {
    if rate < 2.0 then Reading(0, 15, LowRates, None)
    else if rate < 4.0 then Reading(5, 15, ModerateRates, None)
    else if rate < 5.0 then Reading(10, 15, ElevatedRates, Some(RatesRising))
    else Reading(15, 15, HighRates, Some(RatesHigh))
  }

  /** A higher reading never scores fewer points. */
  lemma ReadingsMonotone(a: real, b: real)
    requires a <= b
    ensures VixReading(a).points <= VixReading(b).points
    ensures UnemploymentReading(a).points <= UnemploymentReading(b).points
    ensures TreasuryReading(a).points <= TreasuryReading(b).points
  {
  }

  /** The running totals and lists of the assessment. */
  datatype Tally = Tally(points: int, maxPoints: int, conditions: seq<Message>, warnings: seq<Message>)

  /** One indicator branch: its points, maximum, condition and warning
      added to the tally. */
  function Add(t: Tally, r: Reading): Tally
  {
    Tally(t.points + r.points, t.maxPoints + r.maxPoints, t.conditions + [r.condition],
          t.warnings + (if r.warning.Some? then [r.warning.value] else []))
  }

  /** The three branches in the order the code runs them; every other key
      is ignored. */
  function Tallied(indicators: map<string, real>): Tally
  {
    var t0 := Tally(0, 0, [], []);
    var t1 := if "VIX" in indicators then Add(t0, VixReading(indicators["VIX"])) else t0;
    var t2 := if "UNEMPLOYMENT" in indicators then Add(t1, UnemploymentReading(indicators["UNEMPLOYMENT"])) else t1;
    if "TREASURY_10Y" in indicators then Add(t2, TreasuryReading(indicators["TREASURY_10Y"])) else t2
  }

  /** The number of assessed indicators present. */
  function Present(indicators: map<string, real>): nat
  {
    (if "VIX" in indicators then 1 else 0)
    + (if "UNEMPLOYMENT" in indicators then 1 else 0)
    + (if "TREASURY_10Y" in indicators then 1 else 0)
  }

  /** `int(points / max * 100)`: the share of the possible points as a
      whole percentage, rounded down. */
  function Percent(points: int, maxPoints: int): int
    requires maxPoints > 0
  {
    (points as real / maxPoints as real * 100.0).Floor
  }

  /** Points within the possible points give a percentage in [0, 100],
      all of them give 100 and none give 0. */
  lemma PercentBounds(points: int, maxPoints: int)
    requires 0 <= points <= maxPoints && maxPoints > 0
    ensures 0 <= Percent(points, maxPoints) <= 100
    ensures points == maxPoints ==> Percent(points, maxPoints) == 100
    ensures points == 0 ==> Percent(points, maxPoints) == 0
  {
    var p, m := points as real, maxPoints as real;
    QuotientBounds(p, m, 0.0, 1.0);
    var q := p / m;
    assert q * m == p;
    assert 0.0 <= q * 100.0 <= 100.0;
    if points == maxPoints {
      assert q * m == 1.0 * m;
      assert q == 1.0;
    }
  }

  /** The percentage when anything was assessed, else the default 50. */
  function RiskScore(points: int, maxPoints: int): int
  {
    if maxPoints > 0 then Percent(points, maxPoints) else 50
  }

  function LevelOf(score: int): RiskLevel
  {
    if score < 30 then Low else if score < 60 then Medium else High
  }

  function RecommendationFor(level: RiskLevel): Message
  {
    match level
    case Low => Aggressive
    case Medium => Standard
    case High => Defensive
  }

  /** The assessment as a function of the tally. */
  function Assessed(indicators: map<string, real>): Assessment
  {
    var t := Tallied(indicators);
    var score := RiskScore(t.points, t.maxPoints);
    Assessment(LevelOf(score), score, t.conditions, t.warnings, [RecommendationFor(LevelOf(score))])
  }

  /** The closing steps of `assess_market_conditions`: the score (50
      when nothing was assessed), then the level and its recommendation. */
  method Grade(points: int, maxPoints: int) returns (riskScore: int, level: RiskLevel, recommendation: Message)
    ensures riskScore == RiskScore(points, maxPoints)
    ensures level == LevelOf(riskScore) && recommendation == RecommendationFor(level)
  {
    riskScore := 50;
    if maxPoints > 0 {
      riskScore := Percent(points, maxPoints);
    }
    if riskScore < 30 {
      level, recommendation := Low, Aggressive;
    } else if riskScore < 60 {
      level, recommendation := Medium, Standard;
    } else {
      level, recommendation := High, Defensive;
    }
  }

  /** The VIX branch of `assess_market_conditions`. */
  method AddVix(t: Tally, vix: real) returns (r: Tally)
    ensures r == Add(t, VixReading(vix))
  {
    var conditions, warnings, riskPoints, maxPoints := t.conditions, t.warnings, t.points, t.maxPoints;
    maxPoints := maxPoints + 20;
    if vix < 15.0 {
      conditions := conditions + [LowVolatility];
    } else if vix < 20.0 {
      conditions := conditions + [NormalVolatility];
      riskPoints := riskPoints + 5;
    } else if vix < 30.0 {
      conditions := conditions + [ElevatedVolatility];
      riskPoints := riskPoints + 12;
      warnings := warnings + [VolatilityRising];
    } else {
      conditions := conditions + [HighVolatility];
      riskPoints := riskPoints + 20;
      warnings := warnings + [VolatilityExtreme];
    }
    r := Tally(riskPoints, maxPoints, conditions, warnings);
  }

  /** The unemployment branch. */
  method AddUnemployment(t: Tally, unemp: real) returns (r: Tally)
    ensures r == Add(t, UnemploymentReading(unemp))
  {
    var conditions, warnings, riskPoints, maxPoints := t.conditions, t.warnings, t.points, t.maxPoints;
    maxPoints := maxPoints + 20;
    if unemp < 4.0 {
      conditions := conditions + [LowUnemployment];
    } else if unemp < 5.5 {
      conditions := conditions + [ModerateUnemployment];
      riskPoints := riskPoints + 5;
    } else if unemp < 7.0 {
      conditions := conditions + [ElevatedUnemployment];
      riskPoints := riskPoints + 12;
      warnings := warnings + [UnemploymentRising];
    } else {
      conditions := conditions + [HighUnemployment];
      riskPoints := riskPoints + 20;
      warnings := warnings + [RecessionRisk];
    }
    r := Tally(riskPoints, maxPoints, conditions, warnings);
  }

  /** The 10-year yield branch. */
  method AddTreasury(t: Tally, rate: real) returns (r: Tally)
    ensures r == Add(t, TreasuryReading(rate))
  {
    var conditions, warnings, riskPoints, maxPoints := t.conditions, t.warnings, t.points, t.maxPoints;
    maxPoints := maxPoints + 15;
    if rate < 2.0 {
      conditions := conditions + [LowRates];
    } else if rate < 4.0 {
      conditions := conditions + [ModerateRates];
      riskPoints := riskPoints + 5;
    } else if rate < 5.0 {
      conditions := conditions + [ElevatedRates];
      riskPoints := riskPoints + 10;
      warnings := warnings + [RatesRising];
    } else {
      conditions := conditions + [HighRates];
      riskPoints := riskPoints + 15;
      warnings := warnings + [RatesHigh];
    }
    r := Tally(riskPoints, maxPoints, conditions, warnings);
  }

  /** `assess_market_conditions`: each present indicator's branch appends
      to the lists and adds to the two point counters, then the score, the
      level and the one recommendation are set. */
  method AssessMarketConditions(indicators: map<string, real>) returns (a: Assessment)
    ensures a == Assessed(indicators)
  {
    var t := Tally(0, 0, [], []);
    if "VIX" in indicators {
      t := AddVix(t, indicators["VIX"]);
    }
    if "UNEMPLOYMENT" in indicators {
      t := AddUnemployment(t, indicators["UNEMPLOYMENT"]);
    }
    if "TREASURY_10Y" in indicators {
      t := AddTreasury(t, indicators["TREASURY_10Y"]);
    }
    assert t == Tallied(indicators);
    var riskScore, level, recommendation := Grade(t.points, t.maxPoints);
    a := Assessment(level, riskScore, t.conditions, t.warnings, [recommendation]);
  }

  /** The points never exceed the possible points, which are positive
      exactly when an assessed indicator is present; there is one condition
      per present indicator and at most one warning each. */
  lemma TallyBounds(indicators: map<string, real>)
    ensures var t := Tallied(indicators);
      && 0 <= t.points <= t.maxPoints
      && (t.maxPoints > 0 <==> Present(indicators) > 0)
      && |t.conditions| == Present(indicators)
      && |t.warnings| <= Present(indicators)
  {
  }

  /** With none of the three indicators the assessment is the default:
      medium, 50, no conditions or warnings, one recommendation. */
  lemma AssessNothing(indicators: map<string, real>)
    requires Present(indicators) == 0
    ensures Assessed(indicators)
      == Assessment(Medium, 50, [], [], [Standard])
  {
  }

  /** The score is the floored percentage of the possible points when any
      indicator is present, and always lies in [0, 100]; the level follows
      the thresholds 30 and 60; one condition is added per present
      indicator and exactly one recommendation. */
  lemma AssessScore(indicators: map<string, real>)
    ensures var a := Assessed(indicators);
      var t := Tallied(indicators);
      && 0 <= a.riskScore <= 100
      && (Present(indicators) > 0 ==> t.maxPoints > 0 && a.riskScore == Percent(t.points, t.maxPoints))
      && (a.riskLevel == Low <==> a.riskScore < 30)
      && (a.riskLevel == Medium <==> 30 <= a.riskScore < 60)
      && (a.riskLevel == High <==> 60 <= a.riskScore)
      && |a.conditions| == Present(indicators)
      && |a.recommendations| == 1
  {
    var t := Tallied(indicators);
    TallyBounds(indicators);
    if t.maxPoints > 0 {
      PercentBounds(t.points, t.maxPoints);
    }
  }

  /** Keys other than the three assessed series change nothing. */
  lemma AssessIgnoresOtherKeys(indicators: map<string, real>, key: string, value: real)
    requires key != "VIX" && key != "UNEMPLOYMENT" && key != "TREASURY_10Y"
    ensures Assessed(indicators[key := value]) == Assessed(indicators)
  {
  }

  /** A VIX of 20 or more always brings its warning, first in the list. */
  lemma VixWarns(indicators: map<string, real>)
    requires "VIX" in indicators && indicators["VIX"] >= 20.0
    ensures |Assessed(indicators).warnings| >= 1
    ensures Assessed(indicators).warnings[0] == VixReading(indicators["VIX"]).warning.value
  {
  }

  /** The code's own examples: calm markets score low, stressed ones high
      (with warnings), mixed ones medium. */
  lemma AssessExamples()
    ensures Assessed(map["VIX" := 12.0, "UNEMPLOYMENT" := 3.5, "TREASURY_10Y" := 2.5]).riskScore == 9
    ensures Assessed(map["VIX" := 12.0, "UNEMPLOYMENT" := 3.5, "TREASURY_10Y" := 2.5]).riskLevel == Low
    ensures Assessed(map["VIX" := 35.0, "UNEMPLOYMENT" := 8.0, "TREASURY_10Y" := 5.5]).riskScore == 100
    ensures Assessed(map["VIX" := 35.0, "UNEMPLOYMENT" := 8.0, "TREASURY_10Y" := 5.5]).riskLevel == High
    ensures |Assessed(map["VIX" := 35.0, "UNEMPLOYMENT" := 8.0, "TREASURY_10Y" := 5.5]).warnings| == 3
    ensures Assessed(map["VIX" := 22.0, "UNEMPLOYMENT" := 5.0]).riskScore == 42
    ensures Assessed(map["VIX" := 22.0, "UNEMPLOYMENT" := 5.0]).riskLevel == Medium
  {
    assert Tallied(map["VIX" := 12.0, "UNEMPLOYMENT" := 3.5, "TREASURY_10Y" := 2.5]).points == 5;
    assert Tallied(map["VIX" := 35.0, "UNEMPLOYMENT" := 8.0, "TREASURY_10Y" := 5.5]).points == 55;
    assert Tallied(map["VIX" := 22.0, "UNEMPLOYMENT" := 5.0]).points == 17;
  }
}
