/** Signal fusion: independent trigger predicates, each worth a fixed number
    of points, a bonus for two or more triggers, weighted technical and
    composite scores, the cap at 100, the emission rule and the ranking.
    The clock is a parameter (`now`), and a custom threshold configuration
    is taken as already resolved into one record. */
module Generator {
  import opened Common
  import opened Strings
  import opened Dates
  import opened Velocity

  datatype Thresholds = Thresholds(
    mentionVel24hMin: real,
    compositeScoreMin: real,
    minInsiders: int,
    lookbackDays: int,
    minValueTotal: real,
    sentimentDeltaMin: real)

  const DefaultThresholds: Thresholds := Thresholds(100.0, 60.0, 2, 14, 100000.0, 0.3)

  // ---------------------------------------------------------------------
  // Inputs, one per ticker

  /** An insider trade's `trade_date`: absent or `None`, a string still to be
      parsed, or a datetime. */
  datatype TradeDate = NoDate | DateText(text: string) | DateValue(at: Instant)

  /** An insider trade as the generator reads it; a missing `trade_type` is
      the empty string and a missing `value` is 0. */
  datatype InsiderTrade = InsiderTrade(tradeDate: TradeDate, tradeType: string, value: real)

  /** The technical-analysis entries the generator reads. */
  datatype TechData = TechData(breakoutDetected: bool, rsi14: Field<real>, goldenCross: bool, technicalScore: Field<real>)

  datatype SentimentData = SentimentData(score: Field<real>, sentimentLabel: Field<string>)

  datatype RedditData = RedditData(mentionCount: Field<int>)

  /** Everything known about one ticker. An absent or empty technical,
      sentiment or Reddit dict is `None`. */
  datatype TickerInputs = TickerInputs(
    vel: VelocityMetrics,
    insiders: seq<InsiderTrade>,
    price: real,
    tech: Option<TechData>,
    sentiment: Option<SentimentData>,
    reddit: Option<RedditData>)

  // ---------------------------------------------------------------------
  // The _check_* predicates

  predicate CheckVelocitySpike(v: VelocityMetrics, th: Thresholds)
  {
    v.mention24h >= th.mentionVel24hMin && v.composite >= th.compositeScoreMin
  }

  function Abs(x: real): real
  {
    if x < 0.0 then -x else x
  }

  predicate CheckSentimentFlip(v: VelocityMetrics, th: Thresholds)
  {
    Abs(v.sentimentVelocity) >= th.sentimentDeltaMin
  }

  /** A sentiment flip does not depend on its direction. */
  lemma SentimentFlipSymmetric(v: VelocityMetrics, th: Thresholds)
    ensures CheckSentimentFlip(v, th) <==> CheckSentimentFlip(v.(sentimentVelocity := -v.sentimentVelocity), th)
    ensures CheckSentimentFlip(v, th) <==>
      (v.sentimentVelocity >= th.sentimentDeltaMin || -v.sentimentVelocity >= th.sentimentDeltaMin)
  {
  }

  predicate CheckTechnicalBreakout(t: TechData)
  {
    t.breakoutDetected
  }

  /** RSI below 30; a missing RSI reads as 50 and a `None` one is never
      oversold. */
  predicate CheckRsiOversold(t: TechData)
  {
    match t.rsi14
    case Missing => 50.0 < 30.0
    case Null => false
    case Val(r) => r < 30.0
  }

  /** A score above 0.15, or a label mentioning bullish or positive in any
      case. A missing or `None` score is 0 and a missing or `None` label is
      empty. */
  predicate CheckPositiveSentiment(s: SentimentData)
  {
    var score := if s.score.Val? then s.score.value else 0.0;
    var text := Lower(if s.sentimentLabel.Val? then s.sentimentLabel.value else "");
    score > 0.15 || Contains(text, "bullish") || Contains(text, "positive")
  }

  /** Ten or more mentions; a missing count is 0 and a `None` one fails. */
  predicate CheckRedditViral(r: RedditData)
  {
    match r.mentionCount
    case Missing => 0 >= 10
    case Null => false
    case Val(n) => n >= 10
  }

  // ---------------------------------------------------------------------
  // _check_insider_cluster, clock injected

  /** The instant of a trade date, if it has one: strings that do not parse
      are skipped, as `fromisoformat`'s ValueError is. */
  function TradeInstant(d: TradeDate): Option<Instant>
  {
    match d
    case NoDate => None
    case DateText(s) => ParseIsoInstant(s)
    case DateValue(t) => Some(t)
  }

  predicate IsRecentBuy(t: InsiderTrade, cutoff: Instant)
  {
    t.tradeType == "P" && TradeInstant(t.tradeDate).Some? && TradeInstant(t.tradeDate).value >= cutoff
  }

  /** The recent purchases, in their original order. */
  function RecentBuys(insiders: seq<InsiderTrade>, cutoff: Instant): (r: seq<InsiderTrade>)
    ensures |r| <= |insiders|
    ensures forall i | 0 <= i < |r| :: IsRecentBuy(r[i], cutoff)
    ensures forall i | 0 <= i < |insiders| :: IsRecentBuy(insiders[i], cutoff) ==> insiders[i] in r
  {
    if insiders == [] then []
    else
      var init := RecentBuys(insiders[..|insiders| - 1], cutoff);
      assert forall i | 0 <= i < |insiders| - 1 :: insiders[i] == insiders[..|insiders| - 1][i];
      var x := insiders[|insiders| - 1];
      if IsRecentBuy(x, cutoff) then init + [x] else init
  }

  function TotalValue(buys: seq<InsiderTrade>): real
  {
    if buys == [] then 0.0 else TotalValue(buys[..|buys| - 1]) + buys[|buys| - 1].value
  }

  function Cutoff(now: Instant, th: Thresholds): Instant
  {
    AddDays(now, -th.lookbackDays)
  }

  /** The insider-cluster rule: a non-empty list with at least
      `minInsiders` recent purchases worth `minValueTotal` in all. */
  predicate InsiderClusterHolds(insiders: seq<InsiderTrade>, now: Instant, th: Thresholds)
  {
    insiders != [] &&
    var buys := RecentBuys(insiders, Cutoff(now, th));
    |buys| >= th.minInsiders && TotalValue(buys) >= th.minValueTotal
  }

  /** `_check_insider_cluster`: the loop collecting `recent_buys`. */
  method CheckInsiderCluster(insiders: seq<InsiderTrade>, now: Instant, th: Thresholds) returns (b: bool)
    ensures b == InsiderClusterHolds(insiders, now, th)
  {
    if |insiders| == 0 {
      return false;
    }
    var cutoff := AddDays(now, -th.lookbackDays);
    var recent: seq<InsiderTrade> := [];
    var i := 0;
    while i < |insiders|
      invariant 0 <= i <= |insiders|
      invariant recent == RecentBuys(insiders[..i], cutoff)
    {
      assert insiders[..i + 1][..i] == insiders[..i];
      var insider := insiders[i];
      var at := TradeInstant(insider.tradeDate);
      if insider.tradeType == "P" && at.Some? && at.value >= cutoff {
        recent := recent + [insider];
      }
      i := i + 1;
    }
    assert insiders[..i] == insiders;
    if |recent| < th.minInsiders {
      return false;
    }
    var total := 0.0;
    var j := 0;
    while j < |recent|
      invariant 0 <= j <= |recent|
      invariant total == TotalValue(recent[..j])
    {
      assert recent[..j + 1][..j] == recent[..j];
      total := total + recent[j].value;
      j := j + 1;
    }
    assert recent[..j] == recent;
    return total >= th.minValueTotal;
  }

  /** One more recent purchase of non-negative value keeps a cluster. */
  lemma ClusterKeptByRecentBuy(insiders: seq<InsiderTrade>, t: InsiderTrade, now: Instant, th: Thresholds)
    requires InsiderClusterHolds(insiders, now, th)
    requires IsRecentBuy(t, Cutoff(now, th)) && t.value >= 0.0
    ensures InsiderClusterHolds(insiders + [t], now, th)
  {
    assert (insiders + [t])[..|insiders|] == insiders;
    var buys := RecentBuys(insiders, Cutoff(now, th));
    assert (buys + [t])[..|buys|] == buys;
  }

  /** A trade that is not a recent purchase changes nothing, once the list is
      non-empty. */
  lemma ClusterIgnoresOtherTrades(insiders: seq<InsiderTrade>, t: InsiderTrade, now: Instant, th: Thresholds)
    requires insiders != [] && !IsRecentBuy(t, Cutoff(now, th))
    ensures InsiderClusterHolds(insiders + [t], now, th) == InsiderClusterHolds(insiders, now, th)
  {
    assert (insiders + [t])[..|insiders|] == insiders;
  }

  // ---------------------------------------------------------------------
  // generate_signals: triggers and conviction for one ticker

  datatype Trigger =
    | VelocitySpike | InsiderCluster | SentimentFlip | TechnicalBreakout
    | RsiOversold | GoldenCross | NewsSentimentBullish | RedditViral

  /** The points each trigger adds. */
  function Points(t: Trigger): (p: real)
    ensures p >= 10.0
  {
    match t
    case VelocitySpike => 30.0
    case InsiderCluster => 40.0
    case SentimentFlip => 20.0
    case TechnicalBreakout => 25.0
    case RsiOversold => 15.0
    case GoldenCross => 20.0
    case NewsSentimentBullish => 15.0
    case RedditViral => 10.0
  }

  /** The outcome of the eight checks for one ticker. A technical,
      sentiment or Reddit check on an absent or empty dict is false. */
  datatype Checks = Checks(
    spike: bool, cluster: bool, flip: bool, breakout: bool,
    rsi: bool, golden: bool, news: bool, viral: bool)

  function RunChecks(x: TickerInputs, now: Instant, th: Thresholds): Checks
  {
    Checks(CheckVelocitySpike(x.vel, th),
           InsiderClusterHolds(x.insiders, now, th),
           CheckSentimentFlip(x.vel, th),
           x.tech.Some? && CheckTechnicalBreakout(x.tech.value),
           x.tech.Some? && CheckRsiOversold(x.tech.value),
           x.tech.Some? && x.tech.value.goldenCross,
           x.sentiment.Some? && CheckPositiveSentiment(x.sentiment.value),
           x.reddit.Some? && CheckRedditViral(x.reddit.value))
  }

  /** Whether the check of trigger `t` passed. */
  predicate Holds(c: Checks, t: Trigger)
  {
    match t
    case VelocitySpike => c.spike
    case InsiderCluster => c.cluster
    case SentimentFlip => c.flip
    case TechnicalBreakout => c.breakout
    case RsiOversold => c.rsi
    case GoldenCross => c.golden
    case NewsSentimentBullish => c.news
    case RedditViral => c.viral
  }

  /** Whether trigger `t` fires for a ticker. */
  predicate Fires(t: Trigger, x: TickerInputs, now: Instant, th: Thresholds)
  {
    Holds(RunChecks(x, now, th), t)
  }

  /** `[t]` if `b`, else nothing. */
  function Opt(b: bool, t: Trigger): seq<Trigger>
  {
    if b then [t] else []
  }

  /** Every trigger, in the order the generator tests them. */
  function AllTriggers(): seq<Trigger>
  {
    [VelocitySpike, InsiderCluster, SentimentFlip, TechnicalBreakout,
     RsiOversold, GoldenCross, NewsSentimentBullish, RedditViral]
  }

  function Passed(c: Checks): Trigger -> bool
  {
    (t: Trigger) => Holds(c, t)
  }

  /** The triggers list of `generate_signals`: the passed checks, in the
      order the generator tests them. */
  function TriggersOf(c: Checks): seq<Trigger>
  {
    Filter(AllTriggers(), Passed(c))
  }

  /** The fired triggers of a ticker. */
  function FiredTriggers(x: TickerInputs, now: Instant, th: Thresholds): seq<Trigger>
  {
    TriggersOf(RunChecks(x, now, th))
  }

  /** The triggers list is built by the eight appends, in order. */
  lemma TriggersOfSteps(c: Checks)
    ensures TriggersOf(c) ==
      [] + Opt(c.spike, VelocitySpike) + Opt(c.cluster, InsiderCluster) + Opt(c.flip, SentimentFlip)
         + Opt(c.breakout, TechnicalBreakout) + Opt(c.rsi, RsiOversold) + Opt(c.golden, GoldenCross)
         + Opt(c.news, NewsSentimentBullish) + Opt(c.viral, RedditViral)
  {
    var p := Passed(c);
    var a0: seq<Trigger> := [];
    FilterAppend(a0, VelocitySpike, p);
    var a1 := a0 + [VelocitySpike];
    FilterAppend(a1, InsiderCluster, p);
    var a2 := a1 + [InsiderCluster];
    FilterAppend(a2, SentimentFlip, p);
    var a3 := a2 + [SentimentFlip];
    FilterAppend(a3, TechnicalBreakout, p);
    var a4 := a3 + [TechnicalBreakout];
    FilterAppend(a4, RsiOversold, p);
    var a5 := a4 + [RsiOversold];
    FilterAppend(a5, GoldenCross, p);
    var a6 := a5 + [GoldenCross];
    FilterAppend(a6, NewsSentimentBullish, p);
    var a7 := a6 + [NewsSentimentBullish];
    FilterAppend(a7, RedditViral, p);
    assert a7 + [RedditViral] == AllTriggers();
  }

  /** How many checks passed. */
  function Count(c: Checks): nat
  {
    One(c.spike) + One(c.cluster) + One(c.flip) + One(c.breakout)
    + One(c.rsi) + One(c.golden) + One(c.news) + One(c.viral)
  }

  function One(b: bool): nat
  {
    if b then 1 else 0
  }

  function OptPoints(b: bool, t: Trigger): real
  {
    if b then Points(t) else 0.0
  }

  /** The points the passed checks add, in the order they are added. */
  function CheckPoints(c: Checks): real
  {
    0.0 + OptPoints(c.spike, VelocitySpike) + OptPoints(c.cluster, InsiderCluster)
        + OptPoints(c.flip, SentimentFlip) + OptPoints(c.breakout, TechnicalBreakout)
        + OptPoints(c.rsi, RsiOversold) + OptPoints(c.golden, GoldenCross)
        + OptPoints(c.news, NewsSentimentBullish) + OptPoints(c.viral, RedditViral)
  }

  /** The points of a list of triggers. */
  function TriggerPoints(ts: seq<Trigger>): real
  {
    if ts == [] then 0.0 else TriggerPoints(ts[..|ts| - 1]) + Points(ts[|ts| - 1])
  }

  /** Appending a trigger if its check passed. */
  lemma OptStep(s: seq<Trigger>, b: bool, t: Trigger)
    ensures |s + Opt(b, t)| == |s| + One(b)
    ensures TriggerPoints(s + Opt(b, t)) == TriggerPoints(s) + OptPoints(b, t)
  {
    if b {
      assert (s + [t])[..|s|] == s;
    } else {
      assert s + Opt(b, t) == s;
    }
  }

  /** Length and points of the eight appends, for any check outcomes. */
  lemma AppendsTotals(b1: bool, b2: bool, b3: bool, b4: bool, b5: bool, b6: bool, b7: bool, b8: bool)
    ensures var ts := [] + Opt(b1, VelocitySpike) + Opt(b2, InsiderCluster) + Opt(b3, SentimentFlip)
                         + Opt(b4, TechnicalBreakout) + Opt(b5, RsiOversold) + Opt(b6, GoldenCross)
                         + Opt(b7, NewsSentimentBullish) + Opt(b8, RedditViral);
      && |ts| == One(b1) + One(b2) + One(b3) + One(b4) + One(b5) + One(b6) + One(b7) + One(b8)
      && TriggerPoints(ts) ==
           0.0 + OptPoints(b1, VelocitySpike) + OptPoints(b2, InsiderCluster)
               + OptPoints(b3, SentimentFlip) + OptPoints(b4, TechnicalBreakout)
               + OptPoints(b5, RsiOversold) + OptPoints(b6, GoldenCross)
               + OptPoints(b7, NewsSentimentBullish) + OptPoints(b8, RedditViral)
  {
    var s0: seq<Trigger> := [];
    OptStep(s0, b1, VelocitySpike);
    var s1 := s0 + Opt(b1, VelocitySpike);
    OptStep(s1, b2, InsiderCluster);
    var s2 := s1 + Opt(b2, InsiderCluster);
    OptStep(s2, b3, SentimentFlip);
    var s3 := s2 + Opt(b3, SentimentFlip);
    OptStep(s3, b4, TechnicalBreakout);
    var s4 := s3 + Opt(b4, TechnicalBreakout);
    OptStep(s4, b5, RsiOversold);
    var s5 := s4 + Opt(b5, RsiOversold);
    OptStep(s5, b6, GoldenCross);
    var s6 := s5 + Opt(b6, GoldenCross);
    OptStep(s6, b7, NewsSentimentBullish);
    var s7 := s6 + Opt(b7, NewsSentimentBullish);
    OptStep(s7, b8, RedditViral);
  }

  /** The length of the triggers list is the number of passed checks and
      its points are the points added. */
  lemma TriggersOfTotals(c: Checks)
    ensures |TriggersOf(c)| == Count(c)
    ensures TriggerPoints(TriggersOf(c)) == CheckPoints(c)
  {
    TriggersOfLength(c);
    TriggersOfPoints(c);
  }

  lemma TriggersOfLength(c: Checks)
    ensures |TriggersOf(c)| == Count(c)
  {
    TriggersOfSteps(c);
    AppendsTotals(c.spike, c.cluster, c.flip, c.breakout, c.rsi, c.golden, c.news, c.viral);
  }

  lemma TriggersOfPoints(c: Checks)
    ensures TriggerPoints(TriggersOf(c)) == CheckPoints(c)
  {
    TriggersOfSteps(c);
    AppendsTotals(c.spike, c.cluster, c.flip, c.breakout, c.rsi, c.golden, c.news, c.viral);
  }

  lemma AllTriggersComplete(t: Trigger)
    ensures t in AllTriggers()
  {
    match t
    case VelocitySpike => assert AllTriggers()[0] == t;
    case InsiderCluster => assert AllTriggers()[1] == t;
    case SentimentFlip => assert AllTriggers()[2] == t;
    case TechnicalBreakout => assert AllTriggers()[3] == t;
    case RsiOversold => assert AllTriggers()[4] == t;
    case GoldenCross => assert AllTriggers()[5] == t;
    case NewsSentimentBullish => assert AllTriggers()[6] == t;
    case RedditViral => assert AllTriggers()[7] == t;
  }

  /** A trigger is listed exactly when its check passed, at most once, and
      the list is empty exactly when no check passed. */
  lemma TriggersOfExactly(c: Checks)
    ensures forall t :: t in TriggersOf(c) <==> Holds(c, t)
    ensures Distinct(TriggersOf(c))
    ensures TriggersOf(c) == [] <==> forall t :: !Holds(c, t)
  {
    forall t
      ensures t in TriggersOf(c) <==> Holds(c, t)
    {
      AllTriggersComplete(t);
      FilterMembers(AllTriggers(), Passed(c), t);
    }
    assert Distinct(AllTriggers());
    FilterDistinct(AllTriggers(), Passed(c));
    var f := TriggersOf(c);
    if f != [] {
      assert f[0] in f;
    }
  }

  /** The same, for the triggers of a ticker. */
  lemma FiredTriggersExactly(x: TickerInputs, now: Instant, th: Thresholds)
    ensures forall t :: t in FiredTriggers(x, now, th) <==> Fires(t, x, now, th)
    ensures Distinct(FiredTriggers(x, now, th))
    ensures FiredTriggers(x, now, th) == [] <==> forall t :: !Fires(t, x, now, th)
  {
    TriggersOfExactly(RunChecks(x, now, th));
  }

  /** `technical_score * 0.2` when the technical dict has a non-`None` score. */
  function TechContribution(tech: Option<TechData>): real
  {
    if tech.Some? && tech.value.technicalScore.Val? then tech.value.technicalScore.value * 0.2 else 0.0
  }

  /** The conviction before the cap: the points of the passed checks, the
      technical share, 15 when two or more triggers are listed (`Count` is
      the length of the list, `TriggersOfTotals`), and the composite share. */
  function RawConviction(c: Checks, tech: Option<TechData>, composite: real): real
  {
    CheckPoints(c) + TechContribution(tech) + (if Count(c) >= 2 then 15.0 else 0.0) + composite * 0.3
  }

  /** `min(100, conviction)`. */
  function Conviction(c: Checks, tech: Option<TechData>, composite: real): (r: real)
    ensures r <= 100.0
    ensures r == 100.0 || r == RawConviction(c, tech, composite)
    ensures r <= RawConviction(c, tech, composite)
  {
    var v := RawConviction(c, tech, composite);
    if 100.0 < v then 100.0 else v
  }

  /** The checks with the one for `t` passed as well. */
  function Pass(c: Checks, t: Trigger): (r: Checks)
    ensures forall u :: Holds(r, u) <==> Holds(c, u) || u == t
    ensures Holds(c, t) ==> r == c
  {
    match t
    case VelocitySpike => c.(spike := true)
    case InsiderCluster => c.(cluster := true)
    case SentimentFlip => c.(flip := true)
    case TechnicalBreakout => c.(breakout := true)
    case RsiOversold => c.(rsi := true)
    case GoldenCross => c.(golden := true)
    case NewsSentimentBullish => c.(news := true)
    case RedditViral => c.(viral := true)
  }

  /** One more passed check never lowers conviction: before the cap it adds
      at least the trigger's points, as the combined bonus can only appear. */
  lemma ConvictionMonotone(c: Checks, t: Trigger, tech: Option<TechData>, composite: real)
    ensures Conviction(c, tech, composite) <= Conviction(Pass(c, t), tech, composite)
    ensures !Holds(c, t) ==>
      RawConviction(Pass(c, t), tech, composite) >= RawConviction(c, tech, composite) + Points(t)
  {
  }

  /** One `if check: triggers.append(t); conviction += points` step. */
  method AddIf(fires: bool, t: Trigger, triggers: seq<Trigger>, conviction: real) returns (ts: seq<Trigger>, v: real)
    ensures ts == triggers + Opt(fires, t)
    ensures v == conviction + OptPoints(fires, t)
  {
    if fires {
      ts, v := triggers + [t], conviction + Points(t);
    } else {
      ts, v := triggers, conviction;
    }
  }

  /** The eight `_check_*` calls for one ticker. They have no side effects,
      so making them all before the appends changes nothing. */
  method CheckAll(x: TickerInputs, now: Instant, th: Thresholds) returns (c: Checks)
    ensures c == RunChecks(x, now, th)
  {
    var cluster := CheckInsiderCluster(x.insiders, now, th);
    c := Checks(CheckVelocitySpike(x.vel, th),
                cluster,
                CheckSentimentFlip(x.vel, th),
                x.tech.Some? && CheckTechnicalBreakout(x.tech.value),
                x.tech.Some? && CheckRsiOversold(x.tech.value),
                x.tech.Some? && x.tech.value.goldenCross,
                x.sentiment.Some? && CheckPositiveSentiment(x.sentiment.value),
                x.reddit.Some? && CheckRedditViral(x.reddit.value));
  }

  /** The eight `if check: triggers.append(t); conviction += points` steps. */
  method Collect(c: Checks) returns (triggers: seq<Trigger>, points: real)
    ensures triggers == TriggersOf(c)
    ensures points == CheckPoints(c)
  {
    TriggersOfSteps(c);
    triggers, points := AddIf(c.spike, VelocitySpike, [], 0.0);
    triggers, points := AddIf(c.cluster, InsiderCluster, triggers, points);
    triggers, points := AddIf(c.flip, SentimentFlip, triggers, points);
    triggers, points := AddIf(c.breakout, TechnicalBreakout, triggers, points);
    triggers, points := AddIf(c.rsi, RsiOversold, triggers, points);
    triggers, points := AddIf(c.golden, GoldenCross, triggers, points);
    triggers, points := AddIf(c.news, NewsSentimentBullish, triggers, points);
    triggers, points := AddIf(c.viral, RedditViral, triggers, points);
  }

  /** The triggers and conviction the generator computes for one ticker:
      the eight checks in order, then the technical share, the bonus, the
      composite share and the cap. */
  method ScoreTicker(x: TickerInputs, now: Instant, th: Thresholds) returns (triggers: seq<Trigger>, conviction: real)
    ensures triggers == FiredTriggers(x, now, th)
    ensures conviction == Conviction(RunChecks(x, now, th), x.tech, x.vel.composite)
  {
    var c := CheckAll(x, now, th);
    var points;
    triggers, points := Collect(c);
    conviction := AddScores(triggers, points, x.tech, x.vel.composite, c);
  }

  /** The rest of the per-ticker conviction: the technical share, the
      combined bonus, the composite share and the cap. */
  method AddScores(triggers: seq<Trigger>, points: real, tech: Option<TechData>, composite: real, ghost c: Checks)
    returns (conviction: real)
    requires triggers == TriggersOf(c) && points == CheckPoints(c)
    ensures conviction == Conviction(c, tech, composite)
  {
    TriggersOfTotals(c);
    conviction := points;
    if tech.Some? && tech.value.technicalScore.Val? {
      conviction := conviction + tech.value.technicalScore.value * 0.2;
    }
    if |triggers| >= 2 {
      conviction := conviction + 15.0;
    }
    conviction := conviction + composite * 0.3;
    conviction := if 100.0 < conviction then 100.0 else conviction;
  }

  // ---------------------------------------------------------------------
  // Signals

  datatype SignalType = Combined | Only(trigger: Trigger)

  /** A trading signal; the human-readable notes are not modelled. */
  datatype Signal = Signal(
    ticker: string,
    signalType: SignalType,
    conviction: real,
    priceAtSignal: real,
    triggers: seq<Trigger>,
    createdAt: Instant)

  function ConvictionOf(s: Signal): real
  {
    s.conviction
  }

  /** What every emitted signal satisfies. */
  predicate WellFormed(s: Signal)
  {
    |s.triggers| >= 1 && 40.0 <= s.conviction <= 100.0 &&
    (s.signalType == Combined <==> |s.triggers| > 1) &&
    (s.signalType.Only? ==> s.signalType.trigger == s.triggers[0])
  }

  /** The signal for one ticker, if any: some trigger fired and the
      conviction reaches 40. */
  function Evaluate(ticker: string, x: TickerInputs, now: Instant, th: Thresholds): (r: Option<Signal>)
    ensures r.Some? <==> FiredTriggers(x, now, th) != [] && Conviction(RunChecks(x, now, th), x.tech, x.vel.composite) >= 40.0
    ensures r.Some? ==> WellFormed(r.value) && r.value.ticker == ticker && r.value.triggers == FiredTriggers(x, now, th)
  {
    var ts := FiredTriggers(x, now, th);
    var c := Conviction(RunChecks(x, now, th), x.tech, x.vel.composite);
    if ts != [] && c >= 40.0
    then Some(Signal(ticker, if |ts| > 1 then Combined else Only(ts[0]), c, x.price, ts, now))
    else None
  }

  /** No fired trigger, no signal, however high the composite score. */
  lemma NoTriggerNoSignal(ticker: string, x: TickerInputs, now: Instant, th: Thresholds)
    requires forall t :: !Fires(t, x, now, th)
    ensures Evaluate(ticker, x, now, th).None?
  {
    FiredTriggersExactly(x, now, th);
  }

  /** The dicts passed to `generate_signals`, keyed by ticker in insertion
      order. */
  datatype MarketData = MarketData(
    velocity: seq<(string, VelocityMetrics)>,
    insiders: seq<(string, seq<InsiderTrade>)>,
    prices: seq<(string, real)>,
    technical: seq<(string, TechData)>,
    sentiment: seq<(string, SentimentData)>,
    reddit: seq<(string, RedditData)>)

  function LookupOr<K(==), V>(a: seq<(K, V)>, k: K, default: V): V
  {
    match Lookup(a, k)
    case None => default
    case Some(v) => v
  }

  /** The inputs for the `i`-th ticker of the velocity dict; missing entries
      take the `.get` defaults. */
  function InputsFor(d: MarketData, i: nat): TickerInputs
    requires i < |d.velocity|
  {
    var t := d.velocity[i].0;
    TickerInputs(d.velocity[i].1, LookupOr(d.insiders, t, []), LookupOr(d.prices, t, 0.0),
                 Lookup(d.technical, t), Lookup(d.sentiment, t), Lookup(d.reddit, t))
  }

  /** The signal of the `i`-th ticker of the velocity dict, if any. */
  function SignalAt(d: MarketData, now: Instant, th: Thresholds): nat -> Option<Signal>
  {
    (i: nat) => if i < |d.velocity| then Evaluate(d.velocity[i].0, InputsFor(d, i), now, th) else None
  }

  /** The signals of the first `k` tickers, before sorting. */
  function Candidates(d: MarketData, k: nat, now: Instant, th: Thresholds): (r: seq<Signal>)
    ensures forall s | s in r :: WellFormed(s)
  {
    var r := Somes(k, SignalAt(d, now, th));
    forall s | s in r
      ensures WellFormed(s)
    {
      SomesMembers(k, SignalAt(d, now, th), s);
    }
    r
  }

  /** One more ticker appends its signal, if it has one. */
  lemma CandidatesStep(d: MarketData, i: nat, now: Instant, th: Thresholds)
    requires i < |d.velocity|
    ensures Candidates(d, i + 1, now, th) == Candidates(d, i, now, th) +
      (var e := Evaluate(d.velocity[i].0, InputsFor(d, i), now, th); if e.Some? then [e.value] else [])
  {
  }

  /** A signal is a candidate exactly when it is the signal of one of the
      tickers. */
  lemma CandidatesMembers(d: MarketData, k: nat, now: Instant, th: Thresholds, s: Signal)
    requires k <= |d.velocity|
    ensures s in Candidates(d, k, now, th) <==>
      exists i | 0 <= i < k :: Evaluate(d.velocity[i].0, InputsFor(d, i), now, th) == Some(s)
  {
    SomesMembers(k, SignalAt(d, now, th), s);
    if s in Candidates(d, k, now, th) {
      var i :| 0 <= i < k && SignalAt(d, now, th)(i) == Some(s);
      assert Evaluate(d.velocity[i].0, InputsFor(d, i), now, th) == Some(s);
    } else {
      forall i | 0 <= i < k
        ensures Evaluate(d.velocity[i].0, InputsFor(d, i), now, th) != Some(s)
      {
        assert SignalAt(d, now, th)(i) != Some(s);
      }
    }
  }

  /** `generate_signals`: the candidates sorted by conviction, highest first,
      ties in velocity-dict order. */
  function GeneratedSignals(d: MarketData, now: Instant, th: Thresholds): seq<Signal>
  {
    SortDesc(Candidates(d, |d.velocity|, now, th), ConvictionOf)
  }

  /** The output is ranked, holds exactly the candidates, keeps the
      velocity-dict order among equal convictions, and every signal in it
      is well formed. */
  lemma GeneratedSignalsCorrect(d: MarketData, now: Instant, th: Thresholds)
    ensures SortedDesc(GeneratedSignals(d, now, th), ConvictionOf)
    ensures multiset(GeneratedSignals(d, now, th)) == multiset(Candidates(d, |d.velocity|, now, th))
    ensures forall k :: Filter(GeneratedSignals(d, now, th), KeyIs(ConvictionOf, k))
                     == Filter(Candidates(d, |d.velocity|, now, th), KeyIs(ConvictionOf, k))
    ensures forall s | s in GeneratedSignals(d, now, th) :: WellFormed(s)
  {
    var c := Candidates(d, |d.velocity|, now, th);
    SortDescCorrect(c, ConvictionOf);
    forall k {
      SortDescStable(c, ConvictionOf, k);
    }
    forall s | s in GeneratedSignals(d, now, th)
      ensures WellFormed(s)
    {
      assert s in multiset(c);
    }
  }

  /** `generate_signals`: the loop over the velocity dict appending signals,
      then the in-place sort. */
  method GenerateSignals(d: MarketData, now: Instant, th: Thresholds) returns (signals: seq<Signal>)
    ensures signals == GeneratedSignals(d, now, th)
  {
    signals := [];
    var i := 0;
    while i < |d.velocity|
      invariant 0 <= i <= |d.velocity|
      invariant signals == Candidates(d, i, now, th)
    {
      var ticker := d.velocity[i].0;
      var x := InputsFor(d, i);
      var triggers, conviction := ScoreTicker(x, now, th);
      CandidatesStep(d, i, now, th);
      if triggers != [] && conviction >= 40.0 {
        var kind := if |triggers| > 1 then Combined else Only(triggers[0]);
        signals := signals + [Signal(ticker, kind, conviction, x.price, triggers, now)];
      }
      i := i + 1;
    }
    signals := SortDesc(signals, ConvictionOf);
  }

  // ---------------------------------------------------------------------
  // filter_by_conviction, get_top_signals, group_by_type

  function AtLeast(min: real): Signal -> bool
  {
    (s: Signal) => s.conviction >= min
  }

  function FilterByConviction(signals: seq<Signal>, min: real): (r: seq<Signal>)
    ensures forall i | 0 <= i < |r| :: r[i].conviction >= min
  {
    var r := Filter(signals, AtLeast(min));
    forall i | 0 <= i < |r|
      ensures r[i].conviction >= min
    {
      FilterMembers(signals, AtLeast(min), r[i]);
    }
    r
  }

  /** Filtering keeps exactly the signals at or above the threshold, in
      their original order. */
  lemma FilterByConvictionExactly(signals: seq<Signal>, min: real, s: Signal)
    ensures s in FilterByConviction(signals, min) <==> s in signals && s.conviction >= min
    ensures FilterByConviction(signals, min) == Filter(signals, AtLeast(min))
  {
    FilterMembers(signals, AtLeast(min), s);
  }

  /** `signals[:n]`. */
  function TopSignals(signals: seq<Signal>, n: int): (r: seq<Signal>)
    ensures n >= 0 ==> |r| == (if n < |signals| then n else |signals|)
    ensures r <= signals
  {
    PyPrefix(signals, n)
  }

  function TypeIs(k: SignalType): Signal -> bool
  {
    (s: Signal) => s.signalType == k
  }

  /** The grouped dict after the first signals. */
  function Grouped(signals: seq<Signal>): (r: seq<(SignalType, seq<Signal>)>)
    ensures DistinctKeys(r)
  {
    if signals == [] then []
    else
      var g := Grouped(signals[..|signals| - 1]);
      var s := signals[|signals| - 1];
      Put(g, s.signalType, LookupOr(g, s.signalType, []) + [s])
  }

  /** Each type's group is exactly the signals of that type, in input
      order, and a type with no signals has no group: the groups partition
      the input with nothing lost. */
  lemma {:induction false} GroupedIsFilter(signals: seq<Signal>, k: SignalType)
    ensures Lookup(Grouped(signals), k) ==
      if Filter(signals, TypeIs(k)) == [] then None else Some(Filter(signals, TypeIs(k)))
  {
    if signals != [] {
      var init := signals[..|signals| - 1];
      var s := signals[|signals| - 1];
      GroupedIsFilter(init, k);
      var g := Grouped(init);
      assert signals == init + [s];
      FilterAppend(init, s, TypeIs(k));
      if s.signalType == k {
        LookupPutSame(g, k, LookupOr(g, k, []) + [s]);
      } else {
        assert !TypeIs(k)(s);
        assert Filter(signals, TypeIs(k)) == Filter(init, TypeIs(k));
        assert Grouped(signals) == Put(g, s.signalType, LookupOr(g, s.signalType, []) + [s]);
        LookupPutOther(g, s.signalType, LookupOr(g, s.signalType, []) + [s], k);
      }
    }
  }

  /** `group_by_type`: filling the dict in place. */
  method GroupByType(signals: seq<Signal>) returns (grouped: seq<(SignalType, seq<Signal>)>)
    ensures grouped == Grouped(signals)
  {
    grouped := [];
    var i := 0;
    while i < |signals|
      invariant 0 <= i <= |signals|
      invariant grouped == Grouped(signals[..i])
    {
      assert signals[..i + 1][..i] == signals[..i];
      var s := signals[i];
      var existing: seq<Signal> := [];
      match Lookup(grouped, s.signalType) {
        case Some(v) => existing := v;
        case None =>
      }
      grouped := Put(grouped, s.signalType, existing + [s]);
      i := i + 1;
    }
    assert signals[..i] == signals;
  }
}
