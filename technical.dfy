/** Technical indicators over a price history (oldest first): RSI, simple
    and exponential moving averages, the 50/200 crosses, Bollinger bands
    with the standard deviation injected, momentum, breakout, the per-ticker
    analysis record and its 0-100 technical score. */
module Technical {
  import opened Common

  // ---------------------------------------------------------------------
  // calculate_rsi

  /** `np.diff`: the change from each price to the next. */
  function Diff(p: seq<real>): (d: seq<real>)
    ensures |d| == if |p| == 0 then 0 else |p| - 1
    ensures forall i | 0 <= i < |d| :: d[i] == p[i + 1] - p[i]
  {
    if |p| == 0 then [] else seq(|p| - 1, i requires 0 <= i < |p| - 1 => p[i + 1] - p[i])
  }

  /** `np.where(deltas > 0, deltas, 0)`. */
  function Gains(d: seq<real>): (g: seq<real>)
    ensures |g| == |d|
    ensures forall i | 0 <= i < |d| :: g[i] == (if d[i] > 0.0 then d[i] else 0.0)
  {
    seq(|d|, i requires 0 <= i < |d| => if d[i] > 0.0 then d[i] else 0.0)
  }

  /** `np.where(deltas < 0, -deltas, 0)`. */
  function Losses(d: seq<real>): (l: seq<real>)
    ensures |l| == |d|
    ensures forall i | 0 <= i < |d| :: l[i] == (if d[i] < 0.0 then -d[i] else 0.0)
  {
    seq(|d|, i requires 0 <= i < |d| => if d[i] < 0.0 then -d[i] else 0.0)
  }

  lemma NonNegativeQuotient(x: real, d: real)
    requires x >= 0.0 && d > 0.0
    ensures x / d >= 0.0
  {
  }

  lemma ZeroQuotientIff(x: real, d: real)
    requires d > 0.0
    ensures x / d == 0.0 <==> x == 0.0
  {
    assert x == (x / d) * d;
  }

  /** `100 / (1 + rs)` for a non-negative `rs` lies in (0, 100]. */
  lemma ReciprocalBound(rs: real)
    requires rs >= 0.0
    ensures 0.0 < 100.0 / (1.0 + rs) <= 100.0
  {
    var q := 100.0 / (1.0 + rs);
    assert q * (1.0 + rs) == 100.0;
  }

  /** The RSI formula from the two averages. */
  function RsiOf(avgGain: real, avgLoss: real): (r: real)
    requires avgGain >= 0.0 && avgLoss >= 0.0
    ensures 0.0 <= r <= 100.0
    ensures r == 100.0 <==> avgLoss == 0.0
  {
    if avgLoss == 0.0 then 100.0
    else
      NonNegativeQuotient(avgGain, avgLoss);
      ReciprocalBound(avgGain / avgLoss);
      100.0 - 100.0 / (1.0 + avgGain / avgLoss)
  }

  /** The mean of the last `period` terms of a non-negative sequence. */
  function WindowMean(s: seq<real>, period: int): (r: real)
    requires period >= 1 && |s| >= period
    requires forall i | 0 <= i < |s| :: s[i] >= 0.0
    ensures r >= 0.0
    ensures r == 0.0 <==> forall i | |s| - period <= i < |s| :: s[i] == 0.0
  {
    var w := LastK(s, period);
    assert forall i | 0 <= i < |w| :: w[i] == s[|s| - period + i];
    SumNonNegative(w);
    SumZeroIff(w);
    ZeroQuotientIff(Sum(w), |w| as real);
    NonNegativeQuotient(Sum(w), |w| as real);
    Mean(w)
  }

  /** `calculate_rsi`: `None` without `period + 1` prices, else a value in
      [0, 100]. */
  function Rsi(prices: seq<real>, period: int): (r: Option<real>)
    requires period >= 1
    ensures r.None? <==> |prices| < period + 1
    ensures r.Some? ==> 0.0 <= r.value <= 100.0
  {
    if |prices| < period + 1 then None
    else
      var d := Diff(prices);
      Some(RsiOf(WindowMean(Gains(d), period), WindowMean(Losses(d), period)))
  }

  /** No price fell in the last `period` steps. */
  predicate NoLossIn(prices: seq<real>, period: int)
  {
    forall j | |prices| - 1 - period <= j < |prices| - 1 && 0 <= j :: prices[j] <= prices[j + 1]
  }

  /** RSI is exactly 100 when, and only when, no price fell within the
      window; otherwise it is below 100. */
  lemma RsiHundredIff(prices: seq<real>, period: int)
    requires period >= 1 && |prices| >= period + 1
    ensures Rsi(prices, period) == Some(100.0) <==> NoLossIn(prices, period)
  {
    var l := Losses(Diff(prices));
    assert forall j | |l| - period <= j < |l| :: (l[j] == 0.0 <==> prices[j] <= prices[j + 1]);
  }

  // ---------------------------------------------------------------------
  // calculate_moving_average, calculate_ema

  /** `calculate_moving_average`: the mean of the last `period` prices. */
  function Sma(prices: seq<real>, period: int): (r: Option<real>)
    requires period >= 1
    ensures r.None? <==> |prices| < period
    ensures r.Some? ==> |LastK(prices, period)| == period
  {
    if |prices| < period then None else Some(Mean(LastK(prices, period)))
  }

  /** The moving average lies between the smallest and the largest price of
      its window. */
  lemma SmaWithinWindow(prices: seq<real>, period: int)
    requires period >= 1 && |prices| >= period
    ensures var w := prices[|prices| - period..];
      SeqMin(w) <= Sma(prices, period).value <= SeqMax(w)
  {
    var w := prices[|prices| - period..];
    MeanBounds(w, SeqMin(w), SeqMax(w));
  }

  /** A constant window averages to that constant. */
  lemma SmaOfConstant(prices: seq<real>, period: int, c: real)
    requires period >= 1 && |prices| >= period
    requires forall i | |prices| - period <= i < |prices| :: prices[i] == c
    ensures Sma(prices, period) == Some(c)
  {
    var w := prices[|prices| - period..];
    MeanBounds(w, c, c);
  }

  lemma SmaExample()
    ensures Sma([100.0, 102.0, 104.0, 106.0, 108.0, 110.0, 112.0, 114.0, 116.0, 118.0], 5) == Some(114.0)
  {
    var p := [100.0, 102.0, 104.0, 106.0, 108.0, 110.0, 112.0, 114.0, 116.0, 118.0];
    var w := LastK(p, 5);
    assert w == [110.0, 112.0, 114.0, 116.0] + [118.0];
    SumAppend([110.0, 112.0, 114.0, 116.0], 118.0);
    assert [110.0, 112.0, 114.0, 116.0] == [110.0, 112.0, 114.0] + [116.0];
    SumAppend([110.0, 112.0, 114.0], 116.0);
    assert [110.0, 112.0, 114.0] == [110.0, 112.0] + [114.0];
    SumAppend([110.0, 112.0], 114.0);
    assert [110.0, 112.0] == [110.0] + [112.0];
    SumAppend([110.0], 112.0);
    assert [110.0] == [] + [110.0];
    SumAppend([], 110.0);
  }

  /** `2 / (period + 1)`, in (0, 1] for a period of at least one. */
  function Multiplier(period: int): (m: real)
    requires period >= 1
    ensures 0.0 < m <= 1.0
  {
    var d := (period + 1) as real;
    assert 2.0 / d * d == 2.0;
    2.0 / d
  }

  /** The EMA recurrence seeded with the first price. */
  function EmaOf(s: seq<real>, m: real): real
    requires |s| >= 1
  {
    if |s| == 1 then s[0]
    else s[|s| - 1] * m + EmaOf(s[..|s| - 1], m) * (1.0 - m)
  }

  /** `calculate_ema`, as a value. */
  function Ema(prices: seq<real>, period: int): (r: Option<real>)
    requires period >= 1
    ensures r.None? <==> |prices| < period
  {
    if |prices| < period then None else Some(EmaOf(prices, Multiplier(period)))
  }

  /** `calculate_ema`: the update loop over `prices[1:]`. */
  method CalculateEma(prices: seq<real>, period: int) returns (r: Option<real>)
    requires period >= 1
    ensures r == Ema(prices, period)
  {
    if |prices| < period {
      return None;
    }
    var multiplier := 2.0 / (period + 1) as real;
    var ema := prices[0];
    var i := 1;
    while i < |prices|
      invariant 1 <= i <= |prices|
      invariant multiplier == Multiplier(period)
      invariant ema == EmaOf(prices[..i], multiplier)
    {
      assert prices[..i + 1][..i] == prices[..i];
      ema := prices[i] * multiplier + ema * (1.0 - multiplier);
      i := i + 1;
    }
    assert prices[..i] == prices;
    return Some(ema);
  }

  /** One convex step keeps the value between the bounds. */
  lemma ConvexStep(x: real, e: real, m: real, lo: real, hi: real)
    requires 0.0 < m <= 1.0
    requires lo <= x <= hi && lo <= e <= hi
    ensures lo <= x * m + e * (1.0 - m) <= hi
  {
    ProductNonNegative(x - lo, m);
    ProductNonNegative(e - lo, 1.0 - m);
    ProductNonNegative(hi - x, m);
    ProductNonNegative(hi - e, 1.0 - m);
  }

  lemma ProductNonNegative(a: real, b: real)
    requires a >= 0.0 && b >= 0.0
    ensures a * b >= 0.0
  {
  }

  lemma {:induction false} EmaOfBetween(s: seq<real>, m: real, lo: real, hi: real)
    requires |s| >= 1 && 0.0 < m <= 1.0
    requires forall i | 0 <= i < |s| :: lo <= s[i] <= hi
    ensures lo <= EmaOf(s, m) <= hi
  {
    if |s| > 1 {
      EmaOfBetween(s[..|s| - 1], m, lo, hi);
      ConvexStep(s[|s| - 1], EmaOf(s[..|s| - 1], m), m, lo, hi);
    }
  }

  /** The EMA lies between the lowest and the highest price. */
  lemma EmaBounds(prices: seq<real>, period: int)
    requires period >= 1 && |prices| >= period
    ensures SeqMin(prices) <= Ema(prices, period).value <= SeqMax(prices)
  {
    EmaOfBetween(prices, Multiplier(period), SeqMin(prices), SeqMax(prices));
  }

  // ---------------------------------------------------------------------
  // detect_golden_cross, detect_death_cross

  /** The four averages both crosses compare: the 50- and 200-day averages
      today and one day earlier. */
  datatype CrossAverages = CrossAverages(cur50: real, cur200: real, prev50: real, prev200: real)

  /** The averages, or `None` when any of them is missing. With exactly 200
      prices `prices[-201:-1]` holds only 199 of them, so the crosses need
      201. */
  function Averages(prices: seq<real>): (r: Option<CrossAverages>)
    ensures r.Some? <==> |prices| >= 201
    ensures r.Some? ==>
      var n := |prices|;
      r.value == CrossAverages(Mean(prices[n - 50..]), Mean(prices[n - 200..]),
                               Mean(prices[n - 51..n - 1]), Mean(prices[n - 201..n - 1]))
  {
    if |prices| < 200 then None
    else
      var c50 := Sma(LastK(prices, 50), 50);
      var c200 := Sma(LastK(prices, 200), 200);
      var p50 := Sma(LastKButOne(prices, 51), 50);
      var p200 := Sma(LastKButOne(prices, 201), 200);
      SmaOfWhole(LastK(prices, 50), 50);
      SmaOfWhole(LastK(prices, 200), 200);
      SmaOfWhole(LastKButOne(prices, 51), 50);
      if c50.None? || c200.None? || p50.None? || p200.None? then None
      else Some(CrossAverages(c50.value, c200.value, p50.value, p200.value))
  }

  lemma SmaOfWhole(s: seq<real>, period: int)
    requires period >= 1 && |s| == period
    ensures Sma(s, period) == Some(Mean(s))
  {
    assert LastK(s, period) == s;
  }

  /** `detect_golden_cross`: the 50-day average rises through the 200-day one. */
  predicate GoldenCross(prices: seq<real>)
  {
    match Averages(prices)
    case None => false
    case Some(a) => a.prev50 <= a.prev200 && a.cur50 > a.cur200
  }

  /** `detect_death_cross`: the 50-day average falls through the 200-day one. */
  predicate DeathCross(prices: seq<real>)
  {
    match Averages(prices)
    case None => false
    case Some(a) => a.prev50 >= a.prev200 && a.cur50 < a.cur200
  }

  /** Neither cross is seen on 200 prices or fewer, and never both at once. */
  lemma CrossesExclusive(prices: seq<real>)
    ensures |prices| <= 200 ==> !GoldenCross(prices) && !DeathCross(prices)
    ensures !(GoldenCross(prices) && DeathCross(prices))
  {
  }

  /** A golden cross is exactly a non-positive gap yesterday turning positive
      today (and a death cross the mirror image). */
  lemma CrossesByGap(prices: seq<real>)
    requires |prices| >= 201
    ensures var n := |prices|;
      var gapNow := Mean(prices[n - 50..]) - Mean(prices[n - 200..]);
      var gapBefore := Mean(prices[n - 51..n - 1]) - Mean(prices[n - 201..n - 1]);
      (GoldenCross(prices) <==> gapBefore <= 0.0 && gapNow > 0.0) &&
      (DeathCross(prices) <==> gapBefore >= 0.0 && gapNow < 0.0)
  {
  }

  // ---------------------------------------------------------------------
  // calculate_bollinger_bands, np.std injected

  datatype Bands = Bands(upper: real, middle: real, lower: real, current: real, position: real, width: real)

  /** `calculate_bollinger_bands` with `k` standard deviations. */
  function Bollinger(prices: seq<real>, period: int, k: real, std: seq<real> -> real): (r: Option<Bands>)
    requires period >= 1
    ensures r.None? <==> |prices| < period
    ensures r.Some? ==> r.value.middle == Mean(prices[|prices| - period..])
    ensures r.Some? ==> r.value.current == prices[|prices| - 1]
    ensures r.Some? ==> r.value.width == r.value.upper - r.value.lower
    ensures r.Some? && k >= 0.0 && StdNonNegative(std) ==>
      r.value.lower <= r.value.middle <= r.value.upper
    ensures r.Some? && r.value.upper == r.value.lower ==> r.value.position == 0.5
    ensures r.Some? && r.value.upper != r.value.lower ==>
      r.value.position * r.value.width == r.value.current - r.value.lower
  {
    if |prices| < period then None
    else
      var recent := LastK(prices, period);
      var middle := Mean(recent);
      var sd := std(recent);
      var upper := middle + k * sd;
      var lower := middle - k * sd;
      var current := prices[|prices| - 1];
      var position := if upper != lower then (current - lower) / (upper - lower) else 0.5;
      Some(Bands(upper, middle, lower, current, position, upper - lower))
  }

  // ---------------------------------------------------------------------
  // calculate_price_momentum, detect_breakout

  /** `calculate_price_momentum`: the percentage change over `period` steps. */
  function Momentum(prices: seq<real>, period: int): (r: Option<real>)
    requires period >= 0
    ensures r.None? <==> |prices| < period + 1 || prices[|prices| - period - 1] == 0.0
  {
    if |prices| < period + 1 then None
    else
      var past := prices[|prices| - period - 1];
      if past == 0.0 then None else Some((prices[|prices| - 1] - past) / past * 100.0)
  }

  lemma PercentSign(x: real, d: real)
    requires d > 0.0
    ensures x / d * 100.0 > 0.0 <==> x > 0.0
    ensures x / d * 100.0 < 0.0 <==> x < 0.0
  {
    assert x == (x / d) * d;
  }

  /** From a positive old price, momentum has the sign of the price change. */
  lemma MomentumSign(prices: seq<real>, period: int)
    requires period >= 0 && |prices| >= period + 1
    requires prices[|prices| - period - 1] > 0.0
    ensures var m := Momentum(prices, period).value;
      var change := prices[|prices| - 1] - prices[|prices| - period - 1];
      (m > 0.0 <==> change > 0.0) && (m < 0.0 <==> change < 0.0) && (m == 0.0 <==> change == 0.0)
  {
    PercentSign(prices[|prices| - 1] - prices[|prices| - period - 1], prices[|prices| - period - 1]);
  }

  /** `detect_breakout`: the last price reaches `threshold` times the highest
      of the `period` prices before it. */
  predicate Breakout(prices: seq<real>, period: int, threshold: real)
    requires period >= 1
  {
    if |prices| < period + 1 then false
    else prices[|prices| - 1] >= SeqMax(LastKButOne(prices, period + 1)) * threshold
  }

  /** What breakout compares, stated on the window itself. */
  lemma BreakoutIff(prices: seq<real>, period: int, threshold: real)
    requires period >= 1
    ensures Breakout(prices, period, threshold) <==>
      |prices| >= period + 1 &&
      prices[|prices| - 1] >= SeqMax(prices[|prices| - period - 1..|prices| - 1]) * threshold
  {
    if |prices| >= period + 1 {
      assert LastKButOne(prices, period + 1) == prices[|prices| - period - 1..|prices| - 1];
    }
  }

  /** Over a flat window at `c`, breakout is the last price reaching
      `c * threshold`. */
  lemma BreakoutOverFlatWindow(prices: seq<real>, period: int, threshold: real, c: real)
    requires period >= 1 && |prices| >= period + 1
    requires forall i | |prices| - period - 1 <= i < |prices| - 1 :: prices[i] == c
    ensures Breakout(prices, period, threshold) <==> prices[|prices| - 1] >= c * threshold
  {
    var w := LastKButOne(prices, period + 1);
    assert w[0] == c;
    assert forall i | 0 <= i < |w| :: w[i] == prices[|prices| - period - 1 + i];
    assert SeqMax(w) == c;
  }

  lemma BreakoutExamples()
    ensures Breakout(seq(20, _ => 100.0) + [105.0], 20, 1.02)
    ensures !Breakout(seq(21, _ => 100.0), 20, 1.02)
  {
    var up := seq(20, _ => 100.0) + [105.0];
    BreakoutOverFlatWindow(up, 20, 1.02, 100.0);
    BreakoutOverFlatWindow(seq(21, _ => 100.0), 20, 1.02, 100.0);
  }

  // ---------------------------------------------------------------------
  // TechnicalAnalyzer.analyze_ticker, price history injected

  datatype Signal = Oversold | Overbought | Neutral

  /** The analysis record; the ticker and the `analyzed_at` timestamp are
      not modelled. */
  datatype Analysis = Analysis(
    currentPrice: real,
    rsi14: Option<real>,
    momentum10d: Option<real>,
    ma20: Option<real>,
    ma50: Option<real>,
    ema12: Option<real>,
    bollinger: Option<Bands>,
    breakout: bool,
    rsiSignal: Option<Signal>,
    bbSignal: Option<Signal>)

  predicate IsPositivePrice(p: real) { p > 0.0 }

  /** `rsi_signal`, added only when the RSI is truthy: a missing RSI and an
      RSI of exactly 0.0 both leave it out. */
  function RsiSignal(rsi: Option<real>): (r: Option<Signal>)
    ensures r.None? <==> rsi.None? || rsi.value == 0.0
    ensures r == Some(Oversold) <==> rsi.Some? && rsi.value != 0.0 && rsi.value < 30.0
    ensures r == Some(Overbought) <==> rsi.Some? && rsi.value > 70.0
  {
    if rsi.None? || rsi.value == 0.0 then None
    else if rsi.value < 30.0 then Some(Oversold)
    else if rsi.value > 70.0 then Some(Overbought)
    else Some(Neutral)
  }

  /** `bb_signal` from the band position. */
  function BandSignal(b: Option<Bands>): (r: Option<Signal>)
    ensures r.None? <==> b.None?
    ensures r == Some(Oversold) <==> b.Some? && b.value.position < 0.2
    ensures r == Some(Overbought) <==> b.Some? && b.value.position > 0.8
  {
    match b
    case None => None
    case Some(bb) =>
      if bb.position < 0.2 then Some(Oversold)
      else if bb.position > 0.8 then Some(Overbought)
      else Some(Neutral)
  }

  /** The analysis of a list of positive prices with at least five entries. */
  function AnalyzePrices(prices: seq<real>, std: seq<real> -> real): (r: Analysis)
    requires |prices| >= 5
    ensures r.currentPrice == prices[|prices| - 1]
    ensures r.rsi14.Some? <==> |prices| >= 15
    ensures r.ma50.Some? <==> |prices| >= 50
  {
    var rsi := Rsi(prices, 14);
    var bb := Bollinger(prices, 20, 2.0, std);
    Analysis(prices[|prices| - 1], rsi, Momentum(prices, 10), Sma(prices, 20),
             if |prices| >= 50 then Sma(prices, 50) else None, Ema(prices, 12),
             bb, Breakout(prices, 20, 1.02), RsiSignal(rsi), BandSignal(bb))
  }

  /** `analyze_ticker` over the stored price history: empty (`None`) for an
      empty history or fewer than five positive prices; only the positive
      prices are used. */
  function AnalyzeTicker(history: seq<real>, std: seq<real> -> real): (r: Option<Analysis>)
    ensures r.Some? <==> |Filter(history, IsPositivePrice)| >= 5
    ensures r.Some? ==> r.value.currentPrice > 0.0
  {
    if |history| == 0 then None
    else
      var prices := Filter(history, IsPositivePrice);
      if |prices| < 5 then None
      else
        FilterMembers(history, IsPositivePrice, prices[|prices| - 1]);
        Some(AnalyzePrices(prices, std))
  }

  /** Dropping the non-positive prices beforehand changes nothing. */
  lemma AnalyzeTickerIgnoresNonPositive(history: seq<real>, std: seq<real> -> real)
    ensures AnalyzeTicker(Filter(history, IsPositivePrice), std) == AnalyzeTicker(history, std)
  {
    var prices := Filter(history, IsPositivePrice);
    forall i | 0 <= i < |prices|
      ensures IsPositivePrice(prices[i])
    {
      FilterMembers(history, IsPositivePrice, prices[i]);
    }
    FilterAll(prices, IsPositivePrice);
  }

  // ---------------------------------------------------------------------
  // TechnicalAnalyzer.get_technical_score

  function RsiPoints(rsi: Option<real>): real
  {
    match rsi
    case None => 0.0
    case Some(v) =>
      if v < 30.0 then 15.0
      else if v > 70.0 then -15.0
      else if 40.0 <= v <= 60.0 then 5.0
      else 0.0
  }

  function MomentumPoints(momentum: Option<real>): real
  {
    match momentum
    case None => 0.0
    case Some(v) =>
      if v > 10.0 then 20.0
      else if v > 5.0 then 10.0
      else if v < -10.0 then -20.0
      else if v < -5.0 then -10.0
      else 0.0
  }

  function BandPoints(b: Option<Bands>): real
  {
    match b
    case None => 0.0
    case Some(bb) =>
      if bb.position < 0.2 then 10.0 else if bb.position > 0.8 then -10.0 else 0.0
  }

  /** The score before the clamp: 50 plus each indicator's points. */
  function RawTechnicalScore(a: Analysis): (r: real)
    ensures 5.0 <= r <= 110.0
  {
    50.0 + RsiPoints(a.rsi14) + MomentumPoints(a.momentum10d) + BandPoints(a.bollinger)
      + (if a.breakout then 15.0 else 0.0)
  }

  /** `get_technical_score`: 0 for an empty analysis, otherwise the raw
      score capped at 100 (it is never below 5, so the floor at 0 never
      applies). */
  function TechnicalScore(a: Option<Analysis>): (r: real)
    ensures 0.0 <= r <= 100.0
    ensures a.None? ==> r == 0.0
    ensures a.Some? ==> r == (if RawTechnicalScore(a.value) > 100.0 then 100.0 else RawTechnicalScore(a.value))
  {
    match a
    case None => 0.0
    case Some(x) =>
      var s := RawTechnicalScore(x);
      if s > 100.0 then 100.0 else if s < 0.0 then 0.0 else s
  }

  /** A breakout never lowers the technical score. */
  lemma BreakoutRaisesScore(a: Analysis)
    ensures TechnicalScore(Some(a.(breakout := false))) <= TechnicalScore(Some(a.(breakout := true)))
  {
  }

  /** `get_technical_score`, adjusting the score step by step. */
  method GetTechnicalScore(analysis: Option<Analysis>) returns (score: real)
    ensures score == TechnicalScore(analysis)
  {
    if analysis.None? {
      return 0.0;
    }
    var a := analysis.value;
    score := 50.0;
    if a.rsi14.Some? {
      var rsi := a.rsi14.value;
      if rsi < 30.0 {
        score := score + 15.0;
      } else if rsi > 70.0 {
        score := score - 15.0;
      } else if 40.0 <= rsi <= 60.0 {
        score := score + 5.0;
      }
    }
    assert score == 50.0 + RsiPoints(a.rsi14);
    if a.momentum10d.Some? {
      var m := a.momentum10d.value;
      if m > 10.0 {
        score := score + 20.0;
      } else if m > 5.0 {
        score := score + 10.0;
      } else if m < -10.0 {
        score := score - 20.0;
      } else if m < -5.0 {
        score := score - 10.0;
      }
    }
    if a.bollinger.Some? {
      if a.bollinger.value.position < 0.2 {
        score := score + 10.0;
      } else if a.bollinger.value.position > 0.8 {
        score := score - 10.0;
      }
    }
    if a.breakout {
      score := score + 15.0;
    }
    score := if score > 100.0 then 100.0 else if score < 0.0 then 0.0 else score;
  }
}
