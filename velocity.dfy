/** Velocity metrics over a ticker's social and price history: the
    percentage change in mentions, the least-squares trend of mention counts,
    the smoothed gradient of sentiment, the normalised volume/price
    divergence and the weighted composite score, plus the calculator that
    combines them per ticker. `exp` and `np.std` are parameters. */
module Velocity {
  import opened Common
  import opened Dates

  // ---------------------------------------------------------------------
  // mention_velocity_pct

  /** Percentage change from `previous` to `current` mentions; a zero
      baseline gives 0 (nothing to nothing) or 100 (something from nothing). */
  function MentionVelocityPct(current: int, previous: int): (r: real)
    ensures previous == 0 ==> r == (if current == 0 then 0.0 else 100.0)
    ensures previous != 0 ==> previous as real * (1.0 + r / 100.0) == current as real
  {
    if previous == 0 then (if current == 0 then 0.0 else 100.0)
    else ((current - previous) as real / previous as real) * 100.0
  }

  /** With a positive baseline the sign of the velocity is the sign of the
      change. */
  lemma MentionVelocitySign(current: int, previous: int)
    requires previous > 0
    ensures MentionVelocityPct(current, previous) > 0.0 <==> current > previous
    ensures MentionVelocityPct(current, previous) < 0.0 <==> current < previous
    ensures MentionVelocityPct(current, previous) == 0.0 <==> current == previous
  {
    var r := MentionVelocityPct(current, previous);
    assert previous as real * (1.0 + r / 100.0) == current as real;
  }

  lemma MentionVelocityExamples()
    ensures MentionVelocityPct(200, 100) == 100.0
    ensures MentionVelocityPct(50, 100) == -50.0
    ensures MentionVelocityPct(1000, 10) == 9900.0
    ensures MentionVelocityPct(0, 0) == 0.0
    ensures MentionVelocityPct(7, 0) == 100.0
  {
  }

  // ---------------------------------------------------------------------
  // mention_velocity_trend: the slope numpy's degree-1 polyfit returns

  /** 0 + 1 + ... + (n-1). */
  function IndexSum(n: nat): real
  {
    if n == 0 then 0.0 else IndexSum(n - 1) + (n - 1) as real
  }
  /** 0² + 1² + ... + (n-1)². */
  function IndexSquareSum(n: nat): real
  {
    if n == 0 then 0.0 else IndexSquareSum(n - 1) + (n - 1) as real * (n - 1) as real
  }
  /** Σ i·y[i]. */
  function WeightedSum(y: seq<real>): real
  {
    if y == [] then 0.0 else WeightedSum(y[..|y| - 1]) + (|y| - 1) as real * y[|y| - 1]
  }
  lemma {:induction false} IndexSumClosed(n: nat)
    ensures 2.0 * IndexSum(n) == n as real * (n as real - 1.0)
  {
    if n > 0 {
      IndexSumClosed(n - 1);
      var x := n as real;
      assert (x - 1.0) * (x - 2.0) + 2.0 * (x - 1.0) == x * (x - 1.0);
    }
  }
  lemma {:induction false} IndexSquareSumClosed(n: nat)
    ensures 6.0 * IndexSquareSum(n) == (n as real - 1.0) * n as real * (2.0 * n as real - 1.0)
  {
    if n > 0 {
      IndexSquareSumClosed(n - 1);
      SquareStep((n - 1) as real);
    }
  }
  lemma SquareStep(m: real)
    ensures (m - 1.0) * m * (2.0 * m - 1.0) + 6.0 * (m * m) == m * (m + 1.0) * (2.0 * m + 1.0)
  {
    assert (m - 1.0) * m * (2.0 * m - 1.0) == 2.0 * m * m * m - 3.0 * m * m + m;
    assert m * (m + 1.0) * (2.0 * m + 1.0) == 2.0 * m * m * m + 3.0 * m * m + m;
  }
  /** The least-squares denominator `n·Σx² − (Σx)²` for `x = 0..n-1` is
      `n²(n²−1)/12`, positive from two points on. */
  lemma DenominatorIdentity(x: real, a: real, b: real)
    requires x >= 2.0
    requires 2.0 * a == x * (x - 1.0)
    requires 6.0 * b == (x - 1.0) * x * (2.0 * x - 1.0)
    ensures 12.0 * (x * b - a * a) == x * x * (x * x - 1.0)
    ensures x * b - a * a > 0.0
  {
    var p := x * (x - 1.0);
    assert 12.0 * (x * b) == 2.0 * x * (6.0 * b);
    assert 12.0 * (a * a) == 3.0 * ((2.0 * a) * (2.0 * a));
    assert 2.0 * x * (6.0 * b) == 2.0 * x * ((x - 1.0) * x * (2.0 * x - 1.0));
    assert 3.0 * ((2.0 * a) * (2.0 * a)) == 3.0 * (p * p);
    assert 2.0 * x * ((x - 1.0) * x * (2.0 * x - 1.0)) - 3.0 * (p * p) == x * x * (x * x - 1.0);
    assert x * x >= 4.0;
    assert x * x * (x * x - 1.0) >= 4.0 * 3.0;
  }
  /** The sums of a series lying on the line `a + b·i`. */
  lemma {:induction false} LineSum(y: seq<real>, a: real, b: real)
    requires forall i | 0 <= i < |y| :: y[i] == a + b * i as real
    ensures Sum(y) == |y| as real * a + b * IndexSum(|y|)
  {
    if y != [] {
      var n := |y|;
      var init := y[..n - 1];
      LineSum(init, a, b);
      var k := (n - 1) as real;
      assert y[n - 1] == a + b * k;
      assert Sum(y) == Sum(init) + y[n - 1];
      LineStep(k, a, b, Sum(init), IndexSum(n - 1));
    }
  }
  lemma LineStep(k: real, a: real, b: real, s0: real, sx0: real)
    requires s0 == k * a + b * sx0
    ensures s0 + (a + b * k) == (k + 1.0) * a + b * (sx0 + k)
  {
  }
  lemma {:induction false} LineWeightedSum(y: seq<real>, a: real, b: real)
    requires forall i | 0 <= i < |y| :: y[i] == a + b * i as real
    ensures WeightedSum(y) == a * IndexSum(|y|) + b * IndexSquareSum(|y|)
  {
    if y != [] {
      var n := |y|;
      var init := y[..n - 1];
      LineWeightedSum(init, a, b);
      var k := (n - 1) as real;
      assert y[n - 1] == a + b * k;
      assert WeightedSum(y) == WeightedSum(init) + k * y[n - 1];
      WeightedStep(k, a, b, WeightedSum(init), IndexSum(n - 1), IndexSquareSum(n - 1));
    }
  }
  lemma WeightedStep(k: real, a: real, b: real, w0: real, sx0: real, sxx0: real)
    requires w0 == a * sx0 + b * sxx0
    ensures w0 + k * (a + b * k) == a * (sx0 + k) + b * (sxx0 + k * k)
  {
  }

  lemma SlopeDenominator(n: nat)
    requires n >= 2
    ensures n as real * IndexSquareSum(n) - IndexSum(n) * IndexSum(n) > 0.0
  {
    IndexSumClosed(n);
    IndexSquareSumClosed(n);
    DenominatorIdentity(n as real, IndexSum(n), IndexSquareSum(n));
  }

  /** The least-squares slope of `y` against `0..|y|-1`:
      `(n·Σxy − Σx·Σy) / (n·Σx² − (Σx)²)`. */
  function Slope(y: seq<real>): real
    requires |y| >= 2
  {
    SlopeFromSums(|y| as real, WeightedSum(y), Sum(y), IndexSum(|y|), IndexSquareSum(|y|))
  }

  /** The least-squares formula from the sums Σxy, Σy, Σx and Σx²; the
      denominator is never zero for two points or more (`SlopeDenominator`). */
  function SlopeFromSums(n: real, sxy: real, sy: real, sx: real, sxx: real): real
  {
    var d := n * sxx - sx * sx;
    if d == 0.0 then 0.0 else (n * sxy - sx * sy) / d
  }

  /** The slope is exactly least squares: a series on the line `a + b·i`
      has slope `b`. */
  lemma SlopeOfLine(y: seq<real>, a: real, b: real)
    requires |y| >= 2
    requires forall i | 0 <= i < |y| :: y[i] == a + b * i as real
    ensures Slope(y) == b
  {
    LineSums(y, a, b);
    SlopeOfLineSums(y, a, b, WeightedSum(y), Sum(y));
  }

  lemma LineSums(y: seq<real>, a: real, b: real)
    requires forall i | 0 <= i < |y| :: y[i] == a + b * i as real
    ensures WeightedSum(y) == a * IndexSum(|y|) + b * IndexSquareSum(|y|)
    ensures Sum(y) == |y| as real * a + b * IndexSum(|y|)
  {
    LineSum(y, a, b);
    LineWeightedSum(y, a, b);
  }

  /** A series whose sums `w = Σ i·y[i]` and `t = Σ y[i]` are those of the
      line `a + b·i` has slope `b`. */
  lemma SlopeOfLineSums(y: seq<real>, a: real, b: real, w: real, t: real)
    requires |y| >= 2
    requires w == WeightedSum(y) && t == Sum(y)
    requires w == a * IndexSum(|y|) + b * IndexSquareSum(|y|)
    requires t == |y| as real * a + b * IndexSum(|y|)
    ensures Slope(y) == b
  {
    SlopeOfSums(|y|, a, b, w, t);
  }

  lemma SlopeOfSums(n: nat, a: real, b: real, w: real, t: real)
    requires n >= 2
    requires w == a * IndexSum(n) + b * IndexSquareSum(n)
    requires t == n as real * a + b * IndexSum(n)
    ensures SlopeFromSums(n as real, w, t, IndexSum(n), IndexSquareSum(n)) == b
  {
    SlopeDenominator(n);
    SlopeAlgebra(n as real, a, b, IndexSum(n), IndexSquareSum(n), w, t);
  }

  lemma SlopeAlgebra(n: real, a: real, b: real, sx: real, sxx: real, w: real, t: real)
    requires n * sxx - sx * sx > 0.0
    requires w == a * sx + b * sxx && t == n * a + b * sx
    ensures SlopeFromSums(n, w, t, sx, sxx) == b
  {
    assert n * w - sx * t == b * (n * sxx - sx * sx);
  }

  /** A flat series has no trend. */
  lemma SlopeOfConstant(y: seq<real>, c: real)
    requires |y| >= 2
    requires forall i | 0 <= i < |y| :: y[i] == c
    ensures Slope(y) == 0.0
  {
    SlopeOfLine(y, c, 0.0);
  }

  /** A mention-history point: timestamp and mention count. */
  type MentionPoint = (Instant, int)

  function AtOrAfter(cutoff: Instant): MentionPoint -> bool
  {
    (p: MentionPoint) => p.0 >= cutoff
  }

  function AtOrBefore(cutoff: Instant): MentionPoint -> bool
  {
    (p: MentionPoint) => p.0 <= cutoff
  }

  function Counts(h: seq<MentionPoint>): (r: seq<real>)
    ensures |r| == |h|
    ensures forall i | 0 <= i < |h| :: r[i] == h[i].1 as real
  {
    seq(|h|, i requires 0 <= i < |h| => h[i].1 as real)
  }

  /** Points of the last `windowDays` days before `now`. */
  function RecentPoints(h: seq<MentionPoint>, windowDays: int, now: Instant): seq<MentionPoint>
  {
    Filter(h, AtOrAfter(AddDays(now, -windowDays)))
  }

  /** `mention_velocity_trend`: 0 with fewer than two points in all or in
      the window, otherwise the least-squares slope of the windowed counts. */
  function MentionVelocityTrend(h: seq<MentionPoint>, windowDays: int, now: Instant): (r: real)
    ensures |h| < 2 ==> r == 0.0
    ensures |RecentPoints(h, windowDays, now)| < 2 ==> r == 0.0
    ensures |RecentPoints(h, windowDays, now)| >= 2 ==> r == Slope(Counts(RecentPoints(h, windowDays, now)))
  {
    if |h| < 2 then 0.0
    else
      var recent := RecentPoints(h, windowDays, now);
      if |recent| < 2 then 0.0 else Slope(Counts(recent))
  }

  // ---------------------------------------------------------------------
  // sentiment_velocity

  /** `np.gradient`: one-sided differences at the ends, central differences
      inside. */
  function Gradient(s: seq<real>): (g: seq<real>)
    requires |s| >= 2
    ensures |g| == |s|
  {
    seq(|s|, i requires 0 <= i < |s| =>
      if i == 0 then s[1] - s[0]
      else if i == |s| - 1 then s[|s| - 1] - s[|s| - 2]
      else (s[i + 1] - s[i - 1]) / 2.0)
  }

  /** `sentiment_velocity`: 0 for fewer than two scores; the mean gradient
      when the series is shorter than the window; otherwise the last value
      of the moving average of width `window` over the gradient (the mean of
      its last `window` values). A window below 1 makes numpy raise, so it
      is excluded whenever the series has two scores or more. */
  function SentimentVelocity(s: seq<real>, window: int): (r: real)
    requires |s| < 2 || window >= 1
    ensures |s| < 2 ==> r == 0.0
  {
    if |s| < 2 then 0.0
    else
      var g := Gradient(s);
      if |g| < window then Mean(g) else Mean(g[|g| - window..])
  }

  predicate StrictlyIncreasing(s: seq<real>)
  {
    forall i | 0 <= i < |s| - 1 :: s[i] < s[i + 1]
  }

  predicate StrictlyDecreasing(s: seq<real>)
  {
    forall i | 0 <= i < |s| - 1 :: s[i] > s[i + 1]
  }

  /** The part of the gradient the velocity averages: a non-empty suffix. */
  function Averaged(s: seq<real>, window: int): (g: seq<real>)
    requires |s| >= 2 && window >= 1
    ensures 0 < |g| <= |s|
    ensures g == Gradient(s)[|s| - |g|..]
    ensures SentimentVelocity(s, window) == Sum(g) / |g| as real
  {
    var g := Gradient(s);
    if |g| < window then g else g[|g| - window..]
  }

  /** A rising series has positive sentiment velocity. */
  lemma SentimentVelocityIncreasing(s: seq<real>, window: int)
    requires |s| >= 2 && window >= 1
    requires StrictlyIncreasing(s)
    ensures SentimentVelocity(s, window) > 0.0
  {
    GradientPositive(s);
    var grad := Gradient(s);
    var g := Averaged(s, window);
    assert forall j | 0 <= j < |g| :: g[j] == grad[|s| - |g| + j];
    SumPositive(g);
    PositiveQuotient(Sum(g), |g| as real);
  }

  lemma GradientPositive(s: seq<real>)
    requires |s| >= 2 && StrictlyIncreasing(s)
    ensures forall i | 0 <= i < |s| :: Gradient(s)[i] > 0.0
  {
    forall i | 0 <= i < |s|
      ensures Gradient(s)[i] > 0.0
    {
      if 0 < i < |s| - 1 {
        assert s[i - 1] < s[i] && s[i] < s[i + 1];
      }
    }
  }

  lemma PositiveQuotient(x: real, d: real)
    requires x > 0.0 && d > 0.0
    ensures x / d > 0.0
  {
  }

  /** A falling series has negative sentiment velocity. */
  lemma SentimentVelocityDecreasing(s: seq<real>, window: int)
    requires |s| >= 2 && window >= 1
    requires StrictlyDecreasing(s)
    ensures SentimentVelocity(s, window) < 0.0
  {
    GradientNegative(s);
    var grad := Gradient(s);
    var g := Averaged(s, window);
    assert forall j | 0 <= j < |g| :: g[j] == grad[|s| - |g| + j];
    SumNegative(g);
    NegativeQuotient(Sum(g), |g| as real);
  }

  lemma GradientNegative(s: seq<real>)
    requires |s| >= 2 && StrictlyDecreasing(s)
    ensures forall i | 0 <= i < |s| :: Gradient(s)[i] < 0.0
  {
    forall i | 0 <= i < |s|
      ensures Gradient(s)[i] < 0.0
    {
      if 0 < i < |s| - 1 {
        assert s[i - 1] > s[i] && s[i] > s[i + 1];
      }
    }
  }

  lemma NegativeQuotient(x: real, d: real)
    requires x < 0.0 && d > 0.0
    ensures x / d < 0.0
  {
  }

  /** A constant series has zero sentiment velocity. */
  lemma SentimentVelocityConstant(s: seq<real>, window: int, c: real)
    requires |s| < 2 || window >= 1
    requires forall i | 0 <= i < |s| :: s[i] == c
    ensures SentimentVelocity(s, window) == 0.0
  {
    if |s| >= 2 {
      GradientOfConstant(s, c);
      var grad := Gradient(s);
      var g := Averaged(s, window);
      assert forall j | 0 <= j < |g| :: g[j] == grad[|s| - |g| + j];
      SumZero(g);
      ZeroQuotient(|g| as real);
    }
  }

  lemma GradientOfConstant(s: seq<real>, c: real)
    requires |s| >= 2
    requires forall i | 0 <= i < |s| :: s[i] == c
    ensures forall i | 0 <= i < |s| :: Gradient(s)[i] == 0.0
  {
  }

  lemma ZeroQuotient(d: real)
    requires d != 0.0
    ensures 0.0 / d == 0.0
  {
  }

  // ---------------------------------------------------------------------
  // volume_price_divergence, np.std abstracted

  /** Element-wise `a/c - b/d`. */
  function ScaledDifference(a: seq<real>, b: seq<real>, c: real, d: real): (r: seq<real>)
    requires |a| == |b| && c != 0.0 && d != 0.0
    ensures |r| == |a|
    ensures Sum(r) == Sum(a) / c - Sum(b) / d
  {
    if a == [] then []
    else
      var n := |a| - 1;
      var init := ScaledDifference(a[..n], b[..n], c, d);
      var r := init + [a[n] / c - b[n] / d];
      SumAppend(init, a[n] / c - b[n] / d);
      assert Sum(a) == Sum(a[..n]) + a[n];
      assert Sum(b) == Sum(b[..n]) + b[n];
      DivideSums(Sum(a[..n]), a[n], Sum(b[..n]), b[n], c, d);
      r
  }

  lemma DivideSums(x: real, x1: real, y: real, y1: real, c: real, d: real)
    requires c != 0.0 && d != 0.0
    ensures (x / c - y / d) + (x1 / c - y1 / d) == (x + x1) / c - (y + y1) / d
  {
    assert (x + x1) / c == x / c + x1 / c;
    assert (y + y1) / d == y / d + y1 / d;
  }

  /** `volume_price_divergence`: 0 for series of different or zero length,
      otherwise the mean of the std-normalised mention changes minus the
      std-normalised price changes; by linearity that is the difference of
      the normalised means, and identical series give 0. */
  function VolumePriceDivergence(m: seq<real>, p: seq<real>, std: seq<real> -> real): (r: real)
    requires std(m) >= 0.0 && std(p) >= 0.0
    ensures |m| != |p| || |m| == 0 ==> r == 0.0
    ensures |m| == |p| && |m| > 0 ==>
      r == (Sum(m) / (std(m) + 0.001) - Sum(p) / (std(p) + 0.001)) / |m| as real
    ensures m == p ==> r == 0.0
  {
    if |m| != |p| || |m| == 0 then 0.0
    else Mean(ScaledDifference(m, p, std(m) + 0.001, std(p) + 0.001))
  }

  // ---------------------------------------------------------------------
  // composite_score, exp abstracted

  /** `exp` is positive, which is all the code relies on. */
  ghost predicate ExpPositive(exp: real -> real)
  {
    forall z :: exp(z) > 0.0
  }

  /** `np.clip`. */
  function Clip(x: real, lo: real, hi: real): (r: real)
    requires lo <= hi
    ensures lo <= r <= hi
    ensures lo <= x <= hi ==> r == x
  {
    if x < lo then lo else if x > hi then hi else x
  }

  /** The inner `normalize`: `100 / (1 + exp(-clip(x/scale, -500, 500)))`,
      strictly between 0 and 100. */
  function Normalize(x: real, scale: real, exp: real -> real): (r: real)
    requires scale != 0.0 && ExpPositive(exp)
    ensures 0.0 < r < 100.0
  {
    var e := exp(-Clip(x / scale, -500.0, 500.0));
    assert e > 0.0;
    100.0 / (1.0 + e)
  }

  datatype Weights = Weights(mention24h: real, mention7d: real, sentiment: real, divergence: real)

  /** The weights used when none are given. */
  const DefaultWeights: Weights := Weights(0.35, 0.25, 0.25, 0.15)

  /** The weighted mix of the four normalised components. */
  function WeightedMix(w: Weights, a: real, b: real, c: real, d: real): real
  {
    w.mention24h * a + w.mention7d * b + w.sentiment * c + w.divergence * d
  }

  /** The weighted mix before the final clamp. */
  function RawComposite(m24: real, m7: real, sv: real, div: real, w: Weights, exp: real -> real): real
    requires ExpPositive(exp)
  {
    WeightedMix(w, Normalize(m24, 100.0, exp), Normalize(m7, 10.0, exp),
                Normalize(sv * 100.0, 20.0, exp), Normalize(div * 50.0, 25.0, exp))
  }

  /** `composite_score`: the weighted mix clamped to [0,100], whatever the
      inputs and weights. */
  function CompositeScore(m24: real, m7: real, sv: real, div: real, w: Weights, exp: real -> real): (r: real)
    requires ExpPositive(exp)
    ensures 0.0 <= r <= 100.0
    ensures 0.0 <= RawComposite(m24, m7, sv, div, w, exp) <= 100.0 ==> r == RawComposite(m24, m7, sv, div, w, exp)
  {
    var s := RawComposite(m24, m7, sv, div, w, exp);
    if s > 100.0 then 100.0 else if s < 0.0 then 0.0 else s
  }

  /** With non-negative weights summing to 1 (the defaults do) the clamp
      never bites: the score is the weighted mix itself. */
  lemma CompositeUnclamped(m24: real, m7: real, sv: real, div: real, w: Weights, exp: real -> real)
    requires ExpPositive(exp)
    requires w.mention24h >= 0.0 && w.mention7d >= 0.0 && w.sentiment >= 0.0 && w.divergence >= 0.0
    requires w.mention24h + w.mention7d + w.sentiment + w.divergence == 1.0
    ensures CompositeScore(m24, m7, sv, div, w, exp) == RawComposite(m24, m7, sv, div, w, exp)
  {
    MixBounds(w, Normalize(m24, 100.0, exp), Normalize(m7, 10.0, exp),
              Normalize(sv * 100.0, 20.0, exp), Normalize(div * 50.0, 25.0, exp));
  }

  /** A convex mix of four values in (0,100) stays in [0,100]. */
  lemma MixBounds(w: Weights, a: real, b: real, c: real, d: real)
    requires w.mention24h >= 0.0 && w.mention7d >= 0.0 && w.sentiment >= 0.0 && w.divergence >= 0.0
    requires w.mention24h + w.mention7d + w.sentiment + w.divergence == 1.0
    requires 0.0 < a < 100.0 && 0.0 < b < 100.0 && 0.0 < c < 100.0 && 0.0 < d < 100.0
    ensures 0.0 <= WeightedMix(w, a, b, c, d) <= 100.0
  {
    var w1, w2, w3, w4 := w.mention24h, w.mention7d, w.sentiment, w.divergence;
    MixStep(0.0, 0.0, w1, a);
    MixStep(w1 * a, w1, w2, b);
    MixStep(w1 * a + w2 * b, w1 + w2, w3, c);
    MixStep(w1 * a + w2 * b + w3 * c, w1 + w2 + w3, w4, d);
  }

  /** Adding one weighted term keeps a partial mix within 100 times its
      weight. */
  lemma MixStep(s: real, t: real, w: real, x: real)
    requires 0.0 <= s <= 100.0 * t && w >= 0.0 && 0.0 < x < 100.0
    ensures 0.0 <= s + w * x <= 100.0 * (t + w)
  {
    assert w * x <= 100.0 * w;
  }

  lemma DefaultWeightsSumToOne()
    ensures DefaultWeights.mention24h + DefaultWeights.mention7d
          + DefaultWeights.sentiment + DefaultWeights.divergence == 1.0
  {
  }

  // ---------------------------------------------------------------------
  // VelocityCalculator

  datatype VelocityMetrics = VelocityMetrics(
    mention24h: real, mention7d: real, sentimentVelocity: real, divergence: real, composite: real)

  const ZeroMetrics: VelocityMetrics := VelocityMetrics(0.0, 0.0, 0.0, 0.0, 0.0)

  /** What the database returns for one ticker over seven days: mention
      points, sentiment scores and price rows (each row's `price` entry). */
  datatype TickerHistory = TickerHistory(
    mentions: seq<MentionPoint>, sentiments: seq<real>, prices: seq<Field<real>>)

  /** The 24-hour velocity: the latest count against the last count at
      least a day old, 0 with fewer than two points or no such count. */
  function Velocity24h(h: seq<MentionPoint>, now: Instant): real
  {
    if |h| >= 2 then
      var prev := Filter(h, AtOrBefore(now - 86400));
      if prev != [] then MentionVelocityPct(h[|h| - 1].1, prev[|prev| - 1].1) else 0.0
    else 0.0
  }

  /** Mention changes between consecutive points. */
  function MentionChanges(h: seq<MentionPoint>): (r: seq<real>)
    ensures |h| >= 2 ==> |r| == |h| - 1
    ensures |h| < 2 ==> r == []
    ensures forall i | 0 <= i < |r| :: r[i] == MentionVelocityPct(h[i + 1].1, h[i].1)
  {
    if |h| < 2 then [] else seq(|h| - 1, i requires 0 <= i < |h| - 1 => MentionVelocityPct(h[i + 1].1, h[i].1))
  }

  /** The price change recorded between row `k-1` and row `k`, if any:
      rows whose previous price is None or not positive are skipped, and a
      None current price after a usable previous one is the TypeError that
      `None - prev` raises (`Err`). */
  datatype Step = Skip | Change(pct: real) | Err

  function PriceStep(prev: Field<real>, curr: Field<real>): Step
  {
    var p := GetOr(prev, 0.0);
    var c := GetOr(curr, 0.0);
    if p.Some? && p.value > 0.0 then
      if c.None? then Err else Change((c.value - p.value) / p.value * 100.0)
    else Skip
  }

  /** The price changes over the first `k` rows, or `None` once a step
      raised. */
  function PriceChangesUpTo(rows: seq<Field<real>>, k: nat): (r: Option<seq<real>>)
    requires k <= |rows|
    ensures r.Some? ==> |r.value| <= if k == 0 then 0 else k - 1
  {
    if k <= 1 then Some([])
    else
      match PriceChangesUpTo(rows, k - 1)
      case None => None
      case Some(c) =>
        match PriceStep(rows[k - 2], rows[k - 1])
        case Skip => Some(c)
        case Change(x) => Some(c + [x])
        case Err => None
  }

  function PriceChanges(rows: seq<Field<real>>): Option<seq<real>>
  {
    PriceChangesUpTo(rows, |rows|)
  }

  /** When every row carries a positive price, every consecutive pair
      contributes its percentage change. */
  lemma {:induction false} PriceChangesAllPositive(rows: seq<Field<real>>, k: nat)
    requires k <= |rows|
    requires forall i | 0 <= i < |rows| :: rows[i].Val? && rows[i].value > 0.0
    ensures PriceChangesUpTo(rows, k).Some?
    ensures var c := PriceChangesUpTo(rows, k).value;
      |c| == (if k == 0 then 0 else k - 1) &&
      forall i | 0 <= i < |c| :: c[i] == (rows[i + 1].value - rows[i].value) / rows[i].value * 100.0
  {
    if k > 1 {
      PriceChangesAllPositive(rows, k - 1);
    }
  }

  /** Rows without a usable previous price contribute nothing. */
  lemma {:induction false} PriceChangesNoneUsable(rows: seq<Field<real>>, k: nat)
    requires k <= |rows|
    requires forall i | 0 <= i < |rows| :: !(rows[i].Val? && rows[i].value > 0.0) && !rows[i].Missing?
    ensures PriceChangesUpTo(rows, k) == Some([])
  {
    if k > 1 {
      PriceChangesNoneUsable(rows, k - 1);
    }
  }

  /** `min(6, len(sentiment_history))`. */
  function SentimentWindow(s: seq<real>): int
  {
    if |s| < 6 then |s| else 6
  }

  /** The divergence of the equal-length prefixes, 0 when either list is
      empty. */
  function PrefixDivergence(mc: seq<real>, pc: seq<real>, std: seq<real> -> real): real
    requires StdNonNegative(std)
  {
    var k := if |mc| < |pc| then |mc| else |pc|;
    if k > 0 then VolumePriceDivergence(mc[..k], pc[..k], std) else 0.0
  }

  /** `calculate_ticker_velocity` as a value: all five metrics, or all zeros
      when the price loop raised. */
  function TickerVelocity(t: TickerHistory, now: Instant, std: seq<real> -> real, exp: real -> real): (r: VelocityMetrics)
    requires StdNonNegative(std) && ExpPositive(exp)
    ensures 0.0 <= r.composite <= 100.0
    ensures PriceChanges(t.prices).None? ==> r == ZeroMetrics
    ensures PriceChanges(t.prices).Some? ==>
      && r.mention24h == Velocity24h(t.mentions, now)
      && r.mention7d == MentionVelocityTrend(t.mentions, 7, now)
      && r.sentimentVelocity == SentimentVelocity(t.sentiments, SentimentWindow(t.sentiments))
      && r.divergence == PrefixDivergence(MentionChanges(t.mentions), PriceChanges(t.prices).value, std)
      && r.composite == CompositeScore(r.mention24h, r.mention7d, r.sentimentVelocity, r.divergence, DefaultWeights, exp)
  {
    match PriceChanges(t.prices)
    case None => ZeroMetrics
    case Some(pc) =>
      var v24 := Velocity24h(t.mentions, now);
      var v7 := MentionVelocityTrend(t.mentions, 7, now);
      var sv := SentimentVelocity(t.sentiments, SentimentWindow(t.sentiments));
      var dv := PrefixDivergence(MentionChanges(t.mentions), pc, std);
      VelocityMetrics(v24, v7, sv, dv, CompositeScore(v24, v7, sv, dv, DefaultWeights, exp))
  }

  /** `calculate_ticker_velocity`, with the loops that build the mention
      and price change lists. */
  method CalculateTickerVelocity(t: TickerHistory, now: Instant, std: seq<real> -> real, exp: real -> real)
    returns (m: VelocityMetrics)
    requires StdNonNegative(std) && ExpPositive(exp)
    ensures m == TickerVelocity(t, now, std, exp)
    ensures 0.0 <= m.composite <= 100.0
  {
    var h := t.mentions;
    var v24 := Velocity24h(h, now);
    var v7 := MentionVelocityTrend(h, 7, now);
    var sv := SentimentVelocity(t.sentiments, SentimentWindow(t.sentiments));

    var mentionChanges := CollectMentionChanges(h);
    var priceChanges := CollectPriceChanges(t.prices);
    if priceChanges.None? {
      return ZeroMetrics;
    }
    var dv := PrefixDivergence(mentionChanges, priceChanges.value, std);
    m := VelocityMetrics(v24, v7, sv, dv, CompositeScore(v24, v7, sv, dv, DefaultWeights, exp));
  }

  /** The loop of `calculate_ticker_velocity` over consecutive mention
      counts. */
  method CollectMentionChanges(h: seq<MentionPoint>) returns (mentionChanges: seq<real>)
    ensures mentionChanges == MentionChanges(h)
  {
    mentionChanges := [];
    if |h| >= 2 {
      var i := 1;
      while i < |h|
        invariant 1 <= i <= |h|
        invariant mentionChanges == MentionChanges(h)[..i - 1]
      {
        mentionChanges := mentionChanges + [MentionVelocityPct(h[i].1, h[i - 1].1)];
        i := i + 1;
      }
    }
  }

  /** The loop of `calculate_ticker_velocity` over consecutive price rows;
      `None` when a step raises. */
  method CollectPriceChanges(rows: seq<Field<real>>) returns (r: Option<seq<real>>)
    ensures r == PriceChanges(rows)
  {
    var priceChanges: seq<real> := [];
    if |rows| >= 2 {
      var i := 1;
      while i < |rows|
        invariant 1 <= i <= |rows|
        invariant PriceChangesUpTo(rows, i) == Some(priceChanges)
        decreases |rows| - i
      {
        match PriceStep(rows[i - 1], rows[i]) {
          case Skip =>
          case Change(x) =>
            priceChanges := priceChanges + [x];
          case Err =>
            assert PriceChangesUpTo(rows, i + 1).None?;
            FailurePersists(rows, i + 1);
            return None;
        }
        i := i + 1;
      }
    }
    assert PriceChanges(rows) == Some(priceChanges);
    return Some(priceChanges);
  }

  /** Once a price step raised, the whole computation has raised. */
  lemma {:induction false} FailurePersists(rows: seq<Field<real>>, k: nat)
    requires 1 <= k <= |rows|
    requires PriceChangesUpTo(rows, k).None?
    ensures PriceChanges(rows).None?
    decreases |rows| - k
  {
    if k < |rows| {
      FailurePersists(rows, k + 1);
    }
  }

  /** A ticker is active when its latest one-day mention count reaches the
      minimum. */
  predicate Active(day: seq<MentionPoint>, minMentions: int)
  {
    |day| > 0 && day[|day| - 1].1 >= minMentions
  }

  /** `calculate_all_velocities` as a value: the results dict, in insertion
      order, after the first `k` tracked tickers. */
  function AllVelocitiesUpTo(tickers: seq<string>, k: nat, day: string -> seq<MentionPoint>,
                             hist: string -> TickerHistory, minMentions: int, now: Instant,
                             std: seq<real> -> real, exp: real -> real): (r: seq<(string, VelocityMetrics)>)
    requires k <= |tickers| && StdNonNegative(std) && ExpPositive(exp)
    ensures DistinctKeys(r)
  {
    if k == 0 then []
    else
      var r := AllVelocitiesUpTo(tickers, k - 1, day, hist, minMentions, now, std, exp);
      var t := tickers[k - 1];
      if Active(day(t), minMentions) then Put(r, t, TickerVelocity(hist(t), now, std, exp)) else r
  }

  /** The results hold exactly the active tracked tickers, each with its
      own metrics. */
  lemma {:induction false} AllVelocitiesLookup(tickers: seq<string>, k: nat, day: string -> seq<MentionPoint>,
                                               hist: string -> TickerHistory, minMentions: int, now: Instant,
                                               std: seq<real> -> real, exp: real -> real, t: string)
    requires k <= |tickers| && StdNonNegative(std) && ExpPositive(exp)
    ensures Lookup(AllVelocitiesUpTo(tickers, k, day, hist, minMentions, now, std, exp), t)
         == if t in tickers[..k] && Active(day(t), minMentions)
            then Some(TickerVelocity(hist(t), now, std, exp)) else None
  {
    if k > 0 {
      AllVelocitiesLookup(tickers, k - 1, day, hist, minMentions, now, std, exp, t);
      var r0 := AllVelocitiesUpTo(tickers, k - 1, day, hist, minMentions, now, std, exp);
      var u := tickers[k - 1];
      assert tickers[..k] == tickers[..k - 1] + [u];
      assert t in tickers[..k] <==> t in tickers[..k - 1] || t == u;
      if Active(day(u), minMentions) {
        var v := TickerVelocity(hist(u), now, std, exp);
        assert AllVelocitiesUpTo(tickers, k, day, hist, minMentions, now, std, exp) == Put(r0, u, v);
        if u == t {
          LookupPutSame(r0, u, v);
        } else {
          LookupPutOther(r0, u, v, t);
        }
      } else {
        assert AllVelocitiesUpTo(tickers, k, day, hist, minMentions, now, std, exp) == r0;
      }
    }
  }

  /** `calculate_all_velocities`: the loop over the tracked tickers filling
      the results dict. */
  method CalculateAllVelocities(tickers: seq<string>, day: string -> seq<MentionPoint>,
                                hist: string -> TickerHistory, minMentions: int, now: Instant,
                                std: seq<real> -> real, exp: real -> real)
    returns (results: seq<(string, VelocityMetrics)>)
    requires StdNonNegative(std) && ExpPositive(exp)
    ensures results == AllVelocitiesUpTo(tickers, |tickers|, day, hist, minMentions, now, std, exp)
    ensures DistinctKeys(results)
  {
    results := [];
    var i := 0;
    while i < |tickers|
      invariant 0 <= i <= |tickers|
      invariant results == AllVelocitiesUpTo(tickers, i, day, hist, minMentions, now, std, exp)
    {
      var t := tickers[i];
      if Active(day(t), minMentions) {
        var m := CalculateTickerVelocity(hist(t), now, std, exp);
        results := Put(results, t, m);
      }
      i := i + 1;
    }
  }
}
