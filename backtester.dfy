/** The historical replay of `Backtester`: every stored signal is entered at
    its recorded price and walked forward day by day until its stop, its
    target or its holding period ends; the resulting trades are reduced to
    win rate, profit, an equity curve, its maximum drawdown and the excess
    return over SPY. The nearest-price lookup in the `prices` table is an
    injected oracle `priceAt(ticker, instant)`. */
module Backtester {
  import opened Common
  import opened Dates
  import PaperTrading

  /** The `backtesting` and `paper_trading` settings the replay reads,
      defaults applied. */
  datatype BacktestConfig = BacktestConfig(
    initialCapital: real, positionSize: real, maxPositions: int,
    stopLossPct: real, takeProfitPct: real, holdDays: int,
    convictionWeighted: bool)

  function DefaultBacktestConfig(): BacktestConfig
  {
    BacktestConfig(10000.0, 1000.0, 10, -10.0, 20.0, 30, true)
  }

  /** One simulated round trip (`BacktestTrade`). */
  datatype BacktestTrade = BacktestTrade(
    ticker: string, entryDate: Instant, entryPrice: real,
    exitDate: Instant, exitPrice: real, shares: int, conviction: int,
    signalTypes: seq<string>, exitReason: PaperTrading.ExitReason,
    profitLoss: real, returnPct: real, daysHeld: int)

  /** One row of `get_historical_signals`, already filtered by date and
      conviction and ordered by creation time. */
  datatype HistoricalSignal = HistoricalSignal(
    ticker: string, conviction: int, triggers: seq<string>,
    price: Option<real>, date: Instant)

  /** `BacktestResults`. */
  datatype BacktestResults = BacktestResults(
    startDate: Instant, endDate: Instant,
    totalTrades: int, winningTrades: int, losingTrades: int, winRate: real,
    totalReturnPct: real, totalProfitLoss: real, avgReturnPct: real,
    avgWinPct: real, avgLossPct: real, bestTradePct: real, worstTradePct: real,
    avgDaysHeld: real, maxDrawdownPct: real, sharpeRatio: real,
    trades: seq<BacktestTrade>, benchmarkReturnPct: real, alpha: real)

  type PriceOracle = (string, Instant) -> Option<real>

  // ---------------------------------------------------------------------
  // Sizing

  /** `calculate_position_size`: the base size when weighting is off,
      otherwise the paper ledger's linear conviction weighting. */
  function PositionSize(cfg: BacktestConfig, conviction: int): (r: real)
    ensures !cfg.convictionWeighted ==> r == cfg.positionSize
    ensures cfg.convictionWeighted ==> r == cfg.positionSize * conviction as real / 50.0
  {
    if !cfg.convictionWeighted then cfg.positionSize
    else PaperTrading.PositionSize(cfg.positionSize, conviction as real)
  }

  lemma PositionSizeExamples()
    ensures PositionSize(DefaultBacktestConfig(), 50) == 1000.0
    ensures PositionSize(DefaultBacktestConfig(), 75) == 1500.0
    ensures PositionSize(DefaultBacktestConfig(), 100) == 2000.0
    ensures PositionSize(DefaultBacktestConfig().(convictionWeighted := false), 100) == 1000.0
  {
  }

  // ---------------------------------------------------------------------
  // One trade

  /** Where and why a simulated trade leaves the market: `day` days after
      entry, at `price`. */
  datatype Exit = Exit(day: int, price: real, reason: PaperTrading.ExitReason)

  function StopPrice(cfg: BacktestConfig, entryPrice: real): real
  {
    entryPrice * (1.0 + cfg.stopLossPct / 100.0)
  }

  function TargetPrice(cfg: BacktestConfig, entryPrice: real): real
  {
    entryPrice * (1.0 + cfg.takeProfitPct / 100.0)
  }

  /** The exit test of one priced day: the stop is tested before the
      target. */
  function DayExit(price: real, stop: real, target: real): (r: Option<PaperTrading.ExitReason>)
    ensures r == Some(PaperTrading.StopLoss) <==> price <= stop
    ensures r == Some(PaperTrading.TakeProfit) <==> stop < price && target <= price
    ensures r.None? <==> stop < price < target
  {
    if price <= stop then Some(PaperTrading.StopLoss)
    else if price >= target then Some(PaperTrading.TakeProfit)
    else None
  }

  /** Day `d` has no price or a price strictly between stop and target. */
  predicate Quiet(priceAt: PriceOracle, ticker: string, entryDate: Instant, stop: real, target: real, d: int)
  {
    var p := priceAt(ticker, AddDays(entryDate, d));
    p.None? || DayExit(p.value, stop, target).None?
  }

  /** The day loop from day `d` to day `last`: the first priced day that
      hits the stop or the target. */
  function FirstExit(priceAt: PriceOracle, ticker: string, entryDate: Instant, stop: real, target: real, d: int, last: int): Option<Exit>
    decreases if d <= last then last - d + 1 else 0
  {
    if d > last then None
    else
      var p := priceAt(ticker, AddDays(entryDate, d));
      if p.Some? && DayExit(p.value, stop, target).Some? then
        Some(Exit(d, p.value, DayExit(p.value, stop, target).value))
      else FirstExit(priceAt, ticker, entryDate, stop, target, d + 1, last)
  }

  /** The loop finds the first day of `d..last` that is not quiet, with that
      day's price and exit test; it finds nothing exactly when every day is
      quiet. */
  lemma {:induction false} FirstExitIsFirst(priceAt: PriceOracle, ticker: string, entryDate: Instant, stop: real, target: real, d: int, last: int)
    ensures var r := FirstExit(priceAt, ticker, entryDate, stop, target, d, last);
      && (r.None? <==> forall j | d <= j <= last :: Quiet(priceAt, ticker, entryDate, stop, target, j))
      && (r.Some? ==>
            && d <= r.value.day <= last
            && priceAt(ticker, AddDays(entryDate, r.value.day)) == Some(r.value.price)
            && DayExit(r.value.price, stop, target) == Some(r.value.reason)
            && forall j | d <= j < r.value.day :: Quiet(priceAt, ticker, entryDate, stop, target, j))
    decreases if d <= last then last - d + 1 else 0
  {
    if d <= last {
      FirstExitIsFirst(priceAt, ticker, entryDate, stop, target, d + 1, last);
      var p := priceAt(ticker, AddDays(entryDate, d));
      if p.Some? && DayExit(p.value, stop, target).Some? {
        assert !Quiet(priceAt, ticker, entryDate, stop, target, d);
      } else {
        assert Quiet(priceAt, ticker, entryDate, stop, target, d);
      }
    }
  }

  /** The exit after the day loop: its find, or else the time-limit lookup at
      `entry + hold_days`. */
  function ExitOf(cfg: BacktestConfig, priceAt: PriceOracle, ticker: string, entryDate: Instant, entryPrice: real): Option<Exit>
  {
    var found := FirstExit(priceAt, ticker, entryDate, StopPrice(cfg, entryPrice), TargetPrice(cfg, entryPrice), 1, cfg.holdDays);
    if found.Some? then found
    else
      var last := priceAt(ticker, AddDays(entryDate, cfg.holdDays));
      if last.None? then None else Some(Exit(cfg.holdDays, last.value, PaperTrading.TimeLimit))
  }

  /** The trade record for an exit, with its profit, return and holding
      period. */
  function TradeOf(ticker: string, entryDate: Instant, entryPrice: real, shares: int, conviction: int, signalTypes: seq<string>, e: Exit): BacktestTrade
    requires entryPrice != 0.0
  {
    var exitDate := AddDays(entryDate, e.day);
    BacktestTrade(ticker, entryDate, entryPrice, exitDate, e.price, shares, conviction, signalTypes, e.reason,
                  (e.price - entryPrice) * shares as real,
                  (e.price - entryPrice) / entryPrice * 100.0,
                  DaysBetween(exitDate, entryDate))
  }

  /** The shares a position buys: `int(position_size / entry_price)`. */
  function SharesFor(cfg: BacktestConfig, conviction: int, entryPrice: real): int
    requires entryPrice > 0.0
  {
    Trunc(PositionSize(cfg, conviction) / entryPrice)
  }

  /** `simulate_trade` as a function of the oracle. */
  function Simulated(cfg: BacktestConfig, priceAt: PriceOracle, ticker: string, entryDate: Instant, entryPrice: Option<real>, conviction: int, signalTypes: seq<string>): Option<BacktestTrade>
  {
    if entryPrice.None? || entryPrice.value <= 0.0 then None
    else
      var p := entryPrice.value;
      var shares := SharesFor(cfg, conviction, p);
      if shares == 0 then None
      else
        var e := ExitOf(cfg, priceAt, ticker, entryDate, p);
        if e.None? then None else Some(TradeOf(ticker, entryDate, p, shares, conviction, signalTypes, e.value))
  }

  /** `simulate_trade`: the day loop over `1..hold_days`, which skips
      unpriced days and breaks at the first stop or target, then the
      time-limit lookup. */
  method SimulateTrade(cfg: BacktestConfig, priceAt: PriceOracle, ticker: string, entryDate: Instant, entryPrice: Option<real>, conviction: int, signalTypes: seq<string>)
    returns (r: Option<BacktestTrade>)
    ensures r == Simulated(cfg, priceAt, ticker, entryDate, entryPrice, conviction, signalTypes)
  {
    if entryPrice.None? || entryPrice.value <= 0.0 {
      return None;
    }
    var price := entryPrice.value;
    var shares := Trunc(PositionSize(cfg, conviction) / price);
    if shares == 0 {
      return None;
    }
    var stop := price * (1.0 + cfg.stopLossPct / 100.0);
    var target := price * (1.0 + cfg.takeProfitPct / 100.0);
    ghost var search := FirstExit(priceAt, ticker, entryDate, stop, target, 1, cfg.holdDays);
    var exit: Option<Exit> := None;
    var day := 1;
    while day <= cfg.holdDays
      invariant 1 <= day
      invariant search == FirstExit(priceAt, ticker, entryDate, stop, target, day, cfg.holdDays)
      decreases cfg.holdDays - day
    {
      var current := priceAt(ticker, AddDays(entryDate, day));
      if current.Some? {
        if current.value <= stop {
          exit := Some(Exit(day, current.value, PaperTrading.StopLoss));
          break;
        } else if current.value >= target {
          exit := Some(Exit(day, current.value, PaperTrading.TakeProfit));
          break;
        }
      }
      day := day + 1;
    }
    assert exit.Some? ==> exit == search;
    assert exit.None? ==> search.None?;
    assert search == FirstExit(priceAt, ticker, entryDate, StopPrice(cfg, price), TargetPrice(cfg, price), 1, cfg.holdDays);
    if exit.None? {
      var last := priceAt(ticker, AddDays(entryDate, cfg.holdDays));
      if last.None? {
        return None;
      }
      exit := Some(Exit(cfg.holdDays, last.value, PaperTrading.TimeLimit));
    }
    r := Some(TradeOf(ticker, entryDate, price, shares, conviction, signalTypes, exit.value));
  }

  /** A simulation yields nothing exactly in the three cases of the code: no
      usable entry price, a position too small for one share, or a missing
      price at the time limit after a day loop that found no exit. */
  lemma SimulatedNone(cfg: BacktestConfig, priceAt: PriceOracle, ticker: string, entryDate: Instant, entryPrice: Option<real>, conviction: int, signalTypes: seq<string>)
    ensures Simulated(cfg, priceAt, ticker, entryDate, entryPrice, conviction, signalTypes).None? <==>
      || entryPrice.None? || entryPrice.value <= 0.0
      || SharesFor(cfg, conviction, entryPrice.value) == 0
      || (&& FirstExit(priceAt, ticker, entryDate, StopPrice(cfg, entryPrice.value), TargetPrice(cfg, entryPrice.value), 1, cfg.holdDays).None?
          && priceAt(ticker, AddDays(entryDate, cfg.holdDays)).None?)
  {
  }

  /** A simulated trade keeps its entry, holds a non-zero number of shares,
      and leaves either on the first day of `1..hold_days` that hits stop
      or target (the stop tested first), or, when every day is quiet, at
      `entry + hold_days` for the time limit; its holding period is the day
      of its exit. */
  lemma SimulatedExit(cfg: BacktestConfig, priceAt: PriceOracle, ticker: string, entryDate: Instant, entryPrice: Option<real>, conviction: int, signalTypes: seq<string>)
    requires Simulated(cfg, priceAt, ticker, entryDate, entryPrice, conviction, signalTypes).Some?
    ensures var t := Simulated(cfg, priceAt, ticker, entryDate, entryPrice, conviction, signalTypes).value;
      var stop := StopPrice(cfg, t.entryPrice);
      var target := TargetPrice(cfg, t.entryPrice);
      && entryPrice == Some(t.entryPrice) && t.entryPrice > 0.0
      && t.shares == SharesFor(cfg, conviction, t.entryPrice) && t.shares != 0
      && t.exitDate == AddDays(entryDate, t.daysHeld)
      && priceAt(ticker, t.exitDate) == Some(t.exitPrice)
      && (t.exitReason == PaperTrading.TimeLimit <==>
            forall j | 1 <= j <= cfg.holdDays :: Quiet(priceAt, ticker, entryDate, stop, target, j))
      && (t.exitReason == PaperTrading.TimeLimit ==> t.daysHeld == cfg.holdDays)
      && (t.exitReason != PaperTrading.TimeLimit ==>
            && 1 <= t.daysHeld <= cfg.holdDays
            && DayExit(t.exitPrice, stop, target) == Some(t.exitReason)
            && forall j | 1 <= j < t.daysHeld :: Quiet(priceAt, ticker, entryDate, stop, target, j))
  {
    var p := entryPrice.value;
    FirstExitIsFirst(priceAt, ticker, entryDate, StopPrice(cfg, p), TargetPrice(cfg, p), 1, cfg.holdDays);
    var e := ExitOf(cfg, priceAt, ticker, entryDate, p).value;
    DaysBetweenAddDays(entryDate, e.day);
  }

  /** With a holding period of at least one day, every simulated trade is
      held between one day and the holding period. */
  lemma SimulatedDaysHeld(cfg: BacktestConfig, priceAt: PriceOracle, ticker: string, entryDate: Instant, entryPrice: Option<real>, conviction: int, signalTypes: seq<string>)
    requires cfg.holdDays >= 1
    requires Simulated(cfg, priceAt, ticker, entryDate, entryPrice, conviction, signalTypes).Some?
    ensures 1 <= Simulated(cfg, priceAt, ticker, entryDate, entryPrice, conviction, signalTypes).value.daysHeld <= cfg.holdDays
  {
    SimulatedExit(cfg, priceAt, ticker, entryDate, entryPrice, conviction, signalTypes);
  }

  /** Profit and return of a long simulated trade have the same sign. */
  lemma SimulatedSignsAgree(cfg: BacktestConfig, priceAt: PriceOracle, ticker: string, entryDate: Instant, entryPrice: Option<real>, conviction: int, signalTypes: seq<string>)
    requires Simulated(cfg, priceAt, ticker, entryDate, entryPrice, conviction, signalTypes).Some?
    requires Simulated(cfg, priceAt, ticker, entryDate, entryPrice, conviction, signalTypes).value.shares > 0
    ensures var t := Simulated(cfg, priceAt, ticker, entryDate, entryPrice, conviction, signalTypes).value;
      && (t.profitLoss > 0.0 <==> t.returnPct > 0.0)
      && (t.profitLoss < 0.0 <==> t.returnPct < 0.0)
      && (t.profitLoss == 0.0 <==> t.exitPrice == t.entryPrice)
  {
    var t := Simulated(cfg, priceAt, ticker, entryDate, entryPrice, conviction, signalTypes).value;
    PaperTrading.SignsAgree(t.exitPrice - t.entryPrice, t.entryPrice, t.shares as real);
  }

  /** The cases of the code's own examples: a rise to 125 on the first day
      takes profit at conviction 80; entry prices of 0, -10 or none, and an
      entry price of 10000 (too dear for one share), give no trade. */
  lemma SimulatedExamples(ticker: string, entryDate: Instant)
    ensures var rise := (t: string, d: Instant) => if d == AddDays(entryDate, 1) then Some(125.0) else None;
      var r := Simulated(DefaultBacktestConfig(), rise, ticker, entryDate, Some(100.0), 80, ["test"]);
      && r.Some? && r.value.exitReason == PaperTrading.TakeProfit
      && r.value.shares == 16 && r.value.profitLoss == 400.0 && r.value.returnPct == 25.0
    ensures forall priceAt: PriceOracle ::
      && Simulated(DefaultBacktestConfig(), priceAt, ticker, entryDate, Some(0.0), 80, ["test"]).None?
      && Simulated(DefaultBacktestConfig(), priceAt, ticker, entryDate, Some(-10.0), 80, ["test"]).None?
      && Simulated(DefaultBacktestConfig(), priceAt, ticker, entryDate, None, 80, ["test"]).None?
      && Simulated(DefaultBacktestConfig(), priceAt, ticker, entryDate, Some(10000.0), 80, ["test"]).None?
  {
    var rise := (t: string, d: Instant) => if d == AddDays(entryDate, 1) then Some(125.0) else None;
    var cfg := DefaultBacktestConfig();
    assert SharesFor(cfg, 80, 100.0) == 16 by {
      assert PositionSize(cfg, 80) / 100.0 == 16.0;
    }
    assert FirstExit(rise, ticker, entryDate, StopPrice(cfg, 100.0), TargetPrice(cfg, 100.0), 1, 30)
        == Some(Exit(1, 125.0, PaperTrading.TakeProfit));
    assert SharesFor(cfg, 80, 10000.0) == 0 by {
      assert PositionSize(cfg, 80) / 10000.0 == 0.16;
    }
  }

  // ---------------------------------------------------------------------
  // Maximum drawdown

  /** The running peak of the loop: the largest of `curve[0..i]`. */
  function Peak(curve: seq<real>, i: nat): (r: real)
    requires i < |curve|
    ensures forall j | 0 <= j <= i :: curve[j] <= r
  {
    if i == 0 then curve[0]
    else
      var p := Peak(curve, i - 1);
      if curve[i] > p then curve[i] else p
  }

  /** The code divides by every running peak, so none may be zero. */
  ghost predicate NonZeroPeaks(curve: seq<real>)
  {
    forall i | 0 <= i < |curve| :: Peak(curve, i) != 0.0
  }

  /** A curve that starts above zero has only positive peaks. */
  lemma PositiveStartPeaks(curve: seq<real>)
    requires |curve| > 0 && curve[0] > 0.0
    ensures forall i | 0 <= i < |curve| :: Peak(curve, i) > 0.0
    ensures NonZeroPeaks(curve)
  {
    forall i | 0 <= i < |curve|
      ensures Peak(curve, i) > 0.0
    {
      assert curve[0] <= Peak(curve, i);
    }
  }

  /** The drawdown at point `i`, in percent of the running peak. */
  function Drawdown(curve: seq<real>, i: nat): real
    requires i < |curve| && Peak(curve, i) != 0.0
  {
    (Peak(curve, i) - curve[i]) / Peak(curve, i) * 100.0
  }

  /** `max(max_dd, drawdown)`: the first argument unless the second is
      larger. */
  function MaxOf(a: real, b: real): real
  {
    if b > a then b else a
  }

  /** The loop's `max_dd` after the points `curve[..k]`: zero or the largest
      drawdown among them, whichever is larger. */
  function MaxDrawdownUpTo(curve: seq<real>, k: nat): (r: real)
    requires k <= |curve| && forall i | 0 <= i < k :: Peak(curve, i) != 0.0
    ensures r >= 0.0
    ensures forall i | 0 <= i < k :: Drawdown(curve, i) <= r
    ensures r == 0.0 || exists i | 0 <= i < k :: r == Drawdown(curve, i)
  {
    if k == 0 then 0.0 else MaxOf(MaxDrawdownUpTo(curve, k - 1), Drawdown(curve, k - 1))
  }

  /** `calculate_max_drawdown`: zero for curves of fewer than two points. */
  function MaxDrawdown(curve: seq<real>): (r: real)
    requires |curve| < 2 || NonZeroPeaks(curve)
    ensures r >= 0.0
  {
    if |curve| < 2 then 0.0 else MaxDrawdownUpTo(curve, |curve|)
  }

  /** `calculate_max_drawdown`: the loop updating `peak` and `max_dd`. */
  method CalculateMaxDrawdown(curve: seq<real>) returns (maxDd: real)
    requires |curve| < 2 || NonZeroPeaks(curve)
    ensures maxDd == MaxDrawdown(curve)
  {
    if |curve| < 2 {
      return 0.0;
    }
    var peak := curve[0];
    maxDd := 0.0;
    for i := 0 to |curve|
      invariant peak == Peak(curve, if i == 0 then 0 else i - 1)
      invariant maxDd == MaxDrawdownUpTo(curve, i)
    {
      var value := curve[i];
      if value > peak {
        peak := value;
      }
      assert peak == Peak(curve, i);
      assert peak != 0.0;
      var drawdown := (peak - value) / peak * 100.0;
      maxDd := MaxOf(maxDd, drawdown);
    }
  }

  /** In a curve that never falls, every point is its own peak. */
  lemma {:induction false} PeakOfNonDecreasing(curve: seq<real>, i: nat)
    requires i < |curve|
    requires forall a, b | 0 <= a < b < |curve| :: curve[a] <= curve[b]
    ensures Peak(curve, i) == curve[i]
  {
    if i > 0 {
      PeakOfNonDecreasing(curve, i - 1);
    }
  }

  /** A curve that never falls has no drawdown. */
  lemma {:induction false} MaxDrawdownNonDecreasing(curve: seq<real>)
    requires |curve| < 2 || NonZeroPeaks(curve)
    requires forall a, b | 0 <= a < b < |curve| :: curve[a] <= curve[b]
    ensures MaxDrawdown(curve) == 0.0
  {
    if |curve| >= 2 {
      forall i | 0 <= i < |curve|
        ensures Drawdown(curve, i) == 0.0
      {
        PeakOfNonDecreasing(curve, i);
      }
    }
  }

  /** A curve that starts above zero and never goes below zero loses at
      most everything: the drawdown is at most 100 percent. */
  lemma MaxDrawdownAtMost100(curve: seq<real>)
    requires |curve| > 0 && curve[0] > 0.0
    requires forall i | 0 <= i < |curve| :: curve[i] >= 0.0
    ensures NonZeroPeaks(curve) && MaxDrawdown(curve) <= 100.0
  {
    PositiveStartPeaks(curve);
    if |curve| >= 2 {
      forall i | 0 <= i < |curve|
        ensures Drawdown(curve, i) <= 100.0
      {
        var p := Peak(curve, i);
        assert p - curve[i] <= p;
        QuotientBounds(p - curve[i], p, 0.0 - 1.0, 1.0);
      }
    }
  }

  /** A steady fall from 10000 to 8000 draws down 20 percent. */
  lemma MaxDrawdownSteadyFall()
    ensures NonZeroPeaks([10000.0, 9500.0, 9000.0, 8500.0, 8000.0])
    ensures MaxDrawdown([10000.0, 9500.0, 9000.0, 8500.0, 8000.0]) == 20.0
  {
    var a := [10000.0, 9500.0, 9000.0, 8500.0, 8000.0];
    PositiveStartPeaks(a);
    assert Peak(a, 1) == 10000.0;
    assert Peak(a, 2) == 10000.0;
    assert Peak(a, 3) == 10000.0;
    assert Peak(a, 4) == 10000.0;
    assert MaxDrawdownUpTo(a, 1) == 0.0;
    assert MaxDrawdownUpTo(a, 2) == 5.0;
    assert MaxDrawdownUpTo(a, 3) == 10.0;
    assert MaxDrawdownUpTo(a, 4) == 15.0;
    assert MaxDrawdownUpTo(a, 5) == 20.0;
  }

  /** A fall to 8000 before a recovery to 11000 draws down 20 percent. */
  lemma MaxDrawdownRecovery()
    ensures NonZeroPeaks([10000.0, 8000.0, 9000.0, 11000.0])
    ensures MaxDrawdown([10000.0, 8000.0, 9000.0, 11000.0]) == 20.0
  {
    var b := [10000.0, 8000.0, 9000.0, 11000.0];
    PositiveStartPeaks(b);
    assert Peak(b, 1) == 10000.0;
    assert Peak(b, 2) == 10000.0;
    assert Peak(b, 3) == 11000.0;
    assert MaxDrawdownUpTo(b, 1) == 0.0;
    assert MaxDrawdownUpTo(b, 2) == 20.0;
    assert MaxDrawdownUpTo(b, 3) == 20.0;
    assert MaxDrawdownUpTo(b, 4) == 20.0;
  }

  /** Only gains, or no curve at all, draw down nothing. */
  lemma MaxDrawdownNoDecline()
    ensures NonZeroPeaks([10000.0, 11000.0, 12000.0, 13000.0])
    ensures MaxDrawdown([10000.0, 11000.0, 12000.0, 13000.0]) == 0.0
    ensures MaxDrawdown([]) == 0.0
  {
    var c := [10000.0, 11000.0, 12000.0, 13000.0];
    PositiveStartPeaks(c);
    MaxDrawdownNonDecreasing(c);
  }

  // ---------------------------------------------------------------------
  // The replay loop

  /** The loop state of `run_backtest`: trades so far and its count of open
      positions. */
  datatype Replay = Replay(trades: seq<BacktestTrade>, openPositions: int)

  function SimulateSignal(cfg: BacktestConfig, priceAt: PriceOracle, s: HistoricalSignal): Option<BacktestTrade>
  {
    Simulated(cfg, priceAt, s.ticker, s.date, s.price, s.conviction, s.triggers)
  }

  /** One signal: skipped while the count is at the cap; otherwise its
      trade, if any, is kept and counted, and its slot is freed again when
      it exits by `endDate`. */
  function ReplayStep(cfg: BacktestConfig, priceAt: PriceOracle, endDate: Instant, st: Replay, s: HistoricalSignal): Replay
  {
    if st.openPositions >= cfg.maxPositions then st
    else
      var t := SimulateSignal(cfg, priceAt, s);
      if t.None? then st
      else Replay(st.trades + [t.value], st.openPositions + 1 - (if t.value.exitDate <= endDate then 1 else 0))
  }

  function ReplayAll(cfg: BacktestConfig, priceAt: PriceOracle, endDate: Instant, signals: seq<HistoricalSignal>): (r: Replay)
    ensures |r.trades| <= |signals|
  {
    if signals == [] then Replay([], 0)
    else ReplayStep(cfg, priceAt, endDate, ReplayAll(cfg, priceAt, endDate, signals[..|signals| - 1]), signals[|signals| - 1])
  }

  lemma ReplayPrefixStep(cfg: BacktestConfig, priceAt: PriceOracle, endDate: Instant, signals: seq<HistoricalSignal>, i: nat)
    requires i < |signals|
    ensures ReplayAll(cfg, priceAt, endDate, signals[..i + 1])
         == ReplayStep(cfg, priceAt, endDate, ReplayAll(cfg, priceAt, endDate, signals[..i]), signals[i])
  {
    assert signals[..i + 1][..i] == signals[..i];
  }

  /** The loop over the signals in `run_backtest`. */
  method ReplaySignals(cfg: BacktestConfig, priceAt: PriceOracle, endDate: Instant, signals: seq<HistoricalSignal>)
    returns (trades: seq<BacktestTrade>, openPositions: int)
    ensures Replay(trades, openPositions) == ReplayAll(cfg, priceAt, endDate, signals)
  {
    trades := [];
    openPositions := 0;
    for i := 0 to |signals|
      invariant Replay(trades, openPositions) == ReplayAll(cfg, priceAt, endDate, signals[..i])
    {
      ReplayPrefixStep(cfg, priceAt, endDate, signals, i);
      if openPositions >= cfg.maxPositions {
        continue;
      }
      var s := signals[i];
      var trade := SimulateTrade(cfg, priceAt, s.ticker, s.date, s.price, s.conviction, s.triggers);
      if trade.Some? {
        trades := trades + [trade.value];
        openPositions := openPositions + 1;
        if trade.value.exitDate <= endDate {
          openPositions := openPositions - 1;
        }
      }
    }
    assert signals[..|signals|] == signals;
  }

  function ExitsAfter(endDate: Instant): BacktestTrade -> bool
  {
    (t: BacktestTrade) => t.exitDate > endDate
  }

  /** The count the loop keeps is the number of kept trades that exit after
      `endDate`, and it never exceeds the cap (unless the cap is below
      zero and the count is zero). */
  lemma {:induction false} ReplayCount(cfg: BacktestConfig, priceAt: PriceOracle, endDate: Instant, signals: seq<HistoricalSignal>)
    ensures var r := ReplayAll(cfg, priceAt, endDate, signals);
      && r.openPositions == |Filter(r.trades, ExitsAfter(endDate))|
      && (r.openPositions <= cfg.maxPositions || r.openPositions == 0)
  {
    if signals != [] {
      var init := signals[..|signals| - 1];
      ReplayCount(cfg, priceAt, endDate, init);
      var st := ReplayAll(cfg, priceAt, endDate, init);
      var t := SimulateSignal(cfg, priceAt, signals[|signals| - 1]);
      if st.openPositions < cfg.maxPositions && t.Some? {
        FilterAppend(st.trades, t.value, ExitsAfter(endDate));
      }
    }
  }

  /** Every kept trade is the simulation of one of the signals. */
  lemma {:induction false} ReplayTradesFromSignals(cfg: BacktestConfig, priceAt: PriceOracle, endDate: Instant, signals: seq<HistoricalSignal>)
    ensures forall t | t in ReplayAll(cfg, priceAt, endDate, signals).trades ::
      exists s | s in signals :: SimulateSignal(cfg, priceAt, s) == Some(t)
  {
    if signals != [] {
      var init := signals[..|signals| - 1];
      var last := signals[|signals| - 1];
      ReplayTradesFromSignals(cfg, priceAt, endDate, init);
      var st := ReplayAll(cfg, priceAt, endDate, init);
      forall t | t in ReplayAll(cfg, priceAt, endDate, signals).trades
        ensures exists s | s in signals :: SimulateSignal(cfg, priceAt, s) == Some(t)
      {
        if t in st.trades {
          var s :| s in init && SimulateSignal(cfg, priceAt, s) == Some(t);
          assert s in signals;
        } else {
          assert SimulateSignal(cfg, priceAt, last) == Some(t);
          assert last in signals;
        }
      }
    }
  }

  /** Every trade the signals yield, in signal order. */
  function AllSimulated(cfg: BacktestConfig, priceAt: PriceOracle, signals: seq<HistoricalSignal>): seq<BacktestTrade>
  {
    if signals == [] then []
    else
      var t := SimulateSignal(cfg, priceAt, signals[|signals| - 1]);
      AllSimulated(cfg, priceAt, signals[..|signals| - 1]) + (if t.Some? then [t.value] else [])
  }

  predicate ClosesBy(t: Option<BacktestTrade>, endDate: Instant)
  {
    t.None? || t.value.exitDate <= endDate
  }

  /** The slot quirk: a trade that exits by `endDate` frees its slot at
      once, so when every trade does, the count stays zero and, with a cap
      of at least one, no signal is ever skipped for the cap. */
  lemma {:induction false} ReplayWhenAllCloseByEnd(cfg: BacktestConfig, priceAt: PriceOracle, endDate: Instant, signals: seq<HistoricalSignal>)
    requires cfg.maxPositions >= 1
    requires forall i | 0 <= i < |signals| :: ClosesBy(SimulateSignal(cfg, priceAt, signals[i]), endDate)
    ensures ReplayAll(cfg, priceAt, endDate, signals) == Replay(AllSimulated(cfg, priceAt, signals), 0)
  {
    if signals != [] {
      var init := signals[..|signals| - 1];
      assert forall i | 0 <= i < |init| :: init[i] == signals[i];
      ReplayWhenAllCloseByEnd(cfg, priceAt, endDate, init);
      assert ClosesBy(SimulateSignal(cfg, priceAt, signals[|signals| - 1]), endDate);
    }
  }

  /** With no slots at all nothing is ever traded. */
  lemma {:induction false} ReplayNoSlots(cfg: BacktestConfig, priceAt: PriceOracle, endDate: Instant, signals: seq<HistoricalSignal>)
    requires cfg.maxPositions <= 0
    ensures ReplayAll(cfg, priceAt, endDate, signals) == Replay([], 0)
  {
    if signals != [] {
      ReplayNoSlots(cfg, priceAt, endDate, signals[..|signals| - 1]);
    }
  }

  // ---------------------------------------------------------------------
  // The equity curve

  function ProfitLosses(ts: seq<BacktestTrade>): (r: seq<real>)
    ensures |r| == |ts| && forall i | 0 <= i < |ts| :: r[i] == ts[i].profitLoss
  {
    seq(|ts|, i requires 0 <= i < |ts| => ts[i].profitLoss)
  }

  function ReturnPcts(ts: seq<BacktestTrade>): (r: seq<real>)
    ensures |r| == |ts| && forall i | 0 <= i < |ts| :: r[i] == ts[i].returnPct
  {
    seq(|ts|, i requires 0 <= i < |ts| => ts[i].returnPct)
  }

  function DaysHeldOf(ts: seq<BacktestTrade>): (r: seq<real>)
    ensures |r| == |ts| && forall i | 0 <= i < |ts| :: r[i] == ts[i].daysHeld as real
  {
    seq(|ts|, i requires 0 <= i < |ts| => ts[i].daysHeld as real)
  }

  /** The returns as fractions, for the Sharpe ratio. */
  function Returns(ts: seq<BacktestTrade>): (r: seq<real>)
    ensures |r| == |ts| && forall i | 0 <= i < |ts| :: r[i] == ts[i].returnPct / 100.0
  {
    seq(|ts|, i requires 0 <= i < |ts| => ts[i].returnPct / 100.0)
  }

  /** The equity after each trade, starting from the initial capital: one
      point more than there are trades, the last one the capital plus the
      total profit. */
  function EquityCurveOf(initial: real, ts: seq<BacktestTrade>): (r: seq<real>)
    ensures |r| == |ts| + 1 && r[0] == initial
    ensures r[|ts|] == initial + Sum(ProfitLosses(ts))
  {
    if ts == [] then [initial]
    else
      var init := ts[..|ts| - 1];
      assert ProfitLosses(ts)[..|ts| - 1] == ProfitLosses(init);
      var c := EquityCurveOf(initial, init);
      c + [c[|c| - 1] + ts[|ts| - 1].profitLoss]
  }

  /** Each point is the previous one plus that trade's profit. */
  lemma {:induction false} EquityCurveSteps(initial: real, ts: seq<BacktestTrade>, i: nat)
    requires i < |ts|
    ensures EquityCurveOf(initial, ts)[i + 1] == EquityCurveOf(initial, ts)[i] + ts[i].profitLoss
  {
    var init := ts[..|ts| - 1];
    var c' := EquityCurveOf(initial, init);
    assert EquityCurveOf(initial, ts) == c' + [c'[|init|] + ts[|ts| - 1].profitLoss];
    if i < |init| {
      EquityCurveSteps(initial, init, i);
      assert init[i] == ts[i];
    }
  }

  lemma EquityCurvePrefix(initial: real, ts: seq<BacktestTrade>, i: nat)
    requires i < |ts|
    ensures EquityCurveOf(initial, ts[..i + 1]) == EquityCurveOf(initial, ts[..i]) + [EquityCurveOf(initial, ts[..i])[i] + ts[i].profitLoss]
  {
    assert ts[..i + 1][..i] == ts[..i];
  }

  /** The loop building `equity_curve`. */
  method EquityCurve(initial: real, trades: seq<BacktestTrade>) returns (curve: seq<real>)
    ensures curve == EquityCurveOf(initial, trades)
  {
    curve := [initial];
    for i := 0 to |trades|
      invariant curve == EquityCurveOf(initial, trades[..i])
    {
      EquityCurvePrefix(initial, trades, i);
      curve := curve + [curve[|curve| - 1] + trades[i].profitLoss];
    }
    assert trades[..|trades|] == trades;
  }

  // ---------------------------------------------------------------------
  // Metrics

  predicate IsWinner(t: BacktestTrade)
  {
    t.profitLoss > 0.0
  }

  predicate IsLoser(t: BacktestTrade)
  {
    t.profitLoss < 0.0
  }

  const RiskFreeRate: real := 0.02
  const TradingDays: real := 252.0

  /** `calculate_sharpe_ratio` with numpy's `std` and `sqrt` passed in: zero
      for fewer than two returns or a zero deviation, otherwise the
      annualised mean excess return per unit of deviation. */
  function SharpeRatio(rets: seq<real>, std: seq<real> -> real, sqrt: real -> real): (r: real)
    ensures |rets| < 2 ==> r == 0.0
  {
    if |rets| < 2 then 0.0
    else
      var excess := seq(|rets|, i requires 0 <= i < |rets| => rets[i] - RiskFreeRate / TradingDays);
      if std(excess) == 0.0 then 0.0 else Mean(excess) / std(excess) * sqrt(TradingDays)
  }

  /** With a positive deviation and a positive square root, the ratio has
      the sign of the mean excess return. */
  lemma SharpeSign(rets: seq<real>, std: seq<real> -> real, sqrt: real -> real)
    requires |rets| >= 2
    requires sqrt(TradingDays) > 0.0
    ensures var excess := seq(|rets|, i requires 0 <= i < |rets| => rets[i] - RiskFreeRate / TradingDays);
      std(excess) > 0.0 ==>
        && (SharpeRatio(rets, std, sqrt) > 0.0 <==> Mean(excess) > 0.0)
        && (SharpeRatio(rets, std, sqrt) < 0.0 <==> Mean(excess) < 0.0)
  {
    var excess := seq(|rets|, i requires 0 <= i < |rets| => rets[i] - RiskFreeRate / TradingDays);
    if std(excess) > 0.0 {
      var m := Mean(excess);
      var q := m / std(excess);
      assert q > 0.0 <==> m > 0.0;
      assert q < 0.0 <==> m < 0.0;
      assert q * sqrt(TradingDays) > 0.0 <==> q > 0.0;
      assert q * sqrt(TradingDays) < 0.0 <==> q < 0.0;
    }
  }

  /** `_calculate_benchmark_return`: SPY's buy-and-hold return over the
      period, or 0 when either price is missing or zero, or the start price
      is negative. */
  function BenchmarkReturn(priceAt: PriceOracle, startDate: Instant, endDate: Instant): (r: real)
  {
    var s := priceAt("SPY", startDate);
    var e := priceAt("SPY", endDate);
    if s.Some? && s.value != 0.0 && e.Some? && e.value != 0.0 && s.value > 0.0 then
      (e.value - s.value) / s.value * 100.0
    else 0.0
  }

  /** The benchmark is zero without both prices, and otherwise has the sign
      of SPY's price change. */
  lemma BenchmarkSign(priceAt: PriceOracle, startDate: Instant, endDate: Instant)
    ensures var s := priceAt("SPY", startDate);
      var e := priceAt("SPY", endDate);
      var r := BenchmarkReturn(priceAt, startDate, endDate);
      && (s.None? || e.None? || s.value <= 0.0 || e.value == 0.0 ==> r == 0.0)
      && (s.Some? && e.Some? && s.value > 0.0 && e.value != 0.0 ==>
            && (r > 0.0 <==> e.value > s.value)
            && (r < 0.0 <==> e.value < s.value))
  {
    var s := priceAt("SPY", startDate);
    var e := priceAt("SPY", endDate);
    if s.Some? && e.Some? && s.value > 0.0 && e.value != 0.0 {
      var d := e.value - s.value;
      assert d / s.value > 0.0 <==> d > 0.0;
      assert d / s.value < 0.0 <==> d < 0.0;
    }
  }

  /** `_empty_results`: the period and nothing else. */
  function EmptyResults(startDate: Instant, endDate: Instant): BacktestResults
  {
    BacktestResults(startDate, endDate, 0, 0, 0, 0.0, 0.0, 0.0, 0.0, 0.0, 0.0, 0.0, 0.0, 0.0, 0.0, 0.0, [], 0.0, 0.0)
  }

  /** The metric block of `run_backtest` over a non-empty list of trades. */
  function Metrics(cfg: BacktestConfig, startDate: Instant, endDate: Instant, trades: seq<BacktestTrade>, maxDrawdown: real, sharpe: real, benchmark: real): BacktestResults
    requires trades != [] && cfg.initialCapital != 0.0
  {
    var winners := Filter(trades, IsWinner);
    var losers := Filter(trades, IsLoser);
    FilterDisjoint(trades, IsWinner, IsLoser);
    var totalPnl := Sum(ProfitLosses(trades));
    var totalReturn := totalPnl / cfg.initialCapital * 100.0;
    var pcts := ReturnPcts(trades);
    BacktestResults(
      startDate, endDate, |trades|, |winners|, |losers|,
      PaperTrading.WinRate(|winners|, |trades|), totalReturn, totalPnl,
      Mean(pcts), Mean(ReturnPcts(winners)), Mean(ReturnPcts(losers)),
      SeqMax(pcts), SeqMin(pcts), Mean(DaysHeldOf(trades)),
      maxDrawdown, sharpe, trades, benchmark, totalReturn - benchmark)
  }

  /** `run_backtest` as a function of the signals, the oracle, `std` and
      `sqrt`. */
  function Backtest(cfg: BacktestConfig, priceAt: PriceOracle, std: seq<real> -> real, sqrt: real -> real,
                    signals: seq<HistoricalSignal>, startDate: Instant, endDate: Instant): BacktestResults
    requires cfg.initialCapital > 0.0
  {
    if signals == [] then EmptyResults(startDate, endDate)
    else
      var trades := ReplayAll(cfg, priceAt, endDate, signals).trades;
      if trades == [] then EmptyResults(startDate, endDate)
      else
        var curve := EquityCurveOf(cfg.initialCapital, trades);
        PositiveStartPeaks(curve);
        Metrics(cfg, startDate, endDate, trades, MaxDrawdown(curve),
                SharpeRatio(Returns(trades), std, sqrt), BenchmarkReturn(priceAt, startDate, endDate))
  }

  /** `run_backtest`. */
  method RunBacktest(cfg: BacktestConfig, priceAt: PriceOracle, std: seq<real> -> real, sqrt: real -> real,
                     signals: seq<HistoricalSignal>, startDate: Instant, endDate: Instant)
    returns (r: BacktestResults)
    requires cfg.initialCapital > 0.0
    ensures r == Backtest(cfg, priceAt, std, sqrt, signals, startDate, endDate)
  {
    if |signals| == 0 {
      return EmptyResults(startDate, endDate);
    }
    var trades, openPositions := ReplaySignals(cfg, priceAt, endDate, signals);
    if |trades| == 0 {
      return EmptyResults(startDate, endDate);
    }
    var curve := EquityCurve(cfg.initialCapital, trades);
    PositiveStartPeaks(curve);
    var maxDrawdown := CalculateMaxDrawdown(curve);
    var sharpe := SharpeRatio(Returns(trades), std, sqrt);
    var benchmark := BenchmarkReturn(priceAt, startDate, endDate);
    r := Metrics(cfg, startDate, endDate, trades, maxDrawdown, sharpe, benchmark);
  }

  /** The result is the empty one exactly when there are no signals or none
      of them could be traded. */
  lemma BacktestEmpty(cfg: BacktestConfig, priceAt: PriceOracle, std: seq<real> -> real, sqrt: real -> real,
                      signals: seq<HistoricalSignal>, startDate: Instant, endDate: Instant)
    requires cfg.initialCapital > 0.0
    ensures var r := Backtest(cfg, priceAt, std, sqrt, signals, startDate, endDate);
      && (r == EmptyResults(startDate, endDate) <==> ReplayAll(cfg, priceAt, endDate, signals).trades == [])
      && (r.totalTrades == 0 <==> ReplayAll(cfg, priceAt, endDate, signals).trades == [])
      && r.startDate == startDate && r.endDate == endDate
  {
  }

  /** Over the traded signals: the trade count is the number of trades,
      winners and losers do not overlap, the win rate is the winners'
      share in percent, the total return is the summed profit over the
      initial capital, alpha is that return less the benchmark, the
      average return lies between the worst and the best, and the
      drawdown is the one of the equity curve, never negative. */
  lemma BacktestMetrics(cfg: BacktestConfig, priceAt: PriceOracle, std: seq<real> -> real, sqrt: real -> real,
                        signals: seq<HistoricalSignal>, startDate: Instant, endDate: Instant)
    requires cfg.initialCapital > 0.0
    requires ReplayAll(cfg, priceAt, endDate, signals).trades != []
    ensures var trades := ReplayAll(cfg, priceAt, endDate, signals).trades;
      var r := Backtest(cfg, priceAt, std, sqrt, signals, startDate, endDate);
      && r.trades == trades && r.totalTrades == |trades|
      && r.winningTrades == |Filter(trades, IsWinner)|
      && r.losingTrades == |Filter(trades, IsLoser)|
      && r.winningTrades + r.losingTrades <= r.totalTrades
      && r.winRate == r.winningTrades as real / r.totalTrades as real * 100.0
      && 0.0 <= r.winRate <= 100.0
      && r.totalProfitLoss == Sum(ProfitLosses(trades))
      && r.totalReturnPct == r.totalProfitLoss / cfg.initialCapital * 100.0
      && r.benchmarkReturnPct == BenchmarkReturn(priceAt, startDate, endDate)
      && r.alpha == r.totalReturnPct - r.benchmarkReturnPct
      && r.worstTradePct <= r.avgReturnPct <= r.bestTradePct
      && r.maxDrawdownPct >= 0.0
  {
    var trades := ReplayAll(cfg, priceAt, endDate, signals).trades;
    FilterDisjoint(trades, IsWinner, IsLoser);
    var rs := ReturnPcts(trades);
    MeanBounds(rs, SeqMin(rs), SeqMax(rs));
  }
}
