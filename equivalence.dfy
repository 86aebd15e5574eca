/** How the historical replay of `Backtester.simulate_trade` relates to the
    daily updates of the paper ledger: both test a day's price against the
    stop first and the target second, so when both see the same prices they
    leave on the same day for the same reason. At the end of the holding
    period they agree only while that day has a price: the replay looks it
    up separately and gives up without it, the ledger keeps the record open
    for a later day. */
module Equivalence {
  import opened Common
  import opened Dates
  import PaperTrading
  import Backtester

  /** The prices `update_positions` sees on day `d` after the entry of a
      record on `ticker`: the oracle's price, if it has one. */
  function DayPrices(priceAt: Backtester.PriceOracle, ticker: string, entryDate: Instant, d: int): map<string, real>
  {
    var p := priceAt(ticker, AddDays(entryDate, d));
    if p.Some? then map[ticker := p.value] else map[]
  }

  /** A record after the daily updates of days `1..n` after its entry, each
      run at the same time of day as the entry. */
  function PaperDays(cfg: PaperTrading.PaperConfig, t: PaperTrading.Trade, priceAt: Backtester.PriceOracle, n: nat): (r: PaperTrading.Trade)
    requires PaperTrading.Consistent(t)
    ensures PaperTrading.Consistent(r) && PaperTrading.SameEntry(r, t)
  {
    if n == 0 then t
    else
      var prev := PaperDays(cfg, t, priceAt, n - 1);
      PaperTrading.StepTrade(cfg, prev, DayPrices(priceAt, t.ticker, t.entryDate, n), AddDays(t.entryDate, n))
  }

  /** The ledger reads a price of zero as no price; the replay does not. */
  predicate NoZeroPrices(priceAt: Backtester.PriceOracle, ticker: string, entryDate: Instant, n: int)
  {
    forall d | 1 <= d <= n :: priceAt(ticker, AddDays(entryDate, d)) != Some(0.0)
  }

  /** The replay's day search over `d..n` is its search over `d..n-1`, or
      else the test of day `n` alone. */
  lemma {:induction false} FirstExitLast(priceAt: Backtester.PriceOracle, ticker: string, entryDate: Instant, stop: real, target: real, d: int, n: int)
    requires d <= n
    ensures var p := priceAt(ticker, AddDays(entryDate, n));
      var f := Backtester.FirstExit(priceAt, ticker, entryDate, stop, target, d, n - 1);
      Backtester.FirstExit(priceAt, ticker, entryDate, stop, target, d, n)
        == if f.Some? then f
           else if p.Some? && Backtester.DayExit(p.value, stop, target).Some? then
             Some(Backtester.Exit(n, p.value, Backtester.DayExit(p.value, stop, target).value))
           else None
    decreases n - d
  {
    if d < n {
      FirstExitLast(priceAt, ticker, entryDate, stop, target, d + 1, n);
    }
  }

  /** A day-exit test that fires is the ledger's exit chain on any day:
      stop and target are tested before the holding period. */
  lemma DayExitIsLedgerExit(price: real, stop: real, target: real, daysHeld: int, holdDays: int)
    ensures Backtester.DayExit(price, stop, target).Some? ==>
      PaperTrading.ExitReasonFor(price, stop, target, daysHeld, holdDays) == Backtester.DayExit(price, stop, target)
    ensures Backtester.DayExit(price, stop, target).None? ==>
      PaperTrading.ExitReasonFor(price, stop, target, daysHeld, holdDays)
        == (if daysHeld >= holdDays then Some(PaperTrading.TimeLimit) else None)
  {
  }

  /** Fed the same non-zero daily prices for days `1..n` of the holding
      period, the ledger record closes exactly as the replay's day search
      finds: on the same day, at the same price, for the same reason. Before
      the last day of the holding period a search that finds nothing leaves
      the record untouched; on that last day the ledger closes it for the
      time limit at that day's price, or leaves it open when the day has no
      price. */
  lemma {:induction false} DailyUpdatesFollowReplay(cfg: PaperTrading.PaperConfig, t: PaperTrading.Trade, priceAt: Backtester.PriceOracle, n: nat)
    requires PaperTrading.Consistent(t) && PaperTrading.IsOpen(t)
    requires n <= cfg.holdDays
    requires NoZeroPrices(priceAt, t.ticker, t.entryDate, n)
    ensures var found := Backtester.FirstExit(priceAt, t.ticker, t.entryDate, t.stopLoss, t.targetPrice, 1, n);
      var r := PaperDays(cfg, t, priceAt, n);
      var last := priceAt(t.ticker, AddDays(t.entryDate, n));
      && (found.Some? ==>
            && r.status == PaperTrading.Closed
            && r.exitReason == Some(found.value.reason)
            && r.exitPrice == Some(found.value.price)
            && r.exitDate == Some(AddDays(t.entryDate, found.value.day))
            && r.daysHeld == Some(found.value.day))
      && (found.None? && (n < cfg.holdDays || last.None?) ==> r == t)
      && (found.None? && n == cfg.holdDays && n >= 1 && last.Some? ==>
            && r.status == PaperTrading.Closed
            && r.exitReason == Some(PaperTrading.TimeLimit)
            && r.exitPrice == Some(last.value)
            && r.exitDate == Some(AddDays(t.entryDate, n))
            && r.daysHeld == Some(n))
  {
    if n > 0 {
      var stop, target := t.stopLoss, t.targetPrice;
      DailyUpdatesFollowReplay(cfg, t, priceAt, n - 1);
      FirstExitLast(priceAt, t.ticker, t.entryDate, stop, target, 1, n);
      var prev := PaperDays(cfg, t, priceAt, n - 1);
      var prices := DayPrices(priceAt, t.ticker, t.entryDate, n);
      var now := AddDays(t.entryDate, n);
      var earlier := Backtester.FirstExit(priceAt, t.ticker, t.entryDate, stop, target, 1, n - 1);
      if earlier.None? {
        assert prev == t;
        var p := priceAt(t.ticker, now);
        if p.Some? {
          assert p.value != 0.0;
          assert PaperTrading.Updated(t, prices);
          DaysBetweenAddDays(t.entryDate, n);
          DayExitIsLedgerExit(p.value, stop, target, n, cfg.holdDays);
          PaperTrading.StepTradeCloses(cfg, t, prices, now);
        }
      }
    }
  }

  /** The replay and the ledger agree on every simulated trade: a record
      opened at the replay's entry, with the same stop, target and holding
      period, and updated daily on the same non-zero prices, is closed at
      the end of the holding period with the replay's exit day, price and
      reason, time limit included. */
  lemma ReplayAndLedgerAgree(bcfg: Backtester.BacktestConfig, pcfg: PaperTrading.PaperConfig, priceAt: Backtester.PriceOracle,
                             id: nat, ticker: string, entryDate: Instant, entryPrice: real, conviction: int, signalTypes: seq<string>)
    requires entryPrice > 0.0
    requires bcfg.stopLossPct == pcfg.stopLossPct && bcfg.takeProfitPct == pcfg.takeProfitPct
    requires bcfg.holdDays == pcfg.holdDays >= 1
    requires NoZeroPrices(priceAt, ticker, entryDate, bcfg.holdDays)
    requires Backtester.Simulated(bcfg, priceAt, ticker, entryDate, Some(entryPrice), conviction, signalTypes).Some?
    ensures var b := Backtester.Simulated(bcfg, priceAt, ticker, entryDate, Some(entryPrice), conviction, signalTypes).value;
      var t := PaperTrading.NewTrade(pcfg, id, ticker, entryPrice, conviction as real, signalTypes, entryDate);
      var r := PaperDays(pcfg, t, priceAt, pcfg.holdDays);
      && r.status == PaperTrading.Closed
      && r.exitReason == Some(b.exitReason) && r.exitPrice == Some(b.exitPrice)
      && r.exitDate == Some(b.exitDate) && r.daysHeld == Some(b.daysHeld)
  {
    var t := PaperTrading.NewTrade(pcfg, id, ticker, entryPrice, conviction as real, signalTypes, entryDate);
    assert t.stopLoss == Backtester.StopPrice(bcfg, entryPrice);
    assert t.targetPrice == Backtester.TargetPrice(bcfg, entryPrice);
    DailyUpdatesFollowReplay(pcfg, t, priceAt, pcfg.holdDays);
    Backtester.SimulatedExit(bcfg, priceAt, ticker, entryDate, Some(entryPrice), conviction, signalTypes);
  }

  /** Where the two part: when no day of the holding period hits stop or
      target and its last day has no price, the replay yields no trade,
      while the ledger keeps the record open past the holding period. */
  lemma ReplayAndLedgerPart(bcfg: Backtester.BacktestConfig, pcfg: PaperTrading.PaperConfig, priceAt: Backtester.PriceOracle,
                            id: nat, ticker: string, entryDate: Instant, entryPrice: real, conviction: int, signalTypes: seq<string>)
    requires entryPrice > 0.0
    requires bcfg.stopLossPct == pcfg.stopLossPct && bcfg.takeProfitPct == pcfg.takeProfitPct
    requires bcfg.holdDays == pcfg.holdDays >= 1
    requires NoZeroPrices(priceAt, ticker, entryDate, bcfg.holdDays)
    requires Backtester.FirstExit(priceAt, ticker, entryDate, Backtester.StopPrice(bcfg, entryPrice), Backtester.TargetPrice(bcfg, entryPrice), 1, bcfg.holdDays).None?
    requires priceAt(ticker, AddDays(entryDate, bcfg.holdDays)).None?
    ensures Backtester.Simulated(bcfg, priceAt, ticker, entryDate, Some(entryPrice), conviction, signalTypes).None?
    ensures var t := PaperTrading.NewTrade(pcfg, id, ticker, entryPrice, conviction as real, signalTypes, entryDate);
      PaperTrading.IsOpen(PaperDays(pcfg, t, priceAt, pcfg.holdDays))
  {
    var t := PaperTrading.NewTrade(pcfg, id, ticker, entryPrice, conviction as real, signalTypes, entryDate);
    assert t.stopLoss == Backtester.StopPrice(bcfg, entryPrice);
    assert t.targetPrice == Backtester.TargetPrice(bcfg, entryPrice);
    DailyUpdatesFollowReplay(pcfg, t, priceAt, pcfg.holdDays);
  }
}
