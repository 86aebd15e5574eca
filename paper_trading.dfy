/** The paper-trading ledger of `PaperTradingManager`. The `paper_trades`
    table is a sequence of records whose row id is their position plus one
    (an AUTOINCREMENT key on a table nothing deletes from); the
    `paper_trade_snapshots` table is a dictionary keyed by its unique pair
    (trade id, snapshot date). Prices for past dates come from an injected
    oracle instead of the `prices` table. */
module PaperTrading {
  import opened Common
  import opened Dates

  datatype Status = Open | Closed

  datatype ExitReason = StopLoss | TakeProfit | TimeLimit

  /** One row of `paper_trades` (the `notes` and `created_at` columns are
      not modelled). */
  datatype Trade = Trade(
    id: nat, ticker: string, entryDate: Instant, entryPrice: real,
    shares: int, conviction: real, signalTypes: seq<string>,
    positionSize: real, stopLoss: real, targetPrice: real, status: Status,
    exitDate: Option<Instant>, exitPrice: Option<real>,
    exitReason: Option<ExitReason>, returnPct: Option<real>,
    profitLoss: Option<real>, daysHeld: Option<int>)

  /** The columns of a snapshot row besides its key. */
  datatype Snapshot = Snapshot(currentPrice: real, unrealizedPnl: real, unrealizedPct: real)

  /** (trade_id, snapshot_date), unique in the snapshot table. */
  type SnapshotKey = (nat, Instant)

  /** The `paper_trading` section of the configuration, defaults applied. */
  datatype PaperConfig = PaperConfig(
    enabled: bool, minConviction: real, positionSize: real,
    maxOpenPositions: int, holdDays: int, stopLossPct: real, takeProfitPct: real)

  /** The values used for keys absent from the configuration. */
  function DefaultPaperConfig(): PaperConfig
  {
    PaperConfig(false, 60.0, 1000.0, 10, 30, -10.0, 20.0)
  }

  // ---------------------------------------------------------------------
  // Sizing

  /** `calculate_position_size`: conviction 50 buys the base size and every
      conviction point moves it by a fiftieth of the base, with no floor
      and no cap. */
  function PositionSize(base: real, conviction: real): (r: real)
    ensures r == base * conviction / 50.0
  {
    base * (1.0 + (conviction - 50.0) / 50.0)
  }

  /** The documented sizes for a base of 1000. */
  lemma PositionSizeExamples()
    ensures PositionSize(1000.0, 50.0) == 1000.0
    ensures PositionSize(1000.0, 60.0) == 1200.0
    ensures PositionSize(1000.0, 75.0) == 1500.0
    ensures PositionSize(1000.0, 100.0) == 2000.0
  {
  }

  /** The map is linear: equal conviction steps give equal size steps, and
      a negative conviction gives a negative size. */
  lemma PositionSizeLinear(base: real, c1: real, c2: real)
    ensures PositionSize(base, c1) - PositionSize(base, c2) == base * (c1 - c2) / 50.0
    ensures base > 0.0 && c1 < 0.0 ==> PositionSize(base, c1) < 0.0
  {
  }

  // ---------------------------------------------------------------------
  // The ledger and its invariant

  predicate IsOpen(t: Trade)
  {
    t.status == Open
  }

  /** A record's exit columns are all set exactly when it is closed, and its
      entry price is non-zero (it was divided by when the record was made). */
  ghost predicate Consistent(t: Trade)
  {
    && t.entryPrice != 0.0
    && (t.status == Open ==>
          t.exitDate.None? && t.exitPrice.None? && t.exitReason.None?
          && t.returnPct.None? && t.profitLoss.None? && t.daysHeld.None?)
    && (t.status == Closed ==>
          t.exitDate.Some? && t.exitPrice.Some? && t.exitReason.Some?
          && t.returnPct.Some? && t.profitLoss.Some? && t.daysHeld.Some?)
  }

  /** The columns fixed when a record is created. */
  ghost predicate SameEntry(a: Trade, b: Trade)
  {
    && a.id == b.id && a.ticker == b.ticker && a.entryDate == b.entryDate
    && a.entryPrice == b.entryPrice && a.shares == b.shares
    && a.conviction == b.conviction && a.signalTypes == b.signalTypes
    && a.positionSize == b.positionSize && a.stopLoss == b.stopLoss
    && a.targetPrice == b.targetPrice
  }

  ghost predicate RowIds(trades: seq<Trade>)
  {
    forall i | 0 <= i < |trades| :: trades[i].id == i + 1
  }

  /** The `UNIQUE(ticker, entry_date)` constraint. */
  ghost predicate UniqueEntries(trades: seq<Trade>)
  {
    forall i, j | 0 <= i < j < |trades| ::
      trades[i].ticker != trades[j].ticker || trades[i].entryDate != trades[j].entryDate
  }

  ghost predicate AllConsistent(trades: seq<Trade>)
  {
    forall i | 0 <= i < |trades| :: Consistent(trades[i])
  }

  /** Snapshot keys are unique and refer to existing trades. */
  ghost predicate SnapshotsValid(snaps: seq<(SnapshotKey, Snapshot)>, n: nat)
  {
    DistinctKeys(snaps) && forall i | 0 <= i < |snaps| :: 1 <= snaps[i].0.0 <= n
  }

  /** The open count never rises above the cap (a cap below zero keeps the
      ledger empty). */
  ghost predicate WithinCap(cfg: PaperConfig, trades: seq<Trade>)
  {
    OpenCount(trades) <= cfg.maxOpenPositions || OpenCount(trades) == 0
  }

  ghost predicate LedgerValid(cfg: PaperConfig, trades: seq<Trade>, snaps: seq<(SnapshotKey, Snapshot)>)
  {
    && RowIds(trades) && UniqueEntries(trades) && AllConsistent(trades)
    && WithinCap(cfg, trades) && SnapshotsValid(snaps, |trades|)
  }

  /** `_trade_exists`: some record has this ticker and entry date. */
  function TradeExists(trades: seq<Trade>, ticker: string, date: Instant): (r: bool)
    ensures r <==> exists i | 0 <= i < |trades| :: trades[i].ticker == ticker && trades[i].entryDate == date
  {
    if trades == [] then false
    else
      var init := trades[..|trades| - 1];
      assert forall i | 0 <= i < |init| :: init[i] == trades[i];
      TradeExists(init, ticker, date)
      || (trades[|trades| - 1].ticker == ticker && trades[|trades| - 1].entryDate == date)
  }

  /** `_count_open_positions`: the number of records with status open. */
  function OpenCount(trades: seq<Trade>): (n: nat)
    ensures n <= |trades|
  {
    |Filter(trades, IsOpen)|
  }

  lemma {:induction false} OpenCountZeroIff(trades: seq<Trade>)
    ensures OpenCount(trades) == 0 <==> forall i | 0 <= i < |trades| :: !IsOpen(trades[i])
  {
    if OpenCount(trades) == 0 {
      forall i | 0 <= i < |trades|
        ensures !IsOpen(trades[i])
      {
        FilterMembers(trades, IsOpen, trades[i]);
      }
    } else {
      var f := Filter(trades, IsOpen);
      FilterMembers(trades, IsOpen, f[0]);
      assert f[0] in f;
    }
  }

  lemma OpenCountAppend(trades: seq<Trade>, t: Trade)
    ensures OpenCount(trades + [t]) == OpenCount(trades) + (if IsOpen(t) then 1 else 0)
  {
    FilterAppend(trades, t, IsOpen);
  }

  /** Replacing one record changes the count by that record's status only. */
  lemma OpenCountUpdate(trades: seq<Trade>, i: nat, t: Trade)
    requires i < |trades|
    ensures OpenCount(trades[i := t]) + (if IsOpen(trades[i]) then 1 else 0)
         == OpenCount(trades) + (if IsOpen(t) then 1 else 0)
  {
    var a, b := trades[..i], trades[i + 1..];
    assert trades == (a + [trades[i]]) + b;
    assert trades[i := t] == (a + [t]) + b;
    FilterConcat(a + [trades[i]], b, IsOpen);
    FilterConcat(a + [t], b, IsOpen);
    FilterAppend(a, trades[i], IsOpen);
    FilterAppend(a, t, IsOpen);
  }

  // ---------------------------------------------------------------------
  // Creation

  /** The record `create_paper_trade` inserts: whole shares (`int` of the
      quotient, truncating), the position actually bought, and the stop and
      target a fixed percentage away from the entry price. */
  function NewTrade(cfg: PaperConfig, id: nat, ticker: string, entryPrice: real,
                    conviction: real, signalTypes: seq<string>, entryDate: Instant): (t: Trade)
    requires entryPrice != 0.0
    ensures IsOpen(t) && Consistent(t)
    ensures t.id == id && t.ticker == ticker && t.entryDate == entryDate
    ensures t.entryPrice == entryPrice && t.conviction == conviction
  {
    var shares := Trunc(PositionSize(cfg.positionSize, conviction) / entryPrice);
    Trade(id, ticker, entryDate, entryPrice, shares, conviction, signalTypes,
          shares as real * entryPrice,
          entryPrice * (1.0 + cfg.stopLossPct / 100.0),
          entryPrice * (1.0 + cfg.takeProfitPct / 100.0),
          Open, None, None, None, None, None, None)
  }

  lemma MulLe(a: real, b: real, p: real)
    requires p > 0.0 && a <= b
    ensures a * p <= b * p
  {
  }

  lemma DivMul(x: real, p: real)
    requires p > 0.0
    ensures x / p * p == x
  {
  }

  /** For a positive price and a non-negative size, the shares are the
      size over the price rounded down (less than one share short of it),
      and the position bought never exceeds the size. */
  lemma NewTradeSizing(cfg: PaperConfig, id: nat, ticker: string, entryPrice: real,
                       conviction: real, signalTypes: seq<string>, entryDate: Instant)
    requires entryPrice > 0.0 && PositionSize(cfg.positionSize, conviction) >= 0.0
    ensures var t := NewTrade(cfg, id, ticker, entryPrice, conviction, signalTypes, entryDate);
      var size := PositionSize(cfg.positionSize, conviction);
      && t.shares >= 0
      && t.shares as real <= size / entryPrice < t.shares as real + 1.0
      && t.positionSize == t.shares as real * entryPrice
      && 0.0 <= t.positionSize <= size
  {
    var size := PositionSize(cfg.positionSize, conviction);
    var q := size / entryPrice;
    var n := Trunc(q);
    var t := NewTrade(cfg, id, ticker, entryPrice, conviction, signalTypes, entryDate);
    assert q >= 0.0;
    assert t.shares == n && t.positionSize == n as real * entryPrice;
    MulLe(0.0, n as real, entryPrice);
    MulLe(n as real, q, entryPrice);
    DivMul(size, entryPrice);
  }

  /** With a negative stop percentage and a positive target percentage, a
      new record's entry price lies strictly between its stop and target. */
  lemma NewTradeBracketsEntry(cfg: PaperConfig, id: nat, ticker: string, entryPrice: real,
                              conviction: real, signalTypes: seq<string>, entryDate: Instant)
    requires entryPrice > 0.0 && cfg.stopLossPct < 0.0 < cfg.takeProfitPct
    ensures var t := NewTrade(cfg, id, ticker, entryPrice, conviction, signalTypes, entryDate);
      t.stopLoss < entryPrice < t.targetPrice
  {
    var t := NewTrade(cfg, id, ticker, entryPrice, conviction, signalTypes, entryDate);
    ScaleBelow(entryPrice, 1.0 + cfg.stopLossPct / 100.0);
    ScaleAbove(entryPrice, 1.0 + cfg.takeProfitPct / 100.0);
  }

  lemma ScaleBelow(p: real, f: real)
    requires p > 0.0 && f < 1.0
    ensures p * f < p
  {
  }

  lemma ScaleAbove(p: real, f: real)
    requires p > 0.0 && f > 1.0
    ensures p * f > p
  {
  }

  /** The documented records: conviction 75 at 150 buys 10 shares for 1500,
      and an entry at 100 has its stop at 90 and its target at 120. */
  lemma NewTradeExamples(id: nat)
    ensures var t := NewTrade(DefaultPaperConfig(), id, "AAPL", 150.0, 75.0, ["velocity_spike"], 0);
      t.shares == 10 && t.positionSize == 1500.0
    ensures var t := NewTrade(DefaultPaperConfig(), id, "AAPL", 100.0, 60.0, ["velocity_spike"], 0);
      t.stopLoss == 90.0 && t.targetPrice == 120.0
  {
    assert PositionSize(1000.0, 75.0) / 150.0 == 10.0;
  }

  /** `create_paper_trade` on the ledger: the new row id and the extended
      ledger, or `None` and the ledger as it was. */
  function Create(cfg: PaperConfig, trades: seq<Trade>, ticker: string, entryPrice: real,
                  conviction: real, signalTypes: seq<string>, entryDate: Instant): (r: (Option<nat>, seq<Trade>))
    requires entryPrice != 0.0
    ensures r.0.None? ==> r.1 == trades
    ensures r.0.Some? ==>
      (r.0 == Some(|trades| + 1)
       && r.1 == trades + [NewTrade(cfg, |trades| + 1, ticker, entryPrice, conviction, signalTypes, entryDate)])
  {
    if !cfg.enabled then (None, trades)
    else if TradeExists(trades, ticker, entryDate) then (None, trades)
    else if OpenCount(trades) >= cfg.maxOpenPositions then (None, trades)
    else (Some(|trades| + 1), trades + [NewTrade(cfg, |trades| + 1, ticker, entryPrice, conviction, signalTypes, entryDate)])
  }

  /** A record is created exactly when trading is enabled, no record has the
      same ticker and entry date, and fewer than the cap are open. */
  lemma CreateIff(cfg: PaperConfig, trades: seq<Trade>, ticker: string, entryPrice: real,
                  conviction: real, signalTypes: seq<string>, entryDate: Instant)
    requires entryPrice != 0.0
    ensures Create(cfg, trades, ticker, entryPrice, conviction, signalTypes, entryDate).0.Some?
        <==> cfg.enabled
             && (forall i | 0 <= i < |trades| :: trades[i].ticker != ticker || trades[i].entryDate != entryDate)
             && OpenCount(trades) < cfg.maxOpenPositions
  {
  }

  /** Creating again with the same ticker and date is skipped: creation is
      idempotent. */
  lemma {:induction false} CreateIdempotent(cfg: PaperConfig, trades: seq<Trade>, ticker: string, entryPrice: real,
                                            conviction: real, signalTypes: seq<string>, entryDate: Instant,
                                            price2: real, conviction2: real, types2: seq<string>)
    requires entryPrice != 0.0 && price2 != 0.0
    ensures var r := Create(cfg, trades, ticker, entryPrice, conviction, signalTypes, entryDate);
      Create(cfg, r.1, ticker, price2, conviction2, types2, entryDate) == (None, r.1)
  {
    var r := Create(cfg, trades, ticker, entryPrice, conviction, signalTypes, entryDate);
    if r.0.Some? {
      assert r.1[|trades|].ticker == ticker && r.1[|trades|].entryDate == entryDate;
    }
  }

  /** Creation keeps the ledger invariant: unique (ticker, entry date),
      row ids, consistent records, and the open count within the cap. */
  lemma {:induction false} CreateKeepsValid(cfg: PaperConfig, trades: seq<Trade>, snaps: seq<(SnapshotKey, Snapshot)>,
                                            ticker: string, entryPrice: real, conviction: real,
                                            signalTypes: seq<string>, entryDate: Instant)
    requires entryPrice != 0.0 && LedgerValid(cfg, trades, snaps)
    ensures LedgerValid(cfg, Create(cfg, trades, ticker, entryPrice, conviction, signalTypes, entryDate).1, snaps)
  {
    var r := Create(cfg, trades, ticker, entryPrice, conviction, signalTypes, entryDate);
    if r.0.Some? {
      var t := NewTrade(cfg, |trades| + 1, ticker, entryPrice, conviction, signalTypes, entryDate);
      OpenCountAppend(trades, t);
      assert !TradeExists(trades, ticker, entryDate);
      assert r.1 == trades + [t];
      forall i, j | 0 <= i < j < |r.1|
        ensures r.1[i].ticker != r.1[j].ticker || r.1[i].entryDate != r.1[j].entryDate
      {
        if j == |trades| {
          assert r.1[i] == trades[i];
        }
      }
    }
  }

  // ---------------------------------------------------------------------
  // Daily update and closing

  /** `current_prices.get(ticker)` read through `if not current_price`: a
      missing ticker and a price of exactly 0.0 both mean no price. */
  function PriceOf(prices: map<string, real>, ticker: string): (r: Option<real>)
    ensures r.Some? <==> ticker in prices && prices[ticker] != 0.0
    ensures r.Some? ==> r.value == prices[ticker]
  {
    if ticker in prices && prices[ticker] != 0.0 then Some(prices[ticker]) else None
  }

  /** The exit chain of `update_positions`: stop first, then target, then
      the holding period. */
  function ExitReasonFor(price: real, stopLoss: real, target: real, daysHeld: int, holdDays: int): (r: Option<ExitReason>)
    ensures r == Some(StopLoss) <==> price <= stopLoss
    ensures r == Some(TakeProfit) <==> stopLoss < price && target <= price
    ensures r == Some(TimeLimit) <==> stopLoss < price < target && holdDays <= daysHeld
    ensures r == None <==> stopLoss < price < target && daysHeld < holdDays
  {
    if price <= stopLoss then Some(StopLoss)
    else if price >= target then Some(TakeProfit)
    else if daysHeld >= holdDays then Some(TimeLimit)
    else None
  }

  /** `_close_position` on one record: status closed, every exit column
      set, and the entry columns kept. */
  function Close(t: Trade, exitPrice: real, exitDate: Instant, reason: ExitReason, daysHeld: int): (r: Trade)
    requires t.entryPrice != 0.0
    ensures r.status == Closed && Consistent(r) && SameEntry(r, t)
    ensures r.exitPrice == Some(exitPrice) && r.exitDate == Some(exitDate)
    ensures r.exitReason == Some(reason) && r.daysHeld == Some(daysHeld)
  {
    t.(status := Closed, exitDate := Some(exitDate), exitPrice := Some(exitPrice),
       exitReason := Some(reason),
       profitLoss := Some((exitPrice - t.entryPrice) * t.shares as real),
       returnPct := Some((exitPrice - t.entryPrice) / t.entryPrice * 100.0),
       daysHeld := Some(daysHeld))
  }

  lemma SignsAgree(d: real, e: real, n: real)
    requires e > 0.0 && n > 0.0
    ensures d * n > 0.0 <==> d / e * 100.0 > 0.0
    ensures d * n < 0.0 <==> d / e * 100.0 < 0.0
  {
    if d > 0.0 {
      assert d * n > 0.0;
      assert d / e > 0.0;
    } else if d < 0.0 {
      assert d * n < 0.0;
      assert d / e < 0.0;
    }
  }

  /** For a long position (positive entry price and shares) the profit and
      the return of a closed record have the same sign. */
  lemma CloseSignsAgree(t: Trade, exitPrice: real, exitDate: Instant, reason: ExitReason, daysHeld: int)
    requires t.entryPrice > 0.0 && t.shares > 0
    ensures var r := Close(t, exitPrice, exitDate, reason, daysHeld);
      && (r.profitLoss.value > 0.0 <==> r.returnPct.value > 0.0)
      && (r.profitLoss.value < 0.0 <==> r.returnPct.value < 0.0)
      && (r.profitLoss.value > 0.0 <==> exitPrice > t.entryPrice)
  {
    SignsAgree(exitPrice - t.entryPrice, t.entryPrice, t.shares as real);
  }

  /** The daily snapshot of an open record at `price`. */
  function SnapshotOf(t: Trade, price: real): (s: Snapshot)
    requires t.entryPrice != 0.0
    ensures s.currentPrice == price
  {
    Snapshot(price, (price - t.entryPrice) * t.shares as real,
             (price - t.entryPrice) / t.entryPrice * 100.0)
  }

  /** Whether `update_positions` touches the record: it is open and has a
      price. */
  predicate Updated(t: Trade, prices: map<string, real>)
  {
    IsOpen(t) && PriceOf(prices, t.ticker).Some?
  }

  /** One iteration of `update_positions` on the record: closed when an exit
      condition holds on the day's price; otherwise left as it was. */
  function StepTrade(cfg: PaperConfig, t: Trade, prices: map<string, real>, now: Instant): (r: Trade)
    requires Consistent(t)
    ensures Consistent(r) && SameEntry(r, t)
    ensures !Updated(t, prices) ==> r == t
    ensures IsOpen(r) ==> r == t
  {
    if !Updated(t, prices) then t
    else
      var p := PriceOf(prices, t.ticker).value;
      var days := DaysBetween(now, t.entryDate);
      match ExitReasonFor(p, t.stopLoss, t.targetPrice, days, cfg.holdDays)
      case None => t
      case Some(reason) => Close(t, p, now, reason, days)
  }

  /** An updated record closes exactly when its exit chain picks a reason,
      and then with that reason, the day's price and the days held. */
  lemma StepTradeCloses(cfg: PaperConfig, t: Trade, prices: map<string, real>, now: Instant)
    requires Consistent(t) && Updated(t, prices)
    ensures var p := prices[t.ticker];
      var days := DaysBetween(now, t.entryDate);
      var reason := ExitReasonFor(p, t.stopLoss, t.targetPrice, days, cfg.holdDays);
      var r := StepTrade(cfg, t, prices, now);
      && (r.status == Closed <==> reason.Some?)
      && (reason.Some? ==>
            (r.exitReason == reason && r.exitPrice == Some(p)
             && r.exitDate == Some(now) && r.daysHeld == Some(days)))
  {
  }

  /** The snapshot table after the loop has visited `trades[..k]`: every
      visited record that was updated has its (id, day) row inserted or
      replaced. */
  function SnapshotsAfter(snaps: seq<(SnapshotKey, Snapshot)>, trades: seq<Trade>, k: nat,
                          prices: map<string, real>, now: Instant): (r: seq<(SnapshotKey, Snapshot)>)
    requires k <= |trades| && DistinctKeys(snaps)
    requires forall i | 0 <= i < k :: trades[i].entryPrice != 0.0
    ensures DistinctKeys(r)
  {
    if k == 0 then snaps
    else
      var s := SnapshotsAfter(snaps, trades, k - 1, prices, now);
      var t := trades[k - 1];
      if Updated(t, prices) then Put(s, (t.id, now), SnapshotOf(t, PriceOf(prices, t.ticker).value))
      else s
  }

  lemma SnapshotsAfterStep(snaps: seq<(SnapshotKey, Snapshot)>, trades: seq<Trade>, k: nat,
                           prices: map<string, real>, now: Instant)
    requires k < |trades| && DistinctKeys(snaps)
    requires forall i | 0 <= i <= k :: trades[i].entryPrice != 0.0
    ensures SnapshotsAfter(snaps, trades, k + 1, prices, now)
         == if Updated(trades[k], prices)
            then Put(SnapshotsAfter(snaps, trades, k, prices, now), (trades[k].id, now),
                     SnapshotOf(trades[k], PriceOf(prices, trades[k].ticker).value))
            else SnapshotsAfter(snaps, trades, k, prices, now)
  {
  }

  /** The records after the first `k` iterations of `update_positions`. */
  ghost function StepPrefix(cfg: PaperConfig, ts: seq<Trade>, k: nat, prices: map<string, real>, now: Instant): (r: seq<Trade>)
    requires k <= |ts| && AllConsistent(ts)
    ensures |r| == |ts|
  {
    seq(|ts|, (j: int) requires 0 <= j < |ts| => if j < k then StepTrade(cfg, ts[j], prices, now) else ts[j])
  }

  /** After the whole loop every record has been stepped. */
  lemma StepPrefixAll(cfg: PaperConfig, ts: seq<Trade>, prices: map<string, real>, now: Instant)
    requires AllConsistent(ts)
    ensures forall i | 0 <= i < |ts| :: StepPrefix(cfg, ts, |ts|, prices, now)[i] == StepTrade(cfg, ts[i], prices, now)
  {
  }

  /** One more iteration steps the record at position `k`. */
  lemma StepPrefixStep(cfg: PaperConfig, ts: seq<Trade>, k: nat, prices: map<string, real>, now: Instant)
    requires k < |ts| && AllConsistent(ts)
    ensures StepPrefix(cfg, ts, k, prices, now)[k := StepTrade(cfg, ts[k], prices, now)]
         == StepPrefix(cfg, ts, k + 1, prices, now)
  {
  }

  /** After the loop, an updated record has the day's snapshot. */
  lemma {:induction false} SnapshotRecorded(snaps: seq<(SnapshotKey, Snapshot)>, trades: seq<Trade>, k: nat,
                                            prices: map<string, real>, now: Instant, j: nat)
    requires k <= |trades| && DistinctKeys(snaps) && RowIds(trades)
    requires forall i | 0 <= i < k :: trades[i].entryPrice != 0.0
    requires j < k && Updated(trades[j], prices)
    ensures Lookup(SnapshotsAfter(snaps, trades, k, prices, now), (trades[j].id, now))
         == Some(SnapshotOf(trades[j], prices[trades[j].ticker]))
  {
    var s := SnapshotsAfter(snaps, trades, k - 1, prices, now);
    var t := trades[k - 1];
    if j == k - 1 {
      LookupPutSame(s, (t.id, now), SnapshotOf(t, prices[t.ticker]));
    } else {
      SnapshotRecorded(snaps, trades, k - 1, prices, now, j);
      if Updated(t, prices) {
        LookupPutOther(s, (t.id, now), SnapshotOf(t, prices[t.ticker]), (trades[j].id, now));
      }
    }
  }

  /** Rows of records the loop does not update, and rows of other days, are
      left as they were. */
  lemma {:induction false} SnapshotUntouched(snaps: seq<(SnapshotKey, Snapshot)>, trades: seq<Trade>, k: nat,
                                             prices: map<string, real>, now: Instant, key: SnapshotKey)
    requires k <= |trades| && DistinctKeys(snaps)
    requires forall i | 0 <= i < k :: trades[i].entryPrice != 0.0
    requires forall i | 0 <= i < k :: Updated(trades[i], prices) ==> (trades[i].id, now) != key
    ensures Lookup(SnapshotsAfter(snaps, trades, k, prices, now), key) == Lookup(snaps, key)
  {
    if k > 0 {
      var s := SnapshotsAfter(snaps, trades, k - 1, prices, now);
      var t := trades[k - 1];
      SnapshotUntouched(snaps, trades, k - 1, prices, now, key);
      if Updated(t, prices) {
        LookupPutOther(s, (t.id, now), SnapshotOf(t, prices[t.ticker]), key);
      }
    }
  }

  /** The snapshot keys after the loop still refer to existing records. */
  lemma {:induction false} SnapshotsAfterRefer(snaps: seq<(SnapshotKey, Snapshot)>, trades: seq<Trade>, k: nat,
                                               prices: map<string, real>, now: Instant)
    requires k <= |trades| && SnapshotsValid(snaps, |trades|) && RowIds(trades)
    requires forall i | 0 <= i < k :: trades[i].entryPrice != 0.0
    ensures SnapshotsValid(SnapshotsAfter(snaps, trades, k, prices, now), |trades|)
  {
    if k > 0 {
      SnapshotsAfterRefer(snaps, trades, k - 1, prices, now);
    }
  }

  /** Replacing a record by one with the same entry columns that is not
      more open keeps the ledger invariant. */
  lemma {:induction false} ReplaceKeepsValid(cfg: PaperConfig, trades: seq<Trade>, snaps: seq<(SnapshotKey, Snapshot)>,
                                             i: nat, t: Trade)
    requires LedgerValid(cfg, trades, snaps) && i < |trades|
    requires SameEntry(t, trades[i]) && Consistent(t) && (IsOpen(t) ==> IsOpen(trades[i]))
    ensures LedgerValid(cfg, trades[i := t], snaps)
  {
    var r := trades[i := t];
    OpenCountUpdate(trades, i, t);
    forall a, b | 0 <= a < b < |r|
      ensures r[a].ticker != r[b].ticker || r[a].entryDate != r[b].entryDate
    {
      assert trades[a].ticker != trades[b].ticker || trades[a].entryDate != trades[b].entryDate;
    }
  }

  /** Writing a snapshot of an existing record keeps the snapshot table
      valid. */
  lemma PutKeepsSnapshotsValid(snaps: seq<(SnapshotKey, Snapshot)>, n: nat, key: SnapshotKey, v: Snapshot)
    requires SnapshotsValid(snaps, n) && 1 <= key.0 <= n
    ensures SnapshotsValid(Put(snaps, key, v), n)
  {
  }

  /** Any number of iterations of `update_positions` keeps the ledger
      invariant. */
  lemma {:induction false} UpdatePrefixValid(cfg: PaperConfig, t0: seq<Trade>, s0: seq<(SnapshotKey, Snapshot)>,
                                             k: nat, prices: map<string, real>, now: Instant)
    requires LedgerValid(cfg, t0, s0) && k <= |t0|
    ensures LedgerValid(cfg, StepPrefix(cfg, t0, k, prices, now), SnapshotsAfter(s0, t0, k, prices, now))
  {
    if k == 0 {
      assert StepPrefix(cfg, t0, 0, prices, now) == t0;
    } else {
      var j := k - 1;
      UpdatePrefixValid(cfg, t0, s0, j, prices, now);
      var p := StepPrefix(cfg, t0, j, prices, now);
      var s := SnapshotsAfter(s0, t0, j, prices, now);
      StepPrefixStep(cfg, t0, j, prices, now);
      SnapshotsAfterStep(s0, t0, j, prices, now);
      var t := t0[j];
      assert p[j] == t;
      if Updated(t, prices) {
        var v := SnapshotOf(t, PriceOf(prices, t.ticker).value);
        PutKeepsSnapshotsValid(s, |p|, (t.id, now), v);
        ReplaceKeepsValid(cfg, p, Put(s, (t.id, now), v), j, StepTrade(cfg, t, prices, now));
      } else {
        ReplaceKeepsValid(cfg, p, s, j, StepTrade(cfg, t, prices, now));
      }
    }
  }

  // ---------------------------------------------------------------------
  // Backfill

  /** A row of the `signals` table as the backfill query reads it; an empty
      or NULL trigger list is `None`. */
  datatype StoredSignal = StoredSignal(ticker: string, conviction: real,
                                       triggers: Option<seq<string>>, generatedAt: Instant)

  /** `json.loads(triggers_json) if triggers_json else []`. */
  function SignalTypesOf(s: StoredSignal): seq<string>
  {
    if s.triggers.Some? then s.triggers.value else []
  }

  /** The query's WHERE clause. */
  function Qualifies(cutoff: Instant, minConviction: real): StoredSignal -> bool
  {
    (s: StoredSignal) => s.generatedAt >= cutoff && s.conviction >= minConviction
  }

  /** Sorting key for ORDER BY generated_at ASC as a descending sort. */
  function EarliestFirst(s: StoredSignal): real
  {
    -(s.generatedAt as real)
  }

  /** The backfill query: the qualifying signals in ascending order of
      generation time (ties in table order). */
  function BackfillQuery(signals: seq<StoredSignal>, cutoff: Instant, minConviction: real): (r: seq<StoredSignal>)
    ensures |r| <= |signals|
  {
    SortDesc(Filter(signals, Qualifies(cutoff, minConviction)), EarliestFirst)
  }

  /** The query returns exactly the qualifying signals, each as often as it
      occurs, ordered by generation time. */
  lemma BackfillQueryCorrect(signals: seq<StoredSignal>, cutoff: Instant, minConviction: real)
    ensures var r := BackfillQuery(signals, cutoff, minConviction);
      && (forall i, j | 0 <= i < j < |r| :: r[i].generatedAt <= r[j].generatedAt)
      && multiset(r) == multiset(Filter(signals, Qualifies(cutoff, minConviction)))
      && (forall s :: s in r <==> s in signals && s.generatedAt >= cutoff && s.conviction >= minConviction)
  {
    BackfillQueryOrdered(signals, cutoff, minConviction);
    BackfillQueryMembers(signals, cutoff, minConviction);
  }

  lemma BackfillQueryOrdered(signals: seq<StoredSignal>, cutoff: Instant, minConviction: real)
    ensures var r := BackfillQuery(signals, cutoff, minConviction);
      && (forall i, j | 0 <= i < j < |r| :: r[i].generatedAt <= r[j].generatedAt)
      && multiset(r) == multiset(Filter(signals, Qualifies(cutoff, minConviction)))
  {
    var f := Filter(signals, Qualifies(cutoff, minConviction));
    var r := BackfillQuery(signals, cutoff, minConviction);
    SortDescCorrect(f, EarliestFirst);
    forall i, j | 0 <= i < j < |r|
      ensures r[i].generatedAt <= r[j].generatedAt
    {
      assert EarliestFirst(r[i]) >= EarliestFirst(r[j]);
    }
  }

  lemma BackfillQueryMembers(signals: seq<StoredSignal>, cutoff: Instant, minConviction: real)
    ensures var r := BackfillQuery(signals, cutoff, minConviction);
      forall s :: s in r <==> s in signals && s.generatedAt >= cutoff && s.conviction >= minConviction
  {
    var f := Filter(signals, Qualifies(cutoff, minConviction));
    var r := BackfillQuery(signals, cutoff, minConviction);
    SortDescCorrect(f, EarliestFirst);
    forall s
      ensures s in r <==> s in signals && s.generatedAt >= cutoff && s.conviction >= minConviction
    {
      assert s in r <==> s in multiset(r);
      assert s in f <==> s in multiset(f);
      FilterMembers(signals, Qualifies(cutoff, minConviction), s);
    }
  }

  /** `_get_historical_price` read through `if not entry_price`. */
  function EntryPriceOf(priceAt: (string, Instant) -> Option<real>, s: StoredSignal): (r: Option<real>)
    ensures r.Some? ==> r.value != 0.0 && priceAt(s.ticker, s.generatedAt) == r
    ensures r.None? ==> priceAt(s.ticker, s.generatedAt) in {None, Some(0.0)}
  {
    var p := priceAt(s.ticker, s.generatedAt);
    if p.Some? && p.value != 0.0 then p else None
  }

  /** The result of backfilling: created count, skipped count, ledger. */
  datatype BackfillState = BackfillState(created: nat, skipped: nat, trades: seq<Trade>)

  /** One iteration of the backfill loop. */
  function BackfillStep(cfg: PaperConfig, st: BackfillState, s: StoredSignal,
                        priceAt: (string, Instant) -> Option<real>): (r: BackfillState)
    ensures r.created + r.skipped == st.created + st.skipped + 1
  {
    match EntryPriceOf(priceAt, s)
    case None => st.(skipped := st.skipped + 1)
    case Some(p) =>
      var c := Create(cfg, st.trades, s.ticker, p, s.conviction, SignalTypesOf(s), s.generatedAt);
      if c.0.Some? then BackfillState(st.created + 1, st.skipped, c.1)
      else st.(skipped := st.skipped + 1)
  }

  /** The backfill loop over `queue`, from a ledger `trades`: every signal
      is counted once, and the ledger grows by one record per creation. */
  function BackfillRun(cfg: PaperConfig, trades: seq<Trade>, queue: seq<StoredSignal>,
                       priceAt: (string, Instant) -> Option<real>): (r: BackfillState)
    ensures r.created + r.skipped == |queue|
    ensures |r.trades| == |trades| + r.created
    ensures r.trades[..|trades|] == trades
  {
    if queue == [] then BackfillState(0, 0, trades)
    else
      var st := BackfillRun(cfg, trades, queue[..|queue| - 1], priceAt);
      var s := queue[|queue| - 1];
      var r := BackfillStep(cfg, st, s, priceAt);
      assert r.trades[..|trades|] == st.trades[..|trades|];
      r
  }

  /** The run over one more signal is one more step. */
  lemma RunPrefixStep(cfg: PaperConfig, trades: seq<Trade>, queue: seq<StoredSignal>, i: nat,
                      priceAt: (string, Instant) -> Option<real>)
    requires i < |queue|
    ensures BackfillRun(cfg, trades, queue[..i + 1], priceAt)
         == BackfillStep(cfg, BackfillRun(cfg, trades, queue[..i], priceAt), queue[i], priceAt)
  {
    assert queue[..i + 1][..i] == queue[..i];
  }

  /** A signal whose creation would now be skipped. */
  ghost predicate Settled(cfg: PaperConfig, trades: seq<Trade>, s: StoredSignal,
                          priceAt: (string, Instant) -> Option<real>)
  {
    || !cfg.enabled
    || EntryPriceOf(priceAt, s).None?
    || TradeExists(trades, s.ticker, s.generatedAt)
    || OpenCount(trades) >= cfg.maxOpenPositions
  }

  lemma SettledStep(cfg: PaperConfig, st: BackfillState, s: StoredSignal,
                    priceAt: (string, Instant) -> Option<real>)
    requires Settled(cfg, st.trades, s, priceAt)
    ensures BackfillStep(cfg, st, s, priceAt).trades == st.trades
  {
  }

  /** Extending the ledger keeps a settled signal settled: records and open
      records only accumulate. */
  lemma SettledGrows(cfg: PaperConfig, a: seq<Trade>, b: seq<Trade>, s: StoredSignal,
                     priceAt: (string, Instant) -> Option<real>)
    requires Settled(cfg, a, s, priceAt)
    ensures Settled(cfg, a + b, s, priceAt)
  {
    if TradeExists(a, s.ticker, s.generatedAt) {
      var i :| 0 <= i < |a| && a[i].ticker == s.ticker && a[i].entryDate == s.generatedAt;
      assert (a + b)[i] == a[i];
    }
    FilterConcat(a, b, IsOpen);
  }

  /** After one step the signal is settled in the step's ledger. */
  lemma StepSettles(cfg: PaperConfig, st: BackfillState, s: StoredSignal,
                    priceAt: (string, Instant) -> Option<real>)
    ensures Settled(cfg, BackfillStep(cfg, st, s, priceAt).trades, s, priceAt)
  {
    var r := BackfillStep(cfg, st, s, priceAt);
    if EntryPriceOf(priceAt, s).Some? && cfg.enabled && !TradeExists(st.trades, s.ticker, s.generatedAt)
       && OpenCount(st.trades) < cfg.maxOpenPositions {
      assert r.trades[|st.trades|].ticker == s.ticker && r.trades[|st.trades|].entryDate == s.generatedAt;
    }
  }

  /** Every queued signal is settled in the ledger the whole run leaves. */
  lemma {:induction false} RunSettles(cfg: PaperConfig, trades: seq<Trade>, queue: seq<StoredSignal>,
                                      priceAt: (string, Instant) -> Option<real>, k: nat)
    requires k < |queue|
    ensures Settled(cfg, BackfillRun(cfg, trades, queue, priceAt).trades, queue[k], priceAt)
  {
    var init := queue[..|queue| - 1];
    var st := BackfillRun(cfg, trades, init, priceAt);
    var fin := BackfillRun(cfg, trades, queue, priceAt).trades;
    if k == |queue| - 1 {
      StepSettles(cfg, st, queue[k], priceAt);
    } else {
      RunSettles(cfg, trades, init, priceAt, k);
      assert init[k] == queue[k];
      var b := fin[|st.trades|..];
      assert fin[..|st.trades|] == st.trades;
      assert fin == st.trades + b;
      SettledGrows(cfg, st.trades, b, queue[k], priceAt);
    }
  }

  /** A run over signals that are all settled changes nothing. */
  lemma {:induction false} RunOverSettled(cfg: PaperConfig, trades: seq<Trade>, queue: seq<StoredSignal>,
                                          priceAt: (string, Instant) -> Option<real>)
    requires forall k | 0 <= k < |queue| :: Settled(cfg, trades, queue[k], priceAt)
    ensures BackfillRun(cfg, trades, queue, priceAt).trades == trades
  {
    if queue != [] {
      var init := queue[..|queue| - 1];
      assert forall k | 0 <= k < |init| :: init[k] == queue[k];
      RunOverSettled(cfg, trades, init, priceAt);
      SettledStep(cfg, BackfillRun(cfg, trades, init, priceAt), queue[|queue| - 1], priceAt);
    }
  }

  /** Backfilling twice over the same signals leaves the same ledger as
      backfilling once, and the second run creates nothing. */
  lemma BackfillIdempotent(cfg: PaperConfig, trades: seq<Trade>, queue: seq<StoredSignal>,
                           priceAt: (string, Instant) -> Option<real>)
    ensures var once := BackfillRun(cfg, trades, queue, priceAt).trades;
      var twice := BackfillRun(cfg, once, queue, priceAt);
      twice.trades == once && twice.created == 0
  {
    var once := BackfillRun(cfg, trades, queue, priceAt).trades;
    forall k | 0 <= k < |queue|
      ensures Settled(cfg, once, queue[k], priceAt)
    {
      RunSettles(cfg, trades, queue, priceAt, k);
    }
    RunOverSettled(cfg, once, queue, priceAt);
  }

  /** Every record a run adds comes from a queued signal that has a price:
      same ticker, entry date and conviction, entered at the oracle's
      price. */
  lemma {:induction false} BackfillCreatesFromSignals(cfg: PaperConfig, trades: seq<Trade>, queue: seq<StoredSignal>,
                                                      priceAt: (string, Instant) -> Option<real>, i: nat)
    requires var r := BackfillRun(cfg, trades, queue, priceAt); |trades| <= i < |r.trades|
    ensures var t := BackfillRun(cfg, trades, queue, priceAt).trades[i];
      exists s | s in queue ::
        && t.ticker == s.ticker && t.entryDate == s.generatedAt && t.conviction == s.conviction
        && priceAt(s.ticker, s.generatedAt) == Some(t.entryPrice) && t.entryPrice != 0.0
  {
    var init := queue[..|queue| - 1];
    var st := BackfillRun(cfg, trades, init, priceAt);
    var s := queue[|queue| - 1];
    var t := BackfillRun(cfg, trades, queue, priceAt).trades[i];
    if i < |st.trades| {
      BackfillCreatesFromSignals(cfg, trades, init, priceAt, i);
      assert BackfillRun(cfg, trades, queue, priceAt).trades[..|st.trades|] == st.trades
      by {
        assert BackfillStep(cfg, st, s, priceAt).trades[..|st.trades|] == st.trades;
      }
      assert t == st.trades[i];
      var s' :| s' in init && t.ticker == s'.ticker && t.entryDate == s'.generatedAt && t.conviction == s'.conviction
        && priceAt(s'.ticker, s'.generatedAt) == Some(t.entryPrice) && t.entryPrice != 0.0;
      assert s' in queue;
    } else {
      assert s in queue;
    }
  }

  // ---------------------------------------------------------------------
  // Reports

  /** The closed-trade statistics of `get_performance_summary`. */
  datatype ClosedStats = ClosedStats(count: nat, winRate: real, avgReturnPct: real, totalPnl: real,
                                     avgDaysHeld: real, bestReturn: real, worstReturn: real)

  /** The open-position statistics of `get_performance_summary`. */
  datatype OpenStats = OpenStats(count: nat, totalDeployed: real, unrealizedPnl: real, unrealizedPct: real)

  datatype Summary = Summary(closed: ClosedStats, open: OpenStats)

  predicate IsClosed(t: Trade)
  {
    t.status == Closed
  }

  /** `profit_loss > 0` (NULL is not a win). */
  predicate IsWin(t: Trade)
  {
    t.profitLoss.Some? && t.profitLoss.value > 0.0
  }

  function OrZero(x: Option<real>): real
  {
    if x.Some? then x.value else 0.0
  }

  function OrZeroInt(x: Option<int>): real
  {
    if x.Some? then x.value as real else 0.0
  }

  function Returns(ts: seq<Trade>): (r: seq<real>)
    ensures |r| == |ts| && forall i | 0 <= i < |ts| :: r[i] == OrZero(ts[i].returnPct)
  {
    seq(|ts|, i requires 0 <= i < |ts| => OrZero(ts[i].returnPct))
  }

  function ProfitLosses(ts: seq<Trade>): (r: seq<real>)
    ensures |r| == |ts| && forall i | 0 <= i < |ts| :: r[i] == OrZero(ts[i].profitLoss)
  {
    seq(|ts|, i requires 0 <= i < |ts| => OrZero(ts[i].profitLoss))
  }

  function DaysHeldOf(ts: seq<Trade>): (r: seq<real>)
    ensures |r| == |ts| && forall i | 0 <= i < |ts| :: r[i] == OrZeroInt(ts[i].daysHeld)
  {
    seq(|ts|, i requires 0 <= i < |ts| => OrZeroInt(ts[i].daysHeld))
  }

  function PositionSizes(ts: seq<Trade>): (r: seq<real>)
    ensures |r| == |ts| && forall i | 0 <= i < |ts| :: r[i] == ts[i].positionSize
  {
    seq(|ts|, i requires 0 <= i < |ts| => ts[i].positionSize)
  }

  /** `wins / total * 100`. */
  function WinRate(wins: nat, total: nat): (r: real)
    requires total > 0 && wins <= total
    ensures 0.0 <= r <= 100.0
  {
    QuotientBounds(wins as real, total as real, 0.0, 1.0);
    wins as real / total as real * 100.0
  }

  lemma WinRateExample()
    ensures WinRate(1, 2) == 50.0
  {
  }

  function ClosedStatsOf(trades: seq<Trade>): (r: ClosedStats)
  {
    var cs := Filter(trades, IsClosed);
    if |cs| == 0 then ClosedStats(0, 0.0, 0.0, 0.0, 0.0, 0.0, 0.0)
    else
      ClosedStats(|cs|, WinRate(|Filter(cs, IsWin)|, |cs|), Mean(Returns(cs)), Sum(ProfitLosses(cs)),
                  Mean(DaysHeldOf(cs)), SeqMax(Returns(cs)), SeqMin(Returns(cs)))
  }

  /** A snapshot row that no later row of the same trade follows: the
      inner join on MAX(snapshot_date) per trade id. */
  function IsLatest(snaps: seq<(SnapshotKey, Snapshot)>): ((SnapshotKey, Snapshot)) -> bool
  {
    (e: (SnapshotKey, Snapshot)) => forall o | o in snaps :: o.0.0 == e.0.0 ==> o.0.1 <= e.0.1
  }

  /** The latest snapshot of every trade that has one, closed trades
      included (the query does not filter on status). */
  function LatestSnapshots(snaps: seq<(SnapshotKey, Snapshot)>): seq<(SnapshotKey, Snapshot)>
  {
    Filter(snaps, IsLatest(snaps))
  }

  function Pnls(ss: seq<(SnapshotKey, Snapshot)>): (r: seq<real>)
    ensures |r| == |ss| && forall i | 0 <= i < |ss| :: r[i] == ss[i].1.unrealizedPnl
  {
    seq(|ss|, i requires 0 <= i < |ss| => ss[i].1.unrealizedPnl)
  }

  function Pcts(ss: seq<(SnapshotKey, Snapshot)>): (r: seq<real>)
    ensures |r| == |ss| && forall i | 0 <= i < |ss| :: r[i] == ss[i].1.unrealizedPct
  {
    seq(|ss|, i requires 0 <= i < |ss| => ss[i].1.unrealizedPct)
  }

  function OpenStatsOf(trades: seq<Trade>, snaps: seq<(SnapshotKey, Snapshot)>): (r: OpenStats)
  {
    var latest := LatestSnapshots(snaps);
    OpenStats(OpenCount(trades), Sum(PositionSizes(Filter(trades, IsOpen))),
              Sum(Pnls(latest)), Mean(Pcts(latest)))
  }

  /** `get_performance_summary`; `None` for the empty report of a disabled
      manager. */
  function PerformanceSummary(cfg: PaperConfig, trades: seq<Trade>, snaps: seq<(SnapshotKey, Snapshot)>): (r: Option<Summary>)
    ensures r.None? <==> !cfg.enabled
  {
    if !cfg.enabled then None else Some(Summary(ClosedStatsOf(trades), OpenStatsOf(trades, snaps)))
  }

  /** With no closed record every closed statistic is zero; otherwise the
      count is the number of closed records, the win rate is the share of
      them with a positive profit, the total is the sum of their profits,
      and the average return lies between the worst and the best. */
  lemma {:induction false} SummaryClosed(trades: seq<Trade>)
    ensures var r := ClosedStatsOf(trades);
      var cs := Filter(trades, IsClosed);
      && (cs == [] ==> r == ClosedStats(0, 0.0, 0.0, 0.0, 0.0, 0.0, 0.0))
      && (cs != [] ==>
            && r.count == |cs|
            && r.winRate == |Filter(cs, IsWin)| as real / |cs| as real * 100.0
            && 0.0 <= r.winRate <= 100.0
            && r.totalPnl == Sum(ProfitLosses(cs))
            && r.worstReturn <= r.avgReturnPct <= r.bestReturn)
  {
    var cs := Filter(trades, IsClosed);
    if cs != [] {
      var rs := Returns(cs);
      MeanBounds(rs, SeqMin(rs), SeqMax(rs));
    }
  }

  /** Two closed records, one winning: the win rate is 50. */
  lemma SummaryExample(a: Trade, b: Trade)
    requires IsClosed(a) && IsClosed(b) && IsWin(a) && !IsWin(b)
    ensures ClosedStatsOf([a, b]).winRate == 50.0 && ClosedStatsOf([a, b]).count == 2
  {
    FilterAll([a, b], IsClosed);
    assert Filter([a, b], IsWin) == [a] by {
      assert [a, b] == [a] + [b];
      assert [a] == [] + [a];
      FilterAppend([a], b, IsWin);
      FilterAppend([], a, IsWin);
    }
    assert ClosedStatsOf([a, b]).winRate == WinRate(1, 2);
  }

  /** A row is among the latest exactly when no row of its trade is later. */
  lemma LatestMember(snaps: seq<(SnapshotKey, Snapshot)>, e: (SnapshotKey, Snapshot))
    ensures e in LatestSnapshots(snaps) <==>
      e in snaps && forall o | o in snaps :: o.0.0 == e.0.0 ==> o.0.1 <= e.0.1
  {
    FilterMembers(snaps, IsLatest(snaps), e);
  }

  /** Two rows with the same key are the same row. */
  lemma SameKeySameRow(snaps: seq<(SnapshotKey, Snapshot)>, a: (SnapshotKey, Snapshot), b: (SnapshotKey, Snapshot))
    requires DistinctKeys(snaps) && a in snaps && b in snaps && a.0 == b.0
    ensures a == b
  {
    var i :| 0 <= i < |snaps| && snaps[i] == a;
    var j :| 0 <= j < |snaps| && snaps[j] == b;
  }

  /** Rows with distinct keys are distinct. */
  lemma DistinctKeysDistinct(snaps: seq<(SnapshotKey, Snapshot)>)
    requires DistinctKeys(snaps)
    ensures Distinct(snaps)
  {
    forall i, j | 0 <= i < j < |snaps|
      ensures snaps[i] != snaps[j]
    {
      assert snaps[i].0 != snaps[j].0;
    }
  }

  /** With unique snapshot keys, the latest rows are one per trade, and a
      row is among them exactly when no row of its trade is later. */
  lemma LatestOnePerTrade(snaps: seq<(SnapshotKey, Snapshot)>)
    requires DistinctKeys(snaps)
    ensures var l := LatestSnapshots(snaps);
      && (forall i, j | 0 <= i < j < |l| :: l[i].0.0 != l[j].0.0)
      && (forall e :: e in l <==> e in snaps && forall o | o in snaps :: o.0.0 == e.0.0 ==> o.0.1 <= e.0.1)
  {
    var l := LatestSnapshots(snaps);
    forall e
      ensures e in l <==> e in snaps && forall o | o in snaps :: o.0.0 == e.0.0 ==> o.0.1 <= e.0.1
    {
      LatestMember(snaps, e);
    }
    DistinctKeysDistinct(snaps);
    FilterDistinct(snaps, IsLatest(snaps));
    forall i, j | 0 <= i < j < |l|
      ensures l[i].0.0 != l[j].0.0
    {
      var a, b := l[i], l[j];
      assert a != b;
      LatestMember(snaps, a);
      LatestMember(snaps, b);
      if a.0.0 == b.0.0 {
        assert a.0 == b.0;
        SameKeySameRow(snaps, a, b);
      }
    }
  }

  /** The sort key of `ORDER BY exit_date DESC`. */
  function ExitKey(t: Trade): real
  {
    if t.exitDate.Some? then t.exitDate.value as real else 0.0
  }

  /** `status = 'closed' AND exit_date >= cutoff` (a NULL date fails). */
  function ClosedSince(cutoff: Instant): Trade -> bool
  {
    (t: Trade) => t.status == Closed && t.exitDate.Some? && t.exitDate.value >= cutoff
  }

  /** `get_recent_closes`: closed records that exited in the last `days`
      days, latest exit first, at most ten; nothing when disabled. */
  function RecentCloses(cfg: PaperConfig, trades: seq<Trade>, now: Instant, days: int): (r: seq<Trade>)
    ensures |r| <= 10
    ensures !cfg.enabled ==> r == []
  {
    if !cfg.enabled then []
    else PyPrefix(SortDesc(Filter(trades, ClosedSince(AddDays(now, -days))), ExitKey), 10)
  }

  /** The report is a prefix of the qualifying records sorted by exit. */
  lemma RecentClosesPrefix(cfg: PaperConfig, trades: seq<Trade>, now: Instant, days: int)
    requires cfg.enabled
    ensures var q := Filter(trades, ClosedSince(AddDays(now, -days)));
      var sorted := SortDesc(q, ExitKey);
      var r := RecentCloses(cfg, trades, now, days);
      && |r| <= |sorted| && r == sorted[..|r|]
      && SortedDesc(sorted, ExitKey) && multiset(sorted) == multiset(q)
      && (|q| <= 10 ==> r == sorted)
  {
    SortDescCorrect(Filter(trades, ClosedSince(AddDays(now, -days))), ExitKey);
  }

  /** `status = 'closed' AND exit_date >= cutoff` holds of every filtered
      record. */
  lemma ClosedSinceQualify(trades: seq<Trade>, cutoff: Instant)
    ensures forall t | t in Filter(trades, ClosedSince(cutoff)) ::
      t in trades && IsClosed(t) && t.exitDate.Some? && t.exitDate.value >= cutoff
  {
    forall t | t in Filter(trades, ClosedSince(cutoff))
      ensures t in trades && IsClosed(t) && t.exitDate.Some? && t.exitDate.value >= cutoff
    {
      FilterMembers(trades, ClosedSince(cutoff), t);
    }
  }

  /** A prefix of a sorted permutation of qualifying records holds only
      qualifying records, latest exit first. */
  lemma PrefixQualifies(r: seq<Trade>, sorted: seq<Trade>, q: seq<Trade>, trades: seq<Trade>, cutoff: Instant)
    requires multiset(sorted) == multiset(q)
    requires forall t | t in q :: t in trades && IsClosed(t) && t.exitDate.Some? && t.exitDate.value >= cutoff
    requires SortedDesc(sorted, ExitKey) && |r| <= |sorted| && r == sorted[..|r|]
    ensures forall i | 0 <= i < |r| :: r[i] in trades && IsClosed(r[i]) && r[i].exitDate.Some?
                                      && r[i].exitDate.value >= cutoff
    ensures forall i, j | 0 <= i < j < |r| :: r[i].exitDate.value >= r[j].exitDate.value
  {
    forall i | 0 <= i < |r|
      ensures r[i] in trades && IsClosed(r[i]) && r[i].exitDate.Some? && r[i].exitDate.value >= cutoff
    {
      assert r[i] == sorted[i];
      assert sorted[i] in multiset(sorted);
      assert r[i] in q;
    }
    forall i, j | 0 <= i < j < |r|
      ensures r[i].exitDate.value >= r[j].exitDate.value
    {
      assert r[i] == sorted[i] && r[j] == sorted[j];
      assert ExitKey(sorted[i]) >= ExitKey(sorted[j]);
    }
  }

  /** Every reported record is a closed record of the ledger that exited on
      or after the cutoff, latest exit first; when at most ten qualify, all
      of them are reported. */
  lemma RecentClosesCorrect(cfg: PaperConfig, trades: seq<Trade>, now: Instant, days: int)
    requires cfg.enabled
    ensures var r := RecentCloses(cfg, trades, now, days);
      var q := Filter(trades, ClosedSince(AddDays(now, -days)));
      && (forall i | 0 <= i < |r| :: r[i] in trades && IsClosed(r[i]) && r[i].exitDate.Some?
                                    && r[i].exitDate.value >= AddDays(now, -days))
      && (forall i, j | 0 <= i < j < |r| :: r[i].exitDate.value >= r[j].exitDate.value)
      && (|q| <= 10 ==> multiset(r) == multiset(q))
  {
    var cutoff := AddDays(now, -days);
    var q := Filter(trades, ClosedSince(cutoff));
    RecentClosesPrefix(cfg, trades, now, days);
    ClosedSinceQualify(trades, cutoff);
    PrefixQualifies(RecentCloses(cfg, trades, now, days), SortDesc(q, ExitKey), q, trades, cutoff);
  }

  /** Every record a backfill adds comes from a signal of the table that
      passes the query (generated on or after the cutoff, conviction at
      least the minimum) and has a non-zero price at its generation time,
      which is the entry price. */
  lemma BackfillOnlyQualifying(cfg: PaperConfig, trades: seq<Trade>, signals: seq<StoredSignal>,
                               priceAt: (string, Instant) -> Option<real>, cutoff: Instant, i: nat)
    requires var r := BackfillRun(cfg, trades, BackfillQuery(signals, cutoff, cfg.minConviction), priceAt);
      |trades| <= i < |r.trades|
    ensures var t := BackfillRun(cfg, trades, BackfillQuery(signals, cutoff, cfg.minConviction), priceAt).trades[i];
      exists s | s in signals ::
        && s.generatedAt >= cutoff && s.conviction >= cfg.minConviction
        && t.ticker == s.ticker && t.entryDate == s.generatedAt && t.conviction == s.conviction
        && priceAt(s.ticker, s.generatedAt) == Some(t.entryPrice) && t.entryPrice != 0.0
  {
    var queue := BackfillQuery(signals, cutoff, cfg.minConviction);
    BackfillCreatesFromSignals(cfg, trades, queue, priceAt, i);
    BackfillQueryCorrect(signals, cutoff, cfg.minConviction);
  }

  // ---------------------------------------------------------------------
  // The manager

  /** The two tables of a `PaperTradingManager`, updated in place. */
  class PaperLedger {
    const config: PaperConfig
    var trades: seq<Trade>
    var snapshots: seq<(SnapshotKey, Snapshot)>

    ghost predicate Valid()
      reads this
    {
      LedgerValid(config, trades, snapshots)
    }

    constructor (config: PaperConfig)
      ensures Valid() && this.config == config && trades == [] && snapshots == []
    {
      this.config := config;
      trades := [];
      snapshots := [];
    }

    /** `create_paper_trade`. A zero entry price raises before any write, so
        callers must not pass one. */
    method CreatePaperTrade(ticker: string, entryPrice: real, conviction: real,
                            signalTypes: seq<string>, entryDate: Instant) returns (id: Option<nat>)
      requires Valid() && entryPrice != 0.0
      modifies this
      ensures Valid() && snapshots == old(snapshots)
      ensures (id, trades) == Create(config, old(trades), ticker, entryPrice, conviction, signalTypes, entryDate)
    {
      if !config.enabled {
        return None;
      }
      if TradeExists(trades, ticker, entryDate) {
        return None;
      }
      var openCount := OpenCount(trades);
      if openCount >= config.maxOpenPositions {
        return None;
      }
      CreateKeepsValid(config, trades, snapshots, ticker, entryPrice, conviction, signalTypes, entryDate);
      trades := trades + [NewTrade(config, |trades| + 1, ticker, entryPrice, conviction, signalTypes, entryDate)];
      id := Some(|trades|);
    }

    /** `_close_position`: the record with row id `id`, if any, is closed;
        nothing else changes. */
    method ClosePosition(id: nat, exitPrice: real, exitDate: Instant, reason: ExitReason, daysHeld: int)
      requires Valid()
      modifies this
      ensures Valid() && snapshots == old(snapshots)
      ensures 1 <= id <= |old(trades)| ==>
        trades == old(trades)[id - 1 := Close(old(trades)[id - 1], exitPrice, exitDate, reason, daysHeld)]
      ensures !(1 <= id <= |old(trades)|) ==> trades == old(trades)
    {
      if 1 <= id <= |trades| {
        var t := Close(trades[id - 1], exitPrice, exitDate, reason, daysHeld);
        ReplaceKeepsValid(config, trades, snapshots, id - 1, t);
        trades := trades[id - 1 := t];
      }
    }

    /** `update_positions`: every record open on entry is visited once; one
        with a price gets the day's snapshot and is closed when an exit
        condition holds. */
    method UpdatePositions(prices: map<string, real>, now: Instant)
      requires Valid()
      modifies this
      ensures Valid()
      ensures !config.enabled ==> trades == old(trades) && snapshots == old(snapshots)
      ensures config.enabled ==>
        && |trades| == |old(trades)|
        && (forall i | 0 <= i < |trades| :: trades[i] == StepTrade(config, old(trades)[i], prices, now))
        && snapshots == SnapshotsAfter(old(snapshots), old(trades), |old(trades)|, prices, now)
    {
      if !config.enabled {
        return;
      }
      UpdateAll(prices, now);
      StepPrefixAll(config, old(trades), prices, now);
    }

    /** The loop of `update_positions` over the records open on entry. */
    method UpdateAll(prices: map<string, real>, now: Instant)
      requires Valid()
      modifies this
      ensures Valid()
      ensures trades == StepPrefix(config, old(trades), |old(trades)|, prices, now)
      ensures snapshots == SnapshotsAfter(old(snapshots), old(trades), |old(trades)|, prices, now)
    {
      var n := |trades|;
      var i := 0;
      while i < n
        invariant 0 <= i <= n == |old(trades)|
        invariant trades == StepPrefix(config, old(trades), i, prices, now)
        invariant snapshots == SnapshotsAfter(old(snapshots), old(trades), i, prices, now)
      {
        UpdateStep(i, prices, now, old(trades), old(snapshots));
        i := i + 1;
      }
      UpdatePrefixValid(config, old(trades), old(snapshots), i, prices, now);
    }

    /** The iteration at `i` of `update_positions`, stated against the
        tables `t0` and `s0` it started from. */
    method UpdateStep(i: nat, prices: map<string, real>, now: Instant,
                      ghost t0: seq<Trade>, ghost s0: seq<(SnapshotKey, Snapshot)>)
      requires LedgerValid(config, t0, s0) && i < |t0|
      requires trades == StepPrefix(config, t0, i, prices, now)
      requires snapshots == SnapshotsAfter(s0, t0, i, prices, now)
      modifies this
      ensures trades == StepPrefix(config, t0, i + 1, prices, now)
      ensures snapshots == SnapshotsAfter(s0, t0, i + 1, prices, now)
    {
      UpdatePrefixValid(config, t0, s0, i, prices, now);
      SnapshotsAfterStep(s0, t0, i, prices, now);
      StepPrefixStep(config, t0, i, prices, now);
      UpdateOne(i, prices, now);
    }

    /** One iteration of `update_positions`, on the record at position `i`. */
    method UpdateOne(i: nat, prices: map<string, real>, now: Instant)
      requires Valid() && i < |trades|
      modifies this
      ensures Valid()
      ensures trades == old(trades)[i := StepTrade(config, old(trades)[i], prices, now)]
      ensures snapshots == if Updated(old(trades)[i], prices)
        then Put(old(snapshots), (old(trades)[i].id, now),
                 SnapshotOf(old(trades)[i], PriceOf(prices, old(trades)[i].ticker).value))
        else old(snapshots)
    {
      var t := trades[i];
      var price := PriceOf(prices, t.ticker);
      if IsOpen(t) && price.Some? {
        PutKeepsSnapshotsValid(snapshots, |trades|, (t.id, now), SnapshotOf(t, price.value));
        snapshots := Put(snapshots, (t.id, now), SnapshotOf(t, price.value));
        var days := DaysBetween(now, t.entryDate);
        var reason := ExitReasonFor(price.value, t.stopLoss, t.targetPrice, days, config.holdDays);
        if reason.Some? {
          ClosePosition(t.id, price.value, now, reason.value, days);
        }
      }
    }

    /** One iteration of the backfill loop. */
    method BackfillOne(s: StoredSignal, priceAt: (string, Instant) -> Option<real>,
                       created: nat, skipped: nat) returns (created': nat, skipped': nat)
      requires Valid()
      modifies this
      ensures Valid() && snapshots == old(snapshots)
      ensures BackfillState(created', skipped', trades)
           == BackfillStep(config, BackfillState(created, skipped, old(trades)), s, priceAt)
    {
      created', skipped' := created, skipped;
      var entryPrice := priceAt(s.ticker, s.generatedAt);
      if entryPrice.None? || entryPrice.value == 0.0 {
        skipped' := skipped + 1;
      } else {
        var id := CreatePaperTrade(s.ticker, entryPrice.value, s.conviction, SignalTypesOf(s), s.generatedAt);
        if id.Some? {
          created' := created + 1;
        } else {
          skipped' := skipped + 1;
        }
      }
    }

    /** `backfill_from_signals`: one creation attempt per queried signal
        that has a price, counting creations and skips. */
    method BackfillFromSignals(signals: seq<StoredSignal>, priceAt: (string, Instant) -> Option<real>,
                               now: Instant, days: int) returns (created: nat, skipped: nat)
      requires Valid()
      modifies this
      ensures Valid() && snapshots == old(snapshots)
      ensures !config.enabled ==> trades == old(trades) && created == 0 && skipped == 0
      ensures config.enabled ==>
        BackfillState(created, skipped, trades)
          == BackfillRun(config, old(trades), BackfillQuery(signals, AddDays(now, -days), config.minConviction), priceAt)
    {
      created, skipped := 0, 0;
      if !config.enabled {
        return;
      }
      var queue := BackfillQuery(signals, AddDays(now, -days), config.minConviction);
      var i := 0;
      while i < |queue|
        invariant 0 <= i <= |queue|
        invariant Valid() && snapshots == old(snapshots)
        invariant BackfillState(created, skipped, trades) == BackfillRun(config, old(trades), queue[..i], priceAt)
      {
        RunPrefixStep(config, old(trades), queue, i, priceAt);
        created, skipped := BackfillOne(queue[i], priceAt, created, skipped);
        i := i + 1;
      }
      assert queue[..|queue|] == queue;
    }
  }
}
