/**
 * Moving-average crossover backtest: cross edges of the signal, one
 * simulated trade per cross-up with a fixed or a cross-down exit, and the
 * four summary metrics.
 */
module Backtest {
  import opened Wrappers
  import opened Series

  /** `fixed` exits after a holding period, `cross` at the next cross-down. */
  datatype ExitMode = Fixed | Cross

  /**
   * A simulated trade. Dates are the row positions of the provider's series
   * (the timestamps of the rows that survive `dropna`); `holdDays` is the
   * number of positions between entry and exit in the filtered series.
   */
  datatype Trade = Trade(
    entryDate: nat,
    entryPrice: real,
    exitDate: nat,
    exitPrice: real,
    returnPct: real,
    holdDays: int)

  /** A row of the augmented history: the close and both rolling means. */
  datatype Row = Row(date: nat, close: real, fastMa: Option<real>, slowMa: Option<real>)

  /** `total_trades`, `win_rate`, `avg_return` and `total_return`. */
  datatype Metrics = Metrics(totalTrades: real, winRate: real, avgReturn: real, totalReturn: real)

  /** `metrics` is None for the empty mapping `{}`. */
  datatype BacktestResult = BacktestResult(history: seq<Row>, trades: seq<Trade>, metrics: Option<Metrics>)

  const EmptyResult := BacktestResult([], [], None)

  // ---------------------------------------------------------------- edges

  /**
   * `history["fast_ma"] > history["slow_ma"]`: the signal column, computed
   * once; everything after this point reads only this column.
   */
  function SignalColumn(c: seq<real>, fast: nat, slow: nat): (r: seq<bool>)
    ensures |r| == |c|
    ensures forall i :: 0 <= i < |c| && r[i] ==> 1 <= fast <= i + 1 && 1 <= slow <= i + 1
    ensures fast == slow ==> forall i :: 0 <= i < |c| ==> !r[i]
  {
    seq(|c|, i requires 0 <= i < |c| => Signal(c, fast, slow, i))
  }

  /** `signal.shift(1, fill_value=False)`: the previous signal, false before index 0. */
  predicate PrevSignal(sig: seq<bool>, i: nat)
    requires i < |sig|
  {
    i > 0 && sig[i - 1]
  }

  /** `signal & ~signal.shift(1, fill_value=False)` */
  predicate CrossUp(sig: seq<bool>, i: nat)
    requires i < |sig|
  {
    sig[i] && !PrevSignal(sig, i)
  }

  /** `~signal & signal.shift(1, fill_value=False)` */
  predicate CrossDown(sig: seq<bool>, i: nat)
    requires i < |sig|
  {
    !sig[i] && PrevSignal(sig, i)
  }

  /** The two edges in terms of the signal; a cross-down never fires at index 0. */
  lemma CrossEdges(sig: seq<bool>, i: nat)
    requires i < |sig|
    ensures CrossUp(sig, i) <==> sig[i] && (i == 0 || !sig[i - 1])
    ensures CrossDown(sig, i) <==> !sig[i] && i > 0 && sig[i - 1]
    ensures !(CrossUp(sig, i) && CrossDown(sig, i))
    ensures i == 0 ==> !CrossDown(sig, i)
  {
  }

  /**
   * `index[cross_up]`: the positions below n where a cross-up fires, in
   * increasing order, each exactly once.
   */
  function CrossUpsBelow(sig: seq<bool>, n: nat): (r: seq<nat>)
    requires n <= |sig|
    ensures forall k :: 0 <= k < |r| ==> r[k] < n && CrossUp(sig, r[k])
    ensures forall k, l :: 0 <= k < l < |r| ==> r[k] < r[l]
    ensures forall i :: 0 <= i < n && CrossUp(sig, i) ==> i in r
  {
    if n == 0 then []
    else CrossUpsBelow(sig, n - 1) + (if CrossUp(sig, n - 1) then [n - 1] else [])
  }

  /** The entry positions of the backtest: every cross-up of the series. */
  function EntryPositions(sig: seq<bool>): seq<nat>
  {
    CrossUpsBelow(sig, |sig|)
  }

  // ---------------------------------------------------------------- exits

  /**
   * `cross_down.iloc[k:]` then `idxmax()` when any is set: the first
   * cross-down at or after k, or the last position when there is none.
   */
  function FirstCrossDownFrom(sig: seq<bool>, k: nat): (r: nat)
    requires 1 <= |sig| && k <= |sig|
    ensures r < |sig|
    ensures (k <= r && CrossDown(sig, r))
         || (r == |sig| - 1 && forall j :: k <= j < |sig| ==> !CrossDown(sig, j))
    ensures forall j :: k <= j < r ==> !CrossDown(sig, j)
    decreases |sig| - k
  {
    if k == |sig| then |sig| - 1
    else if CrossDown(sig, k) then k
    else FirstCrossDownFrom(sig, k + 1)
  }

  function Min(a: int, b: int): int
  {
    if a <= b then a else b
  }

  /** The fixed policy needs a holding period of at least 0; the cross policy ignores it. */
  predicate ValidHold(mode: ExitMode, hold: int)
  {
    mode == Fixed ==> hold >= 0
  }

  /** The exit position of a trade entered at `entry`, for either exit policy. */
  function ExitPosition(sig: seq<bool>, mode: ExitMode, hold: int, entry: nat): (r: nat)
    requires entry < |sig| && ValidHold(mode, hold)
    ensures entry <= r < |sig|
  {
    match mode
    case Fixed => Min(entry + hold, |sig| - 1)
    case Cross => FirstCrossDownFrom(sig, entry + 1)
  }

  /** `(exit_price - entry_price) / entry_price * 100` */
  function ReturnPct(entryPrice: real, exitPrice: real): real
    requires entryPrice != 0.0
  {
    (exitPrice - entryPrice) / entryPrice * 100.0
  }

  /** A trade wins (positive return) iff it exits above its entry price. */
  lemma ReturnSign(entryPrice: real, exitPrice: real)
    requires entryPrice > 0.0
    ensures ReturnPct(entryPrice, exitPrice) > 0.0 <==> exitPrice > entryPrice
    ensures ReturnPct(entryPrice, exitPrice) == 0.0 <==> exitPrice == entryPrice
    ensures exitPrice > 0.0 ==> ReturnPct(entryPrice, exitPrice) > -100.0
  {
    var q := (exitPrice - entryPrice) / entryPrice;
    assert q * entryPrice == exitPrice - entryPrice;
    if exitPrice > 0.0 && q <= -1.0 {
      assert false;
    }
  }

  predicate AllPositive(c: seq<real>)
  {
    forall k :: 0 <= k < |c| ==> c[k] > 0.0
  }

  /** The inputs of the trade loop: positive closes, their dates and their signal column. */
  predicate TradeInputs(c: seq<real>, dates: seq<nat>, sig: seq<bool>)
  {
    |dates| == |c| && |sig| == |c| && AllPositive(c)
  }

  /** The trade the loop appends for the cross-up at `entry`. */
  function TradeAt(c: seq<real>, dates: seq<nat>, sig: seq<bool>, mode: ExitMode, hold: int, entry: nat): Trade
    requires TradeInputs(c, dates, sig) && ValidHold(mode, hold) && entry < |c|
  {
    var x := ExitPosition(sig, mode, hold, entry);
    Trade(dates[entry], c[entry], dates[x], c[x], ReturnPct(c[entry], c[x]), x - entry)
  }

  /** The trades entered at the positions `es`, in the order of `es`. */
  function TradesAt(c: seq<real>, dates: seq<nat>, sig: seq<bool>, mode: ExitMode, hold: int,
                    es: seq<nat>): (r: seq<Trade>)
    requires TradeInputs(c, dates, sig) && ValidHold(mode, hold)
    requires forall k :: 0 <= k < |es| ==> es[k] < |c|
    ensures |r| == |es|
  {
    if es == [] then []
    else TradesAt(c, dates, sig, mode, hold, es[..|es| - 1]) + [TradeAt(c, dates, sig, mode, hold, es[|es| - 1])]
  }

  /** The trades of the backtest: one per cross-up, in entry order. */
  function TradesFor(c: seq<real>, dates: seq<nat>, sig: seq<bool>, mode: ExitMode, hold: int): seq<Trade>
    requires TradeInputs(c, dates, sig) && ValidHold(mode, hold)
  {
    TradesAt(c, dates, sig, mode, hold, EntryPositions(sig))
  }

  /** The k-th trade is the one entered at the k-th position. */
  lemma {:induction false} TradesAtIndex(c: seq<real>, dates: seq<nat>, sig: seq<bool>, mode: ExitMode,
                                         hold: int, es: seq<nat>, k: nat)
    requires TradeInputs(c, dates, sig) && ValidHold(mode, hold)
    requires forall j :: 0 <= j < |es| ==> es[j] < |c|
    requires k < |es|
    ensures TradesAt(c, dates, sig, mode, hold, es)[k] == TradeAt(c, dates, sig, mode, hold, es[k])
  {
    if k < |es| - 1 {
      TradesAtIndex(c, dates, sig, mode, hold, es[..|es| - 1], k);
    }
  }

  /** The filtered history with its two rolling-mean columns. */
  function HistoryRows(rows: seq<Option<real>>, fast: nat, slow: nat): (r: seq<Row>)
    ensures |r| == |DropMissing(rows)|
  {
    var c := DropMissing(rows);
    var d := KeptRows(rows);
    seq(|c|, i requires 0 <= i < |c| => Row(d[i], c[i], RollingMean(c, fast, i), RollingMean(c, slow, i)))
  }

  // -------------------------------------------------------------- metrics

  /** `[trade.return_pct for trade in trades]` */
  function Returns(trades: seq<Trade>): (r: seq<real>)
    ensures |r| == |trades|
  {
    seq(|trades|, k requires 0 <= k < |trades| => trades[k].returnPct)
  }

  /** `[ret for ret in returns if ret > 0]` */
  function Wins(rs: seq<real>): (r: seq<real>)
    ensures |r| <= |rs|
    ensures forall k :: 0 <= k < |r| ==> r[k] > 0.0
  {
    if rs == [] then []
    else Wins(rs[..|rs| - 1]) + (if rs[|rs| - 1] > 0.0 then [rs[|rs| - 1]] else [])
  }

  /** Starting from 1.0, multiply by `1 + r/100` for every return in order. */
  function Compound(rs: seq<real>): real
  {
    if rs == [] then 1.0 else Compound(rs[..|rs| - 1]) * (1.0 + rs[|rs| - 1] / 100.0)
  }

  /** The metrics `_summarize_trades` reports; None is the empty mapping. */
  function Summary(trades: seq<Trade>): Option<Metrics>
  {
    if trades == [] then None
    else
      var rs := Returns(trades);
      var n := |rs| as real;
      Some(Metrics(n, |Wins(rs)| as real / n * 100.0, Sum(rs) / n, (Compound(rs) - 1.0) * 100.0))
  }

  /** `_summarize_trades`, with the compounding loop of the source. */
  method SummarizeTrades(trades: seq<Trade>) returns (metrics: Option<Metrics>)
    ensures metrics == Summary(trades)
    ensures metrics.None? <==> trades == []
    ensures metrics.Some? ==> metrics.value.totalTrades == |trades| as real
  {
    if trades == [] {
      return None;
    }
    var rets := Returns(trades);
    var wins := Wins(rets);
    var totalReturn := 1.0;
    var i := 0;
    while i < |rets|
      invariant 0 <= i <= |rets|
      invariant totalReturn == Compound(rets[..i])
    {
      assert rets[..i + 1][..i] == rets[..i];
      totalReturn := totalReturn * (1.0 + rets[i] / 100.0);
      i := i + 1;
    }
    assert rets[..i] == rets;
    var totalReturnPct := (totalReturn - 1.0) * 100.0;
    var n := |rets| as real;
    metrics := Some(Metrics(n, |wins| as real / n * 100.0, Sum(rets) / n, totalReturnPct));
  }

  // ------------------------------------------------------------- backtest

  /** The body of the trade loop: the trade entered at `entryPos`. */
  method SimulateTrade(closes: seq<real>, dates: seq<nat>, signal: seq<bool>,
                       exitMode: ExitMode, holdDays: int, entryPos: nat) returns (trade: Trade)
    requires TradeInputs(closes, dates, signal) && ValidHold(exitMode, holdDays) && entryPos < |closes|
    ensures trade == TradeAt(closes, dates, signal, exitMode, holdDays, entryPos)
  {
    var entryPrice := closes[entryPos];
    var exitPos: nat;
    if exitMode == Cross {
      exitPos := FirstCrossDownFrom(signal, entryPos + 1);
    } else {
      exitPos := Min(entryPos + holdDays, |closes| - 1);
    }
    var exitPrice := closes[exitPos];
    var returnPct := (exitPrice - entryPrice) / entryPrice * 100.0;
    var holdLength := exitPos - entryPos;
    trade := Trade(dates[entryPos], entryPrice, dates[exitPos], exitPrice, returnPct, holdLength);
  }

  /** One more entry adds its trade at the end. */
  lemma TradesAtSnoc(c: seq<real>, dates: seq<nat>, sig: seq<bool>, mode: ExitMode, hold: int, es: seq<nat>, k: nat)
    requires TradeInputs(c, dates, sig) && ValidHold(mode, hold) && k < |es|
    requires forall j :: 0 <= j < |es| ==> es[j] < |c|
    ensures TradesAt(c, dates, sig, mode, hold, es[..k + 1])
         == TradesAt(c, dates, sig, mode, hold, es[..k]) + [TradeAt(c, dates, sig, mode, hold, es[k])]
  {
    assert es[..k + 1][..k] == es[..k];
  }

  /**
   * The trade loop of `backtest_ma_cross`: for every cross-up, in order,
   * append the trade entered there.
   */
  method SimulateTrades(closes: seq<real>, dates: seq<nat>, signal: seq<bool>,
                        exitMode: ExitMode, holdDays: int) returns (trades: seq<Trade>)
    requires TradeInputs(closes, dates, signal) && ValidHold(exitMode, holdDays)
    ensures trades == TradesFor(closes, dates, signal, exitMode, holdDays)
  {
    var entries := EntryPositions(signal);
    trades := [];
    var k := 0;
    while k < |entries|
      invariant 0 <= k <= |entries|
      invariant trades == TradesAt(closes, dates, signal, exitMode, holdDays, entries[..k])
    {
      var trade := SimulateTrade(closes, dates, signal, exitMode, holdDays, entries[k]);
      TradesAtSnoc(closes, dates, signal, exitMode, holdDays, entries, k);
      trades := trades + [trade];
      k := k + 1;
    }
    assert entries[..k] == entries;
  }

  /**
   * `backtest_ma_cross`. The provider's answer is an input: None when it
   * returned nothing, otherwise the close column, None marking a missing
   * close.
   */
  method BacktestMaCross(history: Option<seq<Option<real>>>, fastWindow: nat, slowWindow: nat,
                         exitMode: ExitMode, holdDays: int) returns (result: BacktestResult)
    requires ValidHold(exitMode, holdDays)
    requires history.Some? ==> PositivePrices(history.value)
    ensures history.None? || history.value == [] ==> result == EmptyResult
    ensures history.Some? && history.value != [] ==>
      var closes := DropMissing(history.value);
      var signal := SignalColumn(closes, fastWindow, slowWindow);
      && TradeInputs(closes, KeptRows(history.value), signal)
      && result.history == HistoryRows(history.value, fastWindow, slowWindow)
      && result.trades == TradesFor(closes, KeptRows(history.value), signal, exitMode, holdDays)
    ensures result.metrics == Summary(result.trades)
  {
    if history.None? || history.value == [] {
      return EmptyResult;
    }
    var rows := history.value;
    var closes := DropMissing(rows);
    var dates := KeptRows(rows);
    DropMissingPositive(rows);
    var table := HistoryRows(rows, fastWindow, slowWindow);
    var signal := SignalColumn(closes, fastWindow, slowWindow);
    var trades := SimulateTrades(closes, dates, signal, exitMode, holdDays);
    var metrics := SummarizeTrades(trades);
    result := BacktestResult(table, trades, metrics);
  }
}
