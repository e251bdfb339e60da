/**
 * What the backtest promises: one trade per cross-up in entry order, the
 * bounds of both exit policies, the meaning of each trade's figures, the
 * metrics' ranges and compounding, and the worked scenarios.
 */
module BacktestProperties {
  import opened Wrappers
  import opened Series
  import opened Backtest

  // --------------------------------------------------------- entries

  /**
   * There is exactly one trade per cross-up: the k-th trade enters at the
   * k-th cross-up, every cross-up has its trade, and when the dates
   * increase the trades are in strictly increasing entry order.
   */
  lemma OneTradePerCrossUp(c: seq<real>, dates: seq<nat>, sig: seq<bool>, mode: ExitMode, hold: int)
    requires TradeInputs(c, dates, sig) && ValidHold(mode, hold)
    requires forall i, j :: 0 <= i < j < |dates| ==> dates[i] < dates[j]
    ensures var t := TradesFor(c, dates, sig, mode, hold);
      var e := EntryPositions(sig);
      && |t| == |e|
      && (forall k :: 0 <= k < |t| ==> CrossUp(sig, e[k]) && t[k] == TradeAt(c, dates, sig, mode, hold, e[k]))
      && (forall i :: 0 <= i < |sig| && CrossUp(sig, i) ==> i in e)
      && (forall k, l :: 0 <= k < l < |t| ==> t[k].entryDate < t[l].entryDate)
  {
    var t := TradesFor(c, dates, sig, mode, hold);
    var e := EntryPositions(sig);
    forall k | 0 <= k < |t|
      ensures t[k] == TradeAt(c, dates, sig, mode, hold, e[k])
    {
      TradesAtIndex(c, dates, sig, mode, hold, e, k);
    }
  }

  /** No trade enters at the first row: the signal is false there, so there is no cross-up. */
  lemma NoEntryAtFirstRow(c: seq<real>, fast: nat, slow: nat)
    requires |c| > 0
    ensures !CrossUp(SignalColumn(c, fast, slow), 0)
    ensures 0 !in EntryPositions(SignalColumn(c, fast, slow))
  {
    FirstPointNeverSignals(c, fast, slow);
  }

  // ----------------------------------------------------------- exits

  /**
   * Fixed exit: `min(entry + hold_days, last)`, so the exit never passes the
   * last position and the recorded hold length lies in [0, hold_days].
   */
  lemma FixedExitBounds(c: seq<real>, dates: seq<nat>, sig: seq<bool>, hold: int, entry: nat)
    requires TradeInputs(c, dates, sig) && hold >= 0 && entry < |c|
    ensures var t := TradeAt(c, dates, sig, Fixed, hold, entry);
      var x := if entry + hold <= |c| - 1 then entry + hold else |c| - 1;
      && t.exitDate == dates[x] && t.exitPrice == c[x]
      && t.holdDays == x - entry
      && 0 <= t.holdDays <= hold
  {
  }

  /** Without a cross-down in (a, b], a signal that holds at a still holds at b. */
  lemma {:induction false} SignalPersists(sig: seq<bool>, a: nat, b: nat)
    requires a <= b < |sig| && sig[a]
    requires forall j :: a < j <= b ==> !CrossDown(sig, j)
    ensures sig[b]
    decreases b - a
  {
    if a < b {
      SignalPersists(sig, a, b - 1);
      assert !CrossDown(sig, b);
    }
  }

  /**
   * Cross exit, entered at a cross-up: the exit is the first cross-down
   * strictly after entry, or the last position when there is none; the
   * signal is true from entry up to (not including) the exit, and the
   * exit comes before every later cross-up.
   */
  lemma CrossExit(sig: seq<bool>, entry: nat)
    requires entry < |sig| && CrossUp(sig, entry)
    ensures var x := ExitPosition(sig, Cross, 0, entry);
      && entry <= x < |sig|
      && ((entry < x && CrossDown(sig, x))
          || (x == |sig| - 1 && forall j :: entry < j < |sig| ==> !CrossDown(sig, j)))
      && (forall j :: entry < j < x ==> !CrossDown(sig, j))
      && (forall j :: entry <= j < x ==> sig[j])
      && (forall q :: entry < q < |sig| && CrossUp(sig, q) ==> x < q)
  {
    var x := ExitPosition(sig, Cross, 0, entry);
    forall j | entry <= j < x
      ensures sig[j]
    {
      SignalPersists(sig, entry, j);
    }
    forall q | entry < q < |sig| && CrossUp(sig, q)
      ensures x < q
    {
      assert !sig[q - 1];
    }
  }

  /** The cross exit does not depend on the hold period. */
  lemma CrossExitIgnoresHold(sig: seq<bool>, hold: int, entry: nat)
    requires entry < |sig|
    ensures ExitPosition(sig, Cross, hold, entry) == ExitPosition(sig, Cross, 0, entry)
  {
  }

  // ---------------------------------------------------------- trades

  /**
   * A trade's prices are the closes at its entry and exit positions, its
   * return is `(exit - entry) / entry * 100`, it wins iff it exits above
   * its entry price, and it can never lose 100% or more.
   */
  lemma TradeFigures(c: seq<real>, dates: seq<nat>, sig: seq<bool>, mode: ExitMode, hold: int, entry: nat)
    requires TradeInputs(c, dates, sig) && ValidHold(mode, hold) && entry < |c|
    ensures var t := TradeAt(c, dates, sig, mode, hold, entry);
      var x := ExitPosition(sig, mode, hold, entry);
      && t.entryDate == dates[entry] && t.entryPrice == c[entry]
      && t.exitDate == dates[x] && t.exitPrice == c[x]
      && t.returnPct == (c[x] - c[entry]) / c[entry] * 100.0
      && (t.returnPct > 0.0 <==> t.exitPrice > t.entryPrice)
      && t.returnPct > -100.0
  {
    var x := ExitPosition(sig, mode, hold, entry);
    ReturnSign(c[entry], c[x]);
  }

  // --------------------------------------------------------- metrics

  /** Every positive return is kept among the wins. */
  lemma {:induction false} WinsComplete(rs: seq<real>, k: nat)
    requires k < |rs| && rs[k] > 0.0
    ensures rs[k] in Wins(rs)
  {
    if k < |rs| - 1 {
      WinsComplete(rs[..|rs| - 1], k);
    }
  }

  /** The wins are one per positive return: as many as the positions holding a positive return. */
  lemma {:induction false} WinsCount(rs: seq<real>)
    ensures |Wins(rs)| == |set k | 0 <= k < |rs| && rs[k] > 0.0|
  {
    if rs != [] {
      var n := |rs| - 1;
      var init := rs[..n];
      WinsCount(init);
      var before := set k | 0 <= k < |init| && init[k] > 0.0;
      var after := set k | 0 <= k < |rs| && rs[k] > 0.0;
      assert before == set k | 0 <= k < n && rs[k] > 0.0;
      if rs[n] > 0.0 {
        assert after == before + {n};
      } else {
        assert after == before;
      }
    }
  }

  /** `win_rate` is 100 times the share of trades with a positive return. */
  lemma WinRateCounts(trades: seq<Trade>)
    requires trades != []
    ensures Summary(trades).value.winRate
         == |set k | 0 <= k < |trades| && trades[k].returnPct > 0.0| as real / |trades| as real * 100.0
  {
    var rs := Returns(trades);
    WinsCount(rs);
    assert (set k | 0 <= k < |rs| && rs[k] > 0.0) == set k | 0 <= k < |trades| && trades[k].returnPct > 0.0;
  }

  /** A win rate is a percentage: between 0 and 100. */
  lemma WinRateBounds(trades: seq<Trade>)
    requires trades != []
    ensures 0.0 <= Summary(trades).value.winRate <= 100.0
  {
    var rs := Returns(trades);
    var n := |rs| as real;
    var w := |Wins(rs)| as real;
    assert 0.0 <= w <= n;
    var q := w / n;
    assert q * n == w;
  }

  /** The average return lies between the smallest and the largest return. */
  lemma AvgReturnBounds(trades: seq<Trade>, lo: real, hi: real)
    requires trades != []
    requires forall k :: 0 <= k < |trades| ==> lo <= trades[k].returnPct <= hi
    ensures lo <= Summary(trades).value.avgReturn <= hi
  {
    var rs := Returns(trades);
    MeanBounds(rs, lo, hi);
    assert Summary(trades).value.avgReturn == Sum(rs) / |rs| as real;
  }

  /** Compounding splits over consecutive runs of trades. */
  lemma {:induction false} CompoundAppend(a: seq<real>, b: seq<real>)
    ensures Compound(a + b) == Compound(a) * Compound(b)
  {
    if b == [] {
      assert a + b == a;
    } else {
      var b' := b[..|b| - 1];
      assert (a + b)[..|a + b| - 1] == a + b';
      CompoundAppend(a, b');
    }
  }

  /** As long as no trade loses everything, the compounded value stays positive. */
  lemma {:induction false} CompoundPositive(rs: seq<real>)
    requires forall k :: 0 <= k < |rs| ==> rs[k] > -100.0
    ensures Compound(rs) > 0.0
  {
    if rs != [] {
      CompoundPositive(rs[..|rs| - 1]);
      var f := 1.0 + rs[|rs| - 1] / 100.0;
      assert f > 0.0;
      var p := Compound(rs[..|rs| - 1]);
      assert p * f > 0.0;
    }
  }

  /** A backtest never reports a total return of -100% or below. */
  lemma TotalReturnAboveMinus100(c: seq<real>, dates: seq<nat>, sig: seq<bool>, mode: ExitMode, hold: int)
    requires TradeInputs(c, dates, sig) && ValidHold(mode, hold)
    requires TradesFor(c, dates, sig, mode, hold) != []
    ensures Summary(TradesFor(c, dates, sig, mode, hold)).value.totalReturn > -100.0
  {
    var t := TradesFor(c, dates, sig, mode, hold);
    var e := EntryPositions(sig);
    var rs := Returns(t);
    forall k | 0 <= k < |rs|
      ensures rs[k] > -100.0
    {
      TradesAtIndex(c, dates, sig, mode, hold, e, k);
      TradeFigures(c, dates, sig, mode, hold, e[k]);
    }
    CompoundPositive(rs);
  }

  /** With one trade, the average and the compounded return are both its return. */
  lemma SingleTradeSummary(t: Trade)
    ensures Summary([t]) == Some(Metrics(1.0, if t.returnPct > 0.0 then 100.0 else 0.0, t.returnPct, t.returnPct))
  {
    var r := t.returnPct;
    var rs := Returns([t]);
    assert rs == [r];
    assert rs[..0] == [];
    assert Sum(rs) == r;
    assert Compound(rs) == 1.0 + r / 100.0;
    assert |Wins(rs)| == if r > 0.0 then 1 else 0;
  }

  /** Compounding, not summing: +10%, -10%, +20% compound to +18.8%. */
  lemma ThreeTradeCompounding()
    ensures (Compound([10.0, -10.0, 20.0]) - 1.0) * 100.0 == 18.8
  {
    assert [10.0, -10.0, 20.0][..2] == [10.0, -10.0];
    assert [10.0, -10.0][..1] == [10.0];
    assert [10.0][..0] == [];
  }

  // -------------------------------------------------------- no data

  /** A provider answer whose closes are all missing leaves no history to trade on. */
  lemma AllMissingIsEmpty(rows: seq<Option<real>>, fast: nat, slow: nat)
    requires forall j :: 0 <= j < |rows| ==> rows[j].None?
    ensures DropMissing(rows) == []
    ensures HistoryRows(rows, fast, slow) == []
  {
    var kept := KeptRows(rows);
    if kept != [] {
      assert false;
    }
  }

  /** An empty series has no cross-up, so no trade and the empty metrics. */
  lemma EmptySeriesNoTrades(fast: nat, slow: nat, mode: ExitMode, hold: int)
    requires ValidHold(mode, hold)
    ensures TradesFor([], [], SignalColumn([], fast, slow), mode, hold) == []
    ensures Summary([]) == None
  {
  }
}
