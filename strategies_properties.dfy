/** What the two built-in strategies promise about the signals they emit. */
module StrategiesProperties {
  import opened Wrappers
  import opened Series
  import opened Strategies

  /** The threshold strategy treats each ticker on its own: output follows input order. */
  lemma {:induction false} ThresholdSignalsAppend(a: seq<string>, b: seq<string>, high: Option<real>, low: Option<real>,
                                                 getPrice: string -> Option<real>)
    ensures ThresholdSignals(a + b, high, low, getPrice)
         == ThresholdSignals(a, high, low, getPrice) + ThresholdSignals(b, high, low, getPrice)
    decreases |b|
  {
    if b == [] {
      assert a + b == a;
    } else {
      var b' := b[..|b| - 1];
      assert (a + b)[..|a + b| - 1] == a + b';
      assert (a + b)[|a + b| - 1] == b[|b| - 1];
      ThresholdSignalsAppend(a, b', high, low, getPrice);
    }
  }

  /** The signals for a single ticker. */
  lemma ThresholdSingle(t: string, high: Option<real>, low: Option<real>, getPrice: string -> Option<real>)
    ensures ThresholdSignals([t], high, low, getPrice)
         == (match getPrice(t) case None => [] case Some(p) => ThresholdTicker(t, p, high, low))
  {
    assert [t][..0] == [];
  }

  /** Whether `s` is a signal the threshold rule allows for a ticker priced `p`. */
  predicate ThresholdJustified(s: StrategySignal, high: Option<real>, low: Option<real>, getPrice: string -> Option<real>)
  {
    getPrice(s.ticker) == Some(s.price)
    && ((s.alertType == Some("high") && s.threshold == high && high.Some? && s.price >= high.value)
        || (s.alertType == Some("low") && s.threshold == low && low.Some? && s.price <= low.value))
  }

  /** Soundness: every signal names a listed, priced ticker whose price reached the bound it reports. */
  lemma {:induction false} ThresholdSound(tickers: seq<string>, high: Option<real>, low: Option<real>,
                                          getPrice: string -> Option<real>)
    ensures forall s :: s in ThresholdSignals(tickers, high, low, getPrice) ==>
              s.ticker in tickers && ThresholdJustified(s, high, low, getPrice)
    decreases |tickers|
  {
    if tickers != [] {
      var init := tickers[..|tickers| - 1];
      ThresholdSound(init, high, low, getPrice);
      forall s | s in ThresholdSignals(tickers, high, low, getPrice)
        ensures s.ticker in tickers && ThresholdJustified(s, high, low, getPrice)
      {
        var t := tickers[|tickers| - 1];
        if s in ThresholdSignals(init, high, low, getPrice) {
          assert s.ticker in tickers by { var k :| 0 <= k < |init| && init[k] == s.ticker; assert tickers[k] == s.ticker; }
        }
      }
    }
  }

  /** Completeness: a priced ticker at or above `high` yields its "high" signal. */
  lemma {:induction false} ThresholdHighComplete(tickers: seq<string>, high: Option<real>, low: Option<real>,
                                                 getPrice: string -> Option<real>, t: string, p: real)
    requires t in tickers && getPrice(t) == Some(p)
    requires high.Some? && p >= high.value
    ensures StrategySignal(t, p, Some("high"), high) in ThresholdSignals(tickers, high, low, getPrice)
    decreases |tickers|
  {
    var init := tickers[..|tickers| - 1];
    if tickers[|tickers| - 1] != t {
      assert t in init by { var k :| 0 <= k < |tickers| && tickers[k] == t; assert init[k] == t; }
      ThresholdHighComplete(init, high, low, getPrice, t, p);
    }
  }

  /** Completeness: a priced ticker at or below `low` yields its "low" signal. */
  lemma {:induction false} ThresholdLowComplete(tickers: seq<string>, high: Option<real>, low: Option<real>,
                                                getPrice: string -> Option<real>, t: string, p: real)
    requires t in tickers && getPrice(t) == Some(p)
    requires low.Some? && p <= low.value
    ensures StrategySignal(t, p, Some("low"), low) in ThresholdSignals(tickers, high, low, getPrice)
    decreases |tickers|
  {
    var init := tickers[..|tickers| - 1];
    if tickers[|tickers| - 1] != t {
      assert t in init by { var k :| 0 <= k < |tickers| && tickers[k] == t; assert init[k] == t; }
      ThresholdLowComplete(init, high, low, getPrice, t, p);
    }
  }

  /** An unpriced ticker contributes nothing. */
  lemma {:induction false} ThresholdUnpricedSilent(tickers: seq<string>, high: Option<real>, low: Option<real>,
                                                   getPrice: string -> Option<real>, t: string)
    requires getPrice(t) == None
    ensures forall s :: s in ThresholdSignals(tickers, high, low, getPrice) ==> s.ticker != t
  {
    ThresholdSound(tickers, high, low, getPrice);
  }

  /** A price inside both bounds fires both, the "high" signal first. */
  lemma BothBoundsFire(t: string, p: real, h: real, l: real)
    requires h <= p <= l
    ensures ThresholdTicker(t, p, Some(h), Some(l))
         == [StrategySignal(t, p, Some("high"), Some(h)), StrategySignal(t, p, Some("low"), Some(l))]
  {
  }

  /** Without bounds the strategy is silent. */
  lemma {:induction false} NoBoundsNoSignals(tickers: seq<string>, getPrice: string -> Option<real>)
    ensures ThresholdSignals(tickers, None, None, getPrice) == []
    decreases |tickers|
  {
    if tickers != [] {
      NoBoundsNoSignals(tickers[..|tickers| - 1], getPrice);
    }
  }

  /** Two tickers priced 260 against a high of 250 yield one "high" signal each. */
  lemma TwoTickersAboveHigh(getPrice: string -> Option<real>)
    requires getPrice("AAPL") == Some(260.0) && getPrice("MSFT") == Some(260.0)
    ensures ThresholdSignals(["AAPL", "MSFT"], Some(250.0), None, getPrice)
         == [StrategySignal("AAPL", 260.0, Some("high"), Some(250.0)),
             StrategySignal("MSFT", 260.0, Some("high"), Some(250.0))]
  {
    ThresholdSignalsAppend(["AAPL"], ["MSFT"], Some(250.0), None, getPrice);
    assert ["AAPL"] + ["MSFT"] == ["AAPL", "MSFT"];
    ThresholdSingle("AAPL", Some(250.0), None, getPrice);
    ThresholdSingle("MSFT", Some(250.0), None, getPrice);
  }

  // ------------------------------------------------------------- ma_cross

  /**
   * The ma_cross rule for one ticker is the backtest's signal read at the
   * last present close: a signal exactly when there is history, at least
   * `slow` closes remain, and the fast mean there exceeds the slow one;
   * the signal carries the last close and no threshold.
   */
  lemma MaCrossAgreesWithSignal(ticker: string, history: Option<seq<Option<real>>>, fast: nat, slow: nat)
    requires slow >= 1
    ensures var r := MaCrossTicker(ticker, history, fast, slow);
            r.Some? <==> (history.Some? && |DropMissing(history.value)| >= slow
                          && Signal(DropMissing(history.value), fast, slow, |DropMissing(history.value)| - 1))
    ensures var r := MaCrossTicker(ticker, history, fast, slow);
            r.Some? ==> var closes := DropMissing(history.value);
                        r.value == StrategySignal(ticker, closes[|closes| - 1], Some("ma_cross"), None)
  {
    if history.Some? && history.value == [] {
      assert DropMissing(history.value) == [];
    }
  }

  /** A slow window longer than the series can never fire. */
  lemma ShortHistorySilent(ticker: string, history: seq<Option<real>>, fast: nat, slow: nat)
    requires slow >= 1 && |history| < slow
    ensures MaCrossTicker(ticker, Some(history), fast, slow) == None
  {
  }

  /** Every ma_cross signal names a listed ticker whose own rule fires. */
  lemma {:induction false} MaCrossSound(tickers: seq<string>, fast: nat, slow: nat,
                                        getHistory: string -> Option<seq<Option<real>>>)
    requires slow >= 1
    ensures forall s :: s in MaCrossSignals(tickers, fast, slow, getHistory) ==>
              s.ticker in tickers && MaCrossTicker(s.ticker, getHistory(s.ticker), fast, slow) == Some(s)
    decreases |tickers|
  {
    if tickers != [] {
      var init := tickers[..|tickers| - 1];
      MaCrossSound(init, fast, slow, getHistory);
      forall s | s in MaCrossSignals(tickers, fast, slow, getHistory)
        ensures s.ticker in tickers && MaCrossTicker(s.ticker, getHistory(s.ticker), fast, slow) == Some(s)
      {
        if s in MaCrossSignals(init, fast, slow, getHistory) {
          assert s.ticker in tickers by { var k :| 0 <= k < |init| && init[k] == s.ticker; assert tickers[k] == s.ticker; }
        }
      }
    }
  }

  /** Every listed ticker whose rule fires has its signal in the output. */
  lemma {:induction false} MaCrossComplete(tickers: seq<string>, fast: nat, slow: nat,
                                           getHistory: string -> Option<seq<Option<real>>>, t: string)
    requires slow >= 1
    requires t in tickers && MaCrossTicker(t, getHistory(t), fast, slow).Some?
    ensures MaCrossTicker(t, getHistory(t), fast, slow).value in MaCrossSignals(tickers, fast, slow, getHistory)
    decreases |tickers|
  {
    var init := tickers[..|tickers| - 1];
    if tickers[|tickers| - 1] != t {
      assert t in init by { var k :| 0 <= k < |tickers| && tickers[k] == t; assert init[k] == t; }
      MaCrossComplete(init, fast, slow, getHistory, t);
    }
  }

  /** Closes 1, 2, 3 with windows 2 and 3: fast mean 2.5 above slow mean 2, a signal at 3. */
  lemma RisingHistoryFires(ticker: string)
    ensures MaCrossTicker(ticker, Some([Some(1.0), Some(2.0), Some(3.0)]), 2, 3)
         == Some(StrategySignal(ticker, 3.0, Some("ma_cross"), None))
  {
    var rows := [Some(1.0), Some(2.0), Some(3.0)];
    DropMissingNoGaps(rows);
    var closes := DropMissing(rows);
    assert closes == [1.0, 2.0, 3.0];
    assert closes[1..3] == [2.0, 3.0];
    assert Sum([2.0, 3.0]) == 5.0 by {
      assert [2.0, 3.0][..1] == [2.0];
      assert [2.0][..0] == [];
    }
    assert closes[0..3] == closes;
    assert Sum(closes) == 6.0 by {
      assert closes[..2] == [1.0, 2.0];
      assert [1.0, 2.0][..1] == [1.0];
      assert [1.0][..0] == [];
    }
    assert RollingMean(closes, 2, 2) == Some(2.5);
    assert RollingMean(closes, 3, 2) == Some(2.0);
  }
}
