/**
 * The strategy registry and the two built-in strategies: price
 * thresholds and the last-point moving-average comparison. The price and
 * history providers are function inputs.
 */
module Strategies {
  import opened Wrappers
  import opened Series

  /** A signal produced by a strategy evaluation (its message text is not modelled). */
  datatype StrategySignal = StrategySignal(ticker: string, price: real, alertType: Option<string>, threshold: Option<real>)

  /** `get_strategy`'s ValueError. */
  datatype StrategyError = UnknownStrategy(name: string)

  /** The name-to-strategy table that `register_strategy` fills in. */
  class Registry<F> {
    var strategies: map<string, F>

    constructor ()
      ensures strategies == map[]
    {
      strategies := map[];
    }

    /** `register_strategy(name)(func)`: bind the name and hand the strategy back. */
    method RegisterStrategy(name: string, func: F) returns (registered: F)
      modifies this
      ensures strategies == old(strategies)[name := func]
      ensures registered == func
      ensures GetStrategy(name) == Success(func)
      ensures forall other :: other != name ==> GetStrategy(other) == old(GetStrategy(other))
    {
      strategies := strategies[name := func];
      registered := func;
    }

    /** `get_strategy`: exact-name lookup; an unknown name is an error. */
    function GetStrategy(name: string): Result<F, StrategyError>
      reads this
    {
      if name !in strategies then Failure(UnknownStrategy(name)) else Success(strategies[name])
    }
  }

  /** The strategies the module registers when it is loaded. */
  datatype Builtin = Threshold | MovingAverageCross

  const BuiltinStrategies: map<string, Builtin> := map["threshold" := Threshold, "ma_cross" := MovingAverageCross]

  /** The module-level registry, as the two decorators leave it. */
  method BuiltinRegistry() returns (registry: Registry<Builtin>)
    ensures fresh(registry)
    ensures registry.strategies == BuiltinStrategies
    ensures registry.GetStrategy("threshold") == Success(Threshold)
    ensures registry.GetStrategy("ma_cross") == Success(MovingAverageCross)
  {
    registry := new Registry();
    var _ := registry.RegisterStrategy("threshold", Threshold);
    var _ := registry.RegisterStrategy("ma_cross", MovingAverageCross);
  }

  /**
   * On the module's registry exactly the two built-in names resolve, each
   * to its own strategy; any other name is an unknown-strategy error
   * naming it.
   */
  lemma BuiltinLookup(registry: Registry<Builtin>, name: string)
    requires registry.strategies == BuiltinStrategies
    ensures registry.GetStrategy(name).Success? <==> name == "threshold" || name == "ma_cross"
    ensures name == "threshold" ==> registry.GetStrategy(name) == Success(Threshold)
    ensures name == "ma_cross" ==> registry.GetStrategy(name) == Success(MovingAverageCross)
    ensures name != "threshold" && name != "ma_cross" ==> registry.GetStrategy(name) == Failure(UnknownStrategy(name))
  {
  }

  // ------------------------------------------------------------ threshold

  /** The "high" signal of a priced ticker: `high` is given and the price is at or above it. */
  function HighSignal(ticker: string, price: real, high: Option<real>): seq<StrategySignal>
  {
    if high.Some? && price >= high.value then [StrategySignal(ticker, price, Some("high"), high)] else []
  }

  /** The "low" signal of a priced ticker: `low` is given and the price is at or below it. */
  function LowSignal(ticker: string, price: real, low: Option<real>): seq<StrategySignal>
  {
    if low.Some? && price <= low.value then [StrategySignal(ticker, price, Some("low"), low)] else []
  }

  /** The signals one priced ticker yields: `high` first, then `low`. */
  function ThresholdTicker(ticker: string, price: real, high: Option<real>, low: Option<real>): seq<StrategySignal>
  {
    HighSignal(ticker, price, high) + LowSignal(ticker, price, low)
  }

  /** The signals of `threshold_strategy` for the tickers, in ticker order. */
  function ThresholdSignals(tickers: seq<string>, high: Option<real>, low: Option<real>,
                            getPrice: string -> Option<real>): (r: seq<StrategySignal>)
    ensures |r| <= 2 * |tickers|
  {
    if tickers == [] then []
    else
      var t := tickers[|tickers| - 1];
      var before := ThresholdSignals(tickers[..|tickers| - 1], high, low, getPrice);
      match getPrice(t)
      case None => before
      case Some(p) => before + HighSignal(t, p, high) + LowSignal(t, p, low)
  }

  /** One more ticker appends its own signals. */
  lemma ThresholdSignalsSnoc(tickers: seq<string>, i: nat, high: Option<real>, low: Option<real>,
                             getPrice: string -> Option<real>)
    requires i < |tickers|
    ensures getPrice(tickers[i]).None? ==>
              ThresholdSignals(tickers[..i + 1], high, low, getPrice) == ThresholdSignals(tickers[..i], high, low, getPrice)
    ensures getPrice(tickers[i]).Some? ==>
              var p := getPrice(tickers[i]).value;
              ThresholdSignals(tickers[..i + 1], high, low, getPrice)
              == ThresholdSignals(tickers[..i], high, low, getPrice) + HighSignal(tickers[i], p, high) + LowSignal(tickers[i], p, low)
  {
    assert tickers[..i + 1][..i] == tickers[..i];
  }

  /**
   * `threshold_strategy`: `high` and `low` are the values of
   * `params.get("high")` and `params.get("low")`, None when absent or null.
   */
  method ThresholdStrategy(tickers: seq<string>, high: Option<real>, low: Option<real>,
                           getPrice: string -> Option<real>) returns (signals: seq<StrategySignal>)
    ensures signals == ThresholdSignals(tickers, high, low, getPrice)
    ensures |signals| <= 2 * |tickers|
  {
    signals := [];
    var i := 0;
    while i < |tickers|
      invariant 0 <= i <= |tickers|
      invariant signals == ThresholdSignals(tickers[..i], high, low, getPrice)
    {
      var ticker := tickers[i];
      ThresholdSignalsSnoc(tickers, i, high, low, getPrice);
      var price := getPrice(ticker);
      if price.None? {
        i := i + 1;
        continue;
      }
      ghost var before := signals;
      if high.Some? && price.value >= high.value {
        signals := signals + [StrategySignal(ticker, price.value, Some("high"), Some(high.value))];
      }
      assert signals == before + HighSignal(ticker, price.value, high);
      if low.Some? && price.value <= low.value {
        signals := signals + [StrategySignal(ticker, price.value, Some("low"), Some(low.value))];
      }
      assert signals == before + HighSignal(ticker, price.value, high) + LowSignal(ticker, price.value, low);
      i := i + 1;
    }
    assert tickers[..i] == tickers;
  }

  // ------------------------------------------------------------- ma_cross

  /**
   * What `moving_average_cross_strategy` yields for one ticker: nothing
   * without history, with fewer present closes than the slow window, or
   * with an undefined mean; otherwise a signal at the last close iff the
   * fast mean is strictly above the slow one.
   */
  function MaCrossTicker(ticker: string, history: Option<seq<Option<real>>>, fast: nat, slow: nat): Option<StrategySignal>
    requires slow >= 1
  {
    if history.None? || history.value == [] then None
    else
      var closes := DropMissing(history.value);
      if |closes| < slow then None
      else
        var last := |closes| - 1;
        match (RollingMean(closes, fast, last), RollingMean(closes, slow, last))
        case (Some(fastMa), Some(slowMa)) =>
          if fastMa > slowMa then Some(StrategySignal(ticker, closes[last], Some("ma_cross"), None)) else None
        case _ => None
  }

  /** The signals of `moving_average_cross_strategy` for the tickers, in ticker order. */
  function MaCrossSignals(tickers: seq<string>, fast: nat, slow: nat,
                          getHistory: string -> Option<seq<Option<real>>>): (r: seq<StrategySignal>)
    requires slow >= 1
    ensures |r| <= |tickers|
  {
    if tickers == [] then []
    else
      var t := tickers[|tickers| - 1];
      MaCrossSignals(tickers[..|tickers| - 1], fast, slow, getHistory)
      + (match MaCrossTicker(t, getHistory(t), fast, slow) case None => [] case Some(s) => [s])
  }

  /** One more ticker appends its own signal, if any. */
  lemma MaCrossSignalsSnoc(tickers: seq<string>, i: nat, fast: nat, slow: nat,
                           getHistory: string -> Option<seq<Option<real>>>)
    requires i < |tickers| && slow >= 1
    ensures MaCrossTicker(tickers[i], getHistory(tickers[i]), fast, slow).None? ==>
              MaCrossSignals(tickers[..i + 1], fast, slow, getHistory) == MaCrossSignals(tickers[..i], fast, slow, getHistory)
    ensures MaCrossTicker(tickers[i], getHistory(tickers[i]), fast, slow).Some? ==>
              MaCrossSignals(tickers[..i + 1], fast, slow, getHistory)
              == MaCrossSignals(tickers[..i], fast, slow, getHistory) + [MaCrossTicker(tickers[i], getHistory(tickers[i]), fast, slow).value]
  {
    assert tickers[..i + 1][..i] == tickers[..i];
  }

  /**
   * `moving_average_cross_strategy` with `int(params["fast_window"])` and
   * `int(params["slow_window"])` already read; `getHistory` answers for the
   * alert's period and interval.
   */
  method MovingAverageCrossStrategy(tickers: seq<string>, fastWindow: nat, slowWindow: nat,
                                    getHistory: string -> Option<seq<Option<real>>>)
    returns (signals: seq<StrategySignal>)
    requires slowWindow >= 1
    ensures signals == MaCrossSignals(tickers, fastWindow, slowWindow, getHistory)
    ensures |signals| <= |tickers|
  {
    signals := [];
    var i := 0;
    while i < |tickers|
      invariant 0 <= i <= |tickers|
      invariant signals == MaCrossSignals(tickers[..i], fastWindow, slowWindow, getHistory)
    {
      var ticker := tickers[i];
      MaCrossSignalsSnoc(tickers, i, fastWindow, slowWindow, getHistory);
      var history := getHistory(ticker);
      i := i + 1;
      if history.None? || history.value == [] {
        assert MaCrossTicker(ticker, history, fastWindow, slowWindow) == None;
        continue;
      }
      var closes := DropMissing(history.value);
      if |closes| < slowWindow {
        assert MaCrossTicker(ticker, history, fastWindow, slowWindow) == None;
        continue;
      }
      var fastMa := RollingMean(closes, fastWindow, |closes| - 1);
      var slowMa := RollingMean(closes, slowWindow, |closes| - 1);
      if fastMa.None? || slowMa.None? {
        assert MaCrossTicker(ticker, history, fastWindow, slowWindow) == None;
        continue;
      }
      if fastMa.value > slowMa.value {
        var price := closes[|closes| - 1];
        assert MaCrossTicker(ticker, history, fastWindow, slowWindow) == Some(StrategySignal(ticker, price, Some("ma_cross"), None));
        signals := signals + [StrategySignal(ticker, price, Some("ma_cross"), None)];
      } else {
        assert MaCrossTicker(ticker, history, fastWindow, slowWindow) == None;
      }
    }
    assert tickers[..i] == tickers;
  }
}
