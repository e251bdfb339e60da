/** What the dispatch loop and the config loader promise, across whole configurations. */
module AlertsProperties {
  import opened Wrappers
  import opened Strategies
  import opened StrategiesProperties
  import opened Alerts

  lemma {:induction false} SignalAttemptsMembers(group: string, strategy: string, timeframe: string,
                                                 signals: seq<StrategySignal>)
    ensures forall a :: a in SignalAttempts(group, strategy, timeframe, signals) ==>
              a.group == group && a.strategy == strategy && a.timeframe == timeframe && a.signal in signals
  {
    var r := SignalAttempts(group, strategy, timeframe, signals);
    forall a | a in r
      ensures a.group == group && a.strategy == strategy && a.timeframe == timeframe && a.signal in signals
    {
      var k :| 0 <= k < |r| && r[k] == a;
      assert a.signal == signals[k];
    }
  }

  lemma {:induction false} GroupAttemptsRespectFilters(ctx: RunContext, group: string, alerts: seq<Json>)
    ensures forall a :: a in GroupAttempts(ctx, group, alerts) ==> a.group == group && !Skipped(ctx, a.timeframe)
    decreases |alerts|
  {
    if alerts != [] {
      var last := alerts[|alerts| - 1];
      GroupAttemptsRespectFilters(ctx, group, alerts[..|alerts| - 1]);
      if !Skipped(ctx, AlertTimeframe(last)) {
        var signals := ctx.evaluate(AlertStrategy(last), AlertTickers(last), AlertParams(last));
        SignalAttemptsMembers(group, AlertStrategy(last), AlertTimeframe(last), signals);
      }
    }
  }

  /**
   * Every attempted notification comes from an alert `check_alerts` did
   * not skip: neither intraday while the market is closed nor outside the
   * timeframe filter.
   */
  lemma {:induction false} AttemptsRespectFilters(ctx: RunContext, groups: seq<(string, Json)>)
    ensures forall a :: a in ConfigAttempts(ctx, groups) ==> !Skipped(ctx, a.timeframe)
    decreases |groups|
  {
    if groups != [] {
      var last := groups[|groups| - 1];
      AttemptsRespectFilters(ctx, groups[..|groups| - 1]);
      GroupAttemptsRespectFilters(ctx, last.0, GroupAlerts(last.1));
    }
  }

  /** Unless the market check is skipped, a closed market only lets daily alerts through. */
  lemma ClosedMarketOnlyDaily(ctx: RunContext, groups: seq<(string, Json)>)
    requires !ctx.skipMarketCheck && !ctx.marketOpen
    ensures forall a :: a in ConfigAttempts(ctx, groups) ==> a.timeframe == "1d"
  {
    AttemptsRespectFilters(ctx, groups);
  }

  /** With a non-empty filter, only alerts of exactly that timeframe are evaluated. */
  lemma FilterOnlyMatching(ctx: RunContext, groups: seq<(string, Json)>)
    requires FilterActive(ctx.timeframeFilter)
    ensures forall a :: a in ConfigAttempts(ctx, groups) ==> a.timeframe == ctx.timeframeFilter.value
  {
    AttemptsRespectFilters(ctx, groups);
  }

  /** An open market, or a skipped market check, leaves only the filter. */
  lemma OpenMarketOnlyFilter(ctx: RunContext, timeframe: string)
    requires ctx.skipMarketCheck || ctx.marketOpen
    ensures Skipped(ctx, timeframe) <==> FilterActive(ctx.timeframeFilter) && timeframe != ctx.timeframeFilter.value
  {
  }

  /** Every signal of an alert that is not skipped is handed to the sender, under its group. */
  lemma {:induction false} GroupSignalsAttempted(ctx: RunContext, group: string, alerts: seq<Json>, j: nat, s: StrategySignal)
    requires j < |alerts|
    requires !Skipped(ctx, AlertTimeframe(alerts[j]))
    requires s in ctx.evaluate(AlertStrategy(alerts[j]), AlertTickers(alerts[j]), AlertParams(alerts[j]))
    ensures Attempt(group, AlertStrategy(alerts[j]), AlertTimeframe(alerts[j]), s) in GroupAttempts(ctx, group, alerts)
    decreases |alerts|
  {
    var init := alerts[..|alerts| - 1];
    if j < |alerts| - 1 {
      assert init[j] == alerts[j];
      GroupSignalsAttempted(ctx, group, init, j, s);
    } else {
      var signals := ctx.evaluate(AlertStrategy(alerts[j]), AlertTickers(alerts[j]), AlertParams(alerts[j]));
      var k :| 0 <= k < |signals| && signals[k] == s;
      assert SignalAttempts(group, AlertStrategy(alerts[j]), AlertTimeframe(alerts[j]), signals)[k]
          == Attempt(group, AlertStrategy(alerts[j]), AlertTimeframe(alerts[j]), s);
    }
  }

  /** Every signal of every alert that is not skipped, in any group, is attempted. */
  lemma {:induction false} SignalsAttempted(ctx: RunContext, groups: seq<(string, Json)>, g: nat, j: nat, s: StrategySignal)
    requires g < |groups| && j < |GroupAlerts(groups[g].1)|
    requires var alert := GroupAlerts(groups[g].1)[j];
             !Skipped(ctx, AlertTimeframe(alert))
             && s in ctx.evaluate(AlertStrategy(alert), AlertTickers(alert), AlertParams(alert))
    ensures var alert := GroupAlerts(groups[g].1)[j];
            Attempt(groups[g].0, AlertStrategy(alert), AlertTimeframe(alert), s) in ConfigAttempts(ctx, groups)
    decreases |groups|
  {
    var init := groups[..|groups| - 1];
    if g < |groups| - 1 {
      assert init[g] == groups[g];
      SignalsAttempted(ctx, init, g, j, s);
    } else {
      GroupSignalsAttempted(ctx, groups[g].0, GroupAlerts(groups[g].1), j, s);
    }
  }

  /**
   * With the built-in strategies, every notification a threshold alert
   * attempts names one of the alert's tickers, at the provider's price,
   * which reached the bound the signal reports.
   */
  lemma BuiltinThresholdSound(skipMarketCheck: bool, marketOpen: bool, timeframeFilter: Option<string>,
                              getPrice: string -> Option<real>,
                              getHistory: (string, string, string) -> Option<seq<Option<real>>>,
                              group: string, alert: Json)
    requires AlertStrategy(alert) == "threshold"
    ensures var ctx := BuiltinContext(skipMarketCheck, marketOpen, timeframeFilter, getPrice, getHistory);
            var params := AlertParams(alert);
            forall a :: a in AlertAttempts(ctx, group, alert) ==>
              a.group == group && a.strategy == "threshold" && a.signal.ticker in AlertTickers(alert)
              && ThresholdJustified(a.signal, NumberParam(params, "high"), NumberParam(params, "low"), getPrice)
  {
    var ctx := BuiltinContext(skipMarketCheck, marketOpen, timeframeFilter, getPrice, getHistory);
    var params := AlertParams(alert);
    if !Skipped(ctx, AlertTimeframe(alert)) {
      var signals := ctx.evaluate("threshold", AlertTickers(alert), params);
      assert signals == ThresholdSignals(AlertTickers(alert), NumberParam(params, "high"), NumberParam(params, "low"), getPrice);
      SignalAttemptsMembers(group, "threshold", AlertTimeframe(alert), signals);
      ThresholdSound(AlertTickers(alert), NumberParam(params, "high"), NumberParam(params, "low"), getPrice);
    }
  }

  /**
   * With the built-in strategies, a threshold alert that is not skipped
   * hands the sender a "high" signal for each of its tickers priced at or
   * above `high`.
   */
  lemma BuiltinThresholdHighAttempted(skipMarketCheck: bool, marketOpen: bool, timeframeFilter: Option<string>,
                                      getPrice: string -> Option<real>,
                                      getHistory: (string, string, string) -> Option<seq<Option<real>>>,
                                      group: string, alert: Json, t: string, p: real)
    requires AlertStrategy(alert) == "threshold"
    requires !Skipped(BuiltinContext(skipMarketCheck, marketOpen, timeframeFilter, getPrice, getHistory), AlertTimeframe(alert))
    requires t in AlertTickers(alert) && getPrice(t) == Some(p)
    requires NumberParam(AlertParams(alert), "high").Some? && p >= NumberParam(AlertParams(alert), "high").value
    ensures Attempt(group, "threshold", AlertTimeframe(alert),
                    StrategySignal(t, p, Some("high"), NumberParam(AlertParams(alert), "high")))
            in AlertAttempts(BuiltinContext(skipMarketCheck, marketOpen, timeframeFilter, getPrice, getHistory), group, alert)
  {
    var ctx := BuiltinContext(skipMarketCheck, marketOpen, timeframeFilter, getPrice, getHistory);
    var params := AlertParams(alert);
    var high := NumberParam(params, "high");
    var signals := ctx.evaluate("threshold", AlertTickers(alert), params);
    assert signals == ThresholdSignals(AlertTickers(alert), high, NumberParam(params, "low"), getPrice);
    ThresholdHighComplete(AlertTickers(alert), high, NumberParam(params, "low"), getPrice, t, p);
    var k :| 0 <= k < |signals| && signals[k] == StrategySignal(t, p, Some("high"), high);
    assert SignalAttempts(group, "threshold", AlertTimeframe(alert), signals)[k]
        == Attempt(group, "threshold", AlertTimeframe(alert), StrategySignal(t, p, Some("high"), high));
  }

  /**
   * With the built-in strategies, every notification an ma_cross alert
   * attempts names one of the alert's tickers whose history, for the
   * alert's period and interval, fires the moving-average rule.
   */
  lemma BuiltinMaCrossSound(skipMarketCheck: bool, marketOpen: bool, timeframeFilter: Option<string>,
                            getPrice: string -> Option<real>,
                            getHistory: (string, string, string) -> Option<seq<Option<real>>>,
                            group: string, alert: Json)
    requires AlertStrategy(alert) == "ma_cross"
    ensures var ctx := BuiltinContext(skipMarketCheck, marketOpen, timeframeFilter, getPrice, getHistory);
            var params := AlertParams(alert);
            var period := TextParam(params, "period", "1y");
            var interval := TextParam(params, "interval", "1d");
            forall a :: a in AlertAttempts(ctx, group, alert) ==>
              a.group == group && a.strategy == "ma_cross" && a.signal.ticker in AlertTickers(alert)
              && MaCrossTicker(a.signal.ticker, getHistory(a.signal.ticker, period, interval),
                               WindowParam(params, "fast_window"), WindowParam(params, "slow_window")) == Some(a.signal)
  {
    var ctx := BuiltinContext(skipMarketCheck, marketOpen, timeframeFilter, getPrice, getHistory);
    var params := AlertParams(alert);
    var period := TextParam(params, "period", "1y");
    var interval := TextParam(params, "interval", "1d");
    var fast := WindowParam(params, "fast_window");
    var slow := WindowParam(params, "slow_window");
    var history := t => getHistory(t, period, interval);
    if !Skipped(ctx, AlertTimeframe(alert)) {
      var signals := ctx.evaluate("ma_cross", AlertTickers(alert), params);
      assert signals == MaCrossSignals(AlertTickers(alert), fast, slow, history);
      SignalAttemptsMembers(group, "ma_cross", AlertTimeframe(alert), signals);
      MaCrossSound(AlertTickers(alert), fast, slow, history);
    }
  }

  /** A sender that always succeeds delivers every attempt. */
  lemma {:induction false} AllDelivered(attempts: seq<Attempt>, send: (StrategySignal, string) -> bool)
    requires forall a :: a in attempts ==> send(a.signal, a.group)
    ensures Delivered(attempts, send) == |attempts|
    decreases |attempts|
  {
    if attempts != [] {
      var init := attempts[..|attempts| - 1];
      assert forall a :: a in init ==> a in attempts;
      AllDelivered(init, send);
    }
  }

  /** A sender that always fails delivers nothing. */
  lemma {:induction false} NoneDelivered(attempts: seq<Attempt>, send: (StrategySignal, string) -> bool)
    requires forall a :: a in attempts ==> !send(a.signal, a.group)
    ensures Delivered(attempts, send) == 0
    decreases |attempts|
  {
    if attempts != [] {
      var init := attempts[..|attempts| - 1];
      assert forall a :: a in init ==> a in attempts;
      NoneDelivered(init, send);
    }
  }

  // ------------------------------------------------------------- examples

  function SampleAlert(): Json
  {
    JObj([("strategy", JStr("threshold")), ("timeframe", JStr("1d")),
          ("tickers", JArr([JStr("AAPL"), JStr("MSFT")])), ("params", JObj([("high", JInt(250))]))])
  }

  function SampleConfig(groupName: string): Json
  {
    JObj([("groups", JObj([(groupName, JArr([SampleAlert()]))]))])
  }

  lemma SampleAlertValid()
    ensures ValidateAlert(SampleAlert()) == Pass
  {
    TimeframeIff("1d");
    var items := [JStr("AAPL"), JStr("MSFT")];
    assert AllNonEmptyStrings(items);
  }

  /** A one-group config with a valid threshold alert loads unchanged. */
  lemma SampleConfigLoads()
    ensures ValidateConfig(SampleConfig("stock-alerts_1")) == Success(SampleConfig("stock-alerts_1"))
  {
    assert IsValidGroupName("stock-alerts_1") by { GroupNameIff("stock-alerts_1"); }
    SampleAlertValid();
    var alerts := [SampleAlert()];
    assert alerts[..0] == [];
    assert FirstAlertFault(alerts) == None;
    var groups := [("stock-alerts_1", JArr(alerts))];
    assert groups[..0] == [];
    assert CheckGroups(groups) == Pass;
  }

  /** A space in a group name is rejected with that name, before its alerts are looked at. */
  lemma SpaceInGroupNameRejected()
    ensures ValidateConfig(SampleConfig("stock alerts")) == Failure(InvalidGroupChars("stock alerts"))
  {
    assert !IsGroupChar("stock alerts"[5]);
    GroupNameIff("stock alerts");
    var groups := [("stock alerts", JArr([SampleAlert()]))];
    assert groups[..0] == [];
  }

  /** A config without a `groups` object is rejected first. */
  lemma MissingGroupsRejected()
    ensures ValidateConfig(JObj([("alerts", JArr([SampleAlert()]))])) == Failure(NoGroupsObject)
  {
  }
}
