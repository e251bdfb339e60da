/**
 * The alert configuration of the command-line runner: the group-name and
 * timeframe validators, ticker extraction, per-alert validation, the
 * config loading loop, the dispatch loop that counts delivered
 * notifications, and the exit code of the entry point.
 */
module Alerts {
  import opened Wrappers
  import opened Strategies

  // ----------------------------------------------------------------- JSON

  /** A parsed JSON value; an object keeps its keys in document order. */
  datatype Json =
    | JNull
    | JBool(b: bool)
    | JInt(i: int)
    | JReal(r: real)
    | JStr(s: string)
    | JArr(items: seq<Json>)
    | JObj(fields: seq<(string, Json)>)

  /** The value under `key` (the first entry with that key), if any. */
  function Lookup(fields: seq<(string, Json)>, key: string): Option<Json>
  {
    if fields == [] then None
    else if fields[0].0 == key then Some(fields[0].1)
    else Lookup(fields[1..], key)
  }

  /** A key is found exactly when some entry carries it, and then the first such entry's value is returned. */
  lemma {:induction false} LookupFirst(fields: seq<(string, Json)>, key: string)
    ensures Lookup(fields, key).Some? <==> exists k :: 0 <= k < |fields| && fields[k].0 == key
    ensures Lookup(fields, key).Some? ==>
              exists k :: 0 <= k < |fields| && fields[k] == (key, Lookup(fields, key).value)
                          && forall m :: 0 <= m < k ==> fields[m].0 != key
  {
    if fields != [] && fields[0].0 != key {
      LookupFirst(fields[1..], key);
      assert forall k :: 0 <= k < |fields| - 1 ==> fields[1..][k] == fields[k + 1];
      if Lookup(fields, key).Some? {
        var k :| 0 <= k < |fields[1..]| && fields[1..][k] == (key, Lookup(fields, key).value)
                 && forall m :: 0 <= m < k ==> fields[1..][m].0 != key;
        assert fields[k + 1] == (key, Lookup(fields, key).value);
      }
    }
  }

  /** Python's `key in d`. */
  predicate Has(fields: seq<(string, Json)>, key: string)
  {
    Lookup(fields, key).Some?
  }

  /** Python's `d[key]` on a key that is present. */
  function Get(fields: seq<(string, Json)>, key: string): Json
    requires Has(fields, key)
  {
    Lookup(fields, key).value
  }

  // ----------------------------------------------------------- group names

  /** The character class `[a-zA-Z0-9_-]` (ASCII). */
  predicate IsGroupChar(c: char)
  {
    ('a' <= c <= 'z') || ('A' <= c <= 'Z') || ('0' <= c <= '9') || c == '_' || c == '-'
  }

  /** Whether `[a-zA-Z0-9_-]+` covers all of `s` once `s` is non-empty. */
  function AllGroupChars(s: string): bool
  {
    if s == [] then true else AllGroupChars(s[..|s| - 1]) && IsGroupChar(s[|s| - 1])
  }

  /** `is_valid_group_name`: the three checks in source order. */
  predicate IsValidGroupName(name: string)
  {
    if name == "" then false
    else if |name| > 100 then false
    else AllGroupChars(name)
  }

  lemma {:induction false} AllGroupCharsIff(s: string)
    ensures AllGroupChars(s) <==> forall k :: 0 <= k < |s| ==> IsGroupChar(s[k])
    decreases |s|
  {
    if s != [] {
      var init := s[..|s| - 1];
      AllGroupCharsIff(init);
      assert forall k :: 0 <= k < |init| ==> init[k] == s[k];
    }
  }

  /** A valid group name is 1 to 100 characters, each a letter, a digit, `_` or `-`. */
  lemma GroupNameIff(name: string)
    ensures IsValidGroupName(name) <==> 0 < |name| <= 100 && forall k :: 0 <= k < |name| ==> IsGroupChar(name[k])
  {
    AllGroupCharsIff(name);
  }

  // ------------------------------------------------------------ timeframes

  predicate IsDigit(c: char)
  {
    '0' <= c <= '9'
  }

  /** The unit group `(m|h|d)`. */
  predicate IsUnit(c: char)
  {
    c == 'm' || c == 'h' || c == 'd'
  }

  /** Where the run of digits that starts at `i` ends: the `\d+` part of the match. */
  function DigitRunEnd(s: string, i: nat): (r: nat)
    requires i <= |s|
    ensures i <= r <= |s|
    ensures forall k :: i <= k < r ==> IsDigit(s[k])
    ensures r < |s| ==> !IsDigit(s[r])
    decreases |s| - i
  {
    if i < |s| && IsDigit(s[i]) then DigitRunEnd(s, i + 1) else i
  }

  /** `is_valid_timeframe`: the whole string matches `\d+(m|h|d)`. */
  predicate IsValidTimeframe(s: string)
  {
    var e := DigitRunEnd(s, 0);
    0 < e && e + 1 == |s| && IsUnit(s[e])
  }

  /** A timeframe is one or more digits followed by exactly one of `m`, `h`, `d`. */
  lemma TimeframeIff(s: string)
    ensures IsValidTimeframe(s) <==>
              |s| >= 2 && (forall k :: 0 <= k < |s| - 1 ==> IsDigit(s[k])) && IsUnit(s[|s| - 1])
  {
    var e := DigitRunEnd(s, 0);
    if |s| >= 2 && (forall k :: 0 <= k < |s| - 1 ==> IsDigit(s[k])) && IsUnit(s[|s| - 1]) {
      assert !IsDigit(s[|s| - 1]);
      if e < |s| - 1 {
        assert false;
      }
    }
  }

  lemma TimeframeExamples()
    ensures IsValidTimeframe("15m") && IsValidTimeframe("6h") && IsValidTimeframe("1d")
    ensures !IsValidTimeframe("1w") && !IsValidTimeframe("d") && !IsValidTimeframe("15")
    ensures !IsValidTimeframe("1.5h") && !IsValidTimeframe("1dd") && !IsValidTimeframe("")
  {
    TimeframeIff("15m");
    TimeframeIff("6h");
    TimeframeIff("1d");
    TimeframeIff("1.5h");
    TimeframeIff("1dd");
  }

  // --------------------------------------------------------------- tickers

  /**
   * Why an alert is rejected: one variant per `ValueError` of the
   * validators, and `NotAnObject` for the `TypeError` of an alert that
   * cannot be read by key.
   */
  datatype AlertFault =
    | NotAnObject
    | MissingStrategy
    | MissingTimeframe
    | InvalidTimeframe
    | BothTickerKeys
    | InvalidTickers
    | InvalidTicker
    | MissingTicker
    | MissingParams
    | InvalidStrategy(strategy: Json)
    | MissingBound(tickers: seq<string>)
    | MissingWindow(key: string)
    | InvalidWindow(key: string)

  /** Every item is a non-empty string. */
  predicate AllNonEmptyStrings(items: seq<Json>)
  {
    forall k :: 0 <= k < |items| ==> items[k].JStr? && items[k].s != ""
  }

  /** The strings inside a list of JSON strings. */
  function Strings(items: seq<Json>): (r: seq<string>)
    requires AllNonEmptyStrings(items)
    ensures |r| == |items|
    ensures forall k :: 0 <= k < |items| ==> items[k] == JStr(r[k]) && r[k] != ""
  {
    if items == [] then [] else Strings(items[..|items| - 1]) + [items[|items| - 1].s]
  }

  /** A list of strings as a JSON array. */
  function StringArray(ts: seq<string>): Json
  {
    JArr(seq(|ts|, k requires 0 <= k < |ts| => JStr(ts[k])))
  }

  /** `extract_tickers`: `ticker` or `tickers`, exactly one of them, well formed. */
  function ExtractTickers(alert: seq<(string, Json)>): Result<seq<string>, AlertFault>
  {
    if Has(alert, "tickers") && Has(alert, "ticker") then Failure(BothTickerKeys)
    else if Has(alert, "tickers") then
      var tickers := Get(alert, "tickers");
      if !tickers.JArr? || tickers.items == [] then Failure(InvalidTickers)
      else if !AllNonEmptyStrings(tickers.items) then Failure(InvalidTickers)
      else Success(Strings(tickers.items))
    else if Has(alert, "ticker") then
      var ticker := Get(alert, "ticker");
      if !ticker.JStr? || ticker.s == "" then Failure(InvalidTicker)
      else Success([ticker.s])
    else Failure(MissingTicker)
  }

  /**
   * Both directions of the extraction rules: a `tickers` list comes back
   * unchanged as its non-empty strings, a `ticker` string as a singleton,
   * and each malformed case is the error its branch names.
   */
  lemma ExtractTickersSpec(alert: seq<(string, Json)>)
    ensures Has(alert, "tickers") && Has(alert, "ticker") ==> ExtractTickers(alert) == Failure(BothTickerKeys)
    ensures !Has(alert, "tickers") && !Has(alert, "ticker") ==> ExtractTickers(alert) == Failure(MissingTicker)
    ensures Has(alert, "tickers") && !Has(alert, "ticker") ==>
              (ExtractTickers(alert).Success? <==>
                 Get(alert, "tickers").JArr? && Get(alert, "tickers").items != []
                 && AllNonEmptyStrings(Get(alert, "tickers").items))
              && (ExtractTickers(alert).Failure? ==> ExtractTickers(alert).error == InvalidTickers)
              && (ExtractTickers(alert).Success? ==>
                    StringArray(ExtractTickers(alert).value) == Get(alert, "tickers")
                    && ExtractTickers(alert).value != [])
    ensures Has(alert, "ticker") && !Has(alert, "tickers") ==>
              (ExtractTickers(alert).Success? <==> Get(alert, "ticker").JStr? && Get(alert, "ticker").s != "")
              && (ExtractTickers(alert).Failure? ==> ExtractTickers(alert).error == InvalidTicker)
              && (ExtractTickers(alert).Success? ==> ExtractTickers(alert).value == [Get(alert, "ticker").s])
    ensures ExtractTickers(alert).Success? ==>
              ExtractTickers(alert).value != [] && forall k :: 0 <= k < |ExtractTickers(alert).value| ==> ExtractTickers(alert).value[k] != ""
  {
    if Has(alert, "tickers") && !Has(alert, "ticker") && ExtractTickers(alert).Success? {
      var items := Get(alert, "tickers").items;
      var ts := Strings(items);
      assert StringArray(ts).items == items;
    }
  }

  // ---------------------------------------------------------------- alerts

  /** `get_strategy` succeeding on the module's registry; a non-string name is unknown. */
  predicate IsRegistered(strategy: Json)
  {
    strategy.JStr? && strategy.s in BuiltinStrategies
  }

  /** The value of a JSON number that Python's `isinstance(v, int)` accepts; `bool` is an `int` there. */
  function IntValue(v: Json): Option<int>
  {
    match v
    case JInt(i) => Some(i)
    case JBool(b) => Some(if b then 1 else 0)
    case _ => None
  }

  /** One `ma_cross` window parameter: present, and an integer above zero. */
  function CheckWindow(params: seq<(string, Json)>, key: string): Outcome<AlertFault>
  {
    if !Has(params, key) then Fail(MissingWindow(key))
    else if !(IntValue(Get(params, key)).Some? && IntValue(Get(params, key)).value > 0) then Fail(InvalidWindow(key))
    else Pass
  }

  /** The strategy-specific parameter checks. */
  function CheckParams(strategy: string, tickers: seq<string>, params: seq<(string, Json)>): Outcome<AlertFault>
  {
    if strategy == "threshold" then
      if !Has(params, "high") && !Has(params, "low") then Fail(MissingBound(tickers)) else Pass
    else if strategy == "ma_cross" then
      match CheckWindow(params, "fast_window")
      case Fail(f) => Fail(f)
      case Pass => CheckWindow(params, "slow_window")
    else Pass
  }

  /** Whether `needle` occurs in `hay` as a contiguous substring (Python's `needle in hay` on strings). */
  predicate OccursIn(needle: string, hay: string)
    decreases |hay|
  {
    needle <= hay || (hay != [] && OccursIn(needle, hay[1..]))
  }

  /**
   * Python's `key in alert` on the value types where `in` is defined: a
   * key of an object, a substring of a string, an element of a list.
   */
  predicate Member(alert: Json, key: string)
  {
    match alert
    case JObj(fields) => Has(fields, key)
    case JStr(s) => OccursIn(key, s)
    case JArr(items) => JStr(key) in items
    case _ => false
  }

  /**
   * `validate_alert`: the checks in source order, the first failing one
   * reported. A string or list alert meets the two `in` tests like any
   * other value and raises `TypeError` only where it is indexed by a key;
   * `in` itself raises `TypeError` on null, booleans and numbers.
   */
  function ValidateAlert(alert: Json): Outcome<AlertFault>
  {
    if !(alert.JObj? || alert.JStr? || alert.JArr?) then Fail(NotAnObject)
    else if !Member(alert, "strategy") then Fail(MissingStrategy)
    else if !Member(alert, "timeframe") then Fail(MissingTimeframe)
    else if !alert.JObj? then Fail(NotAnObject)
    else
      var a := alert.fields;
      if !(Get(a, "timeframe").JStr? && IsValidTimeframe(Get(a, "timeframe").s)) then Fail(InvalidTimeframe)
      else
        match ExtractTickers(a)
        case Failure(f) => Fail(f)
        case Success(tickers) =>
          if !Has(a, "params") || !Get(a, "params").JObj? then Fail(MissingParams)
          else if !IsRegistered(Get(a, "strategy")) then Fail(InvalidStrategy(Get(a, "strategy")))
          else CheckParams(Get(a, "strategy").s, tickers, Get(a, "params").fields)
  }

  /** A window parameter that `validate_alert` accepts. */
  predicate GoodWindow(params: seq<(string, Json)>, key: string)
  {
    Has(params, key) && IntValue(Get(params, key)).Some? && IntValue(Get(params, key)).value > 0
  }

  /** Everything a valid alert has, stated as one conjunction rather than a chain of checks. */
  predicate AlertConditions(alert: Json)
  {
    alert.JObj?
    && var a := alert.fields;
    Has(a, "strategy") && Has(a, "timeframe")
    && Get(a, "timeframe").JStr? && IsValidTimeframe(Get(a, "timeframe").s)
    && ExtractTickers(a).Success?
    && Has(a, "params") && Get(a, "params").JObj?
    && IsRegistered(Get(a, "strategy"))
    && (Get(a, "strategy").s == "threshold" ==>
          Has(Get(a, "params").fields, "high") || Has(Get(a, "params").fields, "low"))
    && (Get(a, "strategy").s == "ma_cross" ==>
          GoodWindow(Get(a, "params").fields, "fast_window") && GoodWindow(Get(a, "params").fields, "slow_window"))
  }

  /** An alert validates exactly when every condition holds. */
  lemma AlertValidIff(alert: Json)
    ensures ValidateAlert(alert) == Pass <==> AlertConditions(alert)
  {
  }

  /** A missing strategy is reported first, whatever else is wrong. */
  lemma MissingStrategyFirst(alert: seq<(string, Json)>)
    requires !Has(alert, "strategy")
    ensures ValidateAlert(JObj(alert)) == Fail(MissingStrategy)
  {
  }

  /** With a strategy present, a missing timeframe is reported before anything else is read. */
  lemma MissingTimeframeSecond(a: seq<(string, Json)>)
    requires Has(a, "strategy") && !Has(a, "timeframe")
    ensures ValidateAlert(JObj(a)) == Fail(MissingTimeframe)
  {
  }

  /** An invalid timeframe is reported before the tickers, the params and the strategy name are looked at. */
  lemma TimeframeBeforeTickers(a: seq<(string, Json)>)
    requires Has(a, "strategy") && Has(a, "timeframe")
    requires !(Get(a, "timeframe").JStr? && IsValidTimeframe(Get(a, "timeframe").s))
    ensures ValidateAlert(JObj(a)) == Fail(InvalidTimeframe)
  {
  }

  /** With the timeframe valid, a ticker fault is reported before the params and the strategy name. */
  lemma TickersBeforeParams(a: seq<(string, Json)>)
    requires Has(a, "strategy") && Has(a, "timeframe")
    requires Get(a, "timeframe").JStr? && IsValidTimeframe(Get(a, "timeframe").s)
    requires ExtractTickers(a).Failure?
    ensures ValidateAlert(JObj(a)) == Fail(ExtractTickers(a).error)
  {
  }

  /** With timeframe and tickers valid, missing params are reported before the strategy name is looked up. */
  lemma ParamsBeforeStrategy(a: seq<(string, Json)>)
    requires Has(a, "strategy") && Has(a, "timeframe")
    requires Get(a, "timeframe").JStr? && IsValidTimeframe(Get(a, "timeframe").s)
    requires ExtractTickers(a).Success?
    requires !Has(a, "params") || !Get(a, "params").JObj?
    ensures ValidateAlert(JObj(a)) == Fail(MissingParams)
  {
  }

  /** Once everything before it holds, an unregistered strategy is reported before any parameter is checked. */
  lemma StrategyBeforeParamChecks(a: seq<(string, Json)>)
    requires Has(a, "strategy") && Has(a, "timeframe")
    requires Get(a, "timeframe").JStr? && IsValidTimeframe(Get(a, "timeframe").s)
    requires ExtractTickers(a).Success?
    requires Has(a, "params") && Get(a, "params").JObj?
    requires !IsRegistered(Get(a, "strategy"))
    ensures ValidateAlert(JObj(a)) == Fail(InvalidStrategy(Get(a, "strategy")))
  {
  }

  /**
   * Alerts that are not objects: a string or list is tested with `in`
   * like an object, and fails as missing `strategy` or `timeframe` unless
   * it contains both; other values fail at the first `in`.
   */
  lemma NonObjectAlerts()
    ensures ValidateAlert(JStr("AAPL")) == Fail(MissingStrategy)
    ensures ValidateAlert(JArr([])) == Fail(MissingStrategy)
    ensures ValidateAlert(JArr([JStr("strategy"), JStr("1d")])) == Fail(MissingTimeframe)
    ensures ValidateAlert(JArr([JStr("strategy"), JStr("timeframe")])) == Fail(NotAnObject)
    ensures ValidateAlert(JStr("strategy")) == Fail(MissingTimeframe)
    ensures ValidateAlert(JInt(3)) == Fail(NotAnObject)
    ensures ValidateAlert(JNull) == Fail(NotAnObject)
  {
    assert !OccursIn("strategy", "AAPL");
    assert "strategy" <= "strategy";
    assert !OccursIn("timeframe", "strategy");
  }

  /** A registered strategy name with a well-formed alert around it. */
  lemma ThresholdAlertValid()
    ensures ValidateAlert(JObj([("strategy", JStr("threshold")), ("timeframe", JStr("1d")),
                                ("ticker", JStr("AAPL")), ("params", JObj([("high", JInt(250))]))])) == Pass
  {
    TimeframeIff("1d");
  }

  // ---------------------------------------------------------------- config

  /** Why `load_config` rejects a configuration. */
  datatype ConfigError =
    | NoGroupsObject
    | EmptyGroupName
    | GroupNameTooLong(name: string)
    | InvalidGroupChars(name: string)
    | NoAlerts(group: string)
    | AlertError(group: string, fault: AlertFault)

  /** The config is an object whose `groups` entry is an object. */
  predicate HasGroupsObject(config: Json)
  {
    config.JObj? && Has(config.fields, "groups") && Get(config.fields, "groups").JObj?
  }

  function ConfigGroups(config: Json): seq<(string, Json)>
    requires HasGroupsObject(config)
  {
    Get(config.fields, "groups").fields
  }

  /** The first failing alert of a group, in list order. */
  function FirstAlertFault(alerts: seq<Json>): Option<AlertFault>
  {
    if alerts == [] then None
    else
      match FirstAlertFault(alerts[..|alerts| - 1])
      case Some(f) => Some(f)
      case None =>
        match ValidateAlert(alerts[|alerts| - 1])
        case Pass => None
        case Fail(f) => Some(f)
  }

  /** One group of `load_config`: its name checks, then its alert list. */
  function CheckGroup(name: string, alerts: Json): Outcome<ConfigError>
  {
    if name == "" then Fail(EmptyGroupName)
    else if |name| > 100 then Fail(GroupNameTooLong(name))
    else if !IsValidGroupName(name) then Fail(InvalidGroupChars(name))
    else if !alerts.JArr? || alerts.items == [] then Fail(NoAlerts(name))
    else
      match FirstAlertFault(alerts.items)
      case Some(f) => Fail(AlertError(name, f))
      case None => Pass
  }

  /** The first failing group, in the config's key order. */
  function CheckGroups(groups: seq<(string, Json)>): Outcome<ConfigError>
  {
    if groups == [] then Pass
    else
      match CheckGroups(groups[..|groups| - 1])
      case Fail(e) => Fail(e)
      case Pass => CheckGroup(groups[|groups| - 1].0, groups[|groups| - 1].1)
  }

  /** What `load_config` returns or raises for an already parsed document. */
  function ValidateConfig(config: Json): Result<Json, ConfigError>
  {
    if !HasGroupsObject(config) then Failure(NoGroupsObject)
    else
      match CheckGroups(ConfigGroups(config))
      case Fail(e) => Failure(e)
      case Pass => Success(config)
  }

  predicate AlertsValidated(alerts: seq<Json>)
  {
    forall j :: 0 <= j < |alerts| ==> ValidateAlert(alerts[j]) == Pass
  }

  /** A group `load_config` accepts: a valid name and a non-empty list of valid alerts. */
  predicate GroupValid(group: (string, Json))
  {
    IsValidGroupName(group.0) && group.1.JArr? && group.1.items != [] && AlertsValidated(group.1.items)
  }

  predicate AllGroupsValid(groups: seq<(string, Json)>)
  {
    forall k :: 0 <= k < |groups| ==> GroupValid(groups[k])
  }

  /** A configuration `load_config` accepts, stated declaratively. */
  predicate ValidConfig(config: Json)
  {
    HasGroupsObject(config) && AllGroupsValid(ConfigGroups(config))
  }

  lemma {:induction false} FirstAlertFaultNoneIff(alerts: seq<Json>)
    ensures FirstAlertFault(alerts) == None <==> AlertsValidated(alerts)
    decreases |alerts|
  {
    if alerts != [] {
      var init := alerts[..|alerts| - 1];
      FirstAlertFaultNoneIff(init);
      assert forall j :: 0 <= j < |init| ==> init[j] == alerts[j];
    }
  }

  lemma CheckGroupPassIff(name: string, alerts: Json)
    ensures CheckGroup(name, alerts) == Pass <==> GroupValid((name, alerts))
  {
    if alerts.JArr? {
      FirstAlertFaultNoneIff(alerts.items);
    }
  }

  lemma {:induction false} CheckGroupsPassIff(groups: seq<(string, Json)>)
    ensures CheckGroups(groups) == Pass <==> AllGroupsValid(groups)
    decreases |groups|
  {
    if groups != [] {
      var init := groups[..|groups| - 1];
      CheckGroupsPassIff(init);
      CheckGroupPassIff(groups[|groups| - 1].0, groups[|groups| - 1].1);
      assert forall k :: 0 <= k < |init| ==> init[k] == groups[k];
    }
  }

  /**
   * `load_config` succeeds exactly when `groups` is an object, every group
   * name is valid, every group is a non-empty list and every alert
   * validates; it then returns the configuration unchanged.
   */
  lemma LoadConfigIff(config: Json)
    ensures ValidateConfig(config).Success? <==> ValidConfig(config)
    ensures ValidateConfig(config).Success? ==> ValidateConfig(config).value == config
  {
    if HasGroupsObject(config) {
      CheckGroupsPassIff(ConfigGroups(config));
    }
  }

  /** A failure is that of the first failing group: every group before it passes. */
  lemma {:induction false} FirstFailingGroup(groups: seq<(string, Json)>)
    requires CheckGroups(groups).Fail?
    ensures exists k :: 0 <= k < |groups| && CheckGroups(groups[..k]) == Pass
                        && CheckGroup(groups[k].0, groups[k].1) == CheckGroups(groups)
    decreases |groups|
  {
    var init := groups[..|groups| - 1];
    if CheckGroups(init).Fail? {
      FirstFailingGroup(init);
      var k :| 0 <= k < |init| && CheckGroups(init[..k]) == Pass && CheckGroup(init[k].0, init[k].1) == CheckGroups(init);
      assert init[..k] == groups[..k];
    } else {
      assert groups[..|groups| - 1] == init;
    }
  }

  /** A failure in a prefix of the groups is the failure of the whole config. */
  lemma {:induction false} GroupFailureSticks(groups: seq<(string, Json)>, i: nat)
    requires i <= |groups| && CheckGroups(groups[..i]).Fail?
    ensures CheckGroups(groups) == CheckGroups(groups[..i])
    decreases |groups| - i
  {
    if i < |groups| {
      assert groups[..i + 1][..i] == groups[..i];
      GroupFailureSticks(groups, i + 1);
    } else {
      assert groups[..i] == groups;
    }
  }

  /** A failure in a prefix of a group's alerts is the group's first fault. */
  lemma {:induction false} AlertFaultSticks(alerts: seq<Json>, j: nat)
    requires j <= |alerts| && FirstAlertFault(alerts[..j]).Some?
    ensures FirstAlertFault(alerts) == FirstAlertFault(alerts[..j])
    decreases |alerts| - j
  {
    if j < |alerts| {
      assert alerts[..j + 1][..j] == alerts[..j];
      AlertFaultSticks(alerts, j + 1);
    } else {
      assert alerts[..j] == alerts;
    }
  }

  /** The alert loop of one group, stopping at the first invalid alert. */
  method ValidateAlerts(alerts: seq<Json>) returns (fault: Option<AlertFault>)
    ensures fault == FirstAlertFault(alerts)
    ensures fault == None <==> AlertsValidated(alerts)
  {
    FirstAlertFaultNoneIff(alerts);
    var j := 0;
    while j < |alerts|
      invariant 0 <= j <= |alerts|
      invariant FirstAlertFault(alerts[..j]) == None
    {
      assert alerts[..j + 1][..j] == alerts[..j];
      var outcome := ValidateAlert(alerts[j]);
      if outcome.Fail? {
        AlertFaultSticks(alerts, j + 1);
        return Some(outcome.error);
      }
      j := j + 1;
    }
    assert alerts[..j] == alerts;
    return None;
  }

  /** The body of `load_config`'s group loop: name checks, then the alert loop. */
  method ValidateGroup(name: string, alerts: Json) returns (outcome: Outcome<ConfigError>)
    ensures outcome == CheckGroup(name, alerts)
  {
    if name == "" {
      return Fail(EmptyGroupName);
    }
    if |name| > 100 {
      return Fail(GroupNameTooLong(name));
    }
    if !IsValidGroupName(name) {
      return Fail(InvalidGroupChars(name));
    }
    if !alerts.JArr? || alerts.items == [] {
      return Fail(NoAlerts(name));
    }
    var fault := ValidateAlerts(alerts.items);
    if fault.Some? {
      return Fail(AlertError(name, fault.value));
    }
    return Pass;
  }

  /** `load_config` after the file has been read and parsed. */
  method LoadConfig(config: Json) returns (result: Result<Json, ConfigError>)
    ensures result == ValidateConfig(config)
    ensures result.Success? <==> ValidConfig(config)
    ensures result.Success? ==> result.value == config
  {
    if !config.JObj? || !Has(config.fields, "groups") || !Get(config.fields, "groups").JObj? {
      return Failure(NoGroupsObject);
    }
    var groups := Get(config.fields, "groups").fields;
    var i := 0;
    while i < |groups|
      invariant 0 <= i <= |groups|
      invariant CheckGroups(groups[..i]) == Pass
    {
      var (name, alerts) := groups[i];
      assert groups[..i + 1][..i] == groups[..i];
      var outcome := ValidateGroup(name, alerts);
      if outcome.Fail? {
        GroupFailureSticks(groups, i + 1);
        CheckGroupsPassIff(groups);
        return Failure(outcome.error);
      }
      i := i + 1;
    }
    assert groups[..i] == groups;
    CheckGroupsPassIff(groups);
    return Success(config);
  }

  // -------------------------------------------------------------- dispatch

  /** The string under `key` of an alert object, or "" when there is none. */
  function StringField(alert: Json, key: string): string
  {
    if alert.JObj? then
      match Lookup(alert.fields, key)
      case Some(JStr(v)) => v
      case _ => ""
    else ""
  }

  /** `alert["strategy"]` of a validated alert. */
  function AlertStrategy(alert: Json): string
  {
    StringField(alert, "strategy")
  }

  /** `alert["timeframe"]` of a validated alert. */
  function AlertTimeframe(alert: Json): string
  {
    StringField(alert, "timeframe")
  }

  /** `extract_tickers(alert, ...)` of a validated alert. */
  function AlertTickers(alert: Json): seq<string>
  {
    if alert.JObj? then
      match ExtractTickers(alert.fields)
      case Success(ts) => ts
      case Failure(_) => []
    else []
  }

  /** `alert["params"]` of a validated alert. */
  function AlertParams(alert: Json): Json
  {
    if alert.JObj? then Lookup(alert.fields, "params").GetOr(JNull) else JNull
  }

  /** On a validated alert the accessors read exactly the entries `check_alerts` uses. */
  lemma AccessorsOfValidAlert(alert: Json)
    requires ValidateAlert(alert) == Pass
    ensures alert.JObj? && Has(alert.fields, "strategy") && Has(alert.fields, "timeframe") && Has(alert.fields, "params")
    ensures Get(alert.fields, "strategy") == JStr(AlertStrategy(alert)) && AlertStrategy(alert) in BuiltinStrategies
    ensures Get(alert.fields, "timeframe") == JStr(AlertTimeframe(alert)) && IsValidTimeframe(AlertTimeframe(alert))
    ensures ExtractTickers(alert.fields) == Success(AlertTickers(alert))
    ensures Get(alert.fields, "params") == AlertParams(alert) && AlertParams(alert).JObj?
  {
  }

  // ------------------------------------------------------------ strategies

  /**
   * `params.get(key)` as the threshold comparisons read it: an int, a float
   * or a bool is a number; an absent key or `null` is None.
   */
  function NumberParam(params: Json, key: string): Option<real>
  {
    if params.JObj? then
      match Lookup(params.fields, key)
      case Some(JInt(i)) => Some(i as real)
      case Some(JReal(r)) => Some(r)
      case Some(JBool(b)) => Some(if b then 1.0 else 0.0)
      case _ => None
    else None
  }

  /** `params.get(key, default)` for a string parameter. */
  function TextParam(params: Json, key: string, default: string): string
  {
    if params.JObj? then
      match Lookup(params.fields, key)
      case Some(JStr(v)) => v
      case _ => default
    else default
  }

  /** `int(params[key])` of a window parameter (1 where the validator would have refused it). */
  function WindowParam(params: Json, key: string): (r: nat)
    ensures r >= 1
    ensures params.JObj? && GoodWindow(params.fields, key) ==> r == IntValue(Get(params.fields, key)).value
  {
    if params.JObj? then
      match Lookup(params.fields, key)
      case Some(v) => (match IntValue(v) case Some(i) => if i >= 1 then i else 1 case None => 1)
      case None => 1
    else 1
  }

  /**
   * `get_strategy(name)(tickers, params)` on the module's registry:
   * `getPrice` is the price provider and `getHistory` the history provider
   * for a ticker, a period and an interval. A name that is not registered
   * yields no signals (`validate_alert` has refused it already).
   */
  function BuiltinEvaluate(getPrice: string -> Option<real>,
                           getHistory: (string, string, string) -> Option<seq<Option<real>>>,
                           strategy: string, tickers: seq<string>, params: Json): seq<StrategySignal>
  {
    if strategy !in BuiltinStrategies then []
    else
      match BuiltinStrategies[strategy]
      case Threshold =>
        ThresholdSignals(tickers, NumberParam(params, "high"), NumberParam(params, "low"), getPrice)
      case MovingAverageCross =>
        var period := TextParam(params, "period", "1y");
        var interval := TextParam(params, "interval", "1d");
        MaCrossSignals(tickers, WindowParam(params, "fast_window"), WindowParam(params, "slow_window"),
                       t => getHistory(t, period, interval))
  }

  /** The alert list of a group (a validated group always has one). */
  function GroupAlerts(alerts: Json): seq<Json>
  {
    if alerts.JArr? then alerts.items else []
  }

  /**
   * What one run of `check_alerts` depends on besides the config: the
   * `--skip-market-check` flag, the market-hours answer, the timeframe
   * filter, and the registered strategy evaluated on an alert's tickers
   * and params.
   */
  datatype RunContext = RunContext(
    skipMarketCheck: bool,
    marketOpen: bool,
    timeframeFilter: Option<string>,
    evaluate: (string, seq<string>, Json) -> seq<StrategySignal>)

  /** The run context in which every alert is evaluated by the built-in strategies. */
  function BuiltinContext(skipMarketCheck: bool, marketOpen: bool, timeframeFilter: Option<string>,
                          getPrice: string -> Option<real>,
                          getHistory: (string, string, string) -> Option<seq<Option<real>>>): RunContext
  {
    RunContext(skipMarketCheck, marketOpen, timeframeFilter,
               (strategy, tickers, params) => BuiltinEvaluate(getPrice, getHistory, strategy, tickers, params))
  }

  /** Python's truthiness of `timeframe_filter`: given and non-empty. */
  predicate FilterActive(filter: Option<string>)
  {
    filter.Some? && filter.value != ""
  }

  /** `check_alerts` passes over an alert: intraday while the market is closed, or a filter mismatch. */
  predicate Skipped(ctx: RunContext, timeframe: string)
  {
    (!ctx.skipMarketCheck && !ctx.marketOpen && timeframe != "1d")
    || (FilterActive(ctx.timeframeFilter) && timeframe != ctx.timeframeFilter.value)
  }

  /** One call of the sender: the group, the alert's strategy and timeframe, and the signal. */
  datatype Attempt = Attempt(group: string, strategy: string, timeframe: string, signal: StrategySignal)

  /** The send attempts for the signals of one alert, in signal order. */
  function SignalAttempts(group: string, strategy: string, timeframe: string, signals: seq<StrategySignal>): (r: seq<Attempt>)
    ensures |r| == |signals|
    ensures forall k :: 0 <= k < |signals| ==> r[k] == Attempt(group, strategy, timeframe, signals[k])
  {
    if signals == [] then []
    else SignalAttempts(group, strategy, timeframe, signals[..|signals| - 1])
         + [Attempt(group, strategy, timeframe, signals[|signals| - 1])]
  }

  /** The send attempts of one alert: none when skipped, else one per signal of its strategy. */
  function AlertAttempts(ctx: RunContext, group: string, alert: Json): seq<Attempt>
  {
    if Skipped(ctx, AlertTimeframe(alert)) then []
    else
      var signals := ctx.evaluate(AlertStrategy(alert), AlertTickers(alert), AlertParams(alert));
      SignalAttempts(group, AlertStrategy(alert), AlertTimeframe(alert), signals)
  }

  /** The send attempts of a group, alert by alert. */
  function GroupAttempts(ctx: RunContext, group: string, alerts: seq<Json>): seq<Attempt>
  {
    if alerts == [] then []
    else GroupAttempts(ctx, group, alerts[..|alerts| - 1]) + AlertAttempts(ctx, group, alerts[|alerts| - 1])
  }

  /** The send attempts of the whole config, group by group. */
  function ConfigAttempts(ctx: RunContext, groups: seq<(string, Json)>): seq<Attempt>
  {
    if groups == [] then []
    else
      var last := groups[|groups| - 1];
      ConfigAttempts(ctx, groups[..|groups| - 1]) + GroupAttempts(ctx, last.0, GroupAlerts(last.1))
  }

  /** How many attempts the sender reports as delivered. */
  function Delivered(attempts: seq<Attempt>, send: (StrategySignal, string) -> bool): (r: nat)
    ensures r <= |attempts|
  {
    if attempts == [] then 0
    else
      var a := attempts[|attempts| - 1];
      Delivered(attempts[..|attempts| - 1], send) + (if send(a.signal, a.group) then 1 else 0)
  }

  lemma {:induction false} DeliveredAppend(a: seq<Attempt>, b: seq<Attempt>, send: (StrategySignal, string) -> bool)
    ensures Delivered(a + b, send) == Delivered(a, send) + Delivered(b, send)
    decreases |b|
  {
    if b == [] {
      assert a + b == a;
    } else {
      assert (a + b)[..|a + b| - 1] == a + b[..|b| - 1];
      DeliveredAppend(a, b[..|b| - 1], send);
    }
  }

  lemma SignalAttemptsSnoc(group: string, strategy: string, timeframe: string, signals: seq<StrategySignal>, m: nat)
    requires m < |signals|
    ensures SignalAttempts(group, strategy, timeframe, signals[..m + 1])
         == SignalAttempts(group, strategy, timeframe, signals[..m]) + [Attempt(group, strategy, timeframe, signals[m])]
  {
    assert signals[..m + 1][..m] == signals[..m];
  }

  /** The signal loop: one sender call per signal, counting the successful ones. */
  method SendSignals(group: string, strategy: string, timeframe: string, signals: seq<StrategySignal>,
                     send: (StrategySignal, string) -> bool) returns (sent: nat)
    ensures sent == Delivered(SignalAttempts(group, strategy, timeframe, signals), send)
  {
    sent := 0;
    var m := 0;
    while m < |signals|
      invariant 0 <= m <= |signals|
      invariant sent == Delivered(SignalAttempts(group, strategy, timeframe, signals[..m]), send)
    {
      SignalAttemptsSnoc(group, strategy, timeframe, signals, m);
      var signal := signals[m];
      if send(signal, group) {
        sent := sent + 1;
      }
      m := m + 1;
    }
    assert signals[..m] == signals;
  }

  /**
   * One pass of `check_alerts`' alert loop: the two `continue`
   * conditions, then the strategy run and the signal loop.
   */
  method CheckAlert(ctx: RunContext, group: string, alert: Json, send: (StrategySignal, string) -> bool)
    returns (sent: nat)
    ensures sent == Delivered(AlertAttempts(ctx, group, alert), send)
  {
    var timeframe := AlertTimeframe(alert);
    if !ctx.skipMarketCheck && !ctx.marketOpen && timeframe != "1d" {
      return 0;
    }
    if FilterActive(ctx.timeframeFilter) && timeframe != ctx.timeframeFilter.value {
      return 0;
    }
    var strategy := AlertStrategy(alert);
    var signals := ctx.evaluate(strategy, AlertTickers(alert), AlertParams(alert));
    sent := SendSignals(group, strategy, timeframe, signals, send);
  }

  /** The alert loop of one group. */
  method CheckGroupAlerts(ctx: RunContext, group: string, alerts: seq<Json>, send: (StrategySignal, string) -> bool)
    returns (sent: nat)
    ensures sent == Delivered(GroupAttempts(ctx, group, alerts), send)
  {
    sent := 0;
    var j := 0;
    while j < |alerts|
      invariant 0 <= j <= |alerts|
      invariant sent == Delivered(GroupAttempts(ctx, group, alerts[..j]), send)
    {
      assert alerts[..j + 1][..j] == alerts[..j];
      DeliveredAppend(GroupAttempts(ctx, group, alerts[..j]), AlertAttempts(ctx, group, alerts[j]), send);
      var delivered := CheckAlert(ctx, group, alerts[j], send);
      sent := sent + delivered;
      j := j + 1;
    }
    assert alerts[..j] == alerts;
  }

  /** `check_alerts` on a loaded config: the number of notifications the sender delivered. */
  method CheckAlerts(config: Json, ctx: RunContext, send: (StrategySignal, string) -> bool) returns (sent: nat)
    requires ValidConfig(config)
    ensures sent == Delivered(ConfigAttempts(ctx, ConfigGroups(config)), send)
    ensures sent <= |ConfigAttempts(ctx, ConfigGroups(config))|
  {
    var groups := ConfigGroups(config);
    sent := 0;
    var i := 0;
    while i < |groups|
      invariant 0 <= i <= |groups|
      invariant sent == Delivered(ConfigAttempts(ctx, groups[..i]), send)
    {
      var (name, alerts) := groups[i];
      assert groups[..i + 1][..i] == groups[..i];
      DeliveredAppend(ConfigAttempts(ctx, groups[..i]), GroupAttempts(ctx, name, GroupAlerts(alerts)), send);
      var delivered := CheckGroupAlerts(ctx, name, GroupAlerts(alerts), send);
      sent := sent + delivered;
      i := i + 1;
    }
    assert groups[..i] == groups;
  }

  // ------------------------------------------------------------ entry point

  /** Whether `main` exits with status 1: a config error, or a non-empty filter that is not a timeframe. */
  predicate ConfigErrorExit(configFile: Option<Json>, timeframeFilter: Option<string>)
  {
    configFile.None? || ValidateConfig(configFile.value).Failure?
    || (FilterActive(timeframeFilter) && !IsValidTimeframe(timeframeFilter.value))
  }

  /**
   * `main`: `configFile` is None when the file is missing or not JSON,
   * `marketOpen` is the market-hours answer at the time of the run.
   * Returns the exit status and the number of notifications sent.
   */
  method Run(configFile: Option<Json>, timeframeFilter: Option<string>, skipMarketCheck: bool, marketOpen: bool,
             evaluate: (string, seq<string>, Json) -> seq<StrategySignal>, send: (StrategySignal, string) -> bool)
    returns (exitCode: int, sent: nat)
    ensures exitCode == 0 || exitCode == 1
    ensures exitCode == 1 <==> ConfigErrorExit(configFile, timeframeFilter)
    ensures exitCode == 1 ==> sent == 0
    ensures exitCode == 0 ==>
              ValidConfig(configFile.value)
              && sent == Delivered(ConfigAttempts(RunContext(skipMarketCheck, marketOpen, timeframeFilter, evaluate),
                                                  ConfigGroups(configFile.value)), send)
  {
    if configFile.None? {
      return 1, 0;
    }
    var loaded := LoadConfig(configFile.value);
    if loaded.Failure? {
      return 1, 0;
    }
    if FilterActive(timeframeFilter) && !IsValidTimeframe(timeframeFilter.value) {
      return 1, 0;
    }
    var ctx := RunContext(skipMarketCheck, marketOpen, timeframeFilter, evaluate);
    sent := CheckAlerts(loaded.value, ctx, send);
    exitCode := 0;
  }
}
