/**
 * The `logs-insights` command of the Serverless plugin (`LogsInsightsPlugin`):
 * it derives the Lambda log group, the query string and the time window from
 * the service configuration and the command options, runs the query, and
 * renders the rows it gets back.
 *
 * The plugin object's `serverless` and `options` fields are set once by its
 * constructor and never reassigned, so they are modelled as the values
 * `Service` and `Options` that each operation takes.
 */
module Plugin {
  import opened Wrappers
  import opened CloudWatch
  import opened QueryTrait

  datatype FunctionConfig = FunctionConfig(name: Option<string>, handler: Option<string>)

  datatype Provider = Provider(name: Option<string>, region: string, stage: Option<string>)

  datatype LogsInsightsConfig = LogsInsightsConfig(queries: Option<map<string, string>>)

  datatype CustomConfig = CustomConfig(logsInsights: Option<LogsInsightsConfig>)

  /** The part of `serverless.service` the command reads. */
  datatype Service = Service(
    service: string,
    provider: Provider,
    functions: Option<map<string, FunctionConfig>>,
    custom: Option<CustomConfig>)

  /** The command-line options `--function`, `--query` and `--interval`. */
  datatype Options = Options(functionName: string, query: Option<string>, interval: Option<string>)

  // ---------------------------------------------------------------------
  // parseDuration: one or more digits and a unit letter, number times unit factor
  // ---------------------------------------------------------------------

  const InvalidDurationMessage := "Invalid duration format. Use s/m/h/d (e.g. 1h, 5m)."

  /** Seconds per unit letter, the `units` record. */
  const Units: map<char, nat> := map['s' := 1, 'm' := 60, 'h' := 3600, 'd' := 86400]

  /** `\d` without the `u` flag: an ASCII digit. */
  predicate IsDigit(c: char) {
    '0' <= c <= '9'
  }

  /** One of the unit letters s, m, h and d. */
  predicate IsUnitLetter(c: char) {
    c == 's' || c == 'm' || c == 'h' || c == 'd'
  }

  predicate AllDigits(s: string) {
    forall i :: 0 <= i < |s| ==> IsDigit(s[i])
  }

  /** The whole string is one or more ASCII digits followed by one unit letter. */
  predicate MatchesDuration(str: string) {
    |str| >= 2 && AllDigits(str[..|str| - 1]) && IsUnitLetter(str[|str| - 1])
  }

  /** `parseInt` of a string of decimal digits (leading zeros allowed). */
  function DigitsValue(s: string): nat
    requires AllDigits(s)
  {
    if s == [] then 0
    else DigitsValue(s[..|s| - 1]) * 10 + ((s[|s| - 1] as int) - ('0' as int))
  }

  function ParseDuration(str: string): (r: Result<nat>)
    ensures r.Err? ==> r.message == InvalidDurationMessage
  {
    if !MatchesDuration(str) then Err(InvalidDurationMessage)
    else
      var digits, unit := str[..|str| - 1], str[|str| - 1];
      Ok(DigitsValue(digits) * Units[unit])
  }

  /** The decimal numeral of `n`, without leading zeros. */
  function NatToString(n: nat): (s: string)
    ensures |s| >= 1 && AllDigits(s)
  {
    var last := (('0' as int) + n % 10) as char;
    if n < 10 then [last] else NatToString(n / 10) + [last]
  }

  /**
   * Every string that is not empty splits into a prefix and a last character;
   * it parses exactly when the prefix is one or more digits and the last
   * character one of s, m, h, d, and then to the digits' value times the
   * unit's factor.
   */
  lemma ParseDurationGrammar(digits: string, u: char)
    ensures ParseDuration(digits + [u]).Ok? <==> |digits| >= 1 && AllDigits(digits) && IsUnitLetter(u)
    ensures ParseDuration(digits + [u]).Ok? ==>
      u in Units && ParseDuration(digits + [u]).value == DigitsValue(digits) * Units[u]
  {
    var s := digits + [u];
    assert s[..|s| - 1] == digits;
    assert s[|s| - 1] == u;
    if |digits| >= 1 && AllDigits(digits) && IsUnitLetter(u) {
      assert MatchesDuration(s);
      assert u in Units;
      var value := DigitsValue(digits) * Units[u];
      assert ParseDuration(s) == Ok(value);
    } else {
      assert !MatchesDuration(s);
    }
  }

  /** A parsed duration is a whole number of its unit, and never negative. */
  lemma ParseDurationMultiple(str: string)
    requires ParseDuration(str).Ok?
    ensures str[|str| - 1] in Units && ParseDuration(str).value % Units[str[|str| - 1]] == 0
  {
    var d := DigitsValue(str[..|str| - 1]);
    var f := Units[str[|str| - 1]];
    assert d * f == f * d;
  }

  lemma {:induction false} DigitsValueOfNatToString(n: nat)
    ensures DigitsValue(NatToString(n)) == n
  {
    var s := NatToString(n);
    var last := (('0' as int) + n % 10) as char;
    if n < 10 {
      assert s[..|s| - 1] == [];
    } else {
      assert s[..|s| - 1] == NatToString(n / 10);
      DigitsValueOfNatToString(n / 10);
    }
  }

  /** Printing a number and appending a unit letter parses back to the number of seconds. */
  lemma ParseDurationRoundTrip(n: nat, u: char)
    requires IsUnitLetter(u)
    ensures ParseDuration(NatToString(n) + [u]) == Ok(n * Units[u])
  {
    ParseDurationGrammar(NatToString(n), u);
    DigitsValueOfNatToString(n);
  }

  lemma ParseDurationExamples()
    ensures ParseDuration("1h") == Ok(3600)
    ensures ParseDuration("01h") == Ok(3600)
    ensures ParseDuration("0s") == Ok(0)
    ensures ParseDuration("30m") == Ok(1800)
    ensures ParseDuration("2d") == Ok(172800)
  {
    assert ParseDuration("1h") == Ok(3600) by { ParseDurationGrammar("1", 'h'); }
    assert ParseDuration("01h") == Ok(3600) by {
      ParseDurationGrammar("01", 'h');
      assert "01"[..1] == "0" && "0"[..0] == "";
      assert "01" + ['h'] == "01h";
    }
    assert ParseDuration("0s") == Ok(0) by { ParseDurationGrammar("0", 's'); }
    assert ParseDuration("30m") == Ok(1800) by {
      ParseDurationGrammar("30", 'm');
      assert "30"[..1] == "3" && "3"[..0] == "";
      assert "30" + ['m'] == "30m";
    }
    assert ParseDuration("2d") == Ok(172800) by { ParseDurationGrammar("2", 'd'); }
  }

  lemma ParseDurationRejections()
    ensures ParseDuration("").Err? && ParseDuration("h").Err? && ParseDuration("1").Err?
    ensures ParseDuration("1x").Err? && ParseDuration("1H").Err? && ParseDuration("-1h").Err?
    ensures ParseDuration(" 1h").Err? && ParseDuration("1h ").Err? && ParseDuration("1.5h").Err?
  {
    assert !IsDigit("-1h"[0]) && !IsDigit(" 1h"[0]) && !IsDigit("1h "[1]) && !IsDigit("1.5h"[1]);
  }

  // ---------------------------------------------------------------------
  // The time window
  // ---------------------------------------------------------------------

  datatype Window = Window(startTime: int, endTime: int)

  /** The clock reading `nowMs`, in milliseconds, rounded down to whole seconds. */
  function EpochSeconds(nowMs: int): (s: int)
    ensures 1000 * s <= nowMs < 1000 * s + 1000
  {
    nowMs / 1000
  }

  /** The `--interval` option, or one hour when it is not given. */
  function EffectiveInterval(options: Options): string {
    options.interval.GetOr("1h")
  }

  /** The window ending at the clock reading and reaching back by the interval. */
  function TimeWindow(nowMs: int, interval: string): Result<Window> {
    match ParseDuration(interval)
    case Err(msg) => Err(msg)
    case Ok(seconds) => Ok(Window(EpochSeconds(nowMs) - seconds, EpochSeconds(nowMs)))
  }

  lemma TimeWindowBounds(nowMs: int, interval: string)
    ensures TimeWindow(nowMs, interval).Ok? <==> ParseDuration(interval).Ok?
    ensures TimeWindow(nowMs, interval).Err? ==> TimeWindow(nowMs, interval).message == InvalidDurationMessage
    ensures TimeWindow(nowMs, interval).Ok? ==>
      var w := TimeWindow(nowMs, interval).value;
      && 1000 * w.endTime <= nowMs < 1000 * w.endTime + 1000
      && w.endTime - w.startTime == ParseDuration(interval).value
      && w.startTime <= w.endTime
      && (w.startTime == w.endTime <==> ParseDuration(interval).value == 0)
  {
  }

  /** Without `--interval` the window is the last hour; "0s" gives an empty window. */
  lemma TimeWindowDefaults(nowMs: int, options: Options)
    requires options.interval.None?
    ensures TimeWindow(nowMs, EffectiveInterval(options)) == Ok(Window(nowMs / 1000 - 3600, nowMs / 1000))
    ensures TimeWindow(nowMs, "0s") == Ok(Window(nowMs / 1000, nowMs / 1000))
  {
    ParseDurationExamples();
  }

  // ---------------------------------------------------------------------
  // The log group name
  // ---------------------------------------------------------------------

  const LambdaLogPrefix := "/aws/lambda/"

  /** The configuration of function `fn`, if the service declares functions and `fn` among them. */
  function FunctionConfigOf(s: Service, fn: string): Option<FunctionConfig> {
    if s.functions.Some? && fn in s.functions.value then Some(s.functions.value[fn]) else None
  }

  /** How a template literal renders an optional string: `undefined` prints as "undefined". */
  function TemplateText(v: Option<string>): string {
    v.GetOr("undefined")
  }

  /**
   * The function's configured name when it has one; otherwise service name,
   * stage and function key joined by hyphens.
   */
  function LambdaName(s: Service, fn: string): string {
    match FunctionConfigOf(s, fn)
    case Some(FunctionConfig(Some(name), _)) => name
    case _ => s.service + "-" + TemplateText(s.provider.stage) + "-" + fn
  }

  function LogGroupName(s: Service, fn: string): (r: string)
    ensures |LambdaLogPrefix| <= |r| && r[..|LambdaLogPrefix|] == LambdaLogPrefix
    ensures r[|LambdaLogPrefix|..] == LambdaName(s, fn)
  {
    LambdaLogPrefix + LambdaName(s, fn)
  }

  /**
   * A `name` in the function's configuration is used as is, even when empty;
   * otherwise the name is derived from service, stage and function key and
   * ends with "-" followed by the function key.
   */
  lemma LogGroupNameCases(s: Service, fn: string)
    ensures FunctionConfigOf(s, fn).Some? && FunctionConfigOf(s, fn).value.name.Some? ==>
      LogGroupName(s, fn) == LambdaLogPrefix + FunctionConfigOf(s, fn).value.name.value
    ensures FunctionConfigOf(s, fn).None? || FunctionConfigOf(s, fn).value.name.None? ==>
      && LogGroupName(s, fn) == LambdaLogPrefix + s.service + "-" + TemplateText(s.provider.stage) + "-" + fn
      && LogGroupName(s, fn)[|LogGroupName(s, fn)| - |fn| - 1..] == "-" + fn
  {
    match FunctionConfigOf(s, fn)
    case Some(FunctionConfig(Some(_), _)) =>
    case _ =>
      DerivedShape(LambdaLogPrefix, s.service, TemplateText(s.provider.stage), fn);
  }

  /** Prefixing a hyphen-joined name keeps the joined form, and it ends with "-" + fn. */
  lemma DerivedShape(prefix: string, service: string, stage: string, fn: string)
    ensures var r := prefix + (service + "-" + stage + "-" + fn);
      r == prefix + service + "-" + stage + "-" + fn && r[|r| - |fn| - 1..] == "-" + fn
  {
    var r := prefix + (service + "-" + stage + "-" + fn);
    assert r == (prefix + service + "-" + stage) + ("-" + fn);
  }

  /** A service without a stage yields a name containing "-undefined-". */
  lemma MissingStageExample()
    ensures LogGroupName(Service("svc", Provider(None, "us-east-1", None), None, None), "api")
      == "/aws/lambda/svc-undefined-api"
  {
  }

  // ---------------------------------------------------------------------
  // The query string
  // ---------------------------------------------------------------------

  const DefaultQueryKey := "errors"
  const DefaultQuery := "fields @timestamp, @message | limit 20"

  /** The custom queries configured for the plugin, or none when any level is missing. */
  function CustomQueries(s: Service): map<string, string> {
    match s.custom
    case Some(CustomConfig(Some(LogsInsightsConfig(Some(queries))))) => queries
    case _ => map[]
  }

  /**
   * The configured query named by `--query` (or "errors" when it is absent),
   * else the `--query` text, else the default query.
   */
  function ResolveQuery(s: Service, query: Option<string>): string {
    var queries := CustomQueries(s);
    var key := query.GetOr(DefaultQueryKey);
    if key in queries then queries[key] else query.GetOr(DefaultQuery)
  }

  /**
   * The order in which the query string is chosen: the configured query named
   * by `--query` (or "errors" when it is absent), kept even when empty; else
   * the `--query` text itself; else the default query.
   */
  lemma ResolveQueryOrder(s: Service, query: Option<string>)
    ensures query.None? && DefaultQueryKey in CustomQueries(s) ==>
      ResolveQuery(s, query) == CustomQueries(s)[DefaultQueryKey]
    ensures query.None? && DefaultQueryKey !in CustomQueries(s) ==>
      ResolveQuery(s, query) == DefaultQuery
    ensures query.Some? && query.value in CustomQueries(s) ==>
      ResolveQuery(s, query) == CustomQueries(s)[query.value]
    ensures query.Some? && query.value !in CustomQueries(s) ==>
      ResolveQuery(s, query) == query.value
    ensures ResolveQuery(s, query) in CustomQueries(s).Values
      || Some(ResolveQuery(s, query)) == query || ResolveQuery(s, query) == DefaultQuery
  {
  }

  /** A configured empty query is kept: only an absent entry falls through. */
  lemma EmptyCustomQueryKept(s: Service)
    requires "errors" in CustomQueries(s) && CustomQueries(s)["errors"] == ""
    ensures ResolveQuery(s, None) == ""
  {
  }

  // ---------------------------------------------------------------------
  // Rendering the rows
  // ---------------------------------------------------------------------

  /** One printed line: the row's `@timestamp` value, then its `@message` value. */
  datatype Line = Line(timestamp: string, message: string)

  /** The index of the first pair of the row whose field is `name`, if any. */
  function FindField(row: Row, name: string): (r: Option<nat>)
    ensures r.Some? ==> r.value < |row| && row[r.value].field == Some(name)
    ensures r.Some? ==> forall j :: 0 <= j < r.value ==> row[j].field != Some(name)
    ensures r.None? ==> forall j :: 0 <= j < |row| ==> row[j].field != Some(name)
  {
    if row == [] then None
    else if row[0].field == Some(name) then Some(0)
    else match FindField(row[1..], name)
      case Some(i) => Some(i + 1)
      case None => None
  }

  /** The value of the first pair named `name`; the empty string when there is none or it has no value. */
  function FieldValue(row: Row, name: string): string {
    match FindField(row, name)
    case Some(i) => row[i].value.GetOr("")
    case None => ""
  }

  /** The value shown is that of the first pair carrying the name, or "" if none does. */
  lemma FieldValueFirstMatch(row: Row, name: string, i: nat)
    requires i < |row| && row[i].field == Some(name)
    requires forall j :: 0 <= j < i ==> row[j].field != Some(name)
    ensures FieldValue(row, name) == row[i].value.GetOr("")
  {
  }

  lemma FieldValueAbsent(row: Row, name: string)
    requires forall j :: 0 <= j < |row| ==> row[j].field != Some(name)
    ensures FieldValue(row, name) == ""
  {
  }

  function RenderRow(row: Row): Line {
    Line(FieldValue(row, "@timestamp"), FieldValue(row, "@message"))
  }

  /** The `for` loop of `printResults`: one line per row, in row order. */
  method PrintResults(results: seq<Row>) returns (lines: seq<Line>)
    ensures |lines| == |results|
    ensures forall i :: 0 <= i < |results| ==> lines[i] == RenderRow(results[i])
  {
    lines := [];
    for k := 0 to |results|
      invariant |lines| == k
      invariant forall i :: 0 <= i < k ==> lines[i] == RenderRow(results[i])
    {
      var row := results[k];
      var timestamp := FieldValue(row, "@timestamp");
      var message := FieldValue(row, "@message");
      lines := lines + [Line(timestamp, message)];
    }
  }

  // ---------------------------------------------------------------------
  // run
  // ---------------------------------------------------------------------

  /** The query returned no rows: the result is absent or empty. */
  predicate NoResults(results: Option<seq<Row>>) {
    results.None? || |results.value| == 0
  }

  /** What the command shows once the query has returned. */
  datatype Display = NoResultsFound | Entries(count: nat, lines: seq<Line>)

  /** How `run` ends: the duration error it throws, or the query it ran and what it shows. */
  datatype Report =
    | Threw(message: string)
    | Completed(params: RunQueryParams, calls: seq<Call>, display: Display)

  /** The parameters `run` hands to `runQuery`. */
  function QueryParams(s: Service, options: Options, w: Window): RunQueryParams {
    RunQueryParams(
      LogGroupName(s, options.functionName),
      ResolveQuery(s, options.query),
      w.startTime,
      w.endTime,
      Some(s.provider.region))
  }

  method Run(s: Service, options: Options, nowMs: int, backend: Backend) returns (report: Report)
    requires ParseDuration(EffectiveInterval(options)).Ok? ==> Terminates(backend)
    ensures report.Threw? <==> ParseDuration(EffectiveInterval(options)).Err?
    ensures report.Threw? ==> report.message == InvalidDurationMessage
    ensures report.Completed? ==>
      && TimeWindow(nowMs, EffectiveInterval(options)).Ok?
      && report.params == QueryParams(s, options, TimeWindow(nowMs, EffectiveInterval(options)).value)
      && report.params.startTime <= report.params.endTime
      && report.params.logGroupName[..|LambdaLogPrefix|] == LambdaLogPrefix
      && |report.calls| == 1 + PollCount(backend)
      && report.calls[0] == StartQuery(Submission(report.params))
      && (forall i :: 1 <= i < |report.calls| ==>
            report.calls[i].GetQueryResults? && Some(report.calls[i].queryId) == backend.started.queryId)
      && (report.display.NoResultsFound? <==> NoResults(FinalResult(backend)))
    ensures report.Completed? && report.display.Entries? ==>
      && FinalResult(backend).Some?
      && report.display.count == |FinalResult(backend).value| == |report.display.lines|
      && forall i :: 0 <= i < report.display.count ==>
           report.display.lines[i] == RenderRow(FinalResult(backend).value[i])
  {
    var fn := options.functionName;
    var logGroupName := LogGroupName(s, fn);
    var window := TimeWindow(nowMs, EffectiveInterval(options));
    if window.Err? {
      return Threw(window.message);
    }
    TimeWindowBounds(nowMs, EffectiveInterval(options));
    var queryString := ResolveQuery(s, options.query);
    var params := RunQueryParams(logGroupName, queryString, window.value.startTime,
                                 window.value.endTime, Some(s.provider.region));
    var results, calls := RunQuery(params, backend);
    if results.None? || |results.value| == 0 {
      return Completed(params, calls, NoResultsFound);
    }
    var lines := PrintResults(results.value);
    report := Completed(params, calls, Entries(|results.value|, lines));
  }

  /**
   * End to end: a query that is Running once and then Complete with one row
   * holding "@timestamp" = "t1" and "@message" = "hello" takes two polls and
   * shows the line ("t1", "hello").
   */
  lemma SingleRowScenario(id: string)
    requires id != ""
    ensures var row := [ResultField(Some("@timestamp"), Some("t1")), ResultField(Some("@message"), Some("hello"))];
      var b := Backend(StartQueryResponse(Some(id)), [
        GetQueryResultsResponse(Some(Running), Some([])),
        GetQueryResultsResponse(Some(Complete), Some([row]))]);
      && Terminates(b) && PollCount(b) == 2 && FinalResult(b) == Some([row])
      && !NoResults(FinalResult(b)) && RenderRow(row) == Line("t1", "hello")
  {
    var row := [ResultField(Some("@timestamp"), Some("t1")), ResultField(Some("@message"), Some("hello"))];
    PendingThenTerminal(id, [GetQueryResultsResponse(Some(Running), Some([]))],
                        GetQueryResultsResponse(Some(Complete), Some([row])), []);
    assert [GetQueryResultsResponse(Some(Running), Some([]))] + [GetQueryResultsResponse(Some(Complete), Some([row]))] + []
      == [GetQueryResultsResponse(Some(Running), Some([])), GetQueryResultsResponse(Some(Complete), Some([row]))];
    FieldValueFirstMatch(row, "@timestamp", 0);
    FieldValueFirstMatch(row, "@message", 1);
  }

  /** The log group and query string of the example service's function "api". */
  lemma ExampleServiceNames()
    ensures LogGroupName(Service("svc", Provider(None, "us-east-1", Some("dev")), None, None), "api")
      == "/aws/lambda/svc-dev-api"
    ensures ResolveQuery(Service("svc", Provider(None, "us-east-1", Some("dev")), None, None), None)
      == DefaultQuery
  {
  }

  /**
   * The same scenario as `run` reports it: the command runs the query on the
   * function's log group over the last hour, submits once, polls twice with
   * the query id "q1", and shows one entry, the line ("t1", "hello").
   */
  method SingleRowRun(nowMs: int) returns (report: Report)
    ensures report.Completed?
    ensures report.params.logGroupName == "/aws/lambda/svc-dev-api"
    ensures report.params.queryString == DefaultQuery
    ensures report.params.endTime - report.params.startTime == 3600
    ensures |report.calls| == 3
    ensures report.calls[1] == GetQueryResults("q1") && report.calls[2] == GetQueryResults("q1")
    ensures report.display == Entries(1, [Line("t1", "hello")])
  {
    var row := [ResultField(Some("@timestamp"), Some("t1")), ResultField(Some("@message"), Some("hello"))];
    var backend := Backend(StartQueryResponse(Some("q1")), [
      GetQueryResultsResponse(Some(Running), Some([])),
      GetQueryResultsResponse(Some(Complete), Some([row]))]);
    var service := Service("svc", Provider(None, "us-east-1", Some("dev")), None, None);
    var options := Options("api", None, None);
    SingleRowScenario("q1");
    TimeWindowDefaults(nowMs, options);
    ExampleServiceNames();
    report := Run(service, options, nowMs, backend);
  }
}
