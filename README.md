# serverless-logs-insights, modelled in Dafny

This project models the core of the `serverless-logs-insights` plugin for the
Serverless Framework. The plugin adds a `logs-insights` command that runs a
CloudWatch Logs Insights query against a Lambda function's log group.

- `runQuery` (`QueryTrait`) submits the query once and keeps the `queryId`.
  It then polls `getQueryResults` for as long as the last status is
  `Running` or `Scheduled`, overwriting the status and the rows on every
  poll. It returns the rows of the last poll. The model is a method with a
  `while` loop over a scripted backend: one scripted `startQuery` answer and
  a finite sequence of `getQueryResults` answers, consumed in order. The
  method returns the rows and the trace of calls sent to the backend.
- The plugin's `run` (`Plugin`) works out four things before it calls
  `runQuery`:
  - the log group `/aws/lambda/<name>`, where the name is the function's
    configured `name` or else `<service>-<stage>-<function>`;
  - the query string, from the custom-query map with its fallbacks;
  - the time window, from `parseDuration` and one clock reading `nowMs`;
  - the region.
  It then reports "no results" or renders one `(timestamp, message)` line
  per row (`printResults`).
- `CloudWatch` holds the SDK's request and response shapes and the scripted
  backend. `Wrappers` holds `Option` (`?? default` is `GetOr`) and `Result`
  (a value, or the message of a thrown `Error`).

The plugin's `serverless` and `options` fields are assigned once, in the
constructor, and never changed. So they are modelled as the values `Service`
and `Options` that each operation takes, not as a class.

Facts about the code that the model keeps:
- Without a query id, `runQuery` returns `undefined` (`None`), not an empty list of rows.
- Every poll overwrites the rows, even with `undefined`, so a `Failed`
  query that never returned rows yields `None`.
- `parseDuration` is a method of the plugin, and `run` computes the window from its result.
- The window may be empty: `"0s"` gives `startTime == endTime`.
- An expired query id or a malformed poll answer gets no special handling:
  an absent status ends the loop like any other non-pending status, and
  exceptions from the client propagate unchanged.

## Model

| member | source | states |
|---|---|---|
| `QueryTrait.FirstTerminal` | src/core/queryTrait.ts:23-28 | the index it returns holds a status other than Running/Scheduled, and every earlier answer is Running or Scheduled |
| `QueryTrait.RunQuery` | src/core/queryTrait.ts:11-33 | one `startQuery` with the log group, query and window, then polls that all use the submitted id. Without a truthy id there are no polls and the result is `undefined`. With one there is at least one poll; polling stops exactly at the first answer that is not Running/Scheduled; the result is that answer's rows |
| `QueryTrait.FirstTerminalUnique` | src/core/queryTrait.ts:23-30 | the first non-pending answer is the only index where the loop can stop |
| `QueryTrait.PendingThenTerminal` | src/core/queryTrait.ts:23-32 | any number of Running/Scheduled answers, then any other status: polls = pending answers + 1, and the terminal answer's rows are returned whatever its status; answers after it are never consumed |
| `QueryTrait.FourPollScenario` | src/core/queryTrait.ts:22-30 | [Scheduled, Running, Running, Complete(R)] takes exactly 4 polls and returns R |
| `QueryTrait.FailedWithoutRows` | src/core/queryTrait.ts:26-32 | a Failed or Cancelled final answer without rows gives no rows and no error |
| `QueryTrait.EarlierSnapshotsDiscarded` | src/core/queryTrait.ts:28-29 | changing the rows of an earlier pending answer changes neither the poll count nor the result (no merging) |
| `QueryTrait.LaterAnswersIgnored` | src/core/queryTrait.ts:23-30 | answers after the first terminal one have no effect |
| `QueryTrait.NoPollBound` | src/core/queryTrait.ts:23 | for every n >= 1 some backend makes the loop poll exactly n times |
| `QueryTrait.Submission` | src/core/queryTrait.ts:14-19 | the request sent to `startQuery`: log group, query string, start and end time (the region only configures the client) |
| `QueryTrait.Truthy` | src/core/queryTrait.ts:23 | the query id is present and not the empty string; `RunQuery` polls iff it holds |
| `QueryTrait.IsPending` | src/core/queryTrait.ts:23 | the status is Running or Scheduled; `FirstTerminal` and `RunQuery` stop exactly at the first answer where it fails |
| `QueryTrait.PollCount` | src/core/queryTrait.ts:21-30 | reference count of polls: 0 without a truthy id, else the first terminal index + 1; `RunQuery` is proved to make this many, and `PendingThenTerminal`, `NoPollBound` characterise it |
| `QueryTrait.FinalResult` | src/core/queryTrait.ts:21-32 | reference result: `None` without a truthy id, else the rows of the first terminal answer; `RunQuery` is proved to return it, `EarlierSnapshotsDiscarded` and `LaterAnswersIgnored` characterise it |
| `Plugin.ParseDuration` | src/index.ts:108-115 | a rejected duration throws "Invalid duration format. Use s/m/h/d (e.g. 1h, 5m)." |
| `Plugin.ParseDurationGrammar` | src/index.ts:109-114 | accepted iff one or more ASCII digits then one of s/m/h/d; then value = digits' value * 1/60/3600/86400 |
| `Plugin.ParseDurationMultiple` | src/index.ts:112-114 | an accepted duration is a whole multiple of its unit's factor |
| `Plugin.DigitsValueOfNatToString` | src/index.ts:112 | `parseInt` of a number's decimal numeral gives the number back |
| `Plugin.ParseDurationRoundTrip` | src/index.ts:109-114 | for every n and unit u, parsing the numeral of n followed by u gives n * factor(u) |
| `Plugin.ParseDurationExamples` | src/index.ts:108-114 | "1h" and "01h" give 3600, "0s" 0, "30m" 1800, "2d" 172800 |
| `Plugin.ParseDurationRejections` | src/index.ts:109-110 | "", "h", "1", "1x", "1H", "-1h", " 1h", "1h " and "1.5h" throw |
| `Plugin.EpochSeconds` | src/index.ts:83-84 | the clock reading in seconds is the floor of milliseconds / 1000 |
| `Plugin.TimeWindowBounds` | src/index.ts:83-84 | the window exists iff the interval parses; end = floor(now/1000), end - start = the duration, start <= end, and start == end iff the duration is 0 |
| `Plugin.TimeWindowDefaults` | src/index.ts:76 | without `--interval` the window is the last 3600 s; "0s" gives an empty window |
| `Plugin.LogGroupName` | src/index.ts:82 | the log group starts with "/aws/lambda/" and the rest is the Lambda name |
| `Plugin.LogGroupNameCases` | src/index.ts:78-82 | a configured `name` is used as is (even empty); otherwise service-stage-function, ending in "-" + function key |
| `Plugin.MissingStageExample` | src/index.ts:79-81 | a missing stage renders as "undefined" in the derived name |
| `Plugin.ResolveQueryOrder` | src/index.ts:86-87 | the query is chosen in this order: the custom entry for `--query` (or "errors"), then the `--query` text, then the default; the result is always one of these three |
| `Plugin.EmptyCustomQueryKept` | src/index.ts:87 | a configured empty query string is kept, not skipped |
| `Plugin.FindField` | src/index.ts:119-120 | the index found is the first pair with that field name; none is found only when no pair has it |
| `Plugin.FieldValueFirstMatch` | src/index.ts:119-120 | the value shown is the first matching pair's value, or "" if that value is absent |
| `Plugin.FieldValueAbsent` | src/index.ts:119-120 | a row without the field shows "" |
| `Plugin.MatchesDuration` | src/index.ts:109 | the whole string is one or more ASCII digits and one of s/m/h/d; `ParseDurationGrammar` proves acceptance is exactly this |
| `Plugin.DigitsValue` | src/index.ts:112 | `parseInt` of a digit string, leading zeros allowed; `DigitsValueOfNatToString` proves it inverts the decimal printer |
| `Plugin.EffectiveInterval` | src/index.ts:76 | the `--interval` option, or "1h" when absent; `TimeWindowDefaults` states the resulting window |
| `Plugin.TimeWindow` | src/index.ts:83-84 | the window from the floor of the clock in seconds back by the parsed interval, or the duration error; characterised by `TimeWindowBounds` |
| `Plugin.FunctionConfigOf` | src/index.ts:78 | the function's configuration when the service declares functions and that key |
| `Plugin.TemplateText` | src/index.ts:81 | how an optional stage is interpolated: absent renders "undefined" (`MissingStageExample`) |
| `Plugin.LambdaName` | src/index.ts:79-81 | the configured name, else service-stage-function; characterised by `LogGroupNameCases` |
| `Plugin.CustomQueries` | src/index.ts:86 | the configured custom-query map, or the empty map when any level is missing |
| `Plugin.ResolveQuery` | src/index.ts:87 | the configured query for `--query` (or "errors"), else the `--query` text, else the default; characterised by `ResolveQueryOrder` |
| `Plugin.FieldValue` | src/index.ts:119-120 | the first matching pair's value, or "" (`FieldValueFirstMatch`, `FieldValueAbsent`) |
| `Plugin.RenderRow` | src/index.ts:119-121 | one line: the row's `@timestamp` value and its `@message` value; `PrintResults` emits it per row |
| `Plugin.NoResults` | src/index.ts:99 | the rows are `undefined` or empty; `Run` shows "no results" exactly then |
| `Plugin.QueryParams` | src/index.ts:91-97 | the parameters `run` hands to `runQuery`: derived log group, resolved query, window and the provider's region |
| `Plugin.PrintResults` | src/index.ts:117-123 | one line per row, in row order, each the row's first `@timestamp` and `@message` values |
| `Plugin.Run` | src/index.ts:75-106 | throws exactly when the interval is invalid. Otherwise the query runs with parameters that follow the derived log group, query and window; start <= end; the trace is one submission of exactly those parameters, then polls with the returned id; "no results" exactly when the rows are `undefined` or empty; else the row count and one rendered line per row |
| `Plugin.SingleRowScenario` | src/index.ts:99-123 | Running then Complete with one row (`@timestamp` "t1", `@message` "hello"): two polls, results present, line ("t1", "hello") |
| `Plugin.ExampleServiceNames` | src/index.ts:78-87 | for service "svc" at stage "dev" without function config or custom queries, function "api" gets log group "/aws/lambda/svc-dev-api" and the default query |
| `Plugin.SingleRowRun` | src/index.ts:75-123 | the same scenario through `run`: the query runs on "/aws/lambda/svc-dev-api" with the default query over the last 3600 s, submits once, polls twice with "q1", and shows one entry, the line ("t1", "hello") |

## Left out

- QueryTrait.RunQuery: requires that a truthy query id comes with a scripted answer outside Running/Scheduled. A backend that stays Running forever makes the real loop run forever, and such a run is not modelled.
- The 1500 ms `setTimeout` between polls, and `async`/`await`. Calls are modelled as sequential steps in the trace.
- `src/core/cloudWatchService.ts`: the CloudWatch Logs client and its network calls. A scripted backend replaces it, and its answer to `startQuery` does not depend on the request.
- Region resolution. The region parameter is carried along, but the `process.env.AWS_REGION` fallback and credentials are ambient environment.
- Exceptions thrown by the SDK from `startQuery` or `getQueryResults`. The code does not catch them; they would propagate unchanged.
- Response members other than `queryId`, `status` and `results`, such as statistics.
- Plugin.ParseDuration: numbers are unbounded naturals. JavaScript's `parseInt` and `*` work on doubles: they lose precision above 2^53, and a numeral of more than about 308 digits parses to `Infinity`, which makes `startTime` `-Infinity`.
- Plugin.TimeWindowBounds: the code reads `Date.now()` twice; the model takes one reading `nowMs`.
- `chalk` colouring, `cli.log`/`consoleLog` output and message texts. `Report` and `Display` say which path `run` took. A rendered line is the `(timestamp, message)` pair, not the coloured text.
- The `commands` and `hooks` registration tables of the constructor: framework scaffolding.
- `null` configuration values (a YAML `~` for a function `name` or a custom query) are not modelled, because the declared TypeScript types exclude them; at run time `??` would skip such a value like an absent one.
- Lookups in `functions` and `custom...queries` are modelled as maps. Inherited object-prototype keys such as `constructor` are not modelled.
- `example/sample.js`: a demo Lambda that writes random log lines.
