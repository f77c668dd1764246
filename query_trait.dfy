/**
 * `runQuery`: submit one Logs Insights query, then poll its results for as
 * long as the last status seen is Running or Scheduled, and return the rows
 * of the last poll.
 */
module QueryTrait {
  import opened Wrappers
  import opened CloudWatch

  datatype RunQueryParams = RunQueryParams(
    logGroupName: string,
    queryString: string,
    startTime: int,
    endTime: int,
    region: Option<string>)

  /** The request handed to `startQuery`; the region only configures the client. */
  function Submission(p: RunQueryParams): StartQueryRequest {
    StartQueryRequest(p.logGroupName, p.queryString, p.startTime, p.endTime)
  }

  /** JavaScript truthiness of the query id: `undefined` and `""` are falsy. */
  predicate Truthy(queryId: Option<string>) {
    queryId.Some? && queryId.value != ""
  }

  /** The loop's continuation test on the status last seen. */
  predicate IsPending(status: Option<QueryStatus>) {
    status == Some(Running) || status == Some(Scheduled)
  }

  /** Some scripted poll answer ends the loop. */
  predicate HasTerminal(rs: seq<GetQueryResultsResponse>) {
    exists i :: 0 <= i < |rs| && !IsPending(rs[i].status)
  }

  /** The script is long enough for `runQuery` to return. */
  predicate Terminates(b: Backend) {
    Truthy(b.started.queryId) ==> HasTerminal(b.responses)
  }

  lemma TerminalInTail(rs: seq<GetQueryResultsResponse>)
    requires |rs| > 0 && IsPending(rs[0].status) && HasTerminal(rs)
    ensures HasTerminal(rs[1..])
  {
    var i :| 0 <= i < |rs| && !IsPending(rs[i].status);
    assert rs[1..][i - 1] == rs[i];
  }

  /** The index of the first answer whose status is neither Running nor Scheduled. */
  function FirstTerminal(rs: seq<GetQueryResultsResponse>): (k: nat)
    requires HasTerminal(rs)
    ensures k < |rs| && !IsPending(rs[k].status)
    ensures forall j :: 0 <= j < k ==> IsPending(rs[j].status)
    decreases |rs|
  {
    if !IsPending(rs[0].status) then 0
    else
      TerminalInTail(rs);
      1 + FirstTerminal(rs[1..])
  }

  /** How many times `runQuery` polls the scripted backend. */
  function PollCount(b: Backend): nat
    requires Terminates(b)
  {
    if Truthy(b.started.queryId) then FirstTerminal(b.responses) + 1 else 0
  }

  /** What `runQuery` returns against the scripted backend. */
  function FinalResult(b: Backend): Option<seq<Row>>
    requires Terminates(b)
  {
    if Truthy(b.started.queryId) then b.responses[FirstTerminal(b.responses)].results else None
  }

  /**
   * The polling loop. `calls` lists the requests sent to the backend, in
   * order; the n-th poll consumes `backend.responses[n]`.
   */
  method RunQuery(params: RunQueryParams, backend: Backend) returns (result: Option<seq<Row>>, calls: seq<Call>)
    requires Terminates(backend)
    ensures result == FinalResult(backend) && |calls| == 1 + PollCount(backend)
    ensures calls[0] == StartQuery(Submission(params))
    ensures forall i :: 1 <= i < |calls| ==>
      calls[i].GetQueryResults? && Some(calls[i].queryId) == backend.started.queryId
    ensures !Truthy(backend.started.queryId) ==> |calls| == 1 && result == None
    ensures Truthy(backend.started.queryId) ==>
      && 2 <= |calls| <= |backend.responses| + 1
      && !IsPending(backend.responses[|calls| - 2].status)
      && (forall j :: 0 <= j < |calls| - 2 ==> IsPending(backend.responses[j].status))
      && result == backend.responses[|calls| - 2].results
  {
    var request := Submission(params);
    var started := backend.started;
    calls := [StartQuery(request)];
    var queryId := started.queryId;
    result := None;
    var status: Option<QueryStatus> := Some(Running);
    var next := 0;
    while Truthy(queryId) && IsPending(status)
      invariant 0 <= next <= |backend.responses|
      invariant |calls| == 1 + next && calls[0] == StartQuery(request)
      invariant forall i :: 1 <= i < |calls| ==> calls[i].GetQueryResults? && Some(calls[i].queryId) == queryId
      invariant next == 0 ==> status == Some(Running) && result == None
      invariant next > 0 ==> Truthy(queryId)
      invariant next > 0 ==>
        status == backend.responses[next - 1].status && result == backend.responses[next - 1].results
      invariant Truthy(queryId) ==> next <= FirstTerminal(backend.responses) + 1
      decreases |backend.responses| - next
    {
      var response := backend.responses[next];
      calls := calls + [GetQueryResults(queryId.value)];
      status := response.status;
      result := response.results;
      next := next + 1;
    }
  }

  /** The first terminal answer is the only one with the two defining properties. */
  lemma FirstTerminalUnique(rs: seq<GetQueryResultsResponse>, k: nat)
    requires k < |rs| && !IsPending(rs[k].status)
    requires forall j :: 0 <= j < k ==> IsPending(rs[j].status)
    ensures HasTerminal(rs) && FirstTerminal(rs) == k
  {
  }

  /**
   * Any number of pending answers followed by any terminal one: one poll per
   * answer up to the terminal one, whose rows are returned whatever the
   * terminal status; answers after it are never consumed.
   */
  lemma PendingThenTerminal(id: string, pending: seq<GetQueryResultsResponse>,
                            last: GetQueryResultsResponse, rest: seq<GetQueryResultsResponse>)
    requires id != ""
    requires forall j :: 0 <= j < |pending| ==> IsPending(pending[j].status)
    requires !IsPending(last.status)
    ensures Terminates(Backend(StartQueryResponse(Some(id)), pending + [last] + rest))
    ensures PollCount(Backend(StartQueryResponse(Some(id)), pending + [last] + rest)) == |pending| + 1
    ensures FinalResult(Backend(StartQueryResponse(Some(id)), pending + [last] + rest)) == last.results
  {
    var rs := pending + [last] + rest;
    assert rs[|pending|] == last;
    assert forall j :: 0 <= j < |pending| ==> rs[j] == pending[j];
    FirstTerminalUnique(rs, |pending|);
  }

  /** The scripted sequence [Scheduled, Running, Running, Complete(rows)] takes four polls and returns rows. */
  lemma FourPollScenario(id: string, r0: Option<seq<Row>>, r1: Option<seq<Row>>, r2: Option<seq<Row>>, rows: seq<Row>)
    requires id != ""
    ensures var b := Backend(StartQueryResponse(Some(id)), [
      GetQueryResultsResponse(Some(Scheduled), r0),
      GetQueryResultsResponse(Some(Running), r1),
      GetQueryResultsResponse(Some(Running), r2),
      GetQueryResultsResponse(Some(Complete), Some(rows))]);
      Terminates(b) && PollCount(b) == 4 && FinalResult(b) == Some(rows)
  {
    var pending := [
      GetQueryResultsResponse(Some(Scheduled), r0),
      GetQueryResultsResponse(Some(Running), r1),
      GetQueryResultsResponse(Some(Running), r2)];
    PendingThenTerminal(id, pending, GetQueryResultsResponse(Some(Complete), Some(rows)), []);
    assert pending + [GetQueryResultsResponse(Some(Complete), Some(rows))] + [] == [
      GetQueryResultsResponse(Some(Scheduled), r0),
      GetQueryResultsResponse(Some(Running), r1),
      GetQueryResultsResponse(Some(Running), r2),
      GetQueryResultsResponse(Some(Complete), Some(rows))];
  }

  /** A query that fails before returning any rows yields no rows, and no error. */
  lemma FailedWithoutRows(id: string, pending: seq<GetQueryResultsResponse>, terminal: QueryStatus)
    requires id != "" && (terminal == Failed || terminal == Cancelled)
    requires forall j :: 0 <= j < |pending| ==> IsPending(pending[j].status)
    ensures var b := Backend(StartQueryResponse(Some(id)), pending + [GetQueryResultsResponse(Some(terminal), None)]);
      Terminates(b) && PollCount(b) == |pending| + 1 && FinalResult(b) == None
  {
    PendingThenTerminal(id, pending, GetQueryResultsResponse(Some(terminal), None), []);
    assert pending + [GetQueryResultsResponse(Some(terminal), None)] + [] ==
      pending + [GetQueryResultsResponse(Some(terminal), None)];
  }

  /**
   * Snapshots are overwritten, never merged: changing the rows of an earlier
   * (pending) answer changes neither the poll count nor the result.
   */
  lemma EarlierSnapshotsDiscarded(b: Backend, i: nat, rows: Option<seq<Row>>)
    requires Truthy(b.started.queryId) && HasTerminal(b.responses)
    requires i < FirstTerminal(b.responses)
    ensures var b' := b.(responses := b.responses[i := b.responses[i].(results := rows)]);
      Terminates(b') && PollCount(b') == PollCount(b) && FinalResult(b') == FinalResult(b)
  {
    var k := FirstTerminal(b.responses);
    var rs' := b.responses[i := b.responses[i].(results := rows)];
    assert forall j :: 0 <= j < |rs'| ==> rs'[j].status == b.responses[j].status;
    FirstTerminalUnique(rs', k);
  }

  /** Answers scripted after the terminal one are never consumed. */
  lemma LaterAnswersIgnored(b: Backend, extra: seq<GetQueryResultsResponse>)
    requires Truthy(b.started.queryId) && HasTerminal(b.responses)
    ensures var b' := b.(responses := b.responses + extra);
      Terminates(b') && PollCount(b') == PollCount(b) && FinalResult(b') == FinalResult(b)
  {
    var k := FirstTerminal(b.responses);
    var rs' := b.responses + extra;
    assert forall j :: 0 <= j < |b.responses| ==> rs'[j] == b.responses[j];
    FirstTerminalUnique(rs', k);
  }

  /** The loop has no bound of its own: for every n, some backend makes it poll n times. */
  lemma NoPollBound(id: string, n: nat)
    requires id != "" && n >= 1
    ensures var b := Backend(StartQueryResponse(Some(id)), StillRunning(n - 1) + [GetQueryResultsResponse(Some(Complete), None)]);
      Terminates(b) && PollCount(b) == n
  {
    PendingThenTerminal(id, StillRunning(n - 1), GetQueryResultsResponse(Some(Complete), None), []);
    assert StillRunning(n - 1) + [GetQueryResultsResponse(Some(Complete), None)] + [] ==
      StillRunning(n - 1) + [GetQueryResultsResponse(Some(Complete), None)];
  }

  /** `n` answers that all report Running. */
  function StillRunning(n: nat): (rs: seq<GetQueryResultsResponse>)
    ensures |rs| == n && forall j :: 0 <= j < n ==> IsPending(rs[j].status)
  {
    if n == 0 then [] else StillRunning(n - 1) + [GetQueryResultsResponse(Some(Running), None)]
  }
}
