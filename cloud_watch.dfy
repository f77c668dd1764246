/**
 * The request and response shapes that the query code exchanges with the
 * CloudWatch Logs client, and the scripted backend that stands in for the
 * client in this model (src/core/cloudWatchService.ts is not part of this
 * model: it only forwards each request over the network).
 */
module CloudWatch {
  import opened Wrappers

  /** The status values CloudWatch Logs Insights reports for a query. */
  datatype QueryStatus = Scheduled | Running | Complete | Failed | Cancelled | Timeout | Unknown

  /** One cell of a result row; the SDK declares both members optional. */
  datatype ResultField = ResultField(field: Option<string>, value: Option<string>)

  /** A row is the backend's ordered list of field/value pairs. */
  type Row = seq<ResultField>

  /** The four members `startQuery` forwards to `StartQueryCommand`. */
  datatype StartQueryRequest = StartQueryRequest(
    logGroupName: string,
    queryString: string,
    startTime: int,
    endTime: int)

  datatype StartQueryResponse = StartQueryResponse(queryId: Option<string>)

  datatype GetQueryResultsResponse = GetQueryResultsResponse(
    status: Option<QueryStatus>,
    results: Option<seq<Row>>)

  /** One request sent to the backend, in the order it was sent. */
  datatype Call =
    | StartQuery(request: StartQueryRequest)
    | GetQueryResults(queryId: string)

  /**
   * A scripted backend: the answer to the one `startQuery` call, and the
   * answers to successive `getQueryResults` calls, consumed in order.
   */
  datatype Backend = Backend(
    started: StartQueryResponse,
    responses: seq<GetQueryResultsResponse>)
}
