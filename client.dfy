/**
  The `Client` interface between the adapter and the datasource, with the
  records it exchanges.
*/
module Client {
  import opened Numbers
  import opened Framework

  /** The datasource request the adapter builds from a framework request. */
  datatype Request = Request(baseURL: string, token: string, pageSize: Int64,
                             entityExternalID: string, cursor: string)

  /** What the datasource answered; `objects` and `nextCursor` are filled only on status 200. */
  datatype Response = Response(statusCode: int, retryAfterHeader: string,
                               objects: seq<JsonObject>, nextCursor: string)

  /** The `(*Response, *framework.Error)` pair: a non-nil error wins, otherwise the response. */
  datatype Reply = Ok(response: Response) | Err(error: Error)

  /** `Client.GetPage`, one call per page. */
  type GetPageFn = Request -> Reply
}
