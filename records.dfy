/** The records the client passes between its parts: the response envelope the
    request editor shows, the completed-request record it hands to the history,
    and the history entry the application stores. */
module Records {
  import opened Common

  /** The uniform result of one send, success or failure alike. */
  datatype Envelope = Envelope(
    status: int,
    statusText: string,
    headers: map<string, string>,
    data: Json,
    responseTime: int)

  /** What the request editor reports when a send completes. */
  datatype CompletedRequest = CompletedRequest(
    url: string,
    httpMethod: string,
    headers: map<string, string>,
    body: string,
    responseStatus: int,
    responseTime: int,
    response: Envelope)

  /** One entry of the client-side history. */
  datatype HistoryEntry = HistoryEntry(
    id: string,
    url: string,
    httpMethod: string,
    headers: map<string, string>,
    body: string,
    responseStatus: int,
    responseTime: int,
    response: Envelope,
    timestamp: string)
}
