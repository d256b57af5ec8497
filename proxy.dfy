/** The backend's two forwarding endpoints: `/api/external` (validation, header
    merge, body and Content-Type, result shape, error taxonomy) and
    `/api/request` (result shape and the log record of a success or a
    failure). The outgoing call itself is an input: how it ended. */
module ProxyServer {
  import opened Common

  /** The headers `/api/external` sends unless the caller overrides them. */
  const DefaultHeaders: map<string, string> := map[
    "User-Agent" := "DevFetch/1.0 (External API Proxy)",
    "Accept" := "application/json, text/plain, */*",
    "Accept-Encoding" := "gzip, deflate, br",
    "Connection" := "keep-alive"]

  /** How a body goes on the wire: a string verbatim, anything else through
      JSON.stringify. */
  datatype WireBody = Verbatim(text: string) | Stringified(value: Json)

  /** The options handed to fetch (the timeout, redirect and compression
      settings are not modelled). */
  datatype FetchOptions = FetchOptions(verb: string, headers: map<string, string>, body: Option<WireBody>)

  /** The request body the proxy endpoints receive. Absent fields are None. */
  datatype ProxyRequest = ProxyRequest(
    url: Option<string>,
    verb: Option<string>,
    headers: Option<map<string, string>>,
    body: Option<Json>)

  /** What `new URL(url)` does with the text: accept it, or throw with a message. */
  datatype UrlCheck = UrlOk | UrlRejected(message: string)

  /** A response of the target: status line, headers and the body text. */
  datatype TargetResponse = TargetResponse(status: int, statusText: string, headers: map<string, string>, text: string)

  /** A rejected fetch: the error's `code` (when it has one), `name` and `message`. */
  datatype FetchFailure = FetchFailure(code: Option<string>, name: string, message: string)

  /** How the outgoing call ends. */
  datatype FetchOutcome = Responded(response: TargetResponse) | Failed(failure: FetchFailure)

  // ---------------------------------------------------------------------------
  // Request shaping

  /** `{...DefaultHeaders, ...headers}`: every default and every caller key,
      the caller's value winning on an exact-case collision. */
  function MergeHeaders(caller: map<string, string>): (m: map<string, string>)
    ensures m.Keys == DefaultHeaders.Keys + caller.Keys
    ensures forall k :: k in caller ==> m[k] == caller[k]
    ensures forall k :: k in DefaultHeaders && k !in caller ==> m[k] == DefaultHeaders[k]
  {
    DefaultHeaders + caller
  }

  /** `typeof body === 'string' ? body : JSON.stringify(body)`. */
  function WireOf(body: Json): WireBody {
    if body.JStr? then Verbatim(body.s) else Stringified(body)
  }

  /** The caller already set a Content-Type: the key is present with a
      non-empty value. (The code tests the value's truthiness, so an empty
      value counts as not set.) */
  predicate HasContentType(headers: map<string, string>) {
    "Content-Type" in headers && headers["Content-Type"] != ""
  }

  /** What the shaping step guarantees of the options it builds from a method,
      the base headers and an optional body. */
  ghost predicate Shaped(opts: FetchOptions, verb: string, headers: map<string, string>, body: Option<Json>) {
    && opts.verb == ToUpper(verb)
    && (opts.body.Some? <==> IsBodyMethod(ToUpper(verb)) && OptTruthy(body))
    && (opts.body.Some? ==> opts.body.value == WireOf(body.value))
    && (forall k :: k != "Content-Type" ==> (k in opts.headers <==> k in headers))
    && (forall k :: k in headers && k != "Content-Type" ==> opts.headers[k] == headers[k])
    && ("Content-Type" in opts.headers <==> "Content-Type" in headers || opts.body.Some?)
    && (HasContentType(headers) ==> opts.headers["Content-Type"] == headers["Content-Type"])
    && (opts.body.None? && "Content-Type" in headers ==> opts.headers["Content-Type"] == headers["Content-Type"])
    && (opts.body.Some? && !HasContentType(headers) ==> opts.headers["Content-Type"] == "application/json")
  }

  /** Building `requestOptions` and then adding the body, and Content-Type when
      the caller set none, for POST, PUT and PATCH with a truthy body. */
  method ShapeOptions(verb: string, headers: map<string, string>, body: Option<Json>) returns (opts: FetchOptions)
    ensures Shaped(opts, verb, headers, body)
  {
    opts := FetchOptions(ToUpper(verb), headers, None);
    if IsBodyMethod(ToUpper(verb)) && OptTruthy(body) {
      opts := opts.(body := Some(WireOf(body.value)));
      if !HasContentType(opts.headers) {
        opts := opts.(headers := opts.headers["Content-Type" := "application/json"]);
      }
    }
  }

  /** Only one set of options meets the shaping guarantee. */
  lemma ShapedIsUnique(a: FetchOptions, b: FetchOptions, verb: string, headers: map<string, string>, body: Option<Json>)
    requires Shaped(a, verb, headers, body) && Shaped(b, verb, headers, body)
    ensures a == b
  {
    assert a.headers.Keys == b.headers.Keys;
    assert a.body == b.body;
  }

  // ---------------------------------------------------------------------------
  // Results and errors of /api/external

  /** The success result. */
  datatype ExternalResult = ExternalResult(
    status: int,
    statusText: string,
    headers: map<string, string>,
    data: Json,
    responseTime: int,
    size: int,
    url: string,
    success: bool)

  datatype ErrorType = DnsError | TimeoutError | ConnectionRefused | FetchError | UnknownError

  function ErrorTypeName(t: ErrorType): string {
    match t
    case DnsError => "DNS_ERROR"
    case TimeoutError => "TIMEOUT_ERROR"
    case ConnectionRefused => "CONNECTION_REFUSED"
    case FetchError => "FETCH_ERROR"
    case UnknownError => "UNKNOWN_ERROR"
  }

  /** What `/api/external` does with a request. */
  datatype ExternalReply =
    | UrlMissing                                    // 400 {error: 'URL is required'}
    | UrlInvalid(message: string, url: string)      // 400 {error: 'Invalid URL format', message, url}
    | Relayed(result: ExternalResult)               // 200 with the success result
    | ProxyFailure(message: string, errorType: ErrorType, url: string,
                   responseTime: int, timestamp: string)  // 500 with the classified error
    | Crashed(error: string)                        // the handler threw: no reply is sent

  /** The HTTP status of the reply, none when nothing is sent. */
  function ReplyStatus(r: ExternalReply): (s: Option<int>)
    ensures s.None? <==> r.Crashed?
  {
    match r
    case UrlMissing => Some(400)
    case UrlInvalid(_, _) => Some(400)
    case Relayed(_) => Some(200)
    case ProxyFailure(_, _, _, _, _) => Some(500)
    case Crashed(_) => None
  }

  function HeadersJson(h: map<string, string>): Json {
    JObj(map k | k in h :: JStr(h[k]))
  }

  /** The JSON body of the reply. */
  function ReplyJson(r: ExternalReply): Json {
    match r
    case UrlMissing => JObj(map["error" := JStr("URL is required")])
    case UrlInvalid(message, url) =>
      JObj(map["error" := JStr("Invalid URL format"), "message" := JStr(message), "url" := JStr(url)])
    case Relayed(res) =>
      JObj(map["status" := JNum(res.status), "statusText" := JStr(res.statusText),
               "headers" := HeadersJson(res.headers), "data" := res.data,
               "responseTime" := JNum(res.responseTime), "size" := JNum(res.size),
               "url" := JStr(res.url), "success" := JBool(res.success)])
    case ProxyFailure(message, t, url, rt, ts) =>
      JObj(map["error" := JStr("Failed to fetch from external API"), "message" := JStr(message),
               "errorType" := JStr(ErrorTypeName(t)), "url" := JStr(url),
               "responseTime" := JNum(rt), "timestamp" := JStr(ts)])
    case Crashed(_) => JNull
  }

  /** `response.ok`: a status in 200..299. */
  predicate OkStatus(status: int) {
    200 <= status <= 299
  }

  /** The success result: the body parsed as JSON or else kept as text, the
      size of the text in UTF-16 code units (JavaScript's `length`), and
      success exactly for an ok status. */
  function SuccessResult(resp: TargetResponse, parse: string -> Option<Json>, responseTime: int, url: string): (r: ExternalResult)
    ensures r.status == resp.status && r.statusText == resp.statusText && r.headers == resp.headers
    ensures r.data == ParseOrRaw(parse, resp.text)
    ensures r.size == Utf16Length(resp.text) && r.responseTime == responseTime && r.url == url
    ensures r.success <==> 200 <= resp.status <= 299
  {
    ExternalResult(resp.status, resp.statusText, resp.headers, ParseOrRaw(parse, resp.text),
                   responseTime, Utf16Length(resp.text), url, OkStatus(resp.status))
  }

  predicate KnownCode(code: Option<string>) {
    code == Some("ENOTFOUND") || code == Some("ETIMEDOUT") || code == Some("ECONNREFUSED")
  }

  /** The error taxonomy. The three codes are tested first, in this order, and
      only then the name "FetchError"; anything else is unknown. */
  function Classify(f: FetchFailure): (t: ErrorType)
    ensures t == DnsError <==> f.code == Some("ENOTFOUND")
    ensures t == TimeoutError <==> f.code == Some("ETIMEDOUT")
    ensures t == ConnectionRefused <==> f.code == Some("ECONNREFUSED")
    ensures t == FetchError <==> !KnownCode(f.code) && f.name == "FetchError"
    ensures t == UnknownError <==> !KnownCode(f.code) && f.name != "FetchError"
  {
    if f.code == Some("ENOTFOUND") then DnsError
    else if f.code == Some("ETIMEDOUT") then TimeoutError
    else if f.code == Some("ECONNREFUSED") then ConnectionRefused
    else if f.name == "FetchError" then FetchError
    else UnknownError
  }

  /** The message that goes with each class; an unknown error keeps its own. */
  function FailureMessage(f: FetchFailure, url: string): (m: string)
    ensures Classify(f) == DnsError ==>
              m == "DNS lookup failed for " + url + ". The domain might not exist or there might be a network connectivity issue."
    ensures Classify(f) == TimeoutError ==> m == "Request timeout after 15 seconds for " + url
    ensures Classify(f) == ConnectionRefused ==> m == "Connection refused by " + url
    ensures Classify(f) == FetchError ==> m == "Network error: " + f.message
    ensures Classify(f) == UnknownError ==> m == f.message
  {
    match Classify(f)
    case DnsError => "DNS lookup failed for " + url + ". The domain might not exist or there might be a network connectivity issue."
    case TimeoutError => "Request timeout after 15 seconds for " + url
    case ConnectionRefused => "Connection refused by " + url
    case FetchError => "Network error: " + f.message
    case UnknownError => f.message
  }

  /** The catch block of `/api/external` as written: its first step reads the
      start time, which was declared inside the try block and is out of scope,
      so the block throws before any reply is built. */
  function FailureReplyAsWritten(f: FetchFailure, url: string, timestamp: string): (r: ExternalReply)
    ensures r.Crashed? && ReplyStatus(r).None?
  {
    Crashed("ReferenceError: startTime is not defined")
  }

  /** The catch block with the start time in scope: a 500 reply carrying the
      class and message of the failure. */
  function FailureReply(f: FetchFailure, url: string, responseTime: int, timestamp: string): (r: ExternalReply)
    ensures r.ProxyFailure? && ReplyStatus(r) == Some(500)
    ensures r.errorType == Classify(f) && r.message == FailureMessage(f, url)
    ensures r.url == url && r.responseTime == responseTime && r.timestamp == timestamp
  {
    ProxyFailure(FailureMessage(f, url), Classify(f), url, responseTime, timestamp)
  }

  /** A failed DNS lookup: the handler as written sends nothing, the corrected
      one sends 500 with DNS_ERROR. */
  lemma DnsFailureExample(url: string, responseTime: int, timestamp: string)
    ensures var f := FetchFailure(Some("ENOTFOUND"), "FetchError", "getaddrinfo ENOTFOUND " + url);
            && ReplyStatus(FailureReplyAsWritten(f, url, timestamp)).None?
            && ReplyStatus(FailureReply(f, url, responseTime, timestamp)) == Some(500)
            && ErrorTypeName(FailureReply(f, url, responseTime, timestamp).errorType) == "DNS_ERROR"
  {
  }

  // ---------------------------------------------------------------------------
  // /api/external

  function MethodOrGet(verb: Option<string>): string {
    if verb.Some? then verb.value else "GET"
  }

  function HeadersOrEmpty(headers: Option<map<string, string>>): map<string, string> {
    if headers.Some? then headers.value else map[]
  }

  /** The steps of `/api/external` before the fetch. A missing or empty url
      is refused, then a url the URL parser rejects; otherwise the merged
      headers and the body are shaped into the options that go out. */
  method PrepareExternal(req: ProxyRequest, checkUrl: string -> UrlCheck)
    returns (refused: Option<ExternalReply>, sent: Option<FetchOptions>)
    ensures refused.Some? <==> sent.None?
    ensures req.url.None? || req.url.value == "" ==> refused == Some(UrlMissing)
    ensures req.url.Some? && req.url.value != "" && checkUrl(req.url.value).UrlRejected? ==>
              refused == Some(UrlInvalid(checkUrl(req.url.value).message, req.url.value))
    ensures sent.Some? <==> req.url.Some? && req.url.value != "" && checkUrl(req.url.value).UrlOk?
    ensures sent.Some? ==> Shaped(sent.value, MethodOrGet(req.verb), MergeHeaders(HeadersOrEmpty(req.headers)), req.body)
  {
    if req.url.None? || req.url.value == "" {
      return Some(UrlMissing), None;
    }
    var url := req.url.value;
    var check := checkUrl(url);
    if check.UrlRejected? {
      return Some(UrlInvalid(check.message, url)), None;
    }
    var opts := ShapeOptions(MethodOrGet(req.verb), MergeHeaders(HeadersOrEmpty(req.headers)), req.body);
    return None, Some(opts);
  }

  /** The `/api/external` handler as written: the refusals come before any
      fetch, a response is relayed, and a failed fetch ends in the catch block
      that throws, so no reply is sent. */
  method HandleExternal(req: ProxyRequest, checkUrl: string -> UrlCheck, parse: string -> Option<Json>,
                        startTime: int, endTime: int, fetched: FetchOutcome, timestamp: string)
    returns (reply: ExternalReply, sent: Option<FetchOptions>)
    ensures req.url.None? || req.url.value == "" ==> reply == UrlMissing && sent.None?
    ensures req.url.Some? && req.url.value != "" && checkUrl(req.url.value).UrlRejected? ==>
              reply == UrlInvalid(checkUrl(req.url.value).message, req.url.value) && sent.None?
    ensures sent.Some? <==> req.url.Some? && req.url.value != "" && checkUrl(req.url.value).UrlOk?
    ensures sent.Some? ==> Shaped(sent.value, MethodOrGet(req.verb), MergeHeaders(HeadersOrEmpty(req.headers)), req.body)
    ensures sent.Some? && fetched.Responded? ==>
              reply == Relayed(SuccessResult(fetched.response, parse, endTime - startTime, req.url.value))
    ensures sent.Some? && fetched.Failed? ==>
              reply == FailureReplyAsWritten(fetched.failure, req.url.value, timestamp) && ReplyStatus(reply).None?
  {
    var refused;
    refused, sent := PrepareExternal(req, checkUrl);
    if refused.Some? {
      return refused.value, sent;
    }
    match fetched {
      case Responded(resp) =>
        reply := Relayed(SuccessResult(resp, parse, endTime - startTime, req.url.value));
      case Failed(f) =>
        reply := FailureReplyAsWritten(f, req.url.value, timestamp);
    }
  }

  /** The `/api/external` handler with the start time in scope of the catch
      block: the same up to the failed fetch, which is answered with 500 and the
      class of the failure. */
  method HandleExternalCorrected(req: ProxyRequest, checkUrl: string -> UrlCheck, parse: string -> Option<Json>,
                                 startTime: int, endTime: int, fetched: FetchOutcome, timestamp: string)
    returns (reply: ExternalReply, sent: Option<FetchOptions>)
    ensures req.url.None? || req.url.value == "" ==> reply == UrlMissing && sent.None?
    ensures req.url.Some? && req.url.value != "" && checkUrl(req.url.value).UrlRejected? ==>
              reply == UrlInvalid(checkUrl(req.url.value).message, req.url.value) && sent.None?
    ensures sent.Some? <==> req.url.Some? && req.url.value != "" && checkUrl(req.url.value).UrlOk?
    ensures sent.Some? ==> Shaped(sent.value, MethodOrGet(req.verb), MergeHeaders(HeadersOrEmpty(req.headers)), req.body)
    ensures sent.Some? && fetched.Responded? ==>
              reply == Relayed(SuccessResult(fetched.response, parse, endTime - startTime, req.url.value))
    ensures sent.Some? && fetched.Failed? ==>
              reply == FailureReply(fetched.failure, req.url.value, endTime - startTime, timestamp)
    ensures ReplyStatus(reply).Some?
  {
    var refused;
    refused, sent := PrepareExternal(req, checkUrl);
    if refused.Some? {
      return refused.value, sent;
    }
    match fetched {
      case Responded(resp) =>
        reply := Relayed(SuccessResult(resp, parse, endTime - startTime, req.url.value));
      case Failed(f) =>
        reply := FailureReply(f, req.url.value, endTime - startTime, timestamp);
    }
  }

  /** The default headers survive unless the caller names the same key. */
  lemma DefaultsSurvive(caller: map<string, string>)
    requires "User-Agent" !in caller
    ensures MergeHeaders(caller)["User-Agent"] == "DevFetch/1.0 (External API Proxy)"
  {
  }

  // ---------------------------------------------------------------------------
  // /api/request

  /** The record written to the request log. */
  datatype RequestLog = RequestLog(
    url: Option<string>,
    verb: string,
    requestHeaders: map<string, string>,
    requestBody: Json,
    responseStatus: int,
    responseHeaders: map<string, string>,
    responseBody: Json,
    responseTime: int,
    timestamp: string,
    error: bool)

  /** The success result of `/api/request`. */
  datatype RequestResult = RequestResult(
    status: int,
    statusText: string,
    headers: map<string, string>,
    data: Json,
    responseTime: int,
    size: int)

  datatype RequestReply =
    | Answered(result: RequestResult)                 // 200 with the result
    | SendFailed(message: string, responseTime: int)  // 500 {error: true, message, responseTime}
    | Broken(message: string)                         // 500 {error: message}

  /** The text of the TypeError thrown by calling toUpperCase on an absent method. */
  const AbsentMethodError := "Cannot read properties of undefined (reading 'toUpperCase')"

  /** `body || null`. */
  function BodyOrNull(body: Option<Json>): (j: Json)
    ensures OptTruthy(body) ==> j == body.value
    ensures !OptTruthy(body) ==> j == JNull
  {
    if OptTruthy(body) then body.value else JNull
  }

  /** The `/api/request` handler. Without a method it fails at once with 500.
      Otherwise the options go out; a response is answered and logged with its
      status, headers and data, a failure is logged with status 0, no headers,
      the message as body and the error flag, and answered with 500. The logged
      request headers are the outgoing ones when the caller sent headers (the
      same object, so they include an added Content-Type), and empty otherwise. */
  method HandleRequest(req: ProxyRequest, parse: string -> Option<Json>,
                       startTime: int, endTime: int, fetched: FetchOutcome, timestamp: string)
    returns (reply: RequestReply, log: Option<RequestLog>, sent: Option<FetchOptions>)
    ensures req.verb.None? ==> reply == Broken(AbsentMethodError) && log.None? && sent.None?
    ensures req.verb.Some? ==> sent.Some? && log.Some?
    ensures sent.Some? ==> Shaped(sent.value, req.verb.value, HeadersOrEmpty(req.headers), req.body)
    ensures log.Some? ==>
              && log.value.url == req.url
              && log.value.verb == ToUpper(req.verb.value)
              && log.value.requestHeaders == (if req.headers.Some? then sent.value.headers else map[])
              && log.value.requestBody == BodyOrNull(req.body)
              && log.value.responseTime == endTime - startTime
              && log.value.timestamp == timestamp
    ensures log.Some? && fetched.Failed? ==>
              && reply == SendFailed(fetched.failure.message, endTime - startTime)
              && log.value.responseStatus == 0 && log.value.error
              && log.value.responseHeaders == map[]
              && log.value.responseBody == JStr(fetched.failure.message)
    ensures log.Some? && fetched.Responded? ==>
              var resp := fetched.response;
              && reply == Answered(RequestResult(resp.status, resp.statusText, resp.headers,
                                                 ParseOrRaw(parse, resp.text), endTime - startTime, Utf16Length(resp.text)))
              && log.value.responseStatus == resp.status && !log.value.error
              && log.value.responseHeaders == resp.headers
              && log.value.responseBody == ParseOrRaw(parse, resp.text)
  {
    if req.verb.None? {
      return Broken(AbsentMethodError), None, None;
    }
    var verb := req.verb.value;
    var opts := ShapeOptions(verb, HeadersOrEmpty(req.headers), req.body);
    sent := Some(opts);
    var loggedHeaders := if req.headers.Some? then opts.headers else map[];
    var responseTime := endTime - startTime;
    match fetched {
      case Responded(resp) =>
        var data := ParseOrRaw(parse, resp.text);
        var result := RequestResult(resp.status, resp.statusText, resp.headers, data, responseTime, Utf16Length(resp.text));
        log := Some(RequestLog(req.url, ToUpper(verb), loggedHeaders, BodyOrNull(req.body),
                               resp.status, resp.headers, data, responseTime, timestamp, false));
        reply := Answered(result);
      case Failed(f) =>
        log := Some(RequestLog(req.url, ToUpper(verb), loggedHeaders, BodyOrNull(req.body),
                               0, map[], JStr(f.message), responseTime, timestamp, true));
        reply := SendFailed(f.message, responseTime);
    }
  }
}
