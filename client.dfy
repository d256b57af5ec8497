/** The request editor: the request being composed, the choice between calling
    the target directly and going through the backend proxy, the body rule of
    both paths, the unwrapping of the proxy's reply, the success and error
    envelopes, and the one history record every send produces. */
module Client {
  import opened Common
  import opened Headers
  import opened Records
  import AppState

  /** The request as the editor holds it. */
  datatype Request = Request(url: string, httpMethod: string, headers: seq<HeaderRow>, body: string)

  /** A response as axios presents it: status line, headers and the body,
      already parsed as JSON where it parses. */
  datatype HttpReply = HttpReply(status: int, statusText: string, headers: map<string, string>, data: Json)

  /** How an axios call ends: its promise resolves with a value, or rejects with
      an error that carries the server's response when there was one. */
  datatype AxiosOutcome<T> = Resolved(value: T) | Rejected(response: Option<HttpReply>, message: string)

  /** The proxy's success reply as the client receives it: the four fields the
      client reads, and every other field by name. */
  datatype ProxyReply = ProxyReply(
    status: int,
    statusText: string,
    headers: map<string, string>,
    data: Json,
    extra: map<string, Json>)

  /** What the editor hands to axios. */
  datatype Call =
    | DirectCall(verb: string, url: string, headers: map<string, string>, data: Option<Json>)
    | ProxyCall(endpoint: string, url: string, verb: string, headers: map<string, string>, body: Option<Json>)

  /** axios's default acceptance rule: a 2xx status resolves, any other rejects. */
  predicate AcceptedStatus(status: int) {
    200 <= status < 300
  }

  /** An outcome that axios's default acceptance rule can produce. */
  predicate AxiosConsistent(o: AxiosOutcome<HttpReply>) {
    match o
    case Resolved(r) => AcceptedStatus(r.status)
    case Rejected(resp, _) => resp.Some? ==> !AcceptedStatus(resp.value.status)
  }

  // ---------------------------------------------------------------------------
  // Dispatch choice and request shaping

  /** A URL goes through the proxy exactly when it does not start with the
      backend's base URL and does start with "http://" or "https://"; the test
      is a literal prefix comparison. */
  predicate IsExternalUrl(url: string, base: string) {
    !StartsWith(url, base) && (StartsWith(url, "http://") || StartsWith(url, "https://"))
  }

  /** The base URL itself, and every URL that extends it, are internal. */
  lemma BasePrefixedIsInternal(base: string, rest: string)
    ensures !IsExternalUrl(base + rest, base)
  {
    assert (base + rest)[..|base|] == base;
  }

  /** A URL that is not http(s) is internal whatever the base. */
  lemma NonHttpIsInternal(url: string, base: string)
    requires !StartsWith(url, "http://") && !StartsWith(url, "https://")
    ensures !IsExternalUrl(url, base)
  {
  }

  /** With base `http://localhost:5000`, a mock route of the backend goes
      direct and an https URL of another host is proxied. */
  lemma DispatchExamples()
    ensures !IsExternalUrl("http://localhost:5000/api/mock/test", "http://localhost:5000")
    ensures IsExternalUrl("https://example.com/x", "http://localhost:5000")
  {
    BasePrefixedIsInternal("http://localhost:5000", "/api/mock/test");
    assert "http://localhost:5000/api/mock/test" == "http://localhost:5000" + "/api/mock/test";
    assert "https://example.com/x"[..8] == "https://";
    assert "https://example.com/x"[..21] != "http://localhost:5000" by {
      assert "https://example.com/x"[4] != "http://localhost:5000"[4];
    }
  }

  /** The proxy path's body test: the upper-cased method is POST, PUT or PATCH. */
  predicate BodyMethodUpper(verb: string) {
    IsBodyMethod(ToUpper(verb))
  }

  /** The direct path's body test: the lower-cased method is post, put or patch. */
  predicate BodyMethodLower(verb: string) {
    ToLower(verb) == "post" || ToLower(verb) == "put" || ToLower(verb) == "patch"
  }

  /** The two tests agree on every method text. */
  lemma BodyMethodTestsAgree(verb: string)
    ensures BodyMethodUpper(verb) <==> BodyMethodLower(verb)
  {
    assert ToUpper("post") == "POST" && ToUpper("put") == "PUT" && ToUpper("patch") == "PATCH";
    CaseFoldAgree(verb, "post");
    CaseFoldAgree(verb, "put");
    CaseFoldAgree(verb, "patch");
  }

  /** `proxyData.body` on the proxy path. */
  function ProxyBody(request: Request, parse: string -> Option<Json>): Option<Json> {
    if BodyMethodUpper(request.httpMethod) && request.body != "" then Some(ParseOrRaw(parse, request.body))
    else None
  }

  /** `axiosConfig.data` on the direct path. */
  function DirectData(request: Request, parse: string -> Option<Json>): Option<Json> {
    if BodyMethodLower(request.httpMethod) && request.body != "" then Some(ParseOrRaw(parse, request.body))
    else None
  }

  /** Both paths attach a body exactly when the method is, ignoring case, POST,
      PUT or PATCH and the body text is not empty; the body is the parsed JSON
      when the text parses and the text itself otherwise. */
  lemma BodyRule(request: Request, parse: string -> Option<Json>)
    ensures ProxyBody(request, parse) == DirectData(request, parse)
    ensures ProxyBody(request, parse).Some? <==> BodyMethodUpper(request.httpMethod) && request.body != ""
    ensures ProxyBody(request, parse).Some? && parse(request.body).Some? ==>
              ProxyBody(request, parse).value == parse(request.body).value
    ensures ProxyBody(request, parse).Some? && parse(request.body).None? ==>
              ProxyBody(request, parse).value == JStr(request.body)
  {
    BodyMethodTestsAgree(request.httpMethod);
  }

  /** For a method outside POST, PUT and PATCH no body is sent, whatever text
      was typed. */
  lemma NoBodyForGet(parse: string -> Option<Json>, url: string, rows: seq<HeaderRow>)
    ensures ProxyBody(Request(url, "GET", rows, "hello"), parse).None?
    ensures DirectData(Request(url, "GET", rows, "hello"), parse).None?
  {
    assert ToUpper("GET") == "GET" && ToLower("GET") == "get";
  }

  /** The call one send makes: direct with the lower-cased method, or a POST of
      `{url, method, headers, body}` to the proxy endpoint of the backend; the
      body is the one `BodyRule` describes on either path. */
  function PlannedCall(request: Request, base: string, parse: string -> Option<Json>): (c: Call)
    ensures c.ProxyCall? <==> IsExternalUrl(request.url, base)
    ensures c.headers == Collapse(request.headers) && c.url == request.url
    ensures c.ProxyCall? ==> c.endpoint == base + "/api/external" && c.verb == request.httpMethod
    ensures c.DirectCall? ==> c.verb == ToLower(request.httpMethod)
    ensures c.ProxyCall? ==> c.body == ProxyBody(request, parse)
    ensures c.DirectCall? ==> c.data == DirectData(request, parse)
  {
    var headers := Collapse(request.headers);
    if IsExternalUrl(request.url, base) then
      ProxyCall(base + "/api/external", request.url, request.httpMethod, headers, ProxyBody(request, parse))
    else
      DirectCall(ToLower(request.httpMethod), request.url, headers, DirectData(request, parse))
  }

  // ---------------------------------------------------------------------------
  // Envelopes

  /** The reply reshaped from the proxy's: only status, statusText, headers and
      data are kept. */
  function Unwrap(p: ProxyReply): (r: HttpReply)
    ensures r.status == p.status && r.statusText == p.statusText
    ensures r.headers == p.headers && r.data == p.data
  {
    HttpReply(p.status, p.statusText, p.headers, p.data)
  }

  /** Nothing but the four fields reaches the envelope. */
  lemma UnwrapIgnoresExtras(p: ProxyReply, extra: map<string, Json>)
    ensures Unwrap(p.(extra := extra)) == Unwrap(p)
  {
  }

  /** The outcome after the proxy's reply is unwrapped: the same shape on both
      paths. */
  function Normalized(request: Request, base: string, direct: AxiosOutcome<HttpReply>,
                      proxied: AxiosOutcome<ProxyReply>): (o: AxiosOutcome<HttpReply>)
    ensures !IsExternalUrl(request.url, base) ==> o == direct
    ensures IsExternalUrl(request.url, base) && proxied.Resolved? ==> o == Resolved(Unwrap(proxied.value))
    ensures IsExternalUrl(request.url, base) && proxied.Rejected? ==>
              o == Rejected(proxied.response, proxied.message)
  {
    if IsExternalUrl(request.url, base) then
      match proxied
      case Resolved(p) => Resolved(Unwrap(p))
      case Rejected(resp, message) => Rejected(resp, message)
    else direct
  }

  /** The success envelope: the reply's status line, headers and data, and the
      measured time. */
  function SuccessEnvelope(r: HttpReply, responseTime: int): (e: Envelope)
    ensures e.status == r.status && e.statusText == r.statusText && e.headers == r.headers
    ensures e.data == r.data && e.responseTime == responseTime
  {
    Envelope(r.status, r.statusText, r.headers, r.data, responseTime)
  }

  /** An error whose response body carries truthy `error` and `url` fields came
      from the proxy. */
  predicate IsProxyError(resp: Option<HttpReply>) {
    resp.Some? && OptTruthy(Field(resp.value.data, "error")) && OptTruthy(Field(resp.value.data, "url"))
  }

  /** The error envelope. An error from the proxy keeps its status (500 when
      missing), text ("Proxy Error" when missing), headers and body. Any other
      error keeps what the response has and otherwise reads as a network error:
      status 0, "Network Error", no headers, and `{error: message}`. */
  function ErrorEnvelope(resp: Option<HttpReply>, message: string, responseTime: int): (e: Envelope)
    ensures e.responseTime == responseTime
    ensures IsProxyError(resp) ==>
              e == Envelope(OrNum(resp.value.status, 500), OrText(resp.value.statusText, "Proxy Error"),
                            resp.value.headers, resp.value.data, responseTime)
    ensures resp.None? ==>
              e == Envelope(0, "Network Error", map[], JObj(map["error" := JStr(message)]), responseTime)
    ensures resp.Some? && !IsProxyError(resp) ==>
              e.status == OrNum(resp.value.status, 0) &&
              e.statusText == OrText(resp.value.statusText, "Network Error") &&
              e.headers == resp.value.headers &&
              e.data == (if Truthy(resp.value.data) then resp.value.data else JObj(map["error" := JStr(message)]))
    ensures e.status == 0 <==> resp.None? || (resp.value.status == 0 && !IsProxyError(resp))
  {
    if IsProxyError(resp) then
      var r := resp.value;
      Envelope(OrNum(r.status, 500), OrText(r.statusText, "Proxy Error"), r.headers, r.data, responseTime)
    else
      var status := if resp.Some? then OrNum(resp.value.status, 0) else 0;
      var text := if resp.Some? then OrText(resp.value.statusText, "Network Error") else "Network Error";
      var headers := if resp.Some? then resp.value.headers else map[];
      var data := if resp.Some? && Truthy(resp.value.data) then resp.value.data
                  else JObj(map["error" := JStr(message)]);
      Envelope(status, text, headers, data, responseTime)
  }

  /** The envelope a send shows, success or failure. */
  function EnvelopeOf(o: AxiosOutcome<HttpReply>, responseTime: int): (e: Envelope)
    ensures e.responseTime == responseTime
    ensures o.Resolved? ==> e == SuccessEnvelope(o.value, responseTime)
    ensures o.Rejected? ==> e == ErrorEnvelope(o.response, o.message, responseTime)
  {
    match o
    case Resolved(r) => SuccessEnvelope(r, responseTime)
    case Rejected(resp, message) => ErrorEnvelope(resp, message, responseTime)
  }

  /** A rejected call that did get a response with a status keeps that status
      in the envelope, on either error branch: a 4xx or 5xx is reported as
      itself. */
  lemma RejectedStatusKept(resp: HttpReply, message: string, responseTime: int)
    requires resp.status != 0
    ensures EnvelopeOf(Rejected(Some(resp), message), responseTime).status == resp.status
  {
  }

  /** The record handed to the history: the request as typed, the collapsed
      headers, the raw body text and the envelope with its status. */
  function Completion(request: Request, e: Envelope): (done: CompletedRequest)
    ensures done.responseStatus == e.status && done.response == e
    ensures done.headers == Collapse(request.headers) && done.body == request.body
    ensures done.url == request.url && done.httpMethod == request.httpMethod
    ensures done.responseTime == e.responseTime
  {
    CompletedRequest(request.url, request.httpMethod, Collapse(request.headers), request.body,
                     e.status, e.responseTime, e)
  }

  // ---------------------------------------------------------------------------
  // Presets

  /** The body of the "create user" preset, as `JSON.stringify(..., null, 2)`
      lays it out. */
  const CreateUserBody := "{\n  \"name\": \"John Doe\",\n  \"email\": \"john@example.com\",\n  \"role\": \"user\"\n}"

  /** The four named requests; any other name has none. */
  function Preset(name: string, base: string): (r: Option<Request>)
    ensures r.Some? <==> name in {"test", "users", "createUser", "status"}
    ensures r.Some? ==> StartsWith(r.value.url, base + "/api/mock/")
  {
    var prefix := base + "/api/mock/";
    assert forall s :: StartsWith(prefix + s, base + "/api/mock/") by {
      forall s ensures StartsWith(prefix + s, base + "/api/mock/") {
        assert (prefix + s)[..|prefix|] == prefix;
      }
    }
    if name == "test" then Some(Request(prefix + "test", "GET", [], ""))
    else if name == "users" then Some(Request(prefix + "users", "GET", [], ""))
    else if name == "createUser" then
      Some(Request(prefix + "users", "POST", [HeaderRow("Content-Type", "application/json", true)], CreateUserBody))
    else if name == "status" then Some(Request(prefix + "status/404", "GET", [], ""))
    else None
  }

  // ---------------------------------------------------------------------------
  // The component

  class HttpClient {
    const apiBaseUrl: string
    var request: Request
    var response: Option<Envelope>
    var loading: bool
    var error: Option<Json>

    constructor (apiBaseUrl: string)
      ensures this.apiBaseUrl == apiBaseUrl
      ensures request == Request(apiBaseUrl + "/api/mock/test", "GET", [], "")
      ensures response.None? && !loading && error.None?
    {
      this.apiBaseUrl := apiBaseUrl;
      request := Request(apiBaseUrl + "/api/mock/test", "GET", [], "");
      response := None;
      loading := false;
      error := None;
    }

    method AddHeader()
      modifies this`request
      ensures request == old(request).(headers := AddRow(old(request).headers))
    {
      request := request.(headers := AddRow(request.headers));
    }

    method UpdateHeader(index: int, field: HeaderField, text: string)
      modifies this`request
      ensures request == old(request).(headers := UpdateRow(old(request).headers, index, field, text))
    {
      request := request.(headers := UpdateRow(request.headers, index, field, text));
    }

    method RemoveHeader(index: int)
      modifies this`request
      ensures request == old(request).(headers := RemoveRow(old(request).headers, index))
    {
      request := request.(headers := RemoveRow(request.headers, index));
    }

    method ToggleHeader(index: int)
      modifies this`request
      ensures request == old(request).(headers := ToggleRow(old(request).headers, index))
    {
      request := request.(headers := ToggleRow(request.headers, index));
    }

    /** `loadPreset`: a known name replaces the whole request, an unknown one
        leaves it as it is. */
    method LoadPreset(name: string)
      modifies this`request
      ensures Preset(name, apiBaseUrl).Some? ==> request == Preset(name, apiBaseUrl).value
      ensures Preset(name, apiBaseUrl).None? ==> request == old(request)
    {
      var preset := Preset(name, apiBaseUrl);
      if preset.Some? {
        request := preset.value;
      }
    }

    /** `sendRequest`. The transport is an input: `direct` is how the direct
        axios call ends and `proxied` how the POST to the proxy ends; only the
        one on the chosen path is consulted. The clock readings, the new
        entry's id and timestamp, and whether the storage write succeeds are
        inputs too. Exactly one history entry is added, on every branch. */
    method SendRequest(app: AppState.App, parse: string -> Option<Json>, startTime: int, endTime: int,
                       direct: AxiosOutcome<HttpReply>, proxied: AxiosOutcome<ProxyReply>,
                       id: string, timestamp: string, written: bool)
      returns (call: Call)
      modifies this`response, this`loading, this`error, app`history, app`storage
      ensures call == PlannedCall(request, apiBaseUrl, parse)
      ensures var outcome := Normalized(request, apiBaseUrl, direct, proxied);
              var envelope := EnvelopeOf(outcome, endTime - startTime);
              && response == Some(envelope)
              && !loading
              && error == (if outcome.Rejected? then Some(envelope.data) else None)
              && app.history == [AppState.MakeEntry(id, Completion(request, envelope), timestamp)] + old(app.history)
      ensures |app.history| == |old(app.history)| + 1 && app.history[1..] == old(app.history)
      ensures response.Some? && app.history[0].responseStatus == response.value.status
      ensures app.history[0].headers == Collapse(request.headers) && app.history[0].body == request.body
      ensures app.storage == if written then old(app.storage)[AppState.HistoryKey := app.encode(app.history)]
                             else old(app.storage)
    {
      loading := true;
      error := None;
      response := None;

      var enabledHeaders := Collapse(request.headers);
      var outcome: AxiosOutcome<HttpReply>;
      if IsExternalUrl(request.url, apiBaseUrl) {
        call := ProxyCall(apiBaseUrl + "/api/external", request.url, request.httpMethod, enabledHeaders,
                          ProxyBody(request, parse));
        match proxied {
          case Resolved(p) =>
            outcome := Resolved(Unwrap(p));
          case Rejected(resp, message) =>
            outcome := Rejected(resp, message);
        }
      } else {
        call := DirectCall(ToLower(request.httpMethod), request.url, enabledHeaders, DirectData(request, parse));
        outcome := direct;
      }
      var responseTime := endTime - startTime;

      var envelope: Envelope;
      if outcome.Resolved? {
        envelope := SuccessEnvelope(outcome.value, responseTime);
        response := Some(envelope);
      } else {
        envelope := ErrorEnvelope(outcome.response, outcome.message, responseTime);
        response := Some(envelope);
        error := Some(envelope.data);
      }
      var done := CompletedRequest(request.url, request.httpMethod, enabledHeaders, request.body,
                                   envelope.status, responseTime, envelope);
      app.HandleRequestComplete(done, id, timestamp, written);
      loading := false;
    }
  }
}
