/** The two halves together: what the client makes of each reply of the
    backend's `/api/external`, and how the envelope of a proxied send compares
    with that of a direct one. */
module EndToEnd {
  import opened Common
  import opened Records
  import Client
  import ProxyServer

  /** The status text Express sends with the statuses the proxy uses. */
  function StatusLine(status: int): string {
    if status == 200 then "OK"
    else if status == 400 then "Bad Request"
    else if status == 500 then "Internal Server Error"
    else ""
  }

  /** The proxy's reply as axios hands it to the client: the 200 of a relayed
      result resolves, with every field of the result; a 400 or 500 rejects
      with the reply attached; a handler that sent nothing leaves the client
      waiting until its own timeout rejects without a response. */
  function ClientSees(reply: ProxyServer.ExternalReply, headers: map<string, string>, message: string)
    : (o: Client.AxiosOutcome<Client.ProxyReply>)
    ensures o.Resolved? <==> reply.Relayed?
    ensures reply.Relayed? ==>
              var res := reply.result;
              o.value == Client.ProxyReply(res.status, res.statusText, res.headers, res.data,
                                           map["responseTime" := JNum(res.responseTime), "size" := JNum(res.size),
                                               "url" := JStr(res.url), "success" := JBool(res.success)])
    ensures o.Rejected? ==> (o.response.None? <==> reply.Crashed?) && o.message == message
    ensures o.Rejected? && o.response.Some? ==>
              && Some(o.response.value.status) == ProxyServer.ReplyStatus(reply)
              && !Client.AcceptedStatus(o.response.value.status)
              && o.response.value.statusText == StatusLine(o.response.value.status)
              && o.response.value.headers == headers
              && o.response.value.data == ProxyServer.ReplyJson(reply)
  {
    match reply
    case Relayed(res) =>
      Client.Resolved(Client.ProxyReply(res.status, res.statusText, res.headers, res.data,
                                        map["responseTime" := JNum(res.responseTime), "size" := JNum(res.size),
                                            "url" := JStr(res.url), "success" := JBool(res.success)]))
    case Crashed(_) => Client.Rejected(None, message)
    case _ =>
      var status := ProxyServer.ReplyStatus(reply).value;
      Client.Rejected(Some(Client.HttpReply(status, StatusLine(status), headers, ProxyServer.ReplyJson(reply))), message)
  }

  /** The reply axios gives a direct call for the same target response: the
      body parsed the same way, resolved for 2xx and rejected otherwise. */
  function DirectOutcome(resp: ProxyServer.TargetResponse, parse: string -> Option<Json>, message: string)
    : (o: Client.AxiosOutcome<Client.HttpReply>)
    ensures Client.AxiosConsistent(o)
    ensures o.Resolved? <==> Client.AcceptedStatus(resp.status)
    ensures var r := Client.HttpReply(resp.status, resp.statusText, resp.headers, ParseOrRaw(parse, resp.text));
            (o.Resolved? ==> o.value == r) && (o.Rejected? ==> o.response == Some(r) && o.message == message)
  {
    var r := Client.HttpReply(resp.status, resp.statusText, resp.headers, ParseOrRaw(parse, resp.text));
    if Client.AcceptedStatus(resp.status) then Client.Resolved(r) else Client.Rejected(Some(r), message)
  }

  /** The envelope of a proxied send whose target answered. */
  function ProxiedEnvelope(request: Client.Request, base: string, parse: string -> Option<Json>,
                           resp: ProxyServer.TargetResponse, proxyTime: int, headers: map<string, string>,
                           message: string, direct: Client.AxiosOutcome<Client.HttpReply>, clientTime: int): Envelope
  {
    var reply := ProxyServer.Relayed(ProxyServer.SuccessResult(resp, parse, proxyTime, request.url));
    Client.EnvelopeOf(Client.Normalized(request, base, direct, ClientSees(reply, headers, message)), clientTime)
  }

  /** Whichever path a send takes, a target answer shows the same envelope,
      as long as an error status comes with a status text and a truthy body.
      The time measured by the proxy is dropped on the way. */
  lemma ProxiedMatchesDirect(request: Client.Request, base: string, parse: string -> Option<Json>,
                             resp: ProxyServer.TargetResponse, proxyTime: int, headers: map<string, string>,
                             message: string, direct: Client.AxiosOutcome<Client.HttpReply>, clientTime: int)
    requires Client.IsExternalUrl(request.url, base)
    requires !Client.AcceptedStatus(resp.status) ==>
               && resp.status != 0 && resp.statusText != ""
               && Truthy(ParseOrRaw(parse, resp.text))
    ensures ProxiedEnvelope(request, base, parse, resp, proxyTime, headers, message, direct, clientTime)
            == Client.EnvelopeOf(DirectOutcome(resp, parse, message), clientTime)
    ensures ProxiedEnvelope(request, base, parse, resp, proxyTime, headers, message, direct, clientTime).status
            == resp.status
  {
    var data := ParseOrRaw(parse, resp.text);
    var r := Client.HttpReply(resp.status, resp.statusText, resp.headers, data);
    if !Client.AcceptedStatus(resp.status) {
      assert Client.ErrorEnvelope(Some(r), message, clientTime) == Client.SuccessEnvelope(r, clientTime);
    }
  }

  /** A 404 with an empty body: the proxied send shows the empty text as the
      data, the direct send replaces it with `{error: message}`. */
  lemma EmptyErrorBodyDiffers(request: Client.Request, base: string, headers: map<string, string>,
                              direct: Client.AxiosOutcome<Client.HttpReply>, clientTime: int)
    requires Client.IsExternalUrl(request.url, base)
    ensures var resp := ProxyServer.TargetResponse(404, "Not Found", map[], "");
            var parse := (t: string) => None;
            var message := "Request failed with status code 404";
            && ProxiedEnvelope(request, base, parse, resp, 3, headers, message, direct, clientTime).data == JStr("")
            && Client.EnvelopeOf(DirectOutcome(resp, parse, message), clientTime).data
               == JObj(map["error" := JStr(message)])
  {
  }

  /** The proxy's own 400 and 500 replies carry `error` and `url`, so the
      client reads them as proxy errors and shows the proxy's status and body. */
  lemma ProxyFailuresShownAsProxyErrors(reply: ProxyServer.ExternalReply, headers: map<string, string>,
                                        message: string, clientTime: int)
    requires reply.UrlInvalid? || reply.ProxyFailure?
    requires reply.url != ""
    ensures var o := ClientSees(reply, headers, message);
            && o.Rejected? && Client.IsProxyError(o.response)
            && Some(Client.EnvelopeOf(Client.Rejected(o.response, o.message), clientTime).status)
               == ProxyServer.ReplyStatus(reply)
            && Client.EnvelopeOf(Client.Rejected(o.response, o.message), clientTime).data
               == ProxyServer.ReplyJson(reply)
  {
  }

  /** A DNS failure seen from the client: with the catch block as written,
      which under Express 4 leaves the request unanswered, the client gets no
      reply and reads a network error with status 0; with the
      start time in scope it reads the proxy's 500 with DNS_ERROR. */
  lemma DnsFailureAtTheClient(url: string, proxyTime: int, timestamp: string, headers: map<string, string>,
                              timeoutMessage: string, clientTime: int)
    requires url != ""
    ensures var f := ProxyServer.FetchFailure(Some("ENOTFOUND"), "FetchError", "getaddrinfo ENOTFOUND");
            var asWritten := ClientSees(ProxyServer.FailureReplyAsWritten(f, url, timestamp), headers, timeoutMessage);
            var corrected := ClientSees(ProxyServer.FailureReply(f, url, proxyTime, timestamp), headers, timeoutMessage);
            && Client.EnvelopeOf(Client.Rejected(asWritten.response, asWritten.message), clientTime).status == 0
            && Client.EnvelopeOf(Client.Rejected(corrected.response, corrected.message), clientTime).status == 500
            && Field(Client.EnvelopeOf(Client.Rejected(corrected.response, corrected.message), clientTime).data,
                     "errorType") == Some(JStr("DNS_ERROR"))
  {
    var f := ProxyServer.FetchFailure(Some("ENOTFOUND"), "FetchError", "getaddrinfo ENOTFOUND");
    ProxyFailuresShownAsProxyErrors(ProxyServer.FailureReply(f, url, proxyTime, timestamp), headers,
                                    timeoutMessage, clientTime);
  }
}
