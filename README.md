# DevFetch, modelled in Dafny

DevFetch is a browser HTTP client with a small Express backend. This project
models the logic that sits under its user interface and proves properties of it:

- **The request editor** (`Headers`, `Client`) covers:
  - the header-row edits;
  - the collapse of the enabled rows into the header map that is sent;
  - the literal prefix rule that sends a URL directly or through the backend proxy;
  - the body rule of both paths;
  - the unwrapping of the proxy's reply;
  - the success and error envelopes;
  - the single history record that every send hands over;
  - the request presets.
- **The application shell and the history panel** (`AppState`, `HistoryView`) cover:
  - new entries going to the front;
  - clearing and reloading the list through browser storage;
  - deleting by id, together with the current selection;
  - the status filter and the case-insensitive search;
  - the quick statistics and the badge numbers;
  - the dark-mode flag and its stored text.
- **The proxy endpoints of the backend** (`ProxyServer`) cover:
  - `/api/external`: the URL-required and URL-validity checks, the default headers overlaid by the caller's, the body and `Content-Type` rule, the success result and the error taxonomy;
  - `/api/request`: its result and the record it logs on success and on failure.
- **The in-memory mock store** (`MockApi`) covers:
  - the users handlers and post creation, with their validation;
  - `parseInt` as the routes apply it to path parameters;
  - the status-code route and the status-message table.
- **Both halves together** (`EndToEnd`) cover what the client makes of each reply of the proxy, and how a proxied send compares with a direct one.

Component state that the source updates in place is a `class`:
- `HttpClient` holds the request, the response, `loading` and `error`;
- `App` holds the history, the dark-mode flag and the storage map;
- `HistoryPanel` holds the selection;
- `MockStore` holds the users and posts lists.

Methods on these classes are proved against specification functions. The rest of the logic is functions and lemmas.

Everything the code does not compute itself is an input:
- `JSON.parse`, `JSON.stringify` and `new URL` are function-typed parameters;
- the transport outcome is an input datatype. On the client it is an axios resolution or rejection. On the server it is a target response or a fetch failure with its `code`, `name` and `message`;
- the clock readings, the fresh id and timestamp, and whether a storage write succeeds are parameters.

JSON values are a `Json` datatype. A body kept "as text" is `JStr(text)`, which is also what a parsed JSON string is in JavaScript.

Behaviour of the code worth noting:
- **Non-2xx on the direct path.** axios rejects a non-2xx status there, so the error envelope is built. It keeps the status and headers, but an empty body is replaced by `{error: message}`, and `error` is set. `EndToEnd.ProxiedMatchesDirect` gives a sufficient condition for the two paths to agree: an error status with a status text and a truthy body. `EndToEnd.EmptyErrorBodyDiffers` gives a case where they differ.
- **URL validity.** The client never checks it. Only `/api/external` does, for the URLs the client proxies.
- **Content-Type.** Both endpoints test the *value* of `Content-Type` for falsiness. A caller's empty `Content-Type` is therefore replaced with `application/json`, not kept.
- **Failures of `/api/external`.** They do not reach the client as a classified 500 (see Findings).
- **Sizes.** The `size` of a result is JavaScript's `length` of the body text, which counts UTF-16 code units: a character outside the Basic Multilingual Plane counts twice.

## Model

| member | source | states |
|---|---|---|
| Common.ParseOrRaw | client/src/components/HTTPClient.js:79-83 | the parsed value when the text parses as JSON, the text itself otherwise |
| Common.CaseFoldAgree | client/src/components/HTTPClient.js:78-108 | for a lower-case ASCII word w, lower-casing m gives w exactly when upper-casing m gives w upper-cased |
| Common.Filter | client/src/components/History.js:10 | the result is an order-preserving subsequence holding exactly the elements that pass, each as often as it occurs in the list; if every element passes, it is the list itself |
| Common.Utf16Length | server/index.js:100 | the length in UTF-16 code units lies between the number of characters and twice that, and equals it when every character is in the Basic Multilingual Plane |
| Common.Utf16LengthExample | server/index.js:100 | "a" followed by an emoji has length 3 |
| Common.DisjointFilters | client/src/components/History.js:253-259 | two filters with disjoint predicates together keep at most the length of the list |
| Headers.AddRow | client/src/components/HTTPClient.js:18-23 | the old rows unchanged, followed by one blank enabled row |
| Headers.UpdateRow | client/src/components/HTTPClient.js:25-32 | same length; only row `index` changes, and only in the named field; an index outside the list changes nothing |
| Headers.ToggleRow | client/src/components/HTTPClient.js:41-48 | same length; only row `index` has its enabled flag flipped; an index outside the list changes nothing |
| Headers.RemoveRow | client/src/components/HTTPClient.js:34-39 | exactly row `index` is removed and the others keep their order; an index outside the list changes nothing |
| Headers.ToggleTwice | client/src/components/HTTPClient.js:41-48 | toggling the same row twice gives the list back |
| Headers.Collapse | client/src/components/HTTPClient.js:56-58 | a key is present exactly when some enabled row with a non-empty value has that key (exact case); its value is the last such row's |
| Headers.CollapseDropsIncompleteRows | client/src/components/HTTPClient.js:56-58 | rows with an empty key or an empty value are dropped: the three-row example collapses to `{A: 1}` |
| Headers.DisablingShrinks | client/src/components/HTTPClient.js:56-58 | disabling an enabled row never adds a key to the collapsed map |
| Client.IsExternalUrl | client/src/components/HTTPClient.js:62-63 | a URL is proxied exactly when it does not start with the base URL and starts with `http://` or `https://` (a literal, case-sensitive prefix test) |
| Client.BasePrefixedIsInternal | client/src/components/HTTPClient.js:62-63 | the base URL and every URL extending it go direct |
| Client.NonHttpIsInternal | client/src/components/HTTPClient.js:62-63 | a URL that is not http:// or https:// goes direct |
| Client.DispatchExamples | client/src/components/HTTPClient.js:62-63 | with base `http://localhost:5000`, `.../api/mock/test` goes direct and `https://example.com/x` is proxied |
| Client.ProxyBody | client/src/components/HTTPClient.js:78-84 | the `body` field sent to the proxy: for an upper-cased POST/PUT/PATCH with non-empty text, the parsed JSON or the raw text; otherwise none |
| Client.DirectData | client/src/components/HTTPClient.js:108-116 | the `data` of a direct call: for a lower-cased post/put/patch with non-empty text, the parsed JSON or the raw text; otherwise none |
| Client.BodyMethodTestsAgree | client/src/components/HTTPClient.js:78-108 | the proxy path's upper-case method test and the direct path's lower-case test agree on every method text; the proxy path's test is `Common.IsBodyMethod` of the upper-cased text, the same test the server applies |
| Client.BodyRule | client/src/components/HTTPClient.js:77-116 | both paths attach the same body; one is attached exactly for POST/PUT/PATCH (any case) with non-empty text; it is the parsed JSON, or the raw text when parsing fails |
| Client.NoBodyForGet | client/src/components/HTTPClient.js:78-84 | a GET with body text "hello" sends no body on either path |
| Client.PlannedCall | client/src/components/HTTPClient.js:62-118 | proxied exactly for external URLs, as a POST to `base/api/external` carrying the method as typed and `ProxyBody` as its body; otherwise direct with the lower-cased method and `DirectData` as its data; the collapsed headers on both |
| Client.Unwrap | client/src/components/HTTPClient.js:91-97 | only status, statusText, headers and data are kept from the proxy's reply |
| Client.UnwrapIgnoresExtras | client/src/components/HTTPClient.js:91-97 | the proxy's other fields never influence the unwrapped reply |
| Client.Normalized | client/src/components/HTTPClient.js:65-119 | a direct send's outcome is kept; a proxied one is unwrapped when it resolves, and its rejection is kept as it is |
| Client.SuccessEnvelope | client/src/components/HTTPClient.js:123-129 | the reply's status line, headers and data, and the measured time |
| Client.IsProxyError | client/src/components/HTTPClient.js:157 | an error is the proxy's own exactly when there is a response whose data has truthy `error` and `url` fields |
| Client.ErrorEnvelope | client/src/components/HTTPClient.js:157-175 | proxy error (truthy `error` and `url`): status or 500, text or "Proxy Error", its body; otherwise status or 0, text or "Network Error", no headers and `{error: message}` without a response; status 0 exactly for no response or a zero status |
| Client.EnvelopeOf | client/src/components/HTTPClient.js:120-175 | the success envelope for a resolved call, the error envelope for a rejected one, with the measured time |
| Client.RejectedStatusKept | client/src/components/HTTPClient.js:160-169 | a rejected call whose response has a non-zero status shows that status |
| Client.Completion | client/src/components/HTTPClient.js:134-142 | the history record: the URL and method as typed, the collapsed headers, the raw body, and the envelope's status and time |
| Client.Preset | client/src/components/HTTPClient.js:206-232 | a request exactly for the names test, users, createUser and status, each under `base/api/mock/` |
| Client.HttpClient.constructor | client/src/components/HTTPClient.js:5-14 | the initial request is a GET of `base/api/mock/test` with no headers or body; no response, not loading, no error |
| Client.HttpClient.AddHeader | client/src/components/HTTPClient.js:18-23 | the request with its rows replaced by `AddRow` of them |
| Client.HttpClient.UpdateHeader | client/src/components/HTTPClient.js:25-32 | the request with its rows replaced by `UpdateRow` of them |
| Client.HttpClient.RemoveHeader | client/src/components/HTTPClient.js:34-39 | the request with its rows replaced by `RemoveRow` of them |
| Client.HttpClient.ToggleHeader | client/src/components/HTTPClient.js:41-48 | the request with its rows replaced by `ToggleRow` of them |
| Client.HttpClient.LoadPreset | client/src/components/HTTPClient.js:206-237 | a known name replaces the whole request; an unknown one leaves it unchanged |
| Client.HttpClient.SendRequest | client/src/components/HTTPClient.js:50-196 | makes the planned call and shows the envelope of the normalized outcome; error is set exactly when the call rejects; loading ends false; exactly one entry goes in front of the history, with the envelope's status, the collapsed headers and the raw body |
| AppState.ApiBaseUrl | client/src/App.js:6 | the configured base URL when set and non-empty, `http://localhost:5000` otherwise |
| AppState.ParseDarkMode | client/src/App.js:17-18 | dark when nothing is saved; otherwise dark exactly when the saved text is "true" |
| AppState.DarkModeRoundTrip | client/src/App.js:45-48 | reading back the stored text of a flag gives the flag |
| AppState.MakeEntry | client/src/App.js:68-72 | the entry copies every field of the completed request; it carries the fresh id and the fresh timestamp |
| AppState.LoadedHistory | client/src/App.js:25-35 | nothing saved or empty text keeps the list; text that parses gives the parsed list; text that does not parse gives the empty list |
| AppState.ReloadRestores | client/src/App.js:25-43 | with a faithful codec, loading what was just written gives that list back |
| AppState.App.constructor | client/src/App.js:10-23 | the history is loaded from storage over an empty list, and the dark-mode flag is read by the start-up rule |
| AppState.App.LoadHistory | client/src/App.js:25-35 | the history becomes `LoadedHistory` of the stored text |
| AppState.App.HandleRequestComplete | client/src/App.js:66-80 | the new entry goes in front and the old entries keep their order; after a successful write the stored history is the in-memory one; a failed write changes no storage |
| AppState.App.ClearHistory | client/src/App.js:57-64 | the list is empty, the storage key is gone, and reloading gives the empty list |
| AppState.App.ToggleDarkMode | client/src/App.js:45-55 | the flag is negated, its text is stored, and the start-up rule reads the new flag back |
| HistoryView.MatchesFilter | client/src/components/History.js:40-42 | "all" passes every status, "success" the statuses 200..299, "error" the statuses from 400 up; any other filter text passes none |
| HistoryView.MatchesSearch | client/src/components/History.js:44-46 | the empty term matches; any other term must occur, with both sides lower-cased, in the URL or in the method |
| HistoryView.OtherStatusesOnlyInAll | client/src/components/History.js:40-42 | statuses 0, 1xx and 3xx pass only the "all" filter |
| HistoryView.EmptyTermMatches | client/src/components/History.js:44 | the empty search term matches every entry |
| HistoryView.SearchIgnoresCase | client/src/components/History.js:44-46 | a term, its upper-cased form and its lower-cased form match the same entries |
| HistoryView.Visible | client/src/components/History.js:39-49 | an order-preserving subsequence of the history; exactly the entries passing both the filter and the search are shown, each as often as it occurs; "all" with an empty term shows the whole history |
| HistoryView.SuccessCount | client/src/components/History.js:253 | the number of entries with a 2xx status: at most the total, and the total when every entry is a success |
| HistoryView.ErrorCount | client/src/components/History.js:259 | the number of entries with a status from 400 up: at most the total, and the total when every entry is an error |
| HistoryView.CountsWithinTotal | client/src/components/History.js:248-262 | the successful count plus the error count is at most the total |
| HistoryView.AverageTime | client/src/components/History.js:265 | 0 for an empty history |
| HistoryView.TotalTimeBounds | client/src/components/History.js:265 | with every time in [lo, hi], the total lies between count times lo and count times hi |
| HistoryView.RoundedMeanBounds | client/src/components/History.js:265 | for totals in that range, the rounded mean lies in [lo, hi] |
| HistoryView.AverageWithinRange | client/src/components/History.js:265 | the average shown lies between the smallest and the largest response time |
| HistoryView.Badges | client/src/components/History.js:335-388 | one badge per shown entry, strictly decreasing from the number shown down to 1 |
| HistoryView.WithoutId | client/src/components/History.js:10 | an order-preserving subsequence holding exactly the entries whose id differs, each as often as it occurs |
| HistoryView.HistoryPanel.constructor | client/src/components/History.js:4-6 | no selection, filter "all", empty search |
| HistoryView.HistoryPanel.Select | client/src/components/History.js:21-25 | the entry becomes the selection |
| HistoryView.HistoryPanel.DeleteRequest | client/src/components/History.js:8-19 | stores the history minus that id and reloads it, which gives exactly that list when the codec is faithful; clears the selection only when it has that id; a failed write changes nothing |
| ProxyServer.MergeHeaders | server/index.js:56-62 | every default and every caller key; the caller wins on an exact-case collision; defaults that are not overridden survive |
| ProxyServer.DefaultsSurvive | server/index.js:56-62 | without a caller User-Agent, the proxy's own User-Agent is sent |
| ProxyServer.HasContentType | server/index.js:71 | the caller's headers carry a `Content-Type` with a non-empty (truthy) value |
| ProxyServer.Shaped | server/index.js:54-74 | the options that go out: the upper-cased method; a body exactly for POST/PUT/PATCH with a truthy body, verbatim when a string and stringified otherwise; every header but `Content-Type` as given; `application/json` when a body goes out without a truthy `Content-Type` |
| ProxyServer.ShapeOptions | server/index.js:54-74 | the method upper-cased; a body exactly for POST/PUT/PATCH with a truthy body, a string verbatim and anything else stringified; `application/json` is added when a body goes out and no non-empty Content-Type was set; every other header unchanged |
| ProxyServer.ShapedIsUnique | server/index.js:54-74 | the shaping guarantee determines the options completely |
| ProxyServer.ReplyStatus | server/index.js:38-137 | every reply has a status except the one from a handler that threw |
| ProxyServer.SuccessResult | server/index.js:86-103 | data is the parsed JSON or the raw text; size is the text's length in UTF-16 code units; success is true exactly for 200..299 |
| ProxyServer.Classify | server/index.js:113-128 | DNS, timeout and refused exactly for codes ENOTFOUND, ETIMEDOUT and ECONNREFUSED; fetch error exactly for another code with name FetchError; unknown otherwise |
| ProxyServer.FailureMessage | server/index.js:113-128 | the message that goes with each class, naming the URL, or the error's own message |
| ProxyServer.FailureReplyAsWritten | server/index.js:106-108 | the catch block as written throws before replying: no status is sent |
| ProxyServer.FailureReply | server/index.js:106-137 | the corrected catch block: 500 with the class, its message, the URL, the time and the timestamp |
| ProxyServer.DnsFailureExample | server/index.js:106-137 | a failed DNS lookup gets no reply as written, and 500 with DNS_ERROR when corrected |
| ProxyServer.PrepareExternal | server/index.js:33-74 | a missing or empty URL is refused, then a URL the parser rejects, with its message; options go out exactly when neither happens, shaped from the merged headers and the GET default |
| ProxyServer.HandleExternal | server/index.js:33-139 | the handler as written: a missing or empty URL gets 400 without a fetch; a URL the parser rejects gets 400 with its message, without a fetch; otherwise the shaped options go out; a response is relayed, and a failed fetch ends in the catch block that throws, with no status sent |
| ProxyServer.HandleExternalCorrected | server/index.js:33-139 | the same handler with the start time in scope of the catch block: identical up to a failed fetch, which gets the classified 500; every reply has a status |
| ProxyServer.BodyOrNull | server/index.js:190 | the body when truthy, null otherwise |
| ProxyServer.HandleRequest | server/index.js:142-237 | no method: 500 and no log; otherwise the shaped options go out. A response is answered with its result and logged with its status, headers and data, with the size in UTF-16 code units. A failure is logged with status 0, no headers, the message as body and the error flag, and answered with 500 |
| MockApi.ParseInt | server/routes/mockRouter.js:40 | JavaScript's `parseInt` without a radix: leading JavaScript white space skipped, an optional sign, a `0x` or `0X` prefix switching to base 16, then the longest run of digits of that base; NaN when that run is empty |
| MockApi.ParseIntRoundTrip | server/routes/mockRouter.js:40 | parseInt reads back the decimal text of every integer |
| MockApi.NoDigitIsNaN | server/routes/mockRouter.js:197 | parseInt of "abc" and of "" is NaN |
| MockApi.FirstIndex | server/routes/mockRouter.js:84 | the first position holding the id, none when no user has it; NaN matches no id |
| MockApi.FirstIndexAppend | server/routes/mockRouter.js:66-73 | an id nobody holds is found at the end once a user with it is appended |
| MockApi.InitialUsersFound | server/routes/mockRouter.js:5-9 | the seeded users 1, 2 and 3 sit at positions 0, 1 and 2, and there is no user 4 |
| MockApi.Updated | server/routes/mockRouter.js:94-99 | the id is kept; each of name, email and role is replaced exactly when given non-empty |
| MockApi.EmptyUpdateKeepsUser | server/routes/mockRouter.js:94-99 | an update with no non-empty field leaves the user as it is |
| MockApi.MockStore.constructor | server/routes/mockRouter.js:5-15 | the three seeded users and the three seeded posts |
| MockApi.MockStore.GetUser | server/routes/mockRouter.js:39-54 | the first user with the parsed id, or 404 "User not found" |
| MockApi.MockStore.CreateUser | server/routes/mockRouter.js:56-80 | without name or email: 400 and the store unchanged; otherwise 201, and the user is appended with id length + 1 and role "user" by default |
| MockApi.MockStore.UpdateUser | server/routes/mockRouter.js:82-106 | unknown id: 404 and the store unchanged; otherwise only that position is replaced, by `Updated`; the length is kept |
| MockApi.MockStore.DeleteUser | server/routes/mockRouter.js:108-125 | unknown id: 404 and the store unchanged; otherwise exactly the first match is removed, the others keep their order, and the length drops by one |
| MockApi.MockStore.CreatePost | server/routes/mockRouter.js:136-160 | without title or content: 400 and the posts unchanged; otherwise 201, and the post is appended with id length + 1 and author 1 by default |
| MockApi.CreatedUserIsFound | server/routes/mockRouter.js:40-73 | a user created under an unused id is what GET of that id's text finds |
| MockApi.StatusMessage | server/routes/mockRouter.js:235-249 | the table's text for the nine listed codes, "Unknown Status" for any other |
| MockApi.StatusRouteAsWritten | server/routes/mockRouter.js:196-209 | the guard as written: a NaN code reaches `res.status` |
| MockApi.StatusRoute | server/routes/mockRouter.js:196-209 | the route without the NaN gap: the reply echoes the code exactly when it is a number in 100..599, with its table message; anything else gets 400 |
| MockApi.NaNStatusSlipsThrough | server/routes/mockRouter.js:197-199 | for "abc", the guard as written lets NaN through, while the corrected route answers 400 |
| MockApi.StatusCodesEchoed | server/routes/mockRouter.js:196-208 | every code from 100 to 599, written in decimal, is echoed with its message |
| EndToEnd.ClientSees | client/src/components/HTTPClient.js:86-97 | the client resolves exactly the proxy's relayed results, to a reply with every field of the result; every other reply rejects with the error's message, with a response carrying its non-2xx status, that status's text, the reply headers and its JSON body; a reply never sent rejects without a response |
| EndToEnd.DirectOutcome | client/src/components/HTTPClient.js:118 | the direct call resolves exactly for 2xx, as axios does, with the status line, the headers and the body parsed as JSON or kept as text; a rejection carries that same reply and the error's message |
| EndToEnd.ProxiedMatchesDirect | client/src/components/HTTPClient.js:86-175 | the proxied and the direct send show the same envelope and status for a target answer, provided an error status has a status text and a truthy body (not empty text, `0`, `false` or null) |
| EndToEnd.EmptyErrorBodyDiffers | client/src/components/HTTPClient.js:172 | a 404 with an empty body shows `""` when proxied and `{error: message}` when direct |
| EndToEnd.ProxyFailuresShownAsProxyErrors | client/src/components/HTTPClient.js:157-165 | the proxy's invalid-URL and failure replies are read as proxy errors; the envelope shows the proxy's status and body |
| EndToEnd.DnsFailureAtTheClient | server/index.js:106-108 | a DNS failure shows status 0 at the client as written (on Express 4, where the thrown error sends nothing), and 500 with DNS_ERROR when corrected |

## Left out

- Network transport is not modelled: axios, node-fetch, their timeouts (30 s and 15 s), redirect following and compression. Each call's outcome is an input.
- JSON and URL parsing are parameters, not implementations. Any function may be passed in. `ReloadRestores` and `DeleteRequest` name the faithful-codec assumption they need.
- Clock, ids and timestamps are parameters. Id uniqueness is not claimed: ids from the millisecond clock can collide, and mock ids of `length + 1` can collide after a delete.
- Persistence: `localStorage` is a map field. The mongoose `RequestLog` save, its schema validation and the `/api/history` endpoints are left out. `HandleRequest` builds the log record but does not store it.
- Console logging and `server/middleware/logger.js` are left out.
- The user interface is left out: JSX, styles, DOM class toggling, `exportHistory` (DOM and data URI) and `formatJson`.
- The trivial and timer-based mock routes are left out: `/test`, `GET /users`, `GET /posts`, `/data`, `/slow` and `/echo`.
- Case mapping is ASCII only. JavaScript's `toUpperCase` and `toLowerCase` are Unicode-aware, so in JavaScript a method text such as "poſt" upper-cases to "POST" but does not lower-case to "post".
- Client.Preset: only the four own names are presets. In the source, a name such as "constructor" finds an inherited member of the lookup object. The interface only offers the four names.
- HistoryView.AverageTime: the rounding is on integers, as `(2·total + count) div (2·count)`. This is `Math.round` of the exact quotient. The floating-point error for very large totals is not modelled.
- MockApi.ParseInt: results are exact integers. The loss of precision beyond 2^53 and the value −0 are not modelled.
- The mock request bodies hold string fields (`Option<string>`) and an integer author id. A truthy value of another JSON type, such as a numeric name, is not modelled.
- ProxyServer.HandleExternal and ProxyServer.HandleRequest: two inputs are not modelled:
  - a `method` that is present but not a string;
  - an absent request body.
  In the source, both throw inside the handler.
- ProxyServer.FailureReplyAsWritten: the model records that the handler throws. What Express and Node then do with the rejected promise is not modelled. The client's side, a rejection without a response when its own timeout fires, assumes Express 4, which does not catch a rejected async handler. Under Node 15 or later that unhandled rejection also ends the server process, so later requests fail too, which is not modelled. Express 5 would instead send a 500 HTML page, which the client would show with status 500 and no `errorType`.
- Response headers are taken as a string map. Their case-normalisation by `Object.fromEntries(response.headers.entries())` is not modelled.
- Common.Json: numbers are integers. A fractional JSON number such as 1.5 is not representable, and neither are response times measured in fractions of a millisecond.
- React state batching and async interleaving are not modelled. One send runs to completion at a time.

## Findings

| source | as written | input that shows it | evidently intended | confidence | as-written member | corrected member |
|---|---|---|---|---|---|---|
| server/index.js:106-108 | the catch block of `/api/external` computes the response time from `startTime`, which is declared with `const` inside the `try` block (line 36) and is out of scope in the `catch`; the block throws a ReferenceError before sending anything | a fetch failing with code ENOTFOUND (any unreachable host) | a 500 reply with the classified error (DNS_ERROR here), its message, the URL, the response time and the timestamp | high, by the scoping rules of `const`; not executed | ProxyServer.FailureReplyAsWritten | ProxyServer.FailureReply |
| server/routes/mockRouter.js:197-199 | `/status/:code` rejects `statusCode < 100 \|\| statusCode > 599`; for a code that parses to NaN both comparisons are false, so NaN reaches `res.status` | GET `/api/mock/status/abc` | 400 `{error: 'Invalid status code'}`, as for any other invalid code | high; not executed | MockApi.StatusRouteAsWritten | MockApi.StatusRoute |

The end-to-end consequence of the first finding is stated in `EndToEnd.DnsFailureAtTheClient`: as written, and on Express 4, the client shows a network error with status 0. `ProxyServer.HandleExternal` is the handler as written, and `ProxyServer.HandleExternalCorrected` the one with the corrected catch block. The second finding is exhibited on the input "abc" by `MockApi.NaNStatusSlipsThrough`.
