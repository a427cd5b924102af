/** `make_api_request` (main.py:238-302): attach a token, send, refresh and
    resend once on a first 401, classify the final response, parse its body. */
module RequestExecutor {
  import opened Wrappers
  import opened JsonValues
  import opened Errors
  import opened StatusClassifier
  import opened Credentials
  import opened TokenCache

  const BaseUrl: string := "https://sheets.googleapis.com"

  /** A header value: a caller-supplied string, or f"Bearer {token}" for a
      token taken from the cache. */
  datatype HeaderValue = Literal(s: string) | Bearer(token: Json)

  type Headers = map<string, HeaderValue>

  /** The arguments of `make_api_request`. */
  datatype Call = Call(
    verb: string,
    endpoint: string,
    headers: Option<Headers>,
    params: Option<map<string, Json>>,
    json: Option<Json>,
    data: Option<Json>,
    retryAuth: bool)

  /** One request handed to the HTTP client. */
  datatype ApiRequest = ApiRequest(
    verb: string,
    url: string,
    headers: Headers,
    params: Option<map<string, Json>>,
    json: Option<Json>,
    data: Option<Json>,
    timeout: nat)

  /** What the HTTP client produces for one request. */
  datatype Outcome =
    | Reply(response: Response)
    | TimedOut
    | ConnectionFailed
    | RequestFailed(detail: string)

  /** The target service, scripted: its outcome for the k-th request ever sent. */
  type Transport = nat -> Outcome

  /** main.py:251: a token is fetched unless the caller's headers already
      hold "Authorization". */
  predicate NeedsToken(headers: Option<Headers>) {
    headers.None? || "Authorization" !in headers.value
  }

  /** The handlers of main.py:297-302: a transport failure is always the base
      error, without status and without attached data. */
  function TransportError(o: Outcome): (e: ApiError)
    requires !o.Reply?
    ensures e.kind == ApiBase && e.status == None && e.payload == JNull
  {
    match o
    case TimedOut => Plain(ApiBase, "Request timeout - Google Sheets API did not respond in time")
    case ConnectionFailed => Plain(ApiBase, "Connection error - Unable to reach Google Sheets API")
    case RequestFailed(detail) => Plain(ApiBase, "Request failed: " + detail)
  }

  /** main.py:288-293: the value returned for a successful response. */
  function ParseBody(r: Response): (v: Json)
    ensures r.text == "" ==> v == JNull
    ensures r.text != "" && r.json.Ok? ==> v == r.json.value
    ensures r.text != "" && r.json.Err? ==> v == JObj(map["content" := JStr(r.text)])
  {
    if r.text == "" then JNull
    else if r.json.Ok? then r.json.value
    else JObj(map["content" := JStr(r.text)])
  }

  /** The end of the `try` block for the final outcome: a transport failure,
      a classified error, or the parsed body. */
  function Conclude(o: Outcome): (res: Result<Json, ApiError>)
    ensures !o.Reply? ==> res == Err(TransportError(o))
    ensures o.Reply? ==> (res.Ok? <==> IsOk(o.response.status))
    ensures o.Reply? && res.Ok? ==> res.value == ParseBody(o.response)
    ensures o.Reply? && res.Err? ==> res.error.status == Some(o.response.status)
    ensures o.Reply? && res.Err? ==> res.error == RaiseForStatus(o.response).value
  {
    if !o.Reply? then Err(TransportError(o))
    else
      match RaiseForStatus(o.response)
      case Some(e) => Err(e)
      case None => Ok(ParseBody(o.response))
  }

  /** The state after one call of `make_api_request`: the cache, every
      request sent so far, and the outcome. */
  datatype Exchange = Exchange(tokens: TokenState, sent: seq<ApiRequest>, result: Result<Json, ApiError>)

  /** main.py:251-256: the headers the first request carries, after a
      token lookup when one is needed. */
  function Authorize(ts: TokenState, env: Env, broker: Broker, headers: Option<Headers>): (out: (TokenState, Result<Headers, ApiError>))
    ensures !NeedsToken(headers) ==> out == (ts, Ok(headers.value))
    ensures NeedsToken(headers) ==> out.0 == Lookup(ts, env, broker).0
    ensures NeedsToken(headers) ==> (out.1.Err? <==> Lookup(ts, env, broker).1.Err?)
    ensures NeedsToken(headers) && out.1.Err? ==> out.1.error == Lookup(ts, env, broker).1.error
    ensures NeedsToken(headers) && out.1.Ok? ==>
      && out.1.value.Keys == (if headers.Some? then headers.value.Keys else {}) + {"Authorization", "Content-Type"}
      && out.1.value["Authorization"] == Bearer(Lookup(ts, env, broker).1.value)
      && out.1.value["Content-Type"] == Literal("application/json")
      && (forall k :: headers.Some? && k in headers.value && k !in {"Authorization", "Content-Type"} ==>
            out.1.value[k] == headers.value[k])
  {
    if NeedsToken(headers) then
      var (ts1, token) := Lookup(ts, env, broker);
      if token.Err? then (ts1, Err(token.error))
      else
        var base := if headers.Some? then headers.value else map[];
        (ts1, Ok(base["Authorization" := Bearer(token.value)]["Content-Type" := Literal("application/json")]))
    else (ts, Ok(headers.value))
  }

  /** main.py:258-285 once the first request is built: send it, refresh and
      resend once on a 401 when `retry_auth` holds, then conclude. */
  function Transmit(ts: TokenState, sent: seq<ApiRequest>, env: Env, broker: Broker, transport: Transport,
                    first: ApiRequest, retryAuth: bool): (x: Exchange)
    ensures |sent| < |x.sent| <= |sent| + 2 && x.sent[..|sent| + 1] == sent + [first]
    ensures !(retryAuth && transport(|sent|).Reply? && transport(|sent|).response.status == 401) ==>
      x == Exchange(ts, sent + [first], Conclude(transport(|sent|)))
    ensures retryAuth && transport(|sent|).Reply? && transport(|sent|).response.status == 401 ==>
      x.tokens == Refresh(ts, env, broker).0
  {
    var o1 := transport(|sent|);
    if o1.Reply? && o1.response.status == 401 && retryAuth then Retry(ts, sent + [first], env, broker, transport, first)
    else Exchange(ts, sent + [first], Conclude(o1))
  }

  /** main.py:271-282: refresh the token and resend `first` with it. */
  function Retry(ts: TokenState, sent: seq<ApiRequest>, env: Env, broker: Broker, transport: Transport,
                 first: ApiRequest): (x: Exchange)
    ensures x.tokens == Refresh(ts, env, broker).0
    ensures sent <= x.sent && |x.sent| <= |sent| + 1
    ensures |x.sent| == |sent| + 1 <==> Refresh(ts, env, broker).1.Ok?
    ensures |x.sent| == |sent| ==> x.result == Err(Refresh(ts, env, broker).1.error)
    ensures |x.sent| == |sent| + 1 ==>
      && x.sent[|sent|] == first.(headers := first.headers["Authorization" := Bearer(x.tokens.slot)])
      && x.result == Conclude(transport(|sent|))
  {
    var (ts2, token) := Refresh(ts, env, broker);
    if token.Err? then Exchange(ts2, sent, Err(token.error))
    else
      var second := first.(headers := first.headers["Authorization" := Bearer(token.value)]);
      Exchange(ts2, sent + [second], Conclude(transport(|sent|)))
  }

  /** `make_api_request` as a function of the cache state, the requests sent
      before, the two scripted peers and the arguments. */
  function Execute(ts: TokenState, sent: seq<ApiRequest>, env: Env, broker: Broker, transport: Transport, call: Call): (x: Exchange)
    ensures ts.providerCalls <= x.tokens.providerCalls <= ts.providerCalls + 2
    ensures ts.brokerLog <= x.tokens.brokerLog && |x.tokens.brokerLog| <= |ts.brokerLog| + 2
    ensures sent <= x.sent
    ensures forall i :: |sent| <= i < |x.sent| ==>
      var req := x.sent[i];
      && req.verb == call.verb && req.url == BaseUrl + call.endpoint && req.timeout == 30
      && req.params == call.params && req.json == call.json && req.data == call.data
  {
    var (ts1, headers) := Authorize(ts, env, broker, call.headers);
    if headers.Err? then Exchange(ts1, sent, Err(headers.error))
    else
      var first := ApiRequest(call.verb, BaseUrl + call.endpoint, headers.value, call.params, call.json, call.data, 30);
      Transmit(ts1, sent, env, broker, transport, first, call.retryAuth)
  }

  /** At most two requests are sent, appended to those sent before. */
  lemma AtMostTwoRequests(ts: TokenState, sent: seq<ApiRequest>, env: Env, broker: Broker, transport: Transport, call: Call)
    ensures var x := Execute(ts, sent, env, broker, transport, call);
      sent <= x.sent && |x.sent| <= |sent| + 2
  {
  }

  /** A second request is sent exactly when the first outcome is a 401,
      `retry_auth` holds and the refresh succeeds; it carries the freshly
      refreshed token, which is then in the cache, and the refresh cost
      exactly one more provider call. */
  lemma RetryOnlyAfterFirst401(ts: TokenState, sent: seq<ApiRequest>, env: Env, broker: Broker, transport: Transport, call: Call)
    ensures var x := Execute(ts, sent, env, broker, transport, call);
      |x.sent| == |sent| + 2 <==>
        && call.retryAuth
        && transport(|sent|).Reply? && transport(|sent|).response.status == 401
        && Truthy(x.tokens.slot)
    ensures var x := Execute(ts, sent, env, broker, transport, call);
      |x.sent| == |sent| + 2 ==>
        && x.sent[|sent| + 1].headers["Authorization"] == Bearer(x.tokens.slot)
        && x.sent[|sent| + 1] == x.sent[|sent|].(headers := x.sent[|sent|].headers["Authorization" := Bearer(x.tokens.slot)])
        && x.result == Conclude(transport(|sent| + 1))
  {
  }

  /** A 401 on the retry surfaces as an authentication failure carrying that
      status, and no third request is made; so does a first 401 when
      `retry_auth` is off. */
  lemma SecondUnauthorizedIsFinal(ts: TokenState, sent: seq<ApiRequest>, env: Env, broker: Broker, transport: Transport, call: Call)
    requires transport(|sent|).Reply? && transport(|sent|).response.status == 401
    requires transport(|sent| + 1).Reply? && transport(|sent| + 1).response.status == 401
    ensures var x := Execute(ts, sent, env, broker, transport, call);
      && x.result.Err?
      && (|x.sent| == |sent| + 2 || (|x.sent| == |sent| + 1 && !call.retryAuth) ==>
            x.result.error.kind == Authentication && x.result.error.status == Some(401))
  {
    var x := Execute(ts, sent, env, broker, transport, call);
    if |x.sent| == |sent| + 1 {
      StatusKinds(transport(|sent|).response);
    } else if |x.sent| == |sent| + 2 {
      StatusKinds(transport(|sent| + 1).response);
    }
  }

  /** Caller-supplied "Authorization" skips the token fetch: the first
      request carries exactly the caller's headers, and unless a retry is
      triggered the cache is untouched. */
  lemma CallerAuthorizationSkipsFetch(ts: TokenState, sent: seq<ApiRequest>, env: Env, broker: Broker, transport: Transport, call: Call)
    requires !NeedsToken(call.headers)
    ensures var x := Execute(ts, sent, env, broker, transport, call);
      && |x.sent| > |sent|
      && x.sent[|sent|].headers == call.headers.value
      && (!(call.retryAuth && transport(|sent|).Reply? && transport(|sent|).response.status == 401) ==>
            x.tokens == ts && x.result == Conclude(transport(|sent|)))
  {
  }

  /** Without caller authorization the first request carries the cached or
      fetched token and a JSON content type; a failed token fetch sends
      nothing and reports the cache's error. */
  lemma TokenAttached(ts: TokenState, sent: seq<ApiRequest>, env: Env, broker: Broker, transport: Transport, call: Call)
    requires NeedsToken(call.headers)
    ensures var (ts1, token) := Lookup(ts, env, broker);
      var x := Execute(ts, sent, env, broker, transport, call);
      && (token.Err? ==> x == Exchange(ts1, sent, Err(token.error)))
      && (token.Ok? ==>
            && x.sent[|sent|].headers["Authorization"] == Bearer(token.value)
            && x.sent[|sent|].headers["Content-Type"] == Literal("application/json"))
  {
  }

  /** The three ways a call ends: the token lookup fails and nothing is
      sent; one request is sent and its outcome concluded, or a first 401
      was followed by a failed refresh; two requests are sent and the second
      outcome concluded. */
  lemma ExecuteEndings(ts: TokenState, sent: seq<ApiRequest>, env: Env, broker: Broker, transport: Transport, call: Call)
    ensures var x := Execute(ts, sent, env, broker, transport, call);
      || (x.sent == sent && x.result.Err?)
      || (|x.sent| == |sent| + 1 &&
            (x.result == Conclude(transport(|sent|)) ||
             (call.retryAuth && transport(|sent|).Reply? && transport(|sent|).response.status == 401 && x.result.Err?)))
      || (|x.sent| == |sent| + 2 && x.result == Conclude(transport(|sent| + 1)))
  {
  }

  /** A transport failure on the first request ends the call there: no
      retry follows, and the outcome is the base error, never an
      authentication or status-derived one. */
  lemma TransportFailureIsBase(ts: TokenState, sent: seq<ApiRequest>, env: Env, broker: Broker, transport: Transport, call: Call)
    requires !transport(|sent|).Reply?
    ensures var x := Execute(ts, sent, env, broker, transport, call);
      && |x.sent| <= |sent| + 1
      && (|x.sent| == |sent| + 1 ==> x.result == Err(TransportError(transport(|sent|))))
  {
  }

  /** A successful call returns the parsed body of the final response, whose
      status is not 4xx or 5xx. */
  lemma SuccessReturnsParsedBody(ts: TokenState, sent: seq<ApiRequest>, env: Env, broker: Broker, transport: Transport, call: Call)
    ensures var x := Execute(ts, sent, env, broker, transport, call);
      x.result.Ok? ==>
        && |x.sent| > |sent|
        && transport(|x.sent| - 1).Reply?
        && IsOk(transport(|x.sent| - 1).response.status)
        && x.result.value == ParseBody(transport(|x.sent| - 1).response)
  {
  }

  /** The broker's successful answer carrying `token`. */
  function TokenReply(token: string): BrokerOutcome {
    BrokerReply(200, "", Ok(JObj(map["credentials" := JObj(map["access_token" := JStr(token)])])))
  }

  /** 401 then 200 from an empty cache: the call succeeds, two requests are
      sent, and the provider is called exactly twice (the initial fetch and
      the refresh). */
  lemma RefreshThenSucceed(env: Env, broker: Broker, token: string, transport: Transport, call: Call)
    requires MissingVars(env) == [] && token != ""
    requires broker(0) == TokenReply(token) && broker(1) == TokenReply(token)
    requires call.headers.None? && call.retryAuth
    requires transport(0).Reply? && transport(0).response.status == 401
    requires transport(1).Reply? && transport(1).response.status == 200
    ensures var x := Execute(TokenState(JNull, 0, []), [], env, broker, transport, call);
      && x.result.Ok?
      && |x.sent| == 2
      && x.tokens.providerCalls == 2
      && x.tokens.slot == JStr(token)
  {
    assert broker(0) == broker(|TokenState(JNull, 0, []).brokerLog|);
    var ts1 := Lookup(TokenState(JNull, 0, []), env, broker).0;
    assert broker(1) == broker(|ts1.brokerLog|);
  }

  /** With a token already cached and a first response other than 401, the
      provider is not called at all. */
  lemma CachedTokenNoProviderCall(ts: TokenState, sent: seq<ApiRequest>, env: Env, broker: Broker, transport: Transport, call: Call)
    requires ts.slot != JNull
    requires !(transport(|sent|).Reply? && transport(|sent|).response.status == 401)
    ensures var x := Execute(ts, sent, env, broker, transport, call);
      x.tokens == ts && |x.sent| == |sent| + 1
  {
  }

  /** The executor object: the cache it shares with every call, the
      requests it has sent, and the service it talks to. */
  class Executor {
    const cache: Cache
    var sent: seq<ApiRequest>
    const transport: Transport

    constructor (cache: Cache, transport: Transport)
      ensures this.cache == cache && this.transport == transport && sent == []
    {
      this.cache := cache;
      this.transport := transport;
      sent := [];
    }

    /** Hands one request to the HTTP client. */
    method Send(request: ApiRequest) returns (o: Outcome)
      modifies this
      ensures sent == old(sent) + [request]
      ensures o == transport(|old(sent)|)
    {
      o := transport(|sent|);
      sent := sent + [request];
    }

    /** main.py:251-256: the headers of the first request. */
    method AttachToken(headers: Option<Headers>) returns (h: Result<Headers, ApiError>)
      modifies cache
      ensures (cache.State(), h) == Authorize(old(cache.State()), cache.env, cache.broker, headers)
    {
      if headers.None? || "Authorization" !in headers.value {
        var token := cache.GetAccessToken();
        if token.Err? {
          return Err(token.error);
        }
        var base := if headers.Some? then headers.value else map[];
        base := base["Authorization" := Bearer(token.value)];
        base := base["Content-Type" := Literal("application/json")];
        h := Ok(base);
      } else {
        h := Ok(headers.value);
      }
    }

    /** main.py:258-285: send, refresh and resend once on a first 401, conclude. */
    method SendWithRetry(request: ApiRequest, retryAuth: bool) returns (r: Result<Json, ApiError>)
      modifies this, cache
      ensures Exchange(cache.State(), sent, r) ==
        Transmit(old(cache.State()), old(sent), cache.env, cache.broker, transport, request, retryAuth)
    {
      var response := Send(request);
      if response.Reply? && response.response.status == 401 && retryAuth {
        r := ResendWithFreshToken(request);
      } else {
        r := Conclude(response);
      }
    }

    /** main.py:271-282: refresh the token, resend with it, conclude. */
    method ResendWithFreshToken(request: ApiRequest) returns (r: Result<Json, ApiError>)
      modifies this, cache
      ensures Exchange(cache.State(), sent, r) ==
        Retry(old(cache.State()), old(sent), cache.env, cache.broker, transport, request)
    {
      var token := cache.RefreshAccessToken();
      if token.Err? {
        return Err(token.error);
      }
      var response := Send(request.(headers := request.headers["Authorization" := Bearer(token.value)]));
      r := Conclude(response);
    }

    /** `make_api_request(...)` (main.py:238-302). */
    method MakeApiRequest(verb: string, endpoint: string, headers: Option<Headers>,
                          params: Option<map<string, Json>>, json: Option<Json>, data: Option<Json>,
                          retryAuth: bool)
      returns (r: Result<Json, ApiError>)
      modifies this, cache
      ensures Exchange(cache.State(), sent, r) ==
        Execute(old(cache.State()), old(sent), cache.env, cache.broker, transport,
                Call(verb, endpoint, headers, params, json, data, retryAuth))
    {
      var h := AttachToken(headers);
      if h.Err? {
        return Err(h.error);
      }
      r := SendWithRetry(ApiRequest(verb, BaseUrl + endpoint, h.value, params, json, data, 30), retryAuth);
    }
  }
}
