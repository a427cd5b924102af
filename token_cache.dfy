/** The single-slot token cache: the global `_cached_access_token`
    (main.py:62), `get_access_token` (main.py:103-114) and
    `refresh_access_token` (main.py:116-120). */
module TokenCache {
  import opened Wrappers
  import opened JsonValues
  import opened Errors
  import opened Credentials

  /** The broker, scripted: its reply to the k-th request ever sent to it. */
  type Broker = nat -> BrokerOutcome

  /** What the cache layer changes: the slot (`JNull` is `None`), how many
      times `get_connection_credentials` has been called, and the requests
      sent to the broker so far. */
  datatype TokenState = TokenState(slot: Json, providerCalls: nat, brokerLog: seq<BrokerRequest>)

  const NoTokenError: ApiError := Plain(Authentication, "No access token found in Nango credentials")

  /** main.py:108-112 once the provider has answered: the new content of the
      slot and the outcome. The slot is tested for absence with `is None` but
      the extracted token for falsiness, so a falsy token such as "" is
      stored although the call fails. */
  function Store(fetched: Result<Json, ApiError>): (out: (Json, Result<Json, ApiError>))
    ensures out.1.Ok? <==> Truthy(out.0)
    ensures out.1.Ok? ==> out.1.value == out.0
    ensures fetched.Err? ==> out == (JNull, Err(fetched.error))
    ensures fetched.Ok? && out.1.Err? ==> out.1.error.kind == AttributeFault || out.1.error == NoTokenError
    ensures fetched.Ok? && ExtractToken(fetched.value).Ok? ==> out.0 == ExtractToken(fetched.value).value
    ensures fetched.Ok? && ExtractToken(fetched.value).Err? ==> out == (JNull, Err(ExtractToken(fetched.value).error))
    ensures fetched.Ok? && ExtractToken(fetched.value).Ok? && !Truthy(ExtractToken(fetched.value).value) ==>
      out.1 == Err(NoTokenError)
  {
    match fetched
    case Err(e) => (JNull, Err(e))
    case Ok(body) =>
      match ExtractToken(body)
      case Err(e) => (JNull, Err(e))
      case Ok(token) => (token, if Truthy(token) then Ok(token) else Err(NoTokenError))
  }

  /** `get_access_token()` on a cache in state `ts`. */
  function Lookup(ts: TokenState, env: Env, broker: Broker): (out: (TokenState, Result<Json, ApiError>))
    ensures ts.slot != JNull ==> out == (ts, Ok(ts.slot))
    ensures ts.slot == JNull ==> out.0.providerCalls == ts.providerCalls + 1
    ensures ts.slot == JNull ==> out.0.brokerLog == ts.brokerLog + BrokerRequestsSent(env)
    ensures ts.slot == JNull ==> (out.1.Ok? <==> Truthy(out.0.slot))
    ensures ts.slot == JNull ==> (out.0.slot, out.1) == Store(Fetch(env, broker(|ts.brokerLog|)))
    ensures out.1.Ok? ==> out.1.value == out.0.slot && out.0.slot != JNull
    ensures out.1.Err? ==> out.1.error.kind in {Authentication, AttributeFault}
  {
    if ts.slot != JNull then (ts, Ok(ts.slot))
    else
      var (slot', r) := Store(Fetch(env, broker(|ts.brokerLog|)));
      (TokenState(slot', ts.providerCalls + 1, ts.brokerLog + BrokerRequestsSent(env)), r)
  }

  /** `refresh_access_token()`: clear the slot, then look up. */
  function Refresh(ts: TokenState, env: Env, broker: Broker): (out: (TokenState, Result<Json, ApiError>))
    ensures out.0.providerCalls == ts.providerCalls + 1
    ensures out.0.brokerLog == ts.brokerLog + BrokerRequestsSent(env)
    ensures out.1.Ok? <==> Truthy(out.0.slot)
    ensures out.1.Ok? ==> out.1.value == out.0.slot
    ensures (out.0.slot, out.1) == Store(Fetch(env, broker(|ts.brokerLog|)))
  {
    Lookup(ts.(slot := JNull), env, broker)
  }

  /** A refresh does not depend on what the slot held: clearing an already
      empty slot is harmless, so refreshing twice in a row is just two
      provider calls. */
  lemma RefreshForgetsSlot(ts: TokenState, previous: Json, env: Env, broker: Broker)
    ensures Refresh(ts, env, broker) == Refresh(ts.(slot := previous), env, broker)
    ensures Refresh(Refresh(ts, env, broker).0, env, broker).0.providerCalls == ts.providerCalls + 2
  {
  }

  /** Once a lookup has produced a token, later lookups return it without
      calling the provider, however many there are. */
  lemma {:induction false} CachedTokenReused(ts: TokenState, env: Env, broker: Broker, n: nat)
    requires Lookup(ts, env, broker).1.Ok?
    ensures var (ts1, r1) := Lookup(ts, env, broker);
      Repeat(ts1, env, broker, n) == (ts1, r1)
  {
    var (ts1, r1) := Lookup(ts, env, broker);
    if n > 0 {
      CachedTokenReused(ts, env, broker, n - 1);
    }
  }

  /** `n` further calls of `get_access_token()` from a filled slot,
      reporting the state and the last call's outcome (the cached token
      itself when `n` is 0). */
  function Repeat(ts: TokenState, env: Env, broker: Broker, n: nat): (TokenState, Result<Json, ApiError>)
    requires ts.slot != JNull
  {
    if n == 0 then (ts, Ok(ts.slot))
    else
      var (ts1, _) := Lookup(ts, env, broker);
      Repeat(ts1, env, broker, n - 1)
  }

  /** A failed fetch leaves the slot empty, so the next lookup calls the
      provider again. */
  lemma FailedFetchLeavesSlotEmpty(ts: TokenState, env: Env, broker: Broker)
    requires ts.slot == JNull
    requires Fetch(env, broker(|ts.brokerLog|)).Err?
    ensures Lookup(ts, env, broker).0.slot == JNull
    ensures Lookup(ts, env, broker).1 == Err(Fetch(env, broker(|ts.brokerLog|)).error)
  {
  }

  /** A falsy but present token (such as "") fails the first lookup yet stays
      in the slot, and the next lookup returns it without calling the
      provider: `is None` at main.py:107 against falsiness at main.py:111. */
  lemma FalsyTokenServedLater(ts: TokenState, env: Env, broker: Broker)
    requires ts.slot == JNull
    requires var (ts1, _) := Lookup(ts, env, broker); ts1.slot != JNull && !Truthy(ts1.slot)
    ensures var (ts1, r1) := Lookup(ts, env, broker);
      && r1 == Err(NoTokenError)
      && Lookup(ts1, env, broker) == (ts1, Ok(ts1.slot))
  {
  }

  /** Such a state is reachable: a broker answering with an empty
      `access_token`. */
  lemma EmptyTokenExample(env: Env, broker: Broker)
    requires MissingVars(env) == []
    requires broker(0) == BrokerReply(200, "", Ok(JObj(map["credentials" := JObj(map["access_token" := JStr("")])])))
    ensures var (ts1, r1) := Lookup(TokenState(JNull, 0, []), env, broker);
      && r1 == Err(NoTokenError)
      && ts1.slot == JStr("")
      && Lookup(ts1, env, broker) == (ts1, Ok(JStr("")))
  {
  }

  /** The cache object: the global slot of main.py:62 together with the
      provider-call counter and the broker it talks to. */
  class Cache {
    var slot: Json
    var providerCalls: nat
    var brokerLog: seq<BrokerRequest>
    const env: Env
    const broker: Broker

    function State(): TokenState
      reads this
    {
      TokenState(slot, providerCalls, brokerLog)
    }

    /** A fresh process: nothing cached, nothing called. */
    constructor (env: Env, broker: Broker)
      ensures State() == TokenState(JNull, 0, [])
      ensures this.env == env && this.broker == broker
    {
      slot := JNull;
      providerCalls := 0;
      brokerLog := [];
      this.env := env;
      this.broker := broker;
    }

    /** `get_connection_credentials()` (main.py:64-101): the configuration
        check, then at most one broker request. */
    method FetchCredentials() returns (r: Result<Json, ApiError>)
      modifies this
      ensures slot == old(slot)
      ensures providerCalls == old(providerCalls) + 1
      ensures brokerLog == old(brokerLog) + BrokerRequestsSent(env)
      ensures r == Fetch(env, broker(|old(brokerLog)|))
      ensures r.Err? ==> r.error.kind == Authentication
    {
      providerCalls := providerCalls + 1;
      var missing := MissingVars(env);
      if missing != [] {
        return Err(MissingConfigError(missing));
      }
      var reply := broker(|brokerLog|);
      brokerLog := brokerLog + [BrokerRequestFor(env)];
      r := BrokerResult(reply);
    }

    /** `get_access_token()` (main.py:103-114). */
    method GetAccessToken() returns (r: Result<Json, ApiError>)
      modifies this
      ensures (State(), r) == Lookup(old(State()), env, broker)
    {
      if slot == JNull {
        var credentials := FetchCredentials();
        if credentials.Err? {
          return Err(credentials.error);
        }
        var extracted := ExtractToken(credentials.value);
        if extracted.Err? {
          return Err(extracted.error);
        }
        slot := extracted.value;
        if !Truthy(slot) {
          return Err(NoTokenError);
        }
      }
      r := Ok(slot);
    }

    /** `refresh_access_token()` (main.py:116-120). */
    method RefreshAccessToken() returns (r: Result<Json, ApiError>)
      modifies this
      ensures (State(), r) == Refresh(old(State()), env, broker)
    {
      slot := JNull;
      r := GetAccessToken();
    }
  }
}
