/** `get_connection_credentials` (main.py:64-101): the configuration check,
    the request sent to the token broker, and the mapping of the broker's
    outcome to credentials or an `AuthenticationError`. Also the token
    extraction of main.py:109. */
module Credentials {
  import opened Wrappers
  import opened JsonValues
  import opened Errors

  /** The process environment as `os.environ` exposes it. */
  type Env = map<string, string>

  /** The four settings of the connection descriptor, in declaration order (main.py:67). */
  const RequiredVars: seq<string> :=
    ["NANGO_CONNECTION_ID", "NANGO_INTEGRATION_ID", "NANGO_BASE_URL", "NANGO_SECRET_KEY"]

  /** `os.environ.get(name)` is truthy: set and non-empty. */
  predicate IsSet(env: Env, name: string) {
    name in env && env[name] != ""
  }

  /** `os.environ.get(name)` with unset read as the empty string. */
  function Setting(env: Env, name: string): string {
    if name in env then env[name] else ""
  }

  /** `a` can be obtained from `b` by deleting elements: order is kept. */
  predicate IsSubsequence(a: seq<string>, b: seq<string>)
    decreases |b|
  {
    if a == [] then true
    else if b == [] then false
    else if a[0] == b[0] then IsSubsequence(a[1..], b[1..])
    else IsSubsequence(a, b[1..])
  }

  /** The list comprehension of main.py:68 over any list of names: exactly
      the unset names, in the order they are listed. */
  function MissingFrom(env: Env, names: seq<string>): (missing: seq<string>)
    ensures forall v :: v in missing <==> v in names && !IsSet(env, v)
    ensures IsSubsequence(missing, names)
  {
    if names == [] then []
    else
      var rest := MissingFrom(env, names[1..]);
      if IsSet(env, names[0]) then rest else [names[0]] + rest
  }

  /** The missing required settings of main.py:68. */
  function MissingVars(env: Env): (missing: seq<string>)
    ensures forall v :: v in missing <==> v in RequiredVars && !IsSet(env, v)
    ensures IsSubsequence(missing, RequiredVars)
    ensures missing == [] <==> forall v :: v in RequiredVars ==> IsSet(env, v)
  {
    var missing := MissingFrom(env, RequiredVars);
    assert missing != [] ==> missing[0] in missing;
    missing
  }

  /** `', '.join(parts)`. */
  function Join(parts: seq<string>, sep: string): (joined: string)
    ensures parts == [] ==> joined == ""
    ensures parts != [] ==> parts[0] <= joined
    ensures parts != [] ==> |joined| == TotalLength(parts) + (|parts| - 1) * |sep|
    decreases |parts|
  {
    if parts == [] then ""
    else if |parts| == 1 then parts[0]
    else parts[0] + sep + Join(parts[1..], sep)
  }

  /** The combined length of `parts`. */
  function TotalLength(parts: seq<string>): nat {
    if parts == [] then 0 else |parts[0]| + TotalLength(parts[1..])
  }

  /** `a` occurs in `s` at position `k`. */
  predicate OccursAt(a: string, s: string, k: nat) {
    k + |a| <= |s| && s[k..k + |a|] == a
  }

  /** Every joined part can be found in the joined string. */
  lemma {:induction false} JoinContainsParts(parts: seq<string>, sep: string, i: nat)
    requires i < |parts|
    ensures exists k: nat :: OccursAt(parts[i], Join(parts, sep), k)
  {
    var j := Join(parts, sep);
    if |parts| == 1 {
      assert OccursAt(parts[0], j, 0);
    } else if i == 0 {
      assert j == parts[0] + (sep + Join(parts[1..], sep));
      assert j[0..|parts[0]|] == parts[0];
      assert OccursAt(parts[0], j, 0);
    } else {
      var rest := Join(parts[1..], sep);
      JoinContainsParts(parts[1..], sep, i - 1);
      var k: nat :| OccursAt(parts[1..][i - 1], rest, k);
      var off := |parts[0]| + |sep|;
      assert j == (parts[0] + sep) + rest;
      assert j[off + k..off + k + |parts[i]|] == rest[k..k + |parts[i]|];
      assert OccursAt(parts[i], j, off + k);
    }
  }

  /** The length of the first `i` parts, split after the first part. */
  lemma TotalLengthPrefix(parts: seq<string>, i: nat)
    requires 0 < i <= |parts|
    ensures TotalLength(parts[..i]) == |parts[0]| + TotalLength(parts[1..][..i - 1])
  {
    assert parts[..i][1..] == parts[1..][..i - 1];
  }

  /** Part `i` of a joined string starts after the parts before it and one
      separator per earlier part. */
  lemma {:induction false} JoinPartAt(parts: seq<string>, sep: string, i: nat)
    requires i < |parts|
    ensures OccursAt(parts[i], Join(parts, sep), TotalLength(parts[..i]) + i * |sep|)
  {
    var j := Join(parts, sep);
    if i == 0 {
      assert parts[..0] == [];
      if |parts| > 1 {
        assert j == parts[0] + (sep + Join(parts[1..], sep));
      }
      assert j[..|parts[0]|] == parts[0];
    } else {
      var rest := Join(parts[1..], sep);
      JoinPartAt(parts[1..], sep, i - 1);
      TotalLengthPrefix(parts, i);
      var off := |parts[0]| + |sep|;
      var k := TotalLength(parts[1..][..i - 1]) + (i - 1) * |sep|;
      assert TotalLength(parts[..i]) + i * |sep| == off + k;
      assert j == (parts[0] + sep) + rest;
      assert j[off + k..off + k + |parts[i]|] == rest[k..k + |parts[i]|];
    }
  }

  /** A separator follows every part of a joined string but the last. */
  lemma {:induction false} JoinSepAt(parts: seq<string>, sep: string, i: nat)
    requires i + 1 < |parts|
    ensures OccursAt(sep, Join(parts, sep), TotalLength(parts[..i + 1]) + i * |sep|)
  {
    var j := Join(parts, sep);
    var rest := Join(parts[1..], sep);
    assert j == (parts[0] + sep) + rest;
    TotalLengthPrefix(parts, i + 1);
    if i == 0 {
      assert parts[1..][..0] == [];
      assert j[|parts[0]|..|parts[0]| + |sep|] == sep;
    } else {
      JoinSepAt(parts[1..], sep, i - 1);
      var off := |parts[0]| + |sep|;
      var m := TotalLength(parts[1..][..i]) + (i - 1) * |sep|;
      assert TotalLength(parts[..i + 1]) + i * |sep| == off + m;
      assert j[off + m..off + m + |sep|] == rest[m..m + |sep|];
    }
  }

  /** The error raised before any I/O when settings are missing (main.py:70-71). */
  function MissingConfigError(missing: seq<string>): (e: ApiError)
    ensures e.kind == Authentication && e.status == None && e.payload == JNull
    ensures |e.message| == 1 && e.message[0].Lit?
    ensures missing != [] ==> "Missing required environment variables: " + missing[0] <= e.message[0].s
    ensures e.message[0].s == "Missing required environment variables: " + Join(missing, ", ")
  {
    Plain(Authentication, "Missing required environment variables: " + Join(missing, ", "))
  }

  /** An occurrence survives putting a prefix in front. */
  lemma OccursAfterPrefix(a: string, s: string, prefix: string, k: nat)
    requires OccursAt(a, s, k)
    ensures OccursAt(a, prefix + s, |prefix| + k)
  {
    assert (prefix + s)[|prefix| + k..|prefix| + k + |a|] == s[k..k + |a|];
  }

  /** The message of the missing-configuration error names every missing setting. */
  lemma MissingConfigNamesEach(env: Env, v: string)
    requires v in RequiredVars && !IsSet(env, v)
    ensures var e := MissingConfigError(MissingVars(env));
      e.kind == Authentication && exists k: nat :: OccursAt(v, e.message[0].s, k)
  {
    var missing := MissingVars(env);
    var i :| 0 <= i < |missing| && missing[i] == v;
    var joined := Join(missing, ", ");
    JoinContainsParts(missing, ", ", i);
    var k: nat :| OccursAt(v, joined, k);
    var prefix := "Missing required environment variables: ";
    OccursAfterPrefix(v, joined, prefix, k);
    assert MissingConfigError(missing).message[0].s == prefix + joined;
  }

  /** The GET sent to the broker (main.py:78-86). */
  datatype BrokerRequest = BrokerRequest(url: string, params: map<string, string>, headers: map<string, string>, timeout: nat)

  function BrokerRequestFor(env: Env): (req: BrokerRequest)
    ensures req.params.Keys == {"provider_config_key", "refresh_token"} && req.timeout == 30
    ensures req.params["refresh_token"] == "true"
    ensures req.params["provider_config_key"] == Setting(env, "NANGO_INTEGRATION_ID")
    ensures "Authorization" in req.headers
    ensures req.headers["Authorization"] == "Bearer " + Setting(env, "NANGO_SECRET_KEY")
    ensures req.headers.Keys == {"Authorization"}
    ensures req.url == Setting(env, "NANGO_BASE_URL") + "/connection/" + Setting(env, "NANGO_CONNECTION_ID")
  {
    BrokerRequest(
      Setting(env, "NANGO_BASE_URL") + "/connection/" + Setting(env, "NANGO_CONNECTION_ID"),
      map["provider_config_key" := Setting(env, "NANGO_INTEGRATION_ID"), "refresh_token" := "true"],
      map["Authorization" := "Bearer " + Setting(env, "NANGO_SECRET_KEY")],
      30)
  }

  /** What the broker call produces: a response (status, text, decoder
      verdict), a timeout, a connection failure, or any other failure raised
      by the HTTP client, with its `str()`. */
  datatype BrokerOutcome =
    | BrokerReply(status: nat, text: string, json: Result<Json, string>)
    | BrokerTimeout
    | BrokerConnectionError
    | BrokerFailure(detail: string)

  const UnexpectedPrefix := "Unexpected error getting Nango credentials: "

  /** The `try` block and its handlers (main.py:85-101) for one broker
      outcome. `raise_for_status` raises for 4xx and 5xx only; a failure to
      decode a successful body falls to the last handler. */
  function BrokerResult(o: BrokerOutcome): (r: Result<Json, ApiError>)
    ensures r.Err? ==> r.error.kind == Authentication && r.error.status == None && r.error.payload == JNull
    ensures r.Ok? <==> o.BrokerReply? && !(400 <= o.status < 600) && o.json.Ok?
    ensures r.Ok? ==> r.value == o.json.value
  {
    match o
    case BrokerTimeout => Err(Plain(Authentication, "Timeout while connecting to Nango authentication service"))
    case BrokerConnectionError => Err(Plain(Authentication, "Failed to connect to Nango authentication service"))
    case BrokerFailure(detail) => Err(Plain(Authentication, UnexpectedPrefix + detail))
    case BrokerReply(status, text, json) =>
      if 400 <= status < 600 then
        if status == 401 then Err(Plain(Authentication, "Invalid Nango secret key"))
        else if status == 404 then Err(Plain(Authentication, "Nango connection not found"))
        else Err(Plain(Authentication, "Nango API error: " + Decimal(status) + " - " + text))
      else if json.Err? then Err(Plain(Authentication, UnexpectedPrefix + json.error))
      else Ok(json.value)
  }

  /** The status-specific messages of main.py:94-99. */
  lemma BrokerStatusMessages(status: nat, text: string, json: Result<Json, string>)
    requires 400 <= status < 600
    ensures var e := BrokerResult(BrokerReply(status, text, json)).error;
      && (status == 401 ==> e.message == [Lit("Invalid Nango secret key")])
      && (status == 404 ==> e.message == [Lit("Nango connection not found")])
      && (status != 401 && status != 404 ==>
            e.message == [Lit("Nango API error: " + Decimal(status) + " - " + text)])
  {
  }

  /** `get_connection_credentials()` given the broker's outcome to its one
      request. The outcome is only consulted when every setting is present:
      missing settings are reported before any request. */
  function Fetch(env: Env, reply: BrokerOutcome): (r: Result<Json, ApiError>)
    ensures MissingVars(env) != [] ==> r == Err(MissingConfigError(MissingVars(env)))
    ensures MissingVars(env) == [] ==> r == BrokerResult(reply)
    ensures r.Err? ==> r.error.kind == Authentication
  {
    var missing := MissingVars(env);
    if missing != [] then Err(MissingConfigError(missing)) else BrokerResult(reply)
  }

  /** The broker requests one `get_connection_credentials()` call sends:
      none when settings are missing, otherwise exactly one. */
  function BrokerRequestsSent(env: Env): (sent: seq<BrokerRequest>)
    ensures |sent| <= 1
    ensures sent == [] <==> MissingVars(env) != []
  {
    if MissingVars(env) == [] then [BrokerRequestFor(env)] else []
  }

  /** Whether missing settings are reported does not depend on the broker at all. */
  lemma MissingConfigIgnoresBroker(env: Env, a: BrokerOutcome, b: BrokerOutcome)
    requires MissingVars(env) != []
    ensures Fetch(env, a) == Fetch(env, b) && Fetch(env, a).Err?
  {
  }

  /** `credentials.get("credentials", {}).get("access_token")` (main.py:109):
      the extracted token, `JNull` when absent. A body or a "credentials"
      entry that is not a dictionary makes `.get` raise `AttributeError`. */
  function ExtractToken(body: Json): (r: Result<Json, ApiError>)
    ensures r.Err? <==> !body.JObj? || ("credentials" in body.fields && !body.fields["credentials"].JObj?)
    ensures r.Err? ==> r.error.kind == AttributeFault
    ensures r.Ok? && "credentials" in body.fields && "access_token" in body.fields["credentials"].fields ==>
      r.value == body.fields["credentials"].fields["access_token"]
    ensures r.Ok? && ("credentials" !in body.fields || "access_token" !in body.fields["credentials"].fields) ==>
      r.value == JNull
  {
    if !body.JObj? then Err(Plain(AttributeFault, "object has no attribute 'get'"))
    else
      var creds := Get(body.fields, "credentials", EmptyObject);
      if !creds.JObj? then Err(Plain(AttributeFault, "object has no attribute 'get'"))
      else Ok(Get(creds.fields, "access_token", JNull))
  }
}
