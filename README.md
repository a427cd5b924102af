# Authenticated request layer of the Google Sheets MCP server, in Dafny

This project models the part of the Google Sheets API v4 MCP server
(`main.py`) that holds real state and failure handling:

- the exception taxonomy (`GoogleSheetsAPIError` and its five subclasses);
- `_raise_for_status`, which turns an HTTP response into "ok" or one error of
  that taxonomy and chooses its message and attached data;
- `get_connection_credentials`, which checks the four `NANGO_*` settings and
  then asks the Nango token broker for credentials, mapping every broker
  failure to `AuthenticationError`;
- the single-slot token cache (`_cached_access_token`, `get_access_token`,
  `refresh_access_token`);
- `make_api_request`, which attaches a bearer token, sends the request, on a
  first 401 refreshes the token and resends once, then classifies the final
  response and parses its body;
- the local prologue of the sixteen operation wrappers: the required-argument
  and `value_input_option` checks, and the assembly of the method, endpoint,
  query parameters and JSON body, in which an optional argument appears only
  when it is given.

The network is not modelled. The broker and the Sheets service are scripted:
each is a total function from "how many requests were sent to it before" to
the outcome of the next one (a response, a timeout, a connection error, or any
other client failure). JSON decoding is an oracle: a response carries the text
of its body together with what the decoder makes of it. Every request sent is
logged, so the contracts can speak of how many requests went out and what they
carried.

Layout, one module per component:

| file | module | contents |
|---|---|---|
| `wrappers.dfy` | `Wrappers` | `Option`, `Result` (a raised exception is `Err`) |
| `json.dfy` | `JsonValues` | decoded JSON values, Python truthiness, `dict.get` |
| `errors.dfy` | `Errors` | error kinds, error values, decimal rendering of status codes |
| `status.dfy` | `StatusClassifier` | `_raise_for_status` |
| `credentials.dfy` | `Credentials` | configuration check, broker request and outcome mapping, token extraction |
| `token_cache.dfy` | `TokenCache` | the cache as pure state transitions and as the class `Cache` |
| `executor.dfy` | `RequestExecutor` | `make_api_request` as the function `Execute` and as the class `Executor` |
| `operations.dfy` | `Operations` | the wrappers' validation and request assembly |

The stateful parts follow the source's form. `Cache` holds the slot, a count of
provider calls (calls of `get_connection_credentials`) and the broker log.
`Executor` holds the log of requests sent to the service. Their methods are
proved equal to the pure functions `Lookup`, `Refresh` and `Execute`. The
lemmas that state what the source promises are proved about those functions.

Python's `None` and JSON `null` are one value in the source, so the token slot
is a `Json` value in which `JNull` stands for `None`. This keeps the
difference between the `is None` test of main.py:107 and the falsiness test of
main.py:111 visible: an empty token is stored even though the call fails, and
the next lookup returns it without calling the broker
(`TokenCache.FalsyTokenServedLater`, `TokenCache.EmptyTokenExample`).

`response.ok` and `raise_for_status` come from the `requests` library, which
treats exactly the statuses 400 to 599 as failures. The model uses that rule,
so a status of 600 or more counts as success both for the Sheets service and
for the broker. A reading that takes "ok" to mean "below 400" differs from the
code only for those statuses.

## Model

| member | source | states |
|---|---|---|
| `Errors.Decimal` | main.py:220 | the rendering of a status code is a non-empty string of digits without a leading zero |
| `Errors.DecimalRoundTrip` | main.py:235 | reading back the rendered status code gives the status code, so "HTTP <code>" messages carry the code |
| `Errors.DecimalInjective` | main.py:220 | the decimal rendering is injective: distinct status codes render as distinct digit strings |
| `StatusClassifier.KindFor` | main.py:222-235 | 400, 401, 403, 404 and 429 each select their own error class and no other status does; every other status selects the base class |
| `StatusClassifier.PrefixFor` | main.py:222-235 | every message prefix ends in ": "; a status that is neither listed nor 5xx gets a prefix starting "HTTP " |
| `StatusClassifier.FallbackDetail` | main.py:220 | the fallback detail is never empty, and is the raw body text whenever that text is non-empty |
| `StatusClassifier.ErrorDetail` | main.py:216-220 | a body that cannot be decoded attaches nothing; a decoded body is always attached, even when the `.get` chain fails on it |
| `StatusClassifier.RaiseForStatus` | main.py:209-235 | raises exactly for a 4xx or 5xx status; the error carries that status and a message that starts with the status-specific prefix |
| `StatusClassifier.StatusKinds` | main.py:222-235 | 400, 401, 403, 404 and 429 map to Validation, Authentication, Authorization, ResourceNotFound and QuotaExceeded, each kind for its own code only; every other 4xx or 5xx code gives the base error |
| `StatusClassifier.UnlistedStatusPrefix` | main.py:232-235 | 5xx codes get "Server error: "; other unlisted 4xx codes get "HTTP <code>: " with the code readable from it |
| `StatusClassifier.ServiceMessageUsed` | main.py:217-218 | when the body decodes to an object whose "error" object has a "message", that message is the detail and the body is attached |
| `StatusClassifier.RawTextWhenNoServiceMessage` | main.py:218 | a decoded object without an "error" entry, or whose "error" has no "message", gives the raw text as the detail |
| `StatusClassifier.UndecodableBody` | main.py:219-220 | an undecodable body gives the raw text, or "HTTP <code> error" when the text is empty, with nothing attached |
| `StatusClassifier.MalformedErrorDocument` | main.py:216-223 | a body that decodes to a non-dictionary, or whose "error" entry is not a dictionary, gives the fallback detail with the decoded body still attached |
| `StatusClassifier.NotFoundExample` | main.py:228-229 | 404 with `{"error":{"message":"Not found"}}` raises ResourceNotFound "Resource not found: Not found" with status 404 |
| `Credentials.MissingFrom` | main.py:68 | the comprehension keeps exactly the names that are unset or empty, in their listed order |
| `Credentials.MissingVars` | main.py:67-68 | the missing settings are exactly the unset or empty ones among the four, in declaration order, and none are missing only when all four are set |
| `Credentials.Join` | main.py:71 | joining nothing gives ""; the result starts with the first part and its length is the parts' total length plus one separator between each two parts |
| `Credentials.MissingConfigError` | main.py:70-71 | the missing-configuration error is an AuthenticationError without status or data whose single message is "Missing required environment variables: " followed by the missing names joined with ", " |
| `Credentials.JoinContainsParts` | main.py:71 | every name joined with ", " occurs in the joined text |
| `Credentials.JoinPartAt` | main.py:71 | in the joined text, part i starts right after the earlier parts and one separator per earlier part |
| `Credentials.JoinSepAt` | main.py:71 | in the joined text, a separator follows every part but the last; with the length law of `Join` the joined text holds the parts in order with exactly one separator between each two |
| `Credentials.MissingConfigNamesEach` | main.py:67-71 | the missing-configuration AuthenticationError names every missing setting |
| `Credentials.BrokerRequestFor` | main.py:78-86 | the broker request goes to `<base url>/connection/<connection id>` with exactly the parameters `provider_config_key` (the integration id) and `refresh_token=true`, exactly one header carrying the secret key as a bearer token, and a 30 s timeout |
| `Credentials.BrokerResult` | main.py:85-101 | every broker failure becomes AuthenticationError without status or data; success exactly when the reply is not 4xx or 5xx and decodes, returning the decoded body |
| `Credentials.BrokerStatusMessages` | main.py:93-99 | broker 401 gives "Invalid Nango secret key", 404 "Nango connection not found", any other failing status a message with the status and the body |
| `Credentials.Fetch` | main.py:64-101 | missing settings raise the missing-configuration error whatever the broker would say; otherwise the broker outcome decides; every error is an AuthenticationError |
| `Credentials.BrokerRequestsSent` | main.py:67-86 | one call sends no broker request when settings are missing and exactly one otherwise |
| `Credentials.MissingConfigIgnoresBroker` | main.py:67-71 | with settings missing, the outcome does not depend on the broker |
| `Credentials.ExtractToken` | main.py:109 | yields `credentials.access_token` when present, `None` when absent, and an AttributeError exactly when the body or its "credentials" entry is not a dictionary |
| `TokenCache.Store` | main.py:108-112 | the slot receives exactly the extracted `credentials.access_token`; a lookup succeeds exactly when that token is truthy and returns it; an absent (`None`) or other falsy token, which is still stored, fails with the AuthenticationError "No access token found in Nango credentials"; a failed fetch or extraction leaves the slot empty and passes its error on |
| `TokenCache.Lookup` | main.py:103-114 | a filled slot is returned unchanged with no provider call; an empty slot costs exactly one provider call and at most one broker request, and its new content and the result are what `Store` makes of the next broker outcome, so the token served is the broker's |
| `TokenCache.Refresh` | main.py:116-120 | a refresh always makes exactly one provider call, stores what `Store` makes of the next broker outcome, and succeeds exactly when that new token is truthy |
| `TokenCache.RefreshForgetsSlot` | main.py:116-120 | a refresh does not depend on the old slot, and two refreshes in a row are two provider calls |
| `TokenCache.CachedTokenReused` | main.py:107-114 | after a successful lookup, any number of further lookups return the same token with no provider call |
| `TokenCache.FailedFetchLeavesSlotEmpty` | main.py:107-108 | a failing provider call leaves the slot `None`, so the next lookup fetches again |
| `TokenCache.FalsyTokenServedLater` | main.py:107-112 | a falsy non-`None` token fails the first lookup but is returned by the next one without a provider call |
| `TokenCache.EmptyTokenExample` | main.py:109-112 | a broker answering with an empty `access_token` reaches that state |
| `TokenCache.Cache.constructor` | main.py:62 | the process starts with an empty slot and no calls |
| `TokenCache.Cache.FetchCredentials` | main.py:64-101 | counts one provider call, logs the broker request when one is sent, leaves the slot alone, and returns `Fetch` of the next broker outcome |
| `TokenCache.Cache.GetAccessToken` | main.py:103-114 | its new state and result are those of `Lookup` |
| `TokenCache.Cache.RefreshAccessToken` | main.py:116-120 | its new state and result are those of `Refresh` |
| `RequestExecutor.TransportError` | main.py:297-302 | a timeout, connection error or other client failure is the base error, without status or data |
| `RequestExecutor.ParseBody` | main.py:287-295 | an empty body gives `None`, a decodable body its value, any other body `{"content": text}` |
| `RequestExecutor.Conclude` | main.py:284-302 | the final outcome succeeds exactly when it is a response whose status is not 4xx or 5xx, returning its parsed body; a failing response raises exactly the error `_raise_for_status` gives for it (class, message, status and attached data) |
| `RequestExecutor.Authorize` | main.py:250-256 | caller headers holding Authorization are used as given with the cache untouched; otherwise the cache does one lookup, a failed lookup is passed on, and the headers are the caller's plus exactly Authorization (the looked-up bearer token) and a JSON Content-Type, other caller headers kept |
| `RequestExecutor.Transmit` | main.py:258-285 | the first request is always sent and at most one more follows; without a first 401 under `retry_auth` the cache is untouched and the first outcome is concluded; with one the cache is that of a refresh |
| `RequestExecutor.Retry` | main.py:270-282 | the cache is that of a refresh; the resend happens exactly when the refresh succeeds, is the first request with only Authorization replaced by the fresh token, and its outcome is concluded; a failed refresh is passed on |
| `RequestExecutor.Execute` | main.py:238-302 | one call makes at most two provider calls and two broker requests, only appends to the request log, and every request it sends uses the call's method, `https://sheets.googleapis.com` + endpoint, parameters, bodies and a 30 s timeout |
| `RequestExecutor.AtMostTwoRequests` | main.py:258-285 | a call appends at most two requests to those already sent |
| `RequestExecutor.RetryOnlyAfterFirst401` | main.py:269-282 | a second request is sent exactly when the first outcome is a 401, `retry_auth` holds and the refresh yields a truthy token; it is the first request with only its Authorization replaced by that fresh token, and its outcome decides the result |
| `RequestExecutor.SecondUnauthorizedIsFinal` | main.py:269-285 | when the service answers 401 twice the call fails; a 401 on the retry, or a first 401 without `retry_auth`, surfaces as AuthenticationError with status 401 |
| `RequestExecutor.CallerAuthorizationSkipsFetch` | main.py:250-256 | with a caller-supplied Authorization header the first request carries exactly the caller's headers and, unless a retry happens, the cache is untouched |
| `RequestExecutor.TokenAttached` | main.py:250-256 | otherwise the first request carries the looked-up bearer token and a JSON content type, and a failed lookup sends nothing |
| `RequestExecutor.ExecuteEndings` | main.py:250-302 | a call ends with nothing sent and an error, with one request, or with two requests and the second outcome concluded |
| `RequestExecutor.TransportFailureIsBase` | main.py:258-302 | a timeout, connection error or other client failure on the first request ends the call with no retry and with the base error, never an authentication or status error |
| `RequestExecutor.SuccessReturnsParsedBody` | main.py:284-295 | a successful call returns the parsed body of a last response whose status is not 4xx or 5xx |
| `RequestExecutor.RefreshThenSucceed` | main.py:258-285 | from an empty cache, a 401 followed by 200 succeeds with two requests and exactly two provider calls |
| `RequestExecutor.CachedTokenNoProviderCall` | main.py:251-267 | with a cached token and a first response other than 401, the cache is untouched and one request is sent |
| `RequestExecutor.Executor.Send` | main.py:259-267 | logs the request and returns the service's next outcome |
| `RequestExecutor.Executor.AttachToken` | main.py:250-256 | its effect on the cache and the headers it builds are those of `Authorize` |
| `RequestExecutor.Executor.ResendWithFreshToken` | main.py:270-282 | its effect is that of `Retry`: refresh, resend with the new token, conclude |
| `RequestExecutor.Executor.SendWithRetry` | main.py:258-285 | its effect is that of `Transmit`: send, retry once on a first 401 under `retry_auth`, conclude |
| `RequestExecutor.Executor.MakeApiRequest` | main.py:238-302 | its new cache state, request log and result are those of `Execute` |
| `Operations.SpreadsheetsCreate` | main.py:306-329 | an omitted title becomes "Untitled spreadsheet" and is accepted; an empty title is rejected; otherwise a POST whose properties hold the title and exactly the given truthy optional fields, and "sheets" only when non-empty |
| `Operations.SpreadsheetsGet` | main.py:333-352 | an empty id is rejected; otherwise a GET whose parameters hold exactly the non-empty ranges, the non-`None` grid flag and the non-empty fields |
| `Operations.SpreadsheetsBatchUpdate` | main.py:356-378 | id then requests are checked in order; the body holds the requests and exactly the given optional entries |
| `Operations.SpreadsheetsGetByDataFilter` | main.py:382-398 | id then filters are checked in order; the body holds the filters and the grid flag only when given |
| `Operations.ValuesGet` | main.py:403-425 | id then range are checked in order; the parameters hold exactly the truthy optional options |
| `Operations.ValuesUpdate` | main.py:429-462 | id, range, values, then `value_input_option` in {RAW, USER_ENTERED} are checked in order; a PUT whose parameters and body hold exactly the mandatory and the given optional entries; an omitted `value_input_option` is "USER_ENTERED" and passes the option check |
| `Operations.ValuesAppend` | main.py:465-501 | the same checks in the same order; a POST to `:append` with the input option, the optional entries and the values; an omitted `value_input_option` is "USER_ENTERED" and passes the option check |
| `Operations.ValuesClear` | main.py:504-515 | id then range are checked; a POST to `:clear` with an empty body |
| `Operations.ValuesBatchGet` | main.py:518-540 | id then ranges are checked; the parameters hold the ranges and exactly the truthy optional options |
| `Operations.ValuesBatchUpdate` | main.py:544-572 | id, data, then the input option are checked in order; the body holds data, the option and exactly the given optional entries; an omitted `value_input_option` is "USER_ENTERED" and passes the option check |
| `Operations.ValuesBatchClear` | main.py:576-589 | id then ranges are checked; a POST to `values:batchClear` with the ranges |
| `Operations.ValuesBatchGetByDataFilter` | main.py:593-615 | id then filters are checked; the body holds the filters and exactly the truthy optional options |
| `Operations.ValuesBatchUpdateByDataFilter` | main.py:618-646 | id, data, then the input option are checked in order; the body is that of the batch update; an omitted `value_input_option` is "USER_ENTERED" and passes the option check |
| `Operations.ValuesBatchClearByDataFilter` | main.py:649-662 | id then filters are checked; a POST with the filters |
| `Operations.DeveloperMetadataGet` | main.py:666-677 | an empty id, then a metadata id of 0, are rejected; otherwise a GET on `developerMetadata/<id>` with no parameters or body |
| `Operations.DeveloperMetadataSearch` | main.py:681-694 | id then filters are checked; a POST to `developerMetadata:search` with the filters |
| `Operations.WithDefault` | main.py:307 | an omitted argument takes its declared default, and a given one, even a falsy one, is kept |
| `Operations.Dispatch` | main.py:460-462 | a validation error is raised with no request sent and the cache untouched; otherwise the call is `make_api_request` with default headers and `retry_auth` |

## Left out

- Real HTTP through `requests`, the 30 s timeouts as elapsed time, `load_dotenv` and reads of `os.environ`: the environment is a parameter of the cache, and both peers are scripted outcomes.
- JSON decoding: it is an oracle carried by each response. Numbers are integers only, and floats are not modelled.
- `str()` of a decoded value that is not a string (an `error.message` that is a number or an object) is kept symbolic as `Shown(v)`, not rendered as Python would.
- The `Exception` handler of main.py:100-101 is modelled only for what can reach it here: decoding failures and client failures other than timeouts and connection errors, each with its message as a given string.
- `RequestExecutor.Executor.MakeApiRequest`: the caller's `headers` dict is updated in place in Python. The model builds a new map, so the caller does not see the added headers. The requests sent record exactly what the source would send.
- Pydantic response models (main.py:123-207) and the construction `Spreadsheet(**response_data)` after each call. This includes the `TypeError` that an empty body (`None`) would cause there.
- FastMCP tool registration and `mcp.run()`, `get_server_info`, `test_connection`, `refresh_nango_token`, `main()` and logging: these are dispatch, reporting and start-up code.
- Concurrency: the source has none around the token cache, and the model is sequential.
- The Sheets service's own semantics, such as reading back what was written: that is server behaviour.
