/** `_raise_for_status` (main.py:209-235): the classifier from an HTTP
    response to "ok" or one error of the taxonomy. */
module StatusClassifier {
  import opened Wrappers
  import opened JsonValues
  import opened Errors

  /** A response as the request layer reads it: the status code, the body as
      text, and what `response.json()` makes of that text (the decoded value,
      or the decoder's own error message). JSON decoding itself is not
      modelled; `json` is its verdict. */
  datatype Response = Response(status: nat, text: string, json: Result<Json, string>)

  /** `response.ok` of the `requests` library: false exactly when its
      `raise_for_status` raises, i.e. for a 4xx or a 5xx status. */
  predicate IsOk(status: nat) {
    !(400 <= status < 600)
  }

  /** The class raised for an unsuccessful status (main.py:222-235). */
  function KindFor(status: nat): (k: ErrorKind)
    ensures k == Validation <==> status == 400
    ensures k == Authentication <==> status == 401
    ensures k == Authorization <==> status == 403
    ensures k == ResourceNotFound <==> status == 404
    ensures k == QuotaExceeded <==> status == 429
    ensures k == ApiBase <==> status !in {400, 401, 403, 404, 429}
  {
    if status == 400 then Validation
    else if status == 401 then Authentication
    else if status == 403 then Authorization
    else if status == 404 then ResourceNotFound
    else if status == 429 then QuotaExceeded
    else ApiBase
  }

  /** The text placed before the detail in the raised message (main.py:222-235). */
  function PrefixFor(status: nat): (p: string)
    ensures |p| >= 2 && p[|p| - 2..] == ": "
    ensures status !in {400, 401, 403, 404, 429} && !(500 <= status < 600) ==> "HTTP " <= p
  {
    if status == 400 then "Bad request: "
    else if status == 401 then "Authentication failed: "
    else if status == 403 then "Permission denied: "
    else if status == 404 then "Resource not found: "
    else if status == 429 then "Quota exceeded: "
    else if 500 <= status < 600 then "Server error: "
    else "HTTP " + Decimal(status) + ": "
  }

  /** The message used when the body cannot be read as the service's error
      document: the raw text, or "HTTP <code> error" when it is empty
      (main.py:220). */
  function FallbackDetail(r: Response): (d: Text)
    ensures d.Lit? && d.s != ""
    ensures r.text != "" ==> d.s == r.text
  {
    Lit(if r.text != "" then r.text else "HTTP " + Decimal(r.status) + " error")
  }

  /** The detail of the message and the attached response data
      (main.py:216-220 and the `'error_data' in locals()` tests). When
      decoding fails nothing is attached. When the decoded value is not a
      dictionary, or its "error" entry is present but not a dictionary, the
      `.get` call raises inside the `try`, the bare `except` takes over, and
      the decoded value stays attached. */
  function ErrorDetail(r: Response): (d: (Text, Json))
    ensures r.json.Err? ==> d.1 == JNull
    ensures r.json.Ok? ==> d.1 == r.json.value
  {
    match r.json
    case Err(_) => (FallbackDetail(r), JNull)
    case Ok(data) =>
      if !data.JObj? then (FallbackDetail(r), data)
      else
        var inner := Get(data.fields, "error", EmptyObject);
        if !inner.JObj? then (FallbackDetail(r), data)
        else if "message" in inner.fields then (Display(inner.fields["message"]), data)
        else (Lit(r.text), data)
  }

  /** `_raise_for_status(response)`: `None` when it returns normally,
      `Some(e)` when it raises `e`. It raises exactly for a 4xx or 5xx status,
      and the error always carries that status. */
  function RaiseForStatus(r: Response): (res: Option<ApiError>)
    ensures res.None? <==> (r.status < 400 || r.status >= 600)
    ensures res.Some? ==> res.value.status == Some(r.status)
    ensures res.Some? ==> |res.value.message| == 2 && res.value.message[0] == Lit(PrefixFor(r.status))
  {
    if IsOk(r.status) then None
    else
      var (detail, payload) := ErrorDetail(r);
      Some(ApiError(KindFor(r.status), [Lit(PrefixFor(r.status)), detail], Some(r.status), payload))
  }

  /** The status-to-class table of main.py:222-235, each direction stated:
      a class is raised exactly for its own code, and the base class for every
      other 4xx and 5xx code. */
  lemma StatusKinds(r: Response)
    requires 400 <= r.status < 600
    ensures RaiseForStatus(r).Some?
    ensures var k := RaiseForStatus(r).value.kind;
      && (k == Validation <==> r.status == 400)
      && (k == Authentication <==> r.status == 401)
      && (k == Authorization <==> r.status == 403)
      && (k == ResourceNotFound <==> r.status == 404)
      && (k == QuotaExceeded <==> r.status == 429)
      && (k == ApiBase <==> r.status !in {400, 401, 403, 404, 429})
      && k != AttributeFault
  {
  }

  /** Server errors are reported with the "Server error" prefix, and any
      other unlisted 4xx status with the prefix "HTTP <code>", from which the
      code can be read back. */
  lemma {:induction false} UnlistedStatusPrefix(r: Response)
    requires 400 <= r.status < 600 && r.status !in {400, 401, 403, 404, 429}
    ensures var e := RaiseForStatus(r).value;
      && e.kind == ApiBase
      && (500 <= r.status ==> e.message[0] == Lit("Server error: "))
      && (r.status < 500 ==>
            exists code :: e.message[0] == Lit("HTTP " + code + ": ") && IsDigits(code) && DecimalValue(code) == r.status)
  {
    DecimalRoundTrip(r.status);
    if r.status < 500 {
      var code := Decimal(r.status);
      assert RaiseForStatus(r).value.message[0] == Lit("HTTP " + code + ": ");
    }
  }

  /** The message of the service's error document is used when there is one
      (main.py:217-218). */
  lemma ServiceMessageUsed(r: Response, fields: map<string, Json>, inner: map<string, Json>)
    requires !IsOk(r.status)
    requires r.json == Ok(JObj(fields)) && "error" in fields && fields["error"] == JObj(inner)
    requires "message" in inner
    ensures RaiseForStatus(r).value.message == [Lit(PrefixFor(r.status)), Display(inner["message"])]
    ensures RaiseForStatus(r).value.payload == JObj(fields)
  {
  }

  /** A decodable dictionary without an "error" entry, or with an "error"
      dictionary lacking "message", yields the raw text, even when that text
      is empty (main.py:218: the default of `.get` is `response.text`). */
  lemma RawTextWhenNoServiceMessage(r: Response, fields: map<string, Json>)
    requires !IsOk(r.status)
    requires r.json == Ok(JObj(fields))
    requires "error" !in fields || (fields["error"].JObj? && "message" !in fields["error"].fields)
    ensures RaiseForStatus(r).value.message == [Lit(PrefixFor(r.status)), Lit(r.text)]
  {
  }

  /** A body that decodes to something other than a dictionary, or whose
      "error" entry is not a dictionary, makes `.get` raise inside the
      `try`: the fallback detail is used and the decoded value stays
      attached (main.py:216-223). */
  lemma MalformedErrorDocument(r: Response)
    requires !IsOk(r.status) && r.json.Ok?
    requires !r.json.value.JObj? || ("error" in r.json.value.fields && !r.json.value.fields["error"].JObj?)
    ensures var e := RaiseForStatus(r).value;
      e.message[1] == FallbackDetail(r) && e.payload == r.json.value
  {
  }

  /** An undecodable body yields the raw text, or "HTTP <code> error" when
      the text is empty, and nothing is attached (main.py:219-220). */
  lemma UndecodableBody(r: Response)
    requires !IsOk(r.status) && r.json.Err?
    ensures var e := RaiseForStatus(r).value;
      && e.payload == JNull
      && (r.text != "" ==> e.message[1] == Lit(r.text))
      && (r.text == "" ==> e.message[1] == Lit("HTTP " + Decimal(r.status) + " error"))
  {
  }

  /** Worked example: 404 with body {"error":{"message":"Not found"}}. */
  lemma NotFoundExample()
    ensures
      var doc := JObj(map["error" := JObj(map["message" := JStr("Not found")])]);
      var r := Response(404, "{\"error\":{\"message\":\"Not found\"}}", Ok(doc));
      RaiseForStatus(r) == Some(ApiError(ResourceNotFound, [Lit("Resource not found: "), Lit("Not found")], Some(404), doc))
  {
  }
}
