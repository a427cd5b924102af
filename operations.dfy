/** The local prologue of the operation wrappers (main.py:304-695): check
    the required arguments, then assemble the request descriptor handed to
    `make_api_request`, adding each optional argument only when it is given. */
module Operations {
  import opened Wrappers
  import opened JsonValues
  import opened Errors
  import opened RequestExecutor

  /** The method, endpoint, query parameters and JSON body of one request. */
  datatype Request = Request(verb: string, endpoint: string, params: Option<map<string, Json>>, json: Option<Json>)

  // ---------------------------------------------------------------------
  // Validation

  function Required(name: string): ApiError {
    Plain(Validation, name + " is required")
  }

  const BadInputOption: ApiError := Plain(Validation, "value_input_option must be 'RAW' or 'USER_ENTERED'")

  predicate ValidInputOption(option: string) {
    option == "RAW" || option == "USER_ENTERED"
  }

  // ---------------------------------------------------------------------
  // Optional entries: how an optional argument shows up in a dictionary

  /** `Optional[str]` included when truthy. */
  predicate Filled(arg: Option<string>) {
    arg.Some? && arg.value != ""
  }

  predicate TextEntry(m: map<string, Json>, key: string, arg: Option<string>) {
    (key in m <==> Filled(arg)) && (key in m ==> m[key] == JStr(arg.value))
  }

  /** `Optional[bool]` included when not `None`, so `False` is sent too. */
  predicate FlagEntry(m: map<string, Json>, key: string, arg: Option<bool>) {
    (key in m <==> arg.Some?) && (key in m ==> m[key] == JBool(arg.value))
  }

  /** `Optional[List]` included when truthy (non-empty). */
  predicate ListEntry(m: map<string, Json>, key: string, arg: Option<seq<Json>>) {
    (key in m <==> arg.Some? && arg.value != []) && (key in m ==> m[key] == JArr(arg.value))
  }

  /** An argument with a default value: `None` stands for a call that omits
      it, and the default is used. An explicit value, even a falsy one, is
      kept. */
  function WithDefault(arg: Option<string>, default: string): (v: string)
    ensures arg.None? ==> v == default
    ensures arg.Some? ==> v == arg.value
  {
    if arg.Some? then arg.value else default
  }

  const UntitledTitle: string := "Untitled spreadsheet"
  const DefaultInputOption: string := "USER_ENTERED"

  predicate IsObject(j: Option<Json>) {
    j.Some? && j.value.JObj?
  }

  function SpreadsheetPath(id: string): string {
    "/v4/spreadsheets/" + id
  }

  /** `str(n)` for any integer. */
  function IntText(n: int): string {
    if n < 0 then "-" + Decimal(-n) else Decimal(n)
  }

  // ---------------------------------------------------------------------
  // Spreadsheets resource

  /** `spreadsheets_create` (main.py:306-329). */
  method SpreadsheetsCreate(title: Option<string>, locale: Option<string>, autoRecalc: Option<string>,
                            timeZone: Option<string>, sheets: Option<seq<Json>>)
    returns (r: Result<Request, ApiError>)
    ensures WithDefault(title, UntitledTitle) == "" ==> r == Err(Required("title"))
    ensures r.Ok? <==> WithDefault(title, UntitledTitle) != ""
    ensures title.None? ==> r.Ok?
    ensures r.Ok? ==> r.value.verb == "POST" && r.value.endpoint == "/v4/spreadsheets" && r.value.params == None
    ensures r.Ok? ==> (
      IsObject(r.value.json) &&
      var body := r.value.json.value.fields;
      && body.Keys <= {"properties", "sheets"}
      && "properties" in body && body["properties"].JObj?
      && ListEntry(body, "sheets", sheets)
      && var props := body["properties"].fields;
      && props.Keys <= {"title", "locale", "autoRecalc", "timeZone"}
      && "title" in props && props["title"] == JStr(WithDefault(title, UntitledTitle))
      && TextEntry(props, "locale", locale)
      && TextEntry(props, "autoRecalc", autoRecalc)
      && TextEntry(props, "timeZone", timeZone))
  {
    var name := WithDefault(title, UntitledTitle);
    if name == "" {
      return Err(Required("title"));
    }
    var properties := map["title" := JStr(name)];
    if Filled(locale) {
      properties := properties["locale" := JStr(locale.value)];
    }
    if Filled(autoRecalc) {
      properties := properties["autoRecalc" := JStr(autoRecalc.value)];
    }
    if Filled(timeZone) {
      properties := properties["timeZone" := JStr(timeZone.value)];
    }
    var body := map["properties" := JObj(properties)];
    if sheets.Some? && sheets.value != [] {
      body := body["sheets" := JArr(sheets.value)];
    }
    r := Ok(Request("POST", "/v4/spreadsheets", None, Some(JObj(body))));
  }

  /** `spreadsheets_get` (main.py:333-352). */
  method SpreadsheetsGet(spreadsheetId: string, ranges: Option<seq<Json>>, includeGridData: Option<bool>,
                         fields: Option<string>)
    returns (r: Result<Request, ApiError>)
    ensures spreadsheetId == "" ==> r == Err(Required("spreadsheet_id"))
    ensures r.Ok? <==> spreadsheetId != ""
    ensures r.Ok? ==> r.value.verb == "GET" && r.value.endpoint == SpreadsheetPath(spreadsheetId) && r.value.json == None
    ensures r.Ok? ==> (
      r.value.params.Some? &&
      var params := r.value.params.value;
      && params.Keys <= {"ranges", "includeGridData", "fields"}
      && ListEntry(params, "ranges", ranges)
      && FlagEntry(params, "includeGridData", includeGridData)
      && TextEntry(params, "fields", fields))
  {
    if spreadsheetId == "" {
      return Err(Required("spreadsheet_id"));
    }
    var params: map<string, Json> := map[];
    if ranges.Some? && ranges.value != [] {
      params := params["ranges" := JArr(ranges.value)];
    }
    if includeGridData.Some? {
      params := params["includeGridData" := JBool(includeGridData.value)];
    }
    if Filled(fields) {
      params := params["fields" := JStr(fields.value)];
    }
    r := Ok(Request("GET", SpreadsheetPath(spreadsheetId), Some(params), None));
  }

  /** `spreadsheets_batch_update` (main.py:356-378). */
  method SpreadsheetsBatchUpdate(spreadsheetId: string, requests: seq<Json>, includeSpreadsheetInResponse: Option<bool>,
                                 responseRanges: Option<seq<Json>>, responseIncludeGridData: Option<bool>)
    returns (r: Result<Request, ApiError>)
    ensures spreadsheetId == "" ==> r == Err(Required("spreadsheet_id"))
    ensures spreadsheetId != "" && requests == [] ==> r == Err(Required("requests"))
    ensures r.Ok? <==> spreadsheetId != "" && requests != []
    ensures r.Ok? ==> r.value.verb == "POST" && r.value.endpoint == SpreadsheetPath(spreadsheetId) + ":batchUpdate"
    ensures r.Ok? ==> (
      r.value.params == None && IsObject(r.value.json) &&
      var body := r.value.json.value.fields;
      && body.Keys <= {"requests", "includeSpreadsheetInResponse", "responseRanges", "responseIncludeGridData"}
      && "requests" in body && body["requests"] == JArr(requests)
      && FlagEntry(body, "includeSpreadsheetInResponse", includeSpreadsheetInResponse)
      && ListEntry(body, "responseRanges", responseRanges)
      && FlagEntry(body, "responseIncludeGridData", responseIncludeGridData))
  {
    if spreadsheetId == "" {
      return Err(Required("spreadsheet_id"));
    }
    if requests == [] {
      return Err(Required("requests"));
    }
    var body := map["requests" := JArr(requests)];
    if includeSpreadsheetInResponse.Some? {
      body := body["includeSpreadsheetInResponse" := JBool(includeSpreadsheetInResponse.value)];
    }
    if responseRanges.Some? && responseRanges.value != [] {
      body := body["responseRanges" := JArr(responseRanges.value)];
    }
    if responseIncludeGridData.Some? {
      body := body["responseIncludeGridData" := JBool(responseIncludeGridData.value)];
    }
    r := Ok(Request("POST", SpreadsheetPath(spreadsheetId) + ":batchUpdate", None, Some(JObj(body))));
  }

  /** `spreadsheets_get_by_data_filter` (main.py:382-398). */
  method SpreadsheetsGetByDataFilter(spreadsheetId: string, dataFilters: seq<Json>, includeGridData: Option<bool>)
    returns (r: Result<Request, ApiError>)
    ensures spreadsheetId == "" ==> r == Err(Required("spreadsheet_id"))
    ensures spreadsheetId != "" && dataFilters == [] ==> r == Err(Required("data_filters"))
    ensures r.Ok? <==> spreadsheetId != "" && dataFilters != []
    ensures r.Ok? ==> r.value.verb == "POST" && r.value.endpoint == SpreadsheetPath(spreadsheetId) + ":getByDataFilter"
    ensures r.Ok? ==> (
      r.value.params == None && IsObject(r.value.json) &&
      var body := r.value.json.value.fields;
      && body.Keys <= {"dataFilters", "includeGridData"}
      && "dataFilters" in body && body["dataFilters"] == JArr(dataFilters)
      && FlagEntry(body, "includeGridData", includeGridData))
  {
    if spreadsheetId == "" {
      return Err(Required("spreadsheet_id"));
    }
    if dataFilters == [] {
      return Err(Required("data_filters"));
    }
    var body := map["dataFilters" := JArr(dataFilters)];
    if includeGridData.Some? {
      body := body["includeGridData" := JBool(includeGridData.value)];
    }
    r := Ok(Request("POST", SpreadsheetPath(spreadsheetId) + ":getByDataFilter", None, Some(JObj(body))));
  }

  // ---------------------------------------------------------------------
  // Values resource

  /** `values_get` (main.py:403-425). */
  method ValuesGet(spreadsheetId: string, range: string, majorDimension: Option<string>,
                   valueRenderOption: Option<string>, dateTimeRenderOption: Option<string>)
    returns (r: Result<Request, ApiError>)
    ensures spreadsheetId == "" ==> r == Err(Required("spreadsheet_id"))
    ensures spreadsheetId != "" && range == "" ==> r == Err(Required("range"))
    ensures r.Ok? <==> spreadsheetId != "" && range != ""
    ensures r.Ok? ==> r.value.verb == "GET" && r.value.endpoint == SpreadsheetPath(spreadsheetId) + "/values/" + range
    ensures r.Ok? ==> (
      r.value.json == None && r.value.params.Some? &&
      var params := r.value.params.value;
      && params.Keys <= {"majorDimension", "valueRenderOption", "dateTimeRenderOption"}
      && TextEntry(params, "majorDimension", majorDimension)
      && TextEntry(params, "valueRenderOption", valueRenderOption)
      && TextEntry(params, "dateTimeRenderOption", dateTimeRenderOption))
  {
    if spreadsheetId == "" {
      return Err(Required("spreadsheet_id"));
    }
    if range == "" {
      return Err(Required("range"));
    }
    var params: map<string, Json> := map[];
    if Filled(majorDimension) {
      params := params["majorDimension" := JStr(majorDimension.value)];
    }
    if Filled(valueRenderOption) {
      params := params["valueRenderOption" := JStr(valueRenderOption.value)];
    }
    if Filled(dateTimeRenderOption) {
      params := params["dateTimeRenderOption" := JStr(dateTimeRenderOption.value)];
    }
    r := Ok(Request("GET", SpreadsheetPath(spreadsheetId) + "/values/" + range, Some(params), None));
  }

  /** `values_update` (main.py:429-462). */
  method ValuesUpdate(spreadsheetId: string, range: string, values: seq<Json>, valueInputOption: Option<string>,
                      majorDimension: Option<string>, includeValuesInResponse: Option<bool>,
                      responseValueRenderOption: Option<string>, responseDateTimeRenderOption: Option<string>)
    returns (r: Result<Request, ApiError>)
    ensures spreadsheetId == "" ==> r == Err(Required("spreadsheet_id"))
    ensures spreadsheetId != "" && range == "" ==> r == Err(Required("range"))
    ensures spreadsheetId != "" && range != "" && values == [] ==> r == Err(Required("values"))
    ensures spreadsheetId != "" && range != "" && values != [] && !ValidInputOption(WithDefault(valueInputOption, DefaultInputOption)) ==> r == Err(BadInputOption)
    ensures r.Ok? <==> spreadsheetId != "" && range != "" && values != [] && ValidInputOption(WithDefault(valueInputOption, DefaultInputOption))
    ensures valueInputOption.None? ==> r != Err(BadInputOption)
    ensures r.Ok? ==> r.value.verb == "PUT" && r.value.endpoint == SpreadsheetPath(spreadsheetId) + "/values/" + range
    ensures r.Ok? ==> (
      r.value.params.Some? &&
      var params := r.value.params.value;
      && params.Keys <= {"valueInputOption", "includeValuesInResponse", "responseValueRenderOption", "responseDateTimeRenderOption"}
      && "valueInputOption" in params && params["valueInputOption"] == JStr(WithDefault(valueInputOption, DefaultInputOption))
      && FlagEntry(params, "includeValuesInResponse", includeValuesInResponse)
      && TextEntry(params, "responseValueRenderOption", responseValueRenderOption)
      && TextEntry(params, "responseDateTimeRenderOption", responseDateTimeRenderOption))
    ensures r.Ok? ==> (
      IsObject(r.value.json) &&
      var body := r.value.json.value.fields;
      && body.Keys <= {"values", "majorDimension"}
      && "values" in body && body["values"] == JArr(values)
      && TextEntry(body, "majorDimension", majorDimension))
  {
    var option := WithDefault(valueInputOption, DefaultInputOption);
    if spreadsheetId == "" {
      return Err(Required("spreadsheet_id"));
    }
    if range == "" {
      return Err(Required("range"));
    }
    if values == [] {
      return Err(Required("values"));
    }
    if !ValidInputOption(option) {
      return Err(BadInputOption);
    }
    var params := map["valueInputOption" := JStr(option)];
    if includeValuesInResponse.Some? {
      params := params["includeValuesInResponse" := JBool(includeValuesInResponse.value)];
    }
    if Filled(responseValueRenderOption) {
      params := params["responseValueRenderOption" := JStr(responseValueRenderOption.value)];
    }
    if Filled(responseDateTimeRenderOption) {
      params := params["responseDateTimeRenderOption" := JStr(responseDateTimeRenderOption.value)];
    }
    var body := map["values" := JArr(values)];
    if Filled(majorDimension) {
      body := body["majorDimension" := JStr(majorDimension.value)];
    }
    r := Ok(Request("PUT", SpreadsheetPath(spreadsheetId) + "/values/" + range, Some(params), Some(JObj(body))));
  }

  /** `values_append` (main.py:465-501). */
  method ValuesAppend(spreadsheetId: string, range: string, values: seq<Json>, valueInputOption: Option<string>,
                      majorDimension: Option<string>, insertDataOption: Option<string>,
                      includeValuesInResponse: Option<bool>, responseValueRenderOption: Option<string>,
                      responseDateTimeRenderOption: Option<string>)
    returns (r: Result<Request, ApiError>)
    ensures spreadsheetId == "" ==> r == Err(Required("spreadsheet_id"))
    ensures spreadsheetId != "" && range == "" ==> r == Err(Required("range"))
    ensures spreadsheetId != "" && range != "" && values == [] ==> r == Err(Required("values"))
    ensures spreadsheetId != "" && range != "" && values != [] && !ValidInputOption(WithDefault(valueInputOption, DefaultInputOption)) ==> r == Err(BadInputOption)
    ensures r.Ok? <==> spreadsheetId != "" && range != "" && values != [] && ValidInputOption(WithDefault(valueInputOption, DefaultInputOption))
    ensures valueInputOption.None? ==> r != Err(BadInputOption)
    ensures r.Ok? ==> r.value.verb == "POST" && r.value.endpoint == SpreadsheetPath(spreadsheetId) + "/values/" + range + ":append"
    ensures r.Ok? ==> (
      r.value.params.Some? &&
      var params := r.value.params.value;
      && params.Keys <= {"valueInputOption", "insertDataOption", "includeValuesInResponse",
                         "responseValueRenderOption", "responseDateTimeRenderOption"}
      && "valueInputOption" in params && params["valueInputOption"] == JStr(WithDefault(valueInputOption, DefaultInputOption))
      && TextEntry(params, "insertDataOption", insertDataOption)
      && FlagEntry(params, "includeValuesInResponse", includeValuesInResponse)
      && TextEntry(params, "responseValueRenderOption", responseValueRenderOption)
      && TextEntry(params, "responseDateTimeRenderOption", responseDateTimeRenderOption))
    ensures r.Ok? ==> (
      IsObject(r.value.json) &&
      var body := r.value.json.value.fields;
      && body.Keys <= {"values", "majorDimension"}
      && "values" in body && body["values"] == JArr(values)
      && TextEntry(body, "majorDimension", majorDimension))
  {
    var option := WithDefault(valueInputOption, DefaultInputOption);
    if spreadsheetId == "" {
      return Err(Required("spreadsheet_id"));
    }
    if range == "" {
      return Err(Required("range"));
    }
    if values == [] {
      return Err(Required("values"));
    }
    if !ValidInputOption(option) {
      return Err(BadInputOption);
    }
    var params := map["valueInputOption" := JStr(option)];
    if Filled(insertDataOption) {
      params := params["insertDataOption" := JStr(insertDataOption.value)];
    }
    if includeValuesInResponse.Some? {
      params := params["includeValuesInResponse" := JBool(includeValuesInResponse.value)];
    }
    if Filled(responseValueRenderOption) {
      params := params["responseValueRenderOption" := JStr(responseValueRenderOption.value)];
    }
    if Filled(responseDateTimeRenderOption) {
      params := params["responseDateTimeRenderOption" := JStr(responseDateTimeRenderOption.value)];
    }
    var body := map["values" := JArr(values)];
    if Filled(majorDimension) {
      body := body["majorDimension" := JStr(majorDimension.value)];
    }
    r := Ok(Request("POST", SpreadsheetPath(spreadsheetId) + "/values/" + range + ":append", Some(params), Some(JObj(body))));
  }

  /** `values_clear` (main.py:504-515): the body is an empty dictionary. */
  method ValuesClear(spreadsheetId: string, range: string) returns (r: Result<Request, ApiError>)
    ensures spreadsheetId == "" ==> r == Err(Required("spreadsheet_id"))
    ensures spreadsheetId != "" && range == "" ==> r == Err(Required("range"))
    ensures r.Ok? <==> spreadsheetId != "" && range != ""
    ensures r.Ok? ==> r.value == Request("POST", SpreadsheetPath(spreadsheetId) + "/values/" + range + ":clear", None, Some(EmptyObject))
  {
    if spreadsheetId == "" {
      return Err(Required("spreadsheet_id"));
    }
    if range == "" {
      return Err(Required("range"));
    }
    r := Ok(Request("POST", SpreadsheetPath(spreadsheetId) + "/values/" + range + ":clear", None, Some(EmptyObject)));
  }

  /** `values_batch_get` (main.py:518-540). */
  method ValuesBatchGet(spreadsheetId: string, ranges: seq<Json>, majorDimension: Option<string>,
                        valueRenderOption: Option<string>, dateTimeRenderOption: Option<string>)
    returns (r: Result<Request, ApiError>)
    ensures spreadsheetId == "" ==> r == Err(Required("spreadsheet_id"))
    ensures spreadsheetId != "" && ranges == [] ==> r == Err(Required("ranges"))
    ensures r.Ok? <==> spreadsheetId != "" && ranges != []
    ensures r.Ok? ==> r.value.verb == "GET" && r.value.endpoint == SpreadsheetPath(spreadsheetId) + "/values:batchGet"
    ensures r.Ok? ==> (
      r.value.json == None && r.value.params.Some? &&
      var params := r.value.params.value;
      && params.Keys <= {"ranges", "majorDimension", "valueRenderOption", "dateTimeRenderOption"}
      && "ranges" in params && params["ranges"] == JArr(ranges)
      && TextEntry(params, "majorDimension", majorDimension)
      && TextEntry(params, "valueRenderOption", valueRenderOption)
      && TextEntry(params, "dateTimeRenderOption", dateTimeRenderOption))
  {
    if spreadsheetId == "" {
      return Err(Required("spreadsheet_id"));
    }
    if ranges == [] {
      return Err(Required("ranges"));
    }
    var params := map["ranges" := JArr(ranges)];
    if Filled(majorDimension) {
      params := params["majorDimension" := JStr(majorDimension.value)];
    }
    if Filled(valueRenderOption) {
      params := params["valueRenderOption" := JStr(valueRenderOption.value)];
    }
    if Filled(dateTimeRenderOption) {
      params := params["dateTimeRenderOption" := JStr(dateTimeRenderOption.value)];
    }
    r := Ok(Request("GET", SpreadsheetPath(spreadsheetId) + "/values:batchGet", Some(params), None));
  }

  /** The body shared by `values_batch_update` (main.py:560-569) and
      `values_batch_update_by_data_filter` (main.py:634-643). */
  predicate BatchUpdateBody(body: map<string, Json>, data: seq<Json>, valueInputOption: string,
                            includeValuesInResponse: Option<bool>, responseValueRenderOption: Option<string>,
                            responseDateTimeRenderOption: Option<string>)
  {
    && body.Keys <= {"data", "valueInputOption", "includeValuesInResponse",
                     "responseValueRenderOption", "responseDateTimeRenderOption"}
    && "data" in body && body["data"] == JArr(data)
    && "valueInputOption" in body && body["valueInputOption"] == JStr(valueInputOption)
    && FlagEntry(body, "includeValuesInResponse", includeValuesInResponse)
    && TextEntry(body, "responseValueRenderOption", responseValueRenderOption)
    && TextEntry(body, "responseDateTimeRenderOption", responseDateTimeRenderOption)
  }

  /** `values_batch_update` (main.py:544-572). */
  method ValuesBatchUpdate(spreadsheetId: string, data: seq<Json>, valueInputOption: Option<string>,
                           includeValuesInResponse: Option<bool>, responseValueRenderOption: Option<string>,
                           responseDateTimeRenderOption: Option<string>)
    returns (r: Result<Request, ApiError>)
    ensures spreadsheetId == "" ==> r == Err(Required("spreadsheet_id"))
    ensures spreadsheetId != "" && data == [] ==> r == Err(Required("data"))
    ensures spreadsheetId != "" && data != [] && !ValidInputOption(WithDefault(valueInputOption, DefaultInputOption)) ==> r == Err(BadInputOption)
    ensures r.Ok? <==> spreadsheetId != "" && data != [] && ValidInputOption(WithDefault(valueInputOption, DefaultInputOption))
    ensures valueInputOption.None? ==> r != Err(BadInputOption)
    ensures r.Ok? ==> r.value.verb == "POST" && r.value.endpoint == SpreadsheetPath(spreadsheetId) + "/values:batchUpdate"
    ensures r.Ok? ==> (
      r.value.params == None && IsObject(r.value.json) &&
      BatchUpdateBody(r.value.json.value.fields, data, WithDefault(valueInputOption, DefaultInputOption), includeValuesInResponse,
                      responseValueRenderOption, responseDateTimeRenderOption))
  {
    var option := WithDefault(valueInputOption, DefaultInputOption);
    if spreadsheetId == "" {
      return Err(Required("spreadsheet_id"));
    }
    if data == [] {
      return Err(Required("data"));
    }
    if !ValidInputOption(option) {
      return Err(BadInputOption);
    }
    var body := map["data" := JArr(data), "valueInputOption" := JStr(option)];
    if includeValuesInResponse.Some? {
      body := body["includeValuesInResponse" := JBool(includeValuesInResponse.value)];
    }
    if Filled(responseValueRenderOption) {
      body := body["responseValueRenderOption" := JStr(responseValueRenderOption.value)];
    }
    if Filled(responseDateTimeRenderOption) {
      body := body["responseDateTimeRenderOption" := JStr(responseDateTimeRenderOption.value)];
    }
    r := Ok(Request("POST", SpreadsheetPath(spreadsheetId) + "/values:batchUpdate", None, Some(JObj(body))));
  }

  /** `values_batch_clear` (main.py:576-589). */
  method ValuesBatchClear(spreadsheetId: string, ranges: seq<Json>) returns (r: Result<Request, ApiError>)
    ensures spreadsheetId == "" ==> r == Err(Required("spreadsheet_id"))
    ensures spreadsheetId != "" && ranges == [] ==> r == Err(Required("ranges"))
    ensures r.Ok? <==> spreadsheetId != "" && ranges != []
    ensures r.Ok? ==> r.value == Request("POST", SpreadsheetPath(spreadsheetId) + "/values:batchClear", None,
                                         Some(JObj(map["ranges" := JArr(ranges)])))
  {
    if spreadsheetId == "" {
      return Err(Required("spreadsheet_id"));
    }
    if ranges == [] {
      return Err(Required("ranges"));
    }
    r := Ok(Request("POST", SpreadsheetPath(spreadsheetId) + "/values:batchClear", None,
                    Some(JObj(map["ranges" := JArr(ranges)]))));
  }

  /** `values_batch_get_by_data_filter` (main.py:593-615). */
  method ValuesBatchGetByDataFilter(spreadsheetId: string, dataFilters: seq<Json>, majorDimension: Option<string>,
                                    valueRenderOption: Option<string>, dateTimeRenderOption: Option<string>)
    returns (r: Result<Request, ApiError>)
    ensures spreadsheetId == "" ==> r == Err(Required("spreadsheet_id"))
    ensures spreadsheetId != "" && dataFilters == [] ==> r == Err(Required("data_filters"))
    ensures r.Ok? <==> spreadsheetId != "" && dataFilters != []
    ensures r.Ok? ==> r.value.verb == "POST" && r.value.endpoint == SpreadsheetPath(spreadsheetId) + "/values:batchGetByDataFilter"
    ensures r.Ok? ==> (
      r.value.params == None && IsObject(r.value.json) &&
      var body := r.value.json.value.fields;
      && body.Keys <= {"dataFilters", "majorDimension", "valueRenderOption", "dateTimeRenderOption"}
      && "dataFilters" in body && body["dataFilters"] == JArr(dataFilters)
      && TextEntry(body, "majorDimension", majorDimension)
      && TextEntry(body, "valueRenderOption", valueRenderOption)
      && TextEntry(body, "dateTimeRenderOption", dateTimeRenderOption))
  {
    if spreadsheetId == "" {
      return Err(Required("spreadsheet_id"));
    }
    if dataFilters == [] {
      return Err(Required("data_filters"));
    }
    var body := map["dataFilters" := JArr(dataFilters)];
    if Filled(majorDimension) {
      body := body["majorDimension" := JStr(majorDimension.value)];
    }
    if Filled(valueRenderOption) {
      body := body["valueRenderOption" := JStr(valueRenderOption.value)];
    }
    if Filled(dateTimeRenderOption) {
      body := body["dateTimeRenderOption" := JStr(dateTimeRenderOption.value)];
    }
    r := Ok(Request("POST", SpreadsheetPath(spreadsheetId) + "/values:batchGetByDataFilter", None, Some(JObj(body))));
  }

  /** `values_batch_update_by_data_filter` (main.py:618-646). */
  method ValuesBatchUpdateByDataFilter(spreadsheetId: string, data: seq<Json>, valueInputOption: Option<string>,
                                       includeValuesInResponse: Option<bool>, responseValueRenderOption: Option<string>,
                                       responseDateTimeRenderOption: Option<string>)
    returns (r: Result<Request, ApiError>)
    ensures spreadsheetId == "" ==> r == Err(Required("spreadsheet_id"))
    ensures spreadsheetId != "" && data == [] ==> r == Err(Required("data"))
    ensures spreadsheetId != "" && data != [] && !ValidInputOption(WithDefault(valueInputOption, DefaultInputOption)) ==> r == Err(BadInputOption)
    ensures r.Ok? <==> spreadsheetId != "" && data != [] && ValidInputOption(WithDefault(valueInputOption, DefaultInputOption))
    ensures valueInputOption.None? ==> r != Err(BadInputOption)
    ensures r.Ok? ==> r.value.verb == "POST" && r.value.endpoint == SpreadsheetPath(spreadsheetId) + "/values:batchUpdateByDataFilter"
    ensures r.Ok? ==> (
      r.value.params == None && IsObject(r.value.json) &&
      BatchUpdateBody(r.value.json.value.fields, data, WithDefault(valueInputOption, DefaultInputOption), includeValuesInResponse,
                      responseValueRenderOption, responseDateTimeRenderOption))
  {
    var option := WithDefault(valueInputOption, DefaultInputOption);
    if spreadsheetId == "" {
      return Err(Required("spreadsheet_id"));
    }
    if data == [] {
      return Err(Required("data"));
    }
    if !ValidInputOption(option) {
      return Err(BadInputOption);
    }
    var body := map["data" := JArr(data), "valueInputOption" := JStr(option)];
    if includeValuesInResponse.Some? {
      body := body["includeValuesInResponse" := JBool(includeValuesInResponse.value)];
    }
    if Filled(responseValueRenderOption) {
      body := body["responseValueRenderOption" := JStr(responseValueRenderOption.value)];
    }
    if Filled(responseDateTimeRenderOption) {
      body := body["responseDateTimeRenderOption" := JStr(responseDateTimeRenderOption.value)];
    }
    r := Ok(Request("POST", SpreadsheetPath(spreadsheetId) + "/values:batchUpdateByDataFilter", None, Some(JObj(body))));
  }

  /** `values_batch_clear_by_data_filter` (main.py:649-662). */
  method ValuesBatchClearByDataFilter(spreadsheetId: string, dataFilters: seq<Json>) returns (r: Result<Request, ApiError>)
    ensures spreadsheetId == "" ==> r == Err(Required("spreadsheet_id"))
    ensures spreadsheetId != "" && dataFilters == [] ==> r == Err(Required("data_filters"))
    ensures r.Ok? <==> spreadsheetId != "" && dataFilters != []
    ensures r.Ok? ==> r.value == Request("POST", SpreadsheetPath(spreadsheetId) + "/values:batchClearByDataFilter", None,
                                         Some(JObj(map["dataFilters" := JArr(dataFilters)])))
  {
    if spreadsheetId == "" {
      return Err(Required("spreadsheet_id"));
    }
    if dataFilters == [] {
      return Err(Required("data_filters"));
    }
    r := Ok(Request("POST", SpreadsheetPath(spreadsheetId) + "/values:batchClearByDataFilter", None,
                    Some(JObj(map["dataFilters" := JArr(dataFilters)]))));
  }

  // ---------------------------------------------------------------------
  // Developer metadata resource

  /** `developer_metadata_get` (main.py:666-677): a metadata id of 0 is
      rejected as missing. */
  method DeveloperMetadataGet(spreadsheetId: string, metadataId: int) returns (r: Result<Request, ApiError>)
    ensures spreadsheetId == "" ==> r == Err(Required("spreadsheet_id"))
    ensures spreadsheetId != "" && metadataId == 0 ==> r == Err(Required("metadata_id"))
    ensures r.Ok? <==> spreadsheetId != "" && metadataId != 0
    ensures r.Ok? ==> r.value == Request("GET", SpreadsheetPath(spreadsheetId) + "/developerMetadata/" + IntText(metadataId), None, None)
  {
    if spreadsheetId == "" {
      return Err(Required("spreadsheet_id"));
    }
    if metadataId == 0 {
      return Err(Required("metadata_id"));
    }
    r := Ok(Request("GET", SpreadsheetPath(spreadsheetId) + "/developerMetadata/" + IntText(metadataId), None, None));
  }

  /** `developer_metadata_search` (main.py:681-694). */
  method DeveloperMetadataSearch(spreadsheetId: string, dataFilters: seq<Json>) returns (r: Result<Request, ApiError>)
    ensures spreadsheetId == "" ==> r == Err(Required("spreadsheet_id"))
    ensures spreadsheetId != "" && dataFilters == [] ==> r == Err(Required("data_filters"))
    ensures r.Ok? <==> spreadsheetId != "" && dataFilters != []
    ensures r.Ok? ==> r.value == Request("POST", SpreadsheetPath(spreadsheetId) + "/developerMetadata:search", None,
                                         Some(JObj(map["dataFilters" := JArr(dataFilters)])))
  {
    if spreadsheetId == "" {
      return Err(Required("spreadsheet_id"));
    }
    if dataFilters == [] {
      return Err(Required("data_filters"));
    }
    r := Ok(Request("POST", SpreadsheetPath(spreadsheetId) + "/developerMetadata:search", None,
                    Some(JObj(map["dataFilters" := JArr(dataFilters)]))));
  }

  // ---------------------------------------------------------------------
  // Dispatch

  /** A wrapper's tail: a validation failure is raised with no request
      sent and the cache untouched; otherwise the descriptor goes to
      `make_api_request` with default headers and `retry_auth`. */
  method Dispatch(executor: Executor, prepared: Result<Request, ApiError>) returns (r: Result<Json, ApiError>)
    modifies executor, executor.cache
    ensures prepared.Err? ==> r == Err(prepared.error) && executor.sent == old(executor.sent) &&
                              executor.cache.State() == old(executor.cache.State())
    ensures prepared.Ok? ==>
      var req := prepared.value;
      Exchange(executor.cache.State(), executor.sent, r) ==
        Execute(old(executor.cache.State()), old(executor.sent), executor.cache.env, executor.cache.broker,
                executor.transport, Call(req.verb, req.endpoint, None, req.params, req.json, None, true))
  {
    if prepared.Err? {
      return Err(prepared.error);
    }
    var req := prepared.value;
    r := executor.MakeApiRequest(req.verb, req.endpoint, None, req.params, req.json, None, true);
  }
}
