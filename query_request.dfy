/// The `runQuery` action of the query-reports page: it validates the posted
/// form, builds the API request for the selected task (endpoint plus query
/// string), calls the API and turns its JSON answer into the rows and column
/// headers of the report table.
module QueryRequest {
  import opened Js
  import opened QueryReports

  // ---------------------------------------------------------------------------
  // Query parameters

  /// One name/value pair of a `URLSearchParams`; `value` is the form value
  /// that `String(...)` turns into text when the query string is written.
  datatype QueryParam = QueryParam(key: string, value: FieldValue)

  /// How many pairs are named k.
  function Count(ps: seq<QueryParam>, k: string): nat
  {
    if ps == [] then 0 else (if ps[0].key == k then 1 else 0) + Count(ps[1..], k)
  }

  /// The pairs not named k, in order.
  function WithoutKey(ps: seq<QueryParam>, k: string): (r: seq<QueryParam>)
    ensures Count(r, k) == 0
  {
    if ps == [] then []
    else if ps[0].key == k then WithoutKey(ps[1..], k)
    else
      var r := [ps[0]] + WithoutKey(ps[1..], k);
      assert r[1..] == WithoutKey(ps[1..], k);
      r
  }

  /// Removing a key that does not occur changes nothing.
  lemma {:induction false} WithoutAbsentKey(ps: seq<QueryParam>, k: string)
    requires Count(ps, k) == 0
    ensures WithoutKey(ps, k) == ps
  {
    if ps != [] {
      WithoutAbsentKey(ps[1..], k);
    }
  }

  lemma {:induction false} CountAppend(ps: seq<QueryParam>, qs: seq<QueryParam>, k: string)
    ensures Count(ps + qs, k) == Count(ps, k) + Count(qs, k)
    ensures WithoutKey(ps + qs, k) == WithoutKey(ps, k) + WithoutKey(qs, k)
  {
    if ps == [] {
      assert ps + qs == qs;
    } else {
      assert [ps[0]] + (ps[1..] + qs) == ps + qs;
      assert (ps + qs)[1..] == ps[1..] + qs;
      CountAppend(ps[1..], qs, k);
    }
  }

  /// `URLSearchParams.prototype.set`: the first pair named `key` takes the new
  /// value and later pairs of that name are dropped; without such a pair the
  /// new one is appended.
  function SetParam(ps: seq<QueryParam>, key: string, value: FieldValue): (r: seq<QueryParam>)
    ensures Count(r, key) == 1
    ensures QueryParam(key, value) in r
    ensures WithoutKey(r, key) == WithoutKey(ps, key)
    ensures Count(ps, key) == 0 ==> r == ps + [QueryParam(key, value)]
  {
    if Count(ps, key) == 0 then
      var r := ps + [QueryParam(key, value)];
      CountAppend(ps, [QueryParam(key, value)], key);
      assert [QueryParam(key, value)][1..] == [];
      r
    else ReplaceFirst(ps, key, value)
  }

  function ReplaceFirst(ps: seq<QueryParam>, key: string, value: FieldValue): (r: seq<QueryParam>)
    requires Count(ps, key) > 0
    ensures Count(r, key) == 1
    ensures QueryParam(key, value) in r
    ensures WithoutKey(r, key) == WithoutKey(ps, key)
  {
    var rest := ps[1..];
    if ps[0].key == key then
      var r := [QueryParam(key, value)] + WithoutKey(rest, key);
      assert r[1..] == WithoutKey(rest, key);
      WithoutAbsentKey(WithoutKey(rest, key), key);
      r
    else
      var r := [ps[0]] + ReplaceFirst(rest, key, value);
      assert r[1..] == ReplaceFirst(rest, key, value);
      r
  }

  /// The query parameters of a task's request: a single-parameter task
  /// sends its field only when the field is defined; custom report 4 sends
  /// its four sizes whatever their values; any other task sends none.
  function QueryParams(data: FormData, t: Task): (r: seq<QueryParam>)
    ensures |r| <= 4
    ensures forall i :: 0 <= i < |r| ==> r[i].value == Field(data, r[i].key)
    ensures t.parameter.Some? ==> forall i :: 0 <= i < |r| ==> r[i].key == t.parameter.value
    ensures t.parameter.None? && t.id != Cr4Id ==> r == []
  {
    if t.parameter.Some? then
      var v := Field(data, t.parameter.value);
      if v != Undefined then [QueryParam(t.parameter.value, v)] else []
    else if t.id == Cr4Id then
      [QueryParam("min_height", Field(data, "min_height")),
       QueryParam("max_height", Field(data, "max_height")),
       QueryParam("min_width", Field(data, "min_width")),
       QueryParam("max_width", Field(data, "max_width"))]
    else []
  }

  // ---------------------------------------------------------------------------
  // The request and its URL

  /// The request `runQuery` sends: the path `API_ROUTE + endpoint` and the
  /// pairs of its query string.
  datatype ApiRequest = ApiRequest(path: string, query: seq<QueryParam>)

  function RequestFor(apiRoute: string, data: FormData, t: Task): ApiRequest
  {
    ApiRequest(apiRoute + t.endpoint, QueryParams(data, t))
  }

  /// `URLSearchParams.prototype.toString`: `key=value` pairs joined by `&`.
  /// `show` stands for `String(value)` followed by form-urlencoding; the keys
  /// in use are plain identifiers that encoding leaves as they are.
  function EncodeQuery(ps: seq<QueryParam>, show: FieldValue -> string): (r: string)
    ensures ps != [] ==> |r| > 0
    ensures ps == [] ==> r == ""
  {
    if ps == [] then ""
    else
      var pair := ps[0].key + "=" + show(ps[0].value);
      if |ps| == 1 then pair else pair + "&" + EncodeQuery(ps[1..], show)
  }

  /// The URL fetched: the path, then `?` and the query string only when the
  /// query string is not empty.
  function Href(req: ApiRequest, show: FieldValue -> string): (r: string)
    ensures |req.path| <= |r| && r[..|req.path|] == req.path
  {
    var qs := EncodeQuery(req.query, show);
    req.path + (if qs != "" then "?" + qs else "")
  }

  /// The URL is the bare path exactly when there are no query parameters,
  /// and otherwise the path, `?` and the encoded pairs.
  lemma HrefShape(req: ApiRequest, show: FieldValue -> string)
    ensures Href(req, show) == req.path <==> req.query == []
    ensures req.query != [] ==> Href(req, show) == req.path + "?" + EncodeQuery(req.query, show)
  {
    if req.query != [] {
      assert |Href(req, show)| > |req.path|;
    }
  }

  /// A single-parameter task sends its parameter exactly when the field is
  /// defined, under the field's own name.
  lemma SingleParamQuery(data: FormData, t: Task)
    requires t.parameter.Some?
    ensures |QueryParams(data, t)| <= 1
    ensures QueryParams(data, t) != [] <==> Field(data, t.parameter.value) != Undefined
    ensures QueryParams(data, t) != [] ==>
              QueryParams(data, t)[0] == QueryParam(t.parameter.value, Field(data, t.parameter.value))
  {
  }

  /// A task of the table without a parameter, other than custom report 4,
  /// is fetched at `API_ROUTE + endpoint` with no query string.
  lemma ParameterlessUrl(apiRoute: string, data: FormData, t: Task, show: FieldValue -> string)
    requires t in QueryTasks && t.id in {"task1", "task3", "task4", "custom-report-5"}
    ensures Href(RequestFor(apiRoute, data, t), show) == apiRoute + t.endpoint
  {
    ParameterlessTasks(t);
    HrefShape(RequestFor(apiRoute, data, t), show);
  }

  /// For a valid custom-report-4 form the four sizes are all sent, in order,
  /// each as a positive number.
  lemma SizeQuery(data: FormData, currentYear: int, t: Task)
    requires t.id == Cr4Id && t.parameter.None? && data.selectedTaskId == Cr4Id
    requires FormValid(data, currentYear)
    ensures |QueryParams(data, t)| == 4
    ensures forall i :: 0 <= i < 4 ==> QueryParams(data, t)[i].key == SizeParams[i]
    ensures forall i :: 0 <= i < 4 ==>
              QueryParams(data, t)[i].value.Number? && QueryParams(data, t)[i].value.n > 0.0
  {
    ValidSizeForm(data, currentYear);
    SizeFields(data);
  }

  // ---------------------------------------------------------------------------
  // The answer of the API

  /// The body of a response: parsed JSON, or text `response.json()` rejects.
  datatype Body = Parsed(value: JsonValue) | Unparsable

  datatype Response = Response(status: nat, statusText: string, body: Body)

  /// `response.ok`.
  predicate Ok(resp: Response)
  {
    200 <= resp.status <= 299
  }

  /// What the action throws: the SyntaxError of `response.json()`, the
  /// TypeError of reading a property of null, or the `Error` it raises itself
  /// for a failed request, whose argument is given.
  datatype Thrown = SyntaxError | TypeError | ApiError(error: JsonValue)

  /// The outcome of `runQuery`: a failure with an HTTP status and an optional
  /// message, an exception, or the report shown on the page.
  datatype RunResult =
    | Failure(status: nat, message: Option<string>)
    | Threw(thrown: Thrown)
    | Report(results: seq<JsonValue>, headers: seq<string>, apiError: Option<string>, selectedTaskName: string)

  const InvalidTaskMessage := "Invalid task selected."
  const UnexpectedFormatMessage := "Received unexpected data format from API."

  /// `errorJson.error`: a TypeError on null, undefined on a value without an
  /// `error` member.
  datatype Access = AccessThrows | Absent | Present(v: JsonValue)

  function ErrorMember(v: JsonValue): (a: Access)
    ensures a.AccessThrows? <==> v.JNull?
    ensures v.JObject? ==> (a.Present? <==> HasKey(v.members, "error"))
    ensures !v.JObject? && !v.JNull? ==> a.Absent?
  {
    match v
    case JNull => AccessThrows
    case JObject(ms) => (match Lookup(ms, "error") case Some(e) => Present(e) case None => Absent)
    case _ => Absent
  }

  /// The default text of a failed request, `API Error <status>: <statusText>`.
  function DefaultErrorText(resp: Response): string
  {
    "API Error " + NatToDecimal(resp.status) + ": " + resp.statusText
  }

  /// What a failed request throws: the body's `error` member when it is
  /// truthy, the default text when it is falsy or missing.
  function FailureThrown(resp: Response): (t: Thrown)
    ensures resp.body.Unparsable? ==> t == SyntaxError
    ensures resp.body.Parsed? && resp.body.value.JNull? ==> t == TypeError
    ensures t.ApiError? ==> t.error == JString(DefaultErrorText(resp)) || Truthy(t.error)
    ensures resp.body.Parsed? && ErrorMember(resp.body.value).Present? && Truthy(ErrorMember(resp.body.value).v)
            ==> t == ApiError(ErrorMember(resp.body.value).v)
    ensures resp.body.Parsed? && !resp.body.value.JNull? &&
            !(ErrorMember(resp.body.value).Present? && Truthy(ErrorMember(resp.body.value).v))
            ==> t == ApiError(JString(DefaultErrorText(resp)))
  {
    match resp.body
    case Unparsable => SyntaxError
    case Parsed(v) =>
      match ErrorMember(v)
      case AccessThrows => TypeError
      case Absent => ApiError(JString(DefaultErrorText(resp)))
      case Present(e) => if Truthy(e) then ApiError(e) else ApiError(JString(DefaultErrorText(resp)))
  }

  /// The default message of a failed request reads `API Error `, then the
  /// status code in decimal (digits only, no leading zero), then `: ` and
  /// the status text.
  lemma DefaultTextShowsStatus(resp: Response)
    ensures var t := DefaultErrorText(resp);
            && t[..10] == "API Error "
            && var n := |NatToDecimal(resp.status)|;
            && 0 < n && 12 + n <= |t|
            && var d := t[10..10 + n];
            && (forall i :: 0 <= i < |d| ==> IsDigit(d[i]))
            && (d[0] == '0' ==> d == "0")
            && DecimalValue(d) == resp.status
            && t[10 + n..12 + n] == ": "
            && t[12 + n..] == resp.statusText
  {
    var t := DefaultErrorText(resp);
    var d := NatToDecimal(resp.status);
    var n := |d|;
    DecimalRoundTrip(resp.status);
    assert t == "API Error " + d + ": " + resp.statusText;
    assert t[10..10 + n] == d;
    assert t[10 + n..12 + n] == ": ";
    assert t[12 + n..] == resp.statusText;
  }

  /// How `runQuery` turns the API's response into its outcome: a failed
  /// request throws, a body that is not JSON throws a SyntaxError, an array
  /// becomes the rows with the first row's keys as headers (reading the keys
  /// of a null first row throws a TypeError), and any other JSON value gives
  /// an empty report carrying the unexpected-format message.
  predicate Interprets(resp: Response, taskName: string, r: RunResult)
  {
    && (!Ok(resp) ==> r == Threw(FailureThrown(resp)))
    && (Ok(resp) && resp.body.Unparsable? ==> r == Threw(SyntaxError))
    && (Ok(resp) && resp.body.Parsed? && !resp.body.value.JArray? ==>
          r == Report([], [], Some(UnexpectedFormatMessage), taskName))
    && (Ok(resp) && resp.body.Parsed? && resp.body.value.JArray? ==>
          var items := resp.body.value.items;
          if items == [] then r == Report([], [], None, taskName)
          else if items[0].JNull? then r == Threw(TypeError)
          else r == Report(items, ObjectKeys(items[0]).value, None, taskName))
  }

  // ---------------------------------------------------------------------------
  // The action

  /// `actions.runQuery`.  `currentYear` is the year the schema uses, read
  /// from the clock once when the page module was loaded; `apiRoute` the configured API base URL, `show` the text
  /// `URLSearchParams` writes for a value and `fetch` the API; `fetched` is
  /// the URL requested, None when nothing was fetched.
  method RunQuery(data: FormData, currentYear: int, apiRoute: string,
                  show: FieldValue -> string, fetch: string -> Response)
    returns (r: RunResult, fetched: Option<string>)
    ensures !FormValid(data, currentYear) <==> r == Failure(400, None)
    ensures FormValid(data, currentYear) && FindTask(data.selectedTaskId).None? ==>
              r == Failure(400, Some(InvalidTaskMessage))
    ensures fetched.Some? <==> FormValid(data, currentYear) && FindTask(data.selectedTaskId).Some?
    ensures FormValid(data, currentYear) && FindTask(data.selectedTaskId).Some? ==>
              var t := FindTask(data.selectedTaskId).value;
              var url := Href(RequestFor(apiRoute, data, t), show);
              && fetched == Some(url)
              && Interprets(fetch(url), t.name, r)
  {
    // superValidate: the schema's field checks, then the refinement.
    var ctx := new RefinementCtx(SchemaIssues(data, currentYear));
    SuperRefine(data, ctx);
    if ctx.issues != [] {
      return Failure(400, None), None;
    }

    var selectedTask := FindTask(data.selectedTaskId);
    if selectedTask.None? {
      return Failure(400, Some(InvalidTaskMessage)), None;
    }
    var task := selectedTask.value;
    var queryParams := BuildQuery(data, task);
    var apiUrl := BuildUrl(apiRoute + task.endpoint, queryParams, show);
    fetched := Some(apiUrl);
    var response := fetch(apiUrl);
    r := ReadResponse(response, task.name);
  }

  /// A key none of whose pairs carries it has count zero.
  lemma {:induction false} NewKey(ps: seq<QueryParam>, k: string)
    requires forall i :: 0 <= i < |ps| ==> ps[i].key != k
    ensures Count(ps, k) == 0
  {
    if ps != [] {
      NewKey(ps[1..], k);
    }
  }

  /// The query string `runQuery` builds with `URLSearchParams.set`.
  method BuildQuery(data: FormData, task: Task) returns (queryParams: seq<QueryParam>)
    ensures queryParams == QueryParams(data, task)
  {
    queryParams := [];
    if task.parameter.Some? {
      var paramValue := Field(data, task.parameter.value);
      if paramValue != Undefined {
        queryParams := SetParam(queryParams, task.parameter.value, paramValue);
      }
    } else if task.id == Cr4Id {
      queryParams := SetParam(queryParams, "min_height", Field(data, "min_height"));
      NewKey(queryParams, "max_height");
      queryParams := SetParam(queryParams, "max_height", Field(data, "max_height"));
      NewKey(queryParams, "min_width");
      queryParams := SetParam(queryParams, "min_width", Field(data, "min_width"));
      NewKey(queryParams, "max_width");
      queryParams := SetParam(queryParams, "max_width", Field(data, "max_width"));
    }
  }

  /// The URL `runQuery` fetches: the path, and `?` with the query string
  /// appended only when the query string is not empty.
  method BuildUrl(path: string, queryParams: seq<QueryParam>, show: FieldValue -> string)
    returns (apiUrl: string)
    ensures apiUrl == Href(ApiRequest(path, queryParams), show)
  {
    apiUrl := path;
    var queryString := EncodeQuery(queryParams, show);
    if queryString != "" {
      apiUrl := apiUrl + "?" + queryString;
    }
  }

  /// The second half of `runQuery`, from the response to the outcome.
  method ReadResponse(response: Response, taskName: string) returns (r: RunResult)
    ensures Interprets(response, taskName, r)
  {
    var results: seq<JsonValue> := [];
    var headers: seq<string> := [];
    var apiError: Option<string> := None;
    if !Ok(response) {
      return Threw(FailureThrown(response));
    }
    if response.body.Unparsable? {
      return Threw(SyntaxError);
    }
    var body := response.body.value;
    if body.JArray? {
      results := body.items;
      if |body.items| > 0 {
        var keys := ObjectKeys(body.items[0]);
        if keys.None? {
          return Threw(TypeError);
        }
        headers := keys.value;
      }
    } else {
      apiError := Some(UnexpectedFormatMessage);
    }
    return Report(results, headers, apiError, taskName);
  }
}
