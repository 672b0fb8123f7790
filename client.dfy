/**
 * KanbanFlowClient of src/kanbanflow/client.ts: the API-key check of the
 * constructor, the Basic authorization header, the query and path builders
 * of the task endpoints, and the pipeline every endpoint runs: send the
 * request, turn a non-ok status into an error carrying the body text,
 * validate the decoded body against the endpoint's schema, and report a
 * schema failure as an "Invalid response format" error while every other
 * error passes through unchanged.
 *
 * The network is a parameter: `Transport` answers each request with either
 * a rejection or a response, so an endpoint is a function of the client,
 * its arguments and what the transport answers.
 */
module KanbanFlow {
  import opened Wrappers
  import opened JsonValues
  import opened Schemas
  import opened Decimal
  import opened Base64

  const DefaultBaseUrl: string := "https://kanbanflow.com/api/v1"

  /** A constructed client: both fields are readonly once the constructor has run. */
  datatype Client = Client(apiKey: string, baseUrl: string)

  /** The ways an endpoint call, or the constructor, can fail. */
  datatype ClientError =
    | ConfigError                         // the constructor found no API key
    | InvalidCharacter                    // btoa refused credentials beyond Latin-1
    | TransportError(reason: string)      // fetch itself rejected
    | RemoteError(status: int, body: string)
    | MalformedBody(reason: string)       // response.json() rejected
    | ValidationError(issues: Issues)     // the schema rejected the decoded body

  datatype HttpRequest = HttpRequest(url: string, authorization: string, contentType: string)

  /**
   * What fetch resolves to: the status, whether it is in the 2xx range, the
   * body text (None when reading it fails) and the body decoded as JSON (or
   * the message of the parse failure).
   */
  datatype Response = Response(status: int, ok: bool, bodyText: Option<string>, json: Result<Json, string>)

  datatype FetchOutcome = NetworkFailure(reason: string) | Received(response: Response)

  type Transport = HttpRequest -> FetchOutcome

  /**
   * `new KanbanFlowClient(apiKey, baseUrl)`: `apiKey ?? config.KANBANFLOW_API_KEY`
   * is the key, and an empty key is refused; an absent `baseUrl` is the default.
   */
  function NewClient(apiKey: Option<string>, configKey: string, baseUrl: Option<string>): (r: Result<Client, ClientError>)
    ensures r.Success? <==> apiKey.GetOr(configKey) != ""
    ensures r.Failure? ==> r.error == ConfigError
    ensures r.Success? ==> r.value.apiKey == apiKey.GetOr(configKey)
    ensures r.Success? ==> r.value.baseUrl == baseUrl.GetOr(DefaultBaseUrl)
  {
    var key := if apiKey.Some? then apiKey.value else configKey;
    if key == "" then Failure(ConfigError)
    else Success(Client(key, if baseUrl.Some? then baseUrl.value else DefaultBaseUrl))
  }

  /** An explicit key, even "", is used in place of the configured one. */
  lemma ExplicitKeyWins(key: string, configKey: string, baseUrl: Option<string>)
    ensures key == "" ==> NewClient(Some(key), configKey, baseUrl) == Failure(ConfigError)
    ensures key != "" ==> NewClient(Some(key), configKey, baseUrl).Success?
    ensures key != "" ==> NewClient(Some(key), configKey, baseUrl).value.apiKey == key
  {
  }

  const CredentialPrefix: string := "apiToken:"
  const BasicPrefix: string := "Basic "

  /** The string btoa is applied to. */
  function Credentials(c: Client): string {
    CredentialPrefix + c.apiKey
  }

  /** `getAuthHeader()`: "Basic " and the base 64 text of the credentials. */
  function AuthHeader(c: Client): (r: Result<string, ClientError>)
    ensures r.Success? <==> forall i :: 0 <= i < |c.apiKey| ==> c.apiKey[i] as int < 256
    ensures r.Failure? ==> r.error == InvalidCharacter
    ensures r.Success? ==> |r.value| == |BasicPrefix| + 4 * ((|Credentials(c)| + 2) / 3)
    ensures r.Success? ==> r.value[..|BasicPrefix|] == BasicPrefix
  {
    var s := Credentials(c);
    assert forall i :: 0 <= i < |c.apiKey| ==> s[|CredentialPrefix| + i] == c.apiKey[i];
    match Btoa(s)
    case None => Failure(InvalidCharacter)
    case Some(encoded) => Success(BasicPrefix + encoded)
  }

  /** What follows "Basic " in the header decodes back to "apiToken:" and the key. */
  lemma AuthHeaderDecodes(c: Client)
    requires AuthHeader(c).Success?
    ensures Decode(AuthHeader(c).value[|BasicPrefix|..]).Some?
    ensures Latin1String(Decode(AuthHeader(c).value[|BasicPrefix|..]).value) == CredentialPrefix + c.apiKey
  {
    var h := AuthHeader(c).value;
    assert h[|BasicPrefix|..] == Btoa(Credentials(c)).value;
    BtoaDecodes(Credentials(c));
  }

  /**
   * `request(path)` up to the decoded body: the URL is the base URL and the
   * path, the headers carry the authorization and the JSON content type; a
   * non-ok status yields "KanbanFlow API error <status>: <body>", with
   * "Unknown error" standing for a body that cannot be read.
   */
  function Request(c: Client, path: string, fetch: Transport): (r: Result<Json, ClientError>)
    ensures r.Success? ==>
              && AuthHeader(c).Success? && fetch(RequestFor(c, path)).Received?
              && fetch(RequestFor(c, path)).response.ok
              && fetch(RequestFor(c, path)).response.json == Success(r.value)
    ensures r.Failure? ==> !r.error.ConfigError? && !r.error.ValidationError?
  {
    match AuthHeader(c)
    case Failure(e) => Failure(e)
    case Success(h) =>
      match fetch(HttpRequest(c.baseUrl + path, h, "application/json"))
      case NetworkFailure(reason) => Failure(TransportError(reason))
      case Received(resp) =>
        if !resp.ok then Failure(RemoteError(resp.status, resp.bodyText.GetOr("Unknown error")))
        else
          match resp.json
          case Failure(reason) => Failure(MalformedBody(reason))
          case Success(j) => Success(j)
  }

  /** The one request an endpoint sends for a path. */
  function RequestFor(c: Client, path: string): (q: HttpRequest)
    requires AuthHeader(c).Success?
    ensures q.url == c.baseUrl + path && q.contentType == "application/json"
    ensures q.authorization == AuthHeader(c).value
  {
    HttpRequest(c.baseUrl + path, AuthHeader(c).value, "application/json")
  }

  /**
   * A non-ok response is an error with its status and body text — the
   * decoded body is never looked at — and an ok one yields its decoded body.
   */
  lemma RequestOutcome(c: Client, path: string, fetch: Transport)
    requires AuthHeader(c).Success?
    ensures fetch(RequestFor(c, path)).NetworkFailure? ==>
              Request(c, path, fetch) == Failure(TransportError(fetch(RequestFor(c, path)).reason))
    ensures fetch(RequestFor(c, path)).Received? && !fetch(RequestFor(c, path)).response.ok ==>
              Request(c, path, fetch) == Failure(RemoteError(fetch(RequestFor(c, path)).response.status,
                                                             fetch(RequestFor(c, path)).response.bodyText.GetOr("Unknown error")))
    ensures fetch(RequestFor(c, path)).Received? && fetch(RequestFor(c, path)).response.ok ==>
              Request(c, path, fetch) == match fetch(RequestFor(c, path)).response.json
                                         case Success(j) => Success(j)
                                         case Failure(m) => Failure(MalformedBody(m))
  {
  }

  /** Without a valid header nothing is sent and the endpoint fails. */
  lemma RequestNeedsHeader(c: Client, path: string, fetch: Transport)
    requires AuthHeader(c).Failure?
    ensures Request(c, path, fetch) == Failure(InvalidCharacter)
  {
  }

  /**
   * The try/catch around every endpoint: a decoded body is parsed by the
   * endpoint's schema, whose failure becomes a ValidationError; any error
   * raised before that passes through unchanged.
   */
  function Validated<T>(r: Result<Json, ClientError>, check: Check<T>): (o: Result<T, ClientError>)
    ensures r.Failure? ==> o == Failure(r.error)
    ensures r.Success? ==> (o.Success? <==> check(r.value).Success?)
    ensures r.Success? && o.Success? ==> o.value == check(r.value).value
    ensures r.Success? && o.Failure? ==> o.error == ValidationError(check(r.value).error)
  {
    match r
    case Failure(e) => Failure(e)
    case Success(j) =>
      match check(j)
      case Success(v) => Success(v)
      case Failure(issues) => Failure(ValidationError(issues))
  }

  /**
   * `getBoard()`: a board is returned only when "/board" answered ok with a
   * body the board schema accepts; a refused body is a ValidationError with
   * the schema's issues, and an earlier failure passes through.
   */
  function GetBoard(c: Client, fetch: Transport): (r: Result<Board, ClientError>)
    ensures r.Success? <==> Request(c, "/board", fetch).Success? && ValidateBoard(Request(c, "/board", fetch).value).Success?
    ensures r.Success? ==> r.value == ValidateBoard(Request(c, "/board", fetch).value).value
    ensures Request(c, "/board", fetch).Success? && r.Failure? ==>
              r.error == ValidationError(ValidateBoard(Request(c, "/board", fetch).value).error)
    ensures Request(c, "/board", fetch).Failure? ==> r == Failure(Request(c, "/board", fetch).error)
  {
    Validated(Request(c, "/board", fetch), ValidateBoard)
  }

  /**
   * `getUsers()`: the users are returned only when "/users" answered ok with
   * a body the users schema accepts; a refused body is a ValidationError with
   * the schema's issues, and an earlier failure passes through.
   */
  function GetUsers(c: Client, fetch: Transport): (r: Result<seq<User>, ClientError>)
    ensures r.Success? <==> Request(c, "/users", fetch).Success? && ValidateUsers(Request(c, "/users", fetch).value).Success?
    ensures r.Success? ==> r.value == ValidateUsers(Request(c, "/users", fetch).value).value
    ensures Request(c, "/users", fetch).Success? && r.Failure? ==>
              r.error == ValidationError(ValidateUsers(Request(c, "/users", fetch).value).error)
    ensures Request(c, "/users", fetch).Failure? ==> r == Failure(Request(c, "/users", fetch).error)
  {
    Validated(Request(c, "/users", fetch), ValidateUsers)
  }

  /** A ValidationError comes only from a body the schema refused; nothing else is rewrapped. */
  lemma ValidationErrorsComeFromSchema<T>(c: Client, path: string, fetch: Transport, check: Check<T>)
    ensures Validated(Request(c, path, fetch), check).Failure? && Validated(Request(c, path, fetch), check).error.ValidationError? <==>
              Request(c, path, fetch).Success? && check(Request(c, path, fetch).value).Failure?
  {
    if Request(c, path, fetch).Failure? {
      assert !Request(c, path, fetch).error.ValidationError? by {
        if AuthHeader(c).Success? { RequestOutcome(c, path, fetch); }
      }
    }
  }

  // ---------------------------------------------------------------------
  // getTasks: query parameters and path

  datatype Order = Asc | Desc

  /** GetTasksOptions of src/kanbanflow/types.ts; every field may be left out. */
  datatype GetTasksOptions = GetTasksOptions(
    columnId: Option<string>,
    columnName: Option<string>,
    columnIndex: Option<int>,
    startTaskId: Option<string>,
    startGroupingDate: Option<string>,
    limit: Option<int>,
    order: Option<Order>,
    includePosition: Option<bool>)

  /** `options?.x` of absent options reads every field as undefined. */
  const NoOptions: GetTasksOptions := GetTasksOptions(None, None, None, None, None, None, None, None)

  function OrderText(o: Order): string {
    match o
    case Asc => "asc"
    case Desc => "desc"
  }

  /** The names getTasks and getTaskById send parameters under. */
  datatype ParamKey =
    | ColumnId | ColumnName | ColumnIndex | StartTaskId | StartGroupingDate | Limit | OrderKey | IncludePosition

  function KeyName(k: ParamKey): string {
    match k
    case ColumnId => "columnId"
    case ColumnName => "columnName"
    case ColumnIndex => "columnIndex"
    case StartTaskId => "startTaskId"
    case StartGroupingDate => "startGroupingDate"
    case Limit => "limit"
    case OrderKey => "order"
    case IncludePosition => "includePosition"
  }

  /** URLSearchParams: an ordered list of key/value pairs. */
  type Query = seq<(ParamKey, string)>

  /** A string option counts only when it is truthy, that is non-empty. */
  function NonEmpty(s: Option<string>): (r: Option<string>)
    ensures r.Some? <==> s.Some? && s.value != ""
    ensures r.Some? ==> r == s
  {
    if s.Some? && s.value != "" then s else None
  }

  /** A number option counts only when it is truthy, that is non-zero; it is sent as its decimal text. */
  function NonZero(n: Option<int>): (r: Option<string>)
    ensures r.Some? <==> n.Some? && n.value != 0
    ensures r.Some? ==> r.value == IntToString(n.value)
  {
    if n.Some? && n.value != 0 then Some(IntToString(n.value)) else None
  }

  /** The first value sent under a key. */
  function Param(q: Query, key: ParamKey): Option<string> {
    if q == [] then None
    else if q[0].0 == key then Some(q[0].1)
    else Param(q[1..], key)
  }

  /** The parameter, if any, a present field contributes. */
  function Emit(key: ParamKey, value: Option<string>): Query {
    if value.Some? then [(key, value.value)] else []
  }

  /** The column selector: `columnId`, else `columnName`, else `columnIndex` (which counts even at 0). */
  function Selector(o: GetTasksOptions): Query {
    if NonEmpty(o.columnId).Some? then [(ColumnId, o.columnId.value)]
    else if NonEmpty(o.columnName).Some? then [(ColumnName, o.columnName.value)]
    else if o.columnIndex.Some? then [(ColumnIndex, IntToString(o.columnIndex.value))]
    else []
  }

  function OrderValue(o: GetTasksOptions): Option<string> {
    if o.order.Some? then Some(OrderText(o.order.value)) else None
  }

  function IncludePositionValue(o: GetTasksOptions): Option<string> {
    if o.includePosition == Some(true) then Some("true") else None
  }

  /**
   * The parameters getTasks sends for its options: the column selector, then
   * startTaskId, startGroupingDate, limit, order and includePosition, each
   * when its option counts. No parameter is ever sent with an empty value,
   * and there are at most six.
   */
  function TasksQuery(options: Option<GetTasksOptions>): (q: Query)
    ensures |q| <= 6
    ensures forall i :: 0 <= i < |q| ==> q[i].1 != ""
  {
    var o := options.GetOr(NoOptions);
    Selector(o)
    + Emit(StartTaskId, NonEmpty(o.startTaskId))
    + Emit(StartGroupingDate, NonEmpty(o.startGroupingDate))
    + Emit(Limit, NonZero(o.limit))
    + Emit(OrderKey, OrderValue(o))
    + Emit(IncludePosition, IncludePositionValue(o))
  }

  /** The if/else-if chain of `getTasks` that appends at most one column selector. */
  method AppendSelector(params: Query, o: GetTasksOptions) returns (params': Query)
    ensures params' == params + Selector(o)
  {
    params' := params;
    if o.columnId.Some? && o.columnId.value != "" {
      params' := params' + [(ColumnId, o.columnId.value)];
    } else if o.columnName.Some? && o.columnName.value != "" {
      params' := params' + [(ColumnName, o.columnName.value)];
    } else if o.columnIndex.Some? {
      params' := params' + [(ColumnIndex, IntToString(o.columnIndex.value))];
    } else {
      assert params + Selector(o) == params;
    }
  }

  /** `getTasks` building its URLSearchParams by successive appends. */
  method BuildTasksQuery(options: Option<GetTasksOptions>) returns (params: Query)
    ensures params == TasksQuery(options)
  {
    var o := options.GetOr(NoOptions);
    params := AppendSelector([], o);
    ghost var p0 := params;
    assert p0 == Selector(o);
    if o.startTaskId.Some? && o.startTaskId.value != "" {
      params := params + [(StartTaskId, o.startTaskId.value)];
    }
    ghost var p1 := params;
    assert p1 == p0 + Emit(StartTaskId, NonEmpty(o.startTaskId));
    if o.startGroupingDate.Some? && o.startGroupingDate.value != "" {
      params := params + [(StartGroupingDate, o.startGroupingDate.value)];
    }
    ghost var p2 := params;
    assert p2 == p1 + Emit(StartGroupingDate, NonEmpty(o.startGroupingDate));
    if o.limit.Some? && o.limit.value != 0 {
      params := params + [(Limit, IntToString(o.limit.value))];
    }
    ghost var p3 := params;
    assert p3 == p2 + Emit(Limit, NonZero(o.limit));
    if o.order.Some? {
      params := params + [(OrderKey, OrderText(o.order.value))];
    }
    ghost var p4 := params;
    assert p4 == p3 + Emit(OrderKey, OrderValue(o));
    if o.includePosition == Some(true) {
      params := params + [(IncludePosition, "true")];
    }
    assert params == p4 + Emit(IncludePosition, IncludePositionValue(o));
  }

  /** `params.toString()`: `key=value` pairs joined by '&' (percent-encoding is not modelled). */
  function RenderQuery(q: Query): (s: string)
    ensures s == "" <==> q == []
  {
    if q == [] then ""
    else if |q| == 1 then KeyName(q[0].0) + "=" + q[0].1
    else KeyName(q[0].0) + "=" + q[0].1 + "&" + RenderQuery(q[1..])
  }

  /** The getTasks path: "/tasks", with "?" and the query only when there is one. */
  function TasksPath(q: Query): (p: string)
    ensures p == "/tasks" <==> q == []
    ensures q != [] ==> p == "/tasks?" + RenderQuery(q)
  {
    var qs := RenderQuery(q);
    if qs != "" then
      assert ("/tasks?" + qs)[..7] == "/tasks?";
      "/tasks?" + qs
    else "/tasks"
  }

  /** Without options nothing is sent, and the path is plain "/tasks". */
  lemma NoOptionsNoQuery()
    ensures TasksQuery(None) == []
    ensures TasksQuery(Some(NoOptions)) == []
    ensures TasksPath(TasksQuery(None)) == "/tasks"
  {
  }

  /** The position of each key in the order getTasks appends them; the three selectors share one. */
  function Rank(key: ParamKey): int {
    match key
    case ColumnId | ColumnName | ColumnIndex => 0
    case StartTaskId => 1
    case StartGroupingDate => 2
    case Limit => 3
    case OrderKey => 4
    case IncludePosition => 5
  }

  /** Keys appear in strictly increasing rank. */
  predicate Ordered(q: Query) {
    forall i, j :: 0 <= i < j < |q| ==> Rank(q[i].0) < Rank(q[j].0)
  }

  predicate Below(q: Query, k: int) {
    forall i :: 0 <= i < |q| ==> Rank(q[i].0) < k
  }

  /** Appending at most one parameter of rank k to an ordered query of lower ranks keeps it ordered. */
  lemma EmittedInOrder(q: Query, key: ParamKey, v: Option<string>)
    requires Ordered(q) && Below(q, Rank(key))
    ensures Ordered(q + Emit(key, v)) && Below(q + Emit(key, v), Rank(key) + 1)
  {
    var r := Emit(key, v);
    forall i, j | 0 <= i < j < |q + r| ensures Rank((q + r)[i].0) < Rank((q + r)[j].0) {
      if j >= |q| {
        assert (q + r)[j] == r[j - |q|];
        assert (q + r)[i] == q[i];
      }
    }
  }

  /**
   * Parameters appear in the order column selector, startTaskId,
   * startGroupingDate, limit, order, includePosition, each at most once; in
   * particular at most one column selector is sent.
   */
  lemma TasksQueryOrdered(options: Option<GetTasksOptions>)
    ensures forall i, j :: 0 <= i < j < |TasksQuery(options)| ==>
              Rank(TasksQuery(options)[i].0) < Rank(TasksQuery(options)[j].0)
  {
    var o := options.GetOr(NoOptions);
    var e0 := Selector(o);
    assert Ordered(e0) && Below(e0, 1);
    EmittedInOrder(e0, StartTaskId, NonEmpty(o.startTaskId));
    var e1 := e0 + Emit(StartTaskId, NonEmpty(o.startTaskId));
    EmittedInOrder(e1, StartGroupingDate, NonEmpty(o.startGroupingDate));
    var e2 := e1 + Emit(StartGroupingDate, NonEmpty(o.startGroupingDate));
    EmittedInOrder(e2, Limit, NonZero(o.limit));
    var e3 := e2 + Emit(Limit, NonZero(o.limit));
    EmittedInOrder(e3, OrderKey, OrderValue(o));
    var e4 := e3 + Emit(OrderKey, OrderValue(o));
    EmittedInOrder(e4, IncludePosition, IncludePositionValue(o));
    assert Ordered(TasksQuery(options));
  }

  lemma {:induction false} ParamConcat(a: Query, b: Query, key: ParamKey)
    ensures Param(a + b, key) == if Param(a, key).Some? then Param(a, key) else Param(b, key)
    decreases |a|
  {
    if a != [] {
      assert (a + b)[1..] == a[1..] + b;
      ParamConcat(a[1..], b, key);
    } else {
      assert a + b == b;
    }
  }

  lemma ParamEmit(k: ParamKey, v: Option<string>, key: ParamKey)
    ensures Param(Emit(k, v), key) == if k == key then v else None
  {
    if v.Some? {
      assert Emit(k, v)[1..] == [];
    }
  }

  /**
   * What getTasks sends under each key, stated field by field: a column
   * selector only when no higher-priority selector counts (`columnIndex`
   * counts even at 0), every other parameter exactly when its option is
   * truthy (`limit` 0 is left out, `includePosition` only when true).
   */
  function Sent(o: GetTasksOptions, key: ParamKey): Option<string> {
    match key
    case ColumnId => NonEmpty(o.columnId)
    case ColumnName => if NonEmpty(o.columnId).Some? then None else NonEmpty(o.columnName)
    case ColumnIndex =>
      if NonEmpty(o.columnId).Some? || NonEmpty(o.columnName).Some? then None
      else if o.columnIndex.Some? then Some(IntToString(o.columnIndex.value))
      else None
    case StartTaskId => NonEmpty(o.startTaskId)
    case StartGroupingDate => NonEmpty(o.startGroupingDate)
    case Limit => if o.limit.Some? && o.limit.value != 0 then Some(IntToString(o.limit.value)) else None
    case OrderKey => if o.order.Some? then Some(OrderText(o.order.value)) else None
    case IncludePosition => if o.includePosition == Some(true) then Some("true") else None
  }

  lemma SelectorSends(o: GetTasksOptions, key: ParamKey)
    ensures Param(Selector(o), key) == if Rank(key) == 0 then Sent(o, key) else None
  {
  }

  /** The query getTasks builds sends, under every key, what Sent describes. */
  lemma TasksQuerySends(options: Option<GetTasksOptions>, key: ParamKey)
    ensures Param(TasksQuery(options), key) == Sent(options.GetOr(NoOptions), key)
  {
    var o := options.GetOr(NoOptions);
    var e0, e1, e2 := Selector(o), Emit(StartTaskId, NonEmpty(o.startTaskId)), Emit(StartGroupingDate, NonEmpty(o.startGroupingDate));
    var e3, e4, e5 := Emit(Limit, NonZero(o.limit)), Emit(OrderKey, OrderValue(o)), Emit(IncludePosition, IncludePositionValue(o));
    ParamConcat(e0 + e1 + e2 + e3 + e4, e5, key);
    ParamConcat(e0 + e1 + e2 + e3, e4, key);
    ParamConcat(e0 + e1 + e2, e3, key);
    ParamConcat(e0 + e1, e2, key);
    ParamConcat(e0, e1, key);
    SelectorSends(o, key);
    ParamEmit(StartTaskId, NonEmpty(o.startTaskId), key);
    ParamEmit(StartGroupingDate, NonEmpty(o.startGroupingDate), key);
    ParamEmit(Limit, NonZero(o.limit), key);
    ParamEmit(OrderKey, OrderValue(o), key);
    ParamEmit(IncludePosition, IncludePositionValue(o), key);
  }

  /** A `columnId` hides the `columnIndex` 0 given with it; alone, index 0 is sent. */
  lemma ColumnIndexZero()
    ensures TasksQuery(Some(NoOptions.(columnId := Some("c1"), columnIndex := Some(0)))) == [(ColumnId, "c1")]
    ensures TasksQuery(Some(NoOptions.(columnIndex := Some(0)))) == [(ColumnIndex, "0")]
    ensures TasksQuery(Some(NoOptions.(columnId := Some(""), limit := Some(0)))) == []
  {
  }

  /** `getTasks(options)`. */
  method GetTasks(c: Client, options: Option<GetTasksOptions>, fetch: Transport) returns (r: Result<TasksResponse, ClientError>)
    ensures r == Validated(Request(c, TasksPath(TasksQuery(options)), fetch), ValidateTasksResponse)
  {
    var params := BuildTasksQuery(options);
    var queryString := RenderQuery(params);
    var path := if queryString != "" then "/tasks?" + queryString else "/tasks";
    var data := Request(c, path, fetch);
    r := Validated(data, ValidateTasksResponse);
  }

  // ---------------------------------------------------------------------
  // getTaskById

  /** The path of `getTaskById(taskId, includePosition)`, built as the source builds it. */
  method TaskByIdPath(taskId: string, includePosition: bool := false) returns (path: string)
    ensures path == "/tasks/" + taskId + (if includePosition then "?includePosition=true" else "")
  {
    var params: Query := [];
    if includePosition {
      params := params + [(IncludePosition, "true")];
    }
    var queryString := RenderQuery(params);
    path := if queryString != "" then "/tasks/" + taskId + "?" + queryString else "/tasks/" + taskId;
  }

  /** `getTaskById(taskId, includePosition = false)`. */
  method GetTaskById(c: Client, taskId: string, fetch: Transport, includePosition: bool := false)
    returns (r: Result<Task, ClientError>)
    ensures r == Validated(Request(c, "/tasks/" + taskId + (if includePosition then "?includePosition=true" else ""), fetch),
                           ValidateTask)
  {
    var path := TaskByIdPath(taskId, includePosition);
    var data := Request(c, path, fetch);
    r := Validated(data, ValidateTask);
  }

  // ---------------------------------------------------------------------
  // Error messages

  const ConfigMessage: string := "KANBANFLOW_API_KEY is required"
  const RemotePrefix: string := "KanbanFlow API error "
  const ValidationPrefix: string := "Invalid response format: "

  /**
   * The message of the Error each failure is thrown as; given `zodMessage`,
   * the text of a ZodError. The client composes the texts of a missing key,
   * a non-ok status and a refused body. A fetch rejection and a failing
   * `response.json()` are rethrown unchanged, so their message is the
   * runtime's own text, carried in the error. btoa's error (its wording is
   * not modelled) has None here.
   */
  function Message(e: ClientError, zodMessage: Issues -> string): (m: Option<string>)
    ensures e.InvalidCharacter? <==> m.None?
    ensures e.ConfigError? ==> m == Some(ConfigMessage)
    ensures e.TransportError? || e.MalformedBody? ==> m == Some(e.reason)
    ensures e.RemoteError? ==> m.Some? && |m.value| > |RemotePrefix| && m.value[..|RemotePrefix|] == RemotePrefix
    ensures e.ValidationError? ==>
              && m.Some? && |m.value| >= |ValidationPrefix|
              && m.value[..|ValidationPrefix|] == ValidationPrefix && m.value[|ValidationPrefix|..] == zodMessage(e.issues)
  {
    match e
    case ConfigError => Some(ConfigMessage)
    case InvalidCharacter => None
    case TransportError(reason) => Some(reason)
    case RemoteError(status, body) => Some(RemotePrefix + IntToString(status) + ": " + body)
    case MalformedBody(reason) => Some(reason)
    case ValidationError(issues) => Some(ValidationPrefix + zodMessage(issues))
  }

  /** The decimal text of a status holds no ':', so the first ':' of a status line ends it. */
  lemma NoColonInStatus(n: int)
    ensures forall i :: 0 <= i < |IntToString(n)| ==> IntToString(n)[i] != ':'
  {
    var s := IntToString(n);
    if n < 0 {
      assert forall i :: 1 <= i < |s| ==> s[i] == NatToString(-n)[i - 1];
    }
  }

  /** In a text without ':' followed by ": " and a rest, the first ':' stands right after the text. */
  lemma FirstColon(x: string, b: string)
    requires forall i :: 0 <= i < |x| ==> x[i] != ':'
    ensures forall i :: 0 <= i < |x| ==> (x + ": " + b)[i] != ':'
    ensures (x + ": " + b)[|x|] == ':'
  {
    assert forall i :: 0 <= i < |x| ==> (x + ": " + b)[i] == x[i];
  }

  /** Two texts without ':' each followed by ": " and a rest are equal only part for part. */
  lemma SplitAtColon(x: string, b: string, y: string, d: string)
    requires forall i :: 0 <= i < |x| ==> x[i] != ':'
    requires forall i :: 0 <= i < |y| ==> y[i] != ':'
    requires x + ": " + b == y + ": " + d
    ensures x == y && b == d
  {
    var l, r := x + ": " + b, y + ": " + d;
    FirstColon(x, b);
    FirstColon(y, d);
    assert |x| == |y|;
    assert x == l[..|x|] && y == r[..|y|];
    assert b == l[|x| + 2..] && d == r[|y| + 2..];
  }

  /**
   * "KanbanFlow API error <status>: <body>" keeps both parts: two remote
   * errors with the same message have the same status and the same body.
   */
  lemma RemoteMessageInjective(s1: int, b1: string, s2: int, b2: string, zodMessage: Issues -> string)
    requires Message(RemoteError(s1, b1), zodMessage) == Message(RemoteError(s2, b2), zodMessage)
    ensures s1 == s2 && b1 == b2
  {
    var m1, m2 := Message(RemoteError(s1, b1), zodMessage).value, Message(RemoteError(s2, b2), zodMessage).value;
    assert m1[|RemotePrefix|..] == IntToString(s1) + ": " + b1;
    assert m2[|RemotePrefix|..] == IntToString(s2) + ": " + b2;
    NoColonInStatus(s1);
    NoColonInStatus(s2);
    SplitAtColon(IntToString(s1), b1, IntToString(s2), b2);
    PrintInjective(s1, s2);
  }

  /** The message of a remote error ends with the body text the server sent. */
  lemma RemoteMessageEndsWithBody(status: int, body: string, zodMessage: Issues -> string)
    ensures |body| <= |Message(RemoteError(status, body), zodMessage).value|
    ensures Message(RemoteError(status, body), zodMessage).value[|Message(RemoteError(status, body), zodMessage).value| - |body|..] == body
  {
  }

  /** A 404 for an unknown task reads "KanbanFlow API error 404: Not Found", and no schema check runs. */
  lemma NotFoundTask(c: Client, fetch: Transport)
    requires AuthHeader(c).Success?
    requires fetch(RequestFor(c, "/tasks/t1")) == Received(Response(404, false, Some("Not Found"), Failure("not JSON")))
    ensures Validated(Request(c, "/tasks/t1", fetch), ValidateTask) == Failure(RemoteError(404, "Not Found"))
    ensures Message(Validated(Request(c, "/tasks/t1", fetch), ValidateTask).error, _ => "") ==
              Some("KanbanFlow API error 404: Not Found")
  {
    NotFoundMessage();
  }

  lemma NotFoundMessage()
    ensures Message(RemoteError(404, "Not Found"), _ => "") == Some("KanbanFlow API error 404: Not Found")
  {
    assert NatToString(4) == "4";
    assert NatToString(40) == "40";
    assert NatToString(404) == "404";
    assert IntToString(404) == "404";
    assert Message(RemoteError(404, "Not Found"), _ => "") == Some("KanbanFlow API error " + "404" + ": " + "Not Found");
    assert "KanbanFlow API error " + "404" + ": " + "Not Found" == "KanbanFlow API error 404: Not Found";
  }

  /** A body that cannot be read is reported as "Unknown error". */
  lemma UnreadableBody(c: Client, path: string, fetch: Transport, status: int, json: Result<Json, string>)
    requires AuthHeader(c).Success?
    requires fetch(RequestFor(c, path)) == Received(Response(status, false, None, json))
    ensures Request(c, path, fetch) == Failure(RemoteError(status, "Unknown error"))
  {
  }
}
