/**
 * The response shapes of src/kanbanflow/schemas.ts as validators over Json.
 *
 * Each validator either returns the typed record, built only from the keys
 * the schema names (unknown keys are dropped, as z.object does by default),
 * or the list of every issue found, in the order of the schema's keys and
 * of array indices, each with the path of the offending value, the kind
 * expected and the kind received.
 */
module Schemas {
  import opened Wrappers
  import opened JsonValues

  datatype PathSeg = Key(name: string) | Index(index: nat)

  datatype Issue = Issue(path: seq<PathSeg>, expected: Kind, received: Kind)

  type Issues = seq<Issue>

  /** A schema: it accepts a decoded value as a T or reports issues. */
  type Check<T> = Json -> Result<T, Issues>

  /** The issues of a result; none for a success. */
  function IssuesOf<T>(r: Result<T, Issues>): Issues {
    if r.Success? then [] else r.error
  }

  /** Reports the issues of a nested value under one more path segment. */
  function Within<T>(seg: PathSeg, r: Result<T, Issues>): (r': Result<T, Issues>)
    ensures r'.Success? <==> r.Success?
    ensures r'.Success? ==> r'.value == r.value
    ensures r'.Failure? ==> |r'.error| == |r.error|
    ensures r'.Failure? ==> forall k :: 0 <= k < |r.error| ==>
                              r'.error[k] == r.error[k].(path := [seg] + r.error[k].path)
  {
    match r
    case Success(v) => Success(v)
    case Failure(e) => Failure(seq(|e|, k requires 0 <= k < |e| => e[k].(path := [seg] + e[k].path)))
  }

  // ---------------------------------------------------------------- primitives

  function AsString(j: Json): (r: Result<string, Issues>)
    ensures r.Success? <==> j.JString?
    ensures r.Success? ==> r.value == j.s
  {
    if j.JString? then Success(j.s) else Failure([Issue([], KString, KindOf(j))])
  }

  function AsNumber(j: Json): (r: Result<int, Issues>)
    ensures r.Success? <==> j.JNumber?
    ensures r.Success? ==> r.value == j.n
  {
    if j.JNumber? then Success(j.n) else Failure([Issue([], KNumber, KindOf(j))])
  }

  function AsBool(j: Json): (r: Result<bool, Issues>)
    ensures r.Success? <==> j.JBool?
    ensures r.Success? ==> r.value == j.b
  {
    if j.JBool? then Success(j.b) else Failure([Issue([], KBool, KindOf(j))])
  }

  /** z.unknown(): every value is accepted and kept. */
  function Verbatim(j: Json): Result<Json, Issues> {
    Success(j)
  }

  /**
   * The elements of an array checked one by one; the array is accepted iff
   * every element is, the output keeps length and order, and each issue
   * names the index of the element it comes from.
   */
  function Elems<T>(js: seq<Json>, elem: Check<T>): (r: Result<seq<T>, Issues>)
    ensures r.Success? <==> forall i :: 0 <= i < |js| ==> elem(js[i]).Success?
    ensures r.Success? ==> |r.value| == |js|
    ensures r.Success? ==> forall i :: 0 <= i < |js| ==> r.value[i] == elem(js[i]).value
    ensures r.Failure? ==> forall k :: 0 <= k < |r.error| ==>
      |r.error[k].path| > 0 && r.error[k].path[0].Index? &&
      r.error[k].path[0].index < |js| && elem(js[r.error[k].path[0].index]).Failure?
    decreases |js|
  {
    if js == [] then Success([])
    else
      var n := |js| - 1;
      var init := Elems(js[..n], elem);
      var last := Within(Index(n), elem(js[n]));
      assert forall i :: 0 <= i < n ==> js[..n][i] == js[i];
      if init.Success? && last.Success? then Success(init.value + [last.value])
      else Failure(IssuesOf(init) + IssuesOf(last))
  }

  /** z.array(elem): a non-array is one issue at the array's own path. */
  function ArrayOf<T>(j: Json, elem: Check<T>): (r: Result<seq<T>, Issues>)
    ensures r.Success? <==> j.JArray? && Elems(j.elems, elem).Success?
    ensures r.Success? ==> r == Elems(j.elems, elem)
  {
    if j.JArray? then Elems(j.elems, elem) else Failure([Issue([], KArray, KindOf(j))])
  }

  /** A required key: a missing one is the single issue "expected `expected`, received undefined". */
  function Required<T>(fs: Fields, key: string, expected: Kind, check: Check<T>): (r: Result<T, Issues>)
    ensures r.Success? <==> Get(fs, key).Some? && check(Get(fs, key).value).Success?
    ensures r.Success? ==> r.value == check(Get(fs, key).value).value
    ensures Get(fs, key).None? ==> r == Failure([Issue([Key(key)], expected, KUndefined)])
  {
    match Get(fs, key)
    case None => Failure([Issue([Key(key)], expected, KUndefined)])
    case Some(j) => Within(Key(key), check(j))
  }

  /** `.optional()`: a missing key stays absent; a present one must pass the check. */
  function Optional<T>(fs: Fields, key: string, check: Check<T>): (r: Result<Option<T>, Issues>)
    ensures r == Success(None) <==> Get(fs, key).None?
    ensures r.Success? <==> Get(fs, key).None? || check(Get(fs, key).value).Success?
    ensures r.Success? && Get(fs, key).Some? ==> r.value == Some(check(Get(fs, key).value).value)
  {
    match Get(fs, key)
    case None => Success(None)
    case Some(j) =>
      match Within(Key(key), check(j))
      case Success(v) => Success(Some(v))
      case Failure(e) => Failure(e)
  }

  function ObjectIssue(j: Json): Issues {
    [Issue([], KObject, KindOf(j))]
  }

  /** The key holds a string. */
  predicate StringAt(fs: Fields, key: string) {
    Get(fs, key).Some? && Get(fs, key).value.JString?
  }
  // ------------------------------------------------------------------ records

  datatype TaskNumber = TaskNumber(prefix: Option<string>, value: int)

  datatype TaskCollaborator = TaskCollaborator(userId: string)

  /** A task; `id` is the `_id` key. dates, subTasks, labels and customFields are kept uninterpreted. */
  datatype Task = Task(
    id: string,
    name: string,
    description: Option<string>,
    color: string,
    columnId: string,
    swimlaneId: Option<string>,
    position: Option<int>,
    totalSecondsSpent: Option<int>,
    totalSecondsEstimate: Option<int>,
    pointsEstimate: Option<int>,
    number: Option<TaskNumber>,
    responsibleUserId: Option<string>,
    collaborators: Option<seq<TaskCollaborator>>,
    groupingDate: Option<string>,
    dates: Option<seq<Json>>,
    subTasks: Option<seq<Json>>,
    labels: Option<seq<Json>>,
    customFields: Option<seq<Json>>)

  datatype BoardColumn = BoardColumn(name: string, uniqueId: string)

  datatype BoardSwimlane = BoardSwimlane(name: string, uniqueId: string)

  datatype BoardColor = BoardColor(name: string, value: string, description: Option<string>)

  datatype Board = Board(
    id: string,
    name: string,
    columns: seq<BoardColumn>,
    swimlanes: Option<seq<BoardSwimlane>>,
    colors: Option<seq<BoardColor>>)

  datatype TasksColumnResponse = TasksColumnResponse(
    columnId: string,
    columnName: string,
    tasksLimited: bool,
    nextTaskId: Option<string>,
    tasks: seq<Task>)

  type TasksResponse = seq<TasksColumnResponse>

  /** A user: the two fields the core reads, and every other entry of the object as it came. */
  datatype User = User(id: string, fullName: string, profile: Fields)

  // --------------------------------------------------------------- validators

  /** TaskNumberSchema: a number `value` and an optional string `prefix`, absent when missing. */
  function ValidateTaskNumber(j: Json): (r: Result<TaskNumber, Issues>)
    ensures r.Success? <==>
              && j.JObject? && Get(j.fields, "value").Some? && Get(j.fields, "value").value.JNumber?
              && (Get(j.fields, "prefix").None? || Get(j.fields, "prefix").value.JString?)
    ensures r.Success? ==>
              && Get(j.fields, "value") == Some(JNumber(r.value.value))
              && (r.value.prefix.None? <==> Get(j.fields, "prefix").None?)
              && (r.value.prefix.Some? ==> Get(j.fields, "prefix") == Some(JString(r.value.prefix.value)))
  {
    match j
    case JObject(fs) =>
      var prefix := Optional(fs, "prefix", AsString);
      var value := Required(fs, "value", KNumber, AsNumber);
      if prefix.Success? && value.Success? then Success(TaskNumber(prefix.value, value.value))
      else Failure(IssuesOf(prefix) + IssuesOf(value))
    case _ => Failure(ObjectIssue(j))
  }

  /** TaskCollaboratorSchema: an object with a string `userId`. */
  function ValidateCollaborator(j: Json): (r: Result<TaskCollaborator, Issues>)
    ensures r.Success? <==> j.JObject? && StringAt(j.fields, "userId")
    ensures r.Success? ==> Get(j.fields, "userId") == Some(JString(r.value.userId))
  {
    match j
    case JObject(fs) =>
      var userId := Required(fs, "userId", KString, AsString);
      if userId.Success? then Success(TaskCollaborator(userId.value)) else Failure(userId.error)
    case _ => Failure(ObjectIssue(j))
  }

  function UnknownArray(j: Json): Result<seq<Json>, Issues> {
    ArrayOf(j, Verbatim)
  }

  function CollaboratorArray(j: Json): Result<seq<TaskCollaborator>, Issues> {
    ArrayOf(j, ValidateCollaborator)
  }

  /*
   * TaskSchema's eighteen keys are checked in four consecutive groups; the
   * groups only split the work, and concatenating their issues gives the
   * issues of the whole object in the schema's own key order.
   */

  /** `_id`, `name`, `description`, `color`, `columnId`, `swimlaneId`. */
  function TaskIdentity(fs: Fields): Result<(string, string, Option<string>, string, string, Option<string>), Issues> {
    var id := Required(fs, "_id", KString, AsString);
    var name := Required(fs, "name", KString, AsString);
    var description := Optional(fs, "description", AsString);
    var color := Required(fs, "color", KString, AsString);
    var columnId := Required(fs, "columnId", KString, AsString);
    var swimlaneId := Optional(fs, "swimlaneId", AsString);
    if && id.Success? && name.Success? && description.Success? && color.Success?
       && columnId.Success? && swimlaneId.Success?
    then Success((id.value, name.value, description.value, color.value, columnId.value, swimlaneId.value))
    else Failure(IssuesOf(id) + IssuesOf(name) + IssuesOf(description) + IssuesOf(color)
                 + IssuesOf(columnId) + IssuesOf(swimlaneId))
  }

  /** `position`, `totalSecondsSpent`, `totalSecondsEstimate`, `pointsEstimate`, `number`. */
  function TaskEffort(fs: Fields): Result<(Option<int>, Option<int>, Option<int>, Option<int>, Option<TaskNumber>), Issues> {
    var position := Optional(fs, "position", AsNumber);
    var totalSecondsSpent := Optional(fs, "totalSecondsSpent", AsNumber);
    var totalSecondsEstimate := Optional(fs, "totalSecondsEstimate", AsNumber);
    var pointsEstimate := Optional(fs, "pointsEstimate", AsNumber);
    var number := Optional(fs, "number", ValidateTaskNumber);
    if && position.Success? && totalSecondsSpent.Success? && totalSecondsEstimate.Success?
       && pointsEstimate.Success? && number.Success?
    then Success((position.value, totalSecondsSpent.value, totalSecondsEstimate.value,
                  pointsEstimate.value, number.value))
    else Failure(IssuesOf(position) + IssuesOf(totalSecondsSpent) + IssuesOf(totalSecondsEstimate)
                 + IssuesOf(pointsEstimate) + IssuesOf(number))
  }

  /** `responsibleUserId`, `collaborators`, `groupingDate`. */
  function TaskPeople(fs: Fields): Result<(Option<string>, Option<seq<TaskCollaborator>>, Option<string>), Issues> {
    var responsibleUserId := Optional(fs, "responsibleUserId", AsString);
    var collaborators := Optional(fs, "collaborators", CollaboratorArray);
    var groupingDate := Optional(fs, "groupingDate", AsString);
    if responsibleUserId.Success? && collaborators.Success? && groupingDate.Success?
    then Success((responsibleUserId.value, collaborators.value, groupingDate.value))
    else Failure(IssuesOf(responsibleUserId) + IssuesOf(collaborators) + IssuesOf(groupingDate))
  }

  /** `dates`, `subTasks`, `labels`, `customFields`: arrays passed through as they are. */
  function TaskExtras(fs: Fields): Result<(Option<seq<Json>>, Option<seq<Json>>, Option<seq<Json>>, Option<seq<Json>>), Issues> {
    var dates := Optional(fs, "dates", UnknownArray);
    var subTasks := Optional(fs, "subTasks", UnknownArray);
    var labels := Optional(fs, "labels", UnknownArray);
    var customFields := Optional(fs, "customFields", UnknownArray);
    if dates.Success? && subTasks.Success? && labels.Success? && customFields.Success?
    then Success((dates.value, subTasks.value, labels.value, customFields.value))
    else Failure(IssuesOf(dates) + IssuesOf(subTasks) + IssuesOf(labels) + IssuesOf(customFields))
  }

  /**
   * TaskSchema. The full reading of an accepted task is TaskReadsFields; the
   * contract here gives the four required keys and the rejection of a
   * non-object.
   */
  function ValidateTask(j: Json): (r: Result<Task, Issues>)
    ensures !j.JObject? ==> r == Failure([Issue([], KObject, KindOf(j))])
    ensures r.Success? ==>
              && j.JObject?
              && Get(j.fields, "_id") == Some(JString(r.value.id))
              && Get(j.fields, "name") == Some(JString(r.value.name))
              && Get(j.fields, "color") == Some(JString(r.value.color))
              && Get(j.fields, "columnId") == Some(JString(r.value.columnId))
  {
    match j
    case JObject(fs) =>
      var identity := TaskIdentity(fs);
      var effort := TaskEffort(fs);
      var people := TaskPeople(fs);
      var extras := TaskExtras(fs);
      if identity.Success? && effort.Success? && people.Success? && extras.Success? then
        var (id, name, description, color, columnId, swimlaneId) := identity.value;
        var (position, spent, estimate, points, number) := effort.value;
        var (responsible, collaborators, groupingDate) := people.value;
        var (dates, subTasks, labels, customFields) := extras.value;
        Success(Task(id, name, description, color, columnId, swimlaneId, position, spent,
                     estimate, points, number, responsible, collaborators, groupingDate,
                     dates, subTasks, labels, customFields))
      else
        Failure(IssuesOf(identity) + IssuesOf(effort) + IssuesOf(people) + IssuesOf(extras))
    case _ => Failure(ObjectIssue(j))
  }

  /** BoardColumnSchema: an object with string `name` and `uniqueId`. */
  function ValidateColumn(j: Json): (r: Result<BoardColumn, Issues>)
    ensures r.Success? <==> j.JObject? && StringAt(j.fields, "name") && StringAt(j.fields, "uniqueId")
    ensures r.Success? ==>
              && Get(j.fields, "name") == Some(JString(r.value.name))
              && Get(j.fields, "uniqueId") == Some(JString(r.value.uniqueId))
  {
    match j
    case JObject(fs) =>
      var name := Required(fs, "name", KString, AsString);
      var uniqueId := Required(fs, "uniqueId", KString, AsString);
      if name.Success? && uniqueId.Success? then Success(BoardColumn(name.value, uniqueId.value))
      else Failure(IssuesOf(name) + IssuesOf(uniqueId))
    case _ => Failure(ObjectIssue(j))
  }

  /** BoardSwimlaneSchema: the shape of a column. */
  function ValidateSwimlane(j: Json): (r: Result<BoardSwimlane, Issues>)
    ensures r.Success? <==> j.JObject? && StringAt(j.fields, "name") && StringAt(j.fields, "uniqueId")
    ensures r.Success? ==>
              && Get(j.fields, "name") == Some(JString(r.value.name))
              && Get(j.fields, "uniqueId") == Some(JString(r.value.uniqueId))
  {
    match j
    case JObject(fs) =>
      var name := Required(fs, "name", KString, AsString);
      var uniqueId := Required(fs, "uniqueId", KString, AsString);
      if name.Success? && uniqueId.Success? then Success(BoardSwimlane(name.value, uniqueId.value))
      else Failure(IssuesOf(name) + IssuesOf(uniqueId))
    case _ => Failure(ObjectIssue(j))
  }

  /** BoardColorSchema: string `name` and `value`; `description` may be missing, and then stays absent. */
  function ValidateColor(j: Json): (r: Result<BoardColor, Issues>)
    ensures r.Success? <==>
              && j.JObject? && StringAt(j.fields, "name") && StringAt(j.fields, "value")
              && (Get(j.fields, "description").None? || Get(j.fields, "description").value.JString?)
    ensures r.Success? ==>
              && Get(j.fields, "name") == Some(JString(r.value.name))
              && Get(j.fields, "value") == Some(JString(r.value.value))
              && (r.value.description.None? <==> Get(j.fields, "description").None?)
              && (r.value.description.Some? ==> Get(j.fields, "description") == Some(JString(r.value.description.value)))
  {
    match j
    case JObject(fs) =>
      var name := Required(fs, "name", KString, AsString);
      var value := Required(fs, "value", KString, AsString);
      var description := Optional(fs, "description", AsString);
      if name.Success? && value.Success? && description.Success? then
        Success(BoardColor(name.value, value.value, description.value))
      else Failure(IssuesOf(name) + IssuesOf(value) + IssuesOf(description))
    case _ => Failure(ObjectIssue(j))
  }

  function ColumnArray(j: Json): Result<seq<BoardColumn>, Issues> {
    ArrayOf(j, ValidateColumn)
  }

  function SwimlaneArray(j: Json): Result<seq<BoardSwimlane>, Issues> {
    ArrayOf(j, ValidateSwimlane)
  }

  function ColorArray(j: Json): Result<seq<BoardColor>, Issues> {
    ArrayOf(j, ValidateColor)
  }

  /**
   * BoardResponseSchema: string `_id` and `name` and an array `columns` of
   * valid columns; `swimlanes` and `colors` may be missing, but when present
   * must be arrays of valid entries.
   */
  function ValidateBoard(j: Json): (r: Result<Board, Issues>)
    ensures r.Success? <==>
              && j.JObject? && StringAt(j.fields, "_id") && StringAt(j.fields, "name")
              && Get(j.fields, "columns").Some? && ColumnArray(Get(j.fields, "columns").value).Success?
              && (Get(j.fields, "swimlanes").None? || SwimlaneArray(Get(j.fields, "swimlanes").value).Success?)
              && (Get(j.fields, "colors").None? || ColorArray(Get(j.fields, "colors").value).Success?)
    ensures r.Success? ==>
              && Get(j.fields, "_id") == Some(JString(r.value.id))
              && Get(j.fields, "name") == Some(JString(r.value.name))
              && r.value.columns == ColumnArray(Get(j.fields, "columns").value).value
              && (r.value.swimlanes.None? <==> Get(j.fields, "swimlanes").None?)
              && (r.value.swimlanes.Some? ==> r.value.swimlanes.value == SwimlaneArray(Get(j.fields, "swimlanes").value).value)
              && (r.value.colors.None? <==> Get(j.fields, "colors").None?)
              && (r.value.colors.Some? ==> r.value.colors.value == ColorArray(Get(j.fields, "colors").value).value)
  {
    match j
    case JObject(fs) =>
      var id := Required(fs, "_id", KString, AsString);
      var name := Required(fs, "name", KString, AsString);
      var columns := Required(fs, "columns", KArray, ColumnArray);
      var swimlanes := Optional(fs, "swimlanes", SwimlaneArray);
      var colors := Optional(fs, "colors", ColorArray);
      if id.Success? && name.Success? && columns.Success? && swimlanes.Success? && colors.Success? then
        Success(Board(id.value, name.value, columns.value, swimlanes.value, colors.value))
      else
        Failure(IssuesOf(id) + IssuesOf(name) + IssuesOf(columns) + IssuesOf(swimlanes) + IssuesOf(colors))
    case _ => Failure(ObjectIssue(j))
  }

  function TaskArray(j: Json): Result<seq<Task>, Issues> {
    ArrayOf(j, ValidateTask)
  }

  /**
   * TasksColumnResponseSchema: string `columnId` and `columnName`, a boolean
   * `tasksLimited` and an array `tasks` of valid tasks; `nextTaskId` may be
   * missing but not mistyped.
   */
  function ValidateTasksColumn(j: Json): (r: Result<TasksColumnResponse, Issues>)
    ensures r.Success? <==>
              && j.JObject? && StringAt(j.fields, "columnId") && StringAt(j.fields, "columnName")
              && Get(j.fields, "tasksLimited").Some? && Get(j.fields, "tasksLimited").value.JBool?
              && (Get(j.fields, "nextTaskId").None? || Get(j.fields, "nextTaskId").value.JString?)
              && Get(j.fields, "tasks").Some? && TaskArray(Get(j.fields, "tasks").value).Success?
    ensures r.Success? ==>
              && Get(j.fields, "columnId") == Some(JString(r.value.columnId))
              && Get(j.fields, "columnName") == Some(JString(r.value.columnName))
              && Get(j.fields, "tasksLimited") == Some(JBool(r.value.tasksLimited))
              && (r.value.nextTaskId.None? <==> Get(j.fields, "nextTaskId").None?)
              && (r.value.nextTaskId.Some? ==> Get(j.fields, "nextTaskId") == Some(JString(r.value.nextTaskId.value)))
              && r.value.tasks == TaskArray(Get(j.fields, "tasks").value).value
  {
    match j
    case JObject(fs) =>
      var columnId := Required(fs, "columnId", KString, AsString);
      var columnName := Required(fs, "columnName", KString, AsString);
      var tasksLimited := Required(fs, "tasksLimited", KBool, AsBool);
      var nextTaskId := Optional(fs, "nextTaskId", AsString);
      var tasks := Required(fs, "tasks", KArray, TaskArray);
      if columnId.Success? && columnName.Success? && tasksLimited.Success? && nextTaskId.Success? && tasks.Success? then
        Success(TasksColumnResponse(columnId.value, columnName.value, tasksLimited.value, nextTaskId.value, tasks.value))
      else
        Failure(IssuesOf(columnId) + IssuesOf(columnName) + IssuesOf(tasksLimited) + IssuesOf(nextTaskId) + IssuesOf(tasks))
    case _ => Failure(ObjectIssue(j))
  }

  /** TasksResponseSchema: an array of column pages, accepted iff every page is, in order. */
  function ValidateTasksResponse(j: Json): (r: Result<TasksResponse, Issues>)
    ensures r.Success? <==> j.JArray? && forall i :: 0 <= i < |j.elems| ==> ValidateTasksColumn(j.elems[i]).Success?
    ensures r.Success? ==>
              && |r.value| == |j.elems|
              && forall i :: 0 <= i < |j.elems| ==> r.value[i] == ValidateTasksColumn(j.elems[i]).value
  {
    ArrayOf(j, ValidateTasksColumn)
  }

  /** A key of the user's own record rather than of its remaining entries. */
  predicate UserKey(key: string) {
    key == "_id" || key == "fullName"
  }

  /**
   * The entries of a user object other than the two the core reads: exactly
   * the entries under other keys (their order is OtherFieldsConcat).
   */
  function OtherFields(fs: Fields): (r: Fields)
    ensures forall i :: 0 <= i < |r| ==> r[i] in fs && !UserKey(r[i].0)
    ensures forall e :: e in fs && !UserKey(e.0) ==> e in r
    decreases |fs|
  {
    if fs == [] then []
    else
      var rest := OtherFields(fs[1..]);
      assert forall e :: e in fs && e != fs[0] ==> e in fs[1..];
      if UserKey(fs[0].0) then rest else [fs[0]] + rest
  }

  /** A user: string `_id` and `fullName`; every other entry lands in `profile`. */
  function ValidateUser(j: Json): (r: Result<User, Issues>)
    ensures r.Success? <==> j.JObject? && StringAt(j.fields, "_id") && StringAt(j.fields, "fullName")
    ensures r.Success? ==>
              && Get(j.fields, "_id") == Some(JString(r.value.id))
              && Get(j.fields, "fullName") == Some(JString(r.value.fullName))
              && r.value.profile == OtherFields(j.fields)
  {
    match j
    case JObject(fs) =>
      var id := Required(fs, "_id", KString, AsString);
      var fullName := Required(fs, "fullName", KString, AsString);
      if id.Success? && fullName.Success? then Success(User(id.value, fullName.value, OtherFields(fs)))
      else Failure(IssuesOf(id) + IssuesOf(fullName))
    case _ => Failure(ObjectIssue(j))
  }

  /** UsersResponseSchema: an array of users, accepted iff every user is, in order. */
  function ValidateUsers(j: Json): (r: Result<seq<User>, Issues>)
    ensures r.Success? <==> j.JArray? && forall i :: 0 <= i < |j.elems| ==> ValidateUser(j.elems[i]).Success?
    ensures r.Success? ==>
              && |r.value| == |j.elems|
              && forall i :: 0 <= i < |j.elems| ==> r.value[i] == ValidateUser(j.elems[i]).value
  {
    ArrayOf(j, ValidateUser)
  }
}
