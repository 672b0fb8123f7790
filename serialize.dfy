/**
 * Serialisation of the typed records back to Json, the partner of the
 * validators: validating what a record serialises to gives the record back.
 * Optional fields that are absent are written as missing keys, as
 * JSON.stringify does with `undefined`.
 */
module Serialize {
  import opened Wrappers
  import opened JsonValues
  import opened Schemas

  /** Entries in schema order; an absent optional field is `None`. */
  type Entries = seq<(string, Option<Json>)>

  ghost predicate DistinctKeys(es: Entries) {
    forall i, j :: 0 <= i < j < |es| ==> es[i].0 != es[j].0
  }

  /** The object fields of an entry list: absent fields are left out. */
  function Compact(es: Entries): (fs: Fields)
    decreases |es|
  {
    if es == [] then []
    else
      var init := Compact(es[..|es| - 1]);
      var e := es[|es| - 1];
      if e.1.Some? then init + [(e.0, e.1.value)] else init
  }

  lemma {:induction false} GetCompactMissing(es: Entries, key: string)
    requires forall i :: 0 <= i < |es| ==> es[i].0 != key
    ensures Get(Compact(es), key) == None
    decreases |es|
  {
    if es != [] {
      var n := |es| - 1;
      GetCompactMissing(es[..n], key);
      if es[n].1.Some? {
        GetConcat(Compact(es[..n]), [(es[n].0, es[n].1.value)], key);
      }
    }
  }

  lemma {:induction false} GetCompactAt(es: Entries, i: nat)
    requires i < |es| && DistinctKeys(es)
    ensures Get(Compact(es), es[i].0) == es[i].1
    decreases |es|
  {
    var n := |es| - 1;
    var init := es[..n];
    assert DistinctKeys(init);
    if i == n {
      GetCompactMissing(init, es[i].0);
    } else {
      GetCompactAt(init, i);
    }
    if es[n].1.Some? {
      GetConcat(Compact(init), [(es[n].0, es[n].1.value)], es[i].0);
    }
  }

  function OptString(o: Option<string>): Option<Json> {
    if o.Some? then Some(JString(o.value)) else None
  }

  function OptNumber(o: Option<int>): Option<Json> {
    if o.Some? then Some(JNumber(o.value)) else None
  }

  function OptArray(o: Option<seq<Json>>): Option<Json> {
    if o.Some? then Some(JArray(o.value)) else None
  }

  function ArrayJson<T>(xs: seq<T>, enc: T -> Json): (j: Json)
    ensures j.JArray? && |j.elems| == |xs|
    ensures forall i :: 0 <= i < |xs| ==> j.elems[i] == enc(xs[i])
  {
    JArray(seq(|xs|, i requires 0 <= i < |xs| => enc(xs[i])))
  }

  /** An array of encoded elements validates back to the elements when each one does. */
  lemma ArrayRoundTrip<T>(xs: seq<T>, enc: T -> Json, check: Check<T>)
    requires forall i :: 0 <= i < |xs| ==> check(enc(xs[i])) == Success(xs[i])
    ensures ArrayOf(ArrayJson(xs, enc), check) == Success(xs)
  {
    var r := ArrayOf(ArrayJson(xs, enc), check);
    assert r.Success?;
    assert r.value == xs;
  }

  lemma UnknownArrayRoundTrip(es: seq<Json>)
    ensures UnknownArray(JArray(es)) == Success(es)
  {
    var r := UnknownArray(JArray(es));
    assert r.value == es;
  }

  // ------------------------------------------------------------------ tasks

  function TaskNumberToJson(n: TaskNumber): Json {
    JObject(Compact([("prefix", OptString(n.prefix)), ("value", Some(JNumber(n.value)))]))
  }

  function CollaboratorToJson(c: TaskCollaborator): Json {
    JObject([("userId", JString(c.userId))])
  }

  function OptTaskNumber(o: Option<TaskNumber>): Option<Json> {
    if o.Some? then Some(TaskNumberToJson(o.value)) else None
  }

  function OptCollaborators(o: Option<seq<TaskCollaborator>>): Option<Json> {
    if o.Some? then Some(ArrayJson(o.value, CollaboratorToJson)) else None
  }

  /** The keys of TaskSchema, in the order the schema lists them. */
  const TaskKeys: seq<string> := [
    "_id", "name", "description", "color", "columnId", "swimlaneId", "position",
    "totalSecondsSpent", "totalSecondsEstimate", "pointsEstimate", "number",
    "responsibleUserId", "collaborators", "groupingDate", "dates", "subTasks",
    "labels", "customFields"]

  lemma TaskKeysDistinct()
    ensures forall i, j :: 0 <= i < j < |TaskKeys| ==> TaskKeys[i] != TaskKeys[j]
  {
  }

  function TaskEntries(t: Task): Entries {
    [ ("_id", Some(JString(t.id))),
      ("name", Some(JString(t.name))),
      ("description", OptString(t.description)),
      ("color", Some(JString(t.color))),
      ("columnId", Some(JString(t.columnId))),
      ("swimlaneId", OptString(t.swimlaneId)),
      ("position", OptNumber(t.position)),
      ("totalSecondsSpent", OptNumber(t.totalSecondsSpent)),
      ("totalSecondsEstimate", OptNumber(t.totalSecondsEstimate)),
      ("pointsEstimate", OptNumber(t.pointsEstimate)),
      ("number", OptTaskNumber(t.number)),
      ("responsibleUserId", OptString(t.responsibleUserId)),
      ("collaborators", OptCollaborators(t.collaborators)),
      ("groupingDate", OptString(t.groupingDate)),
      ("dates", OptArray(t.dates)),
      ("subTasks", OptArray(t.subTasks)),
      ("labels", OptArray(t.labels)),
      ("customFields", OptArray(t.customFields)) ]
  }

  function TaskToJson(t: Task): Json {
    JObject(Compact(TaskEntries(t)))
  }

  lemma TaskNumberRoundTrip(n: TaskNumber)
    ensures ValidateTaskNumber(TaskNumberToJson(n)) == Success(n)
  {
    var es := [("prefix", OptString(n.prefix)), ("value", Some(JNumber(n.value)))];
    GetCompactAt(es, 0);
    GetCompactAt(es, 1);
  }

  lemma CollaboratorsRoundTrip(cs: seq<TaskCollaborator>)
    ensures CollaboratorArray(ArrayJson(cs, CollaboratorToJson)) == Success(cs)
  {
    forall i | 0 <= i < |cs| ensures ValidateCollaborator(CollaboratorToJson(cs[i])) == Success(cs[i]) {
      assert Get([("userId", JString(cs[i].userId))], "userId") == Some(JString(cs[i].userId));
    }
    ArrayRoundTrip(cs, CollaboratorToJson, ValidateCollaborator);
  }

  /** A field that an optional check reads back as the value it was written from. */
  lemma OptionalReadBack<T>(fs: Fields, key: string, check: Check<T>, o: Option<T>, written: Option<Json>)
    requires Get(fs, key) == written
    requires o.None? ==> written.None?
    requires o.Some? ==> written.Some? && check(written.value) == Success(o.value)
    ensures Optional(fs, key, check) == Success(o)
  {
  }

  lemma TaskIdentityFromLookups(fs: Fields, t: Task)
    requires Get(fs, "_id") == Some(JString(t.id))
    requires Get(fs, "name") == Some(JString(t.name))
    requires Get(fs, "description") == OptString(t.description)
    requires Get(fs, "color") == Some(JString(t.color))
    requires Get(fs, "columnId") == Some(JString(t.columnId))
    requires Get(fs, "swimlaneId") == OptString(t.swimlaneId)
    ensures TaskIdentity(fs) == Success((t.id, t.name, t.description, t.color, t.columnId, t.swimlaneId))
  {
    assert Required(fs, "_id", KString, AsString) == Success(t.id);
    assert Required(fs, "name", KString, AsString) == Success(t.name);
    assert Optional(fs, "description", AsString) == Success(t.description) by { OptionalReadBack(fs, "description", AsString, t.description, OptString(t.description)); }
    assert Required(fs, "color", KString, AsString) == Success(t.color);
    assert Required(fs, "columnId", KString, AsString) == Success(t.columnId);
    assert Optional(fs, "swimlaneId", AsString) == Success(t.swimlaneId) by { OptionalReadBack(fs, "swimlaneId", AsString, t.swimlaneId, OptString(t.swimlaneId)); }
  }

  lemma TaskEffortFromLookups(fs: Fields, t: Task)
    requires Get(fs, "position") == OptNumber(t.position)
    requires Get(fs, "totalSecondsSpent") == OptNumber(t.totalSecondsSpent)
    requires Get(fs, "totalSecondsEstimate") == OptNumber(t.totalSecondsEstimate)
    requires Get(fs, "pointsEstimate") == OptNumber(t.pointsEstimate)
    requires Get(fs, "number").Some? <==> t.number.Some?
    requires t.number.Some? ==> ValidateTaskNumber(Get(fs, "number").value) == Success(t.number.value)
    ensures TaskEffort(fs) == Success((t.position, t.totalSecondsSpent, t.totalSecondsEstimate, t.pointsEstimate, t.number))
  {
    assert Optional(fs, "position", AsNumber) == Success(t.position) by { OptionalReadBack(fs, "position", AsNumber, t.position, OptNumber(t.position)); }
    assert Optional(fs, "totalSecondsSpent", AsNumber) == Success(t.totalSecondsSpent) by { OptionalReadBack(fs, "totalSecondsSpent", AsNumber, t.totalSecondsSpent, OptNumber(t.totalSecondsSpent)); }
    assert Optional(fs, "totalSecondsEstimate", AsNumber) == Success(t.totalSecondsEstimate) by { OptionalReadBack(fs, "totalSecondsEstimate", AsNumber, t.totalSecondsEstimate, OptNumber(t.totalSecondsEstimate)); }
    assert Optional(fs, "pointsEstimate", AsNumber) == Success(t.pointsEstimate) by { OptionalReadBack(fs, "pointsEstimate", AsNumber, t.pointsEstimate, OptNumber(t.pointsEstimate)); }
    assert Optional(fs, "number", ValidateTaskNumber) == Success(t.number) by { OptionalReadBack(fs, "number", ValidateTaskNumber, t.number, Get(fs, "number")); }
  }

  lemma TaskPeopleFromLookups(fs: Fields, t: Task)
    requires Get(fs, "responsibleUserId") == OptString(t.responsibleUserId)
    requires Get(fs, "collaborators").Some? <==> t.collaborators.Some?
    requires t.collaborators.Some? ==> CollaboratorArray(Get(fs, "collaborators").value) == Success(t.collaborators.value)
    requires Get(fs, "groupingDate") == OptString(t.groupingDate)
    ensures TaskPeople(fs) == Success((t.responsibleUserId, t.collaborators, t.groupingDate))
  {
    assert Optional(fs, "responsibleUserId", AsString) == Success(t.responsibleUserId) by { OptionalReadBack(fs, "responsibleUserId", AsString, t.responsibleUserId, OptString(t.responsibleUserId)); }
    assert Optional(fs, "collaborators", CollaboratorArray) == Success(t.collaborators) by { OptionalReadBack(fs, "collaborators", CollaboratorArray, t.collaborators, Get(fs, "collaborators")); }
    assert Optional(fs, "groupingDate", AsString) == Success(t.groupingDate) by { OptionalReadBack(fs, "groupingDate", AsString, t.groupingDate, OptString(t.groupingDate)); }
  }

  lemma TaskExtrasFromLookups(fs: Fields, t: Task)
    requires Get(fs, "dates") == OptArray(t.dates)
    requires Get(fs, "subTasks") == OptArray(t.subTasks)
    requires Get(fs, "labels") == OptArray(t.labels)
    requires Get(fs, "customFields") == OptArray(t.customFields)
    ensures TaskExtras(fs) == Success((t.dates, t.subTasks, t.labels, t.customFields))
  {
    assert Optional(fs, "dates", UnknownArray) == Success(t.dates) by { if t.dates.Some? { UnknownArrayRoundTrip(t.dates.value); } OptionalReadBack(fs, "dates", UnknownArray, t.dates, OptArray(t.dates)); }
    assert Optional(fs, "subTasks", UnknownArray) == Success(t.subTasks) by { if t.subTasks.Some? { UnknownArrayRoundTrip(t.subTasks.value); } OptionalReadBack(fs, "subTasks", UnknownArray, t.subTasks, OptArray(t.subTasks)); }
    assert Optional(fs, "labels", UnknownArray) == Success(t.labels) by { if t.labels.Some? { UnknownArrayRoundTrip(t.labels.value); } OptionalReadBack(fs, "labels", UnknownArray, t.labels, OptArray(t.labels)); }
    assert Optional(fs, "customFields", UnknownArray) == Success(t.customFields) by { if t.customFields.Some? { UnknownArrayRoundTrip(t.customFields.value); } OptionalReadBack(fs, "customFields", UnknownArray, t.customFields, OptArray(t.customFields)); }
  }

  /**
   * The task that a decoded object describes, given what each of its keys
   * holds: the converse of TaskReadsFields. `number` and `collaborators` may
   * be any values their own schemas accept as the task's fields, in any key
   * order and with extra keys.
   */
  lemma TaskFromLookups(fs: Fields, t: Task)
    requires Get(fs, "_id") == Some(JString(t.id))
    requires Get(fs, "name") == Some(JString(t.name))
    requires Get(fs, "description") == OptString(t.description)
    requires Get(fs, "color") == Some(JString(t.color))
    requires Get(fs, "columnId") == Some(JString(t.columnId))
    requires Get(fs, "swimlaneId") == OptString(t.swimlaneId)
    requires Get(fs, "position") == OptNumber(t.position)
    requires Get(fs, "totalSecondsSpent") == OptNumber(t.totalSecondsSpent)
    requires Get(fs, "totalSecondsEstimate") == OptNumber(t.totalSecondsEstimate)
    requires Get(fs, "pointsEstimate") == OptNumber(t.pointsEstimate)
    requires Get(fs, "number").Some? <==> t.number.Some?
    requires t.number.Some? ==> ValidateTaskNumber(Get(fs, "number").value) == Success(t.number.value)
    requires Get(fs, "responsibleUserId") == OptString(t.responsibleUserId)
    requires Get(fs, "collaborators").Some? <==> t.collaborators.Some?
    requires t.collaborators.Some? ==> CollaboratorArray(Get(fs, "collaborators").value) == Success(t.collaborators.value)
    requires Get(fs, "groupingDate") == OptString(t.groupingDate)
    requires Get(fs, "dates") == OptArray(t.dates)
    requires Get(fs, "subTasks") == OptArray(t.subTasks)
    requires Get(fs, "labels") == OptArray(t.labels)
    requires Get(fs, "customFields") == OptArray(t.customFields)
    ensures ValidateTask(JObject(fs)) == Success(t)
  {
    TaskIdentityFromLookups(fs, t);
    TaskEffortFromLookups(fs, t);
    TaskPeopleFromLookups(fs, t);
    TaskExtrasFromLookups(fs, t);
  }

  /** Serialising any task and validating the result gives the same task. */
  lemma TaskEntriesDistinct(t: Task)
    ensures DistinctKeys(TaskEntries(t))
  {
    var es := TaskEntries(t);
    assert forall i :: 0 <= i < |es| ==> es[i].0 == TaskKeys[i];
    TaskKeysDistinct();
  }

  lemma TaskRoundTrip(t: Task)
    ensures ValidateTask(TaskToJson(t)) == Success(t)
  {
    var es := TaskEntries(t);
    TaskEntriesDistinct(t);
    GetCompactAt(es, 0);
    GetCompactAt(es, 1);
    GetCompactAt(es, 2);
    GetCompactAt(es, 3);
    GetCompactAt(es, 4);
    GetCompactAt(es, 5);
    GetCompactAt(es, 6);
    GetCompactAt(es, 7);
    GetCompactAt(es, 8);
    GetCompactAt(es, 9);
    GetCompactAt(es, 10);
    GetCompactAt(es, 11);
    GetCompactAt(es, 12);
    GetCompactAt(es, 13);
    GetCompactAt(es, 14);
    GetCompactAt(es, 15);
    GetCompactAt(es, 16);
    GetCompactAt(es, 17);
    if t.number.Some? { TaskNumberRoundTrip(t.number.value); }
    if t.collaborators.Some? { CollaboratorsRoundTrip(t.collaborators.value); }
    TaskFromLookups(Compact(es), t);
  }

  // ------------------------------------------------------------------ boards

  function ColumnToJson(c: BoardColumn): Json {
    JObject([("name", JString(c.name)), ("uniqueId", JString(c.uniqueId))])
  }

  function SwimlaneToJson(l: BoardSwimlane): Json {
    JObject([("name", JString(l.name)), ("uniqueId", JString(l.uniqueId))])
  }

  function ColorToJson(c: BoardColor): Json {
    JObject(Compact([("name", Some(JString(c.name))), ("value", Some(JString(c.value))),
                     ("description", OptString(c.description))]))
  }

  function OptSwimlanes(o: Option<seq<BoardSwimlane>>): Option<Json> {
    if o.Some? then Some(ArrayJson(o.value, SwimlaneToJson)) else None
  }

  function OptColors(o: Option<seq<BoardColor>>): Option<Json> {
    if o.Some? then Some(ArrayJson(o.value, ColorToJson)) else None
  }

  function BoardEntries(b: Board): Entries {
    [ ("_id", Some(JString(b.id))),
      ("name", Some(JString(b.name))),
      ("columns", Some(ArrayJson(b.columns, ColumnToJson))),
      ("swimlanes", OptSwimlanes(b.swimlanes)),
      ("colors", OptColors(b.colors)) ]
  }

  function BoardToJson(b: Board): Json {
    JObject(Compact(BoardEntries(b)))
  }

  lemma ColumnsRoundTrip(cs: seq<BoardColumn>)
    ensures ColumnArray(ArrayJson(cs, ColumnToJson)) == Success(cs)
  {
    forall i | 0 <= i < |cs| ensures ValidateColumn(ColumnToJson(cs[i])) == Success(cs[i]) {
      var fs := [("name", JString(cs[i].name)), ("uniqueId", JString(cs[i].uniqueId))];
      assert Get(fs, "name") == Get(fs[..1], "name");
    }
    ArrayRoundTrip(cs, ColumnToJson, ValidateColumn);
  }

  lemma SwimlanesRoundTrip(ls: seq<BoardSwimlane>)
    ensures SwimlaneArray(ArrayJson(ls, SwimlaneToJson)) == Success(ls)
  {
    forall i | 0 <= i < |ls| ensures ValidateSwimlane(SwimlaneToJson(ls[i])) == Success(ls[i]) {
      var fs := [("name", JString(ls[i].name)), ("uniqueId", JString(ls[i].uniqueId))];
      assert Get(fs, "name") == Get(fs[..1], "name");
    }
    ArrayRoundTrip(ls, SwimlaneToJson, ValidateSwimlane);
  }

  lemma ColorsRoundTrip(cs: seq<BoardColor>)
    ensures ColorArray(ArrayJson(cs, ColorToJson)) == Success(cs)
  {
    forall i | 0 <= i < |cs| ensures ValidateColor(ColorToJson(cs[i])) == Success(cs[i]) {
      var c := cs[i];
      var es := [("name", Some(JString(c.name))), ("value", Some(JString(c.value))),
                 ("description", OptString(c.description))];
      GetCompactAt(es, 0);
      GetCompactAt(es, 1);
      GetCompactAt(es, 2);
    }
    ArrayRoundTrip(cs, ColorToJson, ValidateColor);
  }

  /** Serialising any board and validating the result gives the same board. */
  lemma BoardRoundTrip(b: Board)
    ensures ValidateBoard(BoardToJson(b)) == Success(b)
  {
    var es := BoardEntries(b);
    var fs := Compact(es);
    assert DistinctKeys(es);
    GetCompactAt(es, 0);
    GetCompactAt(es, 1);
    GetCompactAt(es, 2);
    GetCompactAt(es, 3);
    GetCompactAt(es, 4);
    ColumnsRoundTrip(b.columns);
    if b.swimlanes.Some? { SwimlanesRoundTrip(b.swimlanes.value); }
    OptionalReadBack(fs, "swimlanes", SwimlaneArray, b.swimlanes, OptSwimlanes(b.swimlanes));
    if b.colors.Some? { ColorsRoundTrip(b.colors.value); }
    OptionalReadBack(fs, "colors", ColorArray, b.colors, OptColors(b.colors));
  }

  // ------------------------------------------------------------ task listings

  function TasksColumnEntries(c: TasksColumnResponse): Entries {
    [ ("columnId", Some(JString(c.columnId))),
      ("columnName", Some(JString(c.columnName))),
      ("tasksLimited", Some(JBool(c.tasksLimited))),
      ("nextTaskId", OptString(c.nextTaskId)),
      ("tasks", Some(ArrayJson(c.tasks, TaskToJson))) ]
  }

  function TasksColumnToJson(c: TasksColumnResponse): Json {
    JObject(Compact(TasksColumnEntries(c)))
  }

  function TasksResponseToJson(r: TasksResponse): Json {
    ArrayJson(r, TasksColumnToJson)
  }

  /** A serialised task list validates back to the same tasks, in order. */
  lemma TaskArrayRoundTrip(ts: seq<Task>)
    ensures TaskArray(ArrayJson(ts, TaskToJson)) == Success(ts)
  {
    forall i | 0 <= i < |ts| ensures ValidateTask(TaskToJson(ts[i])) == Success(ts[i]) {
      TaskRoundTrip(ts[i]);
    }
    ArrayRoundTrip(ts, TaskToJson, ValidateTask);
  }

  lemma TasksColumnFromLookups(fs: Fields, c: TasksColumnResponse)
    requires Get(fs, "columnId") == Some(JString(c.columnId))
    requires Get(fs, "columnName") == Some(JString(c.columnName))
    requires Get(fs, "tasksLimited") == Some(JBool(c.tasksLimited))
    requires Get(fs, "nextTaskId") == OptString(c.nextTaskId)
    requires Get(fs, "tasks").Some? && TaskArray(Get(fs, "tasks").value) == Success(c.tasks)
    ensures ValidateTasksColumn(JObject(fs)) == Success(c)
  {
    OptionalReadBack(fs, "nextTaskId", AsString, c.nextTaskId, OptString(c.nextTaskId));
  }

  lemma TasksColumnRoundTrip(c: TasksColumnResponse)
    ensures ValidateTasksColumn(TasksColumnToJson(c)) == Success(c)
  {
    var es := TasksColumnEntries(c);
    var fs := Compact(es);
    assert DistinctKeys(es);
    GetCompactAt(es, 0);
    GetCompactAt(es, 1);
    GetCompactAt(es, 2);
    GetCompactAt(es, 3);
    GetCompactAt(es, 4);
    TaskArrayRoundTrip(c.tasks);
    TasksColumnFromLookups(fs, c);
  }

  /** Serialising a whole task listing and validating it gives the same listing. */
  lemma TasksResponseRoundTrip(r: TasksResponse)
    ensures ValidateTasksResponse(TasksResponseToJson(r)) == Success(r)
  {
    forall i | 0 <= i < |r| ensures ValidateTasksColumn(TasksColumnToJson(r[i])) == Success(r[i]) {
      TasksColumnRoundTrip(r[i]);
    }
    ArrayRoundTrip(r, TasksColumnToJson, ValidateTasksColumn);
  }
}
