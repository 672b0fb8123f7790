/**
 * Properties of BoardResponseSchema and TasksColumnResponseSchema of
 * src/kanbanflow/schemas.ts beyond the shapes their validators state: the
 * issue a missing required key produces, the rejection an invalid task
 * causes, and the unknown keys they tolerate.
 */
module BoardProps {
  import opened Wrappers
  import opened JsonValues
  import opened Schemas

  const BoardKeys: seq<string> := ["_id", "name", "columns", "swimlanes", "colors"]

  const TasksColumnKeys: seq<string> := ["columnId", "columnName", "tasksLimited", "nextTaskId", "tasks"]

  /** A board object missing `_id`, `name` or `columns` is rejected with "expected …, received undefined" at that key. */
  lemma BoardRejectsMissingKey(fs: Fields, k: string)
    requires k in ["_id", "name", "columns"] && Get(fs, k).None?
    ensures ValidateBoard(JObject(fs)).Failure?
    ensures Issue([Key(k)], if k == "columns" then KArray else KString, KUndefined) in ValidateBoard(JObject(fs)).error
  {
    var x := Issue([Key(k)], if k == "columns" then KArray else KString, KUndefined);
    var id := Required(fs, "_id", KString, AsString);
    var name := Required(fs, "name", KString, AsString);
    var columns := Required(fs, "columns", KArray, ColumnArray);
    assert x in IssuesOf(id) + IssuesOf(name) + IssuesOf(columns);
  }

  /** An unknown key, wherever it stands in the object, changes nothing about a board. */
  lemma BoardIgnoresUnknownKey(a: Fields, b: Fields, k: string, v: Json)
    requires k !in BoardKeys
    ensures ValidateBoard(JObject(a + [(k, v)] + b)) == ValidateBoard(JObject(a + b))
  {
    var fs, fs' := a + [(k, v)] + b, a + b;
    GetSkip(a, b, k, v, "_id");
    GetSkip(a, b, k, v, "name");
    GetSkip(a, b, k, v, "columns");
    GetSkip(a, b, k, v, "swimlanes");
    GetSkip(a, b, k, v, "colors");
    assert Required(fs, "_id", KString, AsString) == Required(fs', "_id", KString, AsString);
    assert Required(fs, "name", KString, AsString) == Required(fs', "name", KString, AsString);
    assert Required(fs, "columns", KArray, ColumnArray) == Required(fs', "columns", KArray, ColumnArray);
    assert Optional(fs, "swimlanes", SwimlaneArray) == Optional(fs', "swimlanes", SwimlaneArray);
    assert Optional(fs, "colors", ColorArray) == Optional(fs', "colors", ColorArray);
  }

  /** One invalid task on a column page rejects the whole page. */
  lemma TasksColumnRejectsBadTask(fs: Fields, es: seq<Json>, i: nat)
    requires Get(fs, "tasks") == Some(JArray(es))
    requires i < |es| && ValidateTask(es[i]).Failure?
    ensures ValidateTasksColumn(JObject(fs)).Failure?
  {
    assert !Elems(es, ValidateTask).Success?;
  }

  lemma TasksColumnIgnoresUnknownKey(a: Fields, b: Fields, k: string, v: Json)
    requires k !in TasksColumnKeys
    ensures ValidateTasksColumn(JObject(a + [(k, v)] + b)) == ValidateTasksColumn(JObject(a + b))
  {
    var fs, fs' := a + [(k, v)] + b, a + b;
    GetSkip(a, b, k, v, "columnId");
    GetSkip(a, b, k, v, "columnName");
    GetSkip(a, b, k, v, "tasksLimited");
    GetSkip(a, b, k, v, "nextTaskId");
    GetSkip(a, b, k, v, "tasks");
    assert Required(fs, "columnId", KString, AsString) == Required(fs', "columnId", KString, AsString);
    assert Required(fs, "columnName", KString, AsString) == Required(fs', "columnName", KString, AsString);
    assert Required(fs, "tasksLimited", KBool, AsBool) == Required(fs', "tasksLimited", KBool, AsBool);
    assert Optional(fs, "nextTaskId", AsString) == Optional(fs', "nextTaskId", AsString);
    assert Required(fs, "tasks", KArray, TaskArray) == Required(fs', "tasks", KArray, TaskArray);
  }
}
