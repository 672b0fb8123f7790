/**
 * What the schemas of src/kanbanflow/schemas.ts accept and reject, stated
 * over the validators: required fields, optional fields that stay absent,
 * mistyped fields that name themselves in an issue, nested element checks,
 * verbatim pass-through arrays and tolerated unknown keys.
 */
module SchemaProps {
  import opened Wrappers
  import opened JsonValues
  import opened Schemas
  import opened Serialize

  const TaskRequiredKeys: seq<string> := ["_id", "name", "color", "columnId"]

  /** The kind TaskSchema expects under each of its keys. */
  function TaskFieldKind(k: string): Kind {
    if k in ["_id", "name", "description", "color", "columnId", "swimlaneId",
             "responsibleUserId", "groupingDate"] then KString
    else if k in ["position", "totalSecondsSpent", "totalSecondsEstimate", "pointsEstimate"] then KNumber
    else if k == "number" then KObject
    else KArray
  }

  /** What a schema error reports as received for a key: undefined when it is missing. */
  function ReceivedKind(o: Option<Json>): Kind {
    if o.None? then KUndefined else KindOf(o.value)
  }

  /** A required or optional check that fails on a value of the wrong kind names the key. */
  lemma RequiredNamesKey<T>(fs: Fields, key: string, expected: Kind, check: Check<T>)
    requires Get(fs, key).Some? ==> check(Get(fs, key).value) == Failure([Issue([], expected, KindOf(Get(fs, key).value))])
    ensures Required(fs, key, expected, check).Failure?
    ensures Issue([Key(key)], expected, ReceivedKind(Get(fs, key))) in Required(fs, key, expected, check).error
  {
    if Get(fs, key).Some? {
      assert Required(fs, key, expected, check).error[0] == Issue([Key(key)], expected, ReceivedKind(Get(fs, key)));
    }
  }

  lemma OptionalNamesKey<T>(fs: Fields, key: string, expected: Kind, check: Check<T>)
    requires Get(fs, key).Some?
    requires check(Get(fs, key).value) == Failure([Issue([], expected, KindOf(Get(fs, key).value))])
    ensures Optional(fs, key, check).Failure?
    ensures Issue([Key(key)], expected, KindOf(Get(fs, key).value)) in Optional(fs, key, check).error
  {
    assert Optional(fs, key, check).error[0] == Issue([Key(key)], expected, KindOf(Get(fs, key).value));
  }

  /** An issue that one group of TaskSchema's keys reports is reported for the whole task. */
  lemma TaskCollectsGroupIssue(fs: Fields, x: Issue)
    requires || x in IssuesOf(TaskIdentity(fs)) || x in IssuesOf(TaskEffort(fs))
             || x in IssuesOf(TaskPeople(fs)) || x in IssuesOf(TaskExtras(fs))
    ensures ValidateTask(JObject(fs)).Failure?
    ensures x in ValidateTask(JObject(fs)).error
  {
  }

  /**
   * A task object whose required key is missing or holds something other
   * than a string is rejected with an issue naming that key.
   */
  lemma TaskRejectsBadRequiredField(fs: Fields, k: string)
    requires k in TaskRequiredKeys
    requires Get(fs, k).Some? ==> !Get(fs, k).value.JString?
    ensures ValidateTask(JObject(fs)).Failure?
    ensures Issue([Key(k)], KString, ReceivedKind(Get(fs, k))) in ValidateTask(JObject(fs)).error
  {
    var x := Issue([Key(k)], KString, ReceivedKind(Get(fs, k)));
    RequiredNamesKey(fs, k, KString, AsString);
    assert x in IssuesOf(TaskIdentity(fs)) by {
      var id := Required(fs, "_id", KString, AsString);
      var name := Required(fs, "name", KString, AsString);
      var color := Required(fs, "color", KString, AsString);
      var columnId := Required(fs, "columnId", KString, AsString);
      assert x in IssuesOf(id) || x in IssuesOf(name) || x in IssuesOf(color) || x in IssuesOf(columnId);
    }
    TaskCollectsGroupIssue(fs, x);
  }

  /** An optional string key that holds a non-string rejects the task, naming the key. */
  lemma TaskRejectsBadStringField(fs: Fields, k: string)
    requires k in ["description", "swimlaneId", "responsibleUserId", "groupingDate"]
    requires Get(fs, k).Some? && !Get(fs, k).value.JString?
    ensures ValidateTask(JObject(fs)).Failure?
    ensures Issue([Key(k)], KString, KindOf(Get(fs, k).value)) in ValidateTask(JObject(fs)).error
  {
    if k == "description" {
      OptionalNamesKey(fs, "description", KString, AsString);
    } else if k == "swimlaneId" {
      OptionalNamesKey(fs, "swimlaneId", KString, AsString);
    } else if k == "responsibleUserId" {
      OptionalNamesKey(fs, "responsibleUserId", KString, AsString);
    } else {
      OptionalNamesKey(fs, "groupingDate", KString, AsString);
    }
    TaskCollectsGroupIssue(fs, Issue([Key(k)], KString, KindOf(Get(fs, k).value)));
  }

  /** An optional number key that holds a non-number rejects the task, naming the key. */
  lemma TaskRejectsBadNumberField(fs: Fields, k: string)
    requires k in ["position", "totalSecondsSpent", "totalSecondsEstimate", "pointsEstimate"]
    requires Get(fs, k).Some? && !Get(fs, k).value.JNumber?
    ensures ValidateTask(JObject(fs)).Failure?
    ensures Issue([Key(k)], KNumber, KindOf(Get(fs, k).value)) in ValidateTask(JObject(fs)).error
  {
    if k == "position" {
      OptionalNamesKey(fs, "position", KNumber, AsNumber);
    } else if k == "totalSecondsSpent" {
      OptionalNamesKey(fs, "totalSecondsSpent", KNumber, AsNumber);
    } else if k == "totalSecondsEstimate" {
      OptionalNamesKey(fs, "totalSecondsEstimate", KNumber, AsNumber);
    } else {
      OptionalNamesKey(fs, "pointsEstimate", KNumber, AsNumber);
    }
    TaskCollectsGroupIssue(fs, Issue([Key(k)], KNumber, KindOf(Get(fs, k).value)));
  }

  /** `number` must hold an object; a non-object there rejects the task, naming the key. */
  lemma TaskRejectsBadNumberObject(fs: Fields)
    requires Get(fs, "number").Some? && !Get(fs, "number").value.JObject?
    ensures ValidateTask(JObject(fs)).Failure?
    ensures Issue([Key("number")], KObject, KindOf(Get(fs, "number").value)) in ValidateTask(JObject(fs)).error
  {
    OptionalNamesKey(fs, "number", KObject, ValidateTaskNumber);
    TaskCollectsGroupIssue(fs, Issue([Key("number")], KObject, KindOf(Get(fs, "number").value)));
  }

  /** An optional array key that holds a non-array rejects the task, naming the key. */
  lemma TaskRejectsBadArrayField(fs: Fields, k: string)
    requires k in ["collaborators", "dates", "subTasks", "labels", "customFields"]
    requires Get(fs, k).Some? && !Get(fs, k).value.JArray?
    ensures ValidateTask(JObject(fs)).Failure?
    ensures Issue([Key(k)], KArray, KindOf(Get(fs, k).value)) in ValidateTask(JObject(fs)).error
  {
    if k == "collaborators" {
      OptionalNamesKey(fs, "collaborators", KArray, CollaboratorArray);
    } else if k == "dates" {
      OptionalNamesKey(fs, "dates", KArray, UnknownArray);
    } else if k == "subTasks" {
      OptionalNamesKey(fs, "subTasks", KArray, UnknownArray);
    } else if k == "labels" {
      OptionalNamesKey(fs, "labels", KArray, UnknownArray);
    } else {
      OptionalNamesKey(fs, "customFields", KArray, UnknownArray);
    }
    TaskCollectsGroupIssue(fs, Issue([Key(k)], KArray, KindOf(Get(fs, k).value)));
  }

  /**
   * Any of the eighteen keys of TaskSchema: a missing required key, or a key
   * holding a value of the wrong kind, rejects the task with an issue naming
   * that key, the kind the schema expects there and the kind found.
   */
  lemma TaskRejectsBadField(fs: Fields, k: string)
    requires k in TaskKeys
    requires Get(fs, k).None? ==> k in TaskRequiredKeys
    requires Get(fs, k).Some? ==> KindOf(Get(fs, k).value) != TaskFieldKind(k)
    ensures ValidateTask(JObject(fs)).Failure?
    ensures Issue([Key(k)], TaskFieldKind(k), ReceivedKind(Get(fs, k))) in ValidateTask(JObject(fs)).error
  {
    if k in TaskRequiredKeys {
      TaskRejectsBadRequiredField(fs, k);
    } else if k in ["description", "swimlaneId", "responsibleUserId", "groupingDate"] {
      TaskRejectsBadStringField(fs, k);
    } else if k in ["position", "totalSecondsSpent", "totalSecondsEstimate", "pointsEstimate"] {
      TaskRejectsBadNumberField(fs, k);
    } else if k == "number" {
      TaskRejectsBadNumberObject(fs);
    } else {
      TaskRejectsBadArrayField(fs, k);
    }
  }

  lemma TaskIdentityReadsFields(fs: Fields, t: Task)
    requires TaskIdentity(fs) == Success((t.id, t.name, t.description, t.color, t.columnId, t.swimlaneId))
    ensures Get(fs, "_id") == Some(JString(t.id))
    ensures Get(fs, "name") == Some(JString(t.name))
    ensures Get(fs, "description") == OptString(t.description)
    ensures Get(fs, "color") == Some(JString(t.color))
    ensures Get(fs, "columnId") == Some(JString(t.columnId))
    ensures Get(fs, "swimlaneId") == OptString(t.swimlaneId)
  {
  }

  lemma TaskEffortReadsFields(fs: Fields, t: Task)
    requires TaskEffort(fs) == Success((t.position, t.totalSecondsSpent, t.totalSecondsEstimate, t.pointsEstimate, t.number))
    ensures Get(fs, "position") == OptNumber(t.position)
    ensures Get(fs, "totalSecondsSpent") == OptNumber(t.totalSecondsSpent)
    ensures Get(fs, "totalSecondsEstimate") == OptNumber(t.totalSecondsEstimate)
    ensures Get(fs, "pointsEstimate") == OptNumber(t.pointsEstimate)
    ensures Get(fs, "number").Some? <==> t.number.Some?
    ensures t.number.Some? ==> ValidateTaskNumber(Get(fs, "number").value) == Success(t.number.value)
  {
  }

  lemma TaskPeopleReadsFields(fs: Fields, t: Task)
    requires TaskPeople(fs) == Success((t.responsibleUserId, t.collaborators, t.groupingDate))
    ensures Get(fs, "responsibleUserId") == OptString(t.responsibleUserId)
    ensures Get(fs, "collaborators").Some? <==> t.collaborators.Some?
    ensures t.collaborators.Some? ==> CollaboratorArray(Get(fs, "collaborators").value) == Success(t.collaborators.value)
    ensures Get(fs, "groupingDate") == OptString(t.groupingDate)
  {
  }

  lemma TaskExtrasReadsFields(fs: Fields, t: Task)
    requires TaskExtras(fs) == Success((t.dates, t.subTasks, t.labels, t.customFields))
    ensures Get(fs, "dates") == OptArray(t.dates)
    ensures Get(fs, "subTasks") == OptArray(t.subTasks)
    ensures Get(fs, "labels") == OptArray(t.labels)
    ensures Get(fs, "customFields") == OptArray(t.customFields)
  {
    var ds := Get(fs, "dates");
    if ds.Some? { assert ds.value.JArray?; assert UnknownArray(ds.value).value == ds.value.elems; }
    var st := Get(fs, "subTasks");
    if st.Some? { assert st.value.JArray?; assert UnknownArray(st.value).value == st.value.elems; }
    var ls := Get(fs, "labels");
    if ls.Some? { assert ls.value.JArray?; assert UnknownArray(ls.value).value == ls.value.elems; }
    var cf := Get(fs, "customFields");
    if cf.Some? { assert cf.value.JArray?; assert UnknownArray(cf.value).value == cf.value.elems; }
  }

  /**
   * What an accepted task says about the object it came from: each string,
   * number and pass-through array field is exactly the value under its key
   * (absent exactly when the key is missing, with no defaulting); `number`
   * and `collaborators` are present exactly when their keys are and are what
   * their own schemas make of those values.
   */
  lemma TaskReadsFields(fs: Fields, t: Task)
    requires ValidateTask(JObject(fs)) == Success(t)
    ensures Get(fs, "_id") == Some(JString(t.id))
    ensures Get(fs, "name") == Some(JString(t.name))
    ensures Get(fs, "description") == OptString(t.description)
    ensures Get(fs, "color") == Some(JString(t.color))
    ensures Get(fs, "columnId") == Some(JString(t.columnId))
    ensures Get(fs, "swimlaneId") == OptString(t.swimlaneId)
    ensures Get(fs, "position") == OptNumber(t.position)
    ensures Get(fs, "totalSecondsSpent") == OptNumber(t.totalSecondsSpent)
    ensures Get(fs, "totalSecondsEstimate") == OptNumber(t.totalSecondsEstimate)
    ensures Get(fs, "pointsEstimate") == OptNumber(t.pointsEstimate)
    ensures Get(fs, "number").Some? <==> t.number.Some?
    ensures t.number.Some? ==> ValidateTaskNumber(Get(fs, "number").value) == Success(t.number.value)
    ensures Get(fs, "responsibleUserId") == OptString(t.responsibleUserId)
    ensures Get(fs, "collaborators").Some? <==> t.collaborators.Some?
    ensures t.collaborators.Some? ==> CollaboratorArray(Get(fs, "collaborators").value) == Success(t.collaborators.value)
    ensures Get(fs, "groupingDate") == OptString(t.groupingDate)
    ensures Get(fs, "dates") == OptArray(t.dates)
    ensures Get(fs, "subTasks") == OptArray(t.subTasks)
    ensures Get(fs, "labels") == OptArray(t.labels)
    ensures Get(fs, "customFields") == OptArray(t.customFields)
  {
    TaskIdentityReadsFields(fs, t);
    TaskEffortReadsFields(fs, t);
    TaskPeopleReadsFields(fs, t);
    TaskExtrasReadsFields(fs, t);
  }

  /** One collaborator entry that is not a valid collaborator rejects the whole task. */
  lemma TaskRejectsBadCollaborator(fs: Fields, es: seq<Json>, i: nat)
    requires Get(fs, "collaborators") == Some(JArray(es))
    requires i < |es| && ValidateCollaborator(es[i]).Failure?
    ensures ValidateTask(JObject(fs)).Failure?
  {
    assert !Elems(es, ValidateCollaborator).Success?;
    assert CollaboratorArray(JArray(es)).Failure?;
    assert Optional(fs, "collaborators", CollaboratorArray).Failure?;
    assert TaskPeople(fs).Failure?;
  }

  lemma TaskIdentityIgnoresUnknownKey(a: Fields, b: Fields, k: string, v: Json)
    requires k !in TaskKeys
    ensures TaskIdentity(a + [(k, v)] + b) == TaskIdentity(a + b)
  {
    var fs, fs' := a + [(k, v)] + b, a + b;
    GetSkip(a, b, k, v, "_id");
    GetSkip(a, b, k, v, "name");
    GetSkip(a, b, k, v, "description");
    GetSkip(a, b, k, v, "color");
    GetSkip(a, b, k, v, "columnId");
    GetSkip(a, b, k, v, "swimlaneId");
    assert Required(fs, "_id", KString, AsString) == Required(fs', "_id", KString, AsString);
    assert Required(fs, "name", KString, AsString) == Required(fs', "name", KString, AsString);
    assert Optional(fs, "description", AsString) == Optional(fs', "description", AsString);
    assert Required(fs, "color", KString, AsString) == Required(fs', "color", KString, AsString);
    assert Required(fs, "columnId", KString, AsString) == Required(fs', "columnId", KString, AsString);
    assert Optional(fs, "swimlaneId", AsString) == Optional(fs', "swimlaneId", AsString);
  }

  lemma TaskEffortIgnoresUnknownKey(a: Fields, b: Fields, k: string, v: Json)
    requires k !in TaskKeys
    ensures TaskEffort(a + [(k, v)] + b) == TaskEffort(a + b)
  {
    var fs, fs' := a + [(k, v)] + b, a + b;
    GetSkip(a, b, k, v, "position");
    GetSkip(a, b, k, v, "totalSecondsSpent");
    GetSkip(a, b, k, v, "totalSecondsEstimate");
    GetSkip(a, b, k, v, "pointsEstimate");
    GetSkip(a, b, k, v, "number");
    assert Optional(fs, "position", AsNumber) == Optional(fs', "position", AsNumber);
    assert Optional(fs, "totalSecondsSpent", AsNumber) == Optional(fs', "totalSecondsSpent", AsNumber);
    assert Optional(fs, "totalSecondsEstimate", AsNumber) == Optional(fs', "totalSecondsEstimate", AsNumber);
    assert Optional(fs, "pointsEstimate", AsNumber) == Optional(fs', "pointsEstimate", AsNumber);
    assert Optional(fs, "number", ValidateTaskNumber) == Optional(fs', "number", ValidateTaskNumber);
  }

  lemma TaskPeopleIgnoresUnknownKey(a: Fields, b: Fields, k: string, v: Json)
    requires k !in TaskKeys
    ensures TaskPeople(a + [(k, v)] + b) == TaskPeople(a + b)
  {
    GetSkip(a, b, k, v, "responsibleUserId");
    GetSkip(a, b, k, v, "collaborators");
    GetSkip(a, b, k, v, "groupingDate");
  }

  lemma TaskExtrasIgnoresUnknownKey(a: Fields, b: Fields, k: string, v: Json)
    requires k !in TaskKeys
    ensures TaskExtras(a + [(k, v)] + b) == TaskExtras(a + b)
  {
    var fs, fs' := a + [(k, v)] + b, a + b;
    GetSkip(a, b, k, v, "dates");
    GetSkip(a, b, k, v, "subTasks");
    GetSkip(a, b, k, v, "labels");
    GetSkip(a, b, k, v, "customFields");
    assert Optional(fs, "dates", UnknownArray) == Optional(fs', "dates", UnknownArray);
    assert Optional(fs, "subTasks", UnknownArray) == Optional(fs', "subTasks", UnknownArray);
    assert Optional(fs, "labels", UnknownArray) == Optional(fs', "labels", UnknownArray);
    assert Optional(fs, "customFields", UnknownArray) == Optional(fs', "customFields", UnknownArray);
  }

  /** An unknown key, wherever it stands in the object, changes nothing about a task. */
  lemma TaskIgnoresUnknownKey(a: Fields, b: Fields, k: string, v: Json)
    requires k !in TaskKeys
    ensures ValidateTask(JObject(a + [(k, v)] + b)) == ValidateTask(JObject(a + b))
  {
    TaskIdentityIgnoresUnknownKey(a, b, k, v);
    TaskEffortIgnoresUnknownKey(a, b, k, v);
    TaskPeopleIgnoresUnknownKey(a, b, k, v);
    TaskExtrasIgnoresUnknownKey(a, b, k, v);
  }
}
