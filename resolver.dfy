/**
 * UserResolver of src/mcp/user-resolver.ts: a lazily loaded cache of the
 * board's users, keyed by user id, and the copies of tasks, task columns and
 * comments it makes with the display names of the users they mention.
 *
 * The enrichment itself is pure (spread copies and `map` over arrays) and is
 * written as functions of the user map; the class holds the one piece of
 * state the source changes, the cache, and its methods run the load before
 * applying those functions.
 */
module Resolver {
  import opened Wrappers
  import opened JsonValues
  import opened Schemas
  import opened KanbanFlow

  type UserMap = map<string, User>

  /**
   * `new Map(users.map((user) => [user._id, user]))`: entries are set in list
   * order, so of two users with the same id the later one is kept.
   */
  function UserMapOf(users: seq<User>): (m: UserMap)
    ensures forall u :: u in users ==> u.id in m
    ensures forall k :: k in m ==> exists i :: 0 <= i < |users| && users[i].id == k
    decreases |users|
  {
    if users == [] then map[]
    else
      var last := users[|users| - 1];
      UserMapOf(users[..|users| - 1])[last.id := last]
  }

  /** The map sends an id to the last user in the list carrying it. */
  lemma {:induction false} UserMapLastWins(users: seq<User>, i: nat)
    requires i < |users|
    requires forall j :: i < j < |users| ==> users[j].id != users[i].id
    ensures UserMapOf(users)[users[i].id] == users[i]
    decreases |users|
  {
    if i < |users| - 1 {
      var init := users[..|users| - 1];
      assert init[i] == users[i];
      UserMapLastWins(init, i);
    }
  }

  /** `userMap.get(id)?.fullName`. */
  function NameOf(m: UserMap, id: string): (name: Option<string>)
    ensures name.Some? <==> id in m
    ensures name.Some? ==> name.value == m[id].fullName
  {
    if id in m then Some(m[id].fullName) else None
  }

  /** `{ ...collaborator, userName: user?.fullName }`. */
  datatype EnrichedCollaborator = EnrichedCollaborator(userId: string, userName: Option<string>)

  /**
   * `{ ...task }` and what enrichTask adds: `responsibleUserName` when set,
   * and `collaborators` when it replaces the task's own list (Some exactly
   * then; None leaves `task.collaborators` as the object's value).
   */
  datatype EnrichedTask = EnrichedTask(
    task: Task,
    responsibleUserName: Option<string>,
    collaborators: Option<seq<EnrichedCollaborator>>)

  /** `{ ...column, tasks }` of enrichTasks. */
  datatype EnrichedColumn = EnrichedColumn(
    columnId: string,
    columnName: string,
    tasksLimited: bool,
    nextTaskId: Option<string>,
    tasks: seq<EnrichedTask>)

  /** A comment: the author's id and every other entry of the object as it came. */
  datatype Comment = Comment(authorUserId: string, rest: Fields)

  datatype EnrichedComment = EnrichedComment(comment: Comment, authorUserName: Option<string>)

  /** The collaborators list with each entry's name looked up, in the same order. */
  function NameCollaborators(m: UserMap, cs: seq<TaskCollaborator>): (r: seq<EnrichedCollaborator>)
    ensures |r| == |cs|
    ensures forall i :: 0 <= i < |cs| ==> r[i].userId == cs[i].userId && r[i].userName == NameOf(m, cs[i].userId)
    decreases |cs|
  {
    if cs == [] then []
    else [EnrichedCollaborator(cs[0].userId, NameOf(m, cs[0].userId))] + NameCollaborators(m, cs[1..])
  }

  /**
   * enrichTask once the map is loaded: every field of the task is kept; a
   * truthy `responsibleUserId` that resolves gains its user's name; a
   * non-empty collaborators list is replaced, entry for entry, by the named
   * one; nothing else is added and nothing can fail.
   */
  function EnrichTaskWith(m: UserMap, t: Task): (e: EnrichedTask)
    ensures e.task == t
    ensures e.responsibleUserName.Some? <==>
              t.responsibleUserId.Some? && t.responsibleUserId.value != "" && t.responsibleUserId.value in m
    ensures e.responsibleUserName.Some? ==> e.responsibleUserName.value == m[t.responsibleUserId.value].fullName
    ensures e.collaborators.Some? <==> t.collaborators.Some? && |t.collaborators.value| > 0
    ensures e.collaborators.Some? ==>
              && |e.collaborators.value| == |t.collaborators.value|
              && forall i :: 0 <= i < |t.collaborators.value| ==>
                   e.collaborators.value[i].userId == t.collaborators.value[i].userId
                   && e.collaborators.value[i].userName == NameOf(m, t.collaborators.value[i].userId)
  {
    var responsible :=
      if t.responsibleUserId.Some? && t.responsibleUserId.value != "" then NameOf(m, t.responsibleUserId.value)
      else None;
    var collaborators :=
      if t.collaborators.Some? && |t.collaborators.value| > 0 then Some(NameCollaborators(m, t.collaborators.value))
      else None;
    EnrichedTask(t, responsible, collaborators)
  }

  /** The `collaborators` entry of an enriched task with the looked-up names dropped again. */
  function ShownCollaborators(e: EnrichedTask): Option<seq<TaskCollaborator>> {
    if e.collaborators.Some? then Some(seq(|e.collaborators.value|, i requires 0 <= i < |e.collaborators.value| =>
                                              TaskCollaborator(e.collaborators.value[i].userId)))
    else e.task.collaborators
  }

  /** Enrichment only adds names: dropping them gives back the task's own collaborators, in order. */
  lemma EnrichKeepsCollaborators(m: UserMap, t: Task)
    ensures ShownCollaborators(EnrichTaskWith(m, t)) == t.collaborators
  {
    var e := EnrichTaskWith(m, t);
    if e.collaborators.Some? {
      var cs := t.collaborators.value;
      assert ShownCollaborators(e).value == cs by {
        assert forall i :: 0 <= i < |cs| ==> ShownCollaborators(e).value[i] == TaskCollaborator(cs[i].userId);
      }
    }
  }

  /** The responsible user is named from the last list entry carrying the id. */
  lemma ResponsibleNamedFromUsers(users: seq<User>, t: Task, i: nat)
    requires i < |users|
    requires t.responsibleUserId == Some(users[i].id) && users[i].id != ""
    requires forall j :: i < j < |users| ==> users[j].id != users[i].id
    ensures EnrichTaskWith(UserMapOf(users), t).responsibleUserName == Some(users[i].fullName)
  {
    UserMapLastWins(users, i);
  }

  /** enrichTasks: the same columns in the same order, each task enriched as enrichTask does. */
  function EnrichTasksWith(m: UserMap, response: TasksResponse): (r: seq<EnrichedColumn>)
    ensures |r| == |response|
    ensures forall i :: 0 <= i < |response| ==>
              && r[i].columnId == response[i].columnId
              && r[i].columnName == response[i].columnName
              && r[i].tasksLimited == response[i].tasksLimited
              && r[i].nextTaskId == response[i].nextTaskId
              && |r[i].tasks| == |response[i].tasks|
              && forall j :: 0 <= j < |response[i].tasks| ==> r[i].tasks[j] == EnrichTaskWith(m, response[i].tasks[j])
    decreases |response|
  {
    if response == [] then []
    else
      var column := response[0];
      [EnrichedColumn(column.columnId, column.columnName, column.tasksLimited, column.nextTaskId,
                      EnrichColumnTasks(m, column.tasks))]
      + EnrichTasksWith(m, response[1..])
  }

  function EnrichColumnTasks(m: UserMap, ts: seq<Task>): (r: seq<EnrichedTask>)
    ensures |r| == |ts|
    ensures forall j :: 0 <= j < |ts| ==> r[j] == EnrichTaskWith(m, ts[j])
    decreases |ts|
  {
    if ts == [] then [] else [EnrichTaskWith(m, ts[0])] + EnrichColumnTasks(m, ts[1..])
  }

  /** enrichComment once the map is loaded: the author's name is added exactly when the id resolves. */
  function EnrichCommentWith(m: UserMap, c: Comment): (e: EnrichedComment)
    ensures e.comment == c
    ensures e.authorUserName.Some? <==> c.authorUserId in m
    ensures e.authorUserName.Some? ==> e.authorUserName.value == m[c.authorUserId].fullName
  {
    EnrichedComment(c, NameOf(m, c.authorUserId))
  }

  /** enrichComments: enrichComment on every comment, keeping length and order. */
  function EnrichCommentsWith(m: UserMap, cs: seq<Comment>): (r: seq<EnrichedComment>)
    ensures |r| == |cs|
    ensures forall i :: 0 <= i < |cs| ==> r[i] == EnrichCommentWith(m, cs[i])
    decreases |cs|
  {
    if cs == [] then [] else [EnrichCommentWith(m, cs[0])] + EnrichCommentsWith(m, cs[1..])
  }

  /** A comment's author is named iff some user carries the id, and then from the last one. */
  lemma AuthorNamedFromUsers(users: seq<User>, c: Comment)
    ensures EnrichCommentWith(UserMapOf(users), c).authorUserName.Some? <==>
              exists i :: 0 <= i < |users| && users[i].id == c.authorUserId
    ensures forall i :: 0 <= i < |users| && users[i].id == c.authorUserId &&
                        (forall j :: i < j < |users| ==> users[j].id != users[i].id) ==>
              EnrichCommentWith(UserMapOf(users), c).authorUserName == Some(users[i].fullName)
  {
    forall i | 0 <= i < |users| && users[i].id == c.authorUserId && (forall j :: i < j < |users| ==> users[j].id != users[i].id)
      ensures EnrichCommentWith(UserMapOf(users), c).authorUserName == Some(users[i].fullName)
    {
      UserMapLastWins(users, i);
    }
    if exists i :: 0 <= i < |users| && users[i].id == c.authorUserId {
      var i :| 0 <= i < |users| && users[i].id == c.authorUserId;
      assert users[i] in users;
    }
  }

  /**
   * What loading the map yields from a cache: the cached map itself, else
   * the map of the users getUsers returns, else getUsers' error. Any map,
   * even an empty one, counts as loaded.
   */
  function LoadOutcome(c: Client, cache: Option<UserMap>, transport: Transport): (r: Result<UserMap, ClientError>)
    ensures cache.Some? ==> r == Success(cache.value)
    ensures cache.None? ==> (r.Success? <==> GetUsers(c, transport).Success?)
    ensures cache.None? && r.Success? ==> r.value == UserMapOf(GetUsers(c, transport).value)
    ensures cache.None? && r.Failure? ==> r.error == GetUsers(c, transport).error
  {
    if cache.Some? then Success(cache.value)
    else
      match GetUsers(c, transport)
      case Success(users) => Success(UserMapOf(users))
      case Failure(e) => Failure(e)
  }

  /** The cache once a load has been tried: the loaded map, or still empty after a failure. */
  function CacheAfter(outcome: Result<UserMap, ClientError>): Option<UserMap> {
    if outcome.Success? then Some(outcome.value) else None
  }

  function Enriched<U>(outcome: Result<UserMap, ClientError>, enrich: UserMap -> U): Result<U, ClientError> {
    match outcome
    case Success(m) => Success(enrich(m))
    case Failure(e) => Failure(e)
  }

  class UserResolver {
    const client: Client
    var userCache: Option<UserMap>
    /** How many times getUsers has been called. */
    ghost var fetches: nat

    constructor(client: Client)
      ensures this.client == client && userCache == None && fetches == 0
    {
      this.client := client;
      userCache := None;
      fetches := 0;
    }

    /** `getUserMap()`: a cache hit sends nothing; a miss calls getUsers once and keeps the map only on success. */
    method GetUserMap(transport: Transport) returns (r: Result<UserMap, ClientError>)
      modifies this
      ensures r == LoadOutcome(client, old(userCache), transport)
      ensures userCache == CacheAfter(r)
      ensures fetches == old(fetches) + (if old(userCache).Some? then 0 else 1)
    {
      if userCache.Some? {
        return Success(userCache.value);
      }
      fetches := fetches + 1;
      var users := GetUsers(client, transport);
      if users.Failure? {
        return Failure(users.error);
      }
      userCache := Some(UserMapOf(users.value));
      r := Success(userCache.value);
    }

    /** `clearCache()`: the next load fetches again. */
    method ClearCache()
      modifies this
      ensures userCache == None && fetches == old(fetches)
    {
      userCache := None;
    }

    method EnrichTask(t: Task, transport: Transport) returns (r: Result<EnrichedTask, ClientError>)
      modifies this
      ensures r == Enriched(LoadOutcome(client, old(userCache), transport), m => EnrichTaskWith(m, t))
      ensures userCache == CacheAfter(LoadOutcome(client, old(userCache), transport))
      ensures fetches == old(fetches) + (if old(userCache).Some? then 0 else 1)
    {
      var userMap := GetUserMap(transport);
      if userMap.Failure? {
        return Failure(userMap.error);
      }
      r := Success(EnrichTaskWith(userMap.value, t));
    }

    method EnrichTasks(response: TasksResponse, transport: Transport) returns (r: Result<seq<EnrichedColumn>, ClientError>)
      modifies this
      ensures r == Enriched(LoadOutcome(client, old(userCache), transport), m => EnrichTasksWith(m, response))
      ensures userCache == CacheAfter(LoadOutcome(client, old(userCache), transport))
      ensures fetches == old(fetches) + (if old(userCache).Some? then 0 else 1)
    {
      var userMap := GetUserMap(transport);
      if userMap.Failure? {
        return Failure(userMap.error);
      }
      r := Success(EnrichTasksWith(userMap.value, response));
    }

    method EnrichComment(c: Comment, transport: Transport) returns (r: Result<EnrichedComment, ClientError>)
      modifies this
      ensures r == Enriched(LoadOutcome(client, old(userCache), transport), m => EnrichCommentWith(m, c))
      ensures userCache == CacheAfter(LoadOutcome(client, old(userCache), transport))
      ensures fetches == old(fetches) + (if old(userCache).Some? then 0 else 1)
    {
      var userMap := GetUserMap(transport);
      if userMap.Failure? {
        return Failure(userMap.error);
      }
      r := Success(EnrichCommentWith(userMap.value, c));
    }

    method EnrichComments(cs: seq<Comment>, transport: Transport) returns (r: Result<seq<EnrichedComment>, ClientError>)
      modifies this
      ensures r == Enriched(LoadOutcome(client, old(userCache), transport), m => EnrichCommentsWith(m, cs))
      ensures userCache == CacheAfter(LoadOutcome(client, old(userCache), transport))
      ensures fetches == old(fetches) + (if old(userCache).Some? then 0 else 1)
    {
      var userMap := GetUserMap(transport);
      if userMap.Failure? {
        return Failure(userMap.error);
      }
      r := Success(EnrichCommentsWith(userMap.value, cs));
    }
  }

  /**
   * Once a load has succeeded, later calls send nothing: a second call,
   * whatever the transport `later` would answer, uses the users the first one
   * fetched, and only clearing the cache makes the next call consult `later`.
   */
  method CachedAfterFirstLoad(c: Client, first: Transport, later: Transport, t: Task, cs: seq<Comment>)
    returns (task: Result<EnrichedTask, ClientError>, comments: Result<seq<EnrichedComment>, ClientError>,
             afterClear: Result<seq<EnrichedComment>, ClientError>)
    requires GetUsers(c, first).Success?
    ensures task == Success(EnrichTaskWith(UserMapOf(GetUsers(c, first).value), t))
    ensures comments == Success(EnrichCommentsWith(UserMapOf(GetUsers(c, first).value), cs))
    ensures afterClear == Enriched(LoadOutcome(c, None, later), m => EnrichCommentsWith(m, cs))
  {
    var resolver := new UserResolver(c);
    task := resolver.EnrichTask(t, first);
    assert resolver.fetches == 1;
    comments := resolver.EnrichComments(cs, later);
    assert resolver.fetches == 1;
    resolver.ClearCache();
    afterClear := resolver.EnrichComments(cs, later);
    assert resolver.fetches == 2;
  }

  /** A failed load leaves the cache empty, so the next call fetches again. */
  method RetryAfterFailure(c: Client, failing: Transport, working: Transport, comment: Comment)
    returns (first: Result<EnrichedComment, ClientError>, second: Result<EnrichedComment, ClientError>)
    requires GetUsers(c, failing).Failure? && GetUsers(c, working).Success?
    ensures first == Failure(GetUsers(c, failing).error)
    ensures second == Success(EnrichCommentWith(UserMapOf(GetUsers(c, working).value), comment))
  {
    var resolver := new UserResolver(c);
    first := resolver.EnrichComment(comment, failing);
    second := resolver.EnrichComment(comment, working);
    assert resolver.fetches == 2;
  }
}
