# kanbanflow-mcp-server core, modelled in Dafny

This project models the core of the KanbanFlow MCP server and proves properties about it. It covers three parts:

- **Response schemas** (`src/kanbanflow/schemas.ts`). These are the Zod object and array schemas for tasks, boards and task column pages. The users response is checked against `UsersResponseSchema`, which `client.ts` and `types.ts` import from `schemas.ts` but which that file does not define; the model gives a user the two fields the resolver reads and keeps the rest of the object. Each is modelled as a validator over a JSON value. A validator either yields a typed record or reports every issue it finds. An issue names the key path it was found at, the kind that was expected and the kind that was received. Validation runs in schema key order, and array elements are checked in index order. Unknown keys are dropped. A missing optional key stays absent.
- **The HTTP client** (`src/kanbanflow/client.ts`). It covers:
  - the constructor's API-key check and the Basic authorization header, with base 64 as in section 4 of RFC 4648 and `btoa`'s Latin-1 restriction;
  - the query and path builders of `getTasks` and `getTaskById`;
  - the request pipeline shared by all four endpoints and the error text each failure produces.

  The network is a parameter: a `Transport` function answers each request with a rejection or a response.
- **The user resolver** (`src/mcp/user-resolver.ts`). A `UserResolver` class holds the lazily loaded user cache, with a ghost counter of `getUsers` calls. Its four enrichment operations are pure functions of the loaded map, and the class methods apply them after loading the cache.

Files:

| file | module | contents |
|---|---|---|
| `wrappers.dfy` | `Wrappers` | `Option`, `Result` |
| `json.dfy` | `JsonValues` | decoded JSON values and key lookup, where the last duplicate key wins as in `JSON.parse` |
| `schemas.dfy` | `Schemas` | issue paths, schema combinators, records and validators |
| `serialize.dfy` | `Serialize` | records written back as JSON, and the round-trip lemmas |
| `schema_props.dfy` | `SchemaProps` | Task schema properties: required and mistyped fields, nested checks, unknown keys |
| `board_props.dfy` | `BoardProps` | board and column page schema properties |
| `user_props.dfy` | `UserProps` | users schema properties and the user round trip |
| `decimal.dfy` | `Decimal` | decimal text of integers, as `Number.prototype.toString` writes integers of magnitude below 10^21, and its inverse parser |
| `base64.dfy` | `Base64` | base 64 encoding, the decoder that undoes it, Latin-1 and `btoa` |
| `client.dfy` | `KanbanFlow` | the KanbanFlowClient |
| `resolver.dfy` | `Resolver` | the UserResolver and the enrichment |

Three behaviours of the code that the model keeps as written:

- **Truthy options.** `getTasks` sends `columnId`, `columnName`, `startTaskId`, `startGroupingDate`, `limit` and `order` only when they are truthy, so `""` and `limit: 0` are left out. `columnIndex` is sent whenever it is defined, 0 included. `includePosition` is sent only when it is `true`.
- **No in-flight guard.** `getUserMap` checks the cache and then awaits `getUsers`, with nothing marking a load in progress, so two concurrent first calls each fetch.
- **Fetch rejections.** A `fetch` rejection is not turned into an API error with a status: the endpoint's catch rethrows it unchanged. It is modelled as `TransportError(reason)`, whose message is the rejection's own text.

## Model

| member | source | states |
|---|---|---|
| JsonValues.GetFindsKey | src/kanbanflow/client.ts:57 | a key is found in a decoded object exactly when some entry carries it |
| JsonValues.GetFindsLast | src/kanbanflow/client.ts:57 | the value found for a key is that of the last entry carrying it, as `response.json()` keeps the last duplicate |
| JsonValues.GetSkip | src/kanbanflow/schemas.ts:12-31 | an entry under another key does not change what a lookup finds |
| Schemas.Within | src/kanbanflow/schemas.ts:23-30 | a nested value's issues are reported under one more path segment, one for one, and its success is kept |
| Schemas.AsString | src/kanbanflow/schemas.ts:13 | `z.string()` accepts exactly strings and yields the string |
| Schemas.AsNumber | src/kanbanflow/schemas.ts:19 | `z.number()` accepts exactly numbers and yields the number |
| Schemas.AsBool | src/kanbanflow/schemas.ts:60 | `z.boolean()` accepts exactly booleans and yields the value |
| Schemas.Elems | src/kanbanflow/schemas.ts:25-30 | an array is accepted iff every element is; the output keeps length and order; each issue carries the index of a failing element |
| Schemas.ArrayOf | src/kanbanflow/schemas.ts:25 | `z.array(e)` accepts exactly arrays whose elements pass `e`, and yields their checked values |
| Schemas.Required | src/kanbanflow/schemas.ts:13-14 | a required key succeeds iff present and valid; a missing one is the single issue "expected kind, received undefined" at that key |
| Schemas.Optional | src/kanbanflow/schemas.ts:15 | `.optional()`: a missing key yields absent (and only then); a present key must pass the check and yields its value |
| Schemas.ValidateTaskNumber | src/kanbanflow/schemas.ts:3-6 | a task number is accepted iff it is an object whose `value` is a number and whose `prefix` is absent or a string; it keeps both, and an absent prefix stays absent |
| Schemas.ValidateCollaborator | src/kanbanflow/schemas.ts:8-10 | a collaborator is accepted iff it is an object with a string `userId`, which it keeps |
| Schemas.ValidateTask | src/kanbanflow/schemas.ts:12-31 | a non-object is the single issue "expected object" at the root; an accepted task is an object holding its `_id`, `name`, `color` and `columnId` as strings under those keys |
| Schemas.ValidateColumn | src/kanbanflow/schemas.ts:33-36 | a board column is accepted iff it is an object with string `name` and `uniqueId`, which it keeps |
| Schemas.ValidateSwimlane | src/kanbanflow/schemas.ts:38-41 | a swimlane is accepted iff it is an object with string `name` and `uniqueId`, which it keeps |
| Schemas.ValidateColor | src/kanbanflow/schemas.ts:43-47 | a colour is accepted iff `name` and `value` are strings and `description` is absent or a string; it keeps all three, and an absent description stays absent |
| Schemas.ValidateBoard | src/kanbanflow/schemas.ts:49-55 | a board is accepted iff `_id` and `name` are strings, `columns` is an array of valid columns, and `swimlanes` and `colors` are absent or valid arrays; it keeps what those keys hold, and an absent optional array stays absent |
| Schemas.ValidateTasksColumn | src/kanbanflow/schemas.ts:57-63 | a column page is accepted iff `columnId` and `columnName` are strings, `tasksLimited` is a boolean, `nextTaskId` is absent or a string and `tasks` is an array of valid tasks; it keeps what those keys hold |
| Schemas.ValidateTasksResponse | src/kanbanflow/schemas.ts:65 | a tasks response is accepted iff it is an array whose every page is, and keeps their number and order |
| Schemas.ValidateUser | src/kanbanflow/types.ts:20 | a user is accepted iff it is an object with string `_id` and `fullName`; it keeps both and the object's remaining entries |
| Schemas.ValidateUsers | src/kanbanflow/client.ts:155 | a users response is accepted iff it is an array whose every user is, and keeps their number and order |
| Schemas.OtherFields | src/kanbanflow/types.ts:20 | the remaining entries of a user object are exactly its entries under keys other than `_id` and `fullName`: each one kept is such an entry, and every such entry is kept |
| Serialize.ArrayRoundTrip | src/kanbanflow/schemas.ts:25-30 | an array of encoded elements validates back to the same elements when each element round-trips |
| Serialize.UnknownArrayRoundTrip | src/kanbanflow/schemas.ts:27-30 | `z.array(z.unknown())` keeps every element verbatim |
| Serialize.TaskNumberRoundTrip | src/kanbanflow/schemas.ts:3-6 | a task number written as JSON validates back to itself, with or without its prefix |
| Serialize.CollaboratorsRoundTrip | src/kanbanflow/schemas.ts:8-10 | a collaborator list written as JSON validates back to the same list |
| Serialize.TaskFromLookups | src/kanbanflow/schemas.ts:12-31 | the converse of TaskReadsFields: an object whose eighteen keys hold a task's fields validates to exactly that task, whatever else the object holds; `number` and `collaborators` may be any values their own schemas read as the task's fields, in any key order and with extra keys |
| Serialize.TaskRoundTrip | src/kanbanflow/schemas.ts:12-31 | any task written as JSON validates back to the same task, absent optional fields included |
| Serialize.BoardRoundTrip | src/kanbanflow/schemas.ts:33-55 | any board written as JSON validates back to the same board |
| Serialize.TasksColumnRoundTrip | src/kanbanflow/schemas.ts:57-63 | any column page written as JSON validates back to the same page |
| Serialize.TasksResponseRoundTrip | src/kanbanflow/schemas.ts:65 | any tasks response written as JSON validates back to the same list of pages |
| SchemaProps.TaskRejectsBadRequiredField | src/kanbanflow/schemas.ts:13-17 | a task object missing `_id`, `name`, `color` or `columnId`, or holding a non-string there, is rejected with an issue naming that key and the kind received |
| SchemaProps.TaskRejectsBadStringField | src/kanbanflow/schemas.ts:15-26 | a present optional string key holding a non-string rejects the task, naming the key |
| SchemaProps.TaskRejectsBadNumberField | src/kanbanflow/schemas.ts:19-22 | a present optional number key holding a non-number rejects the task, naming the key |
| SchemaProps.TaskRejectsBadNumberObject | src/kanbanflow/schemas.ts:23 | a `number` that is not an object rejects the task, naming the key |
| SchemaProps.TaskRejectsBadArrayField | src/kanbanflow/schemas.ts:25-30 | a present array key holding a non-array rejects the task, naming the key |
| SchemaProps.TaskRejectsBadField | src/kanbanflow/schemas.ts:12-31 | for each of the eighteen keys, a missing required key or a value of the wrong kind rejects the task with an issue giving the key, the expected kind and the received kind |
| SchemaProps.TaskReadsFields | src/kanbanflow/schemas.ts:12-31 | an accepted task holds exactly what the object has under each key; absent optional keys are absent fields |
| SchemaProps.TaskRejectsBadCollaborator | src/kanbanflow/schemas.ts:25 | one invalid collaborator entry rejects the whole task |
| SchemaProps.TaskIgnoresUnknownKey | src/kanbanflow/schemas.ts:12-31 | inserting an entry under a key outside the schema anywhere in a task object changes neither acceptance nor the result |
| BoardProps.BoardRejectsMissingKey | src/kanbanflow/schemas.ts:50-52 | a board missing `_id`, `name` or `columns` is rejected with "expected string/array, received undefined" at that key |
| BoardProps.BoardIgnoresUnknownKey | src/kanbanflow/schemas.ts:49-55 | an entry under a key outside the board schema changes nothing |
| BoardProps.TasksColumnRejectsBadTask | src/kanbanflow/schemas.ts:62 | one invalid task rejects the whole column page |
| BoardProps.TasksColumnIgnoresUnknownKey | src/kanbanflow/schemas.ts:57-63 | an entry under a key outside the page schema changes nothing |
| UserProps.OtherFieldsConcat | src/kanbanflow/types.ts:20 | the remaining entries of two consecutive runs of entries are those of each run, in order, so a user keeps its other entries in the order the object lists them |
| UserProps.OtherFieldsKeepsOthers | src/kanbanflow/types.ts:20 | entries none of which is under `_id` or `fullName` are kept whole |
| UserProps.UserRejectsMissingKey | src/kanbanflow/types.ts:20 | a user object missing `_id` or `fullName` is rejected with "expected string, received undefined" at that key |
| UserProps.ValidatedUserWellFormed | src/kanbanflow/types.ts:20 | no entry kept beside an accepted user's two fields is under `_id` or `fullName` |
| UserProps.UserRoundTrip | src/kanbanflow/types.ts:20 | a user whose remaining entries avoid the two keys validates back to itself from the JSON it is written as |
| UserProps.UsersRoundTrip | src/kanbanflow/client.ts:155 | a list of such users written as a JSON array validates back to the same list |
| Decimal.NatToString | src/kanbanflow/client.ts:87 | the decimal text of a natural number is a canonical numeral: digits only, with no leading zero except for "0" itself |
| Decimal.IntToString | src/kanbanflow/client.ts:87 | the text of an integer is never empty, starts with '-' exactly for a negative value, and is otherwise a canonical numeral (for a negative value, after the sign, and never "-0") |
| Decimal.ParseOfPrint | src/kanbanflow/client.ts:99 | parsing the text `toString()` writes for an integer gives the integer back |
| Decimal.PrintOfParse | src/kanbanflow/client.ts:99 | every text the parser accepts is the one printing its value writes |
| Decimal.PrintInjective | src/kanbanflow/client.ts:87 | distinct integers are sent as distinct texts |
| Base64.Encode | src/kanbanflow/client.ts:27 | the base 64 text of n bytes has 4·⌈n/3⌉ characters |
| Base64.Rfc4648ShortVectors | src/kanbanflow/client.ts:27 | the encoder writes the test vectors of section 10 of RFC 4648 up to three bytes ("" is "", "f" is "Zg==", "fo" is "Zm8=", "foo" is "Zm9v"), and the bytes 0xFB 0xFF as "+/8=" |
| Base64.Rfc4648FoobVector | src/kanbanflow/client.ts:27 | the encoder writes "foob" as "Zm9vYg==", as section 10 of RFC 4648 gives it |
| Base64.Rfc4648FoobaVector | src/kanbanflow/client.ts:27 | the encoder writes "fooba" as "Zm9vYmE=", as section 10 of RFC 4648 gives it |
| Base64.Rfc4648FoobarVector | src/kanbanflow/client.ts:27 | the encoder writes "foobar" as "Zm9vYmFy", as section 10 of RFC 4648 gives it |
| Base64.DecodeEncode | src/kanbanflow/client.ts:27 | decoding the base 64 text of any byte string gives the bytes back |
| Base64.EncodeDecode | src/kanbanflow/client.ts:27 | every text the strict decoder accepts is the encoding of what it decodes to |
| Base64.Latin1Bytes | src/kanbanflow/client.ts:27 | a string has Latin-1 bytes iff every code unit is below 256, and those bytes are the code units |
| Base64.Latin1RoundTrip | src/kanbanflow/client.ts:27 | a Latin-1 string is recovered from its bytes |
| Base64.Btoa | src/kanbanflow/client.ts:27 | `btoa` succeeds iff every code unit is below 256, and its output has 4·⌈n/3⌉ characters |
| Base64.BtoaDecodes | src/kanbanflow/client.ts:27 | what `btoa` writes decodes back to its input |
| KanbanFlow.NewClient | src/kanbanflow/client.ts:13-20 | construction succeeds iff the effective key (`apiKey ?? config`) is non-empty, and fails with the configuration error otherwise; the base URL defaults to the production API |
| KanbanFlow.ExplicitKeyWins | src/kanbanflow/client.ts:14 | an explicit key, even "", replaces the configured one |
| KanbanFlow.AuthHeader | src/kanbanflow/client.ts:25-29 | the header exists iff the key is Latin-1, starts with "Basic " and has the length of "Basic " plus the base 64 of "apiToken:" + key |
| KanbanFlow.AuthHeaderDecodes | src/kanbanflow/client.ts:26-28 | what follows "Basic " decodes back to "apiToken:" followed by the key |
| KanbanFlow.Request | src/kanbanflow/client.ts:34-58 | a request succeeds only when the header was built, fetch answered with an ok response and its body decoded, and then yields that decoded body; it never fails with a configuration or validation error |
| KanbanFlow.RequestFor | src/kanbanflow/client.ts:38-43 | the request goes to base URL + path, carries the Basic authorization header `getAuthHeader()` builds and the JSON content type |
| KanbanFlow.RequestOutcome | src/kanbanflow/client.ts:45-57 | a fetch rejection is a transport error; a non-ok response is a remote error with its status and body text, whatever its body decodes to; an ok response yields its decoded body or the decoding error |
| KanbanFlow.RequestNeedsHeader | src/kanbanflow/client.ts:40 | without a valid header the request fails with the btoa error |
| KanbanFlow.UnreadableBody | src/kanbanflow/client.ts:51 | a non-ok response whose body cannot be read carries "Unknown error" |
| KanbanFlow.Validated | src/kanbanflow/client.ts:64-72 | a decoded body is accepted iff the schema accepts it, yielding exactly the schema's value; schema issues become a validation error; earlier errors pass through unchanged |
| KanbanFlow.ValidationErrorsComeFromSchema | src/kanbanflow/client.ts:67-71 | an endpoint reports a validation error iff the request succeeded and the schema refused its body |
| KanbanFlow.GetBoard | src/kanbanflow/client.ts:63-73 | getBoard returns a board iff "/board" answered ok with a body the board schema accepts, and it is the schema's value; a refused body is a validation error with the schema's issues; an earlier failure passes through unchanged |
| KanbanFlow.GetUsers | src/kanbanflow/client.ts:152-162 | getUsers returns the users iff "/users" answered ok with a body the users schema accepts, and they are the schema's value; a refused body is a validation error with the schema's issues; an earlier failure passes through unchanged |
| KanbanFlow.NonEmpty | src/kanbanflow/client.ts:82-84 | a string option counts iff it is present and non-empty |
| KanbanFlow.NonZero | src/kanbanflow/client.ts:98-99 | a number option counts iff it is present and non-zero, and is sent as its decimal text |
| KanbanFlow.AppendSelector | src/kanbanflow/client.ts:82-88 | the if/else-if chain appends exactly the column selector `Selector` describes |
| KanbanFlow.BuildTasksQuery | src/kanbanflow/client.ts:80-108 | the successive appends build exactly the specified parameter list |
| KanbanFlow.TasksQuery | src/kanbanflow/client.ts:80-108 | at most six parameters are sent, and none with an empty value |
| KanbanFlow.TasksQuerySends | src/kanbanflow/client.ts:82-108 | under each key the query sends what `Sent` describes field by field: `columnId`, else `columnName`, else `columnIndex` (sent even at 0); the other parameters only when truthy, `includePosition` only when true |
| KanbanFlow.TasksQueryOrdered | src/kanbanflow/client.ts:82-108 | the parameters appear in the order selector, startTaskId, startGroupingDate, limit, order, includePosition, each at most once, so at most one column selector is sent |
| KanbanFlow.ColumnIndexZero | src/kanbanflow/client.ts:82-88 | `columnId` "c1" with `columnIndex` 0 sends only `columnId`; `columnIndex` 0 alone is sent; `""` and limit 0 are not |
| KanbanFlow.RenderQuery | src/kanbanflow/client.ts:110 | the rendered query is empty iff there are no parameters |
| KanbanFlow.TasksPath | src/kanbanflow/client.ts:110-111 | the path is "/tasks" iff no parameter is sent, and "/tasks?" followed by the query otherwise |
| KanbanFlow.NoOptionsNoQuery | src/kanbanflow/client.ts:78-111 | without options nothing is sent and the path is "/tasks" |
| KanbanFlow.GetTasks | src/kanbanflow/client.ts:78-121 | getTasks requests the path its query gives and validates the body as a tasks response |
| KanbanFlow.TaskByIdPath | src/kanbanflow/client.ts:126-137 | the path is "/tasks/" + id, followed by "?includePosition=true" exactly when the flag (false by default) is set |
| KanbanFlow.GetTaskById | src/kanbanflow/client.ts:126-147 | getTaskById requests that path and validates the body as a task |
| KanbanFlow.Message | src/kanbanflow/client.ts:17-69 | btoa's error is the only one without a modelled text; a missing key reads "KANBANFLOW_API_KEY is required"; a fetch rejection and a failing `response.json()` keep the runtime's own text; a non-ok status starts with "KanbanFlow API error "; a refused body is "Invalid response format: " followed by the ZodError text |
| KanbanFlow.RemoteMessageInjective | src/kanbanflow/client.ts:51-53 | two non-ok responses with the same error message had the same status and the same body text, because the status text holds no ':' |
| KanbanFlow.RemoteMessageEndsWithBody | src/kanbanflow/client.ts:51-53 | the error message of a non-ok response ends with the body text the server sent |
| KanbanFlow.NotFoundTask | src/kanbanflow/client.ts:50-54 | a 404 "Not Found" for task t1 fails with that status and body before any schema check, with the message "KanbanFlow API error 404: Not Found" |
| Resolver.UserMapOf | src/mcp/user-resolver.ts:27 | every listed user's id is a key of the map, and every key is some listed user's id |
| Resolver.UserMapLastWins | src/mcp/user-resolver.ts:27 | an id maps to the last user in the list carrying it |
| Resolver.NameOf | src/mcp/user-resolver.ts:48-50 | a name is found iff the id is in the map, and it is that user's full name |
| Resolver.NameCollaborators | src/mcp/user-resolver.ts:56-62 | the named list has the same length, each entry keeps its `userId` at its position and gains the resolved name or none |
| Resolver.EnrichTaskWith | src/mcp/user-resolver.ts:42-66 | every task field is kept; `responsibleUserName` is added iff `responsibleUserId` is non-empty and resolves, and it is that user's name; the collaborators list is replaced iff it is present and non-empty |
| Resolver.EnrichKeepsCollaborators | src/mcp/user-resolver.ts:55-63 | dropping the added names gives back the task's own collaborators field, in order |
| Resolver.ResponsibleNamedFromUsers | src/mcp/user-resolver.ts:27-51 | the responsible user is named from the last user in the fetched list carrying the id |
| Resolver.EnrichTasksWith | src/mcp/user-resolver.ts:71-101 | the same columns in the same order with their fields kept, and each task enriched exactly as enrichTask does |
| Resolver.EnrichCommentWith | src/mcp/user-resolver.ts:106-116 | the comment is kept and `authorUserName` is added iff the author id resolves |
| Resolver.EnrichCommentsWith | src/mcp/user-resolver.ts:121-132 | enrichComment on every comment, with length and order kept |
| Resolver.AuthorNamedFromUsers | src/mcp/user-resolver.ts:110-113 | an author is named iff some fetched user carries the id, and then from the last such user |
| Resolver.LoadOutcome | src/mcp/user-resolver.ts:19-29 | a cached map, even an empty one, is returned as is; without one, the result is the map of the fetched users or the fetch's error |
| Resolver.UserResolver.constructor | src/mcp/user-resolver.ts:10-14 | a new resolver has its client, an empty cache and no fetches |
| Resolver.UserResolver.GetUserMap | src/mcp/user-resolver.ts:19-29 | a hit returns the cached map and fetches nothing; a miss fetches once and caches the map only on success |
| Resolver.UserResolver.ClearCache | src/mcp/user-resolver.ts:34-37 | the cache becomes empty and nothing else changes |
| Resolver.UserResolver.EnrichTask | src/mcp/user-resolver.ts:42-66 | the result is EnrichTaskWith on the loaded map, or the load's error; the cache and fetch count change as the load does |
| Resolver.UserResolver.EnrichTasks | src/mcp/user-resolver.ts:71-101 | the result is EnrichTasksWith on the loaded map, or the load's error |
| Resolver.UserResolver.EnrichComment | src/mcp/user-resolver.ts:106-116 | the result is EnrichCommentWith on the loaded map, or the load's error |
| Resolver.UserResolver.EnrichComments | src/mcp/user-resolver.ts:121-132 | the result is EnrichCommentsWith on the loaded map, or the load's error |
| Resolver.CachedAfterFirstLoad | src/mcp/user-resolver.ts:19-37 | after one successful load, later calls use the first fetch's users whatever the transport would answer; after clearCache the next call fetches again |
| Resolver.RetryAfterFailure | src/mcp/user-resolver.ts:26-28 | a failed load propagates its error and leaves the cache empty, so the next call fetches and succeeds |

## Left out

- HTTP I/O. `fetch`, `response.text()` and `response.json()` become the `Transport` parameter and the `Response` value it returns.
- `RequestInit` options and header merging in `request`. Every endpoint calls it with none.
- The text of a ZodError. A validation error carries the structured issues, not Zod's message wording.
- KanbanFlow.Message: takes the ZodError text as a parameter (`zodMessage`) rather than computing it, because Zod's message formatting is library behaviour.
- Zod issue codes and messages beyond the path, the expected kind and the received kind.
- JavaScript number semantics. Numbers are unbounded integers: floats, NaN and `toString` of non-integers are not modelled.
- Decimal.IntToString: writes every integer as plain digits, while `Number.prototype.toString()` writes integral numbers of magnitude 10^21 or more in exponent form (`1e+21`), and a JavaScript number cannot hold integers beyond 2^53 exactly. So for a `columnIndex` or `limit` that large the model's text differs from the runtime's.
- URLSearchParams percent-encoding. The query is an ordered list of key/value pairs, rendered as `key=value` joined by `&`.
- The wording of the error `btoa` throws. It is the single value `InvalidCharacter`.
- KanbanFlow.NewClient: the configured key is a string parameter in which "" stands for a missing environment value, because configuration loading is not part of this model.
- Single-flight loading for concurrent first calls. The code has no in-flight guard, and the model is sequential.
- Logging calls in the resolver (`logger.debug`, `logger.info`).
- `src/mcp/tools.ts`, `src/mcp/server.ts`, `src/main.ts`, `src/config.ts` and `src/utils/`. These hold tool registration, output envelopes, server bootstrap, environment reads and logging.
- Comment fetching and pagination metadata. No `getComments` endpoint or pagination summary exists in the modelled code.
- `UserSchema` and `UsersResponseSchema` are imported by `client.ts` and `types.ts` but are not defined in `schemas.ts`. A user is modelled as a string `_id` and `fullName`, the only fields the resolver reads, with every other entry of the object kept, in order.
- The `Comment` type that `user-resolver.ts` imports from `types.ts` is not declared there. A comment is modelled as its `authorUserId` plus an opaque remainder, and comments are not validated.
