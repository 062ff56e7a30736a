# Task request handler — a Dafny model

This project models the request handling of a small CRUD service for
schedules and tasks. The task handler validates and transforms a request,
issues at most one call to the ORM's task delegate (`createMany`,
`findMany`, `update` or `delete`), and maps how that call settled to an
HTTP status: 200, 400, 404 or 500, with the meanings of section 15 of
RFC 9110. The base handler answers every verb a concrete handler does not
override with "400 Bad request: invalid path.".

Every handler verb is a pure function. It takes the parts of the request it
reads and the outcome of the persistence call. It returns a `Handled`
value: the response (status and `msg`) and the call issued, if any. The
response is absent when the handler throws outside any `try`: the returned
promise rejects and nothing is sent. The call never depends on the outcome.
The outcome only matters once a call has been issued.

Modules, one per concern:

- `Optional`, `JsValue`: optional fields, JSON-shaped values, and
  JavaScript truthiness. `null`, `false`, `0` and `""` are falsy. An absent
  field reads as `undefined`.
- `Strings`: `split` on a one-character separator, and its inverse `join`.
- `Http`: statuses, responses, verbs, and the request parts each verb reads.
- `Persistence`: the calls on the task delegate, and their outcome. An
  outcome is success, a `PrismaClientKnownRequestError` of any code, or any
  other error.
- `BaseApiHandler`: the default verbs, and how a handler's overrides
  compose with them.
- `TaskHandler`: `validateTaskRequest`, `transformTaskRequest`, `post`,
  `get`, `put` and `delete`.
- `Handlers`: the two registered handlers. The task handler overrides all
  four verbs. The schedule handler in `handler/scheduleHandler.ts` overrides
  none.
- `TaskScenarios`: the task handler's unit-test scenarios, stated as facts
  about the model.

`new Date(v)` is represented by the constructor `DateOf(v)`. It stands for
the instant parsed from `v` and is otherwise left uninterpreted. The
constructor throws a `TypeError` when `v` cannot be converted to a
primitive (`DateConstructorThrows`): an object with its own `toString`
field, or an array holding such a value. In `post` the transform loop runs
outside the `try` (handler/taskHandler.ts:70-72), so such a start time
leaves the request unanswered, with nothing created. In `put` the
transform runs inside the `try` (:127-131), so the answer is 500 "Fail to
update tasks." with no `update` issued.

Facts about the code that the model keeps:
- The GET failure message is "Fail to retrive tasks.", spelled as at
  handler/taskHandler.ts:105.
- The ids filter is the ordered list of comma-separated pieces. Order and
  duplicates are kept.
- Express's query parser delivers the `id` query as an array or object
  instead of a string for `?id=a&id=b` or `?id[k]=v`. Such a value has no
  `split`, so the `TypeError` is caught by the surrounding `try`. The answer
  is 500 with no fetch issued. The model keeps this case as
  `QueryStructured`.

## Model

| member | source | states |
|---|---|---|
| Strings.Split | handler/taskHandler.ts:95 | the pieces of the `id` query: at least one piece; no piece holds a comma; joining the pieces with commas gives back the query |
| Strings.SplitJoin | handler/taskHandler.ts:95-97 | splitting the comma-join of comma-free pieces returns exactly those pieces in order, so the filter is exactly the listed ids |
| TaskHandler.AllWellFormed | handler/taskHandler.ts:27-32 | the front-to-back scan that stops at the first bad element accepts exactly when every element has a truthy `scheduleId` and `type` |
| TaskHandler.ValidateTaskRequest | handler/taskHandler.ts:20-34 | accepts exactly a present, non-empty batch whose elements are all well formed; a missing or empty batch gets 400 "no task is provided."; otherwise one bad element anywhere gets 400 "scheduleId and taskType must be provided." |
| TaskHandler.TransformTaskRequest | handler/taskHandler.ts:41-52 | the transform throws exactly when a truthy `startTime` cannot be converted by `new Date`; otherwise the payload has exactly the input's fields, keeps every field except `startTime` unchanged, replaces a truthy `startTime` with its parsed date, and keeps a falsy one as is |
| TaskHandler.TransformIsFieldwise | handler/taskHandler.ts:41-52 | when it does not throw, spreading the request and then overriding `startTime` equals converting each field on its own, where only a truthy start time changes |
| TaskHandler.TransformKeepsDatelessTask | handler/taskHandler.ts:45-51 | a task with no truthy `startTime` goes to the store unchanged |
| TaskHandler.TransformAll | handler/taskHandler.ts:69-72 | the loop throws exactly when some task's start time cannot be converted; otherwise the list sent to `createMany` has the batch's length, and element i is the transform of task i |
| TaskHandler.Post | handler/taskHandler.ts:60-81 | a missing, empty or malformed batch gets the validation 400 and no call; a validated batch with an unconvertible start time gets no response and no call; otherwise exactly one `createMany` of the transformed batch in order, then 200 "Success" exactly when the call succeeds and 500 "Fail to create task." otherwise |
| TaskHandler.Get | handler/taskHandler.ts:91-107 | no or empty `id` query: one unfiltered `findMany`; a string query: one `findMany` filtered on comma-free pieces that join back to the query; 200 with the returned records exactly when a fetch was made and succeeded, otherwise 500 "Fail to retrive tasks."; never 400 or 404 |
| TaskHandler.GetFiltersOnGivenIds | handler/taskHandler.ts:94-98 | a GET whose query is the comma-join of comma-free ids (not the single empty id) issues `findMany` filtered on exactly those ids, in order |
| TaskHandler.WriteResponse | handler/taskHandler.ts:127-142 | after an `update` or `delete`: 200 exactly on success, 404 exactly on a known request error of any code, 500 exactly on any other error |
| TaskHandler.Put | handler/taskHandler.ts:116-143 | a missing or empty key or a missing body gets 400 and no call; a body whose start time cannot be converted gets 500 "Fail to update tasks." and no call; otherwise exactly one `update` of that id with the transformed body, answered per the write mapping; `scheduleId` and `type` are not required |
| TaskHandler.Delete | handler/taskHandler.ts:151-175 | a missing or empty key gets 400 and no call; otherwise exactly one `delete` of that id, answered per the write mapping |
| TaskHandler.CallIndependentOfOutcome | handler/taskHandler.ts:60-175 | for every verb, the call issued (or its absence) is the same whatever the persistence outcome: validation comes before persistence |
| TaskHandler.StatusFollowsOutcome | handler/taskHandler.ts:60-175 | a 200 is sent only after a call that succeeded; a 404 only after a PUT or DELETE call that hit a known request error; a response without a call is a 400, the 500 of a GET whose query cannot be split, or the 500 of a PUT whose start time cannot be converted; only a validated POST with an unconvertible start time goes unanswered |
| BaseApiHandler.Default | src/handler/baseApiHandler.ts:10-21 | the inherited `post`, `get`, `put` and `delete` answer 400 "Bad request: invalid path." and make no persistence call |
| BaseApiHandler.Serve | src/handler/baseApiHandler.ts:7-31 | an overridden verb runs the handler's own code; any other verb gets the default 400 with no call, whatever the request and outcome |
| BaseApiHandler.NothingOverriddenRejectsAll | src/handler/baseApiHandler.ts:27-31 | a handler that only holds the client and overrides nothing answers every verb 400 and calls nothing |
| Handlers.Dispatch | router/v1.ts:15-21 | the registered schedule handler answers with the defaults, the registered task handler with its own code, and only the task handler ever calls persistence |
| Handlers.TasksNeverInvalidPath | handler/taskHandler.ts:60-175 | the task handler overrides every verb: no answer to a task request is the invalid-path answer |
| Handlers.SchedulesRejectEveryVerb | handler/scheduleHandler.ts:8-16 | the schedule handler in handler/scheduleHandler.ts overrides nothing, so every verb answers 400 "Bad request: invalid path." with no call |
| TaskScenarios.CreateWithStartTime | spec/apiHandler/taskSpec.ts:30-59 | one complete task: a single `createMany` whose start time is the parsed date, then 200 "Success" |
| TaskScenarios.CreateTwoWithoutStartTime | spec/apiHandler/taskSpec.ts:89-124 | two tasks without start times are sent unchanged, in order, in one `createMany`, and a successful call gets 200 "Success" |
| TaskScenarios.UpdateWithoutKey | spec/apiHandler/taskSpec.ts:213-225 | an update with no key gets 400 and no `update` call |
| TaskScenarios.UnknownIdIsNotFound | spec/apiHandler/taskSpec.ts:227-288 | a known request error gets 404, after exactly one `update` of that id with the transformed body, or exactly one `delete` of that id |
| TaskScenarios.UpdateWithUnconvertibleStartTime | handler/taskHandler.ts:127-141 | an update body whose start time is an object with its own `toString` gets 500 "Fail to update tasks." and no `update` |
| TaskScenarios.CreateWithUnconvertibleStartTime | handler/taskHandler.ts:66-75 | a valid batch holding a task whose start time is an object with its own `toString` gets no response and no `createMany` |

## Left out

- Express `Request`/`Response` objects, route registration, path concatenation and server startup are wiring over a library. A request is reduced to the fields each verb reads. A response is a status and a `msg`.
- The ORM's own semantics are not modelled: uniqueness, what `findMany` returns, and what each known-request error code means. A call's result is an outcome parameter.
- Parsing in `new Date(...)` is library behaviour. It is represented symbolically by `DateOf`. Only whether the constructor throws is modelled.
- `async`/`await` and `console.log` logging are not modelled. Each verb runs to its single answer, or to a rejection that sends nothing.
- Batch elements that are not objects cannot be expressed: a batch is a list of records. In the source, a `null` element makes `task.scheduleId` throw outside any `try`, so no response is sent. A number, string, boolean or array element reads `undefined` for both fields, so the batch gets the 400 "scheduleId and taskType must be provided.".
- A PUT body that is not an object cannot be expressed: the body is an optional record. In the source, a falsy body (`0`, `""`, `false`) gets the 400 for a missing body. A truthy non-object (a non-empty string, a non-zero number, an array) is spread into one `update` call, answered by the same 200/404/500 mapping.
- A `tasks` field on POST that is not an array cannot be expressed: it is either absent or a list. In the source, `""` or an object whose `length` equals 0 under the loose `==` of handler/taskHandler.ts:23 (`0`, `"0"`, `""`, `false`, `[]`, …) gets 400 "no task is provided.", because `??` only replaces `null` and `undefined`. A non-empty string gets 400 "scheduleId and taskType must be provided.", because the loop walks its characters. Any other object, a number or a boolean throws in the loop at :27 outside any `try`, so no response is sent.
- A request without a body is not modelled. Reading `req.body.tasks` then throws outside any `try`, and no response is sent.
- JSON numbers are modelled as reals. NaN cannot occur in a parsed JSON body. An overflowing literal such as `1e400` parses to `Infinity`, which is truthy like any non-zero real, so it is covered by a large non-zero number.
- The create, read, update and delete code of `src/handler/scheduleHandler.ts`, which `spec/apiHandler/scheduleSpec.ts` imports, is not part of this model, and neither is its `startTime`/`endTime` transform. The schedule handler in `handler/scheduleHandler.ts` has every override commented out.
- The request interfaces are not modelled. They only give field shapes, and the two copies disagree. Tasks are modelled as maps from field names to values.
- The `"work"` to `TaskType.work` mapping is done by the ORM's enum types, not by handler code.
- The route constants (`API_ROOT_PATH`, `TASK_ROOT_PATH`, `SCHEDULE_ROOT_PATH`) are not part of this model.
