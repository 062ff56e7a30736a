/**
 * The task handler's decision procedure: for each verb, from the request and
 * the outcome of the persistence call, the response and the call it issues.
 * The call itself never depends on the outcome; the outcome is consulted only
 * when a call was issued.
 */
module TaskHandler {
  import opened Optional
  import opened JsValue
  import opened Strings
  import opened Http
  import opened Persistence
  import opened BaseApiHandler

  const NoTaskMessage := "Bad Request: no task is provided."
  const MissingFieldsMessage := "Bad Request: scheduleId and taskType must be provided."
  const CreatedMessage := "Success"
  const CreateFailedMessage := "Fail to create task."
  const RetrieveFailedMessage := "Fail to retrive tasks."
  const NoIdOrDetailsMessage := "Bad request: no task id or task details provided to perform update."
  const UpdatedMessage := "Success."
  const UnknownIdMessage := "Bad Request: task id does not exist in DB."
  const UpdateFailedMessage := "Fail to update tasks."
  const NoIdMessage := "Bad request: no task id provided to perform delete."
  const DeletedMessage := "Success"
  const DeleteFailedMessage := "Fail to delete tasks."

  const StartTime := "startTime"
  const IdSeparator := ','

  // ---------------------------------------------------------------- validation

  /** A task to create must carry a truthy `scheduleId` and a truthy `type`. */
  predicate WellFormed(task: Record) {
    HasTruthy(task, "scheduleId") && HasTruthy(task, "type")
  }

  /** A creation batch is acceptable when it is present, non-empty and every element is well formed. */
  predicate AcceptableBatch(tasks: Option<seq<Record>>) {
    tasks.Some? && |tasks.value| > 0 && forall i :: 0 <= i < |tasks.value| ==> WellFormed(tasks.value[i])
  }

  /** The scan over the batch, front to back, stopping at the first element that is not well formed. */
  function AllWellFormed(batch: seq<Record>): (ok: bool)
    ensures ok <==> forall i :: 0 <= i < |batch| ==> WellFormed(batch[i])
  {
    if |batch| == 0 then true
    else if !WellFormed(batch[0]) then false
    else AllWellFormed(batch[1..])
  }

  datatype Validation = Accepted(batch: seq<Record>) | Rejected(response: Response)

  /**
   * `validateTaskRequest`: a missing (`undefined` or `null`) or empty batch is
   * rejected first; otherwise one element lacking `scheduleId` or `type`
   * rejects the whole batch, wherever it stands.
   */
  function ValidateTaskRequest(tasks: Option<seq<Record>>): (v: Validation)
    ensures v.Accepted? <==> AcceptableBatch(tasks)
    ensures v.Accepted? ==> v.batch == tasks.value
    ensures v.Rejected? ==> v.response.status == BadRequest
    ensures tasks.None? || tasks.value == [] ==> v == Rejected(Response(BadRequest, Text(NoTaskMessage)))
    ensures (tasks.Some? && exists i :: 0 <= i < |tasks.value| && !WellFormed(tasks.value[i]))
              ==> v == Rejected(Response(BadRequest, Text(MissingFieldsMessage)))
  {
    var batch := if tasks.Some? then tasks.value else [];
    if |batch| == 0 then Rejected(Response(BadRequest, Text(NoTaskMessage)))
    else if !AllWellFormed(batch) then Rejected(Response(BadRequest, Text(MissingFieldsMessage)))
    else Accepted(batch)
  }

  // ---------------------------------------------------------------- transform

  /** A truthy start time whose conversion by `new Date` throws. */
  predicate StartTimeThrows(task: Record) {
    HasTruthy(task, StartTime) && DateConstructorThrows(task[StartTime])
  }

  /**
   * `transformTaskRequest`: copy every field, then replace a truthy
   * `startTime` with the date parsed from it. `None` is the `TypeError`
   * thrown when that start time cannot be converted.
   */
  function TransformTaskRequest(task: Record): (payload: Option<Record>)
    ensures payload.None? <==> StartTimeThrows(task)
    ensures payload.Some? ==> payload.value.Keys == task.Keys
    ensures payload.Some? ==> forall k :: k in task && k != StartTime ==> payload.value[k] == task[k]
    ensures payload.Some? && HasTruthy(task, StartTime) ==> payload.value[StartTime] == DateOf(task[StartTime])
    ensures StartTime in task && !Truthy(task[StartTime]) ==> payload.Some? && payload.value[StartTime] == task[StartTime]
  {
    var spread := task;
    if !HasTruthy(task, StartTime) then Some(spread)
    else if DateConstructorThrows(task[StartTime]) then None
    else Some(spread[StartTime := DateOf(task[StartTime])])
  }

  /** The per-field view of the transform: only a truthy start time changes, into its date. */
  function ConvertField(key: string, v: Value): Value {
    if key == StartTime && Truthy(v) then DateOf(v) else v
  }

  /** When the transform returns, it agrees with converting each field independently. */
  lemma TransformIsFieldwise(task: Record)
    ensures !StartTimeThrows(task) ==> TransformTaskRequest(task) == Some(map k | k in task :: ConvertField(k, task[k]))
  {
    if !StartTimeThrows(task) {
      var p := TransformTaskRequest(task).value;
      var q := map k | k in task :: ConvertField(k, task[k]);
      assert p.Keys == q.Keys;
      forall k | k in p
        ensures p[k] == q[k]
      {
      }
      assert p == q;
    }
  }

  /** A task without a truthy start time is sent to the store unchanged. */
  lemma TransformKeepsDatelessTask(task: Record)
    requires !HasTruthy(task, StartTime)
    ensures TransformTaskRequest(task) == Some(task)
  {
  }

  /** Some task in the batch has a start time that `new Date` cannot convert. */
  predicate AnyStartTimeThrows(batch: seq<Record>) {
    exists i :: 0 <= i < |batch| && StartTimeThrows(batch[i])
  }

  /**
   * The loop of `post` that pushes the transform of each task, in order;
   * `None` when the transform of some task throws, which ends the loop.
   */
  function TransformAll(batch: seq<Record>): (payloads: Option<seq<Record>>)
    ensures payloads.None? <==> AnyStartTimeThrows(batch)
    ensures payloads.Some? ==> |payloads.value| == |batch|
    ensures payloads.Some? ==> forall i :: 0 <= i < |batch| ==> Some(payloads.value[i]) == TransformTaskRequest(batch[i])
  {
    if |batch| == 0 then Some([])
    else match TransformTaskRequest(batch[0])
      case None => None
      case Some(first) =>
        match TransformAll(batch[1..])
        case None => None
        case Some(rest) => Some([first] + rest)
  }

  // ---------------------------------------------------------------- verbs

  /**
   * `post`: validate the whole batch, then one `createMany` of the
   * transformed batch; success is 200, any failure 500. A start time that
   * `new Date` cannot convert throws in the transform loop, which runs
   * outside the `try`: nothing is sent and nothing is created.
   */
  function Post(tasks: Option<seq<Record>>, outcome: Outcome): (h: Handled)
    ensures h.call.Some? <==> AcceptableBatch(tasks) && !AnyStartTimeThrows(tasks.value)
    ensures h.response.None? <==> AcceptableBatch(tasks) && AnyStartTimeThrows(tasks.value)
    ensures !AcceptableBatch(tasks) ==> h == Handled(Some(ValidateTaskRequest(tasks).response), None)
    ensures tasks.None? || tasks.value == [] ==> h == Handled(Some(Response(BadRequest, Text(NoTaskMessage))), None)
    ensures (tasks.Some? && exists i :: 0 <= i < |tasks.value| && !WellFormed(tasks.value[i]))
              ==> h == Handled(Some(Response(BadRequest, Text(MissingFieldsMessage))), None)
    ensures AcceptableBatch(tasks) && AnyStartTimeThrows(tasks.value) ==> h == Handled(None, None)
    ensures AcceptableBatch(tasks) && !AnyStartTimeThrows(tasks.value) ==>
              && h.call.value.CreateMany?
              && |h.call.value.data| == |tasks.value|
              && (forall i :: 0 <= i < |tasks.value| ==> Some(h.call.value.data[i]) == TransformTaskRequest(tasks.value[i]))
    ensures AcceptableBatch(tasks) && !AnyStartTimeThrows(tasks.value) ==>
              (h.response == Some(Response(OK, Text(CreatedMessage))) <==> outcome.Succeeded?)
    ensures AcceptableBatch(tasks) && !AnyStartTimeThrows(tasks.value) && !outcome.Succeeded? ==>
              h.response == Some(Response(InternalServerError, Text(CreateFailedMessage)))
  {
    match ValidateTaskRequest(tasks)
    case Rejected(response) => Handled(Some(response), None)
    case Accepted(batch) =>
      match TransformAll(batch)
      case None => Handled(None, None)
      case Some(payloads) =>
        var response :=
          if outcome.Succeeded? then Response(OK, Text(CreatedMessage))
          else Response(InternalServerError, Text(CreateFailedMessage));
        Handled(Some(response), Some(CreateMany(payloads)))
  }

  /** Send the fetched records on success and the retrieval failure otherwise. */
  function Fetch(call: Call, outcome: Outcome): Handled {
    var response :=
      if outcome.Succeeded? then Response(OK, Records(outcome.records))
      else Response(InternalServerError, Text(RetrieveFailedMessage));
    Handled(Some(response), Some(call))
  }

  /**
   * `get`: with no usable `id` query, fetch everything; with a string,
   * fetch the records whose id is one of its comma-separated pieces. An
   * array or object query has no `split`; the resulting error is caught
   * like a failed fetch, before any call.
   */
  function Get(id: Option<QueryValue>, outcome: Outcome): (h: Handled)
    ensures h.response.Some?
    ensures !QueryGiven(id) ==> h.call == Some(FindMany(None))
    ensures QueryGiven(id) && id.value.QueryText? ==>
              && h.call.Some? && h.call.value.FindMany? && h.call.value.filter.Some?
              && var ids := h.call.value.filter.value;
                 && |ids| > 0
                 && (forall i :: 0 <= i < |ids| ==> IdSeparator !in ids[i])
                 && Join(ids, IdSeparator) == id.value.text
    ensures id == Some(QueryStructured) ==> h == Handled(Some(Response(InternalServerError, Text(RetrieveFailedMessage))), None)
    ensures h.response.value.status == OK <==> h.call.Some? && outcome.Succeeded?
    ensures h.response.value.status == OK ==> h.response.value.msg == Records(outcome.records)
    ensures h.response.value.status != OK ==> h.response.value == Response(InternalServerError, Text(RetrieveFailedMessage))
  {
    if !QueryGiven(id) then Fetch(FindMany(None), outcome)
    else match id.value
      case QueryText(text) => Fetch(FindMany(Some(Split(text, IdSeparator))), outcome)
      case QueryStructured => Handled(Some(Response(InternalServerError, Text(RetrieveFailedMessage))), None)
  }

  /** A GET for the joined ids filters on exactly those ids, in the order given. */
  lemma GetFiltersOnGivenIds(ids: seq<string>, outcome: Outcome)
    requires |ids| > 0
    requires forall i :: 0 <= i < |ids| ==> IdSeparator !in ids[i]
    requires |ids| > 1 || ids[0] != ""
    ensures Get(Some(QueryText(Join(ids, IdSeparator))), outcome).call == Some(FindMany(Some(ids)))
  {
    assert Join(ids, IdSeparator) != "" by {
      if |ids| > 1 {
        assert |Join(ids, IdSeparator)| >= 1;
      }
    }
    SplitJoin(ids, IdSeparator);
  }

  /**
   * The answer to a write (`update` or `delete`) once issued: success is
   * 200, a known request error of any code is 404, any other error is 500.
   */
  function WriteResponse(outcome: Outcome, successText: string, failureText: string): (r: Response)
    ensures r.status == OK <==> outcome.Succeeded?
    ensures r.status == NotFound <==> outcome.KnownRequestError?
    ensures r.status == InternalServerError <==> outcome.OtherError?
    ensures r.msg == Text(
              if outcome.Succeeded? then successText
              else if outcome.KnownRequestError? then UnknownIdMessage
              else failureText)
  {
    match outcome
    case Succeeded(_) => Response(OK, Text(successText))
    case KnownRequestError(_) => Response(NotFound, Text(UnknownIdMessage))
    case OtherError(_) => Response(InternalServerError, Text(failureText))
  }

  /**
   * `put`: both a key and a body are required; then one `update` of that
   * id with the transformed body. `scheduleId` and `type` are not required.
   * The body is transformed inside the `try`, so a start time that
   * `new Date` cannot convert is answered like any other failure, before
   * the call.
   */
  function Put(key: Option<string>, patch: Option<Record>, outcome: Outcome): (h: Handled)
    ensures !KeyGiven(key) || patch.None? ==> h == Handled(Some(Response(BadRequest, Text(NoIdOrDetailsMessage))), None)
    ensures KeyGiven(key) && patch.Some? && StartTimeThrows(patch.value) ==>
              h == Handled(Some(Response(InternalServerError, Text(UpdateFailedMessage))), None)
    ensures KeyGiven(key) && patch.Some? && !StartTimeThrows(patch.value) ==>
              && h.call.Some? && h.call.value.UpdateById? && h.call.value.id == key.value
              && Some(h.call.value.patch) == TransformTaskRequest(patch.value)
              && h.response == Some(WriteResponse(outcome, UpdatedMessage, UpdateFailedMessage))
  {
    if !KeyGiven(key) || patch.None? then Handled(Some(Response(BadRequest, Text(NoIdOrDetailsMessage))), None)
    else match TransformTaskRequest(patch.value)
      case None => Handled(Some(Response(InternalServerError, Text(UpdateFailedMessage))), None)
      case Some(payload) =>
        Handled(Some(WriteResponse(outcome, UpdatedMessage, UpdateFailedMessage)), Some(UpdateById(key.value, payload)))
  }

  /** `delete`: a key is required; then one `delete` of that id. */
  function Delete(key: Option<string>, outcome: Outcome): (h: Handled)
    ensures !KeyGiven(key) ==> h == Handled(Some(Response(BadRequest, Text(NoIdMessage))), None)
    ensures KeyGiven(key) ==>
              && h.call == Some(DeleteById(key.value))
              && h.response == Some(WriteResponse(outcome, DeletedMessage, DeleteFailedMessage))
  {
    if !KeyGiven(key) then Handled(Some(Response(BadRequest, Text(NoIdMessage))), None)
    else Handled(Some(WriteResponse(outcome, DeletedMessage, DeleteFailedMessage)), Some(DeleteById(key.value)))
  }

  /** The handler's own code for each verb. */
  function Handle(req: Request, outcome: Outcome): Handled {
    match req
    case PostRequest(tasks) => Post(tasks, outcome)
    case GetRequest(id) => Get(id, outcome)
    case PutRequest(key, patch) => Put(key, patch, outcome)
    case DeleteRequest(key) => Delete(key, outcome)
  }

  /** Which call is issued is settled before persistence answers: it never depends on the outcome. */
  lemma CallIndependentOfOutcome(req: Request, o1: Outcome, o2: Outcome)
    ensures Handle(req, o1).call == Handle(req, o2).call
  {
  }

  /** The request carries a start time that `new Date` cannot convert. */
  predicate UnconvertibleStartTime(req: Request) {
    || (req.PostRequest? && req.batch.Some? && AnyStartTimeThrows(req.batch.value))
    || (req.PutRequest? && req.patch.Some? && StartTimeThrows(req.patch.value))
  }

  /**
   * A 200 or 404 is only ever sent after a call was issued and settled
   * accordingly. A response without a call is a 400, the 500 of a GET
   * whose query cannot be split, or the 500 of a PUT whose start time
   * cannot be converted. Only a POST whose start time cannot be converted
   * goes unanswered.
   */
  lemma StatusFollowsOutcome(req: Request, outcome: Outcome)
    ensures var h := Handle(req, outcome);
      h.response.Some? && h.response.value.status == OK ==> h.call.Some? && outcome.Succeeded?
    ensures var h := Handle(req, outcome);
      h.response.Some? && h.response.value.status == NotFound ==>
        h.call.Some? && outcome.KnownRequestError? && !req.GetRequest? && !req.PostRequest?
    ensures var h := Handle(req, outcome);
      h.call.None? && h.response.Some? ==>
        || h.response.value.status == BadRequest
        || req == GetRequest(Some(QueryStructured))
        || (req.PutRequest? && UnconvertibleStartTime(req))
    ensures var h := Handle(req, outcome);
      h.response.None? ==> req.PostRequest? && AcceptableBatch(req.batch) && UnconvertibleStartTime(req)
  {
  }
}
