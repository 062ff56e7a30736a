/** The task handler's unit-test scenarios, restated as facts about the model. */
module TaskScenarios {
  import opened Optional
  import opened JsValue
  import opened Http
  import opened Persistence
  import opened BaseApiHandler
  import opened TaskHandler

  const ScheduleId := Str("08fc6f60-03b6-44a9-9277-5bd228ebb6dc")

  /** A task with every field, as the first creation test sends it. */
  const FullTask: Record :=
    map["accountId" := Num(333.0), "scheduleId" := ScheduleId, "startTime" := Str("2023-04-09"),
        "duration" := Num(2.0), "type" := Str("work")]

  /** Two tasks without start times, as the multiple-creation test sends them. */
  const FirstTask: Record := map["accountId" := Num(333.0), "scheduleId" := ScheduleId, "type" := Str("work")]
  const SecondTask: Record := map["accountId" := Num(444.0), "scheduleId" := ScheduleId, "type" := Str("work")]

  /** The body of the update tests. */
  const UpdateBody: Record := map["accountId" := Num(333.0), "scheduleId" := ScheduleId]

  /** Creating one task with every field: one `createMany` carrying the parsed date, then 200. */
  lemma CreateWithStartTime(outcome: Outcome)
    requires outcome.Succeeded?
    ensures Post(Some([FullTask]), outcome)
            == Handled(Some(Response(OK, Text("Success"))),
                       Some(CreateMany([FullTask["startTime" := DateOf(Str("2023-04-09"))]])))
  {
    assert WellFormed([FullTask][0]);
    assert AcceptableBatch(Some([FullTask]));
    assert !StartTimeThrows([FullTask][0]);
    assert !AnyStartTimeThrows([FullTask]);
    var sent := FullTask["startTime" := DateOf(Str("2023-04-09"))];
    assert TransformTaskRequest(FullTask) == Some(sent);
    var data := Post(Some([FullTask]), outcome).call.value.data;
    assert Some(data[0]) == TransformTaskRequest(FullTask);
    assert data == [sent];
  }

  /** Creating two tasks without start times sends both unchanged, in order, in one `createMany`, then 200. */
  lemma CreateTwoWithoutStartTime(outcome: Outcome)
    requires outcome.Succeeded?
    ensures Post(Some([FirstTask, SecondTask]), outcome)
            == Handled(Some(Response(OK, Text("Success"))), Some(CreateMany([FirstTask, SecondTask])))
  {
    var batch := [FirstTask, SecondTask];
    TransformKeepsDatelessTask(FirstTask);
    TransformKeepsDatelessTask(SecondTask);
    assert WellFormed(batch[0]) && WellFormed(batch[1]);
    assert AcceptableBatch(Some(batch));
    assert !StartTimeThrows(batch[0]) && !StartTimeThrows(batch[1]);
    assert !AnyStartTimeThrows(batch);
    var data := Post(Some(batch), outcome).call.value.data;
    assert Some(data[0]) == Some(FirstTask) && Some(data[1]) == Some(SecondTask);
    assert data == batch;
  }

  /** Updating without a key: 400 and no `update`. */
  lemma UpdateWithoutKey(patch: Record, outcome: Outcome)
    ensures Put(None, Some(patch), outcome).response.Some?
    ensures Put(None, Some(patch), outcome).response.value.status.Code() == 400
    ensures Put(None, Some(patch), outcome).call == None
  {
  }

  /** Updating or deleting an id the store rejects with a known request error: 404 after exactly one call. */
  lemma UnknownIdIsNotFound(key: string, code: string)
    requires key != ""
    ensures Put(Some(key), Some(UpdateBody), KnownRequestError(code)).response == Some(Response(NotFound, Text(UnknownIdMessage)))
    ensures Put(Some(key), Some(UpdateBody), KnownRequestError(code)).call == Some(UpdateById(key, UpdateBody))
    ensures Delete(Some(key), KnownRequestError(code)).response == Some(Response(NotFound, Text(UnknownIdMessage)))
    ensures Delete(Some(key), KnownRequestError(code)).call == Some(DeleteById(key))
  {
    TransformKeepsDatelessTask(UpdateBody);
  }

  /** A start time `new Date` cannot convert: an object with its own `toString` field. */
  const UnconvertibleTask: Record :=
    map["scheduleId" := ScheduleId, "type" := Str("work"), "startTime" := Obj(map["toString" := Num(0.0)])]

  /** The update body is transformed inside the `try`: 500 and no `update`. */
  lemma UpdateWithUnconvertibleStartTime(key: string, outcome: Outcome)
    requires key != ""
    ensures Put(Some(key), Some(UnconvertibleTask), outcome)
            == Handled(Some(Response(InternalServerError, Text(UpdateFailedMessage))), None)
  {
    assert StartTimeThrows(UnconvertibleTask);
  }

  /** The creation batch is transformed outside the `try`: nothing is sent and nothing is created. */
  lemma CreateWithUnconvertibleStartTime(outcome: Outcome)
    ensures Post(Some([FirstTask, UnconvertibleTask]), outcome) == Handled(None, None)
  {
    var batch := [FirstTask, UnconvertibleTask];
    assert WellFormed(batch[0]) && WellFormed(batch[1]);
    assert AcceptableBatch(Some(batch));
    assert StartTimeThrows(batch[1]);
  }
}
