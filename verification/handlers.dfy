/**
 * The registered handlers, each composed with the base defaults: the task
 * handler overrides all four verbs, the schedule handler none.
 */
module Handlers {
  import opened Optional
  import opened Http
  import opened Persistence
  import opened BaseApiHandler
  import TaskHandler

  datatype Resource = Schedules | Tasks

  /** The verbs each concrete handler class overrides. */
  function Overridden(resource: Resource): set<Verb> {
    match resource
    case Schedules => {}
    case Tasks => {POST, GET, PUT, DELETE}
  }

  /** The handler's own code; the schedule handler has none, so it only ever inherits. */
  function Own(resource: Resource): (Request, Outcome) -> Handled {
    match resource
    case Schedules => (req: Request, outcome: Outcome) => Default(req)
    case Tasks => TaskHandler.Handle
  }

  /** How the resource's handler answers a request, overrides first and defaults otherwise. */
  function Dispatch(resource: Resource, req: Request, outcome: Outcome): (h: Handled)
    ensures h.call.Some? ==> resource == Tasks
    ensures resource == Schedules ==> h == Default(req)
    ensures resource == Tasks ==> h == TaskHandler.Handle(req, outcome)
  {
    Serve(Overridden(resource), Own(resource), req, outcome)
  }

  /** The task handler never falls through to the invalid-path answer, whatever the verb. */
  lemma TasksNeverInvalidPath(req: Request, outcome: Outcome)
    ensures Dispatch(Tasks, req, outcome).response.Some? ==>
              Dispatch(Tasks, req, outcome).response.value.msg != Text(InvalidPathMessage)
  {
  }

  /** The schedule handler, overriding nothing, answers every verb 400 and calls nothing. */
  lemma SchedulesRejectEveryVerb(req: Request, outcome: Outcome)
    ensures Dispatch(Schedules, req, outcome) == Handled(Some(Response(BadRequest, Text(InvalidPathMessage))), None)
  {
    NothingOverriddenRejectsAll(Own(Schedules), req, outcome);
  }
}
