/**
 * The base handler: every verb answers "400 invalid path" unless the
 * concrete handler overrides it. The ORM-backed base class only stores the
 * client, so it adds no behaviour of its own and is not a separate layer here.
 */
module BaseApiHandler {
  import opened Optional
  import opened Http
  import opened Persistence

  /**
   * What one handler invocation produces: the response, and the persistence
   * call it made, if any. The response is `None` when the handler threw
   * outside any `try`: the returned promise rejects and nothing is sent.
   */
  datatype Handled = Handled(response: Option<Response>, call: Option<Call>)

  const InvalidPathMessage := "Bad request: invalid path."

  /** The inherited `post`, `get`, `put` and `delete`: reject without touching persistence. */
  function Default(req: Request): (h: Handled)
    ensures h.call == None
    ensures h.response.Some? && h.response.value.status.Code() == 400
    ensures h.response.Some? && h.response.value.msg == Text(InvalidPathMessage)
  {
    Handled(Some(Response(BadRequest, Text(InvalidPathMessage))), None)
  }

  /**
   * A concrete handler composed with the defaults: the verbs in `overridden`
   * run the handler's own code, every other verb gets the default answer.
   */
  function Serve(overridden: set<Verb>, own: (Request, Outcome) -> Handled, req: Request, outcome: Outcome): (h: Handled)
    ensures req.Verb() in overridden ==> h == own(req, outcome)
    ensures req.Verb() !in overridden ==> h.call == None && h.response == Some(Response(BadRequest, Text(InvalidPathMessage)))
  {
    if req.Verb() in overridden then own(req, outcome) else Default(req)
  }

  /** A handler that overrides nothing answers every request 400 and never calls persistence. */
  lemma NothingOverriddenRejectsAll(own: (Request, Outcome) -> Handled, req: Request, outcome: Outcome)
    ensures Serve({}, own, req, outcome).call == None
    ensures Serve({}, own, req, outcome).response.Some?
    ensures Serve({}, own, req, outcome).response.value.status.Code() == 400
    ensures Serve({}, own, req, outcome) == Default(req)
  {
  }
}
