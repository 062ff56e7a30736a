/** The HTTP-shaped surface of a handler: requests as the handler reads them, and responses. */
module Http {
  import opened Optional
  import opened JsValue

  /** The status codes the handlers answer with (section 15 of RFC 9110). */
  datatype Status = OK | BadRequest | NotFound | InternalServerError {
    function Code(): nat {
      match this
      case OK => 200
      case BadRequest => 400
      case NotFound => 404
      case InternalServerError => 500
    }
  }

  /** The `msg` field of the JSON body sent back: a text or the fetched records. */
  datatype Message = Text(text: string) | Records(records: seq<Record>)

  /** `res.status(code).send({msg})`. */
  datatype Response = Response(status: Status, msg: Message)

  datatype Verb = POST | GET | PUT | DELETE

  /**
   * The `id` query parameter as Express's query parser delivers it: a plain
   * string, or (for `?id=a&id=b` or `?id[k]=v`) an array or object, which has
   * no `split` method.
   */
  datatype QueryValue = QueryText(text: string) | QueryStructured

  /**
   * A request, reduced to the parts its verb's handler reads:
   * the `tasks` body field (a list for POST, one object for PUT),
   * the `id` query parameter (GET) and the `:key` path parameter (PUT, DELETE).
   */
  datatype Request =
    | PostRequest(batch: Option<seq<Record>>)
    | GetRequest(id: Option<QueryValue>)
    | PutRequest(key: Option<string>, patch: Option<Record>)
    | DeleteRequest(key: Option<string>)
  {
    function Verb(): Verb {
      match this
      case PostRequest(_) => POST
      case GetRequest(_) => GET
      case PutRequest(_, _) => PUT
      case DeleteRequest(_) => DELETE
    }
  }

  /** `!!req.params.key`: a path key is usable when present and non-empty. */
  predicate KeyGiven(key: Option<string>) {
    key.Some? && key.value != ""
  }

  /** `!!req.query.id`: arrays and objects are truthy, the empty string is not. */
  predicate QueryGiven(id: Option<QueryValue>) {
    id.Some? && (id.value.QueryText? ==> id.value.text != "")
  }
}
