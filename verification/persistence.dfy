/**
 * The persistence collaborator (the ORM's task delegate), seen from the
 * handler: the one call a handler issues, and the outcome it observes.
 */
module Persistence {
  import opened Optional
  import opened JsValue

  /** A call on the task delegate. */
  datatype Call =
      /** `createMany({data})` */
    | CreateMany(data: seq<Record>)
      /** `findMany()` when `filter` is `None`, `findMany({where: {id: {in: ids}}})` otherwise */
    | FindMany(filter: Option<seq<string>>)
      /** `update({where: {id}, data: patch})` */
    | UpdateById(id: string, patch: Record)
      /** `delete({where: {id}})` */
    | DeleteById(id: string)

  /**
   * How the awaited call settled: resolved (with the records a fetch
   * returns), rejected with a `PrismaClientKnownRequestError` (whatever its
   * code), or rejected with any other error.
   */
  datatype Outcome =
    | Succeeded(records: seq<Record>)
    | KnownRequestError(code: string)
    | OtherError(message: string)
}
