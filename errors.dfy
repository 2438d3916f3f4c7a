/**
 * The boundary error handler: every error a handler raises is mapped once,
 * here, to a status and a JSON body.
 */
module Errors {
  import opened Common

  /** The kinds of error the handler tells apart. */
  datatype Failure =
    | ClientFailure(message: string)          // a `ClientError` thrown by a handler
    | SchemaFailure(fieldErrors: seq<string>) // a `ZodError`: the fields that failed
    | OtherFailure(detail: string)            // anything else, e.g. a store failure

  datatype Body = MessageBody(message: string) | ValidationBody(message: string, errors: seq<string>)

  datatype Reply = Reply(status: int, body: Body)

  const InvalidInputMessage := "invalide input"
  const InternalErrorMessage := "Internal server Error"

  function ErrorHandle(e: Failure): (r: Reply)
    ensures r.status == 400 || r.status == 500
    ensures r.status == 500 <==> e.OtherFailure?
    ensures e.ClientFailure? ==> r.body == MessageBody(e.message)
    ensures e.SchemaFailure? ==> r.body == ValidationBody(InvalidInputMessage, e.fieldErrors)
    ensures e.OtherFailure? ==> r == Reply(500, MessageBody(InternalErrorMessage))
  {
    match e
    case ClientFailure(message) => Reply(400, MessageBody(message))
    case SchemaFailure(fieldErrors) => Reply(400, ValidationBody(InvalidInputMessage, fieldErrors))
    case OtherFailure(_) => Reply(500, MessageBody(InternalErrorMessage))
  }

  /** The error a handler's rejection raises. */
  function FailureOf<T>(r: Response<T>): (f: Failure)
    requires !r.Ok?
    ensures ErrorHandle(f).status == 400
    ensures r.ClientError? ==> ErrorHandle(f).body == MessageBody(r.message)
    ensures r.InvalidInput? ==> ErrorHandle(f).body == ValidationBody(InvalidInputMessage, r.fields)
  {
    match r
    case ClientError(message) => ClientFailure(message)
    case InvalidInput(fields) => SchemaFailure(fields)
  }
}
