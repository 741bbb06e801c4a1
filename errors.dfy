/**
 * Errors as the backend throws them (shared/AppError.ts, zod's ZodError and any
 * other `Error`) and the error-handling middleware that turns one into an HTTP
 * response (presentation/middlewares/errorMiddleware.ts).
 */
module Errors {
  import opened Wrappers
  import opened Text
  import opened Zod

  datatype Error =
    | AppError(message: string, statusCode: int)
    | ZodError(issues: seq<Issue>)
    | PlainError(message: string)

  const BadRequest: int := 400
  const Unauthorized: int := 401
  const Forbidden: int := 403
  const InternalServerError: int := 500

  const InternalServerErrorMessage := "Internal server error"
  const ValidationErrorMessage := "Validation error"

  /** Messages of the errors the database layer throws. */
  const DuplicateKeyMessage := "E11000 duplicate key error"
  const ValidationFailedMessage := "validation failed: a required field is empty"
  const InvalidObjectIdMessage := "input must be a 24 character hex string, 12 byte Uint8Array, or an integer"

  /** Mongoose's CastError when a string id is not an ObjectId. */
  function CastErrorMessage(value: string, model: string): string {
    "Cast to ObjectId failed for value \"" + value + "\" (type string) at path \"_id\" for model \"" + model + "\""
  }

  /** `error.message`; for a ZodError only the issue messages are kept, one per line. */
  function MessageOf(e: Error): string {
    match e
    case AppError(m, _) => m
    case PlainError(m) => m
    case ZodError(issues) => Join(seq(|issues|, i requires 0 <= i < |issues| => issues[i].message), "\n")
  }

  /** Every failure a use case rewraps in its catch block becomes `new AppError(error.message, 400)`. */
  function AsBadRequest(e: Error): (r: Error)
    ensures r.AppError? && r.statusCode == BadRequest
  {
    AppError(MessageOf(e), BadRequest)
  }

  datatype FieldIssue = FieldIssue(field: string, issue: string)

  /** The JSON body; `errors` is present only for validation errors. */
  datatype ErrorBody = ErrorBody(success: bool, kind: string, message: string, errors: Option<seq<FieldIssue>>)

  datatype ErrorResponse = ErrorResponse(status: int, body: ErrorBody)

  /** The one response `errorMiddleware` sends for `err`. */
  function Respond(err: Error): (r: ErrorResponse)
    ensures !r.body.success
    ensures r.body.errors.Some? <==> err.ZodError?
    ensures err.ZodError? ==>
      && r.status == BadRequest
      && r.body.kind == "ValidationError"
      && r.body.message == ValidationErrorMessage
      && |r.body.errors.value| == |err.issues|
      && forall i :: 0 <= i < |err.issues| ==>
           r.body.errors.value[i] == FieldIssue(PathText(err.issues[i].path), err.issues[i].message)
    ensures err.AppError? ==>
      && r.body.kind == "AppError"
      && r.status == (if err.statusCode != 0 then err.statusCode else InternalServerError)
      && r.body.message == (if err.message != "" then err.message else InternalServerErrorMessage)
    ensures err.PlainError? ==>
      r == ErrorResponse(InternalServerError, ErrorBody(false, "ServerError", InternalServerErrorMessage, None))
  {
    var statusCode := if err.AppError? && err.statusCode != 0 then err.statusCode else InternalServerError;
    var message := if MessageOf(err) != "" then MessageOf(err) else InternalServerErrorMessage;
    match err
    case ZodError(issues) =>
      ErrorResponse(BadRequest, ErrorBody(false, "ValidationError", ValidationErrorMessage,
        Some(seq(|issues|, i requires 0 <= i < |issues| => FieldIssue(PathText(issues[i].path), issues[i].message)))))
    case AppError(_, _) =>
      ErrorResponse(statusCode, ErrorBody(false, "AppError", message, None))
    case PlainError(_) =>
      ErrorResponse(InternalServerError, ErrorBody(false, "ServerError", InternalServerErrorMessage, None))
  }

  /** An unexpected error's own message never reaches the client. */
  lemma ServerErrorHidesMessage(m1: string, m2: string)
    ensures Respond(PlainError(m1)) == Respond(PlainError(m2))
  {
  }

  /** A response is a server error exactly for unexpected errors and AppErrors carrying 500 or no status. */
  lemma ServerErrorIff(err: Error)
    ensures Respond(err).status == InternalServerError <==>
      err.PlainError? || (err.AppError? && (err.statusCode == 0 || err.statusCode == InternalServerError))
  {
  }

  /** Every rewrapped failure is answered with 400 and its message (or the generic one when empty). */
  lemma RewrappedIsBadRequest(e: Error)
    ensures Respond(AsBadRequest(e)).status == BadRequest
    ensures Respond(AsBadRequest(e)).body.kind == "AppError"
  {
  }
}
