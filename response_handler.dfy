/**
 * The JSON envelopes every API route answers with (`lib/responseHandler.ts`). The clock
 * (`new Date().toISOString()`) is the `timestamp` parameter and `process.env.NODE_ENV`
 * the `nodeEnv` parameter.
 */
module ResponseHandler {
  import opened Wrappers

  /** The error codes the routes use (`ERROR_CODES`). */
  datatype ErrorCode = ValidationError | NotFound | InternalError

  /** The `error` member of a failure envelope; `details` is dropped outside development. */
  datatype ErrorInfo = ErrorInfo(code: ErrorCode, details: Option<string>)

  datatype Envelope<+T> =
    | SuccessEnvelope(message: string, data: Option<T>, timestamp: string)
    | ErrorEnvelope(message: string, error: ErrorInfo, timestamp: string)
  {
    /** The `success` member of the JSON body. */
    predicate Success() {
      SuccessEnvelope?
    }
  }

  /** An HTTP response: the status and the JSON body. */
  datatype Response<+T> = Response(status: int, body: Envelope<T>)

  const Development: string := "development"

  /** `sendSuccess(data = null, message = "Success", status = 200)`. */
  function SendSuccess<T>(
    timestamp: string, data: Option<T> := None, message: string := "Success", status: int := 200
  ): (r: Response<T>)
    ensures r.body.Success() && r.status == status && r.body.message == message
    ensures r.body.data == data && r.body.timestamp == timestamp
  {
    Response(status, SuccessEnvelope(message, data, timestamp))
  }

  /**
   * `sendError(message = "Something went wrong", code = "INTERNAL_ERROR", status = 500, details?)`;
   * the details travel only when `NODE_ENV` is `"development"`.
   */
  function SendError<T>(
    nodeEnv: string, timestamp: string, message: string := "Something went wrong",
    code: ErrorCode := InternalError, status: int := 500, details: Option<string> := None
  ): (r: Response<T>)
    ensures !r.body.Success() && r.status == status && r.body.message == message
    ensures r.body.ErrorEnvelope? && r.body.error.code == code && r.body.timestamp == timestamp
    ensures r.body.error.details == if nodeEnv == Development then details else None
  {
    Response(status, ErrorEnvelope(message, ErrorInfo(code, if nodeEnv == Development then details else None), timestamp))
  }

  /** The defaults of both helpers, as a caller that passes nothing else sees them. */
  lemma Defaults<T>(nodeEnv: string, timestamp: string)
    ensures var s := SendSuccess<T>(timestamp);
      s.status == 200 && s.body.message == "Success" && s.body.data == None
    ensures var e := SendError<T>(nodeEnv, timestamp);
      e.status == 500 && e.body.message == "Something went wrong"
      && e.body.error == ErrorInfo(InternalError, None)
  {
  }

  /** Outside development no error envelope carries details, whatever the caller passed. */
  lemma DetailsHiddenOutsideDevelopment<T>(
    nodeEnv: string, timestamp: string, message: string, code: ErrorCode, status: int, details: Option<string>)
    requires nodeEnv != Development
    ensures SendError<T>(nodeEnv, timestamp, message, code, status, details).body.error.details == None
  {
  }
}
