/**
 * `handleApiError` (`lib/apiErrorHandler.ts`): logs the caller's message with the error,
 * then answers with a failure envelope whose message is safe to show.
 */
module ApiErrorHandler {
  import opened Wrappers
  import opened ResponseHandler

  /** What `logger.error(message, meta)` records; the logger's own clock reading is left out. */
  datatype LogEntry = LogEntry(level: string, message: string, meta: Option<string>)

  const UnexpectedError: string := "Unexpected error"

  /** The message shown to the client: the caller's only in development. */
  function SafeMessage(nodeEnv: string, message: string): (m: string)
    ensures nodeEnv == Development ==> m == message
    ensures nodeEnv != Development ==> m == UnexpectedError
  {
    if nodeEnv == Development then message else UnexpectedError
  }

  /** `handleApiError(error, message = "Something went wrong", status = 500, code = INTERNAL_ERROR)`. */
  function HandleApiError<T>(
    nodeEnv: string, timestamp: string, error: string, message: string := "Something went wrong",
    status: int := 500, code: ErrorCode := InternalError
  ): (r: (LogEntry, Response<T>))
    ensures r.0.level == "error" && r.0.message == message && r.0.meta == Some(error)
    ensures !r.1.body.Success() && r.1.status == status && r.1.body.error.code == code
    ensures r.1.body.message in {message, UnexpectedError}
  {
    (LogEntry("error", message, Some(error)),
     SendError(nodeEnv, timestamp, SafeMessage(nodeEnv, message), code, status, Some(error)))
  }

  /**
   * Outside development the client sees neither the caller's message nor the error, while the
   * log keeps both; in development the client sees both.
   */
  lemma {:induction false} ClientSeesOnlyInDevelopment<T>(
    nodeEnv: string, timestamp: string, error: string, message: string, status: int, code: ErrorCode)
    ensures var (log, resp) := HandleApiError<T>(nodeEnv, timestamp, error, message, status, code);
      && log.message == message && log.meta == Some(error)
      && resp.status == status && !resp.body.Success() && resp.body.error.code == code
      && (nodeEnv == Development ==> resp.body.message == message && resp.body.error.details == Some(error))
      && (nodeEnv != Development ==> resp.body.message == UnexpectedError && resp.body.error.details == None)
  {
  }

  /** The defaults: status 500 and code INTERNAL_ERROR. */
  lemma ApiErrorDefaults<T>(nodeEnv: string, timestamp: string, error: string)
    ensures var r := HandleApiError<T>(nodeEnv, timestamp, error);
      r.1.status == 500 && r.1.body.error.code == InternalError && r.0.message == "Something went wrong"
  {
  }
}
