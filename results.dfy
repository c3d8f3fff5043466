/**
 * The result type the clients return. `Result<T>` and `ErrorCodes` live in a
 * contracts assembly that is not part of this model; only what the clients
 * observably put into a failure is represented here.
 */
module Results {
  import opened Wrappers

  /** The error codes the clients use, by the names of the `ErrorCodes` constants. */
  datatype ErrorCode =
    | ValidationError             // ErrorCodes.ValidationError
    | AuthFailed                  // ErrorCodes.AUTH_FAILED
    | ForbiddenResource           // ErrorCodes.FORBIDDEN_RESOURCE
    | ResourceNotFound            // ErrorCodes.RESOURCE_NOT_FOUND
    | Conflict                    // ErrorCodes.Conflict
    | ValidationFailed            // ErrorCodes.VALIDATION_FAILED
    | IntExternalSyncFailed       // ErrorCodes.INT_EXTERNAL_SYNC_FAILED
    | IntApiUnavailable           // ErrorCodes.INT_API_UNAVAILABLE
    | IntTimeout                  // ErrorCodes.INT_TIMEOUT
    | IntegrationExternalServiceError  // ErrorCodes.INTEGRATION_EXTERNAL_SERVICE_ERROR

  /**
   * A value in a failure's context dictionary. The elapsed time measured by
   * a stopwatch is kept only as the fact that it was recorded.
   */
  datatype ContextValue = Text(text: string) | Number(number: int) | Elapsed

  type Context = map<string, ContextValue>

  /** One positional argument of a `Result.Failure(...)` call, as written at the call site. */
  datatype FailureArg = CodeArg(code: ErrorCode) | TextArg(text: string)

  /**
   * A failure. `Named` is a call that names every parameter (errorCode,
   * errorMessage, source, context). `Positional` is a call that passes its
   * first arguments by position; the overload they bind to is not visible,
   * so the arguments are kept in call order instead of being assigned to fields.
   */
  datatype Error =
    | Named(code: ErrorCode, message: string, source: string, context: Context)
    | Positional(args: seq<FailureArg>, sourceArg: Option<string>, contextArg: Option<Context>)

  datatype Result<T> = Success(value: T) | Failure(error: Error)

  /** `Unit.Value`, the payload of operations that return no content. */
  datatype Unit = Unit

  /** What the executor of `ApiClientBase` returns: every failure names its fields. */
  type ExecResult<T> = r: Result<T> | r.Failure? ==> r.error.Named?
    witness Failure(Named(IntApiUnavailable, "", "", map[]))

  /**
   * `Result.Failure(result.ErrorCode, result.ErrorMessage)`: a failure passed
   * on with the code and message of an executor failure, positionally.
   */
  function Propagate<T, U>(r: ExecResult<T>): (f: Result<U>)
    requires r.Failure?
    ensures f.Failure? && f.error.Positional?
    ensures f.error.args == [CodeArg(r.error.code), TextArg(r.error.message)]
    ensures f.error.sourceArg.None? && f.error.contextArg.None?
  {
    Failure(Positional([CodeArg(r.error.code), TextArg(r.error.message)], None, None))
  }
}
