/**
 * The provider error taxonomy: why a provider operation failed, whether the
 * caller may retry it, and whether the provider asked the caller to wait.
 */
module ProviderErrors {
  import opened Wrappers
  import opened GoInt

  /** The seven failure causes a provider may report. */
  datatype ErrorReason =
    | Unknown
    | Unauthorized
    | NotFound
    | InternalServerError
    | ServiceUnavailable
    | TooManyRequests
    | BadRequest

  /** The string constant each reason stands for; `Unknown` is the empty string. */
  function ReasonName(reason: ErrorReason): (s: string)
    ensures s == "" <==> reason == Unknown
    ensures reason == Unauthorized ==> s == "Unauthorized"
    ensures reason == NotFound ==> s == "NotFound"
    ensures reason == InternalServerError ==> s == "InternalServerError"
    ensures reason == ServiceUnavailable ==> s == "ServiceUnavailable"
    ensures reason == TooManyRequests ==> s == "TooManyRequests"
    ensures reason == BadRequest ==> s == "BadRequest"
  {
    match reason
    case Unknown => ""
    case Unauthorized => "Unauthorized"
    case NotFound => "NotFound"
    case InternalServerError => "InternalServerError"
    case ServiceUnavailable => "ServiceUnavailable"
    case TooManyRequests => "TooManyRequests"
    case BadRequest => "BadRequest"
  }

  /**
   * The seven constants are pairwise distinct, so comparing reasons as
   * values decides the same as comparing their strings.
   */
  lemma ReasonNamesDistinct(a: ErrorReason, b: ErrorReason)
    ensures ReasonName(a) == ReasonName(b) <==> a == b
  {
  }

  /** Extra data a provider may attach: how long to wait before retrying. */
  datatype ErrorDetails = ErrorDetails(retryAfterSeconds: int32)

  /** The status carried by an operation error; `details` is nil unless set. */
  datatype ErrorStatus = ErrorStatus(
    reason: ErrorReason,
    details: Option<ErrorDetails>,
    message: string,
    origErr: AnyError)

  /** The error value handed to the node agent; it exposes its status. */
  datatype OperationError = OperationError(errStatus: ErrorStatus)
  {
    /** The error's text is its status message. */
    function Error(): (text: string)
      ensures text == errStatus.message
    {
      errStatus.message
    }

    /** The status, as stored. */
    function Status(): (st: ErrorStatus)
      ensures st == errStatus
    {
      errStatus
    }
  }

  /**
   * Any Go `error`: nil, one that exposes a status (an operation error), or
   * an error of some other type, of which only its text is known.
   */
  datatype AnyError = Nil | Operation(op: OperationError) | Opaque(text: string)

  /** The reason an error reports; nil and errors without a status count as `Unknown`. */
  function ReasonForError(err: AnyError): (reason: ErrorReason)
    ensures !err.Operation? ==> reason == Unknown
    ensures err.Operation? ==> reason == err.op.Status().reason
  {
    match err
    case Operation(op) => op.Status().reason
    case _ => Unknown
  }

  function IsNotFound(err: AnyError): (b: bool)
    ensures b <==> err.Operation? && err.op.errStatus.reason == NotFound
  {
    ReasonForError(err) == NotFound
  }

  /**
   * Whether the request may be retried, as the switch is written: Go does not
   * fall through from an empty case, so the `TooManyRequests` and
   * `ServiceUnavailable` cases return false and only `InternalServerError`
   * is retryable.
   */
  function IsRetryable(err: AnyError): (b: bool)
    ensures b <==> err.Operation? && err.op.errStatus.reason == InternalServerError
  {
    match ReasonForError(err)
    case TooManyRequests => false
    case ServiceUnavailable => false
    case InternalServerError => true
    case _ => false
  }

  /**
   * Whether the request may be retried as the switch evidently means it:
   * its three case labels are grouped (too many requests, service
   * unavailable, internal server error), and the reasons' own descriptions
   * say the first two are worth retrying after a wait.
   */
  function IsRetryableIntended(err: AnyError): (b: bool)
    ensures b <==> err.Operation? &&
                   err.op.errStatus.reason in {TooManyRequests, ServiceUnavailable, InternalServerError}
  {
    match ReasonForError(err)
    case TooManyRequests => true
    case ServiceUnavailable => true
    case InternalServerError => true
    case _ => false
  }

  /**
   * Whether the error asks the client to wait, and for how many seconds.
   * A `ServiceUnavailable` error with details always asks, whatever the
   * value; any other error with details asks only for a positive value.
   */
  function SuggestsClientDelay(err: AnyError): (r: (int, bool))
    ensures !r.1 ==> r.0 == 0
    ensures r.1 ==> err.Operation? && err.op.errStatus.details.Some? &&
                    r.0 == err.op.errStatus.details.value.retryAfterSeconds as int
    ensures r.1 <==> err.Operation? && err.op.errStatus.details.Some? &&
                     (err.op.errStatus.reason == ServiceUnavailable ||
                      err.op.errStatus.details.value.retryAfterSeconds > 0)
  {
    match err
    case Nil => (0, false)
    case Opaque(_) => (0, false)
    case Operation(op) =>
      match op.Status().details
      case None => (0, false)
      case Some(d) =>
        if op.Status().reason == ServiceUnavailable then (d.retryAfterSeconds as int, true)
        else if d.retryAfterSeconds > 0 then (d.retryAfterSeconds as int, true)
        else (0, false)
  }

  function NewNotFound(message: string, err: AnyError): (e: OperationError)
    ensures IsNotFound(Operation(e)) && !IsRetryable(Operation(e))
    ensures e.Status().details.None? && SuggestsClientDelay(Operation(e)) == (0, false)
    ensures e.Error() == message && e.Status().origErr == err
  {
    OperationError(ErrorStatus(NotFound, None, message, err))
  }

  function NewUnauthorized(message: string, err: AnyError): (e: OperationError)
    ensures ReasonForError(Operation(e)) == Unauthorized
    ensures !IsNotFound(Operation(e)) && !IsRetryable(Operation(e))
    ensures e.Status().details.None? && SuggestsClientDelay(Operation(e)) == (0, false)
    ensures e.Error() == message && e.Status().origErr == err
  {
    OperationError(ErrorStatus(Unauthorized, None, message, err))
  }

  function NewBadRequest(message: string, err: AnyError): (e: OperationError)
    ensures ReasonForError(Operation(e)) == BadRequest
    ensures !IsNotFound(Operation(e)) && !IsRetryable(Operation(e))
    ensures e.Status().details.None? && SuggestsClientDelay(Operation(e)) == (0, false)
    ensures e.Error() == message && e.Status().origErr == err
  {
    OperationError(ErrorStatus(BadRequest, None, message, err))
  }

  /** The retry hint is `int32(retryAfterSeconds)`, which wraps around. */
  function NewTooManyRequests(message: string, retryAfterSeconds: int, err: AnyError): (e: OperationError)
    ensures ReasonForError(Operation(e)) == TooManyRequests
    ensures !IsNotFound(Operation(e)) && !IsRetryable(Operation(e))
    ensures e.Status().details == Some(ErrorDetails(Int32Of(retryAfterSeconds)))
    ensures SuggestsClientDelay(Operation(e)).1 <==> Int32Of(retryAfterSeconds) > 0
    ensures e.Error() == message && e.Status().origErr == err
  {
    OperationError(ErrorStatus(TooManyRequests, Some(ErrorDetails(Int32Of(retryAfterSeconds))), message, err))
  }

  function NewInternalServerError(message: string, retryAfterSeconds: int, err: AnyError): (e: OperationError)
    ensures ReasonForError(Operation(e)) == InternalServerError
    ensures !IsNotFound(Operation(e)) && IsRetryable(Operation(e))
    ensures e.Status().details == Some(ErrorDetails(Int32Of(retryAfterSeconds)))
    ensures SuggestsClientDelay(Operation(e)).1 <==> Int32Of(retryAfterSeconds) > 0
    ensures e.Error() == message && e.Status().origErr == err
  {
    OperationError(ErrorStatus(InternalServerError, Some(ErrorDetails(Int32Of(retryAfterSeconds))), message, err))
  }

  function NewServiceUnavailable(message: string, retryAfterSeconds: int, err: AnyError): (e: OperationError)
    ensures ReasonForError(Operation(e)) == ServiceUnavailable
    ensures !IsNotFound(Operation(e)) && !IsRetryable(Operation(e))
    ensures e.Status().details == Some(ErrorDetails(Int32Of(retryAfterSeconds)))
    ensures SuggestsClientDelay(Operation(e)) == (Int32Of(retryAfterSeconds) as int, true)
    ensures e.Error() == message && e.Status().origErr == err
  {
    OperationError(ErrorStatus(ServiceUnavailable, Some(ErrorDetails(Int32Of(retryAfterSeconds))), message, err))
  }

  function NewUnknownError(message: string, err: AnyError): (e: OperationError)
    ensures ReasonForError(Operation(e)) == Unknown
    ensures !IsNotFound(Operation(e)) && !IsRetryable(Operation(e))
    ensures e.Status().details.None? && SuggestsClientDelay(Operation(e)) == (0, false)
    ensures e.Error() == message && e.Status().origErr == err
  {
    OperationError(ErrorStatus(Unknown, None, message, err))
  }

  /** Nil, or an error without a status, reads as `Unknown`: not NotFound, not retryable, and no delay. */
  lemma NonConformingErrorIsUnknown(err: AnyError)
    requires err.Nil? || err.Opaque?
    ensures ReasonForError(err) == Unknown
    ensures !IsNotFound(err) && !IsRetryable(err) && !IsRetryableIntended(err)
    ensures SuggestsClientDelay(err) == (0, false)
  {
  }

  /** Any error whose status carries no details asks for no delay. */
  lemma NoDetailsNoDelay(err: AnyError)
    requires err.Operation? && err.op.errStatus.details.None?
    ensures SuggestsClientDelay(err) == (0, false)
  {
  }

  /**
   * The retryable set as written is a strict subset of the intended one:
   * a too-many-requests error with any hint is meant to be retryable but
   * classified as not retryable.
   */
  lemma RetryableAsWrittenMissesTooManyRequests(message: string, seconds: int)
    ensures !IsRetryable(Operation(NewTooManyRequests(message, seconds, Nil)))
    ensures IsRetryableIntended(Operation(NewTooManyRequests(message, seconds, Nil)))
    ensures !IsRetryable(Operation(NewServiceUnavailable(message, seconds, Nil)))
    ensures IsRetryableIntended(Operation(NewServiceUnavailable(message, seconds, Nil)))
  {
  }

  /** Every error retryable as written is retryable as intended. */
  lemma RetryableAsWrittenImpliesIntended(err: AnyError)
    ensures IsRetryable(err) ==> IsRetryableIntended(err)
  {
  }
}
