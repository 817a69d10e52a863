/**
 * Go error values as used by the evaluation service (pkg/errors/errors.go):
 * the sentinel errors created with errors.New, the errors produced by
 * fmt.Errorf (with %w they wrap their cause, with %s they only copy its
 * text), and the AppError struct with its Error and Unwrap methods.
 */
module Errors {

  datatype Option<+T> = None | Some(value: T)

  /** A Go pair (value, error) where exactly one side is meaningful. */
  datatype Result<+T> = Ok(value: T) | Err(error: Error)

  /** The package-level sentinel values of pkg/errors/errors.go. */
  datatype Sentinel =
    | NotFound | InvalidInput | Internal
    | InvalidType | FileUpload
    | JobNotFound | JobFailed | JobTimeout

  /** The error values the modelled code creates or passes on. */
  datatype Error =
    | Sentinel(kind: Sentinel)
      /** fmt.Errorf("<prefix>: %w<suffix>", inner) */
    | Wrapped(prefix: string, inner: Error, suffix: string)
      /** An error whose text is all there is: fmt.Errorf without %w, or one made by a collaborator. */
    | Message(text: string)
      /** A *AppError */
    | App(app: AppError)

  datatype AppError = AppError(code: string, message: string, err: Option<Error>)

  /** The text errors.New gave each sentinel. */
  function SentinelText(s: Sentinel): string
  {
    match s
    case NotFound => "resource not found"
    case InvalidInput => "invalid input"
    case Internal => "internal server error"
    case InvalidType => "invalid file type, only PDF allowed"
    case FileUpload => "failed to uplaod file"
    case JobNotFound => "evaluation job not found"
    case JobFailed => "evaluation job failed"
    case JobTimeout => "evaluation job timeout"
  }

  /** err.Error() */
  function Text(e: Error): string
  {
    match e
    case Sentinel(s) => SentinelText(s)
    case Wrapped(prefix, inner, suffix) => prefix + ": " + Text(inner) + suffix
    case Message(t) => t
    case App(a) => AppText(a)
  }

  /** (*AppError).Error: the message, followed by ": " and the cause's text when there is a cause. */
  function AppText(a: AppError): string
    decreases a, 0
  {
    match a.err
    case None => a.message
    case Some(inner) => a.message + ": " + Text(inner)
  }

  /** (*AppError).Unwrap */
  function AppUnwrap(a: AppError): Option<Error>
  {
    a.err
  }

  /** errors.Unwrap: what errors.Is and errors.As look through. Only %w wrappers and AppError unwrap. */
  function Unwrap(e: Error): Option<Error>
  {
    match e
    case Wrapped(_, inner, _) => Some(inner)
    case App(a) => AppUnwrap(a)
    case _ => None
  }

  /** NewAppError */
  function NewAppError(code: string, message: string, err: Option<Error>): (a: AppError)
    ensures a.code == code && a.message == message
    ensures AppUnwrap(a) == err
  {
    AppError(code, message, err)
  }

  /** Wrapping with fmt.Errorf("<prefix>: %w", inner). */
  function Wrap(prefix: string, inner: Error): (e: Error)
    ensures Unwrap(e) == Some(inner)
    ensures Text(e) == prefix + ": " + Text(inner)
  {
    Wrapped(prefix, inner, "")
  }

  /** An AppError built by NewAppError gives back, through Error and Unwrap, exactly what it was given. */
  lemma NewAppErrorRoundTrip(code: string, message: string, err: Option<Error>)
    ensures var a := NewAppError(code, message, err);
            AppUnwrap(a) == err &&
            (err.None? ==> AppText(a) == message) &&
            (err.Some? ==> AppText(a) == message + ": " + Text(err.value))
  {
  }

  /** The two "not found" sentinels are different values with different texts. */
  lemma NotFoundSentinelsDiffer()
    ensures Sentinel(NotFound) != Sentinel(JobNotFound)
    ensures Text(Sentinel(NotFound)) != Text(Sentinel(JobNotFound))
  {
    assert Text(Sentinel(NotFound))[0] == 'r';
  }
}
