/**
 * The Go service's error value (internal/errors/errors.go): an optional
 * component tag, an optional type tag, and the wrapped error it reports.
 */
module AppErrors {
  import opened Common

  /** The error an `AppError` wraps: plain text, or another `AppError`. */
  datatype Cause = Plain(text: string) | Wrapped(inner: AppError)

  datatype AppError = AppError(component: Option<string>, kind: Option<string>, cause: Cause)

  function NewAppError(component: string, cause: Cause): (e: AppError)
    ensures e.component == Some(component) && e.kind.None? && e.cause == cause
    ensures Message(e) == "| " + component + " | " + CauseText(cause)
  {
    AppError(Some(component), None, cause)
  }

  function NewAppErrorWithType(component: string, errType: string, cause: Cause): (e: AppError)
    ensures e.component == Some(component) && e.kind == Some(errType) && e.cause == cause
    ensures Message(e) == "| " + component + ":" + errType + " | " + CauseText(cause)
  {
    AppError(Some(component), Some(errType), cause)
  }

  /** What `%v` prints for the wrapped error. */
  function CauseText(c: Cause): string
    decreases c
  {
    match c
    case Plain(t) => t
    case Wrapped(inner) => Message(inner)
  }

  /** `AppError.Error()`: the tag header, one space, then the wrapped error's text. */
  function Message(e: AppError): (s: string)
    decreases e
    ensures |s| >= |CauseText(e.cause)| && s[|s| - |CauseText(e.cause)|..] == CauseText(e.cause)
  {
    var head := if e.component.Some? then "| " + e.component.value else "";
    var tail := if e.kind.Some? then ":" + e.kind.value + " |" else " |";
    head + tail + " " + CauseText(e.cause)
  }

  /** With neither tag the header degenerates to " |". */
  lemma UntaggedMessage(cause: Cause)
    ensures Message(AppError(None, None, cause)) == " | " + CauseText(cause)
  {
  }
}
