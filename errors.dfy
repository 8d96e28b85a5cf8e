/**
 * The error taxonomy: every kind is a `CheckoutPageError` carrying a
 * message; only the generic `APIError` also keeps the status code and the
 * response body. `ConflictError` is used by the client but has no class
 * of its own in the error file, so it carries a message and has no default.
 */
module Errors {
  import opened Wrappers
  import opened Json

  const DefaultAuthenticationMessage: string := "Authentication failed. Please check your API key."
  const DefaultNotFoundMessage: string := "The requested resource was not found."
  const DefaultRateLimitMessage: string := "Rate limit exceeded. Please try again later."
  const DefaultValidationMessage: string := "Validation failed."

  datatype CheckoutPageError =
    | AuthenticationError(message: string)
    | NotFoundError(message: string)
    | ConflictError(message: string)
    | RateLimitError(message: string)
    | ValidationError(message: string)
    | APIError(message: string, statusCode: int, response: Option<JVal>)
  {
    /** The `name` property each error class sets. */
    function Name(): string {
      match this
      case AuthenticationError(_) => "AuthenticationError"
      case NotFoundError(_) => "NotFoundError"
      case ConflictError(_) => "ConflictError"
      case RateLimitError(_) => "RateLimitError"
      case ValidationError(_) => "ValidationError"
      case APIError(_, _, _) => "APIError"
    }
  }

  /** What an SDK call can throw: a taxonomy error, a plain `Error`, or a JavaScript `TypeError`. */
  datatype Thrown =
    | Sdk(error: CheckoutPageError)
    | PlainError(message: string)
    | TypeError(message: string)

  /** True when both errors are of the same kind, whatever they carry. */
  predicate SameKind(a: CheckoutPageError, b: CheckoutPageError) {
    || (a.AuthenticationError? && b.AuthenticationError?)
    || (a.NotFoundError? && b.NotFoundError?)
    || (a.ConflictError? && b.ConflictError?)
    || (a.RateLimitError? && b.RateLimitError?)
    || (a.ValidationError? && b.ValidationError?)
    || (a.APIError? && b.APIError?)
  }

  /** `new AuthenticationError(message)`; `None` stands for an omitted argument. */
  function NewAuthenticationError(message: Option<string>): (e: CheckoutPageError)
    ensures e.AuthenticationError?
    ensures e.message == if message.Some? then message.value else DefaultAuthenticationMessage
  {
    AuthenticationError(if message.Some? then message.value else DefaultAuthenticationMessage)
  }

  /** `new NotFoundError(message)`. */
  function NewNotFoundError(message: Option<string>): (e: CheckoutPageError)
    ensures e.NotFoundError?
    ensures e.message == if message.Some? then message.value else DefaultNotFoundMessage
  {
    NotFoundError(if message.Some? then message.value else DefaultNotFoundMessage)
  }

  /** `new RateLimitError(message)`. */
  function NewRateLimitError(message: Option<string>): (e: CheckoutPageError)
    ensures e.RateLimitError?
    ensures e.message == if message.Some? then message.value else DefaultRateLimitMessage
  {
    RateLimitError(if message.Some? then message.value else DefaultRateLimitMessage)
  }

  /** `new ValidationError(message)`. */
  function NewValidationError(message: Option<string>): (e: CheckoutPageError)
    ensures e.ValidationError?
    ensures e.message == if message.Some? then message.value else DefaultValidationMessage
  {
    ValidationError(if message.Some? then message.value else DefaultValidationMessage)
  }

  /** `new APIError(message, statusCode, response)`; `None` stands for an omitted response. */
  function NewAPIError(message: string, statusCode: int, response: Option<JVal>): (e: CheckoutPageError)
    ensures e.APIError?
    ensures e.message == message && e.statusCode == statusCode && e.response == response
  {
    APIError(message, statusCode, response)
  }

  /** The `name` of an error identifies its kind: two errors share a name exactly when they are of the same kind. */
  lemma NameIdentifiesKind(a: CheckoutPageError, b: CheckoutPageError)
    ensures a.Name() == b.Name() <==> SameKind(a, b)
  {
  }

  /** An explicitly supplied message replaces the default, even an empty one. */
  lemma SuppliedMessageReplacesDefault(m: string)
    ensures NewAuthenticationError(Some(m)).message == m
    ensures NewNotFoundError(Some(m)).message == m
    ensures NewRateLimitError(Some(m)).message == m
    ensures NewValidationError(Some(m)).message == m
  {
  }
}
