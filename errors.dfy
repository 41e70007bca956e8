/** Thrown values and the unified error taxonomy (packages/core/src/llm/utils/errors.ts, and the
    registry's error of packages/core/src/llm/errors.ts). */
module Errors {
  import opened Wrappers
  import opened Strings

  /** A field of a thrown object, as `'f' in error` and `typeof error.f` see it. */
  datatype Field = Missing | Number(n: int) | NonNumber

  /** The duck-typed fields the core inspects on a thrown object: `status`, `statusCode` and the value
      of `headers['retry-after']` (`None` when there are no headers or no such key). */
  datatype Fields = Fields(status: Field, statusCode: Field, retryAfterHeader: Option<string>)

  const NoFields: Fields := Fields(Missing, Missing, None)

  /** The class of a `UnifiedLLMError`, with the data each subclass adds. */
  datatype ErrorKind =
    | Generic
    | ProviderNotFound
    | Authentication
    | RateLimit(retryAfter: Option<int>)
    | UnsupportedOperation
    | ModelNotAvailable
    | ContentFilterBlocked(filterReason: Option<string>)
    | ContextLengthExceeded(maxTokens: Option<int>, requestedTokens: Option<int>)

  datatype UnifiedError = UnifiedError(kind: ErrorKind, name: string, message: string, code: string,
                                       provider: string, retryable: bool, originalError: Option<Thrown>)

  /** Anything a JavaScript `throw` can produce. */
  datatype Thrown =
    | LLMError(err: UnifiedError)                            // an instance of UnifiedLLMError
    | ErrorValue(name: string, message: string, fields: Fields)  // any other Error instance
    | ObjectValue(text: string, fields: Fields)              // a non-Error object; `text` is String(error)
    | Primitive(text: string)                                // a string, number, null, ...; `text` is String(error)

  /** `error instanceof Error` */
  predicate IsErrorInstance(t: Thrown) {
    t.LLMError? || t.ErrorValue?
  }

  /** `error instanceof Error ? error.message : String(error)` */
  function MessageOf(t: Thrown): string {
    match t
    case LLMError(e) => e.message
    case ErrorValue(_, message, _) => message
    case ObjectValue(text, _) => text
    case Primitive(text) => text
  }

  /** The name of an Error instance. */
  function NameOf(t: Thrown): Option<string> {
    match t
    case LLMError(e) => Some(e.name)
    case ErrorValue(name, _, _) => Some(name)
    case _ => None
  }

  /** The inspectable fields of a thrown object (`None` when it is not an object with such fields). */
  function FieldsOf(t: Thrown): Option<Fields> {
    match t
    case ErrorValue(_, _, f) => Some(f)
    case ObjectValue(_, f) => Some(f)
    case _ => None
  }

  /** `new Error(message)` */
  function PlainError(message: string): (t: Thrown)
    ensures IsErrorInstance(t) && MessageOf(t) == message && NameOf(t) == Some("Error")
  {
    ErrorValue("Error", message, NoFields)
  }

  // ---- the class hierarchy ----

  /** What each class fixes: its name, its code and its retryable flag (the base class fixes the name only). */
  predicate WellFormed(e: UnifiedError) {
    match e.kind
    case Generic => e.name == "UnifiedLLMError"
    case ProviderNotFound => e.name == "ProviderNotFoundError" && e.code == "PROVIDER_NOT_FOUND" && !e.retryable
    case Authentication => e.name == "AuthenticationError" && e.code == "AUTHENTICATION_ERROR" && !e.retryable
    case RateLimit(_) => e.name == "RateLimitError" && e.code == "RATE_LIMIT_ERROR" && e.retryable
    case UnsupportedOperation => e.name == "UnsupportedOperationError" && e.code == "UNSUPPORTED_OPERATION" && !e.retryable
    case ModelNotAvailable => e.name == "ModelNotAvailableError" && e.code == "MODEL_NOT_AVAILABLE" && !e.retryable
    case ContentFilterBlocked(_) => e.name == "ContentFilterError" && e.code == "CONTENT_FILTER" && !e.retryable
    case ContextLengthExceeded(_, _) => e.name == "ContextLengthExceededError" && e.code == "CONTEXT_LENGTH_EXCEEDED" && !e.retryable
  }

  /** Only the rate-limit class is retryable among the subclasses. */
  lemma SubclassRetryability(e: UnifiedError)
    requires WellFormed(e) && !e.kind.Generic?
    ensures e.retryable <==> e.kind.RateLimit?
  {
  }

  /** `new UnifiedLLMError(message, code, provider, retryable, originalError)` */
  function NewUnifiedLLMError(message: string, code: string, provider: string, retryable: bool,
                              originalError: Option<Thrown>): (e: UnifiedError)
    ensures WellFormed(e) && e.kind.Generic?
    ensures e.message == message && e.code == code && e.provider == provider && e.retryable == retryable
    ensures e.originalError == originalError
  {
    UnifiedError(Generic, "UnifiedLLMError", message, code, provider, retryable, originalError)
  }

  function NewProviderNotFoundError(providerId: string): (e: UnifiedError)
    ensures WellFormed(e) && e.kind.ProviderNotFound? && !e.retryable && e.provider == providerId
  {
    UnifiedError(ProviderNotFound, "ProviderNotFoundError", "Provider '" + providerId + "' not found in registry",
                 "PROVIDER_NOT_FOUND", providerId, false, None)
  }

  /** `new AuthenticationError(provider, message = 'Authentication failed', originalError)` */
  function NewAuthenticationError(provider: string, message: Option<string>, originalError: Option<Thrown>): (e: UnifiedError)
    ensures WellFormed(e) && e.kind.Authentication? && !e.retryable
    ensures e.message == message.GetOr("Authentication failed")
  {
    UnifiedError(Authentication, "AuthenticationError", message.GetOr("Authentication failed"),
                 "AUTHENTICATION_ERROR", provider, false, originalError)
  }

  /** `new RateLimitError(provider, retryAfter, message = 'Rate limit exceeded', originalError)` */
  function NewRateLimitError(provider: string, retryAfter: Option<int>, message: Option<string>,
                             originalError: Option<Thrown>): (e: UnifiedError)
    ensures WellFormed(e) && e.kind == RateLimit(retryAfter) && e.retryable
    ensures e.message == message.GetOr("Rate limit exceeded")
  {
    UnifiedError(RateLimit(retryAfter), "RateLimitError", message.GetOr("Rate limit exceeded"),
                 "RATE_LIMIT_ERROR", provider, true, originalError)
  }

  /** `new UnsupportedOperationError(provider, operation, message?)`: `message ?? <template>` */
  function NewUnsupportedOperationError(provider: string, operation: string, message: Option<string>): (e: UnifiedError)
    ensures WellFormed(e) && e.kind.UnsupportedOperation? && !e.retryable
  {
    UnifiedError(UnsupportedOperation, "UnsupportedOperationError",
                 message.GetOr("Operation '" + operation + "' is not supported by provider '" + provider + "'"),
                 "UNSUPPORTED_OPERATION", provider, false, None)
  }

  function NewModelNotAvailableError(provider: string, model: string, originalError: Option<Thrown>): (e: UnifiedError)
    ensures WellFormed(e) && e.kind.ModelNotAvailable? && !e.retryable
  {
    UnifiedError(ModelNotAvailable, "ModelNotAvailableError",
                 "Model '" + model + "' is not available for provider '" + provider + "'",
                 "MODEL_NOT_AVAILABLE", provider, false, originalError)
  }

  /** `new ContentFilterError(provider, filterReason?, originalError)`: the reason, when truthy, is in the message. */
  function NewContentFilterError(provider: string, filterReason: Option<string>, originalError: Option<Thrown>): (e: UnifiedError)
    ensures WellFormed(e) && e.kind == ContentFilterBlocked(filterReason) && !e.retryable
  {
    UnifiedError(ContentFilterBlocked(filterReason), "ContentFilterError",
                 if filterReason.Some? && filterReason.value != "" then "Content blocked: " + filterReason.value
                 else "Content blocked by safety filter",
                 "CONTENT_FILTER", provider, false, originalError)
  }

  /** `new ContextLengthExceededError(provider, maxTokens?, requestedTokens?, originalError)`: details are
      added only when both counts are truthy (present and non-zero). */
  function NewContextLengthExceededError(provider: string, maxTokens: Option<int>, requestedTokens: Option<int>,
                                         originalError: Option<Thrown>): (e: UnifiedError)
    ensures WellFormed(e) && e.kind == ContextLengthExceeded(maxTokens, requestedTokens) && !e.retryable
  {
    var details :=
      if maxTokens.Some? && maxTokens.value != 0 && requestedTokens.Some? && requestedTokens.value != 0
      then " (max: " + IntToString(maxTokens.value) + ", requested: " + IntToString(requestedTokens.value) + ")"
      else "";
    UnifiedError(ContextLengthExceeded(maxTokens, requestedTokens), "ContextLengthExceededError",
                 "Context length exceeded" + details, "CONTEXT_LENGTH_EXCEEDED", provider, false, originalError)
  }

  // ---- classification ----

  /** A status code that the default rule treats as transient: 429 or 5xx. */
  predicate TransientStatus(n: int) {
    n == 429 || (500 <= n < 600)
  }

  /** `isRetryableError`: a unified error's flag; otherwise only the `status` field decides. */
  function IsRetryableError(t: Thrown): (b: bool)
    ensures t.LLMError? ==> b == t.err.retryable
    ensures !t.LLMError? ==> (b <==> FieldsOf(t).Some? && FieldsOf(t).value.status.Number?
                                      && TransientStatus(FieldsOf(t).value.status.n))
  {
    match t
    case LLMError(e) => e.retryable
    case Primitive(_) => false
    case _ =>
      var f := FieldsOf(t).value;
      match f.status
      case Missing => false
      case Number(n) => n == 429 || (n >= 500 && n < 600)
      case NonNumber => false
  }

  /** The status `createUnifiedError` reads: the `status` field when present, else `statusCode`. */
  function StatusField(t: Thrown): Field {
    match FieldsOf(t)
    case None => Missing
    case Some(f) => if !f.status.Missing? then f.status else f.statusCode
  }

  /** `createUnifiedError(provider, error)` */
  function CreateUnifiedError(provider: string, t: Thrown): (e: UnifiedError)
    ensures t.LLMError? ==> e == t.err
    ensures !t.LLMError? ==> WellFormed(e) && e.provider == provider && e.message == MessageOf(t) && e.originalError == Some(t)
    ensures !t.LLMError? ==> (e.kind.Authentication? <==> StatusField(t) in {Number(401), Number(403)})
    ensures !t.LLMError? ==> (e.kind.RateLimit? <==> StatusField(t) == Number(429))
    ensures !t.LLMError? && e.kind.RateLimit? ==>
              e.kind.retryAfter == (if Truthy(FieldsOf(t).value.retryAfterHeader)
                                    then (match ParseInt(FieldsOf(t).value.retryAfterHeader.value)
                                          case Some(v) => Some(v * 1000) case None => None)
                                    else None)
    ensures !t.LLMError? && !e.kind.Authentication? && !e.kind.RateLimit? ==>
              e.kind.Generic? && e.code == "UNKNOWN_ERROR"
              && (e.retryable <==> StatusField(t).Number? && 500 <= StatusField(t).n < 600)
  {
    match t
    case LLMError(err) => err
    case _ =>
      var message := MessageOf(t);
      var status := StatusField(t);
      if status == Number(401) || status == Number(403) then
        NewAuthenticationError(provider, Some(message), Some(t))
      else if status == Number(429) then
        var header := FieldsOf(t).value.retryAfterHeader;
        var retryAfter :=
          if header.Some? && header.value != "" then
            match ParseInt(header.value)
            case Some(v) => Some(v * 1000)
            case None => None
          else None;
        NewRateLimitError(provider, retryAfter, Some(message), Some(t))
      else
        var retryable := status.Number? && status.n >= 500 && status.n < 600;
        NewUnifiedLLMError(message, "UNKNOWN_ERROR", provider, retryable, Some(t))
  }

  /** Wrapping agrees with the default retry rule whenever the `status` field is present or no
      `statusCode` field is; a `statusCode`-only error can be wrapped retryable yet is not retryable
      itself, because `isRetryableError` reads `status` alone. */
  lemma WrappingAgreesWithRetryRule(provider: string, t: Thrown)
    ensures (t.LLMError? || FieldsOf(t).None? || !FieldsOf(t).value.status.Missing? || !FieldsOf(t).value.statusCode.Number?)
            ==> IsRetryableError(LLMError(CreateUnifiedError(provider, t))) == IsRetryableError(t)
    ensures t == ErrorValue("Error", "", Fields(Missing, Number(503), None)) ==>
              IsRetryableError(LLMError(CreateUnifiedError(provider, t))) && !IsRetryableError(t)
  {
  }

  /** Wrapping is idempotent: a wrapped error is returned unchanged by a second wrap. */
  lemma WrapIdempotent(provider: string, other: string, t: Thrown)
    ensures CreateUnifiedError(other, LLMError(CreateUnifiedError(provider, t))) == CreateUnifiedError(provider, t)
  {
  }

  // ---- packages/core/src/llm/errors.ts ----

  /** The registry's `ProviderNotFoundError`: a plain Error subclass, not a unified error. */
  function RegistryProviderNotFoundError(providerId: string): (t: Thrown)
    ensures IsErrorInstance(t) && !t.LLMError? && NameOf(t) == Some("ProviderNotFoundError")
    ensures !IsRetryableError(t)
  {
    ErrorValue("ProviderNotFoundError", "Provider \"" + providerId + "\" not found", NoFields)
  }
}
