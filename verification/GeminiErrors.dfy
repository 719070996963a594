/** How an exception of the Gemini client is normalised and whether a failed call is worth a
    retry: `src/ai/providers/gemini/errorMapping.ts`, `isRetryableError` of
    `src/ai/providers/gemini/GeminiProvider.ts` and `src/ai/utils/errorUtils.ts`. */
module GeminiErrors {
  import opened Redis

  // A property of an unknown object, by its typeof.
  datatype Field = Missing | Num(n: int) | Str(s: string)

  // null or undefined, a thrown string, or an object with the properties that are looked at.
  datatype Thrown =
    | Nothing
    | Text(text: string)
    | Object(
        isError: bool, status: Field, code: Field, message: Field,
        innerStatus: Field, innerCode: Field, innerMessage: Field,
        responseStatus: Field, responseErrorStatus: Field, responseErrorMessage: Field)

  datatype GeminiCode =
    | InvalidArgument | FailedPrecondition | PermissionDenied | NotFound
    | ResourceExhausted | Internal | Unavailable | DeadlineExceeded

  function HttpCode(c: GeminiCode): int {
    match c
    case InvalidArgument => 400
    case FailedPrecondition => 400
    case PermissionDenied => 403
    case NotFound => 404
    case ResourceExhausted => 429
    case Internal => 500
    case Unavailable => 503
    case DeadlineExceeded => 504
  }

  function Friendly(c: GeminiCode): string {
    match c
    case InvalidArgument => "Gemini invalid request"
    case FailedPrecondition => "Gemini request failed precondition"
    case PermissionDenied => "Gemini permission denied"
    case NotFound => "Gemini resource not found"
    case ResourceExhausted => "Gemini rate limit exceeded"
    case Internal => "Gemini internal error"
    case Unavailable => "Gemini service unavailable"
    case DeadlineExceeded => "Gemini deadline exceeded"
  }

  function CodeNamed(s: string): Option<GeminiCode> {
    if s == "INVALID_ARGUMENT" then Some(InvalidArgument)
    else if s == "FAILED_PRECONDITION" then Some(FailedPrecondition)
    else if s == "PERMISSION_DENIED" then Some(PermissionDenied)
    else if s == "NOT_FOUND" then Some(NotFound)
    else if s == "RESOURCE_EXHAUSTED" then Some(ResourceExhausted)
    else if s == "INTERNAL" then Some(Internal)
    else if s == "UNAVAILABLE" then Some(Unavailable)
    else if s == "DEADLINE_EXCEEDED" then Some(DeadlineExceeded)
    else None
  }

  const CONTEXT_TOO_LONG_MESSAGE := "Gemini context too long"
  const PROVIDER_ERROR_MESSAGE := "Gemini provider error"
  const UNKNOWN_ERROR_MESSAGE := "Unknown Gemini provider error"

  const NETWORK_CODES := {
    "ECONNRESET", "ETIMEDOUT", "ECONNREFUSED", "EHOSTUNREACH", "ENETUNREACH", "EAI_AGAIN", "UND_ERR_CONNECT_TIMEOUT"}

  // isContextTooLong looks for four phrases in the lower-cased text; of the service's own
  // messages it finds one in the message for a context that is too long and in no other.
  ghost predicate Phrases(tooLong: string -> bool) {
    && tooLong(CONTEXT_TOO_LONG_MESSAGE) && !tooLong(PROVIDER_ERROR_MESSAGE) && !tooLong(UNKNOWN_ERROR_MESSAGE)
    && forall c: GeminiCode :: !tooLong(Friendly(c))
  }

  // ---- extraction ------------------------------------------------------------------

  predicate IsNetworkError(e: Thrown) { e.Object? && e.code.Str? && e.code.s in NETWORK_CODES }

  function ExtractStatus(e: Thrown): Option<int> {
    if !e.Object? then None
    else if e.status.Num? then Some(e.status.n)
    else if e.code.Num? then Some(e.code.n)
    else if e.innerCode.Num? then Some(e.innerCode.n)
    else if e.responseStatus.Num? then Some(e.responseStatus.n)
    else None
  }

  function ExtractMessage(e: Thrown): Option<string> {
    if e.Text? then Some(e.text)
    else if !e.Object? then None
    else if e.message.Str? then Some(e.message.s)
    else if e.innerMessage.Str? then Some(e.innerMessage.s)
    else if e.responseErrorMessage.Str? then Some(e.responseErrorMessage.s)
    else None
  }

  function ExtractCode(e: Thrown): Option<GeminiCode> {
    if !e.Object? then None
    else if e.status.Str? then CodeNamed(e.status.s)
    else if e.innerStatus.Str? then CodeNamed(e.innerStatus.s)
    else if e.responseErrorStatus.Str? then CodeNamed(e.responseErrorStatus.s)
    else None
  }

  function MappedStatus(e: Thrown): Option<int> {
    if ExtractStatus(e).Some? then ExtractStatus(e)
    else if ExtractCode(e).Some? then Some(HttpCode(ExtractCode(e).value))
    else None
  }

  predicate TooLong(tooLong: string -> bool, message: Option<string>) {
    message.Some? && message.value != "" && tooLong(message.value)
  }

  // ---- normalisation ---------------------------------------------------------------

  function NewError(message: string, status: Field): Thrown {
    Object(true, status, Missing, Str(message), Missing, Missing, Missing, Missing, Missing, Missing)
  }

  function FriendlyMessage(tooLong: string -> bool, e: Thrown): Option<string> {
    if ExtractCode(e) == Some(Internal) && TooLong(tooLong, ExtractMessage(e)) then Some(CONTEXT_TOO_LONG_MESSAGE)
    else if ExtractCode(e).Some? then Some(Friendly(ExtractCode(e).value))
    else None
  }

  function Normalize(tooLong: string -> bool, e: Thrown): Thrown {
    var friendly := FriendlyMessage(tooLong, e);
    if MappedStatus(e).Some? then
      NewError(if friendly.Some? then friendly.value
               else if ExtractMessage(e).Some? then ExtractMessage(e).value
               else PROVIDER_ERROR_MESSAGE,
               Num(MappedStatus(e).value))
    else if e.Object? && e.isError then e
    else NewError(if friendly.Some? then friendly.value else UNKNOWN_ERROR_MESSAGE, Missing)
  }

  // ---- the retry verdict -----------------------------------------------------------

  predicate NotRetriableCode(c: Option<GeminiCode>) {
    c.Some? && (c.value.ResourceExhausted? || c.value.InvalidArgument? || c.value.FailedPrecondition?
                || c.value.PermissionDenied? || c.value.NotFound?)
  }

  predicate ClientError(status: Option<int>) { status.Some? && 400 <= status.value < 500 }

  predicate IsRetryable(tooLong: string -> bool, e: Thrown) {
    if IsNetworkError(e) then true
    else if NotRetriableCode(ExtractCode(e)) then false
    else if MappedStatus(e).Some? && MappedStatus(e).value in {429, 400, 403, 404} then false
    else if MappedStatus(e) == Some(500) && TooLong(tooLong, ExtractMessage(e)) then false
    else if MappedStatus(e).None? && TooLong(tooLong, ExtractMessage(e)) then false
    else !ClientError(MappedStatus(e))
  }

  // No property of the object is a number.
  predicate Unnumbered(e: Thrown) {
    e.Object? && !e.status.Num? && !e.code.Num? && !e.innerCode.Num? && !e.responseStatus.Num?
  }

  // The verdicts by what the object says of itself. A numeric status counts before any other
  // number, a named one where there is no number; its own message counts before the others.
  lemma Verdicts(tooLong: string -> bool, e: Thrown)
    requires e.Object?
    ensures IsNetworkError(e) ==> IsRetryable(tooLong, e)
    ensures !IsNetworkError(e) && e.status.Num? && 400 <= e.status.n < 500 ==> !IsRetryable(tooLong, e)
    ensures !IsNetworkError(e) && e.status == Str("UNAVAILABLE") && Unnumbered(e) ==> IsRetryable(tooLong, e)
    ensures !IsNetworkError(e) && e.status == Str("DEADLINE_EXCEEDED") && Unnumbered(e) ==> IsRetryable(tooLong, e)
    ensures !IsNetworkError(e) && e.status == Str("RESOURCE_EXHAUSTED") ==> !IsRetryable(tooLong, e)
    ensures !IsNetworkError(e) && e.status == Str("INVALID_ARGUMENT") ==> !IsRetryable(tooLong, e)
    ensures !IsNetworkError(e) && e.status == Str("FAILED_PRECONDITION") ==> !IsRetryable(tooLong, e)
    ensures !IsNetworkError(e) && e.status == Str("PERMISSION_DENIED") ==> !IsRetryable(tooLong, e)
    ensures !IsNetworkError(e) && e.status == Str("NOT_FOUND") ==> !IsRetryable(tooLong, e)
    ensures var long := e.message.Str? && e.message.s != "" && tooLong(e.message.s);
            !IsNetworkError(e) && e.status == Str("INTERNAL") && Unnumbered(e) && e.message.Str? ==>
              (IsRetryable(tooLong, e) <==> !long)
  {}

  // When normalisation keeps the verdict. A network code must not come with a status that is
  // fatal by itself; a code that forbids a retry must not come with a status that allows it;
  // a too long context must be reported as INTERNAL if it is reported with a code at all; and
  // one that is reported without status must be an Error.
  predicate VerdictIsKept(tooLong: string -> bool, e: Thrown) {
    var long := TooLong(tooLong, ExtractMessage(e));
    var code := ExtractCode(e);
    if MappedStatus(e).None? then
      (e.Object? && e.isError) || IsNetworkError(e) || !long
    else if IsNetworkError(e) then
      !ClientError(MappedStatus(e))
      && !(MappedStatus(e) == Some(500) && long && (code.None? || code.value.Internal?))
    else
      (NotRetriableCode(code) ==> ClientError(MappedStatus(e)))
      && !(MappedStatus(e) == Some(500) && long && code.Some? && !code.value.Internal?)
  }

  // The worker asks for the verdict of the normalised error. It is that of the original one
  // exactly when the parts of the original agree.
  lemma NormalizationKeepsVerdict(tooLong: string -> bool, e: Thrown)
    requires Phrases(tooLong)
    ensures IsRetryable(tooLong, Normalize(tooLong, e)) == IsRetryable(tooLong, e) <==> VerdictIsKept(tooLong, e)
  {}

  // Normalising again changes nothing for the verdict.
  lemma NormalizationIsStable(tooLong: string -> bool, e: Thrown)
    requires Phrases(tooLong)
    ensures var n := Normalize(tooLong, e);
            IsRetryable(tooLong, Normalize(tooLong, n)) == IsRetryable(tooLong, n)
  {}
}
