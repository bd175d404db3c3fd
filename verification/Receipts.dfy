/** Values that cross the boundary between the Python AI kernel and the Go gateway:
    physical-attempt receipts, stream events and the errors the gateway classifies. */
module Receipts {
  import opened Wrappers

  // A 128-bit identifier; zero is the nil UUID.
  type Uuid = nat
  const NIL_UUID: Uuid := 0

  // The usage states both sides know, and any other string a peer might send.
  datatype UsageStatus = Succeeded | Failed | TimedOut | InvalidOutput | OtherStatus(text: string)

  datatype Attempt = Attempt(
    id: Uuid, provider: string, model: string,
    status: UsageStatus, errorCode: string, usageReported: bool,
    inputTokens: int, outputTokens: int, latencyMs: int)

  // The body of a result event, as the Go structs would decode it.
  datatype Body =
    | ErrorBody(code: string, temporary: bool)
    | SuccessBody(version: int, provider: string, model: string, json: string,
                  inputTokens: int, outputTokens: int)
    | Undecodable

  datatype Event =
    | AttemptStarted(attempt: Attempt)
    | AttemptFinished(attempt: Attempt)
    | ResultEvent(status: int, body: Body)
    | UnknownEvent(kind: string)

  // Sentinel errors reached through errors.Is.
  datatype Cause =
    | ErrProvider | ErrTimeout | ErrInvalidOutput
    | Canceled | DeadlineExceeded | OtherCause

  // ProviderError is what errors.As extracts; PlainError is any other error.
  datatype CallError =
    | ProviderError(code: string, temporary: bool, cause: Cause)
    | PlainError(cause: Cause)

  // attempts is None for a nil slice: no receipts were ever exchanged.
  datatype ProviderResponse = ProviderResponse(
    json: string, provider: string, model: string,
    inputTokens: int, outputTokens: int, attempts: Option<seq<Attempt>>)

  const EMPTY_RESPONSE := ProviderResponse("", "", "", 0, 0, None)

  function SumInput(attempts: seq<Attempt>): int {
    if attempts == [] then 0
    else SumInput(attempts[..|attempts| - 1]) + attempts[|attempts| - 1].inputTokens
  }

  function SumOutput(attempts: seq<Attempt>): int {
    if attempts == [] then 0
    else SumOutput(attempts[..|attempts| - 1]) + attempts[|attempts| - 1].outputTokens
  }
}
