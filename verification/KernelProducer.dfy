/** The Python side: generate_result runs up to max_attempts physical provider calls,
    and emits a receipt event before and after each of them. */
module KernelProducer {
  import opened Wrappers
  import opened Receipts

  // Fields the provider may leave out are None.
  datatype Usage = Usage(prompt: Option<nat>, completion: Option<nat>)

  // What json.loads and jsonschema.validate make of the content; Unhandled is an exception that no handler
  // catches, as an unresolvable $ref in the schema raises.
  datatype Parsed =
    | NotJson
    | NotAnObject
    | Violates
    | BrokenSchema
    | Unhandled
    | Conforms(document: string)

  datatype Message = Message(usage: Option<Usage>, content: string, truncated: bool, parsed: Parsed)

  // Everything one awaited provider call can do.
  datatype Outcome =
    | Answered(message: Option<Message>)
    | BadValue
    | TimedOutCall
    | RateLimited(code: string)
    | ConnectionFailed
    | StatusFailed(httpStatus: int)
    | Crashed

  datatype Call = Call(id: Uuid, outcome: Outcome, elapsedMs: int)

  datatype Config = Config(provider: string, model: string, maxAttempts: nat)

  datatype Preflight = SchemaInvalid | ImageInvalid | Ready

  datatype Response = Response(status: int, body: Body)

  // A Python exception that no handler in the loop catches is Raised.
  datatype Exit = Returned(response: Response) | Raised

  function ErrorResponse(status: int, code: string, temporary: bool): Response {
    Response(status, ErrorBody(code, temporary))
  }

  function StatusErrorCode(httpStatus: int): string {
    if httpStatus == 401 || httpStatus == 403 then "authentication_failed"
    else if httpStatus == 429 then "rate_limited"
    else if 400 <= httpStatus < 500 then "invalid_request"
    else "provider_unavailable"
  }

  // ---- Specification: each call settles its own receipt and decides how the loop goes on ----

  // How the try block and its handlers see one outcome.
  datatype Verdict =
    | Success(document: string)
    | SchemaBroken
    | Truncated
    | Nonconforming
    | Unparsable
    | Late
    | Limited(code: string)
    | Disconnected
    | Refused(httpStatus: int)
    | Fatal

  function Judge(outcome: Outcome): Verdict {
    match outcome
    case Answered(None) => Unparsable
    case Answered(Some(m)) =>
      if m.content == "" then Unparsable
      else if m.truncated then Truncated
      else (match m.parsed
            case NotJson => Unparsable
            case NotAnObject => Unparsable
            case Violates => Nonconforming
            case BrokenSchema => SchemaBroken
            case Unhandled => Fatal
            case Conforms(document) => Success(document))
    case BadValue => Unparsable
    case TimedOutCall => Late
    case RateLimited(code) => Limited(code)
    case ConnectionFailed => Disconnected
    case StatusFailed(s) => Refused(s)
    case Crashed => Fatal
  }

  predicate QuotaCode(code: string) {
    code == "insufficient_quota" || code == "billing_hard_limit_reached"
  }

  // The receipt as the started event carries it.
  function Placeholder(config: Config, call: Call): Attempt {
    Attempt(call.id, config.provider, config.model, Failed, "interrupted", false, 0, 0, 0)
  }

  function StatusMark(verdict: Verdict): UsageStatus {
    match verdict
    case Success(_) => Succeeded
    case Truncated => InvalidOutput
    case Nonconforming => InvalidOutput
    case Unparsable => InvalidOutput
    case Late => TimedOut
    case _ => Failed
  }

  function ErrorMark(verdict: Verdict): string {
    match verdict
    case Success(_) => ""
    case SchemaBroken => "invalid_schema"
    case Truncated => "output_truncated"
    case Nonconforming => "invalid_structured_output"
    case Unparsable => "invalid_structured_output"
    case Late => "timeout"
    case Limited(code) => if QuotaCode(code) then "quota_exhausted" else "rate_limited"
    case Disconnected => "provider_unavailable"
    case Refused(s) => StatusErrorCode(s)
    case Fatal => "interrupted"
  }

  // A call that reports nothing reports no tokens.
  function UsageOf(outcome: Outcome): Usage {
    if outcome.Answered? && outcome.message.Some? then outcome.message.value.usage.GetOr(Usage(None, None))
    else Usage(None, None)
  }

  // The receipt as the finished event carries it.
  function Settled(config: Config, call: Call): Attempt {
    var verdict, usage := Judge(call.outcome), UsageOf(call.outcome);
    Attempt(call.id, config.provider, config.model, StatusMark(verdict), ErrorMark(verdict),
      usage.prompt.Some? && usage.completion.Some?,
      usage.prompt.GetOr(0), usage.completion.GetOr(0),
      if call.elapsedMs < 0 then 0 else call.elapsedMs)
  }

  // Whether this verdict leaves the loop at once, or only when no attempt is left.
  predicate Ends(verdict: Verdict, last: bool) {
    || last
    || verdict.Success? || verdict.SchemaBroken? || verdict.Fatal?
    || (verdict.Limited? && QuotaCode(verdict.code))
    || (verdict.Refused? && !Transient(verdict.httpStatus))
  }

  predicate Transient(httpStatus: int) {
    httpStatus == 429 || httpStatus >= 500
  }

  // What the run returns when this verdict ends it.
  function Answer(config: Config, verdict: Verdict, settled: seq<Attempt>): Exit {
    match verdict
    case Success(document) =>
      Returned(Response(200, SuccessBody(2, config.provider, config.model, document,
        SumInput(settled), SumOutput(settled))))
    case SchemaBroken => Returned(ErrorResponse(500, "invalid_schema", false))
    case Truncated => Returned(ErrorResponse(502, "output_truncated", false))
    case Nonconforming => Returned(ErrorResponse(502, "invalid_structured_output", false))
    case Unparsable => Returned(ErrorResponse(502, "invalid_structured_output", false))
    case Late => Returned(ErrorResponse(504, "timeout", true))
    case Limited(code) =>
      Returned(if QuotaCode(code) then ErrorResponse(429, "quota_exhausted", false)
               else ErrorResponse(429, "rate_limited", true))
    case Disconnected => Returned(ErrorResponse(503, "provider_unavailable", true))
    case Refused(s) =>
      Returned(ErrorResponse(if Transient(s) then 503 else 502, StatusErrorCode(s), Transient(s)))
    case Fatal => Raised
  }

  // The receipts of the first n calls, all finished.
  function SettledAll(config: Config, calls: seq<Call>, n: nat): (settled: seq<Attempt>)
    requires n <= |calls|
    ensures |settled| == n
    ensures forall i | 0 <= i < n :: settled[i] == Settled(config, calls[i])
  {
    if n == 0 then [] else SettledAll(config, calls, n - 1) + [Settled(config, calls[n - 1])]
  }

  // Started and finished receipts of the first n calls.
  function ReceiptEvents(config: Config, calls: seq<Call>, n: nat): (events: seq<Event>)
    requires n <= |calls|
    ensures |events| == 2 * n
  {
    if n == 0 then []
    else ReceiptEvents(config, calls, n - 1) +
         [AttemptStarted(Placeholder(config, calls[n - 1])), AttemptFinished(Settled(config, calls[n - 1]))]
  }

  // Call i ends the run.
  predicate EndsAt(config: Config, calls: seq<Call>, i: nat)
    requires i < |calls|
  {
    Ends(Judge(calls[i].outcome), i + 1 >= config.maxAttempts)
  }

  // How many physical calls the loop makes when the first n did not end it.
  function CallCount(config: Config, calls: seq<Call>, n: nat): (count: nat)
    requires n <= config.maxAttempts <= |calls|
    ensures n <= count <= config.maxAttempts
    ensures count < config.maxAttempts ==> count > n && EndsAt(config, calls, count - 1)
    ensures forall i | n <= i < count - 1 :: !EndsAt(config, calls, i)
    decreases config.maxAttempts - n
  {
    if n == config.maxAttempts then n
    else if EndsAt(config, calls, n) then n + 1
    else CallCount(config, calls, n + 1)
  }

  // How n rounds left the loop; None when the last of them asks for another.
  function Ending(config: Config, calls: seq<Call>, n: nat): Option<Exit>
    requires n <= |calls|
  {
    if n == 0 || !EndsAt(config, calls, n - 1) then None
    else Some(Answer(config, Judge(calls[n - 1].outcome), SettledAll(config, calls, n)))
  }

  function AllReceipts(config: Config, preflight: Preflight, calls: seq<Call>): seq<Event>
    requires config.maxAttempts <= |calls|
  {
    if preflight.Ready? then ReceiptEvents(config, calls, CallCount(config, calls, 0)) else []
  }

  function ExitOf(config: Config, preflight: Preflight, calls: seq<Call>): Exit
    requires config.maxAttempts <= |calls|
  {
    match preflight
    case SchemaInvalid =>
      Returned(ErrorResponse(500, "invalid_schema", false))
    case ImageInvalid => Returned(ErrorResponse(422, "invalid_image", false))
    case Ready =>
      Ending(config, calls, CallCount(config, calls, 0)).GetOr(
        Returned(ErrorResponse(502, "semantic_kernel_error", false)))
  }

  // ---- The loop, with receipts as objects that the attempts list and the loop body share ----

  class Receipt {
    const id: Uuid
    const provider: string
    const model: string
    var status: UsageStatus
    var errorCode: string
    var usageReported: bool
    var inputTokens: nat
    var outputTokens: nat
    var latencyMs: nat

    constructor (id: Uuid, provider: string, model: string)
      ensures status == Failed && errorCode == "interrupted"
      ensures !usageReported && inputTokens == outputTokens == 0
      ensures Value() == Attempt(id, provider, model, Failed, "interrupted", false, 0, 0, 0)
    {
      this.id, this.provider, this.model := id, provider, model;
      status, errorCode, usageReported := Failed, "interrupted", false;
      inputTokens, outputTokens, latencyMs := 0, 0, 0;
    }

    // dict(receipt): the copy an event carries.
    function Value(): Attempt
      reads this
    {
      Attempt(id, provider, model, status, errorCode, usageReported, inputTokens, outputTokens, latencyMs)
    }

    // The try block and its handlers, up to the decision to return or to go on.
    method Settle(outcome: Outcome)
      requires status == Failed && errorCode == "interrupted"
      requires !usageReported && inputTokens == outputTokens == 0
      modifies this
      ensures status == StatusMark(Judge(outcome)) && errorCode == ErrorMark(Judge(outcome))
      ensures var usage := UsageOf(outcome);
              && inputTokens == usage.prompt.GetOr(0) && outputTokens == usage.completion.GetOr(0)
              && usageReported == (usage.prompt.Some? && usage.completion.Some?)
    {
      if outcome.Answered? && outcome.message.Some? && outcome.message.value.usage.Some? {
        var usage := outcome.message.value.usage.value;
        inputTokens := usage.prompt.GetOr(0);
        outputTokens := usage.completion.GetOr(0);
        usageReported := usage.prompt.Some? && usage.completion.Some?;
      }
      match Judge(outcome) {
        case Success(_) => status, errorCode := Succeeded, "";
        case SchemaBroken => errorCode := "invalid_schema";
        case Truncated => status, errorCode := InvalidOutput, "output_truncated";
        case Nonconforming => status, errorCode := InvalidOutput, "invalid_structured_output";
        case Unparsable => status, errorCode := InvalidOutput, "invalid_structured_output";
        case Late => status, errorCode := TimedOut, "timeout";
        case Limited(code) =>
          errorCode := "rate_limited";
          if QuotaCode(code) {
            errorCode := "quota_exhausted";
          }
        case Disconnected => errorCode := "provider_unavailable";
        case Refused(s) => errorCode := StatusErrorCode(s);
        case Fatal =>
      }
    }
  }

  // [dict(a) for a in attempts]
  function Values(receipts: seq<Receipt>): (values: seq<Attempt>)
    reads receipts
    ensures |values| == |receipts|
    ensures forall i | 0 <= i < |receipts| :: values[i] == receipts[i].Value()
  {
    if receipts == [] then []
    else Values(receipts[..|receipts| - 1]) + [receipts[|receipts| - 1].Value()]
  }

  lemma AppendValue(receipts: seq<Receipt>, receipt: Receipt)
    ensures Values(receipts + [receipt]) == Values(receipts) + [receipt.Value()]
  {
    assert (receipts + [receipt])[..|receipts|] == receipts;
  }

  // One round of the loop: the receipt is listed and announced before the call, and updated in place after it.
  method Attempted(config: Config, call: Call) returns (receipt: Receipt, started: Event, finished: Event)
    ensures fresh(receipt)
    ensures started == AttemptStarted(Placeholder(config, call))
    ensures finished == AttemptFinished(Settled(config, call))
    ensures receipt.Value() == Settled(config, call)
  {
    receipt := new Receipt(call.id, config.provider, config.model);
    started := AttemptStarted(receipt.Value());
    receipt.Settle(call.outcome);
    // finally
    receipt.latencyMs := if call.elapsedMs < 0 then 0 else call.elapsedMs;
    finished := AttemptFinished(receipt.Value());
  }

  // for attempt in range(config.max_attempts): one round after the other until a verdict ends the run.
  method AttemptLoop(config: Config, calls: seq<Call>)
    returns (attempts: seq<Receipt>, events: seq<Event>, ended: bool)
    requires config.maxAttempts <= |calls|
    ensures |attempts| == CallCount(config, calls, 0)
    ensures Values(attempts) == SettledAll(config, calls, |attempts|)
    ensures events == ReceiptEvents(config, calls, |attempts|)
    ensures ended == (|attempts| > 0 && EndsAt(config, calls, |attempts| - 1))
  {
    attempts, events, ended := [], [], false;
    for attempt := 0 to config.maxAttempts
      invariant |attempts| == attempt
      invariant Values(attempts) == SettledAll(config, calls, attempt)
      invariant events == ReceiptEvents(config, calls, attempt)
      invariant CallCount(config, calls, 0) == CallCount(config, calls, attempt)
      invariant attempt > 0 ==> !EndsAt(config, calls, attempt - 1)
    {
      var receipt, started, finished := Attempted(config, calls[attempt]);
      AppendValue(attempts, receipt);
      attempts := attempts + [receipt];
      events := events + [started, finished];
      if Ends(Judge(calls[attempt].outcome), attempt + 1 >= config.maxAttempts) {
        ended := true;
        return;
      }
    }
  }

  /** generate_result. `calls` scripts the provider: the fresh ID of each attempt, what the awaited
      call does, and the time it takes. */
  method GenerateResult(config: Config, preflight: Preflight, calls: seq<Call>)
    returns (attempts: seq<Receipt>, events: seq<Event>, exit: Exit)
    requires config.maxAttempts <= |calls|
    ensures preflight.Ready? ==> Values(attempts) == SettledAll(config, calls, CallCount(config, calls, 0))
    ensures !preflight.Ready? ==> attempts == []
    ensures events == AllReceipts(config, preflight, calls)
    ensures exit == ExitOf(config, preflight, calls)
  {
    attempts, events := [], [];
    match preflight {
      case SchemaInvalid =>
        exit := Returned(ErrorResponse(500, "invalid_schema", false));
      case ImageInvalid =>
        exit := Returned(ErrorResponse(422, "invalid_image", false));
      case Ready =>
        var ended;
        attempts, events, ended := AttemptLoop(config, calls);
        if ended {
          exit := Answer(config, Judge(calls[|attempts| - 1].outcome), Values(attempts));
        } else {
          exit := Returned(ErrorResponse(502, "semantic_kernel_error", false));
        }
    }
  }

  // The event that closes the stream: the response, or the internal error that stands for an exception.
  function ResultOf(exit: Exit): Event {
    match exit
    case Returned(r) => ResultEvent(r.status, r.body)
    case Raised => ResultEvent(500, ErrorBody("internal_error", false))
  }
}
