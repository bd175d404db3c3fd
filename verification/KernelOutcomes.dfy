/** What a kernel run makes of each thing a provider call can do, read off the outcomes alone: what its
    receipt says, whether another call follows, and how the run ends. */
module KernelOutcomes {
  import opened Wrappers
  import opened Receipts
  import opened KernelStream
  import opened KernelProducer
  import opened KernelAudit

  // ---- Kinds of outcomes ----

  // An answer with content that is not cut off, and what reading it gave.
  predicate ReadAs(o: Outcome, parsed: Parsed) {
    && o.Answered? && o.message.Some?
    && o.message.value.content != "" && !o.message.value.truncated && o.message.value.parsed == parsed
  }

  predicate Conforming(o: Outcome) {
    o.Answered? && o.message.Some? && o.message.value.parsed.Conforms? && ReadAs(o, o.message.value.parsed)
  }

  predicate CutOff(o: Outcome) {
    o.Answered? && o.message.Some? && o.message.value.content != "" && o.message.value.truncated
  }

  // No answer, an empty one, or one that is not a JSON object.
  predicate Unusable(o: Outcome) {
    || o.BadValue?
    || (o.Answered? && (o.message.None? || o.message.value.content == ""))
    || ReadAs(o, NotJson) || ReadAs(o, NotAnObject)
  }

  predicate QuotaUsedUp(o: Outcome) {
    o.RateLimited? && o.code in ["insufficient_quota", "billing_hard_limit_reached"]
  }

  predicate Throttled(o: Outcome) {
    o.RateLimited? && o.code !in ["insufficient_quota", "billing_hard_limit_reached"]
  }

  predicate MayPass(httpStatus: int) {
    httpStatus == 429 || httpStatus >= 500
  }

  // An exception that no handler catches.
  predicate Uncaught(o: Outcome) {
    o.Crashed? || ReadAs(o, Unhandled)
  }

  // What another attempt may put right.
  predicate WorthRepeating(o: Outcome) {
    || Unusable(o) || ReadAs(o, Violates) || CutOff(o) || o.TimedOutCall? || Throttled(o) || o.ConnectionFailed?
    || (o.StatusFailed? && MayPass(o.httpStatus))
  }

  // ---- Receipts ----

  // A receipt's verdict, as the handler that catches this outcome writes it.
  predicate Says(o: Outcome, status: UsageStatus, code: string) {
    && (Conforming(o) ==> status == Succeeded && code == "")
    && (ReadAs(o, BrokenSchema) ==> status == Failed && code == "invalid_schema")
    && (CutOff(o) ==> status == InvalidOutput && code == "output_truncated")
    && (Unusable(o) || ReadAs(o, Violates) ==> status == InvalidOutput && code == "invalid_structured_output")
    && (o.TimedOutCall? ==> status == TimedOut && code == "timeout")
    && (QuotaUsedUp(o) ==> status == Failed && code == "quota_exhausted")
    && (Throttled(o) ==> status == Failed && code == "rate_limited")
    && (o.ConnectionFailed? ==> status == Failed && code == "provider_unavailable")
    && (o.StatusFailed? ==> status == Failed && HttpCode(o.httpStatus, code))
    && (Uncaught(o) ==> status == Failed && code == "interrupted")
  }

  predicate HttpCode(httpStatus: int, code: string) {
    && (httpStatus in {401, 403} ==> code == "authentication_failed")
    && (httpStatus == 429 ==> code == "rate_limited")
    && (400 <= httpStatus < 500 && httpStatus !in {401, 403, 429} ==> code == "invalid_request")
    && (httpStatus < 400 || 500 <= httpStatus ==> code == "provider_unavailable")
  }

  // The counts of an answer, None where the provider left them out.
  function Counts(o: Outcome): Option<Usage> {
    if o.Answered? && o.message.Some? then o.message.value.usage else None
  }

  /** A finished receipt says what its outcome calls for, and carries the counts the provider gave. */
  lemma ReceiptSays(config: Config, call: Call)
    ensures var r, counts := Settled(config, call), Counts(call.outcome);
      && r.id == call.id && r.provider == config.provider && r.model == config.model
      && Says(call.outcome, r.status, r.errorCode)
      && (r.usageReported <==> counts.Some? && counts.value.prompt.Some? && counts.value.completion.Some?)
      && (counts.Some? && counts.value.prompt.Some? ==> r.inputTokens == counts.value.prompt.value)
      && (counts.Some? && counts.value.completion.Some? ==> r.outputTokens == counts.value.completion.value)
      && (counts.None? || counts.value.prompt.None? ==> r.inputTokens == 0)
      && (counts.None? || counts.value.completion.None? ==> r.outputTokens == 0)
      && (call.elapsedMs >= 0 ==> r.latencyMs == call.elapsedMs) && (call.elapsedMs < 0 ==> r.latencyMs == 0)
  {
    StatusSays(call.outcome);
  }

  lemma StatusSays(o: Outcome)
    ensures Says(o, StatusMark(Judge(o)), ErrorMark(Judge(o)))
    ensures Conforming(o) <==> Judge(o).Success?
  {
  }

  /** A started receipt is a failed, interrupted and unreported one under the call's own ID. */
  lemma PlaceholderSays(config: Config, call: Call)
    ensures Placeholder(config, call) ==
      Attempt(call.id, config.provider, config.model, Failed, "interrupted", false, 0, 0, 0)
  {
  }

  // ---- Which calls are made ----

  lemma RepeatedExactly(o: Outcome, last: bool)
    ensures Ends(Judge(o), last) <==> last || !WorthRepeating(o)
  {
    StatusSays(o);
  }

  lemma {:induction false} GoesOn(config: Config, calls: seq<Call>, n: nat, i: nat)
    requires n <= config.maxAttempts <= |calls| && n <= i < CallCount(config, calls, n)
    ensures i + 1 < CallCount(config, calls, n) <==> !EndsAt(config, calls, i)
    decreases config.maxAttempts - n
  {
    if n < i {
      GoesOn(config, calls, n + 1, i);
    }
  }

  /** A call is followed by another exactly when attempts are left and its outcome is one that another
      attempt may put right. */
  lemma FollowedExactly(config: Config, calls: seq<Call>, i: nat)
    requires config.maxAttempts <= |calls| && i < CallCount(config, calls, 0)
    ensures i + 1 < CallCount(config, calls, 0) <==> i + 1 < config.maxAttempts && WorthRepeating(calls[i].outcome)
  {
    GoesOn(config, calls, 0, i);
    RepeatedExactly(calls[i].outcome, i + 1 >= config.maxAttempts);
  }

  /** So the number of calls is the first attempt whose outcome is not worth repeating, or the last one. */
  lemma CallsMade(config: Config, calls: seq<Call>, n: nat)
    requires 1 <= config.maxAttempts <= |calls|
    ensures n == CallCount(config, calls, 0) <==>
      && 1 <= n <= config.maxAttempts
      && (forall i | 0 <= i < n - 1 :: WorthRepeating(calls[i].outcome))
      && (n == config.maxAttempts || !WorthRepeating(calls[n - 1].outcome))
  {
    var made := CallCount(config, calls, 0);
    forall i | 0 <= i < made
      ensures i + 1 < made <==> i + 1 < config.maxAttempts && WorthRepeating(calls[i].outcome)
    {
      FollowedExactly(config, calls, i);
    }
  }

  // ---- How the run ends ----

  predicate FailsWith(exit: Exit, status: int, code: string, temporary: bool) {
    exit == Returned(Response(status, ErrorBody(code, temporary)))
  }

  // What the run answers when this was the outcome of its last call.
  predicate AnswersTo(o: Outcome, config: Config, exit: Exit, receipts: seq<Attempt>) {
    && (Conforming(o) ==>
          exit == Returned(Response(200, SuccessBody(2, config.provider, config.model,
            o.message.value.parsed.document, SumInput(receipts), SumOutput(receipts)))))
    && (ReadAs(o, BrokenSchema) ==> FailsWith(exit, 500, "invalid_schema", false))
    && (CutOff(o) ==> FailsWith(exit, 502, "output_truncated", false))
    && (Unusable(o) || ReadAs(o, Violates) ==> FailsWith(exit, 502, "invalid_structured_output", false))
    && (o.TimedOutCall? ==> FailsWith(exit, 504, "timeout", true))
    && (QuotaUsedUp(o) ==> FailsWith(exit, 429, "quota_exhausted", false))
    && (Throttled(o) ==> FailsWith(exit, 429, "rate_limited", true))
    && (o.ConnectionFailed? ==> FailsWith(exit, 503, "provider_unavailable", true))
    && (o.StatusFailed? ==>
          && exit.Returned? && exit.response.body.ErrorBody? && HttpCode(o.httpStatus, exit.response.body.code)
          && exit.response.status == (if MayPass(o.httpStatus) then 503 else 502)
          && exit.response.body.temporary == MayPass(o.httpStatus))
    && (Uncaught(o) ==> exit == Raised)
  }

  lemma AnswerFits(config: Config, o: Outcome, receipts: seq<Attempt>)
    ensures AnswersTo(o, config, Answer(config, Judge(o), receipts), receipts)
  {
  }

  lemma ReadyAnswers(config: Config, calls: seq<Call>)
    requires Supplied(config, calls)
    ensures var receipts := FinalAttempts(config, Ready, calls);
      && |receipts| == CallCount(config, calls, 0) > 0
      && AnswersTo(calls[|receipts| - 1].outcome, config, ExitOf(config, Ready, calls), receipts)
  {
    var n := CallCount(config, calls, 0);
    var receipts := SettledAll(config, calls, n);
    assert n > 0 && ExitOf(config, Ready, calls) == Answer(config, Judge(calls[n - 1].outcome), receipts) by {
      RunOutcome(config, calls);
    }
    assert FinalAttempts(config, Ready, calls) == receipts && |receipts| == n;
    AnswerFits(config, calls[n - 1].outcome, receipts);
  }

  /** The last call decides the answer. A request that is refused before any call has no receipts. */
  lemma RunAnswers(config: Config, preflight: Preflight, calls: seq<Call>)
    requires Supplied(config, calls)
    ensures var exit, receipts := ExitOf(config, preflight, calls), FinalAttempts(config, preflight, calls);
      && (preflight.SchemaInvalid? ==> FailsWith(exit, 500, "invalid_schema", false) && receipts == [])
      && (preflight.ImageInvalid? ==> FailsWith(exit, 422, "invalid_image", false) && receipts == [])
      && (preflight.Ready? ==>
            && |receipts| == CallCount(config, calls, 0) > 0
            && AnswersTo(calls[|receipts| - 1].outcome, config, exit, receipts))
  {
    ReadyAnswers(config, calls);
  }

  /** The events of a run are the started and the finished receipt of each call, in order, and then one
      result; an exception becomes an internal error. */
  lemma EventsOfRun(config: Config, preflight: Preflight, calls: seq<Call>, i: nat)
    requires config.maxAttempts <= |calls|
    ensures var stream, n := Stream(config, preflight, calls),
                             if preflight.Ready? then CallCount(config, calls, 0) else 0;
      && |stream| == 2 * n + 1
      && (i < n ==>
            && stream[2 * i] ==
                 AttemptStarted(Attempt(
                   calls[i].id, config.provider, config.model, Failed, "interrupted", false, 0, 0, 0))
            && stream[2 * i + 1] == AttemptFinished(Settled(config, calls[i])))
      && match ExitOf(config, preflight, calls)
         case Raised => stream[2 * n] == ResultEvent(500, ErrorBody("internal_error", false))
         case Returned(response) => stream[2 * n] == ResultEvent(response.status, response.body)
  {
    if preflight.Ready? && i < CallCount(config, calls, 0) {
      ReceiptAt(config, calls, CallCount(config, calls, 0), i);
    }
  }

  lemma {:induction false} ReceiptAt(config: Config, calls: seq<Call>, n: nat, i: nat)
    requires i < n <= |calls|
    ensures ReceiptEvents(config, calls, n)[2 * i] == AttemptStarted(Placeholder(config, calls[i]))
    ensures ReceiptEvents(config, calls, n)[2 * i + 1] == AttemptFinished(Settled(config, calls[i]))
  {
    var events, last := ReceiptEvents(config, calls, n - 1), calls[n - 1];
    assert ReceiptEvents(config, calls, n) ==
           events + [AttemptStarted(Placeholder(config, last)), AttemptFinished(Settled(config, last))];
    if i < n - 1 {
      ReceiptAt(config, calls, n - 1, i);
    }
  }

  // ---- What the reader takes as the cause ----

  // The error a reader returns after this last receipt.
  predicate ErrorOf(last: Attempt, err: Option<CallError>) {
    && (err.None? <==> last.status == Succeeded)
    && (err.Some? ==>
          && err.value.ProviderError? && !err.value.temporary
          && (err.value.cause == ErrTimeout <==> last.status == TimedOut)
          && (err.value.cause == ErrInvalidOutput <==>
                last.status == InvalidOutput || last.errorCode == "invalid_schema")
          && err.value.cause in {ErrTimeout, ErrInvalidOutput, ErrProvider}
          && err.value.code == if last.errorCode == "interrupted" then "internal_error" else last.errorCode)
  }

  /** The error read from a whole stream agrees with the producer's last receipt: the cause is a timeout
      exactly when that receipt timed out, and bad output exactly when it says so or a schema is broken;
      the code is that receipt's, or internal_error after an exception. There is no error exactly when
      the last receipt succeeded. */
  lemma CauseAgrees(config: Config, preflight: Preflight, calls: seq<Call>, ctxErr: Option<Cause>)
    requires Supplied(config, calls)
    ensures var receipts := FinalAttempts(config, preflight, calls);
            var (result, err) := Consume(Stream(config, preflight, calls), ctxErr);
      && result.attempts == Some(receipts)
      && (preflight.SchemaInvalid? ==> err == Some(ProviderError("invalid_schema", false, ErrInvalidOutput)))
      && (preflight.ImageInvalid? ==> err == Some(ProviderError("invalid_image", false, ErrProvider)))
      && (preflight.Ready? ==> receipts != [] && ErrorOf(receipts[|receipts| - 1], err))
  {
    WholeStream(config, preflight, calls, ctxErr);
    if preflight.Ready? {
      ReadyCause(config, calls, ctxErr);
    }
  }

  lemma ReadyCause(config: Config, calls: seq<Call>, ctxErr: Option<Cause>)
    requires Supplied(config, calls)
    ensures var receipts := FinalAttempts(config, Ready, calls);
      receipts != [] && ErrorOf(receipts[|receipts| - 1], Consume(Stream(config, Ready, calls), ctxErr).1)
  {
    var n := CallCount(config, calls, 0);
    var receipts := SettledAll(config, calls, n);
    assert n > 0 && ExitOf(config, Ready, calls) == Answer(config, Judge(calls[n - 1].outcome), receipts) by {
      RunOutcome(config, calls);
    }
    LastReceipt(config, calls[n - 1], receipts);
    WholeStream(config, Ready, calls, ctxErr);
  }

  lemma LastReceipt(config: Config, call: Call, receipts: seq<Attempt>)
    ensures var last, event := Settled(config, call), ResultOf(Answer(config, Judge(call.outcome), receipts));
      && (event.body.ErrorBody? <==> last.status != Succeeded)
      && (event.body.ErrorBody? ==>
            var code, cause := event.body.code, ClassifyCode(event.body.code);
            && code == (if last.errorCode == "interrupted" then "internal_error" else last.errorCode)
            && (cause == ErrTimeout <==> last.status == TimedOut)
            && (cause == ErrInvalidOutput <==> last.status == InvalidOutput || last.errorCode == "invalid_schema")
            && cause in {ErrTimeout, ErrInvalidOutput, ErrProvider})
  {
  }
}
