/** What Generate does with each provider call, what it stores and what it returns, said of the calls, the
    receipts and the environment themselves. */
module GatewayRecords {
  import opened Wrappers
  import opened Receipts
  import opened KernelStream
  import P = KernelProducer
  import opened KernelAudit
  import opened KernelReader
  import O = KernelOutcomes
  import opened Gateway
  import opened GatewayAudit

  // ---- The retry loop ----

  // The call took too long, by the gateway's clock or by the provider's own account.
  predicate TookTooLong(call: ProviderCall) {
    call.deadline || (call.err.Some? && call.err.value.cause in {ErrTimeout, DeadlineExceeded})
  }

  predicate Temporary(call: ProviderCall) {
    && !TookTooLong(call) && call.err.Some? && call.err.value.ProviderError? && call.err.value.temporary
  }

  lemma {:induction false} CalledAgain(turns: nat -> Turn, max: nat, n: nat, err: Option<CallError>, i: nat)
    requires n <= max && n <= i < Loop(turns, max, n, err).count
    ensures turns(i).ctxBefore.None?
    ensures i + 1 < Loop(turns, max, n, err).count <==>
      && i + 1 < max && Temporary(turns(i).call) && turns(i).ctxBackoff.None? && turns(i + 1).ctxBefore.None?
    decreases max - n
  {
    var failure := Failure(turns(n).call);
    if i > n {
      CalledAgain(turns, max, n + 1, failure, i);
    } else if n + 1 < max && Temporary(turns(n).call) && turns(n).ctxBackoff.None? {
      assert Loop(turns, max, n, err) == Loop(turns, max, n + 1, failure);
    }
  }

  /** A call is followed by another exactly when attempts are left, it failed in time with a temporary
      provider error, and the context outlived it and the wait. The first call is made exactly when the
      context is alive. */
  lemma CalledExactly(env: Environment, max: nat, i: nat)
    ensures 0 < EndOf(env, max).count <==> 0 < max && env.turns(0).ctxBefore.None?
    ensures i < EndOf(env, max).count ==>
      (i + 1 < EndOf(env, max).count <==>
        && i + 1 < max && Temporary(env.turns(i).call)
        && env.turns(i).ctxBackoff.None? && env.turns(i + 1).ctxBefore.None?)
  {
    if i < EndOf(env, max).count {
      CalledAgain(env.turns, max, 0, None, i);
    }
  }

  // The error of one call: a timeout, the provider's own error, or none.
  predicate FailedWith(call: ProviderCall, err: Option<CallError>) {
    if TookTooLong(call) then err == Some(PlainError(ErrTimeout)) else err == call.err
  }

  // The error the loop ends with after n > 0 calls.
  predicate EndsWith(turns: nat -> Turn, max: nat, n: nat, err: Option<CallError>)
    requires n > 0
  {
    var last := turns(n - 1);
    if !Temporary(last.call) || n == max then FailedWith(last.call, err)
    else if last.ctxBackoff.Some? then err == Some(PlainError(last.ctxBackoff.value))
    else turns(n).ctxBefore.Some? && err == Some(PlainError(turns(n).ctxBefore.value))
  }

  lemma {:induction false} LoopEndsWith(turns: nat -> Turn, max: nat, n: nat, err: Option<CallError>)
    requires n < max && turns(n).ctxBefore.None?
    ensures var end := Loop(turns, max, n, err); end.count > n && EndsWith(turns, max, end.count, end.err)
    decreases max - n
  {
    var failure := Failure(turns(n).call);
    if Temporary(turns(n).call) && n + 1 < max && turns(n).ctxBackoff.None? && turns(n + 1).ctxBefore.None? {
      LoopEndsWith(turns, max, n + 1, failure);
    }
  }

  /** The loop's error is the last call's, a timeout in place of what took too long, or the context's when
      that ended while another call was due. */
  lemma LoopError(env: Environment, max: nat)
    requires max > 0
    ensures var end := EndOf(env, max);
      if end.count == 0 then env.turns(0).ctxBefore.Some? && end.err == Some(PlainError(env.turns(0).ctxBefore.value))
      else EndsWith(env.turns, max, end.count, end.err)
  {
    if env.turns(0).ctxBefore.None? {
      LoopEndsWith(env.turns, max, 0, None);
    }
  }

  // ---- Physical attempts ----

  // The attempt that stands for a call without receipts.
  predicate StandsFor(a: Attempt, request: Request, call: ProviderCall) {
    var r := call.response;
    && a.id == 0 && a.latencyMs == call.latencyMs
    && a.provider == (if r.Some? && r.value.provider != "" then r.value.provider else request.provider)
    && a.model == (if r.Some? && r.value.model != "" then r.value.model else request.model)
    && a.inputTokens == (if r.Some? then r.value.inputTokens else 0)
    && a.outputTokens == (if r.Some? then r.value.outputTokens else 0)
    && (a.usageReported <==> r.Some? && call.err.None?)
    && (TookTooLong(call) ==> a.status == TimedOut && a.errorCode == "timeout")
    && (!TookTooLong(call) && call.err.None? ==> a.status == Succeeded && a.errorCode == "")
    && (!TookTooLong(call) && call.err.Some? ==>
          && a.status == Failed
          && a.errorCode == if call.err.value.ProviderError? then call.err.value.code else "provider_error")
  }

  /** Each call adds its receipts when the provider kept any, and one attempt that stands for it otherwise. */
  lemma CallAdds(request: Request, turns: nat -> Turn, n: nat)
    ensures Physical(request, turns, 0) == []
    ensures var before, after, call := Physical(request, turns, n), Physical(request, turns, n + 1), turns(n).call;
      && before <= after
      && if call.response.Some? && call.response.value.attempts.Some?
         then after == before + call.response.value.attempts.value
         else |after| == |before| + 1 && StandsFor(after[|before|], request, call)
  {
    assert Physical(request, turns, n + 1) == Physical(request, turns, n) + AttemptsOf(request, turns(n).call);
  }

  // The last call answered in time, with output that is missing or fails validation.
  predicate BadOutput(env: Environment, n: nat) {
    && n > 0 && env.turns(n - 1).call.err.None? && !env.turns(n - 1).call.deadline
    && (env.turns(n - 1).call.response.None? || !env.valid(env.turns(n - 1).call.response.value.json))
  }

  lemma RejectedExactly(env: Environment, max: nat)
    requires max > 0
    ensures OutputRejected(env.turns, EndOf(env, max), env.valid) <==> BadOutput(env, EndOf(env, max).count)
  {
    LoopOutcome(env.turns, max, 0, None);
  }

  /** The attempts that are stored are the physical ones; bad output changes the mark of the last. */
  lemma ChargedSays(request: Request, env: Environment, max: nat)
    requires max > 0
    ensures var n := EndOf(env, max).count;
      var physical, charged := Physical(request, env.turns, n), ChargedAttempts(request, env, max);
      && |charged| == |physical|
      && (forall i | 0 <= i < |physical| && (i < |physical| - 1 || !BadOutput(env, n)) :: charged[i] == physical[i])
      && (physical != [] && BadOutput(env, n) ==>
            var last := |physical| - 1;
            charged[last] == physical[last].(status := InvalidOutput, errorCode := "schema_validation"))
  {
    RejectedExactly(env, max);
  }

  // ---- The outcome ----

  lemma {:induction false} StoredExactly(storeOk: nat -> bool, n: nat)
    ensures AllStored(storeOk, n) <==> forall i: nat | i < n :: storeOk(i)
  {
    if n > 0 {
      StoredExactly(storeOk, n - 1);
    }
  }

  // The result of a call that answered.
  predicate Delivers(r: GenerateResult, request: Request, prompt: Prompt, response: ProviderResponse) {
    && r.json == response.json && r.promptKey == prompt.key && r.promptVersion == prompt.version
    && r.provider == (if response.provider != "" then response.provider else request.provider)
    && r.model == (if response.model != "" then response.model else request.model)
  }

  // An error when an attempt's ID cannot be generated; else the loop's error; else invalid output; else an
  // error when a row is not stored; else the last response, with the sums of all attempts.
  ghost predicate OutcomeIs(outcome: Result<GenerateResult, CallError>, request: Request, prompt: Prompt,
      env: Environment, end: LoopEnd, attempts: seq<Attempt>)
  {
    if exists i | 0 <= i < |attempts| :: attempts[i].id == 0 && env.newId(i).None?
      then outcome == Err(PlainError(OtherCause))
    else if end.err.Some? then outcome == Err(end.err.value)
    else if BadOutput(env, end.count) then outcome == Err(PlainError(ErrInvalidOutput))
    else if exists i: nat | i < |attempts| :: !env.storeOk(i) then outcome == Err(PlainError(OtherCause))
    else
      && end.count > 0 && env.turns(end.count - 1).call.response.Some?
      && outcome.Ok? && Delivers(outcome.value, request, prompt, env.turns(end.count - 1).call.response.value)
      && outcome.value.inputTokens == SumInput(attempts) && outcome.value.outputTokens == SumOutput(attempts)
  }

  /** What Generate returns. */
  lemma OutcomeSays(request: Request, prompt: Prompt, env: Environment, max: nat)
    requires max > 0
    ensures OutcomeIs(OutcomeOf(request, prompt, env, max), request, prompt, env, EndOf(env, max),
              ChargedAttempts(request, env, max))
  {
    var end, attempts := EndOf(env, max), ChargedAttempts(request, env, max);
    var rows := RowsOf(request, prompt, env, max);
    assert Audited(request, prompt, env, max) <==>
           !(exists i | 0 <= i < |attempts| :: attempts[i].id == 0 && env.newId(i).None?) by {
      OneRowPerAttempt(request, prompt, env, max);
    }
    RejectedExactly(env, max);
    assert end.err.None? ==> end.count > 0 by { LoopOutcome(env.turns, max, 0, None); }
    StoredExactly(env.storeOk, |rows|);
    if Audited(request, prompt, env, max) {
      assert RowInput(rows) == SumInput(attempts) && RowOutput(rows) == SumOutput(attempts) by {
        OneRowPerAttempt(request, prompt, env, max);
      }
    }
  }

  // ---- Plain kernel replies ----

  /** A kernel that answers without a stream: only a failed transport and what the kernel itself calls
      temporary may be tried again; 504 and the code timeout are timeouts. */
  lemma PlainReplySays(status: int, body: Body, deadline: bool)
    ensures KernelGenerate(ConfigUnavailable) ==
      (None, Some(ProviderError("configuration_unavailable", false, OtherCause)))
    ensures KernelGenerate(Unreachable(true)) == (None, Some(PlainError(ErrTimeout)))
    ensures KernelGenerate(Unreachable(false)) ==
      (None, Some(ProviderError("kernel_unavailable", true, ErrProvider)))
    ensures KernelGenerate(ReadFailed) == (None, Some(ProviderError("kernel_response_read", true, ErrProvider)))
    ensures
      var (response, err) := KernelGenerate(PlainReply(status, body));
      var code := if body.ErrorBody? && body.code != "" then body.code else "kernel_http_error";
      if 200 <= status < 300 then
        if body.SuccessBody? && body.version == 2 && body.json != "" then
          && err.None?
          && response == Some(ProviderResponse(
               body.json, body.provider, body.model, body.inputTokens, body.outputTokens, None))
        else response.None? && err == Some(ProviderError("kernel_invalid_response", false, ErrInvalidOutput))
      else
        && response.None? && err.Some?
        && if status == 504 || code == "timeout" then err == Some(PlainError(ErrTimeout))
           else
             && err.value.ProviderError? && err.value.code == code && CauseFits(code, err.value.cause)
             && (err.value.temporary <==>
                   && body.ErrorBody? && body.code != "" && body.temporary
                   && code !in ["invalid_schema", "invalid_structured_output", "output_truncated"])
  {
  }

  // ---- Whole kernel runs ----

  // The row of one call of a kernel run: its own ID and what its receipt says. A call whose provider gave
  // both counts keeps its code; any other has it marked.
  predicate RunRow(row: Usage, prompt: Prompt, config: P.Config, call: P.Call, rejected: bool) {
    var receipt, counts := P.Settled(config, call), O.Counts(call.outcome);
    && row.id == call.id && row.provider == config.provider && row.model == config.model
    && row.promptKey == prompt.key && row.promptVersion == prompt.version
    && row.inputTokens == (if counts.Some? then counts.value.prompt.GetOr(0) else 0)
    && row.outputTokens == (if counts.Some? then counts.value.completion.GetOr(0) else 0)
    && (if rejected then row.status == InvalidOutput else O.Says(call.outcome, row.status, receipt.errorCode))
    && row.errorCode ==
         (if rejected then "schema_validation" else receipt.errorCode)
         + (if counts.Some? && counts.value.prompt.Some? && counts.value.completion.Some? then ""
            else ":usage_unreported")
  }

  // A kernel run, as one provider call saw it.
  datatype KernelRun = KernelRun(
    config: P.Config, preflight: P.Preflight, calls: seq<P.Call>, ctxErr: Option<Cause>, deadline: bool, latencyMs: int)

  predicate Runs(run: KernelRun) {
    Supplied(run.config, run.calls)
  }

  // Call j got the whole stream of this run.
  ghost predicate Made(env: Environment, max: nat, j: nat, run: KernelRun) {
    && Runs(run) && j < EndOf(env, max).count
    && env.turns(j).call ==
         KernelCall(EventStream(Stream(run.config, run.preflight, run.calls), run.ctxErr), run.deadline, run.latencyMs)
  }

  function ReceiptsOf(run: KernelRun): seq<Attempt>
    requires Runs(run)
  {
    FinalAttempts(run.config, run.preflight, run.calls)
  }

  function DocumentOf(run: KernelRun): Option<string>
    requires Runs(run)
  {
    SucceededWith(run.config, run.preflight, run.calls)
  }

  // The run succeeded in time with output that fails the gateway's own validation.
  predicate Refused(env: Environment, run: KernelRun)
    requires Runs(run)
  {
    DocumentOf(run).Some? && !run.deadline && !env.valid(DocumentOf(run).value)
  }

  // The attempt that is stored for call i.
  function EntryOf(run: KernelRun, i: nat, rejected: bool): Attempt
    requires i < |run.calls|
  {
    var a := P.Settled(run.config, run.calls[i]);
    if rejected then a.(status := InvalidOutput, errorCode := "schema_validation") else a
  }

  lemma RunRowSays(row: Usage, prompt: Prompt, run: KernelRun, i: nat, freshId: Option<Uuid>, rejected: bool)
    requires Runs(run) && i < |run.calls| && RowSays(row, prompt, EntryOf(run, i, rejected), freshId)
    ensures RunRow(row, prompt, run.config, run.calls[i], rejected)
  {
    O.ReceiptSays(run.config, run.calls[i]);
  }

  lemma RunCharged(request: Request, env: Environment, max: nat, j: nat, run: KernelRun)
    requires Made(env, max, j, run)
    ensures ChargedAttempts(request, env, max) ==
            Charged(Physical(request, env.turns, j) + ReceiptsOf(run), Refused(env, run))
  {
    WholeRunAudited(request, env, max, j, run.config, run.preflight, run.calls,
      run.ctxErr, run.deadline, run.latencyMs);
  }

  lemma ChargedAt(charged: seq<Attempt>, earlier: seq<Attempt>, receipts: seq<Attempt>, rejected: bool, i: nat)
    requires charged == Charged(earlier + receipts, rejected) && i < |receipts|
    ensures |charged| == |earlier| + |receipts|
    ensures charged[|earlier| + i] ==
      if rejected && i == |receipts| - 1
      then receipts[i].(status := InvalidOutput, errorCode := "schema_validation") else receipts[i]
  {
    ChargedTail(earlier, receipts, rejected);
  }

  // Rows and the attempts they were made from.
  predicate RowsFit(rows: seq<Usage>, prompt: Prompt, attempts: seq<Attempt>, newId: nat -> Option<Uuid>) {
    |rows| <= |attempts| && forall k | 0 <= k < |rows| :: RowSays(rows[k], prompt, attempts[k], newId(k))
  }

  // The attempts of a run, behind those of earlier calls.
  predicate EntriesFit(run: KernelRun, attempts: seq<Attempt>, earlier: nat, rejected: bool)
    requires Runs(run)
  {
    var n := |ReceiptsOf(run)|;
    && |attempts| == earlier + n && n <= |run.calls|
    && forall k | earlier <= k < |attempts| ::
         attempts[k] == EntryOf(run, k - earlier, rejected && k == |attempts| - 1)
  }

  // The rows of a run, behind those of earlier calls.
  predicate RunStored(run: KernelRun, prompt: Prompt, rows: seq<Usage>, earlier: nat, rejected: bool)
    requires Runs(run)
  {
    var n := |ReceiptsOf(run)|;
    n <= |run.calls| &&
    forall k | earlier <= k < |rows| && k < earlier + n ::
      RunRow(rows[k], prompt, run.config, run.calls[k - earlier], rejected && k == earlier + n - 1)
  }

  lemma RunEntries(request: Request, env: Environment, max: nat, j: nat, run: KernelRun)
    requires Made(env, max, j, run)
    ensures EntriesFit(run, ChargedAttempts(request, env, max), |Physical(request, env.turns, j)|, Refused(env, run))
  {
    RunCharged(request, env, max, j, run);
    ChargedFit(run, ChargedAttempts(request, env, max), Physical(request, env.turns, j), Refused(env, run));
  }

  lemma ChargedLength(charged: seq<Attempt>, earlier: seq<Attempt>, receipts: seq<Attempt>, rejected: bool)
    requires charged == Charged(earlier + receipts, rejected)
    ensures |charged| == |earlier| + |receipts|
  {
  }

  lemma ChargedFit(run: KernelRun, charged: seq<Attempt>, earlier: seq<Attempt>, rejected: bool)
    requires Runs(run) && charged == Charged(earlier + ReceiptsOf(run), rejected)
    requires rejected ==> ReceiptsOf(run) != []
    ensures EntriesFit(run, charged, |earlier|, rejected)
  {
    var receipts := ReceiptsOf(run);
    ChargedLength(charged, earlier, receipts, rejected);
    forall k | |earlier| <= k < |charged|
      ensures charged[k] == EntryOf(run, k - |earlier|, rejected && k == |charged| - 1)
    {
      ChargedAt(charged, earlier, receipts, rejected, k - |earlier|);
      assert receipts[k - |earlier|] == P.Settled(run.config, run.calls[k - |earlier|]);
    }
  }

  lemma RowsSay(request: Request, prompt: Prompt, env: Environment, max: nat)
    ensures RowsFit(RowsOf(request, prompt, env, max), prompt, ChargedAttempts(request, env, max), env.newId)
  {
    OneRowPerAttempt(request, prompt, env, max);
  }

  lemma RowsOfEntries(run: KernelRun, prompt: Prompt, rows: seq<Usage>, attempts: seq<Attempt>, earlier: nat,
      newId: nat -> Option<Uuid>, rejected: bool)
    requires Runs(run) && RowsFit(rows, prompt, attempts, newId) && EntriesFit(run, attempts, earlier, rejected)
    ensures RunStored(run, prompt, rows, earlier, rejected)
  {
    var n := |ReceiptsOf(run)|;
    forall k | earlier <= k < |rows| && k < earlier + n
      ensures RunRow(rows[k], prompt, run.config, run.calls[k - earlier], rejected && k == earlier + n - 1)
    {
      assert RowSays(rows[k], prompt, attempts[k], newId(k));
      RunRowSays(rows[k], prompt, run, k - earlier, newId(k), rejected && k == earlier + n - 1);
    }
  }

  /** The rows of a whole kernel run, behind those of earlier calls: each physical call is stored under its
      own ID with what its receipt says. Only rejected output overwrites the mark of the last one. */
  lemma WholeRunStored(request: Request, prompt: Prompt, env: Environment, max: nat, j: nat, run: KernelRun)
    requires Made(env, max, j, run)
    ensures RunStored(run, prompt, RowsOf(request, prompt, env, max), |Physical(request, env.turns, j)|,
              Refused(env, run))
  {
    var rows, attempts := RowsOf(request, prompt, env, max), ChargedAttempts(request, env, max);
    var earlier := |Physical(request, env.turns, j)|;
    assert RowsFit(rows, prompt, attempts, env.newId) by { RowsSay(request, prompt, env, max); }
    assert EntriesFit(run, attempts, earlier, Refused(env, run)) by { RunEntries(request, env, max, j, run); }
    RowsOfEntries(run, prompt, rows, attempts, earlier, env.newId, Refused(env, run));
  }

  // What Generate returns when its last call gave this response and error, none of them temporary.
  predicate Returns(outcome: Result<GenerateResult, CallError>, request: Request, prompt: Prompt, env: Environment,
      response: ProviderResponse, err: Option<CallError>, deadline: bool)
  {
    if deadline || (err.Some? && err.value.cause in {ErrTimeout, DeadlineExceeded}) then
      outcome == Err(PlainError(ErrTimeout))
    else if err.Some? then outcome == Err(err.value)
    else if !env.valid(response.json) then outcome == Err(PlainError(ErrInvalidOutput))
    else
      && (outcome.Err? ==> outcome == Err(PlainError(OtherCause)))
      && (outcome.Ok? ==> Delivers(outcome.value, request, prompt, response))
  }

  lemma FromOutcome(outcome: Result<GenerateResult, CallError>, request: Request, prompt: Prompt, env: Environment,
      end: LoopEnd, attempts: seq<Attempt>, call: ProviderCall, response: ProviderResponse, err: Option<CallError>)
    requires OutcomeIs(outcome, request, prompt, env, end, attempts)
    requires forall i | 0 <= i < |attempts| :: attempts[i].id == 0 ==> env.newId(i).Some?
    requires end.count > 0 && env.turns(end.count - 1).call == call
    requires call.response == Some(response) && call.err == err && FailedWith(call, end.err)
    ensures Returns(outcome, request, prompt, env, response, err, call.deadline)
  {
  }

  lemma LastCallReturns(request: Request, prompt: Prompt, env: Environment, max: nat, j: nat,
      response: ProviderResponse, err: Option<CallError>)
    requires EndOf(env, max).count == j + 1 && Audited(request, prompt, env, max)
    requires env.turns(j).call.response == Some(response) && env.turns(j).call.err == err
    requires err.Some? && err.value.ProviderError? ==> !err.value.temporary
    ensures Returns(OutcomeOf(request, prompt, env, max), request, prompt, env, response, err,
              env.turns(j).call.deadline)
  {
    var end, attempts := EndOf(env, max), ChargedAttempts(request, env, max);
    LastFailure(env, max, j);
    AllIdentified(request, prompt, env, max);
    assert OutcomeIs(OutcomeOf(request, prompt, env, max), request, prompt, env, end, attempts) by {
      OutcomeSays(request, prompt, env, max);
    }
    FromOutcome(OutcomeOf(request, prompt, env, max), request, prompt, env, end, attempts,
      env.turns(j).call, response, err);
  }

  lemma LastFailure(env: Environment, max: nat, j: nat)
    requires EndOf(env, max).count == j + 1 && !Temporary(env.turns(j).call)
    ensures FailedWith(env.turns(j).call, EndOf(env, max).err)
  {
    LoopError(env, max);
  }

  lemma AllIdentified(request: Request, prompt: Prompt, env: Environment, max: nat)
    requires Audited(request, prompt, env, max)
    ensures var attempts := ChargedAttempts(request, env, max);
      forall i | 0 <= i < |attempts| :: attempts[i].id == 0 ==> env.newId(i).Some?
  {
    OneRowPerAttempt(request, prompt, env, max);
  }

  // The same, in terms of the run's last receipt.
  predicate RunReturns(outcome: Result<GenerateResult, CallError>, env: Environment, config: P.Config,
      last: Attempt, document: Option<string>)
  {
    if last.status == TimedOut then outcome == Err(PlainError(ErrTimeout))
    else if last.status == Succeeded then
      && document.Some?
      && (!env.valid(document.value) ==> outcome == Err(PlainError(ErrInvalidOutput)))
      && (env.valid(document.value) && outcome.Err? ==> outcome == Err(PlainError(OtherCause)))
      && (outcome.Ok? ==>
            && outcome.value.json == document.value && env.valid(document.value)
            && outcome.value.provider == config.provider && outcome.value.model == config.model)
    else outcome.Err? && O.ErrorOf(last, Some(outcome.error))
  }

  lemma FromLastReceipt(outcome: Result<GenerateResult, CallError>, request: Request, prompt: Prompt, env: Environment,
      response: ProviderResponse, err: Option<CallError>, config: P.Config, last: Attempt, document: Option<string>)
    requires Returns(outcome, request, prompt, env, response, err, false) && O.ErrorOf(last, err)
    requires config.provider != "" && config.model != ""
    requires err.None? ==>
      response.provider == config.provider && response.model == config.model && document == Some(response.json)
    ensures RunReturns(outcome, env, config, last, document)
  {
  }

  // The response of a successful run is the document under the producer's own name.
  lemma RunResponse(config: P.Config, preflight: P.Preflight, calls: seq<P.Call>, ctxErr: Option<Cause>)
    requires Supplied(config, calls)
    ensures var (response, err) := Consume(Stream(config, preflight, calls), ctxErr);
      && response.attempts == Some(FinalAttempts(config, preflight, calls))
      && (err.None? ==>
            && response.provider == config.provider && response.model == config.model
            && SucceededWith(config, preflight, calls) == Some(response.json))
  {
    WholeStream(config, preflight, calls, ctxErr);
  }

  /** What Generate returns for a whole kernel run, when every attempt has an ID: a timeout exactly when the
      gateway's own deadline passed or the last receipt timed out; else the run's own code and cause, never
      to be tried again; else, after a success, what became of its document. */
  lemma WholeRunReturns(request: Request, prompt: Prompt, env: Environment, max: nat, j: nat, run: KernelRun)
    requires Made(env, max, j, run) && Audited(request, prompt, env, max)
    ensures
      var outcome, receipts := OutcomeOf(request, prompt, env, max), ReceiptsOf(run);
      if run.deadline then outcome == Err(PlainError(ErrTimeout))
      else match run.preflight
      case SchemaInvalid => outcome == Err(ProviderError("invalid_schema", false, ErrInvalidOutput))
      case ImageInvalid => outcome == Err(ProviderError("invalid_image", false, ErrProvider))
      case Ready =>
        && receipts != []
        && RunReturns(outcome, env, run.config, receipts[|receipts| - 1], DocumentOf(run))
  {
    var stream := Stream(run.config, run.preflight, run.calls);
    var (response, err) := Consume(stream, run.ctxErr);
    var outcome, receipts := OutcomeOf(request, prompt, env, max), ReceiptsOf(run);
    StreamIsLast(env, max, j, stream, run.ctxErr, run.deadline, run.latencyMs);
    O.CauseAgrees(run.config, run.preflight, run.calls, run.ctxErr);
    LastCallReturns(request, prompt, env, max, j, response, err);
    if run.preflight.Ready? && !run.deadline {
      RunResponse(run.config, run.preflight, run.calls, run.ctxErr);
      FromLastReceipt(outcome, request, prompt, env, response, err, run.config, receipts[|receipts| - 1],
        DocumentOf(run));
    }
  }
}
