/** What a reader of the usage table can rely on, for any provider and for the AI kernel. */
module GatewayAudit {
  import opened Wrappers
  import opened Receipts
  import opened KernelStream
  import P = KernelProducer
  import opened KernelAudit
  import opened Gateway

  // ---- For any provider ----

  lemma {:induction false} LoopRetries(turns: nat -> Turn, max: nat, n: nat, err: Option<CallError>, i: nat)
    requires n <= i && n <= max && i + 1 < Loop(turns, max, n, err).count
    ensures Retryable(turns(i).call) && turns(i).ctxBefore.None? && turns(i).ctxBackoff.None?
    decreases max - n
  {
    if i > n {
      LoopRetries(turns, max, n + 1, Failure(turns(n).call), i);
    }
  }

  lemma {:induction false} LoopOutcome(turns: nat -> Turn, max: nat, n: nat, err: Option<CallError>)
    requires n < max
    ensures var end := Loop(turns, max, n, err);
            && (end.count > n ==> turns(end.count - 1).ctxBefore.None?)
            && (end.err.None? <==> end.count > n && InTime(turns(end.count - 1).call))
    decreases max - n
  {
    if turns(n).ctxBefore.None? && Retryable(turns(n).call) && n + 1 < max && turns(n).ctxBackoff.None? {
      LoopOutcome(turns, max, n + 1, Failure(turns(n).call));
    }
  }

  /** A call is followed by another only when it failed with a temporary provider error within its
      deadline and the context was still alive. */
  lemma RetriedOnlyWhenTemporary(env: Environment, max: nat, i: nat)
    requires i + 1 < EndOf(env, max).count
    ensures var call := env.turns(i).call;
            && !call.deadline && call.err.Some? && call.err.value.ProviderError? && call.err.value.temporary
            && call.err.value.cause != ErrTimeout && call.err.value.cause != DeadlineExceeded
            && env.turns(i).ctxBackoff.None?
  {
    LoopRetries(env.turns, max, 0, None, i);
  }

  lemma {:induction false} UnidentifiedExactly(physical: seq<Attempt>, newId: nat -> Option<Uuid>, from: nat)
    requires from <= |physical|
    ensures FirstUnidentified(physical, newId, from) == |physical| <==>
            forall i | from <= i < |physical| :: Identified(physical[i], newId(i))
    decreases |physical| - from
  {
    if from < |physical| && Identified(physical[from], newId(from)) {
      UnidentifiedExactly(physical, newId, from + 1);
    }
  }

  lemma {:induction false} IdentifiedBefore(physical: seq<Attempt>, newId: nat -> Option<Uuid>, from: nat)
    requires from <= |physical|
    ensures forall i | from <= i < FirstUnidentified(physical, newId, from) :: Identified(physical[i], newId(i))
    decreases |physical| - from
  {
    if from < |physical| && Identified(physical[from], newId(from)) {
      IdentifiedBefore(physical, newId, from + 1);
    }
  }

  lemma {:induction false} RowAt(
    request: Request, prompt: Prompt, physical: seq<Attempt>, newId: nat -> Option<Uuid>, n: nat, i: nat)
    requires i < n <= |physical|
    ensures Rows(request, prompt, physical, newId, n)[i] ==
            RowOf(request, prompt, physical[i], newId(i).GetOr(NIL_UUID))
    decreases n
  {
    var row := RowOf(request, prompt, physical[n - 1], newId(n - 1).GetOr(NIL_UUID));
    assert Rows(request, prompt, physical, newId, n) == Rows(request, prompt, physical, newId, n - 1) + [row];
    if i < n - 1 {
      RowAt(request, prompt, physical, newId, n - 1, i);
    }
  }

  lemma {:induction false} SameTokens(rows: seq<Usage>, attempts: seq<Attempt>)
    requires |rows| == |attempts|
    requires forall i | 0 <= i < |rows| ::
               rows[i].inputTokens == attempts[i].inputTokens && rows[i].outputTokens == attempts[i].outputTokens
    ensures RowInput(rows) == SumInput(attempts) && RowOutput(rows) == SumOutput(attempts)
  {
    if rows != [] {
      SameTokens(rows[..|rows| - 1], attempts[..|rows| - 1]);
    }
  }

  /** Every physical attempt has its row exactly when no needed ID failed to generate; then the rows
      stand in order and carry the attempts' own figures, and the totals are the attempts' sums. */
  lemma OneRowPerAttempt(request: Request, prompt: Prompt, env: Environment, max: nat)
    ensures var attempts := ChargedAttempts(request, env, max);
            var rows := RowsOf(request, prompt, env, max);
            && (Audited(request, prompt, env, max) <==>
                forall i | 0 <= i < |attempts| :: attempts[i].id != NIL_UUID || env.newId(i).Some?)
            && |rows| <= |attempts|
            && (forall i | 0 <= i < |rows| ::
                  && rows[i] == RowOf(request, prompt, attempts[i], env.newId(i).GetOr(NIL_UUID))
                  && RowSays(rows[i], prompt, attempts[i], env.newId(i)))
            && (Audited(request, prompt, env, max) ==>
                  && RowInput(rows) == SumInput(Physical(request, env.turns, EndOf(env, max).count))
                  && RowOutput(rows) == SumOutput(Physical(request, env.turns, EndOf(env, max).count)))
  {
    var attempts := ChargedAttempts(request, env, max);
    var n := FirstUnidentified(attempts, env.newId, 0);
    UnidentifiedExactly(attempts, env.newId, 0);
    forall i | 0 <= i < n
      ensures Rows(request, prompt, attempts, env.newId, n)[i] ==
              RowOf(request, prompt, attempts[i], env.newId(i).GetOr(NIL_UUID))
    {
      RowAt(request, prompt, attempts, env.newId, n, i);
    }
    IdentifiedBefore(attempts, env.newId, 0);
    if n == |attempts| {
      SameTokens(Rows(request, prompt, attempts, env.newId, n), attempts);
    }
  }

  /** A result comes back exactly when the last call answered in time with output that validates and
      every physical attempt was identified and stored; its tokens are the sums over the rows. */
  lemma ResultExactlyWhenSound(request: Request, prompt: Prompt, env: Environment, max: nat)
    requires max > 0
    ensures var end := EndOf(env, max);
            var rows := RowsOf(request, prompt, env, max);
            var outcome := OutcomeOf(request, prompt, env, max);
            && (outcome.Ok? <==>
                  && end.count > 0 && InTime(env.turns(end.count - 1).call)
                  && env.turns(end.count - 1).call.response.Some?
                  && env.valid(env.turns(end.count - 1).call.response.value.json)
                  && Audited(request, prompt, env, max) && AllStored(env.storeOk, |rows|))
            && (outcome.Ok? ==>
                  && env.valid(outcome.value.json)
                  && outcome.value.inputTokens == SumInput(Physical(request, env.turns, end.count))
                  && outcome.value.outputTokens == SumOutput(Physical(request, env.turns, end.count)))
  {
    var end, rows := EndOf(env, max), RowsOf(request, prompt, env, max);
    assert end.err.None? <==> end.count > 0 && InTime(env.turns(end.count - 1).call) by {
      LoopOutcome(env.turns, max, 0, None);
    }
    if Audited(request, prompt, env, max) {
      assert RowInput(rows) == SumInput(Physical(request, env.turns, end.count))
             && RowOutput(rows) == SumOutput(Physical(request, env.turns, end.count)) by {
        OneRowPerAttempt(request, prompt, env, max);
      }
    }
  }

  // ---- For the AI kernel ----

  datatype KernelReply =
    | ConfigUnavailable
    | Unreachable(deadline: bool)
    | ReadFailed
    | PlainReply(status: int, body: Body)
    | EventStream(events: seq<Event>, ctxErr: Option<Cause>)

  // SemanticKernelProvider.Generate: nothing but a transport failure or a plain error body is temporary.
  function KernelGenerate(reply: KernelReply): (Option<ProviderResponse>, Option<CallError>) {
    match reply
    case ConfigUnavailable => (None, Some(ProviderError("configuration_unavailable", false, OtherCause)))
    case Unreachable(deadline) =>
      (None, Some(if deadline then PlainError(ErrTimeout) else ProviderError("kernel_unavailable", true, ErrProvider)))
    case ReadFailed => (None, Some(ProviderError("kernel_response_read", true, ErrProvider)))
    case PlainReply(status, body) =>
      if status < 200 || status >= 300 then
        var known := body.ErrorBody? && body.code != "";
        var code := if known then body.code else "kernel_http_error";
        (None, Some(
          if status == 504 || code == "timeout" then PlainError(ErrTimeout)
          else if ClassifyCode(code) == ErrInvalidOutput then ProviderError(code, false, ErrInvalidOutput)
          else ProviderError(code, known && body.temporary, ErrProvider)))
      else if !body.SuccessBody? || body.version != PROTOCOL_VERSION || body.json == "" then
        (None, Some(ProviderError("kernel_invalid_response", false, ErrInvalidOutput)))
      else
        (Some(ProviderResponse(body.json, body.provider, body.model, body.inputTokens, body.outputTokens, None)), None)
    case EventStream(events, ctxErr) =>
      var (response, err) := Consume(events, ctxErr);
      (Some(response), err)
  }

  function KernelCall(reply: KernelReply, deadline: bool, latencyMs: int): ProviderCall {
    var (response, err) := KernelGenerate(reply);
    ProviderCall(response, err, deadline, latencyMs)
  }

  /** Once the kernel has opened an event stream the gateway never calls it again, whatever is on it. */
  lemma StreamIsLast(
    env: Environment, max: nat, j: nat, events: seq<Event>, ctxErr: Option<Cause>, deadline: bool, latencyMs: int)
    requires j < EndOf(env, max).count
    requires env.turns(j).call == KernelCall(EventStream(events, ctxErr), deadline, latencyMs)
    ensures EndOf(env, max).count == j + 1
  {
    if j + 1 < EndOf(env, max).count {
      RetriedOnlyWhenTemporary(env, max, j);
    }
  }

  // What the gateway makes of a call that returned `result` and `err` and was the last one.
  lemma StreamRun(
    request: Request, env: Environment, max: nat, j: nat, result: ProviderResponse, err: Option<CallError>)
    requires EndOf(env, max).count == j + 1
    requires env.turns(j).call.response == Some(result) && env.turns(j).call.err == err
    ensures var rejected := err.None? && !env.turns(j).call.deadline && !env.valid(result.json);
            var earlier := Physical(request, env.turns, j);
            && (err.Some? ==> EndOf(env, max).err.Some?)
            && (result.attempts.Some? ==>
                  ChargedAttempts(request, env, max) == Charged(earlier + result.attempts.value, rejected))
            && (result.attempts.None? && err.Some? ==>
                  && |ChargedAttempts(request, env, max)| == |earlier| + 1
                  && !ChargedAttempts(request, env, max)[|earlier|].usageReported)
  {
    RunVerdict(env, max, j, result, err);
    var physical := Physical(request, env.turns, j + 1);
    if result.attempts.Some? {
      assert physical == Physical(request, env.turns, j) + result.attempts.value;
    } else {
      assert physical == Physical(request, env.turns, j) + [Unreceipted(request, env.turns(j).call)];
    }
  }

  lemma RunVerdict(env: Environment, max: nat, j: nat, result: ProviderResponse, err: Option<CallError>)
    requires EndOf(env, max).count == j + 1
    requires env.turns(j).call.response == Some(result) && env.turns(j).call.err == err
    ensures err.Some? ==> EndOf(env, max).err.Some?
    ensures OutputRejected(env.turns, EndOf(env, max), env.valid) <==>
            err.None? && !env.turns(j).call.deadline && !env.valid(result.json)
  {
    LoopOutcome(env.turns, max, 0, None);
  }

  /** Rejected output only changes the mark of the last attempt. */
  lemma ChargedTail(earlier: seq<Attempt>, attempts: seq<Attempt>, rejected: bool)
    requires attempts != []
    ensures var charged, last := Charged(earlier + attempts, rejected), |attempts| - 1;
            && |charged| == |earlier| + |attempts|
            && (forall i | 0 <= i < last :: charged[|earlier| + i] == attempts[i])
            && charged[|earlier| + last] ==
               if rejected then attempts[last].(status := InvalidOutput, errorCode := "schema_validation")
               else attempts[last]
  {
  }

  // The document of a run whose last receipt succeeded.
  function SucceededWith(config: P.Config, preflight: P.Preflight, calls: seq<P.Call>): Option<string>
    requires config.maxAttempts <= |calls|
  {
    var exit := P.ExitOf(config, preflight, calls);
    if exit.Returned? && exit.response.body.SuccessBody? then Some(exit.response.body.json) else None
  }

  /** Audit of a whole kernel run: after whatever earlier unreachable calls left, the ledger gets the
      producer's receipts, one each, under the IDs the provider was called with. Only output that
      fails the gateway's own validation changes one: the last, which then stops counting as a success. */
  lemma WholeRunAudited(request: Request, env: Environment, max: nat, j: nat,
                        config: P.Config, preflight: P.Preflight, calls: seq<P.Call>,
                        ctxErr: Option<Cause>, deadline: bool, latencyMs: int)
    requires Supplied(config, calls) && j < EndOf(env, max).count
    requires env.turns(j).call == KernelCall(EventStream(Stream(config, preflight, calls), ctxErr), deadline, latencyMs)
    ensures var document := SucceededWith(config, preflight, calls);
            var rejected := document.Some? && !deadline && !env.valid(document.value);
            ChargedAttempts(request, env, max) ==
            Charged(Physical(request, env.turns, j) + FinalAttempts(config, preflight, calls), rejected)
  {
    var stream := Stream(config, preflight, calls);
    var (result, err) := Consume(stream, ctxErr);
    StreamIsLast(env, max, j, stream, ctxErr, deadline, latencyMs);
    WholeStream(config, preflight, calls, ctxErr);
    StreamRun(request, env, max, j, result, err);
  }

  /** Audit of a broken kernel stream: one entry for every call the kernel announced, in order, so that
      no announced physical call is lost; an unfinished one stays interrupted and unreported. A stream
      that broke before any receipt counts as one unknown attempt. */
  lemma CutRunAudited(request: Request, env: Environment, max: nat, j: nat,
                      config: P.Config, calls: seq<P.Call>, n: nat, k: nat,
                      ctxErr: Option<Cause>, deadline: bool, latencyMs: int)
    requires Supplied(config, calls) && n <= config.maxAttempts && k <= 2 * n
    requires j < EndOf(env, max).count
    requires env.turns(j).call ==
             KernelCall(EventStream(P.ReceiptEvents(config, calls, n)[..k], ctxErr), deadline, latencyMs)
    ensures EndOf(env, max).err.Some?
    ensures var earlier := Physical(request, env.turns, j);
            var attempts := ChargedAttempts(request, env, max);
            if k == 0 then |attempts| == |earlier| + 1 && !attempts[|earlier|].usageReported
            else attempts == earlier + KnownAttempts(config, calls, k)
  {
    var cut := P.ReceiptEvents(config, calls, n)[..k];
    var (result, err) := Consume(cut, ctxErr);
    StreamIsLast(env, max, j, cut, ctxErr, deadline, latencyMs);
    CutStream(config, calls, n, k, ctxErr);
    StreamRun(request, env, max, j, result, err);
  }
}
