/** Gateway.Generate: the outer retry loop around one provider, and the usage row it stores for
    every physical attempt. The context, the provider, ID generation and the usage table are inputs:
    functions from the position of a step to what happens there. */
module Gateway {
  import opened Wrappers
  import opened Receipts

  datatype Request = Request(provider: string, model: string)
  datatype Prompt = Prompt(key: string, version: int)

  datatype ProviderCall = ProviderCall(
    response: Option<ProviderResponse>, err: Option<CallError>, deadline: bool, latencyMs: int)

  // One iteration: the context error seen before it, the call, and the one seen while backing off.
  datatype Turn = Turn(ctxBefore: Option<Cause>, call: ProviderCall, ctxBackoff: Option<Cause>)

  datatype Usage = Usage(
    id: Uuid, provider: string, model: string, promptKey: string, promptVersion: int, attemptCount: int,
    inputTokens: int, outputTokens: int, latencyMs: int, status: UsageStatus, errorCode: string)

  datatype GenerateResult = GenerateResult(
    json: string, promptKey: string, promptVersion: int,
    provider: string, model: string, inputTokens: int, outputTokens: int)

  const UNREPORTED_SUFFIX := ":usage_unreported"

  // ---- One provider call ----

  predicate InTime(call: ProviderCall) {
    call.err.None? && !call.deadline
  }

  predicate TimedOutCall(call: ProviderCall) {
    || call.deadline
    || (call.err.Some? && (call.err.value.cause == ErrTimeout || call.err.value.cause == DeadlineExceeded))
  }

  // callErr as the loop leaves it after this call.
  function Failure(call: ProviderCall): Option<CallError> {
    if InTime(call) then None
    else if TimedOutCall(call) then Some(PlainError(ErrTimeout))
    else call.err
  }

  predicate Retryable(call: ProviderCall) {
    Failure(call).Some? && Failure(call).value.ProviderError? && Failure(call).value.temporary
  }

  // Receipts when the provider kept any, otherwise one attempt on the gateway's own account.
  function AttemptsOf(request: Request, call: ProviderCall): seq<Attempt> {
    if call.response.Some? && call.response.value.attempts.Some? then call.response.value.attempts.value
    else [Unreceipted(request, call)]
  }

  function Unreceipted(request: Request, call: ProviderCall): Attempt {
    var response := call.response.GetOr(EMPTY_RESPONSE);
    Attempt(NIL_UUID,
      if response.provider != "" then response.provider else request.provider,
      if response.model != "" then response.model else request.model,
      if InTime(call) then Succeeded else if TimedOutCall(call) then TimedOut else Failed,
      if InTime(call) then "" else if TimedOutCall(call) then "timeout"
      else if call.err.value.ProviderError? then call.err.value.code else "provider_error",
      call.response.Some? && call.err.None?,
      response.inputTokens, response.outputTokens, call.latencyMs)
  }

  // ---- The whole loop ----

  datatype LoopEnd = LoopEnd(count: nat, err: Option<CallError>)

  // How the loop ends once n calls were made and retried.
  function Loop(turns: nat -> Turn, max: nat, n: nat, err: Option<CallError>): (end: LoopEnd)
    requires n <= max
    ensures n <= end.count <= max
    decreases max - n
  {
    if n == max then LoopEnd(n, err)
    else if turns(n).ctxBefore.Some? then LoopEnd(n, Some(PlainError(turns(n).ctxBefore.value)))
    else
      var failure := Failure(turns(n).call);
      if !Retryable(turns(n).call) || n + 1 == max then LoopEnd(n + 1, failure)
      else if turns(n).ctxBackoff.Some? then LoopEnd(n + 1, Some(PlainError(turns(n).ctxBackoff.value)))
      else Loop(turns, max, n + 1, failure)
  }

  // The physical attempts of the first n calls, in order.
  function Physical(request: Request, turns: nat -> Turn, n: nat): seq<Attempt>
    decreases n
  {
    if n == 0 then [] else Physical(request, turns, n - 1) + AttemptsOf(request, turns(n - 1).call)
  }

  // The response variable after n calls.
  function LastResponse(turns: nat -> Turn, n: nat): Option<ProviderResponse> {
    if n == 0 then None else turns(n - 1).call.response
  }

  predicate OutputRejected(turns: nat -> Turn, end: LoopEnd, valid: string -> bool) {
    end.err.None? && (LastResponse(turns, end.count).None? || !valid(LastResponse(turns, end.count).value.json))
  }

  function FinalError(turns: nat -> Turn, end: LoopEnd, valid: string -> bool): Option<CallError> {
    if OutputRejected(turns, end, valid) then Some(PlainError(ErrInvalidOutput)) else end.err
  }

  // Output that fails validation is charged to the last physical attempt.
  function Charged(physical: seq<Attempt>, rejected: bool): (charged: seq<Attempt>)
    ensures |charged| == |physical|
    ensures SumInput(charged) == SumInput(physical) && SumOutput(charged) == SumOutput(physical)
  {
    if !rejected || physical == [] then physical
    else
      var last := |physical| - 1;
      var charged := physical[last := physical[last].(status := InvalidOutput, errorCode := "schema_validation")];
      assert charged[..last] == physical[..last];
      charged
  }

  // ---- Rows ----

  function RowOf(request: Request, prompt: Prompt, a: Attempt, freshId: Uuid): Usage {
    Usage(if a.id == NIL_UUID then freshId else a.id, a.provider, a.model, prompt.key, prompt.version, 1,
      a.inputTokens, a.outputTokens, a.latencyMs, a.status,
      if a.usageReported then a.errorCode else a.errorCode + UNREPORTED_SUFFIX)
  }

  // A usage row, field by field: the attempt's own figures under the prompt it was made for, and a code
  // that is marked exactly when the provider did not report the usage.
  predicate RowSays(row: Usage, prompt: Prompt, a: Attempt, freshId: Option<Uuid>) {
    && (a.id != 0 ==> row.id == a.id)
    && (a.id == 0 ==> Some(row.id) == freshId)
    && row.provider == a.provider && row.model == a.model
    && row.promptKey == prompt.key && row.promptVersion == prompt.version && row.attemptCount == 1
    && row.inputTokens == a.inputTokens && row.outputTokens == a.outputTokens && row.latencyMs == a.latencyMs
    && row.status == a.status
    && (a.usageReported ==> row.errorCode == a.errorCode)
    && (!a.usageReported ==> row.errorCode == a.errorCode + ":usage_unreported")
  }

  predicate Identified(a: Attempt, newId: Option<Uuid>) {
    a.id != NIL_UUID || newId.Some?
  }

  // The first attempt whose ID cannot be generated, or the number of attempts.
  function FirstUnidentified(physical: seq<Attempt>, newId: nat -> Option<Uuid>, from: nat): (k: nat)
    requires from <= |physical|
    ensures from <= k <= |physical|
    decreases |physical| - from
  {
    if from < |physical| && Identified(physical[from], newId(from))
    then FirstUnidentified(physical, newId, from + 1) else from
  }

  function Rows(
    request: Request, prompt: Prompt, physical: seq<Attempt>, newId: nat -> Option<Uuid>, n: nat): (rows: seq<Usage>)
    requires n <= |physical|
    ensures |rows| == n
    decreases n
  {
    if n == 0 then []
    else Rows(request, prompt, physical, newId, n - 1) +
         [RowOf(request, prompt, physical[n - 1], newId(n - 1).GetOr(NIL_UUID))]
  }

  function RowInput(rows: seq<Usage>): int {
    if rows == [] then 0 else RowInput(rows[..|rows| - 1]) + rows[|rows| - 1].inputTokens
  }

  function RowOutput(rows: seq<Usage>): int {
    if rows == [] then 0 else RowOutput(rows[..|rows| - 1]) + rows[|rows| - 1].outputTokens
  }

  predicate AllStored(storeOk: nat -> bool, n: nat) {
    n == 0 || (AllStored(storeOk, n - 1) && storeOk(n - 1))
  }

  // ---- What one Generate call leaves behind, stated from the environment alone ----

  datatype Environment = Environment(
    turns: nat -> Turn, valid: string -> bool, newId: nat -> Option<Uuid>, storeOk: nat -> bool)

  function EndOf(env: Environment, max: nat): (end: LoopEnd)
    ensures end.count <= max
  {
    Loop(env.turns, max, 0, None)
  }

  function ChargedAttempts(request: Request, env: Environment, max: nat): seq<Attempt> {
    var end := EndOf(env, max);
    Charged(Physical(request, env.turns, end.count), OutputRejected(env.turns, end, env.valid))
  }

  function RowsOf(request: Request, prompt: Prompt, env: Environment, max: nat): seq<Usage> {
    var attempts := ChargedAttempts(request, env, max);
    Rows(request, prompt, attempts, env.newId, FirstUnidentified(attempts, env.newId, 0))
  }

  // Every physical attempt got its row.
  predicate Audited(request: Request, prompt: Prompt, env: Environment, max: nat) {
    |RowsOf(request, prompt, env, max)| == |ChargedAttempts(request, env, max)|
  }

  function OutcomeOf(request: Request, prompt: Prompt, env: Environment, max: nat): Result<GenerateResult, CallError> {
    var end := EndOf(env, max);
    var rows := RowsOf(request, prompt, env, max);
    if !Audited(request, prompt, env, max) then Err(PlainError(OtherCause))
    else if FinalError(env.turns, end, env.valid).Some? then Err(FinalError(env.turns, end, env.valid).value)
    else if !AllStored(env.storeOk, |rows|) then Err(PlainError(OtherCause))
    else
      var response := LastResponse(env.turns, end.count).value;
      Ok(GenerateResult(response.json, prompt.key, prompt.version,
        if response.provider != "" then response.provider else request.provider,
        if response.model != "" then response.model else request.model,
        RowInput(rows), RowOutput(rows)))
  }

  class Gateway {
    const maxAttempts: nat
    // InsertUsage calls made so far, and those that succeeded.
    var attempted: seq<Usage>
    var stored: seq<Usage>

    constructor (maxAttempts: nat)
      requires maxAttempts > 0
      ensures this.maxAttempts == maxAttempts && attempted == stored == []
    {
      this.maxAttempts := maxAttempts;
      attempted, stored := [], [];
    }

    // for attempts < g.config.MaxAttempts
    method CallProvider(request: Request, turns: nat -> Turn)
      returns (physical: seq<Attempt>, response: Option<ProviderResponse>, callErr: Option<CallError>)
      ensures var end := Loop(turns, maxAttempts, 0, None);
              && physical == Physical(request, turns, end.count)
              && response == LastResponse(turns, end.count)
              && callErr == end.err
    {
      physical, response, callErr := [], None, None;
      var attempts := 0;
      while attempts < maxAttempts
        invariant attempts <= maxAttempts
        invariant Loop(turns, maxAttempts, 0, None) == Loop(turns, maxAttempts, attempts, callErr)
        invariant physical == Physical(request, turns, attempts)
        invariant response == LastResponse(turns, attempts)
      {
        if turns(attempts).ctxBefore.Some? {
          callErr := Some(PlainError(turns(attempts).ctxBefore.value));
          break;
        }
        var call := turns(attempts).call;
        var backoff := turns(attempts).ctxBackoff;
        attempts := attempts + 1;
        response, callErr := call.response, call.err;
        physical := physical + AttemptsOf(request, call);
        if callErr.None? && !call.deadline {
          break;
        }
        if TimedOutCall(call) {
          callErr := Some(PlainError(ErrTimeout));
        }
        var retry := callErr.value.ProviderError? && callErr.value.temporary;
        if !retry || attempts == maxAttempts {
          break;
        }
        if backoff.Some? {
          callErr := Some(PlainError(backoff.value));
          break;
        }
      }
    }

    /** Generate, from the moment the call holds a concurrency slot. */
    method Generate(request: Request, prompt: Prompt, env: Environment)
      returns (outcome: Result<GenerateResult, CallError>)
      modifies this
      ensures attempted == old(attempted) + RowsOf(request, prompt, env, maxAttempts)
      ensures outcome == OutcomeOf(request, prompt, env, maxAttempts)
      ensures outcome.Ok? ==> stored == old(stored) + RowsOf(request, prompt, env, maxAttempts)
    {
      var physical, response, callErr := CallProvider(request, env.turns);
      if callErr.None? && (response.None? || !env.valid(response.value.json)) {
        callErr := Some(PlainError(ErrInvalidOutput));
        if |physical| > 0 {
          var last := |physical| - 1;
          physical := physical[last := physical[last].(status := InvalidOutput, errorCode := "schema_validation")];
        }
      }
      assert physical == ChargedAttempts(request, env, maxAttempts);
      var complete, allStored, input, output := RecordUsage(request, prompt, physical, env);
      if !complete {
        return Err(PlainError(OtherCause));
      }
      if !allStored && callErr.None? {
        return Err(PlainError(OtherCause));
      }
      if callErr.Some? {
        return Err(callErr.value);
      }
      var provider := if response.value.provider != "" then response.value.provider else request.provider;
      var model := if response.value.model != "" then response.value.model else request.model;
      return Ok(GenerateResult(response.value.json, prompt.key, prompt.version, provider, model, input, output));
    }

    // The loop body for one physical attempt: identify it, build its row, store it.
    method RecordAttempt(request: Request, prompt: Prompt, a: Attempt, newId: Option<Uuid>, ok: bool)
      returns (row: Usage)
      requires Identified(a, newId)
      modifies this
      ensures row == RowOf(request, prompt, a, newId.GetOr(NIL_UUID)) && RowSays(row, prompt, a, newId)
      ensures attempted == old(attempted) + [row]
      ensures stored == if ok then old(stored) + [row] else old(stored)
    {
      var id := if a.id == NIL_UUID then newId.value else a.id;
      var errorCode := if a.usageReported then a.errorCode else a.errorCode + UNREPORTED_SUFFIX;
      row := Usage(id, a.provider, a.model, prompt.key, prompt.version, 1,
                   a.inputTokens, a.outputTokens, a.latencyMs, a.status, errorCode);
      attempted := attempted + [row];
      if ok {
        stored := stored + [row];
      }
    }

    // One InsertUsage per physical attempt; an ID that cannot be generated abandons the rest.
    method RecordUsage(request: Request, prompt: Prompt, physical: seq<Attempt>, env: Environment)
      returns (complete: bool, allStored: bool, input: int, output: int)
      modifies this
      ensures var n := FirstUnidentified(physical, env.newId, 0);
              var rows := Rows(request, prompt, physical, env.newId, n);
              && complete == (n == |physical|)
              && attempted == old(attempted) + rows
              && allStored == AllStored(env.storeOk, n)
              && (allStored ==> stored == old(stored) + rows)
              && input == RowInput(rows) && output == RowOutput(rows)
    {
      complete, allStored, input, output := true, true, 0, 0;
      ghost var rows: seq<Usage> := [];
      for i := 0 to |physical|
        invariant FirstUnidentified(physical, env.newId, 0) == FirstUnidentified(physical, env.newId, i)
        invariant rows == Rows(request, prompt, physical, env.newId, i)
        invariant attempted == old(attempted) + rows
        invariant allStored == AllStored(env.storeOk, i)
        invariant allStored ==> stored == old(stored) + rows
        invariant input == RowInput(rows) && output == RowOutput(rows)
      {
        if !Identified(physical[i], env.newId(i)) {
          complete := false;
          return;
        }
        var ok := env.storeOk(i);
        var row := RecordAttempt(request, prompt, physical[i], env.newId(i), ok);
        allStored := allStored && ok;
        input, output := input + row.inputTokens, output + row.outputTokens;
        AppendRow(old(attempted), rows, row);
        AppendRow(old(stored), rows, row);
        rows := rows + [row];
      }
    }
  }

  lemma AppendRow(table: seq<Usage>, rows: seq<Usage>, row: Usage)
    ensures (table + rows) + [row] == table + (rows + [row])
    ensures RowInput(rows + [row]) == RowInput(rows) + row.inputTokens
    ensures RowOutput(rows + [row]) == RowOutput(rows) + row.outputTokens
  {
    assert (rows + [row])[..|rows|] == rows;
  }
}
