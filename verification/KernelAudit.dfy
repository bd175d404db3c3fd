/** The producer and the reader compose: what the reader makes of a whole stream, and of any cut one. */
module KernelAudit {
  import opened Wrappers
  import opened Receipts
  import opened KernelStream
  import opened KernelProducer

  // What the request model and the fresh UUIDs of the producer guarantee.
  predicate Supplied(config: Config, calls: seq<Call>) {
    && config.provider != "" && config.model != ""
    && 1 <= config.maxAttempts <= 5 && config.maxAttempts <= |calls|
    && (forall i | 0 <= i < |calls| :: calls[i].id != NIL_UUID)
    && (forall i, j | 0 <= i < j < |calls| :: calls[i].id != calls[j].id)
    && (forall i | 0 <= i < |calls| :: Judge(calls[i].outcome).Success? ==> Judge(calls[i].outcome).document != "")
  }

  function PlaceholderAll(config: Config, calls: seq<Call>, n: nat): (placeholders: seq<Attempt>)
    requires n <= |calls|
    ensures |placeholders| == n
  {
    seq(n, i requires 0 <= i < n => Placeholder(config, calls[i]))
  }

  // The IDs that have finished after n whole rounds are the first n.
  predicate RoundsRead(config: Config, calls: seq<Call>, n: nat, log: seq<Event>)
    requires n <= |calls|
  {
    && ValidReceipts(log)
    && Starts(log) == PlaceholderAll(config, calls, n)
    && (forall i | 0 <= i < n :: FinishOf(log, calls[i].id) == Some(Settled(config, calls[i])))
    && (forall i | n <= i < |calls| :: FinishOf(log, calls[i].id) == None)
  }

  lemma RoundsLedger(config: Config, calls: seq<Call>, n: nat, log: seq<Event>)
    requires n <= |calls| && RoundsRead(config, calls, n, log)
    ensures Ledger(log) == SettledAll(config, calls, n) && AllFinished(log)
  {
    forall i | 0 <= i < n
      ensures Ledger(log)[i] == Settled(config, calls[i]) && FinishOf(log, Starts(log)[i].id).Some?
    {
      assert Starts(log)[i].id == calls[i].id;
    }
  }

  // After n whole rounds the next started receipt is legal and shows up as a placeholder.
  lemma StartRound(config: Config, calls: seq<Call>, n: nat, log: seq<Event>)
    requires Supplied(config, calls) && n < config.maxAttempts
    requires RoundsRead(config, calls, n, log)
    ensures var start := AttemptStarted(Placeholder(config, calls[n]));
            && MayFollow(log, start)
            && ValidReceipts(log + [start])
            && Starts(log + [start]) == PlaceholderAll(config, calls, n + 1)
            && Ledger(log + [start]) == SettledAll(config, calls, n) + [Placeholder(config, calls[n])]
            && forall i | 0 <= i < |calls| :: FinishOf(log + [start], calls[i].id) == FinishOf(log, calls[i].id)
  {
    var start := AttemptStarted(Placeholder(config, calls[n]));
    assert !HasStarted(log, calls[n].id) by {
      forall i | 0 <= i < n ensures Starts(log)[i].id != calls[n].id {
        assert Starts(log)[i].id == calls[i].id;
      }
    }
    LedgerGrows(log, start);
    RoundsLedger(config, calls, n, log);
  }

  lemma FinishMayFollow(config: Config, calls: seq<Call>, n: nat, log: seq<Event>)
    requires Supplied(config, calls) && n < config.maxAttempts
    requires RoundsRead(config, calls, n, log)
    ensures var started := log + [AttemptStarted(Placeholder(config, calls[n]))];
      ValidReceipts(started) && MayFollow(started, AttemptFinished(Settled(config, calls[n])))
  {
    var started := log + [AttemptStarted(Placeholder(config, calls[n]))];
    StartRound(config, calls, n, log);
    assert Starts(started)[n] == Placeholder(config, calls[n]);
    assert StartedWith(started, calls[n].id, config.provider, config.model);
  }

  lemma FinishRound(config: Config, calls: seq<Call>, n: nat, log: seq<Event>)
    requires Supplied(config, calls) && n < config.maxAttempts
    requires RoundsRead(config, calls, n, log)
    ensures RoundsRead(config, calls, n + 1, log +
              [AttemptStarted(Placeholder(config, calls[n])), AttemptFinished(Settled(config, calls[n]))])
  {
    var start, finish := AttemptStarted(Placeholder(config, calls[n])), AttemptFinished(Settled(config, calls[n]));
    var started := log + [start];
    FinishMayFollow(config, calls, n, log);
    LedgerGrows(started, finish);
    assert RoundsRead(config, calls, n + 1, started + [finish]) by {
      StartRound(config, calls, n, log);
    }
    assert log + [start, finish] == started + [finish];
  }

  lemma {:induction false} ReadRounds(config: Config, calls: seq<Call>, n: nat)
    requires Supplied(config, calls) && n <= config.maxAttempts
    ensures RoundsRead(config, calls, n, ReceiptEvents(config, calls, n))
  {
    if n > 0 {
      ReadRounds(config, calls, n - 1);
      FinishRound(config, calls, n - 1, ReceiptEvents(config, calls, n - 1));
    }
  }

  lemma TakeOfConcat(a: seq<Event>, b: seq<Event>, k: nat)
    requires k <= |a|
    ensures (a + b)[..k] == a[..k]
  {
  }

  lemma {:induction false} RoundsPrefix(config: Config, calls: seq<Call>, m: nat, n: nat)
    requires m <= n <= |calls|
    ensures ReceiptEvents(config, calls, n)[..2 * m] == ReceiptEvents(config, calls, m)
    ensures m < n ==> ReceiptEvents(config, calls, n)[2 * m] == AttemptStarted(Placeholder(config, calls[m]))
  {
    if m < n {
      RoundsPrefix(config, calls, m, n - 1);
      TakeOfConcat(ReceiptEvents(config, calls, n - 1),
        [AttemptStarted(Placeholder(config, calls[n - 1])), AttemptFinished(Settled(config, calls[n - 1]))], 2 * m);
    }
  }

  // The first event that is not a legal receipt is where the reader stops.
  lemma {:induction false} StopsAt(events: seq<Event>, from: nat, k: nat)
    requires from <= k <= |events| && ValidReceipts(events[..k])
    requires k < |events| ==> !MayFollow(events[..k], events[k])
    ensures StopIndex(events, from) == k
    decreases k - from
  {
    if from < k {
      LegalBefore(events, from, k);
      StopsAt(events, from + 1, k);
    }
  }

  lemma {:induction false} LegalBefore(events: seq<Event>, i: nat, k: nat)
    requires i < k <= |events| && ValidReceipts(events[..k])
    ensures MayFollow(events[..i], events[i])
  {
    assert events[..k][..k - 1] == events[..k - 1];
    if i < k - 1 {
      LegalBefore(events, i, k - 1);
    }
  }

  // ---- The run of the producer ----

  // Only a conforming document settles as succeeded and is answered with 200.
  lemma VerdictAnswer(config: Config, call: Call, settled: seq<Attempt>)
    ensures var verdict := Judge(call.outcome);
            var exit := Answer(config, verdict, settled);
            && (Settled(config, call).status == Succeeded <==> verdict.Success?)
            && (verdict.Success? <==> exit.Returned? && exit.response.status == 200)
            && (!verdict.Success? && exit.Returned? ==>
                  exit.response.status >= 400 && exit.response.body.ErrorBody? && exit.response.body.code != "")
  {
  }

  /** The loop always returns or raises on its own: the trailing fallback error is never produced.
      A receipt says `succeeded` exactly when it is the last one of a run that answers 200. */
  lemma RunOutcome(config: Config, calls: seq<Call>)
    requires Supplied(config, calls)
    ensures var n := CallCount(config, calls, 0);
            && n >= 1 && Ending(config, calls, n) == Some(ExitOf(config, Ready, calls))
            && (forall i | 0 <= i < n - 1 :: Settled(config, calls[i]).status != Succeeded)
            && (Settled(config, calls[n - 1]).status == Succeeded <==>
                ExitOf(config, Ready, calls).Returned? && ExitOf(config, Ready, calls).response.status == 200)
  {
    var n := CallCount(config, calls, 0);
    VerdictAnswer(config, calls[n - 1], SettledAll(config, calls, n));
    forall i | 0 <= i < n - 1 ensures Settled(config, calls[i]).status != Succeeded {
      assert !EndsAt(config, calls, i);
      VerdictAnswer(config, calls[i], []);
    }
  }

  // ---- Whole streams ----

  function Stream(config: Config, preflight: Preflight, calls: seq<Call>): seq<Event>
    requires config.maxAttempts <= |calls|
  {
    AllReceipts(config, preflight, calls) + [ResultOf(ExitOf(config, preflight, calls))]
  }

  // The receipts of whole rounds never stop the reader.
  lemma ReadToResult(config: Config, calls: seq<Call>, n: nat, event: Event, ctxErr: Option<Cause>)
    requires Supplied(config, calls) && n <= config.maxAttempts && event.ResultEvent?
    ensures var log := ReceiptEvents(config, calls, n);
            && Consume(log + [event], ctxErr) == Conclude(log, event.status, event.body)
            && Ledger(log) == SettledAll(config, calls, n) && AllFinished(log)
  {
    var log := ReceiptEvents(config, calls, n);
    ReadRounds(config, calls, n);
    RoundsLedger(config, calls, n, log);
    assert (log + [event])[..|log|] == log;
    StopsAt(log + [event], 0, |log|);
  }

  // The list of receipts a finished run leaves behind.
  function FinalAttempts(config: Config, preflight: Preflight, calls: seq<Call>): seq<Attempt>
    requires config.maxAttempts <= |calls|
  {
    SettledAll(config, calls, if preflight.Ready? then CallCount(config, calls, 0) else 0)
  }

  // The result events the producer emits after receipts `settled`.
  predicate ProducerResult(config: Config, settled: seq<Attempt>, event: Event) {
    event.ResultEvent? &&
    match event.body
    case SuccessBody(version, provider, model, json, input, output) =>
      && event.status == 200 && version == 2 && json != "" && settled != []
      && provider == config.provider && model == config.model
      && input == SumInput(settled) && output == SumOutput(settled)
    case ErrorBody(code, _) => event.status >= 400 && code != ""
    case Undecodable => false
  }

  // What the reader should report for such an event.
  predicate Reported(settled: seq<Attempt>, event: Event, result: ProviderResponse, err: Option<CallError>)
    requires event.ResultEvent?
  {
    && result.attempts == Some(settled)
    && result.inputTokens == SumInput(settled) && result.outputTokens == SumOutput(settled)
    && match event.body
       case SuccessBody(_, provider, model, json, _, _) =>
         err == None && result.json == json && result.provider == provider && result.model == model
       case ErrorBody(code, _) => err == Some(ProviderError(code, false, ClassifyCode(code)))
       case Undecodable => false
  }

  lemma ConcludeReports(config: Config, log: seq<Event>, settled: seq<Attempt>, event: Event)
    requires Ledger(log) == settled && AllFinished(log) && ProducerResult(config, settled, event)
    ensures var (result, err) := Conclude(log, event.status, event.body);
            Reported(settled, event, result, err)
  {
  }

  lemma RunResult(config: Config, preflight: Preflight, calls: seq<Call>)
    requires Supplied(config, calls)
    ensures ProducerResult(config, FinalAttempts(config, preflight, calls), ResultOf(ExitOf(config, preflight, calls)))
  {
    if preflight.Ready? {
      var n := CallCount(config, calls, 0);
      RunOutcome(config, calls);
      VerdictAnswer(config, calls[n - 1], SettledAll(config, calls, n));
    }
  }

  // The codes of the reader's own errors.
  predicate ReaderCode(code: string) {
    code in ["kernel_invalid_event", "kernel_invalid_receipt", "kernel_invalid_response",
             "kernel_incomplete_receipt", "kernel_response_read"]
  }

  // The codes a run can answer with.
  predicate RunCode(code: string) {
    code in ["invalid_schema", "invalid_image", "output_truncated", "invalid_structured_output", "timeout",
             "quota_exhausted", "rate_limited", "provider_unavailable", "authentication_failed",
             "invalid_request", "internal_error"]
  }

  lemma OwnCodes(code: string)
    requires RunCode(code)
    ensures !ReaderCode(code)
  {
    assert code[0] != 'k';
  }

  lemma AnswerCode(config: Config, verdict: Verdict, settled: seq<Attempt>)
    ensures var body := ResultOf(Answer(config, verdict, settled)).body; body.ErrorBody? ==> RunCode(body.code)
  {
  }

  lemma RunCodes(config: Config, preflight: Preflight, calls: seq<Call>)
    requires Supplied(config, calls)
    ensures var body := ResultOf(ExitOf(config, preflight, calls)).body; body.ErrorBody? ==> RunCode(body.code)
  {
    if preflight.Ready? {
      var n := CallCount(config, calls, 0);
      RunOutcome(config, calls);
      AnswerCode(config, Judge(calls[n - 1].outcome), SettledAll(config, calls, n));
    }
  }

  /** Every whole stream is read to its result event: the attempts are the producer's list, the token
      sums are those of that list, a success is returned as it was sent, and an error carries the
      producer's own code. None of the reader's protocol errors can come out. */
  lemma WholeStream(config: Config, preflight: Preflight, calls: seq<Call>, ctxErr: Option<Cause>)
    requires Supplied(config, calls)
    ensures var settled := FinalAttempts(config, preflight, calls);
            var event := ResultOf(ExitOf(config, preflight, calls));
            var (result, err) := Consume(Stream(config, preflight, calls), ctxErr);
            && ProducerResult(config, settled, event) && Reported(settled, event, result, err)
            && (err.Some? ==> err.value.ProviderError? && RunCode(err.value.code) && !ReaderCode(err.value.code))
  {
    var n := if preflight.Ready? then CallCount(config, calls, 0) else 0;
    var event := ResultOf(ExitOf(config, preflight, calls));
    RunResult(config, preflight, calls);
    RunCodes(config, preflight, calls);
    ReadToResult(config, calls, n, event, ctxErr);
    ConcludeReports(config, ReceiptEvents(config, calls, n), SettledAll(config, calls, n), event);
    if event.body.ErrorBody? {
      OwnCodes(event.body.code);
    }
  }

  // ---- Cut streams ----

  // What can be known after k receipt events: finals for the whole rounds, and at most one open call.
  function KnownAttempts(config: Config, calls: seq<Call>, k: nat): (known: seq<Attempt>)
    requires k <= 2 * |calls|
    ensures |known| == (k + 1) / 2
  {
    SettledAll(config, calls, k / 2) + if k % 2 == 1 then [Placeholder(config, calls[k / 2])] else []
  }

  lemma TakeOneMore(events: seq<Event>, k: nat)
    requires k < |events|
    ensures events[..k + 1] == events[..k] + [events[k]]
  {
  }

  lemma CutEvents(config: Config, calls: seq<Call>, n: nat, k: nat)
    requires n <= |calls| && k <= 2 * n
    ensures ReceiptEvents(config, calls, n)[..k] == ReceiptEvents(config, calls, k / 2) +
              if k % 2 == 1 then [AttemptStarted(Placeholder(config, calls[k / 2]))] else []
  {
    RoundsPrefix(config, calls, k / 2, n);
    if k % 2 == 1 {
      TakeOneMore(ReceiptEvents(config, calls, n), k - 1);
    }
  }

  lemma CutLog(config: Config, calls: seq<Call>, n: nat, k: nat)
    requires Supplied(config, calls) && n <= config.maxAttempts && k <= 2 * n
    ensures var cut := ReceiptEvents(config, calls, n)[..k];
            && ValidReceipts(cut)
            && Starts(cut) == PlaceholderAll(config, calls, (k + 1) / 2)
            && Ledger(cut) == KnownAttempts(config, calls, k)
  {
    var whole := ReceiptEvents(config, calls, k / 2);
    CutEvents(config, calls, n, k);
    ReadRounds(config, calls, k / 2);
    if k % 2 == 1 {
      StartRound(config, calls, k / 2, whole);
    } else {
      RoundsLedger(config, calls, k / 2, whole);
      assert whole + [] == whole;
      assert SettledAll(config, calls, k / 2) + [] == SettledAll(config, calls, k / 2);
    }
  }

  /** However many receipt events arrive before the stream breaks, the reader returns one attempt for
      each started call, in order: final values for those that finished, and only the last one may
      still be the unreported placeholder. The error is never temporary. */
  lemma CutStream(config: Config, calls: seq<Call>, n: nat, k: nat, ctxErr: Option<Cause>)
    requires Supplied(config, calls) && n <= config.maxAttempts && k <= 2 * n
    ensures var cut := ReceiptEvents(config, calls, n)[..k];
            var (result, err) := Consume(cut, ctxErr);
            && Starts(cut) == PlaceholderAll(config, calls, (k + 1) / 2)
            && result == EMPTY_RESPONSE.(attempts := if k == 0 then None else Some(KnownAttempts(config, calls, k)))
            && err == Some(if ctxErr.Some? then PlainError(ctxErr.value)
                           else ProviderError("kernel_response_read", false, ErrProvider))
  {
    var cut := ReceiptEvents(config, calls, n)[..k];
    CutLog(config, calls, n, k);
    assert cut[..k] == cut;
    StopsAt(cut, 0, k);
  }
}
