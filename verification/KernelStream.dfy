/** The Go side of the receipt protocol: readKernelStream validates the event stream. */
module KernelStream {
  import opened Wrappers
  import opened Receipts

  const PROTOCOL_VERSION := 2
  const MAX_RECEIPTS := 5

  // ---- What a well-behaved receipt log is, independently of how it is read ----

  predicate WellFormed(a: Attempt) {
    && a.id != NIL_UUID && a.provider != "" && a.model != ""
    && a.inputTokens >= 0 && a.outputTokens >= 0 && a.latencyMs >= 0
    && !a.status.OtherStatus?
  }

  // The started receipts, in stream order.
  function Starts(events: seq<Event>): seq<Attempt> {
    if events == [] then []
    else
      var before := Starts(events[..|events| - 1]);
      match events[|events| - 1]
      case AttemptStarted(a) => before + [a]
      case _ => before
  }

  // The first finished receipt carrying this ID, if any.
  function FinishOf(events: seq<Event>, id: Uuid): Option<Attempt> {
    if events == [] then None
    else
      var before := FinishOf(events[..|events| - 1], id);
      if before.Some? then before
      else
        match events[|events| - 1]
        case AttemptFinished(a) => if a.id == id then Some(a) else None
        case _ => None
  }

  predicate StartedWith(events: seq<Event>, id: Uuid, provider: string, model: string) {
    exists i | 0 <= i < |Starts(events)| ::
      var s := Starts(events)[i]; s.id == id && s.provider == provider && s.model == model
  }

  predicate HasStarted(events: seq<Event>, id: Uuid) {
    exists i | 0 <= i < |Starts(events)| :: Starts(events)[i].id == id
  }

  // `event` is a receipt that may legally follow the receipts `log`.
  predicate MayFollow(log: seq<Event>, event: Event) {
    match event
    case AttemptStarted(a) =>
      WellFormed(a) && !HasStarted(log, a.id) && |Starts(log)| < MAX_RECEIPTS
    case AttemptFinished(a) =>
      WellFormed(a) && FinishOf(log, a.id).None? && StartedWith(log, a.id, a.provider, a.model)
    case _ => false
  }

  predicate ValidReceipts(events: seq<Event>) {
    events == [] ||
    var before := events[..|events| - 1];
    ValidReceipts(before) && MayFollow(before, events[|events| - 1])
  }

  // One entry per started receipt, in order, with the finished value once there is one.
  function Ledger(events: seq<Event>): (ledger: seq<Attempt>)
    ensures |ledger| == |Starts(events)|
  {
    seq(|Starts(events)|, i requires 0 <= i < |Starts(events)| =>
      var s := Starts(events)[i]; FinishOf(events, s.id).GetOr(s))
  }

  predicate AllFinished(events: seq<Event>) {
    forall i | 0 <= i < |Starts(events)| :: FinishOf(events, Starts(events)[i].id).Some?
  }

  // The first event from `from` on that is not a legal receipt, or the length of the stream.
  function StopIndex(events: seq<Event>, from: nat): (k: nat)
    requires from <= |events|
    ensures from <= k <= |events|
    ensures ValidReceipts(events[..from]) ==> ValidReceipts(events[..k])
    ensures k < |events| ==> !MayFollow(events[..k], events[k])
    decreases |events| - from
  {
    if from < |events| && MayFollow(events[..from], events[from]) then
      assert events[..from + 1][..from] == events[..from];
      StopIndex(events, from + 1)
    else from
  }

  // ---- What the reader returns, given where the receipts stop ----

  function ClassifyCode(code: string): Cause {
    if code == "timeout" then ErrTimeout
    else if code == "invalid_schema" || code == "invalid_structured_output" || code == "output_truncated"
    then ErrInvalidOutput
    else ErrProvider
  }

  function Rejection(code: string): CallError {
    ProviderError(code, false, ErrInvalidOutput)
  }

  // How a result event closes a stream whose receipts are `log`.
  function Conclude(log: seq<Event>, status: int, body: Body): (ProviderResponse, Option<CallError>) {
    var ledger := Ledger(log);
    var open := EMPTY_RESPONSE.(attempts := Some(ledger));
    if !AllFinished(log) then (open, Some(Rejection("kernel_incomplete_receipt")))
    else
      var summed := open.(inputTokens := SumInput(ledger), outputTokens := SumOutput(ledger));
      if status < 200 || status >= 300 then
        if !body.ErrorBody? || body.code == "" then (summed, Some(Rejection("kernel_invalid_response")))
        else (summed, Some(ProviderError(body.code, false, ClassifyCode(body.code))))
      else if !body.SuccessBody? || body.version != PROTOCOL_VERSION || body.json == "" || ledger == [] then
        (summed, Some(Rejection("kernel_invalid_response")))
      else
        (summed.(json := body.json, provider := body.provider, model := body.model), None)
  }

  // A nil attempts slice becomes non-nil with the first started receipt.
  function Receipted(log: seq<Event>): ProviderResponse {
    if Starts(log) == [] then EMPTY_RESPONSE else EMPTY_RESPONSE.(attempts := Some(Ledger(log)))
  }

  function Consume(events: seq<Event>, ctxErr: Option<Cause>): (ProviderResponse, Option<CallError>) {
    var k := StopIndex(events, 0);
    var log := events[..k];
    if k == |events| then
      (Receipted(log),
       if ctxErr.Some? then Some(PlainError(ctxErr.value))
       else Some(ProviderError("kernel_response_read", false, ErrProvider)))
    else
      match events[k]
      case ResultEvent(status, body) => Conclude(log, status, body)
      case UnknownEvent(_) => (Receipted(log), Some(Rejection("kernel_invalid_event")))
      case _ => (Receipted(log), Some(Rejection("kernel_invalid_receipt")))
  }

  // ---- Facts about logs ----

  lemma LedgerGrows(log: seq<Event>, event: Event)
    requires ValidReceipts(log) && MayFollow(log, event)
    ensures ValidReceipts(log + [event])
    ensures event.AttemptStarted? ==>
              && Starts(log + [event]) == Starts(log) + [event.attempt]
              && Ledger(log + [event]) == Ledger(log) + [event.attempt]
    ensures event.AttemptFinished? ==> Starts(log + [event]) == Starts(log)
    ensures event.AttemptFinished? ==>
              forall i | 0 <= i < |Starts(log)| ::
                Ledger(log + [event])[i] ==
                if Starts(log)[i].id == event.attempt.id then event.attempt else Ledger(log)[i]
    ensures forall id :: FinishOf(log + [event], id) ==
                         if event.AttemptFinished? && event.attempt.id == id then Some(event.attempt)
                         else FinishOf(log, id)
  {
    var log' := log + [event];
    assert log'[..|log|] == log;
    if event.AttemptStarted? {
      FinishedWasStarted(log, event.attempt.id);
      forall i | 0 <= i < |Starts(log')| ensures Ledger(log')[i] == (Ledger(log) + [event.attempt])[i] {
        assert FinishOf(log', Starts(log')[i].id) == FinishOf(log, Starts(log')[i].id);
      }
    }
  }

  lemma {:induction false} FinishedWasStarted(log: seq<Event>, id: Uuid)
    requires ValidReceipts(log)
    ensures FinishOf(log, id).Some? ==> HasStarted(log, id) && FinishOf(log, id).value.id == id
  {
    if log != [] {
      var before, last := log[..|log| - 1], log[|log| - 1];
      FinishedWasStarted(before, id);
      assert Starts(before) <= Starts(log);
      if HasStarted(before, id) {
        var i :| 0 <= i < |Starts(before)| && Starts(before)[i].id == id;
        assert Starts(log)[i].id == id;
      }
    }
  }

  /** No ID is started twice, and there are at most five receipts. */
  lemma {:induction false} StartsAreDistinct(log: seq<Event>)
    requires ValidReceipts(log)
    ensures forall i, j | 0 <= i < j < |Starts(log)| :: Starts(log)[i].id != Starts(log)[j].id
    ensures |Starts(log)| <= MAX_RECEIPTS
  {
    if log != [] {
      StartsAreDistinct(log[..|log| - 1]);
    }
  }

  // An unfinished entry is still the started receipt; a finished one keeps its ID.
  lemma LedgerKeepsIds(log: seq<Event>)
    requires ValidReceipts(log)
    ensures forall i | 0 <= i < |Starts(log)| :: Ledger(log)[i].id == Starts(log)[i].id
  {
    forall i | 0 <= i < |Starts(log)| ensures Ledger(log)[i].id == Starts(log)[i].id {
      FinishedWasStarted(log, Starts(log)[i].id);
    }
  }

  // ---- The reader itself ----

  method IndexOf(attempts: seq<Attempt>, id: Uuid) returns (index: int)
    ensures -1 <= index < |attempts|
    ensures index >= 0 ==> attempts[index].id == id
    ensures index < 0 ==> forall i | 0 <= i < |attempts| :: attempts[i].id != id
  {
    for i := 0 to |attempts|
      invariant forall j | 0 <= j < i :: attempts[j].id != id
    {
      if attempts[i].id == id { return i; }
    }
    return -1;
  }

  // Both receipt cases: append a started receipt, or overwrite its entry with the finished one.
  method AdmitReceipt(ghost log: seq<Event>, event: Event, attempts: seq<Attempt>, finished: set<Uuid>)
    returns (ok: bool, attempts': seq<Attempt>, finished': set<Uuid>)
    requires event.AttemptStarted? || event.AttemptFinished?
    requires ValidReceipts(log) && attempts == Ledger(log)
    requires forall id :: id in finished <==> FinishOf(log, id).Some?
    ensures ok <==> MayFollow(log, event)
    ensures ok ==> attempts' == Ledger(log + [event])
    ensures ok ==> forall id :: id in finished' <==> FinishOf(log + [event], id).Some?
  {
    attempts', finished' := attempts, finished;
    var a := event.attempt;
    if a.id == NIL_UUID || a.provider == "" || a.model == "" ||
       a.inputTokens < 0 || a.outputTokens < 0 || a.latencyMs < 0 || a.status.OtherStatus? {
      return false, attempts', finished';
    }
    var index := IndexOf(attempts, a.id);
    LedgerKeepsIds(log);
    StartsAreDistinct(log);
    if event.AttemptStarted? {
      assert index >= 0 <==> HasStarted(log, a.id) by {
        if index >= 0 { assert Starts(log)[index].id == a.id; }
      }
      if index >= 0 || |attempts| >= MAX_RECEIPTS {
        return false, attempts', finished';
      }
      LedgerGrows(log, event);
      attempts' := attempts + [a];
    } else {
      if index >= 0 && a.id !in finished {
        UnfinishedEntry(log, index, a);
      }
      if index < 0 || a.id in finished || attempts[index].provider != a.provider || attempts[index].model != a.model {
        if index < 0 { NotStarted(log, a); }
        return false, attempts', finished';
      }
      LedgerGrows(log, event);
      attempts' := attempts[index := a];
      finished' := finished + {a.id};
      assert attempts' == Ledger(log + [event]);
    }
    ok := true;
  }

  // The entry a finish event would overwrite decides whether it may follow.
  lemma UnfinishedEntry(log: seq<Event>, index: nat, a: Attempt)
    requires ValidReceipts(log) && index < |Starts(log)|
    requires Ledger(log)[index].id == a.id && FinishOf(log, a.id).None?
    ensures StartedWith(log, a.id, a.provider, a.model) <==>
            Ledger(log)[index].provider == a.provider && Ledger(log)[index].model == a.model
  {
    LedgerKeepsIds(log);
    StartsAreDistinct(log);
    assert Ledger(log)[index] == Starts(log)[index];
    if StartedWith(log, a.id, a.provider, a.model) {
      var i :| 0 <= i < |Starts(log)| && Starts(log)[i].id == a.id &&
        Starts(log)[i].provider == a.provider && Starts(log)[i].model == a.model;
      assert i == index;
    }
  }

  lemma NotStarted(log: seq<Event>, a: Attempt)
    requires ValidReceipts(log)
    requires forall i | 0 <= i < |Ledger(log)| :: Ledger(log)[i].id != a.id
    ensures !StartedWith(log, a.id, a.provider, a.model)
  {
    LedgerKeepsIds(log);
    forall i | 0 <= i < |Starts(log)| ensures Starts(log)[i].id != a.id {
      assert Ledger(log)[i].id == Starts(log)[i].id;
    }
  }

  // The result event: check every receipt finished, sum tokens, then judge status and body.
  method CloseStream(ghost log: seq<Event>, attempts: seq<Attempt>, finished: set<Uuid>, status: int, body: Body)
    returns (result: ProviderResponse, err: Option<CallError>)
    requires ValidReceipts(log) && attempts == Ledger(log)
    requires forall id :: id in finished <==> FinishOf(log, id).Some?
    ensures (result, err) == Conclude(log, status, body)
  {
    result := EMPTY_RESPONSE.(attempts := Some(attempts));
    LedgerKeepsIds(log);
    for i := 0 to |attempts|
      invariant forall j | 0 <= j < i :: FinishOf(log, Starts(log)[j].id).Some?
    {
      if attempts[i].id !in finished {
        assert FinishOf(log, Starts(log)[i].id).None?;
        return result, Some(Rejection("kernel_incomplete_receipt"));
      }
    }
    var input, output := 0, 0;
    for i := 0 to |attempts|
      invariant input == SumInput(attempts[..i]) && output == SumOutput(attempts[..i])
    {
      assert attempts[..i + 1][..i] == attempts[..i];
      input, output := input + attempts[i].inputTokens, output + attempts[i].outputTokens;
    }
    assert attempts[..|attempts|] == attempts;
    result := result.(inputTokens := input, outputTokens := output);
    if status < 200 || status >= 300 {
      if !body.ErrorBody? || body.code == "" {
        return result, Some(Rejection("kernel_invalid_response"));
      }
      return result, Some(ProviderError(body.code, false, ClassifyCode(body.code)));
    }
    if !body.SuccessBody? || body.version != PROTOCOL_VERSION || body.json == "" || attempts == [] {
      return result, Some(Rejection("kernel_invalid_response"));
    }
    return result.(json := body.json, provider := body.provider, model := body.model), None;
  }

  // Reading one more legal receipt does not move the stop.
  lemma Advance(events: seq<Event>, k: nat)
    requires k < |events| && ValidReceipts(events[..k]) && MayFollow(events[..k], events[k])
    ensures ValidReceipts(events[..k + 1]) && events[..k + 1] == events[..k] + [events[k]]
    ensures StopIndex(events, k) == StopIndex(events, k + 1)
    ensures Starts(events[..k + 1]) != []
  {
    assert events[..k + 1] == events[..k] + [events[k]];
    LedgerGrows(events[..k], events[k]);
  }

  /** readKernelStream. `events` are the values the JSON decoder yields before it fails,
      `ctxErr` is the context error seen at that failure. */
  method ReadKernelStream(events: seq<Event>, ctxErr: Option<Cause>)
    returns (result: ProviderResponse, err: Option<CallError>)
    ensures (result, err) == Consume(events, ctxErr)
  {
    result := EMPTY_RESPONSE;
    var finished: set<Uuid> := {};
    for next := 0 to |events|
      invariant ValidReceipts(events[..next])
      invariant StopIndex(events, 0) == StopIndex(events, next)
      invariant result == Receipted(events[..next])
      invariant forall id :: id in finished <==> FinishOf(events[..next], id).Some?
    {
      ghost var log := events[..next];
      var attempts := result.attempts.GetOr([]);
      assert attempts == Ledger(log);
      if events[next].ResultEvent? {
        result, err := CloseStream(log, attempts, finished, events[next].status, events[next].body);
        return;
      }
      if events[next].UnknownEvent? {
        return result, Some(Rejection("kernel_invalid_event"));
      }
      var ok;
      ok, attempts, finished := AdmitReceipt(log, events[next], attempts, finished);
      if !ok {
        return result, Some(Rejection("kernel_invalid_receipt"));
      }
      Advance(events, next);
      result := result.(attempts := Some(attempts));
    }
    assert events[..|events|] == events;
    if ctxErr.Some? {
      return result, Some(PlainError(ctxErr.value));
    }
    return result, Some(ProviderError("kernel_response_read", false, ErrProvider));
  }
}
