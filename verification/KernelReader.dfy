/** What the reader makes of any stream at all, said of the events themselves: where it stops, what it
    lists, and which error it reports. */
module KernelReader {
  import opened Wrappers
  import opened Receipts
  import opened KernelStream

  // ---- Legal receipts ----

  predicate Begins(event: Event, id: Uuid) {
    event.AttemptStarted? && event.attempt.id == id
  }

  predicate Finishes(event: Event, id: Uuid) {
    event.AttemptFinished? && event.attempt.id == id
  }

  function StartsBefore(events: seq<Event>, k: nat): set<nat>
    requires k <= |events|
  {
    set j: nat | j < k && events[j].AttemptStarted?
  }

  // Figures a receipt must carry, whether started or finished.
  predicate Presentable(a: Attempt) {
    && a.id != 0 && a.provider != "" && a.model != ""
    && 0 <= a.inputTokens && 0 <= a.outputTokens && 0 <= a.latencyMs
    && a.status in {Succeeded, Failed, TimedOut, InvalidOutput}
  }

  // A new attempt, one of at most five; or the only end of an attempt started by the same provider and model.
  ghost predicate Legal(events: seq<Event>, k: nat)
    requires k < |events|
  {
    match events[k]
    case AttemptStarted(a) =>
      Presentable(a) && (forall j | 0 <= j < k :: !Begins(events[j], a.id)) && |StartsBefore(events, k)| < 5
    case AttemptFinished(a) =>
      && Presentable(a) && (forall j | 0 <= j < k :: !Finishes(events[j], a.id))
      && exists j | 0 <= j < k ::
           Begins(events[j], a.id) && events[j].attempt.provider == a.provider && events[j].attempt.model == a.model
    case _ => false
  }

  lemma {:induction false} StartsAre(log: seq<Event>, a: Attempt)
    ensures a in Starts(log) <==> exists j | 0 <= j < |log| :: log[j].AttemptStarted? && log[j].attempt == a
  {
    if log != [] {
      var before := log[..|log| - 1];
      assert log == before + [log[|log| - 1]];
      StartsAre(before, a);
      if a in Starts(before) {
        var j :| 0 <= j < |before| && before[j].AttemptStarted? && before[j].attempt == a;
        assert log[j].AttemptStarted? && log[j].attempt == a;
      }
    }
  }

  lemma {:induction false} StartsCount(log: seq<Event>)
    ensures |Starts(log)| == |StartsBefore(log, |log|)|
  {
    if log != [] {
      var before, n := log[..|log| - 1], |log| - 1;
      StartsCount(before);
      var earlier := StartsBefore(before, n);
      assert StartsBefore(log, |log|) == if log[n].AttemptStarted? then earlier + {n} else earlier;
    }
  }

  lemma {:induction false} EndsAre(log: seq<Event>, id: Uuid)
    ensures FinishOf(log, id).None? <==> forall j | 0 <= j < |log| :: !Finishes(log[j], id)
    ensures FinishOf(log, id).Some? ==> exists j | 0 <= j < |log| ::
      && Finishes(log[j], id) && log[j].attempt == FinishOf(log, id).value
      && forall i | 0 <= i < j :: !Finishes(log[i], id)
  {
    if log != [] {
      var before := log[..|log| - 1];
      EndsAre(before, id);
      if FinishOf(before, id).Some? {
        var j :| 0 <= j < |before| && Finishes(before[j], id) && before[j].attempt == FinishOf(before, id).value
          && forall i | 0 <= i < j :: !Finishes(before[i], id);
        assert Finishes(log[j], id);
      } else {
        assert forall j | 0 <= j < |before| :: log[j] == before[j];
      }
    }
  }

  lemma LegalStart(events: seq<Event>, k: nat)
    requires k < |events| && events[k].AttemptStarted?
    ensures MayFollow(events[..k], events[k]) <==> Legal(events, k)
  {
    var log, a := events[..k], events[k].attempt;
    StartsCount(log);
    assert StartsBefore(log, k) == StartsBefore(events, k);
    forall i | 0 <= i < |Starts(log)| ensures exists j | 0 <= j < k :: Begins(events[j], Starts(log)[i].id) {
      StartsAre(log, Starts(log)[i]);
      var j :| 0 <= j < k && log[j].AttemptStarted? && log[j].attempt == Starts(log)[i];
      assert Begins(events[j], Starts(log)[i].id);
    }
    forall j | 0 <= j < k && Begins(events[j], a.id) ensures HasStarted(log, a.id) {
      StartsAre(log, log[j].attempt);
      assert log[j] == events[j];
    }
  }

  lemma LegalEnd(events: seq<Event>, k: nat)
    requires k < |events| && events[k].AttemptFinished?
    ensures MayFollow(events[..k], events[k]) <==> Legal(events, k)
  {
    var log, a := events[..k], events[k].attempt;
    EndsAre(log, a.id);
    if StartedWith(log, a.id, a.provider, a.model) {
      var i :| 0 <= i < |Starts(log)| && Starts(log)[i].id == a.id
        && Starts(log)[i].provider == a.provider && Starts(log)[i].model == a.model;
      StartsAre(log, Starts(log)[i]);
      var j :| 0 <= j < k && log[j].AttemptStarted? && log[j].attempt == Starts(log)[i];
      assert Begins(events[j], a.id);
    }
    forall j | 0 <= j < k && Begins(events[j], a.id)
      && events[j].attempt.provider == a.provider && events[j].attempt.model == a.model
      ensures StartedWith(log, a.id, a.provider, a.model)
    {
      StartsAre(log, log[j].attempt);
      var i :| 0 <= i < |Starts(log)| && Starts(log)[i] == log[j].attempt;
      assert Starts(log)[i].id == a.id;
    }
  }

  lemma LegalExactly(events: seq<Event>, k: nat)
    requires k < |events|
    ensures MayFollow(events[..k], events[k]) <==> Legal(events, k)
  {
    if events[k].AttemptStarted? {
      LegalStart(events, k);
    } else if events[k].AttemptFinished? {
      LegalEnd(events, k);
    }
  }

  // The receipts the reader takes: all up to the first event that is none, or not a legal one.
  ghost predicate TakenUpTo(events: seq<Event>, k: nat) {
    && k <= |events| && (forall i | 0 <= i < k :: Legal(events, i))
    && (k < |events| ==> !Legal(events, k))
  }

  lemma {:induction false} StopsThere(events: seq<Event>, from: nat)
    requires from <= |events| && ValidReceipts(events[..from])
    requires forall i | 0 <= i < from :: Legal(events, i)
    ensures TakenUpTo(events, StopIndex(events, from))
    ensures ValidReceipts(events[..StopIndex(events, from)])
    decreases |events| - from
  {
    if from < |events| {
      LegalExactly(events, from);
      if Legal(events, from) {
        assert events[..from + 1][..from] == events[..from];
        StopsThere(events, from + 1);
      }
    }
  }

  // ---- What is listed ----

  // One entry for each start, in order: the attempt as it ended, or else as it started.
  ghost predicate Lists(events: seq<Event>, k: nat, attempts: seq<Attempt>)
    requires k <= |events|
  {
    && |attempts| == |StartsBefore(events, k)|
    && (forall j | 0 <= j < k && events[j].AttemptStarted? ::
          var at := |StartsBefore(events, j)|;
          && at < |attempts| && attempts[at].id == events[j].attempt.id
          && if exists i | 0 <= i < k :: Finishes(events[i], events[j].attempt.id)
             then exists i | 0 <= i < k ::
                    Finishes(events[i], events[j].attempt.id) && attempts[at] == events[i].attempt
             else attempts[at] == events[j].attempt)
  }

  lemma {:induction false} StartPlace(log: seq<Event>, j: nat)
    requires j < |log| && log[j].AttemptStarted?
    ensures |StartsBefore(log, j)| < |Starts(log)| && Starts(log)[|StartsBefore(log, j)|] == log[j].attempt
  {
    var n, before := |log| - 1, log[..|log| - 1];
    if j < n {
      StartPlace(before, j);
      assert StartsBefore(before, j) == StartsBefore(log, j);
    } else {
      StartsCount(before);
      assert StartsBefore(before, n) == StartsBefore(log, n);
    }
  }

  lemma LedgerLists(events: seq<Event>, k: nat)
    requires k <= |events| && ValidReceipts(events[..k])
    ensures Lists(events, k, Ledger(events[..k]))
  {
    var log := events[..k];
    StartsCount(log);
    assert StartsBefore(log, k) == StartsBefore(events, k);
    forall j | 0 <= j < k && events[j].AttemptStarted?
      ensures var at, id := |StartsBefore(events, j)|, events[j].attempt.id;
        && at < |Ledger(log)| && Ledger(log)[at].id == id
        && if exists i | 0 <= i < k :: Finishes(events[i], id)
           then exists i | 0 <= i < k :: Finishes(events[i], id) && Ledger(log)[at] == events[i].attempt
           else Ledger(log)[at] == events[j].attempt
    {
      var at, id := |StartsBefore(events, j)|, events[j].attempt.id;
      assert log[j] == events[j] && StartsBefore(log, j) == StartsBefore(events, j);
      StartPlace(log, j);
      LedgerKeepsIds(log);
      EndsAre(log, id);
      if FinishOf(log, id).Some? {
        var i :| 0 <= i < k && Finishes(log[i], id) && log[i].attempt == FinishOf(log, id).value;
        assert Finishes(events[i], id) && Ledger(log)[at] == events[i].attempt;
      } else {
        assert forall i | 0 <= i < k :: log[i] == events[i];
      }
    }
  }

  // ---- What is reported ----

  predicate BadStream(err: Option<CallError>, code: string) {
    err == Some(ProviderError(code, false, ErrInvalidOutput))
  }

  // An attempt that was started and not finished among the first k events.
  ghost predicate LeftOpen(events: seq<Event>, k: nat)
    requires k <= |events|
  {
    exists j | 0 <= j < k ::
      events[j].AttemptStarted? && forall i | 0 <= i < k :: !Finishes(events[i], events[j].attempt.id)
  }

  predicate Empty(r: ProviderResponse) {
    r.json == "" && r.provider == "" && r.model == "" && r.inputTokens == 0 && r.outputTokens == 0
  }

  // A result that says success and may be believed: the current version, a document, and a receipt.
  predicate Sound(event: Event, attempts: seq<Attempt>) {
    && event.ResultEvent? && 200 <= event.status < 300 && attempts != []
    && event.body.SuccessBody? && event.body.version == 2 && event.body.json != ""
  }

  predicate Refusal(event: Event) {
    && event.ResultEvent? && !(200 <= event.status < 300)
    && event.body.ErrorBody? && event.body.code != ""
  }

  // What is returned for the event behind k legal receipts.
  ghost predicate Reported(events: seq<Event>, k: nat, r: ProviderResponse, err: Option<CallError>)
    requires k < |events|
  {
    var event := events[k];
    match event
    case AttemptStarted(_) => Empty(r) && BadStream(err, "kernel_invalid_receipt")
    case AttemptFinished(_) => Empty(r) && BadStream(err, "kernel_invalid_receipt")
    case UnknownEvent(_) => Empty(r) && BadStream(err, "kernel_invalid_event")
    case ResultEvent(_, body) =>
      r.attempts.Some? &&
      if LeftOpen(events, k) then Empty(r) && BadStream(err, "kernel_incomplete_receipt")
      else
        && r.inputTokens == SumInput(r.attempts.value) && r.outputTokens == SumOutput(r.attempts.value)
        && if Sound(event, r.attempts.value) then
             err == None && r.json == body.json && r.provider == body.provider && r.model == body.model
           else
             && r.json == "" && r.provider == "" && r.model == ""
             && if Refusal(event) then
                  && err.Some? && err.value.ProviderError? && err.value.code == body.code && !err.value.temporary
                  && CauseFits(body.code, err.value.cause)
                else BadStream(err, "kernel_invalid_response")
  }

  predicate CauseFits(code: string, cause: Cause) {
    && (cause == ErrTimeout <==> code == "timeout")
    && (cause == ErrInvalidOutput <==>
          code in ["invalid_schema", "invalid_structured_output", "output_truncated"])
    && cause in {ErrTimeout, ErrInvalidOutput, ErrProvider}
  }

  lemma ClassifyFits(code: string)
    ensures CauseFits(code, ClassifyCode(code))
  {
  }

  lemma OpenExactly(events: seq<Event>, k: nat)
    requires k <= |events| && ValidReceipts(events[..k])
    ensures AllFinished(events[..k]) <==> !LeftOpen(events, k)
  {
    var log := events[..k];
    forall i | 0 <= i < |Starts(log)| && FinishOf(log, Starts(log)[i].id).None? ensures LeftOpen(events, k) {
      StartsAre(log, Starts(log)[i]);
      EndsAre(log, Starts(log)[i].id);
      var j :| 0 <= j < k && log[j].AttemptStarted? && log[j].attempt == Starts(log)[i];
      assert events[j] == log[j] && forall i | 0 <= i < k :: log[i] == events[i];
    }
    forall j | 0 <= j < k && events[j].AttemptStarted?
      && (forall i | 0 <= i < k :: !Finishes(events[i], events[j].attempt.id))
      ensures !AllFinished(log)
    {
      assert log[j] == events[j];
      StartPlace(log, j);
      EndsAre(log, events[j].attempt.id);
      assert forall i | 0 <= i < k :: log[i] == events[i];
    }
  }

  lemma ConcludeReports(events: seq<Event>, k: nat)
    requires k < |events| && ValidReceipts(events[..k]) && events[k].ResultEvent?
    ensures var (r, err) := Conclude(events[..k], events[k].status, events[k].body); Reported(events, k, r, err)
  {
    OpenExactly(events, k);
    if events[k].body.ErrorBody? {
      ClassifyFits(events[k].body.code);
    }
  }

  /** The reader takes receipts up to the first event that is not a legal one, lists one attempt for each
      start among them, and reports what that event, or the broken connection, calls for. The list is
      left nil only when no receipt came before something other than a result. */
  lemma ReaderSays(events: seq<Event>, ctxErr: Option<Cause>)
    ensures var (r, err) := Consume(events, ctxErr);
      exists k: nat ::
        && TakenUpTo(events, k)
        && (r.attempts.None? <==> k == 0 && (k < |events| ==> !events[k].ResultEvent?))
        && (r.attempts.Some? ==> Lists(events, k, r.attempts.value))
        && if k < |events| then Reported(events, k, r, err)
           else Empty(r) && err == Some(if ctxErr.Some? then PlainError(ctxErr.value)
                                        else ProviderError("kernel_response_read", false, ErrProvider))
  {
    var k := StopIndex(events, 0);
    assert events[..0] == [];
    StopsThere(events, 0);
    LedgerLists(events, k);
    ReceiptsMeanStarts(events[..k]);
    if k < |events| && events[k].ResultEvent? {
      ConcludeReports(events, k);
    }
  }

  // A valid log that is not empty has a start.
  lemma {:induction false} ReceiptsMeanStarts(log: seq<Event>)
    requires ValidReceipts(log)
    ensures log == [] <==> Starts(log) == []
  {
    if log != [] {
      ReceiptsMeanStarts(log[..|log| - 1]);
    }
  }
}
