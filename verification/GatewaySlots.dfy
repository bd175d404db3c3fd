/** The gateway's concurrency limit: a buffered channel from which each call takes a slot. */
module GatewaySlots {
  import opened Wrappers

  // Before the select; between taking the slot and the deferred receive; returned.
  datatype Pc = Entering | Holding | Returned

  // tokens: how many values are in the channel.
  datatype State = State(tokens: nat, calls: seq<Pc>)

  datatype Action = Take | ContextDone | Return

  function Do(s: State, max: nat, p: nat, a: Action): Option<State>
    requires p < |s.calls|
  {
    match a
    case Take =>
      if s.calls[p].Entering? && s.tokens < max then Some(State(s.tokens + 1, s.calls[p := Holding])) else None
    case ContextDone => if s.calls[p].Entering? then Some(s.(calls := s.calls[p := Returned])) else None
    case Return =>
      // Whatever way the call ends, the deferred receive waits for a value in the channel.
      if s.calls[p].Holding? && s.tokens > 0 then Some(State(s.tokens - 1, s.calls[p := Returned])) else None
  }

  datatype Event = Event(call: nat, action: Action)

  function After(calls: nat, max: nat, events: seq<Event>): Option<State> {
    if events == [] then Some(State(0, Fresh(calls)))
    else
      var before := After(calls, max, events[..|events| - 1]);
      var e := events[|events| - 1];
      if before.Some? && e.call < |before.value.calls| then Do(before.value, max, e.call, e.action) else None
  }

  function Fresh(n: nat): (r: seq<Pc>)
    ensures |r| == n && Holders(r) == 0
  {
    if n == 0 then [] else Fresh(n - 1) + [Entering]
  }

  function Holders(calls: seq<Pc>): nat {
    if calls == [] then 0
    else Holders(calls[..|calls| - 1]) + if calls[|calls| - 1].Holding? then 1 else 0
  }

  lemma {:induction false} HoldersAfter(calls: seq<Pc>, p: nat, pc: Pc)
    requires p < |calls|
    ensures Holders(calls[p := pc]) ==
            Holders(calls) - (if calls[p].Holding? then 1 else 0) + (if pc.Holding? then 1 else 0)
    ensures calls[p].Holding? ==> Holders(calls) > 0
  {
    var n := |calls| - 1;
    if p == n {
      assert calls[p := pc][..n] == calls[..n];
    } else {
      HoldersAfter(calls[..n], p, pc);
      assert calls[p := pc][..n] == calls[..n][p := pc];
    }
  }

  /** In every run the channel holds one value per call that holds a slot, so never more than
      MaxConcurrent calls do, and the deferred receive of a holder never blocks. */
  lemma {:induction false} SlotsAccounted(calls: nat, max: nat, events: seq<Event>)
    requires After(calls, max, events).Some?
    ensures var s := After(calls, max, events).value;
      && s.tokens == Holders(s.calls) <= max
      && forall p | 0 <= p < |s.calls| && s.calls[p].Holding? :: Do(s, max, p, Return).Some?
    decreases |events|
  {
    if events != [] {
      var e := events[|events| - 1];
      SlotsAccounted(calls, max, events[..|events| - 1]);
      var before := After(calls, max, events[..|events| - 1]).value;
      HoldersAfter(before.calls, e.call, Holding);
      HoldersAfter(before.calls, e.call, Returned);
    }
    var s := After(calls, max, events).value;
    forall p | 0 <= p < |s.calls| && s.calls[p].Holding? ensures s.tokens > 0 {
      HoldersAfter(s.calls, p, Returned);
    }
  }

  /** Once every call has returned, every slot is free again. */
  lemma AllReleased(calls: nat, max: nat, events: seq<Event>)
    requires After(calls, max, events).Some?
    requires forall p | 0 <= p < |After(calls, max, events).value.calls| ::
      After(calls, max, events).value.calls[p].Returned?
    ensures After(calls, max, events).value.tokens == 0
  {
    SlotsAccounted(calls, max, events);
    NoHolders(After(calls, max, events).value.calls);
  }

  /** In every run a waiting call gets a slot exactly when fewer than the limit are held; it may always give
      up waiting, and a call that holds a slot can always return. */
  lemma CallsSay(calls: nat, max: nat, events: seq<Event>, p: nat)
    requires After(calls, max, events).Some? && p < |After(calls, max, events).value.calls|
    ensures var s := After(calls, max, events).value;
      && (Do(s, max, p, Take).Some? <==> s.calls[p].Entering? && Holders(s.calls) < max)
      && (Do(s, max, p, ContextDone).Some? <==> s.calls[p].Entering?)
      && (Do(s, max, p, Return).Some? <==> s.calls[p].Holding?)
      && (Do(s, max, p, Take).Some? ==> Do(s, max, p, Take).value.calls == s.calls[p := Holding])
      && (Do(s, max, p, ContextDone).Some? ==>
            Do(s, max, p, ContextDone).value == State(s.tokens, s.calls[p := Returned]))
      && (Do(s, max, p, Return).Some? ==> Do(s, max, p, Return).value.calls == s.calls[p := Returned])
  {
    SlotsAccounted(calls, max, events);
    HoldersAfter(After(calls, max, events).value.calls, p, Returned);
  }

  lemma {:induction false} NoHolders(calls: seq<Pc>)
    requires forall p | 0 <= p < |calls| :: calls[p].Returned?
    ensures Holders(calls) == 0
  {
    if calls != [] {
      NoHolders(calls[..|calls| - 1]);
    }
  }
}
