/** That EnsureActive comes to an end: no call waits for ever, every run is short, and only an error makes a
    call fail. */
module PromptProgress {
  import opened Wrappers
  import opened PromptActivation

  // ---- Every run is short ----

  // How many statements a call still has before it at most.
  function Rank(pc: Pc): nat {
    match pc
    case Start => 9
    case Lookup => 8
    case Inserting => 7
    case Rereading => 6
    case Selecting => 5
    case Waiting(_) => 4
    case Holding(_) => 3
    case Clearing(_, _) => 2
    case TakingIfNone => 2
    case Finishing => 1
    case Done(_) => 0
    case Failed => 0
  }

  function Total(workers: seq<Worker>): nat {
    if workers == [] then 0 else Total(workers[..|workers| - 1]) + Rank(workers[|workers| - 1].pc)
  }

  lemma {:induction false} TotalOfUpdate(workers: seq<Worker>, p: nat, w: Worker)
    requires p < |workers|
    ensures Total(workers[p := w]) == Total(workers) - Rank(workers[p].pc) + Rank(w.pc)
  {
    var n := |workers| - 1;
    if p < n {
      TotalOfUpdate(workers[..n], p, w);
      assert workers[p := w][..n] == workers[..n][p := w];
    } else {
      assert workers[p := w][..n] == workers[..n];
    }
  }

  lemma {:induction false} TotalAtMost(workers: seq<Worker>)
    ensures Total(workers) <= 9 * |workers|
  {
    if workers != [] {
      TotalAtMost(workers[..|workers| - 1]);
    }
  }

  lemma StepLowers(s: State, p: nat, a: Action)
    requires p < |s.workers| && Do(s, p, a).Some?
    ensures var s' := Do(s, p, a).value;
      && s'.workers == s.workers[p := s'.workers[p]]
      && Rank(s'.workers[p].pc) < Rank(s.workers[p].pc)
  {
  }

  /** Whatever the interleaving, a run has at most nine statements for each call. */
  lemma {:induction false} RunsAreShort(s: State, events: seq<Event>)
    requires After(s, events).Some?
    ensures |After(s, events).value.workers| == |s.workers|
    ensures |events| + Total(After(s, events).value.workers) <= Total(s.workers) <= 9 * |s.workers|
    decreases |events|
  {
    TotalAtMost(s.workers);
    if events != [] {
      var front, e := events[..|events| - 1], events[|events| - 1];
      var before := After(s, front).value;
      RunsAreShort(s, front);
      StepLowers(before, e.worker, e.action);
      TotalOfUpdate(before.workers, e.worker, Do(before, e.worker, e.action).value.workers[e.worker]);
    }
  }

  // ---- Nobody waits for ever ----

  predicate Over(pc: Pc) {
    pc.Done? || pc.Failed?
  }

  // The next statement of a call, where it has one.
  function NextAction(s: State, p: nat, seen: Option<Version>): Action
    requires p < |s.workers|
  {
    match s.workers[p].pc
    case Start => Read(seen)
    case Lookup => Look
    case Inserting => Insert
    case Rereading => Reread
    case Selecting => Select(seen)
    case Waiting(_) => Wake
    case Holding(_) => Compare
    case Clearing(_, _) => Switch
    case TakingIfNone => IfNone(seen)
    case Finishing => Finish(seen)
    case _ => Fail
  }

  lemma CanStep(s: State, p: nat, seen: Option<Version>)
    requires p < |s.workers| && !Over(s.workers[p].pc) && Returns(s, seen)
    requires s.workers[p].pc.Waiting? ==> s.workers[p].pc.row !in s.locks
    ensures Do(s, p, NextAction(s, p, seen)).Some? && NextAction(s, p, seen) != Fail
  {
  }

  // The call whose turn it is: the one that holds the lock another waits for, or that call itself.
  function Ahead(s: State, p: nat): nat
    requires p < |s.workers|
  {
    var pc := s.workers[p].pc;
    if pc.Waiting? && pc.row in s.locks then s.locks[pc.row] else p
  }

  /** As long as some call is not over, some call can take its next statement, whatever version a query for
      the active one returns: a call that waits for a lock waits for one that does not wait. */
  lemma NoDeadlock(start: State, events: seq<Event>, s: State, p: nat, seen: Option<Version>)
    requires Reached(start, events, s) && p < |s.workers| && !Over(s.workers[p].pc) && Returns(s, seen)
    ensures Ahead(s, p) < |s.workers|
    ensures NextAction(s, Ahead(s, p), seen) != Fail && Do(s, Ahead(s, p), NextAction(s, Ahead(s, p), seen)).Some?
  {
    RunKeeps(start, events);
    CanStep(s, Ahead(s, p), seen);
  }

  // ---- Only errors fail a call ----

  // A call that reads again after a rejected insert will find the row.
  predicate RowsFound(s: State) {
    forall p | 0 <= p < |s.workers| :: s.workers[p].pc.Rereading? ==> s.workers[p].version in s.rows
  }

  lemma {:induction false} RowsStayFound(start: State, events: seq<Event>)
    requires Initial(start) && After(start, events).Some?
    ensures RowsFound(After(start, events).value)
    decreases |events|
  {
    if events != [] {
      var front, e := events[..|events| - 1], events[|events| - 1];
      var before := After(start, front).value;
      RowsStayFound(start, front);
      StepLowers(before, e.worker, e.action);
      RowsGrow(before, e.worker, e.action);
    }
  }

  lemma RowsGrow(s: State, p: nat, a: Action)
    requires p < |s.workers| && Do(s, p, a).Some? && RowsFound(s)
    ensures s.rows <= Do(s, p, a).value.rows && RowsFound(Do(s, p, a).value)
  {
    assert Do(s, p, a).value.workers[p].version == s.workers[p].version;
  }

  /** In every run a call fails only where a statement reports an error; any other statement takes it on, or
      to a version that is active. */
  lemma OnlyErrorsFail(start: State, events: seq<Event>, s: State, p: nat, a: Action)
    requires Reached(start, events, s) && p < |s.workers| && Do(s, p, a).Some? && a != Fail
    ensures !Do(s, p, a).value.workers[p].pc.Failed?
    ensures Do(s, p, a).value.workers[p].pc.Done? ==> Do(s, p, a).value.workers[p].pc.result in s.active
  {
    RunKeeps(start, events);
    RowsStayFound(start, events);
    assert Fine(s, p);
  }

  /** A failed call gives up its lock and changes no row. */
  lemma FailureRollsBack(start: State, events: seq<Event>, s: State, p: nat)
    requires Reached(start, events, s) && p < |s.workers| && !Over(s.workers[p].pc)
    ensures Do(s, p, Fail).Some?
    ensures var s' := Do(s, p, Fail).value;
      && s'.rows == s.rows && s'.active == s.active && s'.workers[p].pc.Failed?
      && forall row <- s'.locks :: s'.locks[row] != p
  {
    RunKeeps(start, events);
    assert Fine(s, p);
  }
}
