/** Prompt activation by many workers: EnsureActive calls on one prompt key, interleaved statement by
    statement under the database's row locks (read committed, as PostgreSQL runs them). */
module PromptActivation {
  import opened Wrappers

  // A row of prompt_template for the key; (key, version) is unique, so the version names it.
  type Version = int

  datatype Pc =
    | Start                                             // ActivePrompt
    | Lookup                                            // PromptVersion
    | Inserting                                         // Register
    | Rereading                                         // PromptVersion again
    | Selecting                                         // SELECT ... FOR UPDATE
    | Waiting(row: Version)                             // for another transaction's lock on that row
    | Holding(row: Version)
    | Clearing(row: Version, cleared: set<Version>)     // after UPDATE active=false, before active=true
    | TakingIfNone                                      // ActivatePromptIfNone
    | Finishing                                         // committed, about to read ActivePrompt
    | Done(result: Version)
    | Failed

  // found: the version that was active when ActivatePromptIfNone changed no row.
  datatype Worker = Worker(version: Version, pc: Pc, found: Option<Version>)

  datatype State = State(rows: set<Version>, active: set<Version>, locks: map<Version, nat>, workers: seq<Worker>)

  // ---- Steps ----

  datatype Action =
    | Read(seen: Option<Version>) | Look | Insert | Reread
    | Select(seen: Option<Version>) | Wake | Compare | Switch | IfNone(seen: Option<Version>)
    | Finish(seen: Option<Version>)
    | Fail                                              // an error or a lost connection: rollback

  // What a query for the active row may return.
  predicate Returns(s: State, seen: Option<Version>) {
    if seen.Some? then seen.value in s.active else s.active == {}
  }

  function HeldRow(pc: Pc): Option<Version> {
    match pc
    case Holding(row) => Some(row)
    case Clearing(row, _) => Some(row)
    case _ => None
  }

  function Go(s: State, p: nat, pc: Pc): State
    requires p < |s.workers|
  {
    s.(workers := s.workers[p := s.workers[p].(pc := pc)])
  }

  // The transaction ends, and its row lock is released.
  function End(s: State, p: nat, pc: Pc): State
    requires p < |s.workers|
  {
    var held := HeldRow(s.workers[p].pc);
    Go(if held.Some? then s.(locks := s.locks - {held.value}) else s, p, pc)
  }

  function Do(s: State, p: nat, a: Action): Option<State>
    requires p < |s.workers|
  {
    var me := s.workers[p];
    match a
    case Read(seen) =>
      if !me.pc.Start? || !Returns(s, seen) then None
      else if seen.Some? && seen.value >= me.version then Some(Go(s, p, Done(seen.value)))
      else Some(Go(s, p, Lookup))
    case Look =>
      if !me.pc.Lookup? then None else Some(Go(s, p, if me.version in s.rows then Selecting else Inserting))
    case Insert =>
      if !me.pc.Inserting? then None
      else if me.version in s.rows then Some(Go(s, p, Rereading))
      else Some(Go(s.(rows := s.rows + {me.version}), p, Selecting))
    case Reread =>
      if !me.pc.Rereading? then None else Some(Go(s, p, if me.version in s.rows then Selecting else Failed))
    case Select(seen) =>
      if !me.pc.Selecting? || !Returns(s, seen) then None
      else if seen.None? then Some(Go(s, p, TakingIfNone))
      else if seen.value in s.locks then Some(Go(s, p, Waiting(seen.value)))
      else Some(Go(s.(locks := s.locks[seen.value := p]), p, Holding(seen.value)))
    case Wake =>
      // Having waited, the statement looks again at that row only.
      if !me.pc.Waiting? || me.pc.row in s.locks then None
      else if me.pc.row in s.active then Some(Go(s.(locks := s.locks[me.pc.row := p]), p, Holding(me.pc.row)))
      else Some(Go(s, p, TakingIfNone))
    case Compare =>
      if !me.pc.Holding? then None
      else if me.pc.row >= me.version then Some(End(s, p, Finishing))
      else Some(Go(s, p, Clearing(me.pc.row, s.active)))
    case Switch =>
      if !me.pc.Clearing? then None
      else if me.version in s.rows && s.active <= me.pc.cleared then
        Some(End(s.(active := {me.version}), p, Finishing))
      else Some(End(s, p, Failed))   // no such row, or the unique index on active rows is violated
    case IfNone(seen) =>
      if !me.pc.TakingIfNone? || !Returns(s, seen) then None
      else if seen.None? && me.version in s.rows then Some(Go(s.(active := {me.version}), p, Finishing))
      else Some(s.(workers := s.workers[p := Worker(me.version, Finishing, seen)]))
    case Finish(seen) =>
      if !me.pc.Finishing? || !Returns(s, seen) then None
      else Some(Go(s, p, if seen.Some? then Done(seen.value) else Failed))
    case Fail => if me.pc.Done? || me.pc.Failed? then None else Some(End(s, p, Failed))
  }

  // ---- Runs ----

  datatype Event = Event(worker: nat, action: Action)

  ghost predicate Initial(s: State) {
    && OneActive(s) && s.locks == map[]
    && forall p | 0 <= p < |s.workers| :: s.workers[p].pc.Start? && s.workers[p].found.None?
  }

  function After(s: State, events: seq<Event>): Option<State> {
    if events == [] then Some(s)
    else
      var before := After(s, events[..|events| - 1]);
      var e := events[|events| - 1];
      if before.Some? && e.worker < |before.value.workers| then Do(before.value, e.worker, e.action) else None
  }

  // ---- The invariant ----

  // What the unique index on active rows promises.
  ghost predicate OneActive(s: State) {
    s.active <= s.rows && forall a, b | a in s.active && b in s.active :: a == b
  }

  ghost predicate LocksOwned(s: State) {
    forall row <- s.locks :: s.locks[row] < |s.workers| && HeldRow(s.workers[s.locks[row]].pc) == Some(row)
  }

  predicate HasRow(pc: Pc) {
    pc.Selecting? || pc.Waiting? || pc.Holding? || pc.Clearing? || pc.TakingIfNone? || pc.Finishing?
  }

  // An active version this high is there.
  predicate Reaches(s: State, version: Version) {
    exists a <- s.active :: a >= version
  }

  predicate Fine(s: State, p: nat)
    requires p < |s.workers|
  {
    var me := s.workers[p];
    && (HeldRow(me.pc).Some? ==>
          var row := HeldRow(me.pc).value;
          row in s.locks && s.locks[row] == p && s.active == {row})
    && (me.pc.Clearing? ==> me.pc.cleared == {me.pc.row} && me.pc.row < me.version)
    && (HasRow(me.pc) ==> me.version in s.rows)
    && (me.found.Some? ==> Reaches(s, me.found.value))
    && (me.pc.Finishing? && me.found.None? ==> Reaches(s, me.version))
    && (me.pc.Finishing? ==> s.active != {})
    && (me.pc.Done? ==> Reaches(s, me.pc.result))
    && (me.pc.Done? && me.found.None? ==> me.pc.result >= me.version)
    && (me.pc.Done? && me.found.Some? ==> me.pc.result >= me.found.value)
  }

  ghost predicate Inv(s: State) {
    OneActive(s) && LocksOwned(s) && forall p | 0 <= p < |s.workers| :: Fine(s, p)
  }

  // The active version, if any, is replaced only by a higher one.
  predicate Rises(s: State, s': State) {
    forall a <- s.active :: Reaches(s', a)
  }

  ghost predicate Effect(s: State, p: nat, s': State) {
    && |s'.workers| == |s.workers| && (forall q | 0 <= q < |s.workers| && q != p :: s'.workers[q] == s.workers[q])
    && s.rows <= s'.rows && Rises(s, s')
    && (forall row <- s.locks :: s.locks[row] != p ==>
          row in s'.locks && s'.locks[row] == s.locks[row] && s'.active == s.active)
  }

  lemma SingleActive(s: State, a: Version)
    requires OneActive(s) && a in s.active
    ensures s.active == {a} && Reaches(s, a)
  {
    assert forall x <- s.active :: x == a;
  }

  lemma StaysReached(s: State, s': State, version: Version)
    requires Reaches(s, version) && Rises(s, s')
    ensures Reaches(s', version)
  {
    var a :| a in s.active && a >= version;
    assert Reaches(s', a);
  }

  lemma StepEffect(s: State, p: nat, a: Action)
    requires Inv(s) && p < |s.workers| && Do(s, p, a).Some?
    ensures Effect(s, p, Do(s, p, a).value) && OneActive(Do(s, p, a).value)
  {
    assert Fine(s, p);
    forall x | x in s.active ensures s.active == {x} && Reaches(s, x) {
      SingleActive(s, x);
    }
    forall row | row in s.locks ensures row in s.active {
      assert Fine(s, s.locks[row]);
    }
  }

  lemma ActorFine(s: State, p: nat, a: Action)
    requires Inv(s) && p < |s.workers| && Do(s, p, a).Some?
    ensures Fine(Do(s, p, a).value, p)
  {
    assert Fine(s, p);
    if x :| x in s.active {
      SingleActive(s, x);
    }
  }

  lemma LocksStillOwned(s: State, p: nat, a: Action)
    requires Inv(s) && p < |s.workers| && Do(s, p, a).Some?
    ensures LocksOwned(Do(s, p, a).value)
  {
    assert Fine(s, p);
  }

  lemma OtherFine(s: State, p: nat, s': State, q: nat)
    requires Inv(s) && p < |s.workers| && q < |s.workers| && q != p && Effect(s, p, s') && OneActive(s')
    ensures Fine(s', q)
  {
    assert Fine(s, q) && Fine(s, p);
    var me := s.workers[q];
    if me.found.Some? {
      StaysReached(s, s', me.found.value);
    } else if me.pc.Finishing? {
      StaysReached(s, s', me.version);
    }
    if me.pc.Done? {
      StaysReached(s, s', me.pc.result);
    }
  }

  /** Every statement of every worker, failing ones included, keeps the invariant, and the active
      version never goes down. */
  lemma StepKeeps(s: State, p: nat, a: Action)
    requires Inv(s) && p < |s.workers| && Do(s, p, a).Some?
    ensures Inv(Do(s, p, a).value) && Rises(s, Do(s, p, a).value)
  {
    var s' := Do(s, p, a).value;
    StepEffect(s, p, a);
    ActorFine(s, p, a);
    LocksStillOwned(s, p, a);
    forall q | 0 <= q < |s'.workers| ensures Fine(s', q) {
      if q != p {
        OtherFine(s, p, s', q);
      }
    }
  }

  lemma {:induction false} RunKeeps(s: State, events: seq<Event>)
    requires Initial(s) && After(s, events).Some?
    ensures Inv(After(s, events).value) && |After(s, events).value.workers| == |s.workers|
    decreases |events|
  {
    if events != [] {
      var front, e := events[..|events| - 1], events[|events| - 1];
      RunKeeps(s, front);
      StepKeeps(After(s, front).value, e.worker, e.action);
      StepEffect(After(s, front).value, e.worker, e.action);
    }
  }

  ghost predicate Reached(start: State, events: seq<Event>, s: State) {
    Initial(start) && After(start, events) == Some(s)
  }

  // ---- Main results ----

  /** In every run at most one version is active, a later active version is never below an earlier one,
      and the unique index never rejects the second update of ActivatePrompt: the version it activates is
      then the only active one. The index may reject one of two racing ActivatePromptIfNone; that is the
      step by which any statement may fail. */
  lemma ActiveOnlyRises(start: State, events: seq<Event>, s: State, p: nat, a: Action)
    requires Reached(start, events, s) && p < |s.workers| && Do(s, p, a).Some?
    ensures forall x, y | x in s.active && y in s.active :: x == y
    ensures Rises(s, Do(s, p, a).value)
    ensures s.workers[p].pc.Clearing? && a.Switch? ==> Do(s, p, a).value.active == {s.workers[p].version}
  {
    RunKeeps(start, events);
    StepKeeps(s, p, a);
    assert Fine(s, p);
  }

  lemma {:induction false} RisesOverRuns(start: State, events: seq<Event>, more: seq<Event>)
    requires Initial(start) && After(start, events).Some? && After(start, events + more).Some?
    ensures Rises(After(start, events).value, After(start, events + more).value)
    decreases |more|
  {
    RunKeeps(start, events);
    var s := After(start, events).value;
    if more == [] {
      assert events + more == events;
      forall x | x in s.active ensures Reaches(s, x) {
        SingleActive(s, x);
      }
    } else {
      var front, e := more[..|more| - 1], more[|more| - 1];
      assert (events + more)[..|events + more| - 1] == events + front;
      RisesOverRuns(start, events, front);
      RunKeeps(start, events + front);
      var mid := After(start, events + front).value;
      StepKeeps(mid, e.worker, e.action);
      forall x | x in s.active ensures Reaches(After(start, events + more).value, x) {
        StaysReached(mid, After(start, events + more).value, x);
      }
    }
  }

  /** EnsureActive returns a version at least as high as the requested one unless ActivatePromptIfNone
      changed no row because a lower version had become active; then it is at least that one. */
  lemma ResultIsHighEnough(start: State, events: seq<Event>, s: State, p: nat)
    requires Reached(start, events, s) && p < |s.workers| && s.workers[p].pc.Done?
    ensures s.workers[p].found.None? ==> s.workers[p].pc.result >= s.workers[p].version
    ensures s.workers[p].found.Some? ==> s.workers[p].pc.result >= s.workers[p].found.value
  {
    RunKeeps(start, events);
    assert Fine(s, p);
  }

  /** When a call's transaction commits, a version at least as high as the requested one is active
      exactly if ActivatePromptIfNone did not find a lower one active. */
  lemma CommitReaches(start: State, events: seq<Event>, s: State, p: nat, a: Action)
    requires Reached(start, events, s) && p < |s.workers| && Do(s, p, a).Some?
    requires !s.workers[p].pc.Finishing? && Do(s, p, a).value.workers[p].pc.Finishing?
    ensures Reaches(Do(s, p, a).value, s.workers[p].version) <==>
      !(s.workers[p].pc.TakingIfNone? && a.IfNone? && a.seen.Some? && a.seen.value < s.workers[p].version)
  {
    RunKeeps(start, events);
    StepKeeps(s, p, a);
    assert Fine(s, p) && Fine(Do(s, p, a).value, p);
    if a.IfNone? && a.seen.Some? {
      SingleActive(s, a.seen.value);
    }
  }

  // ---- A race ----

  function Two(rows: set<Version>, active: set<Version>, locks: map<Version, nat>, a: Worker, b: Worker): State {
    State(rows, active, locks, [a, b])
  }

  // One more step of a run of two workers.
  lemma Then(start: State, events: seq<Event>, s: State, worker: nat, a: Action, s': State)
    requires After(start, events) == Some(s) && worker < 2 && |s.workers| == 2 && |s'.workers| == 2
    requires Do(s, worker, a).Some?
    requires var r := Do(s, worker, a).value;
      && r.rows == s'.rows && r.active == s'.active && r.locks == s'.locks && |r.workers| == 2
      && r.workers[0] == s'.workers[0] && r.workers[1] == s'.workers[1]
    ensures After(start, events + [Event(worker, a)]) == Some(s')
  {
    assert (events + [Event(worker, a)])[..|events|] == events;
    assert Do(s, worker, a).value.workers == s'.workers;
  }

  // A worker whose version is new reads, registers it and selects the active row.
  lemma ReadsAndRegisters(start: State, events: seq<Event>, s: State, w: nat, active: Version)
      returns (events': seq<Event>, s': State)
    requires After(start, events) == Some(s) && w < 2 && |s.workers| == 2
    requires s.workers[w].pc.Start? && s.active == {active}
    requires active < s.workers[w].version && s.workers[w].version !in s.rows
    ensures After(start, events') == Some(s')
    ensures s' == s.(rows := s.rows + {s.workers[w].version}, workers := s.workers[w := s.workers[w].(pc := Selecting)])
  {
    var me := s.workers[w];
    var s1 := Go(s, w, Lookup);
    Then(start, events, s, w, Read(Some(active)), s1);
    var s2 := Go(s1, w, Inserting);
    Then(start, events + [Event(w, Read(Some(active)))], s1, w, Look, s2);
    s' := s.(rows := s.rows + {me.version}, workers := s.workers[w := me.(pc := Selecting)]);
    Then(start, events + [Event(w, Read(Some(active)))] + [Event(w, Look)], s2, w, Insert, s');
    events' := events + [Event(w, Read(Some(active)))] + [Event(w, Look)] + [Event(w, Insert)];
  }

  /** Such a race exists for all versions low < mid < high: asked for high while another worker
      activates mid, a call returns mid. The waiting statement wakes up to find its row inactive and
      never looks at the new one. */
  lemma RaceReturnsLower(low: Version, mid: Version, high: Version)
      returns (start: State, events: seq<Event>, s: State)
    requires low < mid < high
    ensures Reached(start, events, s) && |s.workers| == 2
    ensures s.workers[1] == Worker(high, Done(mid), Some(mid))
  {
    var a, b := Worker(mid, Start, None), Worker(high, Start, None);
    start := Two({low}, {low}, map[], a, b);
    events, s := ReadsAndRegisters(start, [], start, 0, low);
    var rows := {low, mid};
    var s1 := Two(rows, {low}, map[low := 0], a.(pc := Holding(low)), b);
    Then(start, events, s, 0, Select(Some(low)), s1);
    events, s := ReadsAndRegisters(start, events + [Event(0, Select(Some(low)))], s1, 1, low);
    rows := rows + {high};
    var s2 := Two(rows, {low}, map[low := 0], a.(pc := Holding(low)), b.(pc := Waiting(low)));
    Then(start, events, s, 1, Select(Some(low)), s2);
    events, s := LoserWakes(start, events + [Event(1, Select(Some(low)))], rows, low, mid, high);
  }

  lemma LoserWakes(start: State, events: seq<Event>, rows: set<Version>,
      low: Version, mid: Version, high: Version)
      returns (events': seq<Event>, s: State)
    requires low < mid < high && mid in rows && high in rows
    requires After(start, events) ==
      Some(Two(rows, {low}, map[low := 0], Worker(mid, Holding(low), None), Worker(high, Waiting(low), None)))
    ensures After(start, events') == Some(s) && |s.workers| == 2
    ensures s.workers[1] == Worker(high, Done(mid), Some(mid))
  {
    var a, b := Worker(mid, Holding(low), None), Worker(high, Waiting(low), None);
    var s0 := Two(rows, {low}, map[low := 0], a, b);
    var s1 := Two(rows, {low}, map[low := 0], a.(pc := Clearing(low, {low})), b);
    Then(start, events, s0, 0, Compare, s1);
    var s2 := Two(rows, {mid}, map[], a.(pc := Finishing), b);
    WinnerSwitches(s1, rows, low, mid, b);
    Then(start, events + [Event(0, Compare)], s1, 0, Switch, s2);
    var s3 := Two(rows, {mid}, map[], a.(pc := Finishing), b.(pc := TakingIfNone));
    Then(start, events + [Event(0, Compare)] + [Event(0, Switch)], s2, 1, Wake, s3);
    events', s :=
      LoserReturns(start, events + [Event(0, Compare)] + [Event(0, Switch)] + [Event(1, Wake)], s3, mid, high);
  }

  lemma WinnerSwitches(s: State, rows: set<Version>, low: Version, mid: Version, b: Worker)
    requires mid in rows && s == Two(rows, {low}, map[low := 0], Worker(mid, Clearing(low, {low}), None), b)
    ensures Do(s, 0, Switch) == Some(Two(rows, {mid}, map[], Worker(mid, Finishing, None), b))
  {
    var w := Worker(mid, Finishing, None);
    assert s.active <= s.workers[0].pc.cleared && HeldRow(s.workers[0].pc) == Some(low);
    assert map[low := 0] - {low} == map[];
    assert s.workers[0 := w] == [w, b];
  }

  lemma LoserReturns(start: State, events: seq<Event>, s3: State, mid: Version, high: Version)
      returns (events': seq<Event>, s: State)
    requires After(start, events) == Some(s3) && |s3.workers| == 2 && s3.active == {mid}
    requires s3.workers[1] == Worker(high, TakingIfNone, None)
    ensures After(start, events') == Some(s) && |s.workers| == 2
    ensures s.workers[1] == Worker(high, Done(mid), Some(mid))
  {
    var s4 := s3.(workers := s3.workers[1 := Worker(high, Finishing, Some(mid))]);
    Then(start, events, s3, 1, IfNone(Some(mid)), s4);
    s := s3.(workers := s3.workers[1 := Worker(high, Done(mid), Some(mid))]);
    Then(start, events + [Event(1, IfNone(Some(mid)))], s4, 1, Finish(Some(mid)), s);
    events' := events + [Event(1, IfNone(Some(mid)))] + [Event(1, Finish(Some(mid)))];
  }
}
