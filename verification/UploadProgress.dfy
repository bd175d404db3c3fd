/** That preparing an upload directory never gets stuck, and what a failing system call leaves behind. */
module UploadProgress {
  import opened Wrappers
  import opened UploadTemp

  predicate Stopped(pc: Pc) {
    pc.Failed? || pc.Done? || pc.Crashed?
  }

  // The next system call of a process, where it has one; order is what a listing returns, and name what
  // MkdirTemp does.
  function NextAction(s: State, p: nat, order: seq<Dir>, name: Dir): Action
    requires p < |s.procs|
  {
    match s.procs[p].pc
    case Idle => Start
    case Waiting => TakeInit
    case Listing => List(order)
    case Scanning(todo) => if todo == [] then Make(name) else Open
    case Opened(_, _) => TryLock
    case Made(_) => OpenOwn
    case OwnerOpened(_) => LockOwn
    case Locked(_) => Return
    case Active(_) => BeginCleanup
    case Closing(_) => Close
    case Removing(_, i) => if i.dir in s.dirs && s.dirs[i.dir].Some? then Unlink else Rmdir
    case Undoing(d) => if d in s.dirs && s.dirs[d].Some? then Unlink else Rmdir
    case Cleaning(i) => if i.dir in s.dirs && s.dirs[i.dir].Some? then Unlink else Rmdir
    case _ => Fail
  }

  lemma GoesOn(s: State, p: nat, order: seq<Dir>, name: Dir)
    requires Inv(s) && p < |s.procs| && !Stopped(s.procs[p].pc)
    requires (set d <- order) == s.dirs.Keys && name !in s.used
    requires s.procs[p].pc.Waiting? ==> s.initLock.None?
    ensures NextAction(s, p, order, name) !in {Fail, Crash} && Do(s, p, NextAction(s, p, order, name)).Some?
  {
    assert Fine(s, p);
  }

  // The init lock belongs to one of the processes.
  lemma {:induction false} InitOwned(start: State, events: seq<Event>)
    requires Initial(start) && After(start, events).Some?
    ensures var s := After(start, events).value; s.initLock.Some? ==> s.initLock.value < |s.procs|
    decreases |events|
  {
    if events != [] {
      var front, e := events[..|events| - 1], events[|events| - 1];
      InitOwned(start, front);
      RunKeeps(start, front);
      StepEffect(After(start, front).value, e.process, e.action);
    }
  }

  // The process whose turn it is: the one that holds the init lock another waits for, or that one itself.
  function Ahead(s: State, p: nat): nat
    requires p < |s.procs|
  {
    if s.procs[p].pc.Waiting? && s.initLock.Some? then s.initLock.value else p
  }

  /** No process is ever stuck for good: one that is not over can go on, or waits for the init lock, whose
      holder can. */
  lemma NeverStuck(start: State, events: seq<Event>, s: State, p: nat, order: seq<Dir>, name: Dir)
    requires Reached(start, events, s) && p < |s.procs| && !Stopped(s.procs[p].pc)
    requires (set d <- order) == s.dirs.Keys && name !in s.used
    ensures Ahead(s, p) < |s.procs|
    ensures NextAction(s, Ahead(s, p), order, name) !in {Fail, Crash}
    ensures Do(s, Ahead(s, p), NextAction(s, Ahead(s, p), order, name)).Some?
  {
    RunKeeps(start, events);
    InitOwned(start, events);
    var q := Ahead(s, p);
    if s.initLock == Some(q) {
      assert Fine(s, q);
    }
    GoesOn(s, q, order, name);
  }

  /** A failing system call ends the process, except where a directory of its own is left to remove, or its
      own cleanup to finish; what is left of it holds no lock that it does not need for that. */
  lemma FailureSays(start: State, events: seq<Event>, s: State, p: nat)
    requires Reached(start, events, s) && p < |s.procs|
    ensures var pc := s.procs[p].pc;
      && (Do(s, p, Fail).Some? <==>
            (HoldsInit(pc) && !pc.Locked?) || pc.Waiting? || pc.Cleaning?)
      && (Do(s, p, Fail).Some? ==>
            var s' := Do(s, p, Fail).value;
            && s'.dirs == s.dirs
            && (pc.Made? ==> s'.procs[p].pc == Undoing(pc.dir))
            && (pc.OwnerOpened? ==> s'.procs[p].pc == Undoing(pc.inode.dir))
            && (pc.Cleaning? ==> s'.procs[p].pc == Closing(pc.inode))
            && (!pc.Made? && !pc.OwnerOpened? && !pc.Cleaning? ==> s'.procs[p].pc == Failed))
  {
  }

  /** A process that has stopped, however it did, holds neither the init lock nor any other. */
  lemma StoppedHoldsNothing(start: State, events: seq<Event>, s: State, p: nat)
    requires Reached(start, events, s) && p < |s.procs| && Stopped(s.procs[p].pc)
    ensures s.initLock != Some(p) && forall i <- s.locks :: s.locks[i] != p
  {
    RunKeeps(start, events);
    assert Fine(s, p);
  }

  /** A directory opened by a scan gets an .owner file of its own if it has none. */
  lemma OpenedFileIsNew(start: State, events: seq<Event>, s: State, p: nat)
    requires Reached(start, events, s) && p < |s.procs|
    requires s.procs[p].pc.Scanning? && s.procs[p].pc.todo != [] && s.procs[p].pc.todo[0] in s.dirs
    ensures Do(s, p, Open).Some?
    ensures var s', d := Do(s, p, Open).value, s.procs[p].pc.todo[0];
      && s'.procs[p].pc.Opened? && s'.dirs[d] == Some(s'.procs[p].pc.inode) && s'.procs[p].pc.inode.dir == d
      && (s.dirs[d].Some? ==> s'.dirs == s.dirs && s'.serial == s.serial)
      && (s.dirs[d].None? ==>
            && s'.procs[p].pc.inode !in s.locks && s'.serial == s.serial + 1
            && forall e <- s.dirs :: s.dirs[e] != Some(s'.procs[p].pc.inode))
  {
    RunKeeps(start, events);
  }
}
