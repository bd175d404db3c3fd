/** Upload temp directories shared by several API processes: each process takes the init lock, reclaims
    directories whose owner lock is free, and makes and locks one of its own. */
module UploadTemp {
  import opened Wrappers

  // A directory name carrying the upload prefix.
  type Dir = nat

  // An .owner file, by the directory it was created in; a file created again is another inode.
  datatype Inode = Inode(dir: Dir, serial: nat)

  datatype Pc =
    | Idle
    | Waiting                                      // about to flock the init lock
    | Listing
    | Scanning(todo: seq<Dir>)
    | Opened(todo: seq<Dir>, inode: Inode)         // about to flock an .owner without blocking
    | Removing(todo: seq<Dir>, inode: Inode)       // in RemoveAll, holding that lock
    | Made(dir: Dir)
    | OwnerOpened(inode: Inode)
    | Locked(inode: Inode)
    | Undoing(dir: Dir)                            // RemoveAll after opening or locking its own .owner failed
    | Active(inode: Inode)                         // prepared, init lock released
    | Cleaning(inode: Inode)                       // in RemoveAll of its own directory
    | Closing(inode: Inode)
    | Failed | Done | Crashed

  // listed: what the scan found; kept: what it left because the lock was taken.
  datatype Process = Process(pc: Pc, listed: set<Dir>, kept: set<Dir>)

  datatype State = State(
    dirs: map<Dir, Option<Inode>>,   // existing directories and their .owner files
    initLock: Option<nat>,
    locks: map<Inode, nat>,
    used: set<Dir>,                  // names MkdirTemp has ever returned, or that were there before
    serial: nat,
    procs: seq<Process>)

  // ---- Steps ----

  datatype Action =
    | Start | TakeInit | List(order: seq<Dir>) | Open | TryLock
    | Unlink | Rmdir | Make(dir: Dir) | OpenOwn | LockOwn | Return
    | BeginCleanup | Close
    | Fail                           // a system call reports an error
    | Crash                          // the kernel drops every lock of the process

  function HeldLock(pc: Pc): Option<Inode> {
    match pc
    case Removing(_, i) => Some(i)
    case Locked(i) => Some(i)
    case Active(i) => Some(i)
    case Cleaning(i) => Some(i)
    case Closing(i) => Some(i)
    case _ => None
  }

  predicate HoldsInit(pc: Pc) {
    || pc.Listing? || pc.Scanning? || pc.Opened? || pc.Removing?
    || pc.Made? || pc.OwnerOpened? || pc.Locked? || pc.Undoing?
  }

  function Go(s: State, p: nat, pc: Pc): State
    requires p < |s.procs|
  {
    s.(procs := s.procs[p := s.procs[p].(pc := pc)])
  }

  // The process stops, and the locks it holds are released.
  function Leave(s: State, p: nat, pc: Pc): State
    requires p < |s.procs|
  {
    var held := HeldLock(s.procs[p].pc);
    var locks := if held.Some? then s.locks - {held.value} else s.locks;
    var initLock := if s.initLock == Some(p) then None else s.initLock;
    Go(s.(locks := locks, initLock := initLock), p, pc)
  }

  // OpenFile(dir/.owner, O_CREATE) in an existing directory: its file, made if there is none.
  function OwnerFile(s: State, d: Dir): Inode
    requires d in s.dirs
  {
    if s.dirs[d].Some? then s.dirs[d].value else Inode(d, s.serial)
  }

  function WithOwnerFile(s: State, d: Dir): State
    requires d in s.dirs
  {
    if s.dirs[d].Some? then s else s.(dirs := s.dirs[d := Some(Inode(d, s.serial))], serial := s.serial + 1)
  }

  // The directory RemoveAll is working on.
  function Target(pc: Pc): Option<Dir> {
    match pc
    case Removing(_, i) => Some(i.dir)
    case Undoing(d) => Some(d)
    case Cleaning(i) => Some(i.dir)
    case _ => None
  }

  function AfterRemoval(s: State, p: nat): State
    requires p < |s.procs|
  {
    match s.procs[p].pc
    case Removing(todo, i) => Go(s.(locks := s.locks - {i}), p, Scanning(todo))
    case Undoing(_) => Leave(s, p, Failed)
    case Cleaning(i) => Go(s, p, Closing(i))
    case _ => s
  }

  function OnFailure(s: State, p: nat): Option<State>
    requires p < |s.procs|
  {
    match s.procs[p].pc
    case Made(d) => Some(Go(s, p, Undoing(d)))
    case OwnerOpened(i) => Some(Go(s, p, Undoing(i.dir)))
    case Cleaning(i) => Some(Go(s, p, Closing(i)))
    case Waiting => Some(Leave(s, p, Failed))
    case Listing => Some(Leave(s, p, Failed))
    case Scanning(_) => Some(Leave(s, p, Failed))
    case Opened(_, _) => Some(Leave(s, p, Failed))
    case Removing(_, _) => Some(Leave(s, p, Failed))
    case Undoing(_) => Some(Leave(s, p, Failed))
    case _ => None
  }

  /** The state after process p takes the action, if it can. */
  function Do(s: State, p: nat, a: Action): Option<State>
    requires p < |s.procs|
  {
    var me := s.procs[p];
    match a
    case Start => if me.pc.Idle? then Some(Go(s, p, Waiting)) else None
    case TakeInit =>
      if me.pc.Waiting? && s.initLock.None? then Some(Go(s.(initLock := Some(p)), p, Listing)) else None
    case List(order) =>
      if me.pc.Listing? && (set d <- order) == s.dirs.Keys then
        Some(s.(procs := s.procs[p := Process(Scanning(order), s.dirs.Keys, {})]))
      else None
    case Open =>
      if !me.pc.Scanning? || me.pc.todo == [] then None
      else
        var d := me.pc.todo[0];
        if d in s.dirs then Some(Go(WithOwnerFile(s, d), p, Opened(me.pc.todo[1..], OwnerFile(s, d))))
        else Some(Leave(s, p, Failed))
    case TryLock =>
      if !me.pc.Opened? then None
      else if me.pc.inode in s.locks then
        Some(s.(procs := s.procs[p := Process(Scanning(me.pc.todo), me.listed, me.kept + {me.pc.inode.dir})]))
      else Some(Go(s.(locks := s.locks[me.pc.inode := p]), p, Removing(me.pc.todo, me.pc.inode)))
    case Unlink =>
      var d := Target(me.pc);
      if d.Some? && d.value in s.dirs then Some(s.(dirs := s.dirs[d.value := None])) else None
    case Rmdir =>
      var d := Target(me.pc);
      if d.None? then None
      else if d.value !in s.dirs then Some(AfterRemoval(s, p))
      else if s.dirs[d.value].None? then Some(AfterRemoval(s.(dirs := s.dirs - {d.value}), p))
      else None
    case Make(d) =>
      if me.pc.Scanning? && me.pc.todo == [] && d !in s.used then
        Some(Go(s.(dirs := s.dirs[d := None], used := s.used + {d}), p, Made(d)))
      else None
    case OpenOwn =>
      if me.pc.Made? && me.pc.dir in s.dirs then
        Some(Go(WithOwnerFile(s, me.pc.dir), p, OwnerOpened(OwnerFile(s, me.pc.dir))))
      else None
    case LockOwn =>
      if me.pc.OwnerOpened? && me.pc.inode !in s.locks then
        Some(Go(s.(locks := s.locks[me.pc.inode := p]), p, Locked(me.pc.inode)))
      else None
    case Return => if me.pc.Locked? then Some(Go(s.(initLock := None), p, Active(me.pc.inode))) else None
    case BeginCleanup => if me.pc.Active? then Some(Go(s, p, Cleaning(me.pc.inode))) else None
    case Close => if me.pc.Closing? then Some(Leave(s, p, Done)) else None
    case Fail => OnFailure(s, p)
    case Crash => if me.pc.Failed? || me.pc.Done? || me.pc.Crashed? then None else Some(Leave(s, p, Crashed))
  }

  // ---- Runs ----

  datatype Event = Event(process: nat, action: Action)

  predicate Initial(s: State) {
    && s.initLock.None? && s.locks == map[] && s.dirs.Keys <= s.used
    && (forall d <- s.dirs :: s.dirs[d].Some? ==> s.dirs[d].value.dir == d && s.dirs[d].value.serial < s.serial)
    && forall p | 0 <= p < |s.procs| :: s.procs[p] == Process(Idle, {}, {})
  }

  function After(s: State, events: seq<Event>): Option<State> {
    if events == [] then Some(s)
    else
      var before := After(s, events[..|events| - 1]);
      var e := events[|events| - 1];
      if before.Some? && e.process < |before.value.procs| then Do(before.value, e.process, e.action) else None
  }

  // ---- The invariant ----

  // The directory a process made for itself.
  function Home(pc: Pc): Option<Dir> {
    match pc
    case Made(d) => Some(d)
    case OwnerOpened(i) => Some(i.dir)
    case Locked(i) => Some(i.dir)
    case Undoing(d) => Some(d)
    case Active(i) => Some(i.dir)
    case Cleaning(i) => Some(i.dir)
    case Closing(i) => Some(i.dir)
    case _ => None
  }

  // The .owner file in use, from the time it is made until cleanup begins.
  function Owner(pc: Pc): Option<Inode> {
    match pc
    case OwnerOpened(i) => Some(i)
    case Locked(i) => Some(i)
    case Active(i) => Some(i)
    case _ => None
  }

  // What a scan has still to deal with.
  predicate Pending(pc: Pc, d: Dir) {
    match pc
    case Scanning(todo) => d in todo
    case Opened(todo, i) => d in todo || d == i.dir
    case Removing(todo, i) => d in todo || d == i.dir
    case _ => false
  }

  predicate Scanned(pc: Pc) {
    !pc.Idle? && !pc.Waiting? && !pc.Listing? && !pc.Failed? && !pc.Crashed?
  }

  // Names and .owner files that occur anywhere are already given out.
  ghost predicate Known(s: State) {
    FilesKnown(s) && LocksKnown(s)
  }

  ghost predicate FilesKnown(s: State) {
    && s.dirs.Keys <= s.used
    && forall d <- s.dirs :: s.dirs[d].Some? ==> s.dirs[d].value.dir == d && s.dirs[d].value.serial < s.serial
  }

  ghost predicate LocksKnown(s: State) {
    forall i <- s.locks :: i.serial < s.serial
  }

  ghost predicate LocksOwned(s: State) {
    forall i <- s.locks :: s.locks[i] < |s.procs| && HeldLock(s.procs[s.locks[i]].pc) == Some(i)
  }

  // The names one process deals with are known.
  predicate NamesKnown(s: State, me: Process) {
    && (Home(me.pc).Some? ==> Home(me.pc).value in s.used)
    && (me.pc.Opened? ==> me.pc.inode.dir in s.used && me.pc.inode.serial < s.serial)
    && (me.pc.Removing? ==> me.pc.inode.dir in s.used)
    && me.listed <= s.used
  }

  // Until it starts to clean up, a process has its directory, with the .owner file it locked.
  predicate HomeIntact(s: State, pc: Pc) {
    && (pc.Made? ==> pc.dir in s.dirs && s.dirs[pc.dir].None?)
    && (Owner(pc).Some? ==>
          var i := Owner(pc).value; i.dir in s.dirs && s.dirs[i.dir] == Some(i))
    && (pc.OwnerOpened? ==> pc.inode !in s.locks)
  }

  // What a scan has dealt with is gone or was left to its owner.
  ghost predicate Thorough(s: State, me: Process) {
    Scanned(me.pc) ==> forall d <- me.listed :: d in s.dirs ==> d in me.kept || Pending(me.pc, d)
  }

  predicate Fine(s: State, p: nat)
    requires p < |s.procs|
  {
    var me := s.procs[p];
    && (HoldsInit(me.pc) <==> s.initLock == Some(p))
    && (HeldLock(me.pc).Some? ==> HeldLock(me.pc).value in s.locks && s.locks[HeldLock(me.pc).value] == p)
    && NamesKnown(s, me) && HomeIntact(s, me.pc)
  }

  // Two processes' directories differ; a file opened in an active process's directory is the one that
  // process locked, and its directory is not the one the other removes.
  predicate Apart(a: Pc, b: Pc) {
    && (Home(a).Some? ==> Home(a) != Home(b))
    && (b.Active? && a.Opened? && a.inode.dir == b.inode.dir ==> a.inode == b.inode)
    && (b.Active? && a.Removing? ==> a.inode.dir != b.inode.dir)
  }

  ghost predicate Inv(s: State) {
    && Known(s) && LocksOwned(s)
    && (forall p | 0 <= p < |s.procs| :: Fine(s, p) && Thorough(s, s.procs[p]))
    && forall p, q | 0 <= p < |s.procs| && 0 <= q < |s.procs| && p != q :: Apart(s.procs[p].pc, s.procs[q].pc)
  }

  lemma InitialHolds(s: State)
    requires Initial(s)
    ensures Inv(s)
  {
  }

  // ---- What one step can change ----

  predicate InitEffect(s: State, p: nat, s': State) {
    s'.initLock == s.initLock || (s.initLock == None && s'.initLock == Some(p)) ||
    (s.initLock == Some(p) && s'.initLock == None)
  }

  // Other processes' locks stay; a lock this process now has belongs to its place in the program.
  ghost predicate LocksEffect(s: State, p: nat, s': State)
    requires p < |s.procs| && p < |s'.procs|
  {
    && (forall i <- s.locks :: s.locks[i] != p ==> i in s'.locks && s'.locks[i] == s.locks[i])
    && (forall i <- s'.locks :: s'.locks[i] != p ==> i in s.locks && s'.locks[i] == s.locks[i])
    && (forall i <- s'.locks ::
          i in s.locks || (HoldsInit(s.procs[p].pc) && HeldLock(s'.procs[p].pc) == Some(i)))
    && (HeldLock(s.procs[p].pc).Some? && HeldLock(s.procs[p].pc).value in s'.locks ==>
          HeldLock(s'.procs[p].pc) == HeldLock(s.procs[p].pc))
  }

  // Files and directories change only where RemoveAll works or, for the holder of the init lock, where
  // there is no .owner yet; new names are unused ones.
  ghost predicate DirsEffect(s: State, p: nat, s': State)
    requires p < |s.procs|
  {
    && (forall d <- s'.dirs :: d in s.dirs || d !in s.used)
    && (forall d <- s.dirs :: Target(s.procs[p].pc) != Some(d) && (s.dirs[d].Some? || !HoldsInit(s.procs[p].pc)) ==>
          d in s'.dirs && s'.dirs[d] == s.dirs[d])
    && s.used <= s'.used && s.serial <= s'.serial
  }

  predicate PcEffect(s: State, pc: Pc, pc': Pc) {
    && (Home(pc').None? || Home(pc') == Home(pc) || (Home(pc).None? && Home(pc').value !in s.used))
    && (pc'.Opened? ==> HoldsInit(pc) && pc'.inode.dir in s.dirs)
    && (pc'.Opened? && s.dirs[pc'.inode.dir].Some? ==> pc'.inode == s.dirs[pc'.inode.dir].value)
    && (pc'.Removing? ==>
          (pc.Removing? && pc.inode == pc'.inode) || (pc.Opened? && pc.inode == pc'.inode && pc.inode !in s.locks))
    && (pc'.Active? ==> (pc.Active? || pc.Locked?) && pc'.inode == pc.inode)
  }

  ghost predicate OnlyActorMoves(s: State, p: nat, s': State) {
    |s'.procs| == |s.procs| && forall q | 0 <= q < |s.procs| && q != p :: s'.procs[q] == s.procs[q]
  }

  ghost predicate Effect(s: State, p: nat, s': State)
    requires p < |s.procs|
  {
    && OnlyActorMoves(s, p, s') && InitEffect(s, p, s') && LocksEffect(s, p, s') && DirsEffect(s, p, s')
    && PcEffect(s, s.procs[p].pc, s'.procs[p].pc)
  }

  lemma ScanEffect(s: State, p: nat, a: Action)
    requires Known(s) && p < |s.procs| && Fine(s, p) && Do(s, p, a).Some?
    requires a.Start? || a.TakeInit? || a.List? || a.Open? || a.TryLock?
    ensures Effect(s, p, Do(s, p, a).value)
  {
  }

  lemma RemovalEffect(s: State, p: nat, a: Action)
    requires Known(s) && p < |s.procs| && Fine(s, p) && Do(s, p, a).Some?
    requires a.Unlink? || a.Rmdir?
    ensures Effect(s, p, Do(s, p, a).value)
  {
  }

  lemma OwnEffect(s: State, p: nat, a: Action)
    requires Known(s) && p < |s.procs| && Fine(s, p) && Do(s, p, a).Some?
    requires a.Make? || a.OpenOwn? || a.LockOwn?
    ensures Effect(s, p, Do(s, p, a).value)
  {
  }

  lemma LateEffect(s: State, p: nat, a: Action)
    requires Known(s) && p < |s.procs| && Fine(s, p) && Do(s, p, a).Some?
    requires a.Return? || a.BeginCleanup? || a.Close?
    ensures Effect(s, p, Do(s, p, a).value)
  {
  }

  lemma FailureEffect(s: State, p: nat, a: Action)
    requires Known(s) && p < |s.procs| && Fine(s, p) && Do(s, p, a).Some?
    requires a.Fail?
    ensures Effect(s, p, Do(s, p, a).value)
  {
  }

  lemma CrashEffect(s: State, p: nat, a: Action)
    requires Known(s) && p < |s.procs| && Fine(s, p) && Do(s, p, a).Some?
    requires a.Crash?
    ensures Effect(s, p, Do(s, p, a).value)
  {
  }

  lemma ScanFine(s: State, p: nat, a: Action)
    requires Known(s) && p < |s.procs| && Fine(s, p) && Do(s, p, a).Some?
    requires a.Start? || a.TakeInit? || a.List? || a.Open? || a.TryLock?
    ensures Fine(Do(s, p, a).value, p)
  {
  }

  lemma RemovalFine(s: State, p: nat, a: Action)
    requires Known(s) && p < |s.procs| && Fine(s, p) && Do(s, p, a).Some?
    requires a.Unlink? || a.Rmdir?
    ensures Fine(Do(s, p, a).value, p)
  {
  }

  lemma OwnFine(s: State, p: nat, a: Action)
    requires Known(s) && p < |s.procs| && Fine(s, p) && Do(s, p, a).Some?
    requires a.Make? || a.OpenOwn? || a.LockOwn?
    ensures Fine(Do(s, p, a).value, p)
  {
  }

  lemma LateFine(s: State, p: nat, a: Action)
    requires Known(s) && p < |s.procs| && Fine(s, p) && Do(s, p, a).Some?
    requires a.Return? || a.BeginCleanup? || a.Close?
    ensures Fine(Do(s, p, a).value, p)
  {
  }

  lemma FailureFine(s: State, p: nat, a: Action)
    requires Known(s) && p < |s.procs| && Fine(s, p) && Do(s, p, a).Some?
    requires a.Fail?
    ensures Fine(Do(s, p, a).value, p)
  {
  }

  lemma CrashFine(s: State, p: nat, a: Action)
    requires Known(s) && p < |s.procs| && Fine(s, p) && Do(s, p, a).Some?
    requires a.Crash?
    ensures Fine(Do(s, p, a).value, p)
  {
  }

  lemma ActorThorough(s: State, p: nat, a: Action)
    requires Known(s) && p < |s.procs| && Fine(s, p) && Thorough(s, s.procs[p]) && Do(s, p, a).Some?
    ensures Thorough(Do(s, p, a).value, Do(s, p, a).value.procs[p])
  {
  }

  lemma StepFilesKnown(s: State, p: nat, a: Action)
    requires Known(s) && p < |s.procs| && Fine(s, p) && Do(s, p, a).Some?
    ensures FilesKnown(Do(s, p, a).value)
  {
  }

  lemma StepLocksKnown(s: State, p: nat, a: Action)
    requires Known(s) && p < |s.procs| && Fine(s, p) && Do(s, p, a).Some?
    ensures LocksKnown(Do(s, p, a).value)
  {
  }

  // Another process is as well off as before.
  lemma OtherFine(s: State, p: nat, s': State, q: nat)
    requires p < |s.procs| && Effect(s, p, s') && Fine(s, p) && q < |s.procs| && q != p && Fine(s, q)
    requires Apart(s.procs[p].pc, s.procs[q].pc) && Known(s)
    ensures Fine(s', q)
  {
    var me, other := s.procs[p].pc, s.procs[q].pc;
    assert Target(me).Some? ==> me.Removing? || Target(me) == Home(me);
    if other.Made? || Owner(other).Some? {
      var d := Home(other).value;
      assert Target(me) != Some(d);
      assert d in s.dirs && d in s'.dirs && s'.dirs[d] == s.dirs[d];
    }
  }

  lemma OtherThorough(s: State, p: nat, s': State, q: nat)
    requires p < |s.procs| && Effect(s, p, s') && q < |s.procs| && q != p && Fine(s, q) && Thorough(s, s.procs[q])
    ensures Thorough(s', s'.procs[q])
  {
  }

  lemma StillApart(s: State, p: nat, s': State, q: nat)
    requires p < |s.procs| && Effect(s, p, s') && Fine(s, p) && q < |s.procs| && q != p && Fine(s, q) && Known(s)
    requires Apart(s.procs[p].pc, s.procs[q].pc) && Apart(s.procs[q].pc, s.procs[p].pc)
    ensures Apart(s'.procs[p].pc, s'.procs[q].pc) && Apart(s'.procs[q].pc, s'.procs[p].pc)
  {
  }

  lemma LocksStillOwned(s: State, p: nat, s': State)
    requires p < |s.procs| && Effect(s, p, s') && LocksOwned(s) && Fine(s, p)
    ensures LocksOwned(s')
  {
  }

  lemma StepEffect(s: State, p: nat, a: Action)
    requires Known(s) && p < |s.procs| && Fine(s, p) && Do(s, p, a).Some?
    ensures Effect(s, p, Do(s, p, a).value) && Fine(Do(s, p, a).value, p)
  {
    if a.Start? || a.TakeInit? || a.List? || a.Open? || a.TryLock? {
      ScanEffect(s, p, a);
      ScanFine(s, p, a);
    } else if a.Unlink? || a.Rmdir? {
      RemovalEffect(s, p, a);
      RemovalFine(s, p, a);
    } else if a.Make? || a.OpenOwn? || a.LockOwn? {
      OwnEffect(s, p, a);
      OwnFine(s, p, a);
    } else if a.Return? || a.BeginCleanup? || a.Close? {
      LateEffect(s, p, a);
      LateFine(s, p, a);
    } else if a.Fail? {
      FailureEffect(s, p, a);
      FailureFine(s, p, a);
    } else {
      CrashEffect(s, p, a);
      CrashFine(s, p, a);
    }
  }

  lemma InvKept(s: State, p: nat, s': State)
    requires Inv(s) && p < |s.procs| && Effect(s, p, s')
    requires Fine(s', p) && Thorough(s', s'.procs[p]) && Known(s')
    ensures Inv(s')
  {
    LocksStillOwned(s, p, s');
    forall q | 0 <= q < |s'.procs| ensures Fine(s', q) && Thorough(s', s'.procs[q]) {
      if q != p {
        OtherFine(s, p, s', q);
        OtherThorough(s, p, s', q);
      }
    }
    forall q, r | 0 <= q < |s'.procs| && 0 <= r < |s'.procs| && q != r
      ensures Apart(s'.procs[q].pc, s'.procs[r].pc)
    {
      if q == p {
        StillApart(s, p, s', r);
      } else if r == p {
        StillApart(s, p, s', q);
      }
    }
  }

  /** Every step of every process, crashes and failing calls included, keeps the invariant. */
  lemma StepKeeps(s: State, p: nat, a: Action)
    requires Inv(s) && p < |s.procs| && Do(s, p, a).Some?
    ensures Inv(Do(s, p, a).value)
  {
    StepEffect(s, p, a);
    ActorThorough(s, p, a);
    StepFilesKnown(s, p, a);
    StepLocksKnown(s, p, a);
    InvKept(s, p, Do(s, p, a).value);
  }

  lemma {:induction false} RunKeeps(s: State, events: seq<Event>)
    requires Initial(s) && After(s, events).Some?
    ensures Inv(After(s, events).value) && |After(s, events).value.procs| == |s.procs|
    decreases |events|
  {
    if events == [] {
      InitialHolds(s);
    } else {
      var front, e := events[..|events| - 1], events[|events| - 1];
      RunKeeps(s, front);
      StepKeeps(After(s, front).value, e.process, e.action);
      StepEffect(After(s, front).value, e.process, e.action);
    }
  }

  // ---- What users of the directory rely on ----

  ghost predicate Reached(start: State, events: seq<Event>, s: State) {
    Initial(start) && After(start, events) == Some(s)
  }

  /** In every run, whatever another process does next, an active process keeps its directory, its
      .owner file and its lock. */
  lemma ActiveIsSafe(start: State, events: seq<Event>, s: State, p: nat, q: nat, a: Action)
    requires Reached(start, events, s) && p < |s.procs| && q < |s.procs| && p != q
    requires s.procs[q].pc.Active? && Do(s, p, a).Some?
    ensures
      var s', i := Do(s, p, a).value, s.procs[q].pc.inode;
      && i.dir in s.dirs && s.dirs[i.dir] == Some(i) && i in s.locks && s.locks[i] == q
      && i.dir in s'.dirs && s'.dirs[i.dir] == Some(i) && i in s'.locks && s'.locks[i] == q
  {
    RunKeeps(start, events);
    StepEffect(s, p, a);
    assert Fine(s, q) && Fine(s, p);
    OtherFine(s, p, Do(s, p, a).value, q);
  }

  /** Once a process has prepared, each directory its scan found is gone or was left alone. */
  lemma PreparedMeansReclaimed(start: State, events: seq<Event>, s: State, p: nat, d: Dir)
    requires Reached(start, events, s) && p < |s.procs| && (s.procs[p].pc.Locked? || s.procs[p].pc.Active?)
    requires d in s.procs[p].listed && d !in s.procs[p].kept
    ensures d !in s.dirs
  {
    RunKeeps(start, events);
    assert Thorough(s, s.procs[p]);
  }

  /** A directory is left alone only because a live process has it as its own and holds its lock:
      one that is prepared, or one that is removing the directory itself. */
  lemma KeptMeansOwned(start: State, events: seq<Event>, s: State, p: nat)
    requires Reached(start, events, s) && p < |s.procs|
    requires s.procs[p].pc.Opened? && s.procs[p].pc.inode in s.locks
    ensures
      var i := s.procs[p].pc.inode;
      s.locks[i] < |s.procs| && s.locks[i] != p &&
      var owner := s.procs[s.locks[i]].pc;
      (owner.Active? || owner.Cleaning? || owner.Closing?) && owner.inode == i
  {
    RunKeeps(start, events);
    assert Fine(s, p);
    assert Fine(s, s.locks[s.procs[p].pc.inode]);
  }

  /** The init lock closes the window: while a process has a directory that is not locked yet, no other
      process is scanning, and locking it never fails because the lock is taken. */
  lemma NoWindow(start: State, events: seq<Event>, s: State, p: nat, q: nat)
    requires Reached(start, events, s) && p < |s.procs| && q < |s.procs| && p != q
    requires s.procs[p].pc.Made? || s.procs[p].pc.OwnerOpened?
    ensures !HoldsInit(s.procs[q].pc)
    ensures s.procs[p].pc.OwnerOpened? ==> Do(s, p, LockOwn).Some?
  {
    RunKeeps(start, events);
    assert Fine(s, p) && Fine(s, q);
  }

  // ---- One process alone ----

  predicate OwnerLocked(s: State, d: Dir)
    requires d in s.dirs
  {
    s.dirs[d].Some? && s.dirs[d].value in s.locks
  }

  // The state at some later moment of a prepare that nobody disturbs, with these directories still to do.
  ghost predicate Undisturbed(before: State, s: State, p: nat, todo: seq<Dir>)
    requires p < |before.procs|
  {
    && |s.procs| == |before.procs| && OnlyActorMoves(before, p, s)
    && s.locks == before.locks && s.used == before.used && s.initLock == Some(p)
    && s.dirs.Keys <= before.dirs.Keys
    && (forall d <- before.dirs :: d in todo ==> d in s.dirs && s.dirs[d] == before.dirs[d])
    && (forall d <- before.dirs :: d !in todo ==> (d in s.dirs <==> OwnerLocked(before, d)))
    && (forall d <- s.dirs :: d !in todo ==> s.dirs[d] == before.dirs[d])
  }

  // Where an undisturbed scan stands when it turns to its next entry.
  ghost predicate AtEntry(before: State, s: State, p: nat) {
    && p < |before.procs| && p < |s.procs| && FilesKnown(before) && LocksKnown(before) && before.serial <= s.serial
    && s.procs[p].pc.Scanning? && Undisturbed(before, s, p, s.procs[p].pc.todo)
    && (forall d <- s.procs[p].pc.todo :: d in before.dirs)
    && (forall i, j | 0 <= i < j < |s.procs[p].pc.todo| :: s.procs[p].pc.todo[i] != s.procs[p].pc.todo[j])
  }

  // The owner file of the next entry is opened.
  lemma EntryOpens(before: State, s: State, p: nat)
    requires AtEntry(before, s, p) && s.procs[p].pc.todo != []
    ensures Do(s, p, Open).Some?
    ensures var s', todo := Do(s, p, Open).value, s.procs[p].pc.todo;
      && |s'.procs| == |s.procs| && OnlyActorMoves(s, p, s') && s'.locks == s.locks && s'.used == s.used
      && s'.initLock == s.initLock && before.serial <= s'.serial
      && s'.procs[p].pc == Opened(todo[1..], OwnerFile(s, todo[0]))
      && s'.dirs.Keys == s.dirs.Keys && (forall d <- s.dirs :: d != todo[0] ==> s'.dirs[d] == s.dirs[d])
      && s'.dirs[todo[0]] == Some(OwnerFile(s, todo[0])) && OwnerFile(s, todo[0]).dir == todo[0]
      && (OwnerFile(s, todo[0]) in s.locks <==> OwnerLocked(before, todo[0]))
      && (OwnerLocked(before, todo[0]) ==> s'.dirs == s.dirs)
  {
    assert s.procs[p].pc.todo[0] in s.procs[p].pc.todo;
  }

  lemma PassesOver(s: State, p: nat)
    requires p < |s.procs| && s.procs[p].pc.Opened? && s.procs[p].pc.inode in s.locks
    ensures Do(s, p, TryLock).Some?
    ensures var s' := Do(s, p, TryLock).value;
      && OnlyActorMoves(s, p, s') && s'.procs[p].pc == Scanning(s.procs[p].pc.todo)
      && s' == s.(procs := s'.procs)
  {
  }

  lemma Removes(s: State, p: nat)
    requires p < |s.procs| && s.procs[p].pc.Opened? && s.procs[p].pc.inode !in s.locks
    requires s.procs[p].pc.inode.dir in s.dirs
    ensures Do(s, p, TryLock).Some? && Do(Do(s, p, TryLock).value, p, Unlink).Some?
    ensures Do(Do(Do(s, p, TryLock).value, p, Unlink).value, p, Rmdir).Some?
    ensures var s' := Do(Do(Do(s, p, TryLock).value, p, Unlink).value, p, Rmdir).value;
      && OnlyActorMoves(s, p, s') && s'.procs[p].pc == Scanning(s.procs[p].pc.todo)
      && s' == s.(procs := s'.procs, dirs := s.dirs - {s.procs[p].pc.inode.dir})
  {
    var i := s.procs[p].pc.inode;
    var s1 := Do(s, p, TryLock).value;
    assert s1.procs[p].pc == Removing(s.procs[p].pc.todo, i) && s1.locks == s.locks[i := p] && s1.dirs == s.dirs;
    var s2 := Do(s1, p, Unlink).value;
    assert s2 == s1.(dirs := s1.dirs[i.dir := None]);
    assert s.locks[i := p] - {i} == s.locks;
    assert s.dirs[i.dir := None] - {i.dir} == s.dirs - {i.dir};
  }

  class Host {
    var state: State

    constructor (start: State)
      ensures state == start
    {
      state := start;
    }

    // One step of the process.
    method Take(p: nat, a: Action)
      requires p < |state.procs| && Do(state, p, a).Some?
      modifies this
      ensures state == Do(old(state), p, a).value
    {
      state := Do(state, p, a).value;
    }

    // One entry of the scan.
    method Entry(p: nat, ghost before: State)
      requires AtEntry(before, state, p) && state.procs[p].pc.todo != []
      modifies this
      ensures AtEntry(before, state, p) && state.procs[p].pc.todo == old(state).procs[p].pc.todo[1..]
    {
      ghost var start := state;
      EntryOpens(before, state, p);
      Take(p, Open);
      if state.procs[p].pc.inode in state.locks {
        PassesOver(state, p);
        Take(p, TryLock);
        EntryKept(before, start, state, p);
      } else {
        Removes(state, p);
        Take(p, TryLock);
        Take(p, Unlink);
        Take(p, Rmdir);
        assert start.procs[p].pc.todo[0] in start.procs[p].pc.todo;
        EntryRemoved(before, start, state, p);
      }
    }

    /** Undisturbed from the moment it takes the init lock, a process removes exactly the directories whose
        owner lock is free, leaves the others as they are, and ends with one new directory, locked. */
    method Prepare(p: nat, order: seq<Dir>, name: Dir)
      requires p < |state.procs| && Known(state) && state.procs[p].pc.Waiting? && state.initLock.None?
      requires (set d <- order) == state.dirs.Keys && forall i, j | 0 <= i < j < |order| :: order[i] != order[j]
      requires name !in state.used
      modifies this
      ensures p < |state.procs| && OnlyActorMoves(old(state), p, state)
      ensures state.procs[p].pc.Active? && state.procs[p].pc.inode.dir == name && state.initLock.None?
      ensures forall d <- old(state).dirs :: d in state.dirs <==> OwnerLocked(old(state), d)
      ensures forall d <- state.dirs :: if d == name then state.dirs[d] == Some(state.procs[p].pc.inode)
        else d in old(state).dirs && state.dirs[d] == old(state).dirs[d]
      ensures state.locks == old(state).locks[state.procs[p].pc.inode := p]
    {
      ghost var before := state;
      Take(p, TakeInit);
      Take(p, List(order));
      ScanBegins(before, state, p, order);
      for n := 0 to |order|
        invariant AtEntry(before, state, p) && |state.procs[p].pc.todo| == |order| - n
      {
        Entry(p, before);
      }
      MakesOwn(p, name, before);
    }

    // Making, opening and locking the process's own directory.
    method MakesOwn(p: nat, name: Dir, ghost before: State)
      requires AtEntry(before, state, p) && state.procs[p].pc.todo == [] && name !in state.used && name !in before.dirs
      modifies this
      ensures p < |state.procs| && OnlyActorMoves(old(state), p, state) && state.initLock.None?
      ensures state.procs[p].pc.Active? && state.procs[p].pc.inode.dir == name
      ensures state.dirs == old(state).dirs[name := Some(state.procs[p].pc.inode)]
      ensures state.locks == old(state).locks[state.procs[p].pc.inode := p]
    {
      Take(p, Make(name));
      Take(p, OpenOwn);
      Take(p, LockOwn);
      Take(p, Return);
    }
  }

  lemma ScanBegins(before: State, s: State, p: nat, order: seq<Dir>)
    requires p < |before.procs| && Known(before)
    requires (set d <- order) == before.dirs.Keys && forall i, j | 0 <= i < j < |order| :: order[i] != order[j]
    requires |s.procs| == |before.procs| && OnlyActorMoves(before, p, s) && s.procs[p].pc == Scanning(order)
    requires s == before.(initLock := Some(p), procs := s.procs)
    ensures AtEntry(before, s, p)
  {
    assert forall d :: d in order <==> d in (set x <- order);
  }

  // A locked entry is passed over.
  lemma EntryKept(before: State, s: State, s': State, p: nat)
    requires AtEntry(before, s, p) && s.procs[p].pc.todo != [] && OwnerLocked(before, s.procs[p].pc.todo[0])
    requires OnlyActorMoves(s, p, s') && s'.procs[p].pc == Scanning(s.procs[p].pc.todo[1..])
    requires s'.locks == s.locks && s'.used == s.used && s'.initLock == s.initLock && s'.dirs == s.dirs
    requires before.serial <= s'.serial
    ensures AtEntry(before, s', p)
  {
    var d := s.procs[p].pc.todo[0];
    TodoShrinks(s.procs[p].pc.todo);
    assert d in s.dirs && s.dirs[d] == before.dirs[d];
  }

  // An entry whose lock is free is removed.
  lemma EntryRemoved(before: State, s: State, s': State, p: nat)
    requires AtEntry(before, s, p) && s.procs[p].pc.todo != []
    requires s.procs[p].pc.todo[0] in before.dirs && !OwnerLocked(before, s.procs[p].pc.todo[0])
    requires OnlyActorMoves(s, p, s') && s'.procs[p].pc == Scanning(s.procs[p].pc.todo[1..])
    requires s'.locks == s.locks && s'.used == s.used && s'.initLock == s.initLock && before.serial <= s'.serial
    requires s'.dirs == s.dirs - {s.procs[p].pc.todo[0]}
    ensures AtEntry(before, s', p)
  {
    TodoShrinks(s.procs[p].pc.todo);
  }

  lemma TodoShrinks(todo: seq<Dir>)
    requires todo != [] && forall i, j | 0 <= i < j < |todo| :: todo[i] != todo[j]
    ensures forall d :: d in todo[1..] <==> d in todo && d != todo[0]
  {
    assert todo == [todo[0]] + todo[1..];
  }
}
