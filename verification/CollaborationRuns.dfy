/** The whole collaboration system: browsers, connections, the shared hub and the durable document,
    as steps that may interleave in any order. Hub delivery may lose, repeat and reorder messages;
    connections may drop and browsers may restart at any point. */
module CollaborationRuns {
  import opened Wrappers
  import opened WorkingDocument
  import opened CollaborationConnection

  // ---- The browser ----

  // The last contiguous sequence the browser has applied, and whether this socket is past recovery.
  datatype Cursor = Cursor(latest: nat, ready: bool)

  function Max(a: nat, b: nat): nat { if a < b then b else a }

  // Handling one frame; None when a gap makes the browser close the socket.
  function Receive(c: Cursor, f: Frame): Option<Cursor> {
    match f
    case UpdateFrame(u) =>
      if c.ready && u.sequence > c.latest + 1 then None else Some(c.(latest := Max(c.latest, u.sequence)))
    case SnapshotFrame(s) => Some(c.(latest := Max(c.latest, s.upTo)))
    case Ready(latest) => Some(Cursor(Max(c.latest, latest), true))
    case _ => Some(c)
  }

  // Y.applyUpdate
  function Merge(doc: State, f: Frame): State {
    match f
    case UpdateFrame(u) => doc + {u.payload}
    case SnapshotFrame(s) => doc + s.state
    case _ => doc
  }

  // saved* is the offline record: cursor and state are stored together.
  datatype Client = Client(cursor: Cursor, doc: State, savedLatest: nat, savedDoc: State)

  datatype Uplink = Submit(key: UpdateKey, payload: Payload) | Save(upTo: nat, state: State, compact: bool)

  // down and up are the two directions of the socket.
  datatype Conn = Conn(sequence: nat, down: seq<Frame>, up: seq<Uplink>)

  // log and compacted are history: every payload ever appended, and the highest compacted sequence.
  datatype System = System(
    doc: Document, published: set<Update>, clients: map<ClientId, Client>, conns: map<ClientId, Conn>,
    log: seq<Payload>, compacted: nat)

  datatype Step =
    | Join(c: ClientId)
    | Connect(c: ClientId)
    | Broadcast(c: ClientId, update: Update, authorized: bool)
    | Text(c: ClientId, authorized: bool)
    | RecoveryTick(c: ClientId, authorized: bool)
    | Drop(c: ClientId)
    | Deliver(c: ClientId)
    | Edit(c: ClientId, payload: Payload)
    | SubmitUpdate(c: ClientId, key: UpdateKey, payload: Payload)
    | SendSnapshot(c: ClientId, compact: bool)
    | ClaimSnapshot(c: ClientId, upTo: nat, state: State, compact: bool)
    | Handle(c: ClientId, authorized: bool)
    | AppendElsewhere(client: ClientId, key: UpdateKey, payload: Payload, announced: bool)
    | Persist(c: ClientId)
    | Restart(c: ClientId)
    | Retire

  const START := System(NEW_DOCUMENT, {}, map[], map[], [], 0)

  function WithConn(s: System, c: ClientId, conn: Conn): System {
    s.(conns := s.conns[c := conn])
  }

  function WithoutConn(s: System, c: ClientId): System {
    s.(conns := s.conns - {c})
  }

  // A round of the server's select loop on connection c.
  function Serve(s: System, c: ClientId, select: Select): System
    requires c in s.conns
  {
    var conn := s.conns[c];
    if !StaysOpen(select) then WithoutConn(s, c)
    else WithConn(s, c, conn.(sequence := Advance(conn.sequence, select),
                              down := conn.down + Output(conn.sequence, select)))
  }

  function Appended(s: System, d: Document, update: Update, announced: bool): System {
    s.(doc := d,
       log := if d.latest == s.doc.latest then s.log else s.log + [update.payload],
       published := if announced then s.published + {update} else s.published)
  }

  // The server's reader on connection c: persist, then broadcast; a failure closes the connection.
  function HandleUplink(s: System, c: ClientId): System
    requires c in s.conns && s.conns[c].up != []
  {
    var conn := s.conns[c];
    var popped := WithConn(s, c, conn.(up := conn.up[1..]));
    match conn.up[0]
    case Submit(key, payload) =>
      (match Append(s.doc, c, key, payload)
       case Ok((d, update)) => Appended(popped, d, update, true)
       case Err(_) => WithoutConn(s, c))
    case Save(upTo, state, compact) =>
      (match SaveSnapshot(s.doc, upTo, state, compact)
       case Ok(d) => popped.(doc := d, compacted := if compact then Max(s.compacted, upTo) else s.compacted)
       case Err(_) => WithoutConn(s, c))
  }

  function ReceiveFrame(s: System, c: ClientId): System
    requires c in s.conns && c in s.clients && s.conns[c].down != []
  {
    var conn, client := s.conns[c], s.clients[c];
    var f := conn.down[0];
    match Receive(client.cursor, f)
    case None => WithoutConn(s.(clients := s.clients[c := client.(cursor := client.cursor.(ready := false))]), c)
    case Some(cursor) =>
      WithConn(s.(clients := s.clients[c := client.(cursor := cursor, doc := Merge(client.doc, f))]), c,
        conn.(down := conn.down[1..]))
  }

  // None when the step cannot be taken.
  function Next(s: System, step: Step): Option<System> {
    match step
    case Join(c) =>
      if c in s.clients then None
      else Some(s.(clients := s.clients[c := Client(Cursor(0, false), {}, 0, {})]))
    case Connect(c) =>
      if c !in s.clients || c in s.conns then None
      else
        var client := s.clients[c];
        var recovery := LoadSince(s.doc, client.cursor.latest);
        Some(WithConn(s.(clients := s.clients[c := client.(cursor := client.cursor.(ready := false))]), c,
          Conn(recovery.latest, RecoveryFrames(recovery), [])))
    case Broadcast(c, update, authorized) =>
      if c !in s.conns || update !in s.published then None
      else Some(Serve(s, c, Message(authorized, UpdateFrame(update))))
    case Text(c, authorized) =>
      if c !in s.conns then None else Some(Serve(s, c, Message(authorized, TextFrame)))
    case RecoveryTick(c, authorized) =>
      if c !in s.conns then None
      else Some(Serve(s, c, Tick(authorized, Some(LoadSince(s.doc, s.conns[c].sequence)))))
    case Drop(c) =>
      if c !in s.conns then None else Some(WithoutConn(s, c))
    case Deliver(c) =>
      if c !in s.conns || c !in s.clients || s.conns[c].down == [] then None else Some(ReceiveFrame(s, c))
    case Edit(c, payload) =>
      if c !in s.clients then None
      else Some(s.(clients := s.clients[c := s.clients[c].(doc := s.clients[c].doc + {payload})]))
    case SubmitUpdate(c, key, payload) =>
      if c !in s.conns then None
      else Some(WithConn(s, c, s.conns[c].(up := s.conns[c].up + [Submit(key, payload)])))
    case SendSnapshot(c, compact) =>
      if c !in s.conns || c !in s.clients || !s.clients[c].cursor.ready then None
      else Some(WithConn(s, c, s.conns[c].(up := s.conns[c].up +
        [Save(s.clients[c].cursor.latest, s.clients[c].doc, compact)])))
    // Any other program may send any state, so long as it contains what the snapshot claims.
    case ClaimSnapshot(c, upTo, state, compact) =>
      if c !in s.conns || !Holds(s.log, state, upTo) then None
      else Some(WithConn(s, c, s.conns[c].(up := s.conns[c].up + [Save(upTo, state, compact)])))
    case Handle(c, authorized) =>
      if c !in s.conns || s.conns[c].up == [] then None
      else Some(if authorized then HandleUplink(s, c) else WithoutConn(s, c))
    case AppendElsewhere(client, key, payload, announced) =>
      (match Append(s.doc, client, key, payload)
       case Ok((d, update)) => Some(Appended(s, d, update, announced))
       case Err(_) => None)
    case Persist(c) =>
      if c !in s.clients then None
      else
        var client := s.clients[c];
        Some(s.(clients := s.clients[c := client.(savedLatest := client.cursor.latest, savedDoc := client.doc)]))
    case Restart(c) =>
      if c !in s.clients then None
      else
        var client := s.clients[c];
        Some(WithoutConn(s.(clients := s.clients[c :=
          client.(cursor := Cursor(client.savedLatest, false), doc := client.savedDoc)]), c))
    case Retire =>
      Some(s.(doc := s.doc.(active := false)))
  }

  // ---- What every reachable state satisfies ----

  predicate Known(log: seq<Payload>, u: Update) {
    1 <= u.sequence <= |log| && log[u.sequence - 1] == u.payload
  }

  // A browser at this cursor may apply this frame without its cursor outrunning its document.
  predicate Safe(log: seq<Payload>, c: Cursor, f: Frame) {
    match f
    case UpdateFrame(u) => Known(log, u) && (!c.ready ==> u.sequence <= c.latest + 1)
    case SnapshotFrame(s) => Holds(log, s.state, s.upTo)
    case Ready(latest) => latest <= c.latest
    case _ => true
  }

  // The cursor after all frames in flight; None when one of them makes the browser close.
  function Drain(c: Cursor, q: seq<Frame>): Option<Cursor> {
    if q == [] then Some(c)
    else
      var before := Drain(c, q[..|q| - 1]);
      if before.None? then None else Receive(before.value, q[|q| - 1])
  }

  predicate AllSafe(log: seq<Payload>, c: Cursor, q: seq<Frame>) {
    q == [] ||
    var before := q[..|q| - 1];
    AllSafe(log, c, before) && (Drain(c, before).Some? ==> Safe(log, Drain(c, before).value, q[|q| - 1]))
  }

  // The browser will be past recovery, and not behind what the server vouches for.
  predicate CaughtUp(log: seq<Payload>, c: Cursor, q: seq<Frame>, sequence: nat) {
    Drain(c, q).Some? ==> Drain(c, q).value.ready && sequence <= Drain(c, q).value.latest <= |log|
  }

  predicate ClientOk(log: seq<Payload>, client: Client) {
    Holds(log, client.doc, client.cursor.latest) && Holds(log, client.savedDoc, client.savedLatest)
  }

  predicate ConnOk(log: seq<Payload>, c: Cursor, conn: Conn) {
    && conn.sequence <= |log|
    && AllSafe(log, c, conn.down)
    && CaughtUp(log, c, conn.down, conn.sequence)
    && forall i | 0 <= i < |conn.up| :: conn.up[i].Save? ==> Holds(log, conn.up[i].state, conn.up[i].upTo)
  }

  predicate Inv(s: System) {
    && Stores(s.doc, s.log, s.compacted)
    && (forall u | u in s.published :: Known(s.log, u))
    && (forall c | c in s.clients :: ClientOk(s.log, s.clients[c]))
    && (forall c | c in s.conns :: c in s.clients && ConnOk(s.log, s.clients[c].cursor, s.conns[c]))
  }

  // ---- Frames in flight ----

  lemma Enqueue(log: seq<Payload>, c: Cursor, q: seq<Frame>, f: Frame)
    ensures AllSafe(log, c, q + [f]) <==>
            AllSafe(log, c, q) && (Drain(c, q).Some? ==> Safe(log, Drain(c, q).value, f))
    ensures Drain(c, q + [f]) == if Drain(c, q).None? then None else Receive(Drain(c, q).value, f)
  {
    assert (q + [f])[..|q|] == q;
  }

  // The browser may handle the oldest frame first.
  lemma {:induction false} Dequeue(log: seq<Payload>, c: Cursor, q: seq<Frame>)
    requires q != [] && AllSafe(log, c, q)
    ensures Safe(log, c, q[0])
    ensures Receive(c, q[0]).None? ==> Drain(c, q).None?
    ensures Receive(c, q[0]).Some? ==>
              AllSafe(log, Receive(c, q[0]).value, q[1..]) && Drain(c, q) == Drain(Receive(c, q[0]).value, q[1..])
  {
    var before := q[..|q| - 1];
    if before == [] {
      assert q[1..] == [];
    } else {
      Dequeue(log, c, before);
      assert before[0] == q[0];
      assert q[1..][..|q[1..]| - 1] == before[1..];
    }
  }

  // Appending to the log harms nothing in flight.
  lemma {:induction false} LongerLog(log: seq<Payload>, log': seq<Payload>, c: Cursor, q: seq<Frame>)
    requires log <= log' && AllSafe(log, c, q)
    ensures AllSafe(log', c, q)
  {
    if q != [] {
      LongerLog(log, log', c, q[..|q| - 1]);
    }
  }

  // Once closed, always closed: nothing more needs to be safe.
  lemma {:induction false} AfterClose(log: seq<Payload>, c: Cursor, q: seq<Frame>, more: seq<Frame>)
    requires AllSafe(log, c, q) && Drain(c, q).None?
    ensures AllSafe(log, c, q + more) && Drain(c, q + more).None?
  {
    if more == [] {
      assert q + more == q;
    } else {
      AfterClose(log, c, q, more[..|more| - 1]);
      Enqueue(log, c, q + more[..|more| - 1], more[|more| - 1]);
      assert q + more == (q + more[..|more| - 1]) + [more[|more| - 1]];
    }
  }

  // A browser that starts at c ends at d after these frames, all of them safe on the way.
  predicate Leads(log: seq<Payload>, c: Cursor, q: seq<Frame>, d: Cursor) {
    AllSafe(log, c, q) && Drain(c, q) == Some(d)
  }

  lemma Leads1(log: seq<Payload>, c: Cursor, f: Frame)
    requires Safe(log, c, f) && Receive(c, f).Some?
    ensures Leads(log, c, [f], Receive(c, f).value)
  {
    Enqueue(log, c, [], f);
    assert [] + [f] == [f];
  }

  lemma {:induction false} LeadsOn(log: seq<Payload>, c: Cursor, q: seq<Frame>, d: Cursor, more: seq<Frame>, e: Cursor)
    requires Leads(log, c, q, d) && Leads(log, d, more, e)
    ensures Leads(log, c, q + more, e)
  {
    if more == [] {
      assert q + more == q;
    } else {
      var before, last := more[..|more| - 1], more[|more| - 1];
      var f := Drain(d, before).value;
      LeadsOn(log, c, q, d, before, f);
      Enqueue(log, c, q + before, last);
      assert q + more == (q + before) + [last];
    }
  }

  // Consecutive updates from a point the browser has reached carry it to their end.
  lemma {:induction false} UpdatesLead(log: seq<Payload>, c: Cursor, updates: seq<Update>, from: nat)
    requires from <= c.latest && from + |updates| <= |log|
    requires forall i | 0 <= i < |updates| :: updates[i] == Update(from + 1 + i, log[from + i])
    ensures Leads(log, c, UpdateFrames(updates), c.(latest := Max(c.latest, from + |updates|)))
  {
    if updates != [] {
      var last := |updates| - 1;
      UpdatesLead(log, c, updates[..last], from);
      Enqueue(log, c, UpdateFrames(updates[..last]), UpdateFrame(updates[last]));
    }
  }

  // What precedes the updates of a recovery, and the sequence they go on from.
  function RecoveryHead(r: Recovery): seq<Frame> {
    [Hello] + if r.snapshot.Some? then [SnapshotFrame(r.snapshot.value)] else []
  }

  function RecoveryFrom(r: Recovery, last: nat): nat {
    if r.snapshot.Some? then r.snapshot.value.upTo else last
  }

  lemma HeadLeads(log: seq<Payload>, c: Cursor, r: Recovery, last: nat)
    requires Covers(r, log, last) && last <= c.latest <= |log|
    ensures Leads(log, c, RecoveryHead(r), c.(latest := Max(c.latest, RecoveryFrom(r, last))))
  {
    Leads1(log, c, Hello);
    if r.snapshot.Some? {
      var d := c.(latest := Max(c.latest, r.snapshot.value.upTo));
      Leads1(log, c, SnapshotFrame(r.snapshot.value));
      LeadsOn(log, c, [Hello], c, [SnapshotFrame(r.snapshot.value)], d);
    }
  }

  // A recovery brings a browser that has reached its cursor to the end of the log.
  lemma RecoveryLeads(log: seq<Payload>, c: Cursor, r: Recovery, last: nat)
    requires Covers(r, log, last) && last <= c.latest <= |log|
    ensures Leads(log, c, RecoveryFrames(r), Cursor(|log|, true))
  {
    var head, from := RecoveryHead(r), RecoveryFrom(r, last);
    var d, e := c.(latest := Max(c.latest, from)), c.(latest := |log|);
    HeadLeads(log, c, r, last);
    UpdatesLead(log, d, r.updates, from);
    LeadsOn(log, c, head, d, UpdateFrames(r.updates), e);
    Leads1(log, e, Ready(r.latest));
    LeadsOn(log, c, head + UpdateFrames(r.updates), e, [Ready(r.latest)], Cursor(|log|, true));
    assert RecoveryFrames(r) == head + UpdateFrames(r.updates) + [Ready(r.latest)];
  }

  /** A recovery appended to a socket whose browser has reached the recovery's cursor is safe and brings
      the browser to the end of the log. */
  lemma RecoverySafe(log: seq<Payload>, c: Cursor, q: seq<Frame>, r: Recovery, last: nat)
    requires AllSafe(log, c, q) && Covers(r, log, last)
    requires Drain(c, q).Some? ==> last <= Drain(c, q).value.latest <= |log|
    ensures var q' := q + RecoveryFrames(r);
            && AllSafe(log, c, q')
            && Drain(c, q') == if Drain(c, q).Some? then Some(Cursor(|log|, true)) else None
  {
    if Drain(c, q).None? {
      AfterClose(log, c, q, RecoveryFrames(r));
    } else {
      var d := Drain(c, q).value;
      RecoveryLeads(log, d, r, last);
      LeadsOn(log, c, q, d, RecoveryFrames(r), Cursor(|log|, true));
    }
  }

  // Applying a safe frame keeps the document ahead of the cursor.
  lemma ReceiveKeeps(log: seq<Payload>, c: Cursor, doc: State, f: Frame)
    requires Holds(log, doc, c.latest) && Safe(log, c, f) && Receive(c, f).Some?
    ensures Holds(log, Merge(doc, f), Receive(c, f).value.latest)
  {
  }

  // ---- Every step keeps the invariant ----

  lemma StartInv()
    ensures Inv(START)
  {
  }

  lemma LogGrows(s: System, d: Document, update: Update, announced: bool, compacted: nat)
    requires Inv(s) && s.compacted == compacted
    requires var log' := if d.latest == s.doc.latest then s.log else s.log + [update.payload];
             s.log <= log' && Stores(d, log', compacted) && Known(log', update)
    ensures Inv(Appended(s, d, update, announced))
  {
    var s' := Appended(s, d, update, announced);
    forall c | c in s.conns ensures ConnOk(s'.log, s.clients[c].cursor, s.conns[c]) {
      LongerLog(s.log, s'.log, s.clients[c].cursor, s.conns[c].down);
      var up := s.conns[c].up;
      forall i | 0 <= i < |up| && up[i].Save? ensures Holds(s'.log, up[i].state, up[i].upTo) {
        assert Holds(s.log, up[i].state, up[i].upTo);
      }
    }
    forall c | c in s.clients ensures ClientOk(s'.log, s.clients[c]) {
      assert ClientOk(s.log, s.clients[c]);
    }
  }

  lemma AppendInv(s: System, client: ClientId, key: UpdateKey, payload: Payload, announced: bool)
    requires Inv(s) && Append(s.doc, client, key, payload).Ok?
    ensures var (d, update) := Append(s.doc, client, key, payload).value;
            Inv(Appended(s, d, update, announced))
  {
    AppendKeeps(s.doc, s.log, s.compacted, client, key, payload);
    var (d, update) := Append(s.doc, client, key, payload).value;
    LogGrows(s, d, update, announced, s.compacted);
  }

  // A recovery from the browser's own cursor, on an empty socket, brings it to the end of the log.
  lemma RecoveryOpens(d: Document, log: seq<Payload>, compacted: nat, cursor: Cursor)
    requires Stores(d, log, compacted) && cursor.latest <= |log|
    ensures var r := LoadSince(d, cursor.latest);
            && r.latest == |log|
            && AllSafe(log, cursor, RecoveryFrames(r))
            && Drain(cursor, RecoveryFrames(r)) == Some(Cursor(|log|, true))
  {
    var r := LoadSince(d, cursor.latest);
    RecoveryCovers(d, log, compacted, cursor.latest);
    RecoveryLeads(log, cursor, r, cursor.latest);
  }

  lemma ConnectInv(s: System, c: ClientId)
    requires Inv(s) && Next(s, Connect(c)).Some?
    ensures Inv(Next(s, Connect(c)).value)
  {
    var cursor := s.clients[c].cursor.(ready := false);
    assert ClientOk(s.log, s.clients[c]);
    RecoveryOpens(s.doc, s.log, s.compacted, cursor);
  }

  lemma BroadcastInv(s: System, c: ClientId, f: Frame, authorized: bool)
    requires Inv(s) && c in s.conns
    requires f.TextFrame? || (f.UpdateFrame? && Known(s.log, f.update))
    ensures Inv(Serve(s, c, Message(authorized, f)))
  {
    Enqueue(s.log, s.clients[c].cursor, s.conns[c].down, f);
  }

  lemma TickInv(s: System, c: ClientId, authorized: bool)
    requires Inv(s) && c in s.conns
    ensures Inv(Serve(s, c, Tick(authorized, Some(LoadSince(s.doc, s.conns[c].sequence)))))
  {
    var conn := s.conns[c];
    var r := LoadSince(s.doc, conn.sequence);
    RecoveryCovers(s.doc, s.log, s.compacted, conn.sequence);
    RecoverySafe(s.log, s.clients[c].cursor, conn.down, r, conn.sequence);
    assert conn.down + [] == conn.down;
  }

  lemma DeliverInv(s: System, c: ClientId)
    requires Inv(s) && Next(s, Deliver(c)).Some?
    ensures Inv(Next(s, Deliver(c)).value)
  {
    var cursor, q := s.clients[c].cursor, s.conns[c].down;
    assert ClientOk(s.log, s.clients[c]);
    Dequeue(s.log, cursor, q);
    if Receive(cursor, q[0]).Some? {
      ReceiveKeeps(s.log, cursor, s.clients[c].doc, q[0]);
    }
  }

  lemma PopUplink(s: System, c: ClientId)
    requires Inv(s) && c in s.conns && s.conns[c].up != []
    ensures Inv(WithConn(s, c, s.conns[c].(up := s.conns[c].up[1..])))
  {
  }

  lemma HandleInv(s: System, c: ClientId, authorized: bool)
    requires Inv(s) && Next(s, Handle(c, authorized)).Some?
    ensures Inv(Next(s, Handle(c, authorized)).value)
  {
    PopUplink(s, c);
    var popped := WithConn(s, c, s.conns[c].(up := s.conns[c].up[1..]));
    match s.conns[c].up[0] {
      case Submit(key, payload) =>
        if Append(s.doc, c, key, payload).Ok? {
          AppendInv(popped, c, key, payload, true);
        }
      case Save(upTo, state, compact) =>
        assert Holds(s.log, state, upTo);
        if SaveSnapshot(s.doc, upTo, state, compact).Ok? {
          SnapshotKeeps(s.doc, s.log, s.compacted, upTo, state, compact);
        }
    }
  }

  lemma UplinkInv(s: System, step: Step)
    requires Inv(s) && Next(s, step).Some?
    requires step.SubmitUpdate? || step.SendSnapshot? || step.ClaimSnapshot?
    ensures Inv(Next(s, step).value)
  {
    if step.SendSnapshot? {
      assert ClientOk(s.log, s.clients[step.c]);
    }
  }

  // Steps of one browser, and the document's retirement.
  lemma LocalInv(s: System, step: Step)
    requires Inv(s) && Next(s, step).Some?
    requires step.Join? || step.Drop? || step.Edit? || step.Persist? || step.Restart? || step.Retire?
    ensures Inv(Next(s, step).value)
  {
    var s' := Next(s, step).value;
    if step.Drop? || step.Retire? {
      SameClientsInv(s, s');
    } else {
      if step.c in s.clients {
        assert ClientOk(s.log, s.clients[step.c]);
      }
      OneClientInv(s, s', step.c);
    }
  }

  lemma SameClientsInv(s: System, s': System)
    requires Inv(s) && s'.clients == s.clients && s'.published == s.published && s'.log == s.log
    requires s'.compacted == s.compacted && s'.doc == s.doc.(active := s'.doc.active)
    requires forall c <- s'.conns :: c in s.conns && s'.conns[c] == s.conns[c]
    ensures Inv(s')
  {
  }

  lemma OneClientInv(s: System, s': System, c: ClientId)
    requires Inv(s) && s'.doc == s.doc && s'.published == s.published && s'.log == s.log
    requires s'.compacted == s.compacted && c in s'.clients && ClientOk(s.log, s'.clients[c])
    requires s'.clients == s.clients[c := s'.clients[c]]
    requires forall d <- s'.conns :: d in s.conns && s'.conns[d] == s.conns[d]
    requires c in s'.conns ==> s'.clients[c].cursor == s.clients[c].cursor
    ensures Inv(s')
  {
  }

  /** No step leaves the invariant. */
  lemma StepKeeps(s: System, step: Step)
    requires Inv(s) && Next(s, step).Some?
    ensures Inv(Next(s, step).value)
  {
    match step {
      case Connect(c) => ConnectInv(s, c);
      case Broadcast(c, update, authorized) => BroadcastInv(s, c, UpdateFrame(update), authorized);
      case Text(c, authorized) => BroadcastInv(s, c, TextFrame, authorized);
      case RecoveryTick(c, authorized) => TickInv(s, c, authorized);
      case Deliver(c) => DeliverInv(s, c);
      case Handle(c, authorized) => HandleInv(s, c, authorized);
      case AppendElsewhere(client, key, payload, announced) => AppendInv(s, client, key, payload, announced);
      case SubmitUpdate(_, _, _) => UplinkInv(s, step);
      case SendSnapshot(_, _) => UplinkInv(s, step);
      case ClaimSnapshot(_, _, _, _) => UplinkInv(s, step);
      case _ => LocalInv(s, step);
    }
  }

  // ---- Runs ----

  // The state after a run of steps; None when one of them cannot be taken.
  function Run(steps: seq<Step>): Option<System> {
    if steps == [] then Some(START)
    else
      var before := Run(steps[..|steps| - 1]);
      if before.None? then None else Next(before.value, steps[|steps| - 1])
  }

  lemma {:induction false} Reachable(steps: seq<Step>)
    requires Run(steps).Some?
    ensures Inv(Run(steps).value)
  {
    if steps == [] {
      StartInv();
    } else {
      Reachable(steps[..|steps| - 1]);
      StepKeeps(Run(steps[..|steps| - 1]).value, steps[|steps| - 1]);
    }
  }

  /** Whatever is lost, repeated or reordered on the hub, a browser's document contains every durable
      update up to the sequence it reports, also after a restart from its offline record. */
  lemma BrowserHasItsPrefix(steps: seq<Step>, c: ClientId, n: nat)
    requires Run(steps).Some? && c in Run(steps).value.clients
    requires 1 <= n
    ensures var s := Run(steps).value;
            && (n <= s.clients[c].cursor.latest ==> n <= |s.log| && s.log[n - 1] in s.clients[c].doc)
            && (n <= s.clients[c].savedLatest ==> n <= |s.log| && s.log[n - 1] in s.clients[c].savedDoc)
  {
    Reachable(steps);
    assert ClientOk(Run(steps).value.log, Run(steps).value.clients[c]);
  }

  // The document after the frames in flight are applied.
  function DrainDoc(doc: State, q: seq<Frame>): State {
    if q == [] then doc else Merge(DrainDoc(doc, q[..|q| - 1]), q[|q| - 1])
  }

  lemma {:induction false} DrainKeeps(log: seq<Payload>, c: Cursor, doc: State, q: seq<Frame>)
    requires AllSafe(log, c, q) && Holds(log, doc, c.latest) && Drain(c, q).Some?
    ensures Holds(log, DrainDoc(doc, q), Drain(c, q).value.latest)
  {
    if q != [] {
      var before := q[..|q| - 1];
      DrainKeeps(log, c, doc, before);
      ReceiveKeeps(log, Drain(c, before).value, DrainDoc(doc, before), q[|q| - 1]);
    }
  }

  // ---- What a connection vouches for ----

  // Every durable update up to the connection's sequence has been written to its socket, or was known to
  // the browser before. This holds by the server's rules alone, whatever the browser makes of a gap.
  predicate Vouched(s: System) {
    forall c <- s.conns ::
      (c in s.clients && Holds(s.log, DrainDoc(s.clients[c].doc, s.conns[c].down), s.conns[c].sequence))
  }

  lemma {:induction false} DrainDocOn(doc: State, q: seq<Frame>, more: seq<Frame>)
    ensures DrainDoc(doc, q + more) == DrainDoc(DrainDoc(doc, q), more)
  {
    if more == [] {
      assert q + more == q;
    } else {
      var before := more[..|more| - 1];
      assert (q + more)[..|q + more| - 1] == q + before;
      DrainDocOn(doc, q, before);
    }
  }

  lemma DrainDocFirst(doc: State, q: seq<Frame>)
    requires q != []
    ensures DrainDoc(doc, q) == DrainDoc(Merge(doc, q[0]), q[1..])
  {
    assert q == [q[0]] + q[1..];
    DrainDocOn(doc, [q[0]], q[1..]);
    assert [q[0]][..0] == [];
  }

  lemma {:induction false} DrainDocGrows(doc: State, doc': State, q: seq<Frame>)
    requires doc <= doc'
    ensures doc <= DrainDoc(doc, q) <= DrainDoc(doc', q)
  {
    if q != [] {
      DrainDocGrows(doc, doc', q[..|q| - 1]);
    }
  }

  // A recovery from a cursor delivers all that is missing after it.
  lemma RecoveryDelivers(log: seq<Payload>, doc: State, r: Recovery, last: nat)
    requires Covers(r, log, last) && last <= |log| && Holds(log, doc, last)
    ensures Holds(log, DrainDoc(doc, RecoveryFrames(r)), |log|)
  {
    RecoveryLeads(log, Cursor(last, false), r, last);
    DrainKeeps(log, Cursor(last, false), doc, RecoveryFrames(r));
  }

  lemma ConnectVouched(s: System, c: ClientId)
    requires Inv(s) && Vouched(s) && Next(s, Connect(c)).Some?
    ensures Vouched(Next(s, Connect(c)).value)
  {
    var client := s.clients[c];
    assert ClientOk(s.log, client);
    RecoveryCovers(s.doc, s.log, s.compacted, client.cursor.latest);
    RecoveryDelivers(s.log, client.doc, LoadSince(s.doc, client.cursor.latest), client.cursor.latest);
  }

  lemma BroadcastVouched(s: System, c: ClientId, f: Frame, authorized: bool)
    requires Vouched(s) && c in s.conns
    requires f.TextFrame? || (f.UpdateFrame? && Known(s.log, f.update))
    ensures Vouched(Serve(s, c, Message(authorized, f)))
  {
    if authorized {
      var doc, q, n := s.clients[c].doc, s.conns[c].down, s.conns[c].sequence;
      assert DrainDoc(doc, q + [f]) == Merge(DrainDoc(doc, q), f) by {
        assert (q + [f])[..|q|] == q;
      }
      RoundSays(n, Message(true, f));
      assert Holds(s.log, Merge(DrainDoc(doc, q), f), Advance(n, Message(true, f)));
      OneConnVouched(s, Serve(s, c, Message(true, f)), c);
    }
  }

  lemma OneConnVouched(s: System, s': System, c: ClientId)
    requires Vouched(s) && s'.clients == s.clients && s'.log == s.log && c in s.conns && c in s'.conns
    requires s'.conns == s.conns[c := s'.conns[c]]
    requires Holds(s.log, DrainDoc(s.clients[c].doc, s'.conns[c].down), s'.conns[c].sequence)
    ensures Vouched(s')
  {
  }

  lemma TickVouched(s: System, c: ClientId, authorized: bool)
    requires Inv(s) && Vouched(s) && c in s.conns
    ensures Vouched(Serve(s, c, Tick(authorized, Some(LoadSince(s.doc, s.conns[c].sequence)))))
  {
    var conn, doc := s.conns[c], s.clients[c].doc;
    var r := LoadSince(s.doc, conn.sequence);
    RecoveryCovers(s.doc, s.log, s.compacted, conn.sequence);
    RecoveryDelivers(s.log, DrainDoc(doc, conn.down), r, conn.sequence);
    DrainDocOn(doc, conn.down, RecoveryFrames(r));
    assert conn.down + [] == conn.down;
  }

  lemma DeliverVouched(s: System, c: ClientId)
    requires Vouched(s) && Next(s, Deliver(c)).Some?
    ensures Vouched(Next(s, Deliver(c)).value)
  {
    DrainDocFirst(s.clients[c].doc, s.conns[c].down);
  }

  lemma EditVouched(s: System, c: ClientId, payload: Payload)
    requires Vouched(s) && Next(s, Edit(c, payload)).Some?
    ensures Vouched(Next(s, Edit(c, payload)).value)
  {
    if c in s.conns {
      DrainDocGrows(s.clients[c].doc, s.clients[c].doc + {payload}, s.conns[c].down);
    }
  }

  lemma LogGrowsVouched(s: System, s': System)
    requires Vouched(s) && s.log <= s'.log && s'.clients == s.clients
    requires forall c <- s'.conns ::
      (c in s.conns && s'.conns[c].down == s.conns[c].down && s'.conns[c].sequence == s.conns[c].sequence)
    ensures Vouched(s')
  {
  }

  lemma HandleVouched(s: System, c: ClientId, authorized: bool)
    requires Vouched(s) && Next(s, Handle(c, authorized)).Some?
    ensures Vouched(Next(s, Handle(c, authorized)).value)
  {
    LogGrowsVouched(s, Next(s, Handle(c, authorized)).value);
  }

  // Steps that write nothing to a socket and take nothing from one.
  lemma QuietVouched(s: System, step: Step)
    requires Inv(s) && Vouched(s) && Next(s, step).Some?
    requires step.Join? || step.Drop? || step.SubmitUpdate? || step.SendSnapshot? || step.ClaimSnapshot?
          || step.AppendElsewhere? || step.Persist? || step.Restart? || step.Retire?
    ensures Vouched(Next(s, step).value)
  {
  }

  lemma VouchedStep(s: System, step: Step)
    requires Inv(s) && Vouched(s) && Next(s, step).Some?
    ensures Vouched(Next(s, step).value)
  {
    match step {
      case Connect(c) => ConnectVouched(s, c);
      case Broadcast(c, update, authorized) => BroadcastVouched(s, c, UpdateFrame(update), authorized);
      case Text(c, authorized) => BroadcastVouched(s, c, TextFrame, authorized);
      case RecoveryTick(c, authorized) => TickVouched(s, c, authorized);
      case Deliver(c) => DeliverVouched(s, c);
      case Edit(c, payload) => EditVouched(s, c, payload);
      case Handle(c, authorized) => HandleVouched(s, c, authorized);
      case _ => QuietVouched(s, step);
    }
  }

  lemma {:induction false} AlwaysVouched(steps: seq<Step>)
    requires Run(steps).Some?
    ensures Vouched(Run(steps).value)
  {
    if steps != [] {
      AlwaysVouched(steps[..|steps| - 1]);
      Reachable(steps[..|steps| - 1]);
      VouchedStep(Run(steps[..|steps| - 1]).value, steps[|steps| - 1]);
    }
  }

  /** Whatever the hub loses, repeats or reorders, every durable update up to the sequence a live
      connection vouches for has been delivered to it, directly or inside a snapshot: it is in the
      browser's document once the frames already written arrive. */
  lemma VouchedIsDelivered(steps: seq<Step>, c: ClientId, n: nat)
    requires Run(steps).Some? && c in Run(steps).value.conns
    requires 1 <= n <= Run(steps).value.conns[c].sequence
    ensures var s := Run(steps).value;
            c in s.clients && n <= |s.log| && s.log[n - 1] in DrainDoc(s.clients[c].doc, s.conns[c].down)
  {
    AlwaysVouched(steps);
    var s := Run(steps).value;
    assert Holds(s.log, DrainDoc(s.clients[c].doc, s.conns[c].down), s.conns[c].sequence);
  }

  /** Compaction loses nothing: every durable update is still a row or inside the newest snapshot. */
  lemma NothingIsLost(steps: seq<Step>, n: nat)
    requires Run(steps).Some? && 1 <= n <= |Run(steps).value.log|
    ensures var s := Run(steps).value;
            n in s.doc.rows ||
            (s.compacted in s.doc.snapshots && s.log[n - 1] in s.doc.snapshots[s.compacted])
  {
    Reachable(steps);
    var s := Run(steps).value;
    if n !in s.doc.rows {
      assert Holds(s.log, s.doc.snapshots[s.compacted], s.compacted);
    }
  }

  /** While a connection lives its sequence never falls, and a recovery tick that keeps it open leaves
      it at the latest durable sequence. */
  lemma SequenceOnlyGrows(s: System, step: Step, c: ClientId)
    requires Inv(s) && Next(s, step).Some?
    requires c in s.conns && c in Next(s, step).value.conns
    ensures s.conns[c].sequence <= Next(s, step).value.conns[c].sequence
    ensures step == RecoveryTick(c, true) ==> Next(s, step).value.conns[c].sequence == s.doc.latest
  {
    if step == RecoveryTick(c, step.RecoveryTick? && step.authorized) {
      var recovery := LoadSince(s.doc, s.conns[c].sequence);
      assert s.conns[c].sequence <= s.doc.latest == recovery.latest;
    } else if step.Broadcast? || step.Text? || step.RecoveryTick? {
      ServedGrows(s, step, c);
    } else {
      OthersKeepSequence(s, step, c);
    }
  }

  lemma ServedGrows(s: System, step: Step, c: ClientId)
    requires Next(s, step).Some? && (step.Broadcast? || step.Text? || (step.RecoveryTick? && step.c != c))
    requires c in s.conns && c in Next(s, step).value.conns
    ensures s.conns[c].sequence <= Next(s, step).value.conns[c].sequence
  {
  }

  lemma OthersKeepSequence(s: System, step: Step, c: ClientId)
    requires Next(s, step).Some? && !step.Broadcast? && !step.Text? && !step.RecoveryTick?
    requires c in s.conns && c in Next(s, step).value.conns
    ensures s.conns[c].sequence == Next(s, step).value.conns[c].sequence
  {
  }

  /** What the server's reader does with the oldest message of a connection: a stored update is announced to
      everyone, a snapshot is saved, and whatever is refused closes the connection and changes nothing. */
  lemma HandleSays(s: System, c: ClientId)
    requires Next(s, Handle(c, true)).Some?
    ensures var s', conn := Next(s, Handle(c, true)).value, s.conns[c];
      var kept := s.conns[c := Conn(conn.sequence, conn.down, conn.up[1..])];
      && s'.clients == s.clients
      && match conn.up[0]
         case Submit(key, payload) =>
           (match Append(s.doc, c, key, payload)
            case Ok((d, update)) => s'.doc == d && s'.published == s.published + {update} && s'.conns == kept
            case Err(_) => s' == s.(conns := s.conns - {c}))
         case Save(upTo, state, compact) =>
           (match SaveSnapshot(s.doc, upTo, state, compact)
            case Ok(d) => s'.doc == d && s'.published == s.published && s'.conns == kept
            case Err(_) => s' == s.(conns := s.conns - {c}))
  {
  }

  /** What a browser does with the oldest frame: past recovery, an update that leaves a gap makes it close the
      socket; any other frame is merged, and the cursor follows it. */
  lemma DeliverSays(s: System, c: ClientId)
    requires Next(s, Deliver(c)).Some?
    ensures var s', client, f := Next(s, Deliver(c)).value, s.clients[c], s.conns[c].down[0];
      var reached := if f.UpdateFrame? then f.update.sequence else if f.SnapshotFrame? then f.snapshot.upTo
                     else if f.Ready? then f.latest else 0;
      if client.cursor.ready && f.UpdateFrame? && reached > client.cursor.latest + 1 then
        && c !in s'.conns && s'.clients[c].doc == client.doc
        && s'.clients[c].cursor == Cursor(client.cursor.latest, false)
      else
        && c in s'.conns && s'.conns[c].down == s.conns[c].down[1..]
        && s'.clients[c].cursor.latest == (if reached > client.cursor.latest then reached else client.cursor.latest)
        && (s'.clients[c].cursor.ready <==> client.cursor.ready || f.Ready?)
        && s'.clients[c].doc == client.doc + (if f.UpdateFrame? then {f.update.payload}
                                              else if f.SnapshotFrame? then f.snapshot.state else {})
  {
  }

  /** The first round or message after the right to edit is taken away, or a tick after the document is
      retired, closes the connection and writes nothing; nothing else changes. */
  lemma RevokedIsClosed(s: System, step: Step)
    requires Next(s, step).Some?
    requires ((step.Broadcast? || step.Text? || step.RecoveryTick? || step.Handle?) && !step.authorized)
          || (step.RecoveryTick? && !s.doc.active)
    ensures Next(s, step).value == s.(conns := s.conns - {step.c})
  {
    var c := step.c;
    RoundSays(s.conns[c].sequence, Message(false, TextFrame));
  }

  /** A browser that keeps reading from a connection just opened ends up with the whole log. */
  lemma FreshConnectionCatchesUp(steps: seq<Step>, c: ClientId)
    requires Run(steps + [Connect(c)]).Some?
    ensures var s := Run(steps + [Connect(c)]).value;
            && c in s.clients && c in s.conns
            && Drain(s.clients[c].cursor, s.conns[c].down) == Some(Cursor(|s.log|, true))
            && Holds(s.log, DrainDoc(s.clients[c].doc, s.conns[c].down), |s.log|)
  {
    var all := steps + [Connect(c)];
    assert all[..|all| - 1] == steps;
    Reachable(steps);
    var before := Run(steps).value;
    var cursor := before.clients[c].cursor.(ready := false);
    assert ClientOk(before.log, before.clients[c]);
    RecoveryOpens(before.doc, before.log, before.compacted, cursor);
    DrainKeeps(before.log, cursor, before.clients[c].doc, RecoveryFrames(LoadSince(before.doc, cursor.latest)));
  }
}
