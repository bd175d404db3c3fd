/** The durable side of collaborative editing: one working document, its update log, its snapshots,
    and the recovery read. Yjs payloads are opaque; a CRDT state is the set of updates merged into it. */
module WorkingDocument {
  import opened Wrappers

  type Payload = nat
  type ClientId = nat
  type UpdateKey = nat
  type State = set<Payload>

  datatype Row = Row(payload: Payload, client: ClientId, key: UpdateKey)
  datatype Document = Document(latest: nat, active: bool, rows: map<nat, Row>, snapshots: map<nat, State>)

  datatype Update = Update(sequence: nat, payload: Payload)
  datatype Snapshot = Snapshot(upTo: nat, state: State)
  datatype Recovery = Recovery(latest: nat, active: bool, snapshot: Option<Snapshot>, updates: seq<Update>)

  datatype Failure = Inactive | IdempotencyConflict | InvalidSnapshot

  const NEW_DOCUMENT := Document(0, true, map[], map[])

  // SELECT ... WHERE client_id = $2 AND client_update_id = $3
  function FindKey(rows: map<nat, Row>, client: ClientId, key: UpdateKey, upTo: nat): (found: Option<nat>)
    ensures found.Some? ==> found.value in rows && rows[found.value].client == client && rows[found.value].key == key
    ensures found.None? ==> forall n | n in rows && 1 <= n <= upTo :: rows[n].client != client || rows[n].key != key
  {
    if upTo == 0 then None
    else if upTo in rows && rows[upTo].client == client && rows[upTo].key == key then Some(upTo)
    else FindKey(rows, client, key, upTo - 1)
  }

  function Append(
    d: Document, client: ClientId, key: UpdateKey, payload: Payload): Result<(Document, Update), Failure>
  {
    if !d.active then Err(Inactive)
    else
      var existing := FindKey(d.rows, client, key, d.latest);
      if existing.Some? then
        if d.rows[existing.value].payload != payload then Err(IdempotencyConflict)
        else Ok((d, Update(existing.value, payload)))
      else
        Ok((d.(latest := d.latest + 1, rows := d.rows[d.latest + 1 := Row(payload, client, key)]),
            Update(d.latest + 1, payload)))
  }

  function SaveSnapshot(d: Document, upTo: nat, state: State, compact: bool): Result<Document, Failure> {
    if !d.active then Err(Inactive)
    else if upTo > d.latest then Err(InvalidSnapshot)
    else if upTo in d.snapshots && d.snapshots[upTo] != state then Err(IdempotencyConflict)
    else
      var kept := if compact then map n | n in d.rows && n > upTo :: d.rows[n] else d.rows;
      Ok(d.(snapshots := d.snapshots[upTo := state], rows := kept))
  }

  // ORDER BY up_to_sequence DESC LIMIT 1
  function LatestSnapshot(snapshots: map<nat, State>, bound: nat): (found: Option<nat>)
    ensures found.Some? ==> found.value in snapshots && found.value <= bound
    ensures forall u | u in snapshots && u <= bound :: found.Some? && u <= found.value
  {
    if bound in snapshots then Some(bound)
    else if bound == 0 then None
    else LatestSnapshot(snapshots, bound - 1)
  }

  // WHERE sequence > after ORDER BY sequence
  function RowsBetween(rows: map<nat, Row>, after: nat, upTo: nat): (updates: seq<Update>)
    ensures forall i | 0 <= i < |updates| :: after < updates[i].sequence <= upTo
  {
    if upTo <= after then []
    else RowsBetween(rows, after, upTo - 1) +
         if upTo in rows then [Update(upTo, rows[upTo].payload)] else []
  }

  function LoadSince(d: Document, last: nat): Recovery {
    var newest := LatestSnapshot(d.snapshots, d.latest);
    if newest.Some? && last < newest.value then
      Recovery(d.latest, d.active, Some(Snapshot(newest.value, d.snapshots[newest.value])),
        RowsBetween(d.rows, newest.value, d.latest))
    else Recovery(d.latest, d.active, None, RowsBetween(d.rows, last, d.latest))
  }

  // ---- The log behind the document ----

  // The document stores, or has folded into a snapshot, every update ever appended; `log` lists their
  // payloads in sequence order, and everything up to `compacted` may have been deleted.
  predicate Stores(d: Document, log: seq<Payload>, compacted: nat) {
    && |log| == d.latest
    && (forall n | n in d.rows :: 1 <= n <= d.latest && d.rows[n].payload == log[n - 1])
    && (forall n | compacted < n <= d.latest :: n in d.rows)
    && (compacted == 0 || compacted in d.snapshots)
    && (forall u | u in d.snapshots :: Holds(log, d.snapshots[u], u))
  }

  // This state contains the first n updates of the log.
  predicate Holds(log: seq<Payload>, state: State, n: nat) {
    n <= |log| && forall i | 0 <= i < n :: log[i] in state
  }

  // ---- What the operations do ----

  // The row stored for a client's update, when there is one.
  predicate StoredAs(d: Document, n: nat, client: ClientId, key: UpdateKey) {
    n in d.rows && d.rows[n].client == client && d.rows[n].key == key
  }

  /** An update is refused when the document is not active. When the client's key has a row, that row is
      reported, or a conflict if it holds something else. Otherwise it becomes the next row. */
  lemma AppendSays(d: Document, client: ClientId, key: UpdateKey, payload: Payload)
    requires forall n <- d.rows :: 1 <= n <= d.latest
    ensures var r := Append(d, client, key, payload);
      && (!d.active ==> r == Err(Inactive))
      && (d.active && (forall n: nat :: !StoredAs(d, n, client, key)) ==>
            var n := d.latest + 1;
            r == Ok((Document(n, true, d.rows[n := Row(payload, client, key)], d.snapshots), Update(n, payload))))
      && (d.active && (exists n: nat :: StoredAs(d, n, client, key)) ==>
            exists n: nat :: StoredAs(d, n, client, key) &&
              r == if d.rows[n].payload == payload then Ok((d, Update(n, payload))) else Err(IdempotencyConflict))
  {
    var found := FindKey(d.rows, client, key, d.latest);
    if found.Some? {
      assert StoredAs(d, found.value, client, key);
    } else {
      forall n: nat ensures !StoredAs(d, n, client, key) {
      }
    }
  }

  /** A snapshot is refused when the document is not active, when it claims updates that do not exist, and
      when there is another one for that sequence. It is stored otherwise; compacting removes exactly the
      rows it covers. */
  lemma SaveSays(d: Document, upTo: nat, state: State, compact: bool)
    ensures var r := SaveSnapshot(d, upTo, state, compact);
      if !d.active then r == Err(Inactive)
      else if d.latest < upTo then r == Err(InvalidSnapshot)
      else if upTo in d.snapshots && d.snapshots[upTo] != state then r == Err(IdempotencyConflict)
      else
        && r.Ok? && r.value.latest == d.latest && r.value.active
        && r.value.snapshots == d.snapshots[upTo := state]
        && (forall n :: n in r.value.rows <==> n in d.rows && !(compact && n <= upTo))
        && (forall n <- r.value.rows :: r.value.rows[n] == d.rows[n])
  {
  }

  /** A recovery read reports the document as it is, with the newest snapshot past the reader's cursor, and
      the rows behind that snapshot or the cursor. */
  lemma LoadSays(d: Document, last: nat, n: nat)
    requires forall u <- d.snapshots :: u <= d.latest
    ensures var r := LoadSince(d, last);
      && r.latest == d.latest && r.active == d.active
      && (r.snapshot.Some? <==> exists u <- d.snapshots :: u > last)
      && (r.snapshot.Some? ==>
            var u := r.snapshot.value.upTo;
            u > last && u in d.snapshots && r.snapshot.value.state == d.snapshots[u]
            && forall v <- d.snapshots :: v <= u)
      && (n in d.rows && (if r.snapshot.Some? then r.snapshot.value.upTo else last) < n <= d.latest <==>
            n in d.rows && Update(n, d.rows[n].payload) in r.updates)
  {
    var newest := LatestSnapshot(d.snapshots, d.latest);
    assert newest.Some? && last < newest.value ==> newest.value in d.snapshots && newest.value > last;
    assert forall u <- d.snapshots :: u > last ==> newest.Some? && newest.value > last;
    RowRead(d.rows, if newest.Some? && last < newest.value then newest.value else last, d.latest, n);
  }

  lemma {:induction false} RowRead(rows: map<nat, Row>, after: nat, upTo: nat, n: nat)
    ensures n in rows && after < n <= upTo <==>
            n in rows && Update(n, rows[n].payload) in RowsBetween(rows, after, upTo)
    ensures forall u <- RowsBetween(rows, after, upTo) :: u.sequence in rows && rows[u.sequence].payload == u.payload
  {
    if upTo > after {
      RowRead(rows, after, upTo - 1, n);
    }
  }

  /** Appending keeps the log exact: a new update extends it by its payload, a repeated one changes nothing
      and reports the sequence under which that payload is already stored. */
  lemma AppendKeeps(d: Document, log: seq<Payload>, compacted: nat, client: ClientId, key: UpdateKey, payload: Payload)
    requires Stores(d, log, compacted) && Append(d, client, key, payload).Ok?
    ensures var (d', update) := Append(d, client, key, payload).value;
            var log' := if d'.latest == d.latest then log else log + [payload];
            && Stores(d', log', compacted) && log <= log' && d'.active == d.active
            && 1 <= update.sequence <= |log'| && log'[update.sequence - 1] == payload == update.payload
  {
    var (d', update) := Append(d, client, key, payload).value;
    if d'.latest > d.latest {
      var log' := log + [payload];
      forall u | u in d'.snapshots ensures Holds(log', d'.snapshots[u], u) {
        assert Holds(log, d.snapshots[u], u);
      }
    }
  }

  /** The service takes any state under any sequence. The log stays stored exactly when the state really
      contains the updates the snapshot claims. */
  lemma SnapshotKeeps(d: Document, log: seq<Payload>, compacted: nat, upTo: nat, state: State, compact: bool)
    requires Stores(d, log, compacted) && SaveSnapshot(d, upTo, state, compact).Ok?
    ensures var d' := SaveSnapshot(d, upTo, state, compact).value;
            Stores(d', log, if compact && upTo > compacted then upTo else compacted) <==> Holds(log, state, upTo)
  {
    var d' := SaveSnapshot(d, upTo, state, compact).value;
    assert d'.snapshots[upTo] == state;
  }

  // UNIQUE (document_id, client_id, client_update_id)
  predicate UniqueKeys(d: Document) {
    forall m, n | m in d.rows && n in d.rows && m != n ::
      d.rows[m].client != d.rows[n].client || d.rows[m].key != d.rows[n].key
  }

  lemma KeysStayUnique(
    d: Document, log: seq<Payload>, compacted: nat, client: ClientId, key: UpdateKey, payload: Payload)
    requires Stores(d, log, compacted) && UniqueKeys(d) && Append(d, client, key, payload).Ok?
    ensures UniqueKeys(Append(d, client, key, payload).value.0)
  {
  }

  /** Resubmitting an update finds the first submission exactly while its row has not been compacted away;
      after compaction the same client key is given a new sequence. */
  lemma ResubmissionIdempotent(d: Document, log: seq<Payload>, compacted: nat, n: nat, upTo: nat, state: State)
    requires Stores(d, log, compacted) && UniqueKeys(d) && d.active && n in d.rows
    requires SaveSnapshot(d, upTo, state, true).Ok?
    ensures var row := d.rows[n];
            var d' := SaveSnapshot(d, upTo, state, true).value;
            && Append(d, row.client, row.key, row.payload) == Ok((d, Update(n, row.payload)))
            && Append(d', row.client, row.key, row.payload).Ok?
            && (Append(d', row.client, row.key, row.payload) == Ok((d', Update(n, row.payload))) <==> n > upTo)
            && (n <= upTo ==>
                  Append(d', row.client, row.key, row.payload).value.1 == Update(d.latest + 1, row.payload))
  {
    if n > upTo {
      assert SaveSnapshot(d, upTo, state, true).value.rows[n] == d.rows[n];
    }
  }

  /** One update, a compacting snapshot, and the same update again: it is stored a second time. */
  lemma CompactedThenResubmitted()
    ensures var first := Append(NEW_DOCUMENT, 1, 1, 7).value;
      var compacted := SaveSnapshot(first.0, 1, {7}, true).value;
      && first.1 == Update(1, 7)
      && Append(compacted, 1, 1, 7) ==
           Ok((Document(2, true, map[2 := Row(7, 1, 1)], map[1 := {7}]), Update(2, 7)))
  {
    var first := Append(NEW_DOCUMENT, 1, 1, 7).value.0;
    assert first == Document(1, true, map[1 := Row(7, 1, 1)], map[]);
    assert SaveSnapshot(first, 1, {7}, true).value == Document(1, true, map[], map[1 := {7}]);
  }

  // ---- Recovery ----

  // Past the compaction point nothing is missing: the rows read are consecutive.
  lemma {:induction false} RowsAreConsecutive(d: Document, log: seq<Payload>, compacted: nat, after: nat, upTo: nat)
    requires Stores(d, log, compacted) && compacted <= after <= upTo <= d.latest
    ensures var updates := RowsBetween(d.rows, after, upTo);
            && |updates| == upTo - after
            && forall i | 0 <= i < |updates| :: updates[i] == Update(after + 1 + i, log[after + i])
  {
    if upTo > after {
      RowsAreConsecutive(d, log, compacted, after, upTo - 1);
    }
  }

  // What a recovery must offer a reader whose cursor is `last`.
  predicate Covers(recovery: Recovery, log: seq<Payload>, last: nat) {
    var from := if recovery.snapshot.Some? then recovery.snapshot.value.upTo else last;
    && recovery.latest == |log| && from <= |log|
    && (recovery.snapshot.Some? ==> from > last && Holds(log, recovery.snapshot.value.state, from))
    && |recovery.updates| == |log| - from
    && forall i | 0 <= i < |recovery.updates| :: recovery.updates[i] == Update(from + 1 + i, log[from + i])
  }

  /** However the log was compacted, a recovery read hands out exactly what is missing after the cursor:
      a newer snapshot if there is one, then every later update, in order and without gaps. */
  lemma RecoveryCovers(d: Document, log: seq<Payload>, compacted: nat, last: nat)
    requires Stores(d, log, compacted) && last <= d.latest
    ensures Covers(LoadSince(d, last), log, last)
  {
    var newest := LatestSnapshot(d.snapshots, d.latest);
    if compacted > 0 { assert Holds(log, d.snapshots[compacted], compacted); }
    if newest.Some? { assert Holds(log, d.snapshots[newest.value], newest.value); }
    var from := if newest.Some? && last < newest.value then newest.value else last;
    RowsAreConsecutive(d, log, compacted, from, d.latest);
  }

  /** A newest snapshot is what readers behind it get, compacted or not: the recovery is complete for
      them exactly when the snapshot contains what it claims. */
  lemma UntruthfulSnapshotHides(
    d: Document, log: seq<Payload>, compacted: nat, upTo: nat, state: State, compact: bool, last: nat)
    requires Stores(d, log, compacted) && SaveSnapshot(d, upTo, state, compact).Ok?
    requires last < upTo && forall u <- d.snapshots :: u <= upTo
    ensures var d' := SaveSnapshot(d, upTo, state, compact).value;
            Covers(LoadSince(d', last), log, last) <==> Holds(log, state, upTo)
  {
    var d' := SaveSnapshot(d, upTo, state, compact).value;
    var newest := LatestSnapshot(d'.snapshots, d'.latest);
    assert upTo in d'.snapshots && d'.snapshots[upTo] == state;
    assert newest == Some(upTo);
    if Holds(log, state, upTo) {
      SnapshotKeeps(d, log, compacted, upTo, state, compact);
      RecoveryCovers(d', log, if compact && upTo > compacted then upTo else compacted, last);
    }
  }

  /** An empty state saved over one update: the update is gone, and a new reader is never told of it. */
  lemma LostToAnEmptySnapshot()
    ensures var d := Append(NEW_DOCUMENT, 1, 1, 7).value.0;
      && SaveSnapshot(d, 1, {}, true).Ok?
      && SaveSnapshot(d, 1, {}, true).value.rows == map[]
      && LoadSince(SaveSnapshot(d, 1, {}, true).value, 0) == Recovery(1, true, Some(Snapshot(1, {})), [])
  {
    var d := Append(NEW_DOCUMENT, 1, 1, 7).value.0;
    assert d == Document(1, true, map[1 := Row(7, 1, 1)], map[]);
    assert SaveSnapshot(d, 1, {}, true).value == Document(1, true, map[], map[1 := {}]);
  }
}
