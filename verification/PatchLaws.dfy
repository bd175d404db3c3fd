/** What the patch engine promises: every block ID accounted for, moves that never nest a block in
    itself, operations that undo each other, and replacements that commute. */
module PatchLaws {
  import opened Wrappers
  import opened BlockTree
  import opened Patch

  // ---- IDs are accounted for ----

  // The IDs an operation takes out of the document and the IDs it brings in.
  function Taken(doc: Forest, op: Operation): seq<Id> {
    if op.action.ReplaceBlock? || op.action.DeleteBlock? then
      var p := RequireBlock(doc, op.target.blockId);
      if p.Ok? then BlockIds(At(doc, p.value)) else []
    else []
  }

  function Given(op: Operation): seq<Id> {
    if (op.action.ReplaceBlock? || op.action.InsertBlock?) && op.payload.block.Tree?
    then BlockIds(op.payload.block.block)
    else []
  }

  lemma SwapOne(doc: Forest, p: Path, ins: Forest)
    requires Leads(doc, p)
    ensures multiset(Ids(Splice(doc, p, 1, ins))) + multiset(BlockIds(At(doc, p))) ==
            multiset(Ids(doc)) + multiset(Ids(ins))
  {
    SpliceAccounts(doc, p, 1, ins);
    RemovedOne(doc, p);
    IdsOfOne(At(doc, p));
  }

  lemma AddOne(doc: Forest, p: Path, b: Block)
    requires Slot(doc, p, 0)
    ensures multiset(Ids(Splice(doc, p, 0, [b]))) == multiset(Ids(doc)) + multiset(BlockIds(b))
  {
    SpliceAccounts(doc, p, 0, [b]);
    RemovedNone(doc, p);
    IdsOfOne(b);
  }

  lemma {:induction false} RemovedNone(doc: Forest, p: Path)
    requires Slot(doc, p, 0)
    ensures Removed(doc, p, 0) == []
    decreases |p|
  {
    if |p| > 1 {
      RemovedNone(doc[p[0]].children.blocks, p[1..]);
    }
  }

  /** Whatever the operation, the result's IDs plus what was taken out are the old IDs plus what was
      brought in; in particular a move and every reference operation conserve the IDs. */
  lemma ApplyAccounts(doc: Forest, op: Operation)
    requires Apply(doc, op).Ok?
    ensures multiset(Ids(Apply(doc, op).value)) + multiset(Taken(doc, op)) ==
            multiset(Ids(doc)) + multiset(Given(op))
  {
    match op.action
    case ReplaceBlock =>
      ReplaceAccounts(doc, op);
    case DeleteBlock =>
      SwapOne(doc, RequireBlock(doc, op.target.blockId).value, []);
    case InsertBlock =>
      InsertAccounts(doc, op);
    case MoveBlock =>
      MoveAccounts(doc, op);
    case InsertReference(_) =>
      ReferenceKeepsIds(doc, op);
    case Retarget(_) =>
      ReferenceKeepsIds(doc, op);
    case Unsupported =>
  }

  lemma ReplaceAccounts(doc: Forest, op: Operation)
    requires op.action.ReplaceBlock? && Apply(doc, op).Ok?
    ensures multiset(Ids(Apply(doc, op).value)) + multiset(Taken(doc, op)) ==
            multiset(Ids(doc)) + multiset(Given(op))
  {
    SwapOne(doc, RequireBlock(doc, op.target.blockId).value, [op.payload.block.block]);
    IdsOfOne(op.payload.block.block);
  }

  lemma InsertAccounts(doc: Forest, op: Operation)
    requires op.action.InsertBlock? && Apply(doc, op).Ok?
    ensures multiset(Ids(Apply(doc, op).value)) == multiset(Ids(doc)) + multiset(Given(op))
  {
    var c := FindContainer(doc, op.payload.parent).value;
    PositionIsSlot(doc, c, op.payload.index.value, 0);
    AddOne(doc, Position(c, op.payload.index.value), op.payload.block.block);
  }

  lemma MoveAccounts(doc: Forest, op: Operation)
    requires op.action.MoveBlock? && Apply(doc, op).Ok?
    ensures multiset(Ids(Apply(doc, op).value)) == multiset(Ids(doc))
  {
    var p := RequireBlock(doc, op.target.blockId).value;
    var rest := Splice(doc, p, 1, []);
    var c := FindContainer(rest, op.payload.parent).value;
    SwapOne(doc, p, []);
    PositionIsSlot(rest, c, op.payload.index.value, 0);
    AddOne(rest, Position(c, op.payload.index.value), At(doc, p));
  }

  lemma SetContentKeepsIds(doc: Forest, p: Path, nodes: seq<Inline>)
    requires Leads(doc, p)
    ensures Ids(SetContent(doc, p, nodes)) == Ids(doc)
  {
    var b := At(doc, p).(content := Inlines(nodes));
    IdsOfSplice(doc, p, 1, [b]);
    IdsOfOne(b);
    IdsAtLead(doc, p);
  }

  /** Reference operations keep every ID where it is. */
  lemma ReferenceKeepsIds(doc: Forest, op: Operation)
    requires op.action.InsertReference? || op.action.Retarget?
    requires Apply(doc, op).Ok?
    ensures Ids(Apply(doc, op).value) == Ids(doc)
  {
    var at := RequireInlineContent(doc, op.target.blockId).value;
    if op.action.InsertReference? {
      var i := op.payload.index.value;
      var node := BuildReference(op.action.noun, false, op.target, op.payload).value;
      SetContentKeepsIds(doc, at.0, at.1[..i] + [node] + at.1[i..]);
    } else {
      var i := NodeIndex(op.target.nodeId, |at.1|).value;
      var node := BuildReference(op.action.noun, true, op.target, op.payload).value;
      SetContentKeepsIds(doc, at.0, at.1[i := node]);
    }
  }

  // The inline position and the node a reference operation asks for.
  function Asked(op: Operation, length: nat): Result<(nat, Inline), PatchError>
    requires op.action.InsertReference? || op.action.Retarget?
  {
    var retarget := op.action.Retarget?;
    var i :- if retarget then NodeIndex(op.target.nodeId, length) else IntegerIndex(op.payload.index, length, true);
    var node :- BuildReference(op.action.noun, retarget, op.target, op.payload);
    Ok((i, node))
  }

  /** A reference operation changes one inline node of one block and nothing else: the node it asks for
      comes in at the position it asks for, and a retargeted node was of that type before. */
  lemma ReferenceTouchesOneNode(doc: Forest, op: Operation)
    requires op.action.InsertReference? || op.action.Retarget?
    requires Apply(doc, op).Ok?
    ensures RequireInlineContent(doc, op.target.blockId).Ok?
    ensures
      var (p, was) := RequireInlineContent(doc, op.target.blockId).value;
      var r := Apply(doc, op).value;
      && Asked(op, |was|).Ok? && Leads(r, p) && Splice(r, p, 1, [At(doc, p)]) == doc
      && At(r, p).content.Inlines? && At(r, p).(content := At(doc, p).content) == At(doc, p)
      && var now, (i, node) := At(r, p).content.nodes, Asked(op, |was|).value;
        && i < |now| && now[i] == node && NodeNoun(node) == Some(op.action.noun)
        && (if op.action.Retarget? then |now| == |was| && now[i := was[i]] == was && NodeNoun(was[i]) == NodeNoun(node)
            else now[..i] + now[i + 1..] == was)
  {
    var (p, was) := RequireInlineContent(doc, op.target.blockId).value;
    var (i, node) := Asked(op, |was|).value;
    if op.action.InsertReference? {
      var now := was[..i] + [node] + was[i..];
      assert now[..i] + now[i + 1..] == was;
      SetContentAt(doc, p, now);
    } else {
      SetContentAt(doc, p, was[i := node]);
    }
  }

  lemma SetContentAt(doc: Forest, p: Path, nodes: seq<Inline>)
    requires Leads(doc, p)
    ensures Leads(SetContent(doc, p, nodes), p)
    ensures At(SetContent(doc, p, nodes), p) == At(doc, p).(content := Inlines(nodes))
    ensures Splice(SetContent(doc, p, nodes), p, 1, [At(doc, p)]) == doc
  {
    SpliceUndone(doc, p, 1, [At(doc, p).(content := Inlines(nodes))]);
    RemovedOne(doc, p);
    RemovedOne(SetContent(doc, p, nodes), p);
  }

  // ---- Uniqueness ----

  // The payload brings in each of its IDs once, and none that stays in the document.
  ghost predicate FreshPayload(doc: Forest, op: Operation) {
    && Distinct(Given(op))
    && forall x <- Given(op) :: multiset(Ids(doc))[x] <= multiset(Taken(doc, op))[x]
  }

  lemma DistinctMeans<T(!new)>(xs: seq<T>, x: T)
    requires Distinct(xs)
    ensures multiset(xs)[x] <= 1
  {
    if x in multiset(xs) {
    }
  }

  /** From distinct IDs, an operation leaves distinct IDs exactly when its payload is fresh. */
  lemma UniquenessKept(doc: Forest, op: Operation)
    requires Unique(doc) && Apply(doc, op).Ok?
    ensures Unique(Apply(doc, op).value) <==> FreshPayload(doc, op)
  {
    var ids, ids' := Ids(doc), Ids(Apply(doc, op).value);
    var taken, given := Taken(doc, op), Given(op);
    ApplyAccounts(doc, op);
    TakenIsThere(doc, op);
    Exchange(multiset(ids), multiset(ids'), multiset(taken), multiset(given));
    if FreshPayload(doc, op) {
      forall x <- multiset(ids') ensures multiset(ids')[x] == 1 {
        DistinctMeans(ids, x);
        DistinctMeans(given, x);
        if x in given {
          assert x in multiset(given);
        }
      }
    }
    if Distinct(ids') {
      forall x <- multiset(given) ensures multiset(given)[x] == 1 {
        DistinctMeans(ids', x);
      }
      forall x <- given ensures multiset(ids)[x] <= multiset(taken)[x] {
        assert x in multiset(given);
        DistinctMeans(ids', x);
        DistinctMeans(ids, x);
      }
    }
  }

  lemma Exchange<T(!new)>(old': multiset<T>, new': multiset<T>, taken: multiset<T>, given: multiset<T>)
    requires new' + taken == old' + given
    ensures forall x :: new'[x] + taken[x] == old'[x] + given[x]
  {
    forall x ensures new'[x] + taken[x] == old'[x] + given[x] {
      assert (new' + taken)[x] == (old' + given)[x];
    }
  }

  lemma TakenIsThere(doc: Forest, op: Operation)
    ensures multiset(Taken(doc, op)) <= multiset(Ids(doc))
  {
    var p := RequireBlock(doc, op.target.blockId);
    if p.Ok? {
      IdsAtLead(doc, p.value);
      MultisetThree(Before(doc, p.value, 1), BlockIds(At(doc, p.value)), After(doc, p.value, 1));
    }
  }

  // Every operation of the run that is not skipped meets a document its payload is fresh for.
  ghost predicate FreshRun(doc: Forest, records: seq<Record>, conflicts: seq<Conflict>) {
    records == [] || (
      var earlier := records[..|records| - 1];
      var before := ApplyAll(doc, earlier, conflicts);
      && FreshRun(doc, earlier, conflicts)
      && (before.Ok? && !Skipped(records[|records| - 1], conflicts) ==>
            FreshPayload(before.value, records[|records| - 1].operation)))
  }

  /** IDs stay distinct over a whole run of operations. */
  lemma {:induction false} RunKeepsUnique(doc: Forest, records: seq<Record>, conflicts: seq<Conflict>)
    requires Unique(doc) && FreshRun(doc, records, conflicts) && ApplyAll(doc, records, conflicts).Ok?
    ensures Unique(ApplyAll(doc, records, conflicts).value)
  {
    if records != [] {
      var last := records[|records| - 1];
      RunKeepsUnique(doc, records[..|records| - 1], conflicts);
      if !Skipped(last, conflicts) {
        UniquenessKept(ApplyAll(doc, records[..|records| - 1], conflicts).value, last.operation);
      }
    }
  }

  // What one record takes out of the document it meets and brings in; a skipped one does neither.
  function TakenBy(doc: Forest, record: Record, conflicts: seq<Conflict>): seq<Id> {
    if Skipped(record, conflicts) then [] else Taken(doc, record.operation)
  }

  function GivenBy(record: Record, conflicts: seq<Conflict>): seq<Id> {
    if Skipped(record, conflicts) then [] else Given(record.operation)
  }

  function GivenAll(records: seq<Record>, conflicts: seq<Conflict>): seq<Id> {
    if records == [] then []
    else GivenAll(records[..|records| - 1], conflicts) + GivenBy(records[|records| - 1], conflicts)
  }

  function TakenAll(doc: Forest, records: seq<Record>, conflicts: seq<Conflict>): seq<Id>
    requires ApplyAll(doc, records, conflicts).Ok?
  {
    if records == [] then []
    else
      var earlier := records[..|records| - 1];
      TakenAll(doc, earlier, conflicts) +
      TakenBy(ApplyAll(doc, earlier, conflicts).value, records[|records| - 1], conflicts)
  }

  lemma RecordAccounts(doc: Forest, record: Record, conflicts: seq<Conflict>)
    requires ApplyRecord(doc, record, conflicts).Ok?
    ensures multiset(Ids(ApplyRecord(doc, record, conflicts).value)) + multiset(TakenBy(doc, record, conflicts)) ==
            multiset(Ids(doc)) + multiset(GivenBy(record, conflicts))
  {
    if !Skipped(record, conflicts) {
      ApplyAccounts(doc, record.operation);
    }
  }

  /** Over a whole run no ID appears or disappears unaccounted: the result's IDs plus all that was taken
      out are the old IDs plus all that was brought in. */
  lemma {:induction false} RunAccounts(doc: Forest, records: seq<Record>, conflicts: seq<Conflict>)
    requires ApplyAll(doc, records, conflicts).Ok?
    ensures multiset(Ids(ApplyAll(doc, records, conflicts).value)) + multiset(TakenAll(doc, records, conflicts)) ==
            multiset(Ids(doc)) + multiset(GivenAll(records, conflicts))
  {
    if records != [] {
      var earlier, last := records[..|records| - 1], records[|records| - 1];
      var middle := ApplyAll(doc, earlier, conflicts).value;
      RunAccounts(doc, earlier, conflicts);
      RecordAccounts(middle, last, conflicts);
      BothAccount(Ids(doc), Ids(middle), Ids(ApplyRecord(middle, last, conflicts).value),
        TakenAll(doc, earlier, conflicts), TakenBy(middle, last, conflicts),
        GivenAll(earlier, conflicts), GivenBy(last, conflicts));
    }
  }

  lemma BothAccount<T(!new)>(
    first: seq<T>, middle: seq<T>, last: seq<T>, out: seq<T>, out': seq<T>, given: seq<T>, given': seq<T>)
    requires multiset(middle) + multiset(out) == multiset(first) + multiset(given)
    requires multiset(last) + multiset(out') == multiset(middle) + multiset(given')
    ensures multiset(last) + multiset(out + out') == multiset(first) + multiset(given + given')
  {
    assert multiset(out + out') == multiset(out) + multiset(out');
    assert multiset(given + given') == multiset(given) + multiset(given');
    Exchange(multiset(first), multiset(middle), multiset(out), multiset(given));
    Exchange(multiset(middle), multiset(last), multiset(out'), multiset(given'));
    assert forall x :: (multiset(last) + multiset(out + out'))[x] == (multiset(first) + multiset(given + given'))[x];
  }

  /** The IDs of the result are distinct exactly when the run took out every ID as often as the old
      document and the payloads together had it too often. */
  lemma RunUniqueExactly(doc: Forest, records: seq<Record>, conflicts: seq<Conflict>)
    requires ApplyAll(doc, records, conflicts).Ok?
    ensures Unique(ApplyAll(doc, records, conflicts).value) <==>
            forall x: Id :: (multiset(Ids(doc)) + multiset(GivenAll(records, conflicts)))[x] <=
                            multiset(TakenAll(doc, records, conflicts))[x] + 1
  {
    var ids, taken := Ids(ApplyAll(doc, records, conflicts).value), TakenAll(doc, records, conflicts);
    var all := multiset(Ids(doc)) + multiset(GivenAll(records, conflicts));
    RunAccounts(doc, records, conflicts);
    assert forall x: Id :: all[x] == multiset(ids)[x] + multiset(taken)[x];
    if Distinct(ids) {
      forall x: Id ensures multiset(ids)[x] <= 1 {
        DistinctMeans(ids, x);
      }
    }
  }

  lemma DistinctParts<T(!new)>(a: seq<T>, b: seq<T>)
    requires Distinct(a + b)
    ensures Distinct(a) && Distinct(b)
    ensures forall x <- b :: multiset(a)[x] == 0
  {
    assert multiset(a + b) == multiset(a) + multiset(b);
    forall x ensures multiset(a)[x] + multiset(b)[x] <= 1 {
      DistinctMeans(a + b, x);
      assert (multiset(a) + multiset(b))[x] == multiset(a)[x] + multiset(b)[x];
    }
    forall x <- b ensures multiset(a)[x] == 0 {
      assert x in multiset(b);
    }
  }

  /** A caller can check before the run that every payload will be fresh: it is enough that the
      document's IDs and all those the payloads bring in are distinct. */
  lemma {:induction false} DistinctPayloadsAreFresh(doc: Forest, records: seq<Record>, conflicts: seq<Conflict>)
    requires Distinct(Ids(doc) + GivenAll(records, conflicts))
    ensures FreshRun(doc, records, conflicts)
  {
    if records != [] {
      var earlier, last := records[..|records| - 1], records[|records| - 1];
      var before, given := GivenAll(earlier, conflicts), GivenBy(last, conflicts);
      assert Ids(doc) + GivenAll(records, conflicts) == (Ids(doc) + before) + given;
      DistinctParts(Ids(doc) + before, given);
      DistinctPayloadsAreFresh(doc, earlier, conflicts);
      var middle := ApplyAll(doc, earlier, conflicts);
      if middle.Ok? && !Skipped(last, conflicts) {
        RunAccounts(doc, earlier, conflicts);
        forall x <- given ensures multiset(Ids(middle.value))[x] == 0 {
          NoneLeft(Ids(middle.value), TakenAll(doc, earlier, conflicts), Ids(doc), before, x);
        }
      }
    }
  }

  lemma NoneLeft<T>(ids: seq<T>, taken: seq<T>, old': seq<T>, given: seq<T>, x: T)
    requires multiset(ids) + multiset(taken) == multiset(old') + multiset(given)
    requires multiset(old' + given)[x] == 0
    ensures multiset(ids)[x] == 0
  {
    assert multiset(old' + given) == multiset(old') + multiset(given);
    assert (multiset(ids) + multiset(taken))[x] == 0;
  }

  /** So IDs stay distinct over every run whose payloads' IDs are distinct and new. */
  lemma NewIdsKeepUnique(doc: Forest, records: seq<Record>, conflicts: seq<Conflict>)
    requires Distinct(Ids(doc) + GivenAll(records, conflicts)) && ApplyAll(doc, records, conflicts).Ok?
    ensures Unique(ApplyAll(doc, records, conflicts).value)
  {
    DistinctParts(Ids(doc), GivenAll(records, conflicts));
    DistinctPayloadsAreFresh(doc, records, conflicts);
    RunKeepsUnique(doc, records, conflicts);
  }

  // ---- Undoing ----

  function Delete(id: Id): Operation {
    var nothing := Target(Text(id), Absent, Absent, Absent, Absent);
    Operation(DeleteBlock, nothing, NoPayload())
  }

  function NoPayload(): Payload {
    Payload(Malformed, Absent, NotInteger, Absent, Absent, Absent, Absent, Absent, Absent, Absent)
  }

  function PutAt(parent: Field, index: int, block: BlockField): Payload {
    NoPayload().(parent := parent, index := Integer(index), block := block)
  }

  function InsertAt(parent: Field, index: int, b: Block): Operation {
    Operation(InsertBlock, Target(Absent, Absent, Absent, Absent, Absent), PutAt(parent, index, Tree(b)))
  }

  function Move(id: Id, parent: Field, index: int): Operation {
    Operation(MoveBlock, Target(Text(id), Absent, Absent, Absent, Absent), PutAt(parent, index, Malformed))
  }

  // The parent_block_id of a block, as an operation would give it.
  function ParentField(doc: Forest, p: Path): Field
    requires Leads(doc, p)
  {
    if |p| == 1 then Absent
    else
      ParentLeads(doc, p, 1);
      Text(At(doc, p[..|p| - 1]).id)
  }

  lemma {:induction false} ParentLeads(doc: Forest, p: Path, del: nat)
    requires Slot(doc, p, del) && |p| > 1
    ensures Leads(doc, p[..|p| - 1]) && At(doc, p[..|p| - 1]).children.Array?
    ensures p[|p| - 1] + del <= |At(doc, p[..|p| - 1]).children.blocks|
    decreases |p|
  {
    if |p| > 2 {
      ParentLeads(doc[p[0]].children.blocks, p[1..], del);
      assert p[..|p| - 1][1..] == p[1..][..|p| - 2];
    }
  }

  // An edit below a block leaves the block in place, with its ID.
  lemma {:induction false} ParentStays(doc: Forest, p: Path, del: nat, ins: Forest)
    requires Slot(doc, p, del) && |p| > 1
    ensures Slot(Splice(doc, p, del, ins), p, |ins|)
    ensures Leads(doc, p[..|p| - 1]) && Leads(Splice(doc, p, del, ins), p[..|p| - 1])
    ensures At(Splice(doc, p, del, ins), p[..|p| - 1]).id == At(doc, p[..|p| - 1]).id
    decreases |p|
  {
    if |p| > 2 {
      ParentStays(doc[p[0]].children.blocks, p[1..], del, ins);
      assert p[..|p| - 1][1..] == p[1..][..|p| - 2];
    } else {
      SpliceUndone(doc[p[0]].children.blocks, p[1..], del, ins);
    }
  }

  // The container a block stands in.
  function Home(p: Path): Container {
    if |p| == 1 then None else Some(p[..|p| - 1])
  }

  lemma HomePosition(p: Path)
    ensures Position(Home(p), p[|p| - 1]) == p
  {
  }

  lemma HomeHolds(doc: Forest, p: Path, del: nat)
    requires Slot(doc, p, del)
    ensures Holds(doc, Home(p)) && p[|p| - 1] + del <= |ChildrenOf(doc, Home(p))|
  {
    if |p| > 1 {
      ParentLeads(doc, p, del);
    }
  }

  lemma SubsetUnique(bs: Forest, bigger: Forest)
    requires Unique(bigger) && multiset(Ids(bs)) <= multiset(Ids(bigger))
    ensures Unique(bs)
  {
    forall x <- multiset(Ids(bs)) ensures multiset(Ids(bs))[x] == 1 {
      DistinctMeans(Ids(bigger), x);
    }
  }

  lemma RemovalKeepsUnique(doc: Forest, p: Path)
    requires Unique(doc) && Leads(doc, p)
    ensures Unique(Splice(doc, p, 1, []))
  {
    var rest := Splice(doc, p, 1, []);
    SwapOne(doc, p, []);
    assert multiset(Ids([])) == multiset{};
    Exchange(multiset(Ids(doc)), multiset(Ids(rest)), multiset(BlockIds(At(doc, p))), multiset{});
    SubsetUnique(Splice(doc, p, 1, []), doc);
  }

  // Once a block is gone, the parent its ParentField names is still found where it was.
  lemma HomeFound(doc: Forest, p: Path)
    requires Unique(doc) && Leads(doc, p) && ParentField(doc, p) != Text("")
    ensures FindContainer(Splice(doc, p, 1, []), ParentField(doc, p)) == Ok(Home(p))
  {
    var rest := Splice(doc, p, 1, []);
    if |p| > 1 {
      ParentStays(doc, p, 1, []);
      ParentLeads(rest, p, 0);
      RemovalKeepsUnique(doc, p);
      FindUnique(rest, p[..|p| - 1]);
    }
  }

  // Putting a removed block back where it stood.
  lemma PutBack(doc: Forest, p: Path)
    requires Leads(doc, p)
    ensures Holds(Splice(doc, p, 1, []), Home(p))
    ensures MoveInto(Splice(doc, p, 1, []), Home(p), Integer(p[|p| - 1]), At(doc, p)) == Ok(doc)
  {
    SpliceUndone(doc, p, 1, []);
    RemovedOne(doc, p);
    HomePosition(p);
    HomeHolds(Splice(doc, p, 1, []), p, 0);
  }

  /** Deleting a block and inserting it again where it was restores the document. */
  lemma DeleteThenReinsert(doc: Forest, p: Path)
    requires Unique(doc) && Leads(doc, p) && ValidBlock(At(doc, p)) && ParentField(doc, p) != Text("")
    ensures Apply(doc, Delete(At(doc, p).id)).Ok?
    ensures Apply(Apply(doc, Delete(At(doc, p).id)).value,
                  InsertAt(ParentField(doc, p), p[|p| - 1], At(doc, p))) == Ok(doc)
  {
    FindUnique(doc, p);
    HomeFound(doc, p);
    PutBack(doc, p);
  }

  // Where an insertion or a move that succeeds puts its block.
  lemma LandsAt(doc: Forest, c: Container, k: nat, b: Block)
    requires Holds(doc, c) && k <= |ChildrenOf(doc, c)|
    ensures Slot(doc, Position(c, k), 0)
    ensures var r := Splice(doc, Position(c, k), 0, [b]);
      Leads(r, Position(c, k)) && At(r, Position(c, k)) == b && Splice(r, Position(c, k), 1, []) == doc
  {
    PositionIsSlot(doc, c, k, 0);
    SpliceUndone(doc, Position(c, k), 0, [b]);
    RemovedNone(doc, Position(c, k));
    RemovedOne(Splice(doc, Position(c, k), 0, [b]), Position(c, k));
  }

  /** Deleting a block just inserted restores the document, whenever no ID was already in use. */
  lemma InsertThenDelete(doc: Forest, parent: Field, k: int, b: Block)
    requires Apply(doc, InsertAt(parent, k, b)).Ok? && Unique(Apply(doc, InsertAt(parent, k, b)).value)
    ensures Apply(Apply(doc, InsertAt(parent, k, b)).value, Delete(b.id)) == Ok(doc)
  {
    var c := FindContainer(doc, parent).value;
    LandsAt(doc, c, k, b);
    FindUnique(Apply(doc, InsertAt(parent, k, b)).value, Position(c, k));
  }

  /** Moving a block and moving it back to its old parent and index restores the document. */
  lemma MoveBack(doc: Forest, p: Path, parent: Field, k: int)
    requires Unique(doc) && Leads(doc, p) && ParentField(doc, p) != Text("")
    requires Apply(doc, Move(At(doc, p).id, parent, k)).Ok?
    ensures Apply(Apply(doc, Move(At(doc, p).id, parent, k)).value,
                  Move(At(doc, p).id, ParentField(doc, p), p[|p| - 1])) == Ok(doc)
  {
    var id := At(doc, p).id;
    var rest := Splice(doc, p, 1, []);
    var moved := Apply(doc, Move(id, parent, k)).value;
    FindUnique(doc, p);
    var c := FindContainer(rest, parent).value;
    LandsAt(rest, c, k, At(doc, p));
    MoveAccounts(doc, Move(id, parent, k));
    SubsetUnique(moved, doc);
    FindUnique(moved, Position(c, k));
    HomeFound(doc, p);
    PutBack(doc, p);
  }

  /** A replacement puts its payload where the block was and changes nothing else. */
  lemma ReplacementStands(doc: Forest, id: Id, b: Block)
    requires Apply(doc, Replace(id, b)).Ok?
    ensures Find(doc, id).Some?
    ensures var p, r := Find(doc, id).value, Apply(doc, Replace(id, b)).value;
      Leads(r, p) && At(r, p) == b && Splice(r, p, 1, [At(doc, p)]) == doc
  {
    var p, r := Find(doc, id).value, Apply(doc, Replace(id, b)).value;
    SpliceUndone(doc, p, 1, [b]);
    RemovedOne(doc, p);
    RemovedOne(r, p);
  }

  function Replace(id: Id, b: Block): Operation {
    Operation(ReplaceBlock, Target(Text(id), Absent, Absent, Absent, Absent), NoPayload().(block := Tree(b)))
  }

  // ---- When a move succeeds ----

  // q does not lie in the subtree at p.
  predicate Outside(p: Path, q: Path) {
    !(p <= q)
  }

  // Where the block at q stands once the block at p is gone.
  function Closed(p: Path, q: Path): Path
    requires Outside(p, q)
    decreases |p|
  {
    if |p| == 1 then (if q[0] > p[0] then [q[0] - 1] + q[1..] else q)
    else if q[0] != p[0] || |q| == 1 then q
    else
      assert p == [p[0]] + p[1..] && q == [q[0]] + q[1..];
      [q[0]] + Closed(p[1..], q[1..])
  }

  // How many children the block at q loses when the block at p goes.
  function Lost(p: Path, q: Path): nat {
    if |p| == |q| + 1 && q <= p then 1 else 0
  }

  ghost predicate SameButLost(was: Block, now: Block, lost: nat) {
    && now.id == was.id && now.children.Array? == was.children.Array?
    && |Kids(now)| == |Kids(was)| - lost
  }

  lemma {:induction false} SurvivesRemoval(doc: Forest, p: Path, q: Path)
    requires Leads(doc, p) && Leads(doc, q) && Outside(p, q)
    ensures Leads(Splice(doc, p, 1, []), Closed(p, q))
    ensures SameButLost(At(doc, q), At(Splice(doc, p, 1, []), Closed(p, q)), Lost(p, q))
    decreases |p|
  {
    var rest := Splice(doc, p, 1, []);
    if |p| == 1 {
      AfterTopRemoval(doc, p, q);
    } else if q[0] != p[0] {
      SameBelow(doc, q, rest, q);
    } else if |q| == 1 {
      ParentLosesOne(doc, p);
      assert q == p[..1];
    } else {
      Headed(p);
      Headed(q);
      SurvivesRemoval(doc[p[0]].children.blocks, p[1..], q[1..]);
      assert Closed(p, q)[1..] == Closed(p[1..], q[1..]);
      assert Lost(p, q) == Lost(p[1..], q[1..]);
    }
  }

  lemma Headed(p: Path)
    ensures p == [p[0]] + p[1..]
  {
  }

  lemma ParentLosesOne(doc: Forest, p: Path)
    requires Leads(doc, p) && |p| > 1
    ensures SameButLost(doc[p[0]], Splice(doc, p, 1, [])[p[0]], if |p| == 2 then 1 else 0)
  {
    var kids := doc[p[0]].children.blocks;
    assert |Splice(kids, p[1..], 1, [])| == |kids| - (if |p[1..]| == 1 then 1 else 0);
  }

  lemma AfterTopRemoval(doc: Forest, p: Path, q: Path)
    requires Leads(doc, p) && Leads(doc, q) && |p| == 1 && Outside(p, q)
    ensures Leads(Splice(doc, p, 1, []), Closed(p, q))
    ensures At(Splice(doc, p, 1, []), Closed(p, q)) == At(doc, q)
  {
    var rest := Splice(doc, p, 1, []);
    assert q[0] == p[0] ==> p <= q;
    if q[0] > p[0] {
      assert Closed(p, q)[1..] == q[1..];
    }
    SameBelow(doc, q, rest, Closed(p, q));
  }

  lemma SameBelow(doc: Forest, q: Path, other: Forest, q': Path)
    requires Leads(doc, q) && q'[0] < |other| && other[q'[0]] == doc[q[0]] && q'[1..] == q[1..]
    ensures Leads(other, q') && At(other, q') == At(doc, q)
  {
    assert |q| == 1 + |q[1..]| && |q'| == 1 + |q'[1..]|;
  }

  // Everything in a subtree is listed among its IDs.
  lemma {:induction false} InsideListed(doc: Forest, p: Path, q: Path)
    requires Leads(doc, p) && Leads(doc, q) && p <= q
    ensures At(doc, q).id in BlockIds(At(doc, p))
    decreases |p|
  {
    if |p| > 1 {
      InsideListed(doc[p[0]].children.blocks, p[1..], q[1..]);
    } else if |q| > 1 {
      var kids := doc[q[0]].children.blocks;
      IdsAtLead(kids, q[1..]);
      assert At(doc, q).id in Ids(kids);
    }
  }

  lemma LeftAfterRemoval(doc: Forest, p: Path, id: Id)
    requires Unique(doc) && Leads(doc, p)
    ensures id in Ids(Splice(doc, p, 1, [])) <==> id in Ids(doc) && id !in BlockIds(At(doc, p))
  {
    var all, rest, gone := multiset(Ids(doc)), multiset(Ids(Splice(doc, p, 1, []))), multiset(BlockIds(At(doc, p)));
    SwapOne(doc, p, []);
    assert multiset(Ids([])) == multiset{};
    Exchange(all, rest, gone, multiset{});
    DistinctMeans(Ids(doc), id);
    assert id in Ids(doc) <==> id in all;
    assert id in BlockIds(At(doc, p)) <==> id in gone;
    assert id in Ids(Splice(doc, p, 1, [])) <==> id in rest;
  }

  // A place where the block at p can be moved to, told from the document before the move.
  predicate CanReceive(doc: Forest, p: Path, parent: Field, k: int)
    requires Leads(doc, p)
  {
    match parent
    case NotText => false
    case Absent => 0 <= k <= |doc| - (if |p| == 1 then 1 else 0)
    case Text(id) =>
      if id == "" then 0 <= k <= |doc| - (if |p| == 1 then 1 else 0)
      else
        && Find(doc, id).Some? && id !in BlockIds(At(doc, p))
        && At(doc, Find(doc, id).value).children.Array?
        && 0 <= k <= |Kids(At(doc, Find(doc, id).value))| - Lost(p, Find(doc, id).value)
  }

  lemma ParentAfterRemoval(doc: Forest, p: Path, id: Id)
    requires Unique(doc) && Leads(doc, p)
    ensures Find(Splice(doc, p, 1, []), id).Some? <==> Find(doc, id).Some? && id !in BlockIds(At(doc, p))
    ensures Find(Splice(doc, p, 1, []), id).Some? ==>
      SameButLost(At(doc, Find(doc, id).value), At(Splice(doc, p, 1, []), Find(Splice(doc, p, 1, []), id).value),
        Lost(p, Find(doc, id).value))
  {
    var rest := Splice(doc, p, 1, []);
    LeftAfterRemoval(doc, p, id);
    if Find(rest, id).Some? {
      var q := Find(doc, id).value;
      if p <= q {
        InsideListed(doc, p, q);
        assert false;
      }
      SurvivesRemoval(doc, p, q);
      RemovalKeepsUnique(doc, p);
      FindUnique(rest, Closed(p, q));
    }
  }

  /** A move succeeds exactly when the block exists and the named parent lies outside it, can hold
      blocks and has room for the index once the block is gone: no block ever lands inside itself. */
  lemma MoveSucceedsExactly(doc: Forest, id: Id, parent: Field, k: int)
    requires Unique(doc)
    ensures Apply(doc, Move(id, parent, k)).Ok? <==>
      Find(doc, id).Some? && CanReceive(doc, Find(doc, id).value, parent, k)
  {
    if Find(doc, id).Some? {
      var p := Find(doc, id).value;
      if parent.Text? && parent.text != "" {
        ParentAfterRemoval(doc, p, parent.text);
      } else {
        assert |Splice(doc, p, 1, [])| == |doc| - (if |p| == 1 then 1 else 0);
      }
    }
  }

  // ---- Replacements commute ----

  predicate Apart(p: Path, q: Path) {
    !(p <= q) && !(q <= p)
  }

  // Replacing one block leaves a block apart from it where and what it was.
  lemma {:induction false} ApartUntouched(doc: Forest, p: Path, b: Block, q: Path)
    requires Leads(doc, p) && Leads(doc, q) && Apart(p, q)
    ensures Leads(Splice(doc, p, 1, [b]), q) && At(Splice(doc, p, 1, [b]), q) == At(doc, q)
    decreases |p|
  {
    var doc' := Splice(doc, p, 1, [b]);
    if p[0] != q[0] {
      SameBelow(doc, q, doc', q);
    } else {
      Headed(p);
      Headed(q);
      ApartUntouched(doc[p[0]].children.blocks, p[1..], b, q[1..]);
    }
  }

  // It brings nothing but the replacement's IDs in front of it.
  lemma {:induction false} BeforeApart(doc: Forest, p: Path, b: Block, q: Path, id: Id)
    requires Leads(doc, p) && Leads(doc, q) && Apart(p, q)
    requires id !in Before(doc, q, 1) && id !in BlockIds(b)
    ensures Leads(Splice(doc, p, 1, [b]), q) && id !in Before(Splice(doc, p, 1, [b]), q, 1)
    decreases |p|
  {
    var doc' := Splice(doc, p, 1, [b]);
    ApartUntouched(doc, p, b, q);
    if p[0] == q[0] {
      Headed(p);
      Headed(q);
      assert doc'[..q[0]] == doc[..q[0]];
      BeforeApart(doc[p[0]].children.blocks, p[1..], b, q[1..], id);
    } else {
      var i := q[0];
      assert id !in Ids(doc[..i]);
      if p[0] < i {
        assert doc'[..i] == Splice(doc[..i], p, 1, [b]) by { SpliceOfPrefix(doc, p, b, i); }
        IdsOfSplice(doc[..i], p, 1, [b]);
        IdsAtSlot(doc[..i], p, 1);
        IdsOfOne(b);
      } else {
        assert doc'[..i] == doc[..i];
      }
      if |q| > 1 {
        assert doc'[i] == doc[i];
      }
    }
  }

  lemma SpliceOfPrefix(doc: Forest, p: Path, b: Block, i: nat)
    requires Leads(doc, p) && p[0] < i <= |doc|
    ensures Leads(doc[..i], p) && Splice(doc, p, 1, [b])[..i] == Splice(doc[..i], p, 1, [b])
  {
  }

  lemma {:induction false} SplicesCommute(doc: Forest, p: Path, b: Block, q: Path, c: Block)
    requires Leads(doc, p) && Leads(doc, q) && Apart(p, q)
    ensures Leads(Splice(doc, p, 1, [b]), q) && Leads(Splice(doc, q, 1, [c]), p)
    ensures Splice(Splice(doc, p, 1, [b]), q, 1, [c]) == Splice(Splice(doc, q, 1, [c]), p, 1, [b])
    decreases |p|
  {
    ApartUntouched(doc, p, b, q);
    ApartUntouched(doc, q, c, p);
    if p[0] == q[0] {
      Headed(p);
      Headed(q);
      SplicesCommute(doc[p[0]].children.blocks, p[1..], b, q[1..], c);
    }
  }

  // The second replacement still finds its block after the first.
  lemma StillFound(doc: Forest, p: Path, b: Block, id: Id)
    requires Leads(doc, p) && Find(doc, id).Some? && Apart(p, Find(doc, id).value) && id !in BlockIds(b)
    ensures Find(Splice(doc, p, 1, [b]), id) == Find(doc, id)
  {
    var q := Find(doc, id).value;
    FindIsFirst(doc, q, id);
    ApartUntouched(doc, p, b, q);
    BeforeApart(doc, p, b, q, id);
    FindIsFirst(Splice(doc, p, 1, [b]), q, id);
  }

  /** Replacements of two blocks, neither inside the other, commute when neither payload captures
      the other's ID. */
  lemma ReplacementsCommute(doc: Forest, id: Id, b: Block, id': Id, c: Block)
    requires Find(doc, id).Some? && Find(doc, id').Some?
    requires Apart(Find(doc, id).value, Find(doc, id').value)
    requires id' !in BlockIds(b) && id !in BlockIds(c)
    requires ValidBlock(b) && ValidBlock(c)
    ensures Apply(doc, Replace(id, b)).Ok? && Apply(doc, Replace(id', c)).Ok?
    ensures Apply(Apply(doc, Replace(id, b)).value, Replace(id', c)) ==
            Apply(Apply(doc, Replace(id', c)).value, Replace(id, b))
    ensures Apply(Apply(doc, Replace(id, b)).value, Replace(id', c)).Ok?
  {
    var p, q := Find(doc, id).value, Find(doc, id').value;
    StillFound(doc, p, b, id');
    StillFound(doc, q, c, id);
    SplicesCommute(doc, p, b, q, c);
  }

  lemma {:induction false} AncestorStays(doc: Forest, p: Path, q: Path, ins: Forest)
    requires Leads(doc, p) && Leads(doc, q) && p < q
    ensures Leads(Splice(doc, q, 1, ins), p) && At(Splice(doc, q, 1, ins), p).id == At(doc, p).id
    decreases |p|
  {
    if |p| > 1 {
      Headed(p);
      Headed(q);
      AncestorStays(doc[p[0]].children.blocks, p[1..], q[1..], ins);
    }
  }

  lemma GoneAfterReplacement(doc: Forest, p: Path, b: Block, id: Id)
    requires Unique(doc) && Leads(doc, p)
    requires id in BlockIds(At(doc, p)) && id !in BlockIds(b)
    ensures id !in Ids(Splice(doc, p, 1, [b]))
  {
    var doc' := Splice(doc, p, 1, [b]);
    SwapOne(doc, p, [b]);
    IdsOfOne(b);
    Exchange(multiset(Ids(doc)), multiset(Ids(doc')), multiset(BlockIds(At(doc, p))), multiset(BlockIds(b)));
    DistinctMeans(Ids(doc), id);
    assert id in multiset(BlockIds(At(doc, p))) && id !in multiset(BlockIds(b));
    assert id !in multiset(Ids(doc'));
  }

  /** Nested replacements do not: the outer one first loses the inner target, the inner one first
      does not. */
  lemma NestedReplacementsDoNot(doc: Forest, p: Path, b: Block, q: Path, c: Block)
    requires Unique(doc) && Leads(doc, p) && Leads(doc, q) && p < q
    requires At(doc, q).id !in BlockIds(b) && ValidBlock(b) && ValidBlock(c)
    ensures Apply(doc, Replace(At(doc, p).id, b)) == Ok(Splice(doc, p, 1, [b]))
    ensures Apply(Splice(doc, p, 1, [b]), Replace(At(doc, q).id, c)) == Err(BlockNotFound)
    ensures Apply(doc, Replace(At(doc, q).id, c)) == Ok(Splice(doc, q, 1, [c]))
    ensures Apply(Splice(doc, q, 1, [c]), Replace(At(doc, p).id, b)).Ok?
  {
    FindUnique(doc, p);
    FindUnique(doc, q);
    InsideListed(doc, p, q);
    GoneAfterReplacement(doc, p, b, At(doc, q).id);
    AncestorStays(doc, p, q, [c]);
    IdsAtLead(Splice(doc, q, 1, [c]), p);
  }

  // ---- References as operations would write them ----

  function OptionalField(s: Option<string>): Field {
    if s.Some? then Text(s.value) else Absent
  }

  // The fields that ask for a node.
  function TargetOf(node: Inline): Target {
    var none := Target(Absent, Absent, Absent, Absent, Absent);
    match node
    case EntityReference(id, _) => none.(entityId := Text(id))
    case ClaimReference(id, _) => none.(claimId := Text(id))
    case CitationReference(id, _) => none.(citationId := Text(id))
    case _ => none
  }

  function PayloadOf(node: Inline): Payload {
    match node
    case PageReference(page, heading, text) =>
      NoPayload().(pageId := Text(page), heading := OptionalField(heading), displayText := Text(text))
    case UnresolvedReference(namespace, title, entityType) =>
      NoPayload().(namespace := Text(namespace), title := Text(title), entityType := OptionalField(entityType))
    case EntityReference(_, text) => NoPayload().(displayText := Text(text))
    case ClaimReference(_, text) => NoPayload().(displayText := Text(text))
    case CitationReference(_, note) => NoPayload().(displayText := OptionalField(note))
    case ExternalLink(url, text) => NoPayload().(url := Text(url), displayText := Text(text))
    case _ => NoPayload()
  }

  // A reference whose required texts are not empty, and whose optional ones are missing or not empty.
  predicate Askable(node: Inline) {
    match node
    case PageReference(page, heading, _) => page != "" && heading != Some("")
    case UnresolvedReference(namespace, title, entityType) => namespace != "" && title != "" && entityType != Some("")
    case EntityReference(id, _) => id != ""
    case ClaimReference(id, _) => id != ""
    case CitationReference(id, _) => id != ""
    case ExternalLink(url, _) => url != ""
    case _ => false
  }

  /** The fields that ask for a reference build exactly that reference; retargeting builds all of them
      but unresolved page references. */
  lemma ReferenceRoundTrip(node: Inline, retarget: bool)
    requires NodeNoun(node).Some?
    ensures Askable(node) && !(retarget && node.UnresolvedReference?) <==>
      BuildReference(NodeNoun(node).value, retarget, TargetOf(node), PayloadOf(node)) == Ok(node)
  {
  }

  // ---- Node positions as text ----

  function DecimalText(n: nat): string {
    if n < 10 then [('0' as int + n) as char] else DecimalText(n / 10) + [('0' as int + n % 10) as char]
  }

  /** A node position written in decimal is read back, and accepted exactly when it is within the content. */
  lemma {:induction false} PositionRoundTrip(n: nat, length: nat)
    ensures Canonical(DecimalText(n)) && DecimalValue(DecimalText(n)) == n
    ensures n > 0 ==> DecimalText(n)[0] != '0'
    ensures NodeIndex(Text(DecimalText(n)), length) == if n < length then Ok(n) else Err(IndexOutOfRange)
    decreases n
  {
    var s := DecimalText(n);
    if n >= 10 {
      PositionRoundTrip(n / 10, length);
      assert s[..|s| - 1] == DecimalText(n / 10);
      assert n == 10 * (n / 10) + n % 10;
    } else {
      assert s[..|s| - 1] == "";
    }
  }

  // ---- Skipped records ----

  // A conflict about this block that is closed with a choice.
  predicate Settles(conflict: Conflict, id: Id) {
    !conflict.open && conflict.blockId == Some(id) && conflict.choice.Some? && conflict.choice != Some(OtherChoice(""))
  }

  // The last conflict settled about the record's block keeps the current text or dismisses the change.
  predicate Overruled(record: Record, conflicts: seq<Conflict>) {
    var id := record.operation.target.blockId;
    && id.Text? && id.text != ""
    && exists i | 0 <= i < |conflicts| ::
         && Settles(conflicts[i], id.text) && conflicts[i].choice in {Some(ChooseCurrent), Some(Dismiss)}
         && forall j | i < j < |conflicts| :: !Settles(conflicts[j], id.text)
  }

  lemma {:induction false} LastSettled(conflicts: seq<Conflict>, id: Id)
    requires id != ""
    ensures LastChoice(conflicts, id).None? <==> forall j | 0 <= j < |conflicts| :: !Settles(conflicts[j], id)
    ensures forall i | 0 <= i < |conflicts| ::
      Settles(conflicts[i], id) && (forall j | i < j < |conflicts| :: !Settles(conflicts[j], id)) ==>
        LastChoice(conflicts, id) == conflicts[i].choice
    ensures LastChoice(conflicts, id).Some? ==> exists i | 0 <= i < |conflicts| ::
      && Settles(conflicts[i], id) && (forall j | i < j < |conflicts| :: !Settles(conflicts[j], id))
      && LastChoice(conflicts, id) == conflicts[i].choice
  {
    if conflicts != [] {
      var earlier, n := conflicts[..|conflicts| - 1], |conflicts| - 1;
      LastSettled(earlier, id);
      if !Settles(conflicts[n], id) && LastChoice(earlier, id).Some? {
        var i :| 0 <= i < n && Settles(earlier[i], id) && (forall j | i < j < n :: !Settles(earlier[j], id))
          && LastChoice(earlier, id) == earlier[i].choice;
        assert Settles(conflicts[i], id) && forall j | i < j < |conflicts| :: !Settles(conflicts[j], id);
      }
    }
  }

  /** A record has no effect exactly when its block is named by a conflict that is closed with a choice, and
      the last such conflict says choose_current or dismiss; any other record is applied. */
  lemma OverruledExactly(doc: Forest, record: Record, conflicts: seq<Conflict>)
    ensures Skipped(record, conflicts) <==> Overruled(record, conflicts)
    ensures ApplyRecord(doc, record, conflicts) ==
      if Overruled(record, conflicts) then Ok(doc) else Apply(doc, record.operation)
  {
    var id := record.operation.target.blockId;
    if id.Text? && id.text != "" {
      LastSettled(conflicts, id.text);
    }
  }

  // The records that are not overruled, in order.
  function Kept(records: seq<Record>, conflicts: seq<Conflict>): seq<Record> {
    if records == [] then []
    else
      var last := records[|records| - 1];
      Kept(records[..|records| - 1], conflicts) + if Overruled(last, conflicts) then [] else [last]
  }

  /** Choosing the current text or dismissing a change does as if its record were not there. */
  lemma {:induction false} SkippedRecordsDropOut(doc: Forest, records: seq<Record>, conflicts: seq<Conflict>)
    ensures ApplyAll(doc, records, conflicts) == ApplyAll(doc, Kept(records, conflicts), [])
  {
    if records != [] {
      var front, last := records[..|records| - 1], records[|records| - 1];
      var before := ApplyAll(doc, front, conflicts);
      SkippedRecordsDropOut(doc, front, conflicts);
      if before.Ok? {
        OverruledExactly(before.value, last, conflicts);
        OverruledExactly(before.value, last, []);
      }
      if Overruled(last, conflicts) {
        assert Kept(records, conflicts) == Kept(front, conflicts);
      } else {
        assert Kept(records, conflicts)[..|Kept(front, conflicts)|] == Kept(front, conflicts);
      }
    }
  }
}
