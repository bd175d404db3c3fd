/** A page button's insert_blocks action: clones with new IDs, and the operations that insert them. */
module ButtonClone {
  import opened Wrappers
  import opened BlockTree
  import opened Patch
  import PatchLaws
  import opened Sequences

  // Every ID inside a block, those of blocks kept in button actions included.
  function EveryId(b: Block): seq<Id> {
    [b.id] + ((if b.children.Array? then EveryIdOf(b.children.blocks) else []) + ActionIds(b.actions))
  }

  function EveryIdOf(bs: Forest): seq<Id> {
    if bs == [] then [] else EveryId(bs[0]) + EveryIdOf(bs[1..])
  }

  function ActionIds(actions: seq<BlockTree.Action>): seq<Id> {
    if actions == [] then []
    else (if actions[0].InsertBlocks? then EveryIdOf(actions[0].blocks) else []) + ActionIds(actions[1..])
  }

  // newBlockId: the n-th ID ever handed out is ids(n).
  type IdSource = nat -> Id

  ghost predicate NewIds(ids: IdSource, used: seq<Id>) {
    && (forall i, j | 0 <= i < j :: ids(i) != ids(j))
    && forall i: nat :: ids(i) != "" && ids(i) !in used
  }

  // ---- The clone ----

  function Remap(b: Block, ids: IdSource, n: nat): Block
    decreases b
  {
    var kids := if b.children.Array? then Array(RemapAll(b.children.blocks, ids, n + 1)) else NoArray;
    var used := if b.children.Array? then |EveryIdOf(b.children.blocks)| else 0;
    var actions := if b.kind.Button? then RemapActions(b.actions, ids, n + 1 + used) else b.actions;
    Block(ids(n), b.kind, b.content, kids, actions)
  }

  function RemapAll(bs: Forest, ids: IdSource, n: nat): Forest
    decreases bs
  {
    if bs == [] then [] else [Remap(bs[0], ids, n)] + RemapAll(bs[1..], ids, n + |EveryId(bs[0])|)
  }

  function RemapActions(actions: seq<BlockTree.Action>, ids: IdSource, n: nat): seq<BlockTree.Action>
    decreases actions
  {
    if actions == [] then []
    else if actions[0].InsertBlocks? then
      [InsertBlocks(actions[0].pageId, RemapAll(actions[0].blocks, ids, n))] +
      RemapActions(actions[1..], ids, n + |EveryIdOf(actions[0].blocks)|)
    else [actions[0]] + RemapActions(actions[1..], ids, n)
  }

  // ---- A clone has new IDs everywhere ----

  function Handed(ids: IdSource, n: nat, count: nat): (r: seq<Id>)
    ensures |r| == count
    decreases count
  {
    if count == 0 then [] else [ids(n)] + Handed(ids, n + 1, count - 1)
  }

  lemma {:induction false} HandedOut(ids: IdSource, n: nat, a: nat, b: nat)
    ensures Handed(ids, n, a + b) == Handed(ids, n, a) + Handed(ids, n + a, b)
    decreases a
  {
    if a > 0 {
      HandedOut(ids, n + 1, a - 1, b);
    }
  }

  /** The IDs in a clone, wherever they are, are the ones handed out for it, in order. */
  lemma CloneIds(b: Block, ids: IdSource, n: nat)
    requires ValidBlock(b)
    ensures EveryId(Remap(b, ids, n)) == Handed(ids, n, |EveryId(b)|)
    decreases b
  {
    if b.children.Array? {
      CloneIdsOf(b.children.blocks, ids, n + 1);
      assert EveryId(b) == [b.id] + EveryIdOf(b.children.blocks) + ActionIds(b.actions);
    } else if b.kind.Button? {
      CloneActionIds(b.actions, ids, n + 1);
    }
    CloneIdsByPart(b, ids, n);
  }

  lemma CloneIdsByPart(b: Block, ids: IdSource, n: nat)
    requires ValidBlock(b)
    requires b.children.Array? ==>
      EveryIdOf(RemapAll(b.children.blocks, ids, n + 1)) == Handed(ids, n + 1, |EveryIdOf(b.children.blocks)|)
    requires b.children.NoArray? && b.kind.Button? ==>
      ActionIds(RemapActions(b.actions, ids, n + 1)) == Handed(ids, n + 1, |ActionIds(b.actions)|)
    ensures EveryId(Remap(b, ids, n)) == Handed(ids, n, |EveryId(b)|)
  {
    if b.children.Array? {
      assert !b.kind.Button?;
      assert b.actions == [];
    }
  }

  lemma EveryIdOfPush(b: Block, bs: Forest)
    ensures EveryIdOf([b] + bs) == EveryId(b) + EveryIdOf(bs)
  {
    assert ([b] + bs)[1..] == bs;
  }

  lemma {:induction false} CloneIdsOf(bs: Forest, ids: IdSource, n: nat)
    requires ValidForest(bs)
    ensures EveryIdOf(RemapAll(bs, ids, n)) == Handed(ids, n, |EveryIdOf(bs)|)
    decreases bs
  {
    if bs != [] {
      var a, b := |EveryId(bs[0])|, |EveryIdOf(bs[1..])|;
      CloneIds(bs[0], ids, n);
      CloneIdsOf(bs[1..], ids, n + a);
      HandedOut(ids, n, a, b);
      EveryIdOfPush(Remap(bs[0], ids, n), RemapAll(bs[1..], ids, n + a));
    }
  }

  lemma {:induction false} CloneActionIds(actions: seq<BlockTree.Action>, ids: IdSource, n: nat)
    requires ValidActions(actions)
    ensures ActionIds(RemapActions(actions, ids, n)) == Handed(ids, n, |ActionIds(actions)|)
    decreases actions
  {
    if actions != [] {
      if actions[0].InsertBlocks? {
        CloneIdsOf(actions[0].blocks, ids, n);
        CloneActionIds(actions[1..], ids, n + |EveryIdOf(actions[0].blocks)|);
        HandedOut(ids, n, |EveryIdOf(actions[0].blocks)|, |ActionIds(actions[1..])|);
      } else {
        CloneActionIds(actions[1..], ids, n);
      }
    }
  }

  // ---- A clone differs from its source in nothing else ----

  function Anonymous(b: Block): Block {
    Block("", b.kind, b.content, if b.children.Array? then Array(AnonymousAll(b.children.blocks)) else NoArray,
      AnonymousActions(b.actions))
  }

  function AnonymousAll(bs: Forest): Forest {
    if bs == [] then [] else [Anonymous(bs[0])] + AnonymousAll(bs[1..])
  }

  function AnonymousActions(actions: seq<BlockTree.Action>): seq<BlockTree.Action> {
    if actions == [] then []
    else
      [if actions[0].InsertBlocks? then InsertBlocks(actions[0].pageId, AnonymousAll(actions[0].blocks))
       else actions[0]] +
      AnonymousActions(actions[1..])
  }

  /** With all IDs blanked out, a clone and its source are equal. */
  lemma CloneEqualsSource(b: Block, ids: IdSource, n: nat)
    ensures Anonymous(Remap(b, ids, n)) == Anonymous(b)
    decreases b
  {
    var used := if b.children.Array? then |EveryIdOf(b.children.blocks)| else 0;
    if b.children.Array? {
      ClonesEqualSources(b.children.blocks, ids, n + 1);
    }
    CloneActionsEqual(b.actions, ids, n + 1 + used);
  }

  lemma {:induction false} ClonesEqualSources(bs: Forest, ids: IdSource, n: nat)
    ensures AnonymousAll(RemapAll(bs, ids, n)) == AnonymousAll(bs)
    decreases bs
  {
    if bs != [] {
      CloneEqualsSource(bs[0], ids, n);
      ClonesEqualSources(bs[1..], ids, n + |EveryId(bs[0])|);
    }
  }

  lemma {:induction false} CloneActionsEqual(actions: seq<BlockTree.Action>, ids: IdSource, n: nat)
    ensures AnonymousActions(RemapActions(actions, ids, n)) == AnonymousActions(actions)
    decreases actions
  {
    if actions != [] {
      if actions[0].InsertBlocks? {
        ClonesEqualSources(actions[0].blocks, ids, n);
        CloneActionsEqual(actions[1..], ids, n + |EveryIdOf(actions[0].blocks)|);
      } else {
        CloneActionsEqual(actions[1..], ids, n);
      }
    }
  }

  // ---- A clone of a valid block is valid ----

  lemma {:induction false} CloneKinds(bs: Forest, ids: IdSource, n: nat)
    ensures |RemapAll(bs, ids, n)| == |bs|
    ensures forall i | 0 <= i < |bs| :: RemapAll(bs, ids, n)[i].kind == bs[i].kind
    decreases bs
  {
    if bs != [] {
      CloneKinds(bs[1..], ids, n + |EveryId(bs[0])|);
    }
  }

  lemma CloneChildrenFit(kind: Kind, bs: Forest, ids: IdSource, n: nat)
    requires ChildrenFit(kind, Array(bs))
    ensures ChildrenFit(kind, Array(RemapAll(bs, ids, n)))
  {
    CloneKinds(bs, ids, n);
  }

  lemma CloneIsValid(b: Block, ids: IdSource, n: nat)
    requires ValidBlock(b) && forall i: nat :: ids(i) != ""
    ensures ValidBlock(Remap(b, ids, n))
    decreases b
  {
    if b.children.Array? {
      ClonesAreValid(b.children.blocks, ids, n + 1);
      CloneChildrenFit(b.kind, b.children.blocks, ids, n + 1);
    } else if b.kind.Button? {
      CloneActionsValid(b.actions, ids, n + 1);
    }
  }

  lemma {:induction false} ClonesAreValid(bs: Forest, ids: IdSource, n: nat)
    requires ValidForest(bs) && forall i: nat :: ids(i) != ""
    ensures ValidForest(RemapAll(bs, ids, n)) && |RemapAll(bs, ids, n)| == |bs|
    decreases bs
  {
    if bs != [] {
      CloneIsValid(bs[0], ids, n);
      ClonesAreValid(bs[1..], ids, n + |EveryId(bs[0])|);
    }
  }

  lemma {:induction false} CloneActionsValid(actions: seq<BlockTree.Action>, ids: IdSource, n: nat)
    requires ValidActions(actions) && forall i: nat :: ids(i) != ""
    ensures ValidActions(RemapActions(actions, ids, n)) && |RemapActions(actions, ids, n)| == |actions|
    decreases actions
  {
    if actions != [] {
      if actions[0].InsertBlocks? {
        ClonesAreValid(actions[0].blocks, ids, n);
        CloneActionsValid(actions[1..], ids, n + |EveryIdOf(actions[0].blocks)|);
      } else {
        CloneActionsValid(actions[1..], ids, n);
      }
    }
  }

  // ---- The operations ----

  function Clones(blocks: Forest, ids: IdSource): Forest {
    RemapAll(blocks, ids, 0)
  }

  // The proposal's records, numbered as they are added.
  function Insertions(length: nat, clones: Forest): (r: seq<Record>)
    ensures |r| == |clones|
    decreases |clones|
  {
    if clones == [] then []
    else
      var k: nat := |clones| - 1;
      Insertions(length, clones[..k]) + [Record(k, PatchLaws.InsertAt(Absent, length + k, clones[k]))]
  }

  lemma InsertionsPush(length: nat, clones: Forest, b: Block)
    ensures Insertions(length, clones + [b]) ==
            Insertions(length, clones) + [Record(|clones|, PatchLaws.InsertAt(Absent, length + |clones|, b))]
  {
    assert (clones + [b])[..|clones|] == clones;
  }

  // The loop has cloned some blocks, the rest is to come.
  ghost predicate Underway(records: seq<Record>, length: nat, clones: Forest, rest: Forest,
      ids: IdSource, handed: nat, all: Forest)
  {
    records == Insertions(length, clones) && clones + RemapAll(rest, ids, handed) == all
  }

  lemma OneMoreClone(
      records: seq<Record>, length: nat, clones: Forest, rest: Forest, ids: IdSource, handed: nat, all: Forest)
    requires Underway(records, length, clones, rest, ids, handed, all) && rest != []
    ensures var block := Remap(rest[0], ids, handed);
      Underway(records + [Record(|clones|, PatchLaws.InsertAt(Absent, length + |clones|, block))], length,
        clones + [block], rest[1..], ids, handed + |EveryId(rest[0])|, all)
  {
    var block := Remap(rest[0], ids, handed);
    InsertionsPush(length, clones, block);
    Associate(clones, [block], RemapAll(rest[1..], ids, handed + |EveryId(rest[0])|));
  }

  method InsertionRecords(blocks: Forest, document: Forest, ids: IdSource) returns (records: seq<Record>)
    ensures records == Insertions(|document|, Clones(blocks, ids))
  {
    records := [];
    var handed: nat := 0;
    ghost var clones: Forest, rest := [], blocks;
    ghost var all := Clones(blocks, ids);
    for offset := 0 to |blocks|
      invariant |clones| == offset && rest == blocks[offset..]
      invariant Underway(records, |document|, clones, rest, ids, handed, all)
    {
      var block := Remap(blocks[offset], ids, handed);
      OneMoreClone(records, |document|, clones, rest, ids, handed, all);
      clones, rest := clones + [block], rest[1..];
      handed := handed + |EveryId(blocks[offset])|;
      records := records + [Record(offset, PatchLaws.InsertAt(Absent, |document| + offset, block))];
    }
    assert clones + [] == clones;
  }

  lemma AppendsOne(current: Forest, b: Block)
    requires ValidBlock(b)
    ensures Apply(current, PatchLaws.InsertAt(Absent, |current|, b)) == Ok(current + [b])
  {
    assert current[..|current|] + [b] + current[|current|..] == current + [b];
  }

  lemma OneMoreInsertion(doc: Forest, before: seq<Record>, current: Forest, b: Block, n: int)
    requires ApplyAll(doc, before, []) == Ok(current) && ValidBlock(b)
    ensures ApplyAll(doc, before + [Record(n, PatchLaws.InsertAt(Absent, |current|, b))], []) == Ok(current + [b])
  {
    var record := Record(n, PatchLaws.InsertAt(Absent, |current|, b));
    assert (before + [record])[..|before|] == before;
    AppendsOne(current, b);
    assert !Skipped(record, []);
  }

  lemma {:induction false} InsertionsExtend(doc: Forest, front: Forest, last: Block)
    requires ApplyAll(doc, Insertions(|doc|, front), []) == Ok(doc + front) && ValidBlock(last)
    ensures ApplyAll(doc, Insertions(|doc|, front + [last]), []) == Ok(doc + (front + [last]))
  {
    OneMoreInsertion(doc, Insertions(|doc|, front), doc + front, last, |front|);
    InsertionsPush(|doc|, front, last);
    Associate(doc, front, [last]);
  }

  lemma Advance<T>(front: seq<T>, rest: seq<T>)
    requires rest != []
    ensures (front + [rest[0]]) + rest[1..] == front + rest
  {
  }

  lemma {:induction false} InsertionsApply(doc: Forest, front: Forest, rest: Forest)
    requires ApplyAll(doc, Insertions(|doc|, front), []) == Ok(doc + front) && ValidForest(rest)
    ensures ApplyAll(doc, Insertions(|doc|, front + rest), []) == Ok(doc + (front + rest))
    decreases |rest|
  {
    if rest == [] {
      assert front + rest == front;
    } else {
      Advance(front, rest);
      InsertionsExtend(doc, front, rest[0]);
      InsertionsApply(doc, front + [rest[0]], rest[1..]);
    }
  }

  lemma {:induction false} ValidJoined(a: Forest, b: Forest)
    requires ValidForest(a) && ValidForest(b)
    ensures ValidForest(a + b)
  {
    if a == [] {
      assert a + b == b;
    } else {
      ValidJoined(a[1..], b);
      assert (a + b)[1..] == a[1..] + b;
    }
  }

  lemma SortedPush(records: seq<Record>, r: Record)
    requires Sorted(records) == records
    requires records != [] ==> records[|records| - 1].sequence <= r.sequence
    ensures Sorted(records + [r]) == records + [r]
  {
    assert (records + [r])[..|records|] == records;
  }

  lemma {:induction false} InsertionsAreSorted(length: nat, clones: Forest)
    ensures Sorted(Insertions(length, clones)) == Insertions(length, clones)
    ensures clones != [] ==> Insertions(length, clones)[|clones| - 1].sequence == |clones| - 1
    decreases |clones|
  {
    if clones != [] {
      var k: nat := |clones| - 1;
      InsertionsAreSorted(length, clones[..k]);
      SortedPush(Insertions(length, clones[..k]), Record(k, PatchLaws.InsertAt(Absent, length + k, clones[k])));
    }
  }

  // ---- Freshness ----

  lemma {:induction false} IdsAmongAll(bs: Forest)
    ensures multiset(Ids(bs)) <= multiset(EveryIdOf(bs))
    decreases bs
  {
    if bs != [] {
      BlockIdsAmongAll(bs[0]);
      IdsAmongAll(bs[1..]);
    }
  }

  lemma BlockIdsAmongAll(b: Block)
    ensures multiset(BlockIds(b)) <= multiset(EveryId(b))
    decreases b
  {
    if b.children.Array? {
      IdsAmongAll(b.children.blocks);
    }
  }

  lemma {:induction false} HandedAreNew(ids: IdSource, n: nat, count: nat, used: seq<Id>)
    requires NewIds(ids, used)
    ensures Distinct(Handed(ids, n, count))
    ensures forall x <- Handed(ids, n, count) :: x !in used && exists i: nat :: i >= n && ids(i) == x
    decreases count
  {
    if count > 0 {
      HandedAreNew(ids, n + 1, count - 1, used);
      var rest := Handed(ids, n + 1, count - 1);
      assert ids(n) !in rest;
      forall x <- multiset([ids(n)] + rest) ensures multiset([ids(n)] + rest)[x] == 1 {
        assert x == ids(n) || x in multiset(rest);
      }
    }
  }

  /** Applying a button's operations to the document they were computed from succeeds and gives the old
      children followed by the clones in order. */
  lemma {:induction false} InsertBlocksApplies(doc: Forest, blocks: Forest, ids: IdSource)
    requires ValidForest(doc) && ValidForest(blocks) && NewIds(ids, Ids(doc))
    ensures ApplyRecords(doc, Insertions(|doc|, Clones(blocks, ids)), []) == Ok(doc + Clones(blocks, ids))
  {
    var clones := Clones(blocks, ids);
    ClonesAreValid(blocks, ids, 0);
    InsertionsAreSorted(|doc|, clones);
    assert doc + [] == doc && [] + clones == clones;
    InsertionsApply(doc, [], clones);
    ValidJoined(doc, clones);
  }

  /** Each clone equals its source up to IDs; all IDs in the clones, nested in actions or not, are
      distinct and new to the document, so its block IDs stay unique. */
  lemma ClonesAreNew(doc: Forest, blocks: Forest, ids: IdSource)
    requires ValidForest(blocks) && Unique(doc) && NewIds(ids, Ids(doc))
    ensures AnonymousAll(Clones(blocks, ids)) == AnonymousAll(blocks)
    ensures Distinct(EveryIdOf(Clones(blocks, ids)))
    ensures forall x <- EveryIdOf(Clones(blocks, ids)) :: x !in Ids(doc)
    ensures Unique(doc + Clones(blocks, ids))
  {
    ClonesEqualSources(blocks, ids, 0);
    CloneIdsOf(blocks, ids, 0);
    HandedAreNew(ids, 0, |EveryIdOf(blocks)|, Ids(doc));
    UniqueJoined(doc, Clones(blocks, ids));
  }

  lemma {:induction false} UniqueJoined(doc: Forest, clones: Forest)
    requires Unique(doc) && Distinct(EveryIdOf(clones)) && forall x <- EveryIdOf(clones) :: x !in Ids(doc)
    ensures Unique(doc + clones)
  {
    IdsConcat(doc, clones);
    IdsAmongAll(clones);
    var all := multiset(EveryIdOf(clones));
    forall x <- multiset(Ids(doc + clones)) ensures multiset(Ids(doc + clones))[x] == 1 {
      PatchLaws.DistinctMeans(Ids(doc), x);
      PatchLaws.DistinctMeans(EveryIdOf(clones), x);
      assert multiset(Ids(clones))[x] <= all[x];
      assert x in multiset(Ids(doc)) <==> x in Ids(doc);
      assert x in all <==> x in EveryIdOf(clones);
    }
  }
}
