/** Typed block trees: the shape shared by the browser patch engine and the Go walker, addressed by
    block ID and by index path. */
module BlockTree {
  import opened Wrappers
  import opened Sequences

  type Id = string

  datatype Inline =
    | TextNode(text: string)
    | PageReference(pageId: Id, heading: Option<Id>, displayText: string)
    | UnresolvedReference(namespace: string, title: string, entityType: Option<string>)
    | EntityReference(entityId: Id, displayText: string)
    | ClaimReference(claimId: Id, displayText: string)
    | CitationReference(citationId: Id, note: Option<string>)
    | ExternalLink(url: string, displayText: string)
    | OtherInline(name: string)

  // Plain: no content, or content that is not an array of inline nodes (a code block's string).
  datatype Content = Plain | Inlines(nodes: seq<Inline>) | Undecodable

  datatype Kind =
    | Heading(toggleable: bool) | Paragraph | Todo | Toggle
    | BulletList | OrderedList | ListItem
    | Table | TableRow | TableCell
    | ColumnList | Column
    | Quote | Callout
    | Button
    | OtherKind(name: string)

  datatype Children = NoArray | Array(blocks: seq<Block>)

  datatype Block = Block(
    id: Id, kind: Kind, content: Content, children: Children, actions: seq<Action>)

  // Blocks inside an action are payload: no path leads to them.
  datatype Action = InsertBlocks(pageId: Id, blocks: seq<Block>) | OtherAction(name: string)

  type Forest = seq<Block>
  type Path = p: seq<nat> | p != [] witness [0]

  function Kids(b: Block): Forest {
    if b.children.Array? then b.children.blocks else []
  }

  function WithKids(b: Block, children: Forest): Block {
    b.(children := Array(children))
  }

  // All block IDs in pre-order.
  function Ids(bs: Forest): seq<Id> {
    if bs == [] then [] else BlockIds(bs[0]) + Ids(bs[1..])
  }

  function BlockIds(b: Block): seq<Id> {
    [b.id] + if b.children.Array? then Ids(b.children.blocks) else []
  }

  ghost predicate Distinct<T(!new)>(xs: seq<T>) {
    forall x <- multiset(xs) :: multiset(xs)[x] == 1
  }

  ghost predicate Unique(bs: Forest) {
    Distinct(Ids(bs))
  }

  // ---- Paths ----

  // Every step but the last names a block with a children array, and the last names a position in
  // the array it reaches with at least `del` blocks from there on.
  predicate Slot(bs: Forest, p: Path, del: nat)
    decreases |p|
  {
    if |p| == 1 then p[0] + del <= |bs|
    else p[0] < |bs| && bs[p[0]].children.Array? && Slot(bs[p[0]].children.blocks, p[1..], del)
  }

  // The path of a block.
  predicate Leads(bs: Forest, p: Path) {
    Slot(bs, p, 1)
  }

  function At(bs: Forest, p: Path): Block
    requires Leads(bs, p)
    decreases |p|
  {
    if |p| == 1 then bs[p[0]] else At(bs[p[0]].children.blocks, p[1..])
  }

  // The IDs in pre-order before a position, and after `del` blocks that stand there.
  function Before(bs: Forest, p: Path, del: nat): seq<Id>
    requires Slot(bs, p, del)
    decreases |p|
  {
    if |p| == 1 then Ids(bs[..p[0]])
    else Ids(bs[..p[0]]) + ([bs[p[0]].id] + Before(bs[p[0]].children.blocks, p[1..], del))
  }

  function After(bs: Forest, p: Path, del: nat): seq<Id>
    requires Slot(bs, p, del)
    decreases |p|
  {
    if |p| == 1 then Ids(bs[p[0] + del..])
    else After(bs[p[0]].children.blocks, p[1..], del) + Ids(bs[p[0] + 1..])
  }

  function Down(i: nat, p: Path): (q: Path)
    ensures |q| > 1 && q[0] == i && q[1..] == p
  {
    [i] + p
  }

  function Shift(p: Path): (q: Path)
    ensures |q| == |p| && q[0] == p[0] + 1 && q[1..] == p[1..]
  {
    [p[0] + 1] + p[1..]
  }

  /** The first block in pre-order with this ID. */
  function Find(bs: Forest, id: Id): (found: Option<Path>)
    ensures found.Some? ==> Leads(bs, found.value) && At(bs, found.value).id == id
    ensures found.Some? <==> id in Ids(bs)
  {
    if bs == [] then None
    else if bs[0].id == id then Some([0])
    else
      var inner := if bs[0].children.Array? then Find(bs[0].children.blocks, id) else None;
      if inner.Some? then Some(Down(0, inner.value))
      else
        var later := Find(bs[1..], id);
        if later.Some? then Some(Shift(later.value)) else None
  }

  // ---- Editing at a path ----

  // children.splice(index, del, ...ins) on the array that the path reaches.
  function Splice(bs: Forest, p: Path, del: nat, ins: Forest): (r: Forest)
    requires Slot(bs, p, del)
    decreases |p|
  {
    if |p| == 1 then bs[..p[0]] + ins + bs[p[0] + del..]
    else bs[p[0] := WithKids(bs[p[0]], Splice(bs[p[0]].children.blocks, p[1..], del, ins))]
  }

  function Removed(bs: Forest, p: Path, del: nat): Forest
    requires Slot(bs, p, del)
    decreases |p|
  {
    if |p| == 1 then bs[p[0]..p[0] + del] else Removed(bs[p[0]].children.blocks, p[1..], del)
  }

  /** Putting back what a splice took out undoes it. */
  lemma {:induction false} SpliceUndone(bs: Forest, p: Path, del: nat, ins: Forest)
    requires Slot(bs, p, del)
    ensures Slot(Splice(bs, p, del, ins), p, |ins|)
    ensures Removed(Splice(bs, p, del, ins), p, |ins|) == ins
    ensures Splice(Splice(bs, p, del, ins), p, |ins|, Removed(bs, p, del)) == bs
    decreases |p|
  {
    if |p| > 1 {
      SpliceUndone(bs[p[0]].children.blocks, p[1..], del, ins);
    }
  }

  lemma {:induction false} RemovedOne(bs: Forest, p: Path)
    requires Leads(bs, p)
    ensures Removed(bs, p, 1) == [At(bs, p)]
    decreases |p|
  {
    if |p| > 1 {
      RemovedOne(bs[p[0]].children.blocks, p[1..]);
    }
  }

  // ---- IDs around a position ----

  lemma {:induction false} IdsConcat(a: Forest, b: Forest)
    ensures Ids(a + b) == Ids(a) + Ids(b)
  {
    if a == [] {
      assert a + b == b;
    } else {
      IdsConcat(a[1..], b);
      assert (a + b)[1..] == a[1..] + b;
      Associate(BlockIds(a[0]), Ids(a[1..]), Ids(b));
    }
  }

  lemma IdsOfThree(bs: Forest, a: Forest, b: Forest, c: Forest)
    requires bs == a + (b + c)
    ensures Ids(bs) == Ids(a) + (Ids(b) + Ids(c))
  {
    IdsConcat(a, b + c);
    IdsConcat(b, c);
  }

  lemma IdsOfSlices(bs: Forest, i: nat, j: nat)
    requires i <= j <= |bs|
    ensures Ids(bs) == Ids(bs[..i]) + (Ids(bs[i..j]) + Ids(bs[j..]))
  {
    var a, b, c := bs[..i], bs[i..j], bs[j..];
    assert bs == a + (b + c) by { SliceSplit(bs, i, j); }
    IdsOfThree(bs, a, b, c);
  }

  lemma IdsOfOne(b: Block)
    ensures Ids([b]) == BlockIds(b)
  {
  }

  lemma IdsAround(bs: Forest, i: nat)
    requires i < |bs|
    ensures Ids(bs) == Ids(bs[..i]) + (BlockIds(bs[i]) + Ids(bs[i + 1..]))
  {
    var j := i + 1;
    var a, b, c := bs[..i], [bs[i]], bs[j..];
    assert bs == a + (b + c) by {
      SliceSplit(bs, i, j);
      assert bs[i..j] == b;
    }
    IdsOfThree(bs, a, b, c);
    IdsOfOne(bs[i]);
  }

  lemma Regroup<T>(a: seq<T>, h: seq<T>, x: seq<T>, y: seq<T>, z: seq<T>, c: seq<T>)
    ensures a + ((h + (x + (y + z))) + c) == (a + (h + x)) + (y + (z + c))
  {
  }

  /** A position splits the document's IDs into what precedes it, what stands there and what follows. */
  lemma {:induction false} IdsAtSlot(bs: Forest, p: Path, del: nat)
    requires Slot(bs, p, del)
    ensures Ids(bs) == Before(bs, p, del) + (Ids(Removed(bs, p, del)) + After(bs, p, del))
    decreases |p|
  {
    var i := p[0];
    if |p| == 1 {
      IdsOfSlices(bs, i, i + del);
    } else {
      var kids := bs[i].children.blocks;
      IdsAtSlot(kids, p[1..], del);
      IdsAround(bs, i);
      Regroup(Ids(bs[..i]), [bs[i].id], Before(kids, p[1..], del), Ids(Removed(kids, p[1..], del)),
        After(kids, p[1..], del), Ids(bs[i + 1..]));
    }
  }

  lemma {:induction false} SpliceKeepsSides(bs: Forest, p: Path, del: nat, ins: Forest)
    requires Slot(bs, p, del)
    ensures Slot(Splice(bs, p, del, ins), p, |ins|)
    ensures Before(Splice(bs, p, del, ins), p, |ins|) == Before(bs, p, del)
    ensures After(Splice(bs, p, del, ins), p, |ins|) == After(bs, p, del)
    decreases |p|
  {
    var i := p[0];
    var bs' := Splice(bs, p, del, ins);
    assert bs'[..i] == bs[..i];
    if |p| == 1 {
      assert bs'[i + |ins|..] == bs[i + del..];
    } else {
      SpliceKeepsSides(bs[i].children.blocks, p[1..], del, ins);
      assert bs'[i + 1..] == bs[i + 1..];
    }
  }

  /** A splice exchanges the IDs standing at its position and moves no other. */
  lemma IdsOfSplice(bs: Forest, p: Path, del: nat, ins: Forest)
    requires Slot(bs, p, del)
    ensures Ids(Splice(bs, p, del, ins)) == Before(bs, p, del) + (Ids(ins) + After(bs, p, del))
  {
    SpliceKeepsSides(bs, p, del, ins);
    SpliceUndone(bs, p, del, ins);
    IdsAtSlot(Splice(bs, p, del, ins), p, |ins|);
  }

  lemma MultisetThree<T>(a: seq<T>, b: seq<T>, c: seq<T>)
    ensures multiset(a + (b + c)) == multiset(a) + multiset(b) + multiset(c)
  {
  }

  /** Every ID is accounted for: what goes out plus the result is what goes in plus the input. */
  lemma SpliceAccounts(bs: Forest, p: Path, del: nat, ins: Forest)
    requires Slot(bs, p, del)
    ensures multiset(Ids(Splice(bs, p, del, ins))) + multiset(Ids(Removed(bs, p, del))) ==
            multiset(Ids(bs)) + multiset(Ids(ins))
  {
    IdsOfSplice(bs, p, del, ins);
    IdsAtSlot(bs, p, del);
    MultisetThree(Before(bs, p, del), Ids(ins), After(bs, p, del));
    MultisetThree(Before(bs, p, del), Ids(Removed(bs, p, del)), After(bs, p, del));
  }

  // ---- Find is the first match, and under unique IDs the only one ----

  lemma IdsAtLead(bs: Forest, p: Path)
    requires Leads(bs, p)
    ensures Ids(bs) == Before(bs, p, 1) + (BlockIds(At(bs, p)) + After(bs, p, 1))
  {
    IdsAtSlot(bs, p, 1);
    RemovedOne(bs, p);
    IdsOfOne(At(bs, p));
  }

  // The position in pre-order determines the block.
  lemma {:induction false} SamePosition(bs: Forest, p: Path, q: Path)
    requires Leads(bs, p) && Leads(bs, q) && |Before(bs, p, 1)| == |Before(bs, q, 1)|
    ensures p == q
    decreases |p|
  {
    if p[0] < q[0] {
      InsideBefore(bs, p, q[0]);
    } else if q[0] < p[0] {
      InsideBefore(bs, q, p[0]);
    } else if |p| > 1 && |q| > 1 {
      SamePosition(bs[p[0]].children.blocks, p[1..], q[1..]);
      assert p == [p[0]] + p[1..] && q == [q[0]] + q[1..];
    }
  }

  // Everything inside one block comes before its next sibling.
  lemma InsideBefore(bs: Forest, p: Path, k: nat)
    requires Leads(bs, p) && p[0] < k <= |bs|
    ensures |Before(bs, p, 1)| < |Ids(bs[..k])|
  {
    var i := p[0];
    IdsAround(bs[..k], i);
    assert bs[..k][..i] == bs[..i];
    if |p| > 1 {
      IdsAtLead(bs[i].children.blocks, p[1..]);
    }
  }

  /** A path is what Find returns exactly when no earlier block has the ID of its block. */
  lemma FindIsFirst(bs: Forest, p: Path, id: Id)
    requires Leads(bs, p)
    ensures Find(bs, id) == Some(p) <==> At(bs, p).id == id && id !in Before(bs, p, 1)
    decreases bs, |p|
  {
    var first := Find(bs, id);
    if first.Some? {
      FoundFirst(bs, id);
      IdsAtLead(bs, first.value);
    }
    IdsAtLead(bs, p);
    if At(bs, p).id == id && id !in Before(bs, p, 1) {
      assert id in Ids(bs);
      var q := first.value;
      var ids := Ids(bs);
      assert ids[|Before(bs, p, 1)|] == id && ids[|Before(bs, q, 1)|] == id;
      SamePosition(bs, p, q);
    }
  }

  lemma {:induction false} FoundFirst(bs: Forest, id: Id)
    requires Find(bs, id).Some?
    ensures id !in Before(bs, Find(bs, id).value, 1)
  {
    var p := Find(bs, id).value;
    if bs[0].id == id {
      assert bs[..0] == [];
    } else if bs[0].children.Array? && Find(bs[0].children.blocks, id).Some? {
      FoundFirst(bs[0].children.blocks, id);
      assert bs[..0] == [];
    } else {
      var later := Find(bs[1..], id).value;
      FoundFirst(bs[1..], id);
      assert bs[..p[0]] == [bs[0]] + bs[1..][..later[0]];
      IdsConcat([bs[0]], bs[1..][..later[0]]);
      IdsOfOne(bs[0]);
    }
  }

  lemma IdsUpTo(bs: Forest, i: nat)
    requires i < |bs|
    ensures Ids(bs[..i + 1]) == Ids(bs[..i]) + BlockIds(bs[i])
  {
    var a, b := bs[..i], bs[i];
    assert bs[..i + 1] == a + [b];
    IdsConcat(a, [b]);
    IdsOfOne(b);
  }

  lemma FoundHere(bs: Forest, i: nat, id: Id)
    requires i < |bs| && id !in Ids(bs[..i]) && bs[i].id == id
    ensures Find(bs, id) == Some([i])
  {
    FindIsFirst(bs, [i], id);
  }

  lemma FoundBelow(bs: Forest, i: nat, id: Id, q: Path)
    requires i < |bs| && id !in Ids(bs[..i]) && bs[i].id != id
    requires bs[i].children.Array? && Find(bs[i].children.blocks, id) == Some(q)
    ensures Find(bs, id) == Some(Down(i, q))
  {
    FindIsFirst(bs[i].children.blocks, q, id);
    FindIsFirst(bs, Down(i, q), id);
  }

  lemma DistinctParts<T(!new)>(a: seq<T>, x: T, b: seq<T>, whole: seq<T>)
    requires Distinct(whole) && whole == a + ([x] + b)
    ensures x !in a && x !in b
  {
    assert multiset(whole)[x] == multiset(a)[x] + 1 + multiset(b)[x] by {
      MultisetThree(a, [x], b);
    }
  }

  /** With unique IDs a path and the ID of its block determine each other. */
  lemma FindUnique(bs: Forest, p: Path)
    requires Unique(bs) && Leads(bs, p)
    ensures Find(bs, At(bs, p).id) == Some(p)
  {
    var b := At(bs, p);
    IdsAtLead(bs, p);
    Associate([b.id], Ids(Kids(b)), After(bs, p, 1));
    DistinctParts(Before(bs, p, 1), b.id, Ids(Kids(b)) + After(bs, p, 1), Ids(bs));
    FindIsFirst(bs, p, b.id);
  }
}
