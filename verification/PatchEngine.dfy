/** The patch engine as the browser runs it: on a clone of the document, in place. */
module PatchEngine {
  import opened Wrappers
  import opened BlockTree
  import opened Patch
  import opened BlockHeap

  datatype Location = Location(container: Node, index: nat)

  // A document object as seen at one moment: the objects hanging from it, what they hold, and the
  // blocks they stand for.
  datatype View = View(memory: Memory, shape: Shape, blocks: Forest)

  ghost predicate Pictures(v: View, root: Node)
    reads v.memory.Keys
  {
    && Mirrors(v.memory) && root == v.shape.node && Separate(v.shape)
    && Lists(v.memory, v.shape, v.blocks)
  }

  // ---- Lookup ----

  method FindBlock(container: Node, id: Id, ghost m: Memory, ghost s: Shape, ghost bs: Forest)
    returns (found: Option<Location>, ghost p: Path)
    requires container == s.node && Mirrors(m) && Lists(m, s, bs)
    ensures found.Some? <==> Find(bs, id).Some?
    ensures found.Some? ==>
      Find(bs, id) == Some(p) && Reaches(s, p, 1) && found.value == Location(Holder(s, p, 1), p[|p| - 1])
    decreases s
  {
    p := [0];
    var index := 0;
    while index < |container.children|
      invariant 0 <= index <= |bs| && id !in Ids(bs[..index])
    {
      var block := container.children[index];
      ghost var kid, b := s.kids[index], bs[index];
      assert Shows(m, kid, b);
      IdsUpTo(bs, index);
      if block.id == id {
        p := [index];
        FoundHere(bs, index, id);
        return Some(Location(container, index)), p;
      }
      if block.container {
        var nested, q := FindBlock(block, id, m, kid, b.children.blocks);
        if nested.Some? {
          p := Down(index, q);
          FoundBelow(bs, index, id, q);
          return nested, p;
        }
      }
      index := index + 1;
    }
    assert bs[..|bs|] == bs;
    return None, p;
  }

  method RequireLocation(root: Node, id: Field, ghost m: Memory, ghost s: Shape, ghost bs: Forest)
    returns (r: Result<Location, PatchError>, ghost p: Path)
    requires root == s.node && Mirrors(m) && Lists(m, s, bs)
    ensures r.Err? ==> RequireBlock(bs, id) == Err(r.error)
    ensures r.Ok? ==> RequireBlock(bs, id) == Ok(p) && Reaches(s, p, 1)
    ensures r.Ok? ==> r.value == Location(Holder(s, p, 1), p[|p| - 1])
  {
    p := [0];
    if !id.Text? {
      return Err(MissingBlockId), p;
    }
    var found;
    found, p := FindBlock(root, id.text, m, s, bs);
    if found.None? {
      return Err(BlockNotFound), p;
    }
    return Ok(found.value), p;
  }

  // The object of a container.
  ghost function NodeOf(s: Shape, c: Container): Node
    requires c.Some? ==> Reaches(s, c.value, 1)
  {
    if c.Some? then Sub(s, c.value).node else s.node
  }

  lemma {:induction false} HolderBelow(s: Shape, p: Path, k: nat)
    requires Reaches(s, p, 1) && Reaches(s, p + [k], 0)
    ensures Holder(s, p + [k], 0) == Sub(s, p).node
    decreases |p|
  {
    assert (p + [k])[1..] == p[1..] + [k];
    if |p| > 1 {
      HolderBelow(s.kids[p[0]], p[1..], k);
    }
  }

  lemma ContainerHolds(m: Memory, s: Shape, bs: Forest, c: Container, k: nat)
    requires Lists(m, s, bs) && Holds(bs, c) && k <= |ChildrenOf(bs, c)|
    requires c.Some? ==> Reaches(s, c.value, 1)
    ensures Slot(bs, Position(c, k), 0) && Reaches(s, Position(c, k), 0)
    ensures Holder(s, Position(c, k), 0) == NodeOf(s, c)
  {
    PositionIsSlot(bs, c, k, 0);
    SlotReached(m, s, bs, Position(c, k), 0);
    if c.Some? {
      HolderBelow(s, c.value, k);
    }
  }

  method FindContainerNode(root: Node, parent: Field, ghost m: Memory, ghost s: Shape, ghost bs: Forest)
    returns (r: Result<Node, PatchError>, ghost c: Container)
    requires root == s.node && Mirrors(m) && Lists(m, s, bs)
    ensures r.Err? ==> FindContainer(bs, parent) == Err(r.error)
    ensures r.Ok? ==>
      && FindContainer(bs, parent) == Ok(c)
      && (c.Some? ==> Reaches(s, c.value, 1))
      && r.value == NodeOf(s, c) && r.value in Foot(s) && |r.value.children| == |ChildrenOf(bs, c)|
  {
    c := None;
    if parent.Absent? || parent == Text("") {
      return Ok(root), c;
    }
    if parent.NotText? {
      return Err(BadParentId), c;
    }
    var found, p := FindBlock(root, parent.text, m, s, bs);
    if found.None? {
      return Err(ParentNotFound), c;
    }
    BlockReached(m, s, bs, p);
    var block := found.value.container.children[found.value.index];
    assert block == Sub(s, p).node;
    if !block.container {
      return Err(ParentCannotHoldBlocks), c;
    }
    c := Some(p);
    return Ok(block), c;
  }

  // ---- New objects ----

  /** Parsing a block makes new objects for it and everything in it. */
  method Build(b: Block) returns (n: Node, ghost s: Shape, ghost m: Memory)
    ensures s.node == n && Separate(s) && Foot(s) == m.Keys && fresh(m.Keys)
    ensures Mirrors(m) && Shows(m, s, b)
    decreases b
  {
    var kids := [];
    ghost var shapes: seq<Shape> := [];
    m := map[];
    if b.children.Array? {
      kids, shapes, m := BuildAll(b.children.blocks);
    }
    n := new Node(b, kids);
    s := Shape(n, shapes);
    ListedByNew(m, s, b);
    m := m[n := Cell(b.content, kids)];
  }

  method BuildAll(bs: Forest) returns (ns: seq<Node>, ghost ss: seq<Shape>, ghost m: Memory)
    ensures ns == NodesOf(ss) && SeparateAll(ss) && FootAll(ss) == m.Keys && fresh(m.Keys)
    ensures Mirrors(m) && ShowsAll(m, ss, bs)
    decreases bs
  {
    if bs == [] {
      return [], [], map[];
    }
    var n, s, m1 := Build(bs[0]);
    var rest, others, m2 := BuildAll(bs[1..]);
    ns, ss, m := [n] + rest, [s] + others, m1 + m2;
    ShowsTogether(m1, s, bs[0], m2, others, bs[1..]);
    assert bs == [bs[0]] + bs[1..];
  }

  lemma {:induction false} ListedByNew(m: Memory, s: Shape, b: Block)
    requires ShowsAll(m, s.kids, Kids(b)) && s.node !in m && FootAll(s.kids) == m.Keys
    requires s.node.id == b.id && s.node.kind == b.kind && s.node.actions == b.actions
    requires s.node.container == b.children.Array?
    ensures Shows(m[s.node := Cell(b.content, NodesOf(s.kids))], s, b)
  {
    var m' := m[s.node := Cell(b.content, NodesOf(s.kids))];
    AllFramed(m, m', s.kids, Kids(b));
  }

  lemma AllFramed(m: Memory, m': Memory, ss: seq<Shape>, bs: Forest)
    requires ShowsAll(m, ss, bs) && Agree(m, m', FootAll(ss))
    ensures ShowsAll(m', ss, bs)
  {
    forall i | 0 <= i < |bs| ensures Shows(m', ss[i], bs[i]) {
      KidsInside(ss, i);
      ShowsFramed(m, m', ss[i], bs[i]);
    }
  }

  lemma {:induction false} ShowsTogether(m1: Memory, s: Shape, b: Block, m2: Memory, ss: seq<Shape>, bs: Forest)
    requires Shows(m1, s, b) && ShowsAll(m2, ss, bs)
    requires Foot(s) == m1.Keys && FootAll(ss) == m2.Keys && m1.Keys !! m2.Keys
    ensures ShowsAll(m1 + m2, [s] + ss, [b] + bs)
  {
    ShowsFramed(m1, m1 + m2, s, b);
    AllFramed(m2, m1 + m2, ss, bs);
  }

  // ---- Editing ----

  /** container.children.splice(index, del, ...ins) */
  method SpliceAt(container: Node, index: nat, del: nat, ins: seq<Node>,
      ghost v: View, ghost p: Path, ghost shapes: seq<Shape>, ghost blocks: Forest)
    returns (ghost v': View)
    requires Pictures(v, v.shape.node)
    requires Slot(v.blocks, p, del) && Reaches(v.shape, p, del)
    requires container == Holder(v.shape, p, del) && index == p[|p| - 1]
    requires ins == NodesOf(shapes) && SeparateAll(shapes) && FootAll(shapes) !! Foot(v.shape)
    requires ShowsAll(v.memory, shapes, blocks)
    modifies container`children
    ensures Pictures(v', v.shape.node) && v'.memory.Keys == v.memory.Keys
    ensures v'.shape == SpliceShape(v.shape, p, del, shapes)
    ensures v'.blocks == Splice(v.blocks, p, del, blocks)
    ensures forall n <- v.memory :: n != container ==> v'.memory[n] == v.memory[n]
  {
    SlotReached(v.memory, v.shape, v.blocks, p, del);
    container.children := container.children[..index] + ins + container.children[index + del..];
    ghost var m' := v.memory[container := Cell(container.content, container.children)];
    v' := View(m', SpliceShape(v.shape, p, del, shapes), Splice(v.blocks, p, del, blocks));
    AllFramed(v.memory, m', shapes, blocks);
    SplicedLists(v.memory, m', v.shape, v.blocks, p, del, shapes, blocks);
    SpliceSeparate(v.shape, p, del, shapes);
    SpliceKeepsRoot(v.shape, p, del, shapes);
  }

  method SetContentOf(node: Node, nodes: seq<Inline>, ghost v: View, ghost p: Path) returns (ghost v': View)
    requires Pictures(v, v.shape.node)
    requires Leads(v.blocks, p) && Reaches(v.shape, p, 1) && node == Sub(v.shape, p).node
    modifies node`content
    ensures Pictures(v', v.shape.node) && v'.memory.Keys == v.memory.Keys
    ensures v'.blocks == SetContent(v.blocks, p, nodes)
  {
    BlockReached(v.memory, v.shape, v.blocks, p);
    node.content := Inlines(nodes);
    ghost var m' := v.memory[node := Cell(node.content, node.children)];
    v' := View(m', v.shape, SetContent(v.blocks, p, nodes));
    RecontentedLists(v.memory, m', v.shape, v.blocks, p, Inlines(nodes));
  }

  // A tree that hangs outside the document.
  ghost predicate Loose(v: View, s: Shape, b: Block) {
    Separate(s) && Foot(s) !! Foot(v.shape) && Shows(v.memory, s, b)
  }

  /** container.children.splice(index, 1) */
  method Detach(location: Location, ghost v: View, ghost p: Path) returns (block: Node, ghost v': View)
    requires Pictures(v, v.shape.node) && Leads(v.blocks, p)
    requires Reaches(v.shape, p, 1) && location == Location(Holder(v.shape, p, 1), p[|p| - 1])
    modifies v.memory.Keys
    ensures Pictures(v', v.shape.node) && v'.memory.Keys == v.memory.Keys
    ensures v'.blocks == Splice(v.blocks, p, 1, [])
    ensures block == Sub(v.shape, p).node && Loose(v', Sub(v.shape, p), At(v.blocks, p))
  {
    SlotReached(v.memory, v.shape, v.blocks, p, 1);
    BlockReached(v.memory, v.shape, v.blocks, p);
    HolderOutside(v.shape, p);
    block := location.container.children[location.index];
    v' := SpliceAt(location.container, location.index, 1, [], v, p, [], []);
    ShowsFramed(v.memory, v'.memory, Sub(v.shape, p), At(v.blocks, p));
    SpliceSeparate(v.shape, p, 1, []);
    CutOne(v.shape, p);
    FootOfOne(Sub(v.shape, p));
  }

  /** container.children.splice(index, 0, block) */
  method Attach(container: Node, index: nat, block: Node,
      ghost v: View, ghost c: Container, ghost s: Shape, ghost b: Block)
    returns (ghost v': View)
    requires Pictures(v, v.shape.node) && Holds(v.blocks, c) && index <= |ChildrenOf(v.blocks, c)|
    requires c.Some? ==> Reaches(v.shape, c.value, 1)
    requires container == NodeOf(v.shape, c) && container in Foot(v.shape)
    requires block == s.node && Loose(v, s, b)
    modifies v.memory.Keys
    ensures Pictures(v', v.shape.node) && v'.memory.Keys == v.memory.Keys
    ensures Slot(v.blocks, Position(c, index), 0) && v'.blocks == Splice(v.blocks, Position(c, index), 0, [b])
  {
    ContainerHolds(v.memory, v.shape, v.blocks, c, index);
    FootKnown(v.memory, v.shape, v.blocks);
    FootOfOne(s);
    v' := SpliceAt(container, index, 0, [block], v, Position(c, index), [s], [b]);
  }

  lemma Extended(v: View, m: Memory)
    requires Lists(v.memory, v.shape, v.blocks) && v.memory.Keys !! m.Keys
    ensures Lists(v.memory + m, v.shape, v.blocks) && Foot(v.shape) !! m.Keys
  {
    ListsFramed(v.memory, v.memory + m, v.shape, v.blocks);
    FootKnown(v.memory, v.shape, v.blocks);
  }

  // ---- Operations ----

  method ReplaceInPlace(root: Node, op: Operation, ghost v: View)
    returns (failure: Option<PatchError>, ghost v': View)
    requires Pictures(v, root) && op.action.ReplaceBlock?
    modifies v.memory.Keys
    ensures failure.Some? ==> Apply(v.blocks, op) == Err(failure.value)
    ensures failure.None? ==> Pictures(v', root) && Apply(v.blocks, op) == Ok(v'.blocks)
    ensures failure.None? ==> fresh(v'.memory.Keys - v.memory.Keys)
  {
    v' := v;
    var location, p := RequireLocation(root, op.target.blockId, v.memory, v.shape, v.blocks);
    if location.Err? {
      return Some(location.error), v';
    }
    var parsed := ParseBlock(op.payload.block);
    if parsed.Err? {
      return Some(parsed.error), v';
    }
    var n, s, m := Build(parsed.value);
    Extended(v, m);
    v' := v.(memory := v.memory + m);
    ShowsFramed(m, v'.memory, s, parsed.value);
    FootOfOne(s);
    SlotReached(v'.memory, v'.shape, v'.blocks, p, 1);
    v' := SpliceAt(location.value.container, location.value.index, 1, [n], v', p, [s], [parsed.value]);
    failure := None;
  }

  method DeleteInPlace(root: Node, op: Operation, ghost v: View)
    returns (failure: Option<PatchError>, ghost v': View)
    requires Pictures(v, root) && op.action.DeleteBlock?
    modifies v.memory.Keys
    ensures failure.Some? ==> Apply(v.blocks, op) == Err(failure.value)
    ensures failure.None? ==> Pictures(v', root) && Apply(v.blocks, op) == Ok(v'.blocks)
    ensures failure.None? ==> fresh(v'.memory.Keys - v.memory.Keys)
  {
    v' := v;
    var location, p := RequireLocation(root, op.target.blockId, v.memory, v.shape, v.blocks);
    if location.Err? {
      return Some(location.error), v';
    }
    SlotReached(v.memory, v.shape, v.blocks, p, 1);
    v' := SpliceAt(location.value.container, location.value.index, 1, [], v, p, [], []);
    failure := None;
  }

  method InsertInPlace(root: Node, op: Operation, ghost v: View)
    returns (failure: Option<PatchError>, ghost v': View)
    requires Pictures(v, root) && op.action.InsertBlock?
    modifies v.memory.Keys
    ensures failure.Some? ==> Apply(v.blocks, op) == Err(failure.value)
    ensures failure.None? ==> Pictures(v', root) && Apply(v.blocks, op) == Ok(v'.blocks)
    ensures failure.None? ==> fresh(v'.memory.Keys - v.memory.Keys)
  {
    v' := v;
    var container, c := FindContainerNode(root, op.payload.parent, v.memory, v.shape, v.blocks);
    if container.Err? {
      return Some(container.error), v';
    }
    var index := IntegerIndex(op.payload.index, |container.value.children|, true);
    if index.Err? {
      return Some(index.error), v';
    }
    var parsed := ParseBlock(op.payload.block);
    if parsed.Err? {
      return Some(parsed.error), v';
    }
    var n, s, m := Build(parsed.value);
    Extended(v, m);
    v' := v.(memory := v.memory + m);
    ShowsFramed(m, v'.memory, s, parsed.value);
    v' := Attach(container.value, index.value, n, v', c, s, parsed.value);
    failure := None;
  }

  method MoveInPlace(root: Node, op: Operation, ghost v: View)
    returns (failure: Option<PatchError>, ghost v': View)
    requires Pictures(v, root) && op.action.MoveBlock?
    modifies v.memory.Keys
    ensures failure.Some? ==> Apply(v.blocks, op) == Err(failure.value)
    ensures failure.None? ==> Pictures(v', root) && Apply(v.blocks, op) == Ok(v'.blocks)
    ensures failure.None? ==> fresh(v'.memory.Keys - v.memory.Keys)
  {
    v' := v;
    var location, p := RequireLocation(root, op.target.blockId, v.memory, v.shape, v.blocks);
    if location.Err? {
      return Some(location.error), v';
    }
    var block;
    block, v' := Detach(location.value, v, p);
    var container, c := FindContainerNode(root, op.payload.parent, v'.memory, v'.shape, v'.blocks);
    if container.Err? {
      return Some(container.error), v';
    }
    var index := IntegerIndex(op.payload.index, |container.value.children|, true);
    if index.Err? {
      return Some(index.error), v';
    }
    v' := Attach(container.value, index.value, block, v', c, Sub(v.shape, p), At(v.blocks, p));
    failure := None;
  }

  method InlineContent(root: Node, id: Field, ghost v: View)
    returns (r: Result<Node, PatchError>, ghost p: Path)
    requires Pictures(v, root)
    ensures r.Err? ==> RequireInlineContent(v.blocks, id) == Err(r.error)
    ensures r.Ok? ==> Leads(v.blocks, p) && Reaches(v.shape, p, 1) && r.value == Sub(v.shape, p).node
    ensures r.Ok? ==> r.value in v.memory.Keys && r.value.content.Inlines?
    ensures r.Ok? ==> RequireInlineContent(v.blocks, id) == Ok((p, r.value.content.nodes))
  {
    var location;
    location, p := RequireLocation(root, id, v.memory, v.shape, v.blocks);
    if location.Err? {
      return Err(location.error), p;
    }
    SlotReached(v.memory, v.shape, v.blocks, p, 1);
    BlockReached(v.memory, v.shape, v.blocks, p);
    var block := location.value.container.children[location.value.index];
    assert block == Sub(v.shape, p).node;
    if !HoldsInline(block.kind) || !block.content.Inlines? {
      return Err(NoInlineContent), p;
    }
    return Ok(block), p;
  }

  method InsertReferenceInPlace(root: Node, op: Operation, ghost v: View)
    returns (failure: Option<PatchError>, ghost v': View)
    requires Pictures(v, root) && op.action.InsertReference?
    modifies v.memory.Keys
    ensures failure.Some? ==> Apply(v.blocks, op) == Err(failure.value)
    ensures failure.None? ==> Pictures(v', root) && Apply(v.blocks, op) == Ok(v'.blocks)
    ensures failure.None? ==> v'.memory.Keys == v.memory.Keys
  {
    v' := v;
    if op.action.noun.Link? {
      return Some(UnsupportedOperation), v';
    }
    var found, p := InlineContent(root, op.target.blockId, v);
    if found.Err? {
      return Some(found.error), v';
    }
    var content := found.value.content.nodes;
    var index := IntegerIndex(op.payload.index, |content|, true);
    if index.Err? {
      return Some(index.error), v';
    }
    var node := BuildReference(op.action.noun, false, op.target, op.payload);
    if node.Err? {
      return Some(node.error), v';
    }
    v' := SetContentOf(found.value, content[..index.value] + [node.value] + content[index.value..], v, p);
    failure := None;
  }

  method RetargetInPlace(root: Node, op: Operation, ghost v: View)
    returns (failure: Option<PatchError>, ghost v': View)
    requires Pictures(v, root) && op.action.Retarget?
    modifies v.memory.Keys
    ensures failure.Some? ==> Apply(v.blocks, op) == Err(failure.value)
    ensures failure.None? ==> Pictures(v', root) && Apply(v.blocks, op) == Ok(v'.blocks)
    ensures failure.None? ==> v'.memory.Keys == v.memory.Keys
  {
    v' := v;
    var found, p := InlineContent(root, op.target.blockId, v);
    if found.Err? {
      return Some(found.error), v';
    }
    var content := found.value.content.nodes;
    var index := NodeIndex(op.target.nodeId, |content|);
    if index.Err? {
      return Some(index.error), v';
    }
    if NodeNoun(content[index.value]) != Some(op.action.noun) {
      return Some(WrongNodeType), v';
    }
    var node := BuildReference(op.action.noun, true, op.target, op.payload);
    if node.Err? {
      return Some(node.error), v';
    }
    v' := SetContentOf(found.value, content[index.value := node.value], v, p);
    failure := None;
  }

  /** One operation on the objects does to the blocks they stand for what Apply says. */
  method ApplyOperation(root: Node, op: Operation, ghost v: View)
    returns (failure: Option<PatchError>, ghost v': View)
    requires Pictures(v, root)
    modifies v.memory.Keys
    ensures failure.Some? ==> Apply(v.blocks, op) == Err(failure.value)
    ensures failure.None? ==> Pictures(v', root) && Apply(v.blocks, op) == Ok(v'.blocks)
    ensures failure.None? ==> fresh(v'.memory.Keys - v.memory.Keys)
  {
    match op.action
    case ReplaceBlock => failure, v' := ReplaceInPlace(root, op, v);
    case DeleteBlock => failure, v' := DeleteInPlace(root, op, v);
    case InsertBlock => failure, v' := InsertInPlace(root, op, v);
    case MoveBlock => failure, v' := MoveInPlace(root, op, v);
    case InsertReference(_) => failure, v' := InsertReferenceInPlace(root, op, v);
    case Retarget(_) => failure, v' := RetargetInPlace(root, op, v);
    case Unsupported => failure, v' := Some(UnsupportedOperation), v;
  }

  // ---- Whole proposals ----

  // A deep copy shares no object with its original.
  method CloneAll(nodes: seq<Node>, ghost m: Memory, ghost ss: seq<Shape>, ghost bs: Forest)
    returns (copies: seq<Node>, ghost ss': seq<Shape>, ghost m': Memory)
    requires Mirrors(m) && nodes == NodesOf(ss) && ShowsAll(m, ss, bs)
    ensures copies == NodesOf(ss') && SeparateAll(ss') && FootAll(ss') == m'.Keys && fresh(m'.Keys)
    ensures Mirrors(m') && ShowsAll(m', ss', bs)
    decreases ss
  {
    if nodes == [] {
      return [], [], map[];
    }
    assert ss == [ss[0]] + ss[1..] && bs == [bs[0]] + bs[1..] && Shows(m, ss[0], bs[0]);
    var copy, s, m1 := Clone(nodes[0], m, ss[0], bs[0]);
    forall i | 0 <= i < |ss[1..]| ensures Shows(m, ss[1..][i], bs[1..][i]) {
      assert Shows(m, ss[i + 1], bs[i + 1]);
    }
    var rest, others, m2 := CloneAll(nodes[1..], m, ss[1..], bs[1..]);
    copies, ss', m' := [copy] + rest, [s] + others, m1 + m2;
    ShowsTogether(m1, s, bs[0], m2, others, bs[1..]);
  }

  method Clone(node: Node, ghost m: Memory, ghost s: Shape, ghost b: Block)
    returns (copy: Node, ghost s': Shape, ghost m': Memory)
    requires Mirrors(m) && node == s.node && Shows(m, s, b)
    ensures copy == s'.node && Separate(s') && Foot(s') == m'.Keys && fresh(m'.Keys)
    ensures Mirrors(m') && Shows(m', s', b)
    decreases s
  {
    var kids;
    ghost var shapes;
    kids, shapes, m' := CloneAll(node.children, m, s.kids, Kids(b));
    var header := Block(node.id, node.kind, node.content, if node.container then Array([]) else NoArray, node.actions);
    copy := new Node(header, kids);
    s' := Shape(copy, shapes);
    ListedByNew(m', s', b);
    m' := m'[copy := Cell(b.content, kids)];
  }

  method CloneDocument(root: Node, ghost v: View) returns (copy: Node, ghost v': View)
    requires Pictures(v, root)
    ensures Pictures(v', copy) && v'.blocks == v.blocks && fresh(v'.memory.Keys)
  {
    var kids;
    ghost var shapes, m;
    kids, shapes, m := CloneAll(root.children, v.memory, v.shape.kids, v.blocks);
    var header := Block(root.id, root.kind, root.content, Array([]), root.actions);
    copy := new Node(header, kids);
    ListedByNew(m, Shape(copy, shapes), WithKids(header, v.blocks));
    v' := View(m[copy := Cell(root.content, kids)], Shape(copy, shapes), v.blocks);
  }

  // The document as a value, for the schema to judge.
  method ReadAll(nodes: seq<Node>, ghost m: Memory, ghost ss: seq<Shape>, ghost bs: Forest)
    returns (blocks: Forest)
    requires Mirrors(m) && nodes == NodesOf(ss) && ShowsAll(m, ss, bs)
    ensures blocks == bs
    decreases ss
  {
    if nodes == [] {
      return [];
    }
    assert ss == [ss[0]] + ss[1..] && bs == [bs[0]] + bs[1..] && Shows(m, ss[0], bs[0]);
    var first := Read(nodes[0], m, ss[0], bs[0]);
    forall i | 0 <= i < |ss[1..]| ensures Shows(m, ss[1..][i], bs[1..][i]) {
      assert Shows(m, ss[i + 1], bs[i + 1]);
    }
    var rest := ReadAll(nodes[1..], m, ss[1..], bs[1..]);
    blocks := [first] + rest;
  }

  method Read(node: Node, ghost m: Memory, ghost s: Shape, ghost b: Block) returns (block: Block)
    requires Mirrors(m) && node == s.node && Shows(m, s, b)
    ensures block == b
    decreases s
  {
    var kids := ReadAll(node.children, m, s.kids, Kids(b));
    block := Block(node.id, node.kind, node.content, if node.container then Array(kids) else NoArray, node.actions);
  }

  ghost predicate ChoicesOf(choices: map<Id, Choice>, conflicts: seq<Conflict>) {
    && (forall id :: (id in choices <==> LastChoice(conflicts, id).Some?))
    && forall id <- choices :: LastChoice(conflicts, id) == Some(choices[id])
  }

  // One record, unless the choice on its block keeps the current text or dismisses the change.
  method ApplyChosen(
    root: Node, record: Record, ghost conflicts: seq<Conflict>, choices: map<Id, Choice>, ghost v: View)
    returns (failure: Option<PatchError>, ghost v': View)
    requires Pictures(v, root)
    requires ChoicesOf(choices, conflicts)
    modifies v.memory.Keys
    ensures failure.Some? ==> ApplyRecord(v.blocks, record, conflicts) == Err(failure.value)
    ensures failure.None? ==> Pictures(v', root) && ApplyRecord(v.blocks, record, conflicts) == Ok(v'.blocks)
    ensures failure.None? ==> fresh(v'.memory.Keys - v.memory.Keys)
  {
    var id := record.operation.target.blockId;
    if id.Text? && id.text != "" && id.text in choices {
      if choices[id.text] == ChooseCurrent || choices[id.text] == Dismiss {
        return None, v;
      }
    }
    failure, v' := ApplyOperation(root, record.operation, v);
  }

  lemma OneMore(doc: Forest, records: seq<Record>, conflicts: seq<Conflict>, n: nat, before: Forest)
    requires n < |records| && ApplyAll(doc, records[..n], conflicts) == Ok(before)
    ensures ApplyAll(doc, records[..n + 1], conflicts) == ApplyRecord(before, records[n], conflicts)
  {
    assert records[..n + 1][..n] == records[..n];
  }

  method RunRecords(
    root: Node, records: seq<Record>, ghost conflicts: seq<Conflict>, choices: map<Id, Choice>, ghost v: View)
    returns (failure: Option<PatchError>, ghost v': View)
    requires Pictures(v, root) && ChoicesOf(choices, conflicts)
    modifies v.memory.Keys
    ensures failure.Some? ==> ApplyAll(v.blocks, records, conflicts) == Err(failure.value)
    ensures failure.None? ==> Pictures(v', root) && ApplyAll(v.blocks, records, conflicts) == Ok(v'.blocks)
    ensures failure.None? ==> fresh(v'.memory.Keys - v.memory.Keys)
  {
    v' := v;
    for n := 0 to |records|
      invariant Pictures(v', root) && fresh(v'.memory.Keys - v.memory.Keys)
      invariant ApplyAll(v.blocks, records[..n], conflicts) == Ok(v'.blocks)
    {
      OneMore(v.blocks, records, conflicts, n, v'.blocks);
      failure, v' := ApplyChosen(root, records[n], conflicts, choices, v');
      if failure.Some? {
        ErrorsPersist(v.blocks, records, conflicts, n + 1);
        return;
      }
    }
    assert records[..|records|] == records;
    failure := None;
  }

  /** A whole proposal: the result stands for what ApplyRecords says, or there is the same error; the
      given document is not touched, since only new objects are ever changed. */
  method ApplyPageProposalOperations(
      document: Node, records: seq<Record>, conflicts: seq<Conflict>, ghost v: View)
    returns (r: Result<Node, PatchError>, ghost v': View)
    requires Pictures(v, document)
    ensures r.Err? ==> ApplyRecords(v.blocks, records, conflicts) == Err(r.error)
    ensures r.Ok? ==> Pictures(v', r.value) && fresh(v'.memory.Keys)
    ensures r.Ok? ==> ApplyRecords(v.blocks, records, conflicts) == Ok(v'.blocks)
    ensures Pictures(v, document)
  {
    var result;
    result, v' := CloneDocument(document, v);
    var choices := ConflictChoices(conflicts);
    var failure;
    failure, v' := RunRecords(result, Sorted(records), conflicts, choices, v');
    if failure.Some? {
      return Err(failure.value), v';
    }
    var blocks := ReadAll(result.children, v'.memory, v'.shape.kids, v'.blocks);
    r := if ValidForest(blocks) then Ok(result) else Err(InvalidDocument);
  }

  lemma {:induction false} ErrorsPersist(doc: Forest, records: seq<Record>, conflicts: seq<Conflict>, n: nat)
    requires n <= |records| && ApplyAll(doc, records[..n], conflicts).Err?
    ensures ApplyAll(doc, records, conflicts) == ApplyAll(doc, records[..n], conflicts)
    decreases |records|
  {
    if n == |records| {
      assert records[..n] == records;
    } else {
      assert records[..|records| - 1][..n] == records[..n];
      ErrorsPersist(doc, records[..|records| - 1], conflicts, n);
    }
  }
}
