/** Block trees as the browser holds them: objects whose children and content arrays are edited in place. */
module BlockHeap {
  import opened Wrappers
  import opened BlockTree
  import opened Sequences

  // A block object, or the document object at the root, whose header fields are then never read.
  class Node {
    const id: Id
    const kind: Kind
    const actions: seq<Action>
    const container: bool
    var content: Content
    var children: seq<Node>

    constructor (b: Block, children: seq<Node>)
      ensures id == b.id && kind == b.kind && actions == b.actions && container == b.children.Array?
      ensures content == b.content && this.children == children
    {
      id, kind, actions, container := b.id, b.kind, b.actions, b.children.Array?;
      content, this.children := b.content, children;
    }
  }

  // What the mutable fields of some objects hold at one moment.
  datatype Cell = Cell(content: Content, children: seq<Node>)
  type Memory = map<Node, Cell>

  ghost predicate Mirrors(m: Memory)
    reads m.Keys
  {
    forall n <- m.Keys :: m[n] == Cell(n.content, n.children)
  }

  // The objects of a tree, arranged as they hang together.
  datatype Shape = Shape(node: Node, kids: seq<Shape>)

  ghost function Foot(s: Shape): set<Node> {
    {s.node} + FootAll(s.kids)
  }

  ghost function FootAll(ss: seq<Shape>): set<Node> {
    if ss == [] then {} else Foot(ss[0]) + FootAll(ss[1..])
  }

  // No object hangs in two places.
  ghost predicate Separate(s: Shape) {
    s.node !in FootAll(s.kids) && SeparateAll(s.kids)
  }

  ghost predicate SeparateAll(ss: seq<Shape>) {
    ss == [] || (Separate(ss[0]) && SeparateAll(ss[1..]) && Foot(ss[0]) !! FootAll(ss[1..]))
  }

  // The children array of s.node stands for the blocks bs.
  ghost predicate Lists(m: Memory, s: Shape, bs: Forest)
    decreases s, 0
  {
    && s.node in m && |m[s.node].children| == |s.kids| == |bs|
    && forall i | 0 <= i < |bs| :: m[s.node].children[i] == s.kids[i].node && Shows(m, s.kids[i], bs[i])
  }

  ghost predicate Shows(m: Memory, s: Shape, b: Block)
    decreases s, 1
  {
    && s.node.id == b.id && s.node.kind == b.kind && s.node.actions == b.actions
    && s.node.container == b.children.Array?
    && Lists(m, s, Kids(b)) && m[s.node].content == b.content
  }

  ghost predicate ShowsAll(m: Memory, ss: seq<Shape>, bs: Forest) {
    |ss| == |bs| && forall i | 0 <= i < |bs| :: Shows(m, ss[i], bs[i])
  }

  ghost function NodesOf(ss: seq<Shape>): (ns: seq<Node>)
    ensures |ns| == |ss| && forall i | 0 <= i < |ss| :: ns[i] == ss[i].node
  {
    if ss == [] then [] else [ss[0].node] + NodesOf(ss[1..])
  }

  // ---- Footprints ----

  lemma {:induction false} KidsInside(ss: seq<Shape>, i: nat)
    requires i < |ss|
    ensures Foot(ss[i]) <= FootAll(ss)
    ensures SeparateAll(ss) ==> Separate(ss[i])
  {
    if i > 0 {
      KidsInside(ss[1..], i - 1);
    }
  }

  lemma {:induction false} KidsApart(ss: seq<Shape>, i: nat, j: nat)
    requires SeparateAll(ss) && i < j < |ss|
    ensures Foot(ss[i]) !! Foot(ss[j])
  {
    if i == 0 {
      KidsInside(ss[1..], j - 1);
    } else {
      KidsApart(ss[1..], i - 1, j - 1);
    }
  }

  lemma OneHome(ss: seq<Shape>, i: nat, j: nat, n: Node)
    requires SeparateAll(ss) && i < |ss| && j < |ss| && n in Foot(ss[i]) && n in Foot(ss[j])
    ensures i == j
  {
    if i < j {
      KidsApart(ss, i, j);
    } else if j < i {
      KidsApart(ss, j, i);
    }
  }

  ghost predicate Agree(m: Memory, m': Memory, nodes: set<Node>) {
    forall n <- nodes :: n in m ==> n in m' && m'[n] == m[n]
  }

  // A tree reads nothing outside its footprint.
  lemma ListsFramed(m: Memory, m': Memory, s: Shape, bs: Forest)
    requires Lists(m, s, bs) && Agree(m, m', Foot(s))
    ensures Lists(m', s, bs)
    decreases s, 0
  {
    forall i | 0 <= i < |bs| ensures Shows(m', s.kids[i], bs[i]) {
      KidsInside(s.kids, i);
      ShowsFramed(m, m', s.kids[i], bs[i]);
    }
  }

  lemma ShowsFramed(m: Memory, m': Memory, s: Shape, b: Block)
    requires Shows(m, s, b) && Agree(m, m', Foot(s))
    ensures Shows(m', s, b)
    decreases s, 1
  {
    ListsFramed(m, m', s, Kids(b));
  }

  lemma {:induction false} FootKnown(m: Memory, s: Shape, bs: Forest)
    requires Lists(m, s, bs)
    ensures Foot(s) <= m.Keys
    decreases s
  {
    forall i | 0 <= i < |bs| ensures Foot(s.kids[i]) <= m.Keys {
      FootKnown(m, s.kids[i], Kids(bs[i]));
    }
    FootAllWithin(s.kids, m.Keys);
  }

  lemma {:induction false} FootAllWithin(ss: seq<Shape>, nodes: set<Node>)
    requires forall i | 0 <= i < |ss| :: Foot(ss[i]) <= nodes
    ensures FootAll(ss) <= nodes
  {
    if ss != [] {
      FootAllWithin(ss[1..], nodes);
    }
  }

  // ---- Following a path ----

  ghost predicate Reaches(s: Shape, p: Path, del: nat)
    decreases |p|
  {
    if |p| == 1 then p[0] + del <= |s.kids| else p[0] < |s.kids| && Reaches(s.kids[p[0]], p[1..], del)
  }

  // The object whose children array the last index of p points into.
  ghost function Holder(s: Shape, p: Path, del: nat): Node
    requires Reaches(s, p, del)
    decreases |p|
  {
    if |p| == 1 then s.node else Holder(s.kids[p[0]], p[1..], del)
  }

  ghost function Sub(s: Shape, p: Path): Shape
    requires Reaches(s, p, 1)
    decreases |p|
  {
    if |p| == 1 then s.kids[p[0]] else Sub(s.kids[p[0]], p[1..])
  }

  ghost function SpliceShape(s: Shape, p: Path, del: nat, ins: seq<Shape>): Shape
    requires Reaches(s, p, del)
    decreases |p|
  {
    if |p| == 1 then s.(kids := s.kids[..p[0]] + ins + s.kids[p[0] + del..])
    else s.(kids := s.kids[p[0] := SpliceShape(s.kids[p[0]], p[1..], del, ins)])
  }

  lemma {:induction false} SlotReached(m: Memory, s: Shape, bs: Forest, p: Path, del: nat)
    requires Lists(m, s, bs) && Slot(bs, p, del)
    ensures Reaches(s, p, del) && Holder(s, p, del) in Foot(s) && Holder(s, p, del) in m
    ensures p[|p| - 1] + del <= |m[Holder(s, p, del)].children|
    decreases |p|
  {
    if |p| > 1 {
      SlotReached(m, s.kids[p[0]], bs[p[0]].children.blocks, p[1..], del);
      KidsInside(s.kids, p[0]);
    }
  }

  lemma {:induction false} BlockReached(m: Memory, s: Shape, bs: Forest, p: Path)
    requires Lists(m, s, bs) && Leads(bs, p)
    ensures Reaches(s, p, 1) && Shows(m, Sub(s, p), At(bs, p)) && Foot(Sub(s, p)) <= Foot(s)
    ensures Holder(s, p, 1) in m && p[|p| - 1] < |m[Holder(s, p, 1)].children|
    ensures m[Holder(s, p, 1)].children[p[|p| - 1]] == Sub(s, p).node
    ensures Separate(s) ==> Separate(Sub(s, p))
    decreases |p|
  {
    KidsInside(s.kids, p[0]);
    if |p| > 1 {
      BlockReached(m, s.kids[p[0]], bs[p[0]].children.blocks, p[1..]);
    }
  }

  // ---- Editing ----

  // In m' one children array is spliced, and the rest of the tree is as in m.
  ghost predicate OnlySpliced(m: Memory, m': Memory, s: Shape, h: Node, k: nat, del: nat, ins: seq<Node>) {
    && h in m && h in m' && k + del <= |m[h].children|
    && m'[h] == Cell(m[h].content, m[h].children[..k] + ins + m[h].children[k + del..])
    && Agree(m, m', Foot(s) - {h})
  }

  lemma SpliceIndex<T>(xs: seq<T>, k: nat, del: nat, ins: seq<T>, j: nat)
    requires k + del <= |xs| && j < |xs| - del + |ins|
    ensures (xs[..k] + ins + xs[k + del..])[j] ==
            if j < k then xs[j] else if j < k + |ins| then ins[j - k] else xs[j - |ins| + del]
  {
  }

  lemma TopSpliced(
      m: Memory, m': Memory, s: Shape, bs: Forest, k: nat, del: nat, ins: seq<Shape>, blocks: Forest)
    requires Lists(m, s, bs) && s.node !in FootAll(s.kids) && k + del <= |bs|
    requires OnlySpliced(m, m', s, s.node, k, del, NodesOf(ins))
    requires ShowsAll(m', ins, blocks)
    ensures Lists(m', s.(kids := s.kids[..k] + ins + s.kids[k + del..]), bs[..k] + blocks + bs[k + del..])
  {
    KidsFramed(m, m', s, bs);
    var kids, bs' := s.kids[..k] + ins + s.kids[k + del..], bs[..k] + blocks + bs[k + del..];
    var now := m'[s.node].children;
    forall j | 0 <= j < |bs'| ensures now[j] == kids[j].node {
      SpliceIndex(m[s.node].children, k, del, NodesOf(ins), j);
      SpliceIndex(s.kids, k, del, ins, j);
    }
    forall j | 0 <= j < |bs'| ensures Shows(m', kids[j], bs'[j]) {
      SpliceIndex(s.kids, k, del, ins, j);
      SpliceIndex(bs, k, del, blocks, j);
    }
  }

  lemma KidsFramed(m: Memory, m': Memory, s: Shape, bs: Forest)
    requires Lists(m, s, bs) && Agree(m, m', FootAll(s.kids))
    ensures forall j | 0 <= j < |bs| :: Shows(m', s.kids[j], bs[j])
  {
    forall j | 0 <= j < |bs| ensures Shows(m', s.kids[j], bs[j]) {
      KidsInside(s.kids, j);
      ShowsFramed(m, m', s.kids[j], bs[j]);
    }
  }

  // One kid's tree changed and its siblings' did not.
  lemma KidReplaced(
    m: Memory, m': Memory, s: Shape, bs: Forest, i: nat, h: Node, kid: Shape, b: Block)
    requires Lists(m, s, bs) && Separate(s) && i < |bs| && h in Foot(s.kids[i]) && Agree(m, m', Foot(s) - {h})
    requires kid.node == s.kids[i].node && Shows(m', kid, b)
    ensures Lists(m', s.(kids := s.kids[i := kid]), bs[i := b])
  {
    KidsInside(s.kids, i);
    forall j | 0 <= j < |bs| && j != i ensures Shows(m', s.kids[j], bs[j]) {
      KidsInside(s.kids, j);
      if h in Foot(s.kids[j]) {
        OneHome(s.kids, i, j, h);
      }
      ShowsFramed(m, m', s.kids[j], bs[j]);
    }
  }

  lemma KidRelisted(
      m: Memory, m': Memory, s: Shape, bs: Forest, i: nat, h: Node, kid: Shape, kids: Forest)
    requires Lists(m, s, bs) && Separate(s) && i < |bs| && bs[i].children.Array?
    requires h in Foot(s.kids[i]) && Agree(m, m', Foot(s) - {h})
    requires kid.node == s.kids[i].node && kid.node in m
    requires Lists(m', kid, kids) && m'[kid.node].content == m[kid.node].content
    ensures Lists(m', s.(kids := s.kids[i := kid]), bs[i := WithKids(bs[i], kids)])
  {
    assert Shows(m', kid, WithKids(bs[i], kids));
    KidReplaced(m, m', s, bs, i, h, kid, WithKids(bs[i], kids));
  }

  lemma SpliceKeepsRoot(s: Shape, p: Path, del: nat, ins: seq<Shape>)
    requires Reaches(s, p, del)
    ensures SpliceShape(s, p, del, ins).node == s.node
  {
  }

  /** Splicing one children array in place splices the tree it stands for at the array's path. */
  lemma {:induction false} SplicedLists(
      m: Memory, m': Memory, s: Shape, bs: Forest, p: Path, del: nat, ins: seq<Shape>, blocks: Forest)
    requires Lists(m, s, bs) && Separate(s) && Slot(bs, p, del) && Reaches(s, p, del)
    requires OnlySpliced(m, m', s, Holder(s, p, del), p[|p| - 1], del, NodesOf(ins))
    requires ShowsAll(m', ins, blocks)
    ensures Lists(m', SpliceShape(s, p, del, ins), Splice(bs, p, del, blocks))
    decreases |p|
  {
    var i := p[0];
    if |p| == 1 {
      TopSpliced(m, m', s, bs, i, del, ins, blocks);
    } else {
      var kid, kids, q := s.kids[i], bs[i].children.blocks, p[1..];
      var h := Holder(kid, q, del);
      assert Shows(m, kid, bs[i]);
      SlotReached(m, kid, kids, q, del);
      KidsInside(s.kids, i);
      SplicedLists(m, m', kid, kids, q, del, ins, blocks);
      SpliceKeepsRoot(kid, q, del, ins);
      KidRelisted(m, m', s, bs, i, h, SpliceShape(kid, q, del, ins), Splice(kids, q, del, blocks));
    }
  }

  ghost predicate OnlyRecontented(m: Memory, m': Memory, s: Shape, n: Node, content: Content) {
    && n in m && n in m' && m'[n] == m[n].(content := content)
    && Agree(m, m', Foot(s) - {n})
  }

  /** Giving one block object new content in place does the same to the block it stands for. */
  lemma {:induction false} RecontentedLists(m: Memory, m': Memory, s: Shape, bs: Forest, p: Path, content: Content)
    requires Lists(m, s, bs) && Separate(s) && Leads(bs, p) && Reaches(s, p, 1)
    requires OnlyRecontented(m, m', s, Sub(s, p).node, content)
    ensures Lists(m', s, Splice(bs, p, 1, [At(bs, p).(content := content)]))
    decreases |p|
  {
    var n := Sub(s, p).node;
    var i := p[0];
    var kid, b := s.kids[i], bs[i];
    KidsInside(s.kids, i);
    assert s.kids[i := kid] == s.kids && s.(kids := s.kids) == s;
    if |p| == 1 {
      KidsFramed(m, m', kid, Kids(b));
      KidReplaced(m, m', s, bs, i, n, kid, b.(content := content));
      assert bs[i := b.(content := content)] == bs[..i] + [b.(content := content)] + bs[i + 1..];
    } else {
      var kids := b.children.blocks;
      BlockReached(m, kid, kids, p[1..]);
      RecontentedLists(m, m', kid, kids, p[1..], content);
      SubIsBelow(kid, p[1..]);
      KidReplaced(m, m', s, bs, i, n, kid,
        WithKids(b, Splice(kids, p[1..], 1, [At(kids, p[1..]).(content := content)])));
    }
  }

  lemma {:induction false} SubIsBelow(s: Shape, p: Path)
    requires Reaches(s, p, 1)
    ensures Foot(Sub(s, p)) <= FootAll(s.kids)
    decreases |p|
  {
    KidsInside(s.kids, p[0]);
    if |p| > 1 {
      SubIsBelow(s.kids[p[0]], p[1..]);
    }
  }

  // ---- Edited shapes stay separate ----

  lemma {:induction false} FootConcat(a: seq<Shape>, b: seq<Shape>)
    ensures FootAll(a + b) == FootAll(a) + FootAll(b)
    ensures SeparateAll(a + b) <==> SeparateAll(a) && SeparateAll(b) && FootAll(a) !! FootAll(b)
  {
    if a == [] {
      assert a + b == b;
    } else {
      assert (a + b)[1..] == a[1..] + b;
      FootConcat(a[1..], b);
    }
  }

  ghost predicate Three(a: seq<Shape>, b: seq<Shape>, c: seq<Shape>) {
    && SeparateAll(a) && SeparateAll(b) && SeparateAll(c)
    && FootAll(a) !! FootAll(b) && FootAll(a) !! FootAll(c) && FootAll(b) !! FootAll(c)
  }

  lemma FootOfThree(ss: seq<Shape>, a: seq<Shape>, b: seq<Shape>, c: seq<Shape>)
    requires ss == a + (b + c)
    ensures FootAll(ss) == FootAll(a) + FootAll(b) + FootAll(c)
    ensures SeparateAll(ss) <==> Three(a, b, c)
  {
    FootConcat(a, b + c);
    FootConcat(b, c);
  }

  lemma FootOfOne(s: Shape)
    ensures FootAll([s]) == Foot(s) && (SeparateAll([s]) <==> Separate(s))
  {
  }

  ghost function Cut(s: Shape, p: Path, del: nat): seq<Shape>
    requires Reaches(s, p, del)
    decreases |p|
  {
    if |p| == 1 then s.kids[p[0]..p[0] + del] else Cut(s.kids[p[0]], p[1..], del)
  }

  lemma SwapMiddle<T>(n: set<T>, a: set<T>, b: set<T>, c: set<T>, b': set<T>)
    requires b !! n && b !! a && b !! c
    ensures n + (a + b' + c) == n + (a + b + c) - b + b'
  {
  }

  lemma SwapInside<T>(all: set<T>, kid: set<T>, cut: set<T>, ins: set<T>)
    requires cut <= kid <= all
    ensures all - kid + (kid - cut + ins) == all - cut + ins
  {
  }

  // Some of the kids are exchanged for others.
  lemma {:induction false} ExchangeSeparate(s: Shape, a: seq<Shape>, b: seq<Shape>, c: seq<Shape>, b': seq<Shape>)
    requires Separate(s) && s.kids == a + (b + c)
    requires SeparateAll(b') && FootAll(b') !! Foot(s) - FootAll(b)
    ensures Separate(s.(kids := a + (b' + c)))
    ensures Foot(s.(kids := a + (b' + c))) == Foot(s) - FootAll(b) + FootAll(b')
    ensures FootAll(b) <= FootAll(s.kids)
  {
    FootOfThree(s.kids, a, b, c);
    FootOfThree(a + (b' + c), a, b', c);
    var fa, fb, fc, fb' := FootAll(a), FootAll(b), FootAll(c), FootAll(b');
    assert s.node !in fb;
    SwapMiddle({s.node}, fa, fb, fc, fb');
    assert Foot(s) - fb >= fa + fc + {s.node};
    assert fb' !! fa && fb' !! fc && s.node !in fb';
  }

  /** What is cut out no longer shares an object with what is left, and fresh insertions keep it so. */
  lemma {:induction false} SpliceSeparate(s: Shape, p: Path, del: nat, ins: seq<Shape>)
    requires Separate(s) && Reaches(s, p, del)
    requires SeparateAll(ins) && FootAll(ins) !! Foot(s)
    ensures Separate(SpliceShape(s, p, del, ins))
    ensures Foot(SpliceShape(s, p, del, ins)) == Foot(s) - FootAll(Cut(s, p, del)) + FootAll(ins)
    ensures FootAll(Cut(s, p, del)) <= Foot(s)
    decreases |p|
  {
    var i := p[0];
    if |p| == 1 {
      SpliceTopSeparate(s, i, del, ins);
    } else {
      var kid, kid' := s.kids[i], SpliceShape(s.kids[i], p[1..], del, ins);
      var cut, added := FootAll(Cut(kid, p[1..], del)), FootAll(ins);
      KidsInside(s.kids, i);
      SpliceSeparate(kid, p[1..], del, ins);
      ExchangeKid(s, i, kid', added);
      SwapInside(Foot(s), Foot(kid), cut, added);
    }
  }

  lemma SpliceTopSeparate(s: Shape, i: nat, del: nat, ins: seq<Shape>)
    requires Separate(s) && i + del <= |s.kids|
    requires SeparateAll(ins) && FootAll(ins) !! Foot(s)
    ensures Separate(s.(kids := s.kids[..i] + ins + s.kids[i + del..]))
    ensures Foot(s.(kids := s.kids[..i] + ins + s.kids[i + del..])) ==
            Foot(s) - FootAll(s.kids[i..i + del]) + FootAll(ins)
    ensures FootAll(s.kids[i..i + del]) <= FootAll(s.kids)
  {
    var j := i + del;
    var a, b, c := s.kids[..i], s.kids[i..j], s.kids[j..];
    assert s.kids == a + (b + c) by { SliceSplit(s.kids, i, j); }
    ExchangeSeparate(s, a, b, c, ins);
    assert a + ins + c == a + (ins + c) by { Associate(a, ins, c); }
  }

  lemma ExchangeKid(s: Shape, i: nat, kid': Shape, added: set<Node>)
    requires Separate(s) && i < |s.kids|
    requires Separate(kid') && Foot(kid') <= Foot(s.kids[i]) + added && added !! Foot(s)
    ensures Separate(s.(kids := s.kids[i := kid']))
    ensures Foot(s.(kids := s.kids[i := kid'])) == Foot(s) - Foot(s.kids[i]) + Foot(kid')
    ensures Foot(s.kids[i]) <= Foot(s)
  {
    var kid := s.kids[i];
    var a, c := s.kids[..i], s.kids[i + 1..];
    assert s.kids == a + ([kid] + c);
    assert s.kids[i := kid'] == a + ([kid'] + c);
    FootOfOne(kid);
    FootOfOne(kid');
    assert FootAll([kid']) !! Foot(s) - FootAll([kid]);
    ExchangeSeparate(s, a, [kid], c, [kid']);
  }

  lemma {:induction false} CutOne(s: Shape, p: Path)
    requires Reaches(s, p, 1)
    ensures Cut(s, p, 1) == [Sub(s, p)]
    decreases |p|
  {
    if |p| > 1 {
      CutOne(s.kids[p[0]], p[1..]);
    }
  }

  lemma {:induction false} HolderOutside(s: Shape, p: Path)
    requires Separate(s) && Reaches(s, p, 1)
    ensures Holder(s, p, 1) !in Foot(Sub(s, p))
    decreases |p|
  {
    KidsInside(s.kids, p[0]);
    if |p| > 1 {
      HolderOutside(s.kids[p[0]], p[1..]);
    }
  }
}
