/** The Go walker over block trees: Walk, Blocks and FindBlock. */
module AstWalk {
  import opened Wrappers
  import opened BlockTree
  import opened Sequences

  datatype Item = OfBlock(block: Block) | OfInline(inline: Inline)

  // The item visited, the block it belongs to (None at the top), its index there and the block depth.
  datatype Visit = Visit(item: Item, parent: Option<Block>, index: nat, depth: nat)

  // A walk that nothing interrupts: calls of the callback, and contents that cannot be decoded.
  datatype Step = Call(visit: Visit) | Broken

  // ---- The full pre-order sequence ----

  function Trace(bs: Forest, parent: Option<Block>, from: nat, depth: nat): seq<Step>
    decreases bs
  {
    if bs == [] then []
    else BlockTrace(bs[0], parent, from, depth) + Trace(bs[1..], parent, from + 1, depth)
  }

  function BlockTrace(b: Block, parent: Option<Block>, index: nat, depth: nat): seq<Step>
    decreases b
  {
    [Call(Visit(OfBlock(b), parent, index, depth))] +
    (InlineTrace(b, depth) + if b.children.Array? then Trace(b.children.blocks, Some(b), 0, depth + 1) else [])
  }

  function InlineTrace(b: Block, depth: nat): seq<Step> {
    match b.content
    case Plain => []
    case Undecodable => [Broken]
    case Inlines(nodes) => InlineCalls(b, nodes, depth)
  }

  function InlineCalls(b: Block, nodes: seq<Inline>, depth: nat): (r: seq<Step>)
    ensures |r| == |nodes|
    ensures forall i | 0 <= i < |nodes| :: r[i] == Call(Visit(OfInline(nodes[i]), Some(b), i, depth))
  {
    if nodes == [] then []
    else
      var k: nat := |nodes| - 1;
      InlineCalls(b, nodes[..k], depth) + [Call(Visit(OfInline(nodes[k]), Some(b), k, depth))]
  }

  // ---- Walking ----

  datatype State = State(calls: seq<Visit>, err: bool, stopped: bool)

  const START := State([], false, false)

  // answers(k) is what the callback returns on its k-th call.
  function Advance(s: State, step: Step, answers: nat -> bool): State {
    if s.err || s.stopped then s
    else
      match step
      case Broken => s.(err := true)
      case Call(visit) => s.(calls := s.calls + [visit], stopped := !answers(|s.calls|))
  }

  function Run(s: State, steps: seq<Step>, answers: nat -> bool): State
    decreases |steps|
  {
    if steps == [] then s else Run(Advance(s, steps[0], answers), steps[1..], answers)
  }

  lemma {:induction false} RunConcat(s: State, a: seq<Step>, b: seq<Step>, answers: nat -> bool)
    ensures Run(s, a + b, answers) == Run(Run(s, a, answers), b, answers)
    decreases |a|
  {
    if a == [] {
      assert a + b == b;
    } else {
      assert (a + b)[1..] == a[1..] + b;
      RunConcat(Advance(s, a[0], answers), a[1..], b, answers);
    }
  }

  lemma {:induction false} RunOver(s: State, steps: seq<Step>, answers: nat -> bool)
    requires s.err || s.stopped
    ensures Run(s, steps, answers) == s
    decreases |steps|
  {
    if steps != [] {
      RunOver(s, steps[1..], answers);
    }
  }

  lemma RunOne(s: State, step: Step, answers: nat -> bool)
    ensures Run(s, [step], answers) == Advance(s, step, answers)
  {
    assert [step][1..] == [];
  }

  class Walker {
    const answers: nat -> bool
    var calls: seq<Visit>
    var err: bool
    var stopped: bool

    constructor (answers: nat -> bool)
      ensures this.answers == answers && Now() == START
    {
      this.answers := answers;
      calls, err, stopped := [], false, false;
    }

    function Now(): State
      reads this
    {
      State(calls, err, stopped)
    }

    method CallBack(visit: Visit) returns (more: bool)
      requires !err && !stopped
      modifies `calls
      ensures more == answers(|old(calls)|) && calls == old(calls) + [visit]
    {
      more := answers(|calls|);
      calls := calls + [visit];
    }

    method WalkBlocks(blocks: Forest, parent: Option<Block>, depth: nat)
      modifies this
      ensures Now() == Run(old(Now()), Trace(blocks, parent, 0, depth), answers)
      decreases blocks, 1
    {
      ghost var start, rest := Now(), blocks;
      for i := 0 to |blocks|
        invariant rest == blocks[i..]
        invariant Run(start, Trace(blocks, parent, 0, depth), answers) ==
                  Run(Now(), Trace(rest, parent, i, depth), answers)
      {
        if stopped || err {
          RunOver(Now(), Trace(rest, parent, i, depth), answers);
          return;
        }
        var b := blocks[i];
        RunConcat(Now(), BlockTrace(b, parent, i, depth), Trace(rest[1..], parent, i + 1, depth), answers);
        WalkBlock(b, parent, i, depth);
        rest := rest[1..];
      }
    }

    method WalkBlock(b: Block, parent: Option<Block>, index: nat, depth: nat)
      requires !err && !stopped
      modifies this
      ensures Now() == Run(old(Now()), BlockTrace(b, parent, index, depth), answers)
      decreases b, 0
    {
      ghost var start, visit := Now(), Visit(OfBlock(b), parent, index, depth);
      ghost var inline := InlineTrace(b, depth);
      ghost var below := if b.children.Array? then Trace(b.children.blocks, Some(b), 0, depth + 1) else [];
      RunConcat(start, [Call(visit)], inline + below, answers);
      RunOne(start, Call(visit), answers);
      var more := CallBack(Visit(OfBlock(b), parent, index, depth));
      if !more {
        stopped := true;
        RunOver(Now(), inline + below, answers);
        return;
      }
      RunConcat(Now(), inline, below, answers);
      WalkInline(b, depth);
      if b.children.Array? {
        WalkBlocks(b.children.blocks, Some(b), depth + 1);
      }
    }

    method WalkInline(b: Block, depth: nat)
      requires !err && !stopped
      modifies this
      ensures Now() == Run(old(Now()), InlineTrace(b, depth), answers)
    {
      if b.content.Plain? {
        return;
      }
      if b.content.Undecodable? {
        RunOne(Now(), Broken, answers);
        err := true;
        return;
      }
      ghost var start := Now();
      var nodes := b.content.nodes;
      for i := 0 to |nodes|
        invariant !err && !stopped
        invariant Now() == Run(start, InlineCalls(b, nodes[..i], depth), answers)
      {
        var visit := Visit(OfInline(nodes[i]), Some(b), i, depth);
        assert nodes[..i + 1][..i] == nodes[..i];
        RunConcat(start, InlineCalls(b, nodes[..i], depth), [Call(visit)], answers);
        RunOne(Now(), Call(visit), answers);
        var more := CallBack(visit);
        if !more {
          stopped := true;
          InlineStopped(start, b, nodes, i, depth, answers);
          return;
        }
      }
      assert nodes[..|nodes|] == nodes;
    }
  }

  // Once stopped, the remaining inline nodes make no difference.
  lemma {:induction false} InlineStopped(
    s: State, b: Block, nodes: seq<Inline>, i: nat, depth: nat, answers: nat -> bool)
    requires i < |nodes|
    requires var r := Run(s, InlineCalls(b, nodes[..i + 1], depth), answers); r.err || r.stopped
    ensures Run(s, InlineCalls(b, nodes, depth), answers) == Run(s, InlineCalls(b, nodes[..i + 1], depth), answers)
    decreases |nodes|
  {
    if i + 1 == |nodes| {
      assert nodes[..i + 1] == nodes;
    } else {
      var k: nat := |nodes| - 1;
      assert nodes[..k][..i + 1] == nodes[..i + 1];
      InlineStopped(s, b, nodes[..k], i, depth, answers);
      var last := Call(Visit(OfInline(nodes[k]), Some(b), k, depth));
      RunConcat(s, InlineCalls(b, nodes[..k], depth), [last], answers);
      RunOver(Run(s, InlineCalls(b, nodes[..k], depth), answers), [last], answers);
    }
  }

  // ---- What a walk amounts to ----

  ghost predicate Accepted(answers: nat -> bool, n: nat) {
    forall i | 0 <= i < n :: answers(i)
  }

  // The calls made so far are the beginning of the trace, all accepted unless the walk was stopped.
  ghost predicate Prefix(s: State, trace: seq<Step>, answers: nat -> bool) {
    var n := |s.calls|;
    && n <= |trace| && (forall i | 0 <= i < n :: trace[i] == Call(s.calls[i]))
    && !(s.err && s.stopped)
    && (if s.stopped then n > 0 && Accepted(answers, n - 1) && !answers(n - 1) else Accepted(answers, n))
    && (s.err ==> n < |trace| && trace[n].Broken?)
  }

  lemma {:induction false} RunIsPrefix(s: State, done: seq<Step>, rest: seq<Step>, answers: nat -> bool)
    requires Prefix(s, done + rest, answers) && (!s.err && !s.stopped ==> |s.calls| == |done|)
    ensures Prefix(Run(s, rest, answers), done + rest, answers)
    ensures var r := Run(s, rest, answers); !r.err && !r.stopped ==> |r.calls| == |done + rest|
    decreases |rest|
  {
    if s.err || s.stopped {
      RunOver(s, rest, answers);
    } else if rest != [] {
      assert done + rest == (done + [rest[0]]) + rest[1..];
      RunIsPrefix(Advance(s, rest[0], answers), done + [rest[0]], rest[1..], answers);
    }
  }

  /** Walk calls back for exactly the beginning of the full pre-order sequence that ends with the first
      rejected node, or before the first content that cannot be decoded, or with the document. */
  lemma WalkIsPrefix(doc: Forest, answers: nat -> bool)
    ensures var r := Run(START, Trace(doc, None, 0, 0), answers);
      && Prefix(r, Trace(doc, None, 0, 0), answers)
      && (!r.err && !r.stopped ==> |r.calls| == |Trace(doc, None, 0, 0)|)
  {
    assert [] + Trace(doc, None, 0, 0) == Trace(doc, None, 0, 0);
    RunIsPrefix(START, [], Trace(doc, None, 0, 0), answers);
  }

  method Walk(doc: Forest, answers: nat -> bool) returns (calls: seq<Visit>, err: bool)
    ensures Prefix(State(calls, err, !err && |calls| > 0 && !answers(|calls| - 1)), Trace(doc, None, 0, 0), answers)
    ensures !err && Accepted(answers, |calls|) ==> |calls| == |Trace(doc, None, 0, 0)|
  {
    var w := new Walker(answers);
    w.WalkBlocks(doc, None, 0);
    WalkIsPrefix(doc, answers);
    return w.calls, w.err;
  }

  // ---- The blocks in a trace ----

  function BlockVisits(trace: seq<Step>): seq<Visit> {
    if trace == [] then []
    else
      (match trace[0]
       case Broken => []
       case Call(visit) => if visit.item.OfBlock? then [visit] else []) + BlockVisits(trace[1..])
  }

  lemma {:induction false} BlockVisitsConcat(a: seq<Step>, b: seq<Step>)
    ensures BlockVisits(a + b) == BlockVisits(a) + BlockVisits(b)
  {
    if a == [] {
      assert a + b == b;
    } else {
      assert (a + b)[1..] == a[1..] + b;
      BlockVisitsConcat(a[1..], b);
    }
  }

  lemma InlineHasNoBlocks(b: Block, depth: nat)
    ensures BlockVisits(InlineTrace(b, depth)) == []
  {
    if b.content.Inlines? {
      InlineCallsHaveNoBlocks(b, b.content.nodes, depth);
    }
  }

  lemma {:induction false} InlineCallsHaveNoBlocks(b: Block, nodes: seq<Inline>, depth: nat)
    ensures BlockVisits(InlineCalls(b, nodes, depth)) == []
  {
    if nodes != [] {
      var k: nat := |nodes| - 1;
      InlineCallsHaveNoBlocks(b, nodes[..k], depth);
      BlockVisitsConcat(InlineCalls(b, nodes[..k], depth), [Call(Visit(OfInline(nodes[k]), Some(b), k, depth))]);
    }
  }

  function Visits(bs: Forest, parent: Option<Block>, from: nat, depth: nat): seq<Visit> {
    BlockVisits(Trace(bs, parent, from, depth))
  }

  function Below(b: Block, depth: nat): seq<Visit> {
    if b.children.Array? then Visits(b.children.blocks, Some(b), 0, depth + 1) else []
  }

  lemma BlockVisitFirst(visit: Visit, inline: seq<Step>, below: seq<Step>)
    requires visit.item.OfBlock? && BlockVisits(inline) == []
    ensures BlockVisits([Call(visit)] + (inline + below)) == [visit] + BlockVisits(below)
  {
    BlockVisitsConcat(inline, below);
    assert ([Call(visit)] + (inline + below))[1..] == inline + below;
  }

  lemma VisitsOfBlock(b: Block, parent: Option<Block>, index: nat, depth: nat)
    ensures BlockVisits(BlockTrace(b, parent, index, depth)) ==
            [Visit(OfBlock(b), parent, index, depth)] + Below(b, depth)
  {
    var below := if b.children.Array? then Trace(b.children.blocks, Some(b), 0, depth + 1) else [];
    InlineHasNoBlocks(b, depth);
    BlockVisitFirst(Visit(OfBlock(b), parent, index, depth), InlineTrace(b, depth), below);
  }

  lemma VisitsOfFirst(bs: Forest, parent: Option<Block>, from: nat, depth: nat)
    requires bs != []
    ensures Visits(bs, parent, from, depth) ==
            ([Visit(OfBlock(bs[0]), parent, from, depth)] + Below(bs[0], depth))
            + Visits(bs[1..], parent, from + 1, depth)
  {
    BlockVisitsConcat(BlockTrace(bs[0], parent, from, depth), Trace(bs[1..], parent, from + 1, depth));
    VisitsOfBlock(bs[0], parent, from, depth);
  }

  lemma {:induction false} VisitCount(bs: Forest, parent: Option<Block>, from: nat, depth: nat)
    ensures |Visits(bs, parent, from, depth)| == |Ids(bs)|
    decreases bs
  {
    if bs != [] {
      VisitsOfFirst(bs, parent, from, depth);
      if bs[0].children.Array? {
        VisitCount(bs[0].children.blocks, Some(bs[0]), 0, depth + 1);
      }
      VisitCount(bs[1..], parent, from + 1, depth);
    }
  }

  // The block a path's last step starts from.
  function ParentOf(bs: Forest, p: Path, top: Option<Block>): Option<Block>
    requires Leads(bs, p)
    decreases |p|
  {
    if |p| == 1 then top else ParentOf(bs[p[0]].children.blocks, p[1..], Some(bs[p[0]]))
  }

  // The same block seen from the second top-level block on.
  function Earlier(p: Path): (q: Path)
    requires p[0] > 0
    ensures |q| == |p| && q[0] == p[0] - 1 && q[1..] == p[1..]
  {
    [p[0] - 1] + p[1..]
  }

  lemma SeenFromSecond(bs: Forest, p: Path, parent: Option<Block>)
    requires Leads(bs, p) && p[0] > 0
    ensures Leads(bs[1..], Earlier(p)) && At(bs[1..], Earlier(p)) == At(bs, p)
    ensures ParentOf(bs[1..], Earlier(p), parent) == ParentOf(bs, p, parent)
    ensures Before(bs, p, 1) == BlockIds(bs[0]) + Before(bs[1..], Earlier(p), 1)
  {
    var q := Earlier(p);
    var rest := bs[1..];
    assert rest[q[0]] == bs[p[0]];
    var a, c := [bs[0]], rest[..q[0]];
    assert bs[..p[0]] == a + c;
    IdsConcat(a, c);
    IdsOfOne(bs[0]);
    if |p| > 1 {
      Associate(BlockIds(bs[0]), Ids(c), [bs[p[0]].id] + Before(bs[p[0]].children.blocks, p[1..], 1));
    }
  }

  // What a visit of the block at p says.
  function VisitAt(bs: Forest, p: Path, parent: Option<Block>, from: nat, depth: nat): Visit
    requires Leads(bs, p)
  {
    Visit(OfBlock(At(bs, p)), ParentOf(bs, p, parent), p[|p| - 1] + (if |p| == 1 then from else 0), depth + |p| - 1)
  }

  /** Every block is visited, at its place in pre-order, with its parent, index and depth. */
  lemma {:induction false} VisitedInOrder(bs: Forest, p: Path, parent: Option<Block>, from: nat, depth: nat)
    requires Leads(bs, p)
    ensures |Before(bs, p, 1)| < |Visits(bs, parent, from, depth)|
    ensures Visits(bs, parent, from, depth)[|Before(bs, p, 1)|] == VisitAt(bs, p, parent, from, depth)
    decreases bs
  {
    if p[0] == 0 {
      if |p| > 1 {
        VisitedInOrder(bs[0].children.blocks, p[1..], Some(bs[0]), 0, depth + 1);
      }
      VisitedInFirst(bs, p, parent, from, depth);
    } else {
      SeenFromSecond(bs, p, parent);
      VisitedInOrder(bs[1..], Earlier(p), parent, from + 1, depth);
      VisitedLater(bs, p, parent, from, depth);
    }
  }

  lemma VisitedInFirst(bs: Forest, p: Path, parent: Option<Block>, from: nat, depth: nat)
    requires Leads(bs, p) && p[0] == 0
    requires |p| > 1 ==>
      var q, kids := p[1..], Visits(bs[0].children.blocks, Some(bs[0]), 0, depth + 1);
      && |Before(bs[0].children.blocks, q, 1)| < |kids|
      && kids[|Before(bs[0].children.blocks, q, 1)|] == VisitAt(bs[0].children.blocks, q, Some(bs[0]), 0, depth + 1)
    ensures |Before(bs, p, 1)| < |Visits(bs, parent, from, depth)|
    ensures Visits(bs, parent, from, depth)[|Before(bs, p, 1)|] == VisitAt(bs, p, parent, from, depth)
  {
    assert bs[..0] == [];
    VisitsOfFirst(bs, parent, from, depth);
    if |p| > 1 {
      VisitAtBelow(bs, p, parent, from, depth);
    }
  }

  lemma VisitAtBelow(bs: Forest, p: Path, parent: Option<Block>, from: nat, depth: nat)
    requires Leads(bs, p) && p[0] == 0 && |p| > 1
    ensures |Before(bs, p, 1)| == 1 + |Before(bs[0].children.blocks, p[1..], 1)|
    ensures VisitAt(bs, p, parent, from, depth) == VisitAt(bs[0].children.blocks, p[1..], Some(bs[0]), 0, depth + 1)
  {
    assert bs[..0] == [];
    assert p[|p| - 1] == p[1..][|p| - 2];
  }

  lemma VisitedLater(bs: Forest, p: Path, parent: Option<Block>, from: nat, depth: nat)
    requires Leads(bs, p) && p[0] > 0 && Leads(bs[1..], Earlier(p))
    requires |Before(bs[1..], Earlier(p), 1)| < |Visits(bs[1..], parent, from + 1, depth)|
    requires Visits(bs[1..], parent, from + 1, depth)[|Before(bs[1..], Earlier(p), 1)|] ==
             VisitAt(bs[1..], Earlier(p), parent, from + 1, depth)
    ensures |Before(bs, p, 1)| < |Visits(bs, parent, from, depth)|
    ensures Visits(bs, parent, from, depth)[|Before(bs, p, 1)|] == VisitAt(bs, p, parent, from, depth)
  {
    var first := [Visit(OfBlock(bs[0]), parent, from, depth)] + Below(bs[0], depth);
    var rest := Visits(bs[1..], parent, from + 1, depth);
    var k := |Before(bs[1..], Earlier(p), 1)|;
    assert |Before(bs, p, 1)| == |first| + k by {
      SeenFromSecond(bs, p, parent);
      FirstCount(bs[0], parent, from, depth);
    }
    assert VisitAt(bs, p, parent, from, depth) == rest[k] by { VisitAtLater(bs, p, parent, from, depth); }
    assert Visits(bs, parent, from, depth) == first + rest by { VisitsOfFirst(bs, parent, from, depth); }
  }

  lemma FirstCount(b: Block, parent: Option<Block>, from: nat, depth: nat)
    ensures |[Visit(OfBlock(b), parent, from, depth)] + Below(b, depth)| == |BlockIds(b)|
  {
    if b.children.Array? {
      VisitCount(b.children.blocks, Some(b), 0, depth + 1);
    }
  }

  lemma VisitAtLater(bs: Forest, p: Path, parent: Option<Block>, from: nat, depth: nat)
    requires Leads(bs, p) && p[0] > 0
    ensures Leads(bs[1..], Earlier(p))
    ensures VisitAt(bs, p, parent, from, depth) == VisitAt(bs[1..], Earlier(p), parent, from + 1, depth)
  {
    SeenFromSecond(bs, p, parent);
    if |p| > 1 {
      assert p[|p| - 1] == p[1..][|p| - 2];
      assert Earlier(p)[|p| - 1] == Earlier(p)[1..][|p| - 2];
    }
  }

  // ---- Inline nodes ----

  predicate VisitsBlock(steps: seq<Step>, k: nat) {
    k < |steps| && steps[k].Call? && steps[k].visit.item.OfBlock?
  }

  // How many steps a block's content takes.
  function ContentLength(b: Block): nat {
    match b.content
    case Plain => 0
    case Undecodable => 1
    case Inlines(nodes) => |nodes|
  }

  // Right behind step k stand the visits of this block's inline nodes, or the failure to decode them, and
  // then the next block.
  predicate InlineBehind(steps: seq<Step>, k: nat, b: Block, depth: nat) {
    var n := ContentLength(b);
    && k + n < |steps| && (k + n + 1 < |steps| ==> VisitsBlock(steps, k + n + 1))
    && (b.content.Undecodable? ==> steps[k + 1] == Broken)
    && (b.content.Inlines? ==> forall j | 0 <= j < n ::
          steps[k + 1 + j] == Call(Visit(OfInline(b.content.nodes[j]), Some(b), j, depth)))
  }

  // Wherever a block is visited, its inline nodes are behind it.
  predicate InlineInPlace(steps: seq<Step>) {
    forall k | 0 <= k < |steps| && VisitsBlock(steps, k) ::
      InlineBehind(steps, k, steps[k].visit.item.block, steps[k].visit.depth)
  }

  lemma InPlaceConcat(a: seq<Step>, b: seq<Step>)
    requires InlineInPlace(a) && InlineInPlace(b) && (b == [] || VisitsBlock(b, 0))
    ensures InlineInPlace(a + b)
  {
    var all := a + b;
    forall k | 0 <= k < |all| && VisitsBlock(all, k)
      ensures InlineBehind(all, k, all[k].visit.item.block, all[k].visit.depth)
    {
      if k < |a| {
        assert VisitsBlock(a, k);
      } else {
        assert VisitsBlock(b, k - |a|) && all[k] == b[k - |a|];
      }
    }
  }

  lemma FirstInPlace(b: Block, parent: Option<Block>, index: nat, depth: nat)
    ensures InlineInPlace([Call(Visit(OfBlock(b), parent, index, depth))] + InlineTrace(b, depth))
  {
    var inline := InlineTrace(b, depth);
    var steps := [Call(Visit(OfBlock(b), parent, index, depth))] + inline;
    assert |inline| == ContentLength(b) && forall k: nat :: !VisitsBlock(inline, k);
    forall k | 0 < k < |steps| ensures !VisitsBlock(steps, k) {
      assert steps[k] == inline[k - 1] && !VisitsBlock(inline, k - 1);
    }
  }

  lemma {:induction false} BlockInPlace(b: Block, parent: Option<Block>, index: nat, depth: nat)
    ensures InlineInPlace(BlockTrace(b, parent, index, depth)) && VisitsBlock(BlockTrace(b, parent, index, depth), 0)
    decreases b, 1
  {
    var head, inline := [Call(Visit(OfBlock(b), parent, index, depth))], InlineTrace(b, depth);
    var below := if b.children.Array? then Trace(b.children.blocks, Some(b), 0, depth + 1) else [];
    if b.children.Array? {
      InlineVisitedBehind(b.children.blocks, Some(b), 0, depth + 1);
    }
    FirstInPlace(b, parent, index, depth);
    InPlaceConcat(head + inline, below);
    Associate(head, inline, below);
  }

  /** The inline nodes of a block are visited right behind it, in order and at its depth, before anything
      below it; content that cannot be decoded ends the walk there. */
  lemma {:induction false} InlineVisitedBehind(bs: Forest, parent: Option<Block>, from: nat, depth: nat)
    ensures InlineInPlace(Trace(bs, parent, from, depth))
    ensures bs != [] ==> VisitsBlock(Trace(bs, parent, from, depth), 0)
    decreases bs, 0
  {
    if bs != [] {
      BlockInPlace(bs[0], parent, from, depth);
      InlineVisitedBehind(bs[1..], parent, from + 1, depth);
      InPlaceConcat(BlockTrace(bs[0], parent, from, depth), Trace(bs[1..], parent, from + 1, depth));
    }
  }

  // ---- Blocks ----

  function Flattened(bs: Forest): seq<Block> {
    if bs == [] then [] else Spread(bs[0]) + Flattened(bs[1..])
  }

  function Spread(b: Block): seq<Block> {
    [b] + if b.children.Array? then Flattened(b.children.blocks) else []
  }

  method Blocks(blocks: Forest, out: seq<Block>) returns (out': seq<Block>)
    ensures out' == out + Flattened(blocks)
    decreases blocks
  {
    out' := out;
    ghost var rest := blocks;
    for i := 0 to |blocks|
      invariant rest == blocks[i..]
      invariant out' + Flattened(rest) == out + Flattened(blocks)
    {
      var b := blocks[i];
      Associate(out', Spread(b), Flattened(rest[1..]));
      Associate(out', [b], Flattened(Kids(b)));
      out' := out' + [b];
      if b.children.Array? {
        out' := Blocks(b.children.blocks, out');
      }
      rest := rest[1..];
    }
    assert out' + [] == out';
  }

  ghost predicate VisitsOf(visits: seq<Visit>, blocks: seq<Block>) {
    |visits| == |blocks| && forall i | 0 <= i < |blocks| :: visits[i].item == OfBlock(blocks[i])
  }

  lemma VisitsOfTwo(v: seq<Visit>, x: seq<Block>, w: seq<Visit>, y: seq<Block>)
    requires VisitsOf(v, x) && VisitsOf(w, y)
    ensures VisitsOf(v + w, x + y)
  {
  }

  /** The blocks Walk visits are the ones Blocks collects, in the same order. */
  lemma {:induction false} WalkVisitsBlocks(bs: Forest, parent: Option<Block>, from: nat, depth: nat)
    ensures VisitsOf(Visits(bs, parent, from, depth), Flattened(bs))
    decreases bs
  {
    if bs != [] {
      var b, top := bs[0], Visit(OfBlock(bs[0]), parent, from, depth);
      if b.children.Array? {
        WalkVisitsBlocks(b.children.blocks, Some(b), 0, depth + 1);
      }
      WalkVisitsBlocks(bs[1..], parent, from + 1, depth);
      VisitsOfFirst(bs, parent, from, depth);
      VisitsOfTwo([top], [b], Below(b, depth), Flattened(Kids(b)));
      VisitsOfTwo([top] + Below(b, depth), Spread(b), Visits(bs[1..], parent, from + 1, depth), Flattened(bs[1..]));
    }
  }

  // ---- FindBlock ----

  datatype Location = Location(block: Block, parent: Option<Block>, index: nat, path: seq<nat>)

  function LocationAt(blocks: Forest, p: Path, parent: Option<Block>, prefix: seq<nat>): Location
    requires Leads(blocks, p)
  {
    Location(At(blocks, p), ParentOf(blocks, p, parent), p[|p| - 1], prefix + p)
  }

  lemma LocationBelow(blocks: Forest, i: nat, q: Path, parent: Option<Block>, prefix: seq<nat>)
    requires i < |blocks| && blocks[i].children.Array? && Leads(blocks[i].children.blocks, q)
    ensures Leads(blocks, Down(i, q))
    ensures LocationAt(blocks, Down(i, q), parent, prefix) ==
            LocationAt(blocks[i].children.blocks, q, Some(blocks[i]), prefix + [i])
  {
    assert prefix + Down(i, q) == (prefix + [i]) + q;
  }

  method FindIn(blocks: Forest, parent: Option<Block>, prefix: seq<nat>, id: Id) returns (found: Option<Location>)
    ensures found.Some? <==> Find(blocks, id).Some?
    ensures found.Some? ==> found.value == LocationAt(blocks, Find(blocks, id).value, parent, prefix)
    decreases blocks
  {
    for i := 0 to |blocks|
      invariant id !in Ids(blocks[..i])
    {
      var b := blocks[i];
      var path := prefix + [i];
      IdsUpTo(blocks, i);
      if b.id == id {
        FoundHere(blocks, i, id);
        return Some(Location(b, parent, i, path));
      }
      if b.children.Array? {
        var nested := FindIn(b.children.blocks, Some(b), path, id);
        if nested.Some? {
          ghost var q := Find(b.children.blocks, id).value;
          FoundBelow(blocks, i, id, q);
          LocationBelow(blocks, i, q, parent, prefix);
          return nested;
        }
      }
    }
    assert blocks[..|blocks|] == blocks;
    return None;
  }

  /** FindBlock returns the first block in pre-order with the ID, with a path that leads to it, its
      parent and its index, and fails exactly when there is none. */
  method FindBlock(doc: Forest, id: Id) returns (found: Option<Location>)
    ensures found.None? <==> id !in Ids(doc)
    ensures found.Some? ==>
      var path := found.value.path;
      && path != [] && Leads(doc, path) && At(doc, path) == found.value.block && found.value.block.id == id
      && id !in Before(doc, path, 1)
      && found.value.index == path[|path| - 1] && found.value.parent == ParentOf(doc, path, None)
  {
    found := FindIn(doc, None, [], id);
    if found.Some? {
      var p := Find(doc, id).value;
      assert [] + p == p;
      FindIsFirst(doc, p, id);
    }
  }
}
