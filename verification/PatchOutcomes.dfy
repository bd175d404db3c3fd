/** What every operation of a proposal does to a document, and with which error it is refused: said of the
    document, the target and the payload themselves. */
module PatchOutcomes {
  import opened Wrappers
  import opened BlockTree
  import opened Patch
  import opened PatchLaws

  // ---- Lookups ----

  // The first block in pre-order with this ID stands at p.
  predicate FirstAt(doc: Forest, id: Id, p: Path) {
    Leads(doc, p) && At(doc, p).id == id && id !in Before(doc, p, 1)
  }

  // The target block's path, or why there is none.
  predicate Targets(doc: Forest, field: Field, r: Result<Path, PatchError>) {
    match field
    case Text(id) => if id in Ids(doc) then r.Ok? && FirstAt(doc, id, r.value) else r == Err(BlockNotFound)
    case _ => r == Err(MissingBlockId)
  }

  // Where a block is to be put: into the document, or into a block that has children.
  predicate Receives(doc: Forest, parent: Field, r: Result<Container, PatchError>) {
    match parent
    case Absent => r == Ok(None)
    case NotText => r == Err(BadParentId)
    case Text(id) =>
      if id == "" then r == Ok(None)
      else if id !in Ids(doc) then r == Err(ParentNotFound)
      else if r.Ok? then r.value.Some? && FirstAt(doc, id, r.value.value) && At(doc, r.value.value).children.Array?
      else
        && r == Err(ParentCannotHoldBlocks)
        && Find(doc, id).Some? && FirstAt(doc, id, Find(doc, id).value)
        && At(doc, Find(doc, id).value).children.NoArray?
  }

  predicate Indexes(index: IndexField, most: int, r: Result<nat, PatchError>) {
    match index
    case NotInteger => r == Err(BadIndex)
    case Integer(k) => if 0 <= k <= most then r == Ok(k) else r == Err(IndexOutOfRange)
  }

  // A node's position is its decimal number.
  ghost predicate Numbers(node: Field, length: nat, r: Result<nat, PatchError>) {
    if exists n: nat :: node == Text(DecimalText(n)) then
      forall n: nat :: node == Text(DecimalText(n)) ==> r == if n < length then Ok(n) else Err(IndexOutOfRange)
    else r == Err(BadNodeId)
  }

  lemma LookupsSay(doc: Forest, field: Field, index: IndexField, length: nat)
    ensures Targets(doc, field, RequireBlock(doc, field))
    ensures Receives(doc, field, FindContainer(doc, field))
    ensures Indexes(index, length, IntegerIndex(index, length, true))
    ensures Indexes(index, length - 1, IntegerIndex(index, length, false))
  {
    if field.Text? && field.text in Ids(doc) {
      FindIsFirst(doc, Find(doc, field.text).value, field.text);
    }
  }

  lemma {:induction false} CanonicalText(s: string)
    requires Canonical(s)
    ensures s == DecimalText(DecimalValue(s))
    decreases |s|
  {
    var last := s[|s| - 1];
    if |s| > 1 {
      CanonicalFront(s);
      CanonicalText(s[..|s| - 1]);
      assert s == s[..|s| - 1] + [last];
      assert DecimalValue(s) / 10 == DecimalValue(s[..|s| - 1]) && DecimalValue(s) % 10 == last as int - '0' as int;
    } else {
      assert s[..0] == "" && s == [last];
    }
  }

  lemma CanonicalFront(s: string)
    requires Canonical(s) && |s| > 1
    ensures Canonical(s[..|s| - 1]) && DecimalValue(s[..|s| - 1]) > 0
  {
    var front := s[..|s| - 1];
    assert front[0] == s[0] && s[0] != '0';
    FirstDigitCounts(front);
  }

  lemma {:induction false} FirstDigitCounts(s: string)
    requires s != "" && Digits(s) && s[0] != '0'
    ensures DecimalValue(s) > 0
  {
    if |s| > 1 {
      FirstDigitCounts(s[..|s| - 1]);
    } else {
      assert s[..0] == "";
    }
  }

  lemma NumbersSay(node: Field, length: nat)
    ensures Numbers(node, length, NodeIndex(node, length))
  {
    forall n: nat | node == Text(DecimalText(n))
      ensures NodeIndex(node, length) == if n < length then Ok(n) else Err(IndexOutOfRange)
    {
      PositionRoundTrip(n, length);
    }
    if node.Text? && Canonical(node.text) {
      CanonicalText(node.text);
    }
  }

  // ---- References ----

  predicate Present(field: Field) {
    field.Text? && field.text != ""
  }

  // The text that is shown for a reference when none is given is empty.
  function Shown(field: Field): string {
    if field.Text? then field.text else ""
  }

  // An optional text that counts only when it is not empty.
  function Given(field: Field): Option<string> {
    if Present(field) then Some(field.text) else None
  }

  // The node these fields ask for, or why there is none.
  predicate Builds(noun: Noun, retarget: bool, target: Target, payload: Payload, r: Result<Inline, PatchError>) {
    if payload.displayText.NotText? then r == Err(BadField)
    else
      var text := Shown(payload.displayText);
      match noun
      case Entity =>
        r == if Present(target.entityId) then Ok(EntityReference(target.entityId.text, text)) else Err(MissingField)
      case Claim =>
        r == if Present(target.claimId) then Ok(ClaimReference(target.claimId.text, text)) else Err(MissingField)
      case Citation =>
        if Present(target.citationId) then
          r == Ok(CitationReference(target.citationId.text, if payload.displayText.Text? then Some(text) else None))
        else r == Err(MissingField)
      case Link =>
        r == if Present(payload.url) then Ok(ExternalLink(payload.url.text, text)) else Err(MissingField)
      case Page => BuildsPage(retarget, payload, text, r)
  }

  // A page reference names a page; a new one may name what the page is to be called.
  predicate BuildsPage(retarget: bool, payload: Payload, text: string, r: Result<Inline, PatchError>) {
    if payload.pageId.NotText? then r == Err(BadField)
    else if Present(payload.pageId) then
      if payload.heading.NotText? then r == Err(BadField)
      else r == Ok(PageReference(payload.pageId.text, Given(payload.heading), text))
    else if retarget || !Present(payload.namespace) || !Present(payload.title) then r == Err(MissingField)
    else if payload.entityType.NotText? then r == Err(BadField)
    else r == Ok(UnresolvedReference(payload.namespace.text, payload.title.text, Given(payload.entityType)))
  }

  lemma ReferenceSays(noun: Noun, retarget: bool, target: Target, payload: Payload)
    ensures Builds(noun, retarget, target, payload, BuildReference(noun, retarget, target, payload))
  {
  }

  // The type of a node.
  predicate IsA(node: Inline, noun: Noun) {
    match noun
    case Page => node.PageReference? || node.UnresolvedReference?
    case Entity => node.EntityReference?
    case Claim => node.ClaimReference?
    case Citation => node.CitationReference?
    case Link => node.ExternalLink?
  }

  lemma TypeSays(node: Inline, noun: Noun)
    ensures NodeNoun(node) == Some(noun) <==> IsA(node, noun)
  {
  }

  // ---- The schema ----

  predicate TextKind(kind: Kind) {
    kind in {Heading(true), Heading(false), Paragraph, Todo, Toggle}
  }

  // Which children a block of this kind may have.
  predicate Nests(kind: Kind, children: Children) {
    && (kind in {Paragraph, Button, Heading(false)} || kind.OtherKind? ==> children.NoArray?)
    && (kind in {BulletList, OrderedList, Table, TableRow, ColumnList, ListItem, TableCell, Column, Quote, Callout}
        ==> children.Array?)
    && (kind in {BulletList, OrderedList} ==> forall b <- children.blocks :: b.kind == ListItem)
    && (kind == Table ==> forall b <- children.blocks :: b.kind == TableRow)
    && (kind == TableRow ==> forall b <- children.blocks :: b.kind == TableCell)
    && (kind == ColumnList ==> 2 <= |children.blocks| <= 5 && forall b <- children.blocks :: b.kind == Column)
  }

  predicate ActionFits(a: BlockTree.Action) {
    a.InsertBlocks? ==> a.pageId != "" && 1 <= |a.blocks| <= 20 && forall b <- a.blocks :: ValidBlock(b)
  }

  lemma {:induction false} ForestSays(bs: Forest)
    ensures ValidForest(bs) <==> forall b <- bs :: ValidBlock(b)
  {
    if bs != [] {
      ForestSays(bs[1..]);
      assert bs[0] in bs && forall b <- bs[1..] :: b in bs;
      assert forall b <- bs :: b == bs[0] || b in bs[1..];
    }
  }

  lemma {:induction false} ActionsSay(actions: seq<BlockTree.Action>)
    ensures ValidActions(actions) <==> forall a <- actions :: ActionFits(a)
  {
    if actions != [] {
      if actions[0].InsertBlocks? {
        ForestSays(actions[0].blocks);
      }
      ActionsSay(actions[1..]);
      assert actions[0] in actions && forall a <- actions[1..] :: a in actions;
      assert forall a <- actions :: a == actions[0] || a in actions[1..];
    }
  }

  /** A block fits the schema when it has an ID, the content and the children its kind calls for, children that
      fit themselves, and actions exactly when it is a button. */
  lemma SchemaSays(b: Block)
    ensures ValidBlock(b) <==>
      && b.id != ""
      && (if TextKind(b.kind) then b.content.Inlines? else b.content.Plain?)
      && Nests(b.kind, b.children)
      && (b.children.Array? ==> forall c <- b.children.blocks :: ValidBlock(c))
      && (if b.kind == Button then 1 <= |b.actions| <= 10 && forall a <- b.actions :: ActionFits(a)
          else b.actions == [])
  {
    if b.children.Array? {
      ForestSays(b.children.blocks);
    }
    ActionsSay(b.actions);
    NestsSay(b.kind, b.children);
  }

  lemma NestsSay(kind: Kind, children: Children)
    ensures ChildrenFit(kind, children) <==> Nests(kind, children)
  {
    if children.Array? {
      KindsSay(children.blocks, ListItem);
      KindsSay(children.blocks, TableRow);
      KindsSay(children.blocks, TableCell);
      KindsSay(children.blocks, Column);
    }
  }

  lemma KindsSay(bs: Forest, kind: Kind)
    ensures AllOfKind(bs, kind) <==> forall b <- bs :: b.kind == kind
  {
    forall i | 0 <= i < |bs| && bs[i].kind != kind ensures exists b <- bs :: b.kind != kind {
      assert bs[i] in bs;
    }
  }

  // ---- Operations ----

  predicate Replaces(doc: Forest, op: Operation, t: Result<Path, PatchError>, r: Result<Forest, PatchError>) {
    && Targets(doc, op.target.blockId, t)
    && r == if t.Err? then Err(t.error)
            else if op.payload.block.Malformed? || !ValidBlock(op.payload.block.block) then Err(InvalidBlock)
            else Ok(Splice(doc, t.value, 1, [op.payload.block.block]))
  }

  predicate Deletes(doc: Forest, op: Operation, t: Result<Path, PatchError>, r: Result<Forest, PatchError>) {
    && Targets(doc, op.target.blockId, t)
    && r == if t.Err? then Err(t.error) else Ok(Splice(doc, t.value, 1, []))
  }

  /** Replacing and deleting work on the first block with the target's ID. */
  lemma ReplaceAndDeleteSay(doc: Forest, op: Operation)
    ensures op.action.ReplaceBlock? ==> exists t :: Replaces(doc, op, t, Apply(doc, op))
    ensures op.action.DeleteBlock? ==> exists t :: Deletes(doc, op, t, Apply(doc, op))
  {
    var t := RequireBlock(doc, op.target.blockId);
    LookupsSay(doc, op.target.blockId, NotInteger, 0);
    if op.action.ReplaceBlock? {
      assert Replaces(doc, op, t, Apply(doc, op));
    } else if op.action.DeleteBlock? {
      assert Deletes(doc, op, t, Apply(doc, op));
    }
  }

  // Putting a block into a container of a document.
  predicate PutsAt(doc: Forest, parent: Field, index: IndexField, b: Result<Block, PatchError>,
      c: Result<Container, PatchError>, k: Result<nat, PatchError>, r: Result<Forest, PatchError>)
  {
    && Receives(doc, parent, c)
    && if c.Err? then r == Err(c.error)
       else
         && Indexes(index, if c.value.Some? then |Kids(At(doc, c.value.value))| else |doc|, k)
         && if k.Err? then r == Err(k.error)
            else if b.Err? then r == Err(b.error)
            else
              var p: Path := if c.value.Some? then c.value.value + [k.value] else [k.value];
              Slot(doc, p, 0) && r == Ok(Splice(doc, p, 0, [b.value]))
  }

  ghost predicate Puts(doc: Forest, parent: Field, index: IndexField, b: Result<Block, PatchError>,
      r: Result<Forest, PatchError>)
  {
    exists c, k :: PutsAt(doc, parent, index, b, c, k, r)
  }

  // A payload's block, which must fit the schema.
  function Parsed(block: BlockField): Result<Block, PatchError> {
    if block.Tree? && ValidBlock(block.block) then Ok(block.block) else Err(InvalidBlock)
  }

  lemma PutSays(doc: Forest, parent: Field, index: IndexField, block: BlockField, b: Block)
    ensures var c := FindContainer(doc, parent);
      && Puts(doc, parent, index, Parsed(block), if c.Err? then Err(c.error) else PutInto(doc, c.value, index, block))
      && Puts(doc, parent, index, Ok(b), if c.Err? then Err(c.error) else MoveInto(doc, c.value, index, b))
  {
    var c := FindContainer(doc, parent);
    var length := if c.Ok? then |ChildrenOf(doc, c.value)| else 0;
    var k := IntegerIndex(index, length, true);
    LookupsSay(doc, parent, index, length);
    if c.Ok? && k.Ok? {
      PositionIsSlot(doc, c.value, k.value, 0);
    }
    assert PutsAt(doc, parent, index, Parsed(block), c, k,
      if c.Err? then Err(c.error) else PutInto(doc, c.value, index, block));
    assert PutsAt(doc, parent, index, Ok(b), c, k,
      if c.Err? then Err(c.error) else MoveInto(doc, c.value, index, b));
  }

  // Moving takes the target out first and puts it into what is left.
  ghost predicate Moves(doc: Forest, op: Operation, t: Result<Path, PatchError>, r: Result<Forest, PatchError>) {
    && Targets(doc, op.target.blockId, t)
    && if t.Err? then r == Err(t.error)
       else Puts(Splice(doc, t.value, 1, []), op.payload.parent, op.payload.index, Ok(At(doc, t.value)), r)
  }

  /** Inserting puts the payload's block into the document; moving puts the target elsewhere. */
  lemma InsertAndMoveSay(doc: Forest, op: Operation)
    ensures op.action.InsertBlock? ==>
      Puts(doc, op.payload.parent, op.payload.index, Parsed(op.payload.block), Apply(doc, op))
    ensures op.action.MoveBlock? ==> exists t :: Moves(doc, op, t, Apply(doc, op))
  {
    var parent, index, block := op.payload.parent, op.payload.index, op.payload.block;
    if op.action.InsertBlock? {
      PutSays(doc, parent, index, block, Block("", Paragraph, Plain, NoArray, []));
    } else if op.action.MoveBlock? {
      var t := RequireBlock(doc, op.target.blockId);
      LookupsSay(doc, op.target.blockId, NotInteger, 0);
      if t.Ok? {
        PutSays(Splice(doc, t.value, 1, []), parent, index, block, At(doc, t.value));
      }
      assert Moves(doc, op, t, Apply(doc, op));
    }
  }

  // The content of the target block, which must be one that holds inline nodes.
  predicate ContentOf(doc: Forest, field: Field, t: Result<Path, PatchError>, r: Result<seq<Inline>, PatchError>) {
    && Targets(doc, field, t)
    && if t.Err? then r == Err(t.error)
       else
         var b := At(doc, t.value);
         if TextKind(b.kind) && b.content.Inlines? then r == Ok(b.content.nodes) else r == Err(NoInlineContent)
  }

  lemma ContentSays(doc: Forest, field: Field)
    ensures var at := RequireInlineContent(doc, field);
      ContentOf(doc, field, RequireBlock(doc, field), if at.Ok? then Ok(at.value.1) else Err(at.error))
    ensures RequireInlineContent(doc, field).Ok? ==>
      RequireBlock(doc, field) == Ok(RequireInlineContent(doc, field).value.0)
  {
    LookupsSay(doc, field, NotInteger, 0);
  }

  // The document with this content at the target.
  function WithContent(doc: Forest, p: Path, nodes: seq<Inline>): Forest
    requires Leads(doc, p)
  {
    Splice(doc, p, 1, [At(doc, p).(content := Inlines(nodes))])
  }

  // Inserting a reference, in terms of the target's content, the position and the node asked for.
  predicate InsertsReference(doc: Forest, op: Operation, t: Result<Path, PatchError>,
      nodes: Result<seq<Inline>, PatchError>, i: Result<nat, PatchError>, node: Result<Inline, PatchError>,
      r: Result<Forest, PatchError>)
  {
    && ContentOf(doc, op.target.blockId, t, nodes)
    && if nodes.Err? then r == Err(nodes.error)
       else
         && Indexes(op.payload.index, |nodes.value|, i)
         && if i.Err? then r == Err(i.error)
            else
              && op.action.InsertReference?
              && Builds(op.action.noun, false, op.target, op.payload, node)
              && r == if node.Err? then Err(node.error)
                      else Ok(WithContent(doc, t.value, nodes.value[..i.value] + [node.value] + nodes.value[i.value..]))
  }

  /** An inserted reference stands at its index in the target's content. Links cannot be inserted. */
  lemma InsertReferenceSays(doc: Forest, op: Operation)
    requires op.action.InsertReference?
    ensures op.action.noun == Link ==> Apply(doc, op) == Err(UnsupportedOperation)
    ensures op.action.noun != Link ==>
      exists t, nodes, i, node :: InsertsReference(doc, op, t, nodes, i, node, Apply(doc, op))
  {
    var at, t := RequireInlineContent(doc, op.target.blockId), RequireBlock(doc, op.target.blockId);
    var nodes: Result<seq<Inline>, PatchError> := if at.Ok? then Ok(at.value.1) else Err(at.error);
    ContentSays(doc, op.target.blockId);
    if at.Ok? {
      LookupsSay(doc, op.target.blockId, op.payload.index, |at.value.1|);
    }
    var i := IntegerIndex(op.payload.index, if at.Ok? then |at.value.1| else 0, true);
    var node := BuildReference(op.action.noun, false, op.target, op.payload);
    ReferenceSays(op.action.noun, false, op.target, op.payload);
    if op.action.noun != Link {
      assert InsertsReference(doc, op, t, nodes, i, node, Apply(doc, op));
    }
  }

  ghost predicate Retargets(doc: Forest, op: Operation, t: Result<Path, PatchError>,
      nodes: Result<seq<Inline>, PatchError>, i: Result<nat, PatchError>, node: Result<Inline, PatchError>,
      r: Result<Forest, PatchError>)
  {
    && ContentOf(doc, op.target.blockId, t, nodes)
    && if nodes.Err? then r == Err(nodes.error)
       else
         && Numbers(op.target.nodeId, |nodes.value|, i)
         && if i.Err? then r == Err(i.error)
            else
              && op.action.Retarget? && i.value < |nodes.value|
              && if !IsA(nodes.value[i.value], op.action.noun) then r == Err(WrongNodeType)
                 else
                   && Builds(op.action.noun, true, op.target, op.payload, node)
                   && r == if node.Err? then Err(node.error)
                           else Ok(WithContent(doc, t.value, nodes.value[i.value := node.value]))
  }

  /** A retargeted reference takes the place of a node of its own type. */
  lemma RetargetSays(doc: Forest, op: Operation)
    requires op.action.Retarget?
    ensures exists t, nodes, i, node :: Retargets(doc, op, t, nodes, i, node, Apply(doc, op))
  {
    var at, t := RequireInlineContent(doc, op.target.blockId), RequireBlock(doc, op.target.blockId);
    var nodes: Result<seq<Inline>, PatchError> := if at.Ok? then Ok(at.value.1) else Err(at.error);
    ContentSays(doc, op.target.blockId);
    var length := if at.Ok? then |at.value.1| else 0;
    var i := NodeIndex(op.target.nodeId, length);
    NumbersSay(op.target.nodeId, length);
    var node := BuildReference(op.action.noun, true, op.target, op.payload);
    ReferenceSays(op.action.noun, true, op.target, op.payload);
    if at.Ok? && i.Ok? {
      TypeSays(at.value.1[i.value], op.action.noun);
    }
    assert Retargets(doc, op, t, nodes, i, node, Apply(doc, op));
  }

  lemma UnsupportedSays(doc: Forest, op: Operation)
    requires op.action.Unsupported?
    ensures Apply(doc, op) == Err(UnsupportedOperation)
  {
  }

  /** A whole proposal runs its records in the order of their numbers and stops at the first error; what comes
      out must fit the schema. */
  lemma ProposalSays(doc: Forest, records: seq<Record>, conflicts: seq<Conflict>)
    ensures ApplyAll(doc, [], conflicts) == Ok(doc)
    ensures ApplyRecords(doc, records, conflicts) ==
      match ApplyAll(doc, Sorted(records), conflicts)
      case Err(error) => Err(error)
      case Ok(result) => if forall b <- result :: ValidBlock(b) then Ok(result) else Err(InvalidDocument)
  {
    var result := ApplyAll(doc, Sorted(records), conflicts);
    if result.Ok? {
      ForestSays(result.value);
    }
  }

  lemma RecordsSay(doc: Forest, records: seq<Record>, record: Record, conflicts: seq<Conflict>)
    ensures ApplyAll(doc, records + [record], conflicts) ==
      match ApplyAll(doc, records, conflicts)
      case Err(error) => Err(error)
      case Ok(before) => if Overruled(record, conflicts) then Ok(before) else Apply(before, record.operation)
  {
    assert (records + [record])[..|records|] == records;
    if ApplyAll(doc, records, conflicts).Ok? {
      OverruledExactly(ApplyAll(doc, records, conflicts).value, record, conflicts);
    }
  }
}
