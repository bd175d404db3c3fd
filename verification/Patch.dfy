/** The proposal patch engine: block and reference operations addressed by ID, on tree values. */
module Patch {
  import opened Wrappers
  import opened BlockTree

  // ---- Wire operations ----

  // An untyped string field: missing or null, a string, or some other JSON value.
  datatype Field = Absent | Text(text: string) | NotText

  datatype IndexField = NotInteger | Integer(value: int)

  datatype BlockField = Malformed | Tree(block: Block)

  datatype Noun = Page | Entity | Claim | Citation | Link

  datatype Action =
    | ReplaceBlock | DeleteBlock | InsertBlock | MoveBlock
    | InsertReference(noun: Noun)
    | Retarget(noun: Noun)
    | Unsupported

  datatype Target = Target(blockId: Field, nodeId: Field, entityId: Field, claimId: Field, citationId: Field)

  datatype Payload = Payload(
    block: BlockField, parent: Field, index: IndexField, displayText: Field,
    pageId: Field, heading: Field, namespace: Field, title: Field, entityType: Field, url: Field)

  datatype Operation = Operation(action: Action, target: Target, payload: Payload)

  datatype Record = Record(sequence: int, operation: Operation)

  datatype PatchError =
    | MissingBlockId | BlockNotFound
    | BadParentId | ParentNotFound | ParentCannotHoldBlocks
    | BadIndex | IndexOutOfRange | BadNodeId
    | InvalidBlock | InvalidDocument
    | NoInlineContent | WrongNodeType
    | MissingField | BadField
    | UnsupportedOperation

  // ---- The document schema ----

  predicate HoldsInline(kind: Kind) {
    kind.Heading? || kind.Paragraph? || kind.Todo? || kind.Toggle?
  }

  predicate AllOfKind(bs: Forest, kind: Kind) {
    forall i | 0 <= i < |bs| :: bs[i].kind == kind
  }

  predicate ChildrenFit(kind: Kind, children: Children) {
    match kind
    case Heading(toggleable) => children.Array? ==> toggleable
    case Todo => true
    case Toggle => true
    case Paragraph => children.NoArray?
    case Button => children.NoArray?
    case OtherKind(_) => children.NoArray?
    case BulletList => children.Array? && AllOfKind(children.blocks, ListItem)
    case OrderedList => children.Array? && AllOfKind(children.blocks, ListItem)
    case Table => children.Array? && AllOfKind(children.blocks, TableRow)
    case TableRow => children.Array? && AllOfKind(children.blocks, TableCell)
    case ColumnList => children.Array? && AllOfKind(children.blocks, Column) && 2 <= |children.blocks| <= 5
    case ListItem => children.Array?
    case TableCell => children.Array?
    case Column => children.Array?
    case Quote => children.Array?
    case Callout => children.Array?
  }

  predicate ValidBlock(b: Block) {
    && b.id != ""
    && (if HoldsInline(b.kind) then b.content.Inlines? else b.content.Plain?)
    && ChildrenFit(b.kind, b.children)
    && (b.children.Array? ==> ValidForest(b.children.blocks))
    && (if b.kind.Button? then 1 <= |b.actions| <= 10 && ValidActions(b.actions) else b.actions == [])
  }

  predicate ValidForest(bs: Forest) {
    bs == [] || (ValidBlock(bs[0]) && ValidForest(bs[1..]))
  }

  predicate ValidActions(actions: seq<BlockTree.Action>) {
    actions == [] || (
      && (actions[0].InsertBlocks? ==>
            actions[0].pageId != "" && 1 <= |actions[0].blocks| <= 20 && ValidForest(actions[0].blocks))
      && ValidActions(actions[1..]))
  }

  // ---- Looking things up ----

  function RequireBlock(doc: Forest, id: Field): (r: Result<Path, PatchError>)
    ensures r.Ok? ==> id.Text? && Leads(doc, r.value) && At(doc, r.value).id == id.text
  {
    if !id.Text? then Err(MissingBlockId)
    else
      match Find(doc, id.text)
      case Some(p) => Ok(p)
      case None => Err(BlockNotFound)
  }

  // Where blocks can be put: the document itself (None) or a block with a children array.
  type Container = Option<Path>

  predicate Holds(doc: Forest, c: Container) {
    c.Some? ==> Leads(doc, c.value) && At(doc, c.value).children.Array?
  }

  function ChildrenOf(doc: Forest, c: Container): Forest
    requires Holds(doc, c)
  {
    if c.Some? then At(doc, c.value).children.blocks else doc
  }

  function Position(c: Container, k: nat): Path {
    if c.Some? then c.value + [k] else [k]
  }

  function FindContainer(doc: Forest, parent: Field): (r: Result<Container, PatchError>)
    ensures r.Ok? ==> Holds(doc, r.value)
  {
    match parent
    case Absent => Ok(None)
    case NotText => Err(BadParentId)
    case Text(id) =>
      if id == "" then Ok(None)
      else
        match Find(doc, id)
        case None => Err(ParentNotFound)
        case Some(p) => if At(doc, p).children.Array? then Ok(Some(p)) else Err(ParentCannotHoldBlocks)
  }

  function IntegerIndex(index: IndexField, length: nat, allowEnd: bool): (r: Result<nat, PatchError>)
    ensures r.Ok? <==> index.Integer? && 0 <= index.value && index.value < (if allowEnd then length + 1 else length)
    ensures r.Ok? ==> r.value == index.value
  {
    if index.NotInteger? then Err(BadIndex)
    else
      var maximum := if allowEnd then length else length - 1;
      if index.value < 0 || index.value > maximum then Err(IndexOutOfRange) else Ok(index.value)
  }

  predicate Digits(s: string) {
    forall i | 0 <= i < |s| :: '0' <= s[i] <= '9'
  }

  predicate Canonical(s: string) {
    s == "0" || (s != "" && Digits(s) && s[0] != '0')
  }

  function DecimalValue(s: string): nat
    requires Digits(s)
  {
    if s == "" then 0 else 10 * DecimalValue(s[..|s| - 1]) + (s[|s| - 1] as int - '0' as int)
  }

  function NodeIndex(node: Field, length: nat): (r: Result<nat, PatchError>)
    ensures r.Ok? ==> r.value < length
  {
    if node.Text? && Canonical(node.text) then IntegerIndex(Integer(DecimalValue(node.text)), length, false)
    else Err(BadNodeId)
  }

  function RequireInlineContent(doc: Forest, id: Field): (r: Result<(Path, seq<Inline>), PatchError>)
    ensures r.Ok? ==>
      Leads(doc, r.value.0) && At(doc, r.value.0).content == Inlines(r.value.1) && HoldsInline(At(doc, r.value.0).kind)
  {
    var p :- RequireBlock(doc, id);
    var b := At(doc, p);
    if HoldsInline(b.kind) && b.content.Inlines? then Ok((p, b.content.nodes)) else Err(NoInlineContent)
  }

  // ---- Building references ----

  function OptionalString(field: Field): Result<Option<string>, PatchError> {
    match field
    case Absent => Ok(None)
    case Text(text) => Ok(Some(text))
    case NotText => Err(BadField)
  }

  function RequiredString(field: Field): Result<string, PatchError> {
    if field.Text? && field.text != "" then Ok(field.text) else Err(MissingField)
  }

  // A string that is there and not empty.
  function Truthy(s: Option<string>): Option<string> {
    if s.Some? && s.value != "" then s else None
  }

  function BuildPageReference(retarget: bool, payload: Payload, display: Option<string>): Result<Inline, PatchError> {
    var page :- OptionalString(payload.pageId);
    if Truthy(page).Some? then
      var heading :- OptionalString(payload.heading);
      Ok(PageReference(page.value, Truthy(heading), display.GetOr("")))
    else if retarget then Err(MissingField)
    else
      var namespace :- RequiredString(payload.namespace);
      var title :- RequiredString(payload.title);
      var entityType :- OptionalString(payload.entityType);
      Ok(UnresolvedReference(namespace, title, Truthy(entityType)))
  }

  function BuildReference(
    noun: Noun, retarget: bool, target: Target, payload: Payload): (r: Result<Inline, PatchError>)
    ensures r.Ok? ==> NodeNoun(r.value) == Some(noun)
    ensures r.Ok? && retarget ==> !r.value.UnresolvedReference?
  {
    var display :- OptionalString(payload.displayText);
    match noun
    case Page => BuildPageReference(retarget, payload, display)
    case Entity =>
      var id :- RequiredString(target.entityId);
      Ok(EntityReference(id, display.GetOr("")))
    case Claim =>
      var id :- RequiredString(target.claimId);
      Ok(ClaimReference(id, display.GetOr("")))
    case Citation =>
      var id :- RequiredString(target.citationId);
      Ok(CitationReference(id, display))
    case Link =>
      var url :- RequiredString(payload.url);
      Ok(ExternalLink(url, display.GetOr("")))
  }

  // The kind of reference a node's type field names; a page reference may be resolved or not.
  function NodeNoun(node: Inline): Option<Noun> {
    match node
    case PageReference(_, _, _) => Some(Page)
    case UnresolvedReference(_, _, _) => Some(Page)
    case EntityReference(_, _) => Some(Entity)
    case ClaimReference(_, _) => Some(Claim)
    case CitationReference(_, _) => Some(Citation)
    case ExternalLink(_, _) => Some(Link)
    case TextNode(_) => None
    case OtherInline(_) => None
  }

  // ---- Operations ----

  function ParseBlock(field: BlockField): (r: Result<Block, PatchError>)
    ensures r.Ok? <==> field.Tree? && ValidBlock(field.block)
    ensures r.Ok? ==> r.value == field.block
  {
    if field.Tree? && ValidBlock(field.block) then Ok(field.block) else Err(InvalidBlock)
  }

  lemma {:induction false} BelowBlock(doc: Forest, p: Path, k: nat, del: nat)
    requires Leads(doc, p) && At(doc, p).children.Array? && k + del <= |At(doc, p).children.blocks|
    ensures Slot(doc, p + [k], del)
    decreases |p|
  {
    assert (p + [k])[1..] == p[1..] + [k];
    if |p| > 1 {
      BelowBlock(doc[p[0]].children.blocks, p[1..], k, del);
    }
  }

  lemma PositionIsSlot(doc: Forest, c: Container, k: nat, del: nat)
    requires Holds(doc, c) && k + del <= |ChildrenOf(doc, c)|
    ensures Slot(doc, Position(c, k), del)
  {
    if c.Some? {
      BelowBlock(doc, c.value, k, del);
    }
  }

  function PutInto(doc: Forest, c: Container, index: IndexField, block: BlockField): Result<Forest, PatchError>
    requires Holds(doc, c)
  {
    var k :- IntegerIndex(index, |ChildrenOf(doc, c)|, true);
    var b :- ParseBlock(block);
    PositionIsSlot(doc, c, k, 0);
    Ok(Splice(doc, Position(c, k), 0, [b]))
  }

  function MoveInto(doc: Forest, c: Container, index: IndexField, b: Block): Result<Forest, PatchError>
    requires Holds(doc, c)
  {
    var k :- IntegerIndex(index, |ChildrenOf(doc, c)|, true);
    PositionIsSlot(doc, c, k, 0);
    Ok(Splice(doc, Position(c, k), 0, [b]))
  }

  function SetContent(doc: Forest, p: Path, nodes: seq<Inline>): Forest
    requires Leads(doc, p)
  {
    Splice(doc, p, 1, [At(doc, p).(content := Inlines(nodes))])
  }

  function Apply(doc: Forest, op: Operation): Result<Forest, PatchError> {
    match op.action
    case ReplaceBlock =>
      var p :- RequireBlock(doc, op.target.blockId);
      var b :- ParseBlock(op.payload.block);
      Ok(Splice(doc, p, 1, [b]))
    case DeleteBlock =>
      var p :- RequireBlock(doc, op.target.blockId);
      Ok(Splice(doc, p, 1, []))
    case InsertBlock =>
      var c :- FindContainer(doc, op.payload.parent);
      PutInto(doc, c, op.payload.index, op.payload.block)
    case MoveBlock =>
      var p :- RequireBlock(doc, op.target.blockId);
      var rest := Splice(doc, p, 1, []);
      var c :- FindContainer(rest, op.payload.parent);
      MoveInto(rest, c, op.payload.index, At(doc, p))
    case InsertReference(noun) =>
      if noun.Link? then Err(UnsupportedOperation)
      else
        var at :- RequireInlineContent(doc, op.target.blockId);
        var i :- IntegerIndex(op.payload.index, |at.1|, true);
        var node :- BuildReference(noun, false, op.target, op.payload);
        Ok(SetContent(doc, at.0, at.1[..i] + [node] + at.1[i..]))
    case Retarget(noun) =>
      var at :- RequireInlineContent(doc, op.target.blockId);
      var i :- NodeIndex(op.target.nodeId, |at.1|);
      if NodeNoun(at.1[i]) != Some(noun) then Err(WrongNodeType)
      else
        var node :- BuildReference(noun, true, op.target, op.payload);
        Ok(SetContent(doc, at.0, at.1[i := node]))
    case Unsupported => Err(UnsupportedOperation)
  }

  // ---- Conflict choices and whole runs ----

  datatype Choice = ChooseCurrent | Dismiss | OtherChoice(text: string)

  datatype Conflict = Conflict(blockId: Option<Id>, open: bool, choice: Option<Choice>)

  // An empty choice counts as none.
  predicate Decides(conflict: Conflict, id: Id) {
    !conflict.open && conflict.blockId == Some(id) && id != "" && Chosen(conflict)
  }

  predicate Chosen(conflict: Conflict) {
    conflict.choice.Some? && conflict.choice.value != OtherChoice("")
  }

  // The choice of the last decided conflict about this block.
  function LastChoice(conflicts: seq<Conflict>, id: Id): Option<Choice> {
    if conflicts == [] then None
    else
      var last := conflicts[|conflicts| - 1];
      if Decides(last, id) then last.choice else LastChoice(conflicts[..|conflicts| - 1], id)
  }

  predicate Skipped(record: Record, conflicts: seq<Conflict>) {
    var id := record.operation.target.blockId;
    id.Text? && id.text != "" &&
    var choice := LastChoice(conflicts, id.text);
    choice == Some(ChooseCurrent) || choice == Some(Dismiss)
  }

  function ApplyRecord(doc: Forest, record: Record, conflicts: seq<Conflict>): Result<Forest, PatchError> {
    if Skipped(record, conflicts) then Ok(doc) else Apply(doc, record.operation)
  }

  function ApplyAll(doc: Forest, records: seq<Record>, conflicts: seq<Conflict>): Result<Forest, PatchError> {
    if records == [] then Ok(doc)
    else
      var before :- ApplyAll(doc, records[..|records| - 1], conflicts);
      ApplyRecord(before, records[|records| - 1], conflicts)
  }

  // A stable sort: each record goes behind all earlier records with the same or a smaller number.
  function Insert(sorted: seq<Record>, r: Record): seq<Record> {
    if sorted == [] || sorted[|sorted| - 1].sequence <= r.sequence then sorted + [r]
    else Insert(sorted[..|sorted| - 1], r) + [sorted[|sorted| - 1]]
  }

  function Sorted(records: seq<Record>): seq<Record> {
    if records == [] then [] else Insert(Sorted(records[..|records| - 1]), records[|records| - 1])
  }

  function ApplyRecords(doc: Forest, records: seq<Record>, conflicts: seq<Conflict>): Result<Forest, PatchError> {
    var result :- ApplyAll(doc, Sorted(records), conflicts);
    if ValidForest(result) then Ok(result) else Err(InvalidDocument)
  }

  // The choices map as the client fills it, conflict by conflict.
  method ConflictChoices(conflicts: seq<Conflict>) returns (choices: map<Id, Choice>)
    ensures forall id :: (id in choices <==> LastChoice(conflicts, id).Some?)
    ensures forall id <- choices :: LastChoice(conflicts, id) == Some(choices[id])
  {
    choices := map[];
    for n := 0 to |conflicts|
      invariant forall id :: (id in choices <==> LastChoice(conflicts[..n], id).Some?)
      invariant forall id <- choices :: LastChoice(conflicts[..n], id) == Some(choices[id])
    {
      assert conflicts[..n + 1][..n] == conflicts[..n];
      var conflict := conflicts[n];
      if conflict.blockId.Some? && conflict.blockId.value != "" && !conflict.open {
        if Chosen(conflict) {
          choices := choices[conflict.blockId.value := conflict.choice.value];
        }
      }
    }
    assert conflicts[..|conflicts|] == conflicts;
  }
}
