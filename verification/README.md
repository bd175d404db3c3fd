# Anby Wiki: a verified model of its protocols and document engine

Anby Wiki is a wiki whose services meet at a few places where a mistake loses data or money: an AI kernel that
reports every physical model call to a Go gateway, a collaboration server that must deliver every durable edit, a
block-tree patch engine, a shared upload volume, prompt activation by many workers, and an editor that keeps local
drafts. This project states what those places promise and proves it, for all inputs, all interleavings and all
reachable states.

Code that changes things step by step is modelled with methods, loops and classes and proved against a specification
function; the main results are lemmas about those functions and about the reachable states of the protocols.

## How the model is laid out

- **AI kernel receipts** (`Receipts`, `KernelStream`, `KernelReader`, `KernelProducer`, `KernelAudit`, `KernelOutcomes`,
  `Gateway`, `GatewaySlots`, `GatewayAudit`, `GatewayRecords`). The producer emits receipt events around each physical call; the reader validates the stream with a
  state machine; the gateway turns what survives into usage rows. They are proved to compose, for whole streams and
  for every cut. Assumed: fresh UUIDs are distinct and not nil, provider and model are not empty, a schema-valid document
  is not empty text, token counts reported by the provider are not negative, `max_attempts` is 1 to 5. The context, the provider, ID generation and the usage table are inputs.
- **Collaboration** (`WorkingDocument`, `CollaborationConnection`, `CollaborationRuns`). Storage with snapshots and
  compaction, one connection's select loop, and the whole system of browsers, connections and a hub that may lose, repeat
  and reorder. A document's CRDT state is the set of payloads merged into it. The storage service and the browser client
  are in the repository and are modelled, so `LoadSince` is proved rather than assumed. Assumed: a snapshot contains the
  updates it claims. Browsers send their own document and cursor, for which this is proved; other programs that send
  snapshots (`ClaimSnapshot`) are taken to be truthful, because the service checks nothing.
- **Block trees** (`BlockTree`, `Patch`, `PatchOutcomes`, `PatchLaws`, `PatchOrder`, `BlockHeap`, `PatchEngine`,
  `AstWalk`, `ButtonClone`). `Patch` gives the operations on tree values; `PatchEngine` runs them in place on objects that point at
  each other and is proved to do the same, leaving the given document alone. Schema parsing is the identity on blocks
  that `Patch.ValidBlock` accepts.
- **Upload directories** (`UploadTemp`, `UploadProgress`). Any number of processes, one system call at a time, with failing calls and
  crashes at every point. File locks are held per open file and dropped by the kernel on a crash. Assumed: MkdirTemp
  never returns a name it has returned before.
- **Prompts** (`PromptRegistry`, `PromptActivation`, `PromptProgress`). The table and one undisturbed `EnsureActive`; then any number of
  calls interleaved statement by statement under row locks, as read-committed PostgreSQL runs them. A transaction's last
  statement and its commit are one step.
- **Editor session** (`EditorSession`, `EditorRuns`). The store with its drafts in local storage, and every sequence of
  its actions; writing to storage may fail at any of them.
- **Text formats** (`GoText`, `CliOptions`, `Dotenv`, `DotenvForms`). The command line's option loops and the deployment dotenv file.
  JSON decoding and reading a file are inputs.

`Sequences` and `Wrappers` hold what several modules share.

Loops and classes are proved against specification functions. What those functions say is then stated once more without
them, of the inputs and outputs themselves: `KernelReader` for a stream's events, `KernelOutcomes` for what a provider
call can do, `GatewayRecords` for calls, rows and errors, `PatchOutcomes` for operations, `DotenvForms` for lines, and
the lemmas whose names end in `Says` or `Say` elsewhere.

## What turned out differently from what one would expect

- The loop over an operation's arguments does not always end. A flag that names a parameter of an operation with a
  request body, and that has no value, makes it start over at the first argument, because the missing value's error is
  overlooked together with the index to go on from (backend/cmd/anby-wiki/human.go:737-753).
  `CliOptions.LoopEndsExactly` gives the exact condition and `CliOptions.OneFlagStalls` an input.
- `EnsureActive` may return a version below the requested one: a statement that waited for a row lock looks again at
  that row only (`PromptActivation.RaceReturnsLower`). It happens only when `ActivatePromptIfNone` changes no row because
  a lower version is active, a result the caller ignores (`PromptActivation.CommitReaches`).
- `EnsureActive` with a key that has surrounding blanks registers the trimmed key and then fails
  (`PromptRegistry.Repository.EnsureActive`, `PromptRegistry.PaddedKeyFails`).
- Resubmitting an update is idempotent only until its row is compacted away
  (`WorkingDocument.ResubmissionIdempotent`); `WorkingDocument.CompactedThenResubmitted` is a run where it is not.
- The service stores any state under any sequence up to the latest. The log survives exactly when the state contains what
  the snapshot claims (`WorkingDocument.SnapshotKeeps`); otherwise readers behind it are never told of the missing
  updates, compacted or not (`WorkingDocument.UntruthfulSnapshotHides`, and `WorkingDocument.LostToAnEmptySnapshot` for an
  input).
- An updated dotenv file loads as the old values overridden exactly when every new value holds no NUL and no line
  separator (`Dotenv.FileUpdateLoads`). `encode` accepts NUL and separators other than CR and LF
  (`Dotenv.AcceptedButNotPlain`); the file then fails to load.
- A usage row is written for every physical attempt exactly when no needed ID fails to generate
  (`GatewayAudit.OneRowPerAttempt`).

## Model

| member | source | states |
|---|---|---|
| KernelStream.StartsAreDistinct | backend/internal/ai/semantic_kernel.go:211-234 | an accepted receipt log starts no attempt ID twice and starts at most five |
| KernelStream.LedgerGrows | backend/internal/ai/semantic_kernel.go:211-245 | an accepted start appends its attempt to the result; an accepted finish overwrites the entry of the same ID and no other |
| KernelStream.AdmitReceipt | backend/internal/ai/semantic_kernel.go:211-245 | the loop body accepts a receipt exactly when it may legally follow the log so far, and then keeps attempts and finished IDs in step with the log |
| KernelStream.CloseStream | backend/internal/ai/semantic_kernel.go:246-280 | a result event is a success only after all receipts finished, with a valid body; tokens are the sums over the attempts; every other ending is classified |
| KernelStream.ReadKernelStream | backend/internal/ai/semantic_kernel.go:200-288 | the whole reader returns the attempts and the error that the receipts up to the first illegal event or the result determine |
| KernelReader.LegalExactly | backend/internal/ai/semantic_kernel.go:216-245 | a receipt is taken exactly when its figures are presentable and it starts a new attempt, one of at most five, or is the only end of an attempt started by the same provider and model |
| KernelReader.ReaderSays | backend/internal/ai/semantic_kernel.go:195-286 | for any stream: receipts are taken up to the first event that is not a legal one, one attempt is listed per start, and the error, cause and result are those that event or the broken connection calls for |
| KernelReader.ClassifyFits | backend/internal/ai/semantic_kernel.go:264-269 | the cause is a timeout for the code timeout, bad output for the three output codes, and the provider otherwise |
| KernelProducer.Receipt.Settle | services/ai-kernel/app.py:355-470 | the receipt is updated in place to the status, error code and usage its outcome calls for, an exception that no handler catches included |
| KernelProducer.Attempted | services/ai-kernel/app.py:356-467 | one attempt emits its placeholder before the call and its settled receipt after it |
| KernelProducer.AttemptLoop | services/ai-kernel/app.py:355-470 | the retry loop makes exactly the calls up to the first that ends it, emits a start and a finish for each, and leaves by that call's exit |
| KernelProducer.GenerateResult | services/ai-kernel/app.py:294-472 | with a bad schema or image no call is made and no receipt emitted; otherwise the loop's events and exit are the outcome |
| KernelOutcomes.ReceiptSays | services/ai-kernel/app.py:355-470 | a finished receipt has the status and code its outcome calls for, and the counts the provider gave |
| KernelOutcomes.PlaceholderSays | services/ai-kernel/app.py:358-366 | a started receipt is failed, interrupted and unreported |
| KernelOutcomes.FollowedExactly | services/ai-kernel/app.py:355-470 | a call is followed by another exactly when attempts are left and it gave unusable output, a schema violation, cut-off output, a timeout, a rate limit that is not a quota, a failed connection, or HTTP status 429 or from 500 on |
| KernelOutcomes.CallsMade | services/ai-kernel/app.py:355-470 | so the number of calls is the first attempt not worth repeating, or the last |
| KernelOutcomes.RunAnswers | services/ai-kernel/app.py:294-470 | status, code and temporary mark of the answer for each outcome of the last call, and for requests refused before any call |
| KernelOutcomes.EventsOfRun | services/ai-kernel/app.py:258-292 | the stream is the two receipts of each call in order and one result; an exception becomes an internal error |
| KernelAudit.RunOutcome | services/ai-kernel/app.py:355-470 | the loop always leaves on its own before the trailing fallback; status 200 exactly when the last receipt succeeded, and no earlier one did |
| KernelAudit.WholeStream | services/ai-kernel/app.py:258-292 | every whole stream is read to its result event; the attempts are the producer's list and the tokens its sums, and an error has one of the run's own codes, never one of the reader's |
| KernelAudit.CutStream | services/ai-kernel/app.py:355-467 | a stream cut anywhere before its result yields one attempt per started event, in order, final for all that finished, at most the last still unreported; the error is never temporary |
| KernelOutcomes.CauseAgrees | backend/internal/ai/semantic_kernel.go:258-270 | the error read from a whole stream agrees with the producer's last receipt: a timeout exactly when that timed out, bad output exactly when it says so or a schema is broken, and its code |
| Gateway.Gateway.CallProvider | backend/internal/ai/gateway.go:103-163 | the retry loop stops where its rule says and leaves the physical attempts, response and error of that run |
| Gateway.Gateway.RecordAttempt | backend/internal/ai/gateway.go:202-221 | the row of one attempt carries its own figures and is attempted exactly once |
| Gateway.Gateway.RecordUsage | backend/internal/ai/gateway.go:199-235 | usage rows are attempted in order up to the first attempt whose ID cannot be generated; totals are sums over the rows |
| Gateway.Gateway.Generate | backend/internal/ai/gateway.go:91-252 | the call as a whole attempts exactly those rows and returns a result only when all of them were stored |
| GatewayAudit.RetriedOnlyWhenTemporary | backend/internal/ai/gateway.go:145-162 | a call is followed by another only after a temporary provider error within its deadline, with the context alive |
| GatewayAudit.OneRowPerAttempt | backend/internal/ai/gateway.go:200-222 | every physical attempt has its row exactly when no needed ID failed to generate; each row has the attempt's own figures, field by field, under the prompt it was made for, its code marked exactly when the usage was not reported |
| GatewayAudit.ResultExactlyWhenSound | backend/internal/ai/gateway.go:165-252 | a result comes back exactly when the last call answered in time with valid output and every attempt was identified and stored; its tokens are the sums over the rows |
| GatewayAudit.StreamIsLast | backend/internal/ai/semantic_kernel.go:118-198 | once the kernel has opened an event stream the gateway never calls it again |
| GatewayAudit.ChargedTail | backend/internal/ai/gateway.go:165-180 | output that fails validation changes the mark of the last attempt only |
| GatewayAudit.WholeRunAudited | backend/internal/ai/gateway.go:120-180 | a whole kernel run puts the producer's receipts, one each, into the audit ledger |
| GatewayAudit.CutRunAudited | backend/internal/ai/gateway.go:120-146 | a broken kernel stream loses no announced physical call from the ledger; one broken before any receipt counts as one unknown attempt |
| GatewayRecords.CalledExactly | backend/internal/ai/gateway.go:98-165 | a call is followed by another exactly when attempts are left, it failed in time with a temporary provider error, and the context outlived it and the wait |
| GatewayRecords.LoopError | backend/internal/ai/gateway.go:98-165 | the loop's error is the last call's, a timeout in place of what took too long, or the context's |
| GatewayRecords.CallAdds | backend/internal/ai/gateway.go:114-142 | a call adds its receipts, or one attempt with figures of its own |
| GatewayRecords.ChargedSays | backend/internal/ai/gateway.go:167-180 | the stored attempts are the physical ones; output that is missing or fails validation changes the mark of the last |
| GatewayRecords.OutcomeSays | backend/internal/ai/gateway.go:200-262 | an error for an ID that cannot be generated, then the loop's error, then invalid output, then an error for a row not stored, else the last response with the sums of all attempts |
| GatewayRecords.PlainReplySays | backend/internal/ai/semantic_kernel.go:149-197 | errors and results of a kernel that answers without a stream, and which of them are temporary |
| GatewayRecords.WholeRunStored | backend/internal/ai/gateway.go:200-222 | each physical call of a kernel run is stored under its own ID with its own counts; where the provider gave both counts the code is the producer's unchanged, elsewhere it is marked |
| GatewayRecords.WholeRunReturns | backend/internal/ai/gateway.go:150-262 | Generate returns a timeout exactly when its deadline passed or the last receipt timed out, else the code and cause of the run, else what became of its document |
| GatewaySlots.SlotsAccounted | backend/internal/ai/gateway.go:91-96 | over all runs the channel holds one value per call with a slot, never more than MaxConcurrent, and releasing never blocks |
| GatewaySlots.AllReleased | backend/internal/ai/gateway.go:91-96 | when every call has returned, every slot is free |
| GatewaySlots.CallsSay | backend/internal/ai/gateway.go:91-96 | a waiting call gets a slot exactly when fewer than the limit are held |
| WorkingDocument.AppendKeeps | backend/internal/collaboration/service.go:139-201 | a new update extends the log by its payload under the next sequence; a repeated one changes nothing and reports the stored sequence |
| WorkingDocument.KeysStayUnique | backend/internal/collaboration/service.go:139-201 | a client key names at most one stored update |
| WorkingDocument.AppendSays | backend/internal/collaboration/service.go:139-201 | when an update is refused, found or stored as the next row |
| WorkingDocument.SaveSays | backend/internal/collaboration/service.go:271-357 | when a snapshot is refused or stored, and which rows compacting removes |
| WorkingDocument.LoadSays | backend/internal/collaboration/service.go:366-426 | which snapshot and rows a recovery read returns |
| WorkingDocument.ResubmissionIdempotent | backend/internal/collaboration/service.go:139-201 | resubmitting finds the first submission exactly while its row has not been compacted away |
| WorkingDocument.CompactedThenResubmitted | backend/internal/collaboration/service.go:139-201 | one update, a compacting snapshot and the same update again: it is stored under a second sequence |
| WorkingDocument.SnapshotKeeps | backend/internal/collaboration/service.go:271-357 | saving any state under any sequence, compacting or not, keeps the log exactly when the state contains the updates it claims |
| WorkingDocument.UntruthfulSnapshotHides | backend/internal/collaboration/service.go:366-426 | a recovery for a reader behind a newest snapshot is complete exactly when that snapshot contains what it claims |
| WorkingDocument.LostToAnEmptySnapshot | backend/internal/collaboration/service.go:271-357 | an empty state saved over one update deletes it, and a new reader gets the empty state as the latest |
| WorkingDocument.RecoveryCovers | backend/internal/collaboration/service.go:366-426 | however the log was compacted, a recovery read hands out exactly what is missing after the cursor, without gaps |
| CollaborationConnection.Connection.WriteRecovery | backend/cmd/api/collaboration.go:219-267 | hello, the snapshot if any, every update in order, ready; a failing socket leaves a prefix of that |
| CollaborationConnection.Connection.Round | backend/cmd/api/collaboration.go:279-322 | one round of the select loop advances the sequence only by the next durable update or a recovery that was written |
| CollaborationConnection.Connection.WriteBroadcasts | backend/cmd/api/collaboration.go:269-323 | the loop goes on until the first round that closes the connection: an unauthorized tick or message, an inactive document, a failed read or a closed channel; from that round on nothing is written, and every frame written was sent by an authorized round before it |
| CollaborationConnection.RoundSays | backend/cmd/api/collaboration.go:279-322 | a round closes the connection without writing, or writes its message, or a whole recovery that has something newer; only the next update or such a recovery moves the sequence |
| CollaborationConnection.InOrderKeepsUp | backend/cmd/api/collaboration.go:283-312 | broadcasts that come in order carry the sequence along, so that a tick finding nothing newer writes nothing |
| CollaborationRuns.StepKeeps | backend/cmd/api/collaboration.go:91-323 | no step of any connection, browser or hub delivery leaves the system invariant |
| CollaborationRuns.Reachable | backend/cmd/api/collaboration.go:91-323 | every state of every run satisfies it |
| CollaborationRuns.BrowserHasItsPrefix | apps/web/lib/collaboration/client.ts:382-415 | a browser's document contains every durable update up to the sequence it reports, also after a restart from its offline record |
| CollaborationRuns.VouchedIsDelivered | backend/cmd/api/collaboration.go:278-321 | whatever the hub loses or reorders, every durable update up to a live connection's sequence has been delivered to it, directly or inside a snapshot: it is in the browser's document once the frames already written arrive |
| CollaborationRuns.NothingIsLost | backend/internal/collaboration/service.go:271-357 | with truthful snapshots, compaction loses no durable update |
| CollaborationRuns.SequenceOnlyGrows | backend/cmd/api/collaboration.go:283-312 | a live connection's sequence never falls, and a recovery tick leaves it at the latest durable sequence |
| CollaborationRuns.RevokedIsClosed | backend/cmd/api/collaboration.go:283-317 | the first round or message after the right to edit is taken away closes the connection and changes nothing else |
| CollaborationRuns.HandleSays | backend/cmd/api/collaboration.go:140-215 | a stored update is announced, a snapshot saved, and whatever is refused closes the connection and changes nothing |
| CollaborationRuns.DeliverSays | apps/web/lib/collaboration/client.ts:382-415 | an update behind a gap makes the browser close the socket; any other frame is merged and the cursor follows it |
| CollaborationRuns.FreshConnectionCatchesUp | backend/cmd/api/collaboration.go:91-100 | a browser that reads on from a new connection ends up with the whole log |
| CollaborationConnection.Connection.WriteSocket | backend/cmd/api/collaboration.go:325-334 | a frame is written whole or the connection reports failure |
| BlockTree.Find | apps/web/lib/governance-page-patch.ts:279-292 | lookup by ID finds a block with that ID, exactly when there is one |
| BlockTree.FindIsFirst | apps/web/lib/governance-page-patch.ts:279-292 | a path is what lookup returns exactly when its block has the ID and none before it in pre-order does |
| BlockTree.FindUnique | apps/web/lib/governance-page-patch.ts:279-292 | under unique IDs a path and the ID of its block determine each other |
| BlockTree.IdsOfSplice | apps/web/lib/governance-page-patch.ts:60-84 | a splice exchanges the IDs at its position and moves no other |
| BlockTree.SpliceUndone | apps/web/lib/governance-page-patch.ts:60-84 | putting back what a splice took out undoes it |
| Patch.BuildReference | apps/web/lib/governance-page-patch.ts:115-225 | a reference that is built has the node type its operation names, and a retargeted page reference is resolved |
| Patch.IntegerIndex | apps/web/lib/governance-page-patch.ts:315-321 | an index is accepted exactly when it is an integer within the array, its end included only where insertion is allowed |
| Patch.FindContainer | apps/web/lib/governance-page-patch.ts:294-304 | a container that is found is the document or a block with a children array |
| Patch.RequireBlock | apps/web/lib/governance-page-patch.ts:269-277 | the block an operation requires is the one with its ID |
| Patch.RequireInlineContent | apps/web/lib/governance-page-patch.ts:227-239 | inline content is found only in blocks that hold it |
| Patch.ParseBlock | apps/web/lib/governance-page-patch.ts:306-313 | a payload block is accepted exactly when it is valid, and is then taken as it is |
| Patch.ConflictChoices | apps/web/lib/governance-page-patch.ts:40-48 | the map holds, for each block, the choice of the last decided conflict about it |
| PatchOutcomes.LookupsSay | apps/web/lib/governance-page-patch.ts:258-313 | the path, container or index an operation names, or the error for it |
| PatchOutcomes.NumbersSay | apps/web/lib/governance-page-patch.ts:229-236 | a node is named by its decimal number |
| PatchOutcomes.ReferenceSays | apps/web/lib/governance-page-patch.ts:113-199 | the node the fields ask for, or the error, for every kind of reference |
| PatchOutcomes.SchemaSays | apps/web/lib/governance-page-patch.ts:304-313 | when a block fits the schema: its ID, content, children and actions by kind |
| PatchOutcomes.ReplaceAndDeleteSay | apps/web/lib/governance-page-patch.ts:55-64 | replacing and deleting work on the first block with the ID, or give the error |
| PatchOutcomes.InsertAndMoveSay | apps/web/lib/governance-page-patch.ts:65-84 | inserting and moving put a block at an index of a container, or give the error; a move takes the block out first |
| PatchOutcomes.InsertReferenceSays | apps/web/lib/governance-page-patch.ts:85-92 | an inserted reference stands at its index, or the error |
| PatchOutcomes.RetargetSays | apps/web/lib/governance-page-patch.ts:93-108 | a retargeted reference takes the place of a node of its own type, or the error |
| PatchOutcomes.ProposalSays | apps/web/lib/governance-page-patch.ts:22-38 | records run in the order of their numbers, and the result must fit the schema |
| PatchLaws.ApplyAccounts | apps/web/lib/governance-page-patch.ts:50-113 | every operation accounts for all IDs: the result plus what was taken out is the old document plus what was brought in |
| PatchLaws.ReferenceKeepsIds | apps/web/lib/governance-page-patch.ts:85-109 | reference operations keep every ID where it is |
| PatchLaws.ReferenceTouchesOneNode | apps/web/lib/governance-page-patch.ts:85-109 | a reference operation changes one inline node of one block and nothing else: the node it asks for comes in at the position it asks for, and a retargeted node was of that type before |
| PatchLaws.UniquenessKept | apps/web/lib/governance-page-patch.ts:50-84 | from unique IDs an operation leaves unique IDs exactly when its payload brings in each ID once and none that stays |
| PatchLaws.RunKeepsUnique | apps/web/lib/governance-page-patch.ts:22-38 | IDs stay unique over a whole list of operations each of which meets a document its payload is fresh for |
| PatchLaws.RunAccounts | apps/web/lib/governance-page-patch.ts:22-38 | over a whole list of operations the result's IDs plus all those taken out are the old IDs plus all those brought in |
| PatchLaws.RunUniqueExactly | apps/web/lib/governance-page-patch.ts:22-38 | the result's IDs are unique exactly when the list takes out as many of each ID as the old document and the payloads have too many |
| PatchLaws.DistinctPayloadsAreFresh | apps/web/lib/governance-page-patch.ts:22-38 | document and payload IDs that are all distinct, which a caller can check beforehand, make every payload fresh where it is applied |
| PatchLaws.NewIdsKeepUnique | apps/web/lib/governance-page-patch.ts:22-38 | so IDs stay unique over every list of operations whose payload IDs are distinct and new |
| PatchOrder.ProposalAccounts | apps/web/lib/governance-page-patch.ts:22-38 | a whole proposal, its records in any order, accounts for every ID, and keeps IDs unique when those of the document and the payloads are distinct |
| PatchLaws.DeleteThenReinsert | apps/web/lib/governance-page-patch.ts:60-73 | deleting a block and inserting it where it was restores the document |
| PatchLaws.InsertThenDelete | apps/web/lib/governance-page-patch.ts:60-73 | deleting a block just inserted restores the document when its IDs were unused |
| PatchLaws.MoveBack | apps/web/lib/governance-page-patch.ts:74-84 | moving a block back to its old parent and index restores the document |
| PatchLaws.MoveSucceedsExactly | apps/web/lib/governance-page-patch.ts:74-84 | a move succeeds exactly when the block exists and the parent lies outside it, can hold blocks and has room once the block is gone |
| PatchLaws.ReplacementsCommute | apps/web/lib/governance-page-patch.ts:55-59 | replacements of blocks apart from each other commute when neither payload captures the other's ID |
| PatchLaws.NestedReplacementsDoNot | apps/web/lib/governance-page-patch.ts:55-59 | with one block inside the other, the outer replacement first loses the inner target and the inner first does not |
| PatchLaws.ReplacementStands | apps/web/lib/governance-page-patch.ts:55-59 | a replacement puts its payload where the block was and changes nothing else |
| PatchLaws.ReferenceRoundTrip | apps/web/lib/governance-page-patch.ts:115-208 | the fields that ask for a reference build exactly that reference, except that retargeting builds no unresolved page reference |
| PatchLaws.PositionRoundTrip | apps/web/lib/governance-page-patch.ts:241-246 | a node position written in decimal is read back, and accepted exactly when it lies within the content |
| PatchLaws.SkippedRecordsDropOut | apps/web/lib/governance-page-patch.ts:29-36 | choosing the current text or dismissing a change does as if its record were not there |
| PatchLaws.OverruledExactly | apps/web/lib/governance-page-patch.ts:28-50 | a record has no effect exactly when the last conflict settled about its block says choose_current or dismiss; any other record is applied |
| PatchOrder.SortedIsStable | apps/web/lib/governance-page-patch.ts:29 | records are applied by ascending number, those with the same number in their given order |
| PatchOrder.OnlyEqualNumbersMatter | apps/web/lib/governance-page-patch.ts:27-37 | the supplied order matters only among records with equal numbers |
| PatchOrder.OrderDoesNotMatter | apps/web/lib/governance-page-patch.ts:27-37 | with distinct numbers the supplied order does not matter |
| BlockHeap.SplicedLists | apps/web/lib/governance-page-patch.ts:60-84 | splicing one children array in place splices the tree it stands for at the array's path |
| BlockHeap.RecontentedLists | apps/web/lib/governance-page-patch.ts:85-109 | changing one block object's content in place does the same to the block it stands for |
| BlockHeap.SpliceSeparate | apps/web/lib/governance-page-patch.ts:60-84 | what is cut out shares no object with what is left, and no object ever hangs in two places |
| PatchEngine.FindBlock | apps/web/lib/governance-page-patch.ts:279-292 | the search over the objects returns the container and index that the path from lookup leads to |
| PatchEngine.FindContainerNode | apps/web/lib/governance-page-patch.ts:294-304 | the container object is the one the specification names, with the same errors |
| PatchEngine.RequireLocation | apps/web/lib/governance-page-patch.ts:269-277 | the location is the one the required block's path leads to, with the same errors |
| PatchEngine.Build | apps/web/lib/governance-page-patch.ts:306-313 | parsing a payload makes only new objects, standing for that block |
| PatchEngine.SpliceAt | apps/web/lib/governance-page-patch.ts:60-84 | assigning a spliced children array leaves the document standing for the spliced tree |
| PatchEngine.Detach | apps/web/lib/governance-page-patch.ts:75-76 | the removed block object hangs outside the document and still stands for the block |
| PatchEngine.Attach | apps/web/lib/governance-page-patch.ts:81-82 | a block object hanging outside is put into the container at the index |
| PatchEngine.SetContentOf | apps/web/lib/governance-page-patch.ts:85-109 | assigning a block object's content does the same to the block |
| PatchEngine.ReplaceInPlace | apps/web/lib/governance-page-patch.ts:55-59 | does what the replacement says, or reports its error |
| PatchEngine.DeleteInPlace | apps/web/lib/governance-page-patch.ts:60-64 | does what the deletion says, or reports its error |
| PatchEngine.InsertInPlace | apps/web/lib/governance-page-patch.ts:65-73 | does what the insertion says, or reports its error |
| PatchEngine.MoveInPlace | apps/web/lib/governance-page-patch.ts:74-84 | removing and reinserting the block object does what the move says, or reports its error |
| PatchEngine.InsertReferenceInPlace | apps/web/lib/governance-page-patch.ts:85-93 | does what the reference insertion says, or reports its error |
| PatchEngine.RetargetInPlace | apps/web/lib/governance-page-patch.ts:94-109 | does what the retargeting says, or reports its error |
| PatchEngine.ApplyOperation | apps/web/lib/governance-page-patch.ts:50-113 | one operation on the objects does to the blocks they stand for what the specification says, with the same errors |
| PatchEngine.CloneDocument | apps/web/lib/governance-page-patch.ts:27 | the working copy stands for the same blocks and shares no object with the given document |
| PatchEngine.ApplyChosen | apps/web/lib/governance-page-patch.ts:30-35 | a record is applied unless the choice on its block keeps the current text or dismisses it |
| PatchEngine.RunRecords | apps/web/lib/governance-page-patch.ts:29-36 | the loop over the records stops at the first error or ends with all of them applied |
| PatchEngine.ApplyPageProposalOperations | apps/web/lib/governance-page-patch.ts:22-38 | a whole proposal gives the specified result or error and never touches the given document |
| AstWalk.Walker.WalkBlocks | backend/internal/ast/walk.go:38-50 | the recursive walk does to the walker's state what the pre-order sequence says, step by step |
| AstWalk.Walker.WalkInline | backend/internal/ast/walk.go:52-70 | inline nodes are visited in order up to a rejection; undecodable content sets the error |
| AstWalk.WalkIsPrefix | backend/internal/ast/walk.go:23-70 | the callback is called for exactly the beginning of the full pre-order sequence up to the first rejected node, the first undecodable content, or the end |
| AstWalk.Walk | backend/internal/ast/walk.go:23-30 | a walk's calls and error are such a beginning |
| AstWalk.VisitedInOrder | backend/internal/ast/walk.go:38-50 | every block is visited at its place in pre-order with its parent, index and depth |
| AstWalk.InlineVisitedBehind | backend/internal/ast/walk.go:52-70 | inline nodes are visited right behind their block, in order and at its depth, before anything below it |
| AstWalk.WalkVisitsBlocks | backend/internal/ast/walk.go:104-119 | the blocks Walk visits are those Blocks collects, in the same order |
| AstWalk.Blocks | backend/internal/ast/walk.go:104-119 | the collected list is the pre-order list |
| AstWalk.FindIn | backend/internal/ast/walk.go:91-102 | the recursive search returns the location of the first match with the prefix in front of its path |
| AstWalk.FindBlock | backend/internal/ast/walk.go:83-102 | the first block in pre-order with the ID is returned with a path that leads to it, its parent and index; it fails exactly when the ID is absent |
| ButtonClone.CloneIds | apps/web/components/page-button-runtime.tsx:39-56 | the IDs in a clone, blocks inside button actions included, are exactly the new ones handed out |
| ButtonClone.CloneEqualsSource | apps/web/components/page-button-runtime.tsx:39-56 | up to IDs a clone equals its source |
| ButtonClone.CloneIsValid | apps/web/components/page-button-runtime.tsx:39-56 | a clone of a valid block is valid |
| ButtonClone.InsertionRecords | apps/web/components/page-button-runtime.tsx:79-104 | the loop issues one insertion per block, behind the old children and in order |
| ButtonClone.InsertBlocksApplies | apps/web/components/page-button-runtime.tsx:79-104 | applying them to the document they were computed from succeeds and gives the old children followed by the clones |
| ButtonClone.ClonesAreNew | apps/web/components/page-button-runtime.tsx:39-56 | all IDs in the clones are distinct and new to the document, whose block IDs stay unique |
| UploadTemp.StepKeeps | backend/cmd/api/upload_temp.go:20-78 | every step of every process, crashes and failing calls included, keeps the invariant |
| UploadTemp.RunKeeps | backend/cmd/api/upload_temp.go:20-78 | it holds in every state of every run |
| UploadTemp.ActiveIsSafe | backend/cmd/api/upload_temp.go:43-57 | whatever another process does next, a prepared process that is still active keeps its directory, its owner file and its lock |
| UploadTemp.NoWindow | backend/cmd/api/upload_temp.go:26-64 | while a directory is made but not locked no other process scans, and locking it never fails because it is taken |
| UploadTemp.PreparedMeansReclaimed | backend/cmd/api/upload_temp.go:34-57 | after a successful prepare each directory the scan found is gone or was left alone |
| UploadTemp.KeptMeansOwned | backend/cmd/api/upload_temp.go:43-47 | a directory is left alone only while a live process owns it and holds its lock |
| UploadTemp.Host.Prepare | backend/cmd/api/upload_temp.go:20-78 | undisturbed, a process removes exactly the directories whose owner lock is free, leaves the others as they are, and ends with one new directory, locked |
| UploadProgress.NeverStuck | backend/cmd/api/upload_temp.go:20-78 | a process that is not over can go on, or waits for the init lock, whose holder can |
| UploadProgress.FailureSays | backend/cmd/api/upload_temp.go:20-78 | a failing system call ends the process, except where a directory of its own is left to remove or its cleanup to finish |
| UploadProgress.StoppedHoldsNothing | backend/cmd/api/upload_temp.go:20-78 | a process that has stopped holds no lock |
| UploadProgress.OpenedFileIsNew | backend/cmd/api/upload_temp.go:20-78 | a directory opened by a scan gets an owner file of its own if it has none |
| PromptRegistry.Repository.ActivatePrompt | backend/internal/ai/repository.go:69-81 | the row becomes the only active one of its key, or nothing changes |
| PromptRegistry.Repository.ActivatePromptIfNone | backend/internal/ai/repository.go:83-91 | a row is activated exactly when it exists under the key and none is active |
| PromptRegistry.Repository.Register | backend/internal/ai/registry.go:30-66 | a version is stored exactly when it is well formed and new under the trimmed key, and activated on request |
| PromptRegistry.Repository.ActivePrompt | backend/internal/ai/repository.go:32-40 | the key's active version is returned, and not found means there is none |
| PromptRegistry.Repository.InsertPrompt | backend/internal/ai/repository.go:62-67 | a row is added, inactive, exactly when its key and version are new |
| PromptRegistry.Repository.Obtain | backend/internal/ai/registry.go:78-91 | the requested version is found or registered |
| PromptRegistry.Repository.Promote | backend/internal/ai/registry.go:93-106 | undisturbed, the transaction activates the requested row unless a version that high is active |
| PromptRegistry.Repository.EnsureActive | backend/internal/ai/registry.go:71-111 | undisturbed, a call ends with an active version at least as high as the requested one, exactly when one is active already or the requested one is there or can be registered under this very key |
| PromptRegistry.EnsuredSays | backend/internal/ai/registry.go:71-111 | the table an undisturbed call leaves behind, and when it succeeds |
| PromptRegistry.PaddedKeyFails | backend/internal/ai/registry.go:71-111 | where stored keys are trimmed, a key with surrounding blanks always fails, though its trimmed form is registered |
| PromptRegistry.PaddedKeyExample | backend/internal/ai/registry.go:71-111 | a key with a leading blank on an empty table is such a call |
| PromptActivation.StepKeeps | backend/internal/ai/registry.go:71-111 | every statement of every worker keeps the invariant |
| PromptActivation.ActiveOnlyRises | backend/internal/ai/registry.go:93-106 | at most one version is active, no step lowers the active version, and the second update of ActivatePrompt never meets the unique index: its version is then the only active one |
| PromptActivation.RisesOverRuns | backend/internal/ai/registry.go:93-106 | the active version at any later point of a run is at least the earlier one |
| PromptActivation.ResultIsHighEnough | backend/internal/ai/registry.go:93-110 | the returned version is at least the requested one unless ActivatePromptIfNone found a lower one active, and then at least that |
| PromptActivation.CommitReaches | backend/internal/ai/registry.go:93-106 | when the transaction commits, a version as high as requested is active exactly if ActivatePromptIfNone did not find a lower one |
| PromptActivation.RaceReturnsLower | backend/internal/ai/repository.go:42-50 | for all versions low below mid below high a race exists in which a call for high returns mid |
| PromptProgress.RunsAreShort | backend/internal/ai/registry.go:71-111 | whatever the interleaving, a run has at most nine statements for each call |
| PromptProgress.NoDeadlock | backend/internal/ai/registry.go:93-106 | as long as some call is not over, some call can take its next statement |
| PromptProgress.OnlyErrorsFail | backend/internal/ai/registry.go:71-111 | a call fails only where a statement reports an error |
| PromptProgress.FailureRollsBack | backend/internal/ai/registry.go:93-106 | a failed call gives up its lock and changes no row |
| EditorSession.BaseRoundTrip | apps/web/lib/editor-session.ts:32-34 | decoding a draft's key gives back the base it was saved under |
| EditorSession.PairsApart | apps/web/lib/editor-session.ts:44-51 | without dots in IDs the draft keys of two actor and page pairs never share a prefix |
| EditorSession.DotsCollide | apps/web/lib/editor-session.ts:44-51 | with a dot they may |
| EditorSession.OtherPairsUntouched | apps/web/lib/editor-session.ts:70-78 | no draft of another actor and page pair is touched when IDs hold no dots |
| EditorSession.Session.RemoveOtherDrafts | apps/web/lib/editor-session.ts:70-78 | of the pair's drafts only the kept key remains, and everything else stays |
| EditorSession.Session.ListDraftKeys | apps/web/lib/editor-session.ts:44-56 | exactly the stored keys of the pair are listed |
| EditorSession.Session.SaveDraft | apps/web/lib/editor-session.ts:80-86 | the draft is stored under the key, or nothing changes when writing fails |
| EditorSession.Session.Recover | apps/web/lib/editor-session.ts:173-195 | the readable draft under the current base is restored; with none under it, any readable older one with the base it was saved under |
| EditorSession.Session.StartSession | apps/web/lib/editor-session.ts:173-225 | the session opens on that draft or the server's content, a stale draft becomes a conflict, and the pair's drafts sit under the current base's key |
| EditorSession.SessionOpens | apps/web/lib/editor-session.ts:173-225 | a session opens with the usable draft under the current base, else with an older one in conflict, else with the server's content |
| EditorSession.KeySays | apps/web/lib/editor-session.ts:22-34 | drafts are stored under actor, page and base |
| EditorSession.OpenedSays | apps/web/lib/editor-session.ts:227-233 | drafts are saved only for an actor and a page that are not empty |
| EditorSession.Session.SetAst | apps/web/lib/editor-session.ts:227-233 | an edit sets the content and saves it under the current base's key |
| EditorSession.Session.RecordConflict | apps/web/lib/editor-session.ts:239-249 | the first conflict stays, and the user's content is not touched |
| EditorSession.Session.RebaseToLatest | apps/web/lib/editor-session.ts:251-269 | the base moves to the server's version, content and dirty mark stay, and the draft moves to the new base's key |
| EditorSession.Session.ResetToServer | apps/web/lib/editor-session.ts:271-283 | content and drafts give way to the server's version |
| EditorSession.Session.DiscardDraft | apps/web/lib/editor-session.ts:287-291 | the content goes back to the server's and the pair's drafts are gone |
| EditorSession.Session.ClearDraft | apps/web/lib/editor-session.ts:293-296 | the pair's drafts are gone, the session is as it was |
| EditorRuns.Perform | apps/web/lib/editor-session.ts:161-297 | every action of the session is a step of the transition relation |
| EditorRuns.DraftsStayTidy | apps/web/lib/editor-session.ts:197-201 | in every run the drafts of the open pair sit under the one key of the current base |
| EditorRuns.ContentStays | apps/web/lib/editor-session.ts:227-297 | only opening, editing, resetting and discarding may change the content or its dirty mark, over any part of a run |
| EditorRuns.OthersUntouched | apps/web/lib/editor-session.ts:44-78 | a run leaves every draft alone whose pair it never opens, when IDs hold no dots |
| EditorRuns.ChangesAreSaved | apps/web/lib/editor-session.ts:197-269 | while storage takes every write and drafts are not cleared, changed content is always stored under the current key |
| EditorRuns.ReopeningRestores | apps/web/lib/editor-session.ts:173-225 | after any such run, opening the pair in a new session brings the changed content back, with a conflict between the two bases when the server has moved on |
| CliOptions.LoopEndsExactly | backend/cmd/anby-wiki/human.go:563-580 | the loop over an operation's arguments ends exactly when it does not come to a valueless flag for a parameter of an operation with a body |
| CliOptions.OneFlagStalls | backend/cmd/anby-wiki/human.go:736-753 | one such flag is enough to keep it going for ever |
| CliOptions.ParseOperationArguments | backend/cmd/anby-wiki/human.go:563-580 | for the arguments it ends on, the loop accepts exactly the renderings of option lists and returns what they stand for |
| CliOptions.ParseCommonOptions | backend/cmd/anby-wiki/human.go:601-630 | the loop over common options always ends, accepts exactly the renderings of lists of common options and returns what they stand for |
| CliOptions.WordsRead | backend/cmd/anby-wiki/human.go:950-999 | whatever follows them, options and plain arguments are read one by one and applied in order |
| CliOptions.RenderingReadsBack | backend/cmd/anby-wiki/human.go:950-999 | reading any rendering of an option list recovers it in both loops, with or without a double dash, between plain arguments or not |
| CliOptions.OnlyRenderingsAreRead | backend/cmd/anby-wiki/human.go:563-580 | arguments that are read to their end are a rendering of accepted options |
| CliOptions.ReadsExactlyRenderings | backend/cmd/anby-wiki/human.go:563-580 | both loops read exactly the renderings of option lists |
| CliOptions.ApplyCommonOption | backend/cmd/anby-wiki/human.go:757-801 | a common option takes its value inline or from the next argument, or is an error; other names are left to the caller |
| CliOptions.ApplyCallOption | backend/cmd/anby-wiki/human.go:632-755 | an operation's option has the effect and the next index, or the error, that the specification gives |
| CliOptions.KeyValueOptions | backend/cmd/anby-wiki/human.go:648-671 | the key=value options file the decoded value under the key in their own place; the key ends at the first equals sign |
| CliOptions.FileAndParamOptions | backend/cmd/anby-wiki/human.go:682-716 | a file option takes key=file; a param option files its value where the operation has the parameter |
| CliOptions.CommonOptionsSay | backend/cmd/anby-wiki/human.go:757-801 | which values the JSON, base URL, configuration and timeout options take and what they set |
| CliOptions.NumbersSay | backend/cmd/anby-wiki/human.go:787-797 | a timeout is decimal digits, with a sign or without, that fit 64 bits |
| CliOptions.OnlyNumbersSay | backend/cmd/anby-wiki/human.go:787-797 | nothing else is a timeout |
| CliOptions.BodyOptionsSay | backend/cmd/anby-wiki/human.go:717-735 | a body is read as JSON, a body file is kept by name |
| CliOptions.OtherOptionsSay | backend/cmd/anby-wiki/human.go:736-753 | any other flag is a parameter, else a field of the body, else unknown |
| CliOptions.OnlyCommonOptions | backend/cmd/anby-wiki/human.go:601-630 | the common loop knows four options only |
| CliOptions.ParameterSays | backend/cmd/anby-wiki/human.go:916-927 | the parameter of a flag is the first whose name reads the same |
| CliOptions.NormalizedSays | backend/cmd/anby-wiki/human.go:1096-1098 | names are compared in lower case, with underscores for hyphens |
| CliOptions.RefusalsSay | backend/cmd/anby-wiki/human.go:736-801 | a value is missing, the flag unknown or its value refused, with the error for each |
| CliOptions.PairsSay | backend/cmd/anby-wiki/human.go:1001-1016 | a pair needs an equals sign and a key that is not blank |
| CliOptions.PairOptionsRefuse | backend/cmd/anby-wiki/human.go:648-716 | the options that take a pair refuse anything else |
| GoText.TrimSays | backend/cmd/anby-wiki/human.go:988-999 | trimming removes the blanks around a text and nothing else |
| CliOptions.LastCommonWins | backend/cmd/anby-wiki/human.go:757-801 | of each common option (JSON mode, base URL, configuration, timeout) the last one given wins |
| CliOptions.LastBodyWins | backend/cmd/anby-wiki/human.go:706-735 | the last body, the last body file and the last file for each key win |
| CliOptions.RepeatedValues | backend/cmd/anby-wiki/human.go:1070-1080 | values given more than once for a key are kept together in order; a first value that is an array takes the others in |
| CliOptions.SingleValues | backend/cmd/anby-wiki/human.go:1070-1080 | a value given once is kept as it is |
| Dotenv.WrittenLines | scripts/production_environment.py:54-66 | written lines read back as they are exactly when none holds a line separator |
| Dotenv.WrittenLineLoads | scripts/production_environment.py:72-77 | a line written for an accepted value loads as that key and value exactly when the value holds no NUL |
| Dotenv.UpdateLoads | scripts/production_environment.py:53-61 | loading after an update gives the old values overridden by the changes, with no duplicate key |
| Dotenv.FirstPieceIsRead | scripts/production_environment.py:54-66 | what a written line holds up to its first separator is read back as a line |
| Dotenv.NotPlainIsBad | scripts/production_environment.py:30-50 | that piece cannot be loaded when the value holds a separator or a NUL |
| Dotenv.FileUpdateLoads | scripts/production_environment.py:53-69 | for all changes that encode accepts, the updated file loads as the old values overridden exactly when no new value holds a separator or a NUL, and fails otherwise |
| Dotenv.AcceptedButNotPlain | scripts/production_environment.py:72-77 | encode accepts a vertical tab and NUL |
| DotenvForms.LinesSay | scripts/production_environment.py:30-34 | a text breaks at every line break, CR LF being one |
| DotenvForms.StripSays | scripts/production_environment.py:35 | stripping removes the blanks around a text and nothing else |
| DotenvForms.AssigningLines | scripts/production_environment.py:35-48 | a line of the form KEY = value, behind export or not, assigns what its value means |
| DotenvForms.OtherLines | scripts/production_environment.py:35-40 | any other line is ignored when it is empty or a comment, and bad otherwise |
| DotenvForms.OnlyAssignments | scripts/production_environment.py:38 | only lines of that form assign |
| DotenvForms.ValuesSay | scripts/production_environment.py:43-49 | a value means its JSON, the text in single quotes, or itself |
| DotenvForms.EncodeSays | scripts/production_environment.py:72-77 | plain characters are written as they are, anything else in single quotes or refused |
| DotenvForms.FirstLineRewritten | scripts/production_environment.py:53-60 | the first line of a changed key is rewritten, a later one stays |
| DotenvForms.NewKeysAppended | scripts/production_environment.py:61 | new keys come behind all lines, in order |
| Dotenv.OtherLinesKept | scripts/production_environment.py:56-61 | comments and lines of unchanged keys stay as they are, in order |
| Dotenv.LoadLines | scripts/production_environment.py:30-50 | the loading loop returns what the lines define, or fails on bad syntax, a bad value or a duplicate key |
| Dotenv.Update | scripts/production_environment.py:53-61 | the rewriting loop replaces the lines of changed keys and appends the rest in order |

## Left out

- Error messages, log lines, tracing, metrics, timeouts' lengths and back-off durations: only error codes and causes matter to the properties.
- The kernel's protocol version 1, without an event stream, and the 4 MiB limit on the reader: the stream is taken to fit.
- Machine integers: token counts, sequences and indices are unbounded.
- KernelProducer.GenerateResult: cancellation of the producer when the client disconnects is covered by the cut streams, not as a step of its own.
- CollaborationRuns.StepKeeps: subscribing to the hub, reading recovery and writing it are one step on connect, so what their order is for is not examined; a socket that fails in the middle is covered by CollaborationConnection and by the Drop step.
- Presence, authorization checks' outcomes inside the system run, snapshot replies and publishing a working document: they do not move sequences.
- Offline merging of several browser tabs and the CRDT's own merge algorithm: a state is the set of payloads merged into it.
- Patch.BuildReference: the two spellings of a payload field are looked up before the model starts; a field is missing, text or something else.
- Schema rules on single fields (UUID and URL syntax, text lengths, heading levels): Patch.ValidBlock keeps the nesting, content and action rules and asks that IDs are not empty.
- ButtonClone.CloneIds: the remapping overwrites IDs in place in a structured clone; the model computes the clone as a value, so aliasing inside the clone is not modelled.
- AstWalk.FindBlock: blocks are values, so that the returned block is the very object in the document is not modelled.
- UploadTemp.ActiveIsSafe: a process outside the protocol that deletes directories or the init lock file, and MkdirTemp returning an old name again.
- PromptActivation.ActiveOnlyRises: of two racing ActivatePromptIfNone calls the unique index may reject one; that error is the step by which any statement may fail.
- PromptActivation.StepKeeps: operators that activate a prompt directly may lower the version and are not among the workers.
- EditorSession.Session.StartSession: reading and removing storage entries is taken to work; only writing may fail. Other browser tabs writing the same storage are left out.
- CliOptions.LoopEndsExactly: flag names are compared with ASCII letters in lower case; Unicode case mapping is not modelled.
- CliOptions.RenderingReadsBack: which operation a command names, reading body files, and combining a body with fields are left out.
- Dotenv.LoadLines: the checks on the file's mode and type and the replacement through a temporary file are left out.
- Component default properties (apps/web/lib/components.ts) and the search acceptance metrics (scripts/search-acceptance.py): plain tables and counts without state.
- HTTP handlers, routing, DTO copying, React components, cryptography and real database, object store, search and model-provider calls.
