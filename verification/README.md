# Livequery: the local-first data path, verified

Livequery keeps documents on a device, lets the user edit them offline, and brings device and server
together through a queue of writes, a versioned delta sync and a realtime gateway. This project models
that path in Dafny and proves what each part promises, over every input, every state or every run.

`dafny verify dfyconfig.toml` checks everything.

## The parts

**Local order, pages and the index.** `Utf16`, `Documents`, `Paging`, `IndexedStorage`, `IndexedPages`.
`queryDocs` filters, sorts by MongoDB's cross-type order and cuts a keyset page: the simple form. The
IndexedDB storage answers from ordered keys, a maintained count and a cursor that carries its place: the
fast form. The fast form is proved to give the simple form's page. It rests on the order being total for
any JSON values, on a re-encoding of strings under which code-unit order is code-point order, and on
cursors that compare as the documents they encode. The database itself enters by contract: an index is
the documents that have a key, in key order. Conditions compare a field with a value (`Equals`), strings
are well-formed UTF-16, ids have one canonical spelling.

**Versioned delta sync.** `VersionedServer`, `DeltaSync`. The server is a log of commits; every write takes
the collection's next version in commit order. A delta reads pages by version while writers keep
committing; realtime is an in-order channel in effect from the moment it is opened. One page read with its
ingest is one step.

**Outbox, confirmation and conditional writes.** `Outbox`, `LocalDocs`, `LocalWrites`, `Convergence`,
`CarelessRuns`, `UpdateExecution`. The
queue with its waiters is a class whose every method is proved against functions on queues. Around it,
`LocalWrites` lets a crash fall between any two steps of a local write, its sending and its recovery;
`Convergence` puts any number of devices against one server, with conditional updates, updates without a
base, retried adds and any writes of others; `UpdateExecution` is the loop of one update. What a device can
check before it applies a change or an answer is spelled out as a predicate, and each check is proved to be
exactly what is needed whatever the server may hold. The grain: a local
edit's read-modify-write is one step, and so is "apply the answer and remove the entry". The code is finer:
it clears `#inflight` before the serialized removal, and reads before it patches. Nothing is claimed at
that finer grain. Transitions of `LocalWrites` and `Convergence` are functions from world to world, since runs have to
stop anywhere.

**Realtime gateway.** `Gateway`, `Hibernation`. Connections, subscriptions, grace windows and replay
buffers, and the Durable Object variant that survives eviction through records, attachments and one alarm.
The classes carry the source's own maps; each handler is proved to make exactly one step of a state
machine whose invariants are then proved over runs.

**Query compilation.** `Keyset`, `SqlFilters`, `MongoFilters`, `Arithmetic`. SQL and MongoDB predicates are
small syntax trees with an evaluator. For SQL filters the printed text is read back by a
recursive-descent reader with SQL's precedence, so what is proved is about the text.

**Frames and fan-out.** `Msgpack`, `FanOut`. The MessagePack reader against the public specification
(section "Formats"), in both directions; and change-stream fan-out as incremental view maintenance.

## Where the code parts from what it promises

Each of these is a lemma with the input or run that shows it, and a lemma or contract giving the exact
condition under which the promise holds.

- A reconnect while a catch-up is past its last page: the old catch-up still turns `live` on, and
  `synced_at` passes a change that is on neither (`DeltaSync.ReopenDuringCatchUpOvertakes`). Completing is
  safe exactly when the channel carries what the device lacks (`DeltaSync.CompletionIsSafe`).
- A realtime `added` event older than a tombstone the delta already ingested brings the document back
  (`DeltaSync.StepBuried`, exactly then), and for good when the tombstone's event is lost
  (`DeltaSync.ResurrectedForGood`).
- `planOf` skips conditions and sort entries that are null, `queryDocs` does not
  (`IndexedPages.NullConditions`, `IndexedPages.NullSortReadsIds`); an index on `id` ignores the kinds of
  ids that documents sort by first (`IndexedPages.IdIndexAgrees`); a rename onto an existing
  id leaves the count one too high (`Update` of the storage, exactly then).
- Strings with lone surrogates sort otherwise in an index, every one of them
  (`Utf16.RekeyedOrderNeedsWellFormed`).
- A local edit or deletion can stay pending with nothing to send it. `LocalWrites.StepKeeps` says exactly at
  which steps: an update that saw its document still being added and is queued after that add is confirmed
  (`LocalWrites.StaleUpdateOrphans`); a delete of such a document queued after the document came back and was
  edited, which drops the edit too (`LocalWrites.DismissedDeleteOrphans`); and a recovered delete that meets an
  unsent add of a document the server does have (`LocalWrites.MetAddOrphans`). Runs of ordinary steps reach
  all three.
- An add enqueued behind a queued update of its own document, or a rename that makes an update and a later
  add meet, sends the update first (`Outbox.AddsStayFirst`, exactly then).
- A device's copy does not read as the server did at the version it claims: after its document left and came
  back while an update was out, after an update of a tombstone, after a refused update, after a newer version
  arrived between acceptance and confirmation, and after a write that took a field away. Each is a run in
  `CarelessRuns`, careful up to its last step; the exact conditions are `Convergence.ConfirmIsSafe`,
  `UnansweredIsSafe`, `RefusalIsSafe` and `IngestReads`, on what the device sees.
- An add whose answer was lost is retried without a base and overwrites other clients' changes
  (`CarelessRuns.RetriedAddOverwrites`); over REST its answer then leaves the copy without a version, so later
  updates of it are sent without a base too. Writes without a base are the only ones that overwrite what the
  device had not seen (`Convergence.NoBlindOverwrite`).
- The comment on `CONFLICT_ATTEMPTS` says a write that keeps losing is retried later. The fourth conflict
  is status 409, which the outbox does not retry: the edit is given up (`UpdateExecution.ExecuteUpdate`, exactly
  then or when the document is deleted between a conflict and its pull).
- A row with a NULL in a sort column is on no side of a cursor it agrees with on the columns before
  (`Keyset.NullVanishes`, exactly then). D1's total misses the cursor's own row and its page after the very
  first row claims nothing precedes it (`Keyset.D1MissesItsCursor`, and `Keyset.D1Query` for every request).
- Two conditions on one field that map to one MongoDB operator overwrite each other
  (`MongoFilters.EqualitiesCollide`). A level keeps its meaning, whatever its operators say, exactly when no two
  of its conditions collide so with different values (`MongoFilters.MergedHolds`,
  `MongoFilters.MergedNeedsCompatible`). The two adapters also disagree on `:not`: MongoDB takes none of
  its conditions, Postgres not all of them; each module follows its own adapter.
- `~~` does not round twice: before the first name it underflows the operand stack
  (`Arithmetic.DoublePrefixUnderflows`, exactly then), and later in a text it rounds the operand before it
  (`Arithmetic.ReadBack`); texts without it are read back as written (`Arithmetic.ExpressionRoundTrip`).
- A list keeps reading fields its documents no longer have: a document handed to another parent is
  announced with its old fields under the new ones, a field an update removed has no value in the message
  and JSON drops it, and a `replace` is announced with no fields at all (`FanOut.WriteReads`, exactly then).

## Model

| member | source | states |
|---|---|---|
| Utf16.CompareStrings | packages/client/src/helpers/sortDocs.ts:26-38 | the two-iterator loop returns the code-point order of the strings |
| Utf16.CodePointsInjective | packages/client/src/helpers/sortDocs.ts:26-38 | two strings with the same code points are the same string, lone surrogates included, so only equal strings tie |
| Utf16.EncodedReads | packages/client/src/helpers/sortDocs.ts:26-38 | any code points, encoded in UTF-16, are the code points read back |
| Utf16.WellFormedIsEncoded | packages/client/src/LivequeryIndexedDBStorage.ts:57-66 | a string is well-formed if and only if it is the encoding of some scalar values |
| Utf16.CodePointOrder | packages/client/src/LivequeryIndexedDBStorage.ts:57-66 | the re-encoding loop moves surrogates above and U+E000-U+FFFF below, unit by unit |
| Utf16.RekeyedOrder | packages/client/src/LivequeryIndexedDBStorage.ts:57-66 | on well-formed strings, unit order of the re-encoded strings is code-point order of the originals |
| Utf16.LoneSurrogateMisplaced | packages/client/src/LivequeryIndexedDBStorage.ts:57-66 | every string with a lone surrogate has a well-formed one it sorts before while its key sorts after |
| Utf16.RekeyedOrderNeedsWellFormed | packages/client/src/LivequeryIndexedDBStorage.ts:57-66 | a string keeps its place among the keys of all well-formed strings if and only if it is well-formed |
| Documents.CompareValues | packages/client/src/helpers/sortDocs.ts:40-72 | the loops over arrays and objects return the recursive cross-type order of two JSON values |
| Documents.ValueOrderTotal | packages/client/src/helpers/sortDocs.ts:40-72 | for all values the order is antisymmetric, and values that tie are equal |
| Documents.ValueOrderTransitive | packages/client/src/helpers/sortDocs.ts:40-72 | for all values of any nesting the order is transitive |
| Documents.TypesInOrder | packages/client/src/helpers/sortDocs.ts:10-24 | null, numbers, strings, objects, arrays, booleans: values of different types sort in this order, whatever they hold |
| Documents.ScalarsInOrder | packages/client/src/helpers/sortDocs.ts:40-72 | numbers sort by size, strings by code point, false before true |
| Documents.ArraysInOrder | packages/client/src/helpers/sortDocs.ts:40-72 | the first items that differ decide between two arrays, and else the shorter comes first |
| Documents.ObjectsInOrder | packages/client/src/helpers/sortDocs.ts:40-72 | the first fields that differ decide between two objects: their types, then their names, then their values |
| Documents.ExtremeIsExtreme | packages/client/src/helpers/sortDocs.ts:74-91 | an array under a sort field is reduced to its smallest element ascending and its largest descending |
| Documents.IdOrderTotal | packages/client/src/helpers/sortDocs.ts:93-108 | canonical ids (plain, UUID, ObjectId) are totally ordered, and only one and the same id ties |
| Documents.CompareDocs | packages/client/src/helpers/sortDocs.ts:110-129 | the loop over sorters and the id tie-break returns the document order |
| Documents.DocOrderTotal | packages/client/src/helpers/sortDocs.ts:110-129 | documents are antisymmetrically ordered for any sorters and directions; only equal ids tie |
| Documents.DocOrderTransitive | packages/client/src/helpers/sortDocs.ts:110-129 | the document order is transitive for any mix of values, missing fields and directions |
| Documents.DocOrderAgrees | packages/client/src/helpers/sortDocs.ts:110-129 | documents that agree on every sort value and the id compare alike to every other document |
| Documents.FirstSorterDecides | packages/client/src/helpers/sortDocs.ts:110-129 | the first sorter under which two documents differ decides, in its direction |
| Documents.IdKindsInOrder | packages/client/src/helpers/sortDocs.ts:93-108 | plain ids come before UUIDs and these before ObjectIds, and within a kind the text decides, in lower case for the hexadecimal ones |
| Paging.Decode | packages/client/src/helpers/paginateDocs.ts:22-45 | the decoding loop rebuilds one path at a time what a cursor stands for, or nothing where JavaScript would throw |
| Paging.CursorRoundTrip | packages/client/src/helpers/paginateDocs.ts:12-45 | every encoded cursor decodes, to the same id, index and value on every sort path, nested paths and array elements included |
| Paging.CursorSortsAsItsDocument | packages/client/src/helpers/paginateDocs.ts:12-89 | a decoded cursor compares to every document exactly as the document it encodes |
| Paging.OrderedUnique | packages/client/src/helpers/sortDocs.ts:131-135 | a strictly ordered listing of given documents is unique, so any correct sort gives the same page |
| Paging.PaginatedIsWindow | packages/client/src/helpers/paginateDocs.ts:48-89 | a page is the window its cursor and limit name in the order, with totals, counts and links of that window |
| Paging.WalkVisitsAll | packages/client/src/helpers/paginateDocs.ts:48-89 | following `paging.next` from the first page lists every document once, in order, in ceil(n / limit) pages and stops |
| Paging.PrevReturnsPrecedingPage | packages/client/src/helpers/paginateDocs.ts:48-89 | `:before` on a page's prev cursor gives back the page before it |
| Paging.InsertBeforeCursor | packages/client/src/helpers/paginateDocs.ts:48-89 | a document added at or before a cursor never changes the documents of the page after it |
| IndexedStorage.KeyOrderIsDocOrder | packages/client/src/LivequeryIndexedDBStorage.ts:59-110 | keys of any two clean documents compare as the documents do, reversed when the plan descends |
| IndexedStorage.SortKeyOrder | packages/client/src/LivequeryIndexedDBStorage.ts:73-80 | index keys of two values under a sort field compare as the values sort |
| IndexedStorage.IdKeyOrder | packages/client/src/LivequeryIndexedDBStorage.ts:82-86 | id keys compare as ids sort |
| IndexedStorage.PlanOf | packages/client/src/LivequeryIndexedDBStorage.ts:113-142 | the loop over the filters accepts exactly the queries an index can answer, with their limit, direction and cursor; entries that are null are skipped |
| IndexedStorage.PlanIs | packages/client/src/LivequeryIndexedDBStorage.ts:113-142 | an index is asked exactly when there is a limit, no condition but on null, at most one sort entry on an indexable path, cursors of one kind only and all of them readable; and then for that limit, path and cursor |
| IndexedPages.IndexIsSorted | packages/client/src/LivequeryIndexedDBStorage.ts:311-330 | an index read in the plan's direction is the collection sorted by `compareDocs` |
| IndexedPages.BeyondWalk | packages/client/src/LivequeryIndexedDBStorage.ts:313-330 | walking an index beyond a document lists exactly what sorts after it, or before it nearest first, in all four directions |
| IndexedPages.LivequeryIndexedDBStorage.Add | packages/client/src/LivequeryIndexedDBStorage.ts:216-229 | the row is written and an exact count stays exact, whether or not the id was there |
| IndexedPages.LivequeryIndexedDBStorage.Update | packages/client/src/LivequeryIndexedDBStorage.ts:231-248 | fields are merged and the row moved; the untouched count stays exact exactly when the move lands on no other row |
| IndexedPages.LivequeryIndexedDBStorage.Delete | packages/client/src/LivequeryIndexedDBStorage.ts:250-262 | the row goes and an exact count stays exact |
| IndexedPages.LivequeryIndexedDBStorage.Count | packages/client/src/LivequeryIndexedDBStorage.ts:299-307 | an existing count moves by delta and never below zero; no count is started here |
| IndexedPages.LivequeryIndexedDBStorage.StartCounting | packages/client/src/LivequeryIndexedDBStorage.ts:285-296 | the first scan counts the rows; an existing count is left alone |
| IndexedPages.LivequeryIndexedDBStorage.IndexedPage | packages/client/src/LivequeryIndexedDBStorage.ts:311-383 | a page read from an index is the page the sorted collection has at the cursor: same documents, total and neighbours, and the same counts when the cursor's index is current; nothing when index or count is missing or odd rows exist |
| IndexedPages.LivequeryIndexedDBStorage.Query | packages/client/src/LivequeryIndexedDBStorage.ts:178-206 | whatever answers, the page is that of `queryDocs` unless the plan skipped a null condition some document fails, cursors and counts included for current cursors; then it holds only documents whose fields equal, as scalars, what every condition asks, with their number for a total, all of them without a limit, in the order asked for and beyond the cursors; a cursor on an array or object is refused by the database, and a plan without its index or count starts them |
| IndexedPages.QueryAnswers | packages/client/src/helpers/queryDocs.ts:11-18 | for any documents and filters, `queryDocs` answers documents whose field is, for every condition, the very scalar asked for, each once, with their number for a total; all of them without a limit, with a limit as many as it allows; up or down the first sort entry's field as it says, and on the asked side of its cursors |
| IndexedPages.MintedCursorIsCurrent | packages/client/src/LivequeryIndexedDBStorage.ts:355-379 | every cursor handed out for a state of the collection is current on that state |
| IndexedPages.PlanIsGood | packages/client/src/LivequeryIndexedDBStorage.ts:113-142 | a plan asks for exactly what `queryDocs` answers whenever the conditions it skipped leave every document |
| IndexedPages.NullConditions | packages/client/src/LivequeryIndexedDBStorage.ts:119-119 | conditions on null are skipped by the plan: the indexed page is right exactly when every document passes them |
| IndexedPages.IdIndexAgrees | packages/client/src/LivequeryIndexedDBStorage.ts:88-104 | an index on `id` holds plain strings: it gives a collection in the order of its documents if and only if no two ids of different kinds (plain, UUID, ObjectId) are in the other order as strings |
| IndexedPages.NullSortReadsIds | packages/client/src/LivequeryIndexedDBStorage.ts:119-124 | a sort entry that is null is skipped by the plan, which then reads the ids, and kept by `queryDocs`, which sorts by it: the two orders are one if and only if no two documents sort one way by the field and the other way by id |
| VersionedServer.Collection.Save | packages/mongodb/src/withVersion.ts:27-55 | a write commits its record at once under the version it was given |
| VersionedServer.Collection.Put | packages/mongodb/src/MongoDatasource.ts:272-301 | plain fields are set and every other field kept, or operators applied, under the next version only into a live document at the expected version; otherwise a conflict, or nothing, and no change |
| VersionedServer.Collection.Post | packages/mongodb/src/MongoDatasource.ts:233-270 | an insert takes the next version, or nothing when the id is taken, tombstones included |
| VersionedServer.Collection.Delete | packages/mongodb/src/MongoDatasource.ts:303-316 | a live document becomes a tombstone under the next version |
| VersionedServer.CommitOrder | packages/mongodb/src/withVersion.ts:33-45 | versions strictly increase in commit order, whatever the database clock does |
| VersionedServer.CurrentIsNewest | packages/mongodb/src/withVersion.ts:33-45 | the current record is the newest of its document, and a tombstone is its last |
| VersionedServer.CurrentWasCommitted | packages/mongodb/src/withVersion.ts:33-45 | every stored document has its current commit, and the commit that created it, in the log |
| VersionedServer.NextVersionIs | packages/mongodb/src/withVersion.ts:33-45 | a version is the least one past the previous that is not behind the database clock |
| DeltaSync.Scope.Ingest | packages/client/src/LivequerySync.ts:448-459 | versions are noted first and changes stored after; it comes to ingesting one change after another, and keeps deleted documents away unless a change creates one |
| DeltaSync.Scope.Delta | packages/client/src/LivequerySync.ts:366-387 | with any writes committing between its pages, a delta ends with everything committed before its last page read ingested, and `synced_at` is at the newest of it, so nothing up to the new `synced_at` is missed; every document whose tombstone it read is off the device, and everything deleted is if it was before |
| DeltaSync.PageCovers | packages/client/src/LivequerySync.ts:366-387 | one page covers every version up to its end, the last page all there are, and a page that is not the last makes progress |
| DeltaSync.DeliverCovers | packages/client/src/LivequerySync.ts:422-439 | while the channel carries everything the device lacks, moving `synced_at` to an event's version passes nothing |
| DeltaSync.StepKeeps | packages/client/src/LivequerySync.ts:262-271 | writes, deliveries, drops, reconnects, page reads and completions keep the sync invariant |
| DeltaSync.SyncedAtNeverOvertakes | packages/client/src/LivequerySync.ts:323-340 | over every run whose catch-ups complete only when the channel carries what the device lacks, `synced_at` never passes a change that was not ingested; and while no event brings a deleted document back, everything deleted up to it is off the device |
| DeltaSync.ContinuousIsComplete | packages/client/src/LivequerySync.ts:323-340 | a catch-up on a channel opened before its last page was read may complete |
| DeltaSync.CompletionIsSafe | packages/client/src/LivequerySync.ts:323-340 | completing on an open channel is safe, whatever follows until the channel drops or is reopened, if and only if the channel carries everything the device lacks |
| DeltaSync.ReopenDuringCatchUpOvertakes | packages/client/src/LivequerySync.ts:262-271 | whenever something is committed between the drop and the reconnect of a catch-up past its last page, the old catch-up may still complete and the change is passed |
| DeltaSync.IngestBuried | packages/client/src/LivequeryClient.ts:806-845 | ingesting one change keeps deleted documents away exactly when it is not a late creation of a document known to be deleted |
| DeltaSync.StepBuried | packages/client/src/LivequeryClient.ts:806-845 | and so does every step: only the delivery of such an event brings a deleted document back |
| DeltaSync.TombstoneHeals | packages/client/src/LivequeryClient.ts:806-845 | the tombstone, once delivered, takes the document away again |
| DeltaSync.ResurrectedForGood | packages/client/src/LivequerySync.ts:366-387 | when a drop loses the tombstone's event, a document brought back stays, however large the overlap |
| DeltaSync.DrainedIsCurrent | packages/client/src/LivequerySync.ts:422-439 | connected, live and with nothing left to deliver, the device has every document as the server has it, and no other |
| DeltaSync.DeliverMoves | packages/client/src/LivequerySync.ts:422-439 | an event that is not late is what the device then holds, or takes its document away; it moves `synced_at` up to its version only while live |
| DeltaSync.MoreIsLeft | packages/client/src/LivequerySync.ts:366-387 | a read says that there is more exactly when it left something out that is newer than where it started |
| DeltaSync.AnswerShows | packages/client/src/LivequerySync.ts:422-439 | the realtime query's first answer shows the document as the server has it and moves no `synced_at` |
| Outbox.CoalescingKeepsOrder | packages/client/src/LivequeryOutbox.ts:187-222 | coalescing keeps the FIFO order of what it leaves, never touches the entry in flight, and drops entries only for a delete of their document |
| Outbox.CoalescingKeepsAddFirst | packages/client/src/LivequeryOutbox.ts:187-222 | no update stands before an add of its document, except exactly when an add is enqueued behind a queued update of it |
| Outbox.FoldedIntoUnsent | packages/client/src/LivequeryOutbox.ts:187-222 | a folded write waits for an entry of its document that is not being sent; a write settles at once only when the server never heard of the document |
| Outbox.DeleteClears | packages/client/src/LivequeryOutbox.ts:187-222 | after a delete nothing of the document is left to send but the delete and what is in flight |
| Outbox.DecisionIs | packages/client/src/LivequeryOutbox.ts:187-222 | a write is settled at once exactly when nothing has to be sent for it; an update waits for the oldest unsent add or update of its document, if there is one; anything else gets an entry of its own at the end of the queue |
| Outbox.EntriesStay | packages/client/src/LivequeryOutbox.ts:187-271 | an entry leaves the queue exactly when a delete of its document finds it unsent, it was answered for good, or all was flushed; any other stays as it was, but for a counted retry or its document's new id |
| Outbox.EntriesEnter | packages/client/src/LivequeryOutbox.ts:187-222 | only an enqueued write enters the queue, as its own entry, and then its caller waits for that |
| Outbox.ToldExactly | packages/client/src/LivequeryOutbox.ts:304-327 | exactly the callers of the given entries learn how these ended, and wait no more |
| Outbox.RenamedKeepsAddFirst | packages/client/src/LivequeryOutbox.ts:163-173 | following a document to its new id keeps adds first exactly when no update of one id stands before an add of the other |
| Outbox.QueueKeeps | packages/client/src/LivequeryOutbox.ts:187-271 | every event, restarts and flushes included, keeps the queue in order and what is in flight its oldest entry, still queued unless the storage was flushed |
| Outbox.AddsStayFirst | packages/client/src/LivequeryOutbox.ts:187-271 | an event keeps every add before the updates of its document if and only if it is in turn: no add behind a queued update, no rename across one |
| Outbox.SentInTurn | packages/client/src/LivequeryOutbox.ts:236-271 | over every run, what goes out is the oldest entry, after all sent before, and stays queued while it is out; and while events are in turn no update goes out before a queued add of its document |
| Outbox.AccountedTold | packages/client/src/LivequeryOutbox.ts:304-327 | telling the callers of entries that leave keeps every call either resolved once or waiting for a queued entry |
| Outbox.LivequeryOutbox.Coalesce | packages/client/src/LivequeryOutbox.ts:187-222 | the stored queue becomes the coalesced one, callers of dropped entries are done, and the caller waits for a queued entry |
| Outbox.LivequeryOutbox.Enqueue | packages/client/src/LivequeryOutbox.ts:142-161 | the call settles at once, as queued when the queue is stuck, or waits for its entry; adds stay first exactly when none is enqueued behind an update of its document |
| Outbox.LivequeryOutbox.Send | packages/client/src/LivequeryOutbox.ts:236-254 | what is sent is the oldest entry, after everything sent before, and no update while an add of its document is queued if adds were first |
| Outbox.LivequeryOutbox.Remap | packages/client/src/LivequeryOutbox.ts:163-173 | entries of the document follow it to its new id, in place; adds stay first exactly when the rename crosses no update with an add |
| Outbox.LivequeryOutbox.Answered | packages/client/src/LivequeryOutbox.ts:254-271 | a retryable failure keeps the entry and releases every caller as queued; any other answer removes it and tells its callers |
| Outbox.LivequeryOutbox.Drop | packages/client/src/LivequeryOutbox.ts:207-216 | entries of a deleted document leave the queue and their callers are told they are done |
| Outbox.LivequeryOutbox.Settle | packages/client/src/LivequeryOutbox.ts:310-315 | every caller of the entry learns how it ended, and nobody else |
| Outbox.LivequeryOutbox.SettleAll | packages/client/src/LivequeryOutbox.ts:317-327 | every waiting caller learns how its write ended |
| Outbox.LivequeryOutbox.Cleared | packages/client/src/LivequeryOutbox.ts:175-185 | a flushed storage leaves no entry and no waiter |
| Outbox.LivequeryOutbox.Stop | packages/client/src/LivequeryOutbox.ts:105-112 | stopping releases the waiters once and keeps the queue |
| LocalDocs.Rebase | packages/client/src/LivequeryClient.ts:111-117 | a copy of the remote document with exactly the edited fields put back |
| LocalDocs.Ingest | packages/client/src/LivequeryClient.ts:806-845 | whatever is ingested, a field with an unconfirmed edit keeps its value and its `_prev`; any other takes the remote value where the change is taken, goes where the change replaces the document, and else stays |
| LocalDocs.EditsSurvive | packages/client/src/LivequeryClient.ts:102-117 | no remote change, edit or confirmation loses an unconfirmed edit: what is to be sent after a newer edit is what was to be sent with the newer values over it, and only the confirmation of its very value ends one |
| LocalDocs.EditAdds | packages/client/src/LivequeryClient.ts:660-687 | an edit is what the device reads and sends from then on, over every earlier one; `_prev` keeps the value from before the first |
| LocalDocs.EditsAdd | packages/client/src/LivequeryClient.ts:660-687 | after any number of edits the next update sends the last value given to each field and nothing that was not edited, and `_prev` holds the value from before the first |
| LocalDocs.ConfirmedUpdateReads | packages/client/src/LivequeryClient.ts:1085-1096 | a confirmation changes nothing that is read; what was sent and not edited since is no longer pending |
| LocalDocs.ConfirmedAddWellFormed | packages/client/src/LivequeryClient.ts:1065-1083 | a confirmed add keeps exactly the edits made since it was sent |
| LocalDocs.ConfirmedAddReads | packages/client/src/LivequeryClient.ts:1065-1083 | after a confirmed add the device reads the server's answer except in fields edited since, which stay pending |
| LocalDocs.RefusedReads | packages/client/src/LivequeryClient.ts:1054-1063 | a refusal is recorded, ends what was refused and changes no field |
| LocalDocs.NothingUnsent | packages/client/src/LivequeryClient.ts:106-109 | right after sending nothing is unsent |
| LocalWrites.StepKeeps | packages/client/src/LivequeryClient.ts:604-745 | every step of local writes, sends, answers, ingests, crashes and recovery keeps the invariant if and only if it is guarded: only a queued write that the outbox dismisses, or a recovered delete that meets an unsent add, can break it, and exactly when nothing else answers for what is left |
| LocalWrites.CrashKeeps | packages/client/src/LivequeryClient.ts:942-978 | a crash between any two steps keeps it without any guard |
| LocalWrites.NoOrphans | packages/client/src/LivequeryClient.ts:604-745 | then every pending document has a queue entry, an intent or a recorded refusal |
| LocalWrites.NothingOrphaned | packages/client/src/LivequeryClient.ts:604-978 | over every run of guarded steps, nothing pending is ever orphaned |
| LocalWrites.RecoveredIsQueued | packages/client/src/LivequeryClient.ts:949-978 | once recovery has handled every intent, what is pending is in the queue itself or refused |
| LocalWrites.TouchShows | packages/client/src/LivequeryClient.ts:604-745 | what the device shows once a call touched its document: the new document as given, the edited fields over the others, nothing of a document never sent, a document on its way out; no other document changes |
| LocalWrites.RecoverQueues | packages/client/src/LivequeryClient.ts:949-978 | recovery enqueues the write of an intent exactly when the device still has it to send and no queued entry would send it |
| LocalWrites.AnswerSettles | packages/client/src/LivequeryClient.ts:1054-1103 | an answer for good takes its entry off the queue, one to try again leaves it, and nothing else leaves or enters |
| LocalWrites.WhatIsSent | packages/client/src/LivequeryClient.ts:980-1041 | the oldest entry goes out: an add with every field the device reads, an update with exactly the edited ones |
| LocalWrites.LastEditIsSent | packages/client/src/LivequeryClient.ts:980-1041 | over any run of calls, ingests, crashes and recovery in which no answer is applied, an update that goes out sends the last value given to every field |
| LocalWrites.StaleUpdateOrphans | packages/client/src/LivequeryClient.ts:660-687 | whenever an update queues with a stale view of its add and nothing else answers for the document, the edit is orphaned |
| LocalWrites.StaleUpdateReached | packages/client/src/LivequeryClient.ts:910-920 | and a run of ordinary steps reaches that state |
| LocalWrites.MetAddOrphans | packages/client/src/LivequeryClient.ts:949-978 | whenever a recovered delete meets an unsent add with no other delete to send, the deletion is orphaned |
| LocalWrites.MetAddReached | packages/client/src/LivequeryOutbox.ts:207-216 | and a run of ordinary steps reaches that state |
| LocalWrites.DismissedDeleteOrphans | packages/client/src/LivequeryOutbox.ts:207-216 | whenever a delete that waited is dismissed while its document is back and edited, it drops the queued edit, and after a restart nothing sends edit or delete |
| LocalWrites.DismissedDeleteReached | packages/client/src/LivequeryClient.ts:690-745 | and a run of ordinary steps reaches that state |
| Convergence.IngestReads | packages/client/src/LivequeryClient.ts:806-845 | a copy that took in a live change no older than itself reads as that change if and only if the change replaced it or carries every field the copy has without a pending edit |
| Convergence.TakenMakes | packages/mongodb/src/MongoDatasource.ts:272-301 | what the server makes of a conditional update succeeds its base, changes only what is sent, with nothing of the document in between |
| Convergence.StepKeeps | packages/client/src/LivequeryClient.ts:980-1103 | every step that passes what the device itself can check leaves each copy reading as the server did at its version |
| Convergence.CopiesReadAsTheServerDid | packages/client/src/LivequeryClient.ts:806-845 | over every run of such steps a copy reads, outside `_prev`, exactly as the server did at the version it claims |
| Convergence.DevicesAgree | packages/client/src/LivequeryClient.ts:1008-1052 | then devices at one version with nothing pending show the same document, and the server's at its version |
| Convergence.NoBlindOverwrite | packages/client/src/LivequeryClient.ts:993-1041 | an accepted write replaces a version its device had not rebased onto only if it was sent without a base |
| Convergence.LastEditReachesServer | packages/client/src/LivequeryClient.ts:1008-1041 | over any run in which the copy stays and no answer is applied, the next accepted update leaves every edited field on the server with the value last given to it, and every other as it was |
| Convergence.UpdateIsTaken | packages/mongodb/src/MongoDatasource.ts:272-301 | the server takes an update exactly when the document is live and at the base it is sent with, if any; it then has exactly the fields sent over its own, under a newer version |
| Convergence.AddIsPosted | packages/mongodb/src/MongoDatasource.ts:233-270 | a new document that is sent is on the server as on the device, unless its id is taken |
| Convergence.AnswerSettles | packages/client/src/LivequeryClient.ts:1054-1103 | once a write is answered or given up nothing is out, and an add that was answered is not sent again |
| Convergence.ConfirmIsSafe | packages/client/src/LivequeryClient.ts:1085-1096 | confirming an update is right whatever the server may hold if and only if copy and answer line up: the answered version, or the base with the update still on it |
| Convergence.AddIsSafe | packages/client/src/LivequeryClient.ts:1065-1083 | confirming a new document is right if and only if the copy holds no other field |
| Convergence.UnansweredIsSafe | packages/client/src/LivequeryClient.ts:1085-1096 | an answer without a version, as a tombstone gives, is right to confirm whatever the server may hold if and only if everything sent was edited again |
| Convergence.RefusalIsSafe | packages/client/src/LivequeryClient.ts:1054-1063 | a refused update leaves the copy right whatever the server may hold if and only if nothing was pending |
| Convergence.AwaitingLinesUp | packages/client/src/LivequeryClient.ts:1008-1041 | a copy that stayed on the device and took in nothing newer lines up with the answer |
| Convergence.UndisturbedRunsAreCareful | packages/client/src/LivequeryClient.ts:980-1103 | runs where no copy leaves and nothing newer arrives while an update is out, updates have a base and a version for an answer, and writes take no field away, pass every check |
| CarelessRuns.ReplacedWhileOut | packages/client/src/LivequeryClient.ts:1085-1096 | a run: the document leaves and comes back while an update is out, and the answer's version is stamped on a copy without the edit |
| CarelessRuns.TombstoneAnswered | packages/mongodb/src/MongoDatasource.ts:281-288 | a run: an update of a deleted document is answered without a version and its edit counts as confirmed |
| CarelessRuns.RefusedStays | packages/client/src/LivequeryClient.ts:1054-1063 | a run: a refused update stays on the copy with nothing pending |
| CarelessRuns.NewerTakenForOlder | packages/client/src/LivequeryClient.ts:1085-1096 | a run: a newer version ingested before the confirmation is taken for the older one |
| CarelessRuns.RemovedFieldStays | packages/mongodb/src/MongoDatasource.ts:353-358 | a run: a field taken away by an operator stays on the copy that merged the change |
| CarelessRuns.RetriedAddOverwrites | packages/client/src/LivequeryClient.ts:993-1005 | a run: an add whose answer was lost is retried as an update without a base, over a change the device never saw |
| UpdateExecution.Attempt | packages/client/src/LivequeryClient.ts:1010-1019 | an attempt meets a conflict exactly when the document is there at another version than the copy is based on; accepted, server and copy have every edit |
| UpdateExecution.Pull | packages/client/src/LivequeryClient.ts:1042-1052 | the server's copy is taken with the edits on it; of a document deleted meanwhile there is none |
| UpdateExecution.ExecuteUpdate | packages/client/src/LivequeryClient.ts:1008-1052 | whatever others do before each attempt and before each pull: an update is given up exactly when all four attempts meet a change, is refused exactly when the document is deleted between a conflict and its pull, is unanswered on a deleted document, and otherwise server and copy have every edit |
| Gateway.StepKeeps | packages/core/src/WebsocketGatewayBase.ts:182-420 | every step keeps the registry invariant |
| Gateway.RegistryHolds | packages/core/src/WebsocketGatewayBase.ts:182-420 | over every run: a subscribed client is connected or has a pending detach, a socket lists exactly its client's refs, no empty ref remains |
| Gateway.ExpireKeeps | packages/core/src/WebsocketGatewayBase.ts:314-324 | an expired grace window leaves nothing of its client |
| Gateway.LostKeeps | packages/core/src/WebsocketGatewayBase.ts:136-175 | while a client is away every other step keeps its subscriptions and adds exactly what it is owed, the newest 1000 |
| Gateway.ReconnectReplays | packages/core/src/WebsocketGatewayBase.ts:217-256 | a client that drops and starts again within its window is sent `hello` and then exactly the changes published meanwhile, in order, or the newest 1000 |
| Gateway.OwedOnce | packages/core/src/WebsocketGatewayBase.ts:136-175 | with one subscription each matching change is owed once |
| Gateway.OwedExactly | packages/core/src/WebsocketGatewayBase.ts:136-175 | a change is owed once for a subscription of its collection and once for one of its document |
| Gateway.NewestAreKept | packages/core/src/WebsocketGatewayBase.ts:305-312 | of more than 1000 missed changes the newest 1000 are kept |
| Gateway.LiveDelivery | packages/core/src/WebsocketGatewayBase.ts:136-175 | over any run in which a client stays connected on a live socket, its frames followed by those waiting grow by exactly one frame for each published change that matches its subscriptions, in order, and by nothing else; with nothing waiting all of it is sent |
| Gateway.FlushSends | packages/core/src/WebsocketGatewayBase.ts:161-175 | a flush of a live socket moves its oldest waiting frame to the end of what was sent, and touches no other socket |
| Gateway.StartedIs | packages/core/src/WebsocketGatewayBase.ts:217-256 | after a start the client is connected by that socket with all its subscriptions, a socket it had before is cut off, and nobody else is touched |
| Gateway.CloseLeaves | packages/core/src/WebsocketGatewayBase.ts:258-303 | a closed socket leaves its client disconnected, subscribed as it was for the window or to nothing without one |
| Gateway.ListenSubscribes | packages/core/src/WebsocketGatewayBase.ts:350-386 | a connected client that listens is subscribed to that ref, and nobody else's subscriptions change |
| Gateway.UnsubscribeLeaves | packages/core/src/WebsocketGatewayBase.ts:388-420 | a client that unsubscribes leaves exactly those refs, and nobody else does |
| Gateway.FramesOnlyGrow | packages/core/src/WebsocketGatewayBase.ts:136-175 | later frames only come after what was written to a socket |
| Gateway.WebsocketGateway.OnConnection | packages/core/src/WebsocketGatewayBase.ts:182-186 | a new socket is accepted, unstarted and silent |
| Gateway.WebsocketGateway.OnStart | packages/core/src/WebsocketGatewayBase.ts:217-256 | start, takeover and return to a running window, as one new state |
| Gateway.WebsocketGateway.OnClose | packages/core/src/WebsocketGatewayBase.ts:258-303 | the close of a socket keeps its client's subscriptions for the window, or detaches them |
| Gateway.WebsocketGateway.GraceOver | packages/core/src/WebsocketGatewayBase.ts:314-324 | the timer detaches exactly the refs of the client and forgets what it missed |
| Gateway.WebsocketGateway.UnsubscribeClient | packages/core/src/WebsocketGatewayBase.ts:388-394 | a client leaves its own refs |
| Gateway.WebsocketGateway.Listen | packages/core/src/WebsocketGatewayBase.ts:350-386 | a subscription is recorded with its socket, once |
| Gateway.WebsocketGateway.Detach | packages/core/src/WebsocketGatewayBase.ts:396-420 | the loop takes a client off the refs, and refs nobody is left on go |
| Gateway.WebsocketGateway.KeepMissed | packages/core/src/WebsocketGatewayBase.ts:305-312 | a change is kept for a client that may return, the newest 1000 of them |
| Gateway.WebsocketGateway.Broadcast | packages/core/src/WebsocketGatewayBase.ts:136-175 | the fan-out loops send to whom can be reached, once per target, and keep for whom cannot |
| Gateway.WebsocketGateway.Flush | packages/core/src/WebsocketGatewayBase.ts:171-174 | a deferred frame is written at the end of a live socket's frames when its turn comes, oldest first, or swallowed by a dead socket |
| Hibernation.StepKeeps | packages/core/src/cloudflare/HibernatableWebsocketGateway.ts:180-328 | starts, registrations, closes, alarms and evictions keep records, registry, expiries and alarm in step |
| Hibernation.NobodyForgotten | packages/core/src/cloudflare/HibernatableWebsocketGateway.ts:180-328 | over every run the records are the registry, and each absent subscriber has an expiry the alarm does not miss |
| Hibernation.AlarmKeeps | packages/core/src/cloudflare/HibernatableWebsocketGateway.ts:180-207 | after an alarm whoever is still away is watched again |
| Hibernation.AlarmExact | packages/core/src/cloudflare/HibernatableWebsocketGateway.ts:180-207 | an alarm forgets exactly the absent clients whose window has passed |
| Hibernation.HibernationIsTransparent | packages/core/src/cloudflare/HibernatableWebsocketGateway.ts:295-315 | a woken instance has the registry of the evicted one for every socket still open |
| Hibernation.RestoreKeeps | packages/core/src/cloudflare/HibernatableWebsocketGateway.ts:295-315 | whatever was closed while it was away, what is restored satisfies the invariant |
| Hibernation.SubscriptionsMove | packages/core/src/cloudflare/HibernatableWebsocketGateway.ts:150-315 | step by step, hibernations included, who is subscribed to what: a registration adds one ref of a connected client, a client leaves what it unsubscribes, a close without a window and an alarm past it take all, everything else nothing |
| Hibernation.ConnectionsMove | packages/core/src/cloudflare/HibernatableWebsocketGateway.ts:165-315 | a client is connected from its start until its socket closes, hibernations included |
| Hibernation.WindowsMove | packages/core/src/cloudflare/HibernatableWebsocketGateway.ts:165-207 | a client that leaves is waited for until the window has passed, one that returns is not waited for, and with nobody to wait for the next alarm is ten minutes away |
| Hibernation.HibernatableWebsocketGateway.Alarm | packages/core/src/cloudflare/HibernatableWebsocketGateway.ts:180-207 | the two loops over expiries and orphans do what an alarm is to do |
| Hibernation.HibernatableWebsocketGateway.Restore | packages/core/src/cloudflare/HibernatableWebsocketGateway.ts:295-315 | records are read back, open sockets wrapped and everyone else watched |
| Hibernation.HibernatableWebsocketGateway.Register | packages/core/src/cloudflare/HibernatableWebsocketGateway.ts:150-159 | a subscription of a connected client is recorded; any other is refused |
| Hibernation.HibernatableWebsocketGateway.OnClose | packages/core/src/cloudflare/HibernatableWebsocketGateway.ts:165-170 | a closed client gets an expiry and an alarm no later |
| Hibernation.HibernatableWebsocketGateway.Detach | packages/core/src/cloudflare/HibernatableWebsocketGateway.ts:259-269 | what leaves the registry leaves the records |
| Hibernation.DetachKeeps | packages/core/src/cloudflare/HibernatableWebsocketGateway.ts:259-269 | after a detach registry, sockets and records still say one thing, nobody new is absent and unwatched, and a client that left all its refs is not |
| Hibernation.RegisterKeeps | packages/core/src/cloudflare/HibernatableWebsocketGateway.ts:150-159 | a registration keeps records, registry, expiries and alarm in step |
| Hibernation.CloseKeeps | packages/core/src/cloudflare/HibernatableWebsocketGateway.ts:165-170 | and so does the close of a socket |
| Hibernation.HibernatableWebsocketGateway.Arm | packages/core/src/cloudflare/HibernatableWebsocketGateway.ts:317-322 | the alarm is set no later than asked and never moved later |
| Keyset.SomeBranchFits | packages/postgres/src/PostgresQuery.ts:260-291 | some branch of the OR-of-AND predicate fits exactly when the row sorts on that side in the mixed-direction order |
| Keyset.SelectedSorts | packages/postgres/src/PostgresQuery.ts:275-291 | without NULLs the keyset selects exactly the rows on its side of the cursor |
| Keyset.NullVanishes | packages/postgres/src/PostgresQuery.ts:275-291 | a row whose first NULL is in sort column k is on neither side of a cursor without NULLs if and only if the two agree on every column before k; otherwise it is on the side where it sorts |
| Keyset.SelectedExactly | packages/postgres/src/PostgresQuery.ts:275-291 | with NULLs anywhere in row or cursor, the keyset selects exactly the rows on its side for which that is decided before any NULL |
| Keyset.TiesAreBroken | packages/postgres/src/PostgresQuery.ts:260-273 | with a unique last column no two rows sort alike |
| Keyset.RowOrderTransitive | packages/postgres/src/PostgresQuery.ts:260-273 | the mixed-direction order is transitive |
| Keyset.FirstDifferenceOrders | packages/postgres/src/PostgresQuery.ts:260-273 | the first sort column in which two rows differ decides, in its direction |
| Keyset.WindowIs | packages/postgres/src/PostgresQuery.ts:445-484 | the window starts right after the cursor, ends right before it, or starts half a page before it, and is as full as the rows allow |
| Keyset.PostgresKeyset | packages/postgres/src/PostgresQuery.ts:275-291 | the pivot loop builds a predicate that selects that side whatever the statement bound before |
| Keyset.BoundStays | packages/postgres/src/Sql.ts:14-21 | parameters bound later change no predicate |
| Keyset.CursorCondition | packages/d1/src/D1Query.ts:74-105 | the positional predicate, without branches on missing cursor values, selects the same rows |
| Keyset.LoHiSplit | packages/postgres/src/PostgresQuery.ts:275-291 | before, equal and after partition the ordered rows into three runs |
| Keyset.WhereSelects | packages/postgres/src/PostgresQuery.ts:275-291 | a keyset leaves exactly the rows before its cursor, or those after it |
| Keyset.Around | packages/postgres/src/PostgresQuery.ts:448-466 | half a page before the anchor and the rest from the anchor on are one contiguous window |
| Keyset.PostgresItems | packages/postgres/src/PostgresQuery.ts:445-484 | whatever is asked, the items are a contiguous window of the filtered rows |
| Keyset.PostgresPage | packages/postgres/src/PostgresQuery.ts:445-510 | a non-empty page has prev + items + next equal to the filtered total; an empty one counts nothing |
| Keyset.PostgresWalk | packages/postgres/src/PostgresQuery.ts:445-510 | following `next` from page to page visits every filtered row once, in order, in the least number of pages that holds them |
| Keyset.D1Query | packages/d1/src/D1Query.ts:343-384 | one row over the limit tells of a next page; items are the window, and total and neighbours are as the counts make them |
| Keyset.D1Walk | packages/d1/src/D1Query.ts:343-384 | and so does following D1's `has.next` |
| Keyset.D1MissesItsCursor | packages/d1/src/D1Query.ts:343-384 | the total misses the cursor's own row, and the page after the very first row has no prev |
| SqlFilters.BuildGroup | packages/postgres/src/PostgresQuery.ts:168-209 | the loop and the nested calls print the text and bind the parameters of the group |
| SqlFilters.GroupReads | packages/postgres/src/PostgresQuery.ts:168-209 | read back with SQL's precedence and its parameters, the text is true, false or unknown of every row as the filter is, at any nesting and wherever it stands in a statement |
| SqlFilters.FilterSays | packages/postgres/src/PostgresQuery.ts:168-209 | the filter is true of a row when it says something and all of it is true, false when some of it is false; in an `:or` true when some of it is true, false when all of it is false; `:not` says the opposite, the likes of a level are alternatives, and an unknown operator says nothing |
| SqlFilters.TestSays | packages/postgres/src/PostgresQuery.ts:139-161 | for every operator, when it is true and when it is false of a cell, NULLs included |
| SqlFilters.GroupUses | packages/postgres/src/PostgresQuery.ts:168-209 | every parameter the group binds stands in its text exactly once |
| SqlFilters.JoinReads | packages/postgres/src/PostgresQuery.ts:205-209 | operands joined by AND or OR read as one expression over them |
| SqlFilters.LikeIsLiteral | packages/postgres/src/Sql.ts:46-48 | an escaped term finds exactly the texts that contain it: wildcards in it match themselves |
| SqlFilters.EscapedReads | packages/postgres/src/Sql.ts:46-48 | an escaped term is matched character by character |
| SqlFilters.PatternMatches | packages/postgres/src/Sql.ts:46-48 | LIKE is what SQL has it: the text falls into parts that fit the pattern's pieces, any text for `%`, any character for `_`, else the character itself |
| SqlFilters.FoldedAlike | packages/postgres/src/PostgresQuery.ts:181-186 | ILIKE tells two texts apart unless they differ in the case of ASCII letters alone |
| MongoFilters.ReduceFields | packages/mongodb/src/MongoQuery.ts:242-281 | one pass over a level sets its likes apart and merges the other conditions by field |
| MongoFilters.BuildMatch | packages/mongodb/src/MongoQuery.ts:242-302 | the clauses of a filter are put together one after the other |
| MongoFilters.BuildBranches | packages/mongodb/src/MongoQuery.ts:333-370 | one clause for each condition and group of a level |
| MongoFilters.MergedHolds | packages/mongodb/src/MongoQuery.ts:264-281 | merged conditions hold exactly when all of them do, when no two put different values under one operator of a field |
| MongoFilters.MergedNeedsCompatible | packages/mongodb/src/MongoQuery.ts:264-281 | and otherwise, operators left open, something fits the match and not the conditions |
| MongoFilters.EqualitiesCollide | packages/mongodb/src/MongoQuery.ts:264-281 | of two equalities on one field with different values no document fits both, and the match selects exactly those that fit the later one and the rest of the level |
| MongoFilters.BranchesMean | packages/mongodb/src/MongoQuery.ts:333-370 | the branches say, one by one, what the conditions and groups of the level say |
| MongoFilters.CompiledMeans | packages/mongodb/src/MongoQuery.ts:242-302 | at any nesting and for any document, the match selects it exactly when the filter holds: all conditions, some of `:or`, none of `:not` |
| Arithmetic.InfixToPostfix | packages/postgres/src/PostgresQuery.ts:40-71 | the two-stack loop writes the postfix of the text, which `Arithmetic.PostfixIsRight` and `Arithmetic.GrammarIsRead` say what it is |
| Arithmetic.PostfixIsRight | packages/postgres/src/PostgresQuery.ts:40-71 | for every expression, however parenthesized, the shunting-yard writes its postfix |
| Arithmetic.PostfixToTree | packages/postgres/src/PostgresQuery.ts:73-91 | the stack loop rebuilds what the tokens stand for, or underflows |
| Arithmetic.TreeRoundTrip | packages/mongodb/src/MongoQuery.ts:27-98 | every tree printed with the parentheses it needs is rebuilt, left-associative and `~` tightest, without underflow |
| Arithmetic.ExpressionRoundTrip | packages/mongodb/src/MongoQuery.ts:27-98 | any text with at least the parentheses it needs is read back as its tree if and only if no two `~` stand together |
| Arithmetic.GrammarIsRead | packages/postgres/src/PostgresQuery.ts:33-91 | against a grammar (sums of products of operands, `~` before an operand, a name, or an expression in parentheses): every text of it is rebuilt as the tree the grammar gives it if and only if no two `~` stand together |
| Arithmetic.ReadBack | packages/mongodb/src/MongoQuery.ts:27-98 | and with them the tree that is rebuilt instead: a `~` that another follows rounds the operand before it |
| Arithmetic.SpacesAreIgnored | packages/postgres/src/PostgresQuery.ts:40-71 | white space, as `\s` matches it, changes nothing |
| Arithmetic.DoublePrefixUnderflows | packages/mongodb/src/MongoQuery.ts:27-98 | an operator finds too short a stack if and only if two `~` stand together before the first name |
| Msgpack.Reader.Take | packages/core/src/helpers/decodeMsgpack.ts:5-10 | the offset moves only when enough input is left |
| Msgpack.Reader.ReadString | packages/core/src/helpers/decodeMsgpack.ts:12-15 | a string is exactly the bytes announced |
| Msgpack.Reader.ReadBin | packages/core/src/helpers/decodeMsgpack.ts:103-106 | binary data is exactly the bytes announced |
| Msgpack.Reader.ReadArray | packages/core/src/helpers/decodeMsgpack.ts:17-21 | the loop reads as many values as announced, and ends where the last one does |
| Msgpack.Reader.ReadMap | packages/core/src/helpers/decodeMsgpack.ts:23-35 | the loop reads as many entries, refuses other keys, skips `__proto__`, and lets a later entry win |
| Msgpack.Reader.ReadValue | packages/core/src/helpers/decodeMsgpack.ts:58-101 | one value is read by its first byte, and reading always terminates |
| Msgpack.DecodeMsgpack | packages/core/src/helpers/decodeMsgpack.ts:113-121 | one value and nothing after it |
| Msgpack.Inverts | packages/core/src/helpers/decodeMsgpack.ts:58-101 | every legal encoding at any width decodes to its value and takes exactly its own bytes |
| Msgpack.PlainMap | packages/core/src/helpers/decodeMsgpack.ts:23-35 | a map with distinct ordinary string keys decodes to the object with exactly those fields |
| Msgpack.Trims | packages/core/src/helpers/decodeMsgpack.ts:5-10 | with the end of its input gone the reader reads the same value or finds its input cut short |
| Msgpack.ExactlyItsBytes | packages/core/src/helpers/decodeMsgpack.ts:113-121 | a legal encoding decodes; cut short anywhere, or with anything after it, it is refused |
| Msgpack.Accepts | packages/core/src/helpers/decodeMsgpack.ts:58-101 | whatever is read was legally encoded in exactly the bytes taken |
| Msgpack.DecodesExactly | packages/core/src/helpers/decodeMsgpack.ts:113-121 | input decodes to a value if and only if it is a legal encoding of that value |
| Msgpack.IsJsonText | packages/core/src/helpers/decodeRealtimeFrame.ts:5-13 | the scan answers whether the first byte past white space opens a JSON object or array |
| Msgpack.TakenForJson | packages/core/src/helpers/decodeRealtimeFrame.ts:5-27 | of all encodings only the one-byte integers 91 and 123 are taken for JSON: never an array or a map |
| Msgpack.FirstByteCounts | packages/core/src/helpers/decodeMsgpack.ts:58-101 | bytes are read as a number with the most significant one first |
| Msgpack.SignedIs | packages/core/src/helpers/decodeMsgpack.ts:58-101 | of the signed numbers of a width, the one that agrees with the bytes |
| Msgpack.DecimalReads | packages/core/src/helpers/decodeMsgpack.ts:23-35 | an integer key becomes the decimal name it reads back from |
| Msgpack.DecodeRealtimeFrame | packages/core/src/helpers/decodeRealtimeFrame.ts:20-27 | a binary frame goes to JSON or to the MessagePack reader, by its first byte |
| FanOut.Paths | packages/mongodb/src/MongodbRealtime.ts:226-238 | the loop keeps one entry a ref, that of the last route with it |
| FanOut.PathsAreTidy | packages/mongodb/src/MongodbRealtime.ts:203-238 | alternating routes are watched under distinct refs, every level but the last with its parent field |
| FanOut.ParamWatched | packages/mongodb/src/MongodbRealtime.ts:203-224 | the level of a route's parameter watches the field the parameter names, `_id` for `:id` |
| FanOut.RouteIsWatched | packages/mongodb/src/MongodbRealtime.ts:203-238 | the last realtime route of a table with a ref is watched under it with its levels |
| FanOut.ResolvedOnce | packages/mongodb/src/MongodbRealtime.ts:256-285 | a change resolves to each parent named before or after once, with what happened under it; the placeholder is only for documents without any |
| FanOut.NoListToldTwice | packages/mongodb/src/MongodbRealtime.ts:240-305 | over all routes of a table no ref is emitted twice for one change, at any depth of parents |
| FanOut.PathIsRead | packages/mongodb/src/MongodbRealtime.ts:295-299 | segments without a slash are read back from their joined ref, so distinct lists have distinct refs |
| FanOut.ParentIsTold | packages/mongodb/src/MongodbRealtime.ts:256-293 | the list of a parent is told of a change exactly as the parent came, stayed or went |
| FanOut.WriteKeepsMembers | packages/mongodb/src/MongodbRealtime.ts:256-304 | one insert, update, replacement or delete keeps in a parent's list exactly the documents that name it |
| FanOut.WriteReads | packages/mongodb/src/MongodbRealtime.ts:244-251 | the list, as JSON brings it the messages, also reads them as they are if and only if the write is faithful: a replacement that changes nothing, any other write that removes no field |
| FanOut.ListIsMaintained | packages/mongodb/src/MongodbRealtime.ts:240-305 | over any run of writes a list replaying its messages holds exactly the documents whose parent field is a value naming its parent, or an array with such an item, and reads them as they are while every write is faithful |
| FanOut.ListedAre | packages/mongodb/src/MongodbRealtime.ts:253-304 | a parent's list is of the documents whose field is a value that names it, or an array with an item that does, null naming nobody, without their private fields |
| FanOut.RouteIsMaintained | packages/mongodb/src/MongodbRealtime.ts:203-305 | for a watched route `c/:f/d`, over any run of writes, the list at `c/p/d` holds exactly the documents whose field `f` is `p` or an array with an item `p`, and reads them while every write is faithful |
| FanOut.DroppedFieldIsRead | packages/mongodb/src/MongodbRealtime.ts:244-247 | an update that hands a document over and drops a field announces the field to the new parent |
| FanOut.RemovedFieldStays | packages/mongodb/src/MongodbRealtime.ts:248-251 | a field that an update removes has no value in the message and does not arrive: the list keeps reading it |
| FanOut.ReplacementIsMissed | packages/mongodb/src/MongodbRealtime.ts:174-181 | a replacement names no fields, so a list it stays in keeps reading the old document |

## Left out

- Drivers: HTTP, WebSocket, IndexedDB, SQLite and MongoDB enter by contract or as maps and logs; clocks are parameters.
- React hooks, framework adapters, validators, routing, the memory and SQLite storages: no hard state of their own.
- Documents.CompareDocs: ids are strings, and a sort path reads a document's own properties, not methods JavaScript objects and arrays inherit.
- Paging.Decode: a hand-made cursor that assigns to an array beyond its end, to its length or to a property that is no element counts as one that does not decode.
- Paging: sorter paths starting with `#`, limits that are not integers, the base64 and JSON text of a cursor; sort paths of one query may be any.
- IndexedPages.LivequeryIndexedDBStorage.Query: takes the rows and the index as the database hands them out, and asks that no sort entry is null where a plan is made and no index on `id` is planned (`IndexedPages.NullSortReadsIds` and `IndexedPages.IdIndexAgrees` say what those give); conditions other than equality are not modelled.
- VersionedServer: a standalone server without transactions, where versions are not in commit order.
- DeltaSync: the initial load, `refresh`, `extend`, child scopes, several scopes, local deletes while syncing; changes carry whole documents.
- Outbox: reporting of stuck entries, several tabs, timers and backoff; ids are increasing numbers.
- LocalWrites: one transporter, one document per call, ids of adds new to the device; local-only mode, `retry()`, queue writes that fail, `ID_ALREADY_EXISTS` retries and renames beyond `Outbox.LivequeryOutbox.Remap`.
- LocalWrites.StepKeeps: modelled on values, not on a class: a crash may fall between any two steps of any number of calls, which method bodies cannot express.
- Convergence: deletes on a device, a custom `conflictResolver`, and answers that bring fields of the server's own making; an edit gives each field a JSON value.
- Convergence.ConfirmIsSafe: what the server may hold is any record that agrees with what the device knows, whether or not a run leads to it.
- UpdateExecution.ExecuteUpdate: failures other than conflicts and a pull that finds nothing are not modelled, and the copy's version is one the server has reached.
- Gateway: peer gateways, `link` pipes, `close()`, the order among the clients of one frame; clients have non-empty ids other than the gateway's own.
- Hibernation: takeovers, principals and owners, storage writes that fail.
- Keyset: pages and walks over rows with NULL sort values (what a keyset selects of them is `Keyset.SelectedExactly`), offset paging, limit parsing; D1's `:around` does not exist.
- SqlFilters.GroupReads: values arrive coerced, identifiers are well formed, and ILIKE folds ASCII letters only.
- MongoFilters: what an operator says of a field is any relation (equality, in `MongoFilters.EqualitiesCollide`, is that of fields that hold no arrays); coercion of values is done before.
- MongoFilters.CompiledMeans: asks that no two conditions of a level put different values under one operator; the converse is `MongoFilters.MergedNeedsCompatible`, for one level.
- Arithmetic: which operands are columns and which numbers, the SQL and MongoDB output, texts that are no expression.
- Msgpack: floats, extension types and timestamps, integers beyond 53 bits, invalid UTF-8 and the byte order mark a text decoder drops, the order of an object's fields, the depth a call stack allows.
- FanOut.ListIsMaintained: one parent field, full pre-images and a full document as of the change; a list that missed the removal of a field may be put right by a later write, so over runs being faithful is enough and not needed; the placeholder parent `-`, several parent fields changing at once and events looked up later than the change are not covered.
