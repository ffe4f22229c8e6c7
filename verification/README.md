# Replication to the search index: model and proofs

This project models the pipeline of `river/` that keeps a Manticore/Sphinx index up to date from the MySQL binlog, and
proves what the pipeline is for: no change is lost when it resumes from its checkpoint, nothing relevant is skipped, and
updating only the changed documents and fields leaves the index as a full reindex would.

`dafny verify dfyconfig.toml` checks everything. The modules, in the order in which a change travels:

- `Types`, `Decimal`: rows, row changes, decimal numbers.
- `Handler`, `EventHandling`: the replication event handler. `Handler` is the producer as a function of its callbacks and
  holds the theorem about resuming; `EventHandling` is the object whose callbacks compute that function.
- `Rule`, `Routing`, `Relevance`, `Pipeline`: binlog row events become inserts, updates and deletes of documents. `Rule` says what is
  emitted and compares it with replaying the event on the whole table; `Routing` has the loops; `Pipeline` joins routing
  with change detection, for all rules and events on all tables; `Relevance` says what a rule reads from a row, so that this
  holds of the tables themselves.
- `Sync`, `SyncSafety`, `SyncWaiters`, `SyncTiming`: the synchronisation loop as a state machine, and what holds over
  every run of it.
- `Delivery`: everything the rules emit is sent, queued and applied, as well-formed histories of the documents.
- `Triggers`: which events are forced, what a forced event or an armed timer makes the loop do, and that it publishes in time.
- `GTIDSafety`, `Panics`: exactly when the saved GTID set may be resumed from, and exactly when handler and loop break or end.
- `SyncLoop`, `Splitting`, `Notifying`, `Batch`, `Master`: the same loop as an object with fields that change step by
  step, executing its batches on the servers. `SyncLoop.SyncState.Loop` ends in the state `Sync.Run` names, so every theorem
  about runs is one about the loop.
- `ChangeSet`, `Coalescing`: folding the changes of a document into one difference per key and finding the attributes
  that changed. `ChangeSet` has the meaning and the theorems, `Coalescing` the objects and loops.
- `QueryBatch`, `Conventions`, `FormatQuery`, `Sql`: sorting documents into statements per shard, printing them, reading
  them back.
- `Server`, `Reindex`, `Indexing`, `Following`: executing statement texts on shards, the comparison with a full reindex for
  one index, the loops of a batch, and the comparison for all indexes of a batch.
- `Executing`, `Resuming`: what the loop counts as applied was executed on the servers, so resuming loses no change there.
- `Witnesses`: inputs for the cases in which the code does not do what one would expect.

A method that is a loop or changes fields is proved equal to a function; the lemmas are about those functions. Go maps are
visited in no particular order: every such loop picks its next key by a nondeterministic choice, and its result does not
depend on it. Event ids and their difference are unsigned 64-bit numbers in the state machine (`Sync.AddEvent`,
`Sync.Offset`); runs are shorter than 2^64 - 1 inputs, which is what keeps the counter from wrapping.

What the theorems found in the code:

- The saved GTID set may be resumed from if and only if no row of a transaction it names is sent after the event it came from
  (`GTIDSafety.GTIDSetIsSafeIff`). The event of a commit, a DDL statement, a rotation or a synchronised position is such an
  event (`GTIDSafety.SavedGTIDSetIsSafe`); the announcement that opens a transaction is not, once the transaction has a row
  (`GTIDSafety.GTIDSetRunsAhead`). The binlog position has no such gap (`Handler.NoLostChange`).
- A document that appears in the result of the source query for the first time, with no changed field that is not an
  attribute, is sent as a partial update, and there is nothing to update: it stays out of the index
  (`Witnesses.FirstAppearanceIsLost`). This is the only case in which the index does not follow
  (`Reindex.IndexFollowsDatabase`).
- An update that changes the primary key of a row and keeps its document, or sets the document id to NULL, is misread by
  the document it left (`Rule.UpdateRefinesReplayIff`, `Witnesses.KeyChangeIsMisread`, `Witnesses.NullIDIsMisread`).
- The loop panics if and only if a GTID set is asked for while the checkpoint has none (`Panics.LoopPanicsIff`). The handler
  breaks if and only if it meets a commit, or a non-empty MariaDB set, before any set is known, or a row event that some rule
  cannot route (`Panics.HandlerFailsIff`).

Assumptions. Rows and keys have at most 128 and 16 values, and the column names of a table are distinct. An absent row
counts as an all-NULL one, as the code represents it, so claims about change detection are about sets of projections that
are not all NULL. Callbacks come in binlog order. The source query, run once a batch is staged, sees exactly the changes
delivered so far, and a result column depends only on the table columns that feed it. An
index has one rule per table, and no two indexes share a shard name. For the statements about the events that leave a safe GTID
set, transactions are announced once and rows come inside them.

## Model

| member | source | states |
|---|---|---|
| Handler.NoLostChange | river/sync.go:71-238 | however a session of handler, channel and loop runs, and whether or not its last batch failed half way, every row change whose binlog coordinate is at or before the saved position was received and applied |
| Handler.NoChangeLostOnRestart | river/sync.go:161-238 | the same for the checkpoint that a restart finds on disk |
| SyncSafety.StoredIsPublished | river/sync.go:228-232 | over every run the stored checkpoint has the published position, and a GTID set covering the published one; when the loop has ended it is the published one |
| Handler.UnappliedIsAfterSaved | river/sync.go:161-238 | the contrapositive, for changes still in the channel too: whatever was not applied lies strictly after the saved position |
| Handler.ProducedInOrder | river/sync.go:71-141 | callbacks in binlog order send messages in binlog order: no row precedes the boundary last sent before it |
| Handler.ArrivalRank | river/sync.go:259-261 | the row change received as message n is, stamped with the number of events before it, the next entry of its own document's arrival list |
| Handler.SavedPositionIsMonotone | river/sync.go:224-234 | over a session the saved binlog position never moves back |
| Resuming.ResumedChangesAreExecuted | river/sync.go:161-238 | in any session whose applied batches were executed one after the other, each with the database its flush queried, each row change at or before the saved position is in an executed batch |
| Resuming.ExecutedBatchesFollow | river/batch.go:83-145 | after each applied batch of the loop every document of the batch is where BatchFollowsDatabase says, for the database that its flush queried |
| Delivery.EverythingIsSent | river/sync.go:113-120 | for all callbacks the row changes sent are, in order, everything the rules emit for the row events |
| Delivery.ArrivalsAreEmitted | river/sync.go:257-261 | what arrived at the loop for a document is, but for the stamps, the first part of what the rules emitted for it, and all of it once every message was taken |
| Delivery.AppliedBatchIsHistory | river/sync.go:198-203 | each applied batch carries, for each document, a well-formed history of the rows that the batches before it lead to |
| Delivery.QueueIsHistory | river/sync.go:257-261 | so does the queue, for the rows that all applied batches lead to |
| Delivery.EverythingIsApplied | river/sync.go:161-238 | once everything was taken and nothing is queued for a document, the applied changes lead in every table from its rows before the session to its rows after all row events |
| GTIDSafety.GTIDSetIsSafeIff | river/sync.go:71-157 | for any callbacks and any event with a GTID set: in every session whose saved set comes from that event all rows of all transactions the set names were received and applied, if and only if no such row is sent after the event |
| GTIDSafety.SavedGTIDIsSent | river/master.go:44-71 | the saved set of a session is that of the sent event recorded as its origin |
| GTIDSafety.SavedGTIDSetIsSafe | river/sync.go:71-157 | over every session of a binlog with transactions in order: unless the saved set comes from an announcement, all rows of all transactions it names were received and applied |
| GTIDSafety.BoundaryIsSafe | river/sync.go:71-129 | the event of a commit, DDL statement, rotation or synchronised position meets the condition |
| GTIDSafety.GTIDSetRunsAhead | river/sync.go:105-111 | after any callbacks, an announcement followed by a row: some session saves the announced set without having received that row |
| SyncSafety.RunKeepsInv | river/sync.go:161-238 | over every run: the window holds exactly the events from first to last, each queued or failed change is stamped inside it, per document applied + in flight + queued is the arrival sequence, and the saved position is that of an event at or before the window |
| SyncSafety.StepKeepsInv | river/sync.go:189-238 | one step of any kind keeps that invariant, adds at most one event id and never moves the saved id back |
| SyncSafety.FlushKeepsInv | river/sync.go:195-234 | after a flush that was applied the loop runs on, with a non-empty window starting exactly at the oldest queued change's event, or at the last event if nothing is queued; a failed one ends the loop with the invariant intact |
| SyncSafety.OffsetIsInside | river/sync.go:219-222 | the unsigned offset does not wrap and stays inside the slice, which never becomes empty |
| SyncSafety.AdvanceIsTight | river/sync.go:219-222 | sliding starts the window exactly at the lowest queued event id |
| SyncSafety.CheckpointIsMonotone | river/sync.go:224-234 | the event behind the published checkpoint never moves back as a run goes on |
| SyncSafety.FailLands | river/sync.go:203-207 | a batch of which some indexes were applied leaves every change accounted for, as applied or as unfinished |
| SyncWaiters.WaitersAreServed | river/sync.go:280-322 | over every run with one request per channel: each channel got at most one value, that value covers what was asked, and nobody pending is covered by the checkpoint |
| SyncWaiters.RequestIsReached | river/sync.go:280-322 | over every run each request taken while the checkpoint has a set was sent exactly one value, or is pending, or its peer was cancelled afterwards |
| SyncWaiters.CoveredRequestIsAnswered | river/sync.go:280-322 | a request that was not cancelled and that the checkpoint covers was sent exactly one value |
| SyncWaiters.CancelCancels | river/sync.go:264-266 | cancelling removes the pending requests of that peer and no others; a request for no set is ignored |
| SyncWaiters.NotifyServes | river/sync.go:301-322 | notifying after a change of the checkpoint answers exactly those who are now covered |
| SyncWaiters.UnchangedKeepsServed | river/master.go:44-71 | when the checkpoint takes over a set that is already covered and reports no change, nobody becomes overdue |
| Panics.LoopPanicsIff | river/sync.go:280-299 | over every run the loop panics if and only if a request is taken while the checkpoint has no GTID set; the unsigned offset, the reslice and the window's head never panic |
| Panics.LoopEndsIff | river/sync.go:188-209 | over every run the loop has stopped iff it was told to while running, and failed iff a flush could not apply its batch |
| Panics.HandlerFailsIff | river/sync.go:71-157 | for every sequence of callbacks the handler has failed if and only if one of them is a commit, or a non-empty MariaDB set, before any set was known, or a row event that some rule cannot route |
| Panics.RuleFailsIff | river/rule.go:136-171 | a rule cannot route an event if and only if it concerns the rule's table and the id column is missing or some id cannot be read |
| Panics.RuleSetFailsIff | river/rule.go:174-207 | an event stops the rule set if and only if some rule cannot route it |
| SyncTiming.RunKeepsTiming | river/sync.go:197-217 | over every run without bulk interval: each document a flush left behind is still queued, was younger than the limit then, and the timer is armed |
| SyncTiming.HoldingIsBounded | river/sync.go:197-217 | in a run with prompt flushes: a document that survives a flush is staged by a later one whose clock reads less than its first change plus the two configured times plus the time of a batch, at the latest by the first flush past its maximal age |
| SyncTiming.StepKeepsWaiting | river/sync.go:197-217 | a waiting document stays queued with its timer until a flush, which comes in time and stages it or arms a new timer for it |
| SyncTiming.QueueIsTimed | river/batch.go:210-216 | over every run a queued document is as old as its first change and as recent as its latest one |
| Triggers.ArmedTimerFlushes | river/sync.go:268-273 | in any reachable state an armed timer, or the ticker, makes the loop look at every queued document: exactly those quiet or old enough are staged and applied, the others wait, and the timer is armed for them or gone |
| Triggers.ForcedEventFlushes | river/sync.go:253-257 | so does a forced event |
| Triggers.OtherInputsDoNotFlush | river/sync.go:247-277 | nothing else stages, applies or publishes anything |
| Triggers.CommitFlushes | river/sync.go:96-103 | without a bulk interval the event of every commit does |
| Triggers.CommitNamesTransaction | river/sync.go:96-111 | the event of a commit names the transaction announced before it and, for MariaDB, all that was active; so does a rotation after it |
| Triggers.PublicationIsTimely | river/sync.go:219-234 | a flush more than three seconds after the last publication publishes the event of the oldest change still queued, or the last event; an earlier one publishes nothing |
| SyncLoop.SyncState.constructor | river/sync.go:165-177 | the loop starts in the initial state of the machine, with one event in the window |
| SyncLoop.SyncState.AcceptMessage | river/sync.go:240-278 | taking a message is the machine's receiving step, and asks for a flush exactly for a forced event |
| SyncLoop.SyncState.ProcessGTIDSubscribeRequest | river/sync.go:280-299 | a request is answered at once, filed, ignored or panics as the machine says |
| SyncLoop.SyncState.ProcessGTIDSubscribers | river/sync.go:301-322 | all covered subscribers get the head's set once and are dropped, nobody else is touched |
| Notifying.NotifyAll | river/sync.go:307-321 | the nested loops over peers, sets and subscribers send one value per covered subscriber to its channel and keep the others, in any order |
| SyncLoop.SyncState.SplitQueue | river/sync.go:328-341 | staged and queue become the two parts of the old queue |
| Splitting.SplitChanges | river/sync.go:328-341 | visiting documents in any order leaves exactly the ready documents, whole, in one batch and the others in the other |
| Batch.PartKeepsDocs | river/sync.go:328-341 | splitting moves whole documents: each list ends up, as it was, on exactly the side its test says |
| SyncLoop.SyncState.SlideWindow | river/sync.go:219-222 | the window slides to the oldest event still needed, or the slice expression panics |
| SyncLoop.SyncState.PublishCheckpoint | river/sync.go:224-234 | the head of the window is published and waiting clients notified, unless that happened too recently |
| SyncLoop.SyncState.ApplyStaged | river/sync.go:203-207 | the staged batch is executed on the servers as the given database answers; the log counts as applied exactly what was executed, and a failure ends the loop |
| SyncLoop.SyncState.FlushQueue | river/sync.go:195-234 | splitting, executing the batch against the queried database, arming the timer, sliding and publishing together are the machine's flush, with the outcome the batch had |
| SyncLoop.SyncState.Turn | river/sync.go:188-236 | one turn is one step of the machine |
| SyncLoop.SyncState.Loop | river/sync.go:161-238 | the loop ends in the state a run of the machine over what happened ends in, with the invariant, and every batch counted as applied was executed on the servers, one after the other, each against the database of the occurrence that flushed it |
| SyncLoop.SyncState.LoopAndSave | river/sync.go:180-238 | when the loop ends, however it ends, the checkpoint on disk is the published one |
| Master.MasterState.UpdatePosition | river/master.go:44-71 | the checkpoint takes the event's position and, if there is one, its GTID set; a change is reported iff the position differs or the set was not covered |
| EventHandling.EventHandler.OnRotate | river/sync.go:71-80 | the callback leaves the handler and the channel as the producer function says |
| EventHandling.EventHandler.OnDDL | river/sync.go:87-94 | likewise |
| EventHandling.EventHandler.OnXID | river/sync.go:96-103 | likewise, including the panic without an active set |
| EventHandling.EventHandler.OnGTID | river/sync.go:105-111 | likewise; the position stays at the last boundary |
| EventHandling.EventHandler.OnRow | river/sync.go:113-120 | likewise: the changes of all rules are sent in order, those before a failing rule included |
| EventHandling.EventHandler.OnPosSynced | river/sync.go:122-129 | likewise |
| EventHandling.EventHandler.UpdateGTID | river/sync.go:143-157 | a MariaDB set is added to the active one, any other replaces it |
| Rule.RoutingRefinesReplay | river/rule.go:209-284 | for every document, applying an event to the whole table and restricting to the document equals restricting first and applying the emitted changes in order, and these are a well-formed history |
| Rule.UpdateRefinesReplayIff | river/rule.go:228-264 | one update is described correctly to every document if and only if a NULL new id stands for the document it leaves and a row that keeps its document keeps its key |
| Rule.ForDocAppend | river/rule.go:174-207 | the changes for one document in a longer list are those in its parts, in order |
| Routing.RealPKColumns | river/rule.go:81-90 | a table without a key uses all its columns |
| Routing.NewPrimaryKeyFromRow | river/rule.go:100-106 | the key has the values of the key columns, padded |
| Routing.FilterColumns | river/rule.go:290-338 | names and values of exactly the mapped columns, in column order, padded to the size of the map; the write position stays in bounds |
| Routing.InsertedTableRow | river/rule.go:340-356 | an insert from the all-NULL row |
| Routing.UpdatedTableRow | river/rule.go:358-375 | an update under the old row's key |
| Routing.DeletedTableRow | river/rule.go:377-393 | a delete to the all-NULL row |
| Routing.MakeInsertChangeSet | river/rule.go:209-226 | one change per row, or an error as soon as an id cannot be read |
| Routing.MakeUpdateChangeSet | river/rule.go:228-264 | one update per pair, or a delete followed by an insert when the document changes, or an error |
| Routing.MakeDeleteChangeSet | river/rule.go:266-284 | one change per row, or an error |
| Routing.FieldIndex | river/rule.go:395-402 | the first column of that name, if there is one |
| Routing.Apply | river/rule.go:136-171 | events of other tables give nothing, a missing id column is an error |
| Routing.ApplyRuleSet | river/rule.go:174-207 | the changes of every rule in order, until one fails |
| Pipeline.EventsAreHistory | river/rule.go:136-207 | over any row events on any tables, what all rules send for a document of an index is a well-formed history that leads, in every table, from the document's rows before the events to those after |
| Pipeline.DocPartOfRules | river/rule.go:174-207 | what a rule set sends for a document from a table is what the one rule for its index and the table emits |
| Pipeline.UnreportedFieldIsUnaffected | river/changeset.go:59-70 | over any row events on any tables, a field not reported as changed for a document sees in every table the same projections of the document's rows before and after |
| Relevance.UnreportedRowsAreUnaffected | river/changeset.go:59-70 | the same of the tables themselves: the unfiltered rows whose id column holds the document's id have the same projections onto the columns that feed the field |
| Relevance.MappedIsKept | river/rule.go:326-333 | every mapped column of a row is in the filtered row, under its name and with its value |
| Relevance.KeptIsMapped | river/rule.go:326-333 | every position of a filtered row is that of a mapped column, or padding |
| Relevance.IndexOfIs | river/rule.go:395-402 | the id column is the first one of that name, and missing exactly if no column has it |
| Relevance.SameKeyIff | river/rule.go:100-106 | two rows have the same key iff they agree in every key column |
| Relevance.NoKeyIsWholeRow | river/rule.go:81-90 | without a declared key, rows with the same key are the same row |
| Relevance.DocumentIDIsValue | util/coerce.go:89-124 | a number that fits is its own document id, as a number or printed; text that is not a number has none |
| Relevance.StepsApplyRows | river/rule.go:209-284 | what an event is read as does to the table what its rows do, in pairs for updates |
| ChangeSet.ChangeDetectionIsSound | river/changeset.go:59-180 | for any rows of a document and any well-formed history over several tables, a field that is not reported sees in every table the same set of projections before and after |
| ChangeSet.TableDetectionIsSound | river/changeset.go:143-180 | the same for one table, through all three branches |
| ChangeSet.FoldTelescopes | river/changeset.go:110-131 | the difference kept for a key goes from its row before the history to its row after it, and exactly one label is set: insert means absent before and present after, delete means absent after, update that the key is there at the end if it was at the start |
| ChangeSet.FoldKeys | river/changeset.go:110-131 | a key has a difference iff some change has that key |
| ChangeSet.ComparedSets | river/changeset.go:143-157 | the after-set is exactly the final rows of the unpruned keys; the before-set is their initial rows plus at most the all-NULL row |
| ChangeSet.DocFoldByTable | river/changeset.go:85-97 | the nested fold is one independent fold per table |
| ChangeSet.ReplayDocByTable | river/changeset.go:85-97 | replaying a document's history is replaying each table's part on that table |
| ChangeSet.NetNoOpIsDetected | river/changeset.go:75-140 | everything is pruned if and only if every key's row ends as it started (absent counted as all NULL); then no attribute is reported |
| ChangeSet.RewriteIsDetected | river/changeset.go:134-157 | deleting rows and inserting equal ones under new keys, in any interleaving, reports nothing |
| ChangeSet.ReportedHasCause | river/changeset.go:59-180 | a reported field is fed by a table in which some row really changed |
| ChangeSet.OneRowIsExact | river/changeset.go:143-180 | when one row of a table changes, exactly the fields fed by a column that differs are reported |
| ChangeSet.SeveralRowsReportAll | river/changeset.go:159-161 | when changed rows end as several rows other than they started, every field the table feeds is reported |
| Coalescing.TableChangeSet.ApplyChange | river/changeset.go:110-131 | the table's differences change by one step of the fold |
| Coalescing.TableChangeSet.PruneUnchangedRows | river/changeset.go:134-140 | exactly the keys whose rows are equal at both ends are dropped |
| Coalescing.TableChangeSet.ChangedColumnNames | river/changeset.go:143-180 | the names of the columns that differ somewhere, none if the two row sets agree |
| Coalescing.DocChangeSet.ApplyChange | river/changeset.go:85-97 | the document's differences change by one step of the nested fold; no two tables share an object |
| Coalescing.DocChangeSet.PruneUnchangedTables | river/changeset.go:100-107 | rows are pruned in every table and empty tables are dropped, while the map is being visited |
| Coalescing.NewDocChangeSet | river/changeset.go:75-82 | folding and pruning a change list |
| Coalescing.ComputeChangedAttrs | river/changeset.go:59-70 | the attributes fed by the changed columns of any table |
| Coalescing.RowToArray | river/rule.go:61-69 | a row padded to a fixed length |
| ChangeSet.SameArraySameRow | river/rule.go:61-69 | rows of equal width with equal arrays are equal, so comparing arrays compares rows |
| Batch.AddedRow | river/batch.go:248-272 | adding a row change appends it to its own document's list, keeps the first time stamp and touches no other list |
| Batch.RowStaysKept | river/batch.go:248-272 | every entry stays under its own index and document, and none becomes empty |
| Batch.BatchedChangeSet.AddDocumentChange | river/batch.go:218-261 | the new document is merged or stored under its index |
| Batch.BatchedChangeSet.MergeWith | river/batch.go:210-216 | lists are concatenated, the first time stamp stays, the later last time stamp wins |
| Batch.BatchedChangeSet.AddRowChange | river/batch.go:264-272 | a row change is added as a document of one change |
| Batch.BatchedChangeSet.FirstSeenPositionEventID | river/batch.go:293-310 | the running minimum over all changes, in any order |
| Batch.FirstSeenIsMinimum | river/batch.go:293-310 | that is the last id for an empty batch and a true minimum unless every id equals the start value |
| Indexing.ChangedAttrsByDocID | river/batch.go:228-245 | every document is classified once: changed if it has a changed attribute, unchanged otherwise |
| Indexing.FetchRow | river/batch.go:178-208 | all values of a row printed in column order, or an error for a column that is not configured |
| Indexing.FetchIndexData | river/batch.go:157-176 | the printed rows by document id |
| Indexing.LastRowIsKept | river/batch.go:167-173 | of several rows for one document the last is kept, and a document without a row is not |
| Indexing.NewQueryBatch | river/batch.go:312-325 | one fresh, empty query set per shard, under the shard's name |
| Indexing.FillQueryBatch | river/batch.go:327-362 | each shard's set gets exactly the lists that the specification names for it |
| Indexing.ChangedValues | river/batch.go:345-351 | the changed result columns with their values, in column order |
| Indexing.ExecuteQuerySet | river/batch.go:364-396 | at most one replace, at most one delete, then the updates, stopping at the first failure |
| Indexing.DoIndexChangeSet | river/batch.go:98-145 | no data source is an error, no changed document sends nothing, otherwise the statements of all shards are sent in order |
| Indexing.DoBatch | river/batch.go:83-96 | indexes are applied one by one in some order, each in full; on a failure exactly the indexes reported as done were applied, and another one then failed |
| Indexing.LoopRunsBatch | river/batch.go:98-145 | what is sent for an index is what the theorem about following the database executes |
| QueryBatch.PlacedExactlyOnce | river/batch.go:327-362 | over all shards and all three lists each changed document occurs exactly once and no other occurs |
| QueryBatch.PickedAre | river/batch.go:327-362 | a list of a shard holds exactly the documents of that shard with that fate |
| QueryBatch.PartialUpdateIsComplete | river/batch.go:340-356 | a partial update names exactly the changed result columns, and none exactly when none changed |
| QueryBatch.PartialUpdateIsAligned | river/batch.go:340-356 | in column order, each once, with the fetched value of its own column |
| Conventions.ChunkNamesDiffer | util/conventions.go:9-21 | different shards of an index have different names |
| Conventions.ShardsTakeTurns | util/conventions.go:18-21 | documents are dealt to the shards in turn |
| Server.ShardRuns | river/batch.go:364-396 | the texts of one shard all succeed and leave it as the documents' fates say, touching no other shard |
| Server.ListedDocument | river/batch.go:327-396 | after all shards a listed document is absent, replaced or patched in the one shard that may hold it |
| Server.OtherDocument | river/batch.go:327-396 | every other document of every index stays as it was |
| Reindex.IncrementalRefinesReindex | river/batch.go:98-145 | all statements succeed; a listed document ends up as fetched if and only if, when updated in attributes alone, it was there and agreed outside the changed fields; all others stay |
| Reindex.DocumentIsFetchedIff | river/batch.go:327-362 | the same condition for one document |
| Reindex.IndexFollowsDatabase | river/batch.go:98-145 | detecting, fetching, printing and executing together, for one index: each document is indexed as a full reindex would after the changes if and only if it is not one that appears for the first time through attributes alone |
| Following.BatchFollowsDatabase | river/batch.go:83-145 | for all indexes of a batch: applying some of them in any order brings exactly those to where IndexFollowsDatabase says and leaves the documents of the others as they were |
| Following.BatchDoesNotFail | river/batch.go:83-96 | such a batch cannot fail |
| Witnesses.FirstAppearanceIsLost | river/batch.go:340-356 | a query, schema and history that meet every hypothesis, after which the new document is missing from the index |
| Witnesses.KeyChangeIsMisread | river/rule.go:228-264 | an update that changes a key and keeps its document meets the hypotheses and is misread |
| Witnesses.NullIDIsMisread | river/rule.go:228-264 | so does one that sets the document id to NULL |
| Sql.PassesAreOneEscape | sphinx/sphinx.go:636-641 | three replacements over the whole string equal one escape per character |
| Sql.QuotedIsRead | sphinx/sphinx.go:636-641 | a reader that honours backslashes stops at the final quote, whatever follows, and gives the string back without NULs |
| Sql.PrintedIsRead | river/format_query.go:8-41 | a printed statement of integers and strings parses back to itself, strings without NULs |
| Sql.TextIsUnique | river/format_query.go:8-41 | statements with the same text mean the same |
| FormatQuery.FormatReplaceQuery | river/format_query.go:8-18 | filling and joining the row texts gives the statement that is parsed back |
| FormatQuery.FormatUpdateQuery | river/format_query.go:20-30 | likewise |
| FormatQuery.FormatDeleteQuery | river/format_query.go:32-41 | likewise |

## Left out

- Handler.NoLostChange: stated on binlog positions; what holds of the GTID set is GTIDSafety.GTIDSetIsSafeIff.
- GTIDSafety.SavedGTIDSetIsSafe: a GTID event announces a set that names only new transactions; that a MariaDB set of one transaction stands for all before it in its domain is not modelled.
- Handler.Called: GTID sets are sets of transaction numbers with containment; the internals of MySQL and MariaDB sets, and errors while adding to one, are not modelled; nor is a change of the configured bulk interval while the handler runs. Binlog file names are numbers in their order.
- SyncTiming.HoldingIsBounded: the bound contains the time between reading the clock and arming the timer, because the code arms it after the batch.
- Routing.FilterColumns: takes no JSON column; the branch that expands one gives rows whose columns need not line up.
- Rule.CoerceToUint64: does not model floating-point ids.
- Rule.RoutingRefinesReplay: tables without a primary key are assumed to have distinct rows, as all columns are the key then. One clock reading stands for the readings of all rows of an event.
- Routing.ApplyRuleSet: does not publish the changes on NATS, which the source does beside sending them.
- Batch.BatchedChangeSet.AddDocumentChange: the per-index entry is a value that is written back, so sharing of its inner map is not captured.
- SyncLoop.SyncState.ProcessGTIDSubscribeRequest: subscribers are keyed by the value of the set they asked for; the source keys by pointer, so equal sets may sit in separate lists there.
- SyncLoop.SyncState.FlushQueue: the save throttle, the timers and the source query read their clock and their database from what happens to the loop.
- Routing.Apply: does not drop rows by JSON type, which the source does when a rule names one.
- Indexing.FetchRow: prints integers and strings; the other field types of `db_value.go` are not modelled.
- Indexing.FetchIndexData: likewise.
- Indexing.DoIndexChangeSet: the database is a function from ids to a result, the search servers a map of shards; connections, retries, the text of the source query and statistics are not modelled.
- Sql.PrintedIsRead: literals are integers and quoted strings; floats, multi-valued, boolean and JSON expressions of `db_value.go` are not modelled.
- SyncSafety.StoredIsPublished: a save that fails, which the source only logs, is not modelled.
- Loading the checkpoint (`LoadSyncState`) and the statements that store it, configuration and SQL parsing, HTTP and NATS services, cron, logging and service wiring.
- `ColumnValueDiff`, `PlainValueDiff`, `SetValueDiff`: not used by the pipeline.
- Messages left in the channel from an earlier session: a session starts with an empty channel.
