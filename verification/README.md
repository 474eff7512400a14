# The durable event-sourced delivery engine, modelled and verified

A Dafny model of the engine that journals, delivers, replays and answers: the write-behind journal
store and the in-memory store it must agree with, the inbox with its claims, the batched
event-sourced step with crash, restart and redelivery, the service step with its claim guard, the
snapshot and passivation duties, the id generator and the ask ledger.

`dafny verify dfyconfig.toml` checks everything.

## How it is laid out

| files | what they hold |
|---|---|
| `Journal`, `MemoryStore`, `JournalObjects` | one actor's journal; the in-memory store as a value and as objects changed in place |
| `Rows`, `WriteBehind`, `WriteBehindStore` | rows and transactions; the write-behind store's atomic sections as functions, and the store as a class whose methods perform them with loops |
| `Protocol`, `ProtocolInvariant`, `ProtocolTheorems` | every interleaving of those sections beside the in-memory store, what all steps keep, and what follows |
| `ArrivalOrder`, `Durability` | arrival numbers over whole runs and after a process loss; what once was stored survives |
| `CatchUp`, `BufferLife` | a list of facts on the write-behind store, slot by slot; which steps take a buffer, mark it and clear the mark |
| `ProtocolLimits`, `HalfPurge` | complete flushes and exactly where promises end: cold writes, passivation, low anchors, a purge that failed half-way |
| `Inbox`, `InboxLedger`, `FrontDoor` | the inbox, every run of it, and the hold of a refused envelope |
| `EsActor`, `EsMachine`, `EsInvariant`, `EsTheorems`, `EsLoop` | an abstract event-sourced actor, the step machine, its invariant, the theorems and limits, and the step in place |
| `EsPlain`, `EsLetters`, `EsPass` | the runs the runtime makes meet every guard; the dead letters of rejected messages; one pass, append and restart message by message |
| `Service`, `Cadence`, `Ids`, `Replies` | the service step, snapshot and passivation duties, ids, asks and leases |

Values are datatypes. What the engine changes in place (journal, stores, inbox, the two loops, the
id generator, the lease table) is a class whose methods are proved equal to functions on values, and
the theorems are about those functions. Concurrency is a list of legal moves, one per critical
section or stretch between awaits; a theorem about runs holds for every such list.

SQLite is two maps per path and a transaction with three fates: applied and reported, not applied,
applied but reported as an error. An actor is any state type with any decide, apply, capture and
restore; the one assumption, stated where it is used as `RoundTrips`, is that a captured state
restores to itself. A decision may also depend on what the handler sees of other actors, which may
change between deliveries. Lease ids are fresh when an ask opens, which `Ids.IdsAreUniqueAndRise`
justifies.

The refinement assumes what the runtime does: a path is loaded before it is written and not written
after it was passivated, one writer to a path, anchors that fit a SQLite integer. Why the first is
needed is `ProtocolLimits.ColdWriteFlushesIff`. A run may take every other turn except two that break
the store: a half-failed purge that does harm (`HalfPurges.HalfPurgeStaysRightIff`), and a flush that
writes a snapshot below a stored one (`ProtocolLimits.LowSnapshotReloadsIff`). No flush does the
latter where anchors never decrease (`ProtocolLimits.RisingAnchorsLand`); they can decrease when a
catch-up checkpoint follows a restart.

## Where the code and its documentation differ

The model follows the code.

- A fresh write-behind store numbers arrivals from 1, not 0 (src/journal_daow.rs:409-411).
- `passivated` captures before it sets the drop marker, so the first passivation that writes anything
  keeps its buffer, although the module says a buffer is dropped once its flush commits
  (src/journal_daow.rs:24-26, src/journal_daow.rs:1316-1326). `ProtocolLimits.PassivationReleasesIff` is exact.
- A purge's two deletes are not one transaction (src/journal_daow.rs:1334-1355); see
  `HalfPurges.HalfPurgeStaysRightIff` for when that does no harm, `HalfPurges.HalfPurgeLosesAJournal`
  for a store it harms.
- "Never resets the store's global ingest counter" (src/journal.rs:472-474): reopening after a purge
  starts above what is still stored, so purged numbers return; `ArrivalOrder.NumberComesBackIff` is exact.
- "A deadline and the check that consumes it can never disagree" (src/kernel.rs:1445-1446) fails at the
  last clock value and for a duty with no wait stamped ahead of the clock; `Cadence.DeadlineAgreesIff` is exact.
- The message-count cadence does not snapshot at every boundary crossed: a batch shorter than `n`
  takes none (src/kernel.rs:2675-2685). A boundary inside a batch anchors the state of the batch's end;
  `EsTheorems.SnapshotReplaysIff` and `Cadence.CountedSnapshotReplaysIff` say when that replays right.
- "No command is processed unrecovered" (src/kernel.rs:1617-1620): when the load at boot fails the loop
  goes on with the spawned state (src/kernel.rs:1624-1627); `EsTheorems.BootRecoversIff` is exact.
- All decisions of a batch see the state before the batch (src/kernel.rs:1750-1789);
  `EsTheorems.BatchEqualsSinglesIff` says when that equals single steps, `EsTheorems.BatchOverdraws` that it may not.
- A message rejected in a batch that panics or cannot be appended is dead-lettered again on
  redelivery (src/kernel.rs:1757-1825); `EsLetters.LettersRepeatIff` is exact.
- A batch of copies of one fact that makes several events journals the first and applies none
  (src/kernel.rs:1930-1949), and a checkpoint leaves the snapshot anchor at 0 (src/kernel.rs:1951-1954);
  `EsTheorems.CatchUpArmKeepsTheFoldIff`, `EsTheorems.CheckpointAnchorsAtZero`. The store restores the
  highest stored anchor, the buffer the snapshot appended last: `ProtocolLimits.LowSnapshotReloadsIff`.
- A reply that lands between an ask's timeout or failed send and its settlement is reported as
  delivered and lost (src/context.rs:386-401); `Replies.ReplyIsLostIff` is exact.
- The claim guard tests for a stop and restores in two sections (src/kernel.rs:3034-3053), the stop
  marks and drains in two (src/system.rs:1915-1930). When both of the stop's fall between the guard's,
  the restored tail is neither dead-lettered nor served; `InboxLedger.GuardAgainstStop`.

## Model

| member | source | states |
|---|---|---|
| `ProtocolTheorems.WriteBehindRefinesInMemory` | src/journal_daow.rs:548-1355 | after every run of appends, snapshots under any anchor, catch-ups (each fact in three sections, its table check may fail), captures, transactions of any fate, commits, passivations, seeds, scans, purges, purges that failed half-way without harm, and process losses, the next call is answered as the in-memory store answers it, or refused as activating with nothing changed; the two steps shut out are those that harm |
| `ProtocolTheorems.AnswersAgree` | src/journal_daow.rs:1110-1355 | the same for one step from any state that keeps the invariant |
| `ProtocolTheorems.RefusedIff` | src/journal_daow.rs:544-558 | a call is refused exactly if it writes to a path still activating, or if a catch-up fact's table check fails |
| `ProtocolTheorems.LoadAgrees` | src/journal_daow.rs:1271-1295 | a load gives the in-memory store's latest snapshot, strict tail and full history, no journal and an empty one read alike |
| `ProtocolTheorems.LoadAnswersTheJournal` | src/journal_daow.rs:1271-1295 | part by part: the snapshot is the latest, the history whole, and the tail the events past the anchor or all of them |
| `ProtocolInvariant.StepKeepsInv` | src/journal_daow.rs:548-1355 | each step keeps buffer and journal aligned, the tables a dense prefix of acknowledged entries, captured batches equal to their buffer's suffix, and open catch-up checks true |
| `ProtocolInvariant.RunsKeepInv` | src/journal_daow.rs:350-420 | every run from an empty database keeps that |
| `ProtocolInvariant.TransactionNeverConflicts` | src/journal_daow.rs:765-882 | a captured flush never meets a differing row, whatever earlier attempts left behind |
| `ProtocolInvariant.StoredIsAnAcknowledgedPast` | src/journal_daow.rs:852-890 | the tables of a path are its journal as it was after some acknowledged entry |
| `ProtocolInvariant.CatchUpAgrees` | src/journal_daow.rs:985-1006 | the two-level origin check (buffer, then table) answers as the in-memory checkpoint, and the table never knows an origin the journal lacks |
| `ProtocolInvariant.RecoveredPath` | src/journal_daow.rs:382-420 | a reopened database stands for a well-formed prefix of each path's acknowledged journal |
| `ProtocolTheorems.CrashLeavesAnAcknowledgedPast` | src/journal_daow.rs:674-761 | after a process loss at any point of any run each path replays exactly one of its acknowledged pasts; if every snapshot was anchored at an acknowledged event, the stored one is anchored inside the stored events |
| `Durability.StoredSurvives` | src/journal_daow.rs:674-761 | once a path is stored to its end no later step short of its purge loses it: after any later process loss its events are still the first of the journal and its latest snapshot is anchored no lower |
| `Durability.FlushedSurvives` | src/journal_daow.rs:1297-1309 | what a reported flush acknowledged survives every later process loss |
| `ProtocolTheorems.FrontierCountsStored` | src/journal_daow.rs:286-343 | the frontier never counts an entry the tables lack |
| `ProtocolTheorems.FrontierNeverRetreats` | src/journal_daow.rs:746-761 | no step moves a living buffer's frontier back |
| `ProtocolTheorems.RemovedImpliesDurable` | src/journal_daow.rs:746-761 | a buffer leaves memory only when all its events and its latest snapshot are stored |
| `ProtocolTheorems.SeedNeverOverwrites` | src/journal_daow.rs:1008-1107 | a cold seed overwrites nothing accepted: from placeholder to install the path takes no write, the replaced buffer is the empty placeholder, living buffers stay |
| `ProtocolTheorems.ScanIsExact` | src/journal_daow.rs:1176-1259 | at any flush frontier the de-duplicated union of rows and buffers is the in-memory scan's set |
| `ProtocolTheorems.ScansAreEqual` | src/journal_daow.rs:1252-1258 | a scan of tables and buffers and the in-memory scan are the same list |
| `ProtocolTheorems.ScanAnswersTheRecords` | src/journal_daow.rs:1176-1259 | a fact is in the answer exactly if its event has an asked schema and was recorded by its own actor under that number and arrival; the answer ascends by arrival |
| `WriteBehind.UnionMeans` | src/journal_daow.rs:1187-1258 | a scan surfaces a recorded row of an asked schema, or such a buffered event whose number no such row has, and nothing else |
| `MemoryStore.FactsMean` | src/journal.rs:670-708 | the in-memory scan surfaces exactly the recorded events of the asked schemas |
| `ProtocolTheorems.BuffersStayInBounds` | src/journal_daow.rs:286-343 | in every state of a run frontiers stay inside their buffers, numbers are dense and a scan's arrivals differ: what the store's methods require |
| `MemoryStore.ScanIsUnique` | src/journal.rs:670-708 | for a set of facts there is one answer ascending by arrival, so equal sets mean equal answers |
| `ArrivalOrder.ArrivalsFollowAcknowledgement` | src/journal_daow.rs:560-575 | what a step hands out is numbered above every record still held, on any path |
| `ArrivalOrder.ArrivalsAreUnique` | src/journal_daow.rs:396-417 | no two records held after any run share an arrival number |
| `ArrivalOrder.NumbersNeverComeBack` | src/journal_daow.rs:560-575 | while the process lives every number handed out is below every later one, its path purged since or not |
| `ArrivalOrder.NumberComesBackIff` | src/journal_daow.rs:396-417 | after a process loss a number can be handed out again exactly when it is above every stored arrival |
| `ArrivalOrder.OriginsHeldOnce` | src/journal_daow.rs:1121-1174 | through passivation and reload a journal holds each catch-up origin at most once |
| `MemoryStore.CatchUpFillsFirstOccurrences` | src/journal.rs:644-668 | a slot is filled exactly for an origin neither held before nor named earlier in the list |
| `MemoryStore.CatchUpAllHolds` | src/journal.rs:644-668 | after seeding the journal holds the old origins and the listed ones, no others |
| `MemoryStore.SeedTwiceIsSeedOnce` | src/journal.rs:644-668 | seeding a list again fills no slot and changes nothing |
| `MemoryStore.CatchUpMeans` | src/journal.rs:644-668 | a held fact changes nothing; a new one is journaled under its origin at the next number and arrival, and the number fills its slot |
| `MemoryStore.AppendMeans` | src/journal.rs:627-643 | an append adds each event as recorded, numbers and arrivals running on, and touches no other path |
| `MemoryStore.SnapshotMeans` | src/journal.rs:710-723 | a snapshot becomes the latest of its path and touches no event |
| `MemoryStore.LoadMeans` | src/journal.rs:725-766 | a load gives the latest snapshot, the history and the events the snapshot does not cover |
| `MemoryStore.AppendKeepsMemOk` | src/journal.rs:627-643 | an append keeps journals dense and arrivals unique across paths |
| `MemoryStore.CatchUpKeepsMemOk` | src/journal.rs:644-668 | a catch-up keeps that and each origin single |
| `MemoryStore.PurgeKeepsMemOk` | src/journal.rs:781-787 | a purge keeps that and leaves the counter where it was |
| `Journals.MemReplayIsReplayOf` | src/journal.rs:725-766 | the in-memory load is a function of the events and the latest snapshot alone, the sentinel included |
| `Journals.TailIsSuffix` | src/journal.rs:910-919 | the strict tail after anchor `s` is the events from position `s + 1` on |
| `Rows.RowRoundTrip` | src/journal_daow.rs:641-673 | a record comes back from its row, and different records have different rows or numbers |
| `Rows.FlushOverPrefix` | src/journal_daow.rs:852-882 | writing any suffix that starts inside what is stored leaves exactly the event rows up to its end, and the path stored whole exactly when its snapshot lies below no stored one |
| `Rows.UpsertIsLatest` | src/journal_daow.rs:869-879 | the written snapshot is read back as the latest exactly when no stored one is anchored higher |
| `Rows.FlushRetryIsIdempotent` | src/journal_daow.rs:719-743 | a flush repeated after any fate changes nothing; grown meanwhile it reaches the event rows of one clean success, and its snapshot rows exactly when the first attempt wrote none of its own |
| `Rows.RetryKeepsLatest` | src/journal_daow.rs:719-743 | under rising anchors the grown retry reads back the latest snapshot of one clean success |
| `Rows.ConflictIffDifferentRow` | src/journal_daow.rs:788-850 | a batch aborts exactly when some row of it differs from the stored row or an earlier pending one at its number |
| `Rows.WriteAllByPath` | src/journal_daow.rs:852-882 | the transaction succeeds exactly when each path's batch does alone, and works path by path |
| `Rows.RebuildShape` | src/journal_daow.rs:1050-1066 | a rebuilt journal holds the rows' events and the latest snapshot, well-formed |
| `ProtocolLimits.RowsRoundTrip` | src/journal_daow.rs:1050-1107 | a journal with rising anchors cut into flushes anywhere, each writing only its last snapshot, rebuilds to the same replay |
| `ProtocolLimits.FlushLeavesNothingUnflushed` | src/journal_daow.rs:1297-1309 | an uninterrupted successful flush leaves every path's events stored to the end, and the path whole exactly when its flushed snapshot lies below no stored one |
| `ProtocolLimits.PassivationReleasesIff` | src/journal_daow.rs:1311-1332 | a successful passivation releases the buffer exactly when nothing was pending or it was marked before |
| `ProtocolLimits.ColdWriteFlushesIff` | src/journal_daow.rs:548-558 | a write to an unloaded path can be flushed exactly when the path has no stored events |
| `ProtocolLimits.RisingAnchorsLand` | src/journal_daow.rs:852-882 | where anchors never decreased no captured snapshot lies below a stored one, whatever attempts failed before |
| `ProtocolLimits.LowSnapshotReloadsIff` | src/journal_daow.rs:1050-1107 | after a snapshot under any anchor and a flush, a cold load answers as the warm buffer exactly when no stored snapshot is anchored higher |
| `HalfPurges.HalfPurgeStaysRightIff` | src/journal_daow.rs:1334-1355 | after a purge whose second delete fails, frontier and every later answer stay right exactly when no event row was deleted, or the deleted ones still counted as unflushed and the stored snapshot precedes them |
| `HalfPurges.HalfPurgeLosesAJournal` | src/journal_daow.rs:1334-1355 | a run from an empty database (load, append, flush) after which such a purge breaks this |
| `HalfPurges.HalfPurgedReload` | src/journal_daow.rs:1334-1355 | passivating and reloading a flushed path after it answers without the events the in-memory store has |
| `HalfPurges.NextFlushLeavesAGap` | src/journal_daow.rs:1334-1355 | the next flush of a path flushed with events writes above a gap |
| `JournalObjects.Journal.FindLastSnapshot` | src/journal.rs:903-908 | the backwards walk finds the snapshot appended last |
| `JournalObjects.Journal.CollectAfter` | src/journal.rs:914-919 | the filter yields the strict tail, or everything for the sentinel |
| `JournalObjects.InMemoryJournalStore.Append` | src/journal.rs:627-643 | the loop's journal and counter are the function's, and it answers consecutive numbers |
| `JournalObjects.InMemoryJournalStore.AppendCatchup` | src/journal.rs:644-668 | the loop's store and slots are the function's |
| `WriteBehindStore.InsertRows` | src/journal_daow.rs:788-850 | inserting or verifying row by row gives the transaction's tables, or none on a conflict |
| `WriteBehindStore.CaptureSuffix` | src/journal_daow.rs:676-717 | the captured batch is the unflushed events and the last snapshot among them |
| `WriteBehindStore.ReadEvents` | src/journal_daow.rs:947-983 | rows are read in ascending sequence order |
| `WriteBehindStore.DaowJournalStore.Open` | src/journal_daow.rs:382-420 | an opened store has no buffers and a counter above every stored arrival |
| `WriteBehindStore.DaowJournalStore.BufferAppend` | src/journal_daow.rs:560-575 | an append is the function's, or refused while activating |
| `WriteBehindStore.DaowJournalStore.AppendCatchup` | src/journal_daow.rs:1121-1174 | the loop over facts is one checked catch-up after the other; a failed table check ends it with the facts before appended |
| `WriteBehindStore.DaowJournalStore.CatchUpOne` | src/journal_daow.rs:1129-1171 | one fact is the function's check and append, or an error that appends nothing |
| `WriteBehind.FactCaughtUp` | src/journal_daow.rs:1131-1171 | a fact held in buffer or table changes no journal; a new one is journaled as a copy under its origin at the next number and arrival, its number fills the slot, and no table or other buffer changes |
| `CatchUps.SlotsFilledOnce` | src/journal_daow.rs:1121-1174 | a slot is filled exactly for a fact new to buffer and table and not listed earlier |
| `CatchUps.ListIsCopied` | src/journal_daow.rs:1121-1174 | a list journals exactly the facts of its filled slots, each as a copy at its slot's number, and touches nothing else |
| `CatchUps.SecondListFillsNothing` | src/journal_daow.rs:1121-1174 | catching up a list again fills no slot and journals nothing |
| `CatchUps.ListsAgree` | src/journal_daow.rs:1121-1174 | on every state that keeps the invariant both stores fill the same slots with the same numbers and stay aligned |
| `WriteBehindStore.DaowJournalStore.CollectPending` | src/journal_daow.rs:676-717 | it returns each unflushed suffix of the asked paths once |
| `WriteBehindStore.DaowJournalStore.WriteTransaction` | src/journal_daow.rs:765-882 | the loop writes the transaction's tables or none |
| `WriteBehindStore.DaowJournalStore.CommitFlush` | src/journal_daow.rs:746-761 | frontiers move to the captured ends and marked, finished buffers go |
| `WriteBehindStore.DaowJournalStore.Flush` | src/journal_daow.rs:886-893 | one cycle is capture, transaction, commit; a failed transaction changes no buffer, a reported one moves every pending frontier to its end or takes the marked buffer |
| `WriteBehindStore.DaowJournalStore.Passivated` | src/journal_daow.rs:1311-1332 | capture, mark, write, commit, or release of a buffer with nothing pending; what a failed and a successful call leave of the buffer |
| `BufferLife.BufferGoesIff` | src/journal_daow.rs:746-761 | a buffer leaves memory exactly by process loss, purge, a passivation with nothing to write, a seed that found nothing, or the commit of its captured and standing mark with nothing appended since |
| `BufferLife.MarkStandsIff` | src/journal_daow.rs:1316-1326 | a staying buffer is marked exactly if a passivation with something to write just marked it, or it was and no load, seed or commit of the mark over newer entries cleared it |
| `BufferLife.FailedPassivationIsReleased` | src/journal_daow.rs:1316-1332 | a failed passivation changes the mark alone, and the next reported flush with nothing else appended releases the buffer |
| `BufferLife.PassivationLeaves` | src/journal_daow.rs:1311-1332 | a passivation that wrote releases a buffer marked before and keeps any other, marked and stored to its end |
| `BufferLife.FlushTakesMarked` | src/journal_daow.rs:746-761 | a reported flush takes the pending marked buffers and moves the frontier of the others to their end |
| `WriteBehindStore.DaowJournalStore.Load` | src/journal_daow.rs:1271-1295 | a warm load unmarks and answers; a cold one seeds, answers, and leaves the placeholder if the read fails |
| `WriteBehindStore.DaowJournalStore.Scan` | src/journal_daow.rs:1176-1259 | the answer is the recorded rows of asked schemas and the unseen such buffered events, each once, ascending by arrival |
| `WriteBehindStore.DaowJournalStore.Purge` | src/journal_daow.rs:1334-1355 | rows and buffer go, only the event rows go, or nothing does; only the first is reported as success |
| `BufferLife.PurgeLeavesNothing` | src/journal_daow.rs:1334-1355 | a whole purge leaves no row, buffer or journal of the path, and everything of the others |
| `Inboxes.Inbox.Push` | src/inbox.rs:139-176 | the four policies on an open, closed, full or empty inbox |
| `Inboxes.Inbox.ClaimUpTo` | src/inbox.rs:298-323 | envelopes move out of the contiguous run from the cursor and leave tombstones |
| `Inboxes.Inbox.RestoreClaims` | src/inbox.rs:340-366 | every claim is back in the slot with its offset |
| `Inboxes.Inbox.CommitThrough` | src/inbox.rs:380-397 | every slot through the offset goes and the cursor follows |
| `Inboxes.Inbox.DrainLive` | src/inbox.rs:196-207 | live envelopes leave in order, tombstones stay in order |
| `InboxLedger.RunsKeepInv` | src/inbox.rs:139-397 | over every run queued offsets are exactly cursor to write head, tombstones are exactly the outstanding claims and a prefix, and capacity holds with claims counted |
| `InboxLedger.EachEnvelopeHasOneFate` | src/inbox.rs:139-397 | each accepted envelope is in exactly one of waiting, claimed, committed, evicted, dead-lettered; what waits or is claimed is what was accepted there; accepted and refused make up what was pushed |
| `InboxLedger.CapacityHolds` | src/inbox.rs:139-176 | a bounded inbox never exceeds capacity, an unbounded open one never refuses |
| `InboxLedger.PushAnswers` | src/inbox.rs:139-176 | after any run the inbox has its policy and capacity, and a push is refused closed, queued last, refused full, or, dropping the old, evicts the oldest envelope |
| `InboxLedger.DoorFollowsTheLastWord` | src/inbox.rs:139-152 | a closed inbox refuses all mail and keeps what it holds, a reopened one takes mail again |
| `InboxLedger.StopDrainsTheMail` | src/inbox.rs:196-207 | a stop's drain hands out exactly the unclaimed mail, in the order it was accepted |
| `InboxLedger.PushPanicsIff` | src/inbox.rs:153-160 | a push panics exactly when a full, open drop-oldest inbox has a claim outstanding |
| `InboxLedger.LoopCallsNeverPanic` | src/inbox.rs:298-397 | claims, commits and restores by the actor's one loop never panic |
| `InboxLedger.RestoreUndoesTake` | src/inbox.rs:340-366 | restoring a batch leaves the inbox as it was before the claim |
| `InboxLedger.RestoreCommutesWithPush` | src/inbox.rs:325-338 | mail pushed while a batch is out sits behind the restored batch |
| `InboxLedger.GiveBackKeepsTheTail` | src/kernel.rs:3021-3058 | with no stop in between, the guard puts each uncommitted claim back in its slot, or dead-letters it once when stopping |
| `InboxLedger.GuardAgainstStop` | src/system.rs:1915-1930 | an uncommitted claim restored before the stop drains, or dropped after the stop, ends dead-lettered; one tested before the mark and restored after the drain stays live in the drained inbox |
| `FrontDoor.PushHoldingBlock` | src/kernel.rs:1386-1427 | a refused envelope is retried only while an open inbox under the blocking policy is full, at most the park cap; it ends queued once or dead-lettered once, and an eviction dead-letters the evicted one |
| `EsTheorems.LiveStateIsTheFold` | src/kernel.rs:1699-2064 | on every run that meets the guards of `EsMachine.Sound` the live state between steps is the fold of the whole journal from genesis |
| `EsPlain.PlainRunIsSound` | src/kernel.rs:1699-2064 | a run of idle snapshots at the last committed number, loaded boots, and plain mail or one fact at a time meets every guard |
| `EsPlain.PlainRunsLiveInTheFold` | src/kernel.rs:1699-2064 | so on every such run the live state between steps is the fold from genesis |
| `EsTheorems.JournalIsTheDecisions` | src/kernel.rs:1735-2025 | the journal is, batch by batch, the declared part of one decision per committed offset against the fold at the batch's start, and the fact of a batch that recorded nothing is in the journal; committed offsets rise and carry the accepted envelopes |
| `EsActors.DeclaredSelects` | src/kernel.rs:1846-1858 | the declared part is the events of declared schemas, each as often as it was made and in order, and no other |
| `EsPasses.JournalIsDeclared` | src/kernel.rs:1846-1858 | on every sound run each journaled event has a schema the actor declared |
| `EsPasses.PassEvents` | src/kernel.rs:1785-1792 | a pass that is not given up has what each handled message was answered, in message order |
| `EsPasses.RejectedIff` | src/kernel.rs:1757-1803 | a pass dead-letters exactly the messages without a handler or refused by it, up to the first panic |
| `EsPasses.CrashesIff` | src/kernel.rs:1804-1825 | a pass is given up exactly if some handled message panics |
| `EsPasses.CopiesAreOneCheckpoint` | src/kernel.rs:1917-1954 | a batch of copies of one fact journals one copy of its first event under the fact's origin, or nothing if that is held |
| `EsPasses.OtherBatchesRecordAll` | src/kernel.rs:1955-1983 | any other batch journals every event as the actor's own, numbers and arrivals running on |
| `EsTheorems.ReplayIsReplayFromGenesis` | src/kernel.rs:3287-3361 | at any point of a sound run latest snapshot plus strict tail rebuilds what replay from genesis gives |
| `EsPlain.PlainRunsReplayFromGenesis` | src/kernel.rs:3287-3361 | so at any point of every plain run latest snapshot plus strict tail rebuilds what replay from genesis gives |
| `EsTheorems.CrashLosesNoMail` | src/kernel.rs:3021-3058 | after a crash every uncommitted envelope waits in its own slot, or was dead-lettered if the actor is stopping |
| `EsTheorems.IdleSnapshotIsTheFold` | src/kernel.rs:2744-2773 | on a journal of plain records the idle snapshot is anchored at the head and equals the fold up to its anchor |
| `EsPasses.PlainBatchMovesTheHead` | src/kernel.rs:1998-2003 | after a plain batch the last committed number is the journal's head; without events it stays |
| `EsPasses.RestartFindsTheHead` | src/kernel.rs:3287-3361 | a loaded restart has the fold of its journal and stands at its head; a failed load changes nothing |
| `EsPasses.BootForgetsTheHead` | src/kernel.rs:630-630 | a new incarnation has no number to snapshot at before it commits one |
| `EsPasses.SnapshotIsStored` | src/kernel.rs:2699-2734 | a captured and stored snapshot becomes the latest under its anchor; otherwise nothing changes |
| `EsTheorems.SnapshotReplaysIff` | src/kernel.rs:2699-2734 | a snapshot of the live state under an anchor replays to it exactly when folding the later events again changes nothing |
| `EsTheorems.CatchUpArmKeepsTheFoldIff` | src/kernel.rs:1904-1963 | a batch of copies of one fact keeps live state and journal together exactly when it makes at most one event, the fact is held, or the recorded event changes nothing |
| `EsTheorems.OneFactAtATimeIsSound` | src/actor.rs:415-475 | a projector that takes one claim at a time always does |
| `EsTheorems.CheckpointAnchorsAtZero` | src/kernel.rs:1951-1954 | after a recorded checkpoint the anchor is 0, and rebuilding from the idle snapshot taken next gives the live state exactly when refolding all but the first event changes nothing |
| `EsTheorems.BootRecoversIff` | src/kernel.rs:1621-1664 | a new incarnation starts from its journal's fold exactly when the load succeeded or the fold is genesis |
| `EsTheorems.BatchEqualsSinglesIff` | src/kernel.rs:1750-1789 | a batch records what single steps would exactly when each message decides the same against the state its predecessors leave |
| `EsTheorems.BatchRecordsItsParts` | src/kernel.rs:1750-1870 | the filtered batch buffer is the declared events of each message, in message order |
| `EsTheorems.BatchOverdraws` | src/kernel.rs:2019-2025 | a batch of two withdrawals overdraws an account two steps would not |
| `EsTheorems.RejectedAgainAfterPanic` | src/kernel.rs:1757-1825 | crash, restart and redelivery of a batch that panics again dead-letters its rejected messages a second time |
| `EsLetters.LettersRepeatIff` | src/kernel.rs:1757-1825 | after any run an offset is dead-lettered twice for its schema or payload exactly when a given-up pass had rejected it and a later pass rejected it again |
| `EsLetters.PassRepeatsIff` | src/kernel.rs:1757-1769 | a pass repeats a letter exactly if a given-up pass of this incarnation had rejected that offset |
| `EsLetters.RejectionsRise` | src/kernel.rs:1804-1825 | in a run that gives up no pass with a rejection, rejected offsets strictly increase |
| `EsTheorems.PlainStampsAreTrue` | src/kernel.rs:2042-2062 | each event of a plain append is paired with the number the journal gives it |
| `EsInvariant.RunsKeepInv` | src/kernel.rs:1699-2064 | every sound run keeps ledger, history, live state and latest snapshot consistent |
| `EsInvariant.ReloadIsTheFold` | src/actor.rs:308-328 | rebuilding from a journal with a good latest snapshot gives the fold of all its events |
| `EsInvariant.LoopNeverPanics` | src/kernel.rs:1700-1712 | the loop's claims, commits and restores never panic |
| `EsActors.CopiesRecordOne` | src/kernel.rs:1917-1954 | of several events under one origin only the first can be recorded, none if it is held |
| `EsActors.DecisionsConcatenate` | src/kernel.rs:1785-1792 | each message's events stand in the batch buffer behind those of the messages before it |
| `EsLoops.EsLoop.Decide` | src/kernel.rs:1735-1828 | the loop over claims is one pass against one state, ended by the first panic |
| `EsLoops.Filter` | src/kernel.rs:1846-1858 | the partition keeps exactly the events of declared schemas, at their positions, in order |
| `EsLoops.EsLoop.CommitBatch` | src/kernel.rs:1984-1997 | committing offset by offset is committing the whole batch |
| `EsLoops.EsLoop.RebuildState` | src/actor.rs:308-328 | the rebuild loop is the snapshot's state or genesis, folded over the tail |
| `EsPasses.RebuildsIff` | src/actor.rs:308-328 | a rebuild fails exactly if its snapshot does not restore, and else folds the tail from it or from genesis |
| `EsLoops.EsLoop.StepEs` | src/kernel.rs:1699-2064 | the step in place is the machine's moves claim, decide, append, commit, apply, or the guard's exit |
| `EsPasses.StepIsMoves` | src/kernel.rs:1699-2064 | the step in place is a run of the machine: claim, decide, append, commit, apply, as far as it gets, and it ends at rest or down |
| `EsPasses.StepCrashesIff` | src/kernel.rs:1804-1903 | a step brings the actor down exactly if a handled message panics or the append fails |
| `EsPasses.FailedAppendLeaves` | src/kernel.rs:1955-1975 | a failed append gives the claims back and changes neither state, journal nor letters |
| `EsLoops.EsLoop.Restart` | src/kernel.rs:3287-3361 | a restart in place is the machine's restart and always rebuilds |
| `EsLoops.AlwaysReady` | src/kernel.rs:1699-1735 | a live actor at rest can always take its step, and the step is idle only if nothing is asked for or queued |
| `Services.DispatchedAtMostOnce` | src/kernel.rs:3098-3272 | across crashes dispatched offsets strictly increase, and each committed message was dispatched or dead-lettered, not both |
| `Services.DispatchedIsGone` | src/kernel.rs:3160-3175 | a dispatched message is never queued, claimed or flushed again |
| `Services.DispatchedIff` | src/kernel.rs:3152-3268 | over every run a message is dispatched exactly if a handoff committed it with a known schema and a decoded payload, dead-lettered exactly if one did without |
| `Services.GuardSettlesTheTail` | src/kernel.rs:3021-3058 | whichever message panics or stops the actor, the later ones are back in their slots or dead-lettered once |
| `Services.ServiceLoop.StepService` | src/kernel.rs:3098-3272 | messages go front to back until one panics or stops the actor: those refused are dead-lettered, the others dispatched, the result says how it ended, and the rest is given back |
| `Services.ServedMeans` | src/kernel.rs:3098-3272 | what serving a batch leaves, message by message: the dispatched, the dead-lettered and the phase |
| `Services.ServedIsMoves` | src/kernel.rs:3098-3272 | serving a batch is a run of the machine's handoffs and endings |
| `Services.ServiceLoop.ServeOne` | src/kernel.rs:3152-3268 | one message is committed first, then dead-lettered exactly if refused and dispatched otherwise; it is down exactly after a panic |
| `Cadence.DeadlineAgreesIff` | src/kernel.rs:1447-1475 | the deadline is due exactly when a check passes, with the exact corner condition |
| `Cadence.DeadlineAgrees` | src/kernel.rs:1440-1446 | it is, for stamps not ahead of a clock below its last value |
| `Cadence.NoDeadlineIff` | src/kernel.rs:2744-2828 | there is no deadline exactly when no check can ever pass, with the exact overflow condition |
| `Cadence.BatchAnchors` | src/kernel.rs:2662-2697 | the boundary loop visits exactly the boundaries of a batch of at least `n` events, ascending, and none for a shorter one |
| `Cadence.CountedSnapshotReplaysIff` | src/kernel.rs:2686-2707 | after a counting actor took its message-count snapshots, rebuilding from its journal gives its live count exactly when the batch ends on a boundary |
| `Ids.IdsAreUniqueAndRise` | src/envelope.rs:971-1013 | under every interleaving of the exchange loop and the counter ids are unique, and each caller's rise whatever its clock does |
| `Ids.IdsDecode` | src/envelope.rs:932-939 | an id decodes to the held millisecond and carries version 7 and variant 0b10 |
| `Ids.Layout` | src/envelope.rs:1002-1008 | the fields of section 5.7 of RFC 9562 come back from the packed halves |
| `Ids.OrIsPlus` | src/envelope.rs:1002-1008 | joining the fields with "or" is adding them, on 64-bit vectors |
| `Ids.CollideIff` | src/envelope.rs:1002-1008 | two mints collide exactly when they share the counter's low 62 bits and the time's low 48 |
| `Ids.Generator.Hold` | src/envelope.rs:980-1001 | the exchange loop ends at or above the clock reading and the old mark, on a mark someone wrote |
| `Ids.HeldIsNotBeforeTheClock` | src/envelope.rs:980-1001 | under every interleaving a mint's held millisecond is at or above the clock its caller read |
| `Replies.EveryAskSettlesOnce` | src/context.rs:368-403 | an ask that ran to its end has one opened and one settled fact, with its outcome, and no lease |
| `Replies.OneReplyPerLease` | src/reply.rs:52-60 | at most one reply is delivered per lease, exactly one for an ask settled as replied |
| `Replies.LateReplyFails` | src/reply.rs:52-66 | a second reply and any reply after settlement reports failure and changes no ask |
| `Replies.CompletesIff` | src/reply.rs:52-60 | a completion succeeds exactly if the lease is live and its asker neither settled nor left |
| `Replies.LeaseGoesIff` | src/reply.rs:40-71 | a live lease goes exactly by completion, settlement, or a prune, which every opening is too, at or past its expiry |
| `Replies.OutcomesAreTrue` | src/context.rs:380-403 | over every run an ask ends timed out, replied or failed by exactly the move that says so |
| `Replies.ReplyIsLostIff` | src/context.rs:368-403 | over every run a reply to a settled ask was delivered without the ask ending as replied exactly when it landed after a timeout or failure and before settlement, or while a request was being sent that then failed |
| `Replies.ReplyCanComeLate` | src/context.rs:386-401 | whenever an ask waits, a timeout and then such a reply are both possible |
| `Replies.ReplyTable.Complete` | src/reply.rs:52-60 | completing takes the slot and delivers to a listening asker only |
| `Replies.ReplyTable.Prune` | src/reply.rs:68-71 | pruning keeps exactly the leases that expire later |

## Left out

- SQLite itself: SQL text, the pool, migrations and the writer task's timer. Two maps per path, a transaction with three fates and the drain lock stand for them.
- Scheduling, wakeups and real time: a run is any order of moves; nothing is said about liveness.
- JSON, serde and type erasure: payloads, schemas and states are abstract, and the encoding of an origin is taken as injective.
- 64-bit columns: sequence and arrival numbers are unbounded; only snapshot anchors are required to fit 63 bits, and the step machine keeps event counts below the sentinel.
- The two stores hold their journals by value; aliasing between a store and a journal handed out of it is not modelled.
- A process killed between append and commit inside the event-sourced step; process loss is modelled for the write-behind store.
- The outbox, the fan-out itself and routing: what a committed step sends is not modelled, only the numbers its events are stamped with.
- Observation, watermark facts, builders, derive macros, shard keys, supervision budgets and system teardown.
- The foreign closure tier, whose replay genesis differs from its spawn genesis (src/actor.rs:577-580).
- Id tickets are natural numbers and ids are packed with arithmetic; that joining the fields with "or" is adding them is proved on bit-vectors.
- WriteBehindStore.DaowJournalStore.AppendCatchup: performs its facts with nothing in between; their sections interleaved with other tasks are in `Protocol`.
- EsLoops.EsLoop.StepEs: performs its moves with nobody in between; mail, stops and failures between them are in `EsMachine`.
- EsTheorems.LiveStateIsTheFold: holds on runs that meet the guards of `EsMachine.Sound`; each guard's exact condition is a lemma of its own, and `EsPlain` names runs that meet them all.
- EsTheorems.ReplayIsReplayFromGenesis: the same.
- ProtocolTheorems.WriteBehindRefinesInMemory: shuts out the harmful half-failed purge and the flush of a snapshot below a stored one, after which it is false.
- InboxLedger.GiveBackKeepsTheTail: the stop's mark and drain between the guard's test and restore are in `InboxLedger.GuardAgainstStop`; the inbox machine takes each as one move.
- Teardown drains with `try_lock` and skips a busy inbox (src/system.rs:1922-1923); the model's stop always drains.
- Ids.IdsAreUniqueAndRise: assumes fewer than 2^62 mints and clocks below 2^48 milliseconds, as the layout needs.
