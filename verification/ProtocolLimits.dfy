/** Complete flushes, row round trips, and exactly where the write-behind store falls short. */
module ProtocolLimits {
  import opened Wrappers
  import opened Journals
  import opened MemoryStore
  import opened Rows
  import opened WriteBehind
  import opened Protocol
  import opened ProtocolInvariant
  import opened ProtocolTheorems

  // ---- Rows and back ----

  ghost predicate Ascending(cuts: seq<nat>, bound: nat) {
    && (forall i, k :: 0 <= i < k < |cuts| ==> cuts[i] <= cuts[k])
    && (forall i :: 0 <= i < |cuts| ==> cuts[i] <= bound)
  }

  /** Flush the entries cut by cut: each flush writes what was appended since the one before. */
  function WriteInPieces(path: ActorPath, entries: seq<JournalEntry>, cuts: seq<nat>): Option<PathRows>
    requires Ascending(cuts, |entries|)
    decreases |cuts|
  {
    if cuts == [] then Some(NO_ROWS)
    else
      var n := |cuts| - 1;
      match WriteInPieces(path, entries, cuts[..n])
      case None => None
      case Some(rows) =>
        WriteBatch(rows, Capture(path, entries[..cuts[n]], if n == 0 then 0 else cuts[n - 1], false))
  }

  /** One flush from f to e over tables that hold the first f entries. */
  lemma PieceStores(path: ActorPath, entries: seq<JournalEntry>, rows: PathRows, f: nat, e: nat)
    requires EntriesOk(entries) && AnchorsRise(entries) && f <= e <= |entries| && StoredThrough(rows, entries, f)
    ensures WriteBatch(rows, Capture(path, entries[..e], f, false)).Some?
    ensures StoredThrough(WriteBatch(rows, Capture(path, entries[..e], f, false)).value, entries, e)
  {
    EntriesOkPrefix(entries, e);
    assert entries[..e][..f] == entries[..f];
    FlushOverPrefix(rows, entries[..e], path, f, f, false);
    RisingLands(rows, entries[..e], f, f);
    assert entries[..e][..e] == entries[..e];
  }

  lemma {:induction false} PiecesStore(path: ActorPath, entries: seq<JournalEntry>, cuts: seq<nat>)
    requires EntriesOk(entries) && AnchorsRise(entries) && Ascending(cuts, |entries|)
    ensures WriteInPieces(path, entries, cuts).Some?
    ensures StoredThrough(WriteInPieces(path, entries, cuts).value, entries,
                          if cuts == [] then 0 else cuts[|cuts| - 1])
    decreases |cuts|
  {
    if cuts == [] {
      assert RowMap(EventsOf(entries[..0])) == map[];
    } else {
      var n := |cuts| - 1;
      PiecesStore(path, entries, cuts[..n]);
      var from := if n == 0 then 0 else cuts[n - 1];
      assert cuts[..n] != [] ==> cuts[..n][|cuts[..n]| - 1] == from;
      PieceStores(path, entries, WriteInPieces(path, entries, cuts[..n]).value, from, cuts[n]);
    }
  }

  /**
   Row round trip: cut any journal into flushes anywhere, write each flush's events and only its
   last snapshot, rebuild from the rows, and the replay is the journal's own.
   */
  lemma RowsRoundTrip(path: ActorPath, entries: seq<JournalEntry>, cuts: seq<nat>)
    requires EntriesOk(entries) && AnchorsRise(entries) && Ascending(cuts, |entries|)
    requires if cuts == [] then entries == [] else cuts[|cuts| - 1] == |entries|
    ensures WriteInPieces(path, entries, cuts).Some?
    ensures var rows := WriteInPieces(path, entries, cuts).value;
            OrEmpty(BuildReplay(RebuildJournal(StoredEvents(rows), LatestRow(rows.snapshots)).entries)) ==
            MemReplay(entries)
  {
    PiecesStore(path, entries, cuts);
    var rows := WriteInPieces(path, entries, cuts).value;
    assert entries[..|entries|] == entries;
    StoredEventsDense(rows, EventsOf(entries));
    LastSnapshotFits(entries);
    RebuildShape(EventsOf(entries), LastSnapshot(entries));
    MemReplayIsReplayOf(entries);
  }

  // ---- A flush with no caller in its way ----

  ghost function InvAfter(w: World, step: Step): (w': World)
    requires Inv(w) && Legal(w, step) && Harmless(w, step)
    ensures w' == Next(w, step) && Inv(w')
  {
    StepKeepsInv(w, step);
    Next(w, step)
  }

  /** A captured flush whose transaction commits and reports it, with nothing in between. */
  ghost function CleanFlush(w: World): (w': World)
    requires Inv(w) && w.drain.Captured?
    ensures w'.drain.Free? && w'.spec == w.spec && w'.active == w.active
  {
    TransactionNeverConflicts(w);
    Next(Next(w, Transact(Applied)), CommitFrontiers)
  }

  lemma CleanFlushKeepsInv(w: World)
    requires Inv(w) && w.drain.Captured? && AllLand(w.store.db, w.drain.pending)
    ensures Inv(CleanFlush(w))
  {
    TransactionNeverConflicts(w);
    StepKeepsInv(InvAfter(w, Transact(Applied)), CommitFrontiers);
  }

  lemma CleanFlushIsCommit(w: World)
    requires Inv(w) && w.drain.Captured?
    ensures WriteAll(w.store.db, w.drain.pending).Some? && BatchesOk(w.store, w.drain.pending)
    ensures CleanFlush(w).store ==
            w.store.(db := WriteAll(w.store.db, w.drain.pending).value).Commit(CompletionsOf(w.drain.pending))
  {
    TransactionNeverConflicts(w);
  }

  /** What a commit does to one captured path's buffer, whatever the rows. */
  lemma CommitAt(s: StoreState, db: Database, pending: seq<PendingFlush>, i: nat)
    requires BatchesOk(s, pending) && i < |pending|
    ensures s.Warm(pending[i].path)
    ensures BufferAt(s.(db := db).Commit(CompletionsOf(pending)), pending[i].path) ==
            CommitBuffer(s.buffers[pending[i].path], CompletionOf(pending[i]))
  {
    assert BatchOk(s, pending[i]);
    CommitByPath(s.(db := db), CompletionsOf(pending));
    assert CompletionsOf(pending)[i] == CompletionOf(pending[i]);
  }

  lemma CommitElsewhere(s: StoreState, db: Database, pending: seq<PendingFlush>, p: ActorPath)
    requires BatchesOk(s, pending) && forall i :: 0 <= i < |pending| ==> pending[i].path != p
    ensures BufferAt(s.(db := db).Commit(CompletionsOf(pending)), p) == BufferAt(s, p)
  {
    CommitByPath(s.(db := db), CompletionsOf(pending));
  }

  lemma CleanFlushAt(w: World, i: nat)
    requires Inv(w) && w.drain.Captured? && i < |w.drain.pending|
    ensures var batch := w.drain.pending[i];
            && w.store.Warm(batch.path)
            && BufferAt(CleanFlush(w).store, batch.path) ==
               CommitBuffer(w.store.buffers[batch.path], CompletionOf(batch))
  {
    CleanFlushIsCommit(w);
    CommitAt(w.store, WriteAll(w.store.db, w.drain.pending).value, w.drain.pending, i);
  }

  lemma CleanFlushElsewhere(w: World, p: ActorPath)
    requires Inv(w) && w.drain.Captured?
    requires forall i :: 0 <= i < |w.drain.pending| ==> w.drain.pending[i].path != p
    ensures BufferAt(CleanFlush(w).store, p) == BufferAt(w.store, p)
  {
    CleanFlushIsCommit(w);
    CommitElsewhere(w.store, WriteAll(w.store.db, w.drain.pending).value, w.drain.pending, p);
  }

  /** A flush called with nothing interleaving. */
  ghost function Flushed(w: World, pending: seq<PendingFlush>): (w': World)
    requires Inv(w) && Legal(w, Collect(pending))
    ensures w'.drain.Free? && w'.spec == w.spec
  {
    var captured := InvAfter(w, Collect(pending));
    if pending == [] then captured else CleanFlush(captured)
  }

  lemma FlushedKeepsInv(w: World, pending: seq<PendingFlush>)
    requires Inv(w) && Legal(w, Collect(pending)) && AllLand(w.store.db, pending)
    ensures Inv(Flushed(w, pending))
  {
    if pending != [] { CleanFlushKeepsInv(InvAfter(w, Collect(pending))); }
  }

  lemma FlushedFrontier(w: World, pending: seq<PendingFlush>, p: ActorPath)
    requires Inv(w) && Legal(w, Collect(pending)) && Flushed(w, pending).store.Warm(p)
    ensures var b := Flushed(w, pending).store.buffers[p];
            && b.flushed >= |b.journal.entries|
            && w.store.Warm(p) && b.journal == w.store.buffers[p].journal
  {
    if pending != [] {
      var captured := InvAfter(w, Collect(pending));
      if i :| 0 <= i < |pending| && pending[i].path == p {
        CleanFlushAt(captured, i);
        assert pending[i] == w.store.PendingFor(p);
      } else {
        CleanFlushElsewhere(captured, p);
        assert !w.store.HasPending(p);
      }
    } else {
      assert !w.store.HasPending(p);
    }
  }

  lemma AllStoredIsDurable(b: PathBuffer, j: JournalState, rows: PathRows, cut: Cut)
    requires Aligned(b, j, cut) && Stored(b, rows, cut.stored) && b.flushed >= |b.journal.entries|
    ensures Durable(rows, j)
  {
    assert cut.stored == |b.journal.entries|;
    FullyStoredIsDurable(b, j, rows, cut);
  }

  lemma FlushedViewIsDurable(v: PathView, p: ActorPath)
    requires PathOk(v, Free, p)
    requires v.buffer.Some? && !v.buffer.value.activating ==>
               v.buffer.value.flushed >= |v.buffer.value.journal.entries|
    ensures Durable(v.rows, v.journal)
  {
    if v.buffer.Some? && !v.buffer.value.activating {
      var cut :| Fits(v.buffer.value, v, Free, p, cut);
      AllStoredIsDurable(v.buffer.value, v.journal, v.rows, cut);
    }
  }

  lemma PendingWrites(w: World, p: ActorPath)
    requires Inv(w) && w.drain.Free? && w.store.HasPending(p)
    ensures var written := WriteBatch(RowsOf(w.store.db, p), w.store.PendingFor(p));
            && written.Some?
            && written.value.events == RowMap(w.spec.Of(p).Events())
            && (Durable(written.value, w.spec.Of(p)) <==>
                Lands(RowsOf(w.store.db, p), w.store.PendingFor(p).snapshot))
  {
    assert PathOk(View(w, p), w.drain, p);
    var b, j, cut := w.store.buffers[p], w.spec.Of(p), CutOf(w, p);
    AlignedAgree(b, j, cut);
    FlushOverPrefix(RowsOf(w.store.db, p), b.journal.entries, p, b.flushed, cut.stored, b.dropWhenDurable);
    assert b.journal.entries[..|b.journal.entries|] == b.journal.entries && j.entries[..|j.entries|] == j.entries;
  }

  lemma FlushedRows(w: World, pending: seq<PendingFlush>, p: ActorPath)
    requires Inv(w) && Legal(w, Collect(pending))
    ensures w.store.HasPending(p) ==>
              WriteBatch(RowsOf(w.store.db, p), w.store.PendingFor(p)) ==
              Some(RowsOf(Flushed(w, pending).store.db, p))
    ensures !w.store.HasPending(p) ==> RowsOf(Flushed(w, pending).store.db, p) == RowsOf(w.store.db, p)
  {
    if pending != [] {
      var captured := InvAfter(w, Collect(pending));
      CleanFlushIsCommit(captured);
      WriteAllByPath(w.store.db, pending);
      var db := WriteAll(w.store.db, pending).value;
      CommitByPath(w.store.(db := db), CompletionsOf(pending));
      if w.store.HasPending(p) {
        var i :| 0 <= i < |pending| && pending[i].path == p;
        assert pending[i] == w.store.PendingFor(p);
      }
    }
  }

  /**
   One uninterrupted successful flush leaves every path's events stored to the end; the path is
   stored whole exactly when the flushed snapshot, if any, is anchored no lower than the stored ones.
   */
  lemma FlushLeavesNothingUnflushed(w: World, pending: seq<PendingFlush>, p: ActorPath)
    requires Inv(w) && Legal(w, Collect(pending))
    ensures var rows := RowsOf(Flushed(w, pending).store.db, p);
            && rows.events == RowMap(w.spec.Of(p).Events())
            && (Durable(rows, w.spec.Of(p)) <==>
                (w.store.HasPending(p) ==> Lands(RowsOf(w.store.db, p), w.store.PendingFor(p).snapshot)))
  {
    FlushedRows(w, pending, p);
    if w.store.HasPending(p) {
      PendingWrites(w, p);
    } else {
      assert PathOk(View(w, p), Free, p);
      FlushedViewIsDurable(View(w, p), p);
      var j := w.spec.Of(p);
      assert j.entries[..|j.entries|] == j.entries;
    }
  }

  lemma BatchLands(b: PathBuffer, j: JournalState, rows: PathRows, cut: Cut, p: ActorPath, batch: PendingFlush)
    requires Aligned(b, j, cut) && Stored(b, rows, cut.stored) && BatchFits(b, p, batch)
    requires cut.stored <= batch.capturedEnd && AnchorsRise(j.entries)
    ensures Lands(rows, batch.snapshot)
  {
    var e := batch.capturedEnd;
    var c, m := cut.specBase + (cut.stored - cut.base), cut.specBase + (e - cut.base);
    AlignedCut(b, j, cut, cut.stored);
    AlignedCut(b, j, cut, e);
    RisingPast(j.entries, c, m);
    SplitAt(b.journal.entries[..e], b.flushed);
  }

  lemma RisingPast(entries: seq<JournalEntry>, c: nat, m: nat)
    requires AnchorsRise(entries) && c <= m <= |entries|
    ensures LastSnapshot(entries[..c]).Some? && LastSnapshot(entries[..m]).Some? ==>
              LastSnapshot(entries[..c]).value.seqNo <= LastSnapshot(entries[..m]).value.seqNo
  {
    assert entries[..m][..c] == entries[..c];
    LastSnapshotRises(entries[..m], c);
  }

  lemma PathLands(w: World, i: nat)
    requires Inv(w) && w.drain.Captured? && i < |w.drain.pending|
    requires AnchorsRise(w.spec.Of(w.drain.pending[i].path).entries)
    ensures Lands(RowsOf(w.store.db, w.drain.pending[i].path), w.drain.pending[i].snapshot)
  {
    var batch := w.drain.pending[i];
    var p := batch.path;
    assert BatchOk(w.store, batch) && PathOk(View(w, p), w.drain, p);
    BatchLands(w.store.buffers[p], w.spec.Of(p), RowsOf(w.store.db, p), CutOf(w, p), p, batch);
  }

  /** Where no journal's anchors ever decreased, no flush is harmful. */
  lemma RisingAnchorsLand(w: World)
    requires Inv(w) && w.drain.Captured? && forall p :: AnchorsRise(w.spec.Of(p).entries)
    ensures AllLand(w.store.db, w.drain.pending)
  {
    forall i: nat | i < |w.drain.pending|
      ensures Lands(RowsOf(w.store.db, w.drain.pending[i].path), w.drain.pending[i].snapshot)
    {
      PathLands(w, i);
    }
  }

  // ---- When passivation releases a buffer ----

  /** A passivation called with nothing interleaving, its flush successful. */
  ghost function Passivated(w: World, p: ActorPath, pending: seq<PendingFlush>): (w': World)
    requires Inv(w) && Legal(w, PassivateCollect(p, pending))
    ensures w'.drain.Free?
  {
    var collected := InvAfter(w, PassivateCollect(p, pending));
    if pending == [] then InvAfter(collected, PassivateRelease)
    else CleanFlush(InvAfter(collected, PassivateMark))
  }

  /**
   A successful passivation releases the buffer exactly when it had nothing to write or an
   earlier, failed passivation had marked it: the suffix is captured before the marker is set, so
   the first flush that does write keeps the buffer.
   */
  lemma PassivationReleasesIff(w: World, p: ActorPath, pending: seq<PendingFlush>)
    requires Inv(w) && Legal(w, PassivateCollect(p, pending)) && w.store.Warm(p)
    ensures p !in Passivated(w, p, pending).store.buffers <==>
            !w.store.HasPending(p) || w.store.buffers[p].dropWhenDurable
  {
    if pending == [] {
      assert !w.store.HasPending(p);
    } else {
      assert pending[0].path == p && pending[0] == w.store.PendingFor(p);
      var marked := InvAfter(InvAfter(w, PassivateCollect(p, pending)), PassivateMark);
      CleanFlushAt(marked, 0);
    }
  }

  // ---- Why a path is loaded before it is written ----

  /** Fresh rows from number 0 conflict with any stored history. */
  lemma SecondJournalConflicts(stored: seq<JournaledEvent>, added: seq<JournaledEvent>)
    requires stored != [] && added != [] && Dense(added)
    requires stored[0].ingestSeq != added[0].ingestSeq
    ensures InsertAll(RowMap(stored), PendingOf(added)).None?
  {
    var rows := RowMap(stored);
    assert 0 in rows && rows[0] == ToRow(stored[0]);
    assert PendingOf(added)[0] == PendingEvent(0, ToRow(added[0]));
    if InsertAll(rows, PendingOf(added)).Some? {
      InsertAllHolds(rows, PendingOf(added));
    }
  }

  lemma FirstJournalFits(added: seq<JournaledEvent>)
    requires Dense(added)
    ensures InsertAll(map[], PendingOf(added)).Some?
  {
    assert added[0..|added|] == added;
    assert RowMap(added[..0]) == map[];
    InsertOverPrefix(added, 0, 0, |added|);
  }

  lemma ColdWritePending(s: StoreState, p: ActorPath, events: seq<Event>)
    requires p !in s.buffers && events != []
    ensures s.Append(p, events).HasPending(p)
    ensures s.Append(p, events).PendingFor(p).events == PendingOf(Numbered(events, 0, s.nextIngest))
    ensures s.Append(p, events).PendingFor(p).snapshot == None
  {
    var j, added := EMPTY.AppendAll(events, s.nextIngest), Numbered(events, 0, s.nextIngest);
    assert j.Events() == added && j.Latest() == None && |j.entries| == |events| by {
      AppendAllShape(EMPTY, events, s.nextIngest);
      assert EMPTY.Events() + added == added;
    }
    assert j.entries[0..] == j.entries;
    assert s.Append(p, events).buffers[p] == NEW_BUFFER.(journal := j);
  }

  /**
   A write to a path whose journal is only in SQLite opens a second journal at number 0. Its
   flush goes through exactly when the path has no stored events; otherwise it conflicts, and so
   does every retry.
   */
  lemma ColdWriteFlushesIff(w: World, p: ActorPath, events: seq<Event>)
    requires Inv(w) && !w.drain.Purging? && p !in w.store.buffers && events != []
    ensures var s := w.store.Append(p, events);
            s.HasPending(p) &&
            (WriteBatch(RowsOf(w.store.db, p), s.PendingFor(p)).Some? <==> w.spec.Of(p).Events() == [])
  {
    var history, next := w.spec.Of(p).Events(), w.store.nextIngest;
    var added := Numbered(events, 0, next);
    ColdWritePending(w.store, p, events);
    HistoryIsSomewhere(w, p);
    if history == [] {
      assert RowMap(history) == map[];
      FirstJournalFits(added);
    } else {
      assert JournalOk(w.spec.Of(p), w.spec.nextIngest);
      SecondJournalConflicts(history, added);
    }
  }

  // ---- A snapshot anchored below an earlier one ----

  /** What a cold load of the path would answer from the tables. */
  ghost function ColdReplay(rows: PathRows): Replay {
    OrEmpty(BuildReplay(RebuildJournal(StoredEvents(rows), LatestRow(rows.snapshots)).entries))
  }

  /** The tables after an owner appended a snapshot at any anchor and the path was flushed. */
  ghost function FlushedSnapshot(w: World, p: ActorPath, s: Snapshot, nowMs: nat): Option<PathRows>
    requires w.store.Warm(p) && w.store.AppendSnapshot(p, s.seqNo, s.state, nowMs).HasPending(p)
  {
    WriteBatch(RowsOf(w.store.db, p), w.store.AppendSnapshot(p, s.seqNo, s.state, nowMs).PendingFor(p))
  }

  lemma SnapshotBatch(w: World, p: ActorPath, s: Snapshot, nowMs: nat)
    requires w.store.Warm(p) && w.store.buffers[p].flushed <= |w.store.buffers[p].journal.entries|
    ensures var b, after := w.store.buffers[p], w.store.AppendSnapshot(p, s.seqNo, s.state, nowMs);
            && after.HasPending(p)
            && after.PendingFor(p).events == PendingOf(EventsOf(b.journal.entries[b.flushed..]))
            && after.PendingFor(p).snapshot == Some(s)
            && after.buffers[p].journal.Events() == b.journal.Events()
            && after.buffers[p].journal.Latest() == Some(s)
  {
    var b := w.store.buffers[p];
    var entries := b.journal.entries;
    var grown := w.store.AppendSnapshot(p, s.seqNo, s.state, nowMs).buffers[p].journal.entries;
    AppendSnapshotShape(b.journal, s.seqNo, s.state, nowMs);
    assert grown[b.flushed..] == entries[b.flushed..] + [SnapshotEntry(s)];
    EventsOfConcat(entries[b.flushed..], [SnapshotEntry(s)]);
    LastSnapshotConcat(entries[b.flushed..], [SnapshotEntry(s)]);
    assert EventsOf([SnapshotEntry(s)]) == [] && LastSnapshot([SnapshotEntry(s)]) == Some(s);
  }

  lemma EventRowsComplete(b: PathBuffer, rows: PathRows, stored: nat)
    requires b.journal.Wf() && Stored(b, rows, stored)
    ensures InsertAll(rows.events, PendingOf(EventsOf(b.journal.entries[b.flushed..]))) ==
            Some(RowMap(b.journal.Events()))
  {
    var all := b.journal.Events();
    CutEvents(b.journal.entries, b.flushed, stored);
    var from, m := |EventsOf(b.journal.entries[..b.flushed])|, |EventsOf(b.journal.entries[..stored])|;
    InsertOverPrefix(all, from, m, |all|);
    assert all[from..|all|] == all[from..] && all[..|all|] == all;
  }

  /**
   A snapshot whose anchor may lie below an earlier one: the warm buffer restores the one appended
   last, a cold load the highest anchor. After a flush the two agree exactly when no stored
   snapshot is anchored above the new one.
   */
  lemma LowSnapshotReloadsIff(w: World, p: ActorPath, s: Snapshot, nowMs: nat)
    requires Inv(w) && w.drain.Free? && w.store.Warm(p) && s.seqNo < ANCHOR_LIMIT
    ensures w.store.AppendSnapshot(p, s.seqNo, s.state, nowMs).HasPending(p)
    ensures FlushedSnapshot(w, p, s, nowMs).Some?
    ensures var stored := LatestRow(RowsOf(w.store.db, p).snapshots);
            ColdReplay(FlushedSnapshot(w, p, s, nowMs).value) ==
            OrEmpty(w.store.AppendSnapshot(p, s.seqNo, s.state, nowMs).Replayed(p))
            <==> (stored.Some? ==> stored.value.seqNo <= s.seqNo)
  {
    assert PathOk(View(w, p), w.drain, p);
    var b, rows := w.store.buffers[p], RowsOf(w.store.db, p);
    var cut := CutOf(w, p);
    EventRowsComplete(b, rows, cut.stored);
    SnapshotBatch(w, p, s, nowMs);
    AnchorsFitPrefix(b.journal.entries, cut.stored);
    LastSnapshotFits(b.journal.entries[..cut.stored]);
    ColdAfterUpsert(b.journal.Events(), rows.snapshots, s);
  }

  lemma ColdAfterUpsert(records: seq<JournaledEvent>, snapshots: map<nat, Json>, s: Snapshot)
    requires Dense(records) && s.seqNo < ANCHOR_LIMIT
    requires LatestRow(snapshots).Some? ==> LatestRow(snapshots).value.seqNo < ANCHOR_LIMIT
    ensures ColdReplay(PathRows(RowMap(records), snapshots[s.seqNo := s.state])) == ReplayOf(records, Some(s))
            <==> (LatestRow(snapshots).Some? ==> LatestRow(snapshots).value.seqNo <= s.seqNo)
  {
    var rows := PathRows(RowMap(records), snapshots[s.seqNo := s.state]);
    StoredEventsDense(rows, records);
    UpsertIsLatest(snapshots, s);
    UpsertStaysLow(snapshots, s);
    RebuildShape(records, LatestRow(rows.snapshots));
  }

  lemma UpsertStaysLow(snapshots: map<nat, Json>, s: Snapshot)
    requires s.seqNo < ANCHOR_LIMIT
    requires LatestRow(snapshots).Some? ==> LatestRow(snapshots).value.seqNo < ANCHOR_LIMIT
    ensures var after := LatestRow(snapshots[s.seqNo := s.state]);
            after.Some? && after.value.seqNo < ANCHOR_LIMIT
  {
    var after := snapshots[s.seqNo := s.state];
    assert s.seqNo in after;
    var top := LatestRow(after).value.seqNo;
    assert top in after.Keys;
    if top != s.seqNo { assert top in snapshots.Keys; }
  }
}
