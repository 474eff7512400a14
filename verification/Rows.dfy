/**
 The two SQLite tables and the flush transaction (src/journal_daow.rs).

 The primary keys (journal, seq) become one `PathRows` per path: a map from seq to event row
 and a map from seq to snapshot. A transaction is a function from tables to tables, or `None`
 when a row conflicts and the whole transaction rolls back.
 */
module Rows {
  import opened Wrappers
  import opened Journals

  const KIND_RECORDED := 0
  const KIND_CATCHUP := 1

  datatype EventRow = EventRow(
    kind: int, schema: SchemaId, payload: string, origin: EventOrigin,
    catchupSource: Option<ActorPath>, catchupSeq: Option<nat>, ingestSeq: nat)

  datatype PathRows = PathRows(events: map<nat, EventRow>, snapshots: map<nat, Json>)

  const NO_ROWS := PathRows(map[], map[])

  type Database = map<ActorPath, PathRows>

  function RowsOf(db: Database, path: ActorPath): PathRows {
    if path in db then db[path] else NO_ROWS
  }

  /** One event on its way from a buffer to its table. */
  datatype PendingEvent = PendingEvent(seqNo: nat, row: EventRow)

  /** One path's captured suffix; the frontier to install is `capturedEnd`. */
  datatype PendingFlush = PendingFlush(
    path: ActorPath, events: seq<PendingEvent>, snapshot: Option<Snapshot>,
    capturedEnd: nat, dropWhenDurable: bool)

  // ---- Rows and records ----

  function SerializeEvent(record: JournaledEvent): PendingEvent {
    PendingEvent(record.seqNo, ToRow(record))
  }

  function ToRow(record: JournaledEvent): EventRow {
    match record.origin
    case Recorded =>
      EventRow(KIND_RECORDED, record.event.schema, record.event.payload, Recorded,
               None, None, record.ingestSeq)
    case CatchUp(source, sourceSeq) =>
      EventRow(KIND_CATCHUP, record.event.schema, record.event.payload, record.origin,
               Some(source), Some(sourceSeq), record.ingestSeq)
  }

  function IntoJournaled(seqNo: nat, row: EventRow): JournaledEvent {
    JournaledEvent(seqNo, Event(row.schema, row.payload), row.origin, row.ingestSeq)
  }

  /** Reading a row back gives the record it was written from, and no two records share a row. */
  lemma RowRoundTrip(record: JournaledEvent, other: JournaledEvent)
    ensures IntoJournaled(record.seqNo, ToRow(record)) == record
    ensures SerializeEvent(record) == SerializeEvent(other) ==> record == other
  {
    assert IntoJournaled(record.seqNo, ToRow(record)) == record;
    assert IntoJournaled(other.seqNo, ToRow(other)) == other;
  }

  /** The suffix rows of a list of records, in journal order. */
  function PendingOf(records: seq<JournaledEvent>): (r: seq<PendingEvent>)
    ensures |r| == |records|
    ensures forall i :: 0 <= i < |r| ==> r[i] == SerializeEvent(records[i])
  {
    seq(|records|, i requires 0 <= i < |records| => SerializeEvent(records[i]))
  }

  /** The event table that holds exactly `records`, each at its position. */
  function RowMap(records: seq<JournaledEvent>): map<nat, EventRow> {
    map i | 0 <= i < |records| :: ToRow(records[i])
  }

  // ---- Reading ----

  /** One more than the largest member; 0 for the empty set. */
  ghost function Above(s: set<nat>): (r: nat)
    ensures forall x :: x in s ==> x < r
    ensures s != {} ==> r > 0 && r - 1 in s
    ensures s == {} ==> r == 0
  {
    if s == {} then 0
    else
      var x :| x in s;
      var rest := Above(s - {x});
      assert s == (s - {x}) + {x};
      if rest > x then rest else x + 1
  }

  /** `SELECT ... ORDER BY seq DESC LIMIT 1` over a path's snapshots. */
  ghost function LatestRow(snapshots: map<nat, Json>): Option<Snapshot> {
    if snapshots == map[] then None
    else
      var top := Above(snapshots.Keys);
      assert snapshots.Keys != {} by {
        var k :| k in snapshots;
        assert k in snapshots.Keys;
      }
      Some(Snapshot(top - 1, snapshots[top - 1]))
  }

  lemma LatestRowIsTop(snapshots: map<nat, Json>, k: nat)
    requires k in snapshots && forall j :: j in snapshots ==> j <= k
    ensures LatestRow(snapshots) == Some(Snapshot(k, snapshots[k]))
  {
    assert Above(snapshots.Keys) - 1 in snapshots.Keys;
  }

  /** `SELECT ... ORDER BY seq ASC` over a path's events, read up to `bound`. */
  ghost function RowsBelow(events: map<nat, EventRow>, bound: nat): seq<JournaledEvent> {
    if bound == 0 then []
    else RowsBelow(events, bound - 1) +
         (if bound - 1 in events then [IntoJournaled(bound - 1, events[bound - 1])] else [])
  }

  ghost function StoredEvents(rows: PathRows): seq<JournaledEvent> {
    RowsBelow(rows.events, Above(rows.events.Keys))
  }

  lemma {:induction false} RowsBelowDense(records: seq<JournaledEvent>, bound: nat)
    requires Dense(records) && bound <= |records|
    ensures RowsBelow(RowMap(records), bound) == records[..bound]
    decreases bound
  {
    if bound > 0 {
      RowsBelowDense(records, bound - 1);
      RowRoundTrip(records[bound - 1], records[bound - 1]);
      assert records[..bound] == records[..bound - 1] + [records[bound - 1]];
    }
  }

  /** A dense table reads back as the records it holds. */
  lemma StoredEventsDense(rows: PathRows, records: seq<JournaledEvent>)
    requires Dense(records) && rows.events == RowMap(records)
    ensures StoredEvents(rows) == records
  {
    var top := Above(rows.events.Keys);
    if records == [] {
      assert rows.events.Keys == {};
    } else {
      assert |records| - 1 in rows.events.Keys;
      assert top == |records|;
    }
    RowsBelowDense(records, |records|);
    assert records[..|records|] == records;
  }

  // ---- The transaction ----

  /** Insert a row, or accept the identical row already there; `None` is a conflict. */
  function InsertOrVerify(events: map<nat, EventRow>, pending: PendingEvent): Option<map<nat, EventRow>> {
    if pending.seqNo !in events then Some(events[pending.seqNo := pending.row])
    else if events[pending.seqNo] == pending.row then Some(events)
    else None
  }

  function InsertAll(events: map<nat, EventRow>, pending: seq<PendingEvent>): Option<map<nat, EventRow>> {
    if pending == [] then Some(events)
    else
      var n := |pending| - 1;
      match InsertAll(events, pending[..n])
      case None => None
      case Some(done) => InsertOrVerify(done, pending[n])
  }

  function WriteBatch(rows: PathRows, batch: PendingFlush): Option<PathRows> {
    match InsertAll(rows.events, batch.events)
    case None => None
    case Some(events) =>
      Some(PathRows(events,
                    if batch.snapshot.Some?
                    then rows.snapshots[batch.snapshot.value.seqNo := batch.snapshot.value.state]
                    else rows.snapshots))
  }

  /** All batches in one transaction: `None` rolls everything back. */
  function WriteAll(db: Database, pending: seq<PendingFlush>): Option<Database> {
    if pending == [] then Some(db)
    else
      var n := |pending| - 1;
      match WriteAll(db, pending[..n])
      case None => None
      case Some(done) =>
        match WriteBatch(RowsOf(done, pending[n].path), pending[n])
        case None => None
        case Some(rows) => Some(done[pending[n].path := rows])
  }

  ghost predicate DistinctPaths(pending: seq<PendingFlush>) {
    forall i, j :: 0 <= i < j < |pending| ==> pending[i].path != pending[j].path
  }

  /** The transaction succeeds exactly when every batch does alone, and works path by path. */
  lemma {:induction false} WriteAllByPath(db: Database, pending: seq<PendingFlush>)
    requires DistinctPaths(pending)
    ensures WriteAll(db, pending).Some? <==>
            forall i :: 0 <= i < |pending| ==>
              WriteBatch(RowsOf(db, pending[i].path), pending[i]).Some?
    ensures WriteAll(db, pending).Some? ==>
            forall i :: 0 <= i < |pending| ==>
              Some(RowsOf(WriteAll(db, pending).value, pending[i].path)) ==
              WriteBatch(RowsOf(db, pending[i].path), pending[i])
    ensures WriteAll(db, pending).Some? ==>
            forall p :: (forall i :: 0 <= i < |pending| ==> pending[i].path != p) ==>
              RowsOf(WriteAll(db, pending).value, p) == RowsOf(db, p)
    decreases |pending|
  {
    if pending != [] {
      var n := |pending| - 1;
      WriteAllByPath(db, pending[..n]);
      forall i | 0 <= i < n ensures pending[..n][i] == pending[i] {}
      var done := WriteAll(db, pending[..n]);
      if done.Some? {
        assert RowsOf(done.value, pending[n].path) == RowsOf(db, pending[n].path);
        assert forall i :: 0 <= i < n ==> WriteBatch(RowsOf(db, pending[i].path), pending[i]).Some?;
      }
    }
  }

  // ---- Writing a journal's suffix over any durable prefix ----

  /**
   The tables hold the first `g` entries: their events, row for row, and as highest snapshot
   the last one among them.
   */
  ghost predicate StoredThrough(rows: PathRows, entries: seq<JournalEntry>, g: nat)
    requires g <= |entries|
  {
    && rows.events == RowMap(EventsOf(entries[..g]))
    && LatestRow(rows.snapshots) == LastSnapshot(entries[..g])
  }

  /** Inserting records s..e over stored records 0..m leaves records 0..max(m, e). */
  lemma {:induction false} InsertOverPrefix(records: seq<JournaledEvent>, s: nat, m: nat, e: nat)
    requires Dense(records) && s <= m <= |records| && s <= e <= |records|
    ensures InsertAll(RowMap(records[..m]), PendingOf(records[s..e])) ==
            Some(RowMap(records[..if m <= e then e else m]))
    decreases e
  {
    var pending := PendingOf(records[s..e]);
    if s == e {
      assert pending == [];
    } else {
      InsertOverPrefix(records, s, m, e - 1);
      assert pending[..|pending| - 1] == PendingOf(records[s..e - 1]);
      assert pending[|pending| - 1] == SerializeEvent(records[e - 1]);
      assert records[e - 1].seqNo == e - 1;
      var before := RowMap(records[..if m <= e - 1 then e - 1 else m]);
      if e <= m {
        assert before[e - 1] == ToRow(records[e - 1]);
      } else {
        assert e - 1 !in before;
        assert before[e - 1 := ToRow(records[e - 1])] == RowMap(records[..e]);
      }
    }
  }

  /** The batch `collect_pending` builds from entries f..e. */
  function Capture(path: ActorPath, entries: seq<JournalEntry>, f: nat, drop: bool): PendingFlush
    requires f <= |entries|
  {
    PendingFlush(path, PendingOf(EventsOf(entries[f..])), LastSnapshot(entries[f..]), |entries|, drop)
  }

  /** Cutting an entry list at f and at g cuts its events at the matching two counts. */
  lemma CutEvents(entries: seq<JournalEntry>, f: nat, g: nat)
    requires f <= g <= |entries|
    ensures var all := EventsOf(entries);
            var s, m := |EventsOf(entries[..f])|, |EventsOf(entries[..g])|;
            && s <= m <= |all|
            && EventsOf(entries[..g]) == all[..m]
            && EventsOf(entries[f..]) == all[s..]
  {
    SplitAt(entries, f);
    SplitAt(entries, g);
    assert entries[..g][..f] == entries[..f];
    SplitAt(entries[..g], f);
  }

  /** The snapshot, if there is one, is anchored no lower than any stored. */
  ghost predicate Lands(rows: PathRows, s: Option<Snapshot>) {
    s.Some? && LatestRow(rows.snapshots).Some? ==> LatestRow(rows.snapshots).value.seqNo <= s.value.seqNo
  }

  /**
   Flushing from any frontier at or below what is stored brings the event rows exactly to the
   captured end: a lost acknowledgement of an earlier transaction cannot hurt. The latest snapshot
   follows exactly when it lands.
   */
  lemma FlushOverPrefix(rows: PathRows, entries: seq<JournalEntry>, path: ActorPath,
                        f: nat, g: nat, drop: bool)
    requires EntriesOk(entries) && f <= g <= |entries| && StoredThrough(rows, entries, g)
    ensures var written := WriteBatch(rows, Capture(path, entries, f, drop));
            && written.Some?
            && written.value.events == RowMap(EventsOf(entries))
            && (StoredThrough(written.value, entries, |entries|) <==> Lands(rows, LastSnapshot(entries[f..])))
  {
    var all := EventsOf(entries);
    CutEvents(entries, f, g);
    var s, m := |EventsOf(entries[..f])|, |EventsOf(entries[..g])|;
    InsertOverPrefix(all, s, m, |all|);
    assert all[s..|all|] == all[s..] && all[..|all|] == all;
    assert entries[..|entries|] == entries;
    FlushKeepsLatest(rows, entries, f, g);
  }

  lemma FlushKeepsLatest(rows: PathRows, entries: seq<JournalEntry>, f: nat, g: nat)
    requires f <= g <= |entries| && StoredThrough(rows, entries, g)
    ensures var latest := LastSnapshot(entries[f..]);
            LatestRow(if latest.Some? then rows.snapshots[latest.value.seqNo := latest.value.state]
                      else rows.snapshots) == LastSnapshot(entries)
            <==> Lands(rows, latest)
  {
    var latest := LastSnapshot(entries[f..]);
    if latest.Some? {
      SplitAt(entries, f);
      UpsertIsLatest(rows.snapshots, latest.value);
    } else {
      NoNewSnapshot(entries, f, g);
    }
  }

  /** Where anchors never decreased, the next flush lands. */
  lemma RisingLands(rows: PathRows, entries: seq<JournalEntry>, f: nat, g: nat)
    requires AnchorsRise(entries) && f <= g <= |entries| && StoredThrough(rows, entries, g)
    ensures Lands(rows, LastSnapshot(entries[f..]))
  {
    SplitAt(entries, f);
    LastSnapshotRises(entries, g);
  }

  /** A written snapshot is the one a cold load restores iff no stored anchor lies above it. */
  lemma UpsertIsLatest(snapshots: map<nat, Json>, s: Snapshot)
    ensures LatestRow(snapshots[s.seqNo := s.state]) == Some(s) <==>
            (LatestRow(snapshots).Some? ==> LatestRow(snapshots).value.seqNo <= s.seqNo)
  {
    var after := snapshots[s.seqNo := s.state];
    if LatestRow(snapshots).Some? && LatestRow(snapshots).value.seqNo > s.seqNo {
      var top := LatestRow(snapshots).value.seqNo;
      assert top in after.Keys;
    } else {
      forall k | k in after ensures k <= s.seqNo {
        if k != s.seqNo {
          assert k in snapshots.Keys && k < Above(snapshots.Keys);
        }
      }
      LatestRowIsTop(after, s.seqNo);
    }
  }

  lemma NoNewSnapshot(entries: seq<JournalEntry>, f: nat, g: nat)
    requires f <= g <= |entries| && LastSnapshot(entries[f..]).None?
    ensures LastSnapshot(entries[..g]) == LastSnapshot(entries)
  {
    SplitAt(entries, g);
    var suffix := entries[f..];
    SplitAt(suffix, g - f);
    assert suffix[g - f..] == entries[g..];
  }

  // ---- Retrying a transaction ----

  /** What an insertion run leaves: old rows kept, every pending row present. */
  lemma {:induction false} InsertAllHolds(events: map<nat, EventRow>, pending: seq<PendingEvent>)
    requires InsertAll(events, pending).Some?
    ensures var done := InsertAll(events, pending).value;
            && (forall k :: k in events ==> k in done && done[k] == events[k])
            && (forall i :: 0 <= i < |pending| ==>
                  pending[i].seqNo in done && done[pending[i].seqNo] == pending[i].row)
            && (forall k :: k in done ==>
                  k in events || exists i :: 0 <= i < |pending| && pending[i].seqNo == k)
    decreases |pending|
  {
    if pending != [] {
      var n := |pending| - 1;
      InsertAllHolds(events, pending[..n]);
      var done := InsertAll(events, pending).value;
      forall i | 0 <= i < |pending|
        ensures pending[i].seqNo in done && done[pending[i].seqNo] == pending[i].row
      {
        if i < n { assert pending[..n][i] == pending[i]; }
      }
      forall k | k in done && k !in events
        ensures exists i :: 0 <= i < |pending| && pending[i].seqNo == k
      {
        if k == pending[n].seqNo {
          assert pending[n].seqNo == k;
        } else {
          var i :| 0 <= i < n && pending[..n][i].seqNo == k;
          assert pending[i].seqNo == k;
        }
      }
    }
  }

  /** A run whose rows are all present already changes nothing. */
  lemma {:induction false} InsertAllPresent(events: map<nat, EventRow>, pending: seq<PendingEvent>)
    requires forall i :: 0 <= i < |pending| ==>
               pending[i].seqNo in events && events[pending[i].seqNo] == pending[i].row
    ensures InsertAll(events, pending) == Some(events)
    decreases |pending|
  {
    if pending != [] {
      var n := |pending| - 1;
      forall i | 0 <= i < n
        ensures pending[..n][i].seqNo in events &&
                events[pending[..n][i].seqNo] == pending[..n][i].row
      {
        assert pending[..n][i] == pending[i];
      }
      InsertAllPresent(events, pending[..n]);
      assert pending[n].seqNo in events && events[pending[n].seqNo] == pending[n].row;
    }
  }

  lemma {:induction false} InsertAllConcat(
    events: map<nat, EventRow>, a: seq<PendingEvent>, b: seq<PendingEvent>)
    ensures InsertAll(events, a + b) ==
            if InsertAll(events, a).Some? then InsertAll(InsertAll(events, a).value, b) else None
    decreases |b|
  {
    if b == [] {
      assert a + b == a;
    } else {
      var n := |b| - 1;
      InsertAllConcat(events, a, b[..n]);
      assert (a + b)[..|a + b| - 1] == a + b[..n];
    }
  }

  /**
   A flush whose commit was applied but reported as failed is retried with the same or a grown
   suffix. The retry goes through exactly when one clean flush of the grown suffix would, and
   leaves its event table.
   */
  lemma RetryKeepsEvents(rows: PathRows, first: PendingFlush, grown: PendingFlush, more: seq<PendingEvent>)
    requires WriteBatch(rows, first).Some? && grown.events == first.events + more
    ensures var applied := WriteBatch(rows, first).value;
            && (WriteBatch(applied, grown).Some? <==> WriteBatch(rows, grown).Some?)
            && (WriteBatch(rows, grown).Some? ==>
                  WriteBatch(applied, grown).value.events == WriteBatch(rows, grown).value.events)
  {
    var applied := WriteBatch(rows, first).value;
    InsertAllHolds(rows.events, first.events);
    InsertAllPresent(applied.events, first.events);
    InsertAllConcat(rows.events, first.events, more);
    InsertAllConcat(applied.events, first.events, more);
  }

  /** The first attempt's snapshot row makes no difference to what one clean flush leaves. */
  predicate SnapshotSubsumed(rows: PathRows, first: PendingFlush, grown: PendingFlush) {
    first.snapshot.Some? ==>
      var anchor := first.snapshot.value.seqNo;
      || (grown.snapshot.Some? && grown.snapshot.value.seqNo == anchor)
      || (anchor in rows.snapshots && rows.snapshots[anchor] == first.snapshot.value.state)
  }

  /**
   The retry reaches the tables of one clean flush exactly when the first attempt wrote no snapshot
   row of its own: it carried none, the grown suffix's latest has the same anchor, or the row was
   there already. The same suffix retried changes nothing.
   */
  lemma FlushRetryIsIdempotent(rows: PathRows, first: PendingFlush, grown: PendingFlush, more: seq<PendingEvent>)
    requires WriteBatch(rows, first).Some? && grown.events == first.events + more
    ensures var applied := WriteBatch(rows, first).value;
            && WriteBatch(applied, first) == Some(applied)
            && (WriteBatch(applied, grown).Some? <==> WriteBatch(rows, grown).Some?)
            && (WriteBatch(rows, grown).Some? ==>
                  && WriteBatch(applied, grown).value.events == WriteBatch(rows, grown).value.events
                  && (WriteBatch(applied, grown) == WriteBatch(rows, grown) <==> SnapshotSubsumed(rows, first, grown)))
  {
    RetryKeepsEvents(rows, first, grown, more);
    assert first.events == first.events + [];
    RetryKeepsEvents(rows, first, first, []);
    if first.snapshot.Some? {
      UpsertTwiceIff(rows.snapshots, first.snapshot.value, grown.snapshot);
      UpsertTwiceIff(rows.snapshots, first.snapshot.value, first.snapshot);
    }
  }

  function Upsert(snapshots: map<nat, Json>, s: Option<Snapshot>): map<nat, Json> {
    if s.Some? then snapshots[s.value.seqNo := s.value.state] else snapshots
  }

  lemma UpsertTwiceIff(snapshots: map<nat, Json>, s: Snapshot, next: Option<Snapshot>)
    ensures Upsert(snapshots[s.seqNo := s.state], next) == Upsert(snapshots, next) <==>
            || (next.Some? && next.value.seqNo == s.seqNo)
            || (s.seqNo in snapshots && snapshots[s.seqNo] == s.state)
  {
    var twice, once := Upsert(snapshots[s.seqNo := s.state], next), Upsert(snapshots, next);
    if next.Some? && next.value.seqNo == s.seqNo {
      assert twice == once;
    } else if s.seqNo in snapshots && snapshots[s.seqNo] == s.state {
      assert snapshots[s.seqNo := s.state] == snapshots;
    } else {
      assert s.seqNo in twice && twice[s.seqNo] == s.state;
      assert s.seqNo in once ==> once[s.seqNo] != s.state;
    }
  }

  /** With rising anchors an extra row is never the one restored: the retry's latest is the clean one's. */
  lemma RetryKeepsLatest(rows: PathRows, first: PendingFlush, grown: PendingFlush, more: seq<PendingEvent>)
    requires WriteBatch(rows, first).Some? && grown.events == first.events + more && WriteBatch(rows, grown).Some?
    requires first.snapshot.Some? ==>
               grown.snapshot.Some? && first.snapshot.value.seqNo <= grown.snapshot.value.seqNo
    ensures WriteBatch(WriteBatch(rows, first).value, grown).Some?
    ensures LatestRow(WriteBatch(WriteBatch(rows, first).value, grown).value.snapshots) ==
            LatestRow(WriteBatch(rows, grown).value.snapshots)
  {
    RetryKeepsEvents(rows, first, grown, more);
    if first.snapshot.Some? {
      UpsertLowLatest(rows.snapshots, first.snapshot.value, grown.snapshot.value);
    }
  }

  lemma UpsertLowLatest(snapshots: map<nat, Json>, low: Snapshot, high: Snapshot)
    requires low.seqNo <= high.seqNo
    ensures LatestRow(snapshots[low.seqNo := low.state][high.seqNo := high.state]) ==
            LatestRow(snapshots[high.seqNo := high.state])
  {
    var once := snapshots[high.seqNo := high.state];
    var twice := snapshots[low.seqNo := low.state][high.seqNo := high.state];
    assert high.seqNo in once.Keys;
    var top := LatestRow(once).value.seqNo;
    assert top in once.Keys && high.seqNo <= top;
    forall k | k in twice ensures k <= top {
      if k != low.seqNo && k != high.seqNo { assert k in once.Keys; }
    }
    assert top == low.seqNo ==> top == high.seqNo;
    LatestRowIsTop(twice, top);
  }

  /** Some pending row differs from the one stored at its number. */
  predicate ClashesWithStored(events: map<nat, EventRow>, pending: seq<PendingEvent>) {
    exists i :: 0 <= i < |pending| && pending[i].seqNo in events && events[pending[i].seqNo] != pending[i].row
  }

  /** Two pending rows differ at one number. */
  predicate ClashesWithItself(pending: seq<PendingEvent>) {
    exists i, j :: 0 <= i < j < |pending| && pending[i].seqNo == pending[j].seqNo && pending[i].row != pending[j].row
  }

  lemma ClashesGrow(events: map<nat, EventRow>, pending: seq<PendingEvent>)
    requires pending != []
    ensures ClashesWithStored(events, pending[..|pending| - 1]) ==> ClashesWithStored(events, pending)
    ensures ClashesWithItself(pending[..|pending| - 1]) ==> ClashesWithItself(pending)
  {
    var n := |pending| - 1;
    if ClashesWithStored(events, pending[..n]) {
      var i :| 0 <= i < n && pending[..n][i].seqNo in events && events[pending[..n][i].seqNo] != pending[..n][i].row;
      assert events[pending[i].seqNo] != pending[i].row;
    }
    if ClashesWithItself(pending[..n]) {
      var i, j :| 0 <= i < j < n && pending[..n][i].seqNo == pending[..n][j].seqNo &&
                  pending[..n][i].row != pending[..n][j].row;
      assert pending[i].seqNo == pending[j].seqNo && pending[i].row != pending[j].row;
    }
  }

  /**
   The transaction is refused exactly when a pending row differs from the row stored at its number
   or from an earlier pending row at its number.
   */
  lemma {:induction false} ConflictIffDifferentRow(events: map<nat, EventRow>, pending: seq<PendingEvent>)
    ensures InsertAll(events, pending).None? <==> ClashesWithStored(events, pending) || ClashesWithItself(pending)
    decreases |pending|
  {
    if pending != [] {
      var n := |pending| - 1;
      ConflictIffDifferentRow(events, pending[..n]);
      ClashesGrow(events, pending);
      if InsertAll(events, pending).Some? {
        InsertAllHolds(events, pending);
      } else if InsertAll(events, pending[..n]).Some? {
        LastRowClashes(events, pending);
      }
    }
  }

  lemma LastRowClashes(events: map<nat, EventRow>, pending: seq<PendingEvent>)
    requires pending != [] && InsertAll(events, pending[..|pending| - 1]).Some? && InsertAll(events, pending).None?
    ensures ClashesWithStored(events, pending) || ClashesWithItself(pending)
  {
    var n, k := |pending| - 1, pending[|pending| - 1].seqNo;
    InsertAllHolds(events, pending[..n]);
    if k in events {
      assert events[pending[n].seqNo] != pending[n].row;
    } else {
      var i :| 0 <= i < n && pending[..n][i].seqNo == k;
      assert pending[i].seqNo == pending[n].seqNo && pending[i].row != pending[n].row by {
        assert pending[..n][i] == pending[i];
      }
    }
  }

  // ---- Rebuilding a journal from its rows ----

  function RebuildEvents(records: seq<JournaledEvent>): JournalState
    decreases |records|
  {
    if records == [] then EMPTY
    else
      var n := |records| - 1;
      var r := records[n];
      RebuildEvents(records[..n]).AppendEvent(r.event, r.origin, r.ingestSeq)
  }

  /** `rebuild_journal`: stored events in order, then the highest snapshot as a last entry. */
  function RebuildJournal(records: seq<JournaledEvent>, latest: Option<Snapshot>): JournalState {
    var j := RebuildEvents(records);
    if latest.Some? then j.AppendSnapshot(latest.value.seqNo, latest.value.state, 0) else j
  }

  lemma {:induction false} RebuildEventsEntries(records: seq<JournaledEvent>)
    requires Dense(records)
    ensures RebuildEvents(records) == JournalState(AsEntries(records), |records|, None)
    decreases |records|
  {
    if records == [] {
      assert AsEntries(records) == [];
    } else {
      var n := |records| - 1;
      RebuildEventsEntries(records[..n]);
      assert AsEntries(records) == AsEntries(records[..n]) + [EventEntry(records[n])];
    }
  }

  lemma RebuildShape(records: seq<JournaledEvent>, latest: Option<Snapshot>)
    requires Dense(records)
    requires latest.Some? ==> latest.value.seqNo < ANCHOR_LIMIT
    ensures RebuildJournal(records, latest).Events() == records
    ensures RebuildJournal(records, latest).Latest() == latest
    ensures RebuildJournal(records, latest).Wf()
  {
    RebuildEventsEntries(records);
    AsEntriesShape(records);
    if latest.Some? {
      AppendSnapshotShape(RebuildEvents(records), latest.value.seqNo, latest.value.state, 0);
    }
  }
}
