/**
 The write-behind store as an object (src/journal_daow.rs): its loops, proved against the atomic
 sections of `WriteBehind`. A method that spans several sections runs them with nothing between;
 `Protocol` is where other tasks come in.
 */
module WriteBehindStore {
  import opened Wrappers
  import opened Journals
  import opened MemoryStore
  import opened Rows
  import opened WriteBehind
  import opened Protocol
  import I = ProtocolInvariant

  // ---- Loops over rows ----

  lemma {:induction false} ConflictStays(events: map<nat, EventRow>, pending: seq<PendingEvent>, k: nat)
    requires k <= |pending| && InsertAll(events, pending[..k]).None?
    ensures InsertAll(events, pending).None?
    decreases |pending|
  {
    if k < |pending| {
      var n := |pending| - 1;
      assert pending[..n][..k] == pending[..k];
      ConflictStays(events, pending[..n], k);
    } else {
      assert pending[..k] == pending;
    }
  }

  lemma {:induction false} RollbackStays(db: Database, pending: seq<PendingFlush>, k: nat)
    requires k <= |pending| && WriteAll(db, pending[..k]).None?
    ensures WriteAll(db, pending).None?
    decreases |pending|
  {
    if k < |pending| {
      var n := |pending| - 1;
      assert pending[..n][..k] == pending[..k];
      RollbackStays(db, pending[..n], k);
    } else {
      assert pending[..k] == pending;
    }
  }

  /** The insert loop of one batch: a conflict stops it. */
  method InsertRows(events: map<nat, EventRow>, pending: seq<PendingEvent>)
    returns (r: Option<map<nat, EventRow>>)
    ensures r == InsertAll(events, pending)
  {
    var done := events;
    for i := 0 to |pending|
      invariant InsertAll(events, pending[..i]) == Some(done)
    {
      assert pending[..i + 1][..i] == pending[..i];
      if pending[i].seqNo !in done {
        done := done[pending[i].seqNo := pending[i].row];
      } else if done[pending[i].seqNo] != pending[i].row {
        ConflictStays(events, pending, i + 1);
        return None;
      }
    }
    assert pending[..|pending|] == pending;
    return Some(done);
  }

  /** The suffix loop of `collect_pending`: every event, and the snapshot met last. */
  method CaptureSuffix(path: ActorPath, b: PathBuffer) returns (batch: PendingFlush)
    requires b.flushed <= |b.journal.entries|
    ensures batch == Capture(path, b.journal.entries, b.flushed, b.dropWhenDurable)
  {
    var suffix := b.journal.entries[b.flushed..];
    var events: seq<PendingEvent>, snapshot := [], None;
    for i := 0 to |suffix|
      invariant events == PendingOf(EventsOf(suffix[..i]))
      invariant snapshot == LastSnapshot(suffix[..i])
    {
      assert suffix[..i + 1][..i] == suffix[..i];
      if suffix[i].EventEntry? {
        events := events + [SerializeEvent(suffix[i].record)];
      } else {
        snapshot := Some(suffix[i].snapshot);
      }
    }
    assert suffix[..|suffix|] == suffix;
    batch := PendingFlush(path, events, snapshot, |b.journal.entries|, b.dropWhenDurable);
  }

  /** `read_path_rows`, events half: the rows by ascending number. */
  method ReadEvents(events: map<nat, EventRow>) returns (records: seq<JournaledEvent>)
    ensures records == RowsBelow(events, Above(events.Keys))
  {
    records := [];
    var top := TopOf(events.Keys);
    for k := 0 to top
      invariant records == RowsBelow(events, k)
    {
      if k in events {
        records := records + [IntoJournaled(k, events[k])];
      }
    }
  }

  /** One more than the largest key. */
  method TopOf(keys: set<nat>) returns (top: nat)
    ensures top == Above(keys)
  {
    top := 0;
    var todo := keys;
    while todo != {}
      invariant todo <= keys
      invariant forall k :: k in keys && k !in todo ==> k < top
      invariant top > 0 ==> top - 1 in keys
      decreases |todo|
    {
      var k :| k in todo;
      todo := todo - {k};
      if k >= top { top := k + 1; }
    }
    assert keys == {} ==> top == 0;
    assert keys != {} ==> Above(keys) - 1 in keys;
  }

  /** `read_path_rows`, snapshot half: the highest anchor. */
  method ReadSnapshot(snapshots: map<nat, Json>) returns (latest: Option<Snapshot>)
    ensures latest == LatestRow(snapshots)
  {
    if snapshots == map[] {
      return None;
    }
    var top := TopOf(snapshots.Keys);
    return Some(Snapshot(top - 1, snapshots[top - 1]));
  }

  /** The append loop of `rebuild_journal`. */
  method Rebuild(records: seq<JournaledEvent>, latest: Option<Snapshot>) returns (j: JournalState)
    ensures j == RebuildJournal(records, latest)
  {
    j := EMPTY;
    for i := 0 to |records|
      invariant j == RebuildEvents(records[..i])
    {
      assert records[..i + 1][..i] == records[..i];
      j := j.AppendEvent(records[i].event, records[i].origin, records[i].ingestSeq);
    }
    assert records[..|records|] == records;
    if latest.Some? {
      j := j.AppendSnapshot(latest.value.seqNo, latest.value.state, 0);
    }
  }

  // ---- Ordering a scan ----

  ghost predicate ArrivalsDiffer(s: seq<ScannedEvent>) {
    forall i, k :: 0 <= i < k < |s| ==> s[i].ingestSeq != s[k].ingestSeq
  }

  ghost predicate InArrivalOrder(s: seq<ScannedEvent>) {
    forall i, k :: 0 <= i < k < |s| ==> s[i].ingestSeq < s[k].ingestSeq
  }

  function InsertByArrival(s: seq<ScannedEvent>, x: ScannedEvent): (r: seq<ScannedEvent>)
    requires InArrivalOrder(s) && forall y :: y in s ==> y.ingestSeq != x.ingestSeq
    ensures InArrivalOrder(r)
    ensures forall f :: f in r <==> f in s || f == x
  {
    if s == [] || s[|s| - 1].ingestSeq < x.ingestSeq then s + [x]
    else
      var last := s[|s| - 1];
      var rest := InsertByArrival(s[..|s| - 1], x);
      assert last.ingestSeq > x.ingestSeq by { assert last in s; }
      assert forall y :: y in rest ==> y.ingestSeq < last.ingestSeq;
      rest + [last]
  }

  /** `sort_by_key` on the arrival number. */
  function SortByArrival(s: seq<ScannedEvent>): (r: seq<ScannedEvent>)
    requires ArrivalsDiffer(s)
    ensures InArrivalOrder(r)
    ensures forall f :: f in r <==> f in s
  {
    if s == [] then []
    else InsertByArrival(SortByArrival(s[..|s| - 1]), s[|s| - 1])
  }

  ghost predicate DistinctKeys(s: seq<ScannedEvent>) {
    forall i, k :: 0 <= i < k < |s| ==> KeyOf(s[i]) != KeyOf(s[k])
  }

  /** The recorded rows of one path. */
  method ScanRowsOf(path: ActorPath, events: map<nat, EventRow>, schemas: set<SchemaId>)
    returns (found: seq<ScannedEvent>)
    ensures forall f :: f in found <==>
              exists k: nat :: k in events && events[k].kind == KIND_RECORDED &&
                Surfaces(IntoJournaled(k, events[k]), schemas) && f == ToScanned(path, IntoJournaled(k, events[k]))
    ensures DistinctKeys(found) && forall f :: f in found ==> f.journal == path
  {
    found := [];
    var todo := events.Keys;
    while todo != {}
      invariant todo <= events.Keys && DistinctKeys(found)
      invariant forall f :: f in found ==> f.journal == path && f.seqNo !in todo
      invariant forall f :: f in found <==>
                  exists k: nat :: k in events && k !in todo && events[k].kind == KIND_RECORDED &&
                    Surfaces(IntoJournaled(k, events[k]), schemas) && f == ToScanned(path, IntoJournaled(k, events[k]))
      decreases |todo|
    {
      var k :| k in todo;
      todo := todo - {k};
      if events[k].kind == KIND_RECORDED && Surfaces(IntoJournaled(k, events[k]), schemas) {
        found := found + [ToScanned(path, IntoJournaled(k, events[k]))];
      }
    }
  }

  function KeyOf(f: ScannedEvent): (ActorPath, nat) { (f.journal, f.seqNo) }

  /** `f` is a recorded fact of these records whose key was not seen. */
  ghost predicate Unseen(f: ScannedEvent, path: ActorPath, records: seq<JournaledEvent>,
                         schemas: set<SchemaId>, seen: set<(ActorPath, nat)>)
  {
    exists i :: 0 <= i < |records| && Surfaces(records[i], schemas) && f == ToScanned(path, records[i]) &&
                (path, records[i].seqNo) !in seen
  }

  /** The entry loop of `scan` over one buffer: facts whose key is new join, and become seen. */
  method UnseenOf(path: ActorPath, entries: seq<JournalEntry>, schemas: set<SchemaId>, seen: set<(ActorPath, nat)>)
    returns (more: seq<ScannedEvent>, seen': set<(ActorPath, nat)>)
    requires Dense(EventsOf(entries))
    ensures forall f :: f in more <==> Unseen(f, path, EventsOf(entries), schemas, seen)
    ensures DistinctKeys(more)
    ensures forall f :: f in more ==> f.journal == path
    ensures forall k :: k in seen' <==> k in seen || exists f :: f in more && k == KeyOf(f)
  {
    more, seen' := [], seen;
    for i := 0 to |entries|
      invariant forall f :: f in more <==> Unseen(f, path, EventsOf(entries[..i]), schemas, seen)
      invariant DistinctKeys(more) && forall f :: f in more ==> f.journal == path && KeyOf(f) in seen'
      invariant forall k :: k in seen' <==> k in seen || exists f :: f in more && k == KeyOf(f)
    {
      assert entries[..i + 1][..i] == entries[..i];
      ghost var records := EventsOf(entries[..i]);
      if entries[i].EventEntry? {
        var record := entries[i].record;
        PrefixNumbers(entries, i);
        var key := (path, record.seqNo);
        if Surfaces(record, schemas) && key !in seen' {
          seen' := seen' + {key};
          more := more + [ToScanned(path, record)];
        } else if Surfaces(record, schemas) {
          NotSeenTwice(path, records, schemas, seen, more, seen', record);
        }
        UnseenStep(path, records, record, schemas, seen);
      } else {
        assert EventsOf(entries[..i + 1]) == records;
      }
    }
    assert entries[..|entries|] == entries;
  }

  /** The event at entry i is numbered after every event before it. */
  lemma PrefixNumbers(entries: seq<JournalEntry>, i: nat)
    requires i < |entries| && entries[i].EventEntry? && Dense(EventsOf(entries))
    ensures EventsOf(entries[..i + 1]) == EventsOf(entries[..i]) + [entries[i].record]
    ensures forall k :: 0 <= k < |EventsOf(entries[..i])| ==>
              EventsOf(entries[..i])[k].seqNo < entries[i].record.seqNo
  {
    assert entries[..i + 1][..i] == entries[..i];
    SplitAt(entries, i + 1);
    var all, records := EventsOf(entries), EventsOf(entries[..i]);
    assert forall k :: 0 <= k < |records| ==> records[k] == all[k];
    assert all[|records|] == entries[i].record;
  }

  lemma UnseenStep(path: ActorPath, records: seq<JournaledEvent>, record: JournaledEvent,
                   schemas: set<SchemaId>, seen: set<(ActorPath, nat)>)
    ensures forall f :: Unseen(f, path, records + [record], schemas, seen) <==>
              Unseen(f, path, records, schemas, seen) ||
              (Surfaces(record, schemas) && f == ToScanned(path, record) && (path, record.seqNo) !in seen)
  {
    var all := records + [record];
    forall f ensures Unseen(f, path, all, schemas, seen) <==>
              Unseen(f, path, records, schemas, seen) ||
              (Surfaces(record, schemas) && f == ToScanned(path, record) && (path, record.seqNo) !in seen)
    {
      if Unseen(f, path, records, schemas, seen) {
        var i :| 0 <= i < |records| && Surfaces(records[i], schemas) && f == ToScanned(path, records[i]) &&
                 (path, records[i].seqNo) !in seen;
        assert all[i] == records[i];
      }
      assert all[|records|] == record;
    }
  }

  /** In a dense buffer a key that is already seen was seen before the buffer. */
  lemma NotSeenTwice(path: ActorPath, records: seq<JournaledEvent>, schemas: set<SchemaId>, seen: set<(ActorPath, nat)>,
                     more: seq<ScannedEvent>, seen': set<(ActorPath, nat)>, record: JournaledEvent)
    requires forall i :: 0 <= i < |records| ==> records[i].seqNo < record.seqNo
    requires forall f :: f in more ==> Unseen(f, path, records, schemas, seen)
    requires forall k :: k in seen' <==> k in seen || exists f :: f in more && k == KeyOf(f)
    requires (path, record.seqNo) in seen'
    ensures (path, record.seqNo) in seen
  {
  }

  /** A catch-up list, fact by fact. */
  function CatchUpEach(s: StoreState, path: ActorPath, facts: seq<ScannedEvent>): (StoreState, seq<Option<nat>>)
    decreases |facts|
  {
    if facts == [] then (s, [])
    else
      var n := |facts| - 1;
      var (before, slots) := CatchUpEach(s, path, facts[..n]);
      var (after, slot) := before.CatchUp(path, facts[n]);
      (after, slots + [slot])
  }

  // ---- Collecting ----

  ghost predicate HoldsPath(pending: seq<PendingFlush>, p: ActorPath) {
    exists i :: 0 <= i < |pending| && pending[i].path == p
  }

  /** The batches of every wanted path but those still to do. */
  ghost predicate Gathered(s: StoreState, target: Option<ActorPath>, pending: seq<PendingFlush>, todo: set<ActorPath>) {
    && DistinctPaths(pending)
    && (forall i :: 0 <= i < |pending| ==>
          && pending[i].path !in todo && s.HasPending(pending[i].path)
          && pending[i] == s.PendingFor(pending[i].path)
          && (target == None || target == Some(pending[i].path)))
    && (forall p :: s.HasPending(p) && p !in todo && (target == None || target == Some(p)) ==> HoldsPath(pending, p))
  }

  lemma GatherOne(s: StoreState, target: Option<ActorPath>, pending: seq<PendingFlush>, todo: set<ActorPath>,
                  p: ActorPath, batch: PendingFlush)
    requires Gathered(s, target, pending, todo) && p in todo && (target == None || target == Some(p))
    requires s.HasPending(p) && batch == s.PendingFor(p)
    ensures Gathered(s, target, pending + [batch], todo - {p})
  {
    var all := pending + [batch];
    assert all[|pending|].path == p;
    forall q | HoldsPath(pending, q) ensures HoldsPath(all, q) {
      var i :| 0 <= i < |pending| && pending[i].path == q;
      assert all[i].path == q;
    }
  }

  /** A passivation's capture is its path's one batch. */
  lemma OnlyBatch(s: StoreState, path: ActorPath, pending: seq<PendingFlush>)
    requires s.IsCollected(Some(path), pending) && pending != []
    ensures s.HasPending(path) && pending == [s.PendingFor(path)]
  {
    assert forall i :: 0 <= i < |pending| ==> pending[i].path == path && pending[i] == s.PendingFor(path);
    assert pending[0].path == pending[|pending| - 1].path;
    assert pending == [pending[0]];
  }

  /** Committing one batch captured to its buffer's end. */
  lemma CommitOnlyBatch(s: StoreState, batch: PendingFlush, drop: bool)
    requires batch.path in s.buffers && s.buffers[batch.path].dropWhenDurable && batch.dropWhenDurable == drop
    requires batch.capturedEnd == |s.buffers[batch.path].journal.entries|
    ensures var b := s.buffers[batch.path];
            s.Commit(CompletionsOf([batch])).buffers ==
            if drop then s.buffers - {batch.path} else s.buffers[batch.path := b.(flushed := batch.capturedEnd)]
  {
    var done := CompletionsOf([batch]);
    assert done[..0] == [] && s.Commit([]) == s;
    assert s.Commit(done) == s.CommitOne(CompletionOf(batch));
  }

  /** What a flush that wrote everything makes of one buffer. */
  function FlushedBuffer(b: PathBuffer): Option<PathBuffer> {
    if b.flushed >= |b.journal.entries| then Some(b)
    else if b.dropWhenDurable then None
    else Some(b.(flushed := |b.journal.entries|))
  }

  lemma FlushedBuffers(s: StoreState, db: Database, pending: seq<PendingFlush>, p: ActorPath)
    requires s.IsCollected(None, pending)
    ensures I.BufferAt(s.(db := db).Commit(CompletionsOf(pending)), p) ==
            if p in s.buffers then FlushedBuffer(s.buffers[p]) else None
  {
    var s', done := s.(db := db), CompletionsOf(pending);
    I.CommitByPath(s', done);
    if s.HasPending(p) {
      var i :| 0 <= i < |pending| && pending[i].path == p;
      assert pending[i] == s.PendingFor(p) && done[i] == CompletionOf(pending[i]);
    } else {
      forall i | 0 <= i < |done| ensures done[i].path != p { assert s.HasPending(pending[i].path); }
    }
  }

  // ---- The store ----

  datatype PurgeFate = PurgeDone | PurgeHalf | PurgeRefused

  class DaowJournalStore {
    var buffers: map<ActorPath, PathBuffer>
    var nextIngest: nat
    var db: Database

    function Value(): StoreState
      reads this
    {
      StoreState(buffers, nextIngest, db)
    }

    /** Frontiers never pass the end of their journal. */
    ghost predicate FrontiersInside()
      reads this
    {
      forall p :: p in buffers ==> buffers[p].flushed <= |buffers[p].journal.entries|
    }

    /** `build` over existing tables: the counter starts above every stored arrival number. */
    constructor Open(stored: Database)
      ensures Value() == Reopen(stored)
    {
      buffers, db := map[], stored;
      new;
      var arrivals := {};
      var paths := stored.Keys;
      while paths != {}
        invariant paths <= stored.Keys && buffers == map[] && db == stored
        invariant arrivals == set p, k | p in stored && p !in paths && k in stored[p].events ::
                                stored[p].events[k].ingestSeq
        decreases |paths|
      {
        var p :| p in paths;
        paths := paths - {p};
        var rows := stored[p].events;
        arrivals := arrivals + set k | k in rows :: rows[k].ingestSeq;
      }
      assert arrivals == StoredArrivals(stored);
      var top := TopOf(arrivals);
      nextIngest := if arrivals == {} then 1 else top;
    }

    method BufferAppend(path: ActorPath, events: seq<Event>) returns (r: Option<seq<nat>>)
      modifies this`buffers, this`nextIngest
      ensures Value() == old(Value()).Append(path, events)
      ensures r.None? <==> old(Value()).Activating(path)
      ensures r.Some? ==>
                && |r.value| == |events|
                && forall i :: 0 <= i < |events| ==>
                     r.value[i] == old(Value()).Buffer(path).journal.eventCount + i
    {
      if Value().Activating(path) {
        return None;
      }
      ghost var before := Value();
      var buffer := Value().Buffer(path);
      var j, seqs := buffer.journal, [];
      for i := 0 to |events|
        invariant buffers == before.buffers && nextIngest == before.nextIngest + i
        invariant j == buffer.journal.AppendAll(events[..i], before.nextIngest)
        invariant j.eventCount == buffer.journal.eventCount + i
        invariant |seqs| == i && forall k :: 0 <= k < i ==> seqs[k] == buffer.journal.eventCount + k
      {
        assert events[..i + 1][..i] == events[..i];
        seqs := seqs + [j.eventCount];
        j := j.AppendEvent(events[i], Recorded, nextIngest);
        nextIngest := nextIngest + 1;
      }
      assert events[..|events|] == events;
      buffers := buffers[path := buffer.(journal := j)];
      return Some(seqs);
    }

    method BufferAppendSnapshot(path: ActorPath, seqNo: nat, state: Json, nowMs: nat) returns (ok: bool)
      modifies this`buffers
      ensures Value() == old(Value()).AppendSnapshot(path, seqNo, state, nowMs)
      ensures ok <==> !old(Value()).Activating(path)
      ensures ok ==> path in buffers && buffers[path].journal.lastSnapshotMs == Some(nowMs)
    {
      ok := !Value().Activating(path);
      if ok {
        var buffer := Value().Buffer(path);
        buffers := buffers[path := buffer.(journal := buffer.journal.AppendSnapshot(seqNo, state, nowMs))];
      }
    }

    /** One fact: buffer test, table test, append. A failed table test appends nothing. */
    method CatchUpOne(path: ActorPath, fact: ScannedEvent, readable: bool) returns (r: Result<Option<nat>, ()>)
      modifies this`buffers, this`nextIngest
      ensures r.Err? <==> old(Value()).Activating(path) || (!readable && !old(Value()).BufferHolds(path, fact))
      ensures r.Err? ==> Value() == old(Value()).Touch(path)
      ensures r.Ok? ==> (Value(), r.value) == old(Value()).CatchUp(path, fact)
    {
      if Value().Activating(path) {
        return Err(());
      }
      var buffer := Value().Buffer(path);
      var known := HoldsOrigin(buffer.journal.Events(), fact.journal, fact.seqNo);
      if !known && readable {
        known := DbHoldsOrigin(RowsOf(db, path), fact.journal, fact.seqNo);
      } else if !known {
        buffers := buffers[path := buffer];
        return Err(());
      }
      if known {
        buffers := buffers[path := buffer];
        return Ok(None);
      }
      var origin := EventOrigin.CatchUp(fact.journal, fact.seqNo);
      buffers := buffers[path := buffer.(journal := buffer.journal.AppendEvent(fact.event, origin, nextIngest))];
      nextIngest := nextIngest + 1;
      return Ok(Some(buffer.journal.eventCount));
    }

    /**
     The loop of `append_catchup`, nothing interleaving. `readable(i)` says whether the table check
     of fact `i` succeeds; a failure leaves the facts before it appended.
     */
    method AppendCatchup(path: ActorPath, facts: seq<ScannedEvent>, readable: nat -> bool)
      returns (r: Result<seq<Option<nat>>, ()>, done: nat)
      modifies this`buffers, this`nextIngest
      ensures done <= |facts| && (r.Ok? <==> done == |facts|)
      ensures r.Ok? ==> (Value(), r.value) == CatchUpEach(old(Value()), path, facts)
      ensures var before := CatchUpEach(old(Value()), path, facts[..done]).0;
              r.Err? ==>
                && (before.Activating(path) || (!before.BufferHolds(path, facts[done]) && !readable(done)))
                && Value() == before.Touch(path)
    {
      ghost var before := Value();
      var slots: seq<Option<nat>> := [];
      for i := 0 to |facts|
        invariant (Value(), slots) == CatchUpEach(before, path, facts[..i])
      {
        assert facts[..i + 1][..i] == facts[..i];
        var slot := CatchUpOne(path, facts[i], readable(i));
        if slot.Err? {
          return Err(()), i;
        }
        slots := slots + [slot.value];
      }
      assert facts[..|facts|] == facts;
      return Ok(slots), |facts|;
    }

    method CollectPending(target: Option<ActorPath>) returns (pending: seq<PendingFlush>)
      requires FrontiersInside()
      ensures Value().IsCollected(target, pending)
    {
      pending := [];
      var todo := buffers.Keys;
      while todo != {}
        invariant todo <= buffers.Keys && Gathered(Value(), target, pending, todo)
        decreases |todo|
      {
        var p :| p in todo;
        if (target == None || target == Some(p)) && buffers[p].flushed != |buffers[p].journal.entries| {
          var batch := CaptureSuffix(p, buffers[p]);
          GatherOne(Value(), target, pending, todo, p, batch);
          pending := pending + [batch];
        }
        todo := todo - {p};
      }
    }

    /** The transaction, with the fate SQLite gives it. */
    method WriteTransaction(pending: seq<PendingFlush>, fate: Outcome) returns (ok: bool)
      modifies this`db
      ensures ok <==> WriteAll(old(db), pending).Some? && fate == Applied
      ensures db == if WriteAll(old(db), pending).Some? && fate != NotApplied
                    then WriteAll(old(db), pending).value else old(db)
    {
      var working := db;
      for i := 0 to |pending|
        invariant db == old(db) && WriteAll(old(db), pending[..i]) == Some(working)
      {
        assert pending[..i + 1][..i] == pending[..i];
        var rows := RowsOf(working, pending[i].path);
        var events := InsertRows(rows.events, pending[i].events);
        if events.None? {
          RollbackStays(old(db), pending, i + 1);
          return false;
        }
        var snapshots := rows.snapshots;
        if pending[i].snapshot.Some? {
          snapshots := snapshots[pending[i].snapshot.value.seqNo := pending[i].snapshot.value.state];
        }
        working := working[pending[i].path := PathRows(events.value, snapshots)];
      }
      assert pending[..|pending|] == pending;
      if fate != NotApplied {
        db := working;
      }
      return fate == Applied;
    }

    method CommitFlush(done: seq<FlushCompletion>)
      modifies this`buffers
      ensures Value() == old(Value()).Commit(done)
    {
      for i := 0 to |done|
        invariant Value() == old(Value()).Commit(done[..i])
      {
        assert done[..i + 1][..i] == done[..i];
        var completion := done[i];
        if completion.path in buffers {
          var buffer := buffers[completion.path].(flushed := completion.capturedEnd);
          buffers := buffers[completion.path := buffer];
          if buffer.dropWhenDurable && completion.dropWhenDurable {
            if |buffer.journal.entries| == completion.capturedEnd {
              buffers := buffers - {completion.path};
            } else {
              buffers := buffers[completion.path := buffer.(dropWhenDurable := false)];
            }
          }
        }
      }
      assert done[..|done|] == done;
    }

    /** `flush`, and the writer's tick: a failed transaction leaves every buffer as it was. */
    method Flush(fate: Outcome) returns (ok: bool, ghost pending: seq<PendingFlush>)
      requires FrontiersInside()
      modifies this
      ensures old(Value()).IsCollected(None, pending) && nextIngest == old(nextIngest)
      ensures !ok ==> buffers == old(buffers)
      ensures ok ==> WriteAll(old(db), pending).Some? &&
                     Value() == old(Value()).(db := WriteAll(old(db), pending).value).Commit(CompletionsOf(pending))
      ensures ok ==> forall p :: I.BufferAt(Value(), p) ==
                                 if p in old(buffers) then FlushedBuffer(old(buffers)[p]) else None
    {
      var collected := CollectPending(None);
      pending := collected;
      ok := true;
      if collected != [] {
        ok := WriteTransaction(collected, fate);
        if ok {
          CommitFlush(CompletionsOf(collected));
        }
      }
      forall p | ok
        ensures I.BufferAt(Value(), p) == if p in old(buffers) then FlushedBuffer(old(buffers)[p]) else None
      {
        FlushedBuffers(old(Value()), db, collected, p);
      }
    }

    /** `passivated`: release at once when nothing is pending, else mark, write and commit. */
    method Passivated(path: ActorPath, fate: Outcome) returns (ok: bool, ghost pending: seq<PendingFlush>)
      requires FrontiersInside()
      modifies this
      ensures old(Value()).IsCollected(Some(path), pending) && nextIngest == old(nextIngest)
      ensures pending == [] ==> ok && Value() == old(Value()).Remove(path)
      ensures pending != [] ==> path in old(buffers)
      ensures pending != [] && !ok ==>
                buffers == old(buffers)[path := old(buffers)[path].(dropWhenDurable := true)]
      ensures pending != [] && ok ==>
                var b := old(buffers)[path];
                buffers == if b.dropWhenDurable then old(buffers) - {path}
                           else old(buffers)[path := b.(flushed := |b.journal.entries|, dropWhenDurable := true)]
      ensures pending != [] && !ok ==> buffers == old(Value()).MarkDrop(path).buffers
      ensures pending != [] && ok ==>
                WriteAll(old(db), pending).Some? &&
                Value() == old(Value()).MarkDrop(path).(db := WriteAll(old(db), pending).value)
                           .Commit(CompletionsOf(pending))
    {
      var collected := CollectPending(Some(path));
      pending := collected;
      if collected == [] {
        buffers := buffers - {path};
        return true, pending;
      }
      if path in buffers {
        buffers := buffers[path := buffers[path].(dropWhenDurable := true)];
      }
      ok := WriteTransaction(collected, fate);
      OnlyBatch(old(Value()), path, collected);
      ghost var written := Value();
      if ok {
        CommitFlush(CompletionsOf(collected));
        CommitOnlyBatch(written, collected[0], old(buffers)[path].dropWhenDurable);
      }
    }

    /** `load`: the buffer answers, or the tables are read into a fresh one. */
    method Load(path: ActorPath, readable: bool) returns (r: Result<Option<Replay>, ()>)
      modifies this`buffers
      ensures old(Value()).Warm(path) ==>
                Value() == old(Value()).ClearDrop(path) && r == Ok(old(Value()).Replayed(path))
      ensures !old(Value()).Warm(path) && !readable ==>
                Value() == old(Value()).SeedBegin(path) && r.Err?
      ensures !old(Value()).Warm(path) && readable ==>
                var rows := RowsOf(db, path);
                && Value() == old(Value()).SeedBegin(path)
                              .SeedInstall(path, StoredEvents(rows), LatestRow(rows.snapshots))
                && r == Ok(Value().Replayed(path))
    {
      if path in buffers && !buffers[path].activating {
        buffers := buffers[path := buffers[path].(dropWhenDurable := false)];
        return Ok(BuildReplay(buffers[path].journal.entries));
      }
      if path !in buffers {
        buffers := buffers[path := ACTIVATING];
      }
      if !readable {
        return Err(());
      }
      var rows := RowsOf(db, path);
      var records := ReadEvents(rows.events);
      var latest := ReadSnapshot(rows.snapshots);
      if records == [] && latest.None? {
        buffers := buffers - {path};
        return Ok(None);
      }
      var j := Rebuild(records, latest);
      buffers := buffers[path := DurableBuffer(j)];
      return Ok(BuildReplay(j.entries));
    }

    method Purge(path: ActorPath, fate: PurgeFate) returns (ok: bool)
      modifies this`buffers, this`db
      ensures ok <==> fate == PurgeDone
      ensures Value() == match fate
                         case PurgeDone => old(Value()).DeleteRows(path).Remove(path)
                         case PurgeHalf => old(Value()).DeleteEvents(path)
                         case PurgeRefused => old(Value())
    {
      if fate == PurgeRefused {
        return false;
      }
      if fate == PurgeHalf {
        db := db[path := RowsOf(db, path).(events := map[])];
        return false;
      }
      db := db - {path};
      buffers := buffers - {path};
      return true;
    }

    /** The query of `scan`: recorded rows of the asked schemas. */
    method ScanTables(schemas: set<SchemaId>) returns (found: seq<ScannedEvent>)
      ensures forall f :: f in found <==> f in Value().DbFacts(schemas)
      ensures DistinctKeys(found)
    {
      found := [];
      var paths := db.Keys;
      while paths != {}
        invariant paths <= db.Keys && DistinctKeys(found)
        invariant forall f :: f in found ==> f.journal !in paths
        invariant forall f :: f in found <==> f in Value().DbFacts(schemas) && f.journal !in paths
        decreases |paths|
      {
        var p :| p in paths;
        var some := ScanRowsOf(p, db[p].events, schemas);
        ghost var before := found;
        found := found + some;
        paths := paths - {p};
        forall f ensures f in found <==> f in Value().DbFacts(schemas) && f.journal !in paths {
          if f in some {
            var k: nat :| k in db[p].events && db[p].events[k].kind == KIND_RECORDED &&
                          Surfaces(IntoJournaled(k, db[p].events[k]), schemas) &&
                          f == ToScanned(p, IntoJournaled(k, db[p].events[k]));
          }
        }
      }
    }

    /** `scan`: the tables' facts, the buffers' unseen ones, by arrival. */
    method Scan(schemas: set<SchemaId>) returns (answer: seq<ScannedEvent>)
      requires forall p :: p in buffers ==> Dense(buffers[p].journal.Events())
      requires ArrivalsIdentify(Value().ScanUnion(schemas, Value().DbFacts(schemas)))
      ensures IsScan(answer, Value().ScanUnion(schemas, Value().DbFacts(schemas)))
      ensures forall f :: f in answer <==> Surfaced(Value(), schemas, f)
    {
      var found := ScanTables(schemas);
      ghost var stored := Value().DbFacts(schemas);
      ghost var union := Value().ScanUnion(schemas, stored);
      var seen := set f | f in found :: KeyOf(f);
      var paths := buffers.Keys;
      assert forall p, n: nat :: (p, n) in seen <==> Seen(stored, p, n) by { KeysAreSeen(found, stored, seen); }
      while paths != {}
        invariant paths <= buffers.Keys && DistinctKeys(found)
        invariant forall f :: f in found ==> KeyOf(f) in seen
        invariant forall p, n: nat :: p in paths ==> ((p, n) in seen <==> Seen(stored, p, n))
        invariant forall f :: f in found <==> f in stored || (f in union && f.journal !in paths)
        decreases |paths|
      {
        var p :| p in paths;
        paths := paths - {p};
        ghost var before := found;
        var more, seen' := UnseenOf(p, buffers[p].journal.entries, schemas, seen);
        UnionOf(Value(), schemas, p, seen);
        JoinKeepsKeys(found, more, seen, seen');
        found, seen := found + more, seen';
      }
      FoundIsUnion(Value(), schemas, found);
      answer := SortByArrival(found);
      forall f ensures f in answer <==> Surfaced(Value(), schemas, f) { UnionMeans(Value(), schemas, f); }
    }
  }

  lemma KeysAreSeen(found: seq<ScannedEvent>, stored: set<ScannedEvent>, seen: set<(ActorPath, nat)>)
    requires forall f :: f in found <==> f in stored
    requires seen == set f | f in found :: KeyOf(f)
    ensures forall p, n: nat :: (p, n) in seen <==> Seen(stored, p, n)
  {
    forall p, n: nat ensures (p, n) in seen <==> Seen(stored, p, n) {
      if Seen(stored, p, n) {
        var f :| f in stored && f.journal == p && f.seqNo == n;
        assert KeyOf(f) == (p, n);
      }
    }
  }

  /** The facts one buffer adds to the union. */
  lemma UnionOf(s: StoreState, schemas: set<SchemaId>, p: ActorPath, seen: set<(ActorPath, nat)>)
    requires p in s.buffers
    requires forall n: nat :: (p, n) in seen <==> Seen(s.DbFacts(schemas), p, n)
    ensures forall f: ScannedEvent :: f.journal == p && f !in s.DbFacts(schemas) ==>
              (f in s.ScanUnion(schemas, s.DbFacts(schemas)) <==>
               Unseen(f, p, s.buffers[p].journal.Events(), schemas, seen))
    ensures forall f :: Unseen(f, p, s.buffers[p].journal.Events(), schemas, seen) ==>
              f.journal == p && f in s.ScanUnion(schemas, s.DbFacts(schemas))
  {
  }

  lemma JoinKeepsKeys(found: seq<ScannedEvent>, more: seq<ScannedEvent>,
                      seen: set<(ActorPath, nat)>, seen': set<(ActorPath, nat)>)
    requires DistinctKeys(found) && DistinctKeys(more)
    requires forall f :: f in found ==> KeyOf(f) in seen
    requires forall f :: f in more ==> KeyOf(f) !in seen
    requires forall k :: k in seen' <==> k in seen || exists f :: f in more && k == KeyOf(f)
    ensures DistinctKeys(found + more)
    ensures forall f :: f in found + more ==> KeyOf(f) in seen'
  {
    var all := found + more;
    forall i, k | 0 <= i < k < |all| ensures KeyOf(all[i]) != KeyOf(all[k]) {
      if i < |found| <= k {
        assert all[i] in found && all[k] in more;
      }
    }
  }

  lemma FoundIsUnion(s: StoreState, schemas: set<SchemaId>, found: seq<ScannedEvent>)
    requires DistinctKeys(found)
    requires ArrivalsIdentify(s.ScanUnion(schemas, s.DbFacts(schemas)))
    requires forall f :: f in found <==> f in s.DbFacts(schemas) || f in s.ScanUnion(schemas, s.DbFacts(schemas))
    ensures ArrivalsDiffer(found)
    ensures forall f :: f in found <==> f in s.ScanUnion(schemas, s.DbFacts(schemas))
  {
    forall i, k | 0 <= i < k < |found| ensures found[i].ingestSeq != found[k].ingestSeq {
      assert found[i] in found && found[k] in found;
    }
  }
}
