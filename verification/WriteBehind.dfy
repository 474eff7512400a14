/**
 The write-behind store as a value and its atomic sections (src/journal_daow.rs).

 Each function is one critical section: what happens under the journals lock, or one SQLite
 transaction. `Protocol` interleaves them; the class in `WriteBehindStore` performs them in place.
 */
module WriteBehind {
  import opened Wrappers
  import opened Journals
  import opened MemoryStore
  import opened Rows

  datatype PathBuffer = PathBuffer(
    journal: JournalState, flushed: nat, dropWhenDurable: bool, activating: bool)

  const NEW_BUFFER := PathBuffer(EMPTY, 0, false, false)
  const ACTIVATING := PathBuffer(EMPTY, 0, false, true)

  function DurableBuffer(j: JournalState): PathBuffer {
    PathBuffer(j, |j.entries|, false, false)
  }

  /** What a flush does after its commit; the rows themselves went to SQLite. */
  datatype FlushCompletion = FlushCompletion(path: ActorPath, capturedEnd: nat, dropWhenDurable: bool)

  function CompletionOf(batch: PendingFlush): FlushCompletion {
    FlushCompletion(batch.path, batch.capturedEnd, batch.dropWhenDurable)
  }

  function CompletionsOf(pending: seq<PendingFlush>): (r: seq<FlushCompletion>)
    ensures |r| == |pending|
    ensures forall i :: 0 <= i < |r| ==> r[i] == CompletionOf(pending[i])
  {
    seq(|pending|, i requires 0 <= i < |pending| => CompletionOf(pending[i]))
  }

  predicate DbHoldsOrigin(rows: PathRows, source: ActorPath, sourceSeq: nat) {
    exists k :: k in rows.events && rows.events[k].kind == KIND_CATCHUP &&
      rows.events[k].catchupSource == Some(source) && rows.events[k].catchupSeq == Some(sourceSeq)
  }

  datatype StoreState = StoreState(buffers: map<ActorPath, PathBuffer>, nextIngest: nat, db: Database) {
    predicate Activating(path: ActorPath) {
      path in buffers && buffers[path].activating
    }

    /** A buffer that answers for its path. */
    predicate Warm(path: ActorPath) {
      path in buffers && !buffers[path].activating
    }

    /** `mutable_buffer` on a path that is not activating: the buffer, or a fresh one. */
    function Buffer(path: ActorPath): PathBuffer {
      if path in buffers then buffers[path] else NEW_BUFFER
    }

    function WithJournal(path: ActorPath, j: JournalState, next: nat): StoreState {
      StoreState(buffers[path := Buffer(path).(journal := j)], next, db)
    }

    // ---- Acknowledged writes: the journals lock only ----

    function Append(path: ActorPath, events: seq<Event>): StoreState {
      if Activating(path) then this
      else WithJournal(path, Buffer(path).journal.AppendAll(events, nextIngest), nextIngest + |events|)
    }

    function AppendSnapshot(path: ActorPath, seqNo: nat, state: Json, nowMs: nat): StoreState {
      if Activating(path) then this
      else WithJournal(path, Buffer(path).journal.AppendSnapshot(seqNo, state, nowMs), nextIngest)
    }

    /** Opens the buffer a write needs and writes nothing. */
    function Touch(path: ActorPath): StoreState {
      if Activating(path) then this else WithJournal(path, Buffer(path).journal, nextIngest)
    }

    predicate BufferHolds(path: ActorPath, fact: ScannedEvent) {
      HoldsOrigin(Buffer(path).journal.Events(), fact.journal, fact.seqNo)
    }

    predicate TableHolds(path: ActorPath, fact: ScannedEvent) {
      DbHoldsOrigin(RowsOf(db, path), fact.journal, fact.seqNo)
    }

    /** The append of a fact found new; it is not checked again. */
    function Checkpoint(path: ActorPath, fact: ScannedEvent): StoreState {
      if Activating(path) then this
      else
        var origin := EventOrigin.CatchUp(fact.journal, fact.seqNo);
        WithJournal(path, Buffer(path).journal.AppendEvent(fact.event, origin, nextIngest), nextIngest + 1)
    }

    /** One fact of a catch-up list: the buffer's checkpoint, then the table's, then the append. */
    function CatchUp(path: ActorPath, fact: ScannedEvent): (StoreState, Option<nat>) {
      if Activating(path) then (this, None)
      else if BufferHolds(path, fact) || TableHolds(path, fact) then (Touch(path), None)
      else (Checkpoint(path, fact), Some(Buffer(path).journal.eventCount))
    }

    // ---- Flush ----

    predicate HasPending(path: ActorPath) {
      path in buffers && buffers[path].flushed < |buffers[path].journal.entries|
    }

    function PendingFor(path: ActorPath): PendingFlush
      requires HasPending(path)
    {
      var b := buffers[path];
      Capture(path, b.journal.entries, b.flushed, b.dropWhenDurable)
    }

    /** `pending` is what `collect_pending` may return: every unflushed suffix, in any order. */
    ghost predicate IsCollected(target: Option<ActorPath>, pending: seq<PendingFlush>) {
      && DistinctPaths(pending)
      && (forall i :: 0 <= i < |pending| ==>
            && HasPending(pending[i].path)
            && pending[i] == PendingFor(pending[i].path)
            && (target == None || target == Some(pending[i].path)))
      && (forall p :: HasPending(p) && (target == None || target == Some(p)) ==>
            exists i :: 0 <= i < |pending| && pending[i].path == p)
    }

    function CommitOne(done: FlushCompletion): StoreState {
      if done.path !in buffers then this
      else
        match CommitBuffer(buffers[done.path], done)
        case None => Remove(done.path)
        case Some(b) => this.(buffers := buffers[done.path := b])
    }

    function Commit(done: seq<FlushCompletion>): StoreState
      decreases |done|
    {
      if done == [] then this
      else
        var n := |done| - 1;
        Commit(done[..n]).CommitOne(done[n])
    }

    // ---- Passivation, activation, purge ----

    function Remove(path: ActorPath): StoreState { this.(buffers := buffers - {path}) }

    function MarkDrop(path: ActorPath): StoreState {
      if path in buffers
      then this.(buffers := buffers[path := buffers[path].(dropWhenDurable := true)])
      else this
    }

    function ClearDrop(path: ActorPath): StoreState
      requires path in buffers
    {
      this.(buffers := buffers[path := buffers[path].(dropWhenDurable := false)])
    }

    /** The placeholder goes in; one left by a failed seed stays. */
    function SeedBegin(path: ActorPath): StoreState {
      if path in buffers then this else this.(buffers := buffers[path := ACTIVATING])
    }

    function SeedInstall(path: ActorPath, records: seq<JournaledEvent>, latest: Option<Snapshot>): StoreState {
      if records == [] && latest == None then Remove(path)
      else if Activating(path)
      then this.(buffers := buffers[path := DurableBuffer(RebuildJournal(records, latest))])
      else this
    }

    function DeleteRows(path: ActorPath): StoreState { this.(db := db - {path}) }

    /** The first of a purge's two deletes. */
    function DeleteEvents(path: ActorPath): StoreState {
      this.(db := db[path := RowsOf(db, path).(events := map[])])
    }

    // ---- Answers ----

    /** `build_replay` of the buffer, or no journal. */
    function Replayed(path: ActorPath): Option<Replay> {
      if path in buffers then BuildReplay(buffers[path].journal.entries) else None
    }

    /** The scan's SQLite half: recorded rows of the asked schemas. */
    ghost function DbFacts(schemas: set<SchemaId>): set<ScannedEvent> {
      set p, k | p in db && k in db[p].events && db[p].events[k].kind == KIND_RECORDED &&
                 Surfaces(IntoJournaled(k, db[p].events[k]), schemas) ::
        ToScanned(p, IntoJournaled(k, db[p].events[k]))
    }

    /** The scan's union: buffered facts join unless their (journal, seq) was seen in SQLite. */
    ghost function ScanUnion(schemas: set<SchemaId>, found: set<ScannedEvent>): set<ScannedEvent> {
      found +
      set p, i | p in buffers && 0 <= i < |buffers[p].journal.Events()| &&
                 Surfaces(buffers[p].journal.Events()[i], schemas) &&
                 !Seen(found, p, buffers[p].journal.Events()[i].seqNo) ::
        ToScanned(p, buffers[p].journal.Events()[i])
    }
  }

  /** The frontier moves to the captured end; a marked buffer with nothing newer goes. */
  function CommitBuffer(b: PathBuffer, done: FlushCompletion): Option<PathBuffer> {
    var moved := b.(flushed := done.capturedEnd);
    if moved.dropWhenDurable && done.dropWhenDurable then
      if |moved.journal.entries| == done.capturedEnd then None
      else Some(moved.(dropWhenDurable := false))
    else Some(moved)
  }

  ghost predicate Seen(found: set<ScannedEvent>, path: ActorPath, seqNo: nat) {
    exists f :: f in found && f.journal == path && f.seqNo == seqNo
  }

  function BuildReplay(entries: seq<JournalEntry>): Option<Replay> {
    var events, snapshot := EventsOf(entries), LastSnapshot(entries);
    if events == [] && snapshot == None then None
    else Some(ReplayOf(events, snapshot))
  }

  /** `Shared::build`: no buffers, and a counter above every stored arrival number. */
  ghost function StoredArrivals(db: Database): set<nat> {
    set p, k | p in db && k in db[p].events :: db[p].events[k].ingestSeq
  }

  ghost function Reopen(db: Database): StoreState {
    StoreState(map[], if StoredArrivals(db) == {} then 1 else Above(StoredArrivals(db)), db)
  }

  // ---- What a scan's union holds ----

  /** A stored row of kind and origin recorded says what `f` says. */
  ghost predicate InTable(db: Database, f: ScannedEvent) {
    && f.journal in db && f.seqNo in db[f.journal].events
    && var row := db[f.journal].events[f.seqNo];
       && row.kind == KIND_RECORDED && row.origin == Recorded && row.ingestSeq == f.ingestSeq
       && row.schema == f.event.schema && row.payload == f.event.payload
  }

  /** A buffered event recorded by its own actor says what `f` says. */
  ghost predicate InBuffer(buffers: map<ActorPath, PathBuffer>, f: ScannedEvent) {
    && f.journal in buffers
    && exists i :: 0 <= i < |buffers[f.journal].journal.Events()| &&
         buffers[f.journal].journal.Events()[i] == JournaledEvent(f.seqNo, f.event, Recorded, f.ingestSeq)
  }

  /** A fact of an asked schema from the tables, or from a buffer if no such row has its number. */
  ghost predicate Surfaced(s: StoreState, schemas: set<SchemaId>, f: ScannedEvent) {
    && f.event.schema in schemas
    && (InTable(s.db, f) ||
        (InBuffer(s.buffers, f) &&
         !exists g :: InTable(s.db, g) && g.event.schema in schemas && g.journal == f.journal && g.seqNo == f.seqNo))
  }

  lemma DbFactsMean(s: StoreState, schemas: set<SchemaId>, f: ScannedEvent)
    ensures f in s.DbFacts(schemas) <==> f.event.schema in schemas && InTable(s.db, f)
  {
    if f.event.schema in schemas && InTable(s.db, f) {
      assert f == ToScanned(f.journal, IntoJournaled(f.seqNo, s.db[f.journal].events[f.seqNo]));
    }
  }

  lemma UnionMeans(s: StoreState, schemas: set<SchemaId>, f: ScannedEvent)
    ensures f in s.ScanUnion(schemas, s.DbFacts(schemas)) <==> Surfaced(s, schemas, f)
  {
    DbFactsMean(s, schemas, f);
    forall g: ScannedEvent | g.journal == f.journal && g.seqNo == f.seqNo
      ensures g in s.DbFacts(schemas) <==> g.event.schema in schemas && InTable(s.db, g)
    {
      DbFactsMean(s, schemas, g);
    }
    if InBuffer(s.buffers, f) && f.event.schema in schemas {
      var i :| 0 <= i < |s.buffers[f.journal].journal.Events()| &&
               s.buffers[f.journal].journal.Events()[i] == JournaledEvent(f.seqNo, f.event, Recorded, f.ingestSeq);
      assert f == ToScanned(f.journal, s.buffers[f.journal].journal.Events()[i]);
    }
  }

  // ---- What a catch-up fact does to the store ----

  /** Neither the buffer nor the table of the path holds the origin. */
  ghost predicate IsNews(s: StoreState, path: ActorPath, source: ActorPath, sourceSeq: nat) {
    && (forall i :: 0 <= i < |s.Buffer(path).journal.Events()| ==>
          s.Buffer(path).journal.Events()[i].origin != EventOrigin.CatchUp(source, sourceSeq))
    && (forall k :: k in RowsOf(s.db, path).events && RowsOf(s.db, path).events[k].kind == KIND_CATCHUP ==>
          RowsOf(s.db, path).events[k].catchupSource != Some(source) ||
          RowsOf(s.db, path).events[k].catchupSeq != Some(sourceSeq))
  }

  /** The tables and every other buffer are as before; of the path's buffer only the journal changed. */
  ghost predicate OnlyJournal(before: StoreState, after: StoreState, path: ActorPath) {
    && after.db == before.db && path in after.buffers && after.buffers.Keys == before.buffers.Keys + {path}
    && (forall q :: q in before.buffers && q != path ==> after.buffers[q] == before.buffers[q])
    && after.buffers[path].flushed == before.Buffer(path).flushed
    && after.buffers[path].dropWhenDurable == before.Buffer(path).dropWhenDurable
    && !after.buffers[path].activating
  }

  /**
   A fact held in buffer or table changes no journal; a new one is journaled as a copy under its
   origin, at the next number and arrival, and its number fills the slot.
   */
  lemma FactCaughtUp(s: StoreState, path: ActorPath, fact: ScannedEvent)
    requires !s.Activating(path)
    ensures var (s', slot) := s.CatchUp(path, fact);
            var j, origin := s.Buffer(path).journal, EventOrigin.CatchUp(fact.journal, fact.seqNo);
            && OnlyJournal(s, s', path)
            && if IsNews(s, path, fact.journal, fact.seqNo) then
                 && slot == Some(j.eventCount) && s'.nextIngest == s.nextIngest + 1
                 && s'.buffers[path].journal.eventCount == j.eventCount + 1
                 && s'.buffers[path].journal.Latest() == j.Latest()
                 && s'.buffers[path].journal.Events() ==
                    j.Events() + [JournaledEvent(j.eventCount, fact.event, origin, s.nextIngest)]
               else slot == None && s'.nextIngest == s.nextIngest && s'.buffers[path].journal == j
  {
    AppendEventShape(s.Buffer(path).journal, fact.event,
                     EventOrigin.CatchUp(fact.journal, fact.seqNo), s.nextIngest);
  }
}
