/**
 Every interleaving of the write-behind store (src/journal_daow.rs) beside the in-memory store.

 A `World` holds the write-behind store, who holds the drain lock and how far they got, the
 in-memory store that saw the same acknowledged calls, and the paths whose owner has loaded
 them. `Next` is one atomic section of one task; a run is any list of legal steps.
 */
module Protocol {
  import opened Wrappers
  import opened Journals
  import opened MemoryStore
  import opened Rows
  import opened WriteBehind

  /** The holder of the drain lock and the values it carries between its sections. */
  datatype Drain =
    | Free
    | Captured(pending: seq<PendingFlush>)
    | Written(done: seq<FlushCompletion>)
    | Marking(markPath: ActorPath, suffix: seq<PendingFlush>)
    | Releasing(releasePath: ActorPath)
    | Seeding(seedPath: ActorPath)
    | SeedRows(rowsPath: ActorPath, records: seq<JournaledEvent>, latest: Option<Snapshot>)
    | Answering(answerPath: ActorPath)
    | Scanning(schemas: set<SchemaId>, found: set<ScannedEvent>)
    | Purging(purgePath: ActorPath)

  /** A catch-up fact its path's buffer does not hold; `cleared` once the tables do not either. */
  datatype Check = Check(fact: ScannedEvent, cleared: bool)

  datatype World = World(
    store: StoreState, drain: Drain, spec: MemStore, active: set<ActorPath>, checking: map<ActorPath, Check>)

  /** The three fates of a transaction whose statements all succeed. */
  datatype Outcome = Applied | NotApplied | AppliedUnreported

  datatype Step =
    | Append(path: ActorPath, events: seq<Event>)
    | AppendSnapshot(path: ActorPath, seqNo: nat, state: Json, nowMs: nat)
    | CatchUpLook(path: ActorPath, fact: ScannedEvent)
    | CatchUpQuery(path: ActorPath, ok: bool)
    | CatchUpAppend(path: ActorPath)
    | Collect(pending: seq<PendingFlush>)
    | Transact(outcome: Outcome)
    | CommitFrontiers
    | PassivateCollect(path: ActorPath, pending: seq<PendingFlush>)
    | PassivateRelease
    | PassivateMark
    | LoadWarm(path: ActorPath)
    | SeedPlace(path: ActorPath)
    | SeedRead
    | SeedFail
    | SeedPut
    | LoadAnswer
    | ScanRows(schemas: set<SchemaId>)
    | ScanAnswer
    | PurgeRows(path: ActorPath)
    | PurgeEventsOnly(path: ActorPath)
    | PurgeBuffer
    | Restart

  /** An empty capture needs no transaction. */
  function AfterCapture(pending: seq<PendingFlush>): Drain {
    if pending == [] then Free else Captured(pending)
  }

  /** The path's owner has loaded it and is not in the middle of a catch-up fact. */
  predicate Writable(w: World, p: ActorPath) { p in w.active && p !in w.checking }

  /**
   The calls the runtime makes: a path is written only after it was loaded and before it is
   passivated again, by one caller at a time. Every other step is
   enabled by the drain lock alone.
   */
  ghost predicate Legal(w: World, step: Step) {
    match step
    case Append(p, _) => Writable(w, p)
    case AppendSnapshot(p, seqNo, _, _) => Writable(w, p) && seqNo < ANCHOR_LIMIT
    case CatchUpLook(p, _) => Writable(w, p)
    case CatchUpQuery(p, _) => p in w.checking && !w.checking[p].cleared
    case CatchUpAppend(p) => p in w.checking && w.checking[p].cleared
    case Collect(pending) => w.drain.Free? && w.store.IsCollected(None, pending)
    case Transact(_) => w.drain.Captured?
    case CommitFrontiers => w.drain.Written?
    case PassivateCollect(p, pending) =>
      w.drain.Free? && p !in w.checking && w.store.IsCollected(Some(p), pending)
    case PassivateRelease => w.drain.Releasing?
    case PassivateMark => w.drain.Marking?
    case LoadWarm(p) => w.drain.Free? && w.store.Warm(p)
    case SeedPlace(p) => w.drain.Free? && !w.store.Warm(p)
    case SeedRead => w.drain.Seeding?
    case SeedFail => w.drain.Seeding?
    case SeedPut => w.drain.SeedRows?
    case LoadAnswer => w.drain.Answering?
    case ScanRows(_) => w.drain.Free?
    case ScanAnswer => w.drain.Scanning?
    case PurgeRows(_) => w.drain.Free?
    case PurgeEventsOnly(_) => w.drain.Free?
    case PurgeBuffer => w.drain.Purging?
    case Restart => true
  }

  ghost function AfterTransact(w: World, outcome: Outcome): World
    requires w.drain.Captured?
  {
    match WriteAll(w.store.db, w.drain.pending)
    case None => w.(drain := Free)
    case Some(db) =>
      match outcome
      case Applied => w.(store := w.store.(db := db), drain := Written(CompletionsOf(w.drain.pending)))
      case NotApplied => w.(drain := Free)
      case AppliedUnreported => w.(store := w.store.(db := db), drain := Free)
  }

  /** The buffer's checkpoint test; a fact it does not hold goes on to the tables. */
  ghost function AfterLook(w: World, p: ActorPath, fact: ScannedEvent): World {
    if w.store.Activating(p) then w
    else
      var w' := w.(store := w.store.Touch(p), spec := w.spec.Begin(p));
      if w.store.BufferHolds(p, fact) then w' else w'.(checking := w.checking[p := Check(fact, false)])
  }

  /** The in-memory store a reopened database stands for. */
  ghost function Recovered(db: Database): MemStore {
    MemStore(map p | p in db :: RebuildJournal(StoredEvents(db[p]), LatestRow(db[p].snapshots)),
             Reopen(db).nextIngest)
  }

  ghost function Next(w: World, step: Step): World
    requires Legal(w, step)
  {
    match step
    case Append(p, events) =>
      if w.store.Activating(p) then w
      else w.(store := w.store.Append(p, events), spec := w.spec.Append(p, events))
    case AppendSnapshot(p, seqNo, state, nowMs) =>
      if w.store.Activating(p) then w
      else w.(store := w.store.AppendSnapshot(p, seqNo, state, nowMs),
              spec := w.spec.AppendSnapshot(p, seqNo, state, nowMs))
    case CatchUpLook(p, fact) => AfterLook(w, p, fact)
    case CatchUpQuery(p, ok) =>
      var check := w.checking[p];
      w.(checking := if ok && !w.store.TableHolds(p, check.fact) then w.checking[p := check.(cleared := true)]
                     else w.checking - {p})
    case CatchUpAppend(p) =>
      var fact, w' := w.checking[p].fact, w.(checking := w.checking - {p});
      if w.store.Activating(p) then w'
      else w'.(store := w.store.Checkpoint(p, fact), spec := w.spec.CatchUp(p, fact).0)
    case Collect(pending) => w.(drain := AfterCapture(pending))
    case Transact(outcome) => AfterTransact(w, outcome)
    case CommitFrontiers => w.(store := w.store.Commit(w.drain.done), drain := Free)
    case PassivateCollect(p, pending) =>
      w.(drain := if pending == [] then Releasing(p) else Marking(p, pending), active := w.active - {p})
    case PassivateRelease => w.(store := w.store.Remove(w.drain.releasePath), drain := Free)
    case PassivateMark =>
      w.(store := w.store.MarkDrop(w.drain.markPath), drain := Captured(w.drain.suffix))
    case LoadWarm(p) => w.(store := w.store.ClearDrop(p), active := w.active + {p})
    case SeedPlace(p) => w.(store := w.store.SeedBegin(p), drain := Seeding(p))
    case SeedRead =>
      var rows := RowsOf(w.store.db, w.drain.seedPath);
      w.(drain := SeedRows(w.drain.seedPath, StoredEvents(rows), LatestRow(rows.snapshots)))
    case SeedFail => w.(drain := Free)
    case SeedPut =>
      w.(store := w.store.SeedInstall(w.drain.rowsPath, w.drain.records, w.drain.latest),
         drain := Answering(w.drain.rowsPath))
    case LoadAnswer => w.(drain := Free, active := w.active + {w.drain.answerPath})
    case ScanRows(schemas) => w.(drain := Scanning(schemas, w.store.DbFacts(schemas)))
    case ScanAnswer => w.(drain := Free)
    case PurgeRows(p) => w.(store := w.store.DeleteRows(p), drain := Purging(p))
    case PurgeEventsOnly(p) => w.(store := w.store.DeleteEvents(p))
    case PurgeBuffer =>
      w.(store := w.store.Remove(w.drain.purgePath), spec := w.spec.Purge(w.drain.purgePath), drain := Free)
    case Restart => World(Reopen(w.store.db), Free, Recovered(w.store.db), {}, map[])
  }

  // ---- The invariant, one path at a time ----

  /** Everything the invariant reads about one path. */
  datatype PathView = PathView(buffer: Option<PathBuffer>, rows: PathRows, journal: JournalState, active: bool)

  function View(w: World, p: ActorPath): PathView {
    PathView(if p in w.store.buffers then Some(w.store.buffers[p]) else None,
             RowsOf(w.store.db, p), w.spec.Of(p), p in w.active)
  }

  /**
   How a buffer lines up with the in-memory journal: from `base` in the buffer and `specBase` in
   the journal on, the entries are the same; before, they hold the same events and latest
   snapshot. The tables hold the first `stored` entries of the buffer.
   */
  datatype Cut = Cut(base: nat, specBase: nat, stored: nat)

  ghost predicate Aligned(b: PathBuffer, j: JournalState, cut: Cut) {
    && b.journal.Wf()
    && cut.base <= b.flushed <= |b.journal.entries| && cut.specBase <= |j.entries|
    && b.journal.entries[cut.base..] == j.entries[cut.specBase..]
    && EventsOf(b.journal.entries[..cut.base]) == EventsOf(j.entries[..cut.specBase])
    && LastSnapshot(b.journal.entries[..cut.base]) == LastSnapshot(j.entries[..cut.specBase])
  }

  ghost predicate Stored(b: PathBuffer, rows: PathRows, stored: nat) {
    b.flushed <= stored <= |b.journal.entries| && StoredThrough(rows, b.journal.entries, stored)
  }

  /** What an unfinished flush says about how far its path is stored. */
  ghost predicate Within(drain: Drain, p: ActorPath, stored: nat) {
    match drain
    case Captured(pending) => BelowEnds(pending, p, stored)
    case Marking(_, pending) => BelowEnds(pending, p, stored)
    case Written(done) =>
      forall i :: 0 <= i < |done| && done[i].path == p ==> done[i].capturedEnd <= stored
    case _ => true
  }

  ghost predicate BelowEnds(pending: seq<PendingFlush>, p: ActorPath, stored: nat) {
    forall i :: 0 <= i < |pending| && pending[i].path == p ==> stored <= pending[i].capturedEnd
  }

  ghost predicate Durable(rows: PathRows, j: JournalState) {
    StoredThrough(rows, j.entries, |j.entries|)
  }

  ghost predicate PathOk(v: PathView, drain: Drain, p: ActorPath) {
    && (v.active && v.buffer.Some? ==> !v.buffer.value.dropWhenDurable)
    && (v.active && (v.buffer.None? || v.buffer.value.activating) ==> v.journal.entries == [])
    && if v.buffer.Some? && !v.buffer.value.activating
       then exists cut :: Fits(v.buffer.value, v, drain, p, cut)
       else
         && (v.buffer.Some? ==> v.buffer.value.journal == EMPTY && v.buffer.value.flushed == 0)
         && (if drain == Purging(p) then v.rows == NO_ROWS else Durable(v.rows, v.journal))
  }

  ghost predicate Fits(b: PathBuffer, v: PathView, drain: Drain, p: ActorPath, cut: Cut) {
    && Aligned(b, v.journal, cut)
    && (drain == Purging(p) ==> v.rows == NO_ROWS)
    && (drain != Purging(p) ==> Stored(b, v.rows, cut.stored) && Within(drain, p, cut.stored))
  }

  /** A captured batch is its buffer's suffix up to the captured end, whatever was appended since. */
  ghost predicate BatchFits(b: PathBuffer, p: ActorPath, batch: PendingFlush) {
    && b.flushed < batch.capturedEnd <= |b.journal.entries|
    && batch == Capture(p, b.journal.entries[..batch.capturedEnd], b.flushed, batch.dropWhenDurable)
  }

  ghost predicate BatchOk(s: StoreState, batch: PendingFlush) {
    s.Warm(batch.path) && BatchFits(s.buffers[batch.path], batch.path, batch)
  }

  ghost predicate BatchesOk(s: StoreState, pending: seq<PendingFlush>) {
    DistinctPaths(pending) && forall i :: 0 <= i < |pending| ==> BatchOk(s, pending[i])
  }

  ghost predicate DoneOk(s: StoreState, done: seq<FlushCompletion>) {
    && (forall i, k :: 0 <= i < k < |done| ==> done[i].path != done[k].path)
    && (forall i :: 0 <= i < |done| ==>
          && s.Warm(done[i].path)
          && s.buffers[done[i].path].flushed <= done[i].capturedEnd
          && done[i].capturedEnd <= |s.buffers[done[i].path].journal.entries|)
  }

  ghost predicate PhaseOk(w: World) {
    match w.drain
    case Free => true
    case Captured(pending) => BatchesOk(w.store, pending)
    case Written(done) => DoneOk(w.store, done)
    case Marking(p, suffix) =>
      && BatchesOk(w.store, suffix) && p !in w.active
      && forall i :: 0 <= i < |suffix| ==> suffix[i].path == p
    case Releasing(p) =>
      p !in w.active &&
      (w.store.Warm(p) ==> w.store.buffers[p].flushed >= |w.store.buffers[p].journal.entries|)
    case Seeding(p) => w.store.Activating(p)
    case SeedRows(p, records, latest) =>
      && w.store.Activating(p)
      && records == StoredEvents(RowsOf(w.store.db, p))
      && latest == LatestRow(RowsOf(w.store.db, p).snapshots)
    case Answering(p) =>
      && (p in w.store.buffers ==> !w.store.buffers[p].dropWhenDurable)
      && (!w.store.Warm(p) ==> w.spec.Of(p).entries == [])
    case Scanning(schemas, found) => found == w.store.DbFacts(schemas)
    case Purging(_) => true
  }

  /** A fact being checked is new to its journal: only its own caller could have added it. */
  ghost predicate ChecksOk(w: World) {
    forall p :: p in w.checking ==>
      p in w.active && !HoldsOrigin(w.spec.Of(p).Events(), w.checking[p].fact.journal, w.checking[p].fact.seqNo)
  }

  ghost predicate Inv(w: World) {
    && MemOk(w.spec) && ChecksOk(w)
    && w.store.nextIngest == w.spec.nextIngest
    && (forall p :: PathOk(View(w, p), w.drain, p))
    && PhaseOk(w)
  }

  // ---- A purge that fails half-way ----

  /**
   Deleting a path's events harms nothing when it has none, or when the buffer still counts them
   as unflushed and the stored snapshot is one of the entries before the first event.
   */
  ghost predicate HalfPurgeHarmless(w: World, p: ActorPath) {
    || RowsOf(w.store.db, p).events == map[]
    || (w.store.Warm(p) && exists n :: EventlessPast(w.store.buffers[p], RowsOf(w.store.db, p).snapshots, n))
  }

  /** The first `n` entries hold no event, and as latest snapshot the stored one. */
  ghost predicate EventlessPast(b: PathBuffer, snapshots: map<nat, Json>, n: nat) {
    && b.flushed <= n <= |b.journal.entries|
    && EventsOf(b.journal.entries[..n]) == []
    && LastSnapshot(b.journal.entries[..n]) == LatestRow(snapshots)
  }

  /** No captured snapshot is anchored below a stored one. */
  ghost predicate AllLand(db: Database, pending: seq<PendingFlush>) {
    forall i :: 0 <= i < |pending| ==> Lands(RowsOf(db, pending[i].path), pending[i].snapshot)
  }

  /** The two steps that can leave a frontier wrong, where they do not. */
  ghost predicate Harmless(w: World, step: Step) {
    && (step.PurgeEventsOnly? ==> HalfPurgeHarmless(w, step.path))
    && (step.Transact? && step.outcome != NotApplied && w.drain.Captured? ==> AllLand(w.store.db, w.drain.pending))
  }

  // ---- Facts about one path ----

  /** A buffer and its in-memory journal hold the same events and the same latest snapshot. */
  lemma AlignedAgree(b: PathBuffer, j: JournalState, cut: Cut)
    requires Aligned(b, j, cut)
    ensures b.journal.Events() == j.Events() && b.journal.Latest() == j.Latest()
  {
    SplitAt(b.journal.entries, cut.base);
    SplitAt(j.entries, cut.specBase);
  }

  /** Cutting the buffer anywhere past `base` cuts the journal at the matching place. */
  lemma AlignedCut(b: PathBuffer, j: JournalState, cut: Cut, k: nat)
    requires Aligned(b, j, cut) && cut.base <= k <= |b.journal.entries|
    ensures cut.specBase + (k - cut.base) <= |j.entries|
    ensures EventsOf(b.journal.entries[..k]) == EventsOf(j.entries[..cut.specBase + (k - cut.base)])
    ensures LastSnapshot(b.journal.entries[..k]) == LastSnapshot(j.entries[..cut.specBase + (k - cut.base)])
  {
    var bs, js, n := b.journal.entries, j.entries, k - cut.base;
    assert |bs[cut.base..]| == |js[cut.specBase..]|;
    var m := cut.specBase + n;
    assert bs[..k][cut.base..] == bs[cut.base..][..n];
    assert js[..m][cut.specBase..] == js[cut.specBase..][..n];
    assert bs[..k][..cut.base] == bs[..cut.base];
    assert js[..m][..cut.specBase] == js[..cut.specBase];
    SplitAt(bs[..k], cut.base);
    SplitAt(js[..m], cut.specBase);
  }

  /** The same entries appended to both sides keep the alignment. */
  lemma AlignedGrow(b: PathBuffer, j: JournalState, cut: Cut,
                    b': PathBuffer, j': JournalState, more: seq<JournalEntry>)
    requires Aligned(b, j, cut)
    requires b'.journal.Wf() && b'.flushed == b.flushed
    requires b'.journal.entries == b.journal.entries + more && j'.entries == j.entries + more
    ensures Aligned(b', j', cut)
  {
    var bs, js := b'.journal.entries, j'.entries;
    assert bs[cut.base..] == b.journal.entries[cut.base..] + more;
    assert js[cut.specBase..] == j.entries[cut.specBase..] + more;
    assert bs[..cut.base] == b.journal.entries[..cut.base];
    assert js[..cut.specBase] == j.entries[..cut.specBase];
  }

  /** Entries appended to a buffer leave what is stored of it stored. */
  lemma StoredGrow(b: PathBuffer, rows: PathRows, stored: nat, b': PathBuffer, more: seq<JournalEntry>)
    requires Stored(b, rows, stored)
    requires b'.flushed == b.flushed && b'.journal.entries == b.journal.entries + more
    ensures Stored(b', rows, stored)
  {
    assert b'.journal.entries[..stored] == b.journal.entries[..stored];
  }

  /** Two journals of the same events and latest snapshot line up at their ends. */
  lemma EndsAlign(b: PathBuffer, j: JournalState)
    requires b.journal.Wf() && b.flushed == |b.journal.entries|
    requires b.journal.Events() == j.Events() && b.journal.Latest() == j.Latest()
    ensures Aligned(b, j, Cut(|b.journal.entries|, |j.entries|, |b.journal.entries|))
  {
    var bs, js := b.journal.entries, j.entries;
    assert bs[..|bs|] == bs && js[..|js|] == js;
    assert bs[|bs|..] == [] && js[|js|..] == [];
  }

  lemma RebuiltOf(j: JournalState, rows: PathRows)
    requires j.Wf() && Durable(rows, j)
    ensures var rebuilt := RebuildJournal(StoredEvents(rows), LatestRow(rows.snapshots));
            rebuilt.Wf() && rebuilt.Events() == j.Events() && rebuilt.Latest() == j.Latest()
  {
    assert j.entries[..|j.entries|] == j.entries;
    StoredEventsDense(rows, j.Events());
    LastSnapshotFits(j.entries);
    RebuildShape(j.Events(), j.Latest());
  }

  /** A buffer rebuilt from complete tables lines up with the journal they came from. */
  lemma RebuiltAligns(j: JournalState, rows: PathRows)
    requires j.Wf() && Durable(rows, j)
    ensures var rebuilt := RebuildJournal(StoredEvents(rows), LatestRow(rows.snapshots));
            var n := |rebuilt.entries|;
            && Aligned(DurableBuffer(rebuilt), j, Cut(n, |j.entries|, n))
            && Stored(DurableBuffer(rebuilt), rows, n)
  {
    var rebuilt := RebuildJournal(StoredEvents(rows), LatestRow(rows.snapshots));
    RebuiltOf(j, rows);
    EndsAlign(DurableBuffer(rebuilt), j);
    assert j.entries[..|j.entries|] == j.entries && rebuilt.entries[..|rebuilt.entries|] == rebuilt.entries;
  }

  /** A buffer stored to its end leaves the tables complete for its journal. */
  lemma FullyStoredIsDurable(b: PathBuffer, j: JournalState, rows: PathRows, cut: Cut)
    requires Aligned(b, j, cut) && Stored(b, rows, |b.journal.entries|)
    ensures Durable(rows, j)
  {
    AlignedAgree(b, j, cut);
    assert b.journal.entries[..|b.journal.entries|] == b.journal.entries;
    assert j.entries[..|j.entries|] == j.entries;
  }

  /** The transaction's effect on one captured path. */
  lemma BatchWrites(b: PathBuffer, p: ActorPath, rows: PathRows, stored: nat, batch: PendingFlush)
    requires b.journal.Wf() && Stored(b, rows, stored)
    requires BatchFits(b, p, batch) && stored <= batch.capturedEnd
    ensures WriteBatch(rows, batch).Some?
    ensures Lands(rows, batch.snapshot) ==> Stored(b, WriteBatch(rows, batch).value, batch.capturedEnd)
  {
    var entries := b.journal.entries[..batch.capturedEnd];
    EntriesOkPrefix(b.journal.entries, batch.capturedEnd);
    assert entries[..stored] == b.journal.entries[..stored];
    FlushOverPrefix(rows, entries, p, b.flushed, stored, batch.dropWhenDurable);
    assert entries[..batch.capturedEnd] == entries;
  }
}
