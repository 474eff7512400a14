/** Every step of the store protocol keeps the invariant. */
module ProtocolInvariant {
  import opened Wrappers
  import opened Journals
  import opened MemoryStore
  import opened Rows
  import opened WriteBehind
  import opened Protocol

  /** The alignment of a warm path, as a value. */
  ghost function CutOf(w: World, p: ActorPath): (cut: Cut)
    requires PathOk(View(w, p), w.drain, p) && w.store.Warm(p)
    ensures Aligned(w.store.buffers[p], w.spec.Of(p), cut)
    ensures w.drain != Purging(p) ==>
              Stored(w.store.buffers[p], RowsOf(w.store.db, p), cut.stored) && Within(w.drain, p, cut.stored)
  {
    var cut :| Fits(w.store.buffers[p], View(w, p), w.drain, p, cut);
    cut
  }

  // ---- Acknowledged writes ----

  /** The same entries appended on both sides, to an active path that is not activating. */
  ghost predicate Grown(w: World, w': World, p: ActorPath, more: seq<JournalEntry>) {
    && p in w.active && !w.store.Activating(p)
    && w'.drain == w.drain && w'.active == w.active && w'.store.db == w.store.db
    && ChecksOk(w')
    && p in w'.store.buffers && p in w'.spec.journals
    && w'.store.buffers ==
       w.store.buffers[p := w.store.Buffer(p).(journal := w'.store.buffers[p].journal)]
    && w'.spec.journals == w.spec.journals[p := w'.spec.journals[p]]
    && w'.store.buffers[p].journal.Wf()
    && w'.store.buffers[p].journal.entries == w.store.Buffer(p).journal.entries + more
    && w'.spec.journals[p].entries == w.spec.Of(p).entries + more
  }

  lemma GrownPath(w: World, w': World, p: ActorPath, more: seq<JournalEntry>)
    requires Inv(w) && Grown(w, w', p, more)
    ensures PathOk(View(w', p), w'.drain, p)
  {
    var v, v' := View(w, p), View(w', p);
    assert PathOk(v, w.drain, p);
    var b := w.store.Buffer(p);
    var cut := if v.buffer.Some? then CutOf(w, p) else Cut(0, 0, 0);
    AlignedGrow(b, v.journal, cut, v'.buffer.value, v'.journal, more);
    if w.drain != Purging(p) {
      StoredGrow(b, v.rows, cut.stored, v'.buffer.value, more);
    }
    assert Fits(v'.buffer.value, v', w'.drain, p, cut);
  }

  lemma GrownPhase(w: World, w': World, p: ActorPath, more: seq<JournalEntry>)
    requires Inv(w) && Grown(w, w', p, more)
    ensures PhaseOk(w')
  {
    match w.drain {
      case Captured(pending) => GrownBatches(w, w', p, more, pending);
      case Marking(_, suffix) => GrownBatches(w, w', p, more, suffix);
      case _ =>
    }
  }

  lemma GrownBatches(w: World, w': World, p: ActorPath, more: seq<JournalEntry>, pending: seq<PendingFlush>)
    requires Grown(w, w', p, more) && BatchesOk(w.store, pending)
    ensures BatchesOk(w'.store, pending)
  {
    forall i | 0 <= i < |pending| ensures BatchOk(w'.store, pending[i]) {
      assert BatchOk(w.store, pending[i]);
      if pending[i].path == p {
        var end := pending[i].capturedEnd;
        assert w'.store.buffers[p].journal.entries[..end] == w.store.buffers[p].journal.entries[..end];
      }
    }
  }

  lemma GrownKeepsInv(w: World, w': World, p: ActorPath, more: seq<JournalEntry>)
    requires Inv(w) && Grown(w, w', p, more)
    requires MemOk(w'.spec) && w'.store.nextIngest == w'.spec.nextIngest
    ensures Inv(w')
  {
    GrownPhase(w, w', p, more);
    forall q ensures PathOk(View(w', q), w'.drain, q) {
      if q == p {
        GrownPath(w, w', p, more);
      } else {
        assert View(w', q) == View(w, q);
        assert PathOk(View(w, q), w.drain, q);
      }
    }
  }

  /** On an active, non-activating path the buffer and the journal agree on what readers see. */
  lemma ActiveAgrees(w: World, p: ActorPath)
    requires Inv(w) && p in w.active && !w.store.Activating(p)
    ensures var b := w.store.Buffer(p).journal;
            && b.Wf() && b.Events() == w.spec.Of(p).Events() && b.Latest() == w.spec.Of(p).Latest()
            && b.eventCount == w.spec.Of(p).eventCount
  {
    assert PathOk(View(w, p), w.drain, p);
    assert JournalOk(w.spec.Of(p), w.spec.nextIngest);
    if p in w.store.buffers {
      AlignedAgree(w.store.buffers[p], w.spec.Of(p), CutOf(w, p));
    }
  }

  /** A buffer and a journal that answer alike, about to take the same write. */
  ghost predicate Twins(w: World, p: ActorPath) {
    && p in w.active && !w.store.Activating(p) && ChecksOk(w) && p !in w.checking
    && w.store.Buffer(p).journal.Wf()
    && w.store.Buffer(p).journal.eventCount == w.spec.Of(p).eventCount
    && w.store.nextIngest == w.spec.nextIngest
  }

  lemma AppendIsGrown(w: World, p: ActorPath, events: seq<Event>)
    requires Twins(w, p)
    ensures Grown(w, w.(store := w.store.Append(p, events), spec := w.spec.Append(p, events)), p,
                  AsEntries(Numbered(events, w.spec.Of(p).eventCount, w.spec.nextIngest)))
  {
    AppendAllShape(w.store.Buffer(p).journal, events, w.spec.nextIngest);
    AppendAllEntries(w.spec.Of(p), events, w.spec.nextIngest);
  }

  lemma AppendKeepsInv(w: World, p: ActorPath, events: seq<Event>)
    requires Inv(w) && Legal(w, Step.Append(p, events))
    ensures Inv(Next(w, Step.Append(p, events)))
  {
    if !w.store.Activating(p) {
      ActiveAgrees(w, p);
      AppendKeepsMemOk(w.spec, p, events);
      AppendIsGrown(w, p, events);
      GrownKeepsInv(w, Next(w, Step.Append(p, events)), p,
                    AsEntries(Numbered(events, w.spec.Of(p).eventCount, w.spec.nextIngest)));
    }
  }

  lemma SnapshotIsGrown(w: World, p: ActorPath, seqNo: nat, state: Json, nowMs: nat)
    requires Twins(w, p) && seqNo < ANCHOR_LIMIT
    ensures Grown(w, w.(store := w.store.AppendSnapshot(p, seqNo, state, nowMs),
                        spec := w.spec.AppendSnapshot(p, seqNo, state, nowMs)), p,
                  [SnapshotEntry(Snapshot(seqNo, state))])
  {
    AppendSnapshotShape(w.store.Buffer(p).journal, seqNo, state, nowMs);
    AppendSnapshotShape(w.spec.Of(p), seqNo, state, nowMs);
  }

  lemma AppendSnapshotKeepsInv(w: World, p: ActorPath, seqNo: nat, state: Json, nowMs: nat)
    requires Inv(w) && Legal(w, Step.AppendSnapshot(p, seqNo, state, nowMs))
    ensures Inv(Next(w, Step.AppendSnapshot(p, seqNo, state, nowMs)))
  {
    if !w.store.Activating(p) {
      ActiveAgrees(w, p);
      SnapshotKeepsMemOk(w.spec, p, seqNo, state, nowMs);
      SnapshotIsGrown(w, p, seqNo, state, nowMs);
      GrownKeepsInv(w, Next(w, Step.AppendSnapshot(p, seqNo, state, nowMs)), p,
                    [SnapshotEntry(Snapshot(seqNo, state))]);
    }
  }

  /** The tables of an active path hold no catch-up origin its journal does not hold. */
  lemma DbKnowsNoMore(w: World, p: ActorPath, source: ActorPath, sourceSeq: nat)
    requires Inv(w) && p in w.active && !w.store.Activating(p)
    requires DbHoldsOrigin(RowsOf(w.store.db, p), source, sourceSeq)
    ensures HoldsOrigin(w.spec.Of(p).Events(), source, sourceSeq)
  {
    var rows, j := RowsOf(w.store.db, p), w.spec.Of(p);
    var k :| k in rows.events && rows.events[k].kind == KIND_CATCHUP &&
             rows.events[k].catchupSource == Some(source) && rows.events[k].catchupSeq == Some(sourceSeq);
    assert PathOk(View(w, p), w.drain, p);
    var b := w.store.Buffer(p);
    var stored := if p in w.store.buffers then CutOf(w, p).stored else 0;
    ActiveAgrees(w, p);
    assert StoredThrough(rows, b.journal.entries, stored);
    SplitAt(b.journal.entries, stored);
    assert j.Events()[k].origin == EventOrigin.CatchUp(source, sourceSeq);
  }

  /** Catch-up answers alike on both sides: the table check never disagrees with the journal. */
  lemma CatchUpAgrees(w: World, p: ActorPath, fact: ScannedEvent)
    requires Inv(w) && p in w.active && !w.store.Activating(p)
    ensures w.store.BufferHolds(p, fact) == HoldsOrigin(w.spec.Of(p).Events(), fact.journal, fact.seqNo)
    ensures w.store.TableHolds(p, fact) ==> w.store.BufferHolds(p, fact)
    ensures w.store.CatchUp(p, fact).1 == w.spec.CatchUp(p, fact).1
    ensures w.store.CatchUp(p, fact).0.nextIngest == w.spec.CatchUp(p, fact).0.nextIngest
  {
    ActiveAgrees(w, p);
    if w.store.TableHolds(p, fact) {
      DbKnowsNoMore(w, p, fact.journal, fact.seqNo);
    }
  }

  lemma BeginKeepsMemOk(s: MemStore, p: ActorPath)
    requires MemOk(s)
    ensures MemOk(s.Begin(p)) && forall q :: s.Begin(p).Of(q) == s.Of(q)
  {
    assert forall q :: s.Begin(p).Of(q) == s.Of(q);
  }

  /** The buffer's checkpoint test appends nothing. */
  lemma LookIsGrown(w: World, p: ActorPath, fact: ScannedEvent)
    requires Inv(w) && Legal(w, CatchUpLook(p, fact)) && !w.store.Activating(p)
    ensures Grown(w, Next(w, CatchUpLook(p, fact)), p, [])
  {
    var w' := Next(w, CatchUpLook(p, fact));
    ActiveAgrees(w, p);
    CatchUpAgrees(w, p, fact);
    assert w'.store.buffers[p].journal.entries == w.store.Buffer(p).journal.entries + [];
    assert w'.spec.journals[p].entries == w.spec.Of(p).entries + [];
    BeginKeepsMemOk(w.spec, p);
  }

  lemma CatchUpLookKeepsInv(w: World, p: ActorPath, fact: ScannedEvent)
    requires Inv(w) && Legal(w, CatchUpLook(p, fact))
    ensures Inv(Next(w, CatchUpLook(p, fact)))
  {
    if !w.store.Activating(p) {
      LookIsGrown(w, p, fact);
      BeginKeepsMemOk(w.spec, p);
      GrownKeepsInv(w, Next(w, CatchUpLook(p, fact)), p, []);
    }
  }

  /** No step but its caller's own changes what a checked fact was checked against. */
  lemma CheckedFactIsNew(w: World, p: ActorPath)
    requires Inv(w) && p in w.checking
    ensures p in w.active
    ensures !HoldsOrigin(w.spec.Of(p).Events(), w.checking[p].fact.journal, w.checking[p].fact.seqNo)
    ensures !w.store.TableHolds(p, w.checking[p].fact)
  {
    var fact := w.checking[p].fact;
    assert PathOk(View(w, p), w.drain, p);
    if w.store.Activating(p) {
      assert RowsOf(w.store.db, p).events == map[] by { EmptyIsStoredEmpty(View(w, p), w.drain, p); }
    } else {
      CatchUpAgrees(w, p, fact);
    }
  }

  lemma EmptyIsStoredEmpty(v: PathView, drain: Drain, p: ActorPath)
    requires PathOk(v, drain, p) && v.journal.entries == []
    requires v.buffer.None? || v.buffer.value.activating
    ensures v.rows.events == map[]
  {
    assert v.journal.entries[..0] == [];
    assert RowMap([]) == map[];
  }

  lemma CatchUpQueryKeepsInv(w: World, p: ActorPath, ok: bool)
    requires Inv(w) && Legal(w, CatchUpQuery(p, ok))
    ensures Inv(Next(w, CatchUpQuery(p, ok)))
  {
    SameViews(w, Next(w, CatchUpQuery(p, ok)));
  }

  lemma CheckpointIsGrown(w: World, p: ActorPath, fact: ScannedEvent)
    requires Twins(w, p) && !HoldsOrigin(w.spec.Of(p).Events(), fact.journal, fact.seqNo)
    ensures var origin := EventOrigin.CatchUp(fact.journal, fact.seqNo);
            Grown(w, w.(store := w.store.Checkpoint(p, fact), spec := w.spec.CatchUp(p, fact).0), p,
                  [EventEntry(JournaledEvent(w.spec.Of(p).eventCount, fact.event, origin, w.spec.nextIngest))])
  {
    var origin := EventOrigin.CatchUp(fact.journal, fact.seqNo);
    AppendEventShape(w.store.Buffer(p).journal, fact.event, origin, w.spec.nextIngest);
    AppendEventShape(w.spec.Of(p), fact.event, origin, w.spec.nextIngest);
  }

  /** The check is over, whatever came of it. */
  lemma CheckedKeepsInv(w: World, p: ActorPath)
    requires Inv(w)
    ensures Inv(w.(checking := w.checking - {p}))
  {
    SameViews(w, w.(checking := w.checking - {p}));
  }

  lemma CheckpointKeepsInv(w: World, p: ActorPath, fact: ScannedEvent)
    requires Inv(w) && p in w.active && !w.store.Activating(p) && p !in w.checking
    requires !HoldsOrigin(w.spec.Of(p).Events(), fact.journal, fact.seqNo)
    ensures Inv(w.(store := w.store.Checkpoint(p, fact), spec := w.spec.CatchUp(p, fact).0))
  {
    var origin := EventOrigin.CatchUp(fact.journal, fact.seqNo);
    ActiveAgrees(w, p);
    CatchUpKeepsMemOk(w.spec, p, fact);
    CheckpointIsGrown(w, p, fact);
    GrownKeepsInv(w, w.(store := w.store.Checkpoint(p, fact), spec := w.spec.CatchUp(p, fact).0), p,
                  [EventEntry(JournaledEvent(w.spec.Of(p).eventCount, fact.event, origin, w.spec.nextIngest))]);
  }

  lemma CatchUpAppendKeepsInv(w: World, p: ActorPath)
    requires Inv(w) && Legal(w, CatchUpAppend(p))
    ensures Inv(Next(w, CatchUpAppend(p)))
  {
    CheckedFactIsNew(w, p);
    CheckedKeepsInv(w, p);
    if !w.store.Activating(p) {
      CheckpointKeepsInv(w.(checking := w.checking - {p}), p, w.checking[p].fact);
    }
  }

  // ---- Flush ----

  /** A step that touches neither a buffer, a table, a journal nor ownership. */
  lemma SameViews(w: World, w': World)
    requires w'.store == w.store && w'.spec == w.spec && w'.active == w.active
    ensures forall p :: View(w', p) == View(w, p)
  {
  }

  /** Weaker demands on a path than before keep it fine. */
  lemma Relaxed(v: PathView, drain: Drain, drain': Drain, p: ActorPath)
    requires PathOk(v, drain, p) && drain != Purging(p) && drain' != Purging(p)
    requires forall n: nat ::
               (Within(drain, p, n) && (v.buffer.Some? ==> n <= |v.buffer.value.journal.entries|)) ==>
                 Within(drain', p, n)
    ensures PathOk(v, drain', p)
  {
    if v.buffer.Some? && !v.buffer.value.activating {
      var cut :| Fits(v.buffer.value, v, drain, p, cut);
      assert Fits(v.buffer.value, v, drain', p, cut);
    }
  }

  lemma DrainMoves(w: World, drain: Drain)
    requires Inv(w) && !w.drain.Purging? && !drain.Purging?
    requires forall p, n: nat ::
               (Within(w.drain, p, n) && w.store.Warm(p) && n <= |w.store.buffers[p].journal.entries|) ==>
                 Within(drain, p, n)
    ensures forall p :: PathOk(View(w, p), drain, p)
  {
    forall p ensures PathOk(View(w, p), drain, p) {
      assert PathOk(View(w, p), w.drain, p);
      if w.store.Warm(p) { Relaxed(View(w, p), w.drain, drain, p); }
    }
  }

  lemma CollectedIsOk(w: World, target: Option<ActorPath>, pending: seq<PendingFlush>)
    requires Inv(w) && w.drain.Free? && w.store.IsCollected(target, pending)
    ensures BatchesOk(w.store, pending)
    ensures forall p, n: nat :: w.store.Warm(p) && n <= |w.store.buffers[p].journal.entries| ==>
              BelowEnds(pending, p, n)
  {
    forall i | 0 <= i < |pending| ensures BatchOk(w.store, pending[i]) {
      var p := pending[i].path;
      assert PathOk(View(w, p), w.drain, p);
      assert w.store.HasPending(p) && pending[i] == w.store.PendingFor(p);
      var entries := w.store.buffers[p].journal.entries;
      assert entries[..|entries|] == entries;
    }
  }

  lemma CollectKeepsInv(w: World, pending: seq<PendingFlush>)
    requires Inv(w) && Legal(w, Collect(pending))
    ensures Inv(Next(w, Collect(pending)))
  {
    CollectedIsOk(w, None, pending);
    DrainMoves(w, AfterCapture(pending));
    SameViews(w, Next(w, Collect(pending)));
  }

  /** In a reachable world no row ever conflicts: the transaction's statements all succeed. */
  lemma TransactionNeverConflicts(w: World)
    requires Inv(w) && w.drain.Captured?
    ensures WriteAll(w.store.db, w.drain.pending).Some?
  {
    WriteAllByPath(w.store.db, w.drain.pending);
    forall i | 0 <= i < |w.drain.pending|
      ensures WriteBatch(RowsOf(w.store.db, w.drain.pending[i].path), w.drain.pending[i]).Some?
    {
      var p := w.drain.pending[i].path;
      assert BatchOk(w.store, w.drain.pending[i]) && PathOk(View(w, p), w.drain, p);
      WrittenView(View(w, p), p, w.drain.pending, i, Free);
    }
  }

  /** A path whose buffer, tables and journal did not change, under a drain state that asks nothing of it. */
  lemma QuietPath(w: World, w': World, p: ActorPath)
    requires PathOk(View(w, p), w.drain, p) && View(w', p) == View(w, p)
    requires !w.drain.Purging? && !w'.drain.Purging?
    requires forall n: nat :: Within(w'.drain, p, n)
    ensures PathOk(View(w', p), w'.drain, p)
  {
    Relaxed(View(w, p), w.drain, w'.drain, p);
  }

  /** `w'` is `w` after the transaction's rows landed. */
  ghost predicate RowsLanded(w: World, w': World) {
    && w.drain.Captured? && AllLand(w.store.db, w.drain.pending) && WriteAll(w.store.db, w.drain.pending).Some?
    && w' == w.(store := w.store.(db := WriteAll(w.store.db, w.drain.pending).value), drain := w'.drain)
    && (w'.drain.Free? || w'.drain == Written(CompletionsOf(w.drain.pending)))
  }

  lemma AlignmentIgnoresStored(b: PathBuffer, j: JournalState, cut: Cut, stored: nat)
    requires Aligned(b, j, cut)
    ensures Aligned(b, j, cut.(stored := stored))
  {
  }

  lemma WithinAfterWrite(pending: seq<PendingFlush>, i: nat, drain: Drain)
    requires DistinctPaths(pending) && i < |pending|
    requires drain.Free? || drain == Written(CompletionsOf(pending))
    ensures Within(drain, pending[i].path, pending[i].capturedEnd)
  {
  }

  lemma WrittenView(v: PathView, p: ActorPath, pending: seq<PendingFlush>, i: nat, drain: Drain)
    requires PathOk(v, Captured(pending), p) && v.buffer.Some? && !v.buffer.value.activating
    requires DistinctPaths(pending) && i < |pending| && pending[i].path == p
    requires BatchFits(v.buffer.value, p, pending[i])
    requires drain.Free? || drain == Written(CompletionsOf(pending))
    ensures WriteBatch(v.rows, pending[i]).Some?
    ensures Lands(v.rows, pending[i].snapshot) ==>
              PathOk(v.(rows := WriteBatch(v.rows, pending[i]).value), drain, p)
  {
    var b, batch := v.buffer.value, pending[i];
    var cut :| Fits(b, v, Captured(pending), p, cut);
    assert cut.stored <= batch.capturedEnd;
    BatchWrites(b, p, v.rows, cut.stored, batch);
    var moved := cut.(stored := batch.capturedEnd);
    AlignmentIgnoresStored(b, v.journal, cut, batch.capturedEnd);
    WithinAfterWrite(pending, i, drain);
    if Lands(v.rows, batch.snapshot) {
      assert Fits(b, v.(rows := WriteBatch(v.rows, batch).value), drain, p, moved);
    }
  }

  lemma WrittenPath(w: World, w': World, i: nat)
    requires Inv(w) && RowsLanded(w, w') && i < |w.drain.pending|
    ensures PathOk(View(w', w.drain.pending[i].path), w'.drain, w.drain.pending[i].path)
  {
    var p := w.drain.pending[i].path;
    assert BatchOk(w.store, w.drain.pending[i]) && PathOk(View(w, p), w.drain, p);
    WrittenView(View(w, p), p, w.drain.pending, i, w'.drain);
    WriteAllByPath(w.store.db, w.drain.pending);
    assert View(w', p) == View(w, p).(rows := WriteBatch(RowsOf(w.store.db, p), w.drain.pending[i]).value);
  }

  lemma UnwrittenPath(w: World, w': World, p: ActorPath)
    requires Inv(w) && RowsLanded(w, w')
    requires forall i :: 0 <= i < |w.drain.pending| ==> w.drain.pending[i].path != p
    ensures PathOk(View(w', p), w'.drain, p)
  {
    assert View(w', p) == View(w, p) by { WriteAllByPath(w.store.db, w.drain.pending); }
    assert PathOk(View(w, p), w.drain, p);
    QuietPath(w, w', p);
  }

  lemma TransactKeepsInv(w: World, outcome: Outcome)
    requires Inv(w) && Legal(w, Transact(outcome)) && Harmless(w, Transact(outcome))
    ensures Inv(Next(w, Transact(outcome)))
  {
    var w' := Next(w, Transact(outcome));
    TransactionNeverConflicts(w);
    if outcome.NotApplied? {
      DrainMoves(w, Free);
      SameViews(w, w');
    } else {
      forall p ensures PathOk(View(w', p), w'.drain, p) {
        if i :| 0 <= i < |w.drain.pending| && w.drain.pending[i].path == p {
          WrittenPath(w, w', i);
        } else {
          UnwrittenPath(w, w', p);
        }
      }
      assert forall i :: 0 <= i < |w.drain.pending| ==> BatchOk(w.store, w.drain.pending[i]);
    }
  }

  function BufferAt(s: StoreState, p: ActorPath): Option<PathBuffer> {
    if p in s.buffers then Some(s.buffers[p]) else None
  }

  lemma {:induction false} CommitByPath(s: StoreState, done: seq<FlushCompletion>)
    requires forall i, k :: 0 <= i < k < |done| ==> done[i].path != done[k].path
    ensures s.Commit(done).db == s.db && s.Commit(done).nextIngest == s.nextIngest
    ensures forall i :: 0 <= i < |done| && done[i].path in s.buffers ==>
              BufferAt(s.Commit(done), done[i].path) == CommitBuffer(s.buffers[done[i].path], done[i])
    ensures forall p :: (forall i :: 0 <= i < |done| ==> done[i].path != p) ==>
              BufferAt(s.Commit(done), p) == BufferAt(s, p)
    decreases |done|
  {
    if done != [] {
      var n := |done| - 1;
      CommitByPath(s, done[..n]);
      forall i | 0 <= i < n ensures done[..n][i] == done[i] {}
      assert BufferAt(s.Commit(done[..n]), done[n].path) == BufferAt(s, done[n].path);
    }
  }

  /** Moving the frontier inside what is stored keeps a buffer lined up and stored. */
  lemma FrontierMoves(b: PathBuffer, b': PathBuffer, j: JournalState, rows: PathRows, cut: Cut)
    requires Aligned(b, j, cut) && Stored(b, rows, cut.stored)
    requires b'.journal == b.journal && b.flushed <= b'.flushed <= cut.stored
    ensures Aligned(b', j, cut) && Stored(b', rows, cut.stored)
  {
  }

  /** The moved buffer, if it stays: only the frontier and the mark changed. */
  lemma CommitBufferKeeps(b: PathBuffer, done: FlushCompletion)
    ensures var after := CommitBuffer(b, done);
            if after.Some? then
              && after.value.journal == b.journal && after.value.flushed == done.capturedEnd
              && after.value.activating == b.activating
              && (after.value.dropWhenDurable ==> b.dropWhenDurable)
            else b.dropWhenDurable && |b.journal.entries| == done.capturedEnd
  {
  }

  lemma KeptView(b: PathBuffer, after: PathBuffer, v: PathView, p: ActorPath, cut: Cut)
    requires v.buffer == Some(b) && Aligned(b, v.journal, cut) && Stored(b, v.rows, cut.stored)
    requires !b.activating && (v.active ==> !b.dropWhenDurable)
    requires after.journal == b.journal && !after.activating && (after.dropWhenDurable ==> b.dropWhenDurable)
    requires b.flushed <= after.flushed <= cut.stored
    ensures PathOk(v.(buffer := Some(after)), Free, p)
  {
    FrontierMoves(b, after, v.journal, v.rows, cut);
    assert Fits(after, v.(buffer := Some(after)), Free, p, cut);
  }

  lemma CommittedCut(b: PathBuffer, v: PathView, p: ActorPath, done: FlushCompletion, cut: Cut)
    requires v.buffer == Some(b) && Aligned(b, v.journal, cut) && Stored(b, v.rows, cut.stored)
    requires !b.activating && (v.active ==> !b.dropWhenDurable)
    requires b.flushed <= done.capturedEnd <= cut.stored
    ensures PathOk(v.(buffer := CommitBuffer(b, done)), Free, p)
  {
    CommitBufferKeeps(b, done);
    if CommitBuffer(b, done).Some? {
      KeptView(b, CommitBuffer(b, done).value, v, p, cut);
    } else {
      FullyStoredIsDurable(b, v.journal, v.rows, cut);
    }
  }

  lemma CommittedView(v: PathView, p: ActorPath, done: seq<FlushCompletion>, i: nat)
    requires PathOk(v, Written(done), p) && v.buffer.Some? && !v.buffer.value.activating
    requires i < |done| && done[i].path == p
    requires v.buffer.value.flushed <= done[i].capturedEnd <= |v.buffer.value.journal.entries|
    ensures PathOk(v.(buffer := CommitBuffer(v.buffer.value, done[i])), Free, p)
  {
    var cut :| Fits(v.buffer.value, v, Written(done), p, cut);
    assert done[i].capturedEnd <= cut.stored;
    CommittedCut(v.buffer.value, v, p, done[i], cut);
  }

  lemma CommittedPath(w: World, i: nat)
    requires Inv(w) && w.drain.Written? && i < |w.drain.done|
    ensures var p := w.drain.done[i].path;
            PathOk(View(Next(w, CommitFrontiers), p), Free, p)
  {
    var w', p := Next(w, CommitFrontiers), w.drain.done[i].path;
    assert PathOk(View(w, p), w.drain, p);
    CommittedView(View(w, p), p, w.drain.done, i);
    CommitByPath(w.store, w.drain.done);
    assert View(w', p) == View(w, p).(buffer := BufferAt(w'.store, p));
  }

  lemma UncommittedPath(w: World, p: ActorPath)
    requires Inv(w) && w.drain.Written?
    requires forall i :: 0 <= i < |w.drain.done| ==> w.drain.done[i].path != p
    ensures PathOk(View(Next(w, CommitFrontiers), p), Free, p)
  {
    var w' := Next(w, CommitFrontiers);
    assert View(w', p) == View(w, p) by {
      CommitByPath(w.store, w.drain.done);
      assert BufferAt(w'.store, p) == BufferAt(w.store, p);
    }
    assert PathOk(View(w, p), w.drain, p);
    QuietPath(w, w', p);
  }

  lemma CommitKeepsInv(w: World)
    requires Inv(w) && Legal(w, CommitFrontiers)
    ensures Inv(Next(w, CommitFrontiers))
  {
    CommitByPath(w.store, w.drain.done);
    forall p ensures PathOk(View(Next(w, CommitFrontiers), p), Free, p) {
      if i :| 0 <= i < |w.drain.done| && w.drain.done[i].path == p {
        CommittedPath(w, i);
      } else {
        UncommittedPath(w, p);
      }
    }
  }

  // ---- Passivation ----

  lemma PassivateCollectKeepsInv(w: World, p: ActorPath, pending: seq<PendingFlush>)
    requires Inv(w) && Legal(w, PassivateCollect(p, pending))
    ensures Inv(Next(w, PassivateCollect(p, pending)))
  {
    var w' := Next(w, PassivateCollect(p, pending));
    CollectedIsOk(w, Some(p), pending);
    DrainMoves(w, w'.drain);
    forall q ensures PathOk(View(w', q), w'.drain, q) {
      assert PathOk(View(w, q), w'.drain, q);
      assert View(w', q) == View(w, q).(active := View(w', q).active);
      Disowned(View(w, q), w'.drain, q, View(w', q).active);
    }
    assert pending == [] ==> !w.store.HasPending(p);
  }

  /** Losing an owner asks less of a path. */
  lemma Disowned(v: PathView, drain: Drain, p: ActorPath, active: bool)
    requires PathOk(v, drain, p) && (active ==> v.active)
    ensures PathOk(v.(active := active), drain, p)
  {
    if v.buffer.Some? && !v.buffer.value.activating {
      var cut :| Fits(v.buffer.value, v, drain, p, cut);
      assert Fits(v.buffer.value, v.(active := active), drain, p, cut);
    }
  }

  /** A buffer with nothing pending may go: the tables hold everything. */
  lemma ReleasedView(v: PathView, p: ActorPath, drain: Drain)
    requires PathOk(v, drain, p) && drain != Purging(p) && !v.active
    requires v.buffer.Some? && !v.buffer.value.activating ==>
               v.buffer.value.flushed >= |v.buffer.value.journal.entries|
    ensures Durable(v.rows, v.journal)
    ensures PathOk(v.(buffer := None), Free, p)
  {
    if v.buffer.Some? && !v.buffer.value.activating {
      var cut :| Fits(v.buffer.value, v, drain, p, cut);
      assert cut.stored == |v.buffer.value.journal.entries|;
      FullyStoredIsDurable(v.buffer.value, v.journal, v.rows, cut);
    }
  }

  lemma PassivateReleaseKeepsInv(w: World)
    requires Inv(w) && Legal(w, PassivateRelease)
    ensures Inv(Next(w, PassivateRelease))
  {
    var w', p := Next(w, PassivateRelease), w.drain.releasePath;
    forall q ensures PathOk(View(w', q), Free, q) {
      assert PathOk(View(w, q), w.drain, q);
      if q == p {
        ReleasedView(View(w, p), p, w.drain);
        assert View(w', p) == View(w, p).(buffer := None);
      } else {
        assert View(w', q) == View(w, q);
        QuietPath(w, w', q);
      }
    }
  }

  /** The drop marker changes nothing else; it may be set only without an owner. */
  lemma RemarkedView(v: PathView, p: ActorPath, drain: Drain, drain': Drain, drop: bool, active: bool)
    requires PathOk(v, drain, p) && v.buffer.Some? && !v.buffer.value.activating
    requires drop ==> !active
    requires drain != Purging(p) && drain' != Purging(p)
    requires forall n: nat :: Within(drain, p, n) ==> Within(drain', p, n)
    ensures PathOk(v.(buffer := Some(v.buffer.value.(dropWhenDurable := drop)), active := active), drain', p)
  {
    var b := v.buffer.value;
    var cut :| Fits(b, v, drain, p, cut);
    var v' := v.(buffer := Some(b.(dropWhenDurable := drop)), active := active);
    FrontierMoves(b, v'.buffer.value, v.journal, v.rows, cut);
    assert Fits(v'.buffer.value, v', drain', p, cut);
  }

  lemma PassivateMarkKeepsInv(w: World)
    requires Inv(w) && Legal(w, PassivateMark)
    ensures Inv(Next(w, PassivateMark))
  {
    var w', p := Next(w, PassivateMark), w.drain.markPath;
    forall q ensures PathOk(View(w', q), w'.drain, q) {
      assert PathOk(View(w, q), w.drain, q);
      if q == p && w.store.Warm(p) {
        RemarkedView(View(w, p), p, w.drain, w'.drain, true, false);
        assert View(w', p) ==
               View(w, p).(buffer := Some(w.store.buffers[p].(dropWhenDurable := true)), active := false);
      } else if q != p {
        assert View(w', q) == View(w, q);
        Relaxed(View(w, q), w.drain, w'.drain, q);
      }
    }
    forall i | 0 <= i < |w.drain.suffix| ensures BatchOk(w'.store, w.drain.suffix[i]) {
      assert BatchOk(w.store, w.drain.suffix[i]);
    }
  }

  // ---- Activation ----

  lemma LoadWarmKeepsInv(w: World, p: ActorPath)
    requires Inv(w) && Legal(w, LoadWarm(p))
    ensures Inv(Next(w, LoadWarm(p)))
  {
    var w' := Next(w, LoadWarm(p));
    forall q ensures PathOk(View(w', q), Free, q) {
      assert PathOk(View(w, q), Free, q);
      if q == p {
        RemarkedView(View(w, p), p, Free, Free, false, true);
        assert View(w', p) ==
               View(w, p).(buffer := Some(w.store.buffers[p].(dropWhenDurable := false)), active := true);
      } else {
        assert View(w', q) == View(w, q);
      }
    }
  }

  lemma SeedPlaceKeepsInv(w: World, p: ActorPath)
    requires Inv(w) && Legal(w, SeedPlace(p))
    ensures Inv(Next(w, SeedPlace(p)))
  {
    var w' := Next(w, SeedPlace(p));
    forall q ensures PathOk(View(w', q), w'.drain, q) {
      assert PathOk(View(w, q), Free, q);
      if q != p {
        assert View(w', q) == View(w, q);
        QuietPath(w, w', q);
      }
    }
  }

  /** Only the drain state moves, between two states that ask nothing of any path. */
  lemma QuietStep(w: World, drain: Drain)
    requires Inv(w) && !w.drain.Purging? && !drain.Purging?
    requires forall p, n: nat :: Within(drain, p, n)
    ensures forall p :: PathOk(View(w.(drain := drain), p), drain, p)
  {
    DrainMoves(w, drain);
    SameViews(w, w.(drain := drain));
  }

  /** Installing the rebuilt journal, or removing the placeholder of a path with nothing stored. */
  lemma SeededView(v: PathView, p: ActorPath, drain: Drain)
    requires PathOk(v, drain, p) && drain != Purging(p) && v.journal.Wf()
    requires v.buffer.Some? && v.buffer.value.activating
    ensures var records, latest := StoredEvents(v.rows), LatestRow(v.rows.snapshots);
            && (records == [] && latest == None ==>
                  v.journal.entries == [] && PathOk(v.(buffer := None), Answering(p), p))
            && PathOk(v.(buffer := Some(DurableBuffer(RebuildJournal(records, latest)))), Answering(p), p)
  {
    RebuiltAligns(v.journal, v.rows);
    StoredMatches(v.journal, v.rows);
    var b := DurableBuffer(RebuildJournal(StoredEvents(v.rows), LatestRow(v.rows.snapshots)));
    var n := |b.journal.entries|;
    assert Fits(b, v.(buffer := Some(b)), Answering(p), p, Cut(n, |v.journal.entries|, n));
  }

  /** What the install does to the views. */
  lemma SeedPutViews(w: World, q: ActorPath)
    requires Legal(w, SeedPut) && w.store.Activating(w.drain.rowsPath)
    ensures var p, nothing := w.drain.rowsPath, w.drain.records == [] && w.drain.latest == None;
            View(Next(w, SeedPut), q) ==
            if q != p then View(w, q)
            else View(w, p).(buffer := if nothing then None
                                       else Some(DurableBuffer(RebuildJournal(w.drain.records, w.drain.latest))))
  {
  }

  lemma SeedPutPath(w: World, q: ActorPath)
    requires Inv(w) && Legal(w, SeedPut)
    ensures PathOk(View(Next(w, SeedPut), q), Answering(w.drain.rowsPath), q)
    ensures q == w.drain.rowsPath && w.drain.records == [] && w.drain.latest == None ==>
              w.spec.Of(q).entries == []
  {
    SeedPutViews(w, q);
    assert PathOk(View(w, q), w.drain, q);
    if q == w.drain.rowsPath {
      assert JournalOk(w.spec.Of(q), w.spec.nextIngest);
      SeededView(View(w, q), q, w.drain);
    } else {
      QuietPath(w, Next(w, SeedPut), q);
    }
  }

  lemma SeedPutKeepsInv(w: World)
    requires Inv(w) && Legal(w, SeedPut)
    ensures Inv(Next(w, SeedPut))
  {
    forall q ensures PathOk(View(Next(w, SeedPut), q), Answering(w.drain.rowsPath), q) {
      SeedPutPath(w, q);
    }
    SeedPutPath(w, w.drain.rowsPath);
  }

  /** Complete tables read back as the journal's events and latest snapshot. */
  lemma StoredMatches(j: JournalState, rows: PathRows)
    requires j.Wf() && Durable(rows, j)
    ensures StoredEvents(rows) == j.Events() && LatestRow(rows.snapshots) == j.Latest()
    ensures StoredEvents(rows) == [] && LatestRow(rows.snapshots) == None ==> j.entries == []
  {
    assert j.entries[..|j.entries|] == j.entries;
    StoredEventsDense(rows, j.Events());
  }

  lemma LoadAnswerKeepsInv(w: World)
    requires Inv(w) && Legal(w, LoadAnswer)
    ensures Inv(Next(w, LoadAnswer))
  {
    var w', p := Next(w, LoadAnswer), w.drain.answerPath;
    forall q ensures PathOk(View(w', q), Free, q) {
      assert PathOk(View(w, q), w.drain, q);
      if q != p {
        assert View(w', q) == View(w, q);
        QuietPath(w, w', q);
      } else if w.store.Warm(p) {
        RemarkedView(View(w, p), p, w.drain, Free, w.store.buffers[p].dropWhenDurable, true);
        assert View(w', p) == View(w, p).(active := true);
      }
    }
  }

  // ---- Purge ----

  lemma PurgedView(v: PathView, p: ActorPath)
    requires PathOk(v, Free, p)
    ensures PathOk(v.(rows := NO_ROWS), Purging(p), p)
  {
    if v.buffer.Some? && !v.buffer.value.activating {
      var cut :| Fits(v.buffer.value, v, Free, p, cut);
      assert Fits(v.buffer.value, v.(rows := NO_ROWS), Purging(p), p, cut);
    }
  }

  lemma PurgeRowsKeepsInv(w: World, p: ActorPath)
    requires Inv(w) && Legal(w, PurgeRows(p))
    ensures Inv(Next(w, PurgeRows(p)))
  {
    var w' := Next(w, PurgeRows(p));
    forall q ensures PathOk(View(w', q), w'.drain, q) {
      assert PathOk(View(w, q), Free, q);
      if q != p {
        assert View(w', q) == View(w, q);
        Relaxed(View(w, q), Free, w'.drain, q);
      } else {
        PurgedView(View(w, p), p);
        assert View(w', p) == View(w, p).(rows := NO_ROWS);
      }
    }
  }

  /** A half purge keeps a path's view fine exactly where it is harmless. */
  lemma HalfPurgedView(w: World, p: ActorPath)
    requires Inv(w) && w.drain.Free?
    ensures View(Next(w, PurgeEventsOnly(p)), p) == View(w, p).(rows := View(w, p).rows.(events := map[]))
    ensures PathOk(View(Next(w, PurgeEventsOnly(p)), p), Free, p) <==> HalfPurgeHarmless(w, p)
  {
    var v, v' := View(w, p), View(Next(w, PurgeEventsOnly(p)), p);
    assert PathOk(v, Free, p);
    if w.store.Warm(p) {
      HalfPurgedBuffer(v, w.store.buffers[p], p, CutOf(w, p));
    } else {
      HalfPurgedTables(v);
      assert v'.journal == v.journal && v'.buffer == v.buffer;
    }
  }

  lemma HalfPurgedTables(v: PathView)
    requires Durable(v.rows, v.journal)
    ensures Durable(v.rows.(events := map[]), v.journal) <==> v.rows.events == map[]
  {
  }

  lemma HalfPurgedBuffer(v: PathView, b: PathBuffer, p: ActorPath, cut: Cut)
    requires v.buffer == Some(b) && !b.activating && Fits(b, v, Free, p, cut)
    requires v.active ==> !b.dropWhenDurable
    ensures PathOk(v.(rows := v.rows.(events := map[])), Free, p) <==>
            v.rows.events == map[] || exists n :: EventlessPast(b, v.rows.snapshots, n)
  {
    var v' := v.(rows := v.rows.(events := map[]));
    assert RowMap([]) == map[];
    if v.rows.events == map[] {
      assert v' == v;
    } else if n :| EventlessPast(b, v.rows.snapshots, n) {
      assert Fits(b, v', Free, p, cut.(stored := n)) by { AlignmentIgnoresStored(b, v.journal, cut, n); }
    } else if PathOk(v', Free, p) {
      var cut' :| Fits(b, v', Free, p, cut');
      var events := EventsOf(b.journal.entries[..cut'.stored]);
      assert events != [] ==> 0 in RowMap(events);
      assert EventlessPast(b, v.rows.snapshots, cut'.stored);
    }
  }

  lemma HalfPurgeKeepsInv(w: World, p: ActorPath)
    requires Inv(w) && Legal(w, PurgeEventsOnly(p)) && HalfPurgeHarmless(w, p)
    ensures Inv(Next(w, PurgeEventsOnly(p)))
  {
    var w' := Next(w, PurgeEventsOnly(p));
    forall q ensures PathOk(View(w', q), Free, q) {
      assert PathOk(View(w, q), Free, q);
      if q == p { HalfPurgedView(w, p); } else { assert View(w', q) == View(w, q); }
    }
  }

  lemma PurgedPath(w: World, q: ActorPath)
    requires w.drain.Purging? && PathOk(View(w, q), w.drain, q)
    ensures var w' := Next(w, PurgeBuffer); PathOk(View(w', q), w'.drain, q)
  {
    var w' := Next(w, PurgeBuffer);
    if q != w.drain.purgePath {
      assert View(w', q) == View(w, q);
      Relaxed(View(w, q), w.drain, w'.drain, q);
    } else {
      assert View(w', q) == PathView(None, NO_ROWS, EMPTY, q in w.active);
      assert EventsOf([]) == [] && RowMap([]) == map[];
    }
  }

  lemma PurgeBufferKeepsInv(w: World)
    requires Inv(w) && Legal(w, PurgeBuffer)
    ensures Inv(Next(w, PurgeBuffer))
  {
    PurgeKeepsMemOk(w.spec, w.drain.purgePath);
    forall q ensures PathOk(View(Next(w, PurgeBuffer), q), Free, q) {
      PurgedPath(w, q);
    }
  }

  // ---- Process loss ----

  /**
   What SQLite holds of a path is an acknowledged past of its journal: cut the in-memory journal
   after some entry, and the stored events and latest stored snapshot are exactly those of the cut.
   */
  lemma StoredIsAnAcknowledgedPast(w: World, p: ActorPath) returns (c: nat)
    requires Inv(w)
    ensures var j, rows := w.spec.Of(p), RowsOf(w.store.db, p);
            && c <= |j.entries|
            && rows.events == RowMap(EventsOf(j.entries[..c]))
            && StoredEvents(rows) == EventsOf(j.entries[..c])
            && LatestRow(rows.snapshots) == LastSnapshot(j.entries[..c])
            && EntriesOk(j.entries[..c])
  {
    var v := View(w, p);
    assert PathOk(v, w.drain, p);
    assert JournalOk(v.journal, w.spec.nextIngest);
    if w.drain == Purging(p) {
      c := 0;
    } else if w.store.Warm(p) {
      var cut := CutOf(w, p);
      AlignedCut(w.store.buffers[p], v.journal, cut, cut.stored);
      c := cut.specBase + (cut.stored - cut.base);
    } else {
      c := |v.journal.entries|;
    }
    EntriesOkPrefix(v.journal.entries, c);
    StoredEventsDense(v.rows, EventsOf(v.journal.entries[..c]));
  }

  /** A journal rebuilt from the rows of an acknowledged past, over those rows. */
  lemma RebuiltPast(j: JournalState, rows: PathRows, c: nat, bound: nat)
    requires JournalOk(j, bound) && c <= |j.entries| && EntriesOk(j.entries[..c])
    requires rows.events == RowMap(EventsOf(j.entries[..c]))
    requires LatestRow(rows.snapshots) == LastSnapshot(j.entries[..c])
    ensures var j' := RebuildJournal(EventsOf(j.entries[..c]), LastSnapshot(j.entries[..c]));
            && j'.Wf() && Durable(rows, j') && j'.Events() == EventsOf(j.entries[..c])
            && j'.Events() <= j.Events()
  {
    var past := j.entries[..c];
    LastSnapshotFits(past);
    RebuildShape(EventsOf(past), LastSnapshot(past));
    var j' := RebuildJournal(EventsOf(past), LastSnapshot(past));
    assert j'.entries[..|j'.entries|] == j'.entries;
    SplitAt(j.entries, c);
  }

  lemma PrefixKeepsJournalOk(a: seq<JournaledEvent>, b: seq<JournaledEvent>, bound: nat)
    requires a <= b && OriginsUnique(b)
    requires forall i, k :: 0 <= i < k < |b| ==> b[i].ingestSeq < b[k].ingestSeq
    requires forall i :: 0 <= i < |a| ==> a[i].ingestSeq < bound
    ensures OriginsUnique(a) && ArrivalsRise(a, bound)
  {
  }

  /** A reopened path: its rebuilt journal is what the tables hold, and keeps the shape. */
  lemma RecoveredPath(w: World, p: ActorPath)
    requires Inv(w)
    ensures var j, j', rows := w.spec.Of(p), Recovered(w.store.db).Of(p), RowsOf(w.store.db, p);
            && JournalOk(j', Reopen(w.store.db).nextIngest)
            && Durable(rows, j')
            && j'.Events() <= j.Events()
  {
    var j, j' := w.spec.Of(p), Recovered(w.store.db).Of(p);
    var c := StoredIsAnAcknowledgedPast(w, p);
    assert JournalOk(j, w.spec.nextIngest);
    RebuiltPast(j, RowsOf(w.store.db, p), c, w.spec.nextIngest);
    assert j' == RebuildJournal(EventsOf(j.entries[..c]), LastSnapshot(j.entries[..c])) by {
      if p !in w.store.db {
        assert EventsOf(j.entries[..c]) == [] && LastSnapshot(j.entries[..c]) == None;
      }
    }
    StoredArrivalsBelow(w.store.db, p, j'.Events());
    PrefixKeepsJournalOk(j'.Events(), j.Events(), Reopen(w.store.db).nextIngest);
  }

  lemma StoredArrivalsBelow(db: Database, p: ActorPath, records: seq<JournaledEvent>)
    requires RowsOf(db, p).events == RowMap(records)
    ensures forall i :: 0 <= i < |records| ==> records[i].ingestSeq < Reopen(db).nextIngest
  {
    forall i | 0 <= i < |records| ensures records[i].ingestSeq < Reopen(db).nextIngest {
      assert i in RowsOf(db, p).events;
      assert db[p].events[i].ingestSeq in StoredArrivals(db);
    }
  }

  lemma RestartKeepsInv(w: World)
    requires Inv(w)
    ensures Inv(Next(w, Restart))
  {
    var w' := Next(w, Restart);
    forall p ensures JournalOk(w'.spec.Of(p), w'.spec.nextIngest) { RecoveredPath(w, p); }
    forall p, q | p != q ensures ArrivalsApart(w'.spec.Of(p).Events(), w'.spec.Of(q).Events()) {
      RecoveredPath(w, p);
      RecoveredPath(w, q);
      assert ArrivalsApart(w.spec.Of(p).Events(), w.spec.Of(q).Events());
    }
    forall p ensures PathOk(View(w', p), Free, p) { RecoveredPath(w, p); }
  }

  // ---- Every run ----

  predicate IsWrite(step: Step) {
    step.Append? || step.AppendSnapshot? || step.CatchUpLook? || step.CatchUpQuery? || step.CatchUpAppend?
  }

  predicate IsFlush(step: Step) {
    || step.Collect? || step.Transact? || step.CommitFrontiers?
    || step.PassivateCollect? || step.PassivateRelease? || step.PassivateMark?
  }

  predicate IsLoad(step: Step) {
    step.LoadWarm? || step.SeedPlace? || step.SeedRead? || step.SeedFail? || step.SeedPut? || step.LoadAnswer?
  }

  lemma WriteKeepsInv(w: World, step: Step)
    requires Inv(w) && Legal(w, step) && IsWrite(step)
    ensures Inv(Next(w, step))
  {
    match step {
      case Append(p, events) => AppendKeepsInv(w, p, events);
      case AppendSnapshot(p, seqNo, state, nowMs) => AppendSnapshotKeepsInv(w, p, seqNo, state, nowMs);
      case CatchUpLook(p, fact) => CatchUpLookKeepsInv(w, p, fact);
      case CatchUpQuery(p, ok) => CatchUpQueryKeepsInv(w, p, ok);
      case CatchUpAppend(p) => CatchUpAppendKeepsInv(w, p);
    }
  }

  lemma FlushKeepsInv(w: World, step: Step)
    requires Inv(w) && Legal(w, step) && Harmless(w, step) && IsFlush(step)
    ensures Inv(Next(w, step))
  {
    match step {
      case Collect(pending) => CollectKeepsInv(w, pending);
      case Transact(outcome) => TransactKeepsInv(w, outcome);
      case CommitFrontiers => CommitKeepsInv(w);
      case PassivateCollect(p, pending) => PassivateCollectKeepsInv(w, p, pending);
      case PassivateRelease => PassivateReleaseKeepsInv(w);
      case PassivateMark => PassivateMarkKeepsInv(w);
    }
  }

  lemma LoadKeepsInv(w: World, step: Step)
    requires Inv(w) && Legal(w, step) && IsLoad(step)
    ensures Inv(Next(w, step))
  {
    match step {
      case LoadWarm(p) => LoadWarmKeepsInv(w, p);
      case SeedPlace(p) => SeedPlaceKeepsInv(w, p);
      case SeedRead => QuietStep(w, Next(w, step).drain);
      case SeedFail => QuietStep(w, Free);
      case SeedPut => SeedPutKeepsInv(w);
      case LoadAnswer => LoadAnswerKeepsInv(w);
    }
  }

  lemma ScanKeepsInv(w: World, step: Step)
    requires Inv(w) && Legal(w, step) && (step.ScanRows? || step.ScanAnswer?)
    ensures Inv(Next(w, step))
  {
    QuietStep(w, Next(w, step).drain);
  }

  lemma StepKeepsInv(w: World, step: Step)
    requires Inv(w) && Legal(w, step) && Harmless(w, step)
    ensures Inv(Next(w, step))
  {
    if IsWrite(step) {
      WriteKeepsInv(w, step);
    } else if IsFlush(step) {
      FlushKeepsInv(w, step);
    } else if IsLoad(step) {
      LoadKeepsInv(w, step);
    } else {
      match step {
        case PurgeRows(p) => PurgeRowsKeepsInv(w, p);
        case PurgeEventsOnly(p) => HalfPurgeKeepsInv(w, p);
        case PurgeBuffer => PurgeBufferKeepsInv(w);
        case Restart => RestartKeepsInv(w);
        case _ => ScanKeepsInv(w, step);
      }
    }
  }

  /**
   A run the code can take in which every purge that failed half-way was harmless and no flush
   wrote a snapshot below a stored one.
   */
  ghost predicate LegalRun(w: World, steps: seq<Step>)
    decreases |steps|, 0
  {
    steps == [] ||
    var n := |steps| - 1;
    && LegalRun(w, steps[..n])
    && Legal(Run(w, steps[..n]), steps[n]) && Harmless(Run(w, steps[..n]), steps[n])
  }

  ghost function Run(w: World, steps: seq<Step>): World
    requires LegalRun(w, steps)
    decreases |steps|, 1
  {
    if steps == [] then w
    else
      var n := |steps| - 1;
      Next(Run(w, steps[..n]), steps[n])
  }

  /** A store opened over an empty database beside an empty in-memory store. */
  ghost function Opened(): World {
    World(Reopen(map[]), Free, Recovered(map[]), {}, map[])
  }

  lemma OpenedOk()
    ensures Inv(Opened())
  {
    var w := Opened();
    forall p ensures w.spec.Of(p) == EMPTY {}
    assert RowMap(EventsOf([])) == map[];
    forall p ensures PathOk(View(w, p), Free, p) {
      assert View(w, p).rows == NO_ROWS;
      assert Durable(NO_ROWS, EMPTY);
    }
  }

  lemma {:induction false} RunsFrom(w: World, steps: seq<Step>)
    requires Inv(w) && LegalRun(w, steps)
    ensures Inv(Run(w, steps))
    decreases |steps|
  {
    if steps != [] {
      var n := |steps| - 1;
      RunsFrom(w, steps[..n]);
      StepKeepsInv(Run(w, steps[..n]), steps[n]);
    }
  }

  /** The invariant holds after every legal run from an opened store, restarts included. */
  lemma RunsKeepInv(steps: seq<Step>)
    requires LegalRun(Opened(), steps)
    ensures Inv(Run(Opened(), steps))
  {
    OpenedOk();
    RunsFrom(Opened(), steps);
  }

  lemma {:induction false} RunPrefix(w: World, steps: seq<Step>, n: nat)
    requires LegalRun(w, steps) && n <= |steps|
    ensures LegalRun(w, steps[..n])
    ensures n < |steps| ==>
              && Legal(Run(w, steps[..n]), steps[n]) && Harmless(Run(w, steps[..n]), steps[n])
              && LegalRun(w, steps[..n + 1])
              && Run(w, steps[..n + 1]) == Next(Run(w, steps[..n]), steps[n])
    decreases |steps|
  {
    if n < |steps| {
      var m := |steps| - 1;
      if n < m {
        RunPrefix(w, steps[..m], n);
        assert steps[..m][..n] == steps[..n] && steps[..m][..n + 1] == steps[..n + 1];
      } else {
        assert steps[..n + 1] == steps;
      }
    } else {
      assert steps[..n] == steps;
    }
  }

  lemma LastStep(w: World, steps: seq<Step>)
    requires steps != [] && LegalRun(w, steps)
    ensures var n := |steps| - 1;
            && LegalRun(w, steps[..n]) && Legal(Run(w, steps[..n]), steps[n])
            && Harmless(Run(w, steps[..n]), steps[n])
            && Run(w, steps) == Next(Run(w, steps[..n]), steps[n])
  {
  }

  lemma {:induction false} RunConcat(w: World, a: seq<Step>, b: seq<Step>)
    requires LegalRun(w, a) && LegalRun(Run(w, a), b)
    ensures LegalRun(w, a + b) && Run(w, a + b) == Run(Run(w, a), b)
    decreases |b|
  {
    if b == [] {
      assert a + b == a;
    } else {
      var n := |b| - 1;
      LastStep(Run(w, a), b);
      RunConcat(w, a, b[..n]);
      assert a + b == a + b[..n] + [b[n]];
      RunExtends(w, a + b[..n], b[n]);
    }
  }

  /** One more legal step is a longer run. */
  lemma RunExtends(w: World, steps: seq<Step>, step: Step)
    requires LegalRun(w, steps) && Legal(Run(w, steps), step) && Harmless(Run(w, steps), step)
    ensures LegalRun(w, steps + [step]) && Run(w, steps + [step]) == Next(Run(w, steps), step)
  {
    assert (steps + [step])[..|steps|] == steps;
  }
}
