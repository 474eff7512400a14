/** What was once stored stays stored: the lower bound on what a process loss leaves. */
module Durability {
  import opened Wrappers
  import opened Journals
  import opened MemoryStore
  import opened Rows
  import opened WriteBehind
  import opened Protocol
  import opened ProtocolInvariant
  import opened ProtocolTheorems
  import opened ProtocolLimits

  /** The later tables hold every earlier row, and a latest snapshot anchored no lower. */
  ghost predicate Kept(a: PathRows, b: PathRows) {
    && (forall k :: k in a.events ==> k in b.events && b.events[k] == a.events[k])
    && (LatestRow(a.snapshots).Some? ==>
          LatestRow(b.snapshots).Some? && LatestRow(a.snapshots).value.seqNo <= LatestRow(b.snapshots).value.seqNo)
  }

  lemma UpsertKeeps(snapshots: map<nat, Json>, s: Snapshot)
    ensures LatestRow(snapshots).Some? ==>
              var after := LatestRow(snapshots[s.seqNo := s.state]);
              after.Some? && LatestRow(snapshots).value.seqNo <= after.value.seqNo
  {
    var after := snapshots[s.seqNo := s.state];
    if LatestRow(snapshots).Some? {
      assert LatestRow(snapshots).value.seqNo in after.Keys;
    }
  }

  lemma WriteKeeps(rows: PathRows, batch: PendingFlush)
    requires WriteBatch(rows, batch).Some?
    ensures Kept(rows, WriteBatch(rows, batch).value)
  {
    InsertAllHolds(rows.events, batch.events);
    if batch.snapshot.Some? { UpsertKeeps(rows.snapshots, batch.snapshot.value); }
  }

  /** No purge of the path begins. */
  predicate Spares(step: Step, p: ActorPath) {
    !(step.PurgeRows? && step.path == p) && !(step.PurgeEventsOnly? && step.path == p)
  }

  /** Outside a transaction the tables of a spared path do not change. */
  lemma RowsUntouched(w: World, step: Step, p: ActorPath)
    requires Legal(w, step) && Spares(step, p) && !step.Transact?
    ensures RowsOf(Next(w, step).store.db, p) == RowsOf(w.store.db, p)
  {
    if step.CommitFrontiers? { CommitTouchesNoRow(w.store, w.drain.done); }
  }

  lemma {:induction false} CommitTouchesNoRow(s: StoreState, done: seq<FlushCompletion>)
    ensures s.Commit(done).db == s.db
    decreases |done|
  {
    if done != [] { CommitTouchesNoRow(s, done[..|done| - 1]); }
  }

  lemma TransactionKeeps(db: Database, pending: seq<PendingFlush>, p: ActorPath)
    requires DistinctPaths(pending) && WriteAll(db, pending).Some?
    ensures Kept(RowsOf(db, p), RowsOf(WriteAll(db, pending).value, p))
  {
    WriteAllByPath(db, pending);
    if i :| 0 <= i < |pending| && pending[i].path == p {
      assert Some(RowsOf(WriteAll(db, pending).value, pending[i].path)) ==
             WriteBatch(RowsOf(db, pending[i].path), pending[i]);
      WriteKeeps(RowsOf(db, p), pending[i]);
    }
  }

  lemma StepKeepsRows(w: World, step: Step, p: ActorPath)
    requires PhaseOk(w) && Legal(w, step) && Spares(step, p)
    ensures Kept(RowsOf(w.store.db, p), RowsOf(Next(w, step).store.db, p))
  {
    if step.Transact? {
      if WriteAll(w.store.db, w.drain.pending).Some? { TransactionKeeps(w.store.db, w.drain.pending, p); }
    } else {
      RowsUntouched(w, step, p);
    }
  }

  lemma {:induction false} RunKeepsRows(w: World, steps: seq<Step>, p: ActorPath)
    requires Inv(w) && LegalRun(w, steps)
    requires forall i :: 0 <= i < |steps| ==> Spares(steps[i], p)
    ensures Kept(RowsOf(w.store.db, p), RowsOf(Run(w, steps).store.db, p))
    decreases |steps|
  {
    if steps != [] {
      var n := |steps| - 1;
      forall i | 0 <= i < n ensures Spares(steps[..n][i], p) { assert steps[..n][i] == steps[i]; }
      RunKeepsRows(w, steps[..n], p);
      RunsFrom(w, steps[..n]);
      StepKeepsRows(Run(w, steps[..n]), steps[n], p);
    }
  }

  /** Rows kept are records kept. */
  lemma RowsKeptAreRecordsKept(a: seq<JournaledEvent>, b: seq<JournaledEvent>)
    requires Dense(a) && Dense(b)
    requires forall k :: k in RowMap(a) ==> k in RowMap(b) && RowMap(b)[k] == RowMap(a)[k]
    ensures a <= b
  {
    assert |b| < |a| ==> |b| in RowMap(a);
    forall i | 0 <= i < |a| ensures a[i] == b[i] {
      assert i in RowMap(a) && i in RowMap(b);
      RowRoundTrip(a[i], b[i]);
    }
  }

  /** The later journal begins with the earlier one's events and has no lower latest snapshot. */
  ghost predicate Continues(earlier: JournalState, later: JournalState) {
    && earlier.Events() <= later.Events()
    && (earlier.Latest().Some? ==>
          later.Latest().Some? && earlier.Latest().value.seqNo <= later.Latest().value.seqNo)
  }

  /** The reopened journal of a path stands on its tables. */
  ghost predicate StandsOn(j: JournalState, rows: PathRows) {
    Durable(rows, j) && exists bound :: JournalOk(j, bound)
  }

  lemma RestartRecovers(w: World)
    ensures Next(w, Restart).spec == Recovered(w.store.db)
  {
  }

  lemma RecoveredStands(w: World, p: ActorPath)
    requires Inv(w)
    ensures StandsOn(Recovered(w.store.db).Of(p), RowsOf(w.store.db, p))
  {
    RecoveredPath(w, p);
  }

  /**
   Once a path is stored to its end, as a reported flush leaves it, no later step short of a purge
   of the path can lose it: after a process loss at any later point its earlier events are still
   the first of the journal, and the latest snapshot is anchored no lower.
   */
  lemma StoredSurvives(w: World, steps: seq<Step>, p: ActorPath)
    requires Inv(w) && LegalRun(w, steps)
    requires forall i :: 0 <= i < |steps| ==> Spares(steps[i], p)
    requires Durable(RowsOf(w.store.db, p), w.spec.Of(p))
    ensures Continues(w.spec.Of(p), Next(Run(w, steps), Restart).spec.Of(p))
  {
    RunKeepsRows(w, steps, p);
    SpecStands(w, p);
    RunsFrom(w, steps);
    RecoveredStands(Run(w, steps), p);
    RestartRecovers(Run(w, steps));
    StoredThenRecovered(w.spec.Of(p), RowsOf(w.store.db, p),
                        Recovered(Run(w, steps).store.db).Of(p), RowsOf(Run(w, steps).store.db, p));
  }

  lemma SpecStands(w: World, p: ActorPath)
    requires Inv(w) && Durable(RowsOf(w.store.db, p), w.spec.Of(p))
    ensures StandsOn(w.spec.Of(p), RowsOf(w.store.db, p))
  {
    assert JournalOk(w.spec.Of(p), w.spec.nextIngest);
  }

  lemma StoredThenRecovered(j: JournalState, rows: PathRows, j': JournalState, rows': PathRows)
    requires StandsOn(j, rows) && StandsOn(j', rows') && Kept(rows, rows')
    ensures Continues(j, j')
  {
    StoredMatches(j, rows);
    StoredMatches(j', rows');
    assert j.entries[..|j.entries|] == j.entries && j'.entries[..|j'.entries|] == j'.entries;
    RowsKeptAreRecordsKept(j.Events(), j'.Events());
  }

  lemma FlushedIsStored(w: World, pending: seq<PendingFlush>, p: ActorPath)
    requires Inv(w) && Legal(w, Collect(pending)) && AllLand(w.store.db, pending)
    ensures Durable(RowsOf(Flushed(w, pending).store.db, p), w.spec.Of(p))
  {
    FlushLeavesNothingUnflushed(w, pending, p);
    if w.store.HasPending(p) {
      var i :| 0 <= i < |pending| && pending[i].path == p;
      assert pending[i] == w.store.PendingFor(p);
    }
  }

  /** What a reported flush acknowledged survives every later process loss. */
  lemma FlushedSurvives(w: World, pending: seq<PendingFlush>, steps: seq<Step>, p: ActorPath)
    requires Inv(w) && Legal(w, Collect(pending)) && AllLand(w.store.db, pending)
    requires LegalRun(Flushed(w, pending), steps) && forall i :: 0 <= i < |steps| ==> Spares(steps[i], p)
    ensures Continues(w.spec.Of(p), Next(Run(Flushed(w, pending), steps), Restart).spec.Of(p))
  {
    FlushedIsStored(w, pending, p);
    FlushedKeepsInv(w, pending);
    StoredSurvives(Flushed(w, pending), steps, p);
  }
}
