/**
 A purge whose second delete fails (src/journal_daow.rs): exactly when frontier and later answers
 stay right, a reachable store where they do not, and what goes wrong there.
 */
module HalfPurges {
  import opened Wrappers
  import opened Journals
  import opened MemoryStore
  import opened Rows
  import opened WriteBehind
  import opened Protocol
  import opened ProtocolInvariant
  import opened ProtocolTheorems
  import opened ProtocolLimits

  /** A frontier at or below what the tables hold of its buffer. */
  ghost predicate FrontierRight(w: World, p: ActorPath) {
    w.store.Warm(p) ==>
      exists stored: nat :: Stored(w.store.buffers[p], RowsOf(w.store.db, p), stored)
  }

  /** The frontier is right and every later call is answered as the in-memory store answers it. */
  ghost predicate StaysRight(w: World, p: ActorPath) {
    && FrontierRight(w, p)
    && forall steps: seq<Step>, step: Step :: Follows(w, steps, step) ==> Agrees(Run(w, steps), step)
  }

  ghost predicate Follows(w: World, steps: seq<Step>, step: Step) {
    LegalRun(w, steps) && Legal(Run(w, steps), step)
  }

  /**
   The two deletes of a purge are not one transaction. If the second fails the call reports an
   error and the buffer stays. Frontier and later answers stay right exactly when no event row
   was deleted, or the rows deleted were all still counted as unflushed and the stored snapshot
   precedes them.
   */
  lemma HalfPurgeStaysRightIff(w: World, p: ActorPath)
    requires Inv(w) && w.drain.Free?
    ensures StaysRight(Next(w, PurgeEventsOnly(p)), p) <==> HalfPurgeHarmless(w, p)
  {
    if HalfPurgeHarmless(w, p) {
      HalfPurgeKeepsInv(w, p);
      InvStaysRight(Next(w, PurgeEventsOnly(p)), p);
    } else if w.store.Warm(p) {
      HalfPurgedFrontier(w, p);
    } else {
      HalfPurgedLoad(w, p);
    }
  }

  lemma InvStaysRight(w: World, p: ActorPath)
    requires Inv(w) && w.drain.Free?
    ensures StaysRight(w, p)
  {
    if w.store.Warm(p) {
      var stored := FrontierCountsStored(w, p);
      assert Stored(w.store.buffers[p], RowsOf(w.store.db, p), stored);
    }
    forall steps: seq<Step>, step: Step | Follows(w, steps, step) ensures Agrees(Run(w, steps), step) {
      RunsFrom(w, steps);
      AnswersAgree(Run(w, steps), step);
    }
  }

  lemma HalfPurgedFrontier(w: World, p: ActorPath)
    requires w.drain.Free? && w.store.Warm(p) && !HalfPurgeHarmless(w, p)
    ensures !FrontierRight(Next(w, PurgeEventsOnly(p)), p)
  {
    var b, snapshots := w.store.buffers[p], RowsOf(w.store.db, p).snapshots;
    forall n: nat | b.flushed <= n <= |b.journal.entries|
      ensures !StoredThrough(RowsOf(Next(w, PurgeEventsOnly(p)).store.db, p), b.journal.entries, n)
    {
      assert !EventlessPast(b, snapshots, n);
      var events := EventsOf(b.journal.entries[..n]);
      assert events != [] ==> 0 in RowMap(events);
    }
  }

  /** A cold path answers its next load without its events. */
  lemma HalfPurgedLoad(w: World, p: ActorPath)
    requires Inv(w) && w.drain.Free? && !w.store.Warm(p) && RowsOf(w.store.db, p).events != map[]
    ensures var w' := Next(w, PurgeEventsOnly(p));
            Follows(w', SeedOf(p), LoadAnswer) && !Agrees(Run(w', SeedOf(p)), LoadAnswer)
  {
    var w' := Next(w, PurgeEventsOnly(p));
    assert PathOk(View(w, p), Free, p);
    ColdEvents(w.spec.Of(p), RowsOf(w.store.db, p));
    SeedRun(w', p);
    NothingToLoad(RowsOf(w'.store.db, p));
    SeededAnswer(w', p);
    assert SpecAnswer(Seeded(w', p), LoadAnswer) == Replayed(OrEmpty(w.spec.Load(p)));
  }

  lemma ColdEvents(j: JournalState, rows: PathRows)
    requires Durable(rows, j) && rows.events != map[]
    ensures j.Events() != []
  {
    assert j.entries[..|j.entries|] == j.entries;
    assert RowMap([]) == map[];
  }

  lemma NothingToLoad(rows: PathRows)
    requires rows.events == map[]
    ensures StoredEvents(rows) == []
  {
    assert RowMap([]) == map[];
    StoredEventsDense(rows, []);
  }

  lemma SeededAnswer(w: World, p: ActorPath)
    requires w.drain.Free? && !w.store.Warm(p) && StoredEvents(RowsOf(w.store.db, p)) == []
    ensures Legal(Seeded(w, p), LoadAnswer)
    ensures var answer := StoreAnswer(Seeded(w, p), LoadAnswer);
            answer.Replayed? && answer.replay.events == []
  {
    var latest := LatestRow(RowsOf(w.store.db, p).snapshots);
    if latest.Some? {
      var j := RebuildJournal([], latest);
      AppendSnapshotShape(RebuildEvents([]), latest.value.seqNo, latest.value.state, 0);
    }
  }

  /** After the buffer's flushed events were deleted, the next flush writes above a gap. */
  lemma NextFlushLeavesAGap(b: PathBuffer, p: ActorPath, rows: PathRows)
    requires b.journal.Wf() && b.flushed <= |b.journal.entries| && rows.events == map[]
    requires EventsOf(b.journal.entries[..b.flushed]) != []
    ensures var written := WriteBatch(rows, Capture(p, b.journal.entries, b.flushed, b.dropWhenDurable));
            written.Some? ==> 0 !in written.value.events
  {
    var entries := b.journal.entries;
    var batch := Capture(p, entries, b.flushed, b.dropWhenDurable);
    CutEvents(entries, b.flushed, |entries|);
    if InsertAll(rows.events, batch.events).Some? {
      InsertAllHolds(rows.events, batch.events);
    }
  }

  /** A path flushed with events in its journal is always harmed by a half purge. */
  lemma FlushedEventsAreHarmed(w: World, pending: seq<PendingFlush>, p: ActorPath)
    requires Inv(w) && Legal(w, Collect(pending)) && w.spec.Of(p).Events() != []
    ensures !HalfPurgeHarmless(Flushed(w, pending), p)
  {
    var w' := Flushed(w, pending);
    FlushLeavesNothingUnflushed(w, pending, p);
    assert 0 in RowMap(w.spec.Of(p).Events());
    if w'.store.Warm(p) {
      FlushedFrontier(w, pending, p);
      assert PathOk(View(w, p), w.drain, p);
      AlignedAgree(w.store.buffers[p], w.spec.Of(p), CutOf(w, p));
      NoEventlessPast(w'.store.buffers[p], RowsOf(w'.store.db, p).snapshots);
    }
  }

  lemma NoEventlessPast(b: PathBuffer, snapshots: map<nat, Json>)
    requires b.flushed >= |b.journal.entries| && b.journal.Events() != []
    ensures forall n :: !EventlessPast(b, snapshots, n)
  {
    assert b.journal.entries[..|b.journal.entries|] == b.journal.entries;
  }

  /** The three steps of an uninterrupted flush. */
  lemma FlushRun(w: World, pending: seq<PendingFlush>)
    requires Inv(w) && Legal(w, Collect(pending)) && pending != [] && AllLand(w.store.db, pending)
    ensures LegalRun(w, [Collect(pending), Transact(Applied), CommitFrontiers])
    ensures Run(w, [Collect(pending), Transact(Applied), CommitFrontiers]) == Flushed(w, pending)
  {
    var captured := InvAfter(w, Collect(pending));
    TransactionNeverConflicts(captured);
    RunExtends(w, [], Collect(pending));
    assert [] + [Collect(pending)] == [Collect(pending)];
    RunExtends(w, [Collect(pending)], Transact(Applied));
    assert [Collect(pending)] + [Transact(Applied)] == [Collect(pending), Transact(Applied)];
    RunExtends(w, [Collect(pending), Transact(Applied)], CommitFrontiers);
    assert [Collect(pending), Transact(Applied)] + [CommitFrontiers] ==
           [Collect(pending), Transact(Applied), CommitFrontiers];
  }

  lemma OnlyPending(s: StoreState, p: ActorPath)
    requires s.HasPending(p) && forall q :: q in s.buffers ==> q == p
    ensures s.IsCollected(None, [s.PendingFor(p)])
  {
    assert [s.PendingFor(p)][0].path == p;
  }

  /** The only buffer's suffix, written through. */
  lemma ThenFlushed(w: World, p: ActorPath) returns (steps: seq<Step>)
    requires Inv(w) && w.drain.Free? && w.store.HasPending(p) && forall q :: q in w.store.buffers ==> q == p
    requires w.spec.Of(p).Events() != [] && LatestRow(RowsOf(w.store.db, p).snapshots).None?
    ensures LegalRun(w, steps) && Run(w, steps).drain.Free? && !HalfPurgeHarmless(Run(w, steps), p)
  {
    var pending := [w.store.PendingFor(p)];
    OnlyPending(w.store, p);
    FlushRun(w, pending);
    FlushedEventsAreHarmed(w, pending, p);
    steps := [Collect(pending), Transact(Applied), CommitFrontiers];
  }

  lemma ThenAppended(w: World, p: ActorPath, event: Event) returns (steps: seq<Step>)
    requires Inv(w) && Writable(w, p) && !w.store.Activating(p) && w.store.buffers.Keys <= {p} && w.drain.Free?
    requires LatestRow(RowsOf(w.store.db, p).snapshots).None?
    ensures LegalRun(w, steps) && Run(w, steps).drain.Free? && !HalfPurgeHarmless(Run(w, steps), p)
  {
    var write := Step.Append(p, [event]);
    AppendKeepsInv(w, p, [event]);
    FirstEventPending(w, p, event);
    RunExtends(w, [], write);
    assert [] + [write] == [write];
    var rest := ThenFlushed(Next(w, write), p);
    RunConcat(w, [write], rest);
    steps := [write] + rest;
  }

  /** A first event, written through: load, append, flush. */
  lemma FirstEventFlushed(p: ActorPath, event: Event) returns (steps: seq<Step>)
    ensures LegalRun(Opened(), steps)
    ensures Run(Opened(), steps).drain.Free? && !HalfPurgeHarmless(Run(Opened(), steps), p)
  {
    var load := SeedOf(p) + [LoadAnswer];
    LoadsAPath(Opened(), p);
    RunsKeepInv(load);
    var rest := ThenAppended(Run(Opened(), load), p, event);
    RunConcat(Opened(), load, rest);
    steps := load + rest;
  }

  lemma AppendPends(s: StoreState, p: ActorPath, event: Event)
    requires s.buffers.Keys <= {p} && (s.Warm(p) ==> s.buffers[p].flushed <= |s.buffers[p].journal.entries|)
    requires !s.Activating(p)
    ensures var s' := s.Append(p, [event]); s'.HasPending(p) && forall q :: q in s'.buffers ==> q == p
  {
    AppendAllShape(s.Buffer(p).journal, [event], s.nextIngest);
  }

  lemma FirstEventPending(w: World, p: ActorPath, event: Event)
    requires Inv(w) && Writable(w, p) && !w.store.Activating(p) && w.store.buffers.Keys <= {p} && w.drain.Free?
    ensures var w' := Next(w, Step.Append(p, [event]));
            && w'.store.HasPending(p) && (forall q :: q in w'.store.buffers ==> q == p)
            && w'.drain.Free? && w'.spec.Of(p).Events() != []
  {
    if w.store.Warm(p) { var _ := FrontierCountsStored(w, p); }
    AppendPends(w.store, p, event);
    AppendAllShape(w.spec.Of(p), [event], w.spec.nextIngest);
  }

  /** A half purge of a reachable store, and the run after which a load has lost the journal. */
  lemma HalfPurgeLosesAJournal(p: ActorPath, event: Event) returns (steps: seq<Step>)
    ensures LegalRun(Opened(), steps) && Legal(Run(Opened(), steps), PurgeEventsOnly(p))
    ensures !StaysRight(Next(Run(Opened(), steps), PurgeEventsOnly(p)), p)
  {
    steps := FirstEventFlushed(p, event);
    RunsKeepInv(steps);
    HalfPurgeStaysRightIff(Run(Opened(), steps), p);
  }

  /** Passivating and reloading a flushed path after a half purge answers without its events. */
  lemma HalfPurgedReload(w: World, p: ActorPath)
    requires Inv(w) && w.drain.Free? && w.store.Warm(p) && !w.store.HasPending(p) && p !in w.checking
    requires w.spec.Of(p).Events() != []
    ensures var w', steps := Next(w, PurgeEventsOnly(p)), [PassivateCollect(p, []), PassivateRelease] + SeedOf(p);
            Follows(w', steps, LoadAnswer) && !Agrees(Run(w', steps), LoadAnswer)
  {
    var w' := Next(w, PurgeEventsOnly(p));
    ReleaseRun(w', p);
    var released := Run(w', [PassivateCollect(p, []), PassivateRelease]);
    SeedRun(released, p);
    RunConcat(w', [PassivateCollect(p, []), PassivateRelease], SeedOf(p));
    NothingToLoad(RowsOf(released.store.db, p));
    SeededAnswer(released, p);
    MemReplayOfEvents(w.spec, p);
  }

  lemma ReleaseRun(w: World, p: ActorPath)
    requires w.drain.Free? && !w.store.HasPending(p) && p !in w.checking
    ensures var steps := [PassivateCollect(p, []), PassivateRelease];
            && LegalRun(w, steps)
            && Run(w, steps) == w.(store := w.store.Remove(p), active := w.active - {p})
  {
    RunExtends(w, [], PassivateCollect(p, []));
    assert [] + [PassivateCollect(p, [])] == [PassivateCollect(p, [])];
    RunExtends(w, [PassivateCollect(p, [])], PassivateRelease);
    assert [PassivateCollect(p, [])] + [PassivateRelease] == [PassivateCollect(p, []), PassivateRelease];
  }

  lemma MemReplayOfEvents(s: MemStore, p: ActorPath)
    ensures OrEmpty(s.Load(p)).events == s.Of(p).Events()
  {
  }
}
