/** What the write-behind store promises on every run. */
module ProtocolTheorems {
  import opened Wrappers
  import opened Journals
  import opened MemoryStore
  import opened Rows
  import opened WriteBehind
  import opened Protocol
  import opened ProtocolInvariant

  // ---- Refinement of the in-memory store ----

  datatype Answer =
    | Silent
    | Refused
    | Numbers(seqs: seq<nat>)
    | Slot(slot: Option<nat>)
    | Replayed(replay: Replay)
    | Facts(facts: set<ScannedEvent>)

  /** No journal and an empty journal read alike. */
  function OrEmpty(replay: Option<Replay>): Replay {
    if replay.Some? then replay.value else Replay(None, [], [])
  }

  /** What the write-behind store answers at a step. */
  ghost function StoreAnswer(w: World, step: Step): Answer
    requires Legal(w, step)
  {
    match step
    case Append(p, events) =>
      if w.store.Activating(p) then Refused
      else Numbers(NumbersFrom(w.store.Buffer(p).journal.eventCount, |events|))
    case AppendSnapshot(p, _, _, _) => if w.store.Activating(p) then Refused else Silent
    case CatchUpLook(p, fact) =>
      if w.store.Activating(p) then Refused else if w.store.BufferHolds(p, fact) then Slot(None) else Silent
    case CatchUpQuery(p, ok) =>
      if !ok then Refused else if w.store.TableHolds(p, w.checking[p].fact) then Slot(None) else Silent
    case CatchUpAppend(p) =>
      if w.store.Activating(p) then Refused else Slot(Some(w.store.Buffer(p).journal.eventCount))
    case LoadWarm(p) => Replayed(OrEmpty(w.store.Replayed(p)))
    case LoadAnswer => Replayed(OrEmpty(w.store.Replayed(w.drain.answerPath)))
    case ScanAnswer => Facts(w.store.ScanUnion(w.drain.schemas, w.drain.found))
    case _ => Silent
  }

  /** What the in-memory store answers to the same call. */
  ghost function SpecAnswer(w: World, step: Step): Answer
    requires Legal(w, step)
  {
    match step
    case Append(p, events) => Numbers(NumbersFrom(w.spec.Of(p).eventCount, |events|))
    case CatchUpLook(p, fact) =>
      if HoldsOrigin(w.spec.Of(p).Events(), fact.journal, fact.seqNo) then Slot(None) else Silent
    case CatchUpQuery(p, _) =>
      var fact := w.checking[p].fact;
      if HoldsOrigin(w.spec.Of(p).Events(), fact.journal, fact.seqNo) then Slot(None) else Silent
    case CatchUpAppend(p) => Slot(w.spec.CatchUp(p, w.checking[p].fact).1)
    case LoadWarm(p) => Replayed(OrEmpty(w.spec.Load(p)))
    case LoadAnswer => Replayed(OrEmpty(w.spec.Load(w.drain.answerPath)))
    case ScanAnswer => Facts(w.spec.Facts(w.drain.schemas))
    case _ => Silent
  }

  lemma ReadersAgree(j: JournalState, spec: MemStore, p: ActorPath)
    requires AnchorsFit(spec.Of(p).entries)
    requires j.Events() == spec.Of(p).Events() && j.Latest() == spec.Of(p).Latest()
    ensures OrEmpty(BuildReplay(j.entries)) == OrEmpty(spec.Load(p))
  {
    MemReplayIsReplayOf(spec.Of(p).entries);
  }

  lemma LoadAgrees(w: World, p: ActorPath)
    requires Inv(w) && w.drain != Purging(p)
    requires w.store.Warm(p) || w.spec.Of(p).entries == []
    ensures OrEmpty(w.store.Replayed(p)) == OrEmpty(w.spec.Load(p))
  {
    assert JournalOk(w.spec.Of(p), w.spec.nextIngest);
    assert PathOk(View(w, p), w.drain, p);
    if w.store.Warm(p) {
      AlignedAgree(w.store.buffers[p], w.spec.Of(p), CutOf(w, p));
      ReadersAgree(w.store.buffers[p].journal, w.spec, p);
    } else {
      ReadersAgree(EMPTY, w.spec, p);
    }
  }

  /** What a load answers, part by part: latest snapshot, whole history, and the events past the anchor. */
  lemma LoadAnswersTheJournal(w: World, p: ActorPath)
    requires Inv(w) && w.drain != Purging(p)
    requires w.store.Warm(p) || w.spec.Of(p).entries == []
    ensures IsReplay(OrEmpty(w.store.Replayed(p)), w.spec.Of(p).Events(), w.spec.Of(p).Latest())
  {
    LoadAgrees(w, p);
    assert JournalOk(w.spec.Of(p), w.spec.nextIngest);
    LoadMeans(w.spec, p);
  }

  /** A record of a path's tables is a record of its journal, at its own number. */
  lemma StoredRecord(w: World, p: ActorPath, k: nat)
    requires Inv(w) && k in RowsOf(w.store.db, p).events
    ensures k < |w.spec.Of(p).Events()|
    ensures IntoJournaled(k, RowsOf(w.store.db, p).events[k]) == w.spec.Of(p).Events()[k]
    ensures RowsOf(w.store.db, p).events[k].kind == KIND_RECORDED <==>
            w.spec.Of(p).Events()[k].origin == Recorded
  {
    var j := w.spec.Of(p);
    var c := StoredIsAnAcknowledgedPast(w, p);
    assert JournalOk(j, w.spec.nextIngest);
    SplitAt(j.entries, c);
    var record := EventsOf(j.entries[..c])[k];
    assert record == j.Events()[k];
    RowRoundTrip(record, record);
  }

  /** While no purge is under way, a path's history is in its buffer or in its tables. */
  lemma HistoryIsSomewhere(w: World, p: ActorPath)
    requires Inv(w) && !w.drain.Purging?
    ensures p in w.store.buffers && !w.store.Activating(p) ==>
              w.store.buffers[p].journal.Events() == w.spec.Of(p).Events()
    ensures w.store.Activating(p) ==> w.store.buffers[p].journal.Events() == []
    ensures !w.store.Warm(p) ==> RowsOf(w.store.db, p).events == RowMap(w.spec.Of(p).Events())
  {
    assert PathOk(View(w, p), w.drain, p);
    if w.store.Warm(p) {
      AlignedAgree(w.store.buffers[p], w.spec.Of(p), CutOf(w, p));
    } else {
      var entries := w.spec.Of(p).entries;
      assert entries[..|entries|] == entries;
    }
  }

  /** Every fact a scan surfaces is a recorded fact of the in-memory store. */
  lemma ScanSurfacesFacts(w: World, schemas: set<SchemaId>)
    requires Inv(w) && !w.drain.Purging?
    ensures w.store.ScanUnion(schemas, w.store.DbFacts(schemas)) <= w.spec.Facts(schemas)
  {
    var found := w.store.DbFacts(schemas);
    forall f | f in w.store.ScanUnion(schemas, found) ensures f in w.spec.Facts(schemas) {
      if f in found {
        var p: ActorPath, k: nat :| p in w.store.db && k in w.store.db[p].events &&
                    w.store.db[p].events[k].kind == KIND_RECORDED &&
                    Surfaces(IntoJournaled(k, w.store.db[p].events[k]), schemas) &&
                    f == ToScanned(p, IntoJournaled(k, w.store.db[p].events[k]));
        StoredRecord(w, p, k);
        assert f == ToScanned(p, w.spec.Of(p).Events()[k]);
      } else {
        var p, i :| p in w.store.buffers && 0 <= i < |w.store.buffers[p].journal.Events()| &&
                    Surfaces(w.store.buffers[p].journal.Events()[i], schemas) &&
                    f == ToScanned(p, w.store.buffers[p].journal.Events()[i]);
        HistoryIsSomewhere(w, p);
        assert f == ToScanned(p, w.spec.Of(p).Events()[i]);
      }
    }
  }

  /** Every recorded fact of the in-memory store is surfaced: stored, or buffered and unseen. */
  lemma ScanMissesNothing(w: World, schemas: set<SchemaId>, p: ActorPath, i: nat)
    requires Inv(w) && !w.drain.Purging?
    requires i < |w.spec.Of(p).Events()| && Surfaces(w.spec.Of(p).Events()[i], schemas)
    ensures ToScanned(p, w.spec.Of(p).Events()[i]) in w.store.ScanUnion(schemas, w.store.DbFacts(schemas))
  {
    var found, record := w.store.DbFacts(schemas), w.spec.Of(p).Events()[i];
    assert JournalOk(w.spec.Of(p), w.spec.nextIngest);
    HistoryIsSomewhere(w, p);
    if i in RowsOf(w.store.db, p).events {
      StoredRecord(w, p, i);
      assert ToScanned(p, IntoJournaled(i, w.store.db[p].events[i])) in found;
    } else {
      assert w.store.Warm(p);
      assert w.store.buffers[p].journal.Events()[i] == record;
      assert !Seen(found, p, i);
    }
  }

  /**
   At any flush frontier the union of tables and buffers, de-duplicated by journal and number,
   is exactly the set of recorded facts of the asked schemas; ordered by arrival it is the one
   answer the in-memory store gives.
   */
  lemma ScanIsExact(w: World, schemas: set<SchemaId>)
    requires Inv(w) && !w.drain.Purging?
    ensures w.store.ScanUnion(schemas, w.store.DbFacts(schemas)) == w.spec.Facts(schemas)
  {
    ScanSurfacesFacts(w, schemas);
    var union := w.store.ScanUnion(schemas, w.store.DbFacts(schemas));
    forall f | f in w.spec.Facts(schemas) ensures f in union {
      var p, i :| p in w.spec.journals && 0 <= i < |w.spec.journals[p].Events()| &&
                  Surfaces(w.spec.journals[p].Events()[i], schemas) &&
                  f == ToScanned(p, w.spec.journals[p].Events()[i]);
      ScanMissesNothing(w, schemas, p, i);
    }
  }

  /** A scan of tables and buffers and a scan of the in-memory store are the same list. */
  lemma ScansAreEqual(w: World, schemas: set<SchemaId>, written: seq<ScannedEvent>, simple: seq<ScannedEvent>)
    requires Inv(w) && !w.drain.Purging?
    requires IsScan(written, w.store.ScanUnion(schemas, w.store.DbFacts(schemas)))
    requires IsScan(simple, w.spec.Facts(schemas))
    ensures written == simple
  {
    ScanIsExact(w, schemas);
    ScanIsUnique(written, simple, w.spec.Facts(schemas));
  }

  /**
   What a scan answers, record by record: ascending by arrival, every event of an asked schema that
   its own actor recorded, under its path, number and arrival, and nothing else.
   */
  lemma ScanAnswersTheRecords(w: World, schemas: set<SchemaId>, answer: seq<ScannedEvent>, f: ScannedEvent)
    requires Inv(w) && !w.drain.Purging?
    requires IsScan(answer, w.store.ScanUnion(schemas, w.store.DbFacts(schemas)))
    ensures f in answer <==> IsRecordedFact(w.spec, schemas, f)
    ensures forall i, k :: 0 <= i < k < |answer| ==> answer[i].ingestSeq < answer[k].ingestSeq
  {
    ScanIsExact(w, schemas);
    FactsMean(w.spec, schemas, f);
  }

  /** On every run a scan can order its facts, and no frontier passes the end of its buffer. */
  lemma BuffersStayInBounds(w: World, schemas: set<SchemaId>, p: ActorPath)
    requires Inv(w) && !w.drain.Purging?
    ensures ArrivalsIdentify(w.store.ScanUnion(schemas, w.store.DbFacts(schemas)))
    ensures p in w.store.buffers ==>
              var b := w.store.buffers[p];
              b.flushed <= |b.journal.entries| && Dense(b.journal.Events())
  {
    ScanIsExact(w, schemas);
    FactsDifferInArrival(w.spec, schemas);
    assert PathOk(View(w, p), w.drain, p);
    if w.store.Warm(p) {
      assert Aligned(w.store.buffers[p], w.spec.Of(p), CutOf(w, p));
    }
  }

  /** The same answer, or an error that changed neither store. */
  ghost predicate Agrees(w: World, step: Step)
    requires Legal(w, step)
  {
    || StoreAnswer(w, step) == SpecAnswer(w, step)
    || (StoreAnswer(w, step) == Refused && Next(w, step).store == w.store && Next(w, step).spec == w.spec)
  }

  /** At every step the two stores answer alike, unless the write is refused or the table check fails. */
  lemma AnswersAgree(w: World, step: Step)
    requires Inv(w) && Legal(w, step)
    ensures Agrees(w, step)
  {
    match step {
      case Append(p, events) => if !w.store.Activating(p) { ActiveAgrees(w, p); }
      case CatchUpLook(p, fact) => if !w.store.Activating(p) { CatchUpAgrees(w, p, fact); }
      case CatchUpQuery(p, _) => CheckedFactIsNew(w, p);
      case CatchUpAppend(p) =>
        CheckedFactIsNew(w, p);
        if !w.store.Activating(p) { ActiveAgrees(w, p); }
      case LoadWarm(p) => LoadAgrees(w, p);
      case LoadAnswer => LoadAgrees(w, w.drain.answerPath);
      case ScanAnswer => ScanIsExact(w, w.drain.schemas);
      case _ =>
    }
  }

  /**
   A call is refused exactly if it writes to a path whose placeholder waits for its rows, or if a
   catch-up fact's table check fails.
   */
  lemma RefusedIff(w: World, step: Step)
    requires Legal(w, step)
    ensures StoreAnswer(w, step) == Refused <==>
            if step.CatchUpQuery? then !step.ok
            else IsWrite(step) && step.path in w.store.buffers && w.store.buffers[step.path].activating
  {
  }

  /**
   Refinement: after any legal run, whatever was flushed, lost, retried, passivated, reloaded,
   purged or purged half-way without harm, wherever snapshots were anchored as long as no flush
   wrote one below a stored one, the next call is answered as the in-memory store answers it.
   */
  lemma WriteBehindRefinesInMemory(steps: seq<Step>, step: Step)
    requires LegalRun(Opened(), steps) && Legal(Run(Opened(), steps), step)
    ensures Agrees(Run(Opened(), steps), step)
  {
    RunsKeepInv(steps);
    AnswersAgree(Run(Opened(), steps), step);
  }

  // ---- What a crash leaves ----

  /** Each snapshot is anchored at an event appended before it. */
  ghost predicate AnchorsInside(entries: seq<JournalEntry>) {
    entries == [] ||
    var n := |entries| - 1;
    && AnchorsInside(entries[..n])
    && (entries[n].SnapshotEntry? ==> entries[n].snapshot.seqNo < |EventsOf(entries[..n])|)
  }

  lemma {:induction false} LatestIsInside(entries: seq<JournalEntry>, k: nat)
    requires AnchorsInside(entries) && k <= |entries|
    ensures LastSnapshot(entries[..k]).Some? ==>
              LastSnapshot(entries[..k]).value.seqNo < |EventsOf(entries[..k])|
    decreases |entries|, k
  {
    var n := |entries| - 1;
    if k < |entries| {
      LatestIsInside(entries[..n], k);
      assert entries[..n][..k] == entries[..k];
    } else {
      assert entries[..k] == entries;
      if entries != [] {
        LatestIsInside(entries[..n], n);
        assert entries[..n][..n] == entries[..n];
      }
    }
  }

  /** What a process loss at `w` leaves of a path, cut after some acknowledged entry. */
  ghost predicate CrashLeaves(w: World, p: ActorPath, c: nat) {
    var entries, reopened := w.spec.Of(p).entries, Next(w, Restart).spec;
    && c <= |entries|
    && OrEmpty(reopened.Load(p)) == OrEmpty(Some(MemReplay(entries[..c])))
    && reopened.Of(p).Events() == EventsOf(entries[..c])
    && reopened.Of(p).Latest() == LastSnapshot(entries[..c])
  }

  lemma LostProcess(w: World, p: ActorPath) returns (c: nat)
    requires Inv(w)
    ensures CrashLeaves(w, p, c)
  {
    c := StoredIsAnAcknowledgedPast(w, p);
    var j, j' := w.spec.Of(p), Recovered(w.store.db).Of(p);
    RecoveredPath(w, p);
    StoredMatches(j', RowsOf(w.store.db, p));
    MemReplayIsReplayOf(j.entries[..c]);
    MemReplayIsReplayOf(j'.entries);
  }

  /**
   Crash prefix: after any run, a process loss leaves of each path the journal as it was after
   some acknowledged entry, and a reopened store replays exactly that past. If every snapshot was
   anchored at an acknowledged event, the stored one is anchored inside the stored events.
   */
  lemma CrashLeavesAnAcknowledgedPast(steps: seq<Step>, p: ActorPath) returns (c: nat)
    requires LegalRun(Opened(), steps)
    ensures CrashLeaves(Run(Opened(), steps), p, c)
    ensures var entries := Run(Opened(), steps).spec.Of(p).entries;
            AnchorsInside(entries) && LastSnapshot(entries[..c]).Some? ==>
              LastSnapshot(entries[..c]).value.seqNo < |EventsOf(entries[..c])|
  {
    RunsKeepInv(steps);
    var w := Run(Opened(), steps);
    c := LostProcess(w, p);
    if AnchorsInside(w.spec.Of(p).entries) {
      LatestIsInside(w.spec.Of(p).entries, c);
    }
  }

  /** A warm buffer's frontier counts only stored entries. */
  lemma FrontierCountsStored(w: World, p: ActorPath) returns (stored: nat)
    requires Inv(w) && w.store.Warm(p) && w.drain != Purging(p)
    ensures w.store.buffers[p].flushed <= stored <= |w.store.buffers[p].journal.entries|
    ensures StoredThrough(RowsOf(w.store.db, p), w.store.buffers[p].journal.entries, stored)
  {
    assert PathOk(View(w, p), w.drain, p);
    stored := CutOf(w, p).stored;
  }

  /** Every step but a commit leaves the frontier of a living buffer where it is. */
  lemma FrontierStays(w: World, step: Step, p: ActorPath)
    requires PhaseOk(w) && Legal(w, step) && !step.CommitFrontiers?
    requires w.store.Warm(p) && Next(w, step).store.Warm(p)
    ensures w.store.buffers[p].flushed == Next(w, step).store.buffers[p].flushed
  {
  }

  /** No step moves the frontier of a living buffer back. */
  lemma FrontierNeverRetreats(w: World, step: Step, p: ActorPath)
    requires Inv(w) && Legal(w, step) && w.store.Warm(p) && Next(w, step).store.Warm(p)
    ensures w.store.buffers[p].flushed <= Next(w, step).store.buffers[p].flushed
  {
    if step.CommitFrontiers? { CommitMovesForward(w, p); } else { FrontierStays(w, step, p); }
  }

  lemma CommitMovesForward(w: World, p: ActorPath)
    requires w.drain.Written? && DoneOk(w.store, w.drain.done) && w.store.Warm(p)
    requires p in w.store.Commit(w.drain.done).buffers
    ensures w.store.buffers[p].flushed <= w.store.Commit(w.drain.done).buffers[p].flushed
  {
    var after := w.store.Commit(w.drain.done);
    CommitByPath(w.store, w.drain.done);
    if i :| 0 <= i < |w.drain.done| && w.drain.done[i].path == p {
      assert BufferAt(after, p) == CommitBuffer(w.store.buffers[p], w.drain.done[i]);
    } else {
      assert BufferAt(after, p) == BufferAt(w.store, p);
    }
  }

  /** Only a commit and a release take a living buffer out of memory. */
  lemma WhoRemoves(w: World, step: Step, p: ActorPath)
    requires PhaseOk(w) && Legal(w, step) && !step.Restart? && !step.PurgeBuffer?
    requires w.store.Warm(p) && p !in Next(w, step).store.buffers
    ensures step.CommitFrontiers? || step.PassivateRelease?
  {
  }

  lemma CommittedStaysOk(w: World, p: ActorPath)
    requires Inv(w) && Legal(w, CommitFrontiers)
    ensures PathOk(View(Next(w, CommitFrontiers), p), Free, p)
  {
    if i :| 0 <= i < |w.drain.done| && w.drain.done[i].path == p {
      CommittedPath(w, i);
    } else {
      UncommittedPath(w, p);
    }
  }

  /**
   No acknowledged entry is lost: when a step other than a purge or a process loss takes a buffer
   out of memory, the tables hold all its events and its latest snapshot.
   */
  lemma RemovedImpliesDurable(w: World, step: Step, p: ActorPath)
    requires Inv(w) && Legal(w, step) && !step.Restart? && !step.PurgeBuffer?
    requires w.store.Warm(p) && p !in Next(w, step).store.buffers
    ensures Next(w, step).spec.Of(p) == w.spec.Of(p)
    ensures Durable(RowsOf(Next(w, step).store.db, p), w.spec.Of(p))
  {
    WhoRemoves(w, step, p);
    if step.CommitFrontiers? {
      CommittedStaysOk(w, p);
    } else {
      PassivateReleaseKeepsInv(w);
      assert PathOk(View(Next(w, step), p), Free, p);
    }
  }

  lemma RefusedWhileActivating(w: World, step: Step)
    requires Legal(w, step) && IsWrite(step) && w.store.Activating(step.path)
    ensures Next(w, step).store == w.store && Next(w, step).spec == w.spec
  {
  }

  lemma InstallKeepsOthers(w: World, p: ActorPath)
    requires PhaseOk(w) && Legal(w, SeedPut) && w.store.Warm(p)
    ensures BufferAt(Next(w, SeedPut).store, p) == Some(w.store.buffers[p])
  {
  }

  function SeededPath(drain: Drain): ActorPath
    requires drain.SeedRows? || drain.Seeding?
  {
    if drain.SeedRows? then drain.rowsPath else drain.seedPath
  }

  /**
   A cold seed overwrites nothing accepted: from placeholder to install the path takes no write,
   the buffer the install replaces is still the empty placeholder, and living buffers stay.
   */
  lemma SeedNeverOverwrites(w: World, step: Step, p: ActorPath)
    requires Inv(w) && Legal(w, step) && (w.drain.SeedRows? || w.drain.Seeding?)
    ensures var q := SeededPath(w.drain);
            && w.store.Activating(q) && w.store.buffers[q].journal == EMPTY
            && (IsWrite(step) && step.path == q ==> Next(w, step).store == w.store && Next(w, step).spec == w.spec)
            && (step.SeedPut? && w.store.Warm(p) ==>
                  BufferAt(Next(w, step).store, p) == Some(w.store.buffers[p]))
  {
    var q := SeededPath(w.drain);
    assert PathOk(View(w, q), w.drain, q);
    if IsWrite(step) && step.path == q { RefusedWhileActivating(w, step); }
    if step.SeedPut? && w.store.Warm(p) { InstallKeepsOthers(w, p); }
  }

  // ---- A cold load, uninterrupted ----

  /** A cold path's placeholder, read and install. */
  function SeedOf(p: ActorPath): seq<Step> { [SeedPlace(p), SeedRead, SeedPut] }

  /** The world before the cold load answers. */
  ghost function Seeded(w: World, p: ActorPath): World {
    var rows := RowsOf(w.store.db, p);
    w.(store := w.store.SeedBegin(p).SeedInstall(p, StoredEvents(rows), LatestRow(rows.snapshots)),
       drain := Answering(p))
  }

  lemma SeedSteps(w: World, p: ActorPath)
    requires w.drain.Free? && !w.store.Warm(p)
    ensures Legal(w, SeedPlace(p))
    ensures var placed := Next(w, SeedPlace(p));
            && Legal(placed, SeedRead)
            && var read := Next(placed, SeedRead);
               Legal(read, SeedPut) && Next(read, SeedPut) == Seeded(w, p)
  {
  }

  lemma SeedRun(w: World, p: ActorPath)
    requires w.drain.Free? && !w.store.Warm(p)
    ensures LegalRun(w, SeedOf(p)) && Run(w, SeedOf(p)) == Seeded(w, p)
  {
    SeedSteps(w, p);
    RunExtends(w, [], SeedPlace(p));
    assert [] + [SeedPlace(p)] == [SeedPlace(p)];
    RunExtends(w, [SeedPlace(p)], SeedRead);
    assert [SeedPlace(p)] + [SeedRead] == [SeedPlace(p), SeedRead];
    RunExtends(w, [SeedPlace(p), SeedRead], SeedPut);
    assert [SeedPlace(p), SeedRead] + [SeedPut] == SeedOf(p);
  }

  lemma LoadsAPath(w: World, p: ActorPath)
    requires w.drain.Free? && w.store.buffers == map[] && w.checking == map[]
    ensures LegalRun(w, SeedOf(p) + [LoadAnswer])
    ensures var w' := Run(w, SeedOf(p) + [LoadAnswer]);
            && w'.spec == w.spec && Writable(w', p) && !w'.store.Activating(p) && w'.drain.Free?
            && w'.store.buffers.Keys <= {p} && w'.store.db == w.store.db
  {
    SeedRun(w, p);
    RunExtends(w, SeedOf(p), LoadAnswer);
  }
}
