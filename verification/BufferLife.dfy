/**
 When a buffer goes and when it carries the release mark (src/journal_daow.rs): exactly which
 steps take it, set its mark and clear it.
 */
module BufferLife {
  import opened Wrappers
  import opened Journals
  import opened Rows
  import opened WriteBehind
  import opened Protocol
  import opened ProtocolInvariant
  import opened ProtocolLimits

  /** The step commits a captured end of the path under a mark both captured and standing. */
  ghost predicate CommitsMarked(w: World, step: Step, p: ActorPath, end: nat)
    requires Legal(w, step) && p in w.store.buffers
  {
    && step.CommitFrontiers? && w.store.buffers[p].dropWhenDurable
    && exists i :: 0 <= i < |w.drain.done| && w.drain.done[i] == FlushCompletion(p, end, true)
  }

  /** A cold seed that found nothing stored. */
  predicate SeedsNothing(w: World, step: Step, p: ActorPath) {
    && step.SeedPut? && w.drain.SeedRows?
    && w.drain.rowsPath == p && w.drain.records == [] && w.drain.latest == None
  }

  lemma CommitAtPath(s: StoreState, done: seq<FlushCompletion>, p: ActorPath)
    requires DoneOk(s, done) && p in s.buffers
    ensures var b, after := s.buffers[p], BufferAt(s.Commit(done), p);
            if exists i :: 0 <= i < |done| && done[i].path == p then
              exists i :: 0 <= i < |done| && done[i].path == p &&
                if b.dropWhenDurable && done[i].dropWhenDurable && |b.journal.entries| == done[i].capturedEnd
                then after.None?
                else
                  after == Some(b.(flushed := done[i].capturedEnd,
                                   dropWhenDurable := b.dropWhenDurable && !done[i].dropWhenDurable))
            else after == Some(b)
  {
    CommitByPath(s, done);
    if i :| 0 <= i < |done| && done[i].path == p {
      assert BufferAt(s.Commit(done), p) == CommitBuffer(s.buffers[p], done[i]);
    }
  }

  lemma CommitTakes(w: World, p: ActorPath)
    requires w.drain.Written? && DoneOk(w.store, w.drain.done) && p in w.store.buffers
    ensures p !in Next(w, CommitFrontiers).store.buffers <==>
            CommitsMarked(w, CommitFrontiers, p, |w.store.buffers[p].journal.entries|)
    ensures p in Next(w, CommitFrontiers).store.buffers ==>
              (Next(w, CommitFrontiers).store.buffers[p].dropWhenDurable <==>
               w.store.buffers[p].dropWhenDurable && !exists end :: CommitsMarked(w, CommitFrontiers, p, end))
  {
    CommitAtPath(w.store, w.drain.done, p);
    assert Next(w, CommitFrontiers).store == w.store.Commit(w.drain.done);
    if i :| 0 <= i < |w.drain.done| && w.drain.done[i].path == p {
      var done := w.drain.done[i];
      assert done.dropWhenDurable ==> done == FlushCompletion(p, done.capturedEnd, true);
      assert w.store.buffers[p].dropWhenDurable && done.dropWhenDurable ==>
             CommitsMarked(w, CommitFrontiers, p, done.capturedEnd);
    }
  }

  /** A seed meets its own placeholder. */
  ghost predicate SeedIsOpen(w: World) {
    w.drain.SeedRows? ==> w.store.Activating(w.drain.rowsPath)
  }

  lemma OtherStepTakes(w: World, step: Step, p: ActorPath)
    requires SeedIsOpen(w) && Legal(w, step) && p in w.store.buffers && !step.CommitFrontiers?
    ensures p !in Next(w, step).store.buffers <==>
            || step.Restart?
            || (step.PurgeBuffer? && w.drain.purgePath == p)
            || (step.PassivateRelease? && w.drain.releasePath == p)
            || SeedsNothing(w, step, p)
  {
  }

  /**
   A buffer leaves memory exactly with its process, its purge, a passivation that found nothing to
   write, a seed that found nothing stored, or the commit of its captured and still standing mark
   with nothing appended since.
   */
  lemma BufferGoesIff(w: World, step: Step, p: ActorPath)
    requires Inv(w) && Legal(w, step) && p in w.store.buffers
    ensures p !in Next(w, step).store.buffers <==>
            || step.Restart?
            || (step.PurgeBuffer? && w.drain.purgePath == p)
            || (step.PassivateRelease? && w.drain.releasePath == p)
            || SeedsNothing(w, step, p)
            || CommitsMarked(w, step, p, |w.store.buffers[p].journal.entries|)
  {
    if step.CommitFrontiers? { CommitTakes(w, p); } else { OtherStepTakes(w, step, p); }
  }

  lemma OtherStepMarks(w: World, step: Step, p: ActorPath)
    requires SeedIsOpen(w) && Legal(w, step) && !step.CommitFrontiers?
    requires p in w.store.buffers && p in Next(w, step).store.buffers
    ensures Next(w, step).store.buffers[p].dropWhenDurable <==>
            || (step.PassivateMark? && w.drain.markPath == p)
            || (&& w.store.buffers[p].dropWhenDurable
                && !(step.LoadWarm? && step.path == p) && !(step.SeedPut? && w.drain.rowsPath == p))
  {
  }

  /**
   A buffer that stays carries the mark exactly if a passivation with something to write just set
   it, or it did before and neither a load nor a seed of the path nor the commit of the mark over
   newer entries cleared it.
   */
  lemma MarkStandsIff(w: World, step: Step, p: ActorPath)
    requires Inv(w) && Legal(w, step) && p in w.store.buffers && p in Next(w, step).store.buffers
    ensures Next(w, step).store.buffers[p].dropWhenDurable <==>
            || (step.PassivateMark? && w.drain.markPath == p)
            || (&& w.store.buffers[p].dropWhenDurable
                && !(step.LoadWarm? && step.path == p) && !(step.SeedPut? && w.drain.rowsPath == p)
                && !exists end :: CommitsMarked(w, step, p, end))
  {
    if step.CommitFrontiers? { CommitTakes(w, p); } else { OtherStepMarks(w, step, p); }
  }

  // ---- A passivation that failed, and the flush after it ----

  /** A reported flush takes every marked buffer with something to write and keeps every unmarked one. */
  lemma FlushTakesMarked(w: World, pending: seq<PendingFlush>, p: ActorPath)
    requires Inv(w) && Legal(w, Collect(pending)) && w.store.HasPending(p)
    ensures p !in Flushed(w, pending).store.buffers <==> w.store.buffers[p].dropWhenDurable
    ensures p in Flushed(w, pending).store.buffers ==>
              var b := w.store.buffers[p];
              Flushed(w, pending).store.buffers[p] == b.(flushed := |b.journal.entries|)
  {
    var i :| 0 <= i < |pending| && pending[i].path == p;
    assert pending[i] == w.store.PendingFor(p);
    CleanFlushAt(InvAfter(w, Collect(pending)), i);
  }

  /** What a passivation whose transaction failed leaves. */
  ghost function FailedPassivation(w: World, p: ActorPath, pending: seq<PendingFlush>): (w': World)
    requires Inv(w) && Legal(w, PassivateCollect(p, pending)) && pending != []
    ensures Inv(w') && w'.drain.Free? && w'.store.db == w.store.db
  {
    InvAfter(InvAfter(InvAfter(w, PassivateCollect(p, pending)), PassivateMark), Transact(NotApplied))
  }

  /**
   A failed passivation keeps the buffer, marked; the next reported flush that finds nothing else
   appended releases it.
   */
  lemma FailedPassivationIsReleased(w: World, p: ActorPath, pending: seq<PendingFlush>, later: seq<PendingFlush>)
    requires Inv(w) && Legal(w, PassivateCollect(p, pending)) && pending != []
    requires Legal(FailedPassivation(w, p, pending), Collect(later))
    ensures p in w.store.buffers
    ensures FailedPassivation(w, p, pending).store.buffers ==
            w.store.buffers[p := w.store.buffers[p].(dropWhenDurable := true)]
    ensures p !in Flushed(FailedPassivation(w, p, pending), later).store.buffers
  {
    assert pending[0].path == p && w.store.HasPending(p);
    var failed := FailedPassivation(w, p, pending);
    FlushTakesMarked(failed, later, p);
  }

  /** A passivation that wrote keeps an unmarked buffer, now marked and stored to its end. */
  lemma PassivationLeaves(w: World, p: ActorPath, pending: seq<PendingFlush>)
    requires Inv(w) && Legal(w, PassivateCollect(p, pending)) && pending != []
    ensures p in w.store.buffers
    ensures var b, after := w.store.buffers[p], Passivated(w, p, pending).store;
            BufferAt(after, p) == if b.dropWhenDurable then None
                                  else Some(b.(flushed := |b.journal.entries|, dropWhenDurable := true))
  {
    assert pending[0].path == p && pending[0] == w.store.PendingFor(p);
    var marked := InvAfter(InvAfter(w, PassivateCollect(p, pending)), PassivateMark);
    CleanFlushAt(marked, 0);
  }

  // ---- A purge ----

  /** Two worlds agree on every path but one. */
  ghost predicate AgreeElsewhere(w: World, w': World, p: ActorPath) {
    forall q :: q != p ==>
      && RowsOf(w'.store.db, q) == RowsOf(w.store.db, q) && BufferAt(w'.store, q) == BufferAt(w.store, q)
      && w'.spec.Of(q) == w.spec.Of(q)
  }

  /** A whole purge leaves nothing of the path and everything of the others, the counter included. */
  lemma PurgeLeavesNothing(w: World, p: ActorPath)
    requires Legal(w, PurgeRows(p))
    ensures Legal(Next(w, PurgeRows(p)), PurgeBuffer)
    ensures var w' := Next(Next(w, PurgeRows(p)), PurgeBuffer);
            && RowsOf(w'.store.db, p) == NO_ROWS && p !in w'.store.buffers && w'.spec.Of(p) == EMPTY
            && AgreeElsewhere(w, w', p)
            && w'.store.nextIngest == w.store.nextIngest && w'.spec.nextIngest == w.spec.nextIngest
  {
  }

  /** A purge that failed half-way takes the path's event rows alone. */
  lemma HalfPurgeTakesEvents(w: World, p: ActorPath)
    requires Legal(w, PurgeEventsOnly(p))
    ensures var w' := Next(w, PurgeEventsOnly(p));
            && RowsOf(w'.store.db, p) == PathRows(map[], RowsOf(w.store.db, p).snapshots)
            && w'.store.buffers == w.store.buffers && w'.spec == w.spec && AgreeElsewhere(w, w', p)
  {
  }
}
