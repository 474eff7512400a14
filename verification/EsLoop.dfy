/**
 The event-sourced loop as the runtime holds it (src/kernel.rs): one batched step in place over
 its inbox, its store and its cell, and the rebuild of a crashed actor. Each step is proved to be
 the moves of `EsMachine` it stands for.
 */
module EsLoops {
  import opened Wrappers
  import opened Journals
  import opened MemoryStore
  import opened JournalObjects
  import opened Inboxes
  import L = InboxLedger
  import opened EsActors
  import opened EsMachine
  import opened EsInvariant

  datatype StepResult = Idle | Work | Crashed

  // ---- The moves of one step ----

  /** A claimed batch, judged and settled with nobody in between. */
  ghost function Judged<S>(a: Actor<S>, w: World<S>, views: nat -> Json, ok: bool, ingest: nat, poison: S): World<S>
    requires w.phase.Claimed? && L.CanGiveBack(w.ledger) && L.CanCommitAll(w.ledger)
  {
    var decided := AfterDecide(a, w, views, poison);
    if decided.phase.Down? then decided
    else if ok then Settle(a, decided, ingest)
    else Crash(decided, decided.live)
  }

  ghost function Taken(l: L.Ledger, n: nat): L.Ledger
    requires L.Legal(l, L.Take(n))
  {
    L.Apply(l, L.Take(n))
  }

  /** Neither the claim nor what follows it meets a panic of the inbox. */
  ghost predicate Ready<S>(w: World<S>, n: nat) {
    && w.phase.AtRest? && !w.ledger.stopped
    && L.Legal(w.ledger, L.Take(n)) && w.ledger.inbox.Sane()
    && Taken(w.ledger, n).inbox.Sane()
    && L.CanGiveBack(Taken(w.ledger, n)) && L.CanCommitAll(Taken(w.ledger, n))
  }

  lemma ClaimAlwaysLegal(l: L.Ledger, n: nat)
    requires L.Inv(l) && !l.stopped && l.claims == []
    ensures L.Legal(l, L.Take(n))
  {
  }

  /** On every run a live actor at rest is ready; the step is idle only if nothing is asked or queued. */
  lemma AlwaysReady<S>(a: Actor<S>, w: World<S>, n: nat)
    requires Inv(a, w) && w.phase.AtRest? && !w.ledger.stopped
    ensures Ready(w, n)
    ensures Taken(w.ledger, n).claims == [] <==> n == 0 || w.ledger.inbox.queue == []
  {
    ClaimAlwaysLegal(w.ledger, n);
    L.InboxIsSane(w.ledger);
    L.TakeKeepsInv(w.ledger, n);
    L.InboxIsSane(Taken(w.ledger, n));
    L.RestoreNeverPanics(Taken(w.ledger, n));
  }

  /** Claim, decide, append, commit, apply. */
  ghost function Stepped<S>(a: Actor<S>, w: World<S>, n: nat, views: nat -> Json,
                            ok: bool, ingest: nat, poison: S): World<S>
    requires Ready(w, n)
  {
    var taken := Next(a, w, Take(n));
    if taken.phase.AtRest? then taken else Judged(a, taken, views, ok, ingest, poison)
  }

  /** Seeding one journal does not look at the others. */
  lemma {:induction false} AloneIsEnough(s: MemStore, path: ActorPath, facts: seq<ScannedEvent>)
    ensures var (among, amongSlots) := s.CatchUpAll(path, facts);
            var (alone, slots) := Alone(s.Of(path), s.nextIngest).CatchUpAll(SELF, facts);
            among.Of(path) == alone.Of(SELF) && among.nextIngest == alone.nextIngest && amongSlots == slots
    decreases |facts|
  {
    if facts != [] {
      AloneIsEnough(s, path, facts[..|facts| - 1]);
    }
  }

  /** The partition of the batch buffer; `at` says where each kept event stood in it. */
  method Filter(events: seq<Event>, emits: set<SchemaId>)
    returns (declared: seq<Event>, undeclared: nat, ghost at: seq<nat>)
    ensures declared == Declared(events, emits)
    ensures Selects(events, emits, declared, at) && forall i :: 0 <= i < |declared| ==> declared[i].schema in emits
    ensures undeclared == |events| - |declared|
  {
    declared, undeclared := [], 0;
    for i := 0 to |events|
      invariant declared == Declared(events[..i], emits) && undeclared == i - |declared|
    {
      assert events[..i + 1][..i] == events[..i];
      if events[i].schema in emits {
        declared := declared + [events[i]];
      } else {
        undeclared := undeclared + 1;
      }
    }
    assert events[..|events|] == events;
    at := DeclaredSelects(events, emits);
    DeclaredIsDeclared(events, emits);
  }

  class EsLoop<S> {
    const path: ActorPath
    const actor: Actor<S>
    const inbox: Inbox
    const store: InMemoryJournalStore
    var live: S
    var lastSeq: Option<nat>
    var letters: seq<nat>
    var crashed: bool

    constructor (path: ActorPath, actor: Actor<S>, inbox: Inbox, store: InMemoryJournalStore)
      ensures this.path == path && this.actor == actor && this.inbox == inbox && this.store == store
      ensures live == actor.genesis && lastSeq == None && letters == [] && !crashed
    {
      this.path, this.actor, this.inbox, this.store := path, actor, inbox, store;
      live, lastSeq, letters, crashed := actor.genesis, None, [], false;
    }

    /** The objects show a world of the machine. */
    ghost predicate Shows(w: World<S>)
      reads this, inbox, store
    {
      && inbox.Value() == w.ledger.inbox
      && store.Value().Of(path) == w.journal
      && lastSeq == w.lastSeq && letters == w.letters
      && crashed == w.phase.Down?
      && live == w.live
    }

    /** Stages 2 to 4: every claim is judged against the same state. */
    method Decide(batch: seq<Claim>, views: nat -> Json) returns (pass: Pass)
      modifies this`letters
      ensures pass == DecideAll(actor, live, batch, views)
      ensures letters == old(letters) + pass.rejected
    {
      var events, rejected := [], [];
      for i := 0 to |batch|
        invariant DecideAll(actor, live, batch[..i], views) == Pass(events, rejected, false)
        invariant letters == old(letters) + rejected
      {
        assert batch[..i + 1][..i] == batch[..i];
        var envelope := batch[i].envelope;
        if envelope.schema !in actor.handled {
          letters := letters + [batch[i].offset];
          rejected := rejected + [batch[i].offset];
        } else {
          match actor.decide(live, envelope, views(i)) {
            case Emitted(more) => events := events + more;
            case Rejected =>
              letters := letters + [batch[i].offset];
              rejected := rejected + [batch[i].offset];
            case Panicked =>
              PanicEndsThePass(actor, live, batch, views, i);
              return Pass(events, rejected, true);
          }
        }
      }
      assert batch[..|batch|] == batch;
      pass := Pass(events, rejected, false);
    }

    /** Stage 5: one append for the whole batch. */
    method RecordBatch(batch: seq<Claim>, events: seq<Event>) returns (seqs: seq<nat>, held: bool)
      modifies store
      ensures Recording(store.Value().Of(path), seqs, held) ==
              Record(old(store.Value()).Of(path), batch, events, old(store.nextIngest))
    {
      if events == [] {
        return [], false;
      }
      if SameFact(batch) {
        AloneIsEnough(store.Value(), path, Copies(batch[0].envelope.stamp.value, events));
        var slots := store.AppendCatchup(path, Copies(batch[0].envelope.stamp.value, events));
        if None in slots {
          return [], true;
        }
        return seq(|events|, i => 0), false;
      }
      seqs := store.Append(path, events);
      held := false;
      assert seqs == NumbersFrom(old(store.Value()).Of(path).eventCount, |events|);
    }

    /** Stage 6: the cursor moves past every offset of the batch, in order. */
    method CommitBatch(batch: seq<Claim>, ghost l: L.Ledger)
      requires inbox.Value() == l.inbox && l.claims == batch && L.CanCommitAll(l)
      modifies inbox
      ensures inbox.Value() == CommitAll(l).inbox
    {
      ghost var rest := l;
      for i := 0 to |batch|
        invariant inbox.Value() == rest.inbox && rest.claims == batch[i..]
        invariant L.CanCommitAll(rest) && CommitAll(rest) == CommitAll(l)
      {
        CommitNextCommitsOne(rest);
        var _ := inbox.CommitThrough(batch[i].offset);
        rest := L.Apply(rest, L.CommitNext);
      }
    }

    /** Stage 7: the same fold replay uses. */
    method ApplyAll(events: seq<Event>)
      modifies this`live
      ensures live == Fold(actor, old(live), events)
    {
      for i := 0 to |events|
        invariant live == Fold(actor, old(live), events[..i])
      {
        assert events[..i + 1][..i] == events[..i];
        live := actor.apply(live, events[i]);
      }
      assert events[..|events|] == events;
    }

    /** A step that ends early: the guard restores the claims and the actor is down. */
    method Abort(batch: seq<Claim>, poison: S, ghost w: World<S>)
      requires inbox.Value() == w.ledger.inbox && w.ledger.claims == batch
      requires w.ledger.inbox.Sane() && !w.ledger.stopped && L.CanGiveBack(w.ledger)
      modifies this`live, this`crashed, inbox`queue
      ensures inbox.Value() == Crash(w, poison).ledger.inbox && live == poison && crashed
    {
      var _ := inbox.RestoreClaims(batch);
      live := poison;
      crashed := true;
    }

    /** Stages 5 to 7 of a step whose append succeeds. */
    method Conclude(batch: seq<Claim>, events: seq<Event>, ghost w: World<S>)
      requires w.phase.Decided? && w.phase.events == events && w.ledger.claims == batch
      requires L.CanGiveBack(w.ledger) && L.CanCommitAll(w.ledger) && Shows(w)
      modifies this`live, this`lastSeq, inbox, store
      ensures Shows(Settle(actor, w, old(store.nextIngest)))
    {
      ghost var appended := AfterAppend(w, true, store.nextIngest);
      var seqs, held := RecordBatch(batch, events);
      CommitBatch(batch, appended.ledger);
      if held {
        return;
      }
      if seqs != [] {
        lastSeq := Some(seqs[|seqs| - 1]);
      }
      ApplyAll(events);
    }

    /** The batched step. `storeOk` and `poison` are what the store and a panic do to it. */
    method StepEs(n: nat, views: nat -> Json, storeOk: bool, poison: S, ghost w: World<S>) returns (step: StepResult)
      requires Ready(w, n) && Shows(w)
      modifies this`live, this`lastSeq, this`letters, this`crashed, inbox, store
      ensures Shows(Stepped(actor, w, n, views, storeOk, old(store.nextIngest), poison))
      ensures step == if Taken(w.ledger, n).claims == [] then Idle else if crashed then Crashed else Work
    {
      var batch := inbox.ClaimUpTo(n);
      if batch == [] {
        return Idle;
      }
      step := DecideAndConclude(batch, views, storeOk, poison, Next(actor, w, Take(n)));
    }

    method DecideAndConclude(batch: seq<Claim>, views: nat -> Json, storeOk: bool, poison: S, ghost w: World<S>)
      returns (step: StepResult)
      requires w.phase.Claimed? && w.ledger.claims == batch && Shows(w)
      requires w.ledger.inbox.Sane() && !w.ledger.stopped && L.CanGiveBack(w.ledger) && L.CanCommitAll(w.ledger)
      modifies this`live, this`lastSeq, this`letters, this`crashed, inbox, store
      ensures Shows(Judged(actor, w, views, storeOk, old(store.nextIngest), poison))
      ensures step == if crashed then Crashed else Work
    {
      ghost var decided := AfterDecide(actor, w, views, poison);
      var pass := Decide(batch, views);
      if pass.crashed {
        Abort(batch, poison, w);
        return Crashed;
      }
      var events, _, _ := Filter(pass.events, actor.emits);
      if !storeOk {
        Abort(batch, live, decided);
        return Crashed;
      }
      Conclude(batch, events, decided);
      return Work;
    }

    /** `rebuild`: the snapshot's state or genesis, then the tail one event at a time. */
    method RebuildState(snapshot: Option<Json>, tail: seq<Event>) returns (r: Option<S>)
      ensures r == Rebuild(actor, snapshot, tail)
    {
      var base := if snapshot.Some? then actor.restore(snapshot.value) else Some(actor.genesis);
      if base.None? {
        return None;
      }
      var s := base.value;
      for i := 0 to |tail|
        invariant s == Fold(actor, base.value, tail[..i])
      {
        assert tail[..i + 1][..i] == tail[..i];
        s := actor.apply(s, tail[i]);
      }
      assert tail[..|tail|] == tail;
      r := Some(s);
    }

    /** `restart_es` after a successful load. */
    method Restart(ghost w: World<S>) returns (ok: bool)
      requires Inv(actor, w) && w.phase.Down? && Shows(w)
      modifies this`live, this`lastSeq, this`crashed
      ensures ok && Shows(AfterRestart(actor, w, true))
    {
      var replay := MemReplay(store.Value().Of(path).entries);
      assert Reloaded(actor, w.journal).Some? by { ReloadIsTheFold(actor, w.journal); }
      var state := if replay.snapshot.Some? then Some(replay.snapshot.value.state) else None;
      var rebuilt := RebuildState(state, replay.tail);
      live := rebuilt.value;
      crashed := false;
      lastSeq := HeadOf(replay.events);
      ok := true;
    }
  }

  /** Nothing after a panic is judged. */
  lemma {:induction false} PanicEndsThePass<S>(a: Actor<S>, s: S, claims: seq<Claim>, views: nat -> Json, i: nat)
    requires i < |claims| && !DecideAll(a, s, claims[..i], views).crashed
    requires Judge(a, s, claims[i].envelope, views(i)) == Panicked
    ensures DecideAll(a, s, claims, views) == DecideAll(a, s, claims[..i], views).(crashed := true)
    decreases |claims|
  {
    var n := |claims| - 1;
    if i < n {
      assert claims[..n][..i] == claims[..i];
      PanicEndsThePass(a, s, claims[..n], views, i);
    }
  }
}
