/**
 What one pass, one append and one move come to, message by message and event by event
 (src/kernel.rs, src/actor.rs): who is rejected, what is emitted, journaled and loaded, and where
 the last committed number stands.
 */
module EsPasses {
  import opened Wrappers
  import opened Journals
  import opened MemoryStore
  import opened Inboxes
  import L = InboxLedger
  import opened EsActors
  import opened EsMachine
  import opened EsInvariant
  import opened EsTheorems
  import opened EsLoops

  // ---- One pass ----

  predicate Panics<S>(a: Actor<S>, s: S, claim: Claim, view: Json) {
    claim.envelope.schema in a.handled && a.decide(s, claim.envelope, view).Panicked?
  }

  predicate Rejects<S>(a: Actor<S>, s: S, claim: Claim, view: Json) {
    claim.envelope.schema !in a.handled || a.decide(s, claim.envelope, view).Rejected?
  }

  /** No message before `n` panics. */
  ghost predicate Reaches<S>(a: Actor<S>, s: S, claims: seq<Claim>, views: nat -> Json, n: nat) {
    forall i :: 0 <= i < n && i < |claims| ==> !Panics(a, s, claims[i], views(i))
  }

  /** What the handler says to one message. */
  function Says<S>(a: Actor<S>, s: S, claim: Claim, view: Json): seq<Event> {
    if claim.envelope.schema in a.handled && a.decide(s, claim.envelope, view).Emitted?
    then a.decide(s, claim.envelope, view).events
    else []
  }

  lemma ReachesOneMore<S>(a: Actor<S>, s: S, claims: seq<Claim>, views: nat -> Json)
    requires claims != []
    ensures var n := |claims| - 1;
            && (Reaches(a, s, claims, views, n) <==> Reaches(a, s, claims[..n], views, n))
            && (Reaches(a, s, claims, views, n + 1) <==>
                Reaches(a, s, claims[..n], views, n) && !Panics(a, s, claims[n], views(n)))
  {
    var n := |claims| - 1;
    assert forall i :: 0 <= i < n ==> claims[..n][i] == claims[i];
  }

  /** A pass is given up exactly if some message of the batch panics. */
  lemma {:induction false} CrashesIff<S>(a: Actor<S>, s: S, claims: seq<Claim>, views: nat -> Json)
    ensures DecideAll(a, s, claims, views).crashed <==> !Reaches(a, s, claims, views, |claims|)
    decreases |claims|
  {
    if claims != [] {
      CrashesIff(a, s, claims[..|claims| - 1], views);
      ReachesOneMore(a, s, claims, views);
    }
  }

  /** Message `i` was reached and rejected. */
  ghost predicate RejectedAt<S>(a: Actor<S>, s: S, claims: seq<Claim>, views: nat -> Json, i: nat) {
    i < |claims| && Reaches(a, s, claims, views, i) && Rejects(a, s, claims[i], views(i))
  }

  lemma RejectedAtPrefix<S>(a: Actor<S>, s: S, claims: seq<Claim>, views: nat -> Json, i: nat)
    requires i + 1 < |claims|
    ensures RejectedAt(a, s, claims, views, i) <==> RejectedAt(a, s, claims[..|claims| - 1], views, i)
  {
    var n := |claims| - 1;
    assert forall k :: 0 <= k < n ==> claims[..n][k] == claims[k];
  }

  lemma RejectedOneMore<S>(a: Actor<S>, s: S, claims: seq<Claim>, views: nat -> Json, o: nat)
    requires claims != []
    ensures var n := |claims| - 1;
            RejectedSome(a, s, claims, views, o) <==>
            RejectedSome(a, s, claims[..n], views, o) || (RejectedAt(a, s, claims, views, n) && claims[n].offset == o)
  {
    var n := |claims| - 1;
    if RejectedSome(a, s, claims, views, o) {
      var i: nat :| RejectedAt(a, s, claims, views, i) && claims[i].offset == o;
      if i < n {
        RejectedAtPrefix(a, s, claims, views, i);
        assert claims[..n][i].offset == o;
      }
    }
    if RejectedSome(a, s, claims[..n], views, o) {
      var i: nat :| RejectedAt(a, s, claims[..n], views, i) && claims[..n][i].offset == o;
      RejectedAtPrefix(a, s, claims, views, i);
      assert claims[i].offset == o;
    }
  }

  /** Some message at this offset was reached and rejected. */
  ghost predicate RejectedSome<S>(a: Actor<S>, s: S, claims: seq<Claim>, views: nat -> Json, o: nat) {
    exists i: nat :: RejectedAt(a, s, claims, views, i) && claims[i].offset == o
  }

  /**
   The dead letters of a pass are exactly the offsets of the messages without a handler or refused
   by it, up to the first panic.
   */
  lemma {:induction false} RejectedIff<S>(a: Actor<S>, s: S, claims: seq<Claim>, views: nat -> Json, o: nat)
    ensures o in DecideAll(a, s, claims, views).rejected <==> RejectedSome(a, s, claims, views, o)
    decreases |claims|
  {
    if claims != [] {
      var n := |claims| - 1;
      RejectedIff(a, s, claims[..n], views, o);
      CrashesIff(a, s, claims[..n], views);
      ReachesOneMore(a, s, claims, views);
      RejectedOneMore(a, s, claims, views, o);
      RejectedLast(a, s, claims, views, o);
    }
  }

  /** The last message's letter, if the pass reaches it. */
  lemma RejectedLast<S>(a: Actor<S>, s: S, claims: seq<Claim>, views: nat -> Json, o: nat)
    requires claims != []
    ensures var n := |claims| - 1;
            var before := DecideAll(a, s, claims[..n], views);
            o in DecideAll(a, s, claims, views).rejected <==>
            o in before.rejected || (!before.crashed && Rejects(a, s, claims[n], views(n)) && claims[n].offset == o)
  {
  }

  function Sayings<S>(a: Actor<S>, s: S, claims: seq<Claim>, views: nat -> Json): (r: seq<seq<Event>>)
    ensures |r| == |claims| && forall i :: 0 <= i < |r| ==> r[i] == Says(a, s, claims[i], views(i))
  {
    seq(|claims|, i requires 0 <= i < |claims| => Says(a, s, claims[i], views(i)))
  }

  /** A pass that is not given up has all its messages' events, in message order. */
  lemma {:induction false} PassEvents<S>(a: Actor<S>, s: S, claims: seq<Claim>, views: nat -> Json)
    requires !DecideAll(a, s, claims, views).crashed
    ensures DecideAll(a, s, claims, views).events == Flat(Sayings(a, s, claims, views))
    decreases |claims|
  {
    if claims != [] {
      var n := |claims| - 1;
      PassEvents(a, s, claims[..n], views);
      assert Sayings(a, s, claims, views) == Sayings(a, s, claims[..n], views) + [Says(a, s, claims[n], views(n))];
      FlatGrows(Sayings(a, s, claims[..n], views), Says(a, s, claims[n], views(n)));
    }
  }

  // ---- The journal of a run ----

  lemma {:induction false} HistoryDeclared<S>(a: Actor<S>, log: seq<Batch>, events: seq<Event>, i: nat)
    requires HistoryOk(a, log, events) && i < |events|
    ensures events[i].schema in a.emits
    decreases |log|
  {
    var n, b := |log| - 1, log[|log| - 1];
    if i < b.base {
      HistoryDeclared(a, log[..n], events[..b.base], i);
    } else {
      var pass := DecideAll(a, Fold(a, a.genesis, events[..b.base]), b.claims, b.views);
      DeclaredIsDeclared(pass.events, a.emits);
      assert events[b.base..][i - b.base] == events[i];
    }
  }

  /** On every run each journaled event has a schema the actor declared. */
  lemma JournalIsDeclared<S(!new)>(a: Actor<S>, capacity: nat, policy: OverloadPolicy, moves: seq<Move<S>>, i: nat)
    requires RoundTrips(a) && SoundRun(a, Start(a, capacity, policy), moves)
    requires i < |Past(Run(a, Start(a, capacity, policy), moves))|
    ensures Past(Run(a, Start(a, capacity, policy), moves))[i].schema in a.emits
  {
    RunsKeepInv(a, capacity, policy, moves);
    var c := CoreOf(Run(a, Start(a, capacity, policy), moves));
    HistoryDeclared(a, c.Logged(), c.Past(), i);
  }

  // ---- One append ----

  /** Every message of the batch is a copy of one fact. */
  ghost predicate CopiesOf(claims: seq<Claim>, stamp: Stamp) {
    claims != [] && forall i :: 0 <= i < |claims| ==> claims[i].envelope.stamp == Some(stamp)
  }

  /** Copies of one fact journal one copy of its first event under its origin, or nothing if it is held. */
  lemma CopiesAreOneCheckpoint(j: JournalState, claims: seq<Claim>, events: seq<Event>, ingest: nat, stamp: Stamp)
    requires CopiesOf(claims, stamp) && events != []
    ensures var r, origin := Record(j, claims, events, ingest), EventOrigin.CatchUp(stamp.journal, stamp.seqNo);
            if exists i :: 0 <= i < |j.Events()| && j.Events()[i].origin == origin
            then r.journal == j && r.seqs == [] && r.held
            else
              && r.journal.Events() == j.Events() + [JournaledEvent(j.eventCount, events[0], origin, ingest)]
              && r.journal.Latest() == j.Latest()
              && (if |events| > 1 then r.seqs == [] && r.held else r.seqs == [0] && !r.held)
  {
    CopiesRecordOne(j, claims, events, ingest);
    AppendEventShape(j, events[0], EventOrigin.CatchUp(stamp.journal, stamp.seqNo), ingest);
  }

  /** Any other batch records every event as the actor's own, numbered and timed on from the last. */
  lemma OtherBatchesRecordAll(j: JournalState, claims: seq<Claim>, events: seq<Event>, ingest: nat)
    requires forall stamp :: !CopiesOf(claims, stamp)
    ensures var r := Record(j, claims, events, ingest);
            && !r.held && |r.seqs| == |events| && r.journal.Latest() == j.Latest()
            && |r.journal.Events()| == |j.Events()| + |events| && j.Events() <= r.journal.Events()
            && forall i :: 0 <= i < |events| ==>
                 && r.seqs[i] == j.eventCount + i
                 && r.journal.Events()[|j.Events()| + i] ==
                    JournaledEvent(j.eventCount + i, events[i], Recorded, ingest + i)
  {
    if SameFact(claims) { assert CopiesOf(claims, claims[0].envelope.stamp.value); }
    AppendAllShape(j, events, ingest);
  }

  // ---- The last committed number ----

  lemma PlainRecordHead(j: JournalState, claims: seq<Claim>, events: seq<Event>, ingest: nat)
    requires JournalFits(j) && !SameFact(claims)
    ensures var r := Record(j, claims, events, ingest);
            && !r.held && |r.journal.Events()| == |j.Events()| + |events| && |r.seqs| == |events|
            && (events != [] ==> r.seqs[|r.seqs| - 1] == |r.journal.Events()| - 1)
  {
    AppendAllEvents(j, events, ingest);
  }

  lemma PlainSettle<S>(a: Actor<S>, w: World<S>, ingest: nat)
    requires w.phase.Decided? && L.CanGiveBack(w.ledger) && L.CanCommitAll(w.ledger)
    requires JournalFits(w.journal) && !SameFact(w.ledger.claims)
    ensures var done := Settle(a, w, ingest);
            && |Past(done)| == |Past(w)| + |w.phase.events| && done.phase == AtRest
            && done.lastSeq == if w.phase.events == [] then w.lastSeq else Some(|Past(done)| - 1)
  {
    var r := Record(w.journal, w.ledger.claims, w.phase.events, ingest);
    PlainRecordHead(w.journal, w.ledger.claims, w.phase.events, ingest);
    var appended := AfterAppend(w, true, ingest);
    assert appended.journal == r.journal && appended.phase.recorded == w.phase.events && appended.phase.seqs == r.seqs;
    assert AfterCommit(appended).journal == r.journal;
  }

  /** After a plain batch the last committed number is the journal's head; without events it stays. */
  lemma PlainBatchMovesTheHead<S>(a: Actor<S>, w: World<S>, ingest: nat)
    requires Inv(a, w) && Legal(w, Append(true, ingest)) && !SameFact(w.ledger.claims)
    ensures L.CanCommitAll(w.ledger)
    ensures var done := Settle(a, w, ingest);
            && |Past(done)| == |Past(w)| + |w.phase.events| && done.phase == AtRest
            && done.lastSeq == if w.phase.events == [] then w.lastSeq else Some(|Past(done)| - 1)
  {
    LoopNeverPanics(a, w);
    PlainSettle(a, w, ingest);
  }

  /** A restart of a loaded journal stands at its head; one whose load fails changes nothing. */
  lemma RestartFindsTheHead<S>(a: Actor<S>, w: World<S>, loaded: bool)
    requires Inv(a, w) && Legal(w, Restart(loaded))
    ensures var w' := Next(a, w, Restart(loaded));
            if loaded then
              && w'.phase.AtRest? && w'.live == Fold(a, a.genesis, Past(w))
              && w'.lastSeq == (if Past(w) == [] then None else Some(|Past(w)| - 1))
              && w' == w.(live := w'.live, phase := w'.phase, lastSeq := w'.lastSeq)
            else w' == w
  {
    ReloadIsTheFold(a, w.journal);
    HeadIsLast(w.journal.Events());
  }

  /** A new incarnation has no number to snapshot at before it commits one. */
  lemma BootForgetsTheHead<S>(a: Actor<S>, w: World<S>, capacity: nat, policy: OverloadPolicy, loaded: bool,
                              anchor: nat, nowMs: nat, ok: bool)
    requires Legal(w, Boot(capacity, policy, loaded))
    ensures var w' := Next(a, w, Boot(capacity, policy, loaded));
            && !Legal(w', TakeSnapshot(anchor, nowMs, ok))
            && w'.letters == [] && w'.journal == w.journal && w'.log == w.log && w'.ledger.accepted == []
  {
  }

  // ---- Snapshots and rebuilds ----

  /** A snapshot that is captured and stored becomes the latest; otherwise nothing changes. */
  lemma SnapshotIsStored<S>(a: Actor<S>, w: World<S>, anchor: nat, nowMs: nat, ok: bool)
    requires Legal(w, TakeSnapshot(anchor, nowMs, ok))
    ensures var w' := Next(a, w, TakeSnapshot(anchor, nowMs, ok));
            if ok && a.capture(w.live).Some? then
              && w'.journal.Latest() == Some(Snapshot(anchor, a.capture(w.live).value))
              && w'.journal.Events() == w.journal.Events() && w' == w.(journal := w'.journal)
            else w' == w
  {
    if a.capture(w.live).Some? { AppendSnapshotShape(w.journal, anchor, a.capture(w.live).value, nowMs); }
  }

  /** A rebuild fails exactly if there is a snapshot that does not restore; else it folds the tail from it. */
  lemma RebuildsIff<S>(a: Actor<S>, snapshot: Option<Json>, tail: seq<Event>)
    ensures Rebuild(a, snapshot, tail).None? <==> snapshot.Some? && a.restore(snapshot.value).None?
    ensures snapshot.None? ==> Rebuild(a, snapshot, tail) == Some(Fold(a, a.genesis, tail))
    ensures snapshot.Some? && a.restore(snapshot.value).Some? ==>
              Rebuild(a, snapshot, tail) == Some(Fold(a, a.restore(snapshot.value).value, tail))
  {
  }

  // ---- How a step ends ----

  /** A step brings the actor down exactly if a handler panics or the append fails. */
  lemma StepCrashesIff<S>(a: Actor<S>, w: World<S>, views: nat -> Json, ok: bool, ingest: nat, poison: S)
    requires w.phase.Claimed? && L.CanGiveBack(w.ledger) && L.CanCommitAll(w.ledger)
    ensures Judged(a, w, views, ok, ingest, poison).phase.Down? <==>
            !ok || exists i :: 0 <= i < |w.ledger.claims| && Panics(a, w.live, w.ledger.claims[i], views(i))
  {
    CrashesIff(a, w.live, w.ledger.claims, views);
  }

  /** A failed append leaves state, journal, letters and history as they were and gives the claims back. */
  lemma FailedAppendLeaves<S>(a: Actor<S>, w: World<S>, ingest: nat)
    requires Legal(w, Append(false, ingest))
    ensures var w' := Next(a, w, Append(false, ingest));
            w'.phase.Down? && w' == w.(ledger := L.GiveBack(w.ledger), phase := w'.phase)
  {
  }

  // ---- A step is the machine's moves ----

  lemma OneMoreMove<S(!new)>(a: Actor<S>, w: World<S>, moves: seq<Move<S>>, move: Move<S>)
    requires LegalRun(a, w, moves) && Legal(Run(a, w, moves), move)
    ensures LegalRun(a, w, moves + [move]) && Run(a, w, moves + [move]) == Next(a, Run(a, w, moves), move)
  {
    assert (moves + [move])[..|moves|] == moves;
  }

  lemma FirstThen<S(!new)>(a: Actor<S>, w: World<S>, move: Move<S>, rest: seq<Move<S>>)
    requires Legal(w, move) && LegalRun(a, Next(a, w, move), rest)
    ensures LegalRun(a, w, [move] + rest) && Run(a, w, [move] + rest) == Run(a, Next(a, w, move), rest)
    decreases |rest|
  {
    if rest == [] {
      OneMoreMove(a, w, [], move);
      assert [] + [move] == [move] + rest;
    } else {
      var m := |rest| - 1;
      FirstThen(a, w, move, rest[..m]);
      OneMoreMove(a, w, [move] + rest[..m], rest[m]);
      assert [move] + rest == [move] + rest[..m] + [rest[m]];
    }
  }

  /** Commit and apply. */
  lemma CommittedIsMoves<S(!new)>(a: Actor<S>, w: World<S>) returns (moves: seq<Move<S>>)
    requires w.phase.Appended? && L.CanCommitAll(w.ledger)
    ensures moves <= [Commit, Apply] && LegalRun(a, w, moves)
    ensures var done := AfterCommit(w);
            Run(a, w, moves) == if done.phase.Applying?
                                then done.(live := Fold(a, done.live, done.phase.committed), phase := AtRest)
                                else done
  {
    var rest: seq<Move<S>> := [];
    if AfterCommit(w).phase.Applying? {
      OneMoreMove(a, AfterCommit(w), [], Apply);
      rest := [] + [Apply];
    }
    FirstThen(a, w, Commit, rest);
    moves := [Commit] + rest;
  }

  /** Append, commit, apply. */
  lemma SettledIsMoves<S(!new)>(a: Actor<S>, w: World<S>, ok: bool, ingest: nat) returns (moves: seq<Move<S>>)
    requires w.phase.Decided? && L.CanGiveBack(w.ledger) && L.CanCommitAll(w.ledger)
    ensures moves <= [Append(ok, ingest), Commit, Apply] && LegalRun(a, w, moves)
    ensures Run(a, w, moves) == if ok then Settle(a, w, ingest) else Crash(w, w.live)
  {
    var rest: seq<Move<S>> := [];
    if ok { rest := CommittedIsMoves(a, AfterAppend(w, ok, ingest)); }
    FirstThen(a, w, Append(ok, ingest), rest);
    moves := [Append(ok, ingest)] + rest;
  }

  /** Decide, append, commit, apply: as far as the step gets. */
  lemma JudgedIsMoves<S(!new)>(a: Actor<S>, w: World<S>, views: nat -> Json, ok: bool, ingest: nat, poison: S)
    returns (moves: seq<Move<S>>)
    requires w.phase.Claimed? && L.CanGiveBack(w.ledger) && L.CanCommitAll(w.ledger)
    ensures moves <= [Decide(views, poison), Append(ok, ingest), Commit, Apply]
    ensures LegalRun(a, w, moves) && Run(a, w, moves) == Judged(a, w, views, ok, ingest, poison)
  {
    var decided, rest: seq<Move<S>> := AfterDecide(a, w, views, poison), [];
    if !decided.phase.Down? { rest := SettledIsMoves(a, decided, ok, ingest); }
    FirstThen(a, w, Decide(views, poison), rest);
    moves := [Decide(views, poison)] + rest;
  }

  /** The whole step is a run of the machine: claim, decide, append, commit, apply, as far as it gets. */
  lemma StepIsMoves<S(!new)>(a: Actor<S>, w: World<S>, n: nat, views: nat -> Json, ok: bool, ingest: nat, poison: S)
    returns (moves: seq<Move<S>>)
    requires Ready(w, n)
    ensures moves <= [Take(n), Decide(views, poison), Append(ok, ingest), Commit, Apply] && moves != []
    ensures LegalRun(a, w, moves) && Run(a, w, moves) == Stepped(a, w, n, views, ok, ingest, poison)
    ensures Run(a, w, moves).phase.AtRest? || Run(a, w, moves).phase.Down?
  {
    var taken, rest: seq<Move<S>> := Next(a, w, Take(n)), [];
    if !taken.phase.AtRest? {
      rest := JudgedIsMoves(a, taken, views, ok, ingest, poison);
    }
    FirstThen(a, w, Take(n), rest);
    moves := [Take(n)] + rest;
  }
}
