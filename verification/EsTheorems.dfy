/** What the event-sourced engine promises on every run, and exactly where it stops promising. */
module EsTheorems {
  import opened Wrappers
  import opened Journals
  import opened Inboxes
  import L = InboxLedger
  import opened EsActors
  import opened EsMachine
  import opened EsInvariant

  // ---- On every sound run ----

  /** Between steps the live state is the fold of the whole journal from genesis. */
  lemma LiveStateIsTheFold<S(!new)>(a: Actor<S>, capacity: nat, policy: OverloadPolicy, moves: seq<Move<S>>)
    requires RoundTrips(a) && SoundRun(a, Start(a, capacity, policy), moves)
    ensures var w := Run(a, Start(a, capacity, policy), moves);
            w.phase.AtRest? || w.phase.Claimed? || w.phase.Decided? ==>
              w.live == Fold(a, a.genesis, Past(w))
  {
    RunsKeepInv(a, capacity, policy, moves);
    var w := Run(a, Start(a, capacity, policy), moves);
    assert CoreOf(w).Past() == Past(w);
  }

  /** Where batch `k`'s record ends in the history. */
  function RecordEnd(log: seq<Batch>, k: nat, total: nat): nat
    requires k < |log|
  {
    if k + 1 < |log| then log[k + 1].base else total
  }

  /** Batch `k` stands in a history: its stretch is what it decided against the fold before it. */
  ghost predicate Stands<S>(a: Actor<S>, log: seq<Batch>, events: seq<Event>, k: nat)
    requires k < |log|
  {
    var base, end := log[k].base, RecordEnd(log, k, |events|);
    && base <= end <= |events|
    && BatchOk(a, log[k], Fold(a, a.genesis, events[..base]), events[base..end])
    && (k == 0 ==> base == 0)
  }

  lemma SliceOfPrefix<T>(s: seq<T>, m: nat, i: nat, j: nat)
    requires i <= j <= m <= |s|
    ensures s[..m][..i] == s[..i] && s[..m][i..j] == s[i..j]
  {
  }

  /** What stands in a prefix of a history stands in the history. */
  lemma StandsInLonger<S>(a: Actor<S>, log: seq<Batch>, events: seq<Event>, k: nat)
    requires k + 1 < |log| && log[|log| - 1].base <= |events|
    requires Stands(a, log[..|log| - 1], events[..log[|log| - 1].base], k)
    ensures Stands(a, log, events, k)
  {
    var n, before := |log| - 1, events[..log[|log| - 1].base];
    var end := RecordEnd(log[..n], k, |before|);
    assert log[..n][k] == log[k] && end == RecordEnd(log, k, |events|);
    assert log[k].base <= end <= |before|;
    SliceOfPrefix(events, |before|, log[k].base, end);
  }

  lemma {:induction false} HistoryByBatch<S>(a: Actor<S>, log: seq<Batch>, events: seq<Event>, k: nat)
    requires HistoryOk(a, log, events) && k < |log|
    ensures Stands(a, log, events, k)
    decreases |log|
  {
    var n, b := |log| - 1, log[|log| - 1];
    if k == n {
      assert events[b.base..|events|] == events[b.base..];
      assert n == 0 ==> events[..b.base] == [];
    } else {
      HistoryByBatch(a, log[..n], events[..b.base], k);
      StandsInLonger(a, log, events, k);
    }
  }

  /**
   The journal is the committed batches' decisions: batch `k` holds the envelopes accepted at its
   offsets, and its stretch of the journal is the declared part of one decision on each, all taken
   against the fold at the batch's start; a batch that recorded nothing held copies of a fact the
   journal already had. Offsets are committed in order, each once.
   */
  lemma JournalIsTheDecisions<S(!new)>(a: Actor<S>, capacity: nat, policy: OverloadPolicy,
                                       moves: seq<Move<S>>, k: nat)
    requires RoundTrips(a) && SoundRun(a, Start(a, capacity, policy), moves)
    requires var w := Run(a, Start(a, capacity, policy), moves); !w.phase.Appended? && k < |w.log|
    ensures var w := Run(a, Start(a, capacity, policy), moves);
            && Stands(a, w.log, Past(w), k)
            && (!w.log[k].recorded ==> FactHeld(w.log[k], w.journal.Events()))
            && w.born <= |w.log| && w.ledger.committed == LogOffsets(w.log[w.born..])
            && L.Increasing(w.ledger.committed)
            && LogMail(w.log[w.born..], w.ledger.accepted)
  {
    RunsKeepInv(a, capacity, policy, moves);
    var w := Run(a, Start(a, capacity, policy), moves);
    assert CoreOf(w).Past() == Past(w) && CoreOf(w).Logged() == w.log;
    HistoryByBatch(a, w.log, Past(w), k);
  }

  /**
   Snapshot transparency: at any point of any run the latest snapshot with its strict tail rebuilds
   what replay from genesis gives, the journal without a snapshot, with one anchored at 0, and
   without any event included.
   */
  lemma ReplayIsReplayFromGenesis<S(!new)>(a: Actor<S>, capacity: nat, policy: OverloadPolicy, moves: seq<Move<S>>)
    requires RoundTrips(a) && SoundRun(a, Start(a, capacity, policy), moves)
    ensures var w := Run(a, Start(a, capacity, policy), moves);
            Reloaded(a, w.journal) == Some(Fold(a, a.genesis, Past(w)))
  {
    RunsKeepInv(a, capacity, policy, moves);
    ReloadIsTheFold(a, Run(a, Start(a, capacity, policy), moves).journal);
  }

  /** The offset's mail waits in its own slot, or was dead-lettered by a stop, once. */
  ghost predicate MailKept(l: L.Ledger, o: nat) {
    if l.stopped then o in l.dead && L.NoRepeats(l.dead)
    else
      && l.inbox.cursor <= o < |l.accepted| && o - l.inbox.cursor < |l.inbox.queue|
      && l.inbox.queue[o - l.inbox.cursor] == Slot(o, Some(l.accepted[o]))
  }

  lemma DownKeepsMail<S>(a: Actor<S>, w: World<S>, o: nat)
    requires Inv(a, w) && w.phase.Down? && w.ledger.inbox.cursor <= o < w.ledger.inbox.nextOffset
    ensures MailKept(w.ledger, o)
  {
    L.WaitsInItsSlot(w.ledger, o);
  }

  /** Whatever a crash interrupted, all uncommitted mail waits in its own slot. */
  lemma CrashLosesNoMail<S(!new)>(a: Actor<S>, capacity: nat, policy: OverloadPolicy, moves: seq<Move<S>>, o: nat)
    requires RoundTrips(a) && SoundRun(a, Start(a, capacity, policy), moves)
    requires var w := Run(a, Start(a, capacity, policy), moves);
             w.phase.Down? && w.ledger.inbox.cursor <= o < w.ledger.inbox.nextOffset
    ensures MailKept(Run(a, Start(a, capacity, policy), moves).ledger, o)
  {
    RunsKeepInv(a, capacity, policy, moves);
    DownKeepsMail(a, Run(a, Start(a, capacity, policy), moves), o);
  }

  /**
   A journal of plain records: the idle snapshot is anchored at the head and holds the fold of
   every event up to its anchor. An actor that never committed has no anchor to snapshot at.
   */
  lemma IdleSnapshotIsTheFold<S(!new)>(a: Actor<S>, capacity: nat, policy: OverloadPolicy,
                                       moves: seq<Move<S>>, anchor: nat, nowMs: nat)
    requires RoundTrips(a) && SoundRun(a, Start(a, capacity, policy), moves)
    requires var w := Run(a, Start(a, capacity, policy), moves);
             w.phase.AtRest? && w.lastSeq == Some(anchor) && AllRecorded(w.journal.Events())
    ensures var w := Run(a, Start(a, capacity, policy), moves);
            && Legal(w, TakeSnapshot(anchor, nowMs, true)) && Sound(a, w, TakeSnapshot(anchor, nowMs, true))
            && anchor + 1 == |Past(w)| && w.live == Fold(a, a.genesis, Past(w)[..anchor + 1])
  {
    RunsKeepInv(a, capacity, policy, moves);
    var w := Run(a, Start(a, capacity, policy), moves);
    var past, events := Past(w), w.journal.Events();
    assert CoreOf(w).Past() == past;
    assert events[..|events|] == events;
    assert past[..anchor + 1] == past && past[anchor + 1..] == [];
  }

  /** Plain appends number the events as the journal does: the stamps of the fan-out are true. */
  lemma PlainStampsAreTrue(j: JournalState, claims: seq<Claim>, events: seq<Event>, ingest: nat, k: nat)
    requires JournalFits(j) && !SameFact(claims) && k < |events|
    ensures var r := Record(j, claims, events, ingest);
            && |r.seqs| == |events| && r.seqs[k] < |r.journal.Events()|
            && r.journal.Events()[r.seqs[k]] == JournaledEvent(r.seqs[k], events[k], Recorded, ingest + k)
  {
    AppendAllShape(j, events, ingest);
  }

  // ---- Where the guards stand ----

  lemma SnapshotReload<S>(a: Actor<S>, j: JournalState, s: S, anchor: nat, state: Json, nowMs: nat)
    requires JournalFits(j) && anchor < j.eventCount && a.restore(state) == Some(s)
    ensures Reloaded(a, j.AppendSnapshot(anchor, state, nowMs)) ==
            Some(Fold(a, s, Payloads(j.Events())[anchor + 1..]))
  {
    var j' := j.AppendSnapshot(anchor, state, nowMs);
    AppendSnapshotShape(j, anchor, state, nowMs);
    AfterIsTail(j'.entries, anchor);
    TailIsSuffix(j.Events(), anchor);
  }

  /** A journal's last committed number is one of its numbers. */
  lemma AnchorIsInside<S>(a: Actor<S>, w: World<S>)
    requires Inv(a, w) && w.phase.AtRest? && w.lastSeq.Some?
    ensures JournalFits(w.journal) && w.lastSeq.value < w.journal.eventCount == |Past(w)|
  {
    assert HeadOk(CoreOf(w));
  }

  lemma SnapshotReplaysInside<S(!new)>(a: Actor<S>, w: World<S>, anchor: nat, nowMs: nat)
    requires RoundTrips(a) && Legal(w, TakeSnapshot(anchor, nowMs, true)) && a.capture(w.live).Some?
    requires JournalFits(w.journal) && anchor < w.journal.eventCount
    ensures Reloaded(a, Next(a, w, TakeSnapshot(anchor, nowMs, true)).journal) == Some(w.live) <==>
            Sound(a, w, TakeSnapshot(anchor, nowMs, true))
  {
    var state := a.capture(w.live).value;
    assert Next(a, w, TakeSnapshot(anchor, nowMs, true)).journal == w.journal.AppendSnapshot(anchor, state, nowMs);
    SnapshotReload(a, w.journal, w.live, anchor, state, nowMs);
  }

  /**
   A snapshot of the live state under `anchor` replays to the live state exactly when folding the
   events after the anchor once more changes nothing.
   */
  lemma SnapshotReplaysIff<S(!new)>(a: Actor<S>, w: World<S>, anchor: nat, nowMs: nat)
    requires RoundTrips(a) && Inv(a, w) && Legal(w, TakeSnapshot(anchor, nowMs, true))
    requires a.capture(w.live).Some?
    ensures Reloaded(a, Next(a, w, TakeSnapshot(anchor, nowMs, true)).journal) == Some(w.live) <==>
            Sound(a, w, TakeSnapshot(anchor, nowMs, true))
  {
    AnchorIsInside(a, w);
    SnapshotReplaysInside(a, w, anchor, nowMs);
  }

  /** The state and journal a settled batch of copies leaves. */
  lemma CopiesSettle<S>(a: Actor<S>, w: World<S>, ingest: nat)
    requires Legal(w, Append(true, ingest)) && L.CanCommitAll(w.ledger) && SameFact(w.ledger.claims)
    requires w.phase.events != []
    ensures var stamp, events, done := w.ledger.claims[0].envelope.stamp.value, w.phase.events, Settle(a, w, ingest);
            if HoldsOrigin(w.journal.Events(), stamp.journal, stamp.seqNo)
            then done.journal == w.journal && done.live == w.live
            else
              && done.journal == Checkpointed(w.journal, stamp, events[0], ingest)
              && done.live == (if |events| > 1 then w.live else a.apply(w.live, events[0]))
              && (|events| == 1 ==> done.lastSeq == Some(0))
              && done.phase == AtRest
  {
    CopiesRecordOne(w.journal, w.ledger.claims, w.phase.events, ingest);
    if |w.phase.events| == 1 {
      assert w.phase.events[..0] == [];
      assert Fold(a, w.live, w.phase.events) == a.apply(Fold(a, w.live, w.phase.events[..0]), w.phase.events[0]);
    }
  }

  lemma CheckpointFold<S>(a: Actor<S>, j: JournalState, stamp: Stamp, event: Event, ingest: nat)
    ensures var past, grown := Payloads(j.Events()), Payloads(Checkpointed(j, stamp, event, ingest).Events());
            |grown| == |past| + 1 && Fold(a, a.genesis, grown) == a.apply(Fold(a, a.genesis, past), event)
  {
    AppendEventShape(j, event, EventOrigin.CatchUp(stamp.journal, stamp.seqNo), ingest);
    var past, grown := Payloads(j.Events()), Payloads(Checkpointed(j, stamp, event, ingest).Events());
    assert grown[..|past|] == past && grown[|past|] == event;
  }

  /**
   A batch of copies of one fact leaves the live state behind its journal exactly when the fact is
   new, the batch makes several events, and the one that is recorded would have changed the state.
   */
  lemma CatchUpArmKeepsTheFoldIff<S>(a: Actor<S>, w: World<S>, ingest: nat)
    requires Inv(a, w) && Legal(w, Append(true, ingest)) && SameFact(w.ledger.claims)
    ensures L.CanCommitAll(w.ledger)
    ensures Settle(a, w, ingest).live == Fold(a, a.genesis, Past(Settle(a, w, ingest))) <==>
            AtMostOne(w.journal, w.ledger.claims, w.phase.events) ||
            a.apply(w.live, w.phase.events[0]) == w.live
  {
    LoopNeverPanics(a, w);
    assert w.live == Fold(a, a.genesis, Past(w)) by { assert CoreOf(w).Past() == Past(w); }
    if w.phase.events == [] {
      assert Settle(a, w, ingest).journal == w.journal;
    } else {
      CopiesSettle(a, w, ingest);
      CheckpointFold(a, w.journal, w.ledger.claims[0].envelope.stamp.value, w.phase.events[0], ingest);
    }
  }

  /** A projector records a delivered fact as it is: one event for one message. */
  ghost predicate RecordsOneByOne<S(!new)>(a: Actor<S>) {
    forall s: S, envelope, view :: a.decide(s, envelope, view).Emitted? ==> |a.decide(s, envelope, view).events| <= 1
  }

  lemma {:induction false} DeclaredIsShorter(events: seq<Event>, emits: set<SchemaId>)
    ensures |Declared(events, emits)| <= |events|
    decreases |events|
  {
    if events != [] { DeclaredIsShorter(events[..|events| - 1], emits); }
  }

  /** A projector that takes its facts one claim at a time always passes the append's guard. */
  lemma OneFactAtATimeIsSound<S(!new)>(a: Actor<S>, w: World<S>, ingest: nat)
    requires RecordsOneByOne(a) && Inv(a, w) && Legal(w, Append(true, ingest))
    requires |w.ledger.claims| == 1 && w.journal.eventCount + |w.phase.events| <= BEFORE_GENESIS
    ensures Sound(a, w, Append(true, ingest))
  {
    var c := CoreOf(w);
    assert DecidedOk(a, c);
    assert c.claims[..0] == [];
    var pass := DecideAll(a, c.live, c.claims, c.phase.views);
    assert DecideAll(a, c.live, [], c.phase.views) == Pass([], [], false);
    assert pass == Extend(Pass([], [], false), c.claims[0].offset,
                          Judge(a, c.live, c.claims[0].envelope, c.phase.views(0)));
    DeclaredIsShorter(pass.events, a.emits);
  }

  /**
   A first copy recorded onto a journal that already had events leaves the anchor at 0. Rebuilding
   from the idle snapshot taken next gives the live state exactly when the rest of the journal
   folds into it without change.
   */
  lemma CheckpointAnchorsAtZero<S(!new)>(a: Actor<S>, w: World<S>, ingest: nat, nowMs: nat)
    requires RoundTrips(a) && Inv(a, w) && Legal(w, Append(true, ingest)) && SameFact(w.ledger.claims)
    requires |w.phase.events| == 1 && 0 < w.journal.eventCount < BEFORE_GENESIS
    requires !HoldsOrigin(w.journal.Events(), w.ledger.claims[0].envelope.stamp.value.journal,
                          w.ledger.claims[0].envelope.stamp.value.seqNo)
    ensures L.CanCommitAll(w.ledger)
    ensures var done := Settle(a, w, ingest);
            && done.lastSeq == Some(0) && |Past(done)| == w.journal.eventCount + 1
            && Legal(done, TakeSnapshot(0, nowMs, true))
            && (a.capture(done.live).Some? ==>
                  (Reloaded(a, Next(a, done, TakeSnapshot(0, nowMs, true)).journal) == Some(done.live) <==>
                   Fold(a, done.live, Past(done)[1..]) == done.live))
  {
    LoopNeverPanics(a, w);
    var stamp, done := w.ledger.claims[0].envelope.stamp.value, Settle(a, w, ingest);
    CopiesSettle(a, w, ingest);
    CheckpointFold(a, w.journal, stamp, w.phase.events[0], ingest);
    CheckpointShape(w.journal, stamp, w.phase.events[0], ingest);
    if a.capture(done.live).Some? { SnapshotReplaysInside(a, done, 0, nowMs); }
  }

  /**
   A new incarnation starts from the fold of its journal exactly when the load succeeded or there
   was nothing to recover: after a failed load it runs on its spawned state.
   */
  lemma BootRecoversIff<S(!new)>(a: Actor<S>, w: World<S>, capacity: nat, policy: OverloadPolicy, loaded: bool)
    requires Inv(a, w) && Legal(w, Boot(capacity, policy, loaded))
    ensures var w' := Next(a, w, Boot(capacity, policy, loaded));
            w'.live == Fold(a, a.genesis, Past(w')) <==> loaded || Fold(a, a.genesis, Past(w)) == a.genesis
  {
    ReloadIsTheFold(a, w.journal);
  }

  // ---- Batches and single steps ----

  /** What one message alone would record against `s`. */
  function Part<S>(a: Actor<S>, s: S, claim: Claim, view: Json): seq<Event> {
    match Judge(a, s, claim.envelope, view)
    case Emitted(events) => Declared(events, a.emits)
    case _ => []
  }

  function Flat(parts: seq<seq<Event>>): seq<Event> {
    if parts == [] then [] else Flat(parts[..|parts| - 1]) + parts[|parts| - 1]
  }

  /** Message by message, all against the state before the batch. */
  function BatchParts<S>(a: Actor<S>, s: S, claims: seq<Claim>, views: nat -> Json): (r: seq<seq<Event>>)
    ensures |r| == |claims| && forall i :: 0 <= i < |r| ==> r[i] == Part(a, s, claims[i], views(i))
  {
    seq(|claims|, i requires 0 <= i < |claims| => Part(a, s, claims[i], views(i)))
  }

  /** Message by message, each against the state the ones before it leave. */
  function SerialParts<S>(a: Actor<S>, s: S, claims: seq<Claim>, views: nat -> Json): (r: seq<seq<Event>>)
    ensures |r| == |claims|
    decreases |claims|
  {
    if claims == [] then []
    else
      var n := |claims| - 1;
      var before := SerialParts(a, s, claims[..n], views);
      before + [Part(a, Fold(a, s, Flat(before)), claims[n], views(n))]
  }

  lemma FlatGrows(parts: seq<seq<Event>>, more: seq<Event>)
    ensures Flat(parts + [more]) == Flat(parts) + more
  {
    assert (parts + [more])[..|parts|] == parts;
  }

  lemma OneMorePart<S>(a: Actor<S>, s: S, claims: seq<Claim>, views: nat -> Json, n: nat)
    requires |claims| == n + 1
    ensures BatchParts(a, s, claims, views) ==
            BatchParts(a, s, claims[..n], views) + [Part(a, s, claims[n], views(n))]
  {
  }

  lemma DeclaredOfOneMore<S>(a: Actor<S>, s: S, claim: Claim, view: Json, pass: Pass)
    requires !Extend(pass, claim.offset, Judge(a, s, claim.envelope, view)).crashed
    ensures Declared(Extend(pass, claim.offset, Judge(a, s, claim.envelope, view)).events, a.emits) ==
            Declared(pass.events, a.emits) + Part(a, s, claim, view)
  {
    var verdict := Judge(a, s, claim.envelope, view);
    if verdict.Emitted? { DeclaredConcat(pass.events, verdict.events, a.emits); }
  }

  /** A batch that does not panic records its parts. */
  lemma {:induction false} BatchRecordsItsParts<S>(a: Actor<S>, s: S, claims: seq<Claim>, views: nat -> Json)
    requires !DecideAll(a, s, claims, views).crashed
    ensures Declared(DecideAll(a, s, claims, views).events, a.emits) == Flat(BatchParts(a, s, claims, views))
    decreases |claims|
  {
    if claims != [] {
      var n := |claims| - 1;
      BatchRecordsItsParts(a, s, claims[..n], views);
      OneMorePart(a, s, claims, views, n);
      FlatGrows(BatchParts(a, s, claims[..n], views), Part(a, s, claims[n], views(n)));
      DeclaredOfOneMore(a, s, claims[n], views(n), DecideAll(a, s, claims[..n], views));
    }
  }

  /** `claims[i]` decides the same against the state its predecessors in the batch leave. */
  ghost predicate Indifferent<S>(a: Actor<S>, s: S, claims: seq<Claim>, views: nat -> Json, i: nat)
    requires i < |claims|
  {
    Part(a, Fold(a, s, Flat(BatchParts(a, s, claims[..i], views))), claims[i], views(i)) ==
    Part(a, s, claims[i], views(i))
  }

  lemma SnocEqual<T>(x: seq<T>, y: seq<T>, n: nat)
    requires |x| == |y| == n + 1
    ensures x == y <==> x[..n] == y[..n] && x[n] == y[n]
  {
    assert x == x[..n] + [x[n]] && y == y[..n] + [y[n]];
  }

  lemma PartsSplit<S>(a: Actor<S>, s: S, claims: seq<Claim>, views: nat -> Json, n: nat)
    requires |claims| == n + 1
    ensures BatchParts(a, s, claims, views)[..n] == BatchParts(a, s, claims[..n], views)
    ensures SerialParts(a, s, claims, views)[..n] == SerialParts(a, s, claims[..n], views)
    ensures SerialParts(a, s, claims, views)[n] ==
            Part(a, Fold(a, s, Flat(SerialParts(a, s, claims[..n], views))), claims[n], views(n))
  {
  }

  ghost predicate AllIndifferent<S>(a: Actor<S>, s: S, claims: seq<Claim>, views: nat -> Json) {
    forall i :: 0 <= i < |claims| ==> Indifferent(a, s, claims, views, i)
  }

  lemma AllIndifferentSplit<S>(a: Actor<S>, s: S, claims: seq<Claim>, views: nat -> Json, n: nat)
    requires |claims| == n + 1
    ensures AllIndifferent(a, s, claims, views) <==>
            AllIndifferent(a, s, claims[..n], views) && Indifferent(a, s, claims, views, n)
  {
    forall i | 0 <= i < n
      ensures Indifferent(a, s, claims, views, i) <==> Indifferent(a, s, claims[..n], views, i)
    {
      assert claims[..n][..i] == claims[..i];
    }
  }

  /**
   A batch records what single steps would record exactly when every message in it decides the
   same against the state its predecessors leave as against the state before the batch.
   */
  lemma {:induction false} BatchEqualsSinglesIff<S>(a: Actor<S>, s: S, claims: seq<Claim>, views: nat -> Json)
    ensures BatchParts(a, s, claims, views) == SerialParts(a, s, claims, views) <==>
            AllIndifferent(a, s, claims, views)
    decreases |claims|
  {
    if claims != [] {
      var n := |claims| - 1;
      BatchEqualsSinglesIff(a, s, claims[..n], views);
      PartsSplit(a, s, claims, views, n);
      SnocEqual(BatchParts(a, s, claims, views), SerialParts(a, s, claims, views), n);
      AllIndifferentSplit(a, s, claims, views, n);
    }
  }

  /** A batch of one message is a single step. */
  lemma OneMessageBatch<S>(a: Actor<S>, s: S, claim: Claim, views: nat -> Json)
    ensures BatchParts(a, s, [claim], views) == SerialParts(a, s, [claim], views)
  {
    BatchEqualsSinglesIff(a, s, [claim], views);
    assert [claim][..0] == [];
    assert BatchParts(a, s, [], views) == [];
  }

  // An account that pays out a unit while it has one.

  const WITHDRAW := Envelope("w", "", None)
  const PAID := Event("p", "")

  function Debit(balance: int, event: Event): int { balance - 1 }

  function Withdraw(balance: int, envelope: Envelope, view: Json): Verdict {
    if balance >= 1 then Emitted([PAID]) else Emitted([])
  }

  function NeverCapture(balance: int): Option<Json> { None }

  function NeverRestore(state: Json): Option<int> { None }

  function Account(): Actor<int> {
    Actor(1, Debit, {WITHDRAW.schema}, Withdraw, {PAID.schema}, NeverCapture, NeverRestore)
  }

  lemma DeclaredAlone(event: Event, emits: set<SchemaId>)
    requires event.schema in emits
    ensures Declared([event], emits) == [event]
  {
    assert [event][..0] == [];
  }

  lemma AccountPays(s: int, offset: nat, view: Json)
    ensures Part(Account(), s, Claim(offset, WITHDRAW), view) == if s >= 1 then [PAID] else []
  {
    DeclaredAlone(PAID, Account().emits);
    assert Judge(Account(), s, WITHDRAW, view) == Withdraw(s, WITHDRAW, view);
  }

  lemma AccountFolds(s: int)
    ensures Fold(Account(), s, [PAID]) == s - 1 && Fold(Account(), s, [PAID, PAID]) == s - 2
  {
    assert [PAID][..0] == [] && [PAID, PAID][..1] == [PAID];
  }

  /** Two withdrawals in one batch overdraw what two steps would not. */
  lemma BatchOverdraws(views: nat -> Json)
    ensures var claims := [Claim(0, WITHDRAW), Claim(1, WITHDRAW)];
            && Fold(Account(), 1, Flat(BatchParts(Account(), 1, claims, views))) == -1
            && Fold(Account(), 1, Flat(SerialParts(Account(), 1, claims, views))) == 0
  {
    var a, first, claims := Account(), [Claim(0, WITHDRAW)], [Claim(0, WITHDRAW), Claim(1, WITHDRAW)];
    AccountPays(1, 0, views(0));
    AccountPays(1, 1, views(1));
    AccountPays(0, 1, views(1));
    AccountFolds(1);
    FlatPair([PAID], [PAID]);
    FlatPair([PAID], []);
    assert BatchParts(a, 1, claims, views) == [[PAID], [PAID]];
    assert claims[..1] == first;
    OneMessageBatch(a, 1, claims[0], views);
    assert SerialParts(a, 1, first, views) == [[PAID]];
    PartsSplit(a, 1, claims, views, 1);
    assert SerialParts(a, 1, claims, views) == [[PAID], []];
  }

  lemma FlatPair(x: seq<Event>, y: seq<Event>)
    ensures Flat([x]) == x && Flat([x, y]) == x + y
  {
    assert [x][..0] == [] && [x, y][..1] == [x];
  }

  // ---- Dead letters across a panic ----

  /** The moves from a panic to the next, and what they dead-letter. */
  ghost predicate Twice<S>(a: Actor<S>, w: World<S>, views: nat -> Json, poison: S)
    requires Legal(w, Decide(views, poison)) && !w.ledger.stopped
  {
    var down := Next(a, w, Decide(views, poison));
    && Legal(down, Restart(true))
    && var up := Next(a, down, Restart(true));
    && Legal(up, Take(|w.ledger.claims|))
    && var again := Next(a, up, Take(|w.ledger.claims|));
    && again.ledger.claims == w.ledger.claims
    && Legal(again, Decide(views, poison))
    && var rejected := DecideAll(a, w.live, w.ledger.claims, views).rejected;
       Next(a, again, Decide(views, poison)).letters == w.letters + rejected + rejected
  }

  lemma SameClaims(l: L.Ledger, m: L.Ledger)
    requires L.ClaimsOk(l) && L.ClaimsOk(m) && l.accepted == m.accepted
    requires l.inbox.cursor == m.inbox.cursor && |l.claims| == |m.claims|
    ensures l.claims == m.claims
  {
  }

  lemma TakeStays(l: L.Ledger, n: nat)
    requires L.Legal(l, L.Take(n))
    ensures var t := L.Apply(l, L.Take(n));
            t.accepted == l.accepted && t.inbox.cursor == l.inbox.cursor && t.stopped == l.stopped
  {
  }

  /** A restored ledger: nothing claimed, everything from the cursor on queued. */
  lemma GivenBack(l: L.Ledger)
    requires L.Inv(l) && !l.stopped
    ensures L.CanGiveBack(l)
    ensures var b := L.GiveBack(l);
            && L.Inv(b) && !b.stopped && b.claims == [] && b.accepted == l.accepted
            && b.inbox.cursor == l.inbox.cursor && |l.claims| <= |b.inbox.queue|
  {
    L.RestoreNeverPanics(l);
    L.GiveBackKeepsInv(l);
    L.GiveBackKeepsThePast(l);
  }

  lemma RetakenClaims(l: L.Ledger)
    requires L.Inv(l) && !l.stopped
    ensures L.CanGiveBack(l) && L.Legal(L.GiveBack(l), L.Take(|l.claims|))
    ensures var retaken := L.Apply(L.GiveBack(l), L.Take(|l.claims|));
            retaken.claims == l.claims && L.CanGiveBack(retaken)
  {
    GivenBack(l);
    var b := L.GiveBack(l);
    RetakenFrom(b, |l.claims|);
    SameClaims(L.Apply(b, L.Take(|l.claims|)), l);
  }

  lemma RetakenFrom(b: L.Ledger, n: nat)
    requires L.Inv(b) && !b.stopped && b.claims == [] && n <= |b.inbox.queue|
    ensures L.Legal(b, L.Take(n))
    ensures var t := L.Apply(b, L.Take(n));
            && L.ClaimsOk(t) && |t.claims| == n && L.CanGiveBack(t)
            && t.accepted == b.accepted && t.inbox.cursor == b.inbox.cursor
  {
    ClaimIsLegal(b, n);
    L.TakeKeepsInv(b, n);
    TakeStays(b, n);
    L.RestoreNeverPanics(L.Apply(b, L.Take(n)));
  }

  lemma ClaimIsLegal(l: L.Ledger, n: nat)
    requires L.Inv(l) && !l.stopped && l.claims == []
    ensures L.Legal(l, L.Take(n))
  {
  }

  /** What the same batch is dead-lettered for when it panics, is redelivered and panics again. */
  lemma SamePassTwice<S>(a: Actor<S>, w: World<S>, views: nat -> Json, poison: S)
    requires w.phase.Claimed? && w.ledger.claims != [] && !w.ledger.stopped
    requires L.CanGiveBack(w.ledger) && !L.GiveBack(w.ledger).stopped
    requires L.Legal(L.GiveBack(w.ledger), L.Take(|w.ledger.claims|))
    requires var retaken := L.Apply(L.GiveBack(w.ledger), L.Take(|w.ledger.claims|));
             retaken.claims == w.ledger.claims && L.CanGiveBack(retaken)
    requires Reloaded(a, w.journal) == Some(w.live)
    requires DecideAll(a, w.live, w.ledger.claims, views).crashed
    ensures Twice(a, w, views, poison)
  {
  }

  /**
   A batch that panicked is redelivered whole: if the handler panics again, every message rejected
   before the panic is dead-lettered a second time.
   */
  lemma RejectedAgainAfterPanic<S>(a: Actor<S>, w: World<S>, views: nat -> Json, poison: S)
    requires Inv(a, w) && Legal(w, Decide(views, poison)) && !w.ledger.stopped
    requires DecideAll(a, w.live, w.ledger.claims, views).crashed
    ensures Twice(a, w, views, poison)
  {
    RetakenClaims(w.ledger);
    L.GiveBackKeepsThePast(w.ledger);
    ReloadIsTheFold(a, w.journal);
    assert CoreOf(w).Past() == Past(w);
    SamePassTwice(a, w, views, poison);
  }
}
