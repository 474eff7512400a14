/**
 The batched event-sourced step with crash, restart and redelivery (src/kernel.rs), interleaved
 with mail, stops, failing appends, snapshots and new incarnations over the same journal.

 A move is what happens between two awaits of the actor's loop, or one act of somebody else.
 */
module EsMachine {
  import opened Wrappers
  import opened Journals
  import opened Inboxes
  import L = InboxLedger
  import opened EsActors

  /** A batch whose append was acknowledged; `base` counts the events journaled before it. */
  datatype Batch = Batch(claims: seq<Claim>, views: nat -> Json, base: nat, recorded: bool)

  datatype Phase =
    | AtRest
    | Claimed
    | Decided(views: nat -> Json, events: seq<Event>)
    | Appended(batch: Batch, recorded: seq<Event>, seqs: seq<nat>)
    | Applying(committed: seq<Event>)
    | Down

  /** `log` lists the committed batches; those from `born` on belong to this incarnation's inbox. */
  datatype World<S> = World(
    ledger: L.Ledger, journal: JournalState, live: S, phase: Phase, lastSeq: Option<nat>,
    letters: seq<nat>, log: seq<Batch>, born: nat)

  datatype Move<S> =
    | Post(move: L.Move)
    | Take(n: nat)
    | Decide(views: nat -> Json, poison: S)
    | Append(ok: bool, ingest: nat)
    | Commit
    | Apply
    | TakeSnapshot(anchor: nat, nowMs: nat, ok: bool)
    | Restart(loaded: bool)
    | Boot(capacity: nat, policy: OverloadPolicy, loaded: bool)

  function Past<S>(w: World<S>): seq<Event> { Payloads(w.journal.Events()) }

  function Start<S>(a: Actor<S>, capacity: nat, policy: OverloadPolicy): World<S> {
    World(L.Fresh(capacity, policy), EMPTY, a.genesis, AtRest, None, [], [], 0)
  }

  // ---- The moves ----

  function Crash<S>(w: World<S>, poison: S): World<S>
    requires L.CanGiveBack(w.ledger)
  {
    w.(ledger := L.GiveBack(w.ledger), live := poison, phase := Down)
  }

  function CommitAll(l: L.Ledger): L.Ledger
    requires L.CanCommitAll(l)
    decreases |l.claims|
  {
    if l.claims == [] then l else CommitAll(L.Apply(l, L.CommitNext))
  }

  /** What the code can do next. A stopped actor's loop has ended. */
  ghost predicate Legal<S>(w: World<S>, move: Move<S>) {
    match move
    case Post(m) => (m.Push? || m.Close? || m.Reopen? || m.Stop?) && L.Legal(w.ledger, m)
    case Take(n) => w.phase.AtRest? && !w.ledger.stopped && L.Legal(w.ledger, L.Take(n))
    case Decide(_, _) => w.phase.Claimed? && L.CanGiveBack(w.ledger)
    case Append(_, _) => w.phase.Decided? && L.CanGiveBack(w.ledger)
    case Commit => w.phase.Appended? && L.CanCommitAll(w.ledger)
    case Apply => w.phase.Applying?
    case TakeSnapshot(anchor, _, _) => w.phase.AtRest? && w.lastSeq.Some? && anchor <= w.lastSeq.value
    case Restart(_) => w.phase.Down? && !w.ledger.stopped
    case Boot(_, _, _) => w.phase.AtRest? || w.phase.Down?
  }

  function AfterDecide<S>(a: Actor<S>, w: World<S>, views: nat -> Json, poison: S): World<S>
    requires L.CanGiveBack(w.ledger)
  {
    var pass := DecideAll(a, w.live, w.ledger.claims, views);
    var w' := w.(letters := w.letters + pass.rejected);
    if pass.crashed then Crash(w', poison)
    else w'.(phase := Decided(views, Declared(pass.events, a.emits)))
  }

  function AfterAppend<S>(w: World<S>, ok: bool, ingest: nat): World<S>
    requires L.CanGiveBack(w.ledger) && w.phase.Decided?
  {
    if !ok then Crash(w, w.live)
    else
      var r := Record(w.journal, w.ledger.claims, w.phase.events, ingest);
      var batch := Batch(w.ledger.claims, w.phase.views, w.journal.eventCount, !r.held);
      w.(journal := r.journal, phase := Appended(batch, if r.held then [] else w.phase.events, r.seqs))
  }

  function AfterCommit<S>(w: World<S>): World<S>
    requires L.CanCommitAll(w.ledger) && w.phase.Appended?
  {
    w.(ledger := CommitAll(w.ledger),
       lastSeq := if w.phase.seqs == [] then w.lastSeq else Some(w.phase.seqs[|w.phase.seqs| - 1]),
       log := w.log + [w.phase.batch],
       phase := if w.phase.recorded == [] then AtRest else Applying(w.phase.recorded))
  }

  function AfterSnapshot<S>(a: Actor<S>, w: World<S>, anchor: nat, nowMs: nat, ok: bool): World<S> {
    match a.capture(w.live)
    case Some(state) => if ok then w.(journal := w.journal.AppendSnapshot(anchor, state, nowMs)) else w
    case None => w
  }

  function Reloaded<S>(a: Actor<S>, j: JournalState): Option<S> {
    var replay := MemReplay(j.entries);
    Rebuild(a, if replay.snapshot.Some? then Some(replay.snapshot.value.state) else None, replay.tail)
  }

  /** The highest sequence number of a history. */
  function HeadOf(events: seq<JournaledEvent>): Option<nat> {
    if events == [] then None
    else
      var last, before := events[|events| - 1].seqNo, HeadOf(events[..|events| - 1]);
      if before.Some? && before.value > last then before else Some(last)
  }

  /** `restart_es`: a failed load or restore leaves the actor down. */
  function AfterRestart<S>(a: Actor<S>, w: World<S>, loaded: bool): World<S> {
    match Reloaded(a, w.journal)
    case Some(s) =>
      if !loaded then w
      else
        w.(live := s, phase := AtRest, lastSeq := HeadOf(w.journal.Events()))
    case None => w
  }

  /** `recover_at_boot`: a failed load or restore leaves the spawned state as it is. */
  function AfterBoot<S>(a: Actor<S>, w: World<S>, capacity: nat, policy: OverloadPolicy, loaded: bool): World<S> {
    var recovered := Reloaded(a, w.journal);
    World(L.Fresh(capacity, policy), w.journal,
          if loaded && recovered.Some? then recovered.value else a.genesis,
          AtRest, None, [], w.log, |w.log|)
  }

  ghost function Next<S>(a: Actor<S>, w: World<S>, move: Move<S>): World<S>
    requires Legal(w, move)
  {
    match move
    case Post(m) => w.(ledger := L.Apply(w.ledger, m))
    case Take(n) =>
      var l := L.Apply(w.ledger, L.Take(n));
      w.(ledger := l, phase := if l.claims == [] then AtRest else Claimed)
    case Decide(views, poison) => AfterDecide(a, w, views, poison)
    case Append(ok, ingest) => AfterAppend(w, ok, ingest)
    case Commit => AfterCommit(w)
    case Apply => w.(live := Fold(a, w.live, w.phase.committed), phase := AtRest)
    case TakeSnapshot(anchor, nowMs, ok) => AfterSnapshot(a, w, anchor, nowMs, ok)
    case Restart(loaded) => AfterRestart(a, w, loaded)
    case Boot(capacity, policy, loaded) => AfterBoot(a, w, capacity, policy, loaded)
  }

  /** The rest of a step whose append succeeds: append, commit, apply. */
  function Settle<S>(a: Actor<S>, w: World<S>, ingest: nat): World<S>
    requires w.phase.Decided? && L.CanGiveBack(w.ledger) && L.CanCommitAll(w.ledger)
  {
    var done := AfterCommit(AfterAppend(w, true, ingest));
    if done.phase.Applying?
    then done.(live := Fold(a, done.live, done.phase.committed), phase := AtRest)
    else done
  }

  // ---- The invariant ----

  /** One batch's record: the declared part of its decisions against `s`, or nothing for a held fact. */
  ghost predicate BatchOk<S>(a: Actor<S>, b: Batch, s: S, recorded: seq<Event>) {
    var pass := DecideAll(a, s, b.claims, b.views);
    && !pass.crashed
    && (!b.recorded ==> SameFact(b.claims))
    && recorded == if b.recorded then Declared(pass.events, a.emits) else []
  }

  /** The history is the batches' records one after the other, each against the fold before it. */
  ghost predicate HistoryOk<S>(a: Actor<S>, log: seq<Batch>, events: seq<Event>)
    decreases |log|
  {
    if log == [] then events == []
    else
      var n, b := |log| - 1, log[|log| - 1];
      && b.base <= |events|
      && HistoryOk(a, log[..n], events[..b.base])
      && BatchOk(a, b, Fold(a, a.genesis, events[..b.base]), events[b.base..])
  }

  function LogOffsets(log: seq<Batch>): seq<nat> {
    if log == [] then []
    else LogOffsets(log[..|log| - 1]) + L.OffsetsOf(log[|log| - 1].claims)
  }

  /** Every batch holds the envelopes accepted at its offsets. */
  ghost predicate LogMail(log: seq<Batch>, accepted: seq<Envelope>) {
    forall k, i :: 0 <= k < |log| && 0 <= i < |log[k].claims| ==>
      && log[k].claims[i].offset < |accepted|
      && log[k].claims[i].envelope == accepted[log[k].claims[i].offset]
  }

  /** Dense sequence numbers, few enough to stay clear of the sentinel. */
  ghost predicate JournalFits(j: JournalState) {
    Dense(j.Events()) && j.eventCount == |j.Events()| && j.eventCount <= BEFORE_GENESIS
  }

  /** The snapshot with the strict tail after it replays to what the whole journal folds to. */
  ghost predicate Replays<S>(a: Actor<S>, snapshot: Snapshot, events: seq<Event>) {
    && snapshot.seqNo < |events|
    && a.restore(snapshot.state).Some?
    && Fold(a, a.restore(snapshot.state).value, events[snapshot.seqNo + 1..]) == Fold(a, a.genesis, events)
  }

  ghost predicate SnapshotOk<S>(a: Actor<S>, j: JournalState) {
    j.Latest().Some? ==> Replays(a, j.Latest().value, Payloads(j.Events()))
  }

  /** The parts of a world the invariant ties together, the ledger reduced to what it remembers. */
  datatype Core<S> = Core(
    claims: seq<Claim>, committed: seq<nat>, accepted: seq<Envelope>, journal: JournalState,
    live: S, phase: Phase, lastSeq: Option<nat>, log: seq<Batch>, born: nat)
  {
    function Past(): seq<Event> { Payloads(journal.Events()) }

    /** The batches with a record in the journal: the committed ones and the one about to be. */
    function Logged(): seq<Batch> {
      if phase.Appended? then log + [phase.batch] else log
    }
  }

  function CoreOf<S>(w: World<S>): Core<S> {
    Core(w.ledger.claims, w.ledger.committed, w.ledger.accepted, w.journal,
         w.live, w.phase, w.lastSeq, w.log, w.born)
  }

  ghost predicate ClaimsOk<S>(c: Core<S>) {
    match c.phase
    case Claimed => c.claims != []
    case Decided(_, _) => c.claims != []
    case Appended(batch, _, _) => c.claims != [] && batch.claims == c.claims
    case _ => c.claims == []
  }

  /** The live state is the fold of what was applied; only a crashed one is worth nothing. */
  ghost predicate LiveOk<S>(a: Actor<S>, c: Core<S>) {
    var past := c.Past();
    match c.phase
    case Down => true
    case Appended(batch, recorded, _) =>
      && batch.base <= |past| && past[batch.base..] == recorded
      && c.live == Fold(a, a.genesis, past[..batch.base])
    case Applying(committed) =>
      && |committed| <= |past| && past[|past| - |committed|..] == committed
      && c.live == Fold(a, a.genesis, past[..|past| - |committed|])
    case _ => c.live == Fold(a, a.genesis, past)
  }

  ghost predicate DecidedOk<S>(a: Actor<S>, c: Core<S>) {
    c.phase.Decided? ==>
      var pass := DecideAll(a, c.live, c.claims, c.phase.views);
      !pass.crashed && c.phase.events == Declared(pass.events, a.emits)
  }

  ghost predicate AllRecorded(events: seq<JournaledEvent>) {
    forall i :: 0 <= i < |events| ==> events[i].origin == Recorded
  }

  /** Without catch-up checkpoints in the journal the last committed number is its head. */
  ghost predicate HeadOk<S>(c: Core<S>) {
    var events := c.journal.Events();
    var head := if c.phase.Appended? then c.phase.batch.base else |events|;
    && head <= |events|
    && (c.lastSeq.Some? ==>
          c.lastSeq.value < head && (AllRecorded(events[..head]) ==> c.lastSeq.value == head - 1))
    && (c.phase.Appended? ==> SeqsOk(events, head, c.phase.seqs))
  }

  ghost predicate SeqsOk(events: seq<JournaledEvent>, head: nat, seqs: seq<nat>) {
    if seqs == [] then |events| == head
    else
      && seqs[|seqs| - 1] < |events|
      && (AllRecorded(events) ==> seqs[|seqs| - 1] == |events| - 1)
  }

  ghost predicate LogOk<S>(c: Core<S>) {
    && c.born <= |c.log|
    && c.committed == LogOffsets(c.log[c.born..])
    && LogMail(c.log[c.born..], c.accepted)
    && forall i :: 0 <= i < |c.claims| ==>
         c.claims[i].offset < |c.accepted| && c.claims[i].envelope == c.accepted[c.claims[i].offset]
  }

  /** A batch that recorded nothing held copies of a fact that was in the journal at its start. */
  ghost predicate HeldOk(log: seq<Batch>, events: seq<JournaledEvent>) {
    forall k :: 0 <= k < |log| && !log[k].recorded ==> FactHeld(log[k], events)
  }

  ghost predicate FactHeld(b: Batch, events: seq<JournaledEvent>) {
    && SameFact(b.claims) && b.base <= |events|
    && var stamp := b.claims[0].envelope.stamp.value;
       HoldsOrigin(events[..b.base], stamp.journal, stamp.seqNo)
  }

  ghost predicate CoreOk<S>(a: Actor<S>, c: Core<S>) {
    && JournalFits(c.journal)
    && HeldOk(c.Logged(), c.journal.Events())
    && ClaimsOk(c)
    && HistoryOk(a, c.Logged(), c.Past())
    && LogOk(c)
    && LiveOk(a, c)
    && DecidedOk(a, c)
    && SnapshotOk(a, c.journal)
    && HeadOk(c)
  }

  ghost predicate Inv<S>(a: Actor<S>, w: World<S>) {
    L.Inv(w.ledger) && CoreOk(a, CoreOf(w))
  }

  /**
   The guards behind the theorems. Sequence numbers stay below the sentinel and a batch of copies
   of one fact makes at most one event unless the fact is held; a snapshot's strict tail folds
   into the captured state without change; the load at boot succeeds.
   */
  ghost predicate Sound<S>(a: Actor<S>, w: World<S>, move: Move<S>)
    requires Legal(w, move)
  {
    match move
    case Append(ok, _) =>
      ok ==>
        && w.journal.eventCount + |w.phase.events| <= BEFORE_GENESIS
        && (SameFact(w.ledger.claims) ==> AtMostOne(w.journal, w.ledger.claims, w.phase.events))
    case TakeSnapshot(anchor, _, _) =>
      anchor < |Past(w)| && Fold(a, w.live, Past(w)[anchor + 1..]) == w.live
    case Boot(_, _, loaded) => loaded
    case _ => true
  }

  ghost predicate AtMostOne(j: JournalState, claims: seq<Claim>, events: seq<Event>)
    requires SameFact(claims)
  {
    var stamp := claims[0].envelope.stamp.value;
    |events| <= 1 || HoldsOrigin(j.Events(), stamp.journal, stamp.seqNo)
  }
}
