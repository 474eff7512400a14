/**
 Asks and reply leases: the lease table (src/reply.rs), the ask engine (src/context.rs) and the
 port that opens and settles asks (src/kernel.rs), under every interleaving of askers, repliers,
 timeouts, failed deliveries and prunes.
 */
module Replies {
  import opened Wrappers
  import Ids

  type LeaseId = Ids.Uuid
  type Payload = string

  datatype Outcome = Replied | Failed | Timeout

  // ---- The table ----

  /** Live leases and when they expire. */
  type Table = map<LeaseId, nat>

  function Pruned(table: Table, now: nat): Table {
    map lease | lease in table && table[lease] > now :: table[lease]
  }

  // ---- Asks ----

  /** An asker's place in the engine; `Gone` is an asker dropped before it settled. */
  datatype Phase = Sending | Waiting | Concluded(outcome: Outcome) | Settled(final: Outcome) | Gone

  /** `mail` is what the oneshot holds. */
  datatype Ask = Ask(phase: Phase, mail: Option<Payload>)

  datatype Fact = Opened(lease: LeaseId) | SettledAs(lease: LeaseId, outcome: Outcome)

  /** `delivered` lists the leases whose completion reported success. */
  datatype World = World(
    table: Table, asks: map<LeaseId, Ask>, facts: seq<Fact>, delivered: seq<LeaseId>)

  const START := World(map[], map[], [], [])

  datatype Move =
    | Open(lease: LeaseId, ttl: nat, now: nat)
    | Send(lease: LeaseId, ok: bool)
    | Complete(lease: LeaseId, payload: Payload)
    | Prune(now: nat)
    | Wake(lease: LeaseId)
    | TimeOut(lease: LeaseId)
    | Settle(lease: LeaseId)
    | Drop(lease: LeaseId)

  predicate InPhase(w: World, lease: LeaseId, phase: Phase) {
    lease in w.asks && w.asks[lease].phase == phase
  }

  /** The receiver of the oneshot lives until the asker settles or is dropped. */
  predicate Listening(w: World, lease: LeaseId) {
    lease in w.asks && !w.asks[lease].phase.Settled? && !w.asks[lease].phase.Gone?
  }

  /** The channel has something to say: a reply, or a sender dropped without one. */
  predicate Stirs(w: World, lease: LeaseId) {
    lease in w.asks && (w.asks[lease].mail.Some? || lease !in w.table)
  }

  /** Lease ids are fresh; a timeout is seen only when the channel is still silent. */
  predicate Legal(w: World, move: Move) {
    match move
    case Open(lease, _, _) => lease !in w.asks
    case Send(lease, _) => InPhase(w, lease, Sending)
    case Complete(_, _) => true
    case Prune(_) => true
    case Wake(lease) => InPhase(w, lease, Waiting) && Stirs(w, lease)
    case TimeOut(lease) => InPhase(w, lease, Waiting) && !Stirs(w, lease)
    case Settle(lease) => lease in w.asks && w.asks[lease].phase.Concluded?
    case Drop(lease) => Listening(w, lease)
  }

  function To(w: World, lease: LeaseId, phase: Phase): World
    requires lease in w.asks
  {
    w.(asks := w.asks[lease := w.asks[lease].(phase := phase)])
  }

  /** `ask_settled`: the fact, then the lease goes. */
  function SettledWith(w: World, lease: LeaseId, outcome: Outcome): World
    requires lease in w.asks
  {
    To(w, lease, Settled(outcome)).(facts := w.facts + [SettledAs(lease, outcome)], table := w.table - {lease})
  }

  /** What a completion answers. */
  predicate Delivers(w: World, lease: LeaseId) {
    lease in w.table && Listening(w, lease)
  }

  function AfterComplete(w: World, lease: LeaseId, payload: Payload): World {
    var w' := w.(table := w.table - {lease});
    if Delivers(w, lease)
    then w'.(asks := w.asks[lease := w.asks[lease].(mail := Some(payload))], delivered := w.delivered + [lease])
    else w'
  }

  function Next(w: World, move: Move): World
    requires Legal(w, move)
  {
    match move
    case Open(lease, ttl, now) =>
      World(Pruned(w.table, now)[lease := now + ttl], w.asks[lease := Ask(Sending, None)],
            w.facts + [Opened(lease)], w.delivered)
    case Send(lease, ok) => To(w, lease, if ok then Waiting else Concluded(Failed))
    case Complete(lease, payload) => AfterComplete(w, lease, payload)
    case Prune(now) => w.(table := Pruned(w.table, now))
    case Wake(lease) => To(w, lease, Concluded(if w.asks[lease].mail.Some? then Replied else Failed))
    case TimeOut(lease) => To(w, lease, Concluded(Timeout))
    case Settle(lease) => SettledWith(w, lease, w.asks[lease].phase.outcome)
    case Drop(lease) => To(w, lease, Gone)
  }

  // ---- The invariant ----

  /** How many facts settle the lease, under any outcome. */
  function Settlements(facts: seq<Fact>, lease: LeaseId): nat {
    if facts == [] then 0
    else
      var last := facts[|facts| - 1];
      Settlements(facts[..|facts| - 1], lease) + if last.SettledAs? && last.lease == lease then 1 else 0
  }

  function Openings(facts: seq<Fact>, lease: LeaseId): nat {
    if facts == [] then 0
    else
      var last := facts[|facts| - 1];
      Openings(facts[..|facts| - 1], lease) + if last == Opened(lease) then 1 else 0
  }

  function Deliveries(delivered: seq<LeaseId>, lease: LeaseId): nat {
    if delivered == [] then 0
    else Deliveries(delivered[..|delivered| - 1], lease) + if delivered[|delivered| - 1] == lease then 1 else 0
  }

  ghost predicate LeaseOk(w: World, lease: LeaseId) {
    if lease !in w.asks then
      && lease !in w.table
      && Openings(w.facts, lease) == 0 && Settlements(w.facts, lease) == 0 && Deliveries(w.delivered, lease) == 0
    else
      var ask := w.asks[lease];
      && Openings(w.facts, lease) == 1
      && Settlements(w.facts, lease) == (if ask.phase.Settled? then 1 else 0)
      && (ask.phase.Settled? ==> SettledAs(lease, ask.phase.final) in w.facts && lease !in w.table)
      && Deliveries(w.delivered, lease) == (if ask.mail.Some? then 1 else 0)
      && (ask.mail.Some? ==> lease !in w.table)
      && (ask.phase == Concluded(Replied) || ask.phase == Settled(Replied) ==> ask.mail.Some?)
  }

  ghost predicate Inv(w: World) {
    forall lease :: LeaseOk(w, lease)
  }

  lemma FactAdded(facts: seq<Fact>, fact: Fact, lease: LeaseId)
    ensures Openings(facts + [fact], lease) == Openings(facts, lease) + if fact == Opened(lease) then 1 else 0
    ensures Settlements(facts + [fact], lease) ==
            Settlements(facts, lease) + if fact.SettledAs? && fact.lease == lease then 1 else 0
  {
    assert (facts + [fact])[..|facts|] == facts;
  }

  lemma DeliveryAdded(delivered: seq<LeaseId>, more: LeaseId, lease: LeaseId)
    ensures Deliveries(delivered + [more], lease) == Deliveries(delivered, lease) + if more == lease then 1 else 0
  {
    assert (delivered + [more])[..|delivered|] == delivered;
  }

  lemma OpenKeeps(w: World, lease: LeaseId, ttl: nat, now: nat, l: LeaseId)
    requires LeaseOk(w, l) && Legal(w, Open(lease, ttl, now))
    ensures LeaseOk(Next(w, Open(lease, ttl, now)), l)
  {
    FactAdded(w.facts, Opened(lease), l);
  }

  lemma SettleKeeps(w: World, lease: LeaseId, outcome: Outcome, l: LeaseId)
    requires LeaseOk(w, l) && LeaseOk(w, lease) && lease in w.asks && !w.asks[lease].phase.Settled?
    requires outcome == Replied ==> w.asks[lease].mail.Some?
    ensures LeaseOk(SettledWith(w, lease, outcome), l)
  {
    var facts := w.facts + [SettledAs(lease, outcome)];
    FactAdded(w.facts, SettledAs(lease, outcome), l);
    assert forall f :: f in w.facts ==> f in facts;
    assert facts[|w.facts|] in facts;
  }

  lemma CompleteKeeps(w: World, lease: LeaseId, payload: Payload, l: LeaseId)
    requires LeaseOk(w, l) && LeaseOk(w, lease)
    ensures LeaseOk(AfterComplete(w, lease, payload), l)
  {
    DeliveryAdded(w.delivered, lease, l);
  }

  lemma NextKeeps(w: World, move: Move, l: LeaseId)
    requires Inv(w) && Legal(w, move)
    ensures LeaseOk(Next(w, move), l)
  {
    assert LeaseOk(w, l);
    match move {
      case Open(lease, ttl, now) => OpenKeeps(w, lease, ttl, now, l);
      case Send(lease, _) => assert LeaseOk(w, lease);
      case Complete(lease, payload) =>
        assert LeaseOk(w, lease);
        CompleteKeeps(w, lease, payload, l);
      case Settle(lease) =>
        assert LeaseOk(w, lease);
        SettleKeeps(w, lease, w.asks[lease].phase.outcome, l);
      case Wake(lease) => assert LeaseOk(w, lease);
      case _ =>
    }
  }

  predicate LegalRun(w: World, moves: seq<Move>)
    decreases |moves|, 0
  {
    moves == [] ||
    var n := |moves| - 1;
    LegalRun(w, moves[..n]) && Legal(Run(w, moves[..n]), moves[n])
  }

  function Run(w: World, moves: seq<Move>): World
    requires LegalRun(w, moves)
    decreases |moves|, 1
  {
    if moves == [] then w
    else
      var n := |moves| - 1;
      Next(Run(w, moves[..n]), moves[n])
  }

  lemma {:induction false} RunsKeepInv(moves: seq<Move>)
    requires LegalRun(START, moves)
    ensures Inv(Run(START, moves))
    decreases |moves|
  {
    if moves != [] {
      var n := |moves| - 1;
      RunsKeepInv(moves[..n]);
      forall l ensures LeaseOk(Run(START, moves), l) {
        NextKeeps(Run(START, moves[..n]), moves[n], l);
      }
    }
  }

  // ---- What every run promises ----

  /** An ask that ran to its end has one opened and one settled fact, with its outcome, and no lease. */
  lemma EveryAskSettlesOnce(moves: seq<Move>, lease: LeaseId)
    requires LegalRun(START, moves)
    requires var w := Run(START, moves); lease in w.asks && w.asks[lease].phase.Settled?
    ensures var w := Run(START, moves);
            && Openings(w.facts, lease) == 1 && Settlements(w.facts, lease) == 1
            && SettledAs(lease, w.asks[lease].phase.final) in w.facts
            && lease !in w.table
  {
    RunsKeepInv(moves);
    assert LeaseOk(Run(START, moves), lease);
  }

  /** At most one reply per lease is delivered; an ask settled as replied got exactly one. */
  lemma OneReplyPerLease(moves: seq<Move>, lease: LeaseId)
    requires LegalRun(START, moves)
    ensures var w := Run(START, moves);
            && Deliveries(w.delivered, lease) <= 1
            && (InPhase(w, lease, Settled(Replied)) ==>
                  Deliveries(w.delivered, lease) == 1 && w.asks[lease].mail.Some?)
  {
    RunsKeepInv(moves);
    assert LeaseOk(Run(START, moves), lease);
  }

  /** A second reply, and any reply after the settlement, reports failure and changes no ask. */
  lemma LateReplyFails(moves: seq<Move>, lease: LeaseId, payload: Payload)
    requires LegalRun(START, moves)
    ensures var w := Run(START, moves);
            && (InPhase(w, lease, Settled(Replied)) || InPhase(w, lease, Settled(Failed)) ||
                InPhase(w, lease, Settled(Timeout)) || lease in w.delivered || lease !in w.asks ==>
                  !Delivers(w, lease) && Next(w, Complete(lease, payload)).asks == w.asks)
  {
    RunsKeepInv(moves);
    var w := Run(START, moves);
    assert LeaseOk(w, lease);
    if lease in w.delivered { DeliveredCounts(w.delivered, lease); }
  }

  lemma {:induction false} DeliveredCounts(delivered: seq<LeaseId>, lease: LeaseId)
    requires lease in delivered
    ensures Deliveries(delivered, lease) >= 1
    decreases |delivered|
  {
    var n := |delivered| - 1;
    if delivered[n] != lease { DeliveredCounts(delivered[..n], lease); }
  }

  // ---- Leases and outcomes, move by move ----

  /** Pruning keeps exactly the leases that expire later, with their expiry. */
  lemma PrunedMeans(table: Table, now: nat, lease: LeaseId)
    ensures lease in Pruned(table, now) <==> lease in table && table[lease] > now
    ensures lease in Pruned(table, now) ==> Pruned(table, now)[lease] == table[lease]
  {
  }

  /**
   A live lease goes exactly by a completion, by its settlement, or by a prune, which every opening
   is too, at or past its expiry; until then its expiry stays. An opened lease expires after its
   time to live.
   */
  lemma LeaseGoesIff(w: World, move: Move, lease: LeaseId)
    requires Legal(w, move)
    ensures lease in w.table && !(move.Open? && move.lease == lease) ==>
              var w' := Next(w, move);
              && (lease !in w'.table <==>
                  || (move.Complete? && move.lease == lease) || (move.Settle? && move.lease == lease)
                  || ((move.Prune? || move.Open?) && w.table[lease] <= move.now))
              && (lease in w'.table ==> w'.table[lease] == w.table[lease])
    ensures move.Open? ==> Next(w, move).table.Keys >= {move.lease} &&
                           Next(w, move).table[move.lease] == move.now + move.ttl
    ensures lease !in w.table && lease in Next(w, move).table ==> move.Open? && move.lease == lease
  {
  }

  /** A completion reports success exactly if the lease is live and its asker neither settled nor left. */
  lemma CompletesIff(w: World, lease: LeaseId, payload: Payload)
    requires Inv(w)
    ensures var w' := Next(w, Complete(lease, payload));
            if lease in w.table && lease in w.asks && !w.asks[lease].phase.Settled? && !w.asks[lease].phase.Gone?
            then
              && w'.delivered == w.delivered + [lease]
              && w'.asks == w.asks[lease := Ask(w.asks[lease].phase, Some(payload))]
            else w'.delivered == w.delivered && w'.asks == w.asks
  {
    assert LeaseOk(w, lease);
  }

  /** The lease's ask was sent, woken or timed out by none of the moves. */
  ghost predicate Untouched(moves: seq<Move>, lease: LeaseId) {
    Send(lease, true) !in moves && Send(lease, false) !in moves && NotEnded(moves, lease)
  }

  ghost predicate NotEnded(moves: seq<Move>, lease: LeaseId) {
    Wake(lease) !in moves && TimeOut(lease) !in moves
  }

  /** The outcome is the one move's that ended the ask. */
  ghost predicate EndedBy(moves: seq<Move>, lease: LeaseId, mail: Option<Payload>, outcome: Outcome) {
    match outcome
    case Timeout => TimeOut(lease) in moves && Wake(lease) !in moves && Send(lease, false) !in moves
    case Replied => Wake(lease) in moves && mail.Some? && TimeOut(lease) !in moves && Send(lease, false) !in moves
    case Failed => (Send(lease, false) in moves <==> Wake(lease) !in moves) && TimeOut(lease) !in moves
  }

  /** What the moves of a run say of the phase of one ask. */
  ghost predicate PhaseTold(w: World, moves: seq<Move>, lease: LeaseId) {
    if lease !in w.asks then Untouched(moves, lease)
    else
      match w.asks[lease].phase
      case Sending => Untouched(moves, lease)
      case Waiting => Send(lease, false) !in moves && NotEnded(moves, lease)
      case Concluded(outcome) => EndedBy(moves, lease, w.asks[lease].mail, outcome)
      case Settled(outcome) => EndedBy(moves, lease, w.asks[lease].mail, outcome)
      case Gone => true
  }

  lemma MoveTells(w: World, moves: seq<Move>, move: Move, lease: LeaseId)
    requires Legal(w, move) && LeaseOk(w, lease) && PhaseTold(w, moves, lease)
    ensures PhaseTold(Next(w, move), moves + [move], lease)
  {
    assert forall m :: m in moves + [move] <==> m in moves || m == move;
  }

  /**
   An ask ends timed out exactly if its timeout struck, replied only if it woke to a reply, and
   failed only if its request could not be sent or it woke to a dropped sender: one of these, once.
   */
  lemma {:induction false} OutcomesAreTrue(moves: seq<Move>, lease: LeaseId)
    requires LegalRun(START, moves)
    ensures PhaseTold(Run(START, moves), moves, lease)
    decreases |moves|
  {
    if moves != [] {
      var n := |moves| - 1;
      OutcomesAreTrue(moves[..n], lease);
      RunsKeepInv(moves[..n]);
      assert LeaseOk(Run(START, moves[..n]), lease);
      MoveTells(Run(START, moves[..n]), moves[..n], moves[n], lease);
      assert moves == moves[..n] + [moves[n]];
    }
  }

  /** An ask that wakes has its reply's outcome, or failed for want of one. */
  lemma WakesTo(w: World, lease: LeaseId)
    requires Legal(w, Wake(lease))
    ensures InPhase(Next(w, Wake(lease)), lease, Concluded(if w.asks[lease].mail.Some? then Replied else Failed))
  {
  }

  // ---- Replies delivered to nobody ----

  /** Move `i` completes the lease and reports success while the ask is in a phase of this kind. */
  predicate DeliveredAt(moves: seq<Move>, i: nat, lease: LeaseId) {
    && i < |moves| && LegalRun(START, moves[..i])
    && moves[i].Complete? && moves[i].lease == lease && Delivers(Run(START, moves[..i]), lease)
  }

  function PhaseAt(moves: seq<Move>, i: nat, lease: LeaseId): Phase
    requires DeliveredAt(moves, i, lease)
  {
    Run(START, moves[..i]).asks[lease].phase
  }

  /** The outcome is decided, and it is not a reply. */
  predicate Missed(phase: Phase) {
    (phase.Concluded? && phase.outcome != Replied) || (phase.Settled? && phase.final != Replied)
  }

  /** The reply came after the ask had timed out or failed, and before it settled. */
  ghost predicate CameLate(moves: seq<Move>, lease: LeaseId) {
    exists i: nat :: DeliveredAt(moves, i, lease) && Missed(PhaseAt(moves, i, lease))
  }

  /** The reply came while the request was still being sent. */
  ghost predicate CameEarly(moves: seq<Move>, lease: LeaseId) {
    exists i: nat :: DeliveredAt(moves, i, lease) && PhaseAt(moves, i, lease).Sending?
  }

  ghost predicate SendFailed(moves: seq<Move>, lease: LeaseId) {
    Send(lease, false) in moves
  }

  lemma DeliveredAtGrows(moves: seq<Move>, i: nat, lease: LeaseId)
    requires moves != [] && DeliveredAt(moves[..|moves| - 1], i, lease)
    ensures DeliveredAt(moves, i, lease) && PhaseAt(moves, i, lease) == PhaseAt(moves[..|moves| - 1], i, lease)
  {
    assert moves[..|moves| - 1][..i] == moves[..i];
  }

  lemma DeliveredAtShrinks(moves: seq<Move>, i: nat, lease: LeaseId)
    requires DeliveredAt(moves, i, lease) && i < |moves| - 1
    ensures DeliveredAt(moves[..|moves| - 1], i, lease)
    ensures PhaseAt(moves, i, lease) == PhaseAt(moves[..|moves| - 1], i, lease)
  {
    assert moves[..|moves| - 1][..i] == moves[..i];
  }

  /** The last move adds a late delivery exactly when it is one. */
  lemma CameLateStep(moves: seq<Move>, lease: LeaseId)
    requires moves != []
    ensures CameLate(moves, lease) <==>
            || CameLate(moves[..|moves| - 1], lease)
            || (DeliveredAt(moves, |moves| - 1, lease) && Missed(PhaseAt(moves, |moves| - 1, lease)))
  {
    var n := |moves| - 1;
    if CameLate(moves[..n], lease) {
      var i: nat :| DeliveredAt(moves[..n], i, lease) && Missed(PhaseAt(moves[..n], i, lease));
      DeliveredAtGrows(moves, i, lease);
    }
    if CameLate(moves, lease) {
      var i: nat :| DeliveredAt(moves, i, lease) && Missed(PhaseAt(moves, i, lease));
      if i < n { DeliveredAtShrinks(moves, i, lease); }
    }
  }

  lemma CameEarlyStep(moves: seq<Move>, lease: LeaseId)
    requires moves != []
    ensures CameEarly(moves, lease) <==>
            || CameEarly(moves[..|moves| - 1], lease)
            || (DeliveredAt(moves, |moves| - 1, lease) && PhaseAt(moves, |moves| - 1, lease).Sending?)
  {
    var n := |moves| - 1;
    if CameEarly(moves[..n], lease) {
      var i: nat :| DeliveredAt(moves[..n], i, lease) && PhaseAt(moves[..n], i, lease).Sending?;
      DeliveredAtGrows(moves, i, lease);
    }
    if CameEarly(moves, lease) {
      var i: nat :| DeliveredAt(moves, i, lease) && PhaseAt(moves, i, lease).Sending?;
      if i < n { DeliveredAtShrinks(moves, i, lease); }
    }
  }

  /** What the history of a run says about where a lease stands. */
  ghost predicate HistoryFits(w: World, lease: LeaseId, late: bool, early: bool, failed: bool) {
    if lease !in w.asks then !late && !early && !failed
    else
      var ask := w.asks[lease];
      && (late ==> ask.mail.Some? && (Missed(ask.phase) || ask.phase.Gone?))
      && (early ==> ask.mail.Some?)
      && (failed ==> ask.phase == Concluded(Failed) || ask.phase == Settled(Failed) || ask.phase.Gone?)
      && (ask.mail.Some? && ask.phase.Sending? ==> early)
      && (ask.mail.Some? && Missed(ask.phase) ==> late || (early && failed))
  }

  lemma HistoryStep(w: World, move: Move, lease: LeaseId, late: bool, early: bool, failed: bool)
    requires Legal(w, move) && LeaseOk(w, lease) && HistoryFits(w, lease, late, early, failed)
    ensures var here := move.Complete? && move.lease == lease && Delivers(w, lease);
            HistoryFits(Next(w, move), lease,
                        late || (here && Missed(w.asks[lease].phase)),
                        early || (here && w.asks[lease].phase.Sending?),
                        failed || move == Send(lease, false))
  {
  }

  lemma {:induction false} HistoryHolds(moves: seq<Move>, lease: LeaseId)
    requires LegalRun(START, moves)
    ensures HistoryFits(Run(START, moves), lease,
                        CameLate(moves, lease), CameEarly(moves, lease), SendFailed(moves, lease))
    decreases |moves|
  {
    if moves != [] {
      var n := |moves| - 1;
      var w := Run(START, moves[..n]);
      HistoryHolds(moves[..n], lease);
      RunsKeepInv(moves[..n]);
      assert LeaseOk(w, lease);
      HistoryStep(w, moves[n], lease,
                  CameLate(moves[..n], lease), CameEarly(moves[..n], lease), SendFailed(moves[..n], lease));
      CameLateStep(moves, lease);
      CameEarlyStep(moves, lease);
      assert moves == moves[..n] + [moves[n]];
    }
  }

  lemma {:induction false} CountedIsDelivered(delivered: seq<LeaseId>, lease: LeaseId)
    requires Deliveries(delivered, lease) >= 1
    ensures lease in delivered
    decreases |delivered|
  {
    var n := |delivered| - 1;
    if delivered[n] != lease { CountedIsDelivered(delivered[..n], lease); }
  }

  /**
   A reply reported delivered is lost to its asker exactly when it landed after the ask had timed
   out or failed and before it settled, or while a request was being sent that then failed.
   */
  lemma ReplyIsLostIff(moves: seq<Move>, lease: LeaseId)
    requires LegalRun(START, moves)
    requires var w := Run(START, moves); lease in w.asks && w.asks[lease].phase.Settled?
    ensures var w := Run(START, moves);
            (lease in w.delivered && w.asks[lease].phase.final != Replied) <==>
            CameLate(moves, lease) || (CameEarly(moves, lease) && SendFailed(moves, lease))
  {
    RunsKeepInv(moves);
    HistoryHolds(moves, lease);
    var w := Run(START, moves);
    assert LeaseOk(w, lease);
    if lease in w.delivered { DeliveredCounts(w.delivered, lease); }
    if w.asks[lease].mail.Some? { CountedIsDelivered(w.delivered, lease); }
  }

  /** Two moves after any run in which an ask waits: it times out, and a reply still gets through. */
  lemma ReplyCanComeLate(moves: seq<Move>, lease: LeaseId, payload: Payload)
    requires LegalRun(START, moves)
    requires var w := Run(START, moves);
             InPhase(w, lease, Waiting) && w.asks[lease].mail.None? && lease in w.table
    ensures var more := moves + [TimeOut(lease)] + [Complete(lease, payload)];
            LegalRun(START, more) && CameLate(more, lease)
  {
    var timed := moves + [TimeOut(lease)];
    var more := timed + [Complete(lease, payload)];
    assert timed[..|moves|] == moves && more[..|timed|] == timed;
    assert DeliveredAt(more, |timed|, lease);
  }

  // ---- The table in place ----

  /** The asker's half of a oneshot. */
  class Channel {
    var value: Option<Payload>
    var listening: bool

    constructor ()
      ensures value == None && listening
    {
      value, listening := None, true;
    }

    method Send(payload: Payload) returns (ok: bool)
      modifies this
      ensures ok <==> old(listening)
      ensures listening == old(listening)
      ensures value == if ok then Some(payload) else old(value)
    {
      ok := listening;
      if ok {
        value := Some(payload);
      }
    }
  }

  class ReplyTable {
    var expiry: Table
    var senders: map<LeaseId, Channel>

    constructor ()
      ensures Valid() && expiry == map[]
    {
      expiry, senders := map[], map[];
    }

    ghost predicate Valid()
      reads this
    {
      expiry.Keys == senders.Keys
    }

    method Open(lease: LeaseId, ttl: nat, now: nat) returns (receiver: Channel)
      requires Valid()
      modifies this
      ensures Valid() && fresh(receiver) && receiver.listening && receiver.value == None
      ensures expiry == old(expiry)[lease := now + ttl] && senders == old(senders)[lease := receiver]
    {
      receiver := new Channel();
      expiry := expiry[lease := now + ttl];
      senders := senders[lease := receiver];
    }

    method Complete(lease: LeaseId, payload: Payload) returns (delivered: bool)
      requires Valid()
      modifies this, senders.Values
      ensures Valid() && expiry == old(expiry) - {lease} && senders == old(senders) - {lease}
      ensures delivered <==> lease in old(expiry) && old(senders[lease].listening)
      ensures delivered ==> old(senders)[lease].value == Some(payload)
      ensures forall c :: c in old(senders.Values) && (!delivered || c != old(senders)[lease]) ==>
                c.value == old(c.value) && c.listening == old(c.listening)
    {
      if lease !in expiry {
        assert expiry == expiry - {lease} && senders == senders - {lease};
        return false;
      }
      var sender := senders[lease];
      expiry := expiry - {lease};
      senders := senders - {lease};
      delivered := sender.Send(payload);
    }

    method Cancel(lease: LeaseId)
      requires Valid()
      modifies this
      ensures Valid() && expiry == old(expiry) - {lease} && senders == old(senders) - {lease}
    {
      expiry := expiry - {lease};
      senders := senders - {lease};
    }

    method Prune(now: nat)
      requires Valid()
      modifies this
      ensures Valid() && expiry == Pruned(old(expiry), now)
      ensures forall lease :: lease in expiry <==> lease in old(expiry) && old(expiry)[lease] > now
      ensures forall lease :: lease in senders ==> lease in old(senders) && senders[lease] == old(senders)[lease]
    {
      senders := map lease | lease in expiry && expiry[lease] > now :: senders[lease];
      expiry := Pruned(expiry, now);
    }
  }
}
