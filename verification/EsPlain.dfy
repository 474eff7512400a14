/**
 The runs the runtime makes, by conditions a caller can read off before each move, meet every
 guard: on them snapshot transparency and the live fold hold outright.
 */
module EsPlain {
  import opened Wrappers
  import opened Journals
  import opened Inboxes
  import L = InboxLedger
  import opened EsActors
  import opened EsMachine
  import opened EsInvariant
  import opened EsTheorems

  /** An actor of plain mail, or a projector that takes its facts one claim at a time. */
  datatype Diet = PlainMail | OneByOne

  /** What the runtime does: idle snapshots at the last committed number, boots that load. */
  ghost predicate Plain<S>(w: World<S>, diet: Diet, move: Move<S>) {
    match move
    case Post(m) => diet.PlainMail? && m.Push? ==> m.envelope.stamp.None?
    case Take(n) => diet.OneByOne? ==> n <= 1
    case Append(ok, _) => ok && w.phase.Decided? ==> w.journal.eventCount + |w.phase.events| <= BEFORE_GENESIS
    case TakeSnapshot(anchor, _, _) =>
      w.lastSeq == Some(anchor) && (diet.OneByOne? ==> anchor + 1 == w.journal.eventCount)
    case Boot(_, _, loaded) => loaded
    case _ => true
  }

  ghost predicate Eats<S(!new)>(a: Actor<S>, diet: Diet) {
    diet.OneByOne? ==> RecordsOneByOne(a)
  }

  ghost predicate Unstamped(mail: seq<Envelope>) {
    forall i :: 0 <= i < |mail| ==> mail[i].stamp.None?
  }

  ghost predicate DietOk<S>(w: World<S>, diet: Diet) {
    match diet
    case PlainMail => Unstamped(w.ledger.accepted) && AllRecorded(w.journal.Events())
    case OneByOne => |w.ledger.claims| <= 1
  }

  // ---- Plain moves are sound ----

  lemma PlainMailIsNoFact<S>(a: Actor<S>, w: World<S>)
    requires Inv(a, w) && DietOk(w, PlainMail)
    ensures !SameFact(w.ledger.claims)
  {
    assert LogOk(CoreOf(w));
  }

  lemma PlainAppendIsSound<S(!new)>(a: Actor<S>, w: World<S>, diet: Diet, ok: bool, ingest: nat)
    requires Inv(a, w) && DietOk(w, diet) && Eats(a, diet)
    requires Legal(w, Append(ok, ingest)) && Plain(w, diet, Append(ok, ingest))
    ensures Sound(a, w, Append(ok, ingest))
  {
    if ok {
      if diet.PlainMail? {
        PlainMailIsNoFact(a, w);
      } else {
        assert ClaimsOk(CoreOf(w));
        OneFactAtATimeIsSound(a, w, ingest);
      }
    }
  }

  /** The last committed number of a journal of plain records is its head. */
  lemma PlainHead<S>(c: Core<S>)
    requires HeadOk(c) && c.phase.AtRest? && c.lastSeq.Some? && AllRecorded(c.journal.Events())
    ensures c.lastSeq.value + 1 == |c.journal.Events()|
  {
    var events := c.journal.Events();
    assert events[..|events|] == events;
  }

  lemma HeadSnapshotIsSound<S>(a: Actor<S>, w: World<S>, anchor: nat, nowMs: nat, ok: bool)
    requires Legal(w, TakeSnapshot(anchor, nowMs, ok)) && anchor + 1 == |Past(w)|
    ensures Sound(a, w, TakeSnapshot(anchor, nowMs, ok))
  {
    assert Past(w)[anchor + 1..] == [];
  }

  lemma PlainSnapshotIsSound<S>(a: Actor<S>, w: World<S>, diet: Diet, anchor: nat, nowMs: nat, ok: bool)
    requires Inv(a, w) && DietOk(w, diet)
    requires Legal(w, TakeSnapshot(anchor, nowMs, ok)) && Plain(w, diet, TakeSnapshot(anchor, nowMs, ok))
    ensures Sound(a, w, TakeSnapshot(anchor, nowMs, ok))
  {
    AnchorIsInside(a, w);
    if diet.PlainMail? { PlainHead(CoreOf(w)); }
    HeadSnapshotIsSound(a, w, anchor, nowMs, ok);
  }

  lemma PlainIsSound<S(!new)>(a: Actor<S>, w: World<S>, diet: Diet, move: Move<S>)
    requires Inv(a, w) && DietOk(w, diet) && Eats(a, diet) && Legal(w, move) && Plain(w, diet, move)
    ensures Sound(a, w, move)
  {
    match move {
      case Append(ok, ingest) => PlainAppendIsSound(a, w, diet, ok, ingest);
      case TakeSnapshot(anchor, nowMs, ok) => PlainSnapshotIsSound(a, w, diet, anchor, nowMs, ok);
      case _ =>
    }
  }

  // ---- Plain moves keep the diet ----

  lemma PlainRecordsRecorded(j: JournalState, claims: seq<Claim>, events: seq<Event>, ingest: nat)
    requires AllRecorded(j.Events()) && !SameFact(claims)
    ensures AllRecorded(Record(j, claims, events, ingest).journal.Events())
  {
    AppendAllShape(j, events, ingest);
  }

  lemma PostKeepsUnstamped(l: L.Ledger, m: L.Move)
    requires FromOutside(m) && L.Legal(l, m) && (m.Push? ==> m.envelope.stamp.None?) && Unstamped(l.accepted)
    ensures Unstamped(L.Apply(l, m).accepted)
  {
  }

  lemma TakeOneKeepsOne(l: L.Ledger, n: nat)
    requires L.Legal(l, L.Take(n))
    ensures L.Apply(l, L.Take(n)).accepted == l.accepted && |L.Apply(l, L.Take(n)).claims| <= n
  {
  }

  lemma LedgerKeepsDiet<S(!new)>(a: Actor<S>, w: World<S>, diet: Diet, move: Move<S>)
    requires DietOk(w, diet) && Legal(w, move) && Plain(w, diet, move) && (move.Post? || move.Take?)
    ensures DietOk(Next(a, w, move), diet)
  {
    if move.Take? {
      TakeOneKeepsOne(w.ledger, move.n);
    } else {
      PostKeepsClaims(w.ledger, move.move);
      if diet.PlainMail? { PostKeepsUnstamped(w.ledger, move.move); }
    }
  }

  lemma StepKeepsDiet<S(!new)>(a: Actor<S>, w: World<S>, diet: Diet, move: Move<S>)
    requires Inv(a, w) && DietOk(w, diet) && Legal(w, move) && (move.Decide? || move.Append? || move.Commit?)
    ensures DietOk(Next(a, w, move), diet)
  {
    if move.Commit? {
      CommitAllCommits(w.ledger);
    } else {
      L.GiveBackKeepsThePast(w.ledger);
      if diet.PlainMail? {
        PlainMailIsNoFact(a, w);
        if move.Append? {
          PlainRecordsRecorded(w.journal, w.ledger.claims, w.phase.events, move.ingest);
        }
      }
    }
  }

  lemma SnapshotKeepsDiet<S>(a: Actor<S>, w: World<S>, diet: Diet, anchor: nat, nowMs: nat, ok: bool)
    requires DietOk(w, diet)
    ensures DietOk(AfterSnapshot(a, w, anchor, nowMs, ok), diet)
  {
    if a.capture(w.live).Some? {
      AppendSnapshotShape(w.journal, anchor, a.capture(w.live).value, nowMs);
    }
  }

  lemma MoveKeepsDiet<S(!new)>(a: Actor<S>, w: World<S>, diet: Diet, move: Move<S>)
    requires Inv(a, w) && DietOk(w, diet) && Legal(w, move) && Plain(w, diet, move)
    ensures DietOk(Next(a, w, move), diet)
  {
    match move {
      case Post(_) => LedgerKeepsDiet(a, w, diet, move);
      case Take(_) => LedgerKeepsDiet(a, w, diet, move);
      case TakeSnapshot(anchor, nowMs, ok) => SnapshotKeepsDiet(a, w, diet, anchor, nowMs, ok);
      case Apply =>
      case Restart(_) =>
      case Boot(_, _, _) =>
      case _ => StepKeepsDiet(a, w, diet, move);
    }
  }

  // ---- Every plain run ----

  ghost predicate PlainRun<S(!new)>(a: Actor<S>, w: World<S>, diet: Diet, moves: seq<Move<S>>) {
    && LegalRun(a, w, moves)
    && forall i :: 0 <= i < |moves| ==> PlainAt(a, w, diet, moves, i)
  }

  ghost predicate PlainAt<S(!new)>(a: Actor<S>, w: World<S>, diet: Diet, moves: seq<Move<S>>, i: nat)
    requires i < |moves|
  {
    LegalRun(a, w, moves[..i]) && Plain(Run(a, w, moves[..i]), diet, moves[i])
  }

  lemma PlainPrefix<S(!new)>(a: Actor<S>, w: World<S>, diet: Diet, moves: seq<Move<S>>)
    requires moves != [] && PlainRun(a, w, diet, moves)
    ensures PlainRun(a, w, diet, moves[..|moves| - 1])
  {
    var n := |moves| - 1;
    forall i | 0 <= i < n ensures PlainAt(a, w, diet, moves[..n], i) {
      assert PlainAt(a, w, diet, moves, i);
      assert moves[..n][..i] == moves[..i] && moves[..n][i] == moves[i];
    }
  }

  /** A plain run meets every guard. */
  lemma {:induction false} PlainRunIsSound<S(!new)>(a: Actor<S>, w: World<S>, diet: Diet, moves: seq<Move<S>>)
    requires RoundTrips(a) && Eats(a, diet) && Inv(a, w) && DietOk(w, diet) && PlainRun(a, w, diet, moves)
    ensures SoundRun(a, w, moves)
    ensures Inv(a, Run(a, w, moves)) && DietOk(Run(a, w, moves), diet)
    decreases |moves|
  {
    if moves != [] {
      var n := |moves| - 1;
      var before := Run(a, w, moves[..n]);
      PlainPrefix(a, w, diet, moves);
      PlainRunIsSound(a, w, diet, moves[..n]);
      assert PlainAt(a, w, diet, moves, n);
      PlainIsSound(a, before, diet, moves[n]);
      MoveKeepsDiet(a, before, diet, moves[n]);
      NextKeepsInv(a, before, moves[n]);
    }
  }

  lemma PlainFromStart<S(!new)>(a: Actor<S>, capacity: nat, policy: OverloadPolicy, diet: Diet, moves: seq<Move<S>>)
    requires RoundTrips(a) && Eats(a, diet) && PlainRun(a, Start(a, capacity, policy), diet, moves)
    ensures SoundRun(a, Start(a, capacity, policy), moves)
  {
    StartOk(a, capacity, policy);
    PlainRunIsSound(a, Start(a, capacity, policy), diet, moves);
  }

  /**
   Snapshot transparency: at any point of any plain run the latest snapshot with its strict tail
   rebuilds what replay from genesis gives.
   */
  lemma PlainRunsReplayFromGenesis<S(!new)>(a: Actor<S>, capacity: nat, policy: OverloadPolicy, diet: Diet,
                                            moves: seq<Move<S>>)
    requires RoundTrips(a) && Eats(a, diet) && PlainRun(a, Start(a, capacity, policy), diet, moves)
    ensures var w := Run(a, Start(a, capacity, policy), moves);
            Reloaded(a, w.journal) == Some(Fold(a, a.genesis, Past(w)))
  {
    PlainFromStart(a, capacity, policy, diet, moves);
    ReplayIsReplayFromGenesis(a, capacity, policy, moves);
  }

  /** Between steps of any plain run the live state is the fold of the whole journal from genesis. */
  lemma PlainRunsLiveInTheFold<S(!new)>(a: Actor<S>, capacity: nat, policy: OverloadPolicy, diet: Diet,
                                        moves: seq<Move<S>>)
    requires RoundTrips(a) && Eats(a, diet) && PlainRun(a, Start(a, capacity, policy), diet, moves)
    ensures var w := Run(a, Start(a, capacity, policy), moves);
            w.phase.AtRest? || w.phase.Claimed? || w.phase.Decided? ==> w.live == Fold(a, a.genesis, Past(w))
  {
    PlainFromStart(a, capacity, policy, diet, moves);
    LiveStateIsTheFold(a, capacity, policy, moves);
  }
}
