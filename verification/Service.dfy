/**
 The batched service step (src/kernel.rs): every message is committed before it is dispatched,
 and the claim guard takes care of what a step leaves uncommitted.
 */
module Services {
  import opened Wrappers
  import opened Inboxes
  import L = InboxLedger

  /** How one message's handling ends; `Refused` is an unknown schema or a failed decode. */
  datatype Ending = Refused | Ran | StoppedSelf | Panicked

  datatype Phase = AtRest | Stepping | Handling | Down | Exited

  datatype World = World(ledger: L.Ledger, phase: Phase, dispatched: seq<nat>, letters: seq<nat>)

  datatype Move =
    | Post(move: L.Move)
    | Take(n: nat)
    | Handoff(known: bool)
    | Finish(ending: Ending)
    | Restart

  function Start(capacity: nat, policy: OverloadPolicy): World {
    World(L.Fresh(capacity, policy), AtRest, [], [])
  }

  // ---- The moves ----

  predicate Legal(w: World, move: Move) {
    match move
    case Post(m) => (m.Push? || m.Close? || m.Reopen? || m.Stop?) && L.Legal(w.ledger, m)
    case Take(n) => w.phase.AtRest? && !w.ledger.stopped && L.Legal(w.ledger, L.Take(n))
    case Handoff(_) => w.phase.Stepping? && L.Legal(w.ledger, L.CommitNext)
    case Finish(ending) => w.phase.Handling? && !ending.Refused? && L.CanGiveBack(w.ledger)
    case Restart => w.phase.Down? && !w.ledger.stopped
  }

  /** A step with no claim left is over. */
  function Onward(w: World): World {
    w.(phase := if w.ledger.claims == [] then AtRest else Stepping)
  }

  /** The commit comes first; a message without an entry or a decodable payload dies here. */
  function AfterHandoff(w: World, known: bool): World
    requires L.Legal(w.ledger, L.CommitNext)
  {
    var offset, w' := w.ledger.claims[0].offset, w.(ledger := L.Apply(w.ledger, L.CommitNext));
    if known then w'.(phase := Handling, dispatched := w.dispatched + [offset])
    else Onward(w'.(letters := w.letters + [offset]))
  }

  function AfterFinish(w: World, ending: Ending): World
    requires L.CanGiveBack(w.ledger)
  {
    match ending
    case Panicked => w.(ledger := L.GiveBack(w.ledger), phase := Down)
    case StoppedSelf => w.(ledger := L.GiveBack(w.ledger), phase := Exited)
    case _ => Onward(w)
  }

  function Next(w: World, move: Move): World
    requires Legal(w, move)
  {
    match move
    case Post(m) => w.(ledger := L.Apply(w.ledger, m))
    case Take(n) => Onward(w.(ledger := L.Apply(w.ledger, L.Take(n))))
    case Handoff(known) => AfterHandoff(w, known)
    case Finish(ending) => AfterFinish(w, ending)
    case Restart => w.(phase := AtRest)
  }

  // ---- The invariant ----

  /** Each committed message was dispatched or dead-lettered, never both, never twice, in order. */
  ghost predicate HandedOff(committed: seq<nat>, dispatched: seq<nat>, letters: seq<nat>) {
    && L.Increasing(dispatched) && L.Increasing(letters)
    && (forall o :: o in committed <==> o in dispatched || o in letters)
    && (forall o :: o in dispatched ==> o !in letters)
  }

  ghost predicate Inv(w: World) {
    && L.Inv(w.ledger)
    && HandedOff(w.ledger.committed, w.dispatched, w.letters)
    && (w.phase.Stepping? ==> w.ledger.claims != [])
    && (w.phase.AtRest? || w.phase.Down? || w.phase.Exited? ==> w.ledger.claims == [])
  }

  /** The next offset to commit is beyond all committed ones. */
  lemma HandOffOne(committed: seq<nat>, dispatched: seq<nat>, letters: seq<nat>, o: nat)
    requires HandedOff(committed, dispatched, letters) && forall c :: c in committed ==> c < o
    ensures HandedOff(committed + [o], dispatched + [o], letters)
    ensures HandedOff(committed + [o], dispatched, letters + [o])
  {
    assert forall c :: c in committed + [o] <==> c in committed || c == o;
    assert forall c :: c in dispatched + [o] <==> c in dispatched || c == o;
    assert forall c :: c in letters + [o] <==> c in letters || c == o;
    assert forall i :: 0 <= i < |dispatched| ==> dispatched[i] in committed;
    assert forall i :: 0 <= i < |letters| ==> letters[i] in committed;
  }

  lemma CommitIsBeyond(l: L.Ledger)
    requires L.Inv(l) && l.claims != []
    ensures forall c :: c in l.committed ==> c < l.claims[0].offset
  {
  }

  lemma HandoffKeepsInv(w: World, known: bool)
    requires Inv(w) && Legal(w, Handoff(known))
    ensures Inv(Next(w, Handoff(known)))
  {
    CommitIsBeyond(w.ledger);
    HandOffOne(w.ledger.committed, w.dispatched, w.letters, w.ledger.claims[0].offset);
    L.CommitKeepsInv(w.ledger);
  }

  lemma FinishKeepsInv(w: World, ending: Ending)
    requires Inv(w) && Legal(w, Finish(ending))
    ensures Inv(Next(w, Finish(ending)))
  {
    L.GiveBackKeepsInv(w.ledger);
    L.GiveBackKeepsThePast(w.ledger);
  }

  lemma PostKeepsPast(l: L.Ledger, m: L.Move)
    requires L.Legal(l, m) && (m.Push? || m.Close? || m.Reopen? || m.Stop? || m.Take?)
    ensures L.Apply(l, m).committed == l.committed
    ensures !m.Take? ==> L.Apply(l, m).claims == l.claims
  {
  }

  lemma NextKeepsInv(w: World, move: Move)
    requires Inv(w) && Legal(w, move)
    ensures Inv(Next(w, move))
  {
    match move {
      case Post(m) =>
        PostKeepsPast(w.ledger, m);
        L.ApplyKeepsInv(w.ledger, m);
      case Take(n) =>
        PostKeepsPast(w.ledger, L.Take(n));
        L.ApplyKeepsInv(w.ledger, L.Take(n));
      case Handoff(known) => HandoffKeepsInv(w, known);
      case Finish(ending) => FinishKeepsInv(w, ending);
      case Restart =>
    }
  }

  // ---- Every run ----

  predicate LegalRun(w: World, moves: seq<Move>)
    decreases |moves|, 0
  {
    moves == [] ||
    var n := |moves| - 1;
    LegalRun(w, moves[..n]) && Legal(Run(w, moves[..n]), moves[n])
  }

  function Run(w: World, moves: seq<Move>): World
    requires LegalRun(w, moves)
    decreases |moves|, 1
  {
    if moves == [] then w
    else
      var n := |moves| - 1;
      Next(Run(w, moves[..n]), moves[n])
  }

  lemma {:induction false} RunsKeepInv(capacity: nat, policy: OverloadPolicy, moves: seq<Move>)
    requires LegalRun(Start(capacity, policy), moves)
    ensures Inv(Run(Start(capacity, policy), moves))
    decreases |moves|
  {
    L.RunsKeepInv(capacity, policy, []);
    if moves != [] {
      var n := |moves| - 1;
      RunsKeepInv(capacity, policy, moves[..n]);
      NextKeepsInv(Run(Start(capacity, policy), moves[..n]), moves[n]);
    }
  }

  /**
   At most once, in order, across any number of crashes: dispatched offsets strictly increase, and
   each committed message was either dispatched or dead-lettered for its schema or payload.
   */
  lemma DispatchedAtMostOnce(capacity: nat, policy: OverloadPolicy, moves: seq<Move>, i: nat, k: nat, o: nat)
    requires LegalRun(Start(capacity, policy), moves)
    ensures var w := Run(Start(capacity, policy), moves);
            && (i < k < |w.dispatched| ==> w.dispatched[i] < w.dispatched[k])
            && (o in w.ledger.committed <==> o in w.dispatched || o in w.letters)
            && !(o in w.dispatched && o in w.letters)
            && (o in w.dispatched || o in w.letters ==> o < w.ledger.inbox.cursor)
  {
    RunsKeepInv(capacity, policy, moves);
  }

  /** Move `i` of the run commits the message at `o`, its schema known and its payload decoded, or not. */
  predicate HandedOffAt(start: World, moves: seq<Move>, i: nat, known: bool, o: nat) {
    && i < |moves| && LegalRun(start, moves[..i]) && moves[i] == Handoff(known)
    && var claims := Run(start, moves[..i]).ledger.claims; claims != [] && claims[0].offset == o
  }

  ghost predicate HandedOffSome(start: World, moves: seq<Move>, known: bool, o: nat) {
    exists i: nat :: HandedOffAt(start, moves, i, known, o)
  }

  lemma HandedOffOneMore(start: World, moves: seq<Move>, known: bool, o: nat)
    requires moves != [] && LegalRun(start, moves)
    ensures var n := |moves| - 1;
            HandedOffSome(start, moves, known, o) <==>
            HandedOffSome(start, moves[..n], known, o) || HandedOffAt(start, moves, n, known, o)
  {
    var n := |moves| - 1;
    forall i: nat | i < n
      ensures HandedOffAt(start, moves, i, known, o) <==> HandedOffAt(start, moves[..n], i, known, o)
    {
      assert moves[..n][..i] == moves[..i] && moves[..n][i] == moves[i];
    }
  }

  /**
   A message is dispatched exactly if a handoff committed it with a known schema and a decoded
   payload, and dead-lettered exactly if one committed it without.
   */
  lemma {:induction false} DispatchedIff(start: World, moves: seq<Move>, o: nat)
    requires start.dispatched == [] && start.letters == [] && LegalRun(start, moves)
    ensures o in Run(start, moves).dispatched <==> HandedOffSome(start, moves, true, o)
    ensures o in Run(start, moves).letters <==> HandedOffSome(start, moves, false, o)
    decreases |moves|
  {
    if moves != [] {
      DispatchedIff(start, moves[..|moves| - 1], o);
      HandedOffOneMore(start, moves, true, o);
      HandedOffOneMore(start, moves, false, o);
      assert moves[..|moves| - 1] <= moves;
    }
  }

  /** Nothing dispatched ever comes back: what is queued live or claimed was never handed to a handler. */
  lemma DispatchedIsGone(capacity: nat, policy: OverloadPolicy, moves: seq<Move>, o: nat)
    requires LegalRun(Start(capacity, policy), moves)
    requires o in Run(Start(capacity, policy), moves).dispatched
    ensures var l := Run(Start(capacity, policy), moves).ledger;
            !L.HasFate(l, o, L.Waiting) && !L.HasFate(l, o, L.Claimed) && !L.HasFate(l, o, L.DeadLettered)
  {
    RunsKeepInv(capacity, policy, moves);
    var l := Run(Start(capacity, policy), moves).ledger;
    assert o in l.committed;
    L.FateIsUnique(l, o, L.Waiting);
    L.FateIsUnique(l, o, L.Claimed);
    L.FateIsUnique(l, o, L.DeadLettered);
  }

  /**
   The guard on every exit: whichever message panicked or asked to stop, every later one is back in
   its own slot ahead of newer mail, or, if the actor is stopping, dead-lettered exactly once.
   */
  lemma GuardSettlesTheTail(capacity: nat, policy: OverloadPolicy, moves: seq<Move>, ending: Ending, o: nat)
    requires LegalRun(Start(capacity, policy), moves)
    requires var w := Run(Start(capacity, policy), moves);
             && w.phase.Handling? && (ending == Panicked || ending == StoppedSelf)
             && w.ledger.inbox.cursor <= o < w.ledger.inbox.nextOffset
    ensures var w := Run(Start(capacity, policy), moves);
            && Legal(w, Finish(ending))
            && var l, l' := w.ledger, Next(w, Finish(ending)).ledger;
               if l.stopped then o in l'.dead && L.NoRepeats(l'.dead)
               else
                 && o < |l.accepted| && o - l.inbox.cursor < |l'.inbox.queue|
                 && l'.inbox.queue[o - l.inbox.cursor] == Slot(o, Some(l.accepted[o]))
  {
    RunsKeepInv(capacity, policy, moves);
    var w := Run(Start(capacity, policy), moves);
    GuardNeverPanics(w.ledger);
    assert Next(w, Finish(ending)).ledger == L.GiveBack(w.ledger);
    L.GiveBackKeepsTheTail(w.ledger, o);
  }

  lemma GuardNeverPanics(l: L.Ledger)
    requires L.Inv(l)
    ensures L.CanGiveBack(l)
  {
    if !l.stopped { L.RestoreNeverPanics(l); }
  }

  // ---- The step in place ----

  datatype StepResult = Idle | Work | Crashed | Stop

  /** The front claim can be committed, and what is left can be given back. */
  ghost predicate Servable(w: World) {
    && w.phase.Stepping? && !w.ledger.stopped && L.Legal(w.ledger, L.CommitNext)
    && var l := L.Apply(w.ledger, L.CommitNext);
       l.inbox.Sane() && L.Legal(l, L.Restore)
  }

  lemma SteppingIsServable(w: World)
    requires Inv(w) && w.phase.Stepping? && !w.ledger.stopped
    ensures Servable(w)
  {
    L.InboxIsSane(w.ledger);
    L.CommitKeepsInv(w.ledger);
    var l := L.Apply(w.ledger, L.CommitNext);
    L.InboxIsSane(l);
    L.RestoreNeverPanics(l);
  }

  ghost function ServedOne(w: World, endings: nat -> Ending): World
    requires Servable(w)
  {
    var ending := endings(w.ledger.claims[0].offset);
    var handed := Next(w, Handoff(!ending.Refused?));
    if ending.Refused? then handed else Next(handed, Finish(ending))
  }

  predicate GoesOn(ending: Ending) { ending.Refused? || ending.Ran? }

  lemma ServedOneKeepsInv(w: World, endings: nat -> Ending)
    requires Inv(w) && Servable(w)
    ensures Inv(ServedOne(w, endings))
    ensures GoesOn(endings(w.ledger.claims[0].offset)) ==>
              var w' := ServedOne(w, endings);
              && !w'.ledger.stopped && w'.ledger.claims == w.ledger.claims[1..]
              && w'.phase == if w'.ledger.claims == [] then AtRest else Stepping
  {
    var ending := endings(w.ledger.claims[0].offset);
    HandoffKeepsInv(w, !ending.Refused?);
    if !ending.Refused? {
      FinishKeepsInv(Next(w, Handoff(true)), ending);
    }
  }

  /** Messages are handed off front to back until one ends the step. `endings` is indexed by offset. */
  ghost function Served(w: World, endings: nat -> Ending): World
    requires Inv(w) && !w.ledger.stopped && (w.phase.Stepping? || w.phase.AtRest?)
    decreases |w.ledger.claims|
  {
    if w.phase.AtRest? then w
    else
      SteppingIsServable(w);
      ServedOneKeepsInv(w, endings);
      var next := ServedOne(w, endings);
      if GoesOn(endings(w.ledger.claims[0].offset)) then Served(next, endings) else next
  }

  /** The offsets refused, or the offsets handed to the handler, in order. */
  function HandedOver(batch: seq<Claim>, endings: nat -> Ending, refused: bool): seq<nat> {
    if batch == [] then []
    else
      (if endings(batch[0].offset).Refused? == refused then [batch[0].offset] else []) +
      HandedOver(batch[1..], endings, refused)
  }

  /** `served` messages were handled, the last of them ended the step or there was no other. */
  ghost predicate EndsAt(batch: seq<Claim>, endings: nat -> Ending, served: nat, step: StepResult) {
    && 0 < served <= |batch|
    && (forall k :: 0 <= k < served - 1 ==> GoesOn(endings(batch[k].offset)))
    && match endings(batch[served - 1].offset)
       case Panicked => step == Crashed
       case StoppedSelf => step == Stop
       case _ => step == Work && served == |batch|
  }

  /** What the loop reports of where it ended. */
  function ResultOf(phase: Phase): StepResult {
    if phase.Down? then Crashed else if phase.Exited? then Stop else Work
  }

  lemma ServedOneHands(w: World, endings: nat -> Ending)
    requires Servable(w)
    ensures var ending, o, w' := endings(w.ledger.claims[0].offset), w.ledger.claims[0].offset, ServedOne(w, endings);
            && w'.dispatched == w.dispatched + (if ending.Refused? then [] else [o])
            && w'.letters == w.letters + (if ending.Refused? then [o] else [])
            && (w'.phase.Down? <==> ending.Panicked?) && (w'.phase.Exited? <==> ending.StoppedSelf?)
  {
  }

  /** One more message in front of those served. */
  lemma EndsOneLater(batch: seq<Claim>, endings: nat -> Ending, served: nat, step: StepResult)
    requires |batch| > 1 && GoesOn(endings(batch[0].offset)) && EndsAt(batch[1..], endings, served, step)
    ensures EndsAt(batch, endings, served + 1, step)
    ensures forall refused ::
              HandedOver(batch[..served + 1], endings, refused) ==
              (if endings(batch[0].offset).Refused? == refused then [batch[0].offset] else []) +
              HandedOver(batch[1..][..served], endings, refused)
  {
    assert batch[..served + 1][1..] == batch[1..][..served];
    assert batch[1..][served - 1] == batch[served];
    forall k | 0 <= k < served ensures GoesOn(endings(batch[k].offset)) {
      if k > 0 { assert batch[1..][k - 1] == batch[k]; }
    }
  }

  /** `w'` is what serving the first `served` messages of `w`'s batch leaves. */
  ghost predicate ServedRightly(w: World, w': World, endings: nat -> Ending, served: nat) {
    var batch := w.ledger.claims;
    && EndsAt(batch, endings, served, ResultOf(w'.phase))
    && w'.dispatched == w.dispatched + HandedOver(batch[..served], endings, false)
    && w'.letters == w.letters + HandedOver(batch[..served], endings, true)
  }

  lemma FirstServed(w: World, endings: nat -> Ending)
    requires Servable(w)
    requires var ending := endings(w.ledger.claims[0].offset);
             GoesOn(ending) ==> |w.ledger.claims| == 1 && ServedOne(w, endings).phase.AtRest?
    ensures ServedRightly(w, ServedOne(w, endings), endings, 1)
  {
    var batch := w.ledger.claims;
    ServedOneHands(w, endings);
    assert batch[..1] == [batch[0]] && [batch[0]][1..] == [];
    assert HandedOver([], endings, false) == [] && HandedOver([], endings, true) == [];
  }

  lemma FirstThenServed(w: World, w': World, endings: nat -> Ending, served: nat)
    requires Servable(w) && GoesOn(endings(w.ledger.claims[0].offset)) && |w.ledger.claims| > 1
    requires ServedOne(w, endings).ledger.claims == w.ledger.claims[1..]
    requires ServedRightly(ServedOne(w, endings), w', endings, served)
    ensures ServedRightly(w, w', endings, served + 1)
  {
    ServedOneHands(w, endings);
    EndsOneLater(w.ledger.claims, endings, served, ResultOf(w'.phase));
  }

  /** What a served batch leaves, message by message. */
  lemma {:induction false} ServedMeans(w: World, endings: nat -> Ending) returns (served: nat)
    requires Inv(w) && !w.ledger.stopped && w.phase.Stepping?
    ensures ServedRightly(w, Served(w, endings), endings, served)
    decreases |w.ledger.claims|
  {
    var batch := w.ledger.claims;
    ServedUnfolds(w, endings);
    if GoesOn(endings(batch[0].offset)) && |batch| > 1 {
      var rest := ServedMeans(ServedOne(w, endings), endings);
      FirstThenServed(w, Served(w, endings), endings, rest);
      served := rest + 1;
    } else {
      FirstServed(w, endings);
      served := 1;
    }
  }

  lemma ServedUnfolds(w: World, endings: nat -> Ending)
    requires Inv(w) && !w.ledger.stopped && w.phase.Stepping?
    ensures Servable(w) && Inv(ServedOne(w, endings))
    ensures GoesOn(endings(w.ledger.claims[0].offset)) ==>
              var next := ServedOne(w, endings);
              && !next.ledger.stopped && next.ledger.claims == w.ledger.claims[1..]
              && next.phase == (if next.ledger.claims == [] then AtRest else Stepping)
              && Served(w, endings) == Served(next, endings)
    ensures !GoesOn(endings(w.ledger.claims[0].offset)) ==> Served(w, endings) == ServedOne(w, endings)
  {
    SteppingIsServable(w);
    ServedOneKeepsInv(w, endings);
  }

  // ---- A batch served is the machine's moves ----

  lemma OneMoreMove(w: World, moves: seq<Move>, move: Move)
    requires LegalRun(w, moves) && Legal(Run(w, moves), move)
    ensures LegalRun(w, moves + [move]) && Run(w, moves + [move]) == Next(Run(w, moves), move)
  {
    assert (moves + [move])[..|moves|] == moves;
  }

  lemma {:induction false} MovesJoin(w: World, first: seq<Move>, second: seq<Move>)
    requires LegalRun(w, first) && LegalRun(Run(w, first), second)
    ensures LegalRun(w, first + second) && Run(w, first + second) == Run(Run(w, first), second)
    decreases |second|
  {
    if second == [] {
      assert first + second == first;
    } else {
      var n := |second| - 1;
      MovesJoin(w, first, second[..n]);
      OneMoreMove(w, first + second[..n], second[n]);
      assert first + second == first + second[..n] + [second[n]];
    }
  }

  lemma ServedOneIsMoves(w: World, endings: nat -> Ending) returns (moves: seq<Move>)
    requires Servable(w)
    ensures LegalRun(w, moves) && Run(w, moves) == ServedOne(w, endings)
    ensures forall m :: m in moves ==> m.Handoff? || m.Finish?
  {
    var ending := endings(w.ledger.claims[0].offset);
    moves := [] + [Handoff(!ending.Refused?)];
    OneMoreMove(w, [], Handoff(!ending.Refused?));
    if !ending.Refused? {
      OneMoreMove(w, moves, Finish(ending));
      moves := moves + [Finish(ending)];
    }
  }

  /** Serving a batch is a run of handoffs and the endings of what they hand over. */
  lemma {:induction false} ServedIsMoves(w: World, endings: nat -> Ending) returns (moves: seq<Move>)
    requires Inv(w) && !w.ledger.stopped && (w.phase.Stepping? || w.phase.AtRest?)
    ensures LegalRun(w, moves) && Run(w, moves) == Served(w, endings)
    ensures forall m :: m in moves ==> m.Handoff? || m.Finish?
    decreases |w.ledger.claims|
  {
    moves := [];
    if w.phase.Stepping? {
      ServedUnfolds(w, endings);
      moves := ServedOneIsMoves(w, endings);
      if GoesOn(endings(w.ledger.claims[0].offset)) {
        var rest := ServedIsMoves(ServedOne(w, endings), endings);
        MovesJoin(w, moves, rest);
        moves := moves + rest;
      }
    }
  }

  class ServiceLoop {
    const inbox: Inbox
    var dispatched: seq<nat>
    var letters: seq<nat>
    var crashed: bool

    constructor (inbox: Inbox)
      ensures this.inbox == inbox
      ensures dispatched == [] && letters == [] && !crashed
    {
      this.inbox := inbox;
      dispatched, letters, crashed := [], [], false;
    }

    ghost predicate Shows(w: World)
      reads this, inbox
    {
      && inbox.Value() == w.ledger.inbox && dispatched == w.dispatched && letters == w.letters
      && crashed == w.phase.Down?
    }

    /** One message: commit, then dispatch; a panic or a stop gives the rest back. */
    method ServeOne(batch: seq<Claim>, endings: nat -> Ending, ghost w: World) returns (ending: Ending)
      requires Servable(w) && w.ledger.claims == batch && Shows(w)
      modifies this`dispatched, this`letters, this`crashed, inbox
      ensures ending == endings(batch[0].offset)
      ensures Shows(ServedOne(w, endings))
      ensures dispatched == old(dispatched) + if ending.Refused? then [] else [batch[0].offset]
      ensures letters == old(letters) + if ending.Refused? then [batch[0].offset] else []
      ensures crashed <==> ending.Panicked?
    {
      var _ := inbox.CommitThrough(batch[0].offset);
      ending := endings(batch[0].offset);
      if ending.Refused? {
        letters := letters + [batch[0].offset];
        return;
      }
      dispatched := dispatched + [batch[0].offset];
      crashed := ending.Panicked?;
      if !ending.Ran? {
        var _ := inbox.RestoreClaims(batch[1..]);
      }
    }

    /** A claimed batch, front to back. */
    method ServeAll(batch: seq<Claim>, endings: nat -> Ending, ghost w: World) returns (step: StepResult)
      requires Inv(w) && !w.ledger.stopped && w.phase.Stepping? && w.ledger.claims == batch && Shows(w)
      modifies this`dispatched, this`letters, this`crashed, inbox
      ensures Shows(Served(w, endings)) && step == ResultOf(Served(w, endings).phase)
    {
      ghost var v := w;
      var i := 0;
      while i < |batch|
        invariant 0 <= i <= |batch| && v.ledger.claims == batch[i..]
        invariant Inv(v) && !v.ledger.stopped && v.phase == if i < |batch| then Stepping else AtRest
        invariant Shows(v) && Served(v, endings) == Served(w, endings)
      {
        ServedUnfolds(v, endings);
        ServedOneHands(v, endings);
        ghost var next := ServedOne(v, endings);
        var ending := ServeOne(batch[i..], endings, v);
        if ending.Panicked? {
          return Crashed;
        }
        if ending.StoppedSelf? {
          return Stop;
        }
        v := next;
        i := i + 1;
      }
      return Work;
    }

    method StepService(n: nat, endings: nat -> Ending, ghost w: World)
      returns (step: StepResult, ghost batch: seq<Claim>, ghost served: nat)
      requires Inv(w) && !w.ledger.stopped && w.phase.AtRest? && Legal(w, Take(n)) && Shows(w)
      modifies this`dispatched, this`letters, this`crashed, inbox
      ensures Inv(Next(w, Take(n))) && Shows(Served(Next(w, Take(n)), endings))
      ensures batch == Next(w, Take(n)).ledger.claims && (step == Idle <==> batch == [])
      ensures step != Idle ==> EndsAt(batch, endings, served, step)
      ensures crashed <==> step == Crashed
      ensures served <= |batch|
      ensures dispatched == old(dispatched) + HandedOver(batch[..served], endings, false)
      ensures letters == old(letters) + HandedOver(batch[..served], endings, true)
    {
      NextKeepsInv(w, Take(n));
      L.InboxIsSane(w.ledger);
      var claimed := inbox.ClaimUpTo(n);
      batch := claimed;
      if claimed == [] {
        return Idle, batch, 0;
      }
      served := ServedMeans(Next(w, Take(n)), endings);
      step := ServeAll(claimed, endings, Next(w, Take(n)));
    }
  }
}
