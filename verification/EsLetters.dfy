/**
 The dead letters of the decide pass (src/kernel.rs): a message rejected for its schema or payload
 is dead-lettered again exactly when an earlier pass that rejected it was not committed.
 */
module EsLetters {
  import opened Wrappers
  import opened Journals
  import opened Inboxes
  import L = InboxLedger
  import opened EsActors
  import opened EsMachine
  import opened EsInvariant

  // ---- Claims are where the cursor says, on every run ----

  ghost predicate StepOk<S>(w: World<S>) {
    L.Inv(w.ledger) && ClaimsOk(CoreOf(w))
  }

  lemma LedgerMoveKeepsStepOk<S(!new)>(a: Actor<S>, w: World<S>, move: Move<S>)
    requires StepOk(w) && Legal(w, move) && (move.Post? || move.Take?)
    ensures StepOk(Next(a, w, move))
  {
    if move.Post? {
      PostKeepsClaims(w.ledger, move.move);
      L.ApplyKeepsInv(w.ledger, move.move);
    } else {
      L.TakeKeepsInv(w.ledger, move.n);
    }
  }

  lemma CrashIsStepOk<S>(w: World<S>, poison: S)
    requires StepOk(w) && L.CanGiveBack(w.ledger)
    ensures StepOk(Crash(w, poison))
  {
    L.GiveBackKeepsThePast(w.ledger);
    L.GiveBackKeepsInv(w.ledger);
  }

  lemma PassKeepsStepOk<S(!new)>(a: Actor<S>, w: World<S>, move: Move<S>)
    requires StepOk(w) && Legal(w, move) && (move.Decide? || move.Append?)
    ensures StepOk(Next(a, w, move))
  {
    if move.Decide? {
      var w' := w.(letters := w.letters + DecideAll(a, w.live, w.ledger.claims, move.views).rejected);
      assert StepOk(w');
      CrashIsStepOk(w', move.poison);
    } else {
      CrashIsStepOk(w, w.live);
    }
  }

  lemma CommitKeepsStepOk<S(!new)>(a: Actor<S>, w: World<S>)
    requires StepOk(w) && Legal(w, Commit)
    ensures StepOk(Next(a, w, Commit))
  {
    CommitAllCommits(w.ledger);
    CommitAllKeepsInv(w.ledger);
  }

  lemma MoveKeepsStepOk<S(!new)>(a: Actor<S>, w: World<S>, move: Move<S>)
    requires StepOk(w) && Legal(w, move)
    ensures StepOk(Next(a, w, move))
  {
    match move {
      case Post(_) => LedgerMoveKeepsStepOk(a, w, move);
      case Take(_) => LedgerMoveKeepsStepOk(a, w, move);
      case Decide(_, _) => PassKeepsStepOk(a, w, move);
      case Append(_, _) => PassKeepsStepOk(a, w, move);
      case Commit => CommitKeepsStepOk(a, w);
      case Boot(capacity, policy, _) => L.RunsKeepInv(capacity, policy, []);
      case _ =>
    }
  }

  lemma {:induction false} RunsKeepStepOk<S(!new)>(a: Actor<S>, w: World<S>, moves: seq<Move<S>>)
    requires StepOk(w) && LegalRun(a, w, moves)
    ensures StepOk(Run(a, w, moves))
    decreases |moves|
  {
    if moves != [] {
      var n := |moves| - 1;
      RunsKeepStepOk(a, w, moves[..n]);
      MoveKeepsStepOk(a, Run(a, w, moves[..n]), moves[n]);
    }
  }

  // ---- What a pass rejects ----

  lemma {:induction false} RejectedRise<S>(a: Actor<S>, s: S, claims: seq<Claim>, views: nat -> Json, c: nat)
    requires forall j :: 0 <= j < |claims| ==> claims[j].offset == c + j
    ensures var rejected := DecideAll(a, s, claims, views).rejected;
            L.Increasing(rejected) && forall o :: o in rejected ==> c <= o < c + |claims|
    decreases |claims|
  {
    if claims != [] {
      var n := |claims| - 1;
      RejectedRise(a, s, claims[..n], views, c);
      IncreasingConcat(DecideAll(a, s, claims[..n], views).rejected, [claims[n].offset], c + n);
    }
  }

  lemma {:induction false} IncreasingOnce(s: seq<nat>, o: nat)
    requires L.Increasing(s)
    ensures multiset(s)[o] == if o in s then 1 else 0
    decreases |s|
  {
    if s != [] {
      var n := |s| - 1;
      IncreasingOnce(s[..n], o);
      assert s == s[..n] + [s[n]];
      assert multiset(s) == multiset(s[..n]) + multiset{s[n]};
      assert forall i :: 0 <= i < n ==> s[..n][i] < s[n];
      assert o in s <==> o in s[..n] || o == s[n];
    }
  }

  /** The rejections of a pass that is neither committed nor given up. */
  function InFlight<S>(a: Actor<S>, w: World<S>): seq<nat> {
    match w.phase
    case Decided(views, _) => DecideAll(a, w.live, w.ledger.claims, views).rejected
    case Appended(batch, _, _) => DecideAll(a, w.live, batch.claims, batch.views).rejected
    case _ => []
  }

  function RejectedBy<S>(a: Actor<S>, w: World<S>, move: Move<S>): seq<nat> {
    if move.Decide? then DecideAll(a, w.live, w.ledger.claims, move.views).rejected else []
  }

  /** The rejections of the pass the move gives up: a panic, or a failed append. */
  function AbortedBy<S>(a: Actor<S>, w: World<S>, move: Move<S>): seq<nat> {
    if move.Decide? && DecideAll(a, w.live, w.ledger.claims, move.views).crashed then RejectedBy(a, w, move)
    else if move.Append? && !move.ok then InFlight(a, w)
    else []
  }

  lemma InFlightIsClaimed<S>(a: Actor<S>, w: World<S>)
    requires StepOk(w)
    ensures forall o :: o in InFlight(a, w) ==>
              w.ledger.inbox.cursor <= o < w.ledger.inbox.cursor + |w.ledger.claims|
  {
    match w.phase {
      case Decided(views, _) => RejectedRise(a, w.live, w.ledger.claims, views, w.ledger.inbox.cursor);
      case Appended(batch, _, _) => RejectedRise(a, w.live, batch.claims, batch.views, w.ledger.inbox.cursor);
      case _ =>
    }
  }

  // ---- One offset through one move ----

  /** Where an offset stands: how often it was dead-lettered, and what the run so far explains of it. */
  ghost predicate LettersFit<S>(a: Actor<S>, w: World<S>, o: nat, aborted: bool, again: bool) {
    var n := multiset(w.letters)[o];
    && (n >= 1 ==> o < w.ledger.inbox.cursor || aborted || o in InFlight(a, w))
    && (aborted || o in InFlight(a, w) ==> n >= 1)
    && (n >= 2 <==> again)
  }

  lemma CursorNeverFalls<S(!new)>(a: Actor<S>, w: World<S>, move: Move<S>)
    requires StepOk(w) && Legal(w, move) && !move.Boot?
    ensures w.ledger.inbox.cursor <= Next(a, w, move).ledger.inbox.cursor
    ensures move.Commit? ==>
              Next(a, w, move).ledger.inbox.cursor == w.ledger.inbox.cursor + |w.ledger.claims|
  {
    if move.Commit? {
      CommitAllCursor(w.ledger);
    } else if move.Decide? || move.Append? {
      L.GiveBackKeepsThePast(w.ledger);
    }
  }

  lemma {:induction false} CommitAllCursor(l: L.Ledger)
    requires L.Inv(l) && L.CanCommitAll(l)
    ensures CommitAll(l).inbox.cursor == l.inbox.cursor + |l.claims|
    decreases |l.claims|
  {
    if l.claims != [] {
      L.CommitKeepsInv(l);
      CommitNextCommitsOne(l);
      CommitAllCursor(L.Apply(l, L.CommitNext));
    }
  }

  lemma DecideLetters<S(!new)>(a: Actor<S>, w: World<S>, move: Move<S>, o: nat, aborted: bool, again: bool)
    requires StepOk(w) && Legal(w, move) && move.Decide? && LettersFit(a, w, o, aborted, again)
    ensures LettersFit(a, Next(a, w, move), o, aborted || o in AbortedBy(a, w, move),
                       again || (aborted && o in RejectedBy(a, w, move)))
  {
    var rejected, w' := RejectedBy(a, w, move), Next(a, w, move);
    RejectedRise(a, w.live, w.ledger.claims, move.views, w.ledger.inbox.cursor);
    IncreasingOnce(rejected, o);
    assert w'.letters == w.letters + rejected;
    CursorNeverFalls(a, w, move);
    assert InFlight(a, w) == [];
  }

  lemma QuietLetters<S(!new)>(a: Actor<S>, w: World<S>, move: Move<S>, o: nat, aborted: bool, again: bool)
    requires StepOk(w) && Legal(w, move) && !move.Decide? && !move.Boot? && LettersFit(a, w, o, aborted, again)
    ensures LettersFit(a, Next(a, w, move), o, aborted || o in AbortedBy(a, w, move), again)
  {
    CursorNeverFalls(a, w, move);
    InFlightIsClaimed(a, w);
    if move.Post? { PostKeepsClaims(w.ledger, move.move); }
  }

  // ---- Over a run ----

  /** What one move of a run was to one offset. */
  datatype Mark = Mark(boot: bool, aborts: bool, rejects: bool)

  function MarkOf<S>(a: Actor<S>, w: World<S>, move: Move<S>, o: nat): Mark {
    Mark(move.Boot?, o in AbortedBy(a, w, move), o in RejectedBy(a, w, move))
  }

  ghost function Marks<S(!new)>(a: Actor<S>, w: World<S>, moves: seq<Move<S>>, o: nat): (r: seq<Mark>)
    requires LegalRun(a, w, moves)
    ensures |r| == |moves|
    decreases |moves|
  {
    if moves == [] then []
    else
      var n := |moves| - 1;
      Marks(a, w, moves[..n], o) + [MarkOf(a, Run(a, w, moves[..n]), moves[n], o)]
  }

  /** The marks say of each move what it did where the run then stood. */
  lemma {:induction false} MarksAt<S(!new)>(a: Actor<S>, w: World<S>, moves: seq<Move<S>>, o: nat, i: nat)
    requires LegalRun(a, w, moves) && i < |moves|
    ensures LegalRun(a, w, moves[..i])
    ensures Marks(a, w, moves, o)[i] == MarkOf(a, Run(a, w, moves[..i]), moves[i], o)
    decreases |moves|
  {
    var n := |moves| - 1;
    if i < n {
      MarksAt(a, w, moves[..n], o, i);
      assert moves[..n][..i] == moves[..i];
    }
  }

  predicate NoBootFrom(marks: seq<Mark>, i: nat) {
    forall j :: i <= j < |marks| ==> !marks[j].boot
  }

  /** Some move, no new incarnation since, gave up a pass that had rejected the offset. */
  predicate Aborted(marks: seq<Mark>) {
    exists i :: 0 <= i < |marks| && marks[i].aborts && NoBootFrom(marks, i)
  }

  /** Some move did, and a later pass rejected the offset again. */
  predicate Again(marks: seq<Mark>) {
    exists i, k :: 0 <= i < k < |marks| && marks[i].aborts && marks[k].rejects && NoBootFrom(marks, i)
  }

  lemma NoBootSplit(marks: seq<Mark>, last: Mark, i: nat)
    requires i <= |marks|
    ensures NoBootFrom(marks + [last], i) <==> NoBootFrom(marks, i) && !last.boot
  {
    var all, n := marks + [last], |marks|;
    assert all[n] == last;
    assert forall j :: i <= j < n ==> all[j] == marks[j];
    if NoBootFrom(all, i) {
      forall j | i <= j < n ensures !marks[j].boot { assert !all[j].boot; }
    }
  }

  lemma AbortedStep(marks: seq<Mark>, last: Mark)
    ensures Aborted(marks + [last]) <==> !last.boot && (Aborted(marks) || last.aborts)
  {
    var all, n := marks + [last], |marks|;
    if !last.boot && last.aborts {
      assert all[n].aborts && NoBootFrom(all, n);
    } else if !last.boot && Aborted(marks) {
      var i :| 0 <= i < n && marks[i].aborts && NoBootFrom(marks, i);
      assert all[i].aborts && NoBootFrom(all, i);
    }
    if Aborted(all) {
      var i :| 0 <= i < |all| && all[i].aborts && NoBootFrom(all, i);
      assert !all[n].boot;
      if i < n { NoBootSplit(marks, last, i); assert marks[i].aborts; }
    }
  }

  lemma AgainStep(marks: seq<Mark>, last: Mark)
    ensures Again(marks + [last]) <==> !last.boot && (Again(marks) || (Aborted(marks) && last.rejects))
  {
    var all, n := marks + [last], |marks|;
    if !last.boot && Again(marks) {
      var i, k :| 0 <= i < k < n && marks[i].aborts && marks[k].rejects && NoBootFrom(marks, i);
      assert all[i].aborts && all[k].rejects && NoBootFrom(all, i);
    } else if !last.boot && Aborted(marks) && last.rejects {
      var i :| 0 <= i < n && marks[i].aborts && NoBootFrom(marks, i);
      assert all[i].aborts && all[n].rejects && NoBootFrom(all, i);
    }
    if Again(all) {
      var i, k :| 0 <= i < k < |all| && all[i].aborts && all[k].rejects && NoBootFrom(all, i);
      assert !all[n].boot;
      NoBootSplit(marks, last, i);
      assert marks[i].aborts;
      if k < n { assert marks[k].rejects; }
    }
  }

  lemma MoveLetters<S(!new)>(a: Actor<S>, w: World<S>, move: Move<S>, o: nat, aborted: bool, again: bool)
    requires StepOk(w) && Legal(w, move) && LettersFit(a, w, o, aborted, again)
    ensures var mark := MarkOf(a, w, move, o);
            LettersFit(a, Next(a, w, move), o, !mark.boot && (aborted || mark.aborts),
                       !mark.boot && (again || (aborted && mark.rejects)))
  {
    if move.Decide? {
      DecideLetters(a, w, move, o, aborted, again);
    } else if !move.Boot? {
      QuietLetters(a, w, move, o, aborted, again);
    }
  }

  lemma {:induction false} RunLetters<S(!new)>(a: Actor<S>, w: World<S>, moves: seq<Move<S>>, o: nat)
    requires StepOk(w) && w.letters == [] && w.phase.AtRest? && LegalRun(a, w, moves)
    ensures var marks := Marks(a, w, moves, o);
            LettersFit(a, Run(a, w, moves), o, Aborted(marks), Again(marks))
    decreases |moves|
  {
    if moves != [] {
      var n := |moves| - 1;
      var marks, last := Marks(a, w, moves[..n], o), MarkOf(a, Run(a, w, moves[..n]), moves[n], o);
      RunLetters(a, w, moves[..n], o);
      RunsKeepStepOk(a, w, moves[..n]);
      MoveLetters(a, Run(a, w, moves[..n]), moves[n], o, Aborted(marks), Again(marks));
      AbortedStep(marks, last);
      AgainStep(marks, last);
    }
  }

  lemma StartIsStepOk<S(!new)>(a: Actor<S>, capacity: nat, policy: OverloadPolicy)
    ensures StepOk(Start(a, capacity, policy))
  {
    L.RunsKeepInv(capacity, policy, []);
  }

  /**
   After any run a message of the present incarnation was dead-lettered twice for its schema or
   payload exactly when a pass that panicked or could not be appended had rejected it and a later
   pass rejected it again.
   */
  lemma LettersRepeatIff<S(!new)>(a: Actor<S>, capacity: nat, policy: OverloadPolicy, moves: seq<Move<S>>, o: nat)
    requires LegalRun(a, Start(a, capacity, policy), moves)
    ensures multiset(Run(a, Start(a, capacity, policy), moves).letters)[o] >= 2 <==>
            Again(Marks(a, Start(a, capacity, policy), moves, o))
  {
    StartIsStepOk(a, capacity, policy);
    RunLetters(a, Start(a, capacity, policy), moves, o);
  }

  /** A pass dead-letters a message again exactly if a given-up pass had rejected it. */
  lemma PassRepeatsIff<S(!new)>(a: Actor<S>, capacity: nat, policy: OverloadPolicy, moves: seq<Move<S>>,
                                move: Move<S>, o: nat)
    requires LegalRun(a, Start(a, capacity, policy), moves)
    requires var w := Run(a, Start(a, capacity, policy), moves);
             Legal(w, move) && move.Decide? && o in RejectedBy(a, w, move)
    ensures o in Run(a, Start(a, capacity, policy), moves).letters <==>
            Aborted(Marks(a, Start(a, capacity, policy), moves, o))
  {
    var start := Start(a, capacity, policy);
    var w := Run(a, start, moves);
    StartIsStepOk(a, capacity, policy);
    RunLetters(a, start, moves, o);
    RunsKeepStepOk(a, start, moves);
    RejectedRise(a, w.live, w.ledger.claims, move.views, w.ledger.inbox.cursor);
    assert o in w.letters <==> multiset(w.letters)[o] >= 1;
  }

  // ---- Without a given-up pass ----

  ghost predicate LettersRise<S>(a: Actor<S>, w: World<S>) {
    && L.Increasing(w.letters)
    && forall o :: o in w.letters ==> o < w.ledger.inbox.cursor || o in InFlight(a, w)
  }

  lemma MoveKeepsRising<S(!new)>(a: Actor<S>, w: World<S>, move: Move<S>)
    requires StepOk(w) && Legal(w, move) && LettersRise(a, w) && AbortedBy(a, w, move) == []
    ensures LettersRise(a, Next(a, w, move))
  {
    if !move.Boot? {
      CursorNeverFalls(a, w, move);
      InFlightIsClaimed(a, w);
    }
    if move.Post? { PostKeepsClaims(w.ledger, move.move); }
    if move.Decide? {
      RejectedRise(a, w.live, w.ledger.claims, move.views, w.ledger.inbox.cursor);
      IncreasingConcat(w.letters, RejectedBy(a, w, move), w.ledger.inbox.cursor);
    }
  }

  lemma IncreasingConcat(s: seq<nat>, t: seq<nat>, c: nat)
    requires L.Increasing(s) && L.Increasing(t)
    requires (forall o :: o in s ==> o < c) && (forall o :: o in t ==> c <= o)
    ensures L.Increasing(s + t)
  {
    assert forall i :: 0 <= i < |s| ==> s[i] in s;
    assert forall i :: 0 <= i < |t| ==> t[i] in t;
  }

  /** No move of the run gives up a pass that had rejected anything. */
  ghost predicate GivesUpNothing<S(!new)>(a: Actor<S>, w: World<S>, moves: seq<Move<S>>) {
    forall i: nat :: i < |moves| && LegalRun(a, w, moves[..i]) ==> AbortedBy(a, Run(a, w, moves[..i]), moves[i]) == []
  }

  /** In a run that gives up no pass with a rejection, rejected offsets strictly increase. */
  lemma {:induction false} RejectionsRise<S(!new)>(a: Actor<S>, w: World<S>, moves: seq<Move<S>>)
    requires StepOk(w) && LettersRise(a, w) && LegalRun(a, w, moves) && GivesUpNothing(a, w, moves)
    ensures LettersRise(a, Run(a, w, moves))
    decreases |moves|
  {
    if moves != [] {
      var n := |moves| - 1;
      forall i: nat | i < n && LegalRun(a, w, moves[..n][..i])
        ensures AbortedBy(a, Run(a, w, moves[..n][..i]), moves[..n][i]) == []
      {
        assert moves[..n][..i] == moves[..i];
      }
      RejectionsRise(a, w, moves[..n]);
      RunsKeepStepOk(a, w, moves[..n]);
      MoveKeepsRising(a, Run(a, w, moves[..n]), moves[n]);
    }
  }
}
