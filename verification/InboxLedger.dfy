/**
 Every run of one inbox: pushes from anywhere, claims, commits and restores by the actor's one
 loop, and the stop that drains it. The ledger remembers what became of every envelope.
 */
module InboxLedger {
  import opened Wrappers
  import opened Inboxes

  /** `accepted` is indexed by offset; `claims` is what the step holds and has not committed. */
  datatype Ledger = Ledger(
    inbox: InboxState, pushed: seq<Envelope>, accepted: seq<Envelope>, refused: seq<Envelope>,
    claims: seq<Claim>, committed: seq<nat>, evicted: seq<nat>, dead: seq<nat>, stopped: bool)

  datatype Move =
    | Push(envelope: Envelope)
    | Take(n: nat)
    | CommitNext
    | Restore
    | Close
    | Reopen
    | Stop
    | DropTail

  function Fresh(capacity: nat, policy: OverloadPolicy): Ledger {
    Ledger(NewInbox(capacity, policy), [], [], [], [], [], [], [], false)
  }

  /** The loop claims only with no claim outstanding; a stopped cell neither reopens nor restores. */
  predicate Legal(l: Ledger, move: Move) {
    match move
    case Push(_) => l.inbox.CanPush()
    case Take(n) => l.claims == [] && l.inbox.CanClaim(n)
    case CommitNext => l.claims != [] && l.inbox.CanCommit(l.claims[0].offset)
    case Restore => !l.stopped && l.inbox.CanRestore(l.claims)
    case Close => true
    case Reopen => !l.stopped
    case Stop => !l.stopped
    case DropTail => l.stopped
  }

  function OffsetsOf(claims: seq<Claim>): (r: seq<nat>)
    ensures |r| == |claims| && forall i :: 0 <= i < |r| ==> r[i] == claims[i].offset
  {
    seq(|claims|, i requires 0 <= i < |claims| => claims[i].offset)
  }

  /** The offsets of the live slots, in queue order. */
  function LiveOffsets(slots: seq<Slot>): seq<nat> {
    if slots == [] then []
    else
      var n := |slots| - 1;
      LiveOffsets(slots[..n]) + (if slots[n].envelope.Some? then [slots[n].offset] else [])
  }

  function AfterPush(l: Ledger, envelope: Envelope): Ledger
    requires l.inbox.CanPush()
  {
    var (inbox, answer) := l.inbox.Push(envelope);
    var l' := l.(inbox := inbox, pushed := l.pushed + [envelope]);
    match answer
    case Queued(_) => l'.(accepted := l.accepted + [envelope])
    case Evicted(_) => l'.(accepted := l.accepted + [envelope], evicted := l.evicted + [l.inbox.cursor])
    case _ => l'.(refused := l.refused + [envelope])
  }

  function Apply(l: Ledger, move: Move): Ledger
    requires Legal(l, move)
  {
    match move
    case Push(envelope) => AfterPush(l, envelope)
    case Take(n) => l.(inbox := l.inbox.ClaimUpTo(n).0, claims := l.inbox.ClaimUpTo(n).1)
    case CommitNext =>
      l.(inbox := l.inbox.CommitThrough(l.claims[0].offset), claims := l.claims[1..],
         committed := l.committed + [l.claims[0].offset])
    case Restore => l.(inbox := l.inbox.RestoreClaims(l.claims), claims := [])
    case Close => l.(inbox := l.inbox.(isOpen := false))
    case Reopen => l.(inbox := l.inbox.(isOpen := true))
    case Stop =>
      l.(inbox := l.inbox.(isOpen := false).DrainLive().0, dead := l.dead + LiveOffsets(l.inbox.queue),
         stopped := true)
    case DropTail => l.(dead := l.dead + OffsetsOf(l.claims), claims := [])
  }

  // ---- The invariant ----

  ghost predicate Increasing(s: seq<nat>) {
    forall i, k :: 0 <= i < k < |s| ==> s[i] < s[k]
  }

  ghost predicate NoRepeats(s: seq<nat>) {
    forall i, k :: 0 <= i < k < |s| ==> s[i] != s[k]
  }

  /** The claims are the oldest uncommitted envelopes, in order. */
  ghost predicate ClaimsOk(l: Ledger) {
    var c, m := l.inbox.cursor, |l.claims|;
    && |l.accepted| == l.inbox.nextOffset && c + m <= l.inbox.nextOffset
    && forall j :: 0 <= j < m ==> l.claims[j] == Claim(c + j, l.accepted[c + j])
  }

  /** Tombstones are exactly the outstanding claims, a prefix; behind them the mail, in offset order. */
  ghost predicate QueueOk(l: Ledger)
    requires ClaimsOk(l)
  {
    var c, m := l.inbox.cursor, |l.claims|;
    && |l.inbox.queue| == l.inbox.nextOffset - c
    && forall i :: 0 <= i < |l.inbox.queue| ==>
         l.inbox.queue[i] == Slot(c + i, if i < m then None else Some(l.accepted[c + i]))
  }

  /** After the stop only tombstones are left, and at least those of the outstanding claims. */
  ghost predicate DrainedOk(l: Ledger) {
    var c, m := l.inbox.cursor, |l.claims|;
    && m <= |l.inbox.queue| <= l.inbox.nextOffset - c
    && forall i :: 0 <= i < |l.inbox.queue| ==> l.inbox.queue[i] == Slot(c + i, None)
  }

  /** Behind the cursor every offset was committed or evicted, never both. */
  ghost predicate PastOk(committed: seq<nat>, evicted: seq<nat>, cursor: nat) {
    && Increasing(committed) && Increasing(evicted)
    && (forall o :: (o in committed || o in evicted) <==> 0 <= o < cursor)
    && (forall o :: o in committed ==> o !in evicted)
  }

  /** The offsets the stop flushed: everything neither committed, evicted nor still claimed. */
  predicate DeadRange(l: Ledger, o: nat) {
    l.inbox.cursor + |l.claims| <= o < l.inbox.nextOffset
  }

  ghost predicate DeadOk(l: Ledger) {
    && NoRepeats(l.dead)
    && forall o :: o in l.dead <==> DeadRange(l, o)
  }

  ghost predicate BoundsOk(l: Ledger) {
    && l.inbox.capacity >= 1
    && (l.inbox.policy != Unbounded ==> |l.inbox.queue| <= l.inbox.capacity)
    && (l.inbox.policy != DropOld ==> l.evicted == [])
    && multiset(l.pushed) == multiset(l.accepted) + multiset(l.refused)
  }

  ghost predicate Inv(l: Ledger) {
    && ClaimsOk(l) && BoundsOk(l) && PastOk(l.committed, l.evicted, l.inbox.cursor)
    && if l.stopped then DrainedOk(l) && !l.inbox.isOpen && DeadOk(l)
       else QueueOk(l) && l.dead == []
  }

  // ---- Queue lemmas ----

  lemma {:induction false} DropThroughFront(slots: seq<Slot>, offset: nat, k: nat)
    requires k <= |slots|
    requires forall i :: 0 <= i < k ==> slots[i].offset <= offset
    requires k < |slots| ==> slots[k].offset > offset
    ensures DropThrough(slots, offset) == slots[k..]
    decreases k
  {
    if k > 0 {
      DropThroughFront(slots[1..], offset, k - 1);
      assert slots[1..][k - 1..] == slots[k..];
    }
  }

  lemma {:induction false} FullRun(v: InboxState, n: nat)
    requires forall i :: 0 <= i < |v.queue| ==> v.queue[i].offset == v.cursor + i
    ensures v.Run(n) == if n <= |v.queue| then n else |v.queue|
    decreases n
  {
    if n > 0 { FullRun(v, n - 1); }
  }

  lemma {:induction false} RestoredSlots(v: InboxState, claims: seq<Claim>)
    ensures v.RestoreClaims(claims) == v.(queue := v.RestoreClaims(claims).queue)
    ensures |v.RestoreClaims(claims).queue| == |v.queue|
    ensures forall i :: 0 <= i < |v.queue| ==>
              v.RestoreClaims(claims).queue[i].offset == v.queue[i].offset
    ensures forall i | 0 <= i < |v.queue| &&
                       forall c :: 0 <= c < |claims| ==> claims[c].offset != v.queue[i].offset ::
              v.RestoreClaims(claims).queue[i] == v.queue[i]
    ensures forall i, c | 0 <= i < |v.queue| && 0 <= c < |claims| && claims[c].offset == v.queue[i].offset &&
                          forall d :: c < d < |claims| ==> claims[d].offset != claims[c].offset ::
              v.RestoreClaims(claims).queue[i] == Slot(claims[c].offset, Some(claims[c].envelope))
    decreases |claims|
  {
    if claims != [] {
      var n := |claims| - 1;
      RestoredSlots(v, claims[..n]);
      forall i, c | 0 <= i < |v.queue| && 0 <= c < |claims| && claims[c].offset == v.queue[i].offset &&
                    (forall d :: c < d < |claims| ==> claims[d].offset != claims[c].offset)
        ensures v.RestoreClaims(claims).queue[i] == Slot(claims[c].offset, Some(claims[c].envelope))
      {
        if c < n {
          assert claims[..n][c] == claims[c] && claims[n].offset != claims[c].offset;
        }
      }
    }
  }

  /** Draining a queue of m tombstones followed by mail leaves the tombstones and flushes the mail. */
  lemma {:induction false} DrainSplits(slots: seq<Slot>, c: nat, m: nat)
    requires m <= |slots|
    requires forall i :: 0 <= i < |slots| ==>
               slots[i].offset == c + i && (slots[i].envelope.None? <==> i < m)
    ensures OnlyTombstones(slots) == slots[..m]
    ensures |LiveOffsets(slots)| == |slots| - m
    ensures forall i :: 0 <= i < |slots| - m ==> LiveOffsets(slots)[i] == c + m + i
    decreases |slots|
  {
    if |slots| > m {
      var n := |slots| - 1;
      DrainSplits(slots[..n], c, m);
      assert slots[..n][..m] == slots[..m];
    } else {
      AllTombstones(slots);
      assert slots[..m] == slots;
    }
  }

  lemma {:induction false} AllTombstones(slots: seq<Slot>)
    requires forall i :: 0 <= i < |slots| ==> slots[i].envelope.None?
    ensures OnlyTombstones(slots) == slots && LiveOffsets(slots) == []
    decreases |slots|
  {
    if slots != [] { AllTombstones(slots[..|slots| - 1]); }
  }

  // ---- Every move keeps it ----

  lemma AcceptKeepsMail(pushed: seq<Envelope>, accepted: seq<Envelope>, refused: seq<Envelope>, e: Envelope)
    requires multiset(pushed) == multiset(accepted) + multiset(refused)
    ensures multiset(pushed + [e]) == multiset(accepted + [e]) + multiset(refused)
    ensures multiset(pushed + [e]) == multiset(accepted) + multiset(refused + [e])
  {
  }

  /** One more offset leaves through the front. */
  lemma PastGrows(a: seq<nat>, b: seq<nat>, cursor: nat)
    requires PastOk(a, b, cursor)
    ensures PastOk(a + [cursor], b, cursor + 1)
    ensures PastOk(a, b + [cursor], cursor + 1)
  {
    assert forall o :: o in a + [cursor] <==> o in a || o == cursor;
    assert forall o :: o in b + [cursor] <==> o in b || o == cursor;
    assert forall i :: 0 <= i < |a| ==> a[i] in a;
    assert forall i :: 0 <= i < |b| ==> b[i] in b;
  }

  lemma EnqueueKeepsQueue(l: Ledger, l': Ledger, envelope: Envelope)
    requires ClaimsOk(l) && QueueOk(l)
    requires l'.inbox == l.inbox.Enqueue(envelope) && l'.accepted == l.accepted + [envelope]
    requires l'.claims == l.claims
    ensures ClaimsOk(l') && QueueOk(l')
  {
  }

  /** The front leaves, live: no claim is outstanding. */
  ghost function WithoutFront(l: Ledger): Ledger
    requires l.inbox.queue != []
  {
    l.(inbox := l.inbox.(queue := l.inbox.queue[1..], cursor := l.inbox.cursor + 1))
  }

  lemma WithoutFrontOk(l: Ledger)
    requires ClaimsOk(l) && QueueOk(l) && l.claims == [] && l.inbox.queue != []
    ensures ClaimsOk(WithoutFront(l)) && QueueOk(WithoutFront(l))
  {
  }

  lemma PushKeepsInv(l: Ledger, envelope: Envelope)
    requires Inv(l) && Legal(l, Push(envelope))
    ensures Inv(AfterPush(l, envelope))
  {
    var l', answer := AfterPush(l, envelope), l.inbox.Push(envelope).1;
    AcceptKeepsMail(l.pushed, l.accepted, l.refused, envelope);
    match answer {
      case Queued(_) => EnqueueKeepsQueue(l, l', envelope);
      case Evicted(_) =>
        assert l.inbox.queue[0].envelope.Some?;
        WithoutFrontOk(l);
        EnqueueKeepsQueue(WithoutFront(l), l', envelope);
        PastGrows(l.committed, l.evicted, l.inbox.cursor);
      case _ =>
    }
  }

  /** After the stop only tombstones are left, so a legal claim takes nothing. */
  lemma NothingToTake(l: Ledger, n: nat)
    requires DrainedOk(l) && l.inbox.CanClaim(n)
    ensures l.inbox.Run(n) == 0
  {
    FullRun(l.inbox, n);
    assert |l.inbox.queue| > 0 ==> l.inbox.queue[0].envelope.None?;
  }

  lemma TakeKeepsInv(l: Ledger, n: nat)
    requires Inv(l) && Legal(l, Take(n))
    ensures Inv(Apply(l, Take(n)))
    ensures !l.stopped ==>
              |Apply(l, Take(n)).claims| == if n <= |l.inbox.queue| then n else |l.inbox.queue|
  {
    FullRun(l.inbox, n);
    if l.stopped {
      NothingToTake(l, n);
      assert Apply(l, Take(n)).inbox.queue == l.inbox.queue;
    }
  }

  lemma CommitKeepsInv(l: Ledger)
    requires Inv(l) && Legal(l, CommitNext)
    ensures Inv(Apply(l, CommitNext))
  {
    var l', c := Apply(l, CommitNext), l.inbox.cursor;
    DropThroughFront(l.inbox.queue, c, 1);
    assert l'.inbox.queue == l.inbox.queue[1..];
    PastGrows(l.committed, l.evicted, c);
    assert forall o :: DeadRange(l', o) <==> DeadRange(l, o);
  }

  lemma RestoredQueue(l: Ledger)
    requires ClaimsOk(l) && QueueOk(l)
    ensures var v, c := l.inbox.RestoreClaims(l.claims), l.inbox.cursor;
            && v == l.inbox.(queue := v.queue) && |v.queue| == |l.inbox.queue|
            && forall i :: 0 <= i < |v.queue| ==> v.queue[i] == Slot(c + i, Some(l.accepted[c + i]))
  {
    RestoredSlots(l.inbox, l.claims);
    forall i | 0 <= i < |l.inbox.queue|
      ensures l.inbox.RestoreClaims(l.claims).queue[i] == Slot(l.inbox.cursor + i, Some(l.accepted[l.inbox.cursor + i]))
    {
      assert i < |l.claims| ==> l.claims[i].offset == l.inbox.queue[i].offset;
    }
  }

  lemma RestoreKeepsInv(l: Ledger)
    requires Inv(l) && Legal(l, Restore)
    ensures Inv(Apply(l, Restore))
  {
    RestoredQueue(l);
  }

  lemma StopDrains(l: Ledger)
    requires ClaimsOk(l) && QueueOk(l)
    ensures OnlyTombstones(l.inbox.queue) == l.inbox.queue[..|l.claims|]
    ensures NoRepeats(LiveOffsets(l.inbox.queue))
    ensures forall o :: o in LiveOffsets(l.inbox.queue) <==> DeadRange(l, o)
  {
    var c, m, live := l.inbox.cursor, |l.claims|, LiveOffsets(l.inbox.queue);
    DrainSplits(l.inbox.queue, c, m);
    forall o: nat | DeadRange(l, o) ensures o in live {
      assert live[o - c - m] == o;
    }
  }

  lemma StopKeepsInv(l: Ledger)
    requires Inv(l) && Legal(l, Stop)
    ensures Inv(Apply(l, Stop))
  {
    var l' := Apply(l, Stop);
    StopDrains(l);
    assert l'.dead == LiveOffsets(l.inbox.queue);
    assert DeadOk(l') by { assert forall o: nat :: DeadRange(l', o) <==> DeadRange(l, o); }
  }

  lemma DropTailKeepsInv(l: Ledger)
    requires Inv(l) && Legal(l, DropTail)
    ensures Inv(Apply(l, DropTail))
  {
    var l', tail := Apply(l, DropTail), OffsetsOf(l.claims);
    forall o: nat ensures o in l'.dead <==> DeadRange(l', o) {
      assert o in tail <==> l.inbox.cursor <= o < l.inbox.cursor + |l.claims| by {
        assert l.inbox.cursor <= o < l.inbox.cursor + |l.claims| ==> tail[o - l.inbox.cursor] == o;
      }
    }
    forall i, k | 0 <= i < k < |l'.dead| ensures l'.dead[i] != l'.dead[k] {
      if i < |l.dead| <= k {
        assert l.dead[i] in l.dead && DeadRange(l, l.dead[i]);
      }
    }
  }

  lemma ApplyKeepsInv(l: Ledger, move: Move)
    requires Inv(l) && Legal(l, move)
    ensures Inv(Apply(l, move))
  {
    match move {
      case Push(envelope) => PushKeepsInv(l, envelope);
      case Take(n) => TakeKeepsInv(l, n);
      case CommitNext => CommitKeepsInv(l);
      case Restore => RestoreKeepsInv(l);
      case Stop => StopKeepsInv(l);
      case DropTail => DropTailKeepsInv(l);
      case _ =>
    }
  }

  /** Every claim lies before the write head. */
  predicate CanCommitAll(l: Ledger) {
    forall i :: 0 <= i < |l.claims| ==> l.inbox.CanCommit(l.claims[i].offset)
  }

  lemma InboxIsSane(l: Ledger)
    requires Inv(l)
    ensures l.inbox.Sane() && CanCommitAll(l)
    ensures l.claims != [] ==> Legal(l, CommitNext)
  {
  }

  // ---- The claim guard ----

  /** Giving the claims back meets the slots they left. */
  predicate CanGiveBack(l: Ledger) { l.stopped || Legal(l, Restore) }

  /** The guard's exit: claims go back to their slots, or to the dead letters of a stopping actor. */
  function GiveBack(l: Ledger): Ledger
    requires CanGiveBack(l)
  {
    if l.stopped then Apply(l, DropTail) else Apply(l, Restore)
  }

  lemma GiveBackKeepsThePast(l: Ledger)
    requires CanGiveBack(l)
    ensures var l' := GiveBack(l);
            && l'.claims == [] && l'.committed == l.committed && l'.accepted == l.accepted
            && l'.stopped == l.stopped && l'.inbox == l.inbox.(queue := l'.inbox.queue)
  {
    RestoredSlots(l.inbox, l.claims);
  }

  lemma GiveBackKeepsInv(l: Ledger)
    requires Inv(l) && CanGiveBack(l)
    ensures Inv(GiveBack(l))
  {
    if l.stopped { DropTailKeepsInv(l); } else { RestoreKeepsInv(l); }
  }

  /** What the guard leaves: the tail is dead-lettered once, or waits in its own slots. */
  lemma GiveBackKeepsTheTail(l: Ledger, o: nat)
    requires Inv(l) && CanGiveBack(l) && l.inbox.cursor <= o < l.inbox.nextOffset
    ensures var l' := GiveBack(l);
            if l.stopped then o in l'.dead && NoRepeats(l'.dead)
            else
              && o < |l.accepted| && o - l.inbox.cursor < |l'.inbox.queue|
              && l'.inbox.queue[o - l.inbox.cursor] == Slot(o, Some(l.accepted[o]))
  {
    GiveBackKeepsInv(l);
    GiveBackKeepsThePast(l);
    WaitsInItsSlot(GiveBack(l), o);
  }

  /** The guard tested before the stop was marked and puts its claims back after the drain. */
  function PutBackTooLate(l: Ledger): Ledger
    requires Legal(l, Stop)
  {
    var stopped := Apply(l, Stop);
    stopped.(inbox := stopped.inbox.RestoreClaims(l.claims), claims := [])
  }

  lemma RestoredThenDrained(l: Ledger, i: nat)
    requires Inv(l) && !l.stopped && i < |l.claims|
    ensures Legal(l, Restore) && l.claims[i].offset in Apply(Apply(l, Restore), Stop).dead
  {
    RestoreNeverPanics(l);
    RestoreKeepsInv(l);
    RestoreTouchesOnlyTheQueue(l);
    StopKeepsInv(Restored(l));
    assert DeadRange(Apply(Restored(l), Stop), l.claims[i].offset);
  }

  lemma DrainedThenDropped(l: Ledger, i: nat)
    requires Inv(l) && !l.stopped && i < |l.claims|
    ensures l.claims[i].offset !in Apply(l, Stop).dead
    ensures l.claims[i].offset in Apply(Apply(l, Stop), DropTail).dead
  {
    StopKeepsInv(l);
    assert !DeadRange(Apply(l, Stop), l.claims[i].offset);
    assert OffsetsOf(l.claims)[i] == l.claims[i].offset;
  }

  lemma DrainedThenPutBack(l: Ledger, i: nat)
    requires Inv(l) && !l.stopped && i < |l.claims|
    ensures PutBackTooLate(l).stopped && HasFate(PutBackTooLate(l), l.claims[i].offset, Waiting)
  {
    StopKeepsInv(l);
    PutBackInDrained(Apply(l, Stop), i);
  }

  /**
   The guard's test and its restore are two sections, and so are the stop's mark and its drain. An
   uncommitted claim of a stopped actor ends dead-lettered if the restore comes before the drain
   or the test after the mark; between the two it ends live in the drained inbox and nowhere else.
   */
  lemma GuardAgainstStop(l: Ledger, i: nat)
    requires Inv(l) && !l.stopped && i < |l.claims|
    ensures Legal(l, Restore)
    ensures l.claims[i].offset in Apply(Apply(l, Restore), Stop).dead
    ensures l.claims[i].offset in Apply(Apply(l, Stop), DropTail).dead
    ensures var late := PutBackTooLate(l);
            && late.stopped && HasFate(late, l.claims[i].offset, Waiting)
            && l.claims[i].offset !in late.dead
  {
    RestoredThenDrained(l, i);
    DrainedThenDropped(l, i);
    DrainedThenPutBack(l, i);
  }

  lemma PutBackInDrained(l: Ledger, i: nat)
    requires Inv(l) && l.stopped && i < |l.claims|
    ensures l.inbox.RestoreClaims(l.claims).queue != []
    ensures exists k :: 0 <= k < |l.inbox.RestoreClaims(l.claims).queue| &&
              l.inbox.RestoreClaims(l.claims).queue[k] == Slot(l.claims[i].offset, Some(l.claims[i].envelope))
  {
    RestoredSlots(l.inbox, l.claims);
    assert l.inbox.queue[i].offset == l.claims[i].offset;
    assert forall d :: i < d < |l.claims| ==> l.claims[d].offset != l.claims[i].offset;
    assert l.inbox.RestoreClaims(l.claims).queue[i] == Slot(l.claims[i].offset, Some(l.claims[i].envelope));
  }

  lemma WaitsInItsSlot(l: Ledger, o: nat)
    requires Inv(l) && l.claims == [] && l.inbox.cursor <= o < l.inbox.nextOffset
    ensures if l.stopped then o in l.dead && NoRepeats(l.dead)
            else
              && o < |l.accepted| && o - l.inbox.cursor < |l.inbox.queue|
              && l.inbox.queue[o - l.inbox.cursor] == Slot(o, Some(l.accepted[o]))
  {
    if l.stopped { assert DeadRange(l, o); }
  }

  // ---- Every run ----

  predicate LegalRun(l: Ledger, moves: seq<Move>)
    decreases |moves|, 0
  {
    moves == [] ||
    var n := |moves| - 1;
    LegalRun(l, moves[..n]) && Legal(Run(l, moves[..n]), moves[n])
  }

  function Run(l: Ledger, moves: seq<Move>): Ledger
    requires LegalRun(l, moves)
    decreases |moves|, 1
  {
    if moves == [] then l
    else
      var n := |moves| - 1;
      Apply(Run(l, moves[..n]), moves[n])
  }

  lemma {:induction false} RunsKeepInv(capacity: nat, policy: OverloadPolicy, moves: seq<Move>)
    requires LegalRun(Fresh(capacity, policy), moves)
    ensures Inv(Run(Fresh(capacity, policy), moves))
    decreases |moves|
  {
    if moves != [] {
      var n := |moves| - 1;
      RunsKeepInv(capacity, policy, moves[..n]);
      ApplyKeepsInv(Run(Fresh(capacity, policy), moves[..n]), moves[n]);
    }
  }

  datatype Fate = Committed | EvictedOut | Claimed | Waiting | DeadLettered

  /** What became of the envelope accepted at `o`. */
  predicate HasFate(l: Ledger, o: nat, fate: Fate) {
    match fate
    case Committed => o in l.committed
    case EvictedOut => o in l.evicted
    case Claimed => exists j :: 0 <= j < |l.claims| && l.claims[j].offset == o
    case Waiting => exists i :: 0 <= i < |l.inbox.queue| && l.inbox.queue[i].offset == o &&
                                l.inbox.queue[i].envelope.Some?
    case DeadLettered => o in l.dead
  }

  ghost function FateOf(l: Ledger, o: nat): Fate {
    if o in l.committed then Committed
    else if o in l.evicted then EvictedOut
    else if o < l.inbox.cursor + |l.claims| then Claimed
    else if l.stopped then DeadLettered
    else Waiting
  }

  lemma FateIsUnique(l: Ledger, o: nat, fate: Fate)
    requires Inv(l) && o < l.inbox.nextOffset
    ensures HasFate(l, o, fate) <==> fate == FateOf(l, o)
  {
    var c, m := l.inbox.cursor, |l.claims|;
    assert o in l.dead ==> l.stopped && DeadRange(l, o);
    match fate {
      case Claimed =>
        assert c <= o < c + m ==> l.claims[o - c].offset == o;
      case Waiting =>
        assert c + m <= o && !l.stopped ==> l.inbox.queue[o - c].offset == o;
      case DeadLettered =>
        assert l.stopped ==> (o in l.dead <==> DeadRange(l, o));
      case _ =>
    }
  }

  /** What is claimed or waits at an offset is the very envelope accepted there. */
  ghost predicate HoldsAccepted(l: Ledger) {
    && |l.accepted| == l.inbox.nextOffset
    && (forall j :: 0 <= j < |l.claims| ==>
          l.claims[j].offset < |l.accepted| && l.claims[j].envelope == l.accepted[l.claims[j].offset])
    && (forall i :: 0 <= i < |l.inbox.queue| && l.inbox.queue[i].envelope.Some? ==>
          && l.inbox.queue[i].offset < |l.accepted|
          && l.inbox.queue[i].envelope.value == l.accepted[l.inbox.queue[i].offset])
  }

  lemma ClaimsHoldAccepted(l: Ledger, j: nat)
    requires Inv(l) && j < |l.claims|
    ensures l.claims[j].offset < |l.accepted| && l.claims[j].envelope == l.accepted[l.claims[j].offset]
  {
  }

  lemma QueueHoldsAccepted(l: Ledger, i: nat)
    requires Inv(l) && i < |l.inbox.queue| && l.inbox.queue[i].envelope.Some?
    ensures l.inbox.queue[i].offset < |l.accepted|
    ensures l.inbox.queue[i].envelope.value == l.accepted[l.inbox.queue[i].offset]
  {
  }

  lemma InvHoldsAccepted(l: Ledger)
    requires Inv(l)
    ensures HoldsAccepted(l)
  {
    forall j: nat | j < |l.claims|
      ensures l.claims[j].offset < |l.accepted| && l.claims[j].envelope == l.accepted[l.claims[j].offset]
    {
      ClaimsHoldAccepted(l, j);
    }
    forall i: nat | i < |l.inbox.queue| && l.inbox.queue[i].envelope.Some?
      ensures l.inbox.queue[i].offset < |l.accepted|
      ensures l.inbox.queue[i].envelope.value == l.accepted[l.inbox.queue[i].offset]
    {
      QueueHoldsAccepted(l, i);
    }
  }

  lemma InvConserves(l: Ledger)
    requires Inv(l)
    ensures multiset(l.pushed) == multiset(l.accepted) + multiset(l.refused)
  {
  }

  /**
   Conservation: after any run each accepted envelope is in exactly one place, and what waits or
   is claimed is the very envelope accepted at that offset. Refused and accepted ones make up all
   that was pushed.
   */
  lemma EachEnvelopeHasOneFate(capacity: nat, policy: OverloadPolicy, moves: seq<Move>, o: nat, fate: Fate)
    requires LegalRun(Fresh(capacity, policy), moves)
    requires o < Run(Fresh(capacity, policy), moves).inbox.nextOffset
    ensures var l := Run(Fresh(capacity, policy), moves);
            && (HasFate(l, o, fate) <==> fate == FateOf(l, o))
            && HoldsAccepted(l)
            && multiset(l.pushed) == multiset(l.accepted) + multiset(l.refused)
  {
    var l := Run(Fresh(capacity, policy), moves);
    RunsKeepInv(capacity, policy, moves);
    FateIsUnique(l, o, fate);
    InvHoldsAccepted(l);
    InvConserves(l);
  }

  // ---- The overload policies ----

  /** The inbox keeps the policy and the capacity, at least one, it was made with. */
  lemma {:induction false} PolicyStays(capacity: nat, policy: OverloadPolicy, moves: seq<Move>)
    requires LegalRun(Fresh(capacity, policy), moves)
    ensures var inbox := Run(Fresh(capacity, policy), moves).inbox;
            inbox.policy == policy && inbox.capacity == if capacity == 0 then 1 else capacity
    decreases |moves|
  {
    if moves != [] {
      var n := |moves| - 1;
      PolicyStays(capacity, policy, moves[..n]);
      ApplyKeepsPolicy(Run(Fresh(capacity, policy), moves[..n]), moves[n]);
    }
  }

  lemma ApplyKeepsPolicy(l: Ledger, move: Move)
    requires Legal(l, move)
    ensures Apply(l, move).inbox.policy == l.inbox.policy && Apply(l, move).inbox.capacity == l.inbox.capacity
  {
    if move.Restore? { RestoredSlots(l.inbox, l.claims); }
  }

  /** The queue is bounded and at its bound, claims counted. */
  predicate IsFull(inbox: InboxState) { inbox.policy != Unbounded && |inbox.queue| >= inbox.capacity }

  /** An open inbox's front, if no claim left a tombstone there, is the envelope accepted at the cursor. */
  lemma OldestIsAtTheCursor(l: Ledger)
    requires Inv(l) && l.inbox.isOpen && l.inbox.queue != [] && l.inbox.queue[0].envelope.Some?
    ensures l.inbox.cursor < |l.accepted| && l.inbox.queue[0].envelope.value == l.accepted[l.inbox.cursor]
  {
  }

  /** What a push answers and leaves. */
  ghost predicate PushedRightly(l: Ledger, envelope: Envelope, after: InboxState, answer: PushResult) {
    var slot := Slot(l.inbox.nextOffset, Some(envelope));
    if !l.inbox.isOpen then answer == Closed(envelope) && after == l.inbox
    else if !IsFull(l.inbox) then
      && answer == Queued(l.inbox.nextOffset) && after.queue == l.inbox.queue + [slot]
      && after.cursor == l.inbox.cursor
    else if l.inbox.policy != DropOld then answer == Full(envelope) && after == l.inbox
    else
      && l.inbox.cursor < |l.accepted| && answer == Evicted(l.accepted[l.inbox.cursor])
      && l.inbox.queue != [] && after.queue == l.inbox.queue[1..] + [slot]
      && after.cursor == l.inbox.cursor + 1
  }

  lemma PushIsRight(l: Ledger, envelope: Envelope)
    requires Inv(l) && Legal(l, Push(envelope))
    ensures var (after, answer) := l.inbox.Push(envelope); PushedRightly(l, envelope, after, answer)
  {
    if l.inbox.isOpen && IsFull(l.inbox) && l.inbox.policy == DropOld {
      assert BoundsOk(l) && l.inbox.queue != [];
      OldestIsAtTheCursor(l);
    }
  }

  /**
   After any run: a closed inbox takes nothing; with room the envelope is queued last under the
   next offset; a full one refuses it unless it drops the old, and then the oldest envelope goes,
   the one accepted at the cursor.
   */
  lemma PushAnswers(capacity: nat, policy: OverloadPolicy, moves: seq<Move>, envelope: Envelope)
    requires LegalRun(Fresh(capacity, policy), moves)
    requires Legal(Run(Fresh(capacity, policy), moves), Push(envelope))
    ensures var l := Run(Fresh(capacity, policy), moves);
            var (after, answer) := l.inbox.Push(envelope);
            && l.inbox.policy == policy && l.inbox.capacity == (if capacity == 0 then 1 else capacity)
            && l.inbox.nextOffset == |l.accepted| && PushedRightly(l, envelope, after, answer)
  {
    RunsKeepInv(capacity, policy, moves);
    PolicyStays(capacity, policy, moves);
    PushIsRight(Run(Fresh(capacity, policy), moves), envelope);
  }

  /** A closed inbox refuses all mail and keeps what it holds; a reopened one takes mail again. */
  lemma DoorFollowsTheLastWord(l: Ledger, envelope: Envelope)
    ensures var closed := Apply(l, Close);
            closed.inbox.CanPush() && closed.inbox.Push(envelope) == (closed.inbox, Closed(envelope)) &&
            closed.inbox.queue == l.inbox.queue
    ensures Legal(l, Reopen) && Apply(l, Reopen).inbox.CanPush() ==>
              !Apply(l, Reopen).inbox.Push(envelope).1.Closed?
  {
  }

  // ---- The stop ----

  /** Where the drained envelopes come from: the unclaimed mail, in the order it was accepted. */
  lemma {:induction false} DrainedInOrder(slots: seq<Slot>, accepted: seq<Envelope>, c: nat, m: nat)
    requires c + |slots| <= |accepted| && m <= |slots|
    requires forall i :: 0 <= i < |slots| ==>
               slots[i] == Slot(c + i, if i < m then None else Some(accepted[c + i]))
    ensures LiveOf(slots) == accepted[c + m..c + |slots|]
    decreases |slots|
  {
    var n := |slots| - 1;
    if |slots| > m {
      DrainedInOrder(slots[..n], accepted, c, m);
      assert accepted[c + m..c + n + 1] == accepted[c + m..c + n] + [accepted[c + n]];
    } else {
      NothingLive(slots);
    }
  }

  lemma {:induction false} NothingLive(slots: seq<Slot>)
    requires forall i :: 0 <= i < |slots| ==> slots[i].envelope.None?
    ensures LiveOf(slots) == []
    decreases |slots|
  {
    if slots != [] { NothingLive(slots[..|slots| - 1]); }
  }

  lemma DrainHandsOut(l: Ledger)
    requires ClaimsOk(l) && QueueOk(l) && |l.claims| <= |l.inbox.queue|
    ensures l.inbox.DrainLive().1 == l.accepted[l.inbox.cursor + |l.claims|..]
  {
    DrainedInOrder(l.inbox.queue, l.accepted, l.inbox.cursor, |l.claims|);
  }

  /** After any run a stop's drain hands out exactly the mail no step has claimed, oldest first. */
  lemma StopDrainsTheMail(capacity: nat, policy: OverloadPolicy, moves: seq<Move>)
    requires LegalRun(Fresh(capacity, policy), moves)
    requires !Run(Fresh(capacity, policy), moves).stopped
    ensures var l := Run(Fresh(capacity, policy), moves);
            && l.inbox.cursor + |l.claims| <= |l.accepted|
            && l.inbox.DrainLive().1 == l.accepted[l.inbox.cursor + |l.claims|..]
  {
    RunsKeepInv(capacity, policy, moves);
    DrainHandsOut(Run(Fresh(capacity, policy), moves));
  }

  /** A bounded inbox never exceeds its capacity, claims counted; an unbounded one never refuses while open. */
  lemma CapacityHolds(capacity: nat, policy: OverloadPolicy, moves: seq<Move>, envelope: Envelope)
    requires LegalRun(Fresh(capacity, policy), moves)
    ensures var l := Run(Fresh(capacity, policy), moves);
            && (l.inbox.policy != Unbounded ==> |l.inbox.queue| <= l.inbox.capacity)
            && (l.inbox.policy == Unbounded && l.inbox.isOpen ==>
                  l.inbox.Push(envelope).1 == Queued(l.inbox.nextOffset))
            && (!l.stopped ==> |l.inbox.queue| == l.inbox.nextOffset - l.inbox.cursor)
  {
    RunsKeepInv(capacity, policy, moves);
  }

  /**
   A push panics exactly when a full, open DropOld inbox has a claim outstanding: the front it
   would evict is that claim's tombstone.
   */
  lemma PushPanicsIff(capacity: nat, policy: OverloadPolicy, moves: seq<Move>)
    requires LegalRun(Fresh(capacity, policy), moves)
    ensures var l := Run(Fresh(capacity, policy), moves);
            !l.inbox.CanPush() <==>
            l.inbox.isOpen && l.inbox.policy == DropOld && |l.inbox.queue| >= l.inbox.capacity && l.claims != []
  {
    RunsKeepInv(capacity, policy, moves);
  }

  lemma RestoreNeverPanics(l: Ledger)
    requires Inv(l) && !l.stopped
    ensures Legal(l, Restore)
  {
    forall c | 0 <= c < |l.claims| ensures Slot(l.claims[c].offset, None) in l.inbox.queue {
      assert l.inbox.queue[c] == Slot(l.claims[c].offset, None);
    }
  }

  /** The loop's own calls never panic: claims, commits and restores are always in order. */
  lemma LoopCallsNeverPanic(capacity: nat, policy: OverloadPolicy, moves: seq<Move>, n: nat)
    requires LegalRun(Fresh(capacity, policy), moves)
    ensures var l := Run(Fresh(capacity, policy), moves);
            && l.inbox.Sane()
            && (l.claims == [] && !l.stopped ==> Legal(l, Take(n)))
            && (l.claims != [] ==> Legal(l, CommitNext))
            && (!l.stopped ==> Legal(l, Restore))
  {
    RunsKeepInv(capacity, policy, moves);
    if !Run(Fresh(capacity, policy), moves).stopped {
      RestoreNeverPanics(Run(Fresh(capacity, policy), moves));
    }
  }

  /** The queue of an inbox with no claim out: every envelope accepted from offset `c` on, in order. */
  function MailFrom(accepted: seq<Envelope>, c: nat): (r: seq<Slot>)
    requires c <= |accepted|
    ensures |r| == |accepted| - c
    ensures forall i :: 0 <= i < |r| ==> r[i] == Slot(c + i, Some(accepted[c + i]))
  {
    seq(|accepted| - c, i requires 0 <= i < |accepted| - c => Slot(c + i, Some(accepted[c + i])))
  }

  lemma QueueIsMail(l: Ledger)
    requires Inv(l) && !l.stopped && l.claims == []
    ensures l.inbox.cursor <= |l.accepted| && l.inbox.queue == MailFrom(l.accepted, l.inbox.cursor)
  {
  }

  ghost function Restored(l: Ledger): Ledger
    requires l.inbox.cursor <= |l.accepted|
  {
    l.(claims := [], inbox := l.inbox.(queue := MailFrom(l.accepted, l.inbox.cursor)))
  }

  lemma RestoreTouchesOnlyTheQueue(l: Ledger)
    requires Inv(l) && !l.stopped
    ensures Legal(l, Restore) && Apply(l, Restore) == Restored(l)
  {
    RestoreNeverPanics(l);
    RestoreKeepsInv(l);
    QueueIsMail(Apply(l, Restore));
    RestoredSlots(l.inbox, l.claims);
  }

  /** Restoring a batch puts every envelope back in its slot: the inbox is as it was. */
  lemma RestoreUndoesTake(l: Ledger, n: nat)
    requires Inv(l) && !l.stopped && Legal(l, Take(n))
    ensures Legal(Apply(l, Take(n)), Restore)
    ensures Apply(Apply(l, Take(n)), Restore) == l
  {
    TakeKeepsInv(l, n);
    RestoreTouchesOnlyTheQueue(Apply(l, Take(n)));
    QueueIsMail(l);
  }

  /** A push reads only how long the queue is. */
  lemma PushAfterRestored(l: Ledger, envelope: Envelope)
    requires l.inbox.CanPush() && !l.inbox.Push(envelope).1.Evicted?
    requires |l.accepted| == l.inbox.nextOffset == l.inbox.cursor + |l.inbox.queue|
    ensures Restored(l).inbox.CanPush()
    ensures AfterPush(Restored(l), envelope) == Restored(AfterPush(l, envelope))
  {
    var accepted, c := l.accepted, l.inbox.cursor;
    assert MailFrom(accepted + [envelope], c) == MailFrom(accepted, c) + [Slot(|accepted|, Some(envelope))];
  }

  /**
   Mail pushed while a batch is out sits behind the restored batch: pushing and then restoring
   equals restoring and then pushing.
   */
  lemma RestoreCommutesWithPush(l: Ledger, envelope: Envelope)
    requires Inv(l) && !l.stopped && Legal(l, Push(envelope)) && !l.inbox.Push(envelope).1.Evicted?
    ensures Legal(l, Restore) && Legal(AfterPush(l, envelope), Restore)
    ensures Apply(l, Restore).inbox.CanPush()
    ensures Apply(AfterPush(l, envelope), Restore) == AfterPush(Apply(l, Restore), envelope)
  {
    PushKeepsInv(l, envelope);
    RestoreTouchesOnlyTheQueue(l);
    RestoreTouchesOnlyTheQueue(AfterPush(l, envelope));
    PushAfterRestored(l, envelope);
  }
}
