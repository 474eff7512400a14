/**
 Arrival numbers: unique, rising in the order of acknowledgement, never handed out twice while the
 process lives, and exactly when again after it was lost.
 */
module ArrivalOrder {
  import opened Wrappers
  import opened Journals
  import opened MemoryStore
  import opened Rows
  import opened WriteBehind
  import opened Protocol
  import opened ProtocolInvariant
  import opened ProtocolTheorems

  lemma AppendAdds(s: MemStore, p: ActorPath, events: seq<Event>, q: ActorPath)
    ensures s.Append(p, events).Of(q).Events() ==
            s.Of(q).Events() + (if p == q then Numbered(events, s.Of(q).eventCount, s.nextIngest) else [])
  {
    AppendAllShape(s.Of(p), events, s.nextIngest);
    assert s.Of(q).Events() + [] == s.Of(q).Events();
  }

  lemma SnapshotAdds(s: MemStore, p: ActorPath, seqNo: nat, state: Json, nowMs: nat, q: ActorPath)
    ensures s.AppendSnapshot(p, seqNo, state, nowMs).Of(q).Events() == s.Of(q).Events()
  {
    AppendSnapshotShape(s.Of(p), seqNo, state, nowMs);
  }

  lemma CatchUpAdds(s: MemStore, p: ActorPath, fact: ScannedEvent, q: ActorPath) returns (added: seq<JournaledEvent>)
    ensures s.CatchUp(p, fact).0.Of(q).Events() == s.Of(q).Events() + added
    ensures Between(added, s.nextIngest, s.CatchUp(p, fact).0.nextIngest)
  {
    var j, origin := s.Of(p), EventOrigin.CatchUp(fact.journal, fact.seqNo);
    added := [];
    AppendEventShape(j, fact.event, origin, s.nextIngest);
    assert s.Of(q).Events() + [] == s.Of(q).Events();
    if p == q && s.CatchUp(p, fact).1.Some? {
      added := [JournaledEvent(j.eventCount, fact.event, origin, s.nextIngest)];
    }
  }

  /** The records carry numbers the counter passes on its way from `from` to `to`. */
  ghost predicate Between(added: seq<JournaledEvent>, from: nat, to: nat) {
    && from <= to
    && forall i :: 0 <= i < |added| ==> from <= added[i].ingestSeq < to
  }

  predicate TouchesSpec(step: Step) {
    || step.Append? || step.AppendSnapshot? || step.CatchUpLook? || step.CatchUpAppend?
    || step.PurgeBuffer? || step.Restart?
  }

  lemma QuietSpec(w: World, step: Step)
    requires Legal(w, step) && !TouchesSpec(step)
    ensures Next(w, step).spec == w.spec
  {
  }

  /** What a step other than a process loss does to the in-memory store. */
  ghost predicate Adds(before: MemStore, after: MemStore, q: ActorPath, added: seq<JournaledEvent>) {
    && (after.Of(q).Events() == [] || after.Of(q).Events() == before.Of(q).Events() + added)
    && Between(added, before.nextIngest, after.nextIngest)
  }

  lemma AppendAddsBetween(s: MemStore, p: ActorPath, events: seq<Event>, q: ActorPath)
    returns (added: seq<JournaledEvent>)
    ensures Adds(s, s.Append(p, events), q, added)
  {
    AppendAdds(s, p, events, q);
    added := if p == q then Numbered(events, s.Of(q).eventCount, s.nextIngest) else [];
  }

  /** What a step other than a process loss adds to a journal lies between the counter before and after. */
  lemma StepAdds(w: World, step: Step, q: ActorPath) returns (added: seq<JournaledEvent>)
    requires Legal(w, step) && !step.Restart?
    ensures Adds(w.spec, Next(w, step).spec, q, added)
  {
    added := [];
    assert w.spec.Of(q).Events() + [] == w.spec.Of(q).Events();
    if TouchesSpec(step) {
      added := SpecStepAdds(w, step, q);
    } else {
      QuietSpec(w, step);
    }
  }

  lemma SpecStepAdds(w: World, step: Step, q: ActorPath) returns (added: seq<JournaledEvent>)
    requires Legal(w, step) && TouchesSpec(step) && !step.Restart?
    ensures Adds(w.spec, Next(w, step).spec, q, added)
  {
    added := [];
    assert w.spec.Of(q).Events() + [] == w.spec.Of(q).Events();
    match step {
      case Append(p, events) =>
        if !w.store.Activating(p) { added := AppendAddsBetween(w.spec, p, events, q); }
      case AppendSnapshot(p, seqNo, state, nowMs) => SnapshotAdds(w.spec, p, seqNo, state, nowMs, q);
      case CatchUpLook(p, _) => assert w.spec.Begin(p).Of(q) == w.spec.Of(q);
      case CatchUpAppend(p) =>
        if !w.store.Activating(p) { added := CatchUpAdds(w.spec, p, w.checking[p].fact, q); }
      case PurgeBuffer =>
    }
  }

  /** The step acknowledges a record with arrival number `n`. */
  ghost predicate HandsOut(w: World, step: Step, n: nat)
    requires Legal(w, step)
  {
    exists q: ActorPath, k: nat :: HandsOutAt(w, step, n, q, k)
  }

  ghost predicate HandsOutAt(w: World, step: Step, n: nat, q: ActorPath, k: nat)
    requires Legal(w, step)
  {
    && |w.spec.Of(q).Events()| <= k < |Next(w, step).spec.Of(q).Events()|
    && Next(w, step).spec.Of(q).Events()[k].ingestSeq == n
  }

  lemma HandedOutInBetween(w: World, step: Step, n: nat)
    requires Legal(w, step) && !step.Restart? && HandsOut(w, step, n)
    ensures w.spec.nextIngest <= n < Next(w, step).spec.nextIngest
  {
    var q: ActorPath, k: nat :| HandsOutAt(w, step, n, q, k);
    var added := StepAdds(w, step, q);
    assert Next(w, step).spec.Of(q).Events()[k] == added[k - |w.spec.Of(q).Events()|];
  }

  /** No process loss from step `i` on. */
  ghost predicate Lives(steps: seq<Step>, i: nat) {
    forall m :: i <= m < |steps| ==> !steps[m].Restart?
  }

  lemma {:induction false} CounterNeverFalls(w: World, steps: seq<Step>, i: nat)
    requires LegalRun(w, steps) && i <= |steps| && Lives(steps, i)
    ensures LegalRun(w, steps[..i])
    ensures Run(w, steps[..i]).spec.nextIngest <= Run(w, steps).spec.nextIngest
    decreases |steps|
  {
    RunPrefix(w, steps, i);
    if i < |steps| {
      var n := |steps| - 1;
      CounterNeverFalls(w, steps[..n], i);
      assert steps[..n][..i] == steps[..i];
      var _ := StepAdds(Run(w, steps[..n]), steps[n], "");
    } else {
      assert steps[..i] == steps;
    }
  }

  /**
   While the process lives no arrival number comes back: whatever an earlier step handed out, its
   path purged since or not, every later step hands out a higher one.
   */
  lemma NumbersNeverComeBack(w: World, steps: seq<Step>, i: nat, m: nat, k: nat, n: nat)
    requires LegalRun(w, steps) && i < k < |steps| && Lives(steps, i)
    requires LegalRun(w, steps[..i]) && Legal(Run(w, steps[..i]), steps[i])
    requires LegalRun(w, steps[..k]) && Legal(Run(w, steps[..k]), steps[k])
    requires HandsOut(Run(w, steps[..i]), steps[i], m) && HandsOut(Run(w, steps[..k]), steps[k], n)
    ensures m < n
  {
    HandedOutInBetween(Run(w, steps[..i]), steps[i], m);
    HandedOutInBetween(Run(w, steps[..k]), steps[k], n);
    RunPrefix(w, steps, i);
    assert steps[..k][..i + 1] == steps[..i + 1];
    CounterNeverFalls(w, steps[..k], i + 1);
  }

  /** What a step records is numbered above every record still held, on any path. */
  lemma ArrivalsFollowAcknowledgement(w: World, step: Step, p: ActorPath, i: nat, n: nat)
    requires Inv(w) && Legal(w, step) && !step.Restart? && HandsOut(w, step, n)
    requires i < |w.spec.Of(p).Events()|
    ensures w.spec.Of(p).Events()[i].ingestSeq < n
  {
    assert JournalOk(w.spec.Of(p), w.spec.nextIngest);
    HandedOutInBetween(w, step, n);
  }

  /** No two records held after a run, on one path or on two, share an arrival number. */
  lemma ArrivalsAreUnique(steps: seq<Step>, p: ActorPath, i: nat, q: ActorPath, k: nat)
    requires LegalRun(Opened(), steps)
    requires var s := Run(Opened(), steps).spec;
             i < |s.Of(p).Events()| && k < |s.Of(q).Events()| && (p != q || i != k)
    ensures var s := Run(Opened(), steps).spec;
            s.Of(p).Events()[i].ingestSeq != s.Of(q).Events()[k].ingestSeq
  {
    RunsKeepInv(steps);
    var s := Run(Opened(), steps).spec;
    assert JournalOk(s.Of(p), s.nextIngest);
    if p != q {
      assert ArrivalsApart(s.Of(p).Events(), s.Of(q).Events());
    }
  }

  /** After any run a journal holds each catch-up origin at most once, through passivation and reload. */
  lemma OriginsHeldOnce(steps: seq<Step>, p: ActorPath, i: nat, k: nat)
    requires LegalRun(Opened(), steps)
    requires var events := Run(Opened(), steps).spec.Of(p).Events();
             i < |events| && k < |events| && events[i].origin.CatchUp? && events[i].origin == events[k].origin
    ensures i == k
  {
    RunsKeepInv(steps);
    var s := Run(Opened(), steps).spec;
    assert JournalOk(s.Of(p), s.nextIngest);
  }

  // ---- After a process loss ----

  /** Some run of the reopened store, losing no process again, hands out `n`. */
  ghost predicate CanComeBack(reopened: World, n: nat) {
    exists steps: seq<Step>, step: Step :: ComesBack(reopened, n, steps, step)
  }

  ghost predicate ComesBack(reopened: World, n: nat, steps: seq<Step>, step: Step) {
    && LegalRun(reopened, steps) && Lives(steps, 0) && !step.Restart?
    && Legal(Run(reopened, steps), step) && HandsOut(Run(reopened, steps), step, n)
  }

  lemma AppendHandsOut(w: World, p: ActorPath, n: nat) returns (step: Step)
    requires Writable(w, p) && !w.store.Activating(p) && w.spec.nextIngest <= n
    ensures step.Append? && Legal(w, step) && HandsOut(w, step, n)
  {
    var from := w.spec.nextIngest;
    var events := seq(n - from + 1, i => Event("", ""));
    var k := |w.spec.Of(p).Events()| + (n - from);
    step := Step.Append(p, events);
    AppendAdds(w.spec, p, events, p);
    assert HandsOutAt(w, step, n, p, k);
  }

  lemma AnyNumberAhead(w: World, n: nat)
    requires w.drain.Free? && w.store.buffers == map[] && w.checking == map[] && w.spec.nextIngest <= n
    ensures CanComeBack(w, n)
  {
    var steps := SeedOf("") + [LoadAnswer];
    LoadsAPath(w, "");
    assert Lives(steps, 0);
    var step := AppendHandsOut(Run(w, steps), "", n);
    assert ComesBack(w, n, steps, step);
  }

  lemma NoNumberBehind(w: World, n: nat)
    requires CanComeBack(w, n)
    ensures w.spec.nextIngest <= n
  {
    var steps: seq<Step>, step: Step :| ComesBack(w, n, steps, step);
    HandedOutInBetween(Run(w, steps), step, n);
    CounterNeverFalls(w, steps, 0);
    assert steps[..0] == [] && Run(w, []) == w;
  }

  /**
   A process loss forgets numbers that are no longer stored: the reopened store can hand out `n`
   again exactly when `n` is above every stored arrival number.
   */
  lemma NumberComesBackIff(w: World, n: nat)
    ensures CanComeBack(Next(w, Restart), n) <==>
            n >= 1 && forall a :: a in StoredArrivals(w.store.db) ==> a < n
  {
    var from := Reopen(w.store.db).nextIngest;
    assert from <= n <==> n >= 1 && forall a :: a in StoredArrivals(w.store.db) ==> a < n;
    if from <= n { AnyNumberAhead(Next(w, Restart), n); }
    if CanComeBack(Next(w, Restart), n) { NoNumberBehind(Next(w, Restart), n); }
  }
}
