/**
 When an idle or busy actor owes a snapshot or a passivation (src/kernel.rs): the duty deadline
 against the checks it wakes for, and the boundaries of a message-count cadence.
 */
module Cadence {
  import opened Wrappers
  import opened Journals
  import opened Inboxes
  import opened EsActors
  import opened EsMachine
  import opened EsTheorems

  const MAX: nat := 0xFFFF_FFFF_FFFF_FFFF

  function SatAdd(a: nat, b: nat): nat { if a + b > MAX then MAX else a + b }

  function SatSub(a: nat, b: nat): nat { if a < b then 0 else a - b }

  /** A duration's milliseconds cut to 64 bits. */
  function Millis(duration: nat): (r: nat)
    ensures r <= MAX && r <= duration && (duration - r) % (MAX + 1) == 0
  {
    duration % (MAX + 1)
  }

  datatype SnapshotCadence = Off | Messages(n: nat) | Time(interval: nat)

  /** The cell's policy and its bookkeeping; MAX marks an unset anchor or committed number. */
  datatype Cell = Cell(
    cadence: SnapshotCadence, anchorMs: nat, lastEventSeq: nat, idleFor: Option<nat>, lastWorkMs: nat)

  predicate SnapshotArmed(c: Cell) {
    c.cadence.Time? && c.anchorMs != MAX && c.lastEventSeq != MAX
  }

  function NextDutyDueMs(c: Cell): Option<nat> {
    var snapshotDue :=
      if SnapshotArmed(c) then Some(SatAdd(c.anchorMs, Millis(c.cadence.interval))) else None;
    var passivationDue :=
      if c.idleFor.Some? then Some(SatAdd(c.lastWorkMs, Millis(c.idleFor.value))) else None;
    match (snapshotDue, passivationDue)
    case (Some(a), Some(b)) => Some(if a <= b then a else b)
    case (Some(a), None) => Some(a)
    case (None, b) => b
  }

  /** `maybe_snapshot_on_idle` takes a snapshot at `now`. */
  predicate SnapshotCheck(c: Cell, now: nat) {
    && c.cadence.Time? && c.anchorMs != MAX && c.lastEventSeq != MAX
    && SatSub(now, c.anchorMs) >= Millis(c.cadence.interval)
  }

  /** `maybe_passivate` passivates at `now`, no shutdown running. */
  predicate PassivationCheck(c: Cell, now: nat) {
    c.idleFor.Some? && SatSub(now, c.lastWorkMs) >= Millis(c.idleFor.value)
  }

  /**
   The armed duties, a stamp and the wait after it: a time cadence with an anchor and a committed
   number, and an idle limit.
   */
  function Armed(c: Cell): set<(nat, nat)> {
    (if c.cadence.Time? && c.anchorMs != MAX && c.lastEventSeq != MAX
     then {(c.anchorMs, Millis(c.cadence.interval))} else {}) +
    (if c.idleFor.Some? then {(c.lastWorkMs, Millis(c.idleFor.value))} else {})
  }

  predicate DueBy(now: nat, duty: (nat, nat)) { duty.0 + duty.1 <= now }

  predicate ZeroWaitAhead(now: nat, duty: (nat, nat)) { duty.1 == 0 && duty.0 > now }

  /**
   The deadline is due exactly when a check would pass, unless no duty's stamp plus wait has truly
   passed and either the clock stands at its last value with a duty armed, or a duty with no wait
   is stamped in the future.
   */
  lemma DeadlineAgreesIff(c: Cell, now: nat)
    requires now <= MAX && c.anchorMs <= MAX && c.lastWorkMs <= MAX
    ensures ((NextDutyDueMs(c).Some? && NextDutyDueMs(c).value <= now) <==>
             (SnapshotCheck(c, now) || PassivationCheck(c, now)))
            <==>
            ((exists d :: d in Armed(c) && DueBy(now, d)) ||
             forall d :: d in Armed(c) ==> now != MAX && !ZeroWaitAhead(now, d))
  {
    var armed := Armed(c);
    var s := if SnapshotArmed(c) then Some((c.anchorMs, Millis(c.cadence.interval))) else None;
    var p := if c.idleFor.Some? then Some((c.lastWorkMs, Millis(c.idleFor.value))) else None;
    assert forall d :: d in armed <==> s == Some(d) || p == Some(d);
    assert s.Some? ==> s.value in armed;
    assert p.Some? ==> p.value in armed;
    if s.Some? { DutyAgrees(now, s.value); }
    if p.Some? { DutyAgrees(now, p.value); }
  }

  /** One duty's due time and check, by cases of its stamp, its wait and the clock. */
  lemma DutyAgrees(now: nat, duty: (nat, nat))
    requires now <= MAX && duty.0 <= MAX && duty.1 <= MAX
    ensures SatAdd(duty.0, duty.1) <= now <==> DueBy(now, duty) || now == MAX
    ensures SatSub(now, duty.0) >= duty.1 <==> DueBy(now, duty) || ZeroWaitAhead(now, duty)
  {
  }

  /** Away from the corners the deadline and the checks agree. */
  lemma DeadlineAgrees(c: Cell, now: nat)
    requires now < MAX && c.anchorMs <= MAX && c.lastWorkMs <= MAX
    requires forall d :: d in Armed(c) ==> d.0 <= now
    ensures (NextDutyDueMs(c).Some? && NextDutyDueMs(c).value <= now) <==>
            (SnapshotCheck(c, now) || PassivationCheck(c, now))
  {
    DeadlineAgreesIff(c, now);
  }

  /**
   There is no deadline exactly when no check can ever pass, unless every armed duty falls due
   after the last clock value.
   */
  lemma NoDeadlineIff(c: Cell)
    requires c.anchorMs <= MAX && c.lastWorkMs <= MAX
    ensures (NextDutyDueMs(c).None? <==>
             forall now: nat :: now <= MAX ==> !SnapshotCheck(c, now) && !PassivationCheck(c, now))
            <==>
            (Armed(c) == {} || exists d :: d in Armed(c) && DueBy(MAX, d))
  {
    assert NextDutyDueMs(c).None? <==> Armed(c) == {} by {
      assert SnapshotArmed(c) ==> (c.anchorMs, Millis(c.cadence.interval)) in Armed(c);
      assert c.idleFor.Some? ==> (c.lastWorkMs, Millis(c.idleFor.value)) in Armed(c);
    }
    EverDueIff(c);
  }

  /** A check passes at some time exactly when it passes at the last clock value. */
  lemma EverDueIff(c: Cell)
    requires c.anchorMs <= MAX && c.lastWorkMs <= MAX
    ensures (exists d :: d in Armed(c) && DueBy(MAX, d)) <==> SnapshotCheck(c, MAX) || PassivationCheck(c, MAX)
    ensures forall now: nat :: now <= MAX && SnapshotCheck(c, now) ==> SnapshotCheck(c, MAX)
    ensures forall now: nat :: now <= MAX && PassivationCheck(c, now) ==> PassivationCheck(c, MAX)
  {
    assert SnapshotArmed(c) ==> (c.anchorMs, Millis(c.cadence.interval)) in Armed(c);
    assert c.idleFor.Some? ==> (c.lastWorkMs, Millis(c.idleFor.value)) in Armed(c);
  }

  // ---- The message-count cadence ----

  function DivCeil(a: nat, n: nat): nat
    requires n > 0
  {
    (a + n - 1) / n
  }

  predicate IsBoundary(b: nat, n: nat)
    requires n > 0
  {
    (b + 1) % n == 0
  }

  lemma AtLeastOnce(k: nat, n: nat)
    requires k >= 1
    ensures k * n >= n
  {
    assert k * n == (k - 1) * n + n;
  }

  lemma DivisionIsUnique(x: nat, n: nat, q: nat, r: nat)
    requires n > 0 && r < n && x == q * n + r
    ensures x / n == q && x % n == r
  {
    var q', r' := x / n, x % n;
    assert x == q' * n + r';
    assert q' * n == q * n + (q' - q) * n;
    if q' > q { AtLeastOnce(q' - q, n); }
    if q > q' { AtLeastOnce(q - q', n); }
  }

  /** The first boundary at or after `first`. */
  lemma FirstBoundary(first: nat, n: nat)
    requires n > 0
    ensures var b := DivCeil(first + 1, n) * n - 1;
            first <= b < first + n && IsBoundary(b, n)
  {
    var q := DivCeil(first + 1, n);
    assert first + n == q * n + (first + n) % n;
    DivisionIsUnique(q * n, n, q, 0);
  }

  /** Boundaries lie `n` apart, with none between. */
  lemma NextBoundary(b: nat, c: nat, n: nat)
    requires n > 0 && IsBoundary(b, n) && b < c <= b + n
    ensures IsBoundary(c, n) <==> c == b + n
  {
    var q, d := (b + 1) / n, c - b;
    assert b + 1 == q * n;
    if d < n {
      DivisionIsUnique(c + 1, n, q, d);
    } else {
      assert c + 1 == (q + 1) * n;
      DivisionIsUnique(c + 1, n, q + 1, 0);
    }
  }

  /** `anchors` lists the boundaries from `first` up to below `limit`, ascending. */
  ghost predicate AnchorsBelow(anchors: seq<nat>, first: nat, limit: nat, n: nat)
    requires n > 0
  {
    && (forall i, k :: 0 <= i < k < |anchors| ==> anchors[i] < anchors[k])
    && (forall b: nat :: b in anchors <==> first <= b < limit && IsBoundary(b, n))
  }

  lemma OneMoreAnchor(anchors: seq<nat>, first: nat, b: nat, n: nat)
    requires n > 0 && first <= b && IsBoundary(b, n) && AnchorsBelow(anchors, first, b, n)
    ensures AnchorsBelow(anchors + [b], first, b + n, n)
  {
    assert forall i :: 0 <= i < |anchors| ==> anchors[i] in anchors;
    forall c: nat ensures c in anchors + [b] <==> first <= c < b + n && IsBoundary(c, n) {
      assert c in anchors + [b] <==> c in anchors || c == b;
      if b < c < b + n { NextBoundary(b, c, n); }
    }
  }

  lemma ConsecutiveHolds(seqs: seq<nat>, b: nat)
    requires seqs != [] && forall i :: 0 <= i < |seqs| ==> seqs[i] == seqs[0] + i
    ensures b in seqs <==> seqs[0] <= b <= seqs[|seqs| - 1]
  {
    if seqs[0] <= b <= seqs[|seqs| - 1] {
      assert seqs[b - seqs[0]] == b;
    }
  }

  /**
   The anchors of one batch's snapshots: for a batch of at least `n` events exactly the boundaries
   it covers, ascending; for a shorter batch none, boundary or not.
   */
  method BatchAnchors(n: nat, seqs: seq<nat>) returns (anchors: seq<nat>)
    requires forall i :: 0 <= i < |seqs| ==> seqs[i] == seqs[0] + i
    requires seqs != [] ==> seqs[|seqs| - 1] < 0x8000_0000_0000_0000
    ensures forall i, k :: 0 <= i < k < |anchors| ==> anchors[i] < anchors[k]
    ensures forall b: nat :: b in anchors <==> 0 < n <= |seqs| && b in seqs && (b + 1) % n == 0
    ensures 0 < n <= |seqs| ==> anchors != []
  {
    anchors := [];
    if n == 0 || seqs == [] {
      return;
    }
    var first, last := seqs[0], seqs[|seqs| - 1];
    if last + 1 - first < n {
      return;
    }
    FirstBoundary(first, n);
    var boundary := DivCeil(first + 1, n) * n - 1;
    BoundariesStart(first, boundary, n);
    while true
      invariant first <= boundary <= last && IsBoundary(boundary, n)
      invariant AnchorsBelow(anchors, first, boundary, n)
      decreases last - boundary
    {
      OneMoreAnchor(anchors, first, boundary, n);
      anchors := anchors + [boundary];
      var next := boundary + n;
      assert next <= MAX;
      if next > last {
        break;
      }
      NextBoundary(boundary, next, n);
      boundary := next;
    }
    forall b: nat
      ensures b in anchors <==> 0 < n <= |seqs| && b in seqs && IsBoundary(b, n)
    {
      ConsecutiveHolds(seqs, b);
      if last < b < boundary + n { NextBoundary(boundary, b, n); }
    }
  }

  lemma BoundariesStart(first: nat, b: nat, n: nat)
    requires n > 0 && first <= b < first + n && IsBoundary(b, n)
    ensures AnchorsBelow([], first, b, n)
  {
    forall c: nat | first <= c < b ensures !IsBoundary(c, n) {
      if IsBoundary(c, n) { NextBoundary(c, b, n); }
    }
  }

  /** The last anchor of a batch is its last event exactly when that event is on a boundary. */
  lemma LastAnchorIsTheLastEvent(n: nat, anchors: seq<nat>, seqs: seq<nat>)
    requires 0 < n <= |seqs| && forall i :: 0 <= i < |seqs| ==> seqs[i] == seqs[0] + i
    requires forall b: nat :: b in anchors <==> b in seqs && IsBoundary(b, n)
    requires anchors != [] && forall i, k :: 0 <= i < k < |anchors| ==> anchors[i] < anchors[k]
    ensures anchors[|anchors| - 1] <= seqs[|seqs| - 1]
    ensures anchors[|anchors| - 1] == seqs[|seqs| - 1] <==> IsBoundary(seqs[|seqs| - 1], n)
  {
    var top, last := anchors[|anchors| - 1], seqs[|seqs| - 1];
    assert top in anchors && last in seqs;
    if IsBoundary(last, n) {
      var i :| 0 <= i < |anchors| && anchors[i] == last;
    }
  }

  /** An actor that counts its events. */
  function Count(total: int, event: Event): int { total + 1 }

  lemma {:induction false} CountFolds(a: Actor<int>, s: int, events: seq<Event>)
    requires a.apply == Count
    ensures Fold(a, s, events) == s + |events|
    decreases |events|
  {
    if events != [] { CountFolds(a, s, events[..|events| - 1]); }
  }

  /** The snapshots of one batch, one per anchor, all of the state at the batch's end. */
  function TakeAll(a: Actor<int>, w: World<int>, anchors: seq<nat>, nowMs: nat): World<int> {
    if anchors == [] then w
    else
      var n := |anchors| - 1;
      AfterSnapshot(a, TakeAll(a, w, anchors[..n], nowMs), anchors[n], nowMs, true)
  }

  lemma {:induction false} TakeAllKeeps(a: Actor<int>, w: World<int>, anchors: seq<nat>, nowMs: nat)
    ensures var w' := TakeAll(a, w, anchors, nowMs);
            && w'.live == w.live && w'.journal.Events() == w.journal.Events()
            && w'.journal.eventCount == w.journal.eventCount
    decreases |anchors|
  {
    if anchors != [] {
      var n := |anchors| - 1;
      TakeAllKeeps(a, w, anchors[..n], nowMs);
      if a.capture(w.live).Some? {
        AppendSnapshotShape(TakeAll(a, w, anchors[..n], nowMs).journal, anchors[n], a.capture(w.live).value, nowMs);
      }
    }
  }

  /** What is loaded after a batch's snapshots is the one under its last anchor. */
  lemma LastAnchorIsLoaded(a: Actor<int>, w: World<int>, anchors: seq<nat>, nowMs: nat)
    requires RoundTrips(a) && JournalFits(w.journal) && a.capture(w.live).Some?
    requires anchors != [] && anchors[|anchors| - 1] < w.journal.eventCount
    ensures Reloaded(a, TakeAll(a, w, anchors, nowMs).journal) ==
            Some(Fold(a, w.live, Past(w)[anchors[|anchors| - 1] + 1..]))
  {
    var m := |anchors| - 1;
    TakeAllKeeps(a, w, anchors[..m], nowMs);
    SnapshotReload(a, TakeAll(a, w, anchors[..m], nowMs).journal, w.live, anchors[m], a.capture(w.live).value, nowMs);
  }

  /**
   After a batch that ends the history of a counting actor took its message-count snapshots, the
   actor rebuilt from its journal has its live count exactly when the batch ends on a boundary.
   */
  lemma CountedSnapshotReplaysIff(a: Actor<int>, w: World<int>, n: nat, anchors: seq<nat>, seqs: seq<nat>, nowMs: nat)
    requires a.apply == Count && RoundTrips(a) && JournalFits(w.journal) && a.capture(w.live).Some?
    requires 0 < n <= |seqs| && forall i :: 0 <= i < |seqs| ==> seqs[i] == seqs[0] + i
    requires forall b: nat :: b in anchors <==> b in seqs && IsBoundary(b, n)
    requires anchors != [] && forall i, k :: 0 <= i < k < |anchors| ==> anchors[i] < anchors[k]
    requires seqs[|seqs| - 1] + 1 == w.journal.eventCount
    ensures Reloaded(a, TakeAll(a, w, anchors, nowMs).journal) == Some(w.live) <==>
            IsBoundary(seqs[|seqs| - 1], n)
  {
    var last := anchors[|anchors| - 1];
    LastAnchorIsTheLastEvent(n, anchors, seqs);
    LastAnchorIsLoaded(a, w, anchors, nowMs);
    CountFolds(a, w.live, Past(w)[last + 1..]);
  }
}
