/**
 The in-memory journal store (src/journal.rs), the simple log every other store must agree with.
 `MemStore` is its value; the class `InMemoryJournalStore` changes it in place.
 */
module MemoryStore {
  import opened Wrappers
  import opened Journals

  datatype MemStore = MemStore(journals: map<ActorPath, JournalState>, nextIngest: nat) {
    /** A path without a journal reads as the empty journal. */
    function Of(path: ActorPath): JournalState {
      if path in journals then journals[path] else EMPTY
    }

    function Append(path: ActorPath, events: seq<Event>): MemStore {
      MemStore(journals[path := Of(path).AppendAll(events, nextIngest)], nextIngest + |events|)
    }

    /** A write begun: its journal exists. */
    function Begin(path: ActorPath): MemStore {
      MemStore(journals[path := Of(path)], nextIngest)
    }

    /** One fact of a catch-up list; the slot is `None` when its origin is already held. */
    function CatchUp(path: ActorPath, fact: ScannedEvent): (MemStore, Option<nat>) {
      var j := Of(path);
      if HoldsOrigin(j.Events(), fact.journal, fact.seqNo) then
        (MemStore(journals[path := j], nextIngest), None)
      else
        (MemStore(
           journals[path := j.AppendEvent(fact.event, EventOrigin.CatchUp(fact.journal, fact.seqNo), nextIngest)],
           nextIngest + 1),
         Some(j.eventCount))
    }

    function CatchUpAll(path: ActorPath, facts: seq<ScannedEvent>): (MemStore, seq<Option<nat>>)
      decreases |facts|
    {
      if facts == [] then (MemStore(journals[path := Of(path)], nextIngest), [])
      else
        var n := |facts| - 1;
        var (before, slots) := CatchUpAll(path, facts[..n]);
        var (after, slot) := before.CatchUp(path, facts[n]);
        (after, slots + [slot])
    }

    function AppendSnapshot(path: ActorPath, seqNo: nat, state: Json, nowMs: nat): MemStore {
      MemStore(journals[path := Of(path).AppendSnapshot(seqNo, state, nowMs)], nextIngest)
    }

    function Load(path: ActorPath): Option<Replay> {
      if path in journals then Some(MemReplay(journals[path].entries)) else None
    }

    function Purge(path: ActorPath): MemStore {
      MemStore(journals - {path}, nextIngest)
    }

    /** Every recorded fact of the asked schemas, across all paths. */
    ghost function Facts(schemas: set<SchemaId>): set<ScannedEvent> {
      set p, i | p in journals && 0 <= i < |journals[p].Events()| &&
                 Surfaces(journals[p].Events()[i], schemas) ::
        ToScanned(p, journals[p].Events()[i])
    }
  }

  predicate Surfaces(record: JournaledEvent, schemas: set<SchemaId>) {
    record.origin == Recorded && record.event.schema in schemas
  }

  function ToScanned(path: ActorPath, record: JournaledEvent): ScannedEvent {
    ScannedEvent(path, record.seqNo, record.ingestSeq, record.event)
  }

  /** A scan answer: exactly the facts, each once, in arrival order. */
  ghost predicate IsScan(answer: seq<ScannedEvent>, facts: set<ScannedEvent>) {
    && (forall i, j :: 0 <= i < j < |answer| ==> answer[i].ingestSeq < answer[j].ingestSeq)
    && (forall f :: f in facts <==> f in answer)
  }

  /** Different facts of the set arrived at different times. */
  ghost predicate ArrivalsIdentify(facts: set<ScannedEvent>) {
    forall f, g :: f in facts && g in facts && f != g ==> f.ingestSeq != g.ingestSeq
  }

  /** There is one scan answer for a set of facts. */
  lemma {:induction false} ScanIsUnique(a: seq<ScannedEvent>, b: seq<ScannedEvent>, facts: set<ScannedEvent>)
    requires IsScan(a, facts) && IsScan(b, facts)
    ensures a == b
    decreases |a|
  {
    assert a != [] ==> a[0] in facts;
    assert b != [] ==> b[0] in facts;
    if a != [] && b != [] {
      var x, y := a[|a| - 1], b[|b| - 1];
      assert x in facts && y in facts;
      assert x in b && y in a;
      assert x == y;
      var rest := facts - {x};
      forall f ensures f in rest <==> f in a[..|a| - 1] {
        if f in a[..|a| - 1] { assert f in a; }
        if f in rest { assert f in a; }
      }
      forall f ensures f in rest <==> f in b[..|b| - 1] {
        if f in b[..|b| - 1] { assert f in b; }
        if f in rest { assert f in b; }
      }
      ScanIsUnique(a[..|a| - 1], b[..|b| - 1], rest);
    }
  }

  // ---- What every operation keeps ----

  ghost predicate ArrivalsRise(events: seq<JournaledEvent>, bound: nat) {
    && (forall i :: 0 <= i < |events| ==> events[i].ingestSeq < bound)
    && (forall i, k :: 0 <= i < k < |events| ==> events[i].ingestSeq < events[k].ingestSeq)
  }

  ghost predicate OriginsUnique(events: seq<JournaledEvent>) {
    forall i, k :: 0 <= i < k < |events| && events[i].origin.CatchUp? ==>
      events[i].origin != events[k].origin
  }

  ghost predicate ArrivalsApart(a: seq<JournaledEvent>, b: seq<JournaledEvent>) {
    forall i, k :: 0 <= i < |a| && 0 <= k < |b| ==> a[i].ingestSeq != b[k].ingestSeq
  }

  /** One journal: well-formed, arrivals rising below `bound`, each catch-up origin held once. */
  ghost predicate JournalOk(j: JournalState, bound: nat) {
    j.Wf() && ArrivalsRise(j.Events(), bound) && OriginsUnique(j.Events())
  }

  /** Every journal is fine, and arrival numbers are unique across all paths. */
  ghost predicate MemOk(s: MemStore) {
    && (forall p :: JournalOk(s.Of(p), s.nextIngest))
    && (forall p, q :: p != q ==> ArrivalsApart(s.Of(p).Events(), s.Of(q).Events()))
  }

  /** `added` carries arrival numbers at or above `from`. */
  ghost predicate Fresh(added: seq<JournaledEvent>, from: nat) {
    forall i :: 0 <= i < |added| ==> from <= added[i].ingestSeq
  }

  lemma FreshIsApart(a: seq<JournaledEvent>, added: seq<JournaledEvent>, b: seq<JournaledEvent>, from: nat)
    requires ArrivalsApart(a, b) && ArrivalsRise(b, from) && Fresh(added, from)
    ensures ArrivalsApart(a + added, b) && ArrivalsApart(b, a + added)
  {
  }

  /** Replacing one journal by a longer one with fresh arrivals keeps the store well-formed. */
  lemma GrowKeepsMemOk(s: MemStore, path: ActorPath, j: JournalState, added: seq<JournaledEvent>, next: nat)
    requires MemOk(s) && JournalOk(j, next) && s.nextIngest <= next
    requires j.Events() == s.Of(path).Events() + added
    requires Fresh(added, s.nextIngest)
    ensures MemOk(MemStore(s.journals[path := j], next))
  {
    var s' := MemStore(s.journals[path := j], next);
    assert s'.Of(path) == j;
    forall p ensures JournalOk(s'.Of(p), next) {
      if p != path {
        assert s'.Of(p) == s.Of(p) && JournalOk(s.Of(p), s.nextIngest);
      }
    }
    forall p, q | p != q ensures ArrivalsApart(s'.Of(p).Events(), s'.Of(q).Events()) {
      assert ArrivalsApart(s.Of(p).Events(), s.Of(q).Events());
      if p == path {
        assert s'.Of(q) == s.Of(q) && JournalOk(s.Of(q), s.nextIngest);
        FreshIsApart(s.Of(path).Events(), added, s.Of(q).Events(), s.nextIngest);
      } else if q == path {
        assert s'.Of(p) == s.Of(p) && JournalOk(s.Of(p), s.nextIngest);
        assert ArrivalsApart(s.Of(path).Events(), s.Of(p).Events());
        FreshIsApart(s.Of(path).Events(), added, s.Of(p).Events(), s.nextIngest);
      }
    }
  }

  lemma AppendGrows(j: JournalState, events: seq<Event>, ingest: nat)
    requires JournalOk(j, ingest)
    ensures var grown, added := j.AppendAll(events, ingest), Numbered(events, j.eventCount, ingest);
            && JournalOk(grown, ingest + |events|)
            && grown.Events() == j.Events() + added
            && Fresh(added, ingest)
  {
    AppendAllShape(j, events, ingest);
    var added := Numbered(events, j.eventCount, ingest);
    RisingConcat(j.Events(), added, ingest, ingest + |events|);
    RecordedKeepsOrigins(j.Events(), added);
  }

  lemma RisingConcat(a: seq<JournaledEvent>, b: seq<JournaledEvent>, from: nat, bound: nat)
    requires ArrivalsRise(a, from) && ArrivalsRise(b, bound) && Fresh(b, from) && from <= bound
    ensures ArrivalsRise(a + b, bound)
  {
  }

  lemma RecordedKeepsOrigins(a: seq<JournaledEvent>, b: seq<JournaledEvent>)
    requires OriginsUnique(a) && forall i :: 0 <= i < |b| ==> b[i].origin == Recorded
    ensures OriginsUnique(a + b)
  {
  }

  lemma AppendKeepsMemOk(s: MemStore, path: ActorPath, events: seq<Event>)
    requires MemOk(s)
    ensures MemOk(s.Append(path, events))
  {
    var j, from := s.Of(path), s.nextIngest;
    assert JournalOk(j, from);
    AppendGrows(j, events, from);
    assert s.Append(path, events) == MemStore(s.journals[path := j.AppendAll(events, from)], from + |events|);
    GrowKeepsMemOk(s, path, j.AppendAll(events, from), Numbered(events, j.eventCount, from),
                   from + |events|);
  }

  lemma SnapshotKeepsMemOk(s: MemStore, path: ActorPath, seqNo: nat, state: Json, nowMs: nat)
    requires MemOk(s) && seqNo < ANCHOR_LIMIT
    ensures MemOk(s.AppendSnapshot(path, seqNo, state, nowMs))
  {
    var j := s.Of(path);
    assert JournalOk(j, s.nextIngest);
    AppendSnapshotShape(j, seqNo, state, nowMs);
    GrowKeepsMemOk(s, path, j.AppendSnapshot(seqNo, state, nowMs), [], s.nextIngest);
  }

  lemma CatchUpKeepsJournalOk(j: JournalState, fact: ScannedEvent, ingest: nat)
    requires JournalOk(j, ingest) && !HoldsOrigin(j.Events(), fact.journal, fact.seqNo)
    ensures var origin := EventOrigin.CatchUp(fact.journal, fact.seqNo);
            var grown := j.AppendEvent(fact.event, origin, ingest);
            && JournalOk(grown, ingest + 1)
            && grown.Events() == j.Events() + [JournaledEvent(j.eventCount, fact.event, origin, ingest)]
  {
    AppendEventShape(j, fact.event, EventOrigin.CatchUp(fact.journal, fact.seqNo), ingest);
  }

  lemma HeldKeepsMemOk(s: MemStore, path: ActorPath)
    requires MemOk(s)
    ensures MemOk(MemStore(s.journals[path := s.Of(path)], s.nextIngest))
  {
    var j := s.Of(path);
    assert JournalOk(j, s.nextIngest);
    assert j.Events() == j.Events() + [];
    GrowKeepsMemOk(s, path, j, [], s.nextIngest);
  }

  lemma CatchUpKeepsMemOk(s: MemStore, path: ActorPath, fact: ScannedEvent)
    requires MemOk(s)
    ensures MemOk(s.CatchUp(path, fact).0)
  {
    var j, from := s.Of(path), s.nextIngest;
    if HoldsOrigin(j.Events(), fact.journal, fact.seqNo) {
      HeldKeepsMemOk(s, path);
    } else {
      var origin := EventOrigin.CatchUp(fact.journal, fact.seqNo);
      assert JournalOk(j, from);
      CatchUpKeepsJournalOk(j, fact, from);
      GrowKeepsMemOk(s, path, j.AppendEvent(fact.event, origin, from),
                     [JournaledEvent(j.eventCount, fact.event, origin, from)], from + 1);
    }
  }

  lemma PurgeKeepsMemOk(s: MemStore, path: ActorPath)
    requires MemOk(s)
    ensures MemOk(s.Purge(path)) && s.Purge(path).nextIngest == s.nextIngest
  {
    var s' := s.Purge(path);
    forall p ensures JournalOk(s'.Of(p), s'.nextIngest) {
      assert p != path ==> s'.Of(p) == s.Of(p) && JournalOk(s.Of(p), s.nextIngest);
    }
    forall p, q | p != q ensures ArrivalsApart(s'.Of(p).Events(), s'.Of(q).Events()) {
      assert p != path ==> s'.Of(p) == s.Of(p);
      assert q != path ==> s'.Of(q) == s.Of(q);
      assert ArrivalsApart(s.Of(p).Events(), s.Of(q).Events());
    }
  }

  /** A fact of the store is one record of one journal. */
  lemma FactIsRecorded(s: MemStore, schemas: set<SchemaId>, f: ScannedEvent) returns (i: nat)
    requires f in s.Facts(schemas)
    ensures f.journal in s.journals && i < |s.Of(f.journal).Events()|
    ensures f == ToScanned(f.journal, s.Of(f.journal).Events()[i])
  {
    var p: ActorPath, k: nat :| p in s.journals && k < |s.journals[p].Events()| &&
      Surfaces(s.journals[p].Events()[k], schemas) && f == ToScanned(p, s.journals[p].Events()[k]);
    i := k;
  }

  /** No two facts of a well-formed store arrived together. */
  lemma FactsDifferInArrival(s: MemStore, schemas: set<SchemaId>)
    requires MemOk(s)
    ensures ArrivalsIdentify(s.Facts(schemas))
  {
    forall f, g | f in s.Facts(schemas) && g in s.Facts(schemas) && f != g
      ensures f.ingestSeq != g.ingestSeq
    {
      var i := FactIsRecorded(s, schemas, f);
      var k := FactIsRecorded(s, schemas, g);
      if f.journal == g.journal {
        assert JournalOk(s.Of(f.journal), s.nextIngest) && i != k;
      } else {
        assert ArrivalsApart(s.Of(f.journal).Events(), s.Of(g.journal).Events());
      }
    }
  }

  // ---- Catch-up is exactly once ----

  function OriginOf(fact: ScannedEvent): (ActorPath, nat) { (fact.journal, fact.seqNo) }

  /** Some fact of the list has this origin. */
  ghost predicate Names(facts: seq<ScannedEvent>, source: ActorPath, sourceSeq: nat) {
    exists k :: 0 <= k < |facts| && OriginOf(facts[k]) == (source, sourceSeq)
  }

  lemma NamesOneMore(facts: seq<ScannedEvent>, source: ActorPath, sourceSeq: nat)
    requires facts != []
    ensures Names(facts, source, sourceSeq) <==>
            Names(facts[..|facts| - 1], source, sourceSeq) || OriginOf(facts[|facts| - 1]) == (source, sourceSeq)
  {
    var n := |facts| - 1;
    if Names(facts[..n], source, sourceSeq) {
      var k :| 0 <= k < n && OriginOf(facts[..n][k]) == (source, sourceSeq);
      assert OriginOf(facts[k]) == (source, sourceSeq);
    }
    if Names(facts, source, sourceSeq) && OriginOf(facts[n]) != (source, sourceSeq) {
      var k :| 0 <= k < |facts| && OriginOf(facts[k]) == (source, sourceSeq);
      assert OriginOf(facts[..n][k]) == (source, sourceSeq);
    }
  }

  /** After a list is seeded its journal holds the old origins and the listed ones, no others. */
  lemma {:induction false} CatchUpAllHolds(s: MemStore, path: ActorPath, facts: seq<ScannedEvent>,
                                           source: ActorPath, sourceSeq: nat)
    ensures HoldsOrigin(s.CatchUpAll(path, facts).0.Of(path).Events(), source, sourceSeq) <==>
            HoldsOrigin(s.Of(path).Events(), source, sourceSeq) || Names(facts, source, sourceSeq)
    decreases |facts|
  {
    if facts != [] {
      var n := |facts| - 1;
      CatchUpAllHolds(s, path, facts[..n], source, sourceSeq);
      NamesOneMore(facts, source, sourceSeq);
      CatchUpHolds(s.CatchUpAll(path, facts[..n]).0, path, facts[n], source, sourceSeq);
    }
  }

  lemma CatchUpHolds(s: MemStore, path: ActorPath, fact: ScannedEvent, source: ActorPath, sourceSeq: nat)
    ensures HoldsOrigin(s.CatchUp(path, fact).0.Of(path).Events(), source, sourceSeq) <==>
            HoldsOrigin(s.Of(path).Events(), source, sourceSeq) || OriginOf(fact) == (source, sourceSeq)
  {
    var j := s.Of(path);
    var old' := j.Events();
    if !HoldsOrigin(old', fact.journal, fact.seqNo) {
      AppendEventShape(j, fact.event, EventOrigin.CatchUp(fact.journal, fact.seqNo), s.nextIngest);
      var events := s.CatchUp(path, fact).0.Of(path).Events();
      assert events[|old'|].origin == EventOrigin.CatchUp(fact.journal, fact.seqNo);
      if HoldsOrigin(old', source, sourceSeq) {
        var i :| 0 <= i < |old'| && old'[i].origin == EventOrigin.CatchUp(source, sourceSeq);
        assert events[i] == old'[i];
      }
    }
  }

  /**
   A slot is filled exactly for an origin the journal did not hold and the list did not name
   earlier.
   */
  lemma {:induction false} CatchUpFillsFirstOccurrences(s: MemStore, path: ActorPath, facts: seq<ScannedEvent>)
    ensures var slots := s.CatchUpAll(path, facts).1;
            && |slots| == |facts|
            && forall k :: 0 <= k < |facts| ==>
                 (slots[k].Some? <==>
                  && !HoldsOrigin(s.Of(path).Events(), facts[k].journal, facts[k].seqNo)
                  && !Names(facts[..k], facts[k].journal, facts[k].seqNo))
    decreases |facts|
  {
    if facts != [] {
      var n := |facts| - 1;
      CatchUpFillsFirstOccurrences(s, path, facts[..n]);
      CatchUpAllHolds(s, path, facts[..n], facts[n].journal, facts[n].seqNo);
      var before := s.CatchUpAll(path, facts[..n]);
      var slots := s.CatchUpAll(path, facts).1;
      forall k | 0 <= k < n
        ensures slots[k].Some? <==>
                && !HoldsOrigin(s.Of(path).Events(), facts[k].journal, facts[k].seqNo)
                && !Names(facts[..k], facts[k].journal, facts[k].seqNo)
      {
        assert slots[k] == before.1[k] && facts[..n][k] == facts[k] && facts[..n][..k] == facts[..k];
      }
    }
  }

  lemma {:induction false} ReseedChangesNothing(s: MemStore, path: ActorPath, facts: seq<ScannedEvent>)
    requires forall k :: 0 <= k < |facts| ==>
               HoldsOrigin(s.Of(path).Events(), facts[k].journal, facts[k].seqNo)
    ensures var (after, slots) := s.CatchUpAll(path, facts);
            && after.Of(path) == s.Of(path) && after.nextIngest == s.nextIngest
            && forall k :: 0 <= k < |slots| ==> slots[k].None?
    decreases |facts|
  {
    if facts != [] {
      var n := |facts| - 1;
      forall k | 0 <= k < n ensures facts[..n][k] == facts[k] {}
      ReseedChangesNothing(s, path, facts[..n]);
    }
  }

  /** Seeding any list twice is seeding it once. */
  lemma SeedTwiceIsSeedOnce(s: MemStore, path: ActorPath, facts: seq<ScannedEvent>)
    ensures var once := s.CatchUpAll(path, facts).0;
            var (twice, slots) := once.CatchUpAll(path, facts);
            && twice.Of(path) == once.Of(path) && twice.nextIngest == once.nextIngest
            && forall k :: 0 <= k < |slots| ==> slots[k].None?
  {
    var once := s.CatchUpAll(path, facts).0;
    forall k | 0 <= k < |facts|
      ensures HoldsOrigin(once.Of(path).Events(), facts[k].journal, facts[k].seqNo)
    {
      CatchUpAllHolds(s, path, facts, facts[k].journal, facts[k].seqNo);
      assert OriginOf(facts[k]) == (facts[k].journal, facts[k].seqNo);
      assert Names(facts, facts[k].journal, facts[k].seqNo);
    }
    ReseedChangesNothing(once, path, facts);
  }

  // ---- What each call does, record by record ----

  /** Every path but one reads as before. */
  ghost predicate Elsewhere(before: MemStore, after: MemStore, path: ActorPath) {
    forall q :: q != path ==> after.Of(q) == before.Of(q)
  }

  /** A plain append adds one recorded event per entry, numbered and timed on from the last. */
  lemma AppendMeans(s: MemStore, path: ActorPath, events: seq<Event>)
    ensures var s', j := s.Append(path, events), s.Of(path);
            && Elsewhere(s, s', path) && s'.nextIngest == s.nextIngest + |events|
            && s'.Of(path).Latest() == j.Latest() && s'.Of(path).eventCount == j.eventCount + |events|
            && |s'.Of(path).Events()| == |j.Events()| + |events| && j.Events() <= s'.Of(path).Events()
            && forall i :: 0 <= i < |events| ==>
                 s'.Of(path).Events()[|j.Events()| + i] ==
                 JournaledEvent(j.eventCount + i, events[i], Recorded, s.nextIngest + i)
  {
    AppendAllShape(s.Of(path), events, s.nextIngest);
  }

  /** A snapshot becomes the latest and touches no event. */
  lemma SnapshotMeans(s: MemStore, path: ActorPath, seqNo: nat, state: Json, nowMs: nat)
    ensures var s', j := s.AppendSnapshot(path, seqNo, state, nowMs), s.Of(path);
            && Elsewhere(s, s', path) && s'.nextIngest == s.nextIngest
            && s'.Of(path).Events() == j.Events() && s'.Of(path).Latest() == Some(Snapshot(seqNo, state))
            && s'.Of(path).eventCount == j.eventCount && s'.Of(path).lastSnapshotMs == Some(nowMs)
  {
    AppendSnapshotShape(s.Of(path), seqNo, state, nowMs);
  }

  /** A held fact changes nothing; a new one is journaled under its origin, and its number fills the slot. */
  lemma CatchUpMeans(s: MemStore, path: ActorPath, fact: ScannedEvent)
    ensures var (s', slot) := s.CatchUp(path, fact);
            var j, origin := s.Of(path), EventOrigin.CatchUp(fact.journal, fact.seqNo);
            && Elsewhere(s, s', path)
            && if exists i :: 0 <= i < |j.Events()| && j.Events()[i].origin == origin
               then slot == None && s'.Of(path) == j && s'.nextIngest == s.nextIngest
               else
                 && slot == Some(j.eventCount) && s'.nextIngest == s.nextIngest + 1
                 && s'.Of(path).Latest() == j.Latest()
                 && s'.Of(path).Events() ==
                    j.Events() + [JournaledEvent(j.eventCount, fact.event, origin, s.nextIngest)]
  {
    AppendEventShape(s.Of(path), fact.event, EventOrigin.CatchUp(fact.journal, fact.seqNo), s.nextIngest);
  }

  /** A purged path reads as never written. */
  lemma PurgeMeans(s: MemStore, path: ActorPath)
    ensures var s' := s.Purge(path);
            && Elsewhere(s, s', path) && s'.nextIngest == s.nextIngest
            && s'.Of(path).Events() == [] && s'.Of(path).Latest() == None && s'.Load(path) == None
  {
  }

  /** A load gives the latest snapshot, the history, and the events the snapshot does not cover. */
  lemma LoadMeans(s: MemStore, path: ActorPath)
    requires s.Of(path).Wf()
    ensures s.Load(path).None? <==> path !in s.journals
    ensures s.Load(path).Some? ==> IsReplay(s.Load(path).value, s.Of(path).Events(), s.Of(path).Latest())
  {
    if path in s.journals {
      MemReplayIsReplayOf(s.Of(path).entries);
      ReplayOfIsReplay(s.Of(path).Events(), s.Of(path).Latest());
    }
  }

  /** `f` is a recorded event of an asked schema, under its own path, number and arrival. */
  ghost predicate IsRecordedFact(s: MemStore, schemas: set<SchemaId>, f: ScannedEvent) {
    && f.event.schema in schemas
    && exists i :: 0 <= i < |s.Of(f.journal).Events()| &&
         s.Of(f.journal).Events()[i] == JournaledEvent(f.seqNo, f.event, Recorded, f.ingestSeq)
  }

  /** A scan's facts are the recorded events of the asked schemas, and no catch-up copies. */
  lemma FactsMean(s: MemStore, schemas: set<SchemaId>, f: ScannedEvent)
    ensures f in s.Facts(schemas) <==> IsRecordedFact(s, schemas, f)
  {
    if f in s.Facts(schemas) {
      var p, i :| p in s.journals && 0 <= i < |s.journals[p].Events()| &&
                  Surfaces(s.journals[p].Events()[i], schemas) && f == ToScanned(p, s.journals[p].Events()[i]);
      assert s.Of(f.journal).Events()[i] == JournaledEvent(f.seqNo, f.event, Recorded, f.ingestSeq);
    }
    if IsRecordedFact(s, schemas, f) {
      var i :| 0 <= i < |s.Of(f.journal).Events()| &&
               s.Of(f.journal).Events()[i] == JournaledEvent(f.seqNo, f.event, Recorded, f.ingestSeq);
      assert f == ToScanned(f.journal, s.journals[f.journal].Events()[i]);
    }
  }
}
