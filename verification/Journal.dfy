/**
 One actor's journal: events and snapshots in one list (src/journal.rs).

 `JournalState` is the value of a journal; the class `Journal` is the object whose methods
 change it in place. `MemReplay` is what the in-memory store answers for a journal.
 */
module Journals {
  import opened Wrappers

  type ActorPath = string
  type SchemaId = string
  type Json = string

  /** The sentinel `SeqNo` that means "replay everything" (u64::MAX). */
  const BEFORE_GENESIS: nat := 0xFFFF_FFFF_FFFF_FFFF

  datatype Event = Event(schema: SchemaId, payload: string)

  datatype EventOrigin = Recorded | CatchUp(source: ActorPath, sourceSeq: nat)

  datatype JournaledEvent =
    JournaledEvent(seqNo: nat, event: Event, origin: EventOrigin, ingestSeq: nat)

  datatype Snapshot = Snapshot(seqNo: nat, state: Json)

  datatype JournalEntry = EventEntry(record: JournaledEvent) | SnapshotEntry(snapshot: Snapshot)

  /** A fact of another journal, as a scan surfaces it and a catch-up re-records it. */
  datatype ScannedEvent =
    ScannedEvent(journal: ActorPath, seqNo: nat, ingestSeq: nat, event: Event)

  datatype Replay =
    Replay(snapshot: Option<Snapshot>, tail: seq<Event>, events: seq<JournaledEvent>)

  /** The event records of an entry list, in journal order. */
  function EventsOf(entries: seq<JournalEntry>): seq<JournaledEvent> {
    if entries == [] then []
    else
      var last := entries[|entries| - 1];
      EventsOf(entries[..|entries| - 1]) + (if last.EventEntry? then [last.record] else [])
  }

  /** The snapshot appended last, whatever its anchor. */
  function LastSnapshot(entries: seq<JournalEntry>): Option<Snapshot> {
    if entries == [] then None
    else
      var last := entries[|entries| - 1];
      if last.SnapshotEntry? then Some(last.snapshot) else LastSnapshot(entries[..|entries| - 1])
  }

  /** The events with a sequence number strictly above `seqNo`. */
  function TailAfter(events: seq<JournaledEvent>, seqNo: nat): seq<Event> {
    if events == [] then []
    else
      var last := events[|events| - 1];
      TailAfter(events[..|events| - 1], seqNo) + (if last.seqNo > seqNo then [last.event] else [])
  }

  function Payloads(events: seq<JournaledEvent>): (r: seq<Event>)
    ensures |r| == |events|
    ensures forall i :: 0 <= i < |events| ==> r[i] == events[i].event
  {
    if events == [] then []
    else Payloads(events[..|events| - 1]) + [events[|events| - 1].event]
  }

  predicate HoldsOrigin(events: seq<JournaledEvent>, source: ActorPath, sourceSeq: nat) {
    exists i :: 0 <= i < |events| && events[i].origin == CatchUp(source, sourceSeq)
  }

  /** The journal as a value; the three fields of the Rust struct. */
  datatype JournalState =
    JournalState(entries: seq<JournalEntry>, eventCount: nat, lastSnapshotMs: Option<nat>)
  {
    function Events(): seq<JournaledEvent> { EventsOf(entries) }

    function Latest(): Option<Snapshot> { LastSnapshot(entries) }

    function AppendEvent(event: Event, origin: EventOrigin, ingest: nat): JournalState {
      JournalState(entries + [EventEntry(JournaledEvent(eventCount, event, origin, ingest))],
                   eventCount + 1, lastSnapshotMs)
    }

    function AppendSnapshot(seqNo: nat, state: Json, nowMs: nat): JournalState {
      JournalState(entries + [SnapshotEntry(Snapshot(seqNo, state))], eventCount, Some(nowMs))
    }

    /** Appends recorded events one by one; the i-th gets arrival number `ingest + i`. */
    function AppendAll(events: seq<Event>, ingest: nat): JournalState
      decreases |events|
    {
      if events == [] then this
      else
        var n := |events| - 1;
        AppendAll(events[..n], ingest).AppendEvent(events[n], Recorded, ingest + n)
    }

    /** Sequence numbers are positions among the events; anchors fit a SQLite integer. */
    ghost predicate Wf() {
      EntriesOk(entries) && eventCount == |Events()|
    }
  }

  const EMPTY := JournalState([], 0, None)

  ghost predicate Dense(events: seq<JournaledEvent>) {
    forall i :: 0 <= i < |events| ==> events[i].seqNo == i
  }

  ghost predicate EntriesOk(entries: seq<JournalEntry>) {
    Dense(EventsOf(entries)) && AnchorsFit(entries)
  }

  /** The anchors a SQLite integer can hold. */
  const ANCHOR_LIMIT := 0x8000_0000_0000_0000

  ghost predicate AnchorsFit(entries: seq<JournalEntry>) {
    entries == [] ||
    var n := |entries| - 1;
    AnchorsFit(entries[..n]) && (entries[n].SnapshotEntry? ==> entries[n].snapshot.seqNo < ANCHOR_LIMIT)
  }

  /** Snapshot anchors never decrease along the list. */
  ghost predicate AnchorsRise(entries: seq<JournalEntry>) {
    forall i, k :: 0 <= i < k < |entries| && entries[i].SnapshotEntry? && entries[k].SnapshotEntry? ==>
      entries[i].snapshot.seqNo <= entries[k].snapshot.seqNo
  }

  /** The in-memory store's filter: the sentinel means "from the beginning". */
  function After(entries: seq<JournalEntry>, seqNo: nat): seq<Event> {
    if entries == [] then []
    else
      var last := entries[|entries| - 1];
      After(entries[..|entries| - 1], seqNo) +
      (if last.EventEntry? && (seqNo == BEFORE_GENESIS || last.record.seqNo > seqNo)
       then [last.record.event] else [])
  }

  /** `InMemoryJournalStore::load` on an existing journal. */
  function MemReplay(entries: seq<JournalEntry>): Replay {
    var snapshot := LastSnapshot(entries);
    var from := if snapshot.Some? then snapshot.value.seqNo else BEFORE_GENESIS;
    Replay(snapshot, After(entries, from), EventsOf(entries))
  }

  /** What a reader of the journal is owed, as a function of its events and latest snapshot. */
  function ReplayOf(events: seq<JournaledEvent>, snapshot: Option<Snapshot>): Replay {
    Replay(snapshot,
           if snapshot.Some? then TailAfter(events, snapshot.value.seqNo) else Payloads(events),
           events)
  }

  // ---- How the list functions split ----

  lemma {:induction false} EventsOfConcat(a: seq<JournalEntry>, b: seq<JournalEntry>)
    ensures EventsOf(a + b) == EventsOf(a) + EventsOf(b)
    decreases |b|
  {
    if b == [] {
      assert a + b == a;
    } else {
      var n := |b| - 1;
      EventsOfConcat(a, b[..n]);
      assert (a + b)[..|a + b| - 1] == a + b[..n];
      assert (a + b)[|a + b| - 1] == b[n];
    }
  }

  lemma {:induction false} LastSnapshotConcat(a: seq<JournalEntry>, b: seq<JournalEntry>)
    ensures LastSnapshot(a + b) == if LastSnapshot(b).Some? then LastSnapshot(b) else LastSnapshot(a)
    decreases |b|
  {
    if b == [] {
      assert a + b == a;
    } else {
      var n := |b| - 1;
      assert (a + b)[..|a + b| - 1] == a + b[..n];
      assert (a + b)[|a + b| - 1] == b[n];
      LastSnapshotConcat(a, b[..n]);
    }
  }

  lemma SplitAt(entries: seq<JournalEntry>, k: nat)
    requires k <= |entries|
    ensures EventsOf(entries) == EventsOf(entries[..k]) + EventsOf(entries[k..])
    ensures LastSnapshot(entries) ==
            if LastSnapshot(entries[k..]).Some? then LastSnapshot(entries[k..])
            else LastSnapshot(entries[..k])
  {
    assert entries == entries[..k] + entries[k..];
    EventsOfConcat(entries[..k], entries[k..]);
    LastSnapshotConcat(entries[..k], entries[k..]);
  }

  lemma {:induction false} AnchorsFitPrefix(entries: seq<JournalEntry>, k: nat)
    requires AnchorsFit(entries) && k <= |entries|
    ensures AnchorsFit(entries[..k])
    decreases |entries|
  {
    if k < |entries| {
      var n := |entries| - 1;
      AnchorsFitPrefix(entries[..n], k);
      assert entries[..n][..k] == entries[..k];
    } else {
      assert entries[..k] == entries;
    }
  }

  lemma EntriesOkPrefix(entries: seq<JournalEntry>, k: nat)
    requires EntriesOk(entries) && k <= |entries|
    ensures EntriesOk(entries[..k])
  {
    AnchorsFitPrefix(entries, k);
    SplitAt(entries, k);
    var all, prefix := EventsOf(entries), EventsOf(entries[..k]);
    assert forall i :: 0 <= i < |prefix| ==> prefix[i] == all[i];
  }

  /** The latest snapshot is one of the entries, and none follows it. */
  lemma {:induction false} LastSnapshotAt(entries: seq<JournalEntry>) returns (k: nat)
    requires LastSnapshot(entries).Some?
    ensures k < |entries| && entries[k] == SnapshotEntry(LastSnapshot(entries).value)
    ensures forall i :: k < i < |entries| ==> !entries[i].SnapshotEntry?
    decreases |entries|
  {
    var n := |entries| - 1;
    if entries[n].SnapshotEntry? {
      k := n;
    } else {
      k := LastSnapshotAt(entries[..n]);
    }
  }

  lemma {:induction false} LastSnapshotFits(entries: seq<JournalEntry>)
    requires AnchorsFit(entries)
    ensures LastSnapshot(entries).Some? ==> LastSnapshot(entries).value.seqNo < ANCHOR_LIMIT
    decreases |entries|
  {
    if entries != [] { LastSnapshotFits(entries[..|entries| - 1]); }
  }

  /** With rising anchors no earlier latest snapshot was anchored higher. */
  lemma LastSnapshotRises(entries: seq<JournalEntry>, k: nat)
    requires AnchorsRise(entries) && k <= |entries|
    ensures LastSnapshot(entries[..k]).Some? && LastSnapshot(entries).Some? ==>
              LastSnapshot(entries[..k]).value.seqNo <= LastSnapshot(entries).value.seqNo
  {
    if LastSnapshot(entries[..k]).Some? && LastSnapshot(entries).Some? {
      var i := LastSnapshotAt(entries[..k]);
      var j := LastSnapshotAt(entries);
      assert entries[..k][i] == entries[i];
    }
  }

  // ---- Appending keeps the shape ----

  lemma AppendEventShape(j: JournalState, event: Event, origin: EventOrigin, ingest: nat)
    ensures var j' := j.AppendEvent(event, origin, ingest);
            && j'.Events() == j.Events() + [JournaledEvent(j.eventCount, event, origin, ingest)]
            && j'.Latest() == j.Latest()
            && (j.Wf() ==> j'.Wf())
  {
    var j' := j.AppendEvent(event, origin, ingest);
    assert j'.entries[..|j'.entries| - 1] == j.entries;
  }

  lemma AppendSnapshotShape(j: JournalState, seqNo: nat, state: Json, nowMs: nat)
    ensures var j' := j.AppendSnapshot(seqNo, state, nowMs);
            && j'.Events() == j.Events()
            && j'.Latest() == Some(Snapshot(seqNo, state))
            && (j.Wf() && seqNo < ANCHOR_LIMIT ==> j'.Wf())
  {
    var j' := j.AppendSnapshot(seqNo, state, nowMs);
    assert j'.entries[..|j'.entries| - 1] == j.entries;
  }

  /** The sequence numbers a plain append answers. */
  function NumbersFrom(first: nat, count: nat): seq<nat> {
    seq(count, i requires 0 <= i < count => first + i)
  }

  /** The records a plain append adds: dense numbers, consecutive arrivals, origin Recorded. */
  function Numbered(events: seq<Event>, first: nat, ingest: nat): (r: seq<JournaledEvent>)
    ensures |r| == |events|
    ensures forall i :: 0 <= i < |r| ==>
              r[i] == JournaledEvent(first + i, events[i], Recorded, ingest + i)
  {
    seq(|events|, i requires 0 <= i < |events| =>
      JournaledEvent(first + i, events[i], Recorded, ingest + i))
  }

  function AsEntries(records: seq<JournaledEvent>): (r: seq<JournalEntry>)
    ensures |r| == |records|
    ensures forall i :: 0 <= i < |r| ==> r[i] == EventEntry(records[i])
  {
    seq(|records|, i requires 0 <= i < |records| => EventEntry(records[i]))
  }

  lemma {:induction false} AsEntriesShape(records: seq<JournaledEvent>)
    ensures EventsOf(AsEntries(records)) == records
    ensures LastSnapshot(AsEntries(records)) == None
    ensures AnchorsFit(AsEntries(records))
    decreases |records|
  {
    if records != [] {
      var n := |records| - 1;
      AsEntriesShape(records[..n]);
      assert AsEntries(records)[..n] == AsEntries(records[..n]);
      assert records == records[..n] + [records[n]];
    }
  }

  lemma {:induction false} AppendAllEntries(j: JournalState, events: seq<Event>, ingest: nat)
    ensures var j' := j.AppendAll(events, ingest);
            && j'.entries == j.entries + AsEntries(Numbered(events, j.eventCount, ingest))
            && j'.eventCount == j.eventCount + |events|
    decreases |events|
  {
    if events != [] {
      var n := |events| - 1;
      AppendAllEntries(j, events[..n], ingest);
      var added := Numbered(events, j.eventCount, ingest);
      assert added[..n] == Numbered(events[..n], j.eventCount, ingest);
      assert AsEntries(added) == AsEntries(added[..n]) + [EventEntry(added[n])];
    }
  }

  lemma {:induction false} AnchorsFitEvents(entries: seq<JournalEntry>, records: seq<JournaledEvent>)
    requires AnchorsFit(entries)
    ensures AnchorsFit(entries + AsEntries(records))
    decreases |records|
  {
    var all := entries + AsEntries(records);
    if records == [] {
      assert all == entries;
    } else {
      var n := |records| - 1;
      AnchorsFitEvents(entries, records[..n]);
      assert all[..|all| - 1] == entries + AsEntries(records[..n]);
    }
  }

  lemma AppendAllEvents(j: JournalState, events: seq<Event>, ingest: nat)
    ensures var j' := j.AppendAll(events, ingest);
            && j'.Events() == j.Events() + Numbered(events, j.eventCount, ingest)
            && j'.Latest() == j.Latest()
  {
    var records := Numbered(events, j.eventCount, ingest);
    AppendAllEntries(j, events, ingest);
    AsEntriesShape(records);
    EventsOfConcat(j.entries, AsEntries(records));
    LastSnapshotConcat(j.entries, AsEntries(records));
  }

  lemma DenseGrows(before: seq<JournaledEvent>, events: seq<Event>, ingest: nat)
    requires Dense(before)
    ensures Dense(before + Numbered(events, |before|, ingest))
  {
  }

  lemma AppendAllShape(j: JournalState, events: seq<Event>, ingest: nat)
    ensures var j' := j.AppendAll(events, ingest);
            && j'.entries == j.entries + AsEntries(Numbered(events, j.eventCount, ingest))
            && j'.Events() == j.Events() + Numbered(events, j.eventCount, ingest)
            && j'.Latest() == j.Latest()
            && j'.eventCount == j.eventCount + |events|
            && (j.Wf() ==> j'.Wf())
  {
    AppendAllEntries(j, events, ingest);
    AppendAllEvents(j, events, ingest);
    if j.Wf() {
      DenseGrows(j.Events(), events, ingest);
      AnchorsFitEvents(j.entries, Numbered(events, j.eventCount, ingest));
    }
  }

  // ---- The in-memory answer is a function of events and latest snapshot ----

  lemma {:induction false} AfterIsTail(entries: seq<JournalEntry>, seqNo: nat)
    ensures After(entries, seqNo) ==
            if seqNo == BEFORE_GENESIS then Payloads(EventsOf(entries))
            else TailAfter(EventsOf(entries), seqNo)
    decreases |entries|
  {
    if entries != [] {
      var n := |entries| - 1;
      AfterIsTail(entries[..n], seqNo);
      if entries[n].EventEntry? {
        var events := EventsOf(entries);
        assert events[..|events| - 1] == EventsOf(entries[..n]);
      } else {
        assert EventsOf(entries) == EventsOf(entries[..n]);
      }
    }
  }

  lemma MemReplayIsReplayOf(entries: seq<JournalEntry>)
    requires AnchorsFit(entries)
    ensures MemReplay(entries) == ReplayOf(EventsOf(entries), LastSnapshot(entries))
  {
    LastSnapshotFits(entries);
    var snapshot := LastSnapshot(entries);
    AfterIsTail(entries, if snapshot.Some? then snapshot.value.seqNo else BEFORE_GENESIS);
  }

  /** In a dense history the strict tail after anchor `s` is the events from position s + 1 on. */
  lemma {:induction false} TailIsSuffix(events: seq<JournaledEvent>, s: nat)
    requires Dense(events)
    ensures TailAfter(events, s) ==
            if s + 1 <= |events| then Payloads(events)[s + 1..] else []
    decreases |events|
  {
    if events != [] {
      TailIsSuffix(events[..|events| - 1], s);
    }
  }

  /**
   `r` gives a reader the latest snapshot, the whole history, and as tail what the snapshot does
   not cover: the events after its anchor, or all of them.
   */
  ghost predicate IsReplay(r: Replay, events: seq<JournaledEvent>, snapshot: Option<Snapshot>) {
    var from := if snapshot.Some? then snapshot.value.seqNo + 1 else 0;
    && r.snapshot == snapshot && r.events == events
    && |r.tail| == (if from <= |events| then |events| - from else 0)
    && forall i :: 0 <= i < |r.tail| ==> r.tail[i] == events[from + i].event
  }

  lemma ReplayOfIsReplay(events: seq<JournaledEvent>, snapshot: Option<Snapshot>)
    requires Dense(events)
    ensures IsReplay(ReplayOf(events, snapshot), events, snapshot)
  {
    if snapshot.Some? { TailIsSuffix(events, snapshot.value.seqNo); }
  }
}
