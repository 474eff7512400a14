/**
 The journal and the in-memory store as objects changed in place (src/journal.rs). Each method
 is proved against the function of `Journals` or `MemoryStore` that says what it does.
 */
module JournalObjects {
  import opened Wrappers
  import opened Journals
  import opened MemoryStore

  class Journal {
    var entries: seq<JournalEntry>
    var eventCount: nat
    var lastSnapshotMs: Option<nat>

    constructor ()
      ensures Value() == EMPTY
    {
      entries, eventCount, lastSnapshotMs := [], 0, None;
    }

    function Value(): JournalState
      reads this
    {
      JournalState(entries, eventCount, lastSnapshotMs)
    }

    method AppendEventWithOrigin(event: Event, origin: EventOrigin, ingest: nat) returns (seqNo: nat)
      modifies this
      ensures Value() == old(Value()).AppendEvent(event, origin, ingest)
      ensures entries == old(entries) + [EventEntry(JournaledEvent(seqNo, event, origin, ingest))]
      ensures seqNo == old(eventCount) && eventCount == seqNo + 1 && lastSnapshotMs == old(lastSnapshotMs)
    {
      seqNo := eventCount;
      eventCount := eventCount + 1;
      entries := entries + [EventEntry(JournaledEvent(seqNo, event, origin, ingest))];
    }

    method AppendSnapshot(seqNo: nat, state: Json, nowMs: nat)
      modifies this
      ensures Value() == old(Value()).AppendSnapshot(seqNo, state, nowMs)
      ensures entries == old(entries) + [SnapshotEntry(Snapshot(seqNo, state))] && eventCount == old(eventCount)
      ensures lastSnapshotMs == Some(nowMs)
    {
      lastSnapshotMs := Some(nowMs);
      entries := entries + [SnapshotEntry(Snapshot(seqNo, state))];
    }

    /** Walks backwards to the snapshot appended last. */
    method FindLastSnapshot() returns (r: Option<Snapshot>)
      ensures r == LastSnapshot(entries)
    {
      var i := |entries|;
      assert entries[..i] == entries;
      while i > 0
        invariant 0 <= i <= |entries|
        invariant LastSnapshot(entries) == LastSnapshot(entries[..i])
      {
        var prefix := entries[..i];
        i := i - 1;
        assert prefix[..|prefix| - 1] == entries[..i];
        if entries[i].SnapshotEntry? {
          return Some(entries[i].snapshot);
        }
      }
      return None;
    }

    /** The events strictly after `seqNo`, or all of them for the sentinel. */
    method CollectAfter(seqNo: nat) returns (r: seq<Event>)
      ensures r == After(entries, seqNo)
    {
      var fromBeginning := seqNo == BEFORE_GENESIS;
      r := [];
      for i := 0 to |entries|
        invariant r == After(entries[..i], seqNo)
      {
        assert entries[..i + 1][..i] == entries[..i];
        if entries[i].EventEntry? && (fromBeginning || entries[i].record.seqNo > seqNo) {
          r := r + [entries[i].record.event];
        }
      }
      assert entries[..|entries|] == entries;
    }
  }

  class InMemoryJournalStore {
    var journals: map<ActorPath, JournalState>
    var nextIngest: nat

    constructor ()
      ensures Value() == MemStore(map[], 0)
    {
      journals, nextIngest := map[], 0;
    }

    function Value(): MemStore
      reads this
    {
      MemStore(journals, nextIngest)
    }

    method Append(path: ActorPath, events: seq<Event>) returns (seqs: seq<nat>)
      modifies this
      ensures Value() == old(Value()).Append(path, events)
      ensures |seqs| == |events|
      ensures forall i :: 0 <= i < |seqs| ==> seqs[i] == old(Value()).Of(path).eventCount + i
    {
      ghost var before := Value();
      var j := Value().Of(path);
      seqs := [];
      for i := 0 to |events|
        invariant journals == before.journals && nextIngest == before.nextIngest + i
        invariant j == before.Of(path).AppendAll(events[..i], before.nextIngest)
        invariant j.eventCount == before.Of(path).eventCount + i
        invariant |seqs| == i && forall k :: 0 <= k < i ==> seqs[k] == before.Of(path).eventCount + k
      {
        assert events[..i + 1][..i] == events[..i];
        seqs := seqs + [j.eventCount];
        j := j.AppendEvent(events[i], Recorded, nextIngest);
        nextIngest := nextIngest + 1;
      }
      assert events[..|events|] == events;
      journals := journals[path := j];
    }

    method AppendCatchup(path: ActorPath, facts: seq<ScannedEvent>) returns (slots: seq<Option<nat>>)
      modifies this
      ensures (Value(), slots) == old(Value()).CatchUpAll(path, facts)
    {
      ghost var before := Value();
      journals := journals[path := Value().Of(path)];
      slots := [];
      for i := 0 to |facts|
        invariant (Value(), slots) == before.CatchUpAll(path, facts[..i])
      {
        assert facts[..i + 1][..i] == facts[..i];
        var j := Value().Of(path);
        if HoldsOrigin(j.Events(), facts[i].journal, facts[i].seqNo) {
          journals := journals[path := j];
          slots := slots + [None];
        } else {
          slots := slots + [Some(j.eventCount)];
          var origin := EventOrigin.CatchUp(facts[i].journal, facts[i].seqNo);
          journals := journals[path := j.AppendEvent(facts[i].event, origin, nextIngest)];
          nextIngest := nextIngest + 1;
        }
      }
      assert facts[..|facts|] == facts;
    }

    method AppendSnapshot(path: ActorPath, seqNo: nat, state: Json, nowMs: nat)
      modifies this
      ensures Value() == old(Value()).AppendSnapshot(path, seqNo, state, nowMs)
    {
      journals := journals[path := Value().Of(path).AppendSnapshot(seqNo, state, nowMs)];
    }

    method Purge(path: ActorPath)
      modifies this
      ensures Value() == old(Value()).Purge(path)
    {
      journals := journals - {path};
    }
  }
}
