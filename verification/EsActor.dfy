/**
 An event-sourced actor as the engine sees it (src/actor.rs), and the pure parts of one batched
 step (src/kernel.rs): the decide pass, the emit filter and the one journal append.
 */
module EsActors {
  import opened Wrappers
  import opened Journals
  import opened MemoryStore
  import opened Inboxes

  /** What a handler answers; an entry missing for the schema rejects too. */
  datatype Verdict = Emitted(events: seq<Event>) | Rejected | Panicked

  /** `decide` also reads the actor's view of others, which may differ from call to call. */
  datatype Actor<!S> = Actor(
    genesis: S,
    apply: (S, Event) -> S,
    handled: set<SchemaId>,
    decide: (S, Envelope, Json) -> Verdict,
    emits: set<SchemaId>,
    capture: S -> Option<Json>,
    restore: Json -> Option<S>)

  /** A captured state restores to itself. */
  ghost predicate RoundTrips<S(!new)>(a: Actor<S>) {
    forall s: S :: a.capture(s).Some? ==> a.restore(a.capture(s).value) == Some(s)
  }

  function Fold<S>(a: Actor<S>, s: S, events: seq<Event>): S {
    if events == [] then s
    else a.apply(Fold(a, s, events[..|events| - 1]), events[|events| - 1])
  }

  lemma {:induction false} FoldConcat<S>(a: Actor<S>, s: S, first: seq<Event>, second: seq<Event>)
    ensures Fold(a, s, first + second) == Fold(a, Fold(a, s, first), second)
    decreases |second|
  {
    if second == [] {
      assert first + second == first;
    } else {
      var n := |second| - 1;
      FoldConcat(a, s, first, second[..n]);
      assert (first + second)[..|first| + n] == first + second[..n];
    }
  }

  lemma FoldSplit<S>(a: Actor<S>, s: S, events: seq<Event>, k: nat)
    requires k <= |events|
    ensures Fold(a, s, events) == Fold(a, Fold(a, s, events[..k]), events[k..])
  {
    assert events == events[..k] + events[k..];
    FoldConcat(a, s, events[..k], events[k..]);
  }

  /** `rebuild`: restore the snapshot or start at genesis, then fold the tail. */
  function Rebuild<S>(a: Actor<S>, snapshot: Option<Json>, tail: seq<Event>): Option<S> {
    match snapshot
    case None => Some(Fold(a, a.genesis, tail))
    case Some(state) =>
      match a.restore(state)
      case None => None
      case Some(s) => Some(Fold(a, s, tail))
  }

  // ---- The decide pass ----

  function Judge<S>(a: Actor<S>, s: S, envelope: Envelope, view: Json): Verdict {
    if envelope.schema in a.handled then a.decide(s, envelope, view) else Rejected
  }

  /** One buffer of events for the whole batch, the offsets rejected, and whether a handler panicked. */
  datatype Pass = Pass(events: seq<Event>, rejected: seq<nat>, crashed: bool)

  function Extend(pass: Pass, offset: nat, verdict: Verdict): Pass {
    match verdict
    case Emitted(events) => pass.(events := pass.events + events)
    case Rejected => pass.(rejected := pass.rejected + [offset])
    case Panicked => pass.(crashed := true)
  }

  /** Every message is judged against the same state; the first panic ends the pass. */
  function DecideAll<S>(a: Actor<S>, s: S, claims: seq<Claim>, views: nat -> Json): Pass
    decreases |claims|
  {
    if claims == [] then Pass([], [], false)
    else
      var n := |claims| - 1;
      var before := DecideAll(a, s, claims[..n], views);
      if before.crashed then before
      else Extend(before, claims[n].offset, Judge(a, s, claims[n].envelope, views(n)))
  }

  /** The events whose schema the actor declared, in order. */
  function Declared(events: seq<Event>, emits: set<SchemaId>): seq<Event> {
    if events == [] then []
    else
      var n := |events| - 1;
      Declared(events[..n], emits) + (if events[n].schema in emits then [events[n]] else [])
  }

  /** `kept` is what stands in `events` at the rising positions `at`, exactly those of declared schemas. */
  ghost predicate Selects(events: seq<Event>, emits: set<SchemaId>, kept: seq<Event>, at: seq<nat>) {
    && |at| == |kept|
    && (forall i, k :: 0 <= i < k < |at| ==> at[i] < at[k])
    && (forall i :: 0 <= i < |at| ==> at[i] < |events| && kept[i] == events[at[i]])
    && (forall k: nat :: k < |events| ==> (k in at <==> events[k].schema in emits))
  }

  lemma SelectsOneMore(events: seq<Event>, emits: set<SchemaId>, kept: seq<Event>, at: seq<nat>, event: Event)
    requires Selects(events, emits, kept, at)
    ensures event.schema in emits ==> Selects(events + [event], emits, kept + [event], at + [|events|])
    ensures event.schema !in emits ==> Selects(events + [event], emits, kept, at)
  {
    assert forall k :: k in at + [|events|] <==> k in at || k == |events|;
    assert forall k :: k in at ==> k < |events|;
  }

  /** The emit filter keeps the declared events, each as often as it was made and in order, and no other. */
  lemma {:induction false} DeclaredSelects(events: seq<Event>, emits: set<SchemaId>) returns (at: seq<nat>)
    ensures Selects(events, emits, Declared(events, emits), at)
    decreases |events|
  {
    at := [];
    if events != [] {
      var n := |events| - 1;
      at := DeclaredSelects(events[..n], emits);
      SelectsOneMore(events[..n], emits, Declared(events[..n], emits), at, events[n]);
      assert events == events[..n] + [events[n]];
      if events[n].schema in emits { at := at + [n]; }
    }
  }

  /** No declared event has another schema. */
  lemma DeclaredIsDeclared(events: seq<Event>, emits: set<SchemaId>)
    ensures forall i :: 0 <= i < |Declared(events, emits)| ==> Declared(events, emits)[i].schema in emits
  {
    var at := DeclaredSelects(events, emits);
    forall i | 0 <= i < |Declared(events, emits)| ensures Declared(events, emits)[i].schema in emits {
      assert at[i] in at;
    }
  }

  lemma {:induction false} DeclaredConcat(a: seq<Event>, b: seq<Event>, emits: set<SchemaId>)
    ensures Declared(a + b, emits) == Declared(a, emits) + Declared(b, emits)
    decreases |b|
  {
    if b == [] {
      assert a + b == a;
    } else {
      var n := |b| - 1;
      DeclaredConcat(a, b[..n], emits);
      assert (a + b)[..|a| + n] == a + b[..n];
    }
  }

  /** A batch's declared events are its messages' declared events in message order. */
  lemma {:induction false} DecisionsConcatenate<S>(a: Actor<S>, s: S, claims: seq<Claim>, views: nat -> Json,
                                                   i: nat, events: seq<Event>)
    requires i < |claims| && !DecideAll(a, s, claims, views).crashed
    requires Judge(a, s, claims[i].envelope, views(i)) == Emitted(events)
    ensures !DecideAll(a, s, claims[..i], views).crashed
    ensures DecideAll(a, s, claims[..i], views).events + events <= DecideAll(a, s, claims, views).events
    decreases |claims|
  {
    var n := |claims| - 1;
    if i < n {
      assert claims[..n][..i] == claims[..i];
      DecisionsConcatenate(a, s, claims[..n], views, i, events);
    }
  }

  // ---- The append ----

  /** Every claim is a stamped copy of one and the same recorded fact. */
  predicate SameFact(claims: seq<Claim>) {
    && claims != [] && claims[0].envelope.stamp.Some?
    && forall i :: 0 <= i < |claims| ==> claims[i].envelope.stamp == claims[0].envelope.stamp
  }

  function Copies(stamp: Stamp, events: seq<Event>): (r: seq<ScannedEvent>)
    ensures |r| == |events|
    ensures forall i :: 0 <= i < |r| ==> r[i] == ScannedEvent(stamp.journal, stamp.seqNo, 0, events[i])
  {
    seq(|events|, i requires 0 <= i < |events| => ScannedEvent(stamp.journal, stamp.seqNo, 0, events[i]))
  }

  const SELF: ActorPath := "self"

  function Alone(j: JournalState, ingest: nat): MemStore { MemStore(map[SELF := j], ingest) }

  /** What the append leaves: the journal, one number per event, or the answer "already held". */
  datatype Recording = Recording(journal: JournalState, seqs: seq<nat>, held: bool)

  function Record(j: JournalState, claims: seq<Claim>, events: seq<Event>, ingest: nat): Recording {
    if events == [] then Recording(j, [], false)
    else if SameFact(claims) then
      var (store, slots) := Alone(j, ingest).CatchUpAll(SELF, Copies(claims[0].envelope.stamp.value, events));
      if None in slots then Recording(store.Of(SELF), [], true)
      else Recording(store.Of(SELF), seq(|events|, i => 0), false)
    else Recording(j.AppendAll(events, ingest), NumbersFrom(j.eventCount, |events|), false)
  }

  function Checkpointed(j: JournalState, stamp: Stamp, event: Event, ingest: nat): JournalState {
    j.AppendEvent(event, EventOrigin.CatchUp(stamp.journal, stamp.seqNo), ingest)
  }

  lemma CheckpointHolds(j: JournalState, stamp: Stamp, event: Event, ingest: nat)
    ensures HoldsOrigin(Checkpointed(j, stamp, event, ingest).Events(), stamp.journal, stamp.seqNo)
  {
    AppendEventShape(j, event, EventOrigin.CatchUp(stamp.journal, stamp.seqNo), ingest);
    var events := Checkpointed(j, stamp, event, ingest).Events();
    assert events[|events| - 1].origin == EventOrigin.CatchUp(stamp.journal, stamp.seqNo);
  }

  /** Only the first of several copies fills its slot. */
  ghost predicate FillsTheFirst(j: JournalState, stamp: Stamp, events: seq<Event>, ingest: nat)
    requires events != []
  {
    var (store, slots) := Alone(j, ingest).CatchUpAll(SELF, Copies(stamp, events));
    && store.Of(SELF) == Checkpointed(j, stamp, events[0], ingest)
    && |slots| == |events| && slots[0].Some?
    && forall k :: 0 < k < |slots| ==> slots[k] == None
  }

  lemma FirstCopy(j: JournalState, stamp: Stamp, event: Event, ingest: nat)
    requires !HoldsOrigin(j.Events(), stamp.journal, stamp.seqNo)
    ensures FillsTheFirst(j, stamp, [event], ingest)
  {
    assert Copies(stamp, [event])[..0] == [];
    assert Alone(j, ingest).CatchUpAll(SELF, []).0.Of(SELF) == j;
  }

  lemma NextCopy(j: JournalState, stamp: Stamp, events: seq<Event>, ingest: nat)
    requires |events| > 1 && FillsTheFirst(j, stamp, events[..|events| - 1], ingest)
    ensures FillsTheFirst(j, stamp, events, ingest)
  {
    var n, facts := |events| - 1, Copies(stamp, events);
    assert facts[..n] == Copies(stamp, events[..n]);
    CheckpointHolds(j, stamp, events[0], ingest);
    var before := Alone(j, ingest).CatchUpAll(SELF, facts[..n]).0;
    assert before.Of(SELF) == Checkpointed(j, stamp, events[..n][0], ingest) && events[..n][0] == events[0];
    assert facts[n].journal == stamp.journal && facts[n].seqNo == stamp.seqNo;
    assert HoldsOrigin(before.Of(SELF).Events(), facts[n].journal, facts[n].seqNo);
  }

  lemma {:induction false} CopiesAfterTheFirst(j: JournalState, stamp: Stamp, events: seq<Event>, ingest: nat)
    requires events != [] && !HoldsOrigin(j.Events(), stamp.journal, stamp.seqNo)
    ensures FillsTheFirst(j, stamp, events, ingest)
    decreases |events|
  {
    if |events| == 1 {
      FirstCopy(j, stamp, events[0], ingest);
      assert events == [events[0]];
    } else {
      CopiesAfterTheFirst(j, stamp, events[..|events| - 1], ingest);
      NextCopy(j, stamp, events, ingest);
    }
  }

  /** Of several events under one origin only the first can be recorded, and none if it is held. */
  lemma CopiesRecordOne(j: JournalState, claims: seq<Claim>, events: seq<Event>, ingest: nat)
    requires SameFact(claims) && events != []
    ensures var stamp, r := claims[0].envelope.stamp.value, Record(j, claims, events, ingest);
            if HoldsOrigin(j.Events(), stamp.journal, stamp.seqNo) then r == Recording(j, [], true)
            else if |events| > 1 then r == Recording(Checkpointed(j, stamp, events[0], ingest), [], true)
            else r == Recording(Checkpointed(j, stamp, events[0], ingest), [0], false)
  {
    var stamp := claims[0].envelope.stamp.value;
    var slots := Alone(j, ingest).CatchUpAll(SELF, Copies(stamp, events)).1;
    if HoldsOrigin(j.Events(), stamp.journal, stamp.seqNo) {
      CatchUpFillsFirstOccurrences(Alone(j, ingest), SELF, Copies(stamp, events));
      ReseedChangesNothing(Alone(j, ingest), SELF, Copies(stamp, events));
      assert slots[0] == None;
    } else {
      CopiesAfterTheFirst(j, stamp, events, ingest);
      assert |events| > 1 ==> slots[1] == None;
      assert |events| == 1 ==> slots == [slots[0]] && seq(1, i => 0) == [0];
    }
  }
}
