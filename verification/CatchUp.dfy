/**
 A list of facts caught up on the write-behind store (src/journal_daow.rs): which slots it fills,
 what it journals, and that the in-memory store does the same.
 */
module CatchUps {
  import opened Wrappers
  import opened Journals
  import opened MemoryStore
  import opened Rows
  import opened WriteBehind
  import opened Protocol
  import opened ProtocolInvariant
  import opened WriteBehindStore

  /** No fact of the list is this one. */
  ghost predicate Unlisted(facts: seq<ScannedEvent>, source: ActorPath, sourceSeq: nat) {
    forall i :: 0 <= i < |facts| ==> facts[i].journal != source || facts[i].seqNo != sourceSeq
  }

  lemma NewsAfterOne(s: StoreState, path: ActorPath, fact: ScannedEvent, source: ActorPath, sourceSeq: nat)
    requires !s.Activating(path)
    ensures IsNews(s.CatchUp(path, fact).0, path, source, sourceSeq) <==>
            IsNews(s, path, source, sourceSeq) && (fact.journal != source || fact.seqNo != sourceSeq)
  {
    FactCaughtUp(s, path, fact);
    var s', n := s.CatchUp(path, fact).0, |s.Buffer(path).journal.Events()|;
    var events := s'.Buffer(path).journal.Events();
    assert forall i :: 0 <= i < n ==> events[i] == s.Buffer(path).journal.Events()[i];
    if IsNews(s, path, fact.journal, fact.seqNo) {
      assert events[n].origin == EventOrigin.CatchUp(fact.journal, fact.seqNo);
    }
  }

  lemma UnlistedOneMore(facts: seq<ScannedEvent>, source: ActorPath, sourceSeq: nat)
    requires facts != []
    ensures var n := |facts| - 1;
            Unlisted(facts, source, sourceSeq) <==>
            Unlisted(facts[..n], source, sourceSeq) && (facts[n].journal != source || facts[n].seqNo != sourceSeq)
  {
  }

  lemma {:induction false} NewsAfterList(s: StoreState, path: ActorPath, facts: seq<ScannedEvent>,
                                         source: ActorPath, sourceSeq: nat)
    requires !s.Activating(path)
    ensures !CatchUpEach(s, path, facts).0.Activating(path)
    ensures IsNews(CatchUpEach(s, path, facts).0, path, source, sourceSeq) <==>
            IsNews(s, path, source, sourceSeq) && Unlisted(facts, source, sourceSeq)
    decreases |facts|
  {
    if facts != [] {
      var n := |facts| - 1;
      NewsAfterList(s, path, facts[..n], source, sourceSeq);
      var before := CatchUpEach(s, path, facts[..n]).0;
      NewsAfterOne(before, path, facts[n], source, sourceSeq);
      FactCaughtUp(before, path, facts[n]);
      UnlistedOneMore(facts, source, sourceSeq);
    }
  }

  /** What one fact's slot says. */
  ghost predicate FilledIff(s: StoreState, path: ActorPath, facts: seq<ScannedEvent>, k: nat, slot: Option<nat>)
    requires k < |facts|
  {
    slot.Some? <==>
      IsNews(s, path, facts[k].journal, facts[k].seqNo) && Unlisted(facts[..k], facts[k].journal, facts[k].seqNo)
  }

  lemma FilledIffLonger(s: StoreState, path: ActorPath, facts: seq<ScannedEvent>, n: nat, k: nat, slot: Option<nat>)
    requires k < n <= |facts|
    ensures FilledIff(s, path, facts[..n], k, slot) <==> FilledIff(s, path, facts, k, slot)
  {
    assert facts[..n][k] == facts[k] && facts[..n][..k] == facts[..k];
  }

  lemma LastSlotFilledIff(s: StoreState, path: ActorPath, facts: seq<ScannedEvent>)
    requires !s.Activating(path) && facts != []
    ensures var n := |facts| - 1;
            FilledIff(s, path, facts, n, CatchUpEach(s, path, facts[..n]).0.CatchUp(path, facts[n]).1)
  {
    var n := |facts| - 1;
    NewsAfterList(s, path, facts[..n], facts[n].journal, facts[n].seqNo);
    FactCaughtUp(CatchUpEach(s, path, facts[..n]).0, path, facts[n]);
  }

  /** A slot is filled exactly for a fact new to buffer and table and not listed earlier. */
  lemma {:induction false} SlotsFilledOnce(s: StoreState, path: ActorPath, facts: seq<ScannedEvent>)
    requires !s.Activating(path)
    ensures var slots := CatchUpEach(s, path, facts).1;
            |slots| == |facts| && forall k :: 0 <= k < |facts| ==> FilledIff(s, path, facts, k, slots[k])
    decreases |facts|
  {
    if facts != [] {
      var n, slots := |facts| - 1, CatchUpEach(s, path, facts).1;
      SlotsFilledOnce(s, path, facts[..n]);
      LastSlotFilledIff(s, path, facts);
      forall k | 0 <= k < n ensures FilledIff(s, path, facts, k, slots[k]) {
        FilledIffLonger(s, path, facts, n, k, slots[k]);
      }
    }
  }

  /** Each filled slot names the record that copies its fact, and nothing else was journaled. */
  ghost predicate Copied(s: StoreState, s': StoreState, path: ActorPath, facts: seq<ScannedEvent>,
                         slots: seq<Option<nat>>)
  {
    var old', new' := s.Buffer(path).journal.Events(), s'.Buffer(path).journal.Events();
    && |slots| == |facts| && old' <= new' && s'.nextIngest == s.nextIngest + (|new'| - |old'|)
    && s'.Buffer(path).journal.eventCount == |new'|
    && s'.Buffer(path).journal.Latest() == s.Buffer(path).journal.Latest()
    && (forall k :: 0 <= k < |facts| && slots[k].Some? ==> CopiedAt(s, s', path, facts[k], slots[k].value))
    && (forall n :: |old'| <= n < |new'| ==> Some(n) in slots)
    && (forall i, k :: 0 <= i < k < |slots| && slots[i].Some? && slots[k].Some? ==> slots[i].value < slots[k].value)
  }

  ghost predicate CopiedAt(s: StoreState, s': StoreState, path: ActorPath, fact: ScannedEvent, n: nat) {
    var first, events := |s.Buffer(path).journal.Events()|, s'.Buffer(path).journal.Events();
    && first <= n < |events|
    && events[n] == JournaledEvent(n, fact.event, EventOrigin.CatchUp(fact.journal, fact.seqNo),
                                   s.nextIngest + (n - first))
  }

  /** What one more fact adds to what a list left. */
  ghost predicate GrewBy(mid: StoreState, s': StoreState, path: ActorPath, fact: ScannedEvent, slot: Option<nat>) {
    var events, events' := mid.Buffer(path).journal.Events(), s'.Buffer(path).journal.Events();
    && s'.Buffer(path).journal.Latest() == mid.Buffer(path).journal.Latest()
    && if slot.Some? then
         && slot.value == |events| && s'.nextIngest == mid.nextIngest + 1
         && s'.Buffer(path).journal.eventCount == |events| + 1
         && events' == events + [JournaledEvent(|events|, fact.event,
                                                EventOrigin.CatchUp(fact.journal, fact.seqNo), mid.nextIngest)]
       else s'.nextIngest == mid.nextIngest && s'.Buffer(path).journal == mid.Buffer(path).journal
  }

  lemma FactGrows(mid: StoreState, path: ActorPath, fact: ScannedEvent)
    requires !mid.Activating(path)
    requires mid.Buffer(path).journal.eventCount == |mid.Buffer(path).journal.Events()|
    ensures var (s', slot) := mid.CatchUp(path, fact);
            !s'.Activating(path) && OnlyJournal(mid, s', path) && GrewBy(mid, s', path, fact, slot)
  {
    FactCaughtUp(mid, path, fact);
  }

  lemma CopiedOneMore(s: StoreState, mid: StoreState, s': StoreState, path: ActorPath, facts: seq<ScannedEvent>,
                      fact: ScannedEvent, slots: seq<Option<nat>>, slot: Option<nat>)
    requires Copied(s, mid, path, facts, slots) && GrewBy(mid, s', path, fact, slot)
    ensures Copied(s, s', path, facts + [fact], slots + [slot])
  {
    var all, more := facts + [fact], slots + [slot];
    var events, events' := mid.Buffer(path).journal.Events(), s'.Buffer(path).journal.Events();
    assert forall n :: 0 <= n < |events| ==> events'[n] == events[n];
    forall k | 0 <= k < |all| && more[k].Some? ensures CopiedAt(s, s', path, all[k], more[k].value) {
      if k < |facts| { assert CopiedAt(s, mid, path, facts[k], slots[k].value); }
    }
    forall n | |s.Buffer(path).journal.Events()| <= n < |events'| ensures Some(n) in more {
      if n < |events| { assert Some(n) in slots; } else { assert more[|slots|] == Some(n); }
    }
  }

  lemma OnlyJournalTwice(s: StoreState, mid: StoreState, s': StoreState, path: ActorPath)
    requires s == mid || OnlyJournal(s, mid, path)
    requires OnlyJournal(mid, s', path)
    ensures OnlyJournal(s, s', path)
  {
  }

  lemma NothingCopied(s: StoreState, path: ActorPath)
    requires s.Buffer(path).journal.eventCount == |s.Buffer(path).journal.Events()|
    ensures Copied(s, s, path, [], [])
  {
  }

  /** A list touches only its path's journal, and journals each filled slot's fact as a copy. */
  ghost predicate ListFits(s: StoreState, s': StoreState, path: ActorPath, facts: seq<ScannedEvent>,
                           slots: seq<Option<nat>>)
  {
    && !s'.Activating(path) && Copied(s, s', path, facts, slots)
    && if facts == [] then s' == s else OnlyJournal(s, s', path)
  }

  lemma ListStep(s: StoreState, mid: StoreState, path: ActorPath, facts: seq<ScannedEvent>,
                 slots: seq<Option<nat>>, fact: ScannedEvent)
    requires ListFits(s, mid, path, facts, slots)
    ensures var (s', slot) := mid.CatchUp(path, fact); ListFits(s, s', path, facts + [fact], slots + [slot])
  {
    var (s', slot) := mid.CatchUp(path, fact);
    CopiedCounts(s, mid, path, facts, slots);
    FactGrows(mid, path, fact);
    CopiedOneMore(s, mid, s', path, facts, fact, slots, slot);
    OnlyJournalTwice(s, mid, s', path);
  }

  lemma {:induction false} ListIsCopied(s: StoreState, path: ActorPath, facts: seq<ScannedEvent>)
    requires !s.Activating(path)
    requires s.Buffer(path).journal.eventCount == |s.Buffer(path).journal.Events()|
    ensures var (s', slots) := CatchUpEach(s, path, facts); ListFits(s, s', path, facts, slots)
    decreases |facts|
  {
    if facts == [] {
      NothingCopied(s, path);
    } else {
      var n := |facts| - 1;
      ListIsCopied(s, path, facts[..n]);
      var (mid, slots) := CatchUpEach(s, path, facts[..n]);
      ListStep(s, mid, path, facts[..n], slots, facts[n]);
      assert facts == facts[..n] + [facts[n]];
    }
  }

  lemma CopiedCounts(s: StoreState, s': StoreState, path: ActorPath, facts: seq<ScannedEvent>, slots: seq<Option<nat>>)
    requires Copied(s, s', path, facts, slots)
    ensures s'.Buffer(path).journal.eventCount == |s'.Buffer(path).journal.Events()|
    ensures (forall k :: 0 <= k < |slots| ==> slots[k] == None) ==>
              && s'.Buffer(path).journal.Events() == s.Buffer(path).journal.Events()
              && s'.nextIngest == s.nextIngest
  {
    var first, events := |s.Buffer(path).journal.Events()|, s'.Buffer(path).journal.Events();
    if |events| > first { assert Some(first) in slots; }
  }

  /** Catching up the same list again fills no slot and journals nothing. */
  lemma SecondListFillsNothing(s: StoreState, path: ActorPath, facts: seq<ScannedEvent>)
    requires !s.Activating(path)
    requires s.Buffer(path).journal.eventCount == |s.Buffer(path).journal.Events()|
    ensures var once := CatchUpEach(s, path, facts).0;
            var (twice, slots) := CatchUpEach(once, path, facts);
            && (forall k :: 0 <= k < |slots| ==> slots[k] == None)
            && twice.Buffer(path).journal.Events() == once.Buffer(path).journal.Events()
            && twice.nextIngest == once.nextIngest
  {
    var (once, first) := CatchUpEach(s, path, facts);
    ListIsCopied(s, path, facts);
    CopiedCounts(s, once, path, facts, first);
    var (twice, slots) := CatchUpEach(once, path, facts);
    ListIsCopied(once, path, facts);
    NoneIsNews(s, path, facts);
    CopiedCounts(once, twice, path, facts, slots);
  }

  lemma NoneIsNews(s: StoreState, path: ActorPath, facts: seq<ScannedEvent>)
    requires !s.Activating(path)
    ensures var once := CatchUpEach(s, path, facts).0;
            forall k :: 0 <= k < |CatchUpEach(once, path, facts).1| ==> CatchUpEach(once, path, facts).1[k] == None
  {
    var once := CatchUpEach(s, path, facts).0;
    NewsAfterList(s, path, facts, "", 0);
    SlotsFilledOnce(once, path, facts);
    var slots := CatchUpEach(once, path, facts).1;
    forall k | 0 <= k < |slots| ensures slots[k] == None {
      NewsAfterList(s, path, facts, facts[k].journal, facts[k].seqNo);
      assert FilledIff(once, path, facts, k, slots[k]);
    }
  }

  // ---- Beside the in-memory store ----

  /** The world after both stores took the list. */
  ghost function Both(w: World, path: ActorPath, facts: seq<ScannedEvent>): World {
    w.(store := CatchUpEach(w.store, path, facts).0, spec := w.spec.CatchUpAll(path, facts).0)
  }

  lemma OneFactKeepsInv(w: World, p: ActorPath, fact: ScannedEvent)
    requires Inv(w) && Writable(w, p) && !w.store.Activating(p)
    ensures var w' := w.(store := w.store.CatchUp(p, fact).0, spec := w.spec.CatchUp(p, fact).0);
            Inv(w') && Writable(w', p) && !w'.store.Activating(p)
    ensures w.store.CatchUp(p, fact).1 == w.spec.CatchUp(p, fact).1
  {
    CatchUpAgrees(w, p, fact);
    if HoldsOrigin(w.spec.Of(p).Events(), fact.journal, fact.seqNo) {
      CatchUpLookKeepsInv(w, p, fact);
    } else {
      CheckpointKeepsInv(w, p, fact);
    }
  }

  lemma OneFactList(w: World, p: ActorPath, fact: ScannedEvent)
    ensures Both(w, p, [fact]) == w.(store := w.store.CatchUp(p, fact).0, spec := w.spec.CatchUp(p, fact).0)
    ensures CatchUpEach(w.store, p, [fact]).1 == [w.store.CatchUp(p, fact).1]
    ensures w.spec.CatchUpAll(p, [fact]).1 == [w.spec.CatchUp(p, fact).1]
  {
    BegunCatchUp(w.spec, p, fact);
    assert [fact][..0] == [];
    assert CatchUpEach(w.store, p, []) == (w.store, []);
    assert w.spec.CatchUpAll(p, []) == (w.spec.Begin(p), []);
  }

  lemma OneMoreFact(w: World, p: ActorPath, facts: seq<ScannedEvent>)
    requires facts != []
    ensures var n := |facts| - 1;
            var mid := Both(w, p, facts[..n]);
            && Both(w, p, facts) ==
               mid.(store := mid.store.CatchUp(p, facts[n]).0, spec := mid.spec.CatchUp(p, facts[n]).0)
            && CatchUpEach(w.store, p, facts).1 ==
               CatchUpEach(w.store, p, facts[..n]).1 + [mid.store.CatchUp(p, facts[n]).1]
            && w.spec.CatchUpAll(p, facts).1 == w.spec.CatchUpAll(p, facts[..n]).1 + [mid.spec.CatchUp(p, facts[n]).1]
  {
  }

  /** Both stores fill the same slots with the same numbers and stay aligned. */
  lemma {:induction false} ListsAgree(w: World, p: ActorPath, facts: seq<ScannedEvent>)
    requires Inv(w) && Writable(w, p) && !w.store.Activating(p) && facts != []
    ensures Inv(Both(w, p, facts)) && Writable(Both(w, p, facts), p) && !Both(w, p, facts).store.Activating(p)
    ensures CatchUpEach(w.store, p, facts).1 == w.spec.CatchUpAll(p, facts).1
    decreases |facts|
  {
    var n := |facts| - 1;
    if n == 0 {
      assert facts == [facts[0]];
      OneFactList(w, p, facts[0]);
      OneFactKeepsInv(w, p, facts[0]);
    } else {
      ListsAgree(w, p, facts[..n]);
      OneMoreFact(w, p, facts);
      OneFactKeepsInv(Both(w, p, facts[..n]), p, facts[n]);
    }
  }

  /** A list begins by opening the journal its first fact opens anyway. */
  lemma BegunCatchUp(s: MemStore, p: ActorPath, fact: ScannedEvent)
    ensures s.Begin(p).CatchUp(p, fact) == s.CatchUp(p, fact)
  {
    var after := s.CatchUp(p, fact).0.journals;
    assert s.Begin(p).Of(p) == s.Of(p);
    assert s.journals[p := s.Of(p)][p := after[p]] == s.journals[p := after[p]];
  }
}
