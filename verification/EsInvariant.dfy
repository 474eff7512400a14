/** Every sound move keeps the event-sourced machine's invariant. */
module EsInvariant {
  import opened Wrappers
  import opened Journals
  import opened Inboxes
  import L = InboxLedger
  import opened EsActors
  import opened EsMachine

  // ---- The ledger's part ----

  lemma MailIsClaimed(l: L.Ledger)
    requires L.Inv(l)
    ensures forall i :: 0 <= i < |l.claims| ==>
              l.claims[i].offset < |l.accepted| && l.claims[i].envelope == l.accepted[l.claims[i].offset]
  {
  }

  lemma TakeKeepsThePast(l: L.Ledger, n: nat)
    requires L.Inv(l) && L.Legal(l, L.Take(n))
    ensures var l' := L.Apply(l, L.Take(n));
            L.Inv(l') && l'.committed == l.committed && l'.accepted == l.accepted
  {
    L.TakeKeepsInv(l, n);
  }

  predicate FromOutside(m: L.Move) { m.Push? || m.Close? || m.Reopen? || m.Stop? }

  /** Mail and stops leave the claims alone; the accepted mail only grows. */
  lemma PostKeepsClaims(l: L.Ledger, m: L.Move)
    requires FromOutside(m) && L.Legal(l, m)
    ensures var l' := L.Apply(l, m);
            l'.claims == l.claims && l'.committed == l.committed && l.accepted <= l'.accepted
  {
  }

  lemma CommitNextCommitsOne(l: L.Ledger)
    requires L.CanCommitAll(l) && l.claims != []
    ensures L.Legal(l, L.CommitNext)
    ensures var next := L.Apply(l, L.CommitNext);
            && L.CanCommitAll(next)
            && next.claims == l.claims[1..] && next.accepted == l.accepted
            && next.committed == l.committed + [l.claims[0].offset]
  {
  }

  lemma OffsetsUncons(claims: seq<Claim>)
    requires claims != []
    ensures L.OffsetsOf(claims) == [claims[0].offset] + L.OffsetsOf(claims[1..])
  {
  }

  ghost predicate CommitsAll(l: L.Ledger, l': L.Ledger) {
    && l'.claims == [] && l'.accepted == l.accepted
    && l'.committed == l.committed + L.OffsetsOf(l.claims)
  }

  lemma CommitsOneMore(l: L.Ledger, next: L.Ledger, l': L.Ledger)
    requires l.claims != [] && next.claims == l.claims[1..] && next.accepted == l.accepted
    requires next.committed == l.committed + [l.claims[0].offset]
    requires CommitsAll(next, l')
    ensures CommitsAll(l, l')
  {
    OffsetsUncons(l.claims);
    SeqAssoc(l.committed, [l.claims[0].offset], L.OffsetsOf(next.claims));
  }

  lemma SeqAssoc(a: seq<nat>, b: seq<nat>, c: seq<nat>)
    ensures (a + b) + c == a + (b + c)
  {
  }

  lemma {:induction false} CommitAllCommits(l: L.Ledger)
    requires L.CanCommitAll(l)
    ensures CommitsAll(l, CommitAll(l))
    decreases |l.claims|
  {
    if l.claims != [] {
      CommitNextCommitsOne(l);
      var next := L.Apply(l, L.CommitNext);
      CommitAllCommits(next);
      CommitsOneMore(l, next, CommitAll(next));
    }
  }

  lemma {:induction false} CommitAllKeepsInv(l: L.Ledger)
    requires L.Inv(l) && L.CanCommitAll(l)
    ensures L.Inv(CommitAll(l))
    decreases |l.claims|
  {
    if l.claims != [] {
      L.CommitKeepsInv(l);
      CommitAllKeepsInv(L.Apply(l, L.CommitNext));
    }
  }

  // ---- The journal's part ----

  lemma AppendedHistory<S>(a: Actor<S>, log: seq<Batch>, b: Batch, past: seq<Event>, recorded: seq<Event>)
    requires HistoryOk(a, log, past) && b.base == |past|
    requires BatchOk(a, b, Fold(a, a.genesis, past), recorded)
    ensures HistoryOk(a, log + [b], past + recorded)
  {
    assert (log + [b])[..|log|] == log;
    assert (past + recorded)[..|past|] == past && (past + recorded)[|past|..] == recorded;
  }

  /** Appending events to a journal leaves its latest snapshot replaying. */
  lemma ReplaysGrows<S>(a: Actor<S>, snapshot: Snapshot, past: seq<Event>, more: seq<Event>)
    requires Replays(a, snapshot, past)
    ensures Replays(a, snapshot, past + more)
  {
    var s, tail := a.restore(snapshot.state).value, past[snapshot.seqNo + 1..];
    assert (past + more)[snapshot.seqNo + 1..] == tail + more;
    FoldConcat(a, s, tail, more);
    FoldConcat(a, a.genesis, past, more);
  }

  lemma {:induction false} PayloadsConcat(x: seq<JournaledEvent>, y: seq<JournaledEvent>)
    ensures Payloads(x + y) == Payloads(x) + Payloads(y)
  {
  }

  /** What a sound append leaves: the events recorded at the end, or nothing for a held fact. */
  ghost predicate RecordOk(j: JournalState, claims: seq<Claim>, events: seq<Event>, r: Recording) {
    && JournalFits(r.journal)
    && (r.held ==>
          && SameFact(claims)
          && HoldsOrigin(j.Events(), claims[0].envelope.stamp.value.journal, claims[0].envelope.stamp.value.seqNo))
    && Payloads(r.journal.Events()) == Payloads(j.Events()) + (if r.held then [] else events)
    && r.journal.Latest() == j.Latest()
    && j.Events() <= r.journal.Events()
    && SeqsOk(r.journal.Events(), j.eventCount, r.seqs)
  }

  lemma CheckpointShape(j: JournalState, stamp: Stamp, event: Event, ingest: nat)
    requires JournalFits(j) && j.eventCount < BEFORE_GENESIS
    ensures var grown := Checkpointed(j, stamp, event, ingest);
            && JournalFits(grown)
            && Payloads(grown.Events()) == Payloads(j.Events()) + [event]
            && grown.Latest() == j.Latest()
            && j.Events() <= grown.Events()
            && SeqsOk(grown.Events(), j.eventCount, [0])
  {
    AppendEventShape(j, event, EventOrigin.CatchUp(stamp.journal, stamp.seqNo), ingest);
    var events := Checkpointed(j, stamp, event, ingest).Events();
    assert events[j.eventCount].origin != Recorded;
  }

  lemma {:induction false} PlainEvents(before: seq<JournaledEvent>, events: seq<Event>, ingest: nat)
    requires Dense(before) && events != []
    ensures var all := before + Numbered(events, |before|, ingest);
            && Dense(all)
            && Payloads(all) == Payloads(before) + events
            && SeqsOk(all, |before|, NumbersFrom(|before|, |events|))
  {
    var added := Numbered(events, |before|, ingest);
    PayloadsConcat(before, added);
    assert Payloads(added) == events;
  }

  lemma PlainShape(j: JournalState, events: seq<Event>, ingest: nat)
    requires JournalFits(j) && j.eventCount + |events| <= BEFORE_GENESIS && events != []
    ensures var grown := j.AppendAll(events, ingest);
            && JournalFits(grown)
            && Payloads(grown.Events()) == Payloads(j.Events()) + events
            && grown.Latest() == j.Latest()
            && j.Events() <= grown.Events()
            && SeqsOk(grown.Events(), j.eventCount, NumbersFrom(j.eventCount, |events|))
  {
    AppendAllShape(j, events, ingest);
    PlainEvents(j.Events(), events, ingest);
  }

  lemma RecordShape(j: JournalState, claims: seq<Claim>, events: seq<Event>, ingest: nat)
    requires JournalFits(j) && j.eventCount + |events| <= BEFORE_GENESIS
    requires SameFact(claims) ==> AtMostOne(j, claims, events)
    ensures RecordOk(j, claims, events, Record(j, claims, events, ingest))
  {
    if events == [] {
    } else if SameFact(claims) {
      CopiesRecordOne(j, claims, events, ingest);
      if |events| == 1 {
        CheckpointShape(j, claims[0].envelope.stamp.value, events[0], ingest);
        assert events == [events[0]];
      }
    } else {
      PlainShape(j, events, ingest);
    }
  }

  lemma {:induction false} HeadIsLast(events: seq<JournaledEvent>)
    requires Dense(events)
    ensures HeadOf(events) == if events == [] then None else Some((|events| - 1) as nat)
    decreases |events|
  {
    if events != [] { HeadIsLast(events[..|events| - 1]); }
  }

  lemma WholeTail(j: JournalState)
    requires j.Latest() == None
    ensures MemReplay(j.entries) == Replay(None, Payloads(j.Events()), j.Events())
  {
    AfterIsTail(j.entries, BEFORE_GENESIS);
  }

  lemma StrictTail(j: JournalState)
    requires JournalFits(j) && j.Latest().Some? && j.Latest().value.seqNo < j.eventCount
    ensures MemReplay(j.entries) ==
            Replay(j.Latest(), Payloads(j.Events())[j.Latest().value.seqNo + 1..], j.Events())
  {
    AfterIsTail(j.entries, j.Latest().value.seqNo);
    TailIsSuffix(j.Events(), j.Latest().value.seqNo);
  }

  /** Loading a journal with a good latest snapshot rebuilds the fold of the whole journal. */
  lemma ReloadIsTheFold<S>(a: Actor<S>, j: JournalState)
    requires JournalFits(j) && SnapshotOk(a, j)
    ensures Reloaded(a, j) == Some(Fold(a, a.genesis, Payloads(j.Events())))
  {
    if j.Latest().Some? { StrictTail(j); } else { WholeTail(j); }
  }

  // ---- One move at a time, the ledger left aside ----

  lemma LogMailGrows<S>(c: Core<S>, accepted: seq<Envelope>)
    requires LogOk(c) && c.accepted <= accepted
    ensures LogOk(c.(accepted := accepted))
  {
  }

  lemma MailIsNotRead<S>(a: Actor<S>, c: Core<S>, c': Core<S>)
    requires c' == c.(accepted := c'.accepted)
    ensures c'.Past() == c.Past() && c'.Logged() == c.Logged()
    ensures ClaimsOk(c') == ClaimsOk(c) && HeadOk(c') == HeadOk(c)
    ensures LiveOk(a, c') == LiveOk(a, c) && DecidedOk(a, c') == DecidedOk(a, c)
  {
  }

  lemma MoreMail<S>(a: Actor<S>, c: Core<S>, c': Core<S>)
    requires CoreOk(a, c) && c' == c.(accepted := c'.accepted) && c.accepted <= c'.accepted
    ensures CoreOk(a, c')
  {
    MailIsNotRead(a, c, c');
    LogMailGrows(c, c'.accepted);
  }

  /** Before the append the claims may go: the step comes to rest or is down. */
  lemma ClaimsGo<S>(a: Actor<S>, c: Core<S>, poison: S)
    requires CoreOk(a, c) && (c.phase.Claimed? || c.phase.Decided?)
    ensures CoreOk(a, c.(claims := [], live := poison, phase := Down))
  {
  }

  lemma AppendHead<S>(a: Actor<S>, c: Core<S>, r: Recording, recorded: seq<Event>, batch: Batch)
    requires CoreOk(a, c) && c.phase.Decided? && batch.base == c.journal.eventCount
    requires c.journal.Events() <= r.journal.Events()
    requires SeqsOk(r.journal.Events(), c.journal.eventCount, r.seqs)
    ensures HeadOk(c.(journal := r.journal, phase := Appended(batch, recorded, r.seqs)))
  {
    assert r.journal.Events()[..c.journal.eventCount] == c.journal.Events();
    assert c.journal.Events()[..c.journal.eventCount] == c.journal.Events();
  }

  lemma AppendHistory<S>(a: Actor<S>, c: Core<S>, held: bool, recorded: seq<Event>)
    requires CoreOk(a, c) && c.phase.Decided? && (held ==> SameFact(c.claims))
    requires recorded == if held then [] else c.phase.events
    ensures HistoryOk(a, c.log + [Batch(c.claims, c.phase.views, c.journal.eventCount, !held)], c.Past() + recorded)
  {
    AppendedHistory(a, c.log, Batch(c.claims, c.phase.views, c.journal.eventCount, !held), c.Past(), recorded);
  }

  lemma AppendSnapshotOk<S>(a: Actor<S>, j: JournalState, grown: JournalState, recorded: seq<Event>)
    requires SnapshotOk(a, j) && grown.Latest() == j.Latest()
    requires Payloads(grown.Events()) == Payloads(j.Events()) + recorded
    ensures SnapshotOk(a, grown)
  {
    if j.Latest().Some? {
      ReplaysGrows(a, j.Latest().value, Payloads(j.Events()), recorded);
    }
  }

  lemma AppendLive<S>(a: Actor<S>, c: Core<S>, c': Core<S>)
    requires c.phase.Decided? && LiveOk(a, c) && c'.live == c.live
    requires c'.phase.Appended? && c'.phase.batch.base == |c.Past()|
    requires c'.Past() == c.Past() + c'.phase.recorded
    ensures LiveOk(a, c')
  {
    assert c'.Past()[..|c.Past()|] == c.Past() && c'.Past()[|c.Past()|..] == c'.phase.recorded;
  }

  lemma HeldGrows(log: seq<Batch>, b: Batch, before: seq<JournaledEvent>, after: seq<JournaledEvent>)
    requires HeldOk(log, before) && before <= after && b.base == |before|
    requires !b.recorded ==>
               && SameFact(b.claims)
               && HoldsOrigin(before, b.claims[0].envelope.stamp.value.journal, b.claims[0].envelope.stamp.value.seqNo)
    ensures HeldOk(log + [b], after)
  {
    forall k | 0 <= k < |log + [b]| && !(log + [b])[k].recorded ensures FactHeld((log + [b])[k], after) {
      if k < |log| {
        assert FactHeld(log[k], before);
        assert after[..log[k].base] == before[..log[k].base];
      } else {
        assert after[..b.base] == before;
      }
    }
  }

  lemma AppendStep<S>(a: Actor<S>, c: Core<S>, r: Recording, recorded: seq<Event>, batch: Batch)
    requires CoreOk(a, c) && c.phase.Decided? && RecordOk(c.journal, c.claims, c.phase.events, r)
    requires batch == Batch(c.claims, c.phase.views, c.journal.eventCount, !r.held)
    requires recorded == if r.held then [] else c.phase.events
    ensures CoreOk(a, c.(journal := r.journal, phase := Appended(batch, recorded, r.seqs)))
  {
    var c' := c.(journal := r.journal, phase := Appended(batch, recorded, r.seqs));
    assert HistoryOk(a, c'.Logged(), c'.Past()) by { AppendHistory(a, c, r.held, recorded); }
    assert HeldOk(c'.Logged(), r.journal.Events()) by {
      HeldGrows(c.log, batch, c.journal.Events(), r.journal.Events());
    }
    assert HeadOk(c') by { AppendHead(a, c, r, recorded, batch); }
    assert SnapshotOk(a, r.journal) by { AppendSnapshotOk(a, c.journal, r.journal, recorded); }
    assert LiveOk(a, c') by { AppendLive(a, c, c'); }
  }

  lemma LogOffsetsGrow(log: seq<Batch>, b: Batch)
    ensures LogOffsets(log + [b]) == LogOffsets(log) + L.OffsetsOf(b.claims)
  {
    assert (log + [b])[..|log|] == log;
  }

  function Committed<S>(c: Core<S>): Core<S>
    requires c.phase.Appended?
  {
    c.(claims := [], committed := c.committed + L.OffsetsOf(c.claims),
       lastSeq := if c.phase.seqs == [] then c.lastSeq else Some(c.phase.seqs[|c.phase.seqs| - 1]),
       log := c.log + [c.phase.batch],
       phase := if c.phase.recorded == [] then AtRest else Applying(c.phase.recorded))
  }

  lemma CommitLog<S>(a: Actor<S>, c: Core<S>)
    requires c.phase.Appended? && ClaimsOk(c) && LogOk(c)
    ensures LogOk(Committed(c))
  {
    var b := c.phase.batch;
    assert (c.log + [b])[c.born..] == c.log[c.born..] + [b];
    LogOffsetsGrow(c.log[c.born..], b);
  }

  lemma CommitHead<S>(c: Core<S>)
    requires c.phase.Appended? && HeadOk(c)
    ensures HeadOk(Committed(c))
  {
    var events := c.journal.Events();
    assert events[..|events|] == events;
  }

  lemma CommitLive<S>(a: Actor<S>, c: Core<S>)
    requires c.phase.Appended? && LiveOk(a, c)
    ensures LiveOk(a, Committed(c))
  {
    var past := c.Past();
    assert c.phase.recorded == [] ==> past[..c.phase.batch.base] == past;
  }

  lemma CommitStep<S>(a: Actor<S>, c: Core<S>)
    requires CoreOk(a, c) && c.phase.Appended?
    ensures CoreOk(a, Committed(c))
  {
    var c' := Committed(c);
    assert LogOk(c') by { CommitLog(a, c); }
    assert HeadOk(c') by { CommitHead(c); }
    assert LiveOk(a, c') by { CommitLive(a, c); }
    assert c'.Past() == c.Past() && c'.Logged() == c.Logged();
  }

  lemma ApplyStep<S>(a: Actor<S>, c: Core<S>)
    requires CoreOk(a, c) && c.phase.Applying?
    ensures CoreOk(a, c.(live := Fold(a, c.live, c.phase.committed), phase := AtRest))
  {
    FoldSplit(a, a.genesis, c.Past(), |c.Past()| - |c.phase.committed|);
  }

  lemma SnapshotStep<S>(a: Actor<S>, c: Core<S>, anchor: nat, state: Json, nowMs: nat)
    requires CoreOk(a, c) && c.phase.AtRest?
    requires Replays(a, Snapshot(anchor, state), c.Past())
    ensures CoreOk(a, c.(journal := c.journal.AppendSnapshot(anchor, state, nowMs)))
  {
    AppendSnapshotShape(c.journal, anchor, state, nowMs);
  }

  lemma RebuiltStep<S>(a: Actor<S>, c: Core<S>)
    requires CoreOk(a, c) && c.phase.Down?
    ensures CoreOk(a, c.(live := Fold(a, a.genesis, c.Past()), phase := AtRest, lastSeq := HeadOf(c.journal.Events())))
  {
    HeadIsLast(c.journal.Events());
  }

  // ---- One move at a time ----

  /** The loop's own inbox calls never panic. */
  lemma LoopNeverPanics<S>(a: Actor<S>, w: World<S>)
    requires Inv(a, w)
    ensures L.CanGiveBack(w.ledger) && L.CanCommitAll(w.ledger)
    ensures w.phase.AtRest? && !w.ledger.stopped ==> forall n :: L.Legal(w.ledger, L.Take(n))
  {
    if !w.ledger.stopped { L.RestoreNeverPanics(w.ledger); }
  }

  lemma PostKeepsInv<S>(a: Actor<S>, w: World<S>, m: L.Move)
    requires Inv(a, w) && Legal(w, Post(m))
    ensures Inv(a, Next(a, w, Post(m)))
  {
    PostKeepsClaims(w.ledger, m);
    L.ApplyKeepsInv(w.ledger, m);
    MoreMail(a, CoreOf(w), CoreOf(Next(a, w, Post(m))));
  }

  lemma TakeKeepsInv<S>(a: Actor<S>, w: World<S>, n: nat)
    requires Inv(a, w) && Legal(w, Take(n))
    ensures Inv(a, Next(a, w, Take(n)))
  {
    TakeKeepsThePast(w.ledger, n);
    MailIsClaimed(L.Apply(w.ledger, L.Take(n)));
  }

  lemma CrashKeepsInv<S>(a: Actor<S>, w: World<S>, poison: S)
    requires Inv(a, w) && (w.phase.Claimed? || w.phase.Decided?) && L.CanGiveBack(w.ledger)
    ensures Inv(a, Crash(w, poison))
  {
    L.GiveBackKeepsThePast(w.ledger);
    L.GiveBackKeepsInv(w.ledger);
    ClaimsGo(a, CoreOf(w), poison);
  }

  lemma DecidedStep<S>(a: Actor<S>, c: Core<S>, views: nat -> Json)
    requires CoreOk(a, c) && c.phase.Claimed? && !DecideAll(a, c.live, c.claims, views).crashed
    ensures CoreOk(a, c.(phase := Decided(views, Declared(DecideAll(a, c.live, c.claims, views).events, a.emits))))
  {
  }

  lemma DecideKeepsInv<S>(a: Actor<S>, w: World<S>, views: nat -> Json, poison: S)
    requires Inv(a, w) && Legal(w, Decide(views, poison))
    ensures Inv(a, Next(a, w, Decide(views, poison)))
  {
    var pass := DecideAll(a, w.live, w.ledger.claims, views);
    var w' := w.(letters := w.letters + pass.rejected);
    assert CoreOf(w') == CoreOf(w);
    if pass.crashed {
      CrashKeepsInv(a, w', poison);
    } else {
      DecidedStep(a, CoreOf(w), views);
    }
  }

  lemma AppendKeepsInv<S>(a: Actor<S>, w: World<S>, ok: bool, ingest: nat)
    requires Inv(a, w) && Legal(w, Append(ok, ingest)) && Sound(a, w, Append(ok, ingest))
    ensures Inv(a, Next(a, w, Append(ok, ingest)))
  {
    if !ok {
      CrashKeepsInv(a, w, w.live);
    } else {
      RecordShape(w.journal, w.ledger.claims, w.phase.events, ingest);
      var phase := AfterAppend(w, ok, ingest).phase;
      AppendStep(a, CoreOf(w), Record(w.journal, w.ledger.claims, w.phase.events, ingest), phase.recorded, phase.batch);
    }
  }

  lemma CommitCore<S>(w: World<S>)
    requires w.phase.Appended? && L.CanCommitAll(w.ledger)
    ensures CoreOf(AfterCommit(w)) == Committed(CoreOf(w))
  {
    CommitAllCommits(w.ledger);
  }

  lemma CommitKeepsCore<S>(a: Actor<S>, w: World<S>)
    requires CoreOk(a, CoreOf(w)) && w.phase.Appended? && L.CanCommitAll(w.ledger)
    ensures CoreOk(a, CoreOf(AfterCommit(w)))
  {
    CommitCore(w);
    CommitStep(a, CoreOf(w));
  }

  lemma CommitKeepsInv<S>(a: Actor<S>, w: World<S>)
    requires Inv(a, w) && Legal(w, Commit)
    ensures Inv(a, Next(a, w, Commit))
  {
    CommitKeepsCore(a, w);
    CommitAllKeepsInv(w.ledger);
  }

  lemma GuardMeansReplays<S>(a: Actor<S>, live: S, state: Json, anchor: nat, past: seq<Event>)
    requires a.restore(state) == Some(live) && live == Fold(a, a.genesis, past)
    requires anchor < |past| && Fold(a, live, past[anchor + 1..]) == live
    ensures Replays(a, Snapshot(anchor, state), past)
  {
  }

  lemma RestIsLive<S>(a: Actor<S>, c: Core<S>)
    requires LiveOk(a, c) && c.phase.AtRest?
    ensures c.live == Fold(a, a.genesis, c.Past())
  {
  }

  lemma SnapshotCore<S>(a: Actor<S>, w: World<S>, anchor: nat, nowMs: nat, ok: bool)
    ensures CoreOf(AfterSnapshot(a, w, anchor, nowMs, ok)) ==
            if ok && a.capture(w.live).Some?
            then CoreOf(w).(journal := w.journal.AppendSnapshot(anchor, a.capture(w.live).value, nowMs))
            else CoreOf(w)
  {
  }

  lemma SnapshotKeepsCore<S>(a: Actor<S>, c: Core<S>, anchor: nat, state: Json, nowMs: nat)
    requires CoreOk(a, c) && c.phase.AtRest? && a.restore(state) == Some(c.live)
    requires anchor < |c.Past()| && Fold(a, c.live, c.Past()[anchor + 1..]) == c.live
    ensures CoreOk(a, c.(journal := c.journal.AppendSnapshot(anchor, state, nowMs)))
  {
    RestIsLive(a, c);
    GuardMeansReplays(a, c.live, state, anchor, c.Past());
    SnapshotStep(a, c, anchor, state, nowMs);
  }

  lemma SnapshotGuards<S(!new)>(a: Actor<S>, w: World<S>, anchor: nat, nowMs: nat, ok: bool)
    requires RoundTrips(a)
    requires Legal(w, TakeSnapshot(anchor, nowMs, ok)) && Sound(a, w, TakeSnapshot(anchor, nowMs, ok))
    ensures var c := CoreOf(w);
            && c.phase.AtRest? && c.live == w.live && c.journal == w.journal
            && anchor < |c.Past()| && Fold(a, c.live, c.Past()[anchor + 1..]) == c.live
    ensures a.capture(w.live).Some? ==> a.restore(a.capture(w.live).value) == Some(w.live)
  {
  }

  lemma SnapshotKeepsInv<S(!new)>(a: Actor<S>, w: World<S>, anchor: nat, nowMs: nat, ok: bool)
    requires Inv(a, w) && RoundTrips(a)
    requires Legal(w, TakeSnapshot(anchor, nowMs, ok)) && Sound(a, w, TakeSnapshot(anchor, nowMs, ok))
    ensures Inv(a, Next(a, w, TakeSnapshot(anchor, nowMs, ok)))
  {
    SnapshotGuards(a, w, anchor, nowMs, ok);
    SnapshotCore(a, w, anchor, nowMs, ok);
    var w' := AfterSnapshot(a, w, anchor, nowMs, ok);
    assert w'.ledger == w.ledger;
    assert CoreOk(a, CoreOf(w')) by {
      if ok && a.capture(w.live).Some? {
        SnapshotKeepsCore(a, CoreOf(w), anchor, a.capture(w.live).value, nowMs);
      }
    }
  }

  lemma RestartKeepsInv<S>(a: Actor<S>, w: World<S>, loaded: bool)
    requires Inv(a, w) && Legal(w, Restart(loaded))
    ensures Inv(a, Next(a, w, Restart(loaded)))
  {
    ReloadIsTheFold(a, w.journal);
    RebuiltStep(a, CoreOf(w));
  }

  /** A new incarnation over an old journal, the log's batches all behind it. */
  lemma RebornCore<S>(a: Actor<S>, j: JournalState, live: S, log: seq<Batch>)
    requires JournalFits(j) && SnapshotOk(a, j) && HeldOk(log, j.Events())
    requires HistoryOk(a, log, Payloads(j.Events())) && live == Fold(a, a.genesis, Payloads(j.Events()))
    ensures CoreOk(a, Core([], [], [], j, live, AtRest, None, log, |log|))
  {
    assert log[|log|..] == [];
  }

  /** A history's batches without the one in flight are still its batches. */
  lemma LoggedAtRest<S>(c: Core<S>)
    requires c.phase.AtRest? || c.phase.Down?
    ensures c.Logged() == c.log
  {
  }

  lemma BootKeepsInv<S>(a: Actor<S>, w: World<S>, capacity: nat, policy: OverloadPolicy)
    requires Inv(a, w) && Legal(w, Boot(capacity, policy, true))
    ensures Inv(a, Next(a, w, Boot(capacity, policy, true)))
  {
    ReloadIsTheFold(a, w.journal);
    LoggedAtRest(CoreOf(w));
    L.RunsKeepInv(capacity, policy, []);
    RebornCore(a, w.journal, Fold(a, a.genesis, CoreOf(w).Past()), w.log);
  }

  lemma NextKeepsInv<S(!new)>(a: Actor<S>, w: World<S>, move: Move<S>)
    requires Inv(a, w) && RoundTrips(a) && Legal(w, move) && Sound(a, w, move)
    ensures Inv(a, Next(a, w, move))
  {
    match move {
      case Post(m) => PostKeepsInv(a, w, m);
      case Take(n) => TakeKeepsInv(a, w, n);
      case Decide(views, poison) => DecideKeepsInv(a, w, views, poison);
      case Append(ok, ingest) => AppendKeepsInv(a, w, ok, ingest);
      case Commit => CommitKeepsInv(a, w);
      case Apply => ApplyStep(a, CoreOf(w));
      case TakeSnapshot(anchor, nowMs, ok) => SnapshotKeepsInv(a, w, anchor, nowMs, ok);
      case Restart(loaded) => RestartKeepsInv(a, w, loaded);
      case Boot(capacity, policy, loaded) => BootKeepsInv(a, w, capacity, policy);
    }
  }

  // ---- Every run ----

  /** A run the code can take. */
  ghost predicate LegalRun<S(!new)>(a: Actor<S>, w: World<S>, moves: seq<Move<S>>)
    decreases |moves|, 0
  {
    moves == [] ||
    var n := |moves| - 1;
    LegalRun(a, w, moves[..n]) && Legal(Run(a, w, moves[..n]), moves[n])
  }

  ghost function Run<S(!new)>(a: Actor<S>, w: World<S>, moves: seq<Move<S>>): World<S>
    requires LegalRun(a, w, moves)
    decreases |moves|, 1
  {
    if moves == [] then w
    else
      var n := |moves| - 1;
      Next(a, Run(a, w, moves[..n]), moves[n])
  }

  ghost predicate AllSound<S(!new)>(a: Actor<S>, w: World<S>, moves: seq<Move<S>>)
    requires LegalRun(a, w, moves)
    decreases |moves|
  {
    moves == [] ||
    var n := |moves| - 1;
    AllSound(a, w, moves[..n]) && Sound(a, Run(a, w, moves[..n]), moves[n])
  }

  /** A legal run every move of which meets its guard. */
  ghost predicate SoundRun<S(!new)>(a: Actor<S>, w: World<S>, moves: seq<Move<S>>) {
    LegalRun(a, w, moves) && AllSound(a, w, moves)
  }

  lemma StartOk<S>(a: Actor<S>, capacity: nat, policy: OverloadPolicy)
    ensures Inv(a, Start(a, capacity, policy))
  {
    L.RunsKeepInv(capacity, policy, []);
  }

  lemma {:induction false} RunsKeepInv<S(!new)>(a: Actor<S>, capacity: nat, policy: OverloadPolicy,
                                                moves: seq<Move<S>>)
    requires RoundTrips(a) && SoundRun(a, Start(a, capacity, policy), moves)
    ensures Inv(a, Run(a, Start(a, capacity, policy), moves))
    decreases |moves|
  {
    StartOk(a, capacity, policy);
    if moves != [] {
      var n := |moves| - 1;
      RunsKeepInv(a, capacity, policy, moves[..n]);
      NextKeepsInv(a, Run(a, Start(a, capacity, policy), moves[..n]), moves[n]);
    }
  }
}
