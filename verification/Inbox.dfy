/**
 One actor's inbox (src/inbox.rs): a queue under a monotonic offset space, four overload
 policies, and claims that move envelopes out and leave tombstones in their slots.

 `InboxState` is the inbox as a value; the class `Inbox` changes it in place.
 */
module Inboxes {
  import opened Wrappers
  import opened Journals

  datatype OverloadPolicy = Block | DropNew | DropOld | Unbounded

  /** The journal position a stamped copy of a recorded fact carries. */
  datatype Stamp = Stamp(journal: ActorPath, seqNo: nat)

  datatype Envelope = Envelope(schema: SchemaId, payload: string, stamp: Option<Stamp>)

  /** A queue slot; `None` is a claim tombstone. */
  datatype Slot = Slot(offset: nat, envelope: Option<Envelope>)

  datatype Claim = Claim(offset: nat, envelope: Envelope)

  datatype PushResult =
    | Queued(offset: nat)
    | Full(refused: Envelope)
    | Evicted(evicted: Envelope)
    | Closed(late: Envelope)

  datatype InboxState = InboxState(
    capacity: nat, policy: OverloadPolicy, nextOffset: nat, cursor: nat, queue: seq<Slot>, isOpen: bool)
  {
    /** Offsets strictly increase between the cursor and the write head. */
    ghost predicate Sane() {
      && capacity >= 1 && cursor <= nextOffset
      && (forall i :: 0 <= i < |queue| ==> cursor <= queue[i].offset < nextOffset)
      && (forall i, k :: 0 <= i < k < |queue| ==> queue[i].offset < queue[k].offset)
    }

    predicate AtCapacity() {
      policy != Unbounded && |queue| >= capacity
    }

    /** Evicting a claim tombstone panics. */
    predicate CanPush() {
      isOpen && policy == DropOld && AtCapacity() && queue != [] ==> queue[0].envelope.Some?
    }

    function Enqueue(envelope: Envelope): InboxState {
      this.(nextOffset := nextOffset + 1, queue := queue + [Slot(nextOffset, Some(envelope))])
    }

    function Push(envelope: Envelope): (InboxState, PushResult)
      requires CanPush()
    {
      if !isOpen then (this, Closed(envelope))
      else if !AtCapacity() then (Enqueue(envelope), Queued(nextOffset))
      else if policy != DropOld then (this, Full(envelope))
      else if queue == [] then (Enqueue(envelope), Queued(nextOffset))
      else
        (this.(queue := queue[1..], cursor := cursor + 1).Enqueue(envelope), Evicted(queue[0].envelope.value))
    }

    /** How many slots from the front, at most `n`, carry consecutive offsets from the cursor. */
    function Run(n: nat): (k: nat)
      ensures k <= n && k <= |queue|
      ensures forall i :: 0 <= i < k ==> queue[i].offset == cursor + i
      ensures k < n && k < |queue| ==> queue[k].offset != cursor + k
    {
      if n == 0 then 0
      else
        var k := Run(n - 1);
        if k == n - 1 && k < |queue| && queue[k].offset == cursor + k then n else k
    }

    /** Claiming meets no tombstone in the run. */
    predicate CanClaim(n: nat) {
      forall i :: 0 <= i < Run(n) ==> queue[i].envelope.Some?
    }

    function ClaimUpTo(n: nat): (InboxState, seq<Claim>)
      requires CanClaim(n)
    {
      var k := Run(n);
      (this.(queue := Tombstones(queue[..k]) + queue[k..]),
       seq(k, i requires 0 <= i < k => Claim(queue[i].offset, queue[i].envelope.value)))
    }

    predicate CanCommit(offset: nat) { offset < nextOffset }

    function CommitThrough(offset: nat): InboxState
      requires CanCommit(offset)
    {
      this.(queue := DropThrough(queue, offset), cursor := offset + 1)
    }

    /** Every claim's slot is queued as a tombstone at or after the cursor. */
    predicate CanRestore(claims: seq<Claim>) {
      && (forall c :: 0 <= c < |claims| ==>
            cursor <= claims[c].offset && Slot(claims[c].offset, None) in queue)
      && (forall c, d :: 0 <= c < d < |claims| ==> claims[c].offset != claims[d].offset)
    }

    function RestoreClaims(claims: seq<Claim>): InboxState
      decreases |claims|
    {
      if claims == [] then this
      else
        var n := |claims| - 1;
        var before := RestoreClaims(claims[..n]);
        before.(queue := PutBack(before.queue, claims[n]))
    }

    /** The shutdown flush: live envelopes leave, tombstones stay. */
    function DrainLive(): (InboxState, seq<Envelope>) {
      (this.(queue := OnlyTombstones(queue)), LiveOf(queue))
    }
  }

  function NewInbox(capacity: nat, policy: OverloadPolicy): InboxState {
    InboxState(if capacity >= 1 then capacity else 1, policy, 0, 0, [], true)
  }

  function Tombstones(slots: seq<Slot>): (r: seq<Slot>)
    ensures |r| == |slots|
    ensures forall i :: 0 <= i < |r| ==> r[i] == Slot(slots[i].offset, None)
  {
    seq(|slots|, i requires 0 <= i < |slots| => Slot(slots[i].offset, None))
  }

  function DropThrough(slots: seq<Slot>, offset: nat): seq<Slot> {
    if slots != [] && slots[0].offset <= offset then DropThrough(slots[1..], offset) else slots
  }

  function PutBack(slots: seq<Slot>, claim: Claim): (r: seq<Slot>)
    ensures |r| == |slots|
    ensures forall i :: 0 <= i < |r| ==>
              r[i] == if slots[i].offset == claim.offset then Slot(claim.offset, Some(claim.envelope)) else slots[i]
  {
    seq(|slots|, i requires 0 <= i < |slots| =>
      if slots[i].offset == claim.offset then Slot(claim.offset, Some(claim.envelope)) else slots[i])
  }

  function OnlyTombstones(slots: seq<Slot>): seq<Slot> {
    if slots == [] then []
    else
      var n := |slots| - 1;
      OnlyTombstones(slots[..n]) + (if slots[n].envelope.None? then [slots[n]] else [])
  }

  function LiveOf(slots: seq<Slot>): seq<Envelope> {
    if slots == [] then []
    else
      var n := |slots| - 1;
      LiveOf(slots[..n]) + (if slots[n].envelope.Some? then [slots[n].envelope.value] else [])
  }

  lemma ClaimSlotBySlot(v: InboxState, n: nat, queue: seq<Slot>, batch: seq<Claim>)
    requires v.CanClaim(n) && |queue| == |v.queue| && |batch| == v.Run(n)
    requires forall k :: 0 <= k < v.Run(n) ==>
               queue[k] == Slot(v.queue[k].offset, None) &&
               batch[k] == Claim(v.queue[k].offset, v.queue[k].envelope.value)
    requires forall k :: v.Run(n) <= k < |queue| ==> queue[k] == v.queue[k]
    ensures (v.(queue := queue), batch) == v.ClaimUpTo(n)
  {
    var (after, claims) := v.ClaimUpTo(n);
    assert after.queue == queue;
    assert claims == batch;
  }

  lemma PutBackAt(slots: seq<Slot>, claim: Claim, i: nat)
    requires i < |slots| && slots[i].offset == claim.offset
    requires forall j, k :: 0 <= j < k < |slots| ==> slots[j].offset < slots[k].offset
    ensures slots[i := Slot(claim.offset, Some(claim.envelope))] == PutBack(slots, claim)
  {
  }

  lemma StillThere(slots: seq<Slot>, i: nat, put: Slot, other: Slot)
    requires i < |slots| && slots[i].offset == put.offset != other.offset && other in slots
    ensures other in slots[i := put]
  {
    var k :| 0 <= k < |slots| && slots[k] == other;
    assert slots[i := put][k] == other;
  }

  /** The inbox as the runtime holds it. */
  class Inbox {
    const capacity: nat
    const policy: OverloadPolicy
    var nextOffset: nat
    var cursor: nat
    var queue: seq<Slot>
    var isOpen: bool

    constructor (capacity: nat, policy: OverloadPolicy)
      ensures Value() == NewInbox(capacity, policy)
    {
      this.capacity := if capacity >= 1 then capacity else 1;
      this.policy := policy;
      nextOffset, cursor, queue, isOpen := 0, 0, [], true;
    }

    function Value(): InboxState
      reads this
    {
      InboxState(capacity, policy, nextOffset, cursor, queue, isOpen)
    }

    method Push(envelope: Envelope) returns (r: PushResult)
      requires Value().CanPush()
      modifies this
      ensures (Value(), r) == old(Value()).Push(envelope)
    {
      if !isOpen {
        return Closed(envelope);
      }
      if policy == Unbounded {
        QueueNext(envelope);
        return Queued(nextOffset - 1);
      }
      if |queue| >= capacity {
        if policy != DropOld {
          return Full(envelope);
        }
        if queue != [] {
          var evicted := queue[0].envelope.value;
          queue := queue[1..];
          cursor := cursor + 1;
          QueueNext(envelope);
          return Evicted(evicted);
        }
      }
      QueueNext(envelope);
      return Queued(nextOffset - 1);
    }

    method QueueNext(envelope: Envelope)
      modifies this`nextOffset, this`queue
      ensures Value() == old(Value()).Enqueue(envelope)
    {
      queue := queue + [Slot(nextOffset, Some(envelope))];
      nextOffset := nextOffset + 1;
    }

    method ClaimUpTo(n: nat) returns (batch: seq<Claim>)
      requires Value().Sane() && Value().CanClaim(n)
      modifies this`queue
      ensures (Value(), batch) == old(Value()).ClaimUpTo(n)
    {
      ghost var start, run := queue, Value().Run(n);
      batch := [];
      var i := 0;
      while i < |queue| && i != n && queue[i].offset == cursor + i
        invariant 0 <= i <= run && |queue| == |start|
        invariant forall k :: 0 <= k < i ==> queue[k] == Slot(start[k].offset, None)
        invariant forall k :: i <= k < |start| ==> queue[k] == start[k]
        invariant |batch| == i
        invariant forall k :: 0 <= k < i ==> batch[k] == Claim(start[k].offset, start[k].envelope.value)
      {
        batch := batch + [Claim(queue[i].offset, queue[i].envelope.value)];
        queue := queue[i := Slot(queue[i].offset, None)];
        i := i + 1;
      }
      assert i == run;
      ClaimSlotBySlot(old(Value()), n, queue, batch);
    }

    method FindSlot(offset: nat) returns (i: nat)
      requires exists k :: 0 <= k < |queue| && queue[k].offset == offset
      ensures i < |queue| && queue[i].offset == offset
    {
      i := 0;
      while queue[i].offset != offset
        invariant i < |queue|
        invariant exists k :: i <= k < |queue| && queue[k].offset == offset
        decreases |queue| - i
      {
        i := i + 1;
      }
    }

    /** Finds each claim's slot and puts its envelope back. */
    method RestoreClaims(claims: seq<Claim>) returns (any: bool)
      requires Value().Sane() && Value().CanRestore(claims)
      modifies this`queue
      ensures Value() == old(Value()).RestoreClaims(claims)
      ensures any <==> claims != []
    {
      any := claims != [];
      for c := 0 to |claims|
        invariant Value() == old(Value()).RestoreClaims(claims[..c])
        invariant forall i, k :: 0 <= i < k < |queue| ==> queue[i].offset < queue[k].offset
        invariant forall d :: c <= d < |claims| ==> Slot(claims[d].offset, None) in queue
      {
        assert claims[..c + 1][..c] == claims[..c];
        ghost var before := queue;
        assert Slot(claims[c].offset, None) in queue;
        var i := FindSlot(claims[c].offset);
        queue := queue[i := Slot(claims[c].offset, Some(claims[c].envelope))];
        PutBackAt(before, claims[c], i);
        forall d | c < d < |claims| ensures Slot(claims[d].offset, None) in queue {
          StillThere(before, i, queue[i], Slot(claims[d].offset, None));
        }
      }
      assert claims[..|claims|] == claims;
    }

    method CommitThrough(offset: nat) returns (popped: bool)
      requires Value().CanCommit(offset)
      modifies this`queue, this`cursor
      ensures Value() == old(Value()).CommitThrough(offset)
      ensures popped <==> old(queue) != [] && old(queue)[0].offset <= offset
    {
      popped := false;
      while queue != [] && queue[0].offset <= offset
        invariant DropThrough(queue, offset) == DropThrough(old(queue), offset) && cursor == old(cursor)
        invariant popped <==> queue != old(queue)
        invariant popped ==> old(queue) != [] && old(queue)[0].offset <= offset
        invariant |queue| <= |old(queue)|
        decreases |queue|
      {
        queue := queue[1..];
        popped := true;
      }
      cursor := offset + 1;
    }

    method DrainLive() returns (drained: seq<Envelope>)
      modifies this`queue
      ensures (Value(), drained) == old(Value()).DrainLive()
    {
      drained := [];
      var keep: seq<Slot> := [];
      var taken := 0;
      while queue != []
        invariant taken + |queue| == |old(queue)| && queue == old(queue)[taken..]
        invariant keep == OnlyTombstones(old(queue)[..taken]) && drained == LiveOf(old(queue)[..taken])
        decreases |queue|
      {
        assert old(queue)[..taken + 1][..taken] == old(queue)[..taken];
        match queue[0].envelope {
          case Some(envelope) => drained := drained + [envelope];
          case None => keep := keep + [queue[0]];
        }
        queue := queue[1..];
        taken := taken + 1;
      }
      assert old(queue)[..taken] == old(queue);
      queue := keep;
    }

    method Close()
      modifies this`isOpen
      ensures Value() == old(Value()).(isOpen := false)
    {
      isOpen := false;
    }

    method Reopen()
      modifies this`isOpen
      ensures Value() == old(Value()).(isOpen := true)
    {
      isOpen := true;
    }
  }
}
