/** The front door's hold: a refused envelope waits for room under Block (src/kernel.rs). */
module FrontDoor {
  import opened Wrappers
  import opened Inboxes

  const MAX_PARKS: nat := 10_000

  /** Under Block a full inbox is worth another try; every other refusal is final. */
  predicate FullUnderBlock(inbox: InboxState) {
    inbox.isOpen && inbox.policy == Block && |inbox.queue| >= inbox.capacity
  }

  /**
   One envelope through the door. `seen(i)` is the inbox as others left it before attempt `i`; the
   attempts before the last left it untouched. The envelope ends up queued once or dead-lettered
   once, and an eviction dead-letters the evicted one instead.
   */
  method PushHoldingBlock(seen: nat -> InboxState, envelope: Envelope)
    returns (accepted: bool, last: nat, after: InboxState, letter: Option<Envelope>)
    requires forall i :: seen(i).CanPush()
    ensures last <= MAX_PARKS
    ensures forall i :: 0 <= i < last ==> FullUnderBlock(seen(i)) && seen(i).Push(envelope).0 == seen(i)
    ensures last < MAX_PARKS ==> !FullUnderBlock(seen(last))
    ensures accepted <==> letter == None
    ensures after.queue ==
            if accepted then seen(last).queue + [Slot(seen(last).nextOffset, Some(envelope))]
            else if seen(last).Push(envelope).1.Evicted?
            then seen(last).queue[1..] + [Slot(seen(last).nextOffset, Some(envelope))]
            else seen(last).queue
    ensures !accepted ==>
              letter == if seen(last).Push(envelope).1.Evicted? then seen(last).queue[0].envelope else Some(envelope)
  {
    var parks := 0;
    while true
      invariant 0 <= parks <= MAX_PARKS
      invariant forall i :: 0 <= i < parks ==> FullUnderBlock(seen(i)) && seen(i).Push(envelope).0 == seen(i)
      decreases MAX_PARKS - parks
    {
      var (tried, answer) := seen(parks).Push(envelope);
      match answer {
        case Queued(_) => return true, parks, tried, None;
        case Evicted(oldest) => return false, parks, tried, Some(oldest);
        case Closed(late) => return false, parks, tried, Some(late);
        case Full(refused) =>
          if seen(parks).policy != Block || parks >= MAX_PARKS {
            return false, parks, tried, Some(refused);
          }
      }
      parks := parks + 1;
    }
  }
}
