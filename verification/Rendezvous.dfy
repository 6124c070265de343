/** A synchronous channel as its user sees it: a message is offered, taken, and acknowledged with its delivered
    length. */
module Rendezvous {
  import opened Basics

  datatype Slot = Empty | Offered(msg: seq<int>) | Taken(n: nat)

  /** One event of a channel; `room` is the receiver's buffer size. */
  datatype Event = Offer(msg: seq<int>) | Take(room: nat) | Acknowledge

  predicate Possible(s: Slot, e: Event) {
    match e
    case Offer(_) => s.Empty?
    case Take(_) => s.Offered?
    case Acknowledge => s.Taken?
  }

  function After(s: Slot, e: Event): Slot
    requires Possible(s, e)
  {
    match e
    case Offer(msg) => Offered(msg)
    case Take(room) => Taken(Min(|s.msg|, room))
    case Acknowledge => Empty
  }
}
