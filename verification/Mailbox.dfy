/** A subscriber's one-slot mailbox and the loop that sends from it. */
module Mailboxes {
  import opened Keys
  import opened Api
  import opened Stores

  /** `order` is the highest publication order accepted so far. */
  datatype Mailbox = Mailbox(order: nat, closed: bool, slot: Option<Publication>)
  {
    function Deliver(published: Publication): Mailbox {
      if closed || published.order <= order then this else
      this.(order := published.order, slot := Some(published))
    }

    function Receive(): Mailbox {
      this.(slot := None)
    }

    function Close(): Mailbox {
      this.(closed := true)
    }
  }

  const EMPTY_MAILBOX := Mailbox(0, false, None)

  /** An open mailbox holds the newest publication delivered to it, and what is not newer than one that
      it was given is ignored, also after that one was received: nothing is received twice. */
  lemma NewestWins(b: Mailbox, p: Publication, q: Publication)
    requires q.order <= p.order
    ensures b.Deliver(p).Deliver(q) == b.Deliver(p) && b.Deliver(p).Receive().Deliver(q) == b.Deliver(p).Receive()
    ensures !b.closed && p.order > b.order ==> b.Deliver(p).slot == Some(p)
    ensures !b.closed && p.order > b.order && p.order > q.order ==> b.Deliver(q).Deliver(p).slot == Some(p)
  {
  }

  class Subscription {
    var order: nat
    var closed: bool
    var slot: Option<Publication>
    var coalesced: nat

    ghost function Value(): Mailbox
      reads this
    {
      Mailbox(order, closed, slot)
    }

    constructor ()
      ensures Value() == EMPTY_MAILBOX && coalesced == 0
    {
      order, closed, slot, coalesced := 0, false, None, 0;
    }

    method Deliver(published: Publication)
      modifies this
      ensures Value() == old(Value()).Deliver(published)
      ensures order >= old(order) && (!closed ==> order >= published.order)
      ensures coalesced == old(coalesced) +
        (if !old(closed) && published.order > old(order) && old(slot).Some? then 1 else 0)
    {
      if closed || published.order <= order {
        return;
      }
      order := published.order;
      var replaced := ReplacePending(published);
      if replaced {
        coalesced := coalesced + 1;
      }
    }

    method ReplacePending(latest: Publication) returns (replaced: bool)
      modifies this`slot
      ensures slot == Some(latest) && replaced == old(slot).Some?
    {
      replaced := slot.Some?;
      slot := None;
      slot := Some(latest);
    }

    /** Nothing is accepted any more; a value that is already in the slot can still be received. */
    method Close()
      modifies this`closed
      ensures Value() == old(Value()).Close()
      ensures slot == old(slot) && forall p :: Value().Deliver(p) == Value()
    {
      closed := true;
    }
  }

  /** Delivering one publication to every captured watcher. */
  method DeliverAll(published: Publication, watchers: seq<Subscription>)
    modifies set w | w in watchers
    ensures forall w :: w in watchers ==> w.order >= old(w.order) && (!w.closed ==> w.order >= published.order)
  {
    var i := 0;
    while i < |watchers|
      invariant 0 <= i <= |watchers|
      invariant forall w :: w in watchers ==> w.order >= old(w.order) && w.closed == old(w.closed)
      invariant forall j :: 0 <= j < i && !watchers[j].closed ==> watchers[j].order >= published.order
    {
      watchers[i].Deliver(published);
      i := i + 1;
    }
  }

  /** A received publication is looked up again when it expired in the mailbox. Tombstones are
      recognised by their reason. */
  predicate MustLookUp(published: Publication, now: int) {
    published.snapshot.reason != DELETED && now >= published.snapshot.validUntil
  }

  class TopologyStream {
    var lastSent: nat

    constructor ()
      ensures lastSent == 0
    {
      lastSent := 0;
    }

    /** One iteration of the watch loop on a received publication; `later` is the clock during the
        lookup. What is sent is newer than everything sent before. */
    method OnUpdate(store: Store, received: Publication, now: int, later: int)
        returns (message: Option<Publication>, notification: Notification, ghost routing: Snapshot)
      modifies this, store
      ensures store.Value() ==
                if MustLookUp(received, now)
                then old(store.Value()).ExpireRecord(received.snapshot.Key(), later, routing)
                else old(store.Value())
      ensures notification ==
                if MustLookUp(received, now) then old(store.Value()).ExpireNotice(received.snapshot.Key(), later,
                    routing) else Silent
      ensures message.Some? ==> old(lastSent) < message.value.order == lastSent
      ensures message.None? ==> lastSent == old(lastSent)
      ensures
        if !MustLookUp(received, now) then
          message == if received.order > old(lastSent) then Some(received) else None
        else if received.snapshot.Key() !in old(store.records) then
          message == None
        else
          var latest := store.records[received.snapshot.Key()].publication;
          message == if latest.order > old(lastSent) then Some(latest) else None
      ensures message.Some? && Valid(old(store.Value())) && received.snapshot.reason != DELETED ==>
                var checked := if MustLookUp(received, now) then later else now;
                checked < message.value.snapshot.validUntil || Withdrawn(message.value.snapshot)
    {
      message, notification := None, Silent;
      routing := ANY_SNAPSHOT;
      var published := received;
      if received.snapshot.reason != DELETED && now >= received.snapshot.validUntil {
        var latest;
        latest, notification, routing := store.ReadPublication(received.snapshot.Key(), later);
        if latest.None? {
          return;
        }
        published := latest.value;
      }
      if published.order <= lastSent {
        return;
      }
      message := Some(published);
      lastSent := published.order;
    }
  }
}
