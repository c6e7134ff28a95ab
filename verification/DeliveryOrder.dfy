// The order in which events pass through a subscriber's queue.
module DeliveryOrder {
  import opened LatestState
  import opened Subscriptions
  import opened SubscriptionSafety

  function Positions(items: seq<Item>): seq<nat> {
    seq(|items|, i requires 0 <= i < |items| => items[i].idx)
  }

  ghost predicate Increasing(ns: seq<nat>, bound: nat) {
    (forall i, j :: 0 <= i < j < |ns| ==> ns[i] < ns[j]) && (forall i :: 0 <= i < |ns| ==> ns[i] < bound)
  }

  // Positions taken for delivery, then queued, then pending: strictly increasing.
  ghost predicate InLogOrder(n: Notifier, pend: seq<Item>, bound: nat) {
    Increasing(n.hist.taken + Positions(n.queue) + Positions(pend), bound)
  }

  lemma ReceiveInOrder(n: Notifier, pend: seq<Item>, item: Item, bound: nat)
    requires InLogOrder(n, pend, bound) && item.idx == bound
    ensures InLogOrder(n, pend + [item], bound + 1)
  {
    var all := n.hist.taken + Positions(n.queue) + Positions(pend);
    assert Positions(pend + [item]) == Positions(pend) + [bound];
    assert n.hist.taken + Positions(n.queue) + Positions(pend + [item]) == all + [bound];
  }

  lemma OfferInOrder(n: Notifier, item: Item, pend: seq<Item>, bound: nat)
    requires InLogOrder(n, [item] + pend, bound)
    ensures InLogOrder(Offer(n, item), pend, bound)
  {
    var before := n.hist.taken + Positions(n.queue);
    assert Positions([item] + pend) == [item.idx] + Positions(pend);
    if |n.queue| < NOTIFY_QUEUE_DEPTH {
      assert Positions(n.queue + [item]) == Positions(n.queue) + [item.idx];
      assert n.hist.taken + Positions(n.queue + [item]) + Positions(pend) == before + Positions([item] + pend);
    } else {
      assert before + Positions([item] + pend) == before + [item.idx] + Positions(pend);
      LeaveOut(before, item.idx, Positions(pend), bound);
    }
  }

  lemma LeaveOut(a: seq<nat>, x: nat, b: seq<nat>, bound: nat)
    requires Increasing(a + [x] + b, bound)
    ensures Increasing(a + b, bound)
  {
    var all, out := a + [x] + b, a + b;
    forall i | 0 <= i < |out| ensures out[i] == all[if i < |a| then i else i + 1] {}
  }

  lemma DeliverInOrder(n: Notifier, pend: seq<Item>, bound: nat, log: seq<ResourceChange>, choice: Choice)
    requires InLogOrder(n, pend, bound) && SubEnabled(n, true, choice)
    ensures InLogOrder(SubNext(n, log, choice), pend, bound)
  {
    var n' := SubNext(n, log, choice);
    var all := n.hist.taken + Positions(n.queue) + Positions(pend);
    if Busy(n.pc) {
      AttemptFrame(n, if choice.Attempt? then choice.outcome else Refused);
    } else if choice.OnQueue? {
      assert Positions(n.queue) == [n.queue[0].idx] + Positions(n.queue[1..]);
      assert n'.hist.taken + Positions(n'.queue) + Positions(pend) == all;
    } else if n.pc.Draining? && n.queue != [] {
      assert Positions(n.queue) == [n.queue[0].idx] + Positions(n.queue[1..]);
      assert all == n.hist.taken + [n.queue[0].idx] + (Positions(n.queue[1..]) + Positions(pend));
      LeaveOut(n.hist.taken, n.queue[0].idx, Positions(n.queue[1..]) + Positions(pend), bound);
      assert n'.hist.taken + Positions(n'.queue) + Positions(pend) == n.hist.taken + (Positions(n.queue[1..]) + Positions(pend));
    }
  }
}
