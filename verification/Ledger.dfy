// What becomes of every Delete recorded since a subscriber was registered: it has been taken off
// the queue, is queued, is about to be enqueued, or has been lost. With the order of delivery this
// tells which resources a subscriber may be left with that no longer exist.
module Ledgers {
  import opened Events
  import opened Fold
  import opened LatestState
  import opened Subscriptions
  import opened DeliveryOrder

  function ChangesIn(items: seq<Item>): seq<ResourceChange> {
    seq(|items|, i requires 0 <= i < |items| => items[i].change)
  }

  ghost predicate FromLog(items: seq<Item>, log: seq<ResourceChange>, base: nat) {
    forall i :: 0 <= i < |items| ==> base <= items[i].idx < |log| && items[i].change == log[items[i].idx]
  }

  ghost predicate Holds(items: seq<Item>, d: nat) { exists i :: 0 <= i < |items| && items[i].idx == d }

  ghost predicate Accounted(taken: seq<nat>, queue: seq<Item>, pend: seq<Item>, lost: set<nat>, d: nat) {
    d in taken || Holds(queue, d) || Holds(pend, d) || d in lost
  }

  // Positions of changes of the same resource ascend.
  ghost predicate KeySorted(ns: seq<nat>, log: seq<ResourceChange>) {
    && (forall i :: 0 <= i < |ns| ==> ns[i] < |log|)
    && (forall i, j :: 0 <= i < j < |ns| && log[ns[i]].key == log[ns[j]].key ==> ns[i] < ns[j])
  }

  ghost predicate Ledger(n: Notifier, pend: seq<Item>, log: seq<ResourceChange>, base: nat) {
    && base <= |log|
    && KeySorted(n.hist.taken + Positions(n.queue) + Positions(pend), log)
    && FromLog(n.queue, log, base) && FromLog(pend, log, base)
    && (n.pc.Delivering? ==> FromLog([n.pc.item], log, base) && TakenBy(n.hist.taken, n.pc.item, log))
    && (forall d :: base <= d < |log| && log[d].Del? ==> Accounted(n.hist.taken, n.queue, pend, n.hist.lost, d))
  }

  // Nothing later of the item's resource has been taken.
  ghost predicate TakenBy(taken: seq<nat>, item: Item, log: seq<ResourceChange>) {
    forall t :: t in taken && t < |log| && log[t].key == item.change.key ==> t <= item.idx
  }

  // ---------- The last change of a key ----------

  ghost predicate LastChange(log: seq<ResourceChange>, k: ResourceKey, d: nat) {
    d < |log| && log[d].key == k && forall j :: d < j < |log| ==> log[j].key != k
  }

  lemma {:induction false} LastChangeExists(log: seq<ResourceChange>, k: ResourceKey, i: nat) returns (d: nat)
    requires i < |log| && log[i].key == k
    ensures i <= d && LastChange(log, k, d)
  {
    if log[|log| - 1].key == k {
      d := |log| - 1;
    } else {
      d := LastChangeExists(log[..|log| - 1], k, i);
    }
  }

  lemma {:induction false} LastChangeDecides(cs: seq<ResourceChange>, k: ResourceKey, d: nat)
    requires LastChange(cs, k, d)
    ensures Effect(cs, k) == if cs[d].Put? then Has(cs[d].value) else Gone
  {
    if d == |cs| - 1 {
    } else {
      LastChangeDecides(cs[..|cs| - 1], k, d);
    }
  }

  // The resource was deleted, for the last time so far, at a position of which the Delete was lost.
  ghost predicate LostLast(log: seq<ResourceChange>, lost: set<nat>, base: nat, k: ResourceKey) {
    exists d :: base <= d < |log| && LastChange(log, k, d) && log[d] == Del(k) && d in lost
  }

  lemma LostLastGrows(log: seq<ResourceChange>, lost: set<nat>, base: nat, k: ResourceKey, c: ResourceChange)
    requires LostLast(log, lost, base, k) && c.key != k
    ensures LostLast(log + [c], lost, base, k)
  {
    var d :| base <= d < |log| && LastChange(log, k, d) && log[d] == Del(k) && d in lost;
    assert LastChange(log + [c], k, d);
  }

  // The Delete at idx is lost, and k is there nevertheless after the later items of the log that
  // are still to come: then no later Delete of k arrives, so the last one was lost.
  lemma LeftBehind(
    m: map<ResourceKey, Payload>, rest: seq<Item>, log: seq<ResourceChange>, lost: set<nat>, base: nat, k: ResourceKey, idx: nat)
    requires base <= idx < |log| && log[idx] == Del(k) && idx in lost
    requires FromLog(rest, log, base) && KeySorted(Positions(rest), log)
    requires forall d :: idx < d < |log| && log[d] == Del(k) ==> Holds(rest, d) || d in lost
    requires k in Replay(m, ChangesIn(rest)) && k !in Live(log)
    ensures LostLast(log, lost, base, k)
  {
    var d := LastChangeExists(log, k, idx);
    LastChangeDecides(log, k, d);
    ReplayAt(map[], log, k);
    assert log[d] == Del(k);
    if d !in lost {
      var i :| 0 <= i < |rest| && rest[i].idx == d;
      forall j | i < j < |rest| ensures rest[j].change.key != k {
        assert Positions(rest)[i] == d && Positions(rest)[j] == rest[j].idx;
      }
      assert LastChange(ChangesIn(rest), k, i);
      LastChangeDecides(ChangesIn(rest), k, i);
      ReplayAt(m, ChangesIn(rest), k);
      assert false;
    }
  }

  // ---------- Order, part by part ----------

  ghost predicate Behind(a: seq<nat>, b: seq<nat>, log: seq<ResourceChange>) {
    forall x, y :: x in a && y in b && x < |log| && y < |log| && log[x].key == log[y].key ==> x < y
  }

  lemma KeySortedConcat(a: seq<nat>, b: seq<nat>, log: seq<ResourceChange>)
    ensures KeySorted(a + b, log) <==> KeySorted(a, log) && KeySorted(b, log) && Behind(a, b, log)
  {
    var all := a + b;
    if KeySorted(all, log) {
      forall i | 0 <= i < |a| ensures a[i] == all[i] {}
      forall i | 0 <= i < |b| ensures b[i] == all[|a| + i] {}
      forall x, y | x in a && y in b && log[x].key == log[y].key ensures x < y {
        var i :| 0 <= i < |a| && a[i] == x;
        var j :| 0 <= j < |b| && b[j] == y;
        assert all[i] == x && all[|a| + j] == y;
      }
    }
    if KeySorted(a, log) && KeySorted(b, log) && Behind(a, b, log) {
      forall i, j | 0 <= i < j < |all| && log[all[i]].key == log[all[j]].key ensures all[i] < all[j] {
        if i < |a| <= j { assert a[i] in a && b[j - |a|] in b; }
      }
    }
  }

  lemma PositionsConcat(a: seq<Item>, b: seq<Item>)
    ensures Positions(a + b) == Positions(a) + Positions(b)
  {
  }

  lemma PositionsHold(items: seq<Item>)
    ensures forall d: nat :: Holds(items, d) <==> d in Positions(items)
  {
    forall d: nat ensures Holds(items, d) <==> d in Positions(items) {
      if Holds(items, d) {
        var i :| 0 <= i < |items| && items[i].idx == d;
        assert Positions(items)[i] == d;
      }
      if d in Positions(items) {
        var i :| 0 <= i < |items| && Positions(items)[i] == d;
        assert items[i].idx == d;
      }
    }
  }

  lemma HoldsConcat(a: seq<Item>, b: seq<Item>)
    ensures forall d: nat :: Holds(a + b, d) <==> Holds(a, d) || Holds(b, d)
  {
    PositionsConcat(a, b);
    PositionsHold(a);
    PositionsHold(b);
    PositionsHold(a + b);
  }

  lemma FromLogConcat(a: seq<Item>, b: seq<Item>, log: seq<ResourceChange>, base: nat)
    ensures FromLog(a + b, log, base) <==> FromLog(a, log, base) && FromLog(b, log, base)
  {
    var all := a + b;
    if FromLog(all, log, base) {
      forall i | 0 <= i < |a| ensures a[i] == all[i] {}
      forall i | 0 <= i < |b| ensures b[i] == all[|a| + i] {}
    }
  }

  lemma OrderMeans(taken: seq<nat>, queue: seq<Item>, pend: seq<Item>, log: seq<ResourceChange>)
    requires KeySorted(taken + Positions(queue) + Positions(pend), log)
    ensures Behind(taken, Positions(queue), log) && Behind(taken, Positions(pend), log)
    ensures Behind(Positions(queue), Positions(pend), log)
    ensures KeySorted(Positions(queue + pend), log)
  {
    var q, p := Positions(queue), Positions(pend);
    assert taken + q + p == taken + (q + p);
    KeySortedConcat(taken, q + p, log);
    KeySortedConcat(q, p, log);
    PositionsConcat(queue, pend);
    assert forall x :: x in q || x in p ==> x in q + p;
  }

  // ---------- Steps ----------

  predicate NoKey(items: seq<Item>, k: ResourceKey) { forall i :: 0 <= i < |items| ==> items[i].change.key != k }

  lemma LongerLog(ns: seq<nat>, log: seq<ResourceChange>, c: ResourceChange)
    requires KeySorted(ns, log)
    ensures KeySorted(ns, log + [c])
  {
    forall i | 0 <= i < |ns| ensures (log + [c])[ns[i]] == log[ns[i]] {}
  }

  lemma ReceiveLedger(n: Notifier, pend: seq<Item>, log: seq<ResourceChange>, base: nat, c: ResourceChange)
    requires Ledger(n, pend, log, base)
    ensures Ledger(n, pend + [Item(|log|, c)], log + [c], base)
  {
    var item, log' := Item(|log|, c), log + [c];
    var all := n.hist.taken + Positions(n.queue) + Positions(pend);
    LongerLog(all, log, c);
    KeySortedConcat(all, [|log|], log');
    PositionsConcat(pend, [item]);
    assert Positions([item]) == [|log|];
    assert n.hist.taken + Positions(n.queue) + Positions(pend + [item]) == all + [|log|];
    HoldsConcat(pend, [item]);
    assert [item][0] == item && Holds([item], |log|);
    forall d | base <= d < |log'| && log'[d].Del? ensures Accounted(n.hist.taken, n.queue, pend + [item], n.hist.lost, d) {
      assert d < |log| ==> log[d] == log'[d];
    }
  }

  // An item that no older one of its resource precedes may go first.
  lemma GoFirst(before: seq<nat>, a: seq<Item>, item: Item, b: seq<Item>, log: seq<ResourceChange>, base: nat)
    requires KeySorted(before + Positions(a + [item] + b), log)
    requires FromLog(a + [item] + b, log, base) && NoKey(a, item.change.key)
    ensures KeySorted(before + [item.idx] + Positions(a + b), log) && KeySorted(before + Positions(a + b), log)
    ensures Behind(before, [item.idx], log) && Behind([item.idx], Positions(a + b), log)
  {
    var p, q := Positions(a), Positions(b);
    FromLogConcat(a + [item], b, log, base);
    FromLogConcat(a, [item], log, base);
    PositionsConcat(a + [item], b);
    PositionsConcat(a, [item]);
    PositionsConcat(a, b);
    assert Positions([item]) == [item.idx] && [item][0] == item;
    KeySortedConcat(before, p + [item.idx] + q, log);
    KeySortedConcat(p + [item.idx], q, log);
    KeySortedConcat(p, [item.idx], log);
    KeySortedConcat(p, q, log);
    assert forall i :: 0 <= i < |p| ==> log[p[i]].key != item.change.key;
    KeySortedConcat([item.idx], p + q, log);
    KeySortedConcat(before, [item.idx] + (p + q), log);
    KeySortedConcat(before, p + q, log);
    assert before + [item.idx] + (p + q) == before + ([item.idx] + (p + q));
  }

  lemma OfferLedger(n: Notifier, a: seq<Item>, item: Item, b: seq<Item>, log: seq<ResourceChange>, base: nat)
    requires Ledger(n, a + [item] + b, log, base) && NoKey(a, item.change.key)
    ensures Ledger(Offer(n, item), a + b, log, base)
    ensures base <= item.idx < |log| && item.change == log[item.idx]
  {
    var before := n.hist.taken + Positions(n.queue);
    GoFirst(before, a, item, b, log, base);
    FromLogConcat(a + [item], b, log, base);
    FromLogConcat(a, [item], log, base);
    FromLogConcat(a, b, log, base);
    FromLogConcat(n.queue, [item], log, base);
    assert [item][0] == item;
    HoldsConcat(a + [item], b);
    HoldsConcat(a, [item]);
    HoldsConcat(a, b);
    HoldsConcat(n.queue, [item]);
    PositionsConcat(n.queue, [item]);
    assert Positions([item]) == [item.idx];
    assert n.hist.taken + Positions(n.queue + [item]) == before + [item.idx];
    forall d | base <= d < |log| && log[d].Del?
      ensures Accounted(Offer(n, item).hist.taken, Offer(n, item).queue, a + b, Offer(n, item).hist.lost, d)
    {
      assert Accounted(n.hist.taken, n.queue, a + [item] + b, n.hist.lost, d);
      assert Holds([item], d) ==> d == item.idx;
    }
  }

  lemma FirstOf(n: Notifier, log: seq<ResourceChange>, base: nat)
    requires n.queue != [] && FromLog(n.queue, log, base)
    ensures n.queue == [n.queue[0]] + n.queue[1..]
    ensures Positions(n.queue) == [n.queue[0].idx] + Positions(n.queue[1..])
    ensures FromLog([n.queue[0]], log, base) && FromLog(n.queue[1..], log, base)
    ensures forall d: nat :: Holds(n.queue, d) <==> d == n.queue[0].idx || Holds(n.queue[1..], d)
  {
    assert n.queue == [n.queue[0]] + n.queue[1..];
    HoldsConcat([n.queue[0]], n.queue[1..]);
    assert [n.queue[0]][0] == n.queue[0];
    FromLogConcat([n.queue[0]], n.queue[1..], log, base);
  }

  lemma TakeLedger(n: Notifier, pend: seq<Item>, log: seq<ResourceChange>, base: nat)
    requires Ledger(n, pend, log, base) && n.pc.Waiting? && n.queue != []
    ensures Ledger(SubNext(n, log, OnQueue), pend, log, base)
  {
    var item, n' := n.queue[0], SubNext(n, log, OnQueue);
    FirstOf(n, log, base);
    OrderMeans(n.hist.taken, n.queue, pend, log);
    assert n'.hist.taken + Positions(n'.queue) == n.hist.taken + Positions(n.queue);
    assert item.idx in Positions(n.queue);
    forall d | base <= d < |log| && log[d].Del? ensures Accounted(n'.hist.taken, n'.queue, pend, n'.hist.lost, d) {
      assert Accounted(n.hist.taken, n.queue, pend, n.hist.lost, d);
    }
  }

  lemma DrainLedger(n: Notifier, pend: seq<Item>, log: seq<ResourceChange>, base: nat)
    requires Ledger(n, pend, log, base) && n.pc.Draining? && n.queue != []
    ensures Ledger(Advance(n, log), pend, log, base)
  {
    var item, rest, t, p := n.queue[0], Positions(n.queue[1..]), n.hist.taken, Positions(pend);
    FirstOf(n, log, base);
    assert t + Positions(n.queue) + p == t + ([item.idx] + (rest + p));
    KeySortedConcat(t, [item.idx] + (rest + p), log);
    KeySortedConcat([item.idx], rest + p, log);
    KeySortedConcat(t, rest + p, log);
    assert t + rest + p == t + (rest + p);
    forall d | base <= d < |log| && log[d].Del?
      ensures Accounted(t, n.queue[1..], pend, Advance(n, log).hist.lost, d)
    {
      assert Accounted(t, n.queue, pend, n.hist.lost, d);
    }
  }

  // A step that takes nothing off the queue, and does not begin a delivery.
  lemma SameLedger(n: Notifier, n': Notifier, pend: seq<Item>, log: seq<ResourceChange>, base: nat)
    requires Ledger(n, pend, log, base)
    requires n'.queue == n.queue && n'.hist.taken == n.hist.taken && n.hist.lost <= n'.hist.lost
    requires n'.pc.Delivering? ==> n.pc.Delivering? && n'.pc.item == n.pc.item
    ensures Ledger(n', pend, log, base)
  {
  }

  // ---------- What is left behind when an event is dropped ----------

  // By enqueue, on overflow.
  lemma OverflowLeaves(
    m: map<ResourceKey, Payload>, n: Notifier, a: seq<Item>, item: Item, b: seq<Item>, log: seq<ResourceChange>, base: nat,
    k: ResourceKey)
    requires Ledger(n, a + [item] + b, log, base) && NoKey(a, k) && item.change == Del(k)
    requires k in Replay(m, ChangesIn(a + b)) && k !in Live(log)
    ensures LostLast(log, n.hist.lost + {item.idx}, base, k)
  {
    var before, lost := n.hist.taken + Positions(n.queue), n.hist.lost + {item.idx};
    OfferLedger(n, a, item, b, log, base);
    GoFirst(before, a, item, b, log, base);
    KeySortedConcat(before, Positions(a + b), log);
    FromLogConcat(a + [item], b, log, base);
    FromLogConcat(a, [item], log, base);
    FromLogConcat(a, b, log, base);
    HoldsConcat(a + [item], b);
    HoldsConcat(a, [item]);
    HoldsConcat(a, b);
    PositionsHold(n.queue);
    forall d | item.idx < d < |log| && log[d] == Del(k) ensures Holds(a + b, d) || d in lost {
      assert Accounted(n.hist.taken, n.queue, a + [item] + b, n.hist.lost, d);
      assert d in before ==> d < item.idx by { assert item.idx in [item.idx]; }
      assert Holds([item], d) ==> d == item.idx;
    }
    LeftBehind(m, a + b, log, lost, base, k, item.idx);
  }

  // By deliver, when it gives up.
  lemma GivingUpLeaves(
    m: map<ResourceKey, Payload>, n: Notifier, pend: seq<Item>, log: seq<ResourceChange>, base: nat, k: ResourceKey)
    requires Ledger(n, pend, log, base) && n.pc.Delivering? && n.pc.item.change == Del(k)
    requires k in Replay(m, ChangesIn(n.queue + pend)) && k !in Live(log)
    ensures LostLast(log, n.hist.lost + {n.pc.item.idx}, base, k)
  {
    var item := n.pc.item;
    assert [item][0] == item;
    OrderMeans(n.hist.taken, n.queue, pend, log);
    FromLogConcat(n.queue, pend, log, base);
    HoldsConcat(n.queue, pend);
    forall d | item.idx < d < |log| && log[d] == Del(k) ensures Holds(n.queue + pend, d) || d in n.hist.lost {
      assert Accounted(n.hist.taken, n.queue, pend, n.hist.lost, d);
    }
    LeftBehind(m, n.queue + pend, log, n.hist.lost + {item.idx}, base, k, item.idx);
  }

  lemma RestSorted(queue: seq<Item>, pend: seq<Item>, log: seq<ResourceChange>)
    requires queue != [] && KeySorted(Positions(queue + pend), log)
    ensures KeySorted(Positions(queue[1..] + pend), log)
  {
    assert queue + pend == [queue[0]] + (queue[1..] + pend);
    PositionsConcat([queue[0]], queue[1..] + pend);
    KeySortedConcat(Positions([queue[0]]), Positions(queue[1..] + pend), log);
  }

  // By drainQueue.
  lemma DrainingLeaves(
    m: map<ResourceKey, Payload>, n: Notifier, pend: seq<Item>, log: seq<ResourceChange>, base: nat, k: ResourceKey)
    requires Ledger(n, pend, log, base) && n.queue != [] && n.queue[0].change == Del(k)
    requires k in Replay(m, ChangesIn(n.queue[1..] + pend)) && k !in Live(log)
    ensures LostLast(log, n.hist.lost + {n.queue[0].idx}, base, k)
  {
    var item, rest := n.queue[0], n.queue[1..];
    FirstOf(n, log, base);
    OrderMeans(n.hist.taken, n.queue, pend, log);
    assert item.idx in Positions(n.queue) && log[item.idx] == Del(k);
    FromLogConcat(rest, pend, log, base);
    HoldsConcat(rest, pend);
    RestSorted(n.queue, pend, log);
    forall d | item.idx < d < |log| && log[d] == Del(k) ensures Holds(rest + pend, d) || d in n.hist.lost {
      assert Accounted(n.hist.taken, n.queue, pend, n.hist.lost, d);
    }
    LeftBehind(m, rest + pend, log, n.hist.lost + {item.idx}, base, k, item.idx);
  }
}
