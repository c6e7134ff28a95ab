// What every step keeps for one subscriber: the events still on their way to it, replayed on what
// it already holds, rebuild the latest state. m is the map at the subscriber's end, and held what
// it was when the subscriber was registered.
module SubscriberInvariant {
  import opened Wrappers
  import opened Events
  import opened Fold
  import opened LatestState
  import opened Subscriptions
  import opened Ledgers

  // What the goroutine is in the middle of sending.
  function Todo(pc: Pc): seq<ResourceChange> {
    match pc
    case Replaying(rest, _) => rest
    case Sending(rest, _) => rest
    case Delivering(item, _) => [item.change]
    case _ => []
  }

  // Everything still on its way: in hand, queued, or recorded and about to be enqueued.
  function Stream(n: Notifier, pend: seq<Item>): seq<ResourceChange> {
    Todo(n.pc) + ChangesIn(n.queue + pend)
  }

  // What the subscriber will hold once all of that has been applied.
  function Eventually(m: map<ResourceKey, Payload>, n: Notifier, pend: seq<Item>): map<ResourceKey, Payload> {
    Replay(m, Stream(n, pend))
  }

  // Every live resource is there with its latest payload.
  ghost predicate Agrees(m: map<ResourceKey, Payload>, live: map<ResourceKey, Payload>) {
    forall k :: k in live ==> At(m, k) == Some(live[k])
  }

  // The subscriber held it when it was registered, it was not live then, and it has not changed since.
  ghost predicate HeldOver(log: seq<ResourceChange>, held: map<ResourceKey, Payload>, base: nat, k: ResourceKey) {
    && base <= |log| && k in held && k !in Live(log[..base])
    && forall j :: base <= j < |log| ==> log[j].key != k
  }

  // Every other resource that is there is held over, or its last change is a Delete, recorded since
  // the subscriber was registered, that was lost.
  ghost predicate Explained(
    m: map<ResourceKey, Payload>, log: seq<ResourceChange>, lost: set<nat>, base: nat, held: map<ResourceKey, Payload>)
  {
    forall k :: k in m && k !in Live(log) ==> LostLast(log, lost, base, k) || HeldOver(log, held, base, k)
  }

  ghost predicate HeldOverStay(
    m: map<ResourceKey, Payload>, log: seq<ResourceChange>, base: nat, held: map<ResourceKey, Payload>)
  {
    forall k :: HeldOver(log, held, base, k) ==> k in m
  }

  // Whatever resources these changes name, they end with its last change in the log.
  ghost predicate Covers(cs: seq<ResourceChange>, log: seq<ResourceChange>) {
    forall k :: Effect(cs, k).Untouched? || Effect(cs, k) == Effect(log, k)
  }

  predicate AllPuts(cs: seq<ResourceChange>) { forall i :: 0 <= i < |cs| ==> cs[i].Put? }

  // Between clearing the flag and taking the snapshot.
  predicate Resyncing(pc: Pc) { pc.Draining? || pc.Drained? }

  // Where the goroutine is when the flag does not show that an event was missed: it is about to
  // set the flag, or it has cleared it and not finished draining.
  predicate AboutToFlag(pc: Pc) { pc.ReplayFailed? || pc.GaveUp? || pc.SendFailed? || pc.Draining? }

  // Something that will make a waiting goroutine look at the flag.
  predicate WillWake(n: Notifier) { n.queue != [] || (n.pc.Waiting? && n.retryArmed) }

  ghost predicate Shape(n: Notifier, pend: seq<Item>, log: seq<ResourceChange>) {
    && Covers(ChangesIn(pend), log)
    && (n.pc.Replaying? || n.pc.Sending? ==> AllPuts(Todo(n.pc)))
    && (!n.hist.missed && n.pc.Drained? ==> Covers(ChangesIn(n.queue + pend), log))
    && Flagged(n)
  }

  predicate Flagged(n: Notifier) {
    && (n.hist.missed ==> n.resync || AboutToFlag(n.pc))
    && (n.pc.ReplayFailed? ==> n.hist.replayFailed)
    && (n.hist.missed && (n.pc.Waiting? || n.pc.Drained? || n.pc.Sending? || n.pc.Replaying?) ==>
          WillWake(n) || n.hist.replayFailed)
    && (!n.hist.disturbed ==>
          !n.hist.missed && !n.resync && n.hist.lost == {} && !n.hist.replayFailed
          && (n.pc.Replaying? || n.pc.Waiting? || n.pc.Delivering? || n.pc.Checking?))
  }

  ghost predicate Outlook(
    end: map<ResourceKey, Payload>, m: map<ResourceKey, Payload>, log: seq<ResourceChange>, n: Notifier, base: nat,
    held: map<ResourceKey, Payload>)
  {
    && Explained(end, log, n.hist.lost, base, held)
    && HeldOverStay(m, log, base, held)
    && (!n.hist.missed && !Resyncing(n.pc) ==> Agrees(end, Live(log)))
  }

  ghost predicate SubInv(
    n: Notifier, m: map<ResourceKey, Payload>, pend: seq<Item>, log: seq<ResourceChange>, base: nat,
    held: map<ResourceKey, Payload>)
  {
    && Shape(n, pend, log) && Ledger(n, pend, log, base)
    && Outlook(Eventually(m, n, pend), m, log, n, base, held)
  }

  // ---------- Replaying with one change more or less ----------

  lemma ReplayHas(m: map<ResourceKey, Payload>, a: seq<ResourceChange>, b: seq<ResourceChange>, k: ResourceKey)
    ensures At(Replay(m, a + b), k) == Override(Effect(b, k), Override(Effect(a, k), At(m, k)))
  {
    ReplayConcat(m, a, b);
    ReplayAt(Replay(m, a), b, k);
    ReplayAt(m, a, k);
  }

  // Leaving one change out adds a key only if the change was its Delete.
  lemma DropOne(m: map<ResourceKey, Payload>, a: seq<ResourceChange>, c: ResourceChange, b: seq<ResourceChange>)
    ensures forall k :: k in Replay(m, a + b) ==> k in Replay(m, a + [c] + b) || c == Del(k)
  {
    forall k | k in Replay(m, a + b) && c != Del(k) ensures k in Replay(m, a + [c] + b) {
      ReplayHas(m, a, b, k);
      ReplayHas(m, a + [c], b, k);
      ReplayAppend(m, a, c);
      ReplayAt(m, a + [c], k);
      ReplayAt(m, a, k);
      assert At(Replay(m, a + b), k).Some?;
    }
  }

  lemma DropHead(m: map<ResourceKey, Payload>, c: ResourceChange, rest: seq<ResourceChange>)
    ensures forall k :: k in Replay(m, rest) ==> k in Replay(m, [c] + rest) || c == Del(k)
  {
    DropOne(m, [], c, rest);
    assert [] + rest == rest && [] + [c] + rest == [c] + rest;
  }

  lemma MoreKeys(m: map<ResourceKey, Payload>, n: map<ResourceKey, Payload>, cs: seq<ResourceChange>)
    requires m.Keys <= n.Keys
    ensures Replay(m, cs).Keys <= Replay(n, cs).Keys
  {
    forall k | k in Replay(m, cs) ensures k in Replay(n, cs) {
      ReplayAt(m, cs, k);
      ReplayAt(n, cs, k);
      assert At(Replay(m, cs), k).Some?;
      assert k in m ==> k in n;
    }
  }

  lemma {:induction false} PutsAddKeys(m: map<ResourceKey, Payload>, cs: seq<ResourceChange>)
    requires AllPuts(cs)
    ensures m.Keys <= Replay(m, cs).Keys
  {
    if cs == [] {
    } else {
      PutsAddKeys(m, cs[..|cs| - 1]);
    }
  }

  // Applying the first change early, as an attempt that fails after taking effect does.
  lemma ApplyTwice(m: map<ResourceKey, Payload>, c: ResourceChange, cs: seq<ResourceChange>)
    ensures Replay(Apply(m, c), [c] + cs) == Replay(m, [c] + cs)
  {
    ReplayPrepend(m, c, cs);
    ReplayPrepend(Apply(m, c), c, cs);
    assert Apply(Apply(m, c), c) == Apply(m, c);
  }

  // Changes with the same effect on every resource replay to the same map.
  lemma SameEffects(m: map<ResourceKey, Payload>, a: seq<ResourceChange>, b: seq<ResourceChange>)
    requires forall k :: Effect(a, k) == Effect(b, k)
    ensures Replay(m, a) == Replay(m, b)
  {
    forall k ensures At(Replay(m, a), k) == At(Replay(m, b), k) {
      ReplayAt(m, a, k);
      ReplayAt(m, b, k);
    }
    SameAt(Replay(m, a), Replay(m, b));
  }

  lemma NoKeyUntouched(items: seq<Item>, k: ResourceKey)
    requires NoKey(items, k)
    ensures Effect(ChangesIn(items), k).Untouched?
  {
    EffectTouched(ChangesIn(items), k);
  }

  // A change moved ahead of changes to other resources has the same effect.
  lemma EffectAhead(x: seq<ResourceChange>, a: seq<Item>, item: Item, b: seq<Item>, k: ResourceKey)
    requires NoKey(a, item.change.key)
    ensures Effect(x + ChangesIn(a + [item] + b), k) == Effect(x + [item.change] + ChangesIn(a + b), k)
    ensures item.change.key != k ==> Effect(ChangesIn(a + b), k) == Effect(ChangesIn(a + [item] + b), k)
    ensures Effect(ChangesIn(a + b), k).Untouched? || Effect(ChangesIn(a + b), k) == Effect(ChangesIn(a + [item] + b), k)
  {
    var ca, c, cb := ChangesIn(a), item.change, ChangesIn(b);
    NoKeyUntouched(a, c.key);
    assert ChangesIn(a + [item] + b) == ca + [c] + cb && ChangesIn(a + b) == ca + cb;
    EffectConcat(x, ca + [c] + cb, k);
    EffectConcat(ca + [c], cb, k);
    EffectConcat(ca, [c], k);
    EffectConcat(x + [c], ca + cb, k);
    EffectConcat(x, [c], k);
    EffectConcat(ca, cb, k);
    EffectOne(c, k);
  }

  lemma EffectOne(c: ResourceChange, k: ResourceKey)
    ensures c.key != k ==> Effect([c], k).Untouched?
    ensures c.key == k ==> !Effect([c], k).Untouched?
  {
    assert [c][..0] == [];
  }

  // On top of a snapshot, replaying changes that end with the last ones of the log changes nothing
  // for live resources.
  lemma SnapshotThenEnd(m: map<ResourceKey, Payload>, log: seq<ResourceChange>, cs: seq<ResourceChange>)
    requires Covers(cs, log)
    ensures Agrees(Replay(m, Snapshot(log) + cs), Live(log))
  {
    forall k | k in Live(log) ensures At(Replay(m, Snapshot(log) + cs), k) == Some(Live(log)[k]) {
      ReplayHas(m, Snapshot(log), cs, k);
      SnapshotEffect(log, k);
      ReplayAt(map[], log, k);
    }
  }

  // A snapshot brings in no resource that is not live.
  lemma SnapshotAddsLiveOnly(m: map<ResourceKey, Payload>, log: seq<ResourceChange>, cs: seq<ResourceChange>)
    ensures forall k :: k in Replay(m, Snapshot(log) + cs) && k !in Live(log) ==> k in Replay(m, cs)
  {
    forall k | k in Replay(m, Snapshot(log) + cs) && k !in Live(log) ensures k in Replay(m, cs) {
      ReplayHas(m, Snapshot(log), cs, k);
      SnapshotEffect(log, k);
      ReplayAt(m, cs, k);
      assert At(Replay(m, Snapshot(log) + cs), k).Some?;
    }
  }

  // ---------- Steps of others ----------

  lemma SameStep(m: map<ResourceKey, Payload>, live: map<ResourceKey, Payload>, c: ResourceChange)
    requires Agrees(m, live)
    ensures Agrees(Apply(m, c), Apply(live, c))
  {
    forall k | k in Apply(live, c) ensures At(Apply(m, c), k) == Some(Apply(live, c)[k]) {
      assert k != c.key ==> At(m, k) == Some(live[k]);
    }
  }

  lemma HeldOverStep(log: seq<ResourceChange>, held: map<ResourceKey, Payload>, base: nat, c: ResourceChange, k: ResourceKey)
    requires base <= |log|
    ensures HeldOver(log + [c], held, base, k) <==> HeldOver(log, held, base, k) && c.key != k
  {
    var all := log + [c];
    assert all[..base] == log[..base] && all[|log|] == c;
    assert forall j :: 0 <= j < |log| ==> all[j] == log[j];
  }

  lemma ExplainedStep(
    m: map<ResourceKey, Payload>, log: seq<ResourceChange>, lost: set<nat>, base: nat, held: map<ResourceKey, Payload>,
    c: ResourceChange)
    requires Explained(m, log, lost, base, held) && base <= |log|
    ensures Explained(Apply(m, c), log + [c], lost, base, held)
  {
    ReplayAppend(map[], log, c);
    forall k | k in Apply(m, c) && k !in Live(log + [c])
      ensures LostLast(log + [c], lost, base, k) || HeldOver(log + [c], held, base, k)
    {
      HeldOverStep(log, held, base, c, k);
      if LostLast(log, lost, base, k) { LostLastGrows(log, lost, base, k, c); }
    }
  }

  lemma MoreLost(log: seq<ResourceChange>, lost: set<nat>, more: set<nat>, base: nat, k: ResourceKey)
    requires LostLast(log, lost, base, k) && lost <= more
    ensures LostLast(log, more, base, k)
  {
    var d :| base <= d < |log| && LastChange(log, k, d) && log[d] == Del(k) && d in lost;
    assert d in more;
  }

  lemma CoversStep(cs: seq<ResourceChange>, log: seq<ResourceChange>, c: ResourceChange)
    requires Covers(cs, log)
    ensures Covers(cs + [c], log + [c])
  {
    assert (cs + [c])[..|cs|] == cs && (log + [c])[..|log|] == log;
  }

  lemma StreamGrows(n: Notifier, pend: seq<Item>, item: Item)
    ensures Stream(n, pend + [item]) == Stream(n, pend) + [item.change]
    ensures ChangesIn(pend + [item]) == ChangesIn(pend) + [item.change]
    ensures ChangesIn(n.queue + (pend + [item])) == ChangesIn(n.queue + pend) + [item.change]
  {
    assert n.queue + (pend + [item]) == n.queue + pend + [item];
    assert ChangesIn(n.queue + pend + [item]) == ChangesIn(n.queue + pend) + [item.change];
  }

  lemma ReceiveKeeps(
    n: Notifier, m: map<ResourceKey, Payload>, pend: seq<Item>, log: seq<ResourceChange>, base: nat,
    held: map<ResourceKey, Payload>, c: ResourceChange)
    requires SubInv(n, m, pend, log, base, held)
    ensures SubInv(n, m, pend + [Item(|log|, c)], log + [c], base, held)
  {
    StreamGrows(n, pend, Item(|log|, c));
    CoversStep(ChangesIn(pend), log, c);
    if !n.hist.missed && n.pc.Drained? { CoversStep(ChangesIn(n.queue + pend), log, c); }
    ReceiveLedger(n, pend, log, base, c);
    ReceiveOutlook(n, m, pend, log, base, held, c);
  }

  lemma ReceiveOutlook(
    n: Notifier, m: map<ResourceKey, Payload>, pend: seq<Item>, log: seq<ResourceChange>, base: nat,
    held: map<ResourceKey, Payload>, c: ResourceChange)
    requires base <= |log| && Outlook(Eventually(m, n, pend), m, log, n, base, held)
    ensures Outlook(Eventually(m, n, pend + [Item(|log|, c)]), m, log + [c], n, base, held)
  {
    StreamGrows(n, pend, Item(|log|, c));
    ReplayAppend(m, Stream(n, pend), c);
    ReplayAppend(map[], log, c);
    ExplainedStep(Eventually(m, n, pend), log, n.hist.lost, base, held, c);
    forall k | HeldOver(log + [c], held, base, k) ensures k in m { HeldOverStep(log, held, base, c, k); }
    if Agrees(Eventually(m, n, pend), Live(log)) { SameStep(Eventually(m, n, pend), Live(log), c); }
  }

  // Taking one item out of what is pending, and putting it at the end of the queue.
  lemma OfferCovers(queue: seq<Item>, a: seq<Item>, item: Item, b: seq<Item>, log: seq<ResourceChange>)
    requires NoKey(a, item.change.key)
    ensures Covers(ChangesIn(a + [item] + b), log) ==> Covers(ChangesIn(a + b), log)
    ensures Covers(ChangesIn(queue + (a + [item] + b)), log) ==> Covers(ChangesIn(queue + [item] + (a + b)), log)
  {
    assert ChangesIn(queue + (a + [item] + b)) == ChangesIn(queue) + ChangesIn(a + [item] + b);
    assert ChangesIn(queue + [item] + (a + b)) == ChangesIn(queue) + [item.change] + ChangesIn(a + b);
    forall k { EffectAhead(ChangesIn(queue), a, item, b, k); }
  }

  lemma StreamWithout(n: Notifier, a: seq<Item>, item: Item, b: seq<Item>)
    ensures var before := Todo(n.pc) + ChangesIn(n.queue);
            && Stream(n, a + [item] + b) == before + ChangesIn(a) + [item.change] + ChangesIn(b)
            && Stream(n, a + [item] + b) == before + ChangesIn(a + [item] + b)
            && Stream(n, a + b) == before + ChangesIn(a) + ChangesIn(b)
            && Stream(n, a + b) == before + ChangesIn(a + b)
            && Todo(n.pc) + ChangesIn(n.queue + [item] + (a + b)) == before + [item.change] + ChangesIn(a + b)
  {
  }

  lemma OfferKeeps(
    n: Notifier, m: map<ResourceKey, Payload>, a: seq<Item>, item: Item, b: seq<Item>, log: seq<ResourceChange>, base: nat,
    held: map<ResourceKey, Payload>)
    requires SubInv(n, m, a + [item] + b, log, base, held) && NoKey(a, item.change.key)
    ensures SubInv(Offer(n, item), m, a + b, log, base, held)
  {
    OfferCovers(n.queue, a, item, b, log);
    OfferLedger(n, a, item, b, log, base);
    if |n.queue| < NOTIFY_QUEUE_DEPTH {
      QueuedSame(n, m, a, item, b);
    } else {
      OverflowExplained(n, m, a, item, b, log, base, held);
    }
  }

  lemma QueuedSame(n: Notifier, m: map<ResourceKey, Payload>, a: seq<Item>, item: Item, b: seq<Item>)
    requires NoKey(a, item.change.key) && |n.queue| < NOTIFY_QUEUE_DEPTH
    ensures Eventually(m, Offer(n, item), a + b) == Eventually(m, n, a + [item] + b)
  {
    StreamWithout(n, a, item, b);
    forall k { EffectAhead(Todo(n.pc) + ChangesIn(n.queue), a, item, b, k); }
    SameEffects(m, Stream(n, a + [item] + b), Stream(Offer(n, item), a + b));
  }

  lemma OverflowExplained(
    n: Notifier, m: map<ResourceKey, Payload>, a: seq<Item>, item: Item, b: seq<Item>, log: seq<ResourceChange>, base: nat,
    held: map<ResourceKey, Payload>)
    requires Ledger(n, a + [item] + b, log, base) && NoKey(a, item.change.key) && |n.queue| >= NOTIFY_QUEUE_DEPTH
    requires Explained(Eventually(m, n, a + [item] + b), log, n.hist.lost, base, held)
    ensures Explained(Eventually(m, Offer(n, item), a + b), log, Offer(n, item).hist.lost, base, held)
  {
    var before, n' := Todo(n.pc) + ChangesIn(n.queue), Offer(n, item);
    StreamWithout(n, a, item, b);
    assert Stream(n', a + b) == Stream(n, a + b);
    DropOne(m, before + ChangesIn(a), item.change, ChangesIn(b));
    ReplayConcat(m, before, ChangesIn(a + b));
    forall k | k in Eventually(m, n', a + b) && k !in Live(log)
      ensures LostLast(log, n'.hist.lost, base, k) || HeldOver(log, held, base, k)
    {
      if k in Eventually(m, n, a + [item] + b) {
        if LostLast(log, n.hist.lost, base, k) { MoreLost(log, n.hist.lost, n'.hist.lost, base, k); }
      } else {
        OverflowLeaves(Replay(m, before), n, a, item, b, log, base, k);
      }
    }
  }

  lemma NewNotifierInv(log: seq<ResourceChange>, held: map<ResourceKey, Payload>)
    ensures SubInv(NewNotifier(log), held, [], log, |log|, held)
  {
    SnapshotThenEnd(held, log, []);
    SnapshotAddsLiveOnly(held, log, []);
    assert log[..|log|] == log;
    assert Stream(NewNotifier(log), []) == Snapshot(log) + [];
    assert Replay(held, []) == held;
  }

  // ---------- The subscriber's own steps ----------

  lemma HeadOfStream(n: Notifier, pend: seq<Item>)
    requires Busy(n.pc)
    ensures Stream(n, pend) == [Hand(n.pc)] + (Todo(n.pc)[1..] + ChangesIn(n.queue + pend))
  {
  }

  // What is in hand never deletes a resource that is held over.
  lemma HandKeepsHeldOver(
    n: Notifier, m: map<ResourceKey, Payload>, pend: seq<Item>, log: seq<ResourceChange>, base: nat,
    held: map<ResourceKey, Payload>)
    requires SubInv(n, m, pend, log, base, held) && Busy(n.pc)
    ensures HeldOverStay(Apply(m, Hand(n.pc)), log, base, held)
  {
    forall k | HeldOver(log, held, base, k) ensures k in Apply(m, Hand(n.pc)) {
      if n.pc.Delivering? {
        assert [n.pc.item][0] == n.pc.item;
        assert log[n.pc.item.idx].key != k;
      } else {
        assert Todo(n.pc)[0].Put?;
      }
    }
  }

  lemma SucceedKeeps(
    n: Notifier, m: map<ResourceKey, Payload>, pend: seq<Item>, log: seq<ResourceChange>, base: nat,
    held: map<ResourceKey, Payload>)
    requires SubInv(n, m, pend, log, base, held) && Busy(n.pc)
    ensures SubInv(Tried(n, Delivered), Apply(m, Hand(n.pc)), pend, log, base, held)
  {
    var n' := Tried(n, Delivered);
    SameLedger(n, n', pend, log, base);
    HandKeepsHeldOver(n, m, pend, log, base, held);
    HeadOfStream(n, pend);
    assert Todo(n'.pc) == Todo(n.pc)[1..];
    ReplayPrepend(m, Hand(n.pc), Stream(n', pend));
    assert Eventually(Apply(m, Hand(n.pc)), n', pend) == Eventually(m, n, pend);
  }

  // Giving up on the head of a list of Puts, or on a single event, and forgetting the rest of the
  // list, adds a key only if the event was its Delete.
  lemma DropList(m: map<ResourceKey, Payload>, todo: seq<ResourceChange>, rest: seq<ResourceChange>, applied: bool)
    requires |todo| == 1 || (todo != [] && AllPuts(todo))
    ensures forall k :: k in Replay(if applied then Apply(m, todo[0]) else m, rest) ==>
              k in Replay(m, todo + rest) || todo[0] == Del(k)
  {
    var c := todo[0];
    var m' := if applied then Apply(m, c) else m;
    assert todo == [c] + todo[1..];
    ReplayPrepend(m, c, todo[1..]);
    ReplayConcat(m, todo, rest);
    if AllPuts(todo) {
      PutsAddKeys(Apply(m, c), todo[1..]);
      MoreKeys(m', Replay(m, todo), rest);
    } else {
      assert [] + [c] + rest == todo + rest && [] + rest == rest;
      assert todo[1..] == [];
      DropOne(m, [], c, rest);
    }
  }

  lemma FailShape(n: Notifier)
    requires Busy(n.pc)
    ensures Todo(Fail(n).pc) == [] && Fail(n).hist.missed && Flagged(Fail(n)) && !Fail(n).pc.Delivering?
    ensures Fail(n).queue == n.queue && Fail(n).hist.taken == n.hist.taken
    ensures Fail(n).hist.lost == if n.pc.Delivering? && n.pc.item.change.Del? then n.hist.lost + {n.pc.item.idx} else n.hist.lost
    ensures Todo(n.pc) != [] && Hand(n.pc) == Todo(n.pc)[0]
  {
  }

  // What is left of the stream when deliver gives up, possibly after the event took effect.
  lemma FailKeeps(
    n: Notifier, m: map<ResourceKey, Payload>, applied: bool, pend: seq<Item>, log: seq<ResourceChange>, base: nat,
    held: map<ResourceKey, Payload>)
    requires SubInv(n, m, pend, log, base, held) && Busy(n.pc)
    ensures SubInv(Fail(n), if applied then Apply(m, Hand(n.pc)) else m, pend, log, base, held)
  {
    FailShape(n);
    SameLedger(n, Fail(n), pend, log, base);
    HandKeepsHeldOver(n, m, pend, log, base, held);
    assert Stream(Fail(n), pend) == ChangesIn(n.queue + pend);
    FailExplained(n, m, applied, pend, log, base, held);
  }

  lemma FailExplained(
    n: Notifier, m: map<ResourceKey, Payload>, applied: bool, pend: seq<Item>, log: seq<ResourceChange>, base: nat,
    held: map<ResourceKey, Payload>)
    requires SubInv(n, m, pend, log, base, held) && Busy(n.pc)
    ensures Explained(Replay(if applied then Apply(m, Hand(n.pc)) else m, ChangesIn(n.queue + pend)), log, Fail(n).hist.lost,
                      base, held)
  {
    var rest, lost := ChangesIn(n.queue + pend), Fail(n).hist.lost;
    var m' := if applied then Apply(m, Hand(n.pc)) else m;
    FailShape(n);
    DropList(m, Todo(n.pc), rest, applied);
    forall k | k in Replay(m', rest) && k !in Live(log) ensures LostLast(log, lost, base, k) || HeldOver(log, held, base, k) {
      if k in Replay(m, Todo(n.pc) + rest) {
        if LostLast(log, n.hist.lost, base, k) { MoreLost(log, n.hist.lost, lost, base, k); }
      } else {
        assert Todo(n.pc)[0] == Del(k);
        GivingUpLeaves(m', n, pend, log, base, k);
      }
    }
  }

  lemma RetryKeeps(
    n: Notifier, m: map<ResourceKey, Payload>, applied: bool, failures: nat, pend: seq<Item>, log: seq<ResourceChange>,
    base: nat, held: map<ResourceKey, Payload>)
    requires SubInv(n, m, pend, log, base, held) && Busy(n.pc)
    ensures SubInv(n.(pc := n.pc.(failures := failures)), if applied then Apply(m, Hand(n.pc)) else m, pend, log, base, held)
  {
    var n' := n.(pc := n.pc.(failures := failures));
    SameLedger(n, n', pend, log, base);
    HandKeepsHeldOver(n, m, pend, log, base, held);
    assert Stream(n', pend) == Stream(n, pend);
    HeadOfStream(n, pend);
    ApplyTwice(m, Hand(n.pc), Todo(n.pc)[1..] + ChangesIn(n.queue + pend));
  }

  lemma DrainStream(n: Notifier, pend: seq<Item>, log: seq<ResourceChange>)
    requires n.pc.Draining? && n.queue != []
    ensures Stream(n, pend) == [n.queue[0].change] + Stream(Advance(n, log), pend)
  {
    assert n.queue + pend == [n.queue[0]] + (n.queue[1..] + pend);
    assert ChangesIn([n.queue[0]] + (n.queue[1..] + pend)) == [n.queue[0].change] + ChangesIn(n.queue[1..] + pend);
  }

  lemma DrainOneKeeps(
    n: Notifier, m: map<ResourceKey, Payload>, pend: seq<Item>, log: seq<ResourceChange>, base: nat,
    held: map<ResourceKey, Payload>)
    requires SubInv(n, m, pend, log, base, held) && n.pc.Draining? && n.queue != []
    ensures SubInv(Advance(n, log), m, pend, log, base, held)
  {
    DrainLedger(n, pend, log, base);
    DrainExplained(n, m, pend, log, base, held);
  }

  lemma DrainExplained(
    n: Notifier, m: map<ResourceKey, Payload>, pend: seq<Item>, log: seq<ResourceChange>, base: nat,
    held: map<ResourceKey, Payload>)
    requires Ledger(n, pend, log, base) && n.pc.Draining? && n.queue != []
    requires Explained(Eventually(m, n, pend), log, n.hist.lost, base, held)
    ensures Explained(Eventually(m, Advance(n, log), pend), log, Advance(n, log).hist.lost, base, held)
  {
    var n' := Advance(n, log);
    DrainStream(n, pend, log);
    DropHead(m, n.queue[0].change, Stream(n', pend));
    assert Stream(n', pend) == ChangesIn(n.queue[1..] + pend);
    forall k | k in Eventually(m, n', pend) && k !in Live(log)
      ensures LostLast(log, n'.hist.lost, base, k) || HeldOver(log, held, base, k)
    {
      if k in Eventually(m, n, pend) {
        if LostLast(log, n.hist.lost, base, k) { MoreLost(log, n.hist.lost, n'.hist.lost, base, k); }
      } else {
        DrainingLeaves(m, n, pend, log, base, k);
      }
    }
  }

  lemma DrainEndKeeps(
    n: Notifier, m: map<ResourceKey, Payload>, pend: seq<Item>, log: seq<ResourceChange>, base: nat,
    held: map<ResourceKey, Payload>)
    requires SubInv(n, m, pend, log, base, held) && n.pc.Draining? && n.queue == []
    ensures SubInv(Advance(n, log), m, pend, log, base, held)
  {
    SameLedger(n, Advance(n, log), pend, log, base);
    assert n.queue + pend == pend;
    assert Stream(Advance(n, log), pend) == Stream(n, pend);
  }

  lemma SendingKeeps(
    n: Notifier, m: map<ResourceKey, Payload>, past: seq<ResourceChange>, pend: seq<Item>, log: seq<ResourceChange>, base: nat,
    held: map<ResourceKey, Payload>)
    requires SubInv(n, m, pend, log, base, held) && n.pc.Drained? && AllPuts(past)
    requires Explained(Replay(m, past + ChangesIn(n.queue + pend)), log, n.hist.lost, base, held)
    requires !n.hist.missed ==> Agrees(Replay(m, past + ChangesIn(n.queue + pend)), Live(log))
    ensures SubInv(n.(pc := Sending(past, 0)), m, pend, log, base, held)
  {
    SameLedger(n, n.(pc := Sending(past, 0)), pend, log, base);
  }

  lemma SnapshotKeeps(
    n: Notifier, m: map<ResourceKey, Payload>, pend: seq<Item>, log: seq<ResourceChange>, base: nat,
    held: map<ResourceKey, Payload>)
    requires SubInv(n, m, pend, log, base, held) && n.pc.Drained?
    ensures SubInv(Advance(n, log), m, pend, log, base, held)
  {
    SnapshotIsPuts(log);
    DrainedMeans(n, m, pend, log, base, held);
    SnapshotOutlook(m, log, ChangesIn(n.queue + pend), n.hist.lost, n.hist.missed, base, held);
    SendingKeeps(n, m, Snapshot(log), pend, log, base, held);
  }

  lemma DrainedMeans(
    n: Notifier, m: map<ResourceKey, Payload>, pend: seq<Item>, log: seq<ResourceChange>, base: nat,
    held: map<ResourceKey, Payload>)
    requires SubInv(n, m, pend, log, base, held) && n.pc.Drained?
    ensures Explained(Replay(m, ChangesIn(n.queue + pend)), log, n.hist.lost, base, held)
    ensures !n.hist.missed ==> Covers(ChangesIn(n.queue + pend), log)
  {
    assert Stream(n, pend) == ChangesIn(n.queue + pend);
  }

  lemma SnapshotOutlook(
    m: map<ResourceKey, Payload>, log: seq<ResourceChange>, cs: seq<ResourceChange>, lost: set<nat>, missed: bool, base: nat,
    held: map<ResourceKey, Payload>)
    requires Explained(Replay(m, cs), log, lost, base, held)
    requires !missed ==> Covers(cs, log)
    ensures Explained(Replay(m, Snapshot(log) + cs), log, lost, base, held)
    ensures !missed ==> Agrees(Replay(m, Snapshot(log) + cs), Live(log))
  {
    SnapshotAddsLiveOnly(m, log, cs);
    if !missed { SnapshotThenEnd(m, log, cs); }
  }

  lemma SnapshotIsPuts(log: seq<ResourceChange>)
    ensures AllPuts(Snapshot(log))
  {
  }

  lemma TakeKeeps(
    n: Notifier, m: map<ResourceKey, Payload>, pend: seq<Item>, log: seq<ResourceChange>, base: nat,
    held: map<ResourceKey, Payload>)
    requires SubInv(n, m, pend, log, base, held) && n.pc.Waiting? && n.queue != []
    ensures SubInv(SubNext(n, log, OnQueue), m, pend, log, base, held)
  {
    TakeLedger(n, pend, log, base);
    assert n.queue + pend == [n.queue[0]] + (n.queue[1..] + pend);
    assert Stream(SubNext(n, log, OnQueue), pend) == Stream(n, pend);
  }

  // Steps that only move the program counter and the flags.
  lemma QuietFrame(n: Notifier, log: seq<ResourceChange>)
    requires SubEnabled(n, false, Proceed) && !n.pc.Draining? && !n.pc.Drained?
    ensures var n' := Advance(n, log);
            && Todo(n'.pc) == Todo(n.pc) == [] && n'.queue == n.queue
            && n'.hist.lost == n.hist.lost && n'.hist.missed == n.hist.missed
            && (n'.pc.Waiting? || n'.pc.Checking? || n'.pc.Draining?)
    ensures Flagged(n) ==> Flagged(Advance(n, log))
  {
  }

  lemma QuietKeeps(
    n: Notifier, m: map<ResourceKey, Payload>, pend: seq<Item>, log: seq<ResourceChange>, base: nat,
    held: map<ResourceKey, Payload>)
    requires SubInv(n, m, pend, log, base, held) && SubEnabled(n, false, Proceed) && !n.pc.Draining? && !n.pc.Drained?
    ensures SubInv(Advance(n, log), m, pend, log, base, held)
  {
    QuietFrame(n, log);
    SameLedger(n, Advance(n, log), pend, log, base);
    assert Stream(Advance(n, log), pend) == Stream(n, pend);
  }

  lemma TriedIs(n: Notifier, m: map<ResourceKey, Payload>, outcome: Outcome)
    requires Busy(n.pc) && !outcome.Delivered?
    ensures Applied(m, n, Attempt(outcome)) == if outcome.AppliedButFailed? then Apply(m, Hand(n.pc)) else m
    ensures Tried(n, outcome) == if n.pc.failures + 1 >= NOTIFY_MAX_ATTEMPTS then Fail(n)
                                 else n.(pc := n.pc.(failures := n.pc.failures + 1))
  {
  }

  lemma AttemptKeeps(
    n: Notifier, m: map<ResourceKey, Payload>, pend: seq<Item>, log: seq<ResourceChange>, base: nat,
    held: map<ResourceKey, Payload>, outcome: Outcome)
    requires SubInv(n, m, pend, log, base, held) && Busy(n.pc)
    ensures SubInv(Tried(n, outcome), Applied(m, n, Attempt(outcome)), pend, log, base, held)
  {
    if outcome.Delivered? {
      SucceedKeeps(n, m, pend, log, base, held);
    } else {
      TriedIs(n, m, outcome);
      if n.pc.failures + 1 >= NOTIFY_MAX_ATTEMPTS {
        GivingUpKeeps(n, m, pend, log, base, held, outcome);
      } else {
        TryingAgainKeeps(n, m, pend, log, base, held, outcome);
      }
    }
  }

  lemma GivingUpKeeps(
    n: Notifier, m: map<ResourceKey, Payload>, pend: seq<Item>, log: seq<ResourceChange>, base: nat,
    held: map<ResourceKey, Payload>, outcome: Outcome)
    requires SubInv(n, m, pend, log, base, held) && Busy(n.pc)
    requires !outcome.Delivered? && n.pc.failures + 1 >= NOTIFY_MAX_ATTEMPTS
    ensures SubInv(Fail(n), Applied(m, n, Attempt(outcome)), pend, log, base, held)
  {
    FailKeeps(n, m, outcome.AppliedButFailed?, pend, log, base, held);
  }

  lemma TryingAgainKeeps(
    n: Notifier, m: map<ResourceKey, Payload>, pend: seq<Item>, log: seq<ResourceChange>, base: nat,
    held: map<ResourceKey, Payload>, outcome: Outcome)
    requires SubInv(n, m, pend, log, base, held) && Busy(n.pc) && !outcome.Delivered?
    ensures SubInv(n.(pc := n.pc.(failures := n.pc.failures + 1)), Applied(m, n, Attempt(outcome)), pend, log, base, held)
  {
    RetryKeeps(n, m, outcome.AppliedButFailed?, n.pc.failures + 1, pend, log, base, held);
  }

  // Every step of the delivery goroutine keeps the invariant. Only a subscriber that has left the
  // list can see its stop channel closed.
  lemma DeliverKeeps(
    n: Notifier, m: map<ResourceKey, Payload>, pend: seq<Item>, log: seq<ResourceChange>, base: nat,
    held: map<ResourceKey, Payload>, choice: Choice)
    requires SubInv(n, m, pend, log, base, held) && SubEnabled(n, false, choice)
    ensures SubInv(SubNext(n, log, choice), Applied(m, n, choice), pend, log, base, held)
  {
    if choice.Attempt? {
      AttemptKeeps(n, m, pend, log, base, held, choice.outcome);
    } else if choice.OnQueue? {
      TakeKeeps(n, m, pend, log, base, held);
    } else if choice.OnRetry? {
      RetryTimerKeeps(n, m, pend, log, base, held);
    } else if n.pc.Draining? {
      if n.queue == [] {
        DrainEndKeeps(n, m, pend, log, base, held);
      } else {
        DrainOneKeeps(n, m, pend, log, base, held);
      }
    } else if n.pc.Drained? {
      SnapshotKeeps(n, m, pend, log, base, held);
    } else {
      QuietKeeps(n, m, pend, log, base, held);
    }
  }

  lemma RetryTimerKeeps(
    n: Notifier, m: map<ResourceKey, Payload>, pend: seq<Item>, log: seq<ResourceChange>, base: nat,
    held: map<ResourceKey, Payload>)
    requires SubInv(n, m, pend, log, base, held) && n.pc.Waiting? && n.retryArmed
    ensures SubInv(SubNext(n, log, OnRetry), m, pend, log, base, held)
  {
    SameLedger(n, SubNext(n, log, OnRetry), pend, log, base);
    assert Stream(SubNext(n, log, OnRetry), pend) == Stream(n, pend);
  }

  // ---------- What the invariant says ----------

  // Between deliveries, with nothing missed.
  lemma SettledAgrees(
    n: Notifier, m: map<ResourceKey, Payload>, pend: seq<Item>, log: seq<ResourceChange>, base: nat,
    held: map<ResourceKey, Payload>)
    requires SubInv(n, m, pend, log, base, held) && !n.hist.missed && (n.pc.Waiting? || n.pc.Checking?)
    ensures Agrees(Replay(m, ChangesIn(n.queue + pend)), Live(log))
  {
    assert Stream(n, pend) == ChangesIn(n.queue + pend);
  }

  // Resources held over stay, whatever is still on its way.
  lemma HeldOverRemains(
    n: Notifier, m: map<ResourceKey, Payload>, pend: seq<Item>, log: seq<ResourceChange>, base: nat,
    held: map<ResourceKey, Payload>, k: ResourceKey)
    requires SubInv(n, m, pend, log, base, held) && HeldOver(log, held, base, k)
    ensures k in Eventually(m, n, pend) && k !in Live(log)
  {
    var todo, rest := Todo(n.pc), ChangesIn(n.queue + pend);
    FromLogConcat(n.queue, pend, log, base);
    NoKeyUntouched(n.queue + pend, k);
    ReplayHas(m, todo, rest, k);
    EffectIsSome(todo, k);
    if n.pc.Delivering? { assert [n.pc.item][0] == n.pc.item; }
    HeldOverNotLive(log, base, held, k);
  }

  lemma HeldOverNotLive(log: seq<ResourceChange>, base: nat, held: map<ResourceKey, Payload>, k: ResourceKey)
    requires HeldOver(log, held, base, k)
    ensures k !in Live(log)
  {
    assert log == log[..base] + log[base..];
    EffectConcat(log[..base], log[base..], k);
    EffectTouched(log[base..], k);
    ReplayAt(map[], log, k);
    ReplayAt(map[], log[..base], k);
  }

  // With no overflow and no exhausted delivery: exactly the latest state, if and only if nothing
  // is held over.
  lemma UndisturbedExact(
    n: Notifier, m: map<ResourceKey, Payload>, pend: seq<Item>, log: seq<ResourceChange>, base: nat,
    held: map<ResourceKey, Payload>)
    requires SubInv(n, m, pend, log, base, held) && !n.hist.disturbed
    ensures Eventually(m, n, pend) == Live(log) <==> forall k :: !HeldOver(log, held, base, k)
  {
    var end := Eventually(m, n, pend);
    forall k | HeldOver(log, held, base, k) ensures k in end && k !in Live(log) {
      HeldOverRemains(n, m, pend, log, base, held, k);
    }
    if forall k :: !HeldOver(log, held, base, k) {
      forall k ensures At(end, k) == At(Live(log), k) {
        assert !LostLast(log, {}, base, k);
      }
      SameAt(end, Live(log));
    }
  }

  // A snapshot holds only Creates, so a resync makes the replica equal to the latest state exactly
  // when the replica held no resource that has been deleted.
  lemma ResyncIsExact(replica: map<ResourceKey, Payload>, log: seq<ResourceChange>)
    ensures Replay(replica, Snapshot(log)) == Live(log) <==> replica.Keys <= Live(log).Keys
  {
    var after := Replay(replica, Snapshot(log));
    forall k ensures At(after, k) == if k in Live(log) then Some(Live(log)[k]) else At(replica, k) {
      ReplayAt(replica, Snapshot(log), k);
      SnapshotEffect(log, k);
    }
    if after == Live(log) {
      forall k | k in replica ensures k in Live(log) {
        assert At(after, k).Some?;
      }
    }
    if replica.Keys <= Live(log).Keys {
      forall k ensures At(after, k) == At(Live(log), k) {
        assert k in replica ==> k in replica.Keys;
      }
      SameAt(after, Live(log));
    }
  }
}
