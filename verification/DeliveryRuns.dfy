// Whole runs in which overlapping Receive calls enqueue events of one resource in the order they
// recorded them; in particular all runs in which Receive calls do not overlap.
module DeliveryRuns {
  import opened Events
  import opened Fold
  import opened LatestState
  import opened Subscriptions
  import opened Ledgers
  import opened SubscriberInvariant
  import opened SubscriptionSafety
  import opened HandOff

  // What has been recorded and not yet been enqueued to this subscriber, oldest first.
  function Pend(jobs: seq<Job>, id: nat): seq<Item> {
    if jobs == [] then []
    else PendOf(jobs[0], id) + Pend(jobs[1..], id)
  }

  function PendOf(job: Job, id: nat): seq<Item> { if id in job.todo then [job.item] else [] }

  lemma {:induction false} PendConcat(a: seq<Job>, b: seq<Job>, id: nat)
    ensures Pend(a + b, id) == Pend(a, id) + Pend(b, id)
  {
    if a == [] {
      assert a + b == b;
    } else {
      assert (a + b)[1..] == a[1..] + b;
      PendConcat(a[1..], b, id);
      var head := PendOf(a[0], id);
      assert head + (Pend(a[1..], id) + Pend(b, id)) == head + Pend(a[1..], id) + Pend(b, id);
    }
  }

  lemma PendOne(job: Job, id: nat)
    ensures Pend([job], id) == PendOf(job, id)
  {
    assert [job][1..] == [];
  }

  lemma PendMiddle(a: seq<Job>, job: Job, b: seq<Job>, id: nat)
    ensures Pend(a + ([job] + b), id) == Pend(a, id) + (PendOf(job, id) + Pend(b, id))
  {
    PendConcat(a, [job] + b, id);
    PendConcat([job], b, id);
    PendOne(job, id);
  }

  lemma ReceivePends(jobs: seq<Job>, job: Job, id: nat)
    ensures Pend(jobs + [job], id) == if id in job.todo then Pend(jobs, id) + [job.item] else Pend(jobs, id)
  {
    PendConcat(jobs, [job], id);
    PendOne(job, id);
    assert Pend(jobs, id) + [] == Pend(jobs, id);
  }

  lemma {:induction false} PendNone(jobs: seq<Job>, id: nat)
    requires forall j :: 0 <= j < |jobs| ==> id !in jobs[j].todo
    ensures Pend(jobs, id) == []
  {
    if jobs == [] {
    } else {
      PendNone(jobs[1..], id);
    }
  }

  // Calling enqueue takes one item out of what is pending for its target.
  lemma EnqueuePends(jobs: seq<Job>, j: nat, id: nat) returns (a: seq<Item>, b: seq<Item>)
    requires j < |jobs| && jobs[j].todo != [] && Distinct(jobs[j].todo)
    ensures a == Pend(jobs[..j], id)
    ensures var jobs' := jobs[j := Job(jobs[j].item, jobs[j].todo[1..])];
            if id == jobs[j].todo[0] then Pend(jobs, id) == a + [jobs[j].item] + b && Pend(jobs', id) == a + b
            else Pend(jobs', id) == Pend(jobs, id)
  {
    var job := jobs[j];
    var job' := Job(job.item, job.todo[1..]);
    var first, last := jobs[..j], jobs[j + 1..];
    a, b := Pend(first, id), Pend(last, id);
    assert jobs == first + ([job] + last) && jobs[j := job'] == first + ([job'] + last);
    PendMiddle(first, job, last, id);
    PendMiddle(first, job', last, id);
    PendOfHead(job, id);
    Reassociate(a, [job.item], b);
    assert [] + b == b;
  }

  lemma PendOfHead(job: Job, id: nat)
    requires job.todo != [] && Distinct(job.todo)
    ensures var job' := Job(job.item, job.todo[1..]);
            if id == job.todo[0] then PendOf(job, id) == [job.item] && PendOf(job', id) == []
            else PendOf(job', id) == PendOf(job, id)
  {
    assert job.todo == [job.todo[0]] + job.todo[1..];
  }

  lemma Reassociate(a: seq<Item>, x: seq<Item>, b: seq<Item>)
    ensures a + (x + b) == a + x + b
  {
  }

  // In order, it is the head of what is pending.
  lemma EnqueuePendsFirst(jobs: seq<Job>, j: nat, id: nat) returns (b: seq<Item>)
    requires j < |jobs| && jobs[j].todo != [] && Distinct(jobs[j].todo)
    requires forall i :: 0 <= i < j ==> jobs[j].todo[0] !in jobs[i].todo
    ensures var jobs' := jobs[j := Job(jobs[j].item, jobs[j].todo[1..])];
            if id == jobs[j].todo[0] then Pend(jobs, id) == [jobs[j].item] + b && Pend(jobs', id) == b
            else Pend(jobs', id) == Pend(jobs, id)
  {
    var a;
    a, b := EnqueuePends(jobs, j, id);
    if id == jobs[j].todo[0] {
      PendNone(jobs[..j], id);
      assert a == [];
      assert [] + [jobs[j].item] + b == [jobs[j].item] + b;
      assert [] + b == b;
    }
  }

  lemma {:induction false} PendNoKey(jobs: seq<Job>, id: nat, k: ResourceKey)
    requires forall i :: 0 <= i < |jobs| && id in jobs[i].todo ==> jobs[i].item.change.key != k
    ensures NoKey(Pend(jobs, id), k)
  {
    if jobs == [] {
    } else {
      PendNoKey(jobs[1..], id, k);
    }
  }

  lemma ReturnPends(jobs: seq<Job>, j: nat, id: nat)
    requires j < |jobs| && jobs[j].todo == []
    ensures Pend(jobs[..j] + jobs[j + 1..], id) == Pend(jobs, id)
  {
    var a, b := jobs[..j], jobs[j + 1..];
    assert jobs == a + ([jobs[j]] + b);
    PendConcat(a, [jobs[j]] + b, id);
    PendConcat([jobs[j]], b, id);
    PendConcat(a, b, id);
    PendOne(jobs[j], id);
  }

  // ---------- The invariant ----------

  // The registered subscriber at id, as long as nobody else has written to its server.
  ghost predicate Kept(s: State, id: nat)
    requires id < |s.subs|
  {
    var sub := s.subs[id];
    SubInv(sub.notifier, ReplicaOf(s, id), Pend(s.jobs, id), s.log, sub.base, sub.held)
  }

  ghost predicate SinceSane(s: State) {
    forall id :: 0 <= id < |s.subs| ==> s.subs[id].since <= |EndOf(s, s.subs[id].url).arrived|
  }

  ghost predicate Inv(s: State) {
    && HandOffInv(s) && SinceSane(s)
    && forall id :: 0 <= id < |s.subs| && id in s.notifiers && OwnWrites(s, id) ==> Kept(s, id)
  }

  // A step of another notifier that leaves the server to id leaves everything of id as it was.
  lemma OthersDeliver(s: State, other: nat, choice: Choice, id: nat)
    requires Enabled(s, Deliver(other, choice)) && SinceSane(s) && id < |s.subs| && id != other
    ensures var s' := Next(s, Deliver(other, choice));
            && s'.subs[id] == s.subs[id] && SinceSane(s')
            && (OwnWrites(s', id) ==> OwnWrites(s, id) && ReplicaOf(s', id) == ReplicaOf(s, id))
  {
    var s', url := Next(s, Deliver(other, choice)), s.subs[other].url;
    OthersUnaffected(s, Deliver(other, choice), id);
    var e, e' := EndOf(s, url), EndOf(s', url);
    assert e.arrived <= e'.arrived;
    if s.subs[id].url == url && Writes(choice) {
      assert e'.arrived[|e.arrived|].sender == other;
      assert !OwnWrites(s', id);
    } else if s.subs[id].url == url && OwnWrites(s', id) {
      forall w | s.subs[id].since <= w < |e.arrived| ensures e.arrived[w].sender == id {
        assert e'.arrived[w] == e.arrived[w];
      }
    }
  }

  lemma ReceiveKeepsInv(s: State, c: ResourceChange)
    requires Inv(s)
    ensures Inv(Next(s, Receive(c)))
  {
    var s', item := Next(s, Receive(c)), Item(|s.log|, c);
    HandOffStep(s, Receive(c));
    forall id | 0 <= id < |s.subs| && id in s'.notifiers && OwnWrites(s', id) ensures Kept(s', id) {
      ReceivePends(s.jobs, Job(item, s.notifiers), id);
      ReceiveKeeps(s.subs[id].notifier, ReplicaOf(s, id), Pend(s.jobs, id), s.log, s.subs[id].base, s.subs[id].held, c);
    }
  }

  lemma EnqueueKeepsInv(s: State, j: nat)
    requires Inv(s) && Enabled(s, Enqueue(j)) && InKeyOrder(s, Enqueue(j))
    ensures Inv(Next(s, Enqueue(j)))
  {
    var s', item, target := Next(s, Enqueue(j)), s.jobs[j].item, s.jobs[j].todo[0];
    HandOffStep(s, Enqueue(j));
    forall id | 0 <= id < |s.subs| && id in s'.notifiers && OwnWrites(s', id) ensures Kept(s', id) {
      var a, b := EnqueuePends(s.jobs, j, id);
      if id == target {
        PendNoKey(s.jobs[..j], id, item.change.key);
        OfferKeeps(s.subs[id].notifier, ReplicaOf(s, id), a, item, b, s.log, s.subs[id].base, s.subs[id].held);
      }
    }
  }

  lemma AddKeepsInv(s: State, url: string)
    requires Inv(s) && Enabled(s, AddSubscriber(url))
    ensures Inv(Next(s, AddSubscriber(url)))
  {
    var s' := Next(s, AddSubscriber(url));
    HandOffStep(s, AddSubscriber(url));
    forall j | 0 <= j < |s.jobs| ensures |s.subs| !in s.jobs[j].todo {}
    PendNone(s.jobs, |s.subs|);
    forall id | 0 <= id < |s'.subs| && id in s'.notifiers && OwnWrites(s', id) ensures Kept(s', id) {
      if id == |s.subs| {
        assert s'.subs[id] == NewSub(url, s.log, EndOf(s, url));
        NewNotifierInv(s.log, EndOf(s, url).replica);
      } else {
        OthersStay(s, s', id);
      }
    }
  }

  lemma OthersStay(s: State, s': State, id: nat)
    requires id < |s.subs| && |s.subs| <= |s'.subs| && s'.subs[id] == s.subs[id]
    requires s'.ends == s.ends && s'.jobs == s.jobs && s'.log == s.log
    ensures OwnWrites(s', id) == OwnWrites(s, id) && Kept(s', id) == Kept(s, id)
  {
  }

  lemma DeliverKeepsInv(s: State, other: nat, choice: Choice)
    requires Inv(s) && Enabled(s, Deliver(other, choice))
    ensures Inv(Next(s, Deliver(other, choice)))
  {
    var s' := Next(s, Deliver(other, choice));
    HandOffStep(s, Deliver(other, choice));
    forall id | 0 <= id < |s.subs| ensures s.subs[id].since <= |EndOf(s', s.subs[id].url).arrived| {
      if id != other { OthersDeliver(s, other, choice, id); }
    }
    forall id | 0 <= id < |s.subs| && id in s'.notifiers && OwnWrites(s', id) ensures Kept(s', id) {
      if id == other {
        OwnStep(s, id, choice);
        var sub := s.subs[id];
        DeliverKeeps(sub.notifier, ReplicaOf(s, id), Pend(s.jobs, id), s.log, sub.base, sub.held, choice);
      } else {
        OthersDeliver(s, other, choice, id);
      }
    }
  }

  lemma OwnStep(s: State, id: nat, choice: Choice)
    requires Enabled(s, Deliver(id, choice)) && OwnWrites(Next(s, Deliver(id, choice)), id)
    ensures OwnWrites(s, id)
    ensures ReplicaOf(Next(s, Deliver(id, choice)), id) == Applied(ReplicaOf(s, id), s.subs[id].notifier, choice)
  {
    var s', url := Next(s, Deliver(id, choice)), s.subs[id].url;
    var e, e' := EndOf(s, url), EndOf(s', url);
    assert e.arrived <= e'.arrived;
    forall w | s.subs[id].since <= w < |e.arrived| ensures e.arrived[w].sender == id {
      assert e'.arrived[w] == e.arrived[w];
    }
  }

  lemma ReturnKeepsInv(s: State, j: nat)
    requires Inv(s) && Enabled(s, Return(j))
    ensures Inv(Next(s, Return(j)))
  {
    HandOffStep(s, Return(j));
    forall id | 0 <= id < |s.subs| ensures Pend(Next(s, Return(j)).jobs, id) == Pend(s.jobs, id) {
      ReturnPends(s.jobs, j, id);
    }
  }

  lemma RemoveKeepsInv(s: State, url: string)
    requires Inv(s) && Enabled(s, RemoveSubscriber(url))
    ensures Inv(Next(s, RemoveSubscriber(url)))
  {
    var s' := Next(s, RemoveSubscriber(url));
    HandOffStep(s, RemoveSubscriber(url));
    SpliceIds(s.notifiers, Position(s, url));
    forall id | 0 <= id < |s'.subs| && id in s'.notifiers && OwnWrites(s', id) ensures Kept(s', id) {
      OthersStay(s, s', id);
    }
  }

  lemma StepKeepsInv(s: State, a: Action)
    requires Inv(s) && Enabled(s, a) && InKeyOrder(s, a)
    ensures Inv(Next(s, a))
  {
    match a
    case Receive(c) => ReceiveKeepsInv(s, c);
    case Enqueue(j) => EnqueueKeepsInv(s, j);
    case AddSubscriber(url) => AddKeepsInv(s, url);
    case Deliver(id, choice) => DeliverKeepsInv(s, id, choice);
    case Return(j) => ReturnKeepsInv(s, j);
    case RemoveSubscriber(url) => RemoveKeepsInv(s, url);
    case CloseStop(r) => HandOffStep(s, a);
  }

  lemma {:induction false} RunsKeepInv(s: State, actions: seq<Action>)
    requires Inv(s) && Runnable(s, actions) && KeyOrderedRun(s, actions)
    ensures Inv(Run(s, actions))
    decreases |actions|
  {
    if actions == [] {
    } else {
      StepKeepsInv(s, actions[0]);
      RunsKeepInv(Next(s, actions[0]), actions[1..]);
    }
  }

  // ---------- What it means for a registered subscriber ----------

  // In the statements below, id is registered, and has had its server to itself since it was.
  ghost predicate Alone(s: State, id: nat) { id in s.notifiers && id < |s.subs| && OwnWrites(s, id) }

  // In every reachable state in which the resync flag is clear and the goroutine is between
  // deliveries, whatever overflowed, failed, was retried or was recorded meanwhile: replaying the
  // queue and what is about to be enqueued leaves every live resource at its latest payload.
  lemma NoLostResync(actions: seq<Action>, id: nat)
    requires Runnable(INIT, actions) && KeyOrderedRun(INIT, actions)
    requires var s := Run(INIT, actions);
             && Alone(s, id) && !s.subs[id].notifier.resync
             && (s.subs[id].notifier.pc.Waiting? || s.subs[id].notifier.pc.Checking?)
    ensures var s := Run(INIT, actions);
            Agrees(Replay(ReplicaOf(s, id), ChangesIn(s.subs[id].notifier.queue + Pend(s.jobs, id))), Live(s.log))
  {
    RunsKeepInv(INIT, actions);
    var s := Run(INIT, actions);
    assert Kept(s, id);
    SettledAgrees(s.subs[id].notifier, ReplicaOf(s, id), Pend(s.jobs, id), s.log, s.subs[id].base, s.subs[id].held);
  }

  // The flag may be set while the goroutine waits with an empty queue and no timer running, so
  // that nothing will make it resync. Unless AddSubscriber's replay failed, nothing needs to: the
  // drain and snapshot it has done since it last lost an event made up for it.
  lemma IdleMeansUpToDate(actions: seq<Action>, id: nat)
    requires Runnable(INIT, actions) && KeyOrderedRun(INIT, actions)
    requires var s := Run(INIT, actions);
             && Alone(s, id) && s.subs[id].notifier.pc.Waiting?
             && !WillWake(s.subs[id].notifier) && !s.subs[id].notifier.hist.replayFailed
    ensures var s := Run(INIT, actions);
            Agrees(Replay(ReplicaOf(s, id), ChangesIn(Pend(s.jobs, id))), Live(s.log))
  {
    StallExactly(actions, id);
  }

  // In every reachable state in which the goroutine of a registered subscriber waits: it can do
  // nothing until an event is enqueued exactly when its queue is empty and no timer runs; and if it
  // then lacks a live resource that is not on its way, its flag is set, and its first replay failed
  // and no drain has been finished since.
  lemma StallExactly(actions: seq<Action>, id: nat)
    requires Runnable(INIT, actions) && KeyOrderedRun(INIT, actions)
    requires var s := Run(INIT, actions); Alone(s, id) && s.subs[id].notifier.pc.Waiting?
    ensures var s := Run(INIT, actions); var n := s.subs[id].notifier;
            && s.subs[id].closed == 0
            && ((forall choice :: !SubEnabled(n, false, choice)) <==> n.queue == [] && !n.retryArmed)
            && (n.queue == [] && !n.retryArmed ==>
                  Agrees(Replay(ReplicaOf(s, id), ChangesIn(Pend(s.jobs, id))), Live(s.log))
                  || (n.resync && n.hist.replayFailed))
  {
    RunsKeepInv(INIT, actions);
    var s := Run(INIT, actions);
    assert Kept(s, id);
    Stalls(s.subs[id].notifier, ReplicaOf(s, id), Pend(s.jobs, id), s.log, s.subs[id].base, s.subs[id].held);
  }

  lemma Stalls(
    n: Notifier, m: map<ResourceKey, Payload>, pend: seq<Item>, log: seq<ResourceChange>, base: nat,
    held: map<ResourceKey, Payload>)
    requires SubInv(n, m, pend, log, base, held) && n.pc.Waiting?
    ensures (forall choice :: !SubEnabled(n, false, choice)) <==> n.queue == [] && !n.retryArmed
    ensures n.queue == [] && !n.retryArmed ==>
              Agrees(Replay(m, ChangesIn(pend)), Live(log)) || (n.resync && n.hist.replayFailed)
  {
    if forall choice :: !SubEnabled(n, false, choice) {
      assert !SubEnabled(n, false, OnQueue) && !SubEnabled(n, false, OnRetry);
    }
    if n.queue == [] && !n.retryArmed && !n.hist.missed {
      assert n.queue + pend == pend;
      SettledAgrees(n, m, pend, log, base, held);
    }
  }

  // At any moment, anything else it will hold is a resource whose last change is a Delete, recorded
  // since the subscriber was registered, that was dropped on overflow, discarded by drainQueue, or
  // given up by deliver; or one it held when it was registered that was not live then and has not
  // changed since. Those it will hold in any case.
  lemma ExactLeftovers(actions: seq<Action>, id: nat, k: ResourceKey)
    requires Runnable(INIT, actions) && KeyOrderedRun(INIT, actions)
    requires Alone(Run(INIT, actions), id)
    ensures var s := Run(INIT, actions); var sub := s.subs[id];
            var left := k in Eventually(ReplicaOf(s, id), sub.notifier, Pend(s.jobs, id)) && k !in Live(s.log);
            && (HeldOver(s.log, sub.held, sub.base, k) ==> left)
            && (left && !HeldOver(s.log, sub.held, sub.base, k) ==>
                  exists d :: sub.base <= d < |s.log| && LastChange(s.log, k, d) && s.log[d] == Del(k)
                           && d in sub.notifier.hist.lost)
  {
    RunsKeepInv(INIT, actions);
    var s := Run(INIT, actions);
    assert Kept(s, id);
    var sub := s.subs[id];
    if HeldOver(s.log, sub.held, sub.base, k) {
      HeldOverRemains(sub.notifier, ReplicaOf(s, id), Pend(s.jobs, id), s.log, sub.base, sub.held, k);
    }
  }

  // With no overflow and no exhausted delivery the subscriber ends up with exactly the latest
  // state, and has it once nothing is on its way, if and only if nothing is held over.
  lemma UndisturbedRunIsExact(actions: seq<Action>, id: nat)
    requires Runnable(INIT, actions) && KeyOrderedRun(INIT, actions)
    requires Alone(Run(INIT, actions), id) && !Run(INIT, actions).subs[id].notifier.hist.disturbed
    ensures var s := Run(INIT, actions); var sub := s.subs[id];
            var none := forall k :: !HeldOver(s.log, sub.held, sub.base, k);
            && (Eventually(ReplicaOf(s, id), sub.notifier, Pend(s.jobs, id)) == Live(s.log) <==> none)
            && (Stream(sub.notifier, Pend(s.jobs, id)) == [] ==> (ReplicaOf(s, id) == Live(s.log) <==> none))
  {
    RunsKeepInv(INIT, actions);
    var s := Run(INIT, actions);
    assert Kept(s, id);
    UndisturbedExact(s.subs[id].notifier, ReplicaOf(s, id), Pend(s.jobs, id), s.log, s.subs[id].base, s.subs[id].held);
  }
}
