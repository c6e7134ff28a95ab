// Registering a subscriber while events are being recorded: each event reaches it once.
module HandOff {
  import opened LatestState
  import opened Subscriptions
  import opened SubscriptionSafety

  // Receive calls in flight, oldest first: what they recorded and whom they have still to tell.
  ghost predicate JobsInv(jobs: seq<Job>, log: seq<ResourceChange>, n: nat) {
    && (forall j :: 0 <= j < |jobs| ==>
          && Known(jobs[j].todo, n) && Distinct(jobs[j].todo)
          && jobs[j].item.idx < |log| && jobs[j].item.change == log[jobs[j].item.idx])
    && (forall i, j :: 0 <= i < j < |jobs| ==> jobs[i].item.idx < jobs[j].item.idx)
  }

  // The event at position i has been recorded and a Receive call is about to enqueue it to id.
  ghost predicate Awaits(jobs: seq<Job>, id: nat, i: nat) {
    exists j :: 0 <= j < |jobs| && jobs[j].item.idx == i && id in jobs[j].todo
  }

  // Recorded before registration: in the snapshot. Recorded since: enqueued or about to be, not
  // both, and for a registered subscriber one of the two.
  ghost predicate HandedOff(sub: Sub, registered: bool, id: nat, jobs: seq<Job>, log: seq<ResourceChange>) {
    && sub.base <= |log| && sub.past == Snapshot(log[..sub.base])
    && Distinct(sub.addressed)
    && (forall i :: i in sub.addressed ==> sub.base <= i < |log|)
    && (forall i: nat :: Awaits(jobs, id, i) ==> sub.base <= i < |log| && i !in sub.addressed)
    && (registered ==> forall i :: sub.base <= i < |log| ==> i in sub.addressed || Awaits(jobs, id, i))
  }

  ghost predicate HandOffInv(s: State) {
    && RegistryInv(s) && JobsInv(s.jobs, s.log, |s.subs|)
    && forall id :: 0 <= id < |s.subs| ==> HandedOff(s.subs[id], id in s.notifiers, id, s.jobs, s.log)
  }

  lemma ReceiveAwaits(s: State, c: ResourceChange)
    ensures forall id, i :: Awaits(Next(s, Receive(c)).jobs, id, i) <==>
              Awaits(s.jobs, id, i) || (i == |s.log| && id in s.notifiers)
  {
    var s' := Next(s, Receive(c));
    forall id, i ensures Awaits(s'.jobs, id, i) <==> Awaits(s.jobs, id, i) || (i == |s.log| && id in s.notifiers) {
      if i == |s.log| && id in s.notifiers { assert s'.jobs[|s.jobs|].item.idx == i; }
      if Awaits(s.jobs, id, i) {
        var j :| 0 <= j < |s.jobs| && s.jobs[j].item.idx == i && id in s.jobs[j].todo;
        assert s'.jobs[j].item.idx == i;
      }
    }
  }

  lemma ReceiveHandsOff(s: State, c: ResourceChange)
    requires HandOffInv(s)
    ensures HandOffInv(Next(s, Receive(c)))
  {
    var s' := Next(s, Receive(c));
    RegistryStep(s, Receive(c));
    ReceiveAwaits(s, c);
    forall id | 0 <= id < |s.subs| ensures HandedOff(s'.subs[id], id in s'.notifiers, id, s'.jobs, s'.log) {
      assert s'.log[..s.subs[id].base] == s.log[..s.subs[id].base];
    }
  }

  // Enqueueing takes exactly one pair of event and subscriber off what is awaited.
  lemma EnqueueAwaits(jobs: seq<Job>, log: seq<ResourceChange>, n: nat, j: nat, jobs': seq<Job>)
    requires JobsInv(jobs, log, n) && j < |jobs| && jobs[j].todo != []
    requires jobs' == jobs[j := Job(jobs[j].item, jobs[j].todo[1..])]
    ensures JobsInv(jobs', log, n)
    ensures forall id, i :: Awaits(jobs', id, i) <==>
              Awaits(jobs, id, i) && !(id == jobs[j].todo[0] && i == jobs[j].item.idx)
  {
    forall id ensures id in jobs'[j].todo <==> id in jobs[j].todo && id != jobs[j].todo[0] {
      assert jobs[j].todo == [jobs[j].todo[0]] + jobs[j].todo[1..];
    }
    forall id, i ensures Awaits(jobs', id, i) <==>
                           Awaits(jobs, id, i) && !(id == jobs[j].todo[0] && i == jobs[j].item.idx)
    {
      if Awaits(jobs', id, i) {
        var k :| 0 <= k < |jobs'| && jobs'[k].item.idx == i && id in jobs'[k].todo;
        assert jobs[k].item.idx == i && id in jobs[k].todo;
      }
      if Awaits(jobs, id, i) && !(id == jobs[j].todo[0] && i == jobs[j].item.idx) {
        var k :| 0 <= k < |jobs| && jobs[k].item.idx == i && id in jobs[k].todo;
        assert jobs'[k].item.idx == i && id in jobs'[k].todo;
      }
    }
  }

  lemma EnqueueHandsOff(s: State, j: nat)
    requires HandOffInv(s) && Enabled(s, Enqueue(j))
    ensures HandOffInv(Next(s, Enqueue(j)))
  {
    var s' := Next(s, Enqueue(j));
    RegistryStep(s, Enqueue(j));
    EnqueueAwaits(s.jobs, s.log, |s.subs|, j, s'.jobs);
    assert Awaits(s.jobs, s.jobs[j].todo[0], s.jobs[j].item.idx);
  }

  lemma ReturnKeepsJobs(jobs: seq<Job>, log: seq<ResourceChange>, n: nat, j: nat, jobs': seq<Job>)
    requires JobsInv(jobs, log, n) && j < |jobs| && jobs[j].todo == []
    requires jobs' == jobs[..j] + jobs[j + 1..]
    ensures JobsInv(jobs', log, n)
  {
    forall k | 0 <= k < |jobs'| ensures jobs'[k] == jobs[if k < j then k else k + 1] {}
  }

  lemma ReturnAwaits(jobs: seq<Job>, j: nat, jobs': seq<Job>)
    requires j < |jobs| && jobs[j].todo == []
    requires jobs' == jobs[..j] + jobs[j + 1..]
    ensures forall id, i :: Awaits(jobs', id, i) <==> Awaits(jobs, id, i)
  {
    forall id, i ensures Awaits(jobs', id, i) <==> Awaits(jobs, id, i) {
      if Awaits(jobs', id, i) {
        var k :| 0 <= k < |jobs'| && jobs'[k].item.idx == i && id in jobs'[k].todo;
        assert jobs[if k < j then k else k + 1] == jobs'[k];
      }
      if Awaits(jobs, id, i) {
        var k :| 0 <= k < |jobs| && jobs[k].item.idx == i && id in jobs[k].todo;
        assert jobs'[if k < j then k else k - 1] == jobs[k];
      }
    }
  }

  lemma AddHandsOff(s: State, url: string)
    requires HandOffInv(s) && Enabled(s, AddSubscriber(url))
    ensures HandOffInv(Next(s, AddSubscriber(url)))
  {
    var s' := Next(s, AddSubscriber(url));
    RegistryStep(s, AddSubscriber(url));
    assert s.log[..|s.log|] == s.log;
    forall id | 0 <= id < |s.subs| ensures id in s'.notifiers <==> id in s.notifiers {}
  }

  lemma RemoveHandsOff(s: State, url: string)
    requires HandOffInv(s) && Enabled(s, RemoveSubscriber(url))
    ensures HandOffInv(Next(s, RemoveSubscriber(url)))
  {
    RegistryStep(s, RemoveSubscriber(url));
    SpliceIds(s.notifiers, Position(s, url));
  }

  lemma HandOffStep(s: State, a: Action)
    requires HandOffInv(s) && Enabled(s, a)
    ensures HandOffInv(Next(s, a))
  {
    match a
    case Receive(c) => ReceiveHandsOff(s, c);
    case Enqueue(j) => EnqueueHandsOff(s, j);
    case Return(j) =>
      RegistryStep(s, a);
      ReturnKeepsJobs(s.jobs, s.log, |s.subs|, j, Next(s, a).jobs);
      ReturnAwaits(s.jobs, j, Next(s, a).jobs);
    case AddSubscriber(url) => AddHandsOff(s, url);
    case RemoveSubscriber(url) => RemoveHandsOff(s, url);
    case CloseStop(r) => RegistryStep(s, a);
    case Deliver(_, _) => RegistryStep(s, a);
  }

  lemma {:induction false} HandOffRuns(s: State, actions: seq<Action>)
    requires HandOffInv(s) && Runnable(s, actions)
    ensures HandOffInv(Run(s, actions))
    decreases |actions|
  {
    if actions == [] {
    } else {
      HandOffStep(s, actions[0]);
      HandOffRuns(Next(s, actions[0]), actions[1..]);
    }
  }

  // In every interleaving of Receive and AddSubscriber, for every registered subscriber: an event
  // is reflected in the snapshot it was given, or it is on its way to or has reached its queue;
  // never both, never neither, and never enqueued twice.
  lemma SubscriptionHandOff(actions: seq<Action>, id: nat, i: nat)
    requires Runnable(INIT, actions)
    requires id in Run(INIT, actions).notifiers && i < |Run(INIT, actions).log|
    ensures var s := Run(INIT, actions);
            && id < |s.subs| && s.subs[id].base <= |s.log|
            && s.subs[id].past == Snapshot(s.log[..s.subs[id].base])
            && Distinct(s.subs[id].addressed)
            && (i < s.subs[id].base <==> !(i in s.subs[id].addressed || Awaits(s.jobs, id, i)))
            && !(i in s.subs[id].addressed && Awaits(s.jobs, id, i))
  {
    HandOffRuns(INIT, actions);
  }
}
