// Exactly when events reach the queues in the order in which they were recorded.
module RecordOrder {
  import opened LatestState
  import opened Subscriptions
  import opened HandOff
  import opened DeliveryOrder
  import opened DeliveryRuns

  // For every subscriber: the positions enqueue has been called with, in the order of the calls,
  // followed by those it is about to be called with, oldest first.
  ghost predicate QueuedInOrder(s: State) {
    forall id :: 0 <= id < |s.subs| ==> Increasing(s.subs[id].addressed + Positions(Pend(s.jobs, id)), |s.log|)
  }

  // The same, with what is pending read off the calls in flight.
  ghost predicate InOrderFor(addressed: seq<nat>, jobs: seq<Job>, id: nat, bound: nat) {
    Increasing(addressed, bound) && forall a: nat, i: nat :: a in addressed && Awaits(jobs, id, i) ==> a < i
  }

  ghost predicate Tidy(s: State) {
    forall id :: 0 <= id < |s.subs| ==> InOrderFor(s.subs[id].addressed, s.jobs, id, |s.log|)
  }

  // ---------- What is pending is what is awaited ----------

  lemma {:induction false} PendIsAwaited(jobs: seq<Job>, id: nat)
    ensures forall i: nat :: i in Positions(Pend(jobs, id)) <==> Awaits(jobs, id, i)
  {
    if jobs == [] {
    } else {
      PendIsAwaited(jobs[1..], id);
      var head := PendOf(jobs[0], id);
      assert Positions(Pend(jobs, id)) == Positions(head) + Positions(Pend(jobs[1..], id));
      assert Positions(head) == if id in jobs[0].todo then [jobs[0].item.idx] else [];
      forall i: nat ensures Awaits(jobs, id, i) <==> i in Positions(head) || Awaits(jobs[1..], id, i) {
        AwaitsCons(jobs, id, i);
      }
    }
  }

  lemma AwaitsCons(jobs: seq<Job>, id: nat, i: nat)
    requires jobs != []
    ensures Awaits(jobs, id, i) <==> (jobs[0].item.idx == i && id in jobs[0].todo) || Awaits(jobs[1..], id, i)
  {
    if Awaits(jobs, id, i) && !(jobs[0].item.idx == i && id in jobs[0].todo) {
      var j :| 0 <= j < |jobs| && jobs[j].item.idx == i && id in jobs[j].todo;
      assert jobs[1..][j - 1] == jobs[j];
    }
    if Awaits(jobs[1..], id, i) {
      var j :| 0 <= j < |jobs[1..]| && jobs[1..][j].item.idx == i && id in jobs[1..][j].todo;
      assert jobs[j + 1] == jobs[1..][j];
    }
  }

  lemma HeadBefore(jobs: seq<Job>, log: seq<ResourceChange>, n: nat, id: nat)
    requires JobsInv(jobs, log, n) && jobs != []
    ensures forall i: nat :: Awaits(jobs[1..], id, i) ==> jobs[0].item.idx < i
  {
    forall i: nat | Awaits(jobs[1..], id, i) ensures jobs[0].item.idx < i {
      var j :| 0 <= j < |jobs[1..]| && jobs[1..][j].item.idx == i && id in jobs[1..][j].todo;
      assert jobs[j + 1] == jobs[1..][j];
    }
  }

  lemma {:induction false} PendIncreases(jobs: seq<Job>, log: seq<ResourceChange>, n: nat, id: nat)
    requires JobsInv(jobs, log, n)
    ensures Increasing(Positions(Pend(jobs, id)), |log|)
  {
    if jobs == [] {
    } else {
      PendIncreases(jobs[1..], log, n, id);
      PendIsAwaited(jobs[1..], id);
      var rest := Positions(Pend(jobs[1..], id));
      HeadBefore(jobs, log, n, id);
      forall i | 0 <= i < |rest| ensures jobs[0].item.idx < rest[i] {
        assert rest[i] in rest;
      }
      if id in jobs[0].todo {
        assert Positions(Pend(jobs, id)) == [jobs[0].item.idx] + rest;
      } else {
        assert Pend(jobs, id) == Pend(jobs[1..], id);
      }
    }
  }

  lemma IncreasingConcat(a: seq<nat>, b: seq<nat>, bound: nat)
    requires Increasing(b, bound)
    ensures Increasing(a + b, bound) <==> Increasing(a, bound) && forall x, y :: x in a && y in b ==> x < y
  {
    var all := a + b;
    if Increasing(all, bound) {
      forall i | 0 <= i < |a| ensures a[i] == all[i] {}
      forall x, y | x in a && y in b ensures x < y {
        var i :| 0 <= i < |a| && a[i] == x;
        var j :| 0 <= j < |b| && b[j] == y;
        assert all[i] == x && all[|a| + j] == y;
      }
    }
    if Increasing(a, bound) && forall x, y :: x in a && y in b ==> x < y {
      forall i, j | 0 <= i < j < |all| ensures all[i] < all[j] {
        if i < |a| <= j { assert a[i] in a && b[j - |a|] in b; }
      }
    }
  }

  lemma TidyMeans(s: State)
    requires HandOffInv(s)
    ensures Tidy(s) <==> QueuedInOrder(s)
  {
    forall id | 0 <= id < |s.subs|
      ensures InOrderFor(s.subs[id].addressed, s.jobs, id, |s.log|) <==>
                Increasing(s.subs[id].addressed + Positions(Pend(s.jobs, id)), |s.log|)
    {
      PendIncreases(s.jobs, s.log, |s.subs|, id);
      PendIsAwaited(s.jobs, id);
      IncreasingConcat(s.subs[id].addressed, Positions(Pend(s.jobs, id)), |s.log|);
    }
  }

  // ---------- Steps ----------

  // Enqueueing is in order exactly when the event is the oldest one its target awaits.
  lemma InOrderMeansOldest(s: State, j: nat)
    requires HandOffInv(s) && Enabled(s, Enqueue(j))
    ensures InOrder(s, Enqueue(j)) <==>
              forall i: nat :: Awaits(s.jobs, s.jobs[j].todo[0], i) ==> s.jobs[j].item.idx <= i
  {
    var id, p := s.jobs[j].todo[0], s.jobs[j].item.idx;
    if InOrder(s, Enqueue(j)) {
      forall i: nat | Awaits(s.jobs, id, i) ensures p <= i {
        var k :| 0 <= k < |s.jobs| && s.jobs[k].item.idx == i && id in s.jobs[k].todo;
        assert k >= j;
      }
    }
    if forall i: nat :: Awaits(s.jobs, id, i) ==> p <= i {
      forall k | 0 <= k < |s.jobs| && id in s.jobs[k].todo ensures p <= s.jobs[k].item.idx {
        assert Awaits(s.jobs, id, s.jobs[k].item.idx);
      }
    }
  }

  lemma TargetTidy(addressed: seq<nat>, jobs: seq<Job>, jobs': seq<Job>, id: nat, p: nat, bound: nat)
    requires Awaits(jobs, id, p) && p < bound
    requires forall i: nat :: Awaits(jobs', id, i) <==> Awaits(jobs, id, i) && i != p
    ensures InOrderFor(addressed + [p], jobs', id, bound) <==>
              InOrderFor(addressed, jobs, id, bound) && (forall i: nat :: Awaits(jobs, id, i) ==> p <= i)
  {
    var all := addressed + [p];
    IncreasingConcat(addressed, [p], bound);
    assert p in [p] && p in all;
    if InOrderFor(all, jobs', id, bound) {
      forall a: nat, i: nat | a in addressed && Awaits(jobs, id, i) ensures a < i {
        assert a in all;
        assert i == p || Awaits(jobs', id, i);
      }
      forall i: nat | Awaits(jobs, id, i) ensures p <= i {
        assert i == p || Awaits(jobs', id, i);
      }
    }
    if InOrderFor(addressed, jobs, id, bound) && (forall i: nat :: Awaits(jobs, id, i) ==> p <= i) {
      forall a: nat, i: nat | a in all && Awaits(jobs', id, i) ensures a < i {
        assert a in addressed || a == p;
      }
    }
  }

  lemma EnqueueTidy(s: State, j: nat)
    requires HandOffInv(s) && Enabled(s, Enqueue(j))
    ensures Tidy(Next(s, Enqueue(j))) <==> Tidy(s) && InOrder(s, Enqueue(j))
  {
    var s', target, p := Next(s, Enqueue(j)), s.jobs[j].todo[0], s.jobs[j].item.idx;
    EnqueueAwaits(s.jobs, s.log, |s.subs|, j, s'.jobs);
    InOrderMeansOldest(s, j);
    assert Awaits(s.jobs, target, p);
    assert s'.subs[target].addressed == s.subs[target].addressed + [p];
    TargetTidy(s.subs[target].addressed, s.jobs, s'.jobs, target, p, |s.log|);
    forall id | 0 <= id < |s.subs| && id != target
      ensures InOrderFor(s'.subs[id].addressed, s'.jobs, id, |s.log|) <==>
                InOrderFor(s.subs[id].addressed, s.jobs, id, |s.log|) {}
  }

  lemma ReceiveTidy(s: State, c: ResourceChange)
    requires HandOffInv(s)
    ensures Tidy(Next(s, Receive(c))) <==> Tidy(s)
  {
    var s' := Next(s, Receive(c));
    ReceiveAwaits(s, c);
    forall id | 0 <= id < |s.subs|
      ensures InOrderFor(s'.subs[id].addressed, s'.jobs, id, |s'.log|) <==>
                InOrderFor(s.subs[id].addressed, s.jobs, id, |s.log|)
    {
      assert HandedOff(s.subs[id], id in s.notifiers, id, s.jobs, s.log);
      forall i | 0 <= i < |s.subs[id].addressed| ensures s.subs[id].addressed[i] < |s.log| {
        assert s.subs[id].addressed[i] in s.subs[id].addressed;
      }
    }
  }

  lemma AddTidy(s: State, url: string)
    requires HandOffInv(s) && Enabled(s, AddSubscriber(url))
    ensures Tidy(Next(s, AddSubscriber(url))) <==> Tidy(s)
  {
    var s' := Next(s, AddSubscriber(url));
    assert s'.subs[|s.subs|].addressed == [];
    forall id | 0 <= id < |s.subs| ensures s'.subs[id] == s.subs[id] {}
  }

  lemma StepTidy(s: State, a: Action)
    requires HandOffInv(s) && Enabled(s, a)
    ensures Tidy(Next(s, a)) <==> Tidy(s) && InOrder(s, a)
  {
    match a
    case Receive(c) => ReceiveTidy(s, c);
    case Enqueue(j) => EnqueueTidy(s, j);
    case Return(j) => ReturnAwaits(s.jobs, j, Next(s, a).jobs);
    case AddSubscriber(url) => AddTidy(s, url);
    case RemoveSubscriber(url) =>
    case CloseStop(_) => SameTidy(s, Next(s, a));
    case Deliver(_, _) => SameTidy(s, Next(s, a));
  }

  lemma SameTidy(s: State, s': State)
    requires s'.log == s.log && s'.jobs == s.jobs && |s'.subs| == |s.subs|
    requires forall id :: 0 <= id < |s.subs| ==> s'.subs[id].addressed == s.subs[id].addressed
    ensures Tidy(s') <==> Tidy(s)
  {
    forall id | 0 <= id < |s.subs|
      ensures InOrderFor(s'.subs[id].addressed, s'.jobs, id, |s'.log|) <==>
                InOrderFor(s.subs[id].addressed, s.jobs, id, |s.log|) {}
  }

  lemma {:induction false} OrderedIsTidy(s: State, actions: seq<Action>)
    requires HandOffInv(s) && Runnable(s, actions)
    ensures Tidy(s) && OrderedRun(s, actions) <==> Tidy(Run(s, actions))
    decreases |actions|
  {
    if actions == [] {
    } else {
      HandOffStep(s, actions[0]);
      StepTidy(s, actions[0]);
      OrderedIsTidy(Next(s, actions[0]), actions[1..]);
    }
  }

  // ---------- The exact condition ----------

  // Every enqueue of a run was in order if and only if, at its end, every subscriber has been and
  // will be addressed in strictly increasing record order. An event that overtook an older one is
  // never put right by what follows.
  lemma OrderedExactly(actions: seq<Action>)
    requires Runnable(INIT, actions)
    ensures OrderedRun(INIT, actions) <==> QueuedInOrder(Run(INIT, actions))
  {
    HandOffRuns(INIT, actions);
    OrderedIsTidy(INIT, actions);
    TidyMeans(Run(INIT, actions));
  }
}
