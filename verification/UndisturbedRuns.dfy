// Runs with no overflow and no exhausted delivery at one subscriber, in whatever order overlapping
// Receive calls enqueue: what the subscriber ends up with, and exactly when that is the latest state.
module UndisturbedRuns {
  import opened Wrappers
  import opened Events
  import opened Fold
  import opened LatestState
  import opened Subscriptions
  import opened Ledgers
  import opened SubscriberInvariant
  import opened SubscriptionSafety
  import opened HandOff
  import opened DeliveryRuns

  ghost predicate Within(ns: seq<nat>, log: seq<ResourceChange>) { forall i :: 0 <= i < |ns| ==> ns[i] < |log| }

  function ChangesAt(log: seq<ResourceChange>, ns: seq<nat>): seq<ResourceChange>
    requires Within(ns, log)
  {
    seq(|ns|, i requires 0 <= i < |ns| => log[ns[i]])
  }

  // What is held, in hand and queued is what was held, the snapshot and what enqueue was called with.
  ghost predicate Tally(
    n: Notifier, m: map<ResourceKey, Payload>, held: map<ResourceKey, Payload>, past: seq<ResourceChange>,
    addressed: seq<nat>, log: seq<ResourceChange>)
  {
    && Within(addressed, log)
    && Replay(m, Todo(n.pc) + ChangesIn(n.queue)) == Replay(held, past + ChangesAt(log, addressed))
  }

  ghost predicate SubTally(s: State, id: nat)
    requires id < |s.subs|
  {
    var sub := s.subs[id];
    && Flagged(sub.notifier)
    && (!sub.notifier.hist.disturbed && OwnWrites(s, id) ==>
          Tally(sub.notifier, ReplicaOf(s, id), sub.held, sub.past, sub.addressed, s.log))
  }

  ghost predicate TallyInv(s: State) {
    && HandOffInv(s) && SinceSane(s)
    && forall id :: 0 <= id < |s.subs| && id in s.notifiers ==> SubTally(s, id)
  }

  // ---------- Steps ----------

  lemma OfferFlagged(n: Notifier, item: Item)
    requires Flagged(n)
    ensures Flagged(Offer(n, item))
  {
  }

  lemma DeliverFlagged(n: Notifier, log: seq<ResourceChange>, choice: Choice)
    requires Flagged(n) && SubEnabled(n, false, choice)
    ensures Flagged(SubNext(n, log, choice))
  {
    if Busy(n.pc) {
      FailShape(n);
    } else if choice.Proceed? && !n.pc.Draining? && !n.pc.Drained? {
      QuietFrame(n, log);
    }
  }

  lemma OfferTally(
    n: Notifier, item: Item, m: map<ResourceKey, Payload>, held: map<ResourceKey, Payload>, past: seq<ResourceChange>,
    addressed: seq<nat>, log: seq<ResourceChange>)
    requires Tally(n, m, held, past, addressed, log) && |n.queue| < NOTIFY_QUEUE_DEPTH
    requires item.idx < |log| && item.change == log[item.idx]
    ensures Tally(Offer(n, item), m, held, past, addressed + [item.idx], log)
  {
    var before, told := Todo(n.pc) + ChangesIn(n.queue), past + ChangesAt(log, addressed);
    OneMoreQueued(Todo(n.pc), n.queue, item);
    OneMoreAddressed(past, log, addressed, item.idx);
    ReplayAppend(m, before, item.change);
    ReplayAppend(held, told, item.change);
  }

  lemma OneMoreQueued(todo: seq<ResourceChange>, queue: seq<Item>, item: Item)
    ensures todo + ChangesIn(queue + [item]) == todo + ChangesIn(queue) + [item.change]
  {
    assert ChangesIn(queue + [item]) == ChangesIn(queue) + [item.change];
  }

  lemma OneMoreAddressed(past: seq<ResourceChange>, log: seq<ResourceChange>, addressed: seq<nat>, i: nat)
    requires Within(addressed, log) && i < |log|
    ensures Within(addressed + [i], log)
    ensures past + ChangesAt(log, addressed + [i]) == past + ChangesAt(log, addressed) + [log[i]]
  {
    assert ChangesAt(log, addressed + [i]) == ChangesAt(log, addressed) + [log[i]];
  }

  lemma AttemptTally(
    n: Notifier, m: map<ResourceKey, Payload>, held: map<ResourceKey, Payload>, past: seq<ResourceChange>,
    addressed: seq<nat>, log: seq<ResourceChange>, outcome: Outcome)
    requires Tally(n, m, held, past, addressed, log) && Busy(n.pc)
    requires outcome.Delivered? || n.pc.failures + 1 < NOTIFY_MAX_ATTEMPTS
    ensures Tally(Tried(n, outcome), Applied(m, n, Attempt(outcome)), held, past, addressed, log)
  {
    var rest := Todo(n.pc)[1..] + ChangesIn(n.queue);
    HeadOfTodo(n);
    if outcome.Delivered? {
      ReplayPrepend(m, Hand(n.pc), rest);
    } else {
      TriedIs(n, m, outcome);
      ApplyTwice(m, Hand(n.pc), rest);
    }
  }

  lemma HeadOfTodo(n: Notifier)
    requires Busy(n.pc)
    ensures var rest := Todo(n.pc)[1..] + ChangesIn(n.queue);
            && Todo(n.pc) + ChangesIn(n.queue) == [Hand(n.pc)] + rest
            && Todo(Tried(n, Delivered).pc) + ChangesIn(Tried(n, Delivered).queue) == rest
  {
  }

  lemma DeliverTally(
    n: Notifier, m: map<ResourceKey, Payload>, held: map<ResourceKey, Payload>, past: seq<ResourceChange>,
    addressed: seq<nat>, log: seq<ResourceChange>, choice: Choice)
    requires Flagged(n) && SubEnabled(n, false, choice) && Tally(n, m, held, past, addressed, log)
    requires !SubNext(n, log, choice).hist.disturbed && !n.hist.disturbed
    ensures Tally(SubNext(n, log, choice), Applied(m, n, choice), held, past, addressed, log)
  {
    if Busy(n.pc) {
      AttemptTally(n, m, held, past, addressed, log, choice.outcome);
    } else if choice.OnQueue? {
      TakeStream(n, log);
    } else if choice.Proceed? {
      QuietFrame(n, log);
    }
  }

  lemma TakeStream(n: Notifier, log: seq<ResourceChange>)
    requires n.pc.Waiting? && n.queue != []
    ensures var n' := SubNext(n, log, OnQueue);
            Todo(n'.pc) + ChangesIn(n'.queue) == Todo(n.pc) + ChangesIn(n.queue)
  {
    var first, rest := n.queue[0], n.queue[1..];
    assert n.queue == [first] + rest;
    assert ChangesIn([first] + rest) == [first.change] + ChangesIn(rest);
  }

  lemma ReceiveTally(s: State, c: ResourceChange)
    requires TallyInv(s)
    ensures TallyInv(Next(s, Receive(c)))
  {
    var s' := Next(s, Receive(c));
    HandOffStep(s, Receive(c));
    forall id | 0 <= id < |s'.subs| && id in s'.notifiers ensures SubTally(s', id) {
      var sub := s.subs[id];
      assert SubTally(s, id);
      if !sub.notifier.hist.disturbed && OwnWrites(s, id) {
        assert ChangesAt(s'.log, sub.addressed) == ChangesAt(s.log, sub.addressed);
      }
    }
  }

  lemma EnqueueTally(s: State, j: nat)
    requires TallyInv(s) && Enabled(s, Enqueue(j))
    ensures TallyInv(Next(s, Enqueue(j)))
  {
    var s', item, target := Next(s, Enqueue(j)), s.jobs[j].item, s.jobs[j].todo[0];
    HandOffStep(s, Enqueue(j));
    forall id | 0 <= id < |s'.subs| && id in s'.notifiers ensures SubTally(s', id) {
      var sub := s.subs[id];
      assert SubTally(s, id);
      if id == target {
        OfferFlagged(sub.notifier, item);
        if |sub.notifier.queue| < NOTIFY_QUEUE_DEPTH && !sub.notifier.hist.disturbed && OwnWrites(s, id) {
          OfferTally(sub.notifier, item, ReplicaOf(s, id), sub.held, sub.past, sub.addressed, s.log);
        }
      }
    }
  }

  lemma AddTally(s: State, url: string)
    requires TallyInv(s) && Enabled(s, AddSubscriber(url))
    ensures TallyInv(Next(s, AddSubscriber(url)))
  {
    var s' := Next(s, AddSubscriber(url));
    HandOffStep(s, AddSubscriber(url));
    forall id | 0 <= id < |s'.subs| && id in s'.notifiers ensures SubTally(s', id) {
      if id == |s.subs| {
        NewTally(s.log, EndOf(s, url).replica);
      } else {
        SameTally(s, s', id);
      }
    }
  }

  lemma NewTally(log: seq<ResourceChange>, held: map<ResourceKey, Payload>)
    ensures Flagged(NewNotifier(log)) && Tally(NewNotifier(log), held, held, Snapshot(log), [], log)
  {
    assert ChangesAt(log, []) == ChangesIn([]) == [];
  }

  lemma SameTally(s: State, s': State, id: nat)
    requires id < |s.subs| && |s.subs| <= |s'.subs| && s'.log == s.log && SubTally(s, id)
    requires s'.subs[id] == s.subs[id]
    requires OwnWrites(s', id) ==> OwnWrites(s, id) && ReplicaOf(s', id) == ReplicaOf(s, id)
    ensures SubTally(s', id)
  {
  }

  lemma DeliverKeepsTally(s: State, other: nat, choice: Choice)
    requires TallyInv(s) && Enabled(s, Deliver(other, choice))
    ensures TallyInv(Next(s, Deliver(other, choice)))
  {
    var s' := Next(s, Deliver(other, choice));
    HandOffStep(s, Deliver(other, choice));
    forall id | 0 <= id < |s.subs| ensures s.subs[id].since <= |EndOf(s', s.subs[id].url).arrived| {
      if id != other { OthersDeliver(s, other, choice, id); }
    }
    forall id | 0 <= id < |s'.subs| && id in s'.notifiers ensures SubTally(s', id) {
      if id == other {
        OwnTally(s, id, choice);
      } else {
        OthersDeliver(s, other, choice, id);
        SameTally(s, s', id);
      }
    }
  }

  lemma OwnTally(s: State, id: nat, choice: Choice)
    requires TallyInv(s) && Enabled(s, Deliver(id, choice)) && id in s.notifiers
    ensures SubTally(Next(s, Deliver(id, choice)), id)
  {
    var s', sub := Next(s, Deliver(id, choice)), s.subs[id];
    assert SubTally(s, id) && SubEnabled(sub.notifier, false, choice);
    DeliverFlagged(sub.notifier, s.log, choice);
    if !s'.subs[id].notifier.hist.disturbed && OwnWrites(s', id) {
      OwnStep(s, id, choice);
      StaysUndisturbed(sub.notifier, s.log, choice);
      DeliverTally(sub.notifier, ReplicaOf(s, id), sub.held, sub.past, sub.addressed, s.log, choice);
    }
  }

  lemma StaysUndisturbed(n: Notifier, log: seq<ResourceChange>, choice: Choice)
    requires SubEnabled(n, true, choice)
    ensures n.hist.disturbed ==> SubNext(n, log, choice).hist.disturbed
  {
  }

  lemma TallyStep(s: State, a: Action)
    requires TallyInv(s) && Enabled(s, a)
    ensures TallyInv(Next(s, a))
  {
    match a
    case Receive(c) => ReceiveTally(s, c);
    case Enqueue(j) => EnqueueTally(s, j);
    case AddSubscriber(url) => AddTally(s, url);
    case Deliver(id, choice) => DeliverKeepsTally(s, id, choice);
    case Return(j) => ReturnTally(s, j);
    case RemoveSubscriber(url) => RemoveTally(s, url);
    case CloseStop(r) => CloseTally(s, r);
  }

  lemma ReturnTally(s: State, j: nat)
    requires TallyInv(s) && Enabled(s, Return(j))
    ensures TallyInv(Next(s, Return(j)))
  {
    var s' := Next(s, Return(j));
    HandOffStep(s, Return(j));
    forall id | 0 <= id < |s'.subs| && id in s'.notifiers ensures SubTally(s', id) { SameTally(s, s', id); }
  }

  lemma RemoveTally(s: State, url: string)
    requires TallyInv(s) && Enabled(s, RemoveSubscriber(url))
    ensures TallyInv(Next(s, RemoveSubscriber(url)))
  {
    var s' := Next(s, RemoveSubscriber(url));
    HandOffStep(s, RemoveSubscriber(url));
    SpliceIds(s.notifiers, Position(s, url));
    forall id | 0 <= id < |s'.subs| && id in s'.notifiers ensures SubTally(s', id) { SameTally(s, s', id); }
  }

  lemma CloseTally(s: State, r: nat)
    requires TallyInv(s) && Enabled(s, CloseStop(r))
    ensures TallyInv(Next(s, CloseStop(r)))
  {
    var s' := Next(s, CloseStop(r));
    HandOffStep(s, CloseStop(r));
    forall id | 0 <= id < |s'.subs| && id in s'.notifiers ensures SubTally(s', id) { ClosedTally(s, s', id); }
  }

  lemma ClosedTally(s: State, s': State, id: nat)
    requires id < |s.subs| && |s.subs| <= |s'.subs| && s'.log == s.log && s'.ends == s.ends && SubTally(s, id)
    requires s'.subs[id] == s.subs[id].(closed := s'.subs[id].closed)
    ensures SubTally(s', id)
  {
  }

  lemma {:induction false} RunsKeepTally(s: State, actions: seq<Action>)
    requires TallyInv(s) && Runnable(s, actions)
    ensures TallyInv(Run(s, actions))
    decreases |actions|
  {
    if actions == [] {
    } else {
      TallyStep(s, actions[0]);
      RunsKeepTally(Next(s, actions[0]), actions[1..]);
    }
  }

  // ---------- What it comes to ----------

  // The events recorded since registration, in the order of the enqueue calls made and to come.
  function Since(s: State, id: nat): seq<ResourceChange>
    requires id < |s.subs| && Within(s.subs[id].addressed, s.log)
  {
    ChangesAt(s.log, s.subs[id].addressed) + ChangesIn(Pend(s.jobs, id))
  }

  // What is pending is what is awaited.
  lemma {:induction false} AwaitedIsPending(jobs: seq<Job>, log: seq<ResourceChange>, n: nat, id: nat, i: nat)
    requires JobsInv(jobs, log, n) && Awaits(jobs, id, i)
    ensures i < |log| && Names(Pend(jobs, id), log[i])
  {
    var j :| 0 <= j < |jobs| && jobs[j].item.idx == i && id in jobs[j].todo;
    var all := Pend(jobs, id);
    if j == 0 {
      assert all[0].change == log[i];
    } else {
      assert jobs[1..][j - 1].item.idx == i;
      AwaitedIsPending(jobs[1..], log, n, id, i);
      var p :| 0 <= p < |Pend(jobs[1..], id)| && Pend(jobs[1..], id)[p].change == log[i];
      assert all[|PendOf(jobs[0], id)| + p].change == log[i];
    }
  }

  lemma {:induction false} PendingIsAwaited(jobs: seq<Job>, log: seq<ResourceChange>, n: nat, id: nat, p: nat)
    requires JobsInv(jobs, log, n) && p < |Pend(jobs, id)|
    ensures Awaits(jobs, id, Pend(jobs, id)[p].idx) && Pend(jobs, id)[p].idx < |log|
    ensures Pend(jobs, id)[p].change == log[Pend(jobs, id)[p].idx]
  {
    var head, i := PendOf(jobs[0], id), Pend(jobs, id)[p].idx;
    if p < |head| {
      assert jobs[0].item.idx == i;
    } else {
      PendingIsAwaited(jobs[1..], log, n, id, p - |head|);
      var j :| 0 <= j < |jobs[1..]| && jobs[1..][j].item.idx == i && id in jobs[1..][j].todo;
      assert jobs[j + 1].item.idx == i;
    }
  }

  ghost predicate Names(items: seq<Item>, c: ResourceChange) { exists p :: 0 <= p < |items| && items[p].change == c }

  // A resource that none of these events names has not changed since registration.
  lemma UntouchedSince(s: State, id: nat, k: ResourceKey)
    requires HandOffInv(s) && id < |s.subs| && id in s.notifiers && Within(s.subs[id].addressed, s.log)
    requires Effect(Since(s, id), k).Untouched?
    ensures s.subs[id].base <= |s.log| && forall j :: s.subs[id].base <= j < |s.log| ==> s.log[j].key != k
  {
    var sub, told := s.subs[id], ChangesAt(s.log, s.subs[id].addressed);
    assert HandedOff(sub, true, id, s.jobs, s.log);
    EffectTouched(Since(s, id), k);
    forall j | sub.base <= j < |s.log| ensures s.log[j].key != k {
      if j in sub.addressed {
        var i :| 0 <= i < |sub.addressed| && sub.addressed[i] == j;
        assert Since(s, id)[i] == s.log[j];
      } else {
        AwaitedIsPending(s.jobs, s.log, |s.subs|, id, j);
        var p :| 0 <= p < |Pend(s.jobs, id)| && Pend(s.jobs, id)[p].change == s.log[j];
        assert Since(s, id)[|told| + p] == s.log[j];
      }
    }
  }

  // In every run, ordered or not: what it will hold is what its server held, then the snapshot it
  // was given, then the events in the order of the enqueue calls.
  lemma ReplaysInEnqueueOrder(actions: seq<Action>, id: nat)
    requires Runnable(INIT, actions)
    requires Alone(Run(INIT, actions), id) && !Run(INIT, actions).subs[id].notifier.hist.disturbed
    ensures var s := Run(INIT, actions); var sub := s.subs[id];
            && HandOffInv(s) && Within(sub.addressed, s.log)
            && Eventually(ReplicaOf(s, id), sub.notifier, Pend(s.jobs, id)) == Replay(sub.held, sub.past + Since(s, id))
  {
    RunsKeepTally(INIT, actions);
    var s := Run(INIT, actions);
    var sub := s.subs[id];
    assert SubTally(s, id);
    TallyMeans(sub.notifier, ReplicaOf(s, id), sub.held, sub.past, sub.addressed, s.log, Pend(s.jobs, id));
  }

  lemma TallyMeans(
    n: Notifier, m: map<ResourceKey, Payload>, held: map<ResourceKey, Payload>, past: seq<ResourceChange>,
    addressed: seq<nat>, log: seq<ResourceChange>, pend: seq<Item>)
    requires Tally(n, m, held, past, addressed, log)
    ensures Eventually(m, n, pend) == Replay(held, past + (ChangesAt(log, addressed) + ChangesIn(pend)))
  {
    var before, told := Todo(n.pc) + ChangesIn(n.queue), past + ChangesAt(log, addressed);
    assert Stream(n, pend) == before + ChangesIn(pend);
    assert past + (ChangesAt(log, addressed) + ChangesIn(pend)) == told + ChangesIn(pend);
    ReplayConcat(m, before, ChangesIn(pend));
    ReplayConcat(held, told, ChangesIn(pend));
  }

  // Replaying these events would leave k as the latest state has it.
  ghost predicate LeavesRight(since: seq<ResourceChange>, live: map<ResourceKey, Payload>, k: ResourceKey) {
    match Effect(since, k)
    case Untouched => true
    case Gone => k !in live
    case Has(v) => At(live, k) == Some(v)
  }

  lemma EndAt(s: State, id: nat, k: ResourceKey)
    requires HandOffInv(s) && id < |s.subs| && id in s.notifiers && Within(s.subs[id].addressed, s.log)
    ensures var sub := s.subs[id];
            At(Replay(sub.held, sub.past + Since(s, id)), k) == At(Live(s.log), k) <==>
              LeavesRight(Since(s, id), Live(s.log), k) && !HeldOver(s.log, sub.held, sub.base, k)
    ensures k in Live(s.log) ==> !HeldOver(s.log, s.subs[id].held, s.subs[id].base, k)
  {
    var sub, since := s.subs[id], Since(s, id);
    assert HandedOff(sub, true, id, s.jobs, s.log);
    ReplayHas(sub.held, sub.past, since, k);
    SnapshotEffect(s.log[..sub.base], k);
    if HeldOver(s.log, sub.held, sub.base, k) {
      HeldOverNotLive(s.log, sub.base, sub.held, k);
      SinceSpares(s, id, k);
    }
    if Effect(since, k).Untouched? {
      UntouchedSince(s, id, k);
      UnchangedSince(s.log, sub.base, k);
    }
  }

  lemma SinceSpares(s: State, id: nat, k: ResourceKey)
    requires HandOffInv(s) && id < |s.subs| && id in s.notifiers && Within(s.subs[id].addressed, s.log)
    requires s.subs[id].base <= |s.log| && forall j :: s.subs[id].base <= j < |s.log| ==> s.log[j].key != k
    ensures Effect(Since(s, id), k).Untouched?
  {
    var sub, since, pend := s.subs[id], Since(s, id), Pend(s.jobs, id);
    assert HandedOff(sub, true, id, s.jobs, s.log);
    forall i | 0 <= i < |since| ensures since[i].key != k {
      if i < |sub.addressed| {
        assert sub.addressed[i] in sub.addressed;
      } else {
        PendingIsAwaited(s.jobs, s.log, |s.subs|, id, i - |sub.addressed|);
        assert since[i] == pend[i - |sub.addressed|].change;
      }
    }
    EffectTouched(since, k);
  }

  lemma UnchangedSince(log: seq<ResourceChange>, base: nat, k: ResourceKey)
    requires base <= |log| && forall j :: base <= j < |log| ==> log[j].key != k
    ensures At(Live(log), k) == At(Live(log[..base]), k)
  {
    assert log == log[..base] + log[base..];
    EffectConcat(log[..base], log[base..], k);
    EffectTouched(log[base..], k);
    ReplayAt(map[], log, k);
    ReplayAt(map[], log[..base], k);
  }

  // Exactly when overlapping Receive calls do harm: it will agree on every live resource if and only
  // if, for each of them, the last event enqueued or about to be, if any, carries the latest payload;
  // and it will equal the latest state if and only if the same holds of every resource, a Delete
  // coming last for those that are gone, and nothing is held over.
  lemma AgreesExactly(actions: seq<Action>, id: nat)
    requires Runnable(INIT, actions)
    requires Alone(Run(INIT, actions), id) && !Run(INIT, actions).subs[id].notifier.hist.disturbed
    ensures var s := Run(INIT, actions); var sub := s.subs[id];
            && Within(sub.addressed, s.log)
            && (Agrees(Eventually(ReplicaOf(s, id), sub.notifier, Pend(s.jobs, id)), Live(s.log)) <==>
                  forall k :: k in Live(s.log) ==> LeavesRight(Since(s, id), Live(s.log), k))
            && (Eventually(ReplicaOf(s, id), sub.notifier, Pend(s.jobs, id)) == Live(s.log) <==>
                  forall k :: LeavesRight(Since(s, id), Live(s.log), k) && !HeldOver(s.log, sub.held, sub.base, k))
  {
    ReplaysInEnqueueOrder(actions, id);
    var s := Run(INIT, actions);
    var sub, live := s.subs[id], Live(s.log);
    var end := Replay(sub.held, sub.past + Since(s, id));
    forall k ensures At(end, k) == At(live, k) <==>
                       LeavesRight(Since(s, id), live, k) && !HeldOver(s.log, sub.held, sub.base, k)
    {
      EndAt(s, id, k);
    }
    forall k | k in live ensures At(end, k) == Some(live[k]) <==> LeavesRight(Since(s, id), live, k) { EndAt(s, id, k); }
    if forall k :: LeavesRight(Since(s, id), live, k) && !HeldOver(s.log, sub.held, sub.base, k) { SameAt(end, live); }
  }
}
