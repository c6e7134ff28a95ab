// Runs that show where the promises of DeliveryRuns end: a resync does not remove a resource of
// which the Delete was lost; overlapping Receive calls can reach a queue out of order; a failed first
// replay waits for the next event; a URL that is registered again may still be served by its earlier
// notifier; and a server keeps what it held when its URL was registered.
module DeliveryLimits {
  import opened Wrappers
  import opened Events
  import opened Fold
  import opened LatestState
  import opened Subscriptions
  import opened Ledgers
  import opened SubscriberInvariant
  import opened DeliveryRuns

  // A system whose only subscriber was registered before anything was recorded.
  function One(log: seq<ResourceChange>, n: Notifier, addressed: seq<nat>, jobs: seq<Job>, e: End): State {
    State(log, map["u" := e], [First(n, addressed)], [0], jobs, [])
  }

  function First(n: Notifier, addressed: seq<nat>): Sub { Sub("u", n, 0, 0, [], addressed, map[], 0) }

  lemma OneReceives(log: seq<ResourceChange>, n: Notifier, addressed: seq<nat>, jobs: seq<Job>, e: End, c: ResourceChange)
    ensures Next(One(log, n, addressed, jobs, e), Receive(c)) ==
            One(log + [c], n, addressed, jobs + [Job(Item(|log|, c), [0])], e)
  {
  }

  lemma OneEnqueues(log: seq<ResourceChange>, n: Notifier, addressed: seq<nat>, jobs: seq<Job>, e: End, j: nat)
    requires j < |jobs| && jobs[j].todo == [0]
    ensures var s, item := One(log, n, addressed, jobs, e), jobs[j].item;
            && Enabled(s, Enqueue(j))
            && Next(s, Enqueue(j)) == One(log, Offer(n, item), addressed + [item.idx], jobs[j := Job(item, [])], e)
  {
    var s := Next(One(log, n, addressed, jobs, e), Enqueue(j));
    assert s.subs == [First(Offer(n, jobs[j].item), addressed + [jobs[j].item.idx])];
    assert [0][1..] == [];
  }

  function Idle(taken: seq<nat>): Notifier {
    Notifier([], false, false, Waiting, History(taken, {}, false, false, false))
  }

  lemma Deliver1(log: seq<ResourceChange>, e: End, sub: Sub, jobs: seq<Job>, choice: Choice) returns (e': End, sub': Sub)
    requires sub.url == "u" && SubEnabled(sub.notifier, false, choice)
    requires ReachedSerially(State(log, map["u" := e], [sub], [0], jobs, []))
    ensures sub' == sub.(notifier := SubNext(sub.notifier, log, choice)) && e' == Written(e, 0, sub.notifier, choice)
    ensures ReachedSerially(State(log, map["u" := e'], [sub'], [0], jobs, []))
  {
    var s := State(log, map["u" := e], [sub], [0], jobs, []);
    ReachSerially(s, Deliver(0, choice));
    sub', e' := sub.(notifier := SubNext(sub.notifier, log, choice)), Written(e, 0, sub.notifier, choice);
    assert [sub][0 := sub'] == [sub'] && s.ends["u" := e'] == map["u" := e'];
  }

  // The subscriber in the same deliver call, with this many failed attempts.
  function After(sub: Sub, failures: nat): Sub
    requires Busy(sub.notifier.pc)
  {
    sub.(notifier := sub.notifier.(pc := sub.notifier.pc.(failures := failures)))
  }

  lemma Refusal(log: seq<ResourceChange>, e: End, sub: Sub, failures: nat, jobs: seq<Job>)
    requires sub.url == "u" && Busy(sub.notifier.pc) && failures < 4
    requires ReachedSerially(State(log, map["u" := e], [After(sub, failures)], [0], jobs, []))
    ensures ReachedSerially(State(log, map["u" := e], [After(sub, failures + 1)], [0], jobs, []))
  {
    var e', sub' := Deliver1(log, e, After(sub, failures), jobs, Attempt(Refused));
    assert sub' == After(sub, failures + 1) && e' == e;
  }

  lemma LastRefusal(log: seq<ResourceChange>, e: End, sub: Sub, jobs: seq<Job>) returns (sub': Sub)
    requires sub.url == "u" && Busy(sub.notifier.pc)
    requires ReachedSerially(State(log, map["u" := e], [After(sub, 4)], [0], jobs, []))
    ensures sub' == sub.(notifier := Fail(sub.notifier))
    ensures ReachedSerially(State(log, map["u" := e], [sub'], [0], jobs, []))
  {
    FailForgetsCount(sub.notifier, 4);
    var e';
    e', sub' := Deliver1(log, e, After(sub, 4), jobs, Attempt(Refused));
    assert e' == e;
  }

  lemma FailForgetsCount(n: Notifier, failures: nat)
    requires Busy(n.pc)
    ensures Fail(n.(pc := n.pc.(failures := failures))) == Fail(n)
  {
  }

  lemma FiveFailures(log: seq<ResourceChange>, e: End, sub: Sub, jobs: seq<Job>) returns (sub': Sub)
    requires sub.url == "u" && Busy(sub.notifier.pc) && sub.notifier.pc.failures == 0
    requires ReachedSerially(State(log, map["u" := e], [sub], [0], jobs, []))
    ensures sub' == sub.(notifier := Fail(sub.notifier))
    ensures ReachedSerially(State(log, map["u" := e], [sub'], [0], jobs, []))
  {
    assert After(sub, 0) == sub;
    Refusal(log, e, sub, 0, jobs);
    sub' := FourMore(log, e, sub, jobs);
  }

  lemma Start()
    ensures ReachedSerially(INIT)
  {
    assert Runnable(INIT, []) && SerialRun(INIT, []) && Run(INIT, []) == INIT;
  }

  lemma SeriallyIsReached(s: State)
    requires ReachedSerially(s)
    ensures Reached(s)
  {
  }

  lemma FirstSubscriber()
    ensures ReachedSerially(One([], Idle([]), [], [], NEW_END))
  {
    Start();
    assert Snapshot([]) == [];
    ReachSerially(INIT, AddSubscriber("u"));
    var s := Next(INIT, AddSubscriber("u"));
    assert s.subs == [First(NewNotifier([]), [])] && s.notifiers == [0];
    ReachSerially(s, Deliver(0, Proceed));
    assert [First(NewNotifier([]), [])][0 := First(Idle([]), [])] == [First(Idle([]), [])];
    assert Written(NEW_END, 0, NewNotifier([]), Proceed) == NEW_END;
    assert Next(s, Deliver(0, Proceed)) == One([], Idle([]), [], [], NEW_END);
  }

  // ---------- Overlapping Receive calls ----------

  // Two Receive calls record in one order and enqueue in the other. Nothing overflows or fails, no
  // flag is set, nobody else writes to the server, and the subscriber is left with the older payload.
  lemma OverlappingReceivesCanDisagree(k: ResourceKey, older: Payload, newer: Payload)
    requires older != newer
    ensures exists s ::
              && Reached(s)
              && s.notifiers == [0] && |s.subs| == 1 && Alone(s, 0)
              && !s.subs[0].notifier.resync && !s.subs[0].notifier.hist.disturbed && s.subs[0].notifier.pc.Waiting?
              && Pend(s.jobs, 0) == []
              && !Agrees(Replay(ReplicaOf(s, 0), ChangesIn(s.subs[0].notifier.queue)), Live(s.log))
  {
    var a, b, n, e := Item(0, Put(k, older)), Item(1, Put(k, newer)), Idle([]), NEW_END;
    var ja, jb := Job(a, [0]), Job(b, [0]);
    FirstSubscriber();
    SeriallyIsReached(One([], n, [], [], e));
    OneReceives([], n, [], [], e, a.change);
    ReachNext(One([], n, [], [], e), Receive(a.change));
    OneReceives([] + [a.change], n, [], [] + [ja], e, b.change);
    ReachNext(One([] + [a.change], n, [], [] + [ja], e), Receive(b.change));
    var log, jobs := [] + [a.change] + [b.change], [] + [ja] + [jb];
    OneEnqueues(log, n, [], jobs, e, 1);
    ReachNext(One(log, n, [], jobs, e), Enqueue(1));
    var nb, jobs' := n.(queue := [] + [b]), jobs[1 := Job(b, [])];
    assert Offer(n, b) == nb;
    OneEnqueues(log, nb, [] + [1], jobs', e, 0);
    ReachNext(One(log, nb, [] + [1], jobs', e), Enqueue(0));
    var s := One(log, Offer(nb, a), [] + [1] + [0], jobs'[0 := Job(a, [])], e);
    assert Reached(s);
    PendNone(s.jobs, 0);
    StaleOrder(k, older, newer, a, b);
  }

  lemma StaleOrder(k: ResourceKey, older: Payload, newer: Payload, a: Item, b: Item)
    requires older != newer && a.change == Put(k, older) && b.change == Put(k, newer)
    ensures !Agrees(Replay(map[], ChangesIn([] + [b] + [a])), Live([] + [a.change] + [b.change]))
  {
    ReplayAppend(map[], [a.change], b.change);
    ReplayAppend(map[], [b.change], a.change);
    assert ChangesIn([] + [b] + [a]) == [b.change] + [a.change];
    assert [] + [a.change] + [b.change] == [a.change] + [b.change];
    assert At(Live([a.change] + [b.change]), k) == Some(newer);
    assert At(Replay(map[], [b.change] + [a.change]), k) == Some(older);
  }

  // ---------- A lost Delete ----------

  // One resource recorded, and its event in the queue.
  lemma CreateQueued(k: ResourceKey, v: Payload)
    ensures ReachedSerially(One([Put(k, v)], Idle([]).(queue := [Item(0, Put(k, v))]), [0], [], NEW_END))
  {
    var a, n, e := Item(0, Put(k, v)), Idle([]), NEW_END;
    FirstSubscriber();
    OneReceives([], n, [], [], e, a.change);
    ReachSerially(One([], n, [], [], e), Receive(a.change));
    var log, jobs := [a.change], [Job(a, [0])];
    assert [] + log == log && [] + jobs == jobs;
    OneEnqueues(log, n, [], jobs, e, 0);
    ReachSerially(One(log, n, [], jobs, e), Enqueue(0));
    var n' := n.(queue := [a]);
    assert jobs[0 := Job(a, [])] == [Job(a, [])] && [] + [0] == [0] && [] + [a] == [a];
    Returned(log, n', [0], Job(a, []), e);
  }

  lemma Returned(log: seq<ResourceChange>, n: Notifier, addressed: seq<nat>, job: Job, e: End)
    requires job.todo == [] && ReachedSerially(One(log, n, addressed, [job], e))
    ensures ReachedSerially(One(log, n, addressed, [], e))
  {
    ReachSerially(One(log, n, addressed, [job], e), Return(0));
    assert [job][..0] + [job][1..] == [];
  }

  // The same, delivered.
  lemma CreateDelivered(k: ResourceKey, v: Payload)
    ensures ReachedSerially(One([Put(k, v)], Idle([0]), [0], [], End(map[k := v], [Arrival(0, Some(0))])))
  {
    CreateQueued(k, v);
    var a := Item(0, Put(k, v));
    var log := [a.change];
    var e, sub := Deliver1(log, NEW_END, First(Idle([]).(queue := [a]), [0]), [], OnQueue);
    e, sub := Deliver1(log, e, sub, [], Attempt(Delivered));
    e, sub := Deliver1(log, e, sub, [], Proceed);
    assert [a][1..] == [] && [] + [0] == [0];
    assert e == End(map[k := v], [Arrival(0, Some(0))]);
  }

  lemma DeleteGivenUp(k: ResourceKey, v: Payload) returns (e: End, sub: Sub)
    ensures sub.url == "u" && sub.notifier.pc.GaveUp? && sub.notifier.queue == [] && e.replica == map[k := v]
    ensures ReachedSerially(State([Put(k, v), Del(k)], map["u" := e], [sub], [0], [], []))
  {
    var a, b, n := Item(0, Put(k, v)), Item(1, Del(k)), Idle([0]);
    e := End(map[k := v], [Arrival(0, Some(0))]);
    CreateDelivered(k, v);
    OneReceives([a.change], n, [0], [], e, b.change);
    ReachSerially(One([a.change], n, [0], [], e), Receive(b.change));
    var log, jobs := [a.change, b.change], [Job(b, [0])];
    assert [a.change] + [b.change] == log && [] + jobs == jobs;
    OneEnqueues(log, n, [0], jobs, e, 0);
    ReachSerially(One(log, n, [0], jobs, e), Enqueue(0));
    assert jobs[0 := Job(b, [])] == [Job(b, [])];
    Returned(log, Offer(n, b), [0] + [1], Job(b, []), e);
    sub := First(Offer(n, b), [0] + [1]);
    e, sub := Deliver1(log, e, sub, [], OnQueue);
    sub := FiveFailures(log, e, sub, []);
  }

  // A Delete that is given up, then a complete resync: the flag is clear, nothing is on its way,
  // and the subscriber still holds the deleted resource.
  lemma ResyncKeepsDeletedResource(k: ResourceKey, v: Payload)
    ensures exists s ::
              && ReachedSerially(s)
              && s.notifiers == [0] && |s.subs| == 1 && s.jobs == []
              && !s.subs[0].notifier.resync && s.subs[0].notifier.pc.Waiting? && s.subs[0].notifier.queue == []
              && k in ReplicaOf(s, 0) && k !in Live(s.log)
  {
    var log: seq<ResourceChange> := [Put(k, v), Del(k)];
    var e, sub := DeleteGivenUp(k, v);
    NothingLeft(k, v);
    e, sub := EmptyResync(log, e, sub);
    var s := State(log, map["u" := e], [sub], [0], [], []);
    assert ReachedSerially(s);
  }

  lemma EmptyResync(log: seq<ResourceChange>, e: End, sub: Sub) returns (e': End, sub': Sub)
    requires ReachedSerially(State(log, map["u" := e], [sub], [0], [], []))
    requires sub.url == "u" && sub.notifier.pc.GaveUp? && sub.notifier.queue == [] && Snapshot(log) == []
    ensures ReachedSerially(State(log, map["u" := e'], [sub'], [0], [], []))
    ensures sub'.url == "u" && sub'.notifier.pc.Waiting? && !sub'.notifier.resync
    ensures sub'.notifier.queue == [] && e'.replica == e.replica
  {
    e', sub' := Deliver1(log, e, sub, [], Proceed);
    e', sub' := Deliver1(log, e', sub', [], Proceed);
    e', sub' := EmptySnapshot(log, e', sub');
  }

  lemma EmptySnapshot(log: seq<ResourceChange>, e: End, sub: Sub) returns (e': End, sub': Sub)
    requires ReachedSerially(State(log, map["u" := e], [sub], [0], [], []))
    requires sub.url == "u" && sub.notifier.pc.Draining? && sub.notifier.queue == [] && Snapshot(log) == []
    requires !sub.notifier.resync
    ensures ReachedSerially(State(log, map["u" := e'], [sub'], [0], [], []))
    ensures sub'.url == "u" && sub'.notifier.pc.Waiting? && !sub'.notifier.resync
    ensures sub'.notifier.queue == [] && e'.replica == e.replica
  {
    e', sub' := Deliver1(log, e, sub, [], Proceed);
    e', sub' := Deliver1(log, e', sub', [], Proceed);
    e', sub' := Deliver1(log, e', sub', [], Proceed);
  }

  lemma NothingLeft(k: ResourceKey, v: Payload)
    ensures Live([Put(k, v), Del(k)]) == map[] && Snapshot([Put(k, v), Del(k)]) == []
  {
    var init, log: seq<ResourceChange> := [Put(k, v)], [Put(k, v), Del(k)];
    LiveOne(k, v);
    assert log[..1] == init;
    assert Live(log) == Apply(Live(init), Del(k));
    assert Order(log) == Without([k], k);
  }

  lemma LiveOne(k: ResourceKey, v: Payload)
    ensures Live([Put(k, v)]) == map[k := v] && Order([Put(k, v)]) == [k] && Snapshot([Put(k, v)]) == [Put(k, v)]
  {
    var init, none: seq<ResourceChange> := [Put(k, v)], [];
    assert init[..0] == none;
    assert Live(none) == map[] && Order(none) == [];
    assert Live(init) == Apply(Live(none), Put(k, v)) == map[k := v];
    assert Order(init) == Order(none) + [k] == [k];
  }

  lemma LiveAgain(k: ResourceKey, v: Payload, w: Payload)
    ensures Live([Put(k, v), Put(k, w)]) == map[k := w] && Snapshot([Put(k, v), Put(k, w)]) == [Put(k, w)]
  {
    var init, log: seq<ResourceChange> := [Put(k, v)], [Put(k, v), Put(k, w)];
    LiveOne(k, v);
    assert log[..1] == init;
    assert Live(log) == Apply(Live(init), Put(k, w));
    assert Order(log) == [k];
  }

  // ---------- A failed first replay ----------

  lemma ReplayGivenUp(k: ResourceKey, v: Payload) returns (e: End, sub: Sub)
    ensures ReachedSerially(State([Put(k, v)], map["u" := e], [sub], [0], [], []))
    ensures e.replica == map[] && sub.url == "u" && sub.closed == 0
    ensures sub.notifier == Fail(NewNotifier([Put(k, v)])) && NewNotifier([Put(k, v)]).pc == Replaying([Put(k, v)], 0)
  {
    var log := [Put(k, v)];
    LiveOne(k, v);
    Start();
    ReachSerially(INIT, Receive(Put(k, v)));
    var job := Job(Item(0, Put(k, v)), []);
    var s1 := State(log, map[], [], [], [job], []);
    assert [] + log == log && [] + [job] == [job];
    assert Next(INIT, Receive(Put(k, v))) == s1;
    ReachSerially(s1, Return(0));
    var s2 := State(log, map[], [], [], [], []);
    assert [job][..0] + [job][1..] == [];
    ReachSerially(s2, AddSubscriber("u"));
    sub := NewSub("u", log, NEW_END);
    var s3 := State(log, map[], [sub], [0], [], []);
    assert [] + [sub] == [sub] && [] + [0] == [0] && Next(s2, AddSubscriber("u")) == s3;
    ReachSerially(s3, Deliver(0, Attempt(Refused)));
    e := NEW_END;
    assert Written(NEW_END, 0, sub.notifier, Attempt(Refused)) == NEW_END;
    assert [sub][0 := After(sub, 1)] == [After(sub, 1)];
    assert Next(s3, Deliver(0, Attempt(Refused))) == State(log, map["u" := e], [After(sub, 1)], [0], [], []);
    sub := FourMore(log, e, sub, []);
  }

  lemma FourMore(log: seq<ResourceChange>, e: End, sub: Sub, jobs: seq<Job>) returns (sub': Sub)
    requires sub.url == "u" && Busy(sub.notifier.pc)
    requires ReachedSerially(State(log, map["u" := e], [After(sub, 1)], [0], jobs, []))
    ensures sub' == sub.(notifier := Fail(sub.notifier))
    ensures ReachedSerially(State(log, map["u" := e], [sub'], [0], jobs, []))
  {
    Refusal(log, e, sub, 1, jobs);
    Refusal(log, e, sub, 2, jobs);
    Refusal(log, e, sub, 3, jobs);
    sub' := LastRefusal(log, e, sub, jobs);
  }

  // A subscriber whose first replay is given up is flagged, but no step of its goroutine is
  // possible until some event is enqueued: until then it is missing live resources.
  lemma FailedReplayStalls(k: ResourceKey, v: Payload)
    ensures exists s ::
              && ReachedSerially(s)
              && s.notifiers == [0] && |s.subs| == 1 && s.subs[0].closed == 0 && s.jobs == []
              && s.subs[0].notifier.resync && s.subs[0].notifier.hist.replayFailed
              && (forall choice :: !SubEnabled(s.subs[0].notifier, false, choice))
              && k in Live(s.log) && k !in ReplicaOf(s, 0)
  {
    var e, sub := ReplayGivenUp(k, v);
    LiveOne(k, v);
    e, sub := Deliver1([Put(k, v)], e, sub, [], Proceed);
    NothingToDo(sub.notifier);
    var s := State([Put(k, v)], map["u" := e], [sub], [0], [], []);
    assert ReachedSerially(s);
  }

  lemma NothingToDo(n: Notifier)
    requires n.pc.Waiting? && !WillWake(n)
    ensures forall choice :: !SubEnabled(n, false, choice)
  {
  }

  // ---------- A URL registered again ----------

  // Removed, and something recorded since.
  lemma Removed(log: seq<ResourceChange>, n: Notifier, addressed: seq<nat>, e: End)
    requires ReachedSerially(One(log, n, addressed, [], e))
    ensures ReachedSerially(State(log, map["u" := e], [First(n, addressed)], [], [], [0]))
  {
    var s := One(log, n, addressed, [], e);
    assert s.subs[s.notifiers[0]].url == "u";
    assert Position(s, "u") == 0;
    ReachSerially(s, RemoveSubscriber("u"));
    assert [0][..0] + [0][1..] == [] && [] + [0] == [0];
    assert Next(s, RemoveSubscriber("u")) == State(log, map["u" := e], [First(n, addressed)], [], [], [0]);
  }

  lemma RecordedMeanwhile(log: seq<ResourceChange>, e: End, sub: Sub, removers: seq<nat>, c: ResourceChange)
    requires ReachedSerially(State(log, map["u" := e], [sub], [], [], removers))
    ensures ReachedSerially(State(log + [c], map["u" := e], [sub], [], [], removers))
  {
    var s := State(log, map["u" := e], [sub], [], [], removers);
    var job := Job(Item(|log|, c), []);
    ReachSerially(s, Receive(c));
    var s1 := State(log + [c], map["u" := e], [sub], [], [job], removers);
    assert [] + [job] == [job] && Next(s, Receive(c)) == s1;
    ReachSerially(s1, Return(0));
    assert [job][..0] + [job][1..] == [];
  }

  lemma AddedAgain(log: seq<ResourceChange>, e: End, sub: Sub, removers: seq<nat>)
    requires ReachedSerially(State(log, map["u" := e], [sub], [], [], removers))
    ensures ReachedSerially(State(log, map["u" := e], [sub, NewSub("u", log, e)], [1], [], removers))
  {
    var s := State(log, map["u" := e], [sub], [], [], removers);
    ReachSerially(s, AddSubscriber("u"));
    assert [sub] + [NewSub("u", log, e)] == [sub, NewSub("u", log, e)] && [] + [1] == [1];
  }

  lemma DeliverOf2(log: seq<ResourceChange>, e: End, subs: seq<Sub>, removers: seq<nat>, id: nat, choice: Choice)
    returns (e': End, subs': seq<Sub>)
    requires |subs| == 2 && id < 2 && subs[id].url == "u" && SubEnabled(subs[id].notifier, subs[id].closed > 0, choice)
    requires ReachedSerially(State(log, map["u" := e], subs, [1], [], removers))
    ensures e' == Written(e, id, subs[id].notifier, choice)
    ensures subs' == subs[id := subs[id].(notifier := SubNext(subs[id].notifier, log, choice))]
    ensures ReachedSerially(State(log, map["u" := e'], subs', [1], [], removers))
  {
    var s := State(log, map["u" := e], subs, [1], [], removers);
    ReachSerially(s, Deliver(id, choice));
    e' := Written(e, id, subs[id].notifier, choice);
    subs' := subs[id := subs[id].(notifier := SubNext(subs[id].notifier, log, choice))];
    assert s.ends["u" := e'] == map["u" := e'];
  }

  lemma AddedBeforeOldOneStopped(k: ResourceKey, older: Payload, newer: Payload) returns (e: End, subs: seq<Sub>)
    ensures |subs| == 2 && subs[0] == First(Idle([]).(queue := [Item(0, Put(k, older))]), [0])
    ensures subs[1] == Sub("u", Idle([]), 0, 2, [Put(k, newer)], [], map[], 0)
    ensures e == End(map[k := newer], [Arrival(1, None)])
    ensures ReachedSerially(State([Put(k, older), Put(k, newer)], map["u" := e], subs, [1], [], [0]))
  {
    var a, log, n := Item(0, Put(k, older)), [Put(k, older), Put(k, newer)], Idle([]).(queue := [Item(0, Put(k, older))]);
    CreateQueued(k, older);
    Removed([Put(k, older)], n, [0], NEW_END);
    RecordedMeanwhile([Put(k, older)], NEW_END, First(n, [0]), [0], Put(k, newer));
    assert [Put(k, older)] + [Put(k, newer)] == log;
    LiveAgain(k, older, newer);
    AddedAgain(log, NEW_END, First(n, [0]), [0]);
    e, subs := DeliverOf2(log, NEW_END, [First(n, [0]), NewSub("u", log, NEW_END)], [0], 1, Attempt(Delivered));
    assert [Put(k, newer)][1..] == [];
    e, subs := DeliverOf2(log, e, subs, [0], 1, Proceed);
  }

  // A URL is removed while an event for it is queued, and registered again before its first notifier
  // has looked at its stop channel. The new notifier brings the server up to date; then the old one
  // delivers its event. Receive calls do not overlap, nothing overflows or fails, and the registered
  // subscriber, unflagged and with nothing on its way, is left with the older payload.
  lemma ReregisteredSubscriberDisagrees(k: ResourceKey, older: Payload, newer: Payload)
    requires older != newer
    ensures exists s ::
              && ReachedSerially(s)
              && s.notifiers == [1] && |s.subs| == 2 && s.jobs == [] && s.subs[0].url == s.subs[1].url
              && !s.subs[1].notifier.resync && !s.subs[1].notifier.hist.disturbed && s.subs[1].notifier.pc.Waiting?
              && s.subs[1].notifier.queue == []
              && EndOf(s, s.subs[1].url).arrived == [Arrival(1, None), Arrival(0, Some(0))]
              && !Agrees(ReplicaOf(s, 1), Live(s.log))
  {
    var log := [Put(k, older), Put(k, newer)];
    var e, subs := AddedBeforeOldOneStopped(k, older, newer);
    e, subs := DeliverOf2(log, e, subs, [0], 0, OnQueue);
    e, subs := DeliverOf2(log, e, subs, [0], 0, Attempt(Delivered));
    LiveAgain(k, older, newer);
    var s := State(log, map["u" := e], subs, [1], [], [0]);
    assert ReachedSerially(s) && e.replica == map[k := older];
    assert k in Live(s.log) && At(ReplicaOf(s, 1), k) == Some(older);
  }

  // Removed, its stop channel closed, and its goroutine gone.
  lemma RemovedAndStopped(log: seq<ResourceChange>, n: Notifier, addressed: seq<nat>, e: End) returns (sub: Sub)
    requires ReachedSerially(One(log, n, addressed, [], e)) && n.pc.Waiting?
    ensures sub.url == "u" && sub.notifier.pc.Stopped?
    ensures ReachedSerially(State(log, map["u" := e], [sub], [], [], []))
  {
    Removed(log, n, addressed, e);
    StopIsClosed(log, First(n, addressed), e);
    var closed := First(n, addressed).(closed := 1);
    var s := State(log, map["u" := e], [closed], [], [], []);
    ReachSerially(s, Deliver(0, OnStop));
    sub := closed.(notifier := n.(pc := Stopped));
    assert Written(e, 0, n, OnStop) == e;
    assert [closed][0 := sub] == [sub] && s.ends["u" := e] == map["u" := e];
    assert Next(s, Deliver(0, OnStop)) == State(log, map["u" := e], [sub], [], [], []);
  }

  lemma StopIsClosed(log: seq<ResourceChange>, sub: Sub, e: End)
    requires ReachedSerially(State(log, map["u" := e], [sub], [], [], [0])) && sub.closed == 0
    ensures ReachedSerially(State(log, map["u" := e], [sub.(closed := 1)], [], [], []))
  {
    var s := State(log, map["u" := e], [sub], [], [], [0]);
    ReachSerially(s, CloseStop(0));
    assert [0][..0] + [0][1..] == [] && [sub][0 := sub.(closed := 1)] == [sub.(closed := 1)];
    assert Next(s, CloseStop(0)) == State(log, map["u" := e], [sub.(closed := 1)], [], [], []);
  }

  // A URL is removed while its server holds a resource, the resource is deleted, and the URL is
  // registered again, its first notifier having stopped long before. The snapshot does not name the
  // resource, and the server keeps it.
  lemma ServerKeepsWhatItHeld(k: ResourceKey, v: Payload)
    ensures exists s ::
              && ReachedSerially(s)
              && s.notifiers == [1] && |s.subs| == 2 && s.jobs == [] && s.subs[0].notifier.pc.Stopped? && Alone(s, 1)
              && !s.subs[1].notifier.resync && !s.subs[1].notifier.hist.disturbed && s.subs[1].notifier.pc.Waiting?
              && s.subs[1].notifier.queue == []
              && k in ReplicaOf(s, 1) && k !in Live(s.log)
  {
    var e, log: seq<ResourceChange> := End(map[k := v], [Arrival(0, Some(0))]), [Put(k, v), Del(k)];
    CreateDelivered(k, v);
    var gone := RemovedAndStopped([Put(k, v)], Idle([0]), [0], e);
    RecordedMeanwhile([Put(k, v)], e, gone, [], Del(k));
    assert [Put(k, v)] + [Del(k)] == log;
    AddedAgain(log, e, gone, []);
    NothingLeft(k, v);
    var e', subs := DeliverOf2(log, e, [gone, NewSub("u", log, e)], [], 1, Proceed);
    var s := State(log, map["u" := e'], subs, [1], [], []);
    assert ReachedSerially(s) && e'.arrived == e.arrived;
  }
}
