// What arrives at a server over all registrations of its URL: when a registration has the server to
// itself, and exactly when queued events arrive in the order in which they were recorded.
module Arrivals {
  import opened Wrappers
  import opened LatestState
  import opened Subscriptions
  import opened SubscriptionSafety
  import opened HandOff
  import opened DeliveryOrder
  import opened DeliveryRuns

  // ---------- Who writes ----------

  // A registered subscriber is the last one registered for its URL; everything that has arrived at
  // a server was sent by a registration of its URL, after that was made.
  ghost predicate SenderInv(s: State) {
    && RegistryInv(s) && SinceSane(s)
    && (forall id, later :: id in s.notifiers && id < later < |s.subs| ==> s.subs[later].url != s.subs[id].url)
    && (forall url :: SendersKnown(s, url))
  }

  ghost predicate SendersKnown(s: State, url: string) {
    var arrived := EndOf(s, url).arrived;
    forall w :: 0 <= w < |arrived| ==>
      arrived[w].sender < |s.subs| && s.subs[arrived[w].sender].url == url && s.subs[arrived[w].sender].since <= w
  }

  lemma SenderStep(s: State, a: Action)
    requires SenderInv(s) && Enabled(s, a)
    ensures SenderInv(Next(s, a))
  {
    RegistryStep(s, a);
    match a
    case Receive(_) => SameSenders(s, Next(s, a));
    case Enqueue(_) => SameSenders(s, Next(s, a));
    case Return(_) => SameSenders(s, Next(s, a));
    case CloseStop(_) => SameSenders(s, Next(s, a));
    case AddSubscriber(url) => AddSender(s, url);
    case RemoveSubscriber(url) =>
      SpliceIds(s.notifiers, Position(s, url));
      SameSenders(s, Next(s, a));
    case Deliver(id, choice) => DeliverSender(s, id, choice);
  }

  lemma SameSenders(s: State, s': State)
    requires SenderInv(s) && s'.ends == s.ends && |s'.subs| == |s.subs|
    requires forall id :: 0 <= id < |s.subs| ==> s'.subs[id].url == s.subs[id].url && s'.subs[id].since == s.subs[id].since
    ensures SinceSane(s') && forall u :: SendersKnown(s', u)
  {
    forall u ensures SendersKnown(s', u) { assert SendersKnown(s, u) && EndOf(s', u) == EndOf(s, u); }
    forall id | 0 <= id < |s.subs| ensures s'.subs[id].since <= |EndOf(s', s'.subs[id].url).arrived| {
      assert EndOf(s', s.subs[id].url) == EndOf(s, s.subs[id].url);
    }
  }

  lemma AddSender(s: State, url: string)
    requires SenderInv(s) && Enabled(s, AddSubscriber(url))
    ensures var s' := Next(s, AddSubscriber(url));
            && SinceSane(s')
            && (forall id, later :: id in s'.notifiers && id < later < |s'.subs| ==> s'.subs[later].url != s'.subs[id].url)
            && (forall u :: SendersKnown(s', u))
  {
    var s' := Next(s, AddSubscriber(url));
    forall id | id in s.notifiers ensures s.subs[id].url != url {
      var i :| 0 <= i < |s.notifiers| && s.notifiers[i] == id;
    }
    forall u ensures SendersKnown(s', u) { assert SendersKnown(s, u) && EndOf(s', u) == EndOf(s, u); }
  }

  lemma DeliverSender(s: State, id: nat, choice: Choice)
    requires SenderInv(s) && Enabled(s, Deliver(id, choice))
    ensures SinceSane(Next(s, Deliver(id, choice))) && forall u :: SendersKnown(Next(s, Deliver(id, choice)), u)
  {
    var s', url := Next(s, Deliver(id, choice)), s.subs[id].url;
    forall u ensures SendersKnown(s', u) {
      assert SendersKnown(s, u);
      assert u != url ==> EndOf(s', u) == EndOf(s, u);
    }
  }

  // Where AddSubscriber is called for a URL only once every earlier notifier for it has stopped:
  // earlier registrations have stopped, and what has arrived since a registration is not theirs.
  ghost predicate CleanInv(s: State) {
    && SenderInv(s)
    && (forall id, later :: 0 <= id < later < |s.subs| && s.subs[id].url == s.subs[later].url ==>
          s.subs[id].notifier.pc.Stopped?)
    && (forall id :: 0 <= id < |s.subs| ==> LaterOnly(s, id))
  }

  ghost predicate LaterOnly(s: State, id: nat)
    requires id < |s.subs|
  {
    var arrived := EndOf(s, s.subs[id].url).arrived;
    forall w :: s.subs[id].since <= w < |arrived| ==> arrived[w].sender >= id
  }

  lemma CleanStep(s: State, a: Action)
    requires CleanInv(s) && Enabled(s, a) && Clean(s, a)
    ensures CleanInv(Next(s, a))
  {
    SenderStep(s, a);
    StoppedStay(s, a);
    forall id | 0 <= id < |Next(s, a).subs| ensures LaterOnly(Next(s, a), id) {
      if id < |s.subs| { StillLaterOnly(s, a, id); }
    }
  }

  lemma StoppedStay(s: State, a: Action)
    requires CleanInv(s) && Enabled(s, a) && Clean(s, a)
    ensures forall id, later :: 0 <= id < later < |Next(s, a).subs| && Next(s, a).subs[id].url == Next(s, a).subs[later].url ==>
              Next(s, a).subs[id].notifier.pc.Stopped?
  {
  }

  lemma StillLaterOnly(s: State, a: Action, id: nat)
    requires CleanInv(s) && Enabled(s, a) && id < |s.subs|
    ensures LaterOnly(Next(s, a), id)
  {
    assert LaterOnly(s, id);
    if a.Deliver? && s.subs[a.sub].url == s.subs[id].url { assert a.sub >= id; }
  }

  lemma {:induction false} CleanRunsKeep(s: State, actions: seq<Action>)
    requires CleanInv(s) && Runnable(s, actions) && CleanRun(s, actions)
    ensures CleanInv(Run(s, actions))
    decreases |actions|
  {
    if actions == [] {
    } else {
      CleanStep(s, actions[0]);
      CleanRunsKeep(Next(s, actions[0]), actions[1..]);
    }
  }

  // In such runs every registered subscriber has had its server to itself since it was registered.
  lemma CleanRunsWriteAlone(actions: seq<Action>, id: nat)
    requires Runnable(INIT, actions) && CleanRun(INIT, actions) && id in Run(INIT, actions).notifiers
    ensures Alone(Run(INIT, actions), id)
  {
    CleanRunsKeep(INIT, actions);
    var s := Run(INIT, actions);
    assert Known(s.notifiers, |s.subs|);
    assert SendersKnown(s, s.subs[id].url) && LaterOnly(s, id);
  }

  // ---------- Order of arrival ----------

  // The positions a notifier has taken off its queue, has queued, and is about to be enqueued.
  function LineOf(n: Notifier, pend: seq<Item>): seq<nat> {
    n.hist.taken + Positions(n.queue) + Positions(pend)
  }

  // They ascend, and were recorded since registration; what is in hand was taken last.
  ghost predicate LinedUp(n: Notifier, pend: seq<Item>, base: nat, bound: nat) {
    && InLogOrder(n, pend, bound)
    && (forall p :: p in LineOf(n, pend) ==> base <= p)
    && (n.pc.Delivering? ==> n.hist.taken != [] && n.hist.taken[|n.hist.taken| - 1] == n.pc.item.idx)
  }

  function Line(s: State, id: nat): seq<nat>
    requires id < |s.subs|
  {
    LineOf(s.subs[id].notifier, Pend(s.jobs, id))
  }

  ghost predicate LineOk(s: State, id: nat)
    requires id < |s.subs|
  {
    LinedUp(s.subs[id].notifier, Pend(s.jobs, id), s.subs[id].base, |s.log|)
  }

  // All of it was recorded before a later registration of the same URL.
  ghost predicate Apart(s: State) {
    forall id, later :: 0 <= id < later < |s.subs| && s.subs[id].url == s.subs[later].url ==>
      forall p :: p in Line(s, id) ==> p < s.subs[later].base
  }

  // What came off a queue had been taken by its sender, and each sender's events came in order.
  ghost predicate ArrivedOk(arrived: seq<Arrival>, subs: seq<Sub>) {
    && (forall w :: 0 <= w < |arrived| && arrived[w].at.Some? ==>
          arrived[w].sender < |subs| && arrived[w].at.value in subs[arrived[w].sender].notifier.hist.taken)
    && (forall w, v :: 0 <= w < v < |arrived| && SameSender(arrived[w], arrived[v]) ==>
          arrived[w].at.value <= arrived[v].at.value)
  }

  predicate SameSender(a: Arrival, b: Arrival) { a.at.Some? && b.at.Some? && a.sender == b.sender }

  lemma ArrivedStill(arrived: seq<Arrival>, subs: seq<Sub>, subs': seq<Sub>)
    requires ArrivedOk(arrived, subs) && |subs| <= |subs'|
    requires forall id, p :: 0 <= id < |subs| && p in subs[id].notifier.hist.taken ==> p in subs'[id].notifier.hist.taken
    ensures ArrivedOk(arrived, subs')
  {
  }

  lemma ArrivedNew(arrived: seq<Arrival>, subs: seq<Sub>, a: Arrival)
    requires ArrivedOk(arrived, subs) && a.sender < |subs|
    requires a.at.Some? ==> a.at.value in subs[a.sender].notifier.hist.taken
    requires a.at.Some? ==> forall p :: p in subs[a.sender].notifier.hist.taken ==> p <= a.at.value
    ensures ArrivedOk(arrived + [a], subs)
  {
  }

  ghost predicate OrderInv(s: State) {
    && SenderInv(s) && HandOffInv(s)
    && (forall id :: 0 <= id < |s.subs| ==> LineOk(s, id))
    && Apart(s)
    && (forall url :: ArrivedOk(EndOf(s, url).arrived, s.subs))
  }

  // What a step may do to a line: leave it, take something out of it, or, when an event is recorded,
  // put its position at the end of the line of a registered subscriber.
  ghost predicate LineStep(s: State, s': State, id: nat)
    requires id < |s.subs| && id < |s'.subs|
  {
    && s'.subs[id].url == s.subs[id].url && s'.subs[id].base == s.subs[id].base
    && (forall p :: p in Line(s', id) ==> p in Line(s, id) || (p == |s.log| && id in s.notifiers))
  }

  lemma ApartStep(s: State, s': State)
    requires SenderInv(s) && Apart(s) && |s'.subs| == |s.subs|
    requires forall id :: 0 <= id < |s.subs| ==> LineStep(s, s', id)
    ensures Apart(s')
  {
    forall id, later, p | 0 <= id < later < |s'.subs| && s'.subs[id].url == s'.subs[later].url && p in Line(s', id)
      ensures p < s'.subs[later].base
    {
      assert LineStep(s, s', id) && LineStep(s, s', later);
    }
  }

  lemma ReceiveLined(n: Notifier, pend: seq<Item>, item: Item, base: nat, bound: nat)
    requires LinedUp(n, pend, base, bound) && item.idx == bound && base <= bound
    ensures LinedUp(n, pend + [item], base, bound + 1)
    ensures forall p :: p in LineOf(n, pend + [item]) ==> p in LineOf(n, pend) || p == bound
  {
    ReceiveInOrder(n, pend, item, bound);
    assert Positions(pend + [item]) == Positions(pend) + [bound];
    assert LineOf(n, pend + [item]) == LineOf(n, pend) + [bound];
  }

  lemma OfferLined(n: Notifier, item: Item, pend: seq<Item>, base: nat, bound: nat)
    requires LinedUp(n, [item] + pend, base, bound)
    ensures LinedUp(Offer(n, item), pend, base, bound)
    ensures forall p :: p in LineOf(Offer(n, item), pend) ==> p in LineOf(n, [item] + pend)
  {
    OfferInOrder(n, item, pend, bound);
    assert Positions([item] + pend) == [item.idx] + Positions(pend);
    assert Positions(n.queue + [item]) == Positions(n.queue) + [item.idx];
    assert Offer(n, item).pc == n.pc && Offer(n, item).hist.taken == n.hist.taken;
    forall p | p in LineOf(Offer(n, item), pend) ensures p in LineOf(n, [item] + pend) {}
  }

  lemma DeliverLined(n: Notifier, pend: seq<Item>, base: nat, bound: nat, log: seq<ResourceChange>, choice: Choice)
    requires LinedUp(n, pend, base, bound) && SubEnabled(n, true, choice)
    ensures LinedUp(SubNext(n, log, choice), pend, base, bound)
    ensures forall p :: p in LineOf(SubNext(n, log, choice), pend) ==> p in LineOf(n, pend)
  {
    DeliverInOrder(n, pend, bound, log, choice);
    DeliverTakes(n, log, choice);
    LineShrinks(n, SubNext(n, log, choice), pend);
  }

  // What a step takes off the queue, and what it has in hand.
  lemma DeliverTakes(n: Notifier, log: seq<ResourceChange>, choice: Choice)
    requires SubEnabled(n, true, choice)
    requires n.pc.Delivering? ==> n.hist.taken != [] && n.hist.taken[|n.hist.taken| - 1] == n.pc.item.idx
    ensures var n' := SubNext(n, log, choice);
            && (n'.hist.taken == n.hist.taken || (n.queue != [] && n'.hist.taken == n.hist.taken + [n.queue[0].idx]))
            && (n'.queue == n.queue || (n.queue != [] && n'.queue == n.queue[1..]))
            && (n'.pc.Delivering? ==> n'.hist.taken != [] && n'.hist.taken[|n'.hist.taken| - 1] == n'.pc.item.idx)
  {
    if Busy(n.pc) { AttemptFrame(n, if choice.Attempt? then choice.outcome else Refused); }
  }

  lemma LineShrinks(n: Notifier, n': Notifier, pend: seq<Item>)
    requires n'.hist.taken == n.hist.taken || (n.queue != [] && n'.hist.taken == n.hist.taken + [n.queue[0].idx])
    requires n'.queue == n.queue || (n.queue != [] && n'.queue == n.queue[1..])
    ensures forall p :: p in LineOf(n', pend) ==> p in LineOf(n, pend)
  {
    if n.queue != [] { assert Positions(n.queue) == [n.queue[0].idx] + Positions(n.queue[1..]); }
  }

  lemma ReceiveLines(s: State, c: ResourceChange, id: nat)
    requires OrderInv(s) && id < |s.subs|
    ensures LineStep(s, Next(s, Receive(c)), id) && LineOk(Next(s, Receive(c)), id)
  {
    var s', item := Next(s, Receive(c)), Item(|s.log|, c);
    assert LineOk(s, id) && HandedOff(s.subs[id], id in s.notifiers, id, s.jobs, s.log);
    ReceivePends(s.jobs, Job(item, s.notifiers), id);
    if id in s.notifiers { ReceiveLined(s.subs[id].notifier, Pend(s.jobs, id), item, s.subs[id].base, |s.log|); }
  }

  lemma EnqueueLines(s: State, j: nat, id: nat)
    requires OrderInv(s) && Enabled(s, Enqueue(j)) && InOrder(s, Enqueue(j)) && id < |s.subs|
    ensures LineStep(s, Next(s, Enqueue(j)), id) && LineOk(Next(s, Enqueue(j)), id)
  {
    assert LineOk(s, id);
    var b := EnqueuePendsFirst(s.jobs, j, id);
    if id == s.jobs[j].todo[0] {
      OfferLined(s.subs[id].notifier, s.jobs[j].item, b, s.subs[id].base, |s.log|);
    }
  }

  lemma DeliverEnds(s: State, id: nat, choice: Choice, u: string)
    requires Enabled(s, Deliver(id, choice))
    ensures var s', n := Next(s, Deliver(id, choice)), s.subs[id].notifier;
            EndOf(s', u).arrived == EndOf(s, u).arrived + if u == s.subs[id].url && Writes(choice) then [Sent(id, n)] else []
  {
  }

  function Sent(id: nat, n: Notifier): Arrival { Arrival(id, if n.pc.Delivering? then Some(n.pc.item.idx) else None) }

  lemma DeliverArrives(s: State, id: nat, choice: Choice)
    requires OrderInv(s) && Enabled(s, Deliver(id, choice))
    ensures forall url :: ArrivedOk(EndOf(Next(s, Deliver(id, choice)), url).arrived, Next(s, Deliver(id, choice)).subs)
  {
    var s', n := Next(s, Deliver(id, choice)), s.subs[id].notifier;
    TakenGrows(n, s.log, choice);
    forall u ensures ArrivedOk(EndOf(s', u).arrived, s'.subs) {
      var before := EndOf(s, u).arrived;
      DeliverEnds(s, id, choice, u);
      assert ArrivedOk(before, s.subs) && before + [] == before;
      if u == s.subs[id].url && Writes(choice) {
        assert LineOk(s, id);
        TakenUpTo(n, Pend(s.jobs, id), s.subs[id].base, |s.log|);
        ArrivedNew(before, s.subs, Sent(id, n));
      }
      ArrivedStill(EndOf(s', u).arrived, s.subs, s'.subs);
    }
  }

  lemma TakenUpTo(n: Notifier, pend: seq<Item>, base: nat, bound: nat)
    requires LinedUp(n, pend, base, bound)
    ensures Increasing(n.hist.taken, bound)
    ensures n.pc.Delivering? ==>
              n.pc.item.idx in n.hist.taken && forall p :: p in n.hist.taken ==> p <= n.pc.item.idx
  {
    var taken := n.hist.taken;
    forall i | 0 <= i < |taken| ensures taken[i] == LineOf(n, pend)[i] {}
    forall p | p in taken ensures p <= taken[|taken| - 1] {
      var i :| 0 <= i < |taken| && taken[i] == p;
    }
  }

  lemma TakenGrows(n: Notifier, log: seq<ResourceChange>, choice: Choice)
    requires SubEnabled(n, true, choice)
    ensures forall p :: p in n.hist.taken ==> p in SubNext(n, log, choice).hist.taken
  {
    if Busy(n.pc) { AttemptFrame(n, if choice.Attempt? then choice.outcome else Refused); }
  }

  lemma AddOrder(s: State, url: string)
    requires OrderInv(s) && Enabled(s, AddSubscriber(url))
    ensures OrderInv(Next(s, AddSubscriber(url)))
  {
    SenderStep(s, AddSubscriber(url));
    HandOffStep(s, AddSubscriber(url));
    AddLines(s, url);
    AddApart(s, Next(s, AddSubscriber(url)));
    AddArrived(s, url);
  }

  lemma AddLines(s: State, url: string)
    requires OrderInv(s) && Enabled(s, AddSubscriber(url))
    ensures var s' := Next(s, AddSubscriber(url));
            && (forall id :: 0 <= id < |s.subs| ==>
                  s'.subs[id] == s.subs[id] && Line(s', id) == Line(s, id) && LineOk(s, id) && LineOk(s', id))
            && Line(s', |s.subs|) == [] && LineOk(s', |s.subs|)
  {
    var s' := Next(s, AddSubscriber(url));
    forall id | 0 <= id < |s.subs|
      ensures s'.subs[id] == s.subs[id] && Line(s', id) == Line(s, id) && LineOk(s, id) && LineOk(s', id)
    {
      assert LineOk(s, id);
    }
    forall j | 0 <= j < |s.jobs| ensures |s.subs| !in s.jobs[j].todo {}
    PendNone(s.jobs, |s.subs|);
    assert s'.subs[|s.subs|].notifier == NewNotifier(s.log);
    NewLined(s.log);
  }

  lemma NewLined(log: seq<ResourceChange>)
    ensures LineOf(NewNotifier(log), []) == [] && LinedUp(NewNotifier(log), [], |log|, |log|)
  {
  }

  lemma AddArrived(s: State, url: string)
    requires OrderInv(s) && Enabled(s, AddSubscriber(url))
    ensures forall u :: ArrivedOk(EndOf(Next(s, AddSubscriber(url)), u).arrived, Next(s, AddSubscriber(url)).subs)
  {
    var s' := Next(s, AddSubscriber(url));
    forall u ensures ArrivedOk(EndOf(s', u).arrived, s'.subs) {
      assert EndOf(s', u) == EndOf(s, u);
      ArrivedStill(EndOf(s, u).arrived, s.subs, s'.subs);
    }
  }

  lemma AddApart(s: State, s': State)
    requires Apart(s) && |s'.subs| == |s.subs| + 1 && s'.subs[|s.subs|].base == |s.log|
    requires forall id :: 0 <= id < |s.subs| ==> s'.subs[id] == s.subs[id] && Line(s', id) == Line(s, id) && LineOk(s, id)
    ensures Apart(s')
  {
    forall id, later, p | 0 <= id < later < |s'.subs| && s'.subs[id].url == s'.subs[later].url && p in Line(s', id)
      ensures p < s'.subs[later].base
    {
      assert LineOk(s, id);
      var i :| 0 <= i < |Line(s, id)| && Line(s, id)[i] == p;
    }
  }

  // Steps that change no server.
  lemma QuietOrder(s: State, a: Action)
    requires OrderInv(s) && Enabled(s, a) && !a.AddSubscriber? && !a.Deliver?
    requires forall id :: 0 <= id < |s.subs| ==> LineStep(s, Next(s, a), id) && LineOk(Next(s, a), id)
    requires forall id :: 0 <= id < |s.subs| ==> Next(s, a).subs[id].notifier.hist.taken == s.subs[id].notifier.hist.taken
    ensures OrderInv(Next(s, a))
  {
    SenderStep(s, a);
    HandOffStep(s, a);
    ApartStep(s, Next(s, a));
    forall u ensures ArrivedOk(EndOf(Next(s, a), u).arrived, Next(s, a).subs) {
      assert EndOf(Next(s, a), u) == EndOf(s, u);
      ArrivedStill(EndOf(s, u).arrived, s.subs, Next(s, a).subs);
    }
  }

  lemma OrderStep(s: State, a: Action)
    requires OrderInv(s) && Enabled(s, a) && InOrder(s, a)
    ensures OrderInv(Next(s, a))
  {
    var s' := Next(s, a);
    match a
    case Receive(c) =>
      forall id | 0 <= id < |s.subs| ensures LineStep(s, s', id) && LineOk(s', id) { ReceiveLines(s, c, id); }
      QuietOrder(s, a);
    case Enqueue(j) =>
      forall id | 0 <= id < |s.subs| ensures LineStep(s, s', id) && LineOk(s', id) { EnqueueLines(s, j, id); }
      QuietOrder(s, a);
    case Return(j) =>
      forall id | 0 <= id < |s.subs| ensures LineStep(s, s', id) && LineOk(s', id) {
        ReturnPends(s.jobs, j, id);
        assert LineOk(s, id) && Line(s', id) == Line(s, id);
      }
      QuietOrder(s, a);
    case RemoveSubscriber(_) =>
      forall id | 0 <= id < |s.subs| ensures LineStep(s, s', id) && LineOk(s', id) { assert LineOk(s, id); }
      QuietOrder(s, a);
    case CloseStop(_) =>
      forall id | 0 <= id < |s.subs| ensures LineStep(s, s', id) && LineOk(s', id) { assert LineOk(s, id); }
      QuietOrder(s, a);
    case AddSubscriber(url) => AddOrder(s, url);
    case Deliver(id, choice) => DeliverOrder(s, id, choice);
  }

  lemma DeliverOrder(s: State, id: nat, choice: Choice)
    requires OrderInv(s) && Enabled(s, Deliver(id, choice))
    ensures OrderInv(Next(s, Deliver(id, choice)))
  {
    var s' := Next(s, Deliver(id, choice));
    SenderStep(s, Deliver(id, choice));
    HandOffStep(s, Deliver(id, choice));
    forall other | 0 <= other < |s.subs| ensures LineStep(s, s', other) && LineOk(s', other) {
      assert LineOk(s, other);
      if other == id { DeliverLined(s.subs[id].notifier, Pend(s.jobs, id), s.subs[id].base, |s.log|, s.log, choice); }
    }
    ApartStep(s, s');
    DeliverArrives(s, id, choice);
  }

  lemma {:induction false} RunsKeepOrder(s: State, actions: seq<Action>)
    requires OrderInv(s) && Runnable(s, actions) && OrderedRun(s, actions)
    ensures OrderInv(Run(s, actions))
    decreases |actions|
  {
    if actions == [] {
    } else {
      OrderStep(s, actions[0]);
      RunsKeepOrder(Next(s, actions[0]), actions[1..]);
    }
  }

  // ---------- The promises ----------

  // Queue deliveries of one registration, before and after its removal, happen in strictly
  // increasing record order.
  lemma DeliveryInRecordOrder(actions: seq<Action>, id: nat)
    requires Runnable(INIT, actions) && OrderedRun(INIT, actions)
    requires id < |Run(INIT, actions).subs|
    ensures Increasing(Run(INIT, actions).subs[id].notifier.hist.taken, |Run(INIT, actions).log|)
  {
    RunsKeepOrder(INIT, actions);
    var s := Run(INIT, actions);
    assert LineOk(s, id);
    TakenUpTo(s.subs[id].notifier, Pend(s.jobs, id), s.subs[id].base, |s.log|);
  }

  // Leaving snapshots aside, and counting an event as often as it was applied.
  ghost predicate InRecordOrder(arrived: seq<Arrival>) {
    forall w, v :: 0 <= w < v < |arrived| && arrived[w].at.Some? && arrived[v].at.Some? ==>
      arrived[w].at.value <= arrived[v].at.value
  }

  ghost predicate ByRegistration(arrived: seq<Arrival>) {
    forall w, v :: 0 <= w < v < |arrived| && arrived[w].at.Some? && arrived[v].at.Some? ==>
      arrived[w].sender <= arrived[v].sender
  }

  // Over all registrations of a URL, events arrive at the server in record order if and only if no
  // notifier delivers one after a later registration of the URL has.
  lemma ArrivalOrderExactly(actions: seq<Action>, url: string)
    requires Runnable(INIT, actions) && OrderedRun(INIT, actions)
    ensures var arrived := EndOf(Run(INIT, actions), url).arrived;
            InRecordOrder(arrived) <==> ByRegistration(arrived)
  {
    RunsKeepOrder(INIT, actions);
    ArrivalsDecide(Run(INIT, actions), url);
  }

  lemma ArrivalsDecide(s: State, url: string)
    requires OrderInv(s)
    ensures InRecordOrder(EndOf(s, url).arrived) <==> ByRegistration(EndOf(s, url).arrived)
  {
    var arrived := EndOf(s, url).arrived;
    forall w, v | 0 <= w < |arrived| && 0 <= v < |arrived| && arrived[w].at.Some? && arrived[v].at.Some?
                  && arrived[w].sender < arrived[v].sender
      ensures arrived[w].at.value < arrived[v].at.value
    {
      LaterSendsLater(s, url, w, v);
    }
    assert ArrivedOk(arrived, s.subs);
    SendersDecide(arrived, s.subs);
  }

  lemma SendersDecide(arrived: seq<Arrival>, subs: seq<Sub>)
    requires ArrivedOk(arrived, subs)
    requires forall w, v ::
               (0 <= w < |arrived| && 0 <= v < |arrived| && arrived[w].at.Some? && arrived[v].at.Some?
                && arrived[w].sender < arrived[v].sender) ==> arrived[w].at.value < arrived[v].at.value
    ensures InRecordOrder(arrived) <==> ByRegistration(arrived)
  {
    if ByRegistration(arrived) {
      forall w, v | 0 <= w < v < |arrived| && arrived[w].at.Some? && arrived[v].at.Some?
        ensures arrived[w].at.value <= arrived[v].at.value
      {
        assert arrived[w].sender == arrived[v].sender ==> SameSender(arrived[w], arrived[v]);
      }
    }
  }

  lemma LaterSendsLater(s: State, url: string, w: nat, v: nat)
    requires OrderInv(s) && w < |EndOf(s, url).arrived| && v < |EndOf(s, url).arrived|
    requires var a, b := EndOf(s, url).arrived[w], EndOf(s, url).arrived[v]; a.at.Some? && b.at.Some? && a.sender < b.sender
    ensures EndOf(s, url).arrived[w].at.value < EndOf(s, url).arrived[v].at.value
  {
    var a, b := EndOf(s, url).arrived[w], EndOf(s, url).arrived[v];
    assert SendersKnown(s, url) && ArrivedOk(EndOf(s, url).arrived, s.subs);
    assert LineOk(s, b.sender);
    assert b.at.value in Line(s, b.sender) && a.at.value in Line(s, a.sender);
  }

  // In particular where a URL is registered again only once its earlier notifiers have stopped.
  lemma CleanRunsArriveInOrder(actions: seq<Action>, url: string)
    requires Runnable(INIT, actions) && OrderedRun(INIT, actions) && CleanRun(INIT, actions)
    ensures InRecordOrder(EndOf(Run(INIT, actions), url).arrived)
  {
    ArrivalOrderExactly(actions, url);
    CleanRunsKeep(INIT, actions);
    ServedInTurn(Run(INIT, actions), url);
  }

  lemma ServedInTurn(s: State, url: string)
    requires CleanInv(s)
    ensures ByRegistration(EndOf(s, url).arrived)
  {
    var arrived := EndOf(s, url).arrived;
    assert SendersKnown(s, url);
    forall w, v | 0 <= w < v < |arrived| ensures arrived[w].sender <= arrived[v].sender {
      assert LaterOnly(s, arrived[w].sender);
    }
  }
}
