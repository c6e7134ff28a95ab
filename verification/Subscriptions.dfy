// Delivery to subscribers as a state machine: recordingSink.Receive (recording_sink.go),
// AddSubscriber and RemoveSubscriber (manager.go) and the delivery goroutines (notify.go), step
// by step, in any interleaving. A step is one critical section, one channel operation, one access
// to the atomic flag, or one Notify attempt.
module Subscriptions {
  import opened Wrappers
  import opened Events
  import opened Fold
  import opened LatestState

  const NOTIFY_QUEUE_DEPTH := 256
  const NOTIFY_MAX_ATTEMPTS := 5

  // An event on its way to a subscriber, and its position in the log.
  datatype Item = Item(idx: nat, change: ResourceChange)

  // How one Notify attempt ends: it returns nil, or it returns an error, in which case the
  // subscriber may have applied the event all the same.
  datatype Outcome = Delivered | Refused | AppliedButFailed

  // Where the goroutine that delivers to a subscriber is. `failures` counts the failed attempts of
  // the deliver call in progress.
  datatype Pc =
    | Replaying(rest: seq<ResourceChange>, failures: nat)  // AddSubscriber's loop over past
    | ReplayFailed                                         // it is about to set resync and start run
    | Waiting                                              // run's select
    | Delivering(item: Item, failures: nat)
    | GaveUp                                               // run is about to set resync
    | Checking                                             // run's CompareAndSwap
    | Draining                                             // drainQueue
    | Drained                                              // the queue was seen empty; no snapshot yet
    | Sending(rest: seq<ResourceChange>, failures: nat)    // deliverSnapshot's loop
    | SendFailed                                           // run is about to set resync and the timer
    | Stopped

  // What has happened to a notifier. Nothing depends on it.
  datatype History = History(
    taken: seq<nat>,                 // positions taken off the queue for delivery, in order
    lost: set<nat>,                  // positions of Deletes that were dropped, drained or given up
    disturbed: bool,                 // some event was dropped on overflow or given up
    missed: bool,                    // the same, since the queue was last drained
    replayFailed: bool)              // AddSubscriber's replay was given up, and no drain since

  datatype Notifier = Notifier(queue: seq<Item>, resync: bool, retryArmed: bool, pc: Pc, hist: History)

  // An event applied by the server at a URL: which registration's notifier sent it, and its
  // position in the log unless it was part of a snapshot.
  datatype Arrival = Arrival(sender: nat, at: Option<nat>)

  // The server at a URL: the resources it holds, and all that it has applied, in order. It outlives
  // registrations, and a notifier that has been removed may go on sending to it for a while.
  datatype End = End(replica: map<ResourceKey, Payload>, arrived: seq<Arrival>)

  const NEW_END := End(map[], [])

  // One registration. `closed` is how often its stop channel has been closed; the rest is history:
  // the length of the log when it was made, the snapshot it was given then, the positions enqueue
  // has been called with, in order, and what the server held and had applied when it was made.
  datatype Sub = Sub(
    url: string,
    notifier: Notifier,
    closed: nat,
    base: nat,
    past: seq<ResourceChange>,
    addressed: seq<nat>,
    held: map<ResourceKey, Payload>,
    since: nat)

  // A Receive call after it has unlocked: the subscribers still to enqueue to.
  datatype Job = Job(item: Item, todo: seq<nat>)

  datatype State = State(
    log: seq<ResourceChange>,
    ends: map<string, End>,          // the servers that have been sent to
    subs: seq<Sub>,                  // every registration ever made
    notifiers: seq<nat>,             // the registered ones, as indices into subs
    jobs: seq<Job>,                  // Receive calls that have recorded and not returned
    removers: seq<nat>)              // RemoveSubscriber calls that have unlocked and not closed stop

  const INIT := State([], map[], [], [], [], [])

  datatype Choice = OnStop | OnQueue | OnRetry | Attempt(outcome: Outcome) | Abandon | Proceed

  datatype Action =
    | Receive(change: ResourceChange)
    | Enqueue(job: nat)
    | Return(job: nat)
    | AddSubscriber(url: string)
    | RemoveSubscriber(url: string)
    | CloseStop(remover: nat)
    | Deliver(sub: nat, choice: Choice)

  // ---------- One subscriber ----------

  function Forget(n: Notifier, item: Item): Notifier {
    if item.change.Del? then n.(hist := n.hist.(lost := n.hist.lost + {item.idx})) else n
  }

  // notifier.enqueue
  function Offer(n: Notifier, item: Item): Notifier {
    if |n.queue| < NOTIFY_QUEUE_DEPTH then n.(queue := n.queue + [item])
    else Forget(n.(resync := true, hist := n.hist.(disturbed := true, missed := true)), item)
  }

  // deliver is working, and on what.
  predicate Busy(pc: Pc) { pc.Delivering? || ((pc.Replaying? || pc.Sending?) && pc.rest != []) }

  function Hand(pc: Pc): ResourceChange
    requires Busy(pc)
  {
    if pc.Delivering? then pc.item.change else pc.rest[0]
  }

  // Where the goroutine is when deliver has returned.
  function Ended(pc: Pc, ok: bool): Pc
    requires Busy(pc)
  {
    match pc
    case Delivering(_, _) => if ok then Checking else GaveUp
    case Replaying(rest, _) => if ok then Replaying(rest[1..], 0) else ReplayFailed
    case Sending(rest, _) => if ok then Sending(rest[1..], 0) else SendFailed
  }

  predicate SubEnabled(n: Notifier, stopped: bool, choice: Choice) {
    match choice
    case OnStop => n.pc.Waiting? && stopped
    case OnQueue => n.pc.Waiting? && n.queue != []
    case OnRetry => n.pc.Waiting? && n.retryArmed
    case Attempt(_) => Busy(n.pc)
    case Abandon => Busy(n.pc) && n.pc.failures > 0 && stopped
    case Proceed => !n.pc.Waiting? && !n.pc.Stopped? && !Busy(n.pc)
  }

  // deliver returns false. What a snapshot holds are no Deletes.
  function Fail(n: Notifier): Notifier
    requires Busy(n.pc)
  {
    var replayFailed := n.hist.replayFailed || n.pc.Replaying?;
    var s := n.(pc := Ended(n.pc, false),
                hist := n.hist.(disturbed := true, missed := true, replayFailed := replayFailed));
    if n.pc.Delivering? then Forget(s, n.pc.item) else s
  }

  function Tried(n: Notifier, outcome: Outcome): Notifier
    requires Busy(n.pc)
  {
    if outcome.Delivered? then n.(pc := Ended(n.pc, true))
    else if n.pc.failures + 1 >= NOTIFY_MAX_ATTEMPTS then Fail(n)
    else n.(pc := n.pc.(failures := n.pc.failures + 1))
  }

  // A step that does not wait for anything.
  function Advance(n: Notifier, log: seq<ResourceChange>): Notifier
    requires SubEnabled(n, true, Proceed)
  {
    match n.pc
    case Replaying(_, _) => n.(pc := Waiting)
    case ReplayFailed => n.(resync := true, pc := Waiting)
    case GaveUp => n.(resync := true, pc := Checking)
    case Checking =>
      if n.resync then n.(retryArmed := false, resync := false, pc := Draining)
      else n.(retryArmed := false, pc := Waiting)
    case Draining =>
      if n.queue == [] then n.(pc := Drained, hist := n.hist.(missed := false, replayFailed := false))
      else Forget(n.(queue := n.queue[1..]), n.queue[0])
    case Drained => n.(pc := Sending(Snapshot(log), 0))
    case Sending(_, _) => n.(pc := Waiting)
    case SendFailed => n.(resync := true, retryArmed := true, pc := Waiting)
  }

  function SubNext(n: Notifier, log: seq<ResourceChange>, choice: Choice): Notifier
    requires SubEnabled(n, true, choice)
  {
    match choice
    case OnStop => n.(pc := Stopped)
    case OnQueue =>
      n.(queue := n.queue[1..], pc := Delivering(n.queue[0], 0), hist := n.hist.(taken := n.hist.taken + [n.queue[0].idx]))
    case OnRetry => n.(pc := Checking)
    case Attempt(outcome) => Tried(n, outcome)
    case Abandon => Fail(n)
    case Proceed => Advance(n, log)
  }

  // What a step does to the map at the other end.
  predicate Writes(choice: Choice) { choice.Attempt? && !choice.outcome.Refused? }

  function Applied(m: map<ResourceKey, Payload>, n: Notifier, choice: Choice): map<ResourceKey, Payload>
    requires SubEnabled(n, true, choice)
  {
    if Writes(choice) then Apply(m, Hand(n.pc)) else m
  }

  function Written(e: End, id: nat, n: Notifier, choice: Choice): End
    requires SubEnabled(n, true, choice)
  {
    var at := if n.pc.Delivering? then Some(n.pc.item.idx) else None;
    End(Applied(e.replica, n, choice), e.arrived + if Writes(choice) then [Arrival(id, at)] else [])
  }

  function NewNotifier(log: seq<ResourceChange>): Notifier {
    Notifier([], false, false, Replaying(Snapshot(log), 0), History([], {}, false, false, false))
  }

  function NewSub(url: string, log: seq<ResourceChange>, e: End): Sub {
    Sub(url, NewNotifier(log), 0, |log|, Snapshot(log), [], e.replica, |e.arrived|)
  }

  // ---------- The whole system ----------

  function EndOf(s: State, url: string): End { if url in s.ends then s.ends[url] else NEW_END }

  ghost predicate Registered(s: State, url: string) {
    exists i :: 0 <= i < |s.notifiers| && s.notifiers[i] < |s.subs| && s.subs[s.notifiers[i]].url == url
  }

  // The first notifier with this URL.
  ghost function Position(s: State, url: string): (i: nat)
    requires Registered(s, url)
    ensures i < |s.notifiers| && s.notifiers[i] < |s.subs| && s.subs[s.notifiers[i]].url == url
    ensures forall j :: 0 <= j < i && s.notifiers[j] < |s.subs| ==> s.subs[s.notifiers[j]].url != url
  {
    PositionFrom(s, url, 0)
  }

  ghost function PositionFrom(s: State, url: string, from: nat): (i: nat)
    requires exists i :: from <= i < |s.notifiers| && s.notifiers[i] < |s.subs| && s.subs[s.notifiers[i]].url == url
    ensures from <= i < |s.notifiers| && s.notifiers[i] < |s.subs| && s.subs[s.notifiers[i]].url == url
    ensures forall j :: from <= j < i && s.notifiers[j] < |s.subs| ==> s.subs[s.notifiers[j]].url != url
    decreases |s.notifiers| - from
  {
    if s.notifiers[from] < |s.subs| && s.subs[s.notifiers[from]].url == url then from
    else PositionFrom(s, url, from + 1)
  }

  ghost predicate Enabled(s: State, a: Action) {
    match a
    case Receive(_) => true
    case Enqueue(j) => j < |s.jobs| && s.jobs[j].todo != [] && s.jobs[j].todo[0] < |s.subs|
    case Return(j) => j < |s.jobs| && s.jobs[j].todo == []
    case AddSubscriber(url) => !Registered(s, url)
    case RemoveSubscriber(url) => Registered(s, url)
    case CloseStop(r) => r < |s.removers| && s.removers[r] < |s.subs|
    case Deliver(id, choice) => id < |s.subs| && SubEnabled(s.subs[id].notifier, s.subs[id].closed > 0, choice)
  }

  ghost function Next(s: State, a: Action): State
    requires Enabled(s, a)
  {
    match a
    case Receive(c) => s.(log := s.log + [c], jobs := s.jobs + [Job(Item(|s.log|, c), s.notifiers)])
    case Enqueue(j) =>
      var job := s.jobs[j];
      var sub := s.subs[job.todo[0]];
      s.(jobs := s.jobs[j := Job(job.item, job.todo[1..])],
         subs := s.subs[job.todo[0] := sub.(notifier := Offer(sub.notifier, job.item),
                                            addressed := sub.addressed + [job.item.idx])])
    case Return(j) => s.(jobs := s.jobs[..j] + s.jobs[j + 1..])
    case AddSubscriber(url) =>
      s.(subs := s.subs + [NewSub(url, s.log, EndOf(s, url))], notifiers := s.notifiers + [|s.subs|])
    case RemoveSubscriber(url) =>
      var i := Position(s, url);
      s.(notifiers := s.notifiers[..i] + s.notifiers[i + 1..], removers := s.removers + [s.notifiers[i]])
    case CloseStop(r) =>
      var id := s.removers[r];
      s.(removers := s.removers[..r] + s.removers[r + 1..],
         subs := s.subs[id := s.subs[id].(closed := s.subs[id].closed + 1)])
    case Deliver(id, choice) =>
      var sub := s.subs[id];
      s.(subs := s.subs[id := sub.(notifier := SubNext(sub.notifier, s.log, choice))],
         ends := s.ends[sub.url := Written(EndOf(s, sub.url), id, sub.notifier, choice)])
  }

  ghost predicate Runnable(s: State, actions: seq<Action>)
    decreases |actions|
  {
    actions == [] || (Enabled(s, actions[0]) && Runnable(Next(s, actions[0]), actions[1..]))
  }

  ghost function Run(s: State, actions: seq<Action>): State
    requires Runnable(s, actions)
    decreases |actions|
  {
    if actions == [] then s else Run(Next(s, actions[0]), actions[1..])
  }

  lemma RunCons(s: State, a: Action, rest: seq<Action>)
    requires Enabled(s, a) && Runnable(Next(s, a), rest)
    ensures Runnable(s, [a] + rest) && Run(s, [a] + rest) == Run(Next(s, a), rest)
  {
    assert ([a] + rest)[1..] == rest;
  }

  lemma {:induction false} RunConcat(s: State, a: seq<Action>, b: seq<Action>)
    requires Runnable(s, a) && Runnable(Run(s, a), b)
    ensures Runnable(s, a + b) && Run(s, a + b) == Run(Run(s, a), b)
    decreases |a|
  {
    if a == [] {
      assert a + b == b;
    } else {
      RunConcat(Next(s, a[0]), a[1..], b);
      RunCons(s, a[0], a[1..] + b);
      assert [a[0]] + (a[1..] + b) == a + b;
    }
  }

  // Reached(s): some run from the start ends in s.
  ghost predicate Reached(s: State) {
    exists actions :: Runnable(INIT, actions) && Run(INIT, actions) == s
  }

  lemma ReachNext(s: State, a: Action)
    requires Reached(s) && Enabled(s, a)
    ensures Reached(Next(s, a))
  {
    var actions :| Runnable(INIT, actions) && Run(INIT, actions) == s;
    RunCons(s, a, []);
    assert [a] + [] == [a];
    RunConcat(INIT, actions, [a]);
  }

  // ---------- Order of enqueueing ----------

  // Receive calls that overlap still reach each subscriber's queue in the order they recorded.
  ghost predicate InOrder(s: State, a: Action)
    requires Enabled(s, a)
  {
    a.Enqueue? ==> forall i :: 0 <= i < a.job ==> s.jobs[a.job].todo[0] !in s.jobs[i].todo
  }

  // No event overtakes an older one of the same resource.
  ghost predicate InKeyOrder(s: State, a: Action)
    requires Enabled(s, a)
  {
    a.Enqueue? ==>
      forall i :: 0 <= i < a.job && s.jobs[a.job].todo[0] in s.jobs[i].todo ==>
        s.jobs[i].item.change.key != s.jobs[a.job].item.change.key
  }

  // Receive calls do not overlap.
  ghost predicate Serial(s: State, a: Action) { a.Receive? ==> s.jobs == [] }

  ghost predicate OrderedRun(s: State, actions: seq<Action>)
    requires Runnable(s, actions)
    decreases |actions|
  {
    actions != [] ==> InOrder(s, actions[0]) && OrderedRun(Next(s, actions[0]), actions[1..])
  }

  ghost predicate KeyOrderedRun(s: State, actions: seq<Action>)
    requires Runnable(s, actions)
    decreases |actions|
  {
    actions != [] ==> InKeyOrder(s, actions[0]) && KeyOrderedRun(Next(s, actions[0]), actions[1..])
  }

  ghost predicate SerialRun(s: State, actions: seq<Action>)
    requires Runnable(s, actions)
    decreases |actions|
  {
    actions != [] ==> Serial(s, actions[0]) && SerialRun(Next(s, actions[0]), actions[1..])
  }

  lemma {:induction false} SerialRunsAreOrdered(s: State, actions: seq<Action>)
    requires Runnable(s, actions) && SerialRun(s, actions) && |s.jobs| <= 1
    ensures OrderedRun(s, actions)
    decreases |actions|
  {
    if actions == [] {
    } else {
      SerialRunsAreOrdered(Next(s, actions[0]), actions[1..]);
    }
  }

  lemma {:induction false} OrderedRunsAreKeyOrdered(s: State, actions: seq<Action>)
    requires Runnable(s, actions) && OrderedRun(s, actions)
    ensures KeyOrderedRun(s, actions)
    decreases |actions|
  {
    if actions == [] {
    } else {
      OrderedRunsAreKeyOrdered(Next(s, actions[0]), actions[1..]);
    }
  }

  // Reached with Receive calls that do not overlap.
  ghost predicate ReachedSerially(s: State) {
    exists actions :: Runnable(INIT, actions) && SerialRun(INIT, actions) && Run(INIT, actions) == s
  }

  lemma ReachSerially(s: State, a: Action)
    requires ReachedSerially(s) && Enabled(s, a) && Serial(s, a)
    ensures ReachedSerially(Next(s, a))
  {
    var actions :| Runnable(INIT, actions) && SerialRun(INIT, actions) && Run(INIT, actions) == s;
    RunCons(s, a, []);
    assert [a] + [] == [a];
    RunConcat(INIT, actions, [a]);
    SerialConcat(INIT, actions, a);
  }

  lemma {:induction false} SerialConcat(s: State, actions: seq<Action>, a: Action)
    requires Runnable(s, actions) && SerialRun(s, actions)
    requires Enabled(Run(s, actions), a) && Serial(Run(s, actions), a)
    ensures Runnable(s, actions + [a]) && SerialRun(s, actions + [a])
    decreases |actions|
  {
    if actions == [] {
      assert actions + [a] == [a] && [a][1..] == [];
    } else {
      assert (actions + [a])[1..] == actions[1..] + [a];
      SerialConcat(Next(s, actions[0]), actions[1..], a);
    }
  }

  // ---------- Registering a URL again ----------

  // AddSubscriber is called for a URL only when every earlier notifier for it has stopped.
  ghost predicate Clean(s: State, a: Action) {
    a.AddSubscriber? ==>
      forall id :: 0 <= id < |s.subs| && s.subs[id].url == a.url ==> s.subs[id].notifier.pc.Stopped?
  }

  ghost predicate CleanRun(s: State, actions: seq<Action>)
    requires Runnable(s, actions)
    decreases |actions|
  {
    actions != [] ==> Clean(s, actions[0]) && CleanRun(Next(s, actions[0]), actions[1..])
  }

  // Everything the server at its URL has applied since this registration came from it.
  ghost predicate OwnWrites(s: State, id: nat)
    requires id < |s.subs|
  {
    var arrived := EndOf(s, s.subs[id].url).arrived;
    forall w :: s.subs[id].since <= w < |arrived| ==> arrived[w].sender == id
  }

  function ReplicaOf(s: State, id: nat): map<ResourceKey, Payload>
    requires id < |s.subs|
  {
    EndOf(s, s.subs[id].url).replica
  }
}
