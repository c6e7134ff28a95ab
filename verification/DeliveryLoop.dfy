// internal/events/notify.go as it is written: the notifier's channel, flag and loops. A call is cut
// at every point where other goroutines can run, and the cuts are the steps of Subscriptions: the
// ghost field n follows the step function, and the fields the code assigns must keep up with it.
module DeliveryLoops {
  import opened Wrappers
  import opened Events
  import opened Fold
  import opened LatestState
  import opened Subscriptions
  import opened SubscriberInvariant
  import opened Ledgers

  // What other goroutines do meanwhile: record an event, enqueue one of the recorded ones to this
  // notifier, unless an older one of the same resource is still to be enqueued, take the notifier off
  // the manager's list, close its stop channel, or, as the notifier of an earlier registration of the
  // same URL, write to the same server.
  datatype Outside =
    | Recorded(change: ResourceChange) | Enqueued(which: nat) | Unlisted | StopClosed | Wrote(change: ResourceChange)

  // Where one attempt leaves the goroutine.
  function After(pc: Pc, outcome: Outcome): Pc
    requires Busy(pc)
  {
    if outcome.Delivered? then Ended(pc, true)
    else if pc.failures + 1 == NOTIFY_MAX_ATTEMPTS then Ended(pc, false)
    else pc.(failures := pc.failures + 1)
  }

  // What one turn of the loop did, as far as the queue is concerned: what it found there, what it
  // took, whether its delivery was given up, the number of attempts and the events sent when that was
  // over with, and the log that a resync, if there was one, then took its snapshot of.
  datatype Report = Report(
    ready: seq<Item>, took: Option<Item>, failed: bool, tried: nat, sent: seq<ResourceChange>,
    seen: Option<seq<ResourceChange>>)
  {
    // What stays in the queue.
    function Rest(): seq<Item> { if took.Some? && ready != [] then ready[1..] else ready }
  }

  // The snapshot of a log has been sent, as a whole unless the timer has been armed for another try.
  ghost predicate Resent(
    before: seq<ResourceChange>, seen: seq<ResourceChange>, after: seq<ResourceChange>, armed: bool)
  {
    && before <= after && after[|before|..] <= Snapshot(seen)
    && (if armed then |after| > |before| else after == before + Snapshot(seen))
  }

  // The invariant, read where the goroutine is between turns or has stopped.
  lemma AtRest(
    n: Notifier, m: map<ResourceKey, Payload>, pend: seq<Item>, log: seq<ResourceChange>, base: nat,
    held: map<ResourceKey, Payload>)
    requires SubInv(n, m, pend, log, base, held) && (n.pc.Waiting? || n.pc.Stopped?)
    ensures var end := Replay(m, ChangesIn(n.queue + pend));
            && (n.pc.Waiting? && (!n.resync || !(WillWake(n) || n.hist.replayFailed)) ==> Agrees(end, Live(log)))
            && Explained(end, log, n.hist.lost, base, held)
            && (!n.hist.disturbed ==> (end == Live(log) <==> forall k :: !HeldOver(log, held, base, k)))
  {
    assert Stream(n, pend) == ChangesIn(n.queue + pend);
    if !n.hist.disturbed { UndisturbedExact(n, m, pend, log, base, held); }
  }

  class DeliveryLoop {
    var queue: seq<Item>
    var resync: bool
    var stopClosed: bool
    var retryArmed: bool                          // run's local variable resyncRetry is not nil
    var log: seq<ResourceChange>                  // what snapshot() reads
    var replica: map<ResourceKey, Payload>        // the map at the subscriber's end
    var pend: seq<Item>                           // recorded, and not yet enqueued here
    var unlisted: bool
    var shared: bool                              // someone else has written to the server

    // The choices this code does not make: what runs at each point where others can run, how each
    // Notify attempt ends, and whether a select that could take stop does.
    var script: seq<seq<Outside>>
    var attempts: nat
    const outcomes: nat -> Outcome
    const takesStop: nat -> bool

    ghost const base: nat                         // the length of the log when it was registered
    ghost const held: map<ResourceKey, Payload>   // what the server held then
    ghost var n: Notifier
    ghost var sent: seq<ResourceChange>           // what deliver has been called with, in order

    ghost predicate InStep()
      reads this
    {
      && n.queue == queue && n.resync == resync && n.retryArmed == retryArmed
      && (stopClosed ==> unlisted)
    }

    ghost predicate Kept()
      reads this
    {
      unlisted || shared || SubInv(n, replica, pend, log, base, held)
    }

    ghost predicate Valid()
      reads this
    {
      InStep() && Kept()
    }

    // What the subscriber holds once its queue, and what is about to join it, has been applied.
    ghost function Settled(): map<ResourceKey, Payload>
      reads this
    {
      Replay(replica, ChangesIn(queue + pend))
    }

    ghost predicate AllRefused(from: nat, to: nat) {
      forall k :: from <= k < to ==> outcomes(k).Refused?
    }

    ghost predicate AllDelivered() {
      forall k :: outcomes(k).Delivered?
    }

    ghost predicate NoneDelivered(from: nat, to: nat) {
      forall k :: from <= k < to ==> !outcomes(k).Delivered?
    }

    // What the others may have done since: the log and the queue have grown, the flag has not been
    // cleared, and nothing has been taken off the queue.
    twostate predicate Meanwhile()
      reads this
    {
      && old(log) <= log && old(queue) <= queue && n.hist.taken == old(n.hist.taken)
      && (old(resync) ==> resync) && (old(stopClosed) ==> stopClosed)
      && (old(unlisted) ==> unlisted) && (old(shared) ==> shared)
      && |script| <= |old(script)| && (old(script) == [] ==> queue == old(queue) && log == old(log))
    }

    // newNotifier, with AddSubscriber about to replay the snapshot it took under the lock, and the
    // server holding whatever it holds.
    constructor (
      log: seq<ResourceChange>, replica: map<ResourceKey, Payload>, script: seq<seq<Outside>>, outcomes: nat -> Outcome,
      takesStop: nat -> bool)
      ensures Valid() && n == NewNotifier(log) && this.log == log && base == |log| && held == this.replica == replica
      ensures !unlisted && !shared && sent == []
    {
      queue, resync, stopClosed, retryArmed, pend, unlisted, shared, sent := [], false, false, false, [], false, false, [];
      this.log, this.replica, this.script, this.outcomes, this.takesStop := log, replica, script, outcomes, takesStop;
      attempts := 0;
      base, held, n := |log|, replica, NewNotifier(log);
      new;
      NewNotifierInv(log, replica);
    }

    // The replica is to follow.
    ghost method Step(choice: Choice)
      requires Kept() && SubEnabled(n, stopClosed, choice) && (stopClosed ==> unlisted)
      modifies this`n
      ensures unlisted || shared || SubInv(n, Applied(replica, old(n), choice), pend, log, base, held)
      ensures n == SubNext(old(n), log, choice)
    {
      if !unlisted && !shared { DeliverKeeps(n, replica, pend, log, base, held, choice); }
      n := SubNext(n, log, choice);
    }

    // notifier.enqueue
    method Enqueue(item: Item)
      requires InStep()
      modifies this`queue, this`resync, this`n
      ensures InStep() && n == Offer(old(n), item)
      ensures if |old(queue)| < NOTIFY_QUEUE_DEPTH then queue == old(queue) + [item] && resync == old(resync)
              else queue == old(queue) && resync
    {
      n := Offer(n, item);
      if |queue| < NOTIFY_QUEUE_DEPTH {
        queue := queue + [item];
      } else {
        resync := true;
      }
    }

    method EnqueuePending(i: nat)
      requires Valid() && i < |pend| && NoKey(pend[..i], pend[i].change.key)
      modifies this`queue, this`resync, this`pend, this`n
      ensures Valid() && n.pc == old(n.pc) && n.hist.taken == old(n.hist.taken)
      ensures old(queue) <= queue && (old(resync) ==> resync)
    {
      var item := pend[i];
      if !unlisted && !shared {
        assert pend == pend[..i] + [item] + pend[i + 1..];
        OfferKeeps(n, replica, pend[..i], item, pend[i + 1..], log, base, held);
      }
      Enqueue(item);
      pend := pend[..i] + pend[i + 1..];
    }

    method Other(step: Outside)
      requires Valid()
      modifies this`queue, this`resync, this`stopClosed, this`log, this`pend, this`unlisted, this`n
      modifies this`replica, this`shared
      ensures Valid() && n.pc == old(n.pc) && n.hist.taken == old(n.hist.taken)
      ensures old(log) <= log && old(queue) <= queue && (old(resync) ==> resync) && (old(stopClosed) ==> stopClosed)
      ensures (old(unlisted) ==> unlisted) && (old(shared) ==> shared) && (!shared ==> replica == old(replica))
    {
      match step
      case Recorded(change) =>
        if !unlisted {
          if !shared { ReceiveKeeps(n, replica, pend, log, base, held, change); }
          pend := pend + [Item(|log|, change)];
        }
        log := log + [change];
      case Enqueued(i) =>
        if i < |pend| && NoKey(pend[..i], pend[i].change.key) {
          EnqueuePending(i);
        }
      case Unlisted => unlisted := true;
      case StopClosed => stopClosed := unlisted;
      case Wrote(change) => replica, shared := Apply(replica, change), true;
    }

    // A point where other goroutines can run.
    method Interleave()
      requires Valid()
      modifies this`queue, this`resync, this`stopClosed, this`log, this`pend, this`unlisted, this`n, this`script
      modifies this`replica, this`shared
      ensures Valid() && n.pc == old(n.pc) && Meanwhile() && (!shared ==> replica == old(replica))
      ensures old(script) == [] ==> script == [] && n == old(n)
      ensures old(script) != [] ==> |script| < |old(script)|
    {
      if script != [] {
        var now := script[0];
        script := script[1..];
        for i := 0 to |now|
          invariant Valid() && n.pc == old(n.pc) && n.hist.taken == old(n.hist.taken)
          invariant old(log) <= log && old(queue) <= queue && (old(resync) ==> resync) && (old(stopClosed) ==> stopClosed)
          invariant (old(unlisted) ==> unlisted) && (old(shared) ==> shared) && (!shared ==> replica == old(replica))
          invariant script == old(script)[1..]
        {
          Other(now[i]);
        }
      }
    }

    // An attempt that ends, or the choice to end deliver after a failed one.
    ghost method StepInDeliver(choice: Choice)
      requires Kept() && SubEnabled(n, stopClosed, choice) && (stopClosed ==> unlisted)
      requires Busy(n.pc) && n.pc.failures < NOTIFY_MAX_ATTEMPTS
      modifies this`n
      ensures unlisted || shared ||
              SubInv(n, if Writes(choice) then Apply(replica, Hand(old(n.pc))) else replica, pend, log, base, held)
      ensures n.queue == old(n.queue) && n.resync == old(n.resync) && n.retryArmed == old(n.retryArmed)
      ensures n.pc == if choice.Attempt? then After(old(n.pc), choice.outcome) else Ended(old(n.pc), false)
      ensures n.hist.taken == old(n.hist.taken)
    {
      Step(choice);
    }

    // One call of Notify.
    method CallNotify(ev: ResourceChange) returns (outcome: Outcome)
      requires Valid() && Busy(n.pc) && Hand(n.pc) == ev && n.pc.failures < NOTIFY_MAX_ATTEMPTS
      modifies this`queue, this`resync, this`stopClosed, this`log, this`pend, this`unlisted, this`n, this`script
      modifies this`replica, this`shared, this`attempts
      ensures Valid() && attempts == old(attempts) + 1 && outcome == outcomes(old(attempts))
      ensures !shared ==> replica == if outcome.Refused? then old(replica) else Apply(old(replica), ev)
      ensures n.pc == After(old(n.pc), outcome) && Meanwhile()
    {
      Interleave();
      outcome := outcomes(attempts);
      attempts := attempts + 1;
      StepInDeliver(Attempt(outcome));
      if !outcome.Refused? {
        replica := Apply(replica, ev);
      }
    }

    // The wait between two attempts.
    method Backoff() returns (abandoned: bool)
      requires Valid() && Busy(n.pc) && 0 < n.pc.failures < NOTIFY_MAX_ATTEMPTS
      modifies this`queue, this`resync, this`stopClosed, this`log, this`pend, this`unlisted, this`n, this`script
      modifies this`replica, this`shared
      ensures Valid() && n.pc == (if abandoned then Ended(old(n.pc), false) else old(n.pc))
      ensures Meanwhile() && (abandoned ==> stopClosed) && (!shared ==> replica == old(replica))
    {
      Interleave();
      abandoned := stopClosed && takesStop(attempts);
      if abandoned {
        StepInDeliver(Abandon);
      }
    }

    // The body of deliver's loop: over if the attempt succeeded, was the last, or is abandoned.
    method TryOnce(ev: ResourceChange, attempt: nat) returns (over: bool, ok: bool)
      requires Valid() && Busy(n.pc) && Hand(n.pc) == ev && n.pc.failures + 1 == attempt <= NOTIFY_MAX_ATTEMPTS
      modifies this`queue, this`resync, this`stopClosed, this`log, this`pend, this`unlisted, this`n, this`script
      modifies this`replica, this`shared, this`attempts
      ensures Valid() && n.pc == (if over then Ended(old(n.pc), ok) else old(n.pc).(failures := attempt))
      ensures attempts == old(attempts) + 1 && ok == outcomes(old(attempts)).Delivered? && Meanwhile()
      ensures !shared ==> replica == if outcomes(old(attempts)).Refused? then old(replica) else Apply(old(replica), ev)
      ensures if over then ok || attempt == NOTIFY_MAX_ATTEMPTS || stopClosed else !ok && attempt < NOTIFY_MAX_ATTEMPTS
    {
      var outcome := CallNotify(ev);
      if outcome.Delivered? {
        return true, true;
      }
      if attempt >= NOTIFY_MAX_ATTEMPTS {
        return true, false;
      }
      over := Backoff();
      ok := false;
    }

    // deliver's loop. reached: some attempt got through to the subscriber.
    method TryAll(ev: ResourceChange) returns (ok: bool, ghost reached: bool)
      requires Valid() && Busy(n.pc) && Hand(n.pc) == ev && n.pc.failures == 0
      modifies this`queue, this`resync, this`stopClosed, this`log, this`pend, this`unlisted, this`n, this`script
      modifies this`replica, this`shared, this`attempts
      ensures Valid() && n.pc == Ended(old(n.pc), ok) && Meanwhile()
      ensures old(attempts) < attempts <= old(attempts) + NOTIFY_MAX_ATTEMPTS
      ensures ok <==> outcomes(attempts - 1).Delivered?
      ensures NoneDelivered(old(attempts), attempts - 1)
      ensures reached <==> !AllRefused(old(attempts), attempts)
      ensures !shared ==> replica == if reached then Apply(old(replica), ev) else old(replica)
      ensures ok || attempts == old(attempts) + NOTIFY_MAX_ATTEMPTS || stopClosed
    {
      var attempt, over := 1, false;
      ghost var pc, first, was := n.pc, attempts, replica;
      reached := false;
      while true
        invariant Valid() && Meanwhile()
        invariant 1 <= attempt <= NOTIFY_MAX_ATTEMPTS && attempts == first + attempt - 1
        invariant n.pc == pc.(failures := attempt - 1)
        invariant NoneDelivered(first, attempts)
        invariant reached == !AllRefused(first, attempts)
        invariant !shared ==> replica == if reached then Apply(was, ev) else was
        decreases NOTIFY_MAX_ATTEMPTS - attempt
      {
        over, ok := TryOnce(ev, attempt);
        reached := reached || !outcomes(attempts - 1).Refused?;
        if over {
          return;
        }
        attempt := attempt + 1;
      }
    }

    // At most five attempts, of which only the last can succeed; the subscriber has applied the
    // event unless every attempt was refused. Without a success, fewer than five attempts are made
    // only once stop is closed.
    method Deliver(ev: ResourceChange) returns (ok: bool)
      requires Valid() && Busy(n.pc) && Hand(n.pc) == ev && n.pc.failures == 0
      modifies this`queue, this`resync, this`stopClosed, this`log, this`pend, this`unlisted, this`n, this`script
      modifies this`replica, this`shared, this`attempts, this`sent
      ensures Valid() && n.pc == Ended(old(n.pc), ok) && sent == old(sent) + [ev]
      ensures Meanwhile()
      ensures old(attempts) < attempts <= old(attempts) + NOTIFY_MAX_ATTEMPTS
      ensures ok <==> outcomes(attempts - 1).Delivered?
      ensures NoneDelivered(old(attempts), attempts - 1)
      ensures !shared ==> replica == if AllRefused(old(attempts), attempts) then old(replica) else Apply(old(replica), ev)
      ensures ok || attempts == old(attempts) + NOTIFY_MAX_ATTEMPTS || stopClosed
    {
      sent := sent + [ev];
      ghost var reached;
      ok, reached := TryAll(ev);
    }

    // The same while the queue is being emptied: nothing joins it if nobody else runs.
    twostate predicate Drains()
      reads this
    {
      && old(log) <= log && n.hist.taken == old(n.hist.taken) && (old(resync) ==> resync)
      && |script| <= |old(script)| && (old(script) == [] ==> log == old(log))
    }

    method DrainQueue()
      requires Valid() && n.pc.Draining?
      modifies this`queue, this`resync, this`stopClosed, this`log, this`pend, this`unlisted, this`n, this`script
      modifies this`replica, this`shared
      ensures Valid() && n.pc.Drained? && queue == [] && Drains()
    {
      while true
        invariant Valid() && n.pc.Draining? && Drains()
        decreases |script|, |queue|
      {
        var done := DrainOne();
        if done {
          return;
        }
      }
    }

    // One receive from the queue, if there is something in it.
    method DrainOne() returns (done: bool)
      requires Valid() && n.pc.Draining?
      modifies this`queue, this`resync, this`stopClosed, this`log, this`pend, this`unlisted, this`n, this`script
      modifies this`replica, this`shared
      ensures Valid() && Drains() && (if done then n.pc.Drained? && queue == [] else n.pc.Draining?)
      ensures !done ==> |script| < |old(script)| || (|script| == |old(script)| && |queue| < |old(queue)|)
    {
      Interleave();
      done := queue == [];
      Step(Proceed);
      if !done {
        queue := queue[1..];
      }
    }

    // What deliverSnapshot does before it delivers anything.
    method DrainAndRead() returns (snapshot: seq<ResourceChange>)
      requires Valid() && n.pc.Draining?
      modifies this`queue, this`resync, this`stopClosed, this`log, this`pend, this`unlisted, this`n, this`script
      modifies this`replica, this`shared
      ensures Valid() && n.pc == Sending(snapshot, 0) && snapshot == Snapshot(log)
      ensures old(log) <= log && n.hist.taken == old(n.hist.taken) && |script| <= |old(script)|
      ensures old(script) == [] ==> script == [] && queue == [] && log == old(log)
    {
      DrainQueue();
      Interleave();
      snapshot := Snapshot(log);
      Step(Proceed);
    }

    // What is sent is, in order, the snapshot of the log as it was once the queue had been empty, up
    // to and including the first event that is given up.
    method DeliverSnapshot() returns (ok: bool, ghost seen: seq<ResourceChange>)
      requires Valid() && n.pc.Draining?
      modifies this`queue, this`resync, this`stopClosed, this`log, this`pend, this`unlisted, this`n, this`script
      modifies this`replica, this`shared, this`attempts, this`sent
      ensures Valid() && (if ok then n.pc == Sending([], 0) else n.pc.SendFailed?)
      ensures old(log) <= seen <= log && old(sent) <= sent && old(attempts) <= attempts
      ensures sent[|old(sent)|..] <= Snapshot(seen) && (ok ==> sent == old(sent) + Snapshot(seen))
      ensures !ok ==> |sent| > |old(sent)| && old(attempts) < attempts && !outcomes(attempts - 1).Delivered?
      ensures n.hist.taken == old(n.hist.taken) && |script| <= |old(script)|
      ensures old(script) == [] ==> script == [] && queue == [] && log == old(log)
    {
      var snapshot := DrainAndRead();
      seen := log;
      ghost var before := sent;
      for i := 0 to |snapshot|
        invariant Valid() && n.pc == Sending(snapshot[i..], 0)
        invariant sent == before + snapshot[..i] && old(attempts) <= attempts
        invariant seen <= log && n.hist.taken == old(n.hist.taken) && |script| <= |old(script)|
        invariant old(script) == [] ==> script == [] && queue == [] && log == old(log)
      {
        assert snapshot[i..][1..] == snapshot[i + 1..] && snapshot[..i + 1] == snapshot[..i] + [snapshot[i]];
        ok := Deliver(snapshot[i]);
        if !ok {
          return;
        }
      }
      ok := true;
    }

    // What the callers of deliver do when it returns false.
    method ScheduleResync()
      requires Valid() && (n.pc.GaveUp? || n.pc.ReplayFailed?)
      modifies this`queue, this`resync, this`stopClosed, this`log, this`pend, this`unlisted, this`n, this`script
      modifies this`replica, this`shared
      ensures Valid() && Meanwhile() && resync && n.pc == (if old(n.pc).GaveUp? then Checking else Waiting)
    {
      Interleave();
      resync := true;
      Step(Proceed);
    }

    // AddSubscriber after it has unlocked: replay the snapshot, then start run. The events go out in
    // order, up to the first that is given up, which leaves the flag set.
    method ReplayPast(past: seq<ResourceChange>) returns (ok: bool)
      requires Valid() && n.pc == Replaying(past, 0)
      modifies this`queue, this`resync, this`stopClosed, this`log, this`pend, this`unlisted, this`n, this`script
      modifies this`replica, this`shared, this`attempts, this`sent
      ensures Valid() && n.pc.Waiting? && Meanwhile() && (!ok ==> resync)
      ensures old(attempts) <= attempts && (!ok ==> old(attempts) < attempts && !outcomes(attempts - 1).Delivered?)
      ensures old(sent) <= sent && sent[|old(sent)|..] <= past && (ok ==> sent == old(sent) + past)
    {
      for i := 0 to |past|
        invariant Valid() && n.pc == Replaying(past[i..], 0) && Meanwhile() && old(attempts) <= attempts
        invariant sent == old(sent) + past[..i]
      {
        assert past[i..][1..] == past[i + 1..] && past[..i + 1] == past[..i] + [past[i]];
        ok := Deliver(past[i]);
        if !ok {
          ScheduleResync();
          return;
        }
      }
      Step(Proceed);
      ok := true;
    }

    // The queue's case of run's select: the oldest item leaves the queue and is delivered.
    method TakeOne() returns (ok: bool)
      requires Valid() && n.pc.Waiting? && queue != []
      modifies this`queue, this`resync, this`stopClosed, this`log, this`pend, this`unlisted, this`n, this`script
      modifies this`replica, this`shared, this`attempts, this`sent
      ensures Valid() && n.pc.Checking? && n.hist.taken == old(n.hist.taken) + [old(queue)[0].idx]
      ensures sent == old(sent) + [old(queue)[0].change]
      ensures old(attempts) < attempts && ok == outcomes(attempts - 1).Delivered?
      ensures (old(resync) || !ok ==> resync) && old(queue)[1..] <= queue && old(log) <= log
      ensures |script| <= |old(script)| && (old(script) == [] ==> log == old(log))
    {
      var item := queue[0];
      Step(OnQueue);
      queue := queue[1..];
      ok := Deliver(item.change);
      if !ok {
        ScheduleResync();
      }
    }

    // One case of run's select other than stop, when at least one of them is ready.
    method Consume(preferred: Choice) returns (ghost took: Option<Item>, ghost failed: bool)
      requires Valid() && n.pc.Waiting? && (queue != [] || retryArmed)
      modifies this`queue, this`resync, this`stopClosed, this`log, this`pend, this`unlisted, this`n, this`script
      modifies this`replica, this`shared, this`attempts, this`sent
      ensures Valid() && n.pc.Checking? && old(log) <= log && (old(resync) || failed ==> resync)
      ensures Consumed(took, old(queue), old(retryArmed), old(n.hist.taken), old(sent), sent)
      ensures (if took.Some? then old(queue)[1..] else old(queue)) <= queue
      ensures old(attempts) <= attempts && (took.None? ==> attempts == old(attempts))
      ensures took.Some? ==> old(attempts) < attempts && failed == !outcomes(attempts - 1).Delivered?
      ensures |script| <= |old(script)| && (old(script) == [] ==> log == old(log))
    {
      took, failed := None, false;
      if queue != [] && (preferred.OnQueue? || !retryArmed) {
        took := Some(queue[0]);
        var ok := TakeOne();
        failed := !ok;
      } else {
        Step(OnRetry);
      }
    }

    // What one case of the select, other than stop, has taken and sent: the item at the head of the
    // queue that the select found, or nothing if the timer was armed.
    ghost predicate Consumed(
      took: Option<Item>, ready: seq<Item>, armed: bool, taken: seq<nat>, before: seq<ResourceChange>,
      after: seq<ResourceChange>)
      reads this`n
    {
      match took
      case Some(item) =>
        ready != [] && item == ready[0] && n.hist.taken == taken + [item.idx] && after == before + [item.change]
      case None => armed && n.hist.taken == taken && after == before
    }

    // The CompareAndSwap that ends an iteration of run.
    method LookAtFlag() returns (swapped: bool)
      requires Valid() && n.pc.Checking?
      modifies this`resync, this`retryArmed, this`n
      ensures Valid() && !retryArmed && !resync && swapped == old(resync) && n.hist.taken == old(n.hist.taken)
      ensures if swapped then n.pc.Draining? else n.pc.Waiting?
    {
      swapped := resync;
      retryArmed, resync := false, false;
      Step(Proceed);
    }

    // A resync sends the snapshot of a log no older than when the flag was cleared. A delivery that
    // is given up ends it, and sets the flag and the timer.
    method Resync() returns (ghost seen: seq<ResourceChange>)
      requires Valid() && n.pc.Draining? && !retryArmed
      modifies this
      ensures Valid() && n.pc.Waiting? && n.hist.taken == old(n.hist.taken)
      ensures old(log) <= seen <= log && old(attempts) <= attempts
      ensures Resent(old(sent), seen, sent, retryArmed)
      ensures retryArmed ==> resync && old(attempts) < attempts && !outcomes(attempts - 1).Delivered?
      ensures |script| <= |old(script)| && (old(script) == [] ==> queue == [] && seen == log == old(log))
    {
      var ok;
      ok, seen := DeliverSnapshot();
      Interleave();
      if !ok {
        resync, retryArmed := true, true;
      }
      Step(Proceed);
    }

    // The rest of an iteration, after the select: a resync if the flag is set by then.
    method FinishTurn() returns (ghost seen: Option<seq<ResourceChange>>)
      requires Valid() && n.pc.Checking?
      modifies this
      ensures Valid() && n.pc.Waiting? && n.hist.taken == old(n.hist.taken) && old(log) <= log && old(attempts) <= attempts
      ensures old(resync) ==> seen.Some?
      ensures seen.None? ==> sent == old(sent) && !retryArmed && old(queue) <= queue
      ensures seen.Some? ==> old(log) <= seen.value <= log && Resent(old(sent), seen.value, sent, retryArmed)
      ensures retryArmed ==> resync && old(attempts) < attempts && !outcomes(attempts - 1).Delivered?
      ensures seen.Some? && old(script) == [] ==> queue == [] && seen.value == log == old(log)
    {
      Interleave();
      var swapped := LookAtFlag();
      seen := None;
      if swapped {
        ghost var read := Resync();
        seen := Some(read);
      }
    }

    // Blocked in select, until something is ready or nobody is left to make anything ready.
    method Settle()
      requires Valid() && n.pc.Waiting?
      modifies this`queue, this`resync, this`stopClosed, this`log, this`pend, this`unlisted, this`n, this`script
      modifies this`replica, this`shared
      ensures Valid() && n.pc == old(n.pc) && Meanwhile()
      ensures stopClosed || queue != [] || retryArmed || script == []
    {
      Interleave();
      while script != [] && !stopClosed && queue == [] && !retryArmed
        invariant Valid() && n.pc == old(n.pc) && Meanwhile()
        decreases |script|
      {
        Interleave();
      }
    }

    // run's select. It is over, and the loop with it, if stop is taken, or if nothing is ready and
    // nobody is left to make anything ready.
    method Select(preferred: Choice) returns (more: bool, ghost did: Report)
      requires Valid() && n.pc.Waiting?
      modifies this`queue, this`resync, this`stopClosed, this`log, this`pend, this`unlisted, this`n, this`script
      modifies this`replica, this`shared, this`attempts, this`sent
      ensures Valid() && old(log) <= log && old(queue) <= did.ready && did.seen.None?
      ensures old(attempts) <= did.tried == attempts && did.sent == sent
      ensures |script| <= |old(script)| && (old(script) == [] ==> log == old(log))
      ensures more ==> n.pc.Checking? && did.Rest() <= queue && (old(resync) || did.failed ==> resync)
      ensures more ==> Consumed(did.took, did.ready, old(retryArmed), old(n.hist.taken), old(sent), sent)
      ensures more && did.took.Some? ==> old(attempts) < attempts && did.failed == !outcomes(attempts - 1).Delivered?
      ensures !more ==> n.hist.taken == old(n.hist.taken) && sent == old(sent)
      ensures !more ==> if stopClosed then n.pc.Stopped? else n.pc.Waiting? && !WillWake(n) && queue == did.ready == []
    {
      Settle();
      did := Report(queue, None, false, attempts, sent, None);
      if !stopClosed && queue == [] && !retryArmed {
        return false, did;
      }
      if stopClosed && (preferred.OnStop? || (queue == [] && !retryArmed)) {
        Step(OnStop);
        return false, did;
      }
      ghost var took, failed := Consume(preferred);
      did := Report(did.ready, took, failed, attempts, sent, None);
      more := true;
    }

    // One iteration of run's loop, and what it did.
    //
    // A turn that comes back has taken the head of the queue and sent it, or has taken the armed
    // timer; if the flag was set, or the delivery was given up, the snapshot has been sent as well.
    // One that does not come back has taken stop, or found nothing ready and nobody left to make
    // anything ready.
    method Turn(preferred: Choice) returns (again: bool, ghost did: Report)
      requires Valid() && n.pc.Waiting?
      modifies this
      ensures Valid() && old(log) <= log && old(queue) <= did.ready && old(attempts) <= did.tried <= attempts
      ensures again ==> n.pc.Waiting?
      ensures again ==> Consumed(did.took, did.ready, old(retryArmed), old(n.hist.taken), old(sent), did.sent)
      ensures again && did.took.Some? ==> old(attempts) < did.tried && did.failed == !outcomes(did.tried - 1).Delivered?
      ensures again && (old(resync) || did.failed) ==> did.seen.Some?
      ensures again && did.seen.None? ==> sent == did.sent && !retryArmed && did.Rest() <= queue
      ensures again && did.seen.Some? ==>
                old(log) <= did.seen.value <= log && Resent(did.sent, did.seen.value, sent, retryArmed)
      ensures again && retryArmed ==> resync && did.tried < attempts && !outcomes(attempts - 1).Delivered?
      ensures again && did.seen.Some? && old(script) == [] ==> queue == [] && did.seen.value == old(log)
      ensures !again ==> n.hist.taken == old(n.hist.taken) && sent == old(sent)
      ensures !again ==> if stopClosed then n.pc.Stopped? else n.pc.Waiting? && !WillWake(n) && queue == did.ready == []
    {
      again, did := Select(preferred);
      if again {
        ghost var seen := FinishTurn();
        did := did.(seen := seen);
      }
    }

    // The subscriber's whole life, as many turns of the loop as `picks` allows. Every turn that
    // comes back has taken one more item off the queue and sent it, except `retries` of them, which
    // took the timer; there are none of those while every attempt is delivered. Whatever the others
    // do and however the attempts end, as long as nobody else writes to the server: with the flag
    // clear nothing live is missing from what is on its way, and a loop with nothing left to wake it
    // has a subscriber that is up to date.
    method Run(past: seq<ResourceChange>, picks: seq<Choice>)
      returns (blocked: bool, ghost turns: nat, ghost retries: nat)
      requires Valid() && n.pc == Replaying(past, 0) && !retryArmed
      modifies this
      ensures Valid() && (n.pc.Waiting? || n.pc.Stopped?)
      ensures |n.hist.taken| + retries == |old(n.hist.taken)| + turns && turns <= |picks|
      ensures AllDelivered() ==> retries == 0 && old(sent) + past <= sent && |sent| >= |old(sent)| + |past| + turns
      ensures if blocked then n.pc.Waiting? && !WillWake(n) && queue == []
              else n.pc.Stopped? || turns == |picks|
      ensures n.pc.Waiting? && !unlisted && !shared && !resync ==> Agrees(Settled(), Live(log))
      ensures blocked && !unlisted && !shared && !n.hist.replayFailed ==> Agrees(Settled(), Live(log))
      ensures !unlisted && !shared ==> Explained(Settled(), log, n.hist.lost, base, held)
      ensures !unlisted && !shared && !n.hist.disturbed ==>
                (Settled() == Live(log) <==> forall k :: !HeldOver(log, held, base, k))
    {
      var _ := ReplayPast(past);
      blocked, turns, retries := false, 0, 0;
      for i := 0 to |picks|
        invariant Valid() && n.pc.Waiting? && turns == i
        invariant |n.hist.taken| + retries == |old(n.hist.taken)| + turns
        invariant AllDelivered() ==> retries == 0 && !retryArmed
        invariant AllDelivered() ==> old(sent) + past <= sent && |sent| >= |old(sent)| + |past| + turns
      {
        var again, did := Turn(picks[i]);
        if !again {
          blocked := !stopClosed;
          break;
        }
        turns, retries := turns + 1, retries + if did.took.None? then 1 else 0;
      }
      if !unlisted && !shared { AtRest(n, replica, pend, log, base, held); }
    }
  }
}
