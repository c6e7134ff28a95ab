// What every run of the subscription machine keeps.
module SubscriptionSafety {
  import opened LatestState
  import opened Subscriptions

  // ---------- Registry, queues and stop channels: every interleaving ----------

  ghost predicate Distinct(ids: seq<nat>) {
    forall i, j :: 0 <= i < j < |ids| ==> ids[i] != ids[j]
  }

  ghost predicate Known(ids: seq<nat>, n: nat) { forall i :: 0 <= i < |ids| ==> ids[i] < n }

  ghost predicate UrlsDistinct(subs: seq<Sub>, ids: seq<nat>)
    requires Known(ids, |subs|)
  {
    forall i, j :: 0 <= i < j < |ids| ==> subs[ids[i]].url != subs[ids[j]].url
  }

  // Registered URLs are distinct; a stop channel has been closed once if its subscriber has left
  // the list and its remover has finished, and not at all before; queues keep their bound.
  ghost predicate RegistryInv(s: State) {
    && Known(s.notifiers, |s.subs|) && Distinct(s.notifiers)
    && Known(s.removers, |s.subs|) && Distinct(s.removers)
    && UrlsDistinct(s.subs, s.notifiers)
    && (forall id :: id in s.notifiers ==> id !in s.removers)
    && (forall id :: 0 <= id < |s.subs| ==>
          && |s.subs[id].notifier.queue| <= NOTIFY_QUEUE_DEPTH
          && s.subs[id].closed == (if id in s.notifiers || id in s.removers then 0 else 1)
          && (s.subs[id].notifier.pc.Stopped? ==> s.subs[id].closed == 1))
  }

  lemma SpliceIds(ids: seq<nat>, p: nat)
    requires Distinct(ids) && p < |ids|
    ensures Distinct(ids[..p] + ids[p + 1..])
    ensures forall id :: id in ids[..p] + ids[p + 1..] <==> id in ids && id != ids[p]
  {
    var out := ids[..p] + ids[p + 1..];
    forall id ensures id in out <==> id in ids && id != ids[p] {
      if id in ids && id != ids[p] {
        var q :| 0 <= q < |ids| && ids[q] == id;
        assert out[if q < p then q else q - 1] == id;
      }
    }
  }

  lemma FailFrame(n: Notifier)
    requires Busy(n.pc)
    ensures Fail(n).queue == n.queue && Fail(n).hist.taken == n.hist.taken && !Fail(n).pc.Stopped?
  {
  }

  lemma AttemptFrame(n: Notifier, outcome: Outcome)
    requires Busy(n.pc)
    ensures Tried(n, outcome).queue == n.queue == Fail(n).queue
    ensures !Tried(n, outcome).pc.Stopped? && !Fail(n).pc.Stopped?
    ensures Tried(n, outcome).hist.taken == n.hist.taken == Fail(n).hist.taken
  {
    FailFrame(n);
  }

  lemma QueueNeverGrows(n: Notifier, stopped: bool, log: seq<ResourceChange>, choice: Choice)
    requires SubEnabled(n, stopped, choice)
    ensures |SubNext(n, log, choice).queue| <= |n.queue|
    ensures SubNext(n, log, choice).pc.Stopped? ==> stopped
  {
    if Busy(n.pc) { AttemptFrame(n, if choice.Attempt? then choice.outcome else Refused); }
  }

  lemma RegistryStep(s: State, a: Action)
    requires RegistryInv(s) && Enabled(s, a)
    ensures RegistryInv(Next(s, a))
  {
    match a
    case Receive(_) =>
    case Return(_) =>
    case Enqueue(j) => assert |Offer(s.subs[s.jobs[j].todo[0]].notifier, s.jobs[j].item).queue| <= NOTIFY_QUEUE_DEPTH;
    case AddSubscriber(url) => AddKeepsRegistry(s, url);
    case RemoveSubscriber(url) => RemoveKeepsRegistry(s, url);
    case CloseStop(r) => CloseKeepsRegistry(s, r);
    case Deliver(id, choice) => QueueNeverGrows(s.subs[id].notifier, s.subs[id].closed > 0, s.log, choice);
  }

  lemma AddKeepsRegistry(s: State, url: string)
    requires RegistryInv(s) && Enabled(s, AddSubscriber(url))
    ensures RegistryInv(Next(s, AddSubscriber(url)))
  {
    var s' := Next(s, AddSubscriber(url));
    forall i | 0 <= i < |s.notifiers| ensures s.subs[s.notifiers[i]].url != url {}
    forall id ensures id in s'.notifiers <==> id in s.notifiers || id == |s.subs| {}
    assert |s.subs| !in s.removers;
  }

  lemma SpliceUrls(subs: seq<Sub>, ids: seq<nat>, p: nat)
    requires Known(ids, |subs|) && UrlsDistinct(subs, ids) && p < |ids|
    ensures Known(ids[..p] + ids[p + 1..], |subs|) && UrlsDistinct(subs, ids[..p] + ids[p + 1..])
  {
    var out := ids[..p] + ids[p + 1..];
    forall i | 0 <= i < |out| ensures out[i] == ids[if i < p then i else i + 1] {}
  }

  lemma Unlist(s: State, p: nat)
    requires RegistryInv(s) && p < |s.notifiers|
    ensures RegistryInv(s.(notifiers := s.notifiers[..p] + s.notifiers[p + 1..], removers := s.removers + [s.notifiers[p]]))
  {
    MoveId(s.notifiers, s.removers, p);
    SpliceUrls(s.subs, s.notifiers, p);
  }

  lemma RemoveKeepsRegistry(s: State, url: string)
    requires RegistryInv(s) && Enabled(s, RemoveSubscriber(url))
    ensures RegistryInv(Next(s, RemoveSubscriber(url)))
  {
    Unlist(s, Position(s, url));
  }

  lemma MoveId(from: seq<nat>, to: seq<nat>, p: nat)
    requires Distinct(from) && Distinct(to) && p < |from| && forall id :: id in from ==> id !in to
    ensures var from', to' := from[..p] + from[p + 1..], to + [from[p]];
            && Distinct(from') && Distinct(to')
            && (forall id :: id in from' ==> id !in to')
            && (forall id :: id in from || id in to <==> id in from' || id in to')
  {
    SpliceIds(from, p);
    assert from[p] in from;
    forall i | 0 <= i < |to| ensures to[i] != from[p] { assert to[i] in to; }
  }

  lemma CloseKeepsRegistry(s: State, r: nat)
    requires RegistryInv(s) && Enabled(s, CloseStop(r))
    ensures RegistryInv(Next(s, CloseStop(r)))
  {
    SpliceIds(s.removers, r);
    assert s.removers[r] in s.removers;
  }

  lemma {:induction false} RegistrySafety(s: State, actions: seq<Action>)
    requires RegistryInv(s) && Runnable(s, actions)
    ensures RegistryInv(Run(s, actions))
    decreases |actions|
  {
    if actions == [] {
    } else {
      RegistryStep(s, actions[0]);
      RegistrySafety(Next(s, actions[0]), actions[1..]);
    }
  }

  // The stop channel a remover is about to close is still open, and its notifier has left the list.
  lemma ClosesOnce(actions: seq<Action>, r: nat)
    requires Runnable(INIT, actions) && Enabled(Run(INIT, actions), CloseStop(r))
    ensures var s := Run(INIT, actions);
            s.removers[r] !in s.notifiers && s.subs[s.removers[r]].closed == 0
  {
    RegistrySafety(INIT, actions);
    var s := Run(INIT, actions);
    assert s.removers[r] in s.removers;
  }

  // Overflow, delivery, draining and resync at one subscriber leave every other one as it was.
  lemma OthersUnaffected(s: State, a: Action, id: nat)
    requires Enabled(s, a) && id < |s.subs|
    requires a.Enqueue? ==> id != s.jobs[a.job].todo[0]
    requires a.Deliver? ==> id != a.sub
    requires !a.CloseStop?
    ensures Next(s, a).subs[id] == s.subs[id]
  {
  }
}
