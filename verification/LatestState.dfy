// internal/events/latest_state.go: one event per live resource, oldest incarnation first.
module LatestState {
  import opened Wrappers
  import opened Events
  import opened Fold

  type ResourceChange = Change<ResourceKey, Payload>

  // What an event does to a party that replays it: only Delete removes.
  function ChangeOf(ev: Event): ResourceChange {
    if ev.op == DeleteOperation then Del(ev.Key()) else Put(ev.Key(), ev.objects)
  }

  function Changes(evs: seq<Event>): (cs: seq<ResourceChange>)
  {
    seq(|evs|, i requires 0 <= i < |evs| => ChangeOf(evs[i]))
  }

  function Without(ks: seq<ResourceKey>, k: ResourceKey): seq<ResourceKey> {
    if ks == [] then []
    else if ks[0] == k then ks[1..]
    else [ks[0]] + Without(ks[1..], k)
  }

  // The order in which the store lists the live keys after a log of changes.
  function Order(log: seq<ResourceChange>): seq<ResourceKey> {
    if log == [] then []
    else
      var init, last := log[..|log| - 1], log[|log| - 1];
      match last
      case Put(k, _) => if k in Live(init) then Order(init) else Order(init) + [k]
      case Del(k) => if k in Live(init) then Without(Order(init), k) else Order(init)
  }

  ghost predicate NoDuplicates(ks: seq<ResourceKey>) {
    forall i, j :: 0 <= i < j < |ks| ==> ks[i] != ks[j]
  }

  // Where the current incarnation of a live key began: the first Put of k after which no Del of
  // k occurs, with no Put of k between the preceding Del (if any) and it.
  ghost predicate BornAt(log: seq<ResourceChange>, k: ResourceKey, b: int) {
    && 0 <= b < |log|
    && log[b].Put? && log[b].key == k
    && (forall j :: b < j < |log| ==> log[j] != Del(k))
    && (forall j :: 0 <= j < b && log[j].key == k && log[j].Put? ==>
          exists d :: j < d < b && log[d] == Del(k))
  }

  lemma BornAtUnique(log: seq<ResourceChange>, k: ResourceKey, b: int, c: int)
    requires BornAt(log, k, b) && BornAt(log, k, c)
    ensures b == c
  {
  }

  function Birth(log: seq<ResourceChange>, k: ResourceKey): (b: nat)
    requires k in Live(log)
    ensures b < |log|
  {
    var init := log[..|log| - 1];
    if log[|log| - 1].key == k && k !in Live(init) then |log| - 1 else Birth(init, k)
  }

  lemma {:induction false} BirthIsBornAt(log: seq<ResourceChange>, k: ResourceKey)
    requires k in Live(log)
    ensures BornAt(log, k, Birth(log, k))
  {
    var init := log[..|log| - 1];
    if log[|log| - 1].key == k && k !in Live(init) {
      forall j | 0 <= j < |init| && init[j].key == k && init[j].Put?
        ensures exists d :: j < d < |init| && log[d] == Del(k)
      {
        DeadAfterDel(init, k, j);
        var d :| j < d < |init| && init[d] == Del(k);
        assert log[d] == Del(k);
      }
    } else {
      BirthIsBornAt(init, k);
      var b := Birth(init, k);
      forall j | 0 <= j < b && log[j].key == k && log[j].Put?
        ensures exists d :: j < d < b && log[d] == Del(k)
      {
        assert init[j].key == k;
        var d :| j < d < b && init[d] == Del(k);
        assert log[d] == Del(k);
      }
    }
  }

  // A key that was put and is not live was deleted since.
  lemma {:induction false} DeadAfterDel(log: seq<ResourceChange>, k: ResourceKey, j: nat)
    requires k !in Live(log) && j < |log| && log[j].Put? && log[j].key == k
    ensures exists d :: j < d < |log| && log[d] == Del(k)
  {
    var init, last := log[..|log| - 1], log[|log| - 1];
    if last == Del(k) {
      assert log[|log| - 1] == Del(k);
    } else {
      DeadAfterDel(init, k, j);
      var d :| j < d < |init| && init[d] == Del(k);
      assert log[d] == Del(k);
    }
  }

  lemma {:induction false} WithoutSplits(ks: seq<ResourceKey>, k: ResourceKey) returns (p: nat)
    requires k in ks
    ensures p < |ks| && ks[p] == k && k !in ks[..p]
    ensures Without(ks, k) == ks[..p] + ks[p + 1..]
  {
    if ks[0] == k {
      p := 0;
    } else {
      p := WithoutSplits(ks[1..], k);
      p := p + 1;
      assert ks[..p] == [ks[0]] + ks[1..][..p - 1];
      assert ks[1..][p..] == ks[p + 1..];
    }
  }

  // The list holds exactly the live keys, once each, sorted by the start of their incarnation.
  ghost predicate Lists(log: seq<ResourceChange>, ks: seq<ResourceKey>) {
    && NoDuplicates(ks)
    && (forall k :: k in ks <==> k in Live(log))
    && (forall i, j :: 0 <= i < j < |ks| && ks[i] in Live(log) && ks[j] in Live(log) ==>
          Birth(log, ks[i]) < Birth(log, ks[j]))
  }

  // So updates keep a key's place, deletions keep the order of the others, and re-creation
  // moves a key to the end.
  lemma {:induction false} OrderSorted(log: seq<ResourceChange>)
    ensures Lists(log, Order(log))
  {
    if log == [] {
    } else {
      var init, last := log[..|log| - 1], log[|log| - 1];
      assert log == init + [last];
      OrderSorted(init);
      ReplayAppend(map[], init, last);
      if (last.key in Live(init)) == last.Put? {
        SameKeysKeepOrder(init, last);
      } else if last.Put? {
        NewKeyGoesLast(init, last);
      } else {
        var p := WithoutSplits(Order(init), last.key);
        RemovalKeepsOrder(init, p);
      }
    }
  }

  lemma SameKeysKeepOrder(init: seq<ResourceChange>, c: ResourceChange)
    requires Lists(init, Order(init)) && ((c.key in Live(init)) == c.Put?)
    ensures Lists(init + [c], Order(init))
  {
    ReplayAppend(map[], init, c);
    forall k | k in Live(init) ensures k in Live(init + [c]) && Birth(init + [c], k) == Birth(init, k) {
      assert (init + [c])[..|init|] == init;
    }
  }

  lemma NewKeyGoesLast(init: seq<ResourceChange>, c: ResourceChange)
    requires Lists(init, Order(init)) && c.key !in Live(init) && c.Put?
    ensures Lists(init + [c], Order(init) + [c.key])
  {
    ReplayAppend(map[], init, c);
    assert (init + [c])[..|init|] == init;
    forall k | k in Live(init) ensures k in Live(init + [c]) && Birth(init + [c], k) == Birth(init, k) {}
    assert Birth(init + [c], c.key) == |init|;
  }

  lemma RemovalKeepsOrder(init: seq<ResourceChange>, p: nat)
    requires Lists(init, Order(init)) && p < |Order(init)|
    ensures Lists(init + [Del(Order(init)[p])], Order(init)[..p] + Order(init)[p + 1..])
  {
    RemovalKeepsBirths(init, Order(init)[p]);
    var ks := Order(init);
    SpliceKeys(ks, p);
    ListsWithout(init, init + [Del(ks[p])], ks, ks[..p] + ks[p + 1..], p);
  }

  lemma ListsWithout(
    init: seq<ResourceChange>, log: seq<ResourceChange>, ks: seq<ResourceKey>, out: seq<ResourceKey>, p: nat)
    requires Lists(init, ks) && p < |ks| && Live(log) == Live(init) - {ks[p]}
    requires Spliced(ks, out, p) && NoDuplicates(out) && forall k :: k in out <==> k in ks && k != ks[p]
    requires forall k :: k in Live(log) ==> Birth(log, k) == Birth(init, k)
    ensures Lists(log, out)
  {
    forall i, j | 0 <= i < j < |out| && out[i] in Live(log) && out[j] in Live(log)
      ensures Birth(log, out[i]) < Birth(log, out[j])
    {
      StillBefore(init, log, ks, out, p, i, j);
    }
  }

  // out is ks without its p-th entry.
  ghost predicate Spliced(ks: seq<ResourceKey>, out: seq<ResourceKey>, p: nat) {
    |out| == |ks| - 1 && forall i :: 0 <= i < |out| ==> out[i] == ks[if i < p then i else i + 1]
  }

  lemma StillBefore(
    init: seq<ResourceChange>, log: seq<ResourceChange>, ks: seq<ResourceKey>, out: seq<ResourceKey>, p: nat, i: nat, j: nat)
    requires Lists(init, ks) && Spliced(ks, out, p) && i < j < |out| && out[i] in Live(log) && out[j] in Live(log)
    requires forall k :: k in Live(log) ==> k in Live(init) && Birth(log, k) == Birth(init, k)
    ensures Birth(log, out[i]) < Birth(log, out[j])
  {
    var a, b := if i < p then i else i + 1, if j < p then j else j + 1;
    assert out[i] == ks[a] && out[j] == ks[b];
  }

  lemma RemovalKeepsBirths(init: seq<ResourceChange>, gone: ResourceKey)
    ensures var log := init + [Del(gone)];
            && Live(log) == Live(init) - {gone}
            && forall k :: k in Live(log) ==> Birth(log, k) == Birth(init, k)
  {
    var log := init + [Del(gone)];
    ReplayAppend(map[], init, Del(gone));
    assert log[..|init|] == init;
  }

  lemma SpliceKeys(ks: seq<ResourceKey>, p: nat)
    requires NoDuplicates(ks) && p < |ks|
    ensures NoDuplicates(ks[..p] + ks[p + 1..]) && Spliced(ks, ks[..p] + ks[p + 1..], p)
    ensures forall k :: k in ks[..p] + ks[p + 1..] <==> k in ks && k != ks[p]
  {
    var out := ks[..p] + ks[p + 1..];
    forall k ensures k in out <==> k in ks && k != ks[p] {
      if k in ks && k != ks[p] {
        var q :| 0 <= q < |ks| && ks[q] == k;
        assert out[if q < p then q else q - 1] == k;
      }
    }
  }

  // The snapshot the store hands out: a Create for every live key, in that order.
  function Snapshot(log: seq<ResourceChange>): (cs: seq<ResourceChange>)
    ensures |cs| == |Order(log)|
  {
    OrderSorted(log);
    var ks := Order(log);
    seq(|ks|, i requires 0 <= i < |ks| => Put(ks[i], Live(log)[ks[i]]))
  }

  // Replaying it puts every live key at its latest value and touches nothing else.
  lemma SnapshotEffect(log: seq<ResourceChange>, k: ResourceKey)
    ensures Effect(Snapshot(log), k) == if k in Live(log) then Has(Live(log)[k]) else Untouched
  {
    OrderSorted(log);
    EffectTouched(Snapshot(log), k);
    EffectIsSome(Snapshot(log), k);
    if k in Live(log) {
      var i :| 0 <= i < |Order(log)| && Order(log)[i] == k;
      assert Snapshot(log)[i].key == k;
    }
  }

  // The same snapshot as events: every resource is reported as created.
  function AsCreates(cs: seq<ResourceChange>): (evs: seq<Event>)
    ensures |evs| == |cs|
    ensures forall i :: 0 <= i < |cs| ==>
      evs[i].op == CreateOperation && evs[i].Key() == cs[i].key && (cs[i].Put? ==> ChangeOf(evs[i]) == cs[i])
  {
    seq(|cs|, i requires 0 <= i < |cs| =>
      var objects := if cs[i].Put? then cs[i].value else [];
      Event(cs[i].key.resType, CreateOperation, cs[i].key.id, objects))
  }

  lemma StoreStep(log: seq<Event>, ev: Event)
    ensures Live(Changes(log + [ev])) == Apply(Live(Changes(log)), ChangeOf(ev))
    ensures Order(Changes(log + [ev])) ==
      if ev.op == DeleteOperation then
        if ev.Key() in Live(Changes(log)) then Without(Order(Changes(log)), ev.Key()) else Order(Changes(log))
      else
        if ev.Key() in Live(Changes(log)) then Order(Changes(log)) else Order(Changes(log)) + [ev.Key()]
  {
    assert Changes(log + [ev]) == Changes(log) + [ChangeOf(ev)];
    assert Changes(log + [ev])[..|log|] == Changes(log);
  }

  // The store's fields are those of the fold of the log.
  ghost predicate Represents(order: seq<ResourceKey>, state: map<ResourceKey, Event>, log: seq<Event>) {
    && order == Order(Changes(log))
    && state.Keys == Live(Changes(log)).Keys
    && forall k :: k in state ==>
         && state[k].Key() == k
         && state[k].objects == Live(Changes(log))[k]
  }

  // The resource k appeared, in its current incarnation, before the resource l did.
  ghost predicate BornBefore(log: seq<ResourceChange>, k: ResourceKey, l: ResourceKey) {
    k != l && exists b, c :: BornAt(log, k, b) && BornAt(log, l, c) && b < c
  }

  // One Create for every live resource, with its latest payload, oldest incarnation first.
  ghost predicate OldestFirst(log: seq<ResourceChange>, evs: seq<Event>) {
    && (forall i :: 0 <= i < |evs| ==> evs[i].op == CreateOperation && At(Live(log), evs[i].Key()) == Some(evs[i].objects))
    && (forall k :: k in Live(log) ==> exists i :: 0 <= i < |evs| && evs[i].Key() == k)
    && (forall i, j :: 0 <= i < j < |evs| ==> BornBefore(log, evs[i].Key(), evs[j].Key()))
  }

  lemma SnapshotOldestFirst(log: seq<ResourceChange>)
    ensures OldestFirst(log, AsCreates(Snapshot(log)))
  {
    var ks, evs := Order(log), AsCreates(Snapshot(log));
    OrderSorted(log);
    forall i, j | 0 <= i < j < |evs| ensures BornBefore(log, evs[i].Key(), evs[j].Key()) {
      assert ks[i] in ks && ks[j] in ks;
      BirthIsBornAt(log, ks[i]);
      BirthIsBornAt(log, ks[j]);
    }
    forall i | 0 <= i < |evs| ensures At(Live(log), evs[i].Key()) == Some(evs[i].objects) { assert ks[i] in ks; }
    forall k | k in Live(log) ensures exists i :: 0 <= i < |evs| && evs[i].Key() == k {
      var i :| 0 <= i < |ks| && ks[i] == k;
      assert evs[i].Key() == k;
    }
  }

  class LatestStateStore {
    var order: seq<ResourceKey>
    var state: map<ResourceKey, Event>
    // Every event received since construction.
    ghost var log: seq<Event>

    ghost predicate Valid()
      reads this
    {
      Represents(order, state, log)
    }

    constructor ()
      ensures Valid() && log == []
    {
      order, state, log := [], map[], [];
    }

    method Receive(resType: ResourceType, op: Operation, resourceId: Uuid, objects: Payload)
      requires Valid()
      modifies this
      ensures Valid()
      ensures log == old(log) + [Event(resType, op, resourceId, objects)]
    {
      var key := ResourceKey(resType, resourceId);
      ghost var before := Changes(log);
      StoreStep(log, Event(resType, op, resourceId, objects));
      log := log + [Event(resType, op, resourceId, objects)];
      if op == DeleteOperation {
        if key in state {
          state := state - {key};
          OrderSorted(before);
          RemoveFromOrder(key);
        }
        return;
      }
      if key !in state {
        order := order + [key];
      }
      state := state[key := Event(resType, op, resourceId, objects)];
    }

    method RemoveFromOrder(key: ResourceKey)
      modifies this`order
      ensures order == Without(old(order), key)
    {
      for i := 0 to |order|
        invariant order == old(order)
        invariant Without(order, key) == order[..i] + Without(order[i..], key)
      {
        if order[i] == key {
          assert order[i..][1..] == order[i + 1..];
          order := order[..i] + order[i + 1..];
          return;
        }
        assert order[i..][1..] == order[i + 1..];
        assert order[..i] + [order[i]] == order[..i + 1];
        assert order[..i] + ([order[i]] + Without(order[i + 1..], key)) == order[..i + 1] + Without(order[i + 1..], key);
      }
    }

    method GetEvents() returns (out: seq<Event>)
      requires Valid()
      ensures out == AsCreates(Snapshot(Changes(log))) && OldestFirst(Changes(log), out)
    {
      out := [];
      OrderSorted(Changes(log));
      for i := 0 to |order|
        invariant |out| == i
        invariant forall j :: 0 <= j < i ==>
          out[j] == Event(order[j].resType, CreateOperation, order[j].id, Live(Changes(log))[order[j]])
      {
        var ev := state[order[i]];
        out := out + [ev.(op := CreateOperation)];
      }
      assert out == AsCreates(Snapshot(Changes(log)));
      SnapshotOldestFirst(Changes(log));
    }
  }
}
