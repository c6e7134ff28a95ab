// What a reader of QueryEvents can rely on: rebuilding the state, catching up, paging, tailing.
module Queries {
  import opened Wrappers
  import opened Events
  import opened HistoryRings
  import opened Fold
  import opened LatestState
  import opened History

  // ---------- The view: synthetic prefix, boundary, tail ----------

  ghost predicate Ascending(evs: seq<StoredEvent>) {
    forall i, j :: 0 <= i < j < |evs| ==> evs[i].sequenceId < evs[j].sequenceId
  }

  // All that paging needs to know of a view: tail ids ascend and lie beyond the boundary.
  ghost predicate WellFormed(v: View) {
    Ascending(v.tail) && forall i :: 0 <= i < |v.tail| ==> v.tail[i].sequenceId > v.compactionSeq
  }

  // Evicted events followed by the tail are the whole log; tail ids ascend and lie in
  // (boundary, current sequence number], evicted ids do not exceed the boundary.
  ghost predicate SplitAt(s: seq<StoredEvent>, e: nat, tail: seq<StoredEvent>, boundary: nat, current: nat) {
    && e <= |s| && s == s[..e] + tail
    && Ascending(tail)
    && (forall i :: 0 <= i < |tail| ==> boundary < tail[i].sequenceId <= current)
    && (forall i :: 0 <= i < e ==> s[i].sequenceId <= boundary)
    && (boundary == 0 <==> e == 0)
    && boundary <= current
  }

  lemma TailIsSuffix(log: seq<Record>, limit: nat, current: nat)
    requires Numbered(log, current)
    ensures var v := ViewOf(log, limit);
            SplitAt(StoredLog(log), Evicted(|log|, limit), v.tail, v.compactionSeq, current)
    ensures WellFormed(ViewOf(log, limit))
  {
    var s := StoredLog(log);
    forall i, j | 0 <= i < j < |s| ensures s[i].sequenceId < s[j].sequenceId {
      assert log[i].sequenceId < log[j].sequenceId;
    }
    RingSplits(s, limit, current);
  }

  lemma RingSplits(s: seq<StoredEvent>, limit: nat, current: nat)
    requires Ascending(s) && forall i :: 0 <= i < |s| ==> 0 < s[i].sequenceId <= current
    ensures SplitAt(s, Evicted(|s|, limit), Tail(s, limit), Boundary(s, limit).0, current)
  {
    var e, tail := Evicted(|s|, limit), Tail(s, limit);
    assert s == s[..e] + tail;
    forall i, j | 0 <= i < j < |tail| ensures tail[i].sequenceId < tail[j].sequenceId {
      assert tail[i] == s[e + i] && tail[j] == s[e + j];
    }
    forall i | 0 <= i < |tail| ensures Boundary(s, limit).0 < tail[i].sequenceId <= current {
      assert tail[i] == s[e + i];
    }
  }

  // What the tail names is as replaying the tail leaves it; anything else is as the evicted events
  // left it.
  lemma TailDecides(s: seq<StoredEvent>, limit: nat, w: WireKey)
    ensures var e, tail := Evicted(|s|, limit), Tail(s, limit);
            At(Received(map[], s), w) ==
              if w in KeysOf(tail) then At(Received(map[], tail), w) else At(Received(map[], s[..e]), w)
  {
    var e, tail := Evicted(|s|, limit), Tail(s, limit);
    assert s == s[..e] + tail;
    ReceivedAt(map[], s[..e], tail, w);
    ReplayAt(map[], WireChanges(tail), w);
    KeysAreTouched(tail, w);
  }

  // The last event of a resource decides whether and how it is in the latest-state store.
  lemma {:induction false} LastEventDecides(log: seq<Record>, i: nat)
    requires i < |log| && forall j :: i < j < |log| ==> log[j].ev.Key() != log[i].ev.Key()
    ensures At(Live(Changes(EventsOf(log))), log[i].ev.Key()) ==
              if log[i].ev.op == DeleteOperation then None else Some(log[i].ev.objects)
  {
    var init := log[..|log| - 1];
    assert Changes(EventsOf(log))[..|log| - 1] == Changes(EventsOf(init));
    if i == |log| - 1 {
    } else {
      LastEventDecides(init, i);
    }
  }

  // The last tail event of a resource decides its presence and payload in the latest-state store; a
  // resource with no event in the tail is there as the evicted events left it.
  lemma LastTailEventDecides(log: seq<Record>, limit: nat, k: ResourceKey)
    requires Declared(log) && k.resType.Declared()
    ensures var e, tail, live := Evicted(|log|, limit), Tail(StoredLog(log), limit), Live(Changes(EventsOf(log)));
            && (forall j :: 0 <= j < |tail| && IsLastOf(tail, j, OnWire(k)) ==>
                  At(live, k) == if tail[j].operation == "Delete" then None else Some(tail[j].objects))
            && (OnWire(k) !in KeysOf(tail) ==> At(live, k) == At(Live(Changes(EventsOf(log[..e]))), k))
  {
    var tail := Tail(StoredLog(log), limit);
    forall j | 0 <= j < |tail| && IsLastOf(tail, j, OnWire(k))
      ensures At(Live(Changes(EventsOf(log))), k) == if tail[j].operation == "Delete" then None else Some(tail[j].objects)
    {
      RetainedDecides(log, Evicted(|log|, limit), j, k);
    }
    if OnWire(k) !in KeysOf(tail) { EvictedDecide(log, limit, k); }
  }

  lemma RetainedDecides(log: seq<Record>, e: nat, j: nat, k: ResourceKey)
    requires Declared(log) && k.resType.Declared() && e + j < |log| && IsLastOf(StoredLog(log)[e..], j, OnWire(k))
    ensures At(Live(Changes(EventsOf(log))), k) ==
              if log[e + j].ev.op == DeleteOperation then None else Some(log[e + j].ev.objects)
  {
    var tail := StoredLog(log)[e..];
    forall i | e + j <= i < |log| ensures i == e + j <==> log[i].ev.Key() == k {
      assert tail[i - e] == Stored(log[i]);
      WireKindInjective(log[i].ev.resType, k.resType);
    }
    LastEventDecides(log, e + j);
  }

  lemma EvictedDecide(log: seq<Record>, limit: nat, k: ResourceKey)
    requires Declared(log) && k.resType.Declared() && OnWire(k) !in KeysOf(Tail(StoredLog(log), limit))
    ensures At(Live(Changes(EventsOf(log))), k) == At(Live(Changes(EventsOf(log[..Evicted(|log|, limit)]))), k)
  {
    var e := Evicted(|log|, limit);
    assert StoredLog(log)[..e] == StoredLog(log[..e]);
    TailDecides(StoredLog(log), limit, OnWire(k));
    WireStateIsLatestState(log);
    WireStateIsLatestState(log[..e]);
  }

  predicate IsLastOf(evs: seq<StoredEvent>, j: nat, w: WireKey)
    requires j < |evs|
  {
    KeyOf(evs[j]) == w && forall i :: j < i < |evs| ==> KeyOf(evs[i]) != w
  }

  // Receiving a then b: b decides the keys it names.
  lemma ReceivedAt(m: map<WireKey, Payload>, a: seq<StoredEvent>, b: seq<StoredEvent>, w: WireKey)
    ensures At(Received(m, a + b), w) ==
      Override(Effect(WireChanges(b), w), Override(Effect(WireChanges(a), w), At(m, w)))
    ensures At(Received(m, a), w) == Override(Effect(WireChanges(a), w), At(m, w))
  {
    ReceivedConcat(m, a, b);
    ReplayAt(Received(m, a), WireChanges(b), w);
    ReplayAt(m, WireChanges(a), w);
  }

  lemma KeysAreTouched(evs: seq<StoredEvent>, w: WireKey)
    ensures w in KeysOf(evs) <==> !Effect(WireChanges(evs), w).Untouched?
  {
    EffectTouched(WireChanges(evs), w);
    if w in KeysOf(evs) {
      var i :| 0 <= i < |evs| && KeyOf(evs[i]) == w;
      assert WireChanges(evs)[i].key == w;
    }
  }

  lemma {:induction false} UnretainedMembers(v: View, live: seq<Event>)
    ensures forall s :: s in Unretained(v, live) ==>
      exists ev :: ev in live && OnWire(ev.Key()) !in KeysOf(v.tail) && s == Synthesized(v, ev)
    ensures forall ev :: ev in live && OnWire(ev.Key()) !in KeysOf(v.tail) ==> Synthesized(v, ev) in Unretained(v, live)
  {
    if live == [] {
    } else {
      UnretainedMembers(v, live[1..]);
      forall s | s in Unretained(v, live)
        ensures exists ev :: ev in live && OnWire(ev.Key()) !in KeysOf(v.tail) && s == Synthesized(v, ev)
      {
        if s in Unretained(v, live[1..]) {
          var ev :| ev in live[1..] && OnWire(ev.Key()) !in KeysOf(v.tail) && s == Synthesized(v, ev);
          assert ev in live;
        } else {
          assert live[0] in live;
        }
      }
    }
  }

  // The store's snapshot: one event per live resource, carrying its latest payload.
  lemma SnapshotMembers(cs: seq<ResourceChange>)
    ensures forall ev :: ev in AsCreates(Snapshot(cs)) ==> At(Live(cs), ev.Key()) == Some(ev.objects)
    ensures forall k :: k in Live(cs) ==> exists ev :: ev in AsCreates(Snapshot(cs)) && ev.Key() == k
  {
    var live := AsCreates(Snapshot(cs));
    OrderSorted(cs);
    forall i | 0 <= i < |live| ensures At(Live(cs), live[i].Key()) == Some(live[i].objects) {
      assert Order(cs)[i] in Order(cs);
    }
    forall k | k in Live(cs) ensures exists ev :: ev in live && ev.Key() == k {
      var i :| 0 <= i < |Order(cs)| && Order(cs)[i] == k;
      assert live[i] in live && live[i].Key() == k;
    }
  }

  // The synthetic prefix holds one Create for exactly the live resources the tail does not name.
  lemma PrefixMembers(log: seq<Record>, limit: nat)
    requires Declared(log)
    ensures var v := ViewOf(log, limit); var prefix := Unretained(v, v.live);
            && (forall s :: s in prefix ==>
                  s.operation == "Create" && KeyOf(s) !in KeysOf(v.tail) && At(WireState(log), KeyOf(s)) == Some(s.objects))
            && (forall w :: w in WireState(log) && w !in KeysOf(v.tail) ==> exists s :: s in prefix && KeyOf(s) == w)
  {
    var v, cs := ViewOf(log, limit), Changes(EventsOf(log));
    var prefix := Unretained(v, v.live);
    UnretainedMembers(v, v.live);
    SnapshotMembers(cs);
    WireStateIsLatestState(log);
    forall s | s in prefix
      ensures s.operation == "Create" && KeyOf(s) !in KeysOf(v.tail) && At(WireState(log), KeyOf(s)) == Some(s.objects)
    {
      var ev :| ev in v.live && OnWire(ev.Key()) !in KeysOf(v.tail) && s == Synthesized(v, ev);
      LiveKeyDeclared(log, ev.Key());
      assert At(WireState(log), OnWire(ev.Key())) == At(Live(cs), ev.Key());
    }
    forall w | w in WireState(log) && w !in KeysOf(v.tail) ensures exists s :: s in prefix && KeyOf(s) == w {
      var k: ResourceKey :| k in Live(cs) && OnWire(k) == w;
      var ev :| ev in v.live && ev.Key() == k;
      assert KeyOf(Synthesized(v, ev)) == w;
    }
  }

  ghost predicate WireBornBefore(log: seq<ResourceChange>, a: WireKey, b: WireKey) {
    exists k, l :: OnWire(k) == a && OnWire(l) == b && BornBefore(log, k, l)
  }

  ghost predicate ByAge(log: seq<ResourceChange>, evs: seq<StoredEvent>) {
    forall i, j :: 0 <= i < j < |evs| ==> WireBornBefore(log, KeyOf(evs[i]), KeyOf(evs[j]))
  }

  // The synthetic prefix lists its resources by the age of their current incarnation.
  lemma PrefixOldestFirst(log: seq<Record>, limit: nat)
    ensures var v := ViewOf(log, limit); ByAge(Changes(EventsOf(log)), Unretained(v, v.live))
  {
    var v, cs := ViewOf(log, limit), Changes(EventsOf(log));
    SnapshotOldestFirst(cs);
    UnretainedByAge(v, v.live, cs);
  }

  lemma {:induction false} UnretainedByAge(v: View, live: seq<Event>, cs: seq<ResourceChange>)
    requires forall i, j :: 0 <= i < j < |live| ==> BornBefore(cs, live[i].Key(), live[j].Key())
    ensures ByAge(cs, Unretained(v, live))
  {
    if live == [] {
    } else {
      var rest := Unretained(v, live[1..]);
      UnretainedByAge(v, live[1..], cs);
      if OnWire(live[0].Key()) in KeysOf(v.tail) {
        assert Unretained(v, live) == [] + rest == rest;
      } else {
        forall j | 0 <= j < |rest| ensures WireBornBefore(cs, OnWire(live[0].Key()), KeyOf(rest[j])) {
          OldestOfAll(v, live, cs, rest[j]);
        }
        OneMoreByAge(cs, Synthesized(v, live[0]), rest);
      }
    }
  }

  lemma OldestOfAll(v: View, live: seq<Event>, cs: seq<ResourceChange>, s: StoredEvent)
    requires live != [] && forall i, j :: 0 <= i < j < |live| ==> BornBefore(cs, live[i].Key(), live[j].Key())
    requires s in Unretained(v, live[1..])
    ensures WireBornBefore(cs, OnWire(live[0].Key()), KeyOf(s))
  {
    UnretainedMembers(v, live[1..]);
    var ev :| ev in live[1..] && s == Synthesized(v, ev);
    var p :| 0 <= p < |live[1..]| && live[1..][p] == ev;
    assert BornBefore(cs, live[0].Key(), live[p + 1].Key());
  }

  lemma OneMoreByAge(cs: seq<ResourceChange>, first: StoredEvent, rest: seq<StoredEvent>)
    requires ByAge(cs, rest) && forall j :: 0 <= j < |rest| ==> WireBornBefore(cs, KeyOf(first), KeyOf(rest[j]))
    ensures ByAge(cs, [first] + rest)
  {
    var all := [first] + rest;
    forall i | 0 < i < |all| ensures all[i] == rest[i - 1] {}
  }

  lemma {:induction false} CreatesEffect(evs: seq<StoredEvent>, w: WireKey)
    requires forall s :: s in evs ==> s.operation == "Create"
    ensures Effect(WireChanges(evs), w).Untouched? ==> forall s :: s in evs ==> KeyOf(s) != w
    ensures !Effect(WireChanges(evs), w).Untouched? ==>
      exists s :: s in evs && KeyOf(s) == w && Effect(WireChanges(evs), w) == Has(s.objects)
  {
    if evs == [] {
    } else {
      var init, last := evs[..|evs| - 1], evs[|evs| - 1];
      assert WireChanges(evs)[..|evs| - 1] == WireChanges(init);
      assert last in evs && evs == init + [last];
      CreatesEffect(init, w);
    }
  }

  lemma LiveKeyDeclared(log: seq<Record>, k: ResourceKey)
    requires Declared(log) && k in Live(Changes(EventsOf(log)))
    ensures k.resType.Declared()
  {
    var cs := Changes(EventsOf(log));
    ReplayAt(map[], cs, k);
    EffectTouched(cs, k);
    var j :| 0 <= j < |cs| && cs[j].key == k;
    assert log[j].ev.Key() == k;
  }

  // ---------- Rebuilding and catching up ----------

  // What a replica m holds after the full answer to a query that reaches past the boundary: the
  // latest state, plus those of its own entries that are gone and that the tail never mentions.
  function Refreshed(m: map<WireKey, Payload>, log: seq<Record>, limit: nat): map<WireKey, Payload> {
    (map w | w in m && w !in KeysOf(ViewOf(log, limit).tail) :: m[w]) + WireState(log)
  }

  lemma {:induction false} SelectsAll(q: EventQuery, evs: seq<StoredEvent>)
    requires q.Everything()
    requires forall i :: 0 <= i < |evs| ==> evs[i].sequenceId > q.sinceSeq
    ensures Select(q, evs) == evs
  {
    if evs == [] {
    } else {
      SelectsAll(q, evs[1..]);
    }
  }

  lemma {:induction false} PrefixIds(v: View, live: seq<Event>)
    ensures forall s :: s in Unretained(v, live) ==> s.sequenceId == v.compactionSeq
  {
    if live == [] {
    } else {
      PrefixIds(v, live[1..]);
    }
  }

  lemma FullAnswer(v: View, q: EventQuery)
    requires WellFormed(v) && q.Everything() && q.sinceSeq < v.compactionSeq
    ensures Matching(v, q) == Unretained(v, v.live) + v.tail
  {
    PrefixIds(v, v.live);
    SelectsAll(q, Unretained(v, v.live));
    SelectsAll(q, v.tail);
  }

  lemma PrefixThenTail(log: seq<Record>, limit: nat, m: map<WireKey, Payload>, w: WireKey)
    requires Declared(log)
    ensures var v := ViewOf(log, limit);
            At(Received(m, Unretained(v, v.live) + v.tail), w) == At(Refreshed(m, log, limit), w)
  {
    var v := ViewOf(log, limit);
    ReceivedAt(m, Unretained(v, v.live), v.tail, w);
    ReceivedAt(map[], v.tail, [], w);
    KeysAreTouched(v.tail, w);
    TailDecides(StoredLog(log), limit, w);
    PrefixMembers(log, limit);
    CreatesEffect(Unretained(v, v.live), w);
  }

  // A replica of any content that reads the whole answer to a query from before the boundary.
  lemma StaleReaderCatchesUp(log: seq<Record>, limit: nat, current: nat, q: EventQuery, m: map<WireKey, Payload>)
    requires Numbered(log, current) && Declared(log) && q.Everything()
    ensures var v := ViewOf(log, limit);
            q.sinceSeq < v.compactionSeq ==>
              && Received(m, Matching(v, q)) == Refreshed(m, log, limit)
              && (q.PageSize() >= |Matching(v, q)| ==> Received(m, Answer(v, q)) == Refreshed(m, log, limit))
  {
    var v := ViewOf(log, limit);
    if q.sinceSeq < v.compactionSeq {
      TailIsSuffix(log, limit, current);
      FullAnswer(v, q);
      var got := Received(m, Unretained(v, v.live) + v.tail);
      forall w ensures At(got, w) == At(Refreshed(m, log, limit), w) {
        PrefixThenTail(log, limit, m, w);
      }
      SameAt(got, Refreshed(m, log, limit));
      if q.PageSize() >= |Matching(v, q)| { WholeAnswer(v, q); }
    }
  }

  lemma WholeAnswer(v: View, q: EventQuery)
    requires q.PageSize() >= |Matching(v, q)|
    ensures Answer(v, q) == Matching(v, q)
  {
  }

  lemma NothingHeld(log: seq<Record>, limit: nat)
    ensures Refreshed(map[], log, limit) == WireState(log)
  {
  }

  lemma NothingEvicted(log: seq<Record>, limit: nat, current: nat, q: EventQuery)
    requires Numbered(log, current) && q.Everything() && q.sinceSeq == 0 && ViewOf(log, limit).compactionSeq == 0
    ensures Matching(ViewOf(log, limit), q) == StoredLog(log)
  {
    var v := ViewOf(log, limit);
    TailIsSuffix(log, limit, current);
    SelectsAll(q, v.tail);
    assert Prefix(v, 0) == [] && Select(q, []) == [];
    assert v.tail == StoredLog(log);
  }

  // A new reader that starts from nothing rebuilds exactly the latest state, whatever the ring
  // capacity and however much of the log it has let go.
  lemma Reconstruction(log: seq<Record>, limit: nat, current: nat, q: EventQuery)
    requires Numbered(log, current) && Declared(log) && q.Everything() && q.sinceSeq == 0
    ensures var v := ViewOf(log, limit);
            && Received(map[], Matching(v, q)) == WireState(log)
            && (q.PageSize() >= |Matching(v, q)| ==> Received(map[], Answer(v, q)) == WireState(log))
  {
    var v := ViewOf(log, limit);
    if v.compactionSeq > 0 {
      StaleReaderCatchesUp(log, limit, current, q, map[]);
      NothingHeld(log, limit);
    } else {
      NothingEvicted(log, limit, current, q);
    }
    if q.PageSize() >= |Matching(v, q)| { WholeAnswer(v, q); }
  }
}
