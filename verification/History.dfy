// pkg/events/history.go and the answer EventManager.QueryEvents gives, as functions of the log of
// recorded events, the ring capacity and the query.
module History {
  import opened Wrappers
  import opened Events
  import opened HistoryRings
  import opened Fold
  import opened LatestState

  // One completed record step: the event with the sequence number and time it was given.
  datatype Record = Record(sequenceId: nat, at: Time, ev: Event)

  function NewStoredEvent(seqNo: nat, ts: Time, rt: ResourceType, op: Operation, id: Uuid, objects: Payload): StoredEvent {
    StoredEvent(seqNo, ts, rt.WireKind(), op.WireOperation(), id, objects)
  }

  function Stored(r: Record): StoredEvent {
    NewStoredEvent(r.sequenceId, r.at, r.ev.resType, r.ev.op, r.ev.id, r.ev.objects)
  }

  function StoredLog(log: seq<Record>): (s: seq<StoredEvent>)
  {
    seq(|log|, i requires 0 <= i < |log| => Stored(log[i]))
  }

  function EventsOf(log: seq<Record>): (s: seq<Event>)
  {
    seq(|log|, i requires 0 <= i < |log| => log[i].ev)
  }

  // Sequence ids increase strictly and never exceed the manager's current number. They need not
  // be contiguous: IncrementSequenceId leaves gaps.
  ghost predicate Numbered(log: seq<Record>, current: nat) {
    && (forall i, j :: 0 <= i < j < |log| ==> log[i].sequenceId < log[j].sequenceId)
    && (forall i :: 0 <= i < |log| ==> 0 < log[i].sequenceId <= current)
  }

  ghost predicate Declared(log: seq<Record>) {
    forall i :: 0 <= i < |log| ==> log[i].ev.resType.Declared()
  }

  datatype EventQuery = EventQuery(
    operation: Option<Operation>,
    resourceType: Option<ResourceType>,
    resourceId: Option<Uuid>,
    sinceSeq: nat,
    limit: int,
    includePayload: bool)
  {
    function PageSize(): nat { if limit <= 0 then 100 else limit }

    predicate Matches(ev: StoredEvent) {
      && ev.sequenceId > sinceSeq
      && (operation.Some? ==> ev.operation == operation.value.WireOperation())
      && (resourceType.Some? ==> ev.resourceType == resourceType.value.WireKind())
      && (resourceId.Some? ==> ev.resourceId == resourceId.value)
    }

    function Entry(ev: StoredEvent): StoredEvent {
      if includePayload then ev else ev.(objects := [])
    }

    // No filter, payloads included.
    predicate Everything() {
      operation.None? && resourceType.None? && resourceId.None? && includePayload
    }
  }

  function Select(q: EventQuery, evs: seq<StoredEvent>): seq<StoredEvent> {
    if evs == [] then []
    else (if q.Matches(evs[0]) then [q.Entry(evs[0])] else []) + Select(q, evs[1..])
  }

  // What one call of QueryEvents sees under the read lock.
  datatype View = View(tail: seq<StoredEvent>, compactionSeq: nat, compactionAt: Time, live: seq<Event>)

  function ViewOf(log: seq<Record>, limit: nat): View {
    var boundary := Boundary(StoredLog(log), limit);
    View(Tail(StoredLog(log), limit), boundary.0, boundary.1, AsCreates(Snapshot(Changes(EventsOf(log)))))
  }

  datatype WireKey = WireKey(resourceType: string, resourceId: Uuid)

  function KeyOf(ev: StoredEvent): WireKey { WireKey(ev.resourceType, ev.resourceId) }

  function OnWire(k: ResourceKey): WireKey { WireKey(k.resType.WireKind(), k.id) }

  function KeysOf(evs: seq<StoredEvent>): set<WireKey> { set i | 0 <= i < |evs| :: KeyOf(evs[i]) }

  function Synthesized(v: View, ev: Event): StoredEvent {
    NewStoredEvent(v.compactionSeq, v.compactionAt, ev.resType, CreateOperation, ev.id, ev.objects)
  }

  // A Create for every live resource that has no event left in the tail.
  function Unretained(v: View, live: seq<Event>): seq<StoredEvent> {
    if live == [] then []
    else (if OnWire(live[0].Key()) in KeysOf(v.tail) then [] else [Synthesized(v, live[0])]) + Unretained(v, live[1..])
  }

  function Prefix(v: View, sinceSeq: nat): seq<StoredEvent> {
    if sinceSeq < v.compactionSeq then Unretained(v, v.live) else []
  }

  // The whole answer, were there no limit.
  function Matching(v: View, q: EventQuery): seq<StoredEvent> {
    Select(q, Prefix(v, q.sinceSeq)) + Select(q, v.tail)
  }

  // The prefix is never cut, and a prefix that fills the page still lets one tail entry through.
  function Cut(prefix: seq<StoredEvent>, matches: seq<StoredEvent>, pageSize: nat): seq<StoredEvent> {
    var room := if |prefix| < pageSize then pageSize - |prefix| else 1;
    prefix + matches[..if room <= |matches| then room else |matches|]
  }

  function Answer(v: View, q: EventQuery): seq<StoredEvent> {
    Cut(Select(q, Prefix(v, q.sinceSeq)), Select(q, v.tail), q.PageSize())
  }

  // What replaying stored events does to a receiver's map of resources.
  function WireChange(ev: StoredEvent): Change<WireKey, Payload> {
    if ev.operation == "Delete" then Del(KeyOf(ev)) else Put(KeyOf(ev), ev.objects)
  }

  function WireChanges(evs: seq<StoredEvent>): (cs: seq<Change<WireKey, Payload>>)
  {
    seq(|evs|, i requires 0 <= i < |evs| => WireChange(evs[i]))
  }

  function Received(m: map<WireKey, Payload>, evs: seq<StoredEvent>): map<WireKey, Payload> {
    Replay(m, WireChanges(evs))
  }

  lemma ReceivedConcat(m: map<WireKey, Payload>, a: seq<StoredEvent>, b: seq<StoredEvent>)
    ensures Received(m, a + b) == Received(Received(m, a), b)
  {
    assert WireChanges(a + b) == WireChanges(a) + WireChanges(b);
    ReplayConcat(m, WireChanges(a), WireChanges(b));
  }

  // The latest state under the names used on the wire.
  function WireState(log: seq<Record>): map<WireKey, Payload> { Received(map[], StoredLog(log)) }

  // Over known resource types the wire state is the latest-state store under renaming: same
  // resources, same payloads.
  lemma WireStateIsLatestState(log: seq<Record>)
    requires Declared(log)
    ensures forall k: ResourceKey :: k.resType.Declared() ==>
              At(WireState(log), OnWire(k)) == At(Live(Changes(EventsOf(log))), k)
    ensures forall w :: w in WireState(log) ==>
              exists k: ResourceKey :: k in Live(Changes(EventsOf(log))) && OnWire(k) == w
  {
    var cs, ws := Changes(EventsOf(log)), WireChanges(StoredLog(log));
    forall k: ResourceKey | k.resType.Declared()
      ensures At(WireState(log), OnWire(k)) == At(Live(cs), k)
    {
      EffectOnWire(log, k);
      ReplayAt(map[], cs, k);
      ReplayAt(map[], ws, OnWire(k));
    }
    forall w | w in WireState(log) ensures exists k: ResourceKey :: k in Live(cs) && OnWire(k) == w {
      ReplayAt(map[], ws, w);
      EffectTouched(ws, w);
      var i :| 0 <= i < |ws| && ws[i].key == w;
      var k := log[i].ev.Key();
      assert OnWire(k) == w && At(WireState(log), w) == At(Live(cs), k);
    }
  }

  lemma {:induction false} EffectOnWire(log: seq<Record>, k: ResourceKey)
    requires Declared(log) && k.resType.Declared()
    ensures Effect(WireChanges(StoredLog(log)), OnWire(k)) == Effect(Changes(EventsOf(log)), k)
  {
    if log == [] {
    } else {
      var init, last := log[..|log| - 1], log[|log| - 1];
      assert StoredLog(log)[..|log| - 1] == StoredLog(init);
      assert WireChanges(StoredLog(log))[..|log| - 1] == WireChanges(StoredLog(init));
      assert Changes(EventsOf(log))[..|log| - 1] == Changes(EventsOf(init));
      EffectOnWire(init, k);
      WireKindInjective(k.resType, last.ev.resType);
    }
  }
}
