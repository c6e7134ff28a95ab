// internal/events/manager.go and the locked part of recording_sink.go: the event manager's own
// state, changed in place. Each method here is one critical section of the manager's mutex; what
// happens between critical sections is the subject of Subscriptions.dfy, and SystemView.dfy ties
// the two together.
module Manager {
  import opened Wrappers
  import opened Events
  import opened HistoryRings
  import opened LatestState
  import opened History
  import opened QueryFilters

  class EventManager {
    var sequenceNumber: nat
    var notifiers: seq<string>
    const latestState: LatestStateStore
    const historyTail: HistoryRing
    // Every completed record step since construction.
    ghost var log: seq<Record>

    ghost predicate Valid()
      reads this, latestState, historyTail, historyTail.buf
    {
      && latestState.Valid() && historyTail.Valid()
      && historyTail.log == StoredLog(log)
      && latestState.log == EventsOf(log)
      && Numbered(log, sequenceNumber)
      && (forall i, j :: 0 <= i < j < |notifiers| ==> notifiers[i] != notifiers[j])
    }

    constructor (historyLimit: Option<int>)
      ensures Valid() && fresh(latestState) && fresh(historyTail) && fresh(historyTail.buf)
      ensures log == [] && sequenceNumber == 0 && notifiers == []
      ensures historyTail.limit ==
                if historyLimit.Some? && historyLimit.value > 0 then historyLimit.value else DEFAULT_HISTORY_LIMIT
    {
      sequenceNumber, notifiers, log := 0, [], [];
      latestState := new LatestStateStore();
      var limit := DEFAULT_HISTORY_LIMIT;
      if historyLimit.Some? && historyLimit.value > 0 {
        limit := historyLimit.value;
      }
      historyTail := new HistoryRing(limit);
    }

    method IncrementSequenceId()
      requires Valid()
      modifies this`sequenceNumber
      ensures Valid() && sequenceNumber == old(sequenceNumber) + 1
    {
      sequenceNumber := sequenceNumber + 1;
    }

    // The locked part of recordingSink.Receive. `targets` is the copy of the notifier list that the
    // unlocked part goes on to enqueue to.
    method Record(resType: ResourceType, op: Operation, resourceId: Uuid, objects: Payload, now: Time)
      returns (targets: seq<string>)
      requires Valid()
      modifies this`sequenceNumber, this`log, latestState, historyTail, historyTail.buf
      ensures Valid() && historyTail.buf == old(historyTail.buf)
      ensures sequenceNumber == old(sequenceNumber) + 1
      ensures log == old(log) + [History.Record(sequenceNumber, now, Event(resType, op, resourceId, objects))]
      ensures targets == notifiers
    {
      ghost var r := History.Record(sequenceNumber + 1, now, Event(resType, op, resourceId, objects));
      ghost var next := log + [r];
      AppendRecord(log, r, sequenceNumber);
      latestState.Receive(resType, op, resourceId, objects);
      sequenceNumber := sequenceNumber + 1;
      var stored := NewStoredEvent(sequenceNumber, now, resType, op, resourceId, objects);
      assert stored == Stored(r);
      historyTail.Add(stored);
      log := next;
      targets := notifiers;
    }

    // The locked part of AddSubscriber: past is what it goes on to replay. clientOk is whether a
    // client for the URL could be made.
    method Register(subURL: string, clientOk: bool) returns (added: bool, err: bool, past: seq<Event>)
      requires Valid()
      modifies this`notifiers
      ensures Valid()
      ensures added == (subURL !in old(notifiers) && clientOk)
      ensures err == (subURL !in old(notifiers) && !clientOk)
      ensures notifiers == if added then old(notifiers) + [subURL] else old(notifiers)
      ensures added ==> past == AsCreates(Snapshot(Changes(EventsOf(log)))) && OldestFirst(Changes(EventsOf(log)), past)
    {
      for i := 0 to |notifiers|
        invariant forall j :: 0 <= j < i ==> notifiers[j] != subURL
      {
        if notifiers[i] == subURL {
          return false, false, [];
        }
      }
      if !clientOk {
        return false, true, [];
      }
      notifiers := notifiers + [subURL];
      past := latestState.GetEvents();
      added, err := true, false;
    }

    // The locked part of RemoveSubscriber.
    method Unregister(url: string) returns (found: bool)
      requires Valid()
      modifies this`notifiers
      ensures Valid()
      ensures found == (url in old(notifiers))
      ensures !found ==> notifiers == old(notifiers)
      ensures found ==> exists i :: 0 <= i < |old(notifiers)| && old(notifiers)[i] == url
                          && notifiers == old(notifiers)[..i] + old(notifiers)[i + 1..]
    {
      for i := 0 to |notifiers|
        invariant notifiers == old(notifiers)
        invariant forall j :: 0 <= j < i ==> notifiers[j] != url
      {
        if notifiers[i] == url {
          notifiers := notifiers[..i] + notifiers[i + 1..];
          return true;
        }
      }
      found := false;
    }

    method QueryEvents(q: EventQuery) returns (results: seq<StoredEvent>)
      requires Valid()
      ensures results == Answer(ViewOf(log, historyTail.limit), q)
      ensures forall e :: e in results ==> AsAsked(q, e)
    {
      results := Ask(q);
      AnswerAsAsked(ViewOf(log, historyTail.limit), q);
    }

    method Ask(q: EventQuery) returns (results: seq<StoredEvent>)
      requires Valid()
      ensures results == Answer(ViewOf(log, historyTail.limit), q)
    {
      var v := Look(q.sinceSeq);
      var synthetic := [];
      if q.sinceSeq < v.compactionSeq {
        synthetic := Synthesize(v);
      }
      results := Collect(synthetic, v.tail, q);
    }

    // What is read under the lock: the latest state only if it is needed.
    method Look(sinceSeq: nat) returns (v: View)
      requires Valid()
      ensures var all := ViewOf(log, historyTail.limit);
              v == if sinceSeq < all.compactionSeq then all else all.(live := [])
    {
      var tail := historyTail.Snapshot();
      var compactionSeq, compactionAt := historyTail.CompactionBoundary();
      v := View(tail, compactionSeq, compactionAt, []);
      if sinceSeq < compactionSeq {
        var live := latestState.GetEvents();
        v := v.(live := live);
      }
    }
  }

  // The first half of QueryEvents: Creates for the live resources the tail does not represent.
  method Synthesize(v: View) returns (synthetic: seq<StoredEvent>)
    ensures synthetic == Unretained(v, v.live)
  {
    var inTail := {};
    for i := 0 to |v.tail|
      invariant inTail == KeysOf(v.tail[..i])
    {
      assert v.tail[..i + 1] == v.tail[..i] + [v.tail[i]];
      KeysOfAppend(v.tail[..i], v.tail[i]);
      inTail := inTail + {WireKey(v.tail[i].resourceType, v.tail[i].resourceId)};
    }
    assert v.tail[..|v.tail|] == v.tail;
    synthetic := [];
    for i := 0 to |v.live|
      invariant synthetic + Unretained(v, v.live[i..]) == Unretained(v, v.live)
    {
      var ev := v.live[i];
      assert v.live[i..][1..] == v.live[i + 1..];
      if WireKey(ev.resType.WireKind(), ev.id) in inTail {
        continue;
      }
      synthetic := synthetic +
        [NewStoredEvent(v.compactionSeq, v.compactionAt, ev.resType, CreateOperation, ev.id, ev.objects)];
    }
  }

  // The second half: filter the prefix in full, then the tail until the page is full.
  method Collect(synthetic: seq<StoredEvent>, tail: seq<StoredEvent>, q: EventQuery)
    returns (results: seq<StoredEvent>)
    ensures results == Cut(Select(q, synthetic), Select(q, tail), q.PageSize())
  {
    var limit := q.limit;
    if limit <= 0 {
      limit := 100;
    }
    results := [];
    assert synthetic[0..] == synthetic;
    for i := 0 to |synthetic|
      invariant results + Select(q, synthetic[i..]) == Select(q, synthetic)
    {
      SelectNext(q, synthetic, i);
      if q.Matches(synthetic[i]) {
        ghost var rest := Select(q, synthetic[i + 1..]);
        assert results + ([q.Entry(synthetic[i])] + rest) == results + [q.Entry(synthetic[i])] + rest;
        results := results + [q.Entry(synthetic[i])];
      }
    }
    results := FillPage(results, tail, q, limit);
  }

  // Appends matches to the page until it is full, and at least one if there is any.
  method FillPage(prefix: seq<StoredEvent>, tail: seq<StoredEvent>, q: EventQuery, limit: int)
    returns (results: seq<StoredEvent>)
    requires limit > 0
    ensures results == Cut(prefix, Select(q, tail), limit)
  {
    results := prefix;
    ghost var matches, taken := Select(q, tail), 0;
    assert matches[0..] == matches && tail[0..] == tail;
    for i := 0 to |tail|
      invariant 0 <= taken <= |matches| && matches[taken..] == Select(q, tail[i..])
      invariant results == prefix + matches[..taken]
      invariant taken == 0 || |results| < limit
    {
      SelectNext(q, tail, i);
      if q.Matches(tail[i]) {
        TakeNext(matches, taken, q.Entry(tail[i]), Select(q, tail[i + 1..]));
        results := results + [q.Entry(tail[i])];
        taken := taken + 1;
        if |results| >= limit {
          return;
        }
      }
    }
  }

  lemma SelectNext(q: EventQuery, evs: seq<StoredEvent>, i: nat)
    requires i < |evs|
    ensures q.Matches(evs[i]) ==> Select(q, evs[i..]) == [q.Entry(evs[i])] + Select(q, evs[i + 1..])
    ensures !q.Matches(evs[i]) ==> Select(q, evs[i..]) == Select(q, evs[i + 1..])
  {
    assert evs[i..][1..] == evs[i + 1..];
  }

  lemma TakeNext(s: seq<StoredEvent>, n: nat, x: StoredEvent, rest: seq<StoredEvent>)
    requires n <= |s| && s[n..] == [x] + rest
    ensures n < |s| && s[..n + 1] == s[..n] + [x] && s[n + 1..] == rest
  {
    assert s[n..][0] == x && s[n..][1..] == rest;
  }

  lemma AppendRecord(log: seq<Record>, r: Record, current: nat)
    requires Numbered(log, current) && r.sequenceId == current + 1
    ensures Numbered(log + [r], current + 1)
    ensures StoredLog(log + [r]) == StoredLog(log) + [Stored(r)]
    ensures EventsOf(log + [r]) == EventsOf(log) + [r.ev]
  {
  }

  lemma KeysOfAppend(evs: seq<StoredEvent>, ev: StoredEvent)
    ensures KeysOf(evs + [ev]) == KeysOf(evs) + {KeyOf(ev)}
  {
    var all := evs + [ev];
    forall k | k in KeysOf(evs) + {KeyOf(ev)} ensures k in KeysOf(all) {
      if k == KeyOf(ev) {
        assert KeyOf(all[|evs|]) == k;
      } else {
        var i :| 0 <= i < |evs| && KeyOf(evs[i]) == k;
        assert KeyOf(all[i]) == k;
      }
    }
  }
}
