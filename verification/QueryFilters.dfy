// What the fields of an EventQuery ask for, told by the fields of the entries that come back.
module QueryFilters {
  import opened Wrappers
  import opened Events
  import opened HistoryRings
  import opened Fold
  import opened LatestState
  import opened History
  import opened Queries
  import opened Paging

  // ---------- Every entry of an answer ----------

  // It lies beyond SinceSeq and has the names that were asked for; payloads come only on request.
  ghost predicate AsAsked(q: EventQuery, e: StoredEvent) {
    && e.sequenceId > q.sinceSeq
    && (q.operation.Some? ==> e.operation == q.operation.value.WireOperation())
    && (q.resourceType.Some? ==> e.resourceType == q.resourceType.value.WireKind())
    && (q.resourceId.Some? ==> e.resourceId == q.resourceId.value)
    && (!q.includePayload ==> e.objects == [])
  }

  lemma AnswerAsAsked(v: View, q: EventQuery)
    ensures forall e :: e in Answer(v, q) ==> AsAsked(q, e)
  {
    SelectMembers(q, Prefix(v, q.sinceSeq));
    SelectMembers(q, v.tail);
    AnswerIsMatching(v, q);
    forall e | e in Answer(v, q) ensures AsAsked(q, e) {
      assert e in Select(q, Prefix(v, q.sinceSeq)) || e in Select(q, v.tail);
    }
  }

  lemma AnswerIsMatching(v: View, q: EventQuery)
    ensures Answer(v, q) <= Matching(v, q)
  {
    PageShape(v, q);
  }

  // It is one of the retained events, as it was recorded.
  ghost predicate Shows(e: StoredEvent, r: Record, payload: bool) {
    && e.sequenceId == r.sequenceId && e.timestamp == r.at
    && e.resourceId == r.ev.id && e.resourceType == r.ev.resType.WireKind()
    && ParseWireOperation(e.operation) == r.ev.op
    && e.objects == if payload then r.ev.objects else []
  }

  // Or it reports a live resource as created at the boundary, with its latest payload.
  ghost predicate ShowsLive(e: StoredEvent, v: View, live: map<ResourceKey, Payload>, payload: bool) {
    && e.sequenceId == v.compactionSeq && e.timestamp == v.compactionAt
    && ParseWireOperation(e.operation) == CreateOperation
    && exists k :: k in live && OnWire(k) == KeyOf(e) && e.objects == if payload then live[k] else []
  }

  lemma StoredShows(r: Record, q: EventQuery)
    ensures Shows(q.Entry(Stored(r)), r, q.includePayload)
  {
    OperationNames(r.ev.op);
  }

  lemma TailShows(log: seq<Record>, limit: nat, q: EventQuery, e: StoredEvent)
    requires e in Select(q, ViewOf(log, limit).tail)
    ensures exists i :: Evicted(|log|, limit) <= i < |log| && Shows(e, log[i], q.includePayload)
  {
    var i := RetainedAt(log, limit, q, e);
    StoredShows(log[i], q);
  }

  lemma RetainedAt(log: seq<Record>, limit: nat, q: EventQuery, e: StoredEvent) returns (i: nat)
    requires e in Select(q, Tail(StoredLog(log), limit))
    ensures Evicted(|log|, limit) <= i < |log| && e == q.Entry(Stored(log[i]))
  {
    var tail, cut := Tail(StoredLog(log), limit), Evicted(|log|, limit);
    SelectMembers(q, tail);
    var ev :| ev in tail && e == q.Entry(ev);
    var j :| 0 <= j < |tail| && tail[j] == ev;
    i := cut + j;
  }

  lemma SynthesizedShows(v: View, q: EventQuery, ev: Event, live: map<ResourceKey, Payload>)
    requires At(live, ev.Key()) == Some(ev.objects)
    ensures ShowsLive(q.Entry(Synthesized(v, ev)), v, live, q.includePayload)
  {
    OperationNames(CreateOperation);
    assert ev.Key() in live && OnWire(ev.Key()) == KeyOf(q.Entry(Synthesized(v, ev)));
  }

  lemma PrefixShows(log: seq<Record>, limit: nat, q: EventQuery, e: StoredEvent)
    requires e in Select(q, Prefix(ViewOf(log, limit), q.sinceSeq))
    ensures q.sinceSeq < ViewOf(log, limit).compactionSeq
    ensures ShowsLive(e, ViewOf(log, limit), Live(Changes(EventsOf(log))), q.includePayload)
  {
    var v, cs := ViewOf(log, limit), Changes(EventsOf(log));
    var ev := SynthesizedFrom(v, q, e);
    SnapshotMembers(cs);
    SynthesizedShows(v, q, ev, Live(cs));
  }

  lemma SynthesizedFrom(v: View, q: EventQuery, e: StoredEvent) returns (ev: Event)
    requires e in Select(q, Prefix(v, q.sinceSeq))
    ensures q.sinceSeq < v.compactionSeq && ev in v.live && e == q.Entry(Synthesized(v, ev))
  {
    SelectMembers(q, Prefix(v, q.sinceSeq));
    UnretainedMembers(v, v.live);
    var s :| s in Prefix(v, q.sinceSeq) && e == q.Entry(s);
    ev :| ev in v.live && OnWire(ev.Key()) !in KeysOf(v.tail) && s == Synthesized(v, ev);
  }

  // Every entry shows a retained record, or, when the query reaches past the boundary, a live resource.
  lemma AnswerShows(log: seq<Record>, limit: nat, q: EventQuery, e: StoredEvent)
    requires e in Answer(ViewOf(log, limit), q)
    ensures
      || (exists i :: Evicted(|log|, limit) <= i < |log| && Shows(e, log[i], q.includePayload))
      || (q.sinceSeq < ViewOf(log, limit).compactionSeq
          && ShowsLive(e, ViewOf(log, limit), Live(Changes(EventsOf(log))), q.includePayload))
  {
    var v := ViewOf(log, limit);
    AnswerIsMatching(v, q);
    if e in Select(q, v.tail) {
      TailShows(log, limit, q, e);
    } else {
      assert e in Select(q, Prefix(v, q.sinceSeq));
      PrefixShows(log, limit, q, e);
    }
  }

  // ---------- Size ----------

  // No more than the limit, a limit of zero or less meaning 100, unless all entries but the last are
  // synthetic; and fewer only if there are no more.
  lemma AnswerSize(v: View, q: EventQuery)
    ensures var limit, page := if q.limit <= 0 then 100 else q.limit, Answer(v, q);
            && (|page| > limit ==> forall i :: 0 <= i < |page| - 1 ==> page[i].sequenceId == v.compactionSeq)
            && (|page| < limit ==> page == Matching(v, q))
  {
    var s, page := Select(q, Prefix(v, q.sinceSeq)), Answer(v, q);
    PageShape(v, q);
    SelectMembers(q, Prefix(v, q.sinceSeq));
    PrefixIds(v, v.live);
    if |page| > q.PageSize() {
      forall i | 0 <= i < |page| - 1 ensures page[i].sequenceId == v.compactionSeq {
        assert page[i] == s[i] && s[i] in s;
      }
    }
  }

  // ---------- One filter at a time ----------

  // With no filter: the prefix, if the query reaches past the boundary, and the retained events
  // beyond SinceSeq.
  lemma Unfiltered(v: View, q: EventQuery)
    requires WellFormed(v) && q.Everything()
    ensures Matching(v, q) ==
              (if q.sinceSeq < v.compactionSeq then Unretained(v, v.live) else []) + Beyond(v.tail, q.sinceSeq)
  {
    PrefixIds(v, v.live);
    SelectsAll(q, Prefix(v, q.sinceSeq));
    SelectsBeyond(q, v.tail);
  }

  lemma {:induction false} SelectsBeyond(q: EventQuery, evs: seq<StoredEvent>)
    requires q.Everything()
    ensures Select(q, evs) == Beyond(evs, q.sinceSeq)
  {
    if evs == [] {
    } else {
      SelectsBeyond(q, evs[1..]);
    }
  }

  datatype Filter = ByOperation(op: Operation) | ByType(resType: ResourceType) | ById(id: Uuid)

  // What a client that asked for everything would do to narrow the answer down itself.
  predicate Passes(f: Filter, e: StoredEvent) {
    match f
    case ByOperation(op) => e.operation == op.WireOperation()
    case ByType(t) => e.resourceType == t.WireKind()
    case ById(id) => e.resourceId == id
  }

  function Narrowed(f: Filter, evs: seq<StoredEvent>): seq<StoredEvent> {
    if evs == [] then []
    else (if Passes(f, evs[0]) then [evs[0]] else []) + Narrowed(f, evs[1..])
  }

  predicate Unasked(f: Filter, q: EventQuery) {
    match f
    case ByOperation(_) => q.operation.None?
    case ByType(_) => q.resourceType.None?
    case ById(_) => q.resourceId.None?
  }

  function Asking(f: Filter, q: EventQuery): EventQuery {
    match f
    case ByOperation(op) => q.(operation := Some(op))
    case ByType(t) => q.(resourceType := Some(t))
    case ById(id) => q.(resourceId := Some(id))
  }

  lemma {:induction false} NarrowedConcat(f: Filter, a: seq<StoredEvent>, b: seq<StoredEvent>)
    ensures Narrowed(f, a + b) == Narrowed(f, a) + Narrowed(f, b)
  {
    if a == [] {
      assert a + b == b;
    } else {
      assert (a + b)[1..] == a[1..] + b;
      NarrowedConcat(f, a[1..], b);
    }
  }

  lemma {:induction false} SelectNarrowed(f: Filter, q: EventQuery, evs: seq<StoredEvent>)
    requires Unasked(f, q)
    ensures Select(Asking(f, q), evs) == Narrowed(f, Select(q, evs))
  {
    if evs == [] {
    } else {
      SelectNarrowed(f, q, evs[1..]);
      var head := if q.Matches(evs[0]) then [q.Entry(evs[0])] else [];
      NarrowedConcat(f, head, Select(q, evs[1..]));
      NarrowedOne(f, q.Entry(evs[0]));
      assert Passes(f, q.Entry(evs[0])) == Passes(f, evs[0]);
      assert Asking(f, q).Entry(evs[0]) == q.Entry(evs[0]);
    }
  }

  lemma NarrowedOne(f: Filter, e: StoredEvent)
    ensures Narrowed(f, [e]) == if Passes(f, e) then [e] else []
    ensures Narrowed(f, []) == []
  {
    assert [e][1..] == [];
  }

  lemma {:induction false} NarrowedShorter(f: Filter, evs: seq<StoredEvent>)
    ensures |Narrowed(f, evs)| <= |evs|
  {
    if evs == [] {
    } else {
      NarrowedShorter(f, evs[1..]);
    }
  }

  // Adding a filter to a query, whatever else it asks for, keeps of the answer exactly the entries
  // whose field agrees with it, in order.
  lemma FilterNarrows(f: Filter, v: View, q: EventQuery)
    requires Unasked(f, q)
    ensures Matching(v, Asking(f, q)) == Narrowed(f, Matching(v, q))
    ensures q.PageSize() >= |Matching(v, q)| ==> Answer(v, Asking(f, q)) == Narrowed(f, Answer(v, q))
  {
    SelectNarrowed(f, q, Prefix(v, q.sinceSeq));
    SelectNarrowed(f, q, v.tail);
    NarrowedConcat(f, Select(q, Prefix(v, q.sinceSeq)), Select(q, v.tail));
    NarrowedShorter(f, Matching(v, q));
    if q.PageSize() >= |Matching(v, q)| {
      WholeAnswer(v, q);
      WholeAnswer(v, Asking(f, q));
    }
  }

  function Bare(evs: seq<StoredEvent>): seq<StoredEvent> {
    seq(|evs|, i requires 0 <= i < |evs| => evs[i].(objects := []))
  }

  // Leaving payloads out changes nothing else.
  lemma PayloadOnly(v: View, q: EventQuery)
    requires q.includePayload
    ensures Answer(v, q.(includePayload := false)) == Bare(Answer(v, q))
  {
    SelectBare(q, Prefix(v, q.sinceSeq));
    SelectBare(q, v.tail);
    CutBare(Select(q, Prefix(v, q.sinceSeq)), Select(q, v.tail), q.PageSize());
  }

  lemma CutBare(prefix: seq<StoredEvent>, matches: seq<StoredEvent>, pageSize: nat)
    requires pageSize > 0
    ensures Cut(Bare(prefix), Bare(matches), pageSize) == Bare(Cut(prefix, matches, pageSize))
  {
  }

  lemma {:induction false} SelectBare(q: EventQuery, evs: seq<StoredEvent>)
    requires q.includePayload
    ensures Select(q.(includePayload := false), evs) == Bare(Select(q, evs))
  {
    if evs == [] {
    } else {
      SelectBare(q, evs[1..]);
      var head := if q.Matches(evs[0]) then [evs[0]] else [];
      assert Bare(head + Select(q, evs[1..])) == Bare(head) + Bare(Select(q, evs[1..]));
    }
  }
}
