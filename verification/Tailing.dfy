// A reader that follows the log live: it starts empty, polls with an unfiltered query, and takes
// the last id it was given as its next SinceSeq, while the manager keeps recording and evicting.
module Tailing {
  import opened Wrappers
  import opened Events
  import opened HistoryRings
  import opened Fold
  import opened History
  import opened Queries
  import opened Paging

  // `missed` is history: positions of Deletes that a poll has jumped over, of resources the reader
  // held at the time.
  datatype State = State(log: seq<Record>, current: nat, sinceSeq: nat, replica: map<WireKey, Payload>, missed: set<nat>)

  datatype Action =
    | Append(at: Time, ev: Event)     // recordingSink.Receive, under the lock
    | Increment                       // IncrementSequenceId
    | Poll(limit: int)                // QueryEvents, and the reader replays the page

  const INIT := State([], 0, 0, map[], {})

  function Query(s: State, limit: int): EventQuery {
    EventQuery(None, None, None, s.sinceSeq, limit, true)
  }

  function Page(s: State, capacity: nat, limit: int): seq<StoredEvent> {
    Answer(ViewOf(s.log, capacity), Query(s, limit))
  }

  function BoundaryOf(s: State, capacity: nat): nat { ViewOf(s.log, capacity).compactionSeq }

  // Deletes that have been evicted unread, of resources the reader holds.
  function Jumped(s: State, capacity: nat): set<nat> {
    set i | 0 <= i < |s.log| && s.sinceSeq < s.log[i].sequenceId <= BoundaryOf(s, capacity)
            && s.log[i].ev.op == DeleteOperation && KeyOf(Stored(s.log[i])) in s.replica
  }

  predicate Enabled(a: Action) { a.Append? ==> a.ev.resType.Declared() }

  function Step(s: State, capacity: nat, a: Action): State {
    match a
    case Append(at, ev) => s.(log := s.log + [History.Record(s.current + 1, at, ev)], current := s.current + 1)
    case Increment => s.(current := s.current + 1)
    case Poll(limit) =>
      var page := Page(s, capacity, limit);
      if page == [] then s
      else
        s.(replica := Received(s.replica, page),
           sinceSeq := page[|page| - 1].sequenceId,
           missed := s.missed + Jumped(s, capacity))
  }

  predicate Runnable(actions: seq<Action>) { forall i :: 0 <= i < |actions| ==> Enabled(actions[i]) }

  function Run(s: State, capacity: nat, actions: seq<Action>): State
    decreases |actions|
  {
    if actions == [] then s else Run(Step(s, capacity, actions[0]), capacity, actions[1..])
  }

  // What the reader still has to hear, evicted or not.
  function Unread(s: State): seq<StoredEvent> { Beyond(StoredLog(s.log), s.sinceSeq) }

  // The resource's last change is a Delete that was jumped over.
  ghost predicate LeftOver(s: State, w: WireKey) {
    exists i :: i in s.missed && i < |s.log| && IsLastOf(StoredLog(s.log), i, w) && s.log[i].ev.op == DeleteOperation
  }

  // Exactly the latest state, and what is left over.
  ghost predicate Complete(s: State, end: map<WireKey, Payload>) {
    && (forall w :: w in WireState(s.log) ==> At(end, w) == At(WireState(s.log), w))
    && (forall w :: w in end && w !in WireState(s.log) <==> LeftOver(s, w))
  }

  ghost predicate Inv(s: State, capacity: nat) {
    && Numbered(s.log, s.current) && Declared(s.log)
    && s.sinceSeq <= s.current
    && (s.sinceSeq == 0 ==> s.replica == map[])
    && (forall i :: i in s.missed ==> i < Evicted(|s.log|, capacity) && s.log[i].sequenceId <= s.sinceSeq)
    && Complete(s, Received(s.replica, Unread(s)))
  }

  lemma {:induction false} BeyondConcat(a: seq<StoredEvent>, b: seq<StoredEvent>, sinceSeq: nat)
    ensures Beyond(a + b, sinceSeq) == Beyond(a, sinceSeq) + Beyond(b, sinceSeq)
  {
    if a == [] {
      assert a + b == b;
    } else {
      assert (a + b)[1..] == a[1..] + b;
      BeyondConcat(a[1..], b, sinceSeq);
    }
  }

  lemma {:induction false} BeyondAllOrNone(evs: seq<StoredEvent>, sinceSeq: nat)
    ensures (forall i :: 0 <= i < |evs| ==> evs[i].sequenceId <= sinceSeq) ==> Beyond(evs, sinceSeq) == []
    ensures (forall i :: 0 <= i < |evs| ==> evs[i].sequenceId > sinceSeq) ==> Beyond(evs, sinceSeq) == evs
  {
    if evs == [] {
    } else {
      BeyondAllOrNone(evs[1..], sinceSeq);
    }
  }

  // For this query, selecting is keeping what lies beyond SinceSeq.
  lemma {:induction false} SelectIsBeyond(q: EventQuery, evs: seq<StoredEvent>)
    requires q.Everything()
    ensures Select(q, evs) == Beyond(evs, q.sinceSeq)
  {
    if evs == [] {
    } else {
      SelectIsBeyond(q, evs[1..]);
    }
  }

  // Nothing at or below the boundary is unread once SinceSeq has reached it.
  lemma UnreadIsRetained(s: State, capacity: nat)
    requires Numbered(s.log, s.current) && s.sinceSeq >= BoundaryOf(s, capacity)
    ensures Unread(s) == Beyond(ViewOf(s.log, capacity).tail, s.sinceSeq)
  {
    var l, e := StoredLog(s.log), Evicted(|s.log|, capacity);
    TailIsSuffix(s.log, capacity, s.current);
    BeyondConcat(l[..e], ViewOf(s.log, capacity).tail, s.sinceSeq);
    BeyondAllOrNone(l[..e], s.sinceSeq);
  }

  // ---------- Recording ----------

  lemma AppendUnread(s: State, r: Record)
    requires r.sequenceId > s.sinceSeq
    ensures Beyond(StoredLog(s.log + [r]), s.sinceSeq) == Unread(s) + [Stored(r)]
    ensures StoredLog(s.log + [r]) == StoredLog(s.log) + [Stored(r)]
  {
    assert StoredLog(s.log + [r]) == StoredLog(s.log) + [Stored(r)];
    BeyondConcat(StoredLog(s.log), [Stored(r)], s.sinceSeq);
    BeyondAllOrNone([Stored(r)], s.sinceSeq);
  }

  lemma AppendLeftOver(s: State, r: Record, w: WireKey)
    requires forall i :: i in s.missed ==> i < |s.log|
    ensures LeftOver(s.(log := s.log + [r]), w) <==> LeftOver(s, w) && KeyOf(Stored(r)) != w
  {
    var s' := s.(log := s.log + [r]);
    var l, l' := StoredLog(s.log), StoredLog(s'.log);
    assert l' == l + [Stored(r)];
    if LeftOver(s', w) {
      var i :| i in s.missed && i < |s'.log| && IsLastOf(l', i, w) && s'.log[i].ev.op == DeleteOperation;
      assert l'[|l|] == Stored(r) && forall j :: i <= j < |l| ==> l'[j] == l[j];
      assert IsLastOf(l, i, w) && s.log[i].ev.op == DeleteOperation;
    }
    if LeftOver(s, w) && KeyOf(Stored(r)) != w {
      var i :| i in s.missed && i < |s.log| && IsLastOf(l, i, w) && s.log[i].ev.op == DeleteOperation;
      assert IsLastOf(l', i, w) && s'.log[i].ev.op == DeleteOperation;
    }
  }

  lemma ReceivedOne(m: map<WireKey, Payload>, evs: seq<StoredEvent>, ev: StoredEvent)
    ensures Received(m, evs + [ev]) == Apply(Received(m, evs), WireChange(ev))
  {
    assert WireChanges(evs + [ev]) == WireChanges(evs) + [WireChange(ev)];
    ReplayAppend(m, WireChanges(evs), WireChange(ev));
  }

  lemma RecordKeepsInv(s: State, capacity: nat, at: Time, ev: Event)
    requires Inv(s, capacity) && ev.resType.Declared()
    ensures Inv(Step(s, capacity, Append(at, ev)), capacity)
  {
    var r := History.Record(s.current + 1, at, ev);
    AppendKeepsInv(s, Step(s, capacity, Append(at, ev)), capacity, r);
  }

  lemma AppendKeepsInv(s: State, s': State, capacity: nat, r: Record)
    requires Inv(s, capacity) && r.sequenceId == s.current + 1 && r.ev.resType.Declared()
    requires s' == s.(log := s.log + [r], current := r.sequenceId)
    ensures Inv(s', capacity)
  {
    AppendUnread(s, r);
    StillNumbered(s.log, r, s.current);
    StillMissed(s, capacity, r);
    RecordCompletes(s, r);
  }

  lemma StillMissed(s: State, capacity: nat, r: Record)
    requires forall i :: i in s.missed ==> i < Evicted(|s.log|, capacity) && s.log[i].sequenceId <= s.sinceSeq
    ensures forall i :: i in s.missed ==>
              i < Evicted(|s.log + [r]|, capacity) && (s.log + [r])[i].sequenceId <= s.sinceSeq
  {
  }

  lemma StillNumbered(log: seq<Record>, r: Record, current: nat)
    requires Numbered(log, current) && Declared(log) && r.sequenceId == current + 1 && r.ev.resType.Declared()
    ensures Numbered(log + [r], current + 1) && Declared(log + [r])
  {
  }

  lemma RecordCompletes(s: State, r: Record)
    requires Complete(s, Received(s.replica, Unread(s))) && forall i :: i in s.missed ==> i < |s.log|
    ensures Complete(s.(log := s.log + [r], current := r.sequenceId), Received(s.replica, Unread(s) + [Stored(r)]))
  {
    var s' := s.(log := s.log + [r], current := r.sequenceId);
    var end := Received(s.replica, Unread(s));
    ReceivedOne(s.replica, Unread(s), Stored(r));
    assert StoredLog(s'.log) == StoredLog(s.log) + [Stored(r)];
    ReceivedOne(map[], StoredLog(s.log), Stored(r));
    var c := WireChange(Stored(r));
    assert WireState(s'.log) == Apply(WireState(s.log), c);
    forall w ensures LeftOver(s', w) <==> LeftOver(s, w) && c.key != w {
      AppendLeftOver(s, r, w);
      assert LeftOver(s', w) == LeftOver(s.(log := s.log + [r]), w);
    }
    forall w | w in WireState(s'.log) ensures At(Apply(end, c), w) == At(WireState(s'.log), w) {
      assert c.key != w ==> w in WireState(s.log);
    }
    forall w ensures w in Apply(end, c) && w !in WireState(s'.log) <==> LeftOver(s', w) {
      assert c.key != w ==> (w in end && w !in WireState(s.log) <==> LeftOver(s, w));
    }
  }

  // ---------- Polling ----------

  // A page followed by the tail beyond it is the whole answer.
  lemma PageThenRest(v: View, q: EventQuery, m: map<WireKey, Payload>)
    requires WellFormed(v) && q.Everything() && Answer(v, q) != []
    ensures Received(Received(m, Answer(v, q)), Beyond(v.tail, Next(v, q).sinceSeq)) == Received(m, Matching(v, q))
  {
    PageAdvances(v, q);
    RestOfAnswer(v, q);
    ReceivedConcat(m, Answer(v, q), Matching(v, Next(v, q)));
    SelectIsBeyond(Next(v, q), v.tail);
    assert Select(Next(v, q), Prefix(v, Next(v, q).sinceSeq)) == [];
    assert Matching(v, Next(v, q)) == Select(Next(v, q), v.tail);
  }

  lemma PageIds(v: View, q: EventQuery, current: nat)
    requires Answer(v, q) != [] && v.compactionSeq <= current
    requires forall ev :: ev in v.tail ==> ev.sequenceId <= current
    ensures Next(v, q).sinceSeq <= current
  {
    var prefix, page := Select(q, Prefix(v, q.sinceSeq)), Answer(v, q);
    var last := page[|page| - 1];
    if |page| <= |prefix| {
      assert last == prefix[|page| - 1];
      EndsInPrefix(v, q, last);
    } else {
      assert last == Select(q, v.tail)[|page| - 1 - |prefix|];
      assert last in Select(q, v.tail);
      SelectMembers(q, v.tail);
    }
  }

  lemma ViewWithin(log: seq<Record>, capacity: nat, current: nat)
    requires Numbered(log, current)
    ensures var v := ViewOf(log, capacity);
            WellFormed(v) && v.compactionSeq <= current && forall ev :: ev in v.tail ==> ev.sequenceId <= current
  {
    TailIsSuffix(log, capacity, current);
  }

  lemma PageMovesReader(s: State, capacity: nat, limit: int)
    requires Numbered(s.log, s.current) && Page(s, capacity, limit) != []
    ensures var since := Step(s, capacity, Poll(limit)).sinceSeq;
            && since == Next(ViewOf(s.log, capacity), Query(s, limit)).sinceSeq
            && s.sinceSeq < since && BoundaryOf(s, capacity) <= since <= s.current
  {
    ViewWithin(s.log, capacity, s.current);
    PageIds(ViewOf(s.log, capacity), Query(s, limit), s.current);
    PageAdvances(ViewOf(s.log, capacity), Query(s, limit));
  }

  // After a page, what the reader holds and has still to hear comes to what the whole answer does.
  lemma PageThenUnread(s: State, capacity: nat, limit: int)
    requires Inv(s, capacity) && Page(s, capacity, limit) != []
    ensures var s' := Step(s, capacity, Poll(limit));
            Received(s'.replica, Unread(s')) == Received(s.replica, Matching(ViewOf(s.log, capacity), Query(s, limit)))
  {
    PageMovesReader(s, capacity, limit);
    UnreadIsRetained(Step(s, capacity, Poll(limit)), capacity);
    TailIsSuffix(s.log, capacity, s.current);
    PageThenRest(ViewOf(s.log, capacity), Query(s, limit), s.replica);
  }

  // A poll from at or past the boundary jumps over nothing.
  lemma PollInTime(s: State, capacity: nat, limit: int)
    requires Inv(s, capacity) && s.sinceSeq >= BoundaryOf(s, capacity) && Page(s, capacity, limit) != []
    ensures Inv(Step(s, capacity, Poll(limit)), capacity)
  {
    var s', v, q := Step(s, capacity, Poll(limit)), ViewOf(s.log, capacity), Query(s, limit);
    PageMovesReader(s, capacity, limit);
    PageThenUnread(s, capacity, limit);
    UnreadIsRetained(s, capacity);
    SelectIsBeyond(q, v.tail);
    assert Matching(v, q) == Unread(s);
    assert Jumped(s, capacity) == {} && s'.missed == s.missed;
    forall w ensures LeftOver(s', w) == LeftOver(s, w) {}
  }

  // ---------- Polling from below the boundary ----------

  lemma {:induction false} LastOfExists(l: seq<StoredEvent>, w: WireKey) returns (i: nat)
    requires w in KeysOf(l)
    ensures i < |l| && IsLastOf(l, i, w)
  {
    if KeyOf(l[|l| - 1]) == w {
      i := |l| - 1;
    } else {
      var j :| 0 <= j < |l| && KeyOf(l[j]) == w;
      assert KeyOf(l[..|l| - 1][j]) == w;
      i := LastOfExists(l[..|l| - 1], w);
    }
  }

  lemma {:induction false} LastOfDecides(l: seq<StoredEvent>, i: nat, w: WireKey)
    requires i < |l| && IsLastOf(l, i, w)
    ensures Effect(WireChanges(l), w) == if l[i].operation == "Delete" then Gone else Has(l[i].objects)
  {
    assert WireChanges(l)[..|l| - 1] == WireChanges(l[..|l| - 1]);
    if i == |l| - 1 {
    } else {
      LastOfDecides(l[..|l| - 1], i, w);
    }
  }

  // The unread events say of a resource what the log says last, if that is unread, and nothing else.
  lemma {:induction false} UnreadDecides(l: seq<StoredEvent>, since: nat, i: nat, w: WireKey)
    requires Ascending(l) && i < |l| && IsLastOf(l, i, w)
    ensures Effect(WireChanges(Beyond(l, since)), w) ==
              if l[i].sequenceId <= since then Untouched else if l[i].operation == "Delete" then Gone else Has(l[i].objects)
  {
    var init, last := l[..|l| - 1], l[|l| - 1];
    assert l == init + [last];
    if i == |l| - 1 {
      UnreadEndsWith(init, last, since);
      EffectLast(Beyond(init, since), last, w);
    } else {
      assert IsLastOf(init, i, w) && KeyOf(last) != w && init[i] == l[i];
      UnreadDecides(init, since, i, w);
      BeyondConcat(init, [last], since);
      BeyondAllOrNone([last], since);
      EffectLast(Beyond(init, since), last, w);
      assert Beyond(init, since) + [] == Beyond(init, since);
    }
  }

  lemma UnreadEndsWith(init: seq<StoredEvent>, last: StoredEvent, since: nat)
    requires Ascending(init + [last])
    ensures Beyond(init + [last], since) == if last.sequenceId > since then Beyond(init, since) + [last] else []
  {
    var l := init + [last];
    BeyondConcat(init, [last], since);
    BeyondAllOrNone([last], since);
    if last.sequenceId <= since {
      forall j | 0 <= j < |init| ensures init[j].sequenceId <= since {
        assert l[j].sequenceId < l[|init|].sequenceId;
      }
      BeyondAllOrNone(init, since);
    }
  }

  lemma EffectLast(evs: seq<StoredEvent>, ev: StoredEvent, w: WireKey)
    ensures Effect(WireChanges(evs + [ev]), w) ==
              if KeyOf(ev) != w then Effect(WireChanges(evs), w)
              else if ev.operation == "Delete" then Gone else Has(ev.objects)
  {
    var cs := WireChanges(evs + [ev]);
    assert cs == WireChanges(evs) + [WireChange(ev)] && cs[..|cs| - 1] == WireChanges(evs);
  }

  // A resource that the log does not name is not named by what is unread.
  lemma {:induction false} UnreadOnlyNames(l: seq<StoredEvent>, since: nat, w: WireKey)
    requires w !in KeysOf(l)
    ensures Effect(WireChanges(Beyond(l, since)), w).Untouched?
  {
    if l == [] {
    } else {
      assert KeyOf(l[0]) != w;
      forall i | 0 <= i < |l[1..]| ensures KeyOf(l[1..][i]) != w { assert l[i + 1] == l[1..][i]; }
      UnreadOnlyNames(l[1..], since, w);
      var head := if l[0].sequenceId > since then [l[0]] else [];
      assert WireChanges(head + Beyond(l[1..], since)) == WireChanges(head) + WireChanges(Beyond(l[1..], since));
      EffectConcat(WireChanges(head), WireChanges(Beyond(l[1..], since)), w);
      EffectTouched(WireChanges(head), w);
    }
  }

  lemma TailNames(s: State, capacity: nat, i: nat, w: WireKey)
    requires i < |s.log| && IsLastOf(StoredLog(s.log), i, w)
    ensures w in KeysOf(ViewOf(s.log, capacity).tail) <==> i >= Evicted(|s.log|, capacity)
  {
    var l, e, tail := StoredLog(s.log), Evicted(|s.log|, capacity), ViewOf(s.log, capacity).tail;
    if i >= e { assert tail[i - e] == l[i]; }
    if w in KeysOf(tail) {
      var j :| 0 <= j < |tail| && KeyOf(tail[j]) == w;
      assert l[e + j] == tail[j];
    }
  }

  lemma EvictedMeans(s: State, capacity: nat, i: nat)
    requires Numbered(s.log, s.current) && i < |s.log|
    ensures i < Evicted(|s.log|, capacity) <==> s.log[i].sequenceId <= BoundaryOf(s, capacity)
  {
    var e, l, tail := Evicted(|s.log|, capacity), StoredLog(s.log), ViewOf(s.log, capacity).tail;
    TailIsSuffix(s.log, capacity, s.current);
    SplitMeans(l, e, tail, BoundaryOf(s, capacity), s.current, i);
    assert l[i].sequenceId == s.log[i].sequenceId;
  }

  lemma SplitMeans(l: seq<StoredEvent>, e: nat, tail: seq<StoredEvent>, boundary: nat, current: nat, i: nat)
    requires SplitAt(l, e, tail, boundary, current) && i < |l|
    ensures i < e <==> l[i].sequenceId <= boundary
  {
    if i >= e { assert l[i] == tail[i - e]; }
  }

  // What the whole answer leaves in the reader's hands that is not live is what is then left over.
  lemma LateLeft(s: State, capacity: nat, s': State, w: WireKey)
    requires Inv(s, capacity) && s.sinceSeq < BoundaryOf(s, capacity)
    requires s'.log == s.log && s'.missed == s.missed + Jumped(s, capacity)
    ensures w in s.replica && w !in KeysOf(ViewOf(s.log, capacity).tail) && w !in WireState(s.log) <==> LeftOver(s', w)
  {
    var l, held := StoredLog(s.log), w in s.replica && w !in KeysOf(ViewOf(s.log, capacity).tail) && w !in WireState(s.log);
    assert Ascending(l) by {
      forall i, j | 0 <= i < j < |l| ensures l[i].sequenceId < l[j].sequenceId { assert s.log[i].sequenceId < s.log[j].sequenceId; }
    }
    ReplayAt(s.replica, WireChanges(Unread(s)), w);
    if w in KeysOf(l) {
      var i := LastOfExists(l, w);
      LateLeftNamed(s, capacity, s', w, i);
    } else {
      UnreadOnlyNames(l, s.sinceSeq, w);
      NeverNamed(s, w);
      NeverNamed(s', w);
    }
  }

  lemma NeverNamed(s: State, w: WireKey)
    requires w !in KeysOf(StoredLog(s.log))
    ensures !LeftOver(s, w) && w !in WireState(s.log)
  {
    KeysAreTouched(StoredLog(s.log), w);
    ReplayAt(map[], WireChanges(StoredLog(s.log)), w);
  }

  lemma LateLeftNamed(s: State, capacity: nat, s': State, w: WireKey, i: nat)
    requires Inv(s, capacity) && s.sinceSeq < BoundaryOf(s, capacity) && Ascending(StoredLog(s.log))
    requires s'.log == s.log && s'.missed == s.missed + Jumped(s, capacity)
    requires i < |s.log| && IsLastOf(StoredLog(s.log), i, w)
    ensures w in s.replica && w !in KeysOf(ViewOf(s.log, capacity).tail) && w !in WireState(s.log) <==> LeftOver(s', w)
  {
    var l := StoredLog(s.log);
    TailNames(s, capacity, i, w);
    EvictedMeans(s, capacity, i);
    LastOfDecides(l, i, w);
    ReplayAt(map[], WireChanges(l), w);
    UnreadDecides(l, s.sinceSeq, i, w);
    ReplayAt(s.replica, WireChanges(Unread(s)), w);
    OnlyLast(s, w, i);
    OnlyLast(s', w, i);
    assert l[i] == Stored(s.log[i]);
    assert (l[i].operation == "Delete") == (s.log[i].ev.op == DeleteOperation) by { DeleteNames(s.log[i].ev.op); }
  }

  lemma DeleteNames(op: Operation)
    ensures op.WireOperation() == "Delete" <==> op == DeleteOperation
  {
  }

  lemma OnlyLast(s: State, w: WireKey, i: nat)
    requires i < |s.log| && IsLastOf(StoredLog(s.log), i, w)
    ensures LeftOver(s, w) <==> i in s.missed && s.log[i].ev.op == DeleteOperation
  {
    if LeftOver(s, w) {
      var j :| j in s.missed && j < |s.log| && IsLastOf(StoredLog(s.log), j, w) && s.log[j].ev.op == DeleteOperation;
      assert i == j;
    }
  }

  lemma PollLate(s: State, capacity: nat, limit: int)
    requires Inv(s, capacity) && s.sinceSeq < BoundaryOf(s, capacity) && Page(s, capacity, limit) != []
    ensures Inv(Step(s, capacity, Poll(limit)), capacity)
  {
    var s' := Step(s, capacity, Poll(limit));
    PageMovesReader(s, capacity, limit);
    PageThenUnread(s, capacity, limit);
    StaleReaderCatchesUp(s.log, capacity, s.current, Query(s, limit), s.replica);
    forall i | i in s'.missed ensures i < Evicted(|s.log|, capacity) && s.log[i].sequenceId <= s'.sinceSeq {
      if i in Jumped(s, capacity) { EvictedMeans(s, capacity, i); }
    }
    forall w ensures w in Refreshed(s.replica, s.log, capacity) && w !in WireState(s.log) <==> LeftOver(s', w) {
      LateLeft(s, capacity, s', w);
    }
  }

  // ---------- Runs ----------

  lemma StepKeepsInv(s: State, capacity: nat, a: Action)
    requires Inv(s, capacity) && Enabled(a)
    ensures Inv(Step(s, capacity, a), capacity)
  {
    match a
    case Append(at, ev) => RecordKeepsInv(s, capacity, at, ev);
    case Increment =>
      var s' := Step(s, capacity, a);
      forall w ensures LeftOver(s', w) == LeftOver(s, w) {}
    case Poll(limit) =>
      if Page(s, capacity, limit) != [] {
        if s.sinceSeq < BoundaryOf(s, capacity) { PollLate(s, capacity, limit); } else { PollInTime(s, capacity, limit); }
      }
  }

  // In every run, whatever is recorded, evicted or paged in between, and however late the reader
  // polls: replaying the events it has not been sent on what it holds gives the latest state, and on
  // top of it exactly what is left over.
  lemma {:induction false} TailingInvariant(s: State, capacity: nat, actions: seq<Action>)
    requires Inv(s, capacity) && Runnable(actions)
    ensures Inv(Run(s, capacity, actions), capacity)
    decreases |actions|
  {
    if actions == [] {
    } else {
      StepKeepsInv(s, capacity, actions[0]);
      TailingInvariant(Step(s, capacity, actions[0]), capacity, actions[1..]);
    }
  }

  // So while its SinceSeq is not below the boundary, the retained events after it complete the
  // reader's copy; and it becomes exactly the latest state if and only if nothing is left over.
  lemma LiveTailing(capacity: nat, actions: seq<Action>)
    requires Runnable(actions)
    ensures var s := Run(INIT, capacity, actions); var v := ViewOf(s.log, capacity);
            var end := Received(s.replica, Beyond(v.tail, s.sinceSeq));
            s.sinceSeq >= v.compactionSeq ==>
              && Complete(s, end)
              && (Beyond(v.tail, s.sinceSeq) == [] ==> end == s.replica)
              && (end == WireState(s.log) <==> forall w :: !LeftOver(s, w))
  {
    InitInv(capacity);
    TailingInvariant(INIT, capacity, actions);
    var s := Run(INIT, capacity, actions);
    if s.sinceSeq >= BoundaryOf(s, capacity) {
      UnreadIsRetained(s, capacity);
      ExactWhenNothingLeft(s, Received(s.replica, Unread(s)));
    }
  }

  lemma InitInv(capacity: nat)
    ensures Inv(INIT, capacity)
  {
  }

  lemma ExactWhenNothingLeft(s: State, end: map<WireKey, Payload>)
    requires Complete(s, end)
    ensures end == WireState(s.log) <==> forall w :: !LeftOver(s, w)
  {
    if forall w :: !LeftOver(s, w) {
      forall w ensures At(end, w) == At(WireState(s.log), w) {}
      SameAt(end, WireState(s.log));
    }
  }

  // ---------- Readers that poll in time ----------

  // Every poll but those before anything has been received comes before the ring has let go of
  // anything unread.
  predicate InTime(s: State, capacity: nat, actions: seq<Action>)
    decreases |actions|
  {
    actions == [] ||
    ((actions[0].Poll? ==> s.sinceSeq == 0 || s.sinceSeq >= BoundaryOf(s, capacity))
     && InTime(Step(s, capacity, actions[0]), capacity, actions[1..]))
  }

  lemma {:induction false} InTimeMissesNothing(s: State, capacity: nat, actions: seq<Action>)
    requires Inv(s, capacity) && Runnable(actions) && InTime(s, capacity, actions) && s.missed == {}
    ensures Run(s, capacity, actions).missed == {}
    decreases |actions|
  {
    if actions == [] {
    } else {
      StepKeepsInv(s, capacity, actions[0]);
      InTimeMissesNothing(Step(s, capacity, actions[0]), capacity, actions[1..]);
    }
  }

  // Its copy is exactly the latest state whenever it has read everything.
  lemma TailingInTime(capacity: nat, actions: seq<Action>)
    requires Runnable(actions) && InTime(INIT, capacity, actions)
    ensures var s := Run(INIT, capacity, actions); var v := ViewOf(s.log, capacity);
            s.sinceSeq >= v.compactionSeq ==>
              && Received(s.replica, Beyond(v.tail, s.sinceSeq)) == WireState(s.log)
              && (Beyond(v.tail, s.sinceSeq) == [] ==> s.replica == WireState(s.log))
  {
    InitInv(capacity);
    InTimeMissesNothing(INIT, capacity, actions);
    LiveTailing(capacity, actions);
  }
}
