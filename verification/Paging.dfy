// Reading history page by page: a client that repeats its query with SinceSeq set to the last id
// it was given, while nothing is recorded, gets every matching entry exactly once.
module Paging {
  import opened Events
  import opened HistoryRings
  import opened History
  import opened Queries

  // How much a client has still to read: the tail entries beyond SinceSeq, and one for a
  // synthetic prefix that it has not been sent yet.
  function Pending(v: View, sinceSeq: nat): nat {
    |Beyond(v.tail, sinceSeq)| + if sinceSeq < v.compactionSeq then 1 else 0
  }

  function Beyond(evs: seq<StoredEvent>, sinceSeq: nat): seq<StoredEvent> {
    if evs == [] then []
    else (if evs[0].sequenceId > sinceSeq then [evs[0]] else []) + Beyond(evs[1..], sinceSeq)
  }

  function Next(v: View, q: EventQuery): EventQuery
    requires Answer(v, q) != []
  {
    q.(sinceSeq := Answer(v, q)[|Answer(v, q)| - 1].sequenceId)
  }

  // All pages, one after the other, until one comes back empty.
  function Pages(v: View, q: EventQuery): seq<StoredEvent>
    requires WellFormed(v)
    decreases Pending(v, q.sinceSeq)
  {
    if Answer(v, q) == [] then []
    else
      PageAdvances(v, q);
      Answer(v, q) + Pages(v, Next(v, q))
  }

  // The prefix is never cut; the page holds no more than the limit unless the prefix fills it, in
  // which case one tail match still follows; and a page that holds less is the last one.
  lemma PageShape(v: View, q: EventQuery)
    ensures var s, t, page := Select(q, Prefix(v, q.sinceSeq)), Select(q, v.tail), Answer(v, q);
            && s <= page <= s + t
            && (|s| < q.PageSize() ==> |page| <= q.PageSize())
            && (|s| >= q.PageSize() ==> |page| == |s| + if t == [] then 0 else 1)
            && (page == s ==> t == [])
            && (|page| < q.PageSize() ==> page == s + t)
  {
  }

  lemma {:induction false} BeyondShrinks(evs: seq<StoredEvent>, lo: nat, hi: nat)
    requires lo <= hi
    ensures |Beyond(evs, hi)| <= |Beyond(evs, lo)|
    ensures (exists i :: 0 <= i < |evs| && lo < evs[i].sequenceId <= hi) ==> |Beyond(evs, hi)| < |Beyond(evs, lo)|
  {
    if evs == [] {
    } else {
      BeyondShrinks(evs[1..], lo, hi);
    }
  }

  lemma {:induction false} SelectMembers(q: EventQuery, evs: seq<StoredEvent>)
    ensures forall s :: s in Select(q, evs) ==> exists ev :: ev in evs && q.Matches(ev) && s == q.Entry(ev)
  {
    if evs == [] {
    } else {
      SelectMembers(q, evs[1..]);
      forall s | s in Select(q, evs) ensures exists ev :: ev in evs && q.Matches(ev) && s == q.Entry(ev) {
        if s in Select(q, evs[1..]) {
          var ev :| ev in evs[1..] && q.Matches(ev) && s == q.Entry(ev);
          assert ev in evs;
        } else {
          assert evs[0] in evs;
        }
      }
    }
  }

  // A page ends inside the tail, or delivers the prefix when the tail has no match left.
  lemma PageAdvances(v: View, q: EventQuery)
    requires WellFormed(v) && Answer(v, q) != []
    ensures Next(v, q).sinceSeq > q.sinceSeq && Next(v, q).sinceSeq >= v.compactionSeq
    ensures Pending(v, Next(v, q).sinceSeq) < Pending(v, q.sinceSeq)
  {
    var s, t, page := Select(q, Prefix(v, q.sinceSeq)), Select(q, v.tail), Answer(v, q);
    var last := page[|page| - 1];
    if |page| <= |s| {
      assert last == s[|page| - 1];
      EndsInPrefix(v, q, last);
    } else {
      assert last == t[|page| - 1 - |s|];
      EndsInTail(v, q, last);
    }
  }

  lemma EndsInPrefix(v: View, q: EventQuery, last: StoredEvent)
    requires last in Select(q, Prefix(v, q.sinceSeq))
    ensures q.sinceSeq < v.compactionSeq == last.sequenceId
    ensures Pending(v, last.sequenceId) < Pending(v, q.sinceSeq)
  {
    SelectMembers(q, Prefix(v, q.sinceSeq));
    PrefixIds(v, v.live);
    BeyondShrinks(v.tail, q.sinceSeq, v.compactionSeq);
  }

  lemma EndsInTail(v: View, q: EventQuery, last: StoredEvent)
    requires WellFormed(v) && last in Select(q, v.tail)
    ensures last.sequenceId > q.sinceSeq && last.sequenceId > v.compactionSeq
    ensures Pending(v, last.sequenceId) < Pending(v, q.sinceSeq)
  {
    SelectMembers(q, v.tail);
    var i :| 0 <= i < |v.tail| && v.tail[i].sequenceId == last.sequenceId > q.sinceSeq;
    BeyondShrinks(v.tail, q.sinceSeq, last.sequenceId);
  }

  // Past its nth entry, a selection from ascending entries is what is left of it.
  lemma {:induction false} SelectResumes(q: EventQuery, evs: seq<StoredEvent>, n: nat)
    requires Ascending(evs) && 0 < n <= |Select(q, evs)|
    ensures Select(q.(sinceSeq := Select(q, evs)[n - 1].sequenceId), evs) == Select(q, evs)[n..]
  {
    var rest := Select(q, evs[1..]);
    if q.Matches(evs[0]) && n == 1 {
      SameSelection(q, q.(sinceSeq := evs[0].sequenceId), evs[1..]);
    } else {
      var m := if q.Matches(evs[0]) then n - 1 else n;
      assert Select(q, evs) == (if q.Matches(evs[0]) then [q.Entry(evs[0])] else []) + rest;
      assert Select(q, evs)[n - 1] == rest[m - 1];
      assert Select(q, evs)[n..] == rest[m..];
      SelectResumes(q, evs[1..], m);
      SelectedLater(q, evs, rest[m - 1]);
    }
  }

  lemma SelectedLater(q: EventQuery, evs: seq<StoredEvent>, s: StoredEvent)
    requires Ascending(evs) && evs != [] && s in Select(q, evs[1..])
    ensures evs[0].sequenceId < s.sequenceId
  {
    SelectMembers(q, evs[1..]);
    var ev :| ev in evs[1..] && s == q.Entry(ev);
    var i :| 0 <= i < |evs[1..]| && evs[1..][i] == ev;
    assert evs[i + 1] == ev;
  }

  lemma {:induction false} SameSelection(q: EventQuery, r: EventQuery, evs: seq<StoredEvent>)
    requires r == q.(sinceSeq := r.sinceSeq)
    requires forall i :: 0 <= i < |evs| ==> (evs[i].sequenceId > q.sinceSeq <==> evs[i].sequenceId > r.sinceSeq)
    ensures Select(q, evs) == Select(r, evs)
  {
    if evs == [] {
    } else {
      SameSelection(q, r, evs[1..]);
    }
  }

  // What follows a page is exactly what the page left out.
  lemma RestOfAnswer(v: View, q: EventQuery)
    requires WellFormed(v) && Answer(v, q) != []
    ensures Answer(v, q) + Matching(v, Next(v, q)) == Matching(v, q)
  {
    var s, t := Select(q, Prefix(v, q.sinceSeq)), Select(q, v.tail);
    var n := CutPoint(s, t, q.PageSize());
    TailResumes(v, q, n);
    Rejoin(s, t, n);
  }

  lemma CutPoint(prefix: seq<StoredEvent>, matches: seq<StoredEvent>, pageSize: nat) returns (n: nat)
    requires pageSize > 0
    ensures n <= |matches| && (n == 0 ==> matches == [])
    ensures Cut(prefix, matches, pageSize) == prefix + matches[..n]
    ensures |Cut(prefix, matches, pageSize)| == |prefix| + n
  {
    var room := if |prefix| < pageSize then pageSize - |prefix| else 1;
    n := if room <= |matches| then room else |matches|;
  }

  lemma Rejoin(s: seq<StoredEvent>, t: seq<StoredEvent>, n: nat)
    requires n <= |t|
    ensures s + t[..n] + t[n..] == s + t
  {
  }

  lemma TailResumes(v: View, q: EventQuery, n: nat)
    requires WellFormed(v) && Answer(v, q) != []
    requires |Answer(v, q)| == |Select(q, Prefix(v, q.sinceSeq))| + n && n <= |Select(q, v.tail)|
    requires Answer(v, q) == Select(q, Prefix(v, q.sinceSeq)) + Select(q, v.tail)[..n]
    requires n == 0 ==> Select(q, v.tail) == []
    ensures Matching(v, Next(v, q)) == Select(q, v.tail)[n..]
  {
    var page := Answer(v, q);
    PageAdvances(v, q);
    assert Matching(v, Next(v, q)) == Select(Next(v, q), v.tail);
    if n == 0 {
      EndsInPrefix(v, q, page[|page| - 1]);
      SameSelection(q, Next(v, q), v.tail);
    } else {
      SelectResumes(q, v.tail, n);
    }
  }

  // For every positive page size (a limit of zero or less means 100) and every filter.
  lemma {:induction false} PagesDeliverEverythingOnce(v: View, q: EventQuery)
    requires WellFormed(v)
    ensures Pages(v, q) == Matching(v, q)
    decreases Pending(v, q.sinceSeq)
  {
    if Answer(v, q) == [] {
    } else {
      PageAdvances(v, q);
      RestOfAnswer(v, q);
      PagesDeliverEverythingOnce(v, Next(v, q));
      assert Answer(v, q) + Pages(v, Next(v, q)) == Matching(v, q);
    }
  }

  // Rebuilding and catching up page by page, with pages of any size.
  lemma PagedReaderCatchesUp(log: seq<Record>, capacity: nat, current: nat, q: EventQuery, m: map<WireKey, Payload>)
    requires Numbered(log, current) && Declared(log) && q.Everything()
    ensures var v := ViewOf(log, capacity);
            && WellFormed(v)
            && (q.sinceSeq < v.compactionSeq ==> Received(m, Pages(v, q)) == Refreshed(m, log, capacity))
            && (q.sinceSeq == 0 ==> Received(map[], Pages(v, q)) == WireState(log))
  {
    TailIsSuffix(log, capacity, current);
    PagesDeliverEverythingOnce(ViewOf(log, capacity), q);
    StaleReaderCatchesUp(log, capacity, current, q, m);
    if q.sinceSeq == 0 { Reconstruction(log, capacity, current, q); }
  }
}
