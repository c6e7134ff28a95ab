// What the event manager's own fields are of the whole system of Subscriptions.dfy, namely the log
// and the list of registered subscribers; and that each critical section of the manager is a step
// of that system.
module SystemView {
  import opened Wrappers
  import opened Events
  import opened LatestState
  import opened History
  import opened Subscriptions
  import opened HistoryRings
  import opened Manager

  ghost predicate Mirrors(s: State, log: seq<Record>, urls: seq<string>) {
    s.log == Changes(EventsOf(log)) && Listed(s, urls)
  }

  ghost predicate Listed(s: State, urls: seq<string>) {
    && |urls| == |s.notifiers|
    && forall i :: 0 <= i < |urls| ==> s.notifiers[i] < |s.subs| && s.subs[s.notifiers[i]].url == urls[i]
  }

  lemma KnownUrl(s: State, urls: seq<string>, url: string)
    requires Listed(s, urls)
    ensures Registered(s, url) <==> url in urls
  {
    if url in urls {
      var i :| 0 <= i < |urls| && urls[i] == url;
      assert s.subs[s.notifiers[i]].url == url;
    }
    if Registered(s, url) {
      var i :| 0 <= i < |s.notifiers| && s.notifiers[i] < |s.subs| && s.subs[s.notifiers[i]].url == url;
      assert urls[i] == url;
    }
  }

  lemma RecordMirrors(s: State, log: seq<Record>, urls: seq<string>, r: Record)
    requires Mirrors(s, log, urls)
    ensures Mirrors(Next(s, Receive(ChangeOf(r.ev))), log + [r], urls)
  {
    assert EventsOf(log + [r]) == EventsOf(log) + [r.ev];
    assert Changes(EventsOf(log) + [r.ev]) == Changes(EventsOf(log)) + [ChangeOf(r.ev)];
  }

  lemma AddMirrors(s: State, log: seq<Record>, urls: seq<string>, url: string)
    requires Mirrors(s, log, urls) && url !in urls
    ensures Enabled(s, AddSubscriber(url)) && Mirrors(Next(s, AddSubscriber(url)), log, urls + [url])
  {
    KnownUrl(s, urls, url);
  }

  lemma RemoveMirrors(s: State, log: seq<Record>, urls: seq<string>, i: nat)
    requires Mirrors(s, log, urls) && i < |urls| && forall j :: 0 <= j < i ==> urls[j] != urls[i]
    ensures Enabled(s, RemoveSubscriber(urls[i]))
    ensures Mirrors(Next(s, RemoveSubscriber(urls[i])), log, urls[..i] + urls[i + 1..])
  {
    KnownUrl(s, urls, urls[i]);
    var p := Position(s, urls[i]);
    assert urls[p] == urls[i];
    assert p == i;
  }

  // The steps that are not critical sections of the manager's mutex.
  predicate Outside(a: Action) { a.Enqueue? || a.Return? || a.CloseStop? || a.Deliver? }

  lemma OutsideMirrors(s: State, log: seq<Record>, urls: seq<string>, a: Action)
    requires Mirrors(s, log, urls) && Enabled(s, a) && Outside(a)
    ensures Mirrors(Next(s, a), log, urls)
  {
    var s' := Next(s, a);
    forall id | 0 <= id < |s.subs| ensures s'.subs[id].url == s.subs[id].url {}
  }

  // ---------- The manager's methods are steps of the system ----------

  method RecordStep(m: EventManager, ghost s: State, ev: Event, now: Time) returns (ghost s': State, targets: seq<string>)
    requires m.Valid() && Mirrors(s, m.log, m.notifiers)
    modifies m`sequenceNumber, m`log, m.latestState, m.historyTail, m.historyTail.buf
    ensures m.Valid() && m.log == old(m.log) + [History.Record(m.sequenceNumber, now, ev)]
    ensures m.historyTail.buf == old(m.historyTail.buf)
    ensures s' == Next(s, Receive(ChangeOf(ev))) && Mirrors(s', m.log, m.notifiers)
    ensures targets == m.notifiers
  {
    RecordMirrors(s, m.log, m.notifiers, History.Record(m.sequenceNumber + 1, now, ev));
    targets := m.Record(ev.resType, ev.op, ev.id, ev.objects, now);
    s' := Next(s, Receive(ChangeOf(ev)));
  }

  // What the new subscriber is to replay is what the system's AddSubscriber step gives it.
  method RegisterStep(m: EventManager, ghost s: State, url: string, clientOk: bool)
    returns (ghost s': State, added: bool, err: bool, past: seq<Event>)
    requires m.Valid() && Mirrors(s, m.log, m.notifiers)
    modifies m`notifiers
    ensures m.Valid() && Mirrors(s', m.log, m.notifiers)
    ensures added ==>
              && Enabled(s, AddSubscriber(url)) && s' == Next(s, AddSubscriber(url))
              && past == AsCreates(NewSub(url, s.log, EndOf(s, url)).past)
    ensures !added ==> s' == s && ((err && !clientOk) || Registered(s, url))
  {
    KnownUrl(s, m.notifiers, url);
    if url !in m.notifiers { AddMirrors(s, m.log, m.notifiers, url); }
    added, err, past := m.Register(url, clientOk);
    s' := if added then Next(s, AddSubscriber(url)) else s;
  }

  method UnregisterStep(m: EventManager, ghost s: State, url: string) returns (ghost s': State, found: bool)
    requires m.Valid() && Mirrors(s, m.log, m.notifiers)
    modifies m`notifiers
    ensures m.Valid() && Mirrors(s', m.log, m.notifiers)
    ensures found <==> Enabled(s, RemoveSubscriber(url))
    ensures s' == if found then Next(s, RemoveSubscriber(url)) else s
  {
    KnownUrl(s, m.notifiers, url);
    ghost var before := m.notifiers;
    found := m.Unregister(url);
    s' := s;
    if found {
      ghost var i :| 0 <= i < |before| && before[i] == url && m.notifiers == before[..i] + before[i + 1..];
      RemoveMirrors(s, m.log, before, i);
      s' := Next(s, RemoveSubscriber(url));
    }
  }

  // ---------- Whole runs ----------

  // What a server does over time: calls of the manager, and the steps in between.
  datatype Call =
    | Recording(ev: Event, now: Time) | Numbering | Adding(url: string) | Removing(url: string) | Between(a: Action)

  function ActionsOf(calls: seq<Call>): seq<Action> {
    if calls == [] then [] else ActionOf(calls[0]) + ActionsOf(calls[1..])
  }

  function ActionOf(call: Call): seq<Action> {
    match call
    case Recording(ev, _) => [Receive(ChangeOf(ev))]
    case Numbering => []
    case Adding(url) => [AddSubscriber(url)]
    case Removing(url) => [RemoveSubscriber(url)]
    case Between(a) => [a]
  }

  // A manager driven through any run of the system ends with the system's log and its list of
  // subscribers. So whatever is proved of every run holds of the manager's own fields.
  method Drive(calls: seq<Call>, historyLimit: Option<int>) returns (m: EventManager)
    requires Runnable(INIT, ActionsOf(calls))
    requires forall i :: 0 <= i < |calls| && calls[i].Between? ==> Outside(calls[i].a)
    ensures m.Valid() && Mirrors(Run(INIT, ActionsOf(calls)), m.log, m.notifiers)
  {
    m := new EventManager(historyLimit);
    ghost var s := INIT;
    for i := 0 to |calls|
      invariant m.Valid() && fresh(m) && fresh(m.latestState) && fresh(m.historyTail) && fresh(m.historyTail.buf)
      invariant Mirrors(s, m.log, m.notifiers)
      invariant LeadsTo(s, calls[i..], Run(INIT, ActionsOf(calls)))
    {
      RunFirst(s, calls, i, Run(INIT, ActionsOf(calls)));
      s := DriveOne(m, s, calls[i]);
    }
    assert calls[|calls|..] == [];
  }

  ghost predicate LeadsTo(s: State, calls: seq<Call>, end: State) {
    Runnable(s, ActionsOf(calls)) && Run(s, ActionsOf(calls)) == end
  }

  ghost function After(s: State, call: Call): State
    requires ActionOf(call) != [] ==> Enabled(s, ActionOf(call)[0])
  {
    if ActionOf(call) == [] then s else Next(s, ActionOf(call)[0])
  }

  lemma RunFirst(s: State, calls: seq<Call>, i: nat, end: State)
    requires i < |calls| && LeadsTo(s, calls[i..], end)
    ensures ActionOf(calls[i]) != [] ==> Enabled(s, ActionOf(calls[i])[0])
    ensures LeadsTo(After(s, calls[i]), calls[i + 1..], end)
  {
    var rest := ActionsOf(calls[i + 1..]);
    assert calls[i..][0] == calls[i] && calls[i..][1..] == calls[i + 1..];
    if ActionOf(calls[i]) == [] {
      assert [] + rest == rest;
    } else {
      assert (ActionOf(calls[i]) + rest)[1..] == rest;
    }
  }

  method DriveOne(m: EventManager, ghost s: State, call: Call) returns (ghost s': State)
    requires m.Valid() && Mirrors(s, m.log, m.notifiers)
    requires ActionOf(call) != [] ==> Enabled(s, ActionOf(call)[0])
    requires call.Between? ==> Outside(call.a)
    modifies m`sequenceNumber, m`log, m`notifiers, m.latestState, m.historyTail, m.historyTail.buf
    ensures m.Valid() && m.historyTail.buf == old(m.historyTail.buf)
    ensures s' == After(s, call)
    ensures Mirrors(s', m.log, m.notifiers)
  {
    s' := s;
    match call {
      case Recording(ev, now) =>
        var targets;
        s', targets := RecordStep(m, s, ev, now);
      case Numbering => m.IncrementSequenceId();
      case Adding(url) =>
        var added, err, past;
        s', added, err, past := RegisterStep(m, s, url, true);
      case Removing(url) =>
        var found;
        s', found := UnregisterStep(m, s, url);
      case Between(a) =>
        OutsideMirrors(s, m.log, m.notifiers, a);
        s' := Next(s, a);
    }
  }
}
