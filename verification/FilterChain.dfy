// pkg/eventfilter: the chain of filters that model events pass on their way to the recording sink.
module FilterChains {
  import opened Wrappers
  import opened Events

  datatype FilterRule = FilterRule(displayName: string, description: string)

  // What a filter can see of the model: its filter rules, and everything else.
  datatype Landscape = Landscape(rules: map<Uuid, FilterRule>, others: seq<Any>)

  // Filters are pure functions of the model they are handed, if any, and an event.
  type FilterFunc = (Option<Landscape>, Event) -> seq<Event>

  datatype Entry = Entry(id: Uuid, displayName: string, description: string, fn: FilterFunc)

  function FlatMap(fn: FilterFunc, m: Option<Landscape>, batch: seq<Event>): seq<Event> {
    if batch == [] then [] else fn(m, batch[0]) + FlatMap(fn, m, batch[1..])
  }

  // Each filter in turn maps the whole batch.
  function Pipeline(filters: seq<Entry>, m: Option<Landscape>, batch: seq<Event>): seq<Event> {
    if filters == [] then batch else Pipeline(filters[1..], m, FlatMap(filters[0].fn, m, batch))
  }

  lemma {:induction false} FlatMapConcat(fn: FilterFunc, m: Option<Landscape>, a: seq<Event>, b: seq<Event>)
    ensures FlatMap(fn, m, a + b) == FlatMap(fn, m, a) + FlatMap(fn, m, b)
  {
    if a == [] {
      assert a + b == b;
    } else {
      assert (a + b)[1..] == a[1..] + b;
      FlatMapConcat(fn, m, a[1..], b);
    }
  }

  // Applying a concatenated chain is applying its parts in turn.
  lemma {:induction false} PipelineConcat(fs: seq<Entry>, gs: seq<Entry>, m: Option<Landscape>, batch: seq<Event>)
    ensures Pipeline(fs + gs, m, batch) == Pipeline(gs, m, Pipeline(fs, m, batch))
  {
    if fs == [] {
      assert fs + gs == gs;
    } else {
      assert (fs + gs)[1..] == fs[1..] + gs;
      PipelineConcat(fs[1..], gs, m, FlatMap(fs[0].fn, m, batch));
    }
  }

  // Events do not meet in the chain: a batch gives what its parts give, one after the other.
  lemma {:induction false} PipelineSplits(fs: seq<Entry>, m: Option<Landscape>, a: seq<Event>, b: seq<Event>)
    ensures Pipeline(fs, m, a + b) == Pipeline(fs, m, a) + Pipeline(fs, m, b)
  {
    if fs == [] {
    } else {
      FlatMapConcat(fs[0].fn, m, a, b);
      PipelineSplits(fs[1..], m, FlatMap(fs[0].fn, m, a), FlatMap(fs[0].fn, m, b));
    }
  }

  // No filter leaves a batch as it is; one filter on one event gives its result; and with the two
  // lemmas above that fixes every chain on every batch.
  lemma ShortChains(e: Entry, m: Option<Landscape>, ev: Event, batch: seq<Event>)
    ensures Pipeline([], m, batch) == batch
    ensures Pipeline([e], m, [ev]) == e.fn(m, ev)
    ensures Pipeline([e], m, []) == []
  {
    assert [e][1..] == [] && [ev][1..] == [];
    assert FlatMap(e.fn, m, [ev]) == e.fn(m, ev) + [];
  }

  // ---------- Which filters remain ----------

  datatype Change = Registered(entry: Entry) | Unregistered(id: Uuid)

  // Registered at i, and not unregistered since.
  ghost predicate Remains(history: seq<Change>, i: nat)
    requires i < |history|
  {
    history[i].Registered? && forall j :: i < j < |history| ==> history[j] != Unregistered(history[i].entry.id)
  }

  // The filters registered among the first n changes that remain at the end, in that order.
  ghost function Remaining(history: seq<Change>, n: nat): seq<Entry>
    requires n <= |history|
  {
    if n == 0 then []
    else Remaining(history, n - 1) + if Remains(history, n - 1) then [history[n - 1].entry] else []
  }

  // Every registration draws a fresh UUID.
  ghost predicate FreshIds(history: seq<Change>) {
    forall i, j :: 0 <= i < j < |history| && history[i].Registered? && history[j].Registered? ==>
      history[i].entry.id != history[j].entry.id
  }

  function WithoutId(filters: seq<Entry>, id: Uuid): seq<Entry> {
    if filters == [] then []
    else if filters[0].id == id then filters[1..]
    else [filters[0]] + WithoutId(filters[1..], id)
  }

  lemma {:induction false} WithoutFirst(filters: seq<Entry>, id: Uuid, i: nat)
    requires i <= |filters| && forall j :: 0 <= j < i ==> filters[j].id != id
    requires i < |filters| ==> filters[i].id == id
    ensures WithoutId(filters, id) == if i < |filters| then filters[..i] + filters[i + 1..] else filters
  {
    if i == 0 {
    } else {
      WithoutFirst(filters[1..], id, i - 1);
    }
  }

  lemma {:induction false} RemainingFrom(history: seq<Change>, n: nat)
    requires n <= |history|
    ensures forall e :: e in Remaining(history, n) ==> exists i :: 0 <= i < n && Remains(history, i) && history[i].entry == e
  {
    if n == 0 {
    } else {
      RemainingFrom(history, n - 1);
    }
  }

  lemma {:induction false} RegisterRemains(history: seq<Change>, e: Entry, n: nat)
    requires n <= |history|
    ensures Remaining(history + [Registered(e)], n) == Remaining(history, n)
  {
    var all := history + [Registered(e)];
    if n == 0 {
    } else {
      RegisterRemains(history, e, n - 1);
      assert all[n - 1] == history[n - 1];
      if Remains(history, n - 1) {
        forall j | n - 1 < j < |all| ensures all[j] != Unregistered(all[n - 1].entry.id) {
          assert j < |history| ==> all[j] == history[j];
        }
      }
      if Remains(all, n - 1) {
        forall j | n - 1 < j < |history| ensures history[j] != Unregistered(history[n - 1].entry.id) {
          assert all[j] == history[j];
        }
      }
    }
  }

  lemma {:induction false} UnregisterRemains(history: seq<Change>, id: Uuid, n: nat)
    requires n <= |history| && FreshIds(history)
    ensures Remaining(history + [Unregistered(id)], n) == WithoutId(Remaining(history, n), id)
  {
    var all := history + [Unregistered(id)];
    if n == 0 {
    } else {
      UnregisterRemains(history, id, n - 1);
      UnregisterOne(history, id, n - 1);
      var before, here := Remaining(history, n - 1), if Remains(history, n - 1) then [history[n - 1].entry] else [];
      if Remains(history, n - 1) && history[n - 1].entry.id == id {
        RemainingFrom(history, n - 1);
        WithoutAbsent(before, here, id);
      } else {
        WithoutInFirst(before, here, id);
      }
    }
  }

  lemma UnregisterOne(history: seq<Change>, id: Uuid, i: nat)
    requires i < |history|
    ensures Remains(history + [Unregistered(id)], i) <==> Remains(history, i) && history[i].entry.id != id
  {
    var all := history + [Unregistered(id)];
    assert all[i] == history[i] && all[|history|] == Unregistered(id);
    if Remains(all, i) {
      forall j | i < j < |history| ensures history[j] != Unregistered(history[i].entry.id) { assert all[j] == history[j]; }
    }
    if Remains(history, i) && history[i].entry.id != id {
      forall j | i < j < |all| ensures all[j] != Unregistered(all[i].entry.id) {
        assert j < |history| ==> all[j] == history[j];
      }
    }
  }

  lemma {:induction false} WithoutAbsent(a: seq<Entry>, b: seq<Entry>, id: Uuid)
    requires (forall e :: e in a ==> e.id != id) && |b| == 1 && b[0].id == id
    ensures WithoutId(a + b, id) == a == WithoutId(a, id)
  {
    if a != [] {
      assert (a + b)[1..] == a[1..] + b;
      assert a[0] in a;
      WithoutAbsent(a[1..], b, id);
    } else {
      assert a + b == b;
    }
  }

  lemma {:induction false} WithoutInFirst(a: seq<Entry>, b: seq<Entry>, id: Uuid)
    requires |b| <= 1 && forall e :: e in b ==> e.id != id
    ensures WithoutId(a + b, id) == WithoutId(a, id) + b
  {
    if a != [] {
      assert (a + b)[1..] == a[1..] + b;
      if a[0].id != id { WithoutInFirst(a[1..], b, id); }
    } else {
      assert a + b == b;
      if b != [] { assert b[0] in b && b[1..] == []; }
    }
  }

  // Unregister undoes Register: the other filters are as they were, in the same order.
  lemma UnregisterUndoesRegister(history: seq<Change>, e: Entry)
    requires FreshIds(history)
    requires forall i :: 0 <= i < |history| && history[i].Registered? ==> history[i].entry.id != e.id
    ensures var after := history + [Registered(e), Unregistered(e.id)];
            Remaining(after, |after|) == Remaining(history, |history|)
  {
    var with := history + [Registered(e)];
    var after := with + [Unregistered(e.id)];
    assert after == history + [Registered(e), Unregistered(e.id)];
    UnregisterRemains(with, e.id, |with|);
    RegisterRemains(history, e, |history|);
    RemainingFrom(history, |history|);
    assert Remains(with, |history|);
    WithoutAbsent(Remaining(history, |history|), [e], e.id);
  }

  ghost predicate IdsDistinct(filters: seq<Entry>) {
    forall i, j :: 0 <= i < j < |filters| ==> filters[i].id != filters[j].id
  }

  lemma {:induction false} RemainingDistinct(history: seq<Change>, n: nat)
    requires n <= |history| && FreshIds(history)
    ensures IdsDistinct(Remaining(history, n))
  {
    if n == 0 {
    } else {
      RemainingDistinct(history, n - 1);
      RemainingFrom(history, n - 1);
      if Remains(history, n - 1) {
        var before := Remaining(history, n - 1);
        forall i | 0 <= i < |before| ensures before[i].id != history[n - 1].entry.id {
          assert before[i] in before;
        }
      }
    }
  }

  // ---------- Filter rules in the model ----------

  // A rule is added unless the model has one with this id.
  function WithRule(rules: map<Uuid, FilterRule>, e: Entry): map<Uuid, FilterRule> {
    if e.id in rules then rules else rules[e.id := FilterRule(e.displayName, e.description)]
  }

  function WithRules(rules: map<Uuid, FilterRule>, filters: seq<Entry>): map<Uuid, FilterRule>
    decreases |filters|
  {
    if filters == [] then rules else WithRules(WithRule(rules, filters[0]), filters[1..])
  }

  // Every filter gets a rule, rules that were there stay as they are, and nothing else is added.
  lemma {:induction false} RulesAdded(rules: map<Uuid, FilterRule>, filters: seq<Entry>)
    ensures WithRules(rules, filters).Keys == rules.Keys + (set e | e in filters :: e.id)
    ensures forall id :: id in rules ==> WithRules(rules, filters)[id] == rules[id]
    decreases |filters|
  {
    if filters == [] {
    } else {
      RulesAdded(WithRule(rules, filters[0]), filters[1..]);
      assert filters == [filters[0]] + filters[1..];
      assert (set e | e in filters :: e.id) == {filters[0].id} + (set e | e in filters[1..] :: e.id);
    }
  }

  // A new rule has its filter's name and description.
  lemma {:induction false} RulesNamed(rules: map<Uuid, FilterRule>, filters: seq<Entry>, i: nat)
    requires IdsDistinct(filters) && i < |filters| && filters[i].id !in rules
    ensures filters[i].id in WithRules(rules, filters)
    ensures WithRules(rules, filters)[filters[i].id].displayName == filters[i].displayName
    ensures WithRules(rules, filters)[filters[i].id].description == filters[i].description
    decreases |filters|
  {
    var next := WithRule(rules, filters[0]);
    if i == 0 {
      RulesAdded(next, filters[1..]);
      assert filters[0].id in next;
    } else {
      assert filters[1..][i - 1] == filters[i];
      RulesNamed(next, filters[1..], i - 1);
    }
  }

  class LandscapeModel {
    var rules: map<Uuid, FilterRule>
    var others: seq<Any>

    constructor (rules: map<Uuid, FilterRule>, others: seq<Any>)
      ensures this.rules == rules && this.others == others
    {
      this.rules, this.others := rules, others;
    }
  }

  // ---------- The chain ----------

  class Chain {
    var model: LandscapeModel?
    var filters: seq<Entry>
    ghost var history: seq<Change>

    ghost predicate Valid()
      reads this
    {
      FreshIds(history) && filters == Remaining(history, |history|)
    }

    function View(): Option<Landscape>
      reads this, model
    {
      if model == null then None else Some(Landscape(model.rules, model.others))
    }

    // Every filter of the chain has a rule in the model.
    ghost predicate RulesFollow()
      reads this, model
    {
      model != null ==> forall i :: 0 <= i < |filters| ==> filters[i].id in model.rules
    }

    constructor (m: LandscapeModel?)
      ensures Valid() && RulesFollow() && model == m && history == []
    {
      model, filters, history := m, [], [];
    }

    // id is the UUID the call draws.
    method RegisterFilter(id: Uuid, displayName: string, description: string, fn: FilterFunc)
      requires Valid() && forall i :: 0 <= i < |history| && history[i].Registered? ==> history[i].entry.id != id
      modifies this`filters, this`history, if model == null then {} else {model}
      ensures Valid() && history == old(history) + [Registered(Entry(id, displayName, description, fn))]
      ensures model != null ==>
                && model.rules == (if id in old(model.rules) then old(model.rules)
                                   else old(model.rules)[id := FilterRule(displayName := displayName, description := description)])
                && model.others == old(model.others)
      ensures old(RulesFollow()) ==> RulesFollow()
    {
      var e := Entry(id, displayName, description, fn);
      RegisterRemains(history, e, |history|);
      filters := filters + [e];
      history := history + [Registered(e)];
      assert Remains(history, |history| - 1);
      SyncFilterRuleToModel(e);
    }

    method SyncFilterRuleToModel(e: Entry)
      modifies if model == null then {} else {model}
      ensures model != null ==> model.rules == WithRule(old(model.rules), e) && model.others == old(model.others)
    {
      if model == null {
        return;
      }
      if e.id in model.rules {
        return;
      }
      model.rules := model.rules[e.id := FilterRule(e.displayName, e.description)];
    }

    // An unknown id changes nothing. Otherwise that filter leaves the chain and its rule the model.
    method Unregister(id: Uuid)
      requires Valid()
      modifies this`filters, this`history, if model == null then {} else {model}
      ensures Valid() && history == old(history) + [Unregistered(id)]
      ensures model != null ==> model.others == old(model.others)
      ensures model != null ==>
                model.rules == if exists i :: 0 <= i < |old(filters)| && old(filters)[i].id == id
                               then old(model.rules) - {id} else old(model.rules)
      ensures old(RulesFollow()) ==> RulesFollow()
    {
      RemainingDistinct(history, |history|);
      ghost var was := filters;
      var removed := RemoveFilter(id);
      WithoutLeavesOthers(was, id);
      if !removed {
        return;
      }
      if model != null {
        model.rules := model.rules - {id};
      }
    }

    // The locked part of Unregister.
    method RemoveFilter(id: Uuid) returns (removed: bool)
      requires Valid()
      modifies this`filters, this`history
      ensures Valid() && history == old(history) + [Unregistered(id)] && filters == WithoutId(old(filters), id)
      ensures removed <==> exists i :: 0 <= i < |old(filters)| && old(filters)[i].id == id
    {
      UnregisterRemains(history, id, |history|);
      history := history + [Unregistered(id)];
      removed := false;
      for i := 0 to |filters|
        invariant filters == old(filters) && history == old(history) + [Unregistered(id)]
        invariant forall j :: 0 <= j < i ==> filters[j].id != id
      {
        if filters[i].id == id {
          WithoutFirst(filters, id, i);
          filters := filters[..i] + filters[i + 1..];
          return true;
        }
      }
      WithoutFirst(filters, id, |filters|);
    }

    // The filters stay, and each of them gets a rule in the new model.
    method SetModel(m: LandscapeModel?)
      modifies this`model, if m == null then {} else {m}
      ensures model == m && RulesFollow()
      ensures m != null ==> m.rules == WithRules(old(m.rules), filters) && m.others == old(m.others)
    {
      model := m;
      var snapshot := filters;
      RulesAdded(if m == null then map[] else m.rules, filters);
      for i := 0 to |snapshot|
        invariant model == m && filters == snapshot
        invariant m != null ==> m.others == old(m.others)
        invariant m != null ==> WithRules(m.rules, snapshot[i..]) == WithRules(old(m.rules), snapshot)
      {
        assert snapshot[i..][1..] == snapshot[i + 1..];
        SyncFilterRuleToModel(snapshot[i]);
      }
    }

    // The remaining filters, in registration order, composed left to right.
    method Apply(ev: Event) returns (current: seq<Event>)
      requires Valid()
      ensures current == Pipeline(Remaining(history, |history|), View(), [ev])
    {
      var snapshot := filters;
      var m := View();
      if |snapshot| == 0 {
        return [ev];
      }
      current := [ev];
      for i := 0 to |snapshot|
        invariant Pipeline(snapshot[i..], m, current) == Pipeline(snapshot, m, [ev])
      {
        var fn := snapshot[i].fn;
        var next := [];
        for j := 0 to |current|
          invariant next + FlatMap(fn, m, current[j..]) == FlatMap(fn, m, current)
        {
          assert current[j..][1..] == current[j + 1..];
          next := next + fn(m, current[j]);
        }
        assert next == FlatMap(fn, m, current);
        assert snapshot[i..][1..] == snapshot[i + 1..];
        current := next;
      }
    }
  }

  lemma {:induction false} WithoutLeavesOthers(filters: seq<Entry>, id: Uuid)
    requires IdsDistinct(filters)
    ensures forall i :: 0 <= i < |WithoutId(filters, id)| ==>
              WithoutId(filters, id)[i].id != id && WithoutId(filters, id)[i] in filters
  {
    if filters == [] {
    } else {
      WithoutLeavesOthers(filters[1..], id);
    }
  }

  // ---------- The sink in front of the recording sink ----------

  // A downstream sink: the calls it has received, and which of them return an error.
  class Downstream {
    var calls: seq<Event>
    const rejects: nat -> bool

    constructor (rejects: nat -> bool)
      ensures calls == [] && this.rejects == rejects
    {
      calls := [];
      this.rejects := rejects;
    }

    method Receive(ev: Event) returns (err: bool)
      modifies this`calls
      ensures calls == old(calls) + [ev] && err == rejects(|old(calls)|)
    {
      err := rejects(|calls|);
      calls := calls + [ev];
    }
  }

  class FilteringSink {
    const chain: Chain
    const downstream: Downstream

    constructor (chain: Chain, downstream: Downstream)
      ensures this.chain == chain && this.downstream == downstream
    {
      this.chain := chain;
      this.downstream := downstream;
    }

    // Forwards exactly what the chain makes of the event; an error stops at the event that caused
    // it, and only an error does.
    method Receive(ev: Event) returns (err: bool)
      requires chain.Valid()
      modifies downstream`calls
      ensures var out := Pipeline(Remaining(chain.history, |chain.history|), chain.View(), [ev]);
              var n := |downstream.calls| - |old(downstream.calls)|;
              && 0 <= n <= |out|
              && downstream.calls == old(downstream.calls) + out[..n]
              && (forall k :: |old(downstream.calls)| <= k < |downstream.calls| ==>
                    (downstream.rejects(k) <==> err && k == |downstream.calls| - 1))
              && (if err then n > 0 else n == |out|)
    {
      var out := chain.Apply(ev);
      ghost var before := downstream.calls;
      for i := 0 to |out|
        invariant downstream.calls == before + out[..i]
        invariant forall k :: |before| <= k < |before| + i ==> !downstream.rejects(k)
      {
        assert out[..i + 1] == out[..i] + [out[i]];
        var failed := downstream.Receive(out[i]);
        if failed {
          return true;
        }
      }
      err := false;
    }
  }
}
