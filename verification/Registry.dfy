// The registry of probe targets that pkg/endpointprobe/otelconfigwriter.go keeps and watcher.go
// feeds, the file it is rendered to, and the registry as a function of the events.
module Registries {
  import opened Wrappers
  import opened Events
  import opened Fold
  import opened LatestState
  import opened ProbeTargets

  type Registry = map<Uuid, ProbeTarget>

  ghost predicate WellKeyed(targets: Registry) {
    forall id :: id in targets ==> targets[id].apiInstanceId == id
  }

  // RenderCollectorConfig with fixed options: the same targets in the same order give the same
  // bytes, or an error.
  type Renderer = seq<ProbeTarget> -> Option<string>

  // The file is there and holds what this registry renders to.
  ghost predicate FileMatches(render: Renderer, targets: Registry, file: Option<string>) {
    exists c :: Canonical(targets.Values, c) && render(c).Some? && file == render(c)
  }

  // Instance ids are the registry's keys, so there is one canonical list, whatever order the map
  // is visited in, and the file matches if it is the rendering of that list.
  lemma OneRendering(render: Renderer, targets: Registry, c: seq<ProbeTarget>, file: Option<string>)
    requires WellKeyed(targets) && Canonical(targets.Values, c)
    ensures forall d :: Canonical(targets.Values, d) ==> d == c
    ensures FileMatches(render, targets, file) <==> render(c).Some? && file == render(c)
  {
    forall d | Canonical(targets.Values, d) ensures d == c {
      forall t, u | t in targets.Values && u in targets.Values && t.apiInstanceId == u.apiInstanceId ensures t == u {
        var i :| i in targets && targets[i] == t;
        var j :| j in targets && targets[j] == u;
      }
      CanonicalUnique(targets.Values, c, d);
    }
  }

  // What one event does to the registry, as the filter reacts to it.
  function React(targets: Registry, ev: Event): Registry {
    if ev.resType != APIInstanceResource then targets
    else if ev.op == DeleteOperation then targets - {ev.id}
    else if ev.op == UnknownOperation || ev.objects == [] || !ev.objects[0].ApiInstanceObject? then targets
    else
      var ai := ev.objects[0].ai;
      match Derive(ai)
      case Target(t) => targets[t.apiInstanceId := t]
      case _ => targets - {ai.instanceId}
  }

  // The loop in Flush that copies the registry, in whatever order the map is visited.
  method CopyTargets(targets: Registry) returns (snapshot: seq<ProbeTarget>)
    ensures Members(snapshot) == targets.Values
  {
    snapshot := [];
    var rest := targets.Keys;
    while rest != {}
      invariant rest <= targets.Keys
      invariant forall t :: t in snapshot <==> exists id :: id in targets.Keys - rest && targets[id] == t
    {
      var id :| id in rest;
      ghost var done := targets.Keys - rest;
      rest := rest - {id};
      assert targets.Keys - rest == done + {id};
      snapshot := snapshot + [targets[id]];
    }
  }

  // ---------- The registry as a function of the events ----------

  // The targets of the live ApiInstances with valid endpoint annotations.
  function LiveTargets(live: map<ResourceKey, Payload>): set<ProbeTarget> {
    set k | k in live && k.resType == APIInstanceResource && TargetOf(live, k.id).Some? :: TargetOf(live, k.id).value
  }

  // So what is rendered is the canonical list of the live instances' targets.
  lemma RegistryHoldsLiveTargets(evs: seq<Event>)
    requires forall i :: 0 <= i < |evs| ==> WellFormedEvent(evs[i])
    ensures ReactAll(evs).Values == LiveTargets(Live(Changes(evs)))
  {
    var targets, live := ReactAll(evs), Live(Changes(evs));
    RegistryFollowsState(evs);
    forall t | t in targets.Values ensures t in LiveTargets(live) {
      var id :| id in targets && targets[id] == t;
      var k := ResourceKey(APIInstanceResource, id);
      assert At(targets, id) == TargetOf(live, k.id) == Some(t);
      assert k in live && k.resType == APIInstanceResource;
    }
    forall t | t in LiveTargets(live) ensures t in targets.Values {
      var k :| k in live && k.resType == APIInstanceResource && TargetOf(live, k.id) == Some(t);
      assert At(targets, k.id) == TargetOf(live, k.id) == Some(t);
    }
  }

  function ReactAll(evs: seq<Event>): Registry {
    if evs == [] then map[] else React(ReactAll(evs[..|evs| - 1]), evs[|evs| - 1])
  }

  // An ApiInstance event says what the model's own events say: a Create or Update carries the
  // instance it is about, a Delete names it.
  predicate WellFormedEvent(ev: Event) {
    ev.resType == APIInstanceResource ==>
      ev.op == DeleteOperation ||
      ((ev.op == CreateOperation || ev.op == UpdateOperation)
       && ev.objects != [] && ev.objects[0].ApiInstanceObject? && ev.objects[0].ai.instanceId == ev.id)
  }

  // The target of a live ApiInstance with valid endpoint annotations.
  function TargetOf(live: map<ResourceKey, Payload>, id: Uuid): Option<ProbeTarget> {
    var k := ResourceKey(APIInstanceResource, id);
    if k in live && live[k] != [] && live[k][0].ApiInstanceObject? && Derive(live[k][0].ai).Target?
    then Some(Derive(live[k][0].ai).target) else None
  }

  // After any well-formed events the registry maps exactly the live ApiInstances with valid
  // endpoint annotations to the target of their latest object.
  lemma {:induction false} RegistryFollowsState(evs: seq<Event>)
    requires forall i :: 0 <= i < |evs| ==> WellFormedEvent(evs[i])
    ensures forall id :: At(ReactAll(evs), id) == TargetOf(Live(Changes(evs)), id)
    ensures WellKeyed(ReactAll(evs))
  {
    if evs == [] {
    } else {
      var init, ev := evs[..|evs| - 1], evs[|evs| - 1];
      RegistryFollowsState(init);
      assert evs == init + [ev];
      StoreStep(init, ev);
      assert WellFormedEvent(ev);
      forall id ensures At(ReactAll(evs), id) == TargetOf(Live(Changes(evs)), id) {
        ReactOne(ReactAll(init), Live(Changes(init)), ev, id);
      }
    }
  }

  lemma ReactOne(targets: Registry, live: map<ResourceKey, Payload>, ev: Event, id: Uuid)
    requires WellFormedEvent(ev) && At(targets, id) == TargetOf(live, id)
    ensures At(React(targets, ev), id) == TargetOf(Apply(live, ChangeOf(ev)), id)
  {
  }
}
