// pkg/endpointprobe: probe targets derived from ApiInstances, and the canonical list of targets
// that a collector configuration is rendered from.
module ProbeTargets {
  import opened Wrappers
  import opened Events

  // net/url renders these parts to a string.
  datatype Url = Url(scheme: string, host: string, path: string)

  datatype ProbeTarget = ProbeTarget(
    apiInstanceId: Uuid,
    displayName: string,
    apiId: Option<Uuid>,
    systemInstanceId: Option<Uuid>,
    url: Url,
    dedupeKey: string)

  datatype Derived = NoTarget | Invalid | Target(target: ProbeTarget)

  const ANN_PROTOCOL := "emeland.io/endpoint.protocol"
  const ANN_HOST := "emeland.io/endpoint.host"
  const ANN_PORT := "emeland.io/endpoint.port"
  const ANN_PATH := "emeland.io/endpoint.path"

  function Annotation(ai: ApiInstance, key: string): string {
    if key in ai.annotations then ai.annotations[key] else ""
  }

  function DefaultPort(protocol: string, port: string): string {
    if port != "" then port
    else if protocol == "https" then "443"
    else if protocol == "http" then "80"
    else port
  }

  function NormalizePath(path: string): string {
    if path == "" then "/" else if path[0] != '/' then "/" + path else path
  }

  // TargetFromApiInstance
  function Derive(ai: ApiInstance): Derived {
    var host := Annotation(ai, ANN_HOST);
    if host == "" then NoTarget
    else
      var protocol := Annotation(ai, ANN_PROTOCOL);
      var port := DefaultPort(protocol, Annotation(ai, ANN_PORT));
      if protocol != "http" && protocol != "https" then Invalid
      else
        var url := Url(protocol, host + ":" + port, NormalizePath(Annotation(ai, ANN_PATH)));
        Target(ProbeTarget(ai.instanceId, ai.displayName, ai.apiRef, ai.systemInstance, url, host + ":" + port))
  }

  // ---------- What the annotations of an endpoint say ----------

  function Value(ai: ApiInstance, name: string): string {
    var key := "emeland.io/endpoint." + name;
    if key in ai.annotations then ai.annotations[key] else ""
  }

  // Without a host there is no target; without http or https it is invalid. The port defaults to
  // that of the protocol, and the path to the root; host and port make the key.
  lemma EndpointAnnotations(ai: ApiInstance)
    ensures var host, protocol, port, path := Value(ai, "host"), Value(ai, "protocol"), Value(ai, "port"), Value(ai, "path");
            && (Derive(ai).NoTarget? <==> host == "")
            && (Derive(ai).Invalid? <==> host != "" && protocol != "http" && protocol != "https")
            && (Derive(ai).Target? ==>
                  var t := Derive(ai).target;
                  && t.apiInstanceId == ai.instanceId && t.displayName == ai.displayName
                  && t.apiId == ai.apiRef && t.systemInstanceId == ai.systemInstance
                  && t.url.scheme == protocol && t.url.host == t.dedupeKey
                  && (port != "" ==> t.dedupeKey == host + ":" + port)
                  && (port == "" && protocol == "https" ==> t.dedupeKey == host + ":443")
                  && (port == "" && protocol == "http" ==> t.dedupeKey == host + ":80")
                  && (path == "" ==> t.url.path == "/")
                  && (path != "" && path[0] == '/' ==> t.url.path == path)
                  && (path != "" && path[0] != '/' ==> t.url.path == "/" + path))
  {
    assert "emeland.io/endpoint." + "host" == ANN_HOST;
    assert "emeland.io/endpoint." + "protocol" == ANN_PROTOCOL;
    assert "emeland.io/endpoint." + "port" == ANN_PORT;
    assert "emeland.io/endpoint." + "path" == ANN_PATH;
  }

  // ---------- Go's order on strings ----------

  predicate Below(a: string, b: string) {
    b != [] && (a == [] || a[0] < b[0] || (a[0] == b[0] && Below(a[1..], b[1..])))
  }

  // The first difference decides, and a proper prefix comes first.
  lemma {:induction false} BelowMeans(a: string, b: string)
    ensures Below(a, b) <==>
              exists i :: 0 <= i <= |a| && i < |b| && a[..i] == b[..i] && (i == |a| || a[i] < b[i])
  {
    if a == [] || b == [] {
      if b != [] { assert a[..0] == b[..0]; }
    } else {
      BelowMeans(a[1..], b[1..]);
      if Below(a, b) {
        if a[0] < b[0] {
          assert a[..0] == b[..0];
        } else {
          var i :| 0 <= i <= |a[1..]| && i < |b[1..]| && a[1..][..i] == b[1..][..i] && (i == |a[1..]| || a[1..][i] < b[1..][i]);
          assert a[..i + 1] == [a[0]] + a[1..][..i] && b[..i + 1] == [b[0]] + b[1..][..i];
        }
      }
      if i :| 0 <= i <= |a| && i < |b| && a[..i] == b[..i] && (i == |a| || a[i] < b[i]) {
        if i > 0 {
          assert a[0] == a[..i][0] == b[..i][0] == b[0];
          assert a[1..][..i - 1] == a[..i][1..] && b[1..][..i - 1] == b[..i][1..];
        }
      }
    }
  }

  lemma {:induction false} BelowTotal(a: string, b: string)
    ensures a == b || Below(a, b) || Below(b, a)
    ensures !(Below(a, b) && Below(b, a)) && !Below(a, a)
  {
    if a != [] && b != [] {
      BelowTotal(a[1..], b[1..]);
      BelowTotal(a[1..], a[1..]);
      assert a == [a[0]] + a[1..] && b == [b[0]] + b[1..];
    } else if a != [] {
      BelowTotal(a[1..], a[1..]);
    }
  }

  lemma {:induction false} BelowTransitive(a: string, b: string, c: string)
    requires Below(a, b) && Below(b, c)
    ensures Below(a, c)
  {
    if a != [] && a[0] == b[0] == c[0] { BelowTransitive(a[1..], b[1..], c[1..]); }
  }

  // The comparison dedupeTargets sorts by.
  predicate Less(t: ProbeTarget, u: ProbeTarget) {
    if t.dedupeKey != u.dedupeKey then Below(t.dedupeKey, u.dedupeKey)
    else Below(t.apiInstanceId, u.apiInstanceId)
  }

  lemma LessTransitive(t: ProbeTarget, u: ProbeTarget, v: ProbeTarget)
    requires !Less(u, t) && !Less(v, u)
    ensures !Less(v, t)
  {
    BelowTotal(t.dedupeKey, u.dedupeKey);
    BelowTotal(u.dedupeKey, v.dedupeKey);
    BelowTotal(t.dedupeKey, v.dedupeKey);
    BelowTotal(t.apiInstanceId, u.apiInstanceId);
    BelowTotal(u.apiInstanceId, v.apiInstanceId);
    BelowTotal(t.apiInstanceId, v.apiInstanceId);
    if Less(v, t) {
      if t.dedupeKey == u.dedupeKey == v.dedupeKey {
        if Below(t.apiInstanceId, u.apiInstanceId) && Below(u.apiInstanceId, v.apiInstanceId) {
          BelowTransitive(t.apiInstanceId, u.apiInstanceId, v.apiInstanceId);
        }
      } else if Below(t.dedupeKey, u.dedupeKey) && Below(u.dedupeKey, v.dedupeKey) {
        BelowTransitive(t.dedupeKey, u.dedupeKey, v.dedupeKey);
      }
    }
  }

  // ---------- The canonical list ----------

  // One target per host:port, the one with the lowest instance id, sorted by host:port.
  ghost predicate Canonical(targets: set<ProbeTarget>, out: seq<ProbeTarget>) {
    && (forall i, j :: 0 <= i < j < |out| ==> Below(out[i].dedupeKey, out[j].dedupeKey))
    && (forall t :: t in out ==> t in targets && LowestId(targets, t))
    && (forall t :: t in targets ==> HasKey(out, t.dedupeKey))
  }

  ghost predicate HasKey(ts: seq<ProbeTarget>, key: string) {
    exists i :: 0 <= i < |ts| && ts[i].dedupeKey == key
  }

  ghost predicate LowestId(targets: set<ProbeTarget>, t: ProbeTarget) {
    forall u :: u in targets && u.dedupeKey == t.dedupeKey ==> !Below(u.apiInstanceId, t.apiInstanceId)
  }

  ghost predicate IdsIdentify(targets: set<ProbeTarget>) {
    forall t, u :: t in targets && u in targets && t.apiInstanceId == u.apiInstanceId ==> t == u
  }

  // It is the same whatever order the registry's map was visited in.
  lemma CanonicalUnique(targets: set<ProbeTarget>, a: seq<ProbeTarget>, b: seq<ProbeTarget>)
    requires IdsIdentify(targets) && Canonical(targets, a) && Canonical(targets, b)
    ensures a == b
  {
    SameMembers(targets, a, b);
    SameMembers(targets, b, a);
    SortedUnique(a, b);
  }

  lemma SameMembers(targets: set<ProbeTarget>, a: seq<ProbeTarget>, b: seq<ProbeTarget>)
    requires IdsIdentify(targets) && Canonical(targets, a) && Canonical(targets, b)
    ensures forall t :: t in a ==> t in b
  {
    forall t | t in a ensures t in b {
      assert HasKey(b, t.dedupeKey);
      var i :| 0 <= i < |b| && b[i].dedupeKey == t.dedupeKey;
      TwoLowest(targets, t, b[i]);
    }
  }

  lemma TwoLowest(targets: set<ProbeTarget>, t: ProbeTarget, u: ProbeTarget)
    requires IdsIdentify(targets) && t in targets && u in targets && t.dedupeKey == u.dedupeKey
    requires LowestId(targets, t) && LowestId(targets, u)
    ensures t == u
  {
    BelowTotal(t.apiInstanceId, u.apiInstanceId);
  }

  lemma {:induction false} SortedUnique(a: seq<ProbeTarget>, b: seq<ProbeTarget>)
    requires forall i, j :: 0 <= i < j < |a| ==> Below(a[i].dedupeKey, a[j].dedupeKey)
    requires forall i, j :: 0 <= i < j < |b| ==> Below(b[i].dedupeKey, b[j].dedupeKey)
    requires forall t :: t in a <==> t in b
    ensures a == b
  {
    assert a != [] ==> a[0] in b;
    assert b != [] ==> b[0] in a;
    if a == [] {
    } else {
      SameHead(a, b);
      forall t | t in a[1..] ensures t in b[1..] { RestExcludesHead(a, t); assert t in b; }
      forall t | t in b[1..] ensures t in a[1..] { RestExcludesHead(b, t); assert t in a; }
      SortedUnique(a[1..], b[1..]);
    }
  }

  lemma RestExcludesHead(a: seq<ProbeTarget>, t: ProbeTarget)
    requires a != [] && t in a[1..]
    requires forall i, j :: 0 <= i < j < |a| ==> Below(a[i].dedupeKey, a[j].dedupeKey)
    ensures t != a[0]
  {
    var j :| 0 <= j < |a[1..]| && a[1..][j] == t;
    assert Below(a[0].dedupeKey, a[j + 1].dedupeKey);
    BelowTotal(t.dedupeKey, t.dedupeKey);
  }

  lemma SameHead(a: seq<ProbeTarget>, b: seq<ProbeTarget>)
    requires a != [] && b != [] && a[0] in b && b[0] in a
    requires forall i, j :: 0 <= i < j < |a| ==> Below(a[i].dedupeKey, a[j].dedupeKey)
    requires forall i, j :: 0 <= i < j < |b| ==> Below(b[i].dedupeKey, b[j].dedupeKey)
    ensures a[0] == b[0]
  {
    var p :| 0 <= p < |b| && b[p] == a[0];
    var q :| 0 <= q < |a| && a[q] == b[0];
    BelowTotal(a[0].dedupeKey, b[0].dedupeKey);
  }

  predicate Sorted(ts: seq<ProbeTarget>) {
    forall i, j :: 0 <= i < j < |ts| ==> !Less(ts[j], ts[i])
  }

  // sort.Slice: some permutation with nothing out of order.
  method SortSlice(ts: seq<ProbeTarget>) returns (out: seq<ProbeTarget>)
    ensures multiset(out) == multiset(ts) && Sorted(out)
  {
    out := [];
    for i := 0 to |ts|
      invariant multiset(out) == multiset(ts[..i]) && Sorted(out)
    {
      var p := |out|;
      while p > 0 && Less(ts[i], out[p - 1])
        invariant 0 <= p <= |out|
        invariant forall j :: p <= j < |out| ==> Less(ts[i], out[j])
      {
        p := p - 1;
      }
      InsertSorted(out, p, ts[i]);
      assert ts[..i + 1] == ts[..i] + [ts[i]];
      assert out == out[..p] + out[p..];
      out := out[..p] + [ts[i]] + out[p..];
    }
    assert ts[..|ts|] == ts;
  }

  lemma InsertSorted(out: seq<ProbeTarget>, p: nat, t: ProbeTarget)
    requires Sorted(out) && p <= |out|
    requires forall j :: p <= j < |out| ==> Less(t, out[j])
    requires p > 0 ==> !Less(t, out[p - 1])
    ensures Sorted(out[..p] + [t] + out[p..])
  {
    forall j | 0 <= j < p ensures !Less(t, out[j]) {
      if j < p - 1 { LessTransitive(out[j], out[p - 1], t); }
    }
    forall j | p <= j < |out| ensures !Less(out[j], t) {
      BelowTotal(t.dedupeKey, out[j].dedupeKey);
      BelowTotal(t.apiInstanceId, out[j].apiInstanceId);
    }
  }

  method DedupeTargets(targets: seq<ProbeTarget>) returns (out: seq<ProbeTarget>)
    ensures Canonical(Members(targets), out)
  {
    if |targets| == 0 {
      return [];
    }
    var sorted := SortSlice(targets);
    SameElements(targets, sorted);
    var seen := {};
    out := [];
    for i := 0 to |sorted|
      invariant forall key :: key in seen <==> HasKey(sorted[..i], key)
      invariant Canonical(Members(sorted[..i]), out)
    {
      var t := sorted[i];
      DedupeStep(sorted, i, out);
      KeysGrow(sorted, i);
      if t.dedupeKey in seen {
        continue;
      }
      seen := seen + {t.dedupeKey};
      out := out + [t];
    }
    assert sorted[..|sorted|] == sorted;
  }

  ghost function Members(ts: seq<ProbeTarget>): set<ProbeTarget> { set t | t in ts }

  lemma KeysGrow(ts: seq<ProbeTarget>, i: nat)
    requires i < |ts|
    ensures forall key :: HasKey(ts[..i + 1], key) <==> HasKey(ts[..i], key) || key == ts[i].dedupeKey
  {
    forall key ensures HasKey(ts[..i + 1], key) <==> HasKey(ts[..i], key) || key == ts[i].dedupeKey {
      assert ts[..i + 1][i] == ts[i];
      if HasKey(ts[..i], key) {
        var j :| 0 <= j < i && ts[..i][j].dedupeKey == key;
        assert ts[..i + 1][j].dedupeKey == key;
      }
      if HasKey(ts[..i + 1], key) && key != ts[i].dedupeKey {
        var j :| 0 <= j < i + 1 && ts[..i + 1][j].dedupeKey == key;
        assert ts[..i][j].dedupeKey == key;
      }
    }
  }

  lemma SameElements(a: seq<ProbeTarget>, b: seq<ProbeTarget>)
    requires multiset(a) == multiset(b)
    ensures Members(a) == Members(b)
  {
    forall t ensures t in a <==> t in b {
      assert t in a <==> t in multiset(a);
      assert t in b <==> t in multiset(b);
    }
  }

  // What an earlier target is to a later one.
  lemma EarlierInOrder(sorted: seq<ProbeTarget>, i: nat, t: ProbeTarget)
    requires i < |sorted| && Sorted(sorted) && t in sorted[..i]
    ensures t.dedupeKey == sorted[i].dedupeKey ==> !Below(sorted[i].apiInstanceId, t.apiInstanceId)
    ensures t.dedupeKey != sorted[i].dedupeKey ==> Below(t.dedupeKey, sorted[i].dedupeKey)
  {
    var j :| 0 <= j < i && sorted[j] == t;
    assert !Less(sorted[i], sorted[j]);
    BelowTotal(t.dedupeKey, sorted[i].dedupeKey);
  }

  lemma DedupeStep(sorted: seq<ProbeTarget>, i: nat, out: seq<ProbeTarget>)
    requires i < |sorted| && Sorted(sorted) && Canonical(Members(sorted[..i]), out)
    ensures Canonical(Members(sorted[..i + 1]),
                      if HasKey(sorted[..i], sorted[i].dedupeKey) then out else out + [sorted[i]])
  {
    var before, next := Members(sorted[..i]), sorted[i];
    assert sorted[..i + 1] == sorted[..i] + [next];
    assert Members(sorted[..i + 1]) == before + {next};
    forall t | t in before
      ensures t.dedupeKey == next.dedupeKey ==> !Below(next.apiInstanceId, t.apiInstanceId)
      ensures t.dedupeKey != next.dedupeKey ==> Below(t.dedupeKey, next.dedupeKey)
    {
      EarlierInOrder(sorted, i, t);
    }
    BelowTotal(next.apiInstanceId, next.apiInstanceId);
    if HasKey(sorted[..i], next.dedupeKey) {
      var j :| 0 <= j < i && sorted[..i][j].dedupeKey == next.dedupeKey;
      StillCanonical(before, sorted[j], next, out);
    } else {
      forall t | t in before ensures t.dedupeKey != next.dedupeKey {
        var j :| 0 <= j < i && sorted[..i][j] == t;
      }
      ExtendCanonical(before, next, out);
    }
  }

  lemma StillCanonical(before: set<ProbeTarget>, known: ProbeTarget, next: ProbeTarget, out: seq<ProbeTarget>)
    requires Canonical(before, out) && known in before && known.dedupeKey == next.dedupeKey
    requires forall t :: t in before && t.dedupeKey == next.dedupeKey ==> !Below(next.apiInstanceId, t.apiInstanceId)
    ensures Canonical(before + {next}, out)
  {
    forall t | t in out ensures LowestId(before + {next}, t) { assert LowestId(before, t); }
  }

  lemma ExtendCanonical(before: set<ProbeTarget>, next: ProbeTarget, out: seq<ProbeTarget>)
    requires Canonical(before, out) && forall t :: t in before ==> Below(t.dedupeKey, next.dedupeKey)
    requires forall t :: t in before ==> t.dedupeKey != next.dedupeKey
    requires !Below(next.apiInstanceId, next.apiInstanceId)
    ensures Canonical(before + {next}, out + [next])
  {
    var all, out' := before + {next}, out + [next];
    assert out'[|out|] == next;
    forall t | t in out' ensures t in all && LowestId(all, t) {
      if t in out { assert LowestId(before, t) && t in before; }
    }
    forall t | t in all ensures HasKey(out', t.dedupeKey) {
      if t in before {
        assert HasKey(out, t.dedupeKey);
        var i :| 0 <= i < |out| && out[i].dedupeKey == t.dedupeKey;
        assert out'[i].dedupeKey == t.dedupeKey;
      }
    }
    forall i, j | 0 <= i < j < |out'| ensures Below(out'[i].dedupeKey, out'[j].dedupeKey) {
      if j == |out| { assert out[i] in out; }
    }
  }
}
