// internal/oapi/replication_normalize.go: bringing a resource's JSON map into the shape OpenAPI
// decoding expects. Each helper is a function on the map; the class below is the code, which
// changes the map in place, and its methods are proved to compute these functions.
module WireNormalize {
  import opened Wrappers
  import opened Events

  // What encoding/json decodes into interface{}.
  datatype Json =
    | Null
    | Bool(b: bool)
    | Number(n: real)
    | Str(s: string)
    | Arr(elems: seq<Json>)
    | Obj(fields: map<string, Json>)

  type Wire = map<string, Json>

  // The value under a key, unless it is missing or null.
  function Lookup(w: Wire, k: string): Option<Json> {
    if k in w && w[k] != Null then Some(w[k]) else None
  }

  // The first of these keys with a value.
  function First(w: Wire, keys: seq<string>): (k: Option<string>)
    ensures k.Some? ==> k.value in keys && Lookup(w, k.value).Some?
  {
    if keys == [] then None
    else if Lookup(w, keys[0]).Some? then Some(keys[0])
    else First(w, keys[1..])
  }

  // The id a nested reference object carries.
  function RefId(v: Json, idKeys: seq<string>): Option<Json> {
    if !v.Obj? then None
    else
      var k := First(v.fields, idKeys);
      if k.Some? then Lookup(v.fields, k.value) else None
  }

  // The id a reference value stands for: itself, or the id it carries.
  function UsableId(v: Json, idKeys: seq<string>): Option<Json> {
    if v.Str? || v.Number? then Some(v) else RefId(v, idKeys)
  }

  function FirstUsable(w: Wire, sources: seq<string>, idKeys: seq<string>): Option<Json> {
    if sources == [] then None
    else
      var v := Lookup(w, sources[0]);
      if sources[0] != "" && v.Some? && UsableId(v.value, idKeys).Some? then UsableId(v.value, idKeys)
      else FirstUsable(w, sources[1..], idKeys)
  }

  function KeySet(keys: seq<string>): set<string> { set k | k in keys }

  // coalesceRefSourcesToOpenAPIField
  function Coalesce(w: Wire, sources: seq<string>, key: string, idKeys: seq<string>): Wire {
    var id := FirstUsable(w, sources, idKeys);
    if id.None? then w else w[key := id.value] - (KeySet(sources) - {key, ""})
  }

  function FlattenElem(e: Json, idKeys: seq<string>): Json {
    if RefId(e, idKeys).Some? then RefId(e, idKeys).value else e
  }

  function FlattenAll(elems: seq<Json>, idKeys: seq<string>): seq<Json> {
    seq(|elems|, i requires 0 <= i < |elems| => FlattenElem(elems[i], idKeys))
  }

  // flattenRefObjectArrayToUUIDScalars
  function Flatten(w: Wire, key: string, idKeys: seq<string>): Wire {
    var v := Lookup(w, key);
    if v.Some? && v.value.Arr? then w[key := Arr(FlattenAll(v.value.elems, idKeys))] else w
  }

  // coalesceObjectToUUIDScalar
  function Scalar(w: Wire, primary: string, alt: string, idKeys: seq<string>): Wire {
    var k := First(w, [primary, alt]);
    if k.Some? && RefId(w[k.value], idKeys).Some? then w[k.value := RefId(w[k.value], idKeys).value] else w
  }

  // coalesceNestedRefToSiblingUUID
  function Nested(sub: Wire, nested: seq<string>, key: string, idKeys: seq<string>): Wire {
    var k := First(sub, nested);
    if k.Some? && RefId(sub[k.value], idKeys).Some? then sub[key := RefId(sub[k.value], idKeys).value] - {k.value}
    else sub
  }

  const GROUP_KEYS := ["Group", "group"]
  const GROUP_IDS := ["groupId", "GroupId", "group_id"]
  const IDENTITY_KEYS := ["Identity", "identity"]
  const IDENTITY_IDS := ["identityId", "IdentityId", "identity_id"]

  function SubjectFields(sub: Wire): Wire {
    Nested(Nested(sub, GROUP_KEYS, "groupId", GROUP_IDS), IDENTITY_KEYS, "identityId", IDENTITY_IDS)
  }

  // one round of normalizeBindingSubjectWire
  function Subject(w: Wire, key: string): Wire {
    var v := Lookup(w, key);
    if v.Some? && v.value.Obj? then w[key := Obj(SubjectFields(v.value.fields))] else w
  }

  // one round of stripInvalidAnnotationsForOpenAPI
  function Strip(w: Wire, key: string): Wire {
    if Lookup(w, key) == Some(Obj(map[])) then w - {key} else w
  }

  // ---------- The steps for each resource kind ----------

  datatype Op =
    | StripOp(key: string)
    | CoalesceOp(sources: seq<string>, key: string, idKeys: seq<string>)
    | FlattenOp(key: string, idKeys: seq<string>)
    | ScalarOp(primary: string, alt: string, idKeys: seq<string>)
    | SubjectOp(key: string)
    | NestedOp(nested: seq<string>, key: string, idKeys: seq<string>)  // inside a subject
  {
    function Apply(w: Wire): Wire {
      match this
      case StripOp(key) => Strip(w, key)
      case CoalesceOp(sources, key, idKeys) => Coalesce(w, sources, key, idKeys)
      case FlattenOp(key, idKeys) => Flatten(w, key, idKeys)
      case ScalarOp(primary, alt, idKeys) => Scalar(w, primary, alt, idKeys)
      case SubjectOp(key) => Subject(w, key)
      case NestedOp(nested, key, idKeys) => Nested(w, nested, key, idKeys)
    }

    // The keys the step looks at; it changes no other.
    function Keys(): set<string> {
      match this
      case StripOp(key) => {key}
      case CoalesceOp(sources, key, _) => KeySet(sources) + {key}
      case FlattenOp(key, _) => {key}
      case ScalarOp(primary, alt, _) => {primary, alt}
      case SubjectOp(key) => {key}
      case NestedOp(nested, key, _) => KeySet(nested) + {key}
    }
  }

  function Steps(rt: ResourceType): seq<Op> {
    match rt
    case SystemResource => [CoalesceOp(["Parent", "parent"], "parent", ["SystemId", "systemId"])]
    case SystemInstanceResource => [
      CoalesceOp(["System", "system", "systemId"], "system", ["SystemId", "systemId"]),
      CoalesceOp(["Context", "context", "contextId"], "context", ["ContextId", "contextId"])]
    case APIResource => [CoalesceOp(["System", "system", "systemId"], "system", ["SystemId", "systemId"])]
    case APIInstanceResource => [
      CoalesceOp(["Api", "api", "apiId"], "api", ["ApiID", "ApiId", "apiId"]),
      CoalesceOp(["SystemInstance", "systemInstance", "systemInstanceId"], "systemInstance",
                 ["InstanceId", "instanceId", "systemInstanceId"])]
    case ComponentResource => [CoalesceOp(["System", "system", "systemId"], "system", ["SystemId", "systemId"])]
    case ComponentInstanceResource => [
      CoalesceOp(["Component", "component", "componentId"], "component", ["ComponentId", "componentId"]),
      CoalesceOp(["SystemInstance", "systemInstance", "systemInstanceId"], "systemInstance",
                 ["InstanceId", "instanceId", "systemInstanceId"])]
    case ContextResource => [
      CoalesceOp(["TypeRef", "Type", "type"], "type", ["ContextTypeId", "contextTypeId"]),
      CoalesceOp(["Parent", "parent"], "parent", ["ContextId", "contextId"])]
    case NodeResource => [CoalesceOp(["TypeRef", "NodeType", "nodeType"], "nodeType", ["NodeTypeId", "nodeTypeId"])]
    case ProductResource => [CoalesceOp(["Vendor", "vendor"], "vendor", ["OrgUnitId", "orgUnitId"])]
    case FindingResource => [CoalesceOp(["TypeRef", "Type", "type"], "type", ["FindingTypeId", "findingTypeId"])]
    case PermissionResource => [CoalesceOp(["Spec", "spec"], "spec", ["PermissionSpecId", "permissionSpecId"])]
    case RoleResource => [
      CoalesceOp(["Spec", "spec"], "spec", ["RoleSpecId", "roleSpecId"]),
      CoalesceOp(["ContextRef", "context"], "context", ["ContextId", "contextId"]),
      FlattenOp("Permissions", ["PermissionId", "permissionId"]),
      FlattenOp("permissions", ["PermissionId", "permissionId"])]
    case RoleSpecResource => [
      FlattenOp("Permissions", ["PermissionSpecId", "permissionSpecId"]),
      FlattenOp("permissions", ["PermissionSpecId", "permissionSpecId"])]
    case BindingResource => [ScalarOp("Role", "role", ["RoleId", "roleId"]), SubjectOp("subject"), SubjectOp("Subject")]
    case _ => []
  }

  function AllSteps(rt: ResourceType): seq<Op> {
    [StripOp("Annotations"), StripOp("annotations")] + Steps(rt)
  }

  function Through(ops: seq<Op>, w: Wire): Wire {
    if ops == [] then w else Through(ops[1..], ops[0].Apply(w))
  }

  function Normalize(rt: ResourceType, w: Wire): Wire { Through(AllSteps(rt), w) }

  // ---------- The code ----------

  // A wire map, changed in place.
  class WireMap {
    var wire: Wire

    constructor (wire: Wire)
      ensures this.wire == wire
    {
      this.wire := wire;
    }

    method StripInvalidAnnotations()
      modifies this
      ensures wire == Strip(Strip(old(wire), "Annotations"), "annotations")
    {
      var keys := ["Annotations", "annotations"];
      ghost var w := wire;
      for i := 0 to 2
        invariant wire == if i == 0 then w else if i == 1 then Strip(w, keys[0]) else Strip(Strip(w, keys[0]), keys[1])
      {
        var key := keys[i];
        if key !in wire || wire[key] == Null {
          continue;
        }
        if wire[key].Obj? && |wire[key].fields| == 0 {
          wire := wire - {key};
        }
      }
    }

    method DeleteConflictingRefSourceKeys(sources: seq<string>, key: string)
      modifies this
      ensures wire == old(wire) - (KeySet(sources) - {key, ""})
    {
      for i := 0 to |sources|
        invariant wire == old(wire) - (KeySet(sources[..i]) - {key, ""})
      {
        assert KeySet(sources[..i + 1]) == KeySet(sources[..i]) + {sources[i]};
        if sources[i] != "" && sources[i] != key {
          wire := wire - {sources[i]};
        }
      }
      assert sources[..|sources|] == sources;
    }

    method CoalesceRefSources(sources: seq<string>, key: string, idKeys: seq<string>)
      modifies this
      ensures wire == Coalesce(old(wire), sources, key, idKeys)
    {
      for i := 0 to |sources|
        invariant wire == old(wire)
        invariant FirstUsable(wire, sources, idKeys) == FirstUsable(wire, sources[i..], idKeys)
      {
        var sk := sources[i];
        assert sources[i..][1..] == sources[i + 1..];
        if sk == "" {
          continue;
        }
        if sk !in wire || wire[sk] == Null {
          continue;
        }
        var v := wire[sk];
        match v {
          case Str(_) =>
            wire := wire[key := v];
            DeleteConflictingRefSourceKeys(sources, key);
            return;
          case Number(_) =>
            wire := wire[key := v];
            DeleteConflictingRefSourceKeys(sources, key);
            return;
          case Obj(fields) =>
            var x := FindId(fields, idKeys);
            if x.Some? {
              wire := wire[key := x.value];
              DeleteConflictingRefSourceKeys(sources, key);
              return;
            }
          case _ =>
        }
      }
      assert sources[|sources|..] == [];
    }

    method FlattenRefObjectArray(key: string, idKeys: seq<string>)
      modifies this
      ensures wire == Flatten(old(wire), key, idKeys)
    {
      if key !in wire || wire[key] == Null {
        return;
      }
      if !wire[key].Arr? {
        return;
      }
      var arr := wire[key].elems;
      var out := [];
      for i := 0 to |arr|
        invariant wire == old(wire)
        invariant |out| == i && forall j :: 0 <= j < i ==> out[j] == FlattenElem(arr[j], idKeys)
      {
        var elem := arr[i];
        if elem.Obj? {
          var x := FindId(elem.fields, idKeys);
          out := out + [if x.Some? then x.value else elem];
        } else {
          out := out + [elem];
        }
      }
      assert out == FlattenAll(arr, idKeys);
      wire := wire[key := Arr(out)];
    }

    method CoalesceObject(primary: string, alt: string, idKeys: seq<string>)
      modifies this
      ensures wire == Scalar(old(wire), primary, alt, idKeys)
    {
      var key := FindKey(wire, [primary, alt]);
      if key.None? {
        return;
      }
      var v := wire[key.value];
      if v.Str? || v.Number? || !v.Obj? {
        return;
      }
      var x := FindId(v.fields, idKeys);
      if x.Some? {
        wire := wire[key.value := x.value];
      }
    }

    // On a subject's own map.
    method CoalesceNestedRef(nested: seq<string>, key: string, idKeys: seq<string>)
      modifies this
      ensures wire == Nested(old(wire), nested, key, idKeys)
    {
      var found := FindKey(wire, nested);
      if found.None? {
        return;
      }
      var v := wire[found.value];
      if !v.Obj? {
        return;
      }
      var id := FindId(v.fields, idKeys);
      if id.None? {
        return;
      }
      wire := wire[key := id.value];
      wire := wire - {found.value};
    }

    method NormalizeBindingSubject()
      modifies this
      ensures wire == Subject(Subject(old(wire), "subject"), "Subject")
    {
      var keys := ["subject", "Subject"];
      ghost var w := wire;
      for i := 0 to 2
        invariant wire == if i == 0 then w else if i == 1 then Subject(w, keys[0]) else Subject(Subject(w, keys[0]), keys[1])
      {
        var key := keys[i];
        if key !in wire || wire[key] == Null {
          continue;
        }
        if !wire[key].Obj? {
          continue;
        }
        var sm := new WireMap(wire[key].fields);
        sm.CoalesceNestedRef(GROUP_KEYS, "groupId", GROUP_IDS);
        sm.CoalesceNestedRef(IDENTITY_KEYS, "identityId", IDENTITY_IDS);
        wire := wire[key := Obj(sm.wire)];
      }
    }

    // The kinds whose references are all coalesced to OpenAPI fields.
    method NormalizeReferences(rt: ResourceType)
      requires !rt.RoleResource? && !rt.RoleSpecResource? && !rt.BindingResource?
      modifies this
      ensures wire == Through(Steps(rt), old(wire))
    {
      match rt {
        case SystemResource =>
          CoalesceRefSources(["Parent", "parent"], "parent", ["SystemId", "systemId"]);
        case SystemInstanceResource =>
          CoalesceRefSources(["System", "system", "systemId"], "system", ["SystemId", "systemId"]);
          CoalesceRefSources(["Context", "context", "contextId"], "context", ["ContextId", "contextId"]);
        case APIResource =>
          CoalesceRefSources(["System", "system", "systemId"], "system", ["SystemId", "systemId"]);
        case APIInstanceResource =>
          CoalesceRefSources(["Api", "api", "apiId"], "api", ["ApiID", "ApiId", "apiId"]);
          CoalesceRefSources(["SystemInstance", "systemInstance", "systemInstanceId"], "systemInstance",
                             ["InstanceId", "instanceId", "systemInstanceId"]);
        case ComponentResource =>
          CoalesceRefSources(["System", "system", "systemId"], "system", ["SystemId", "systemId"]);
        case ComponentInstanceResource =>
          CoalesceRefSources(["Component", "component", "componentId"], "component", ["ComponentId", "componentId"]);
          CoalesceRefSources(["SystemInstance", "systemInstance", "systemInstanceId"], "systemInstance",
                             ["InstanceId", "instanceId", "systemInstanceId"]);
        case ContextResource =>
          CoalesceRefSources(["TypeRef", "Type", "type"], "type", ["ContextTypeId", "contextTypeId"]);
          CoalesceRefSources(["Parent", "parent"], "parent", ["ContextId", "contextId"]);
        case NodeResource =>
          CoalesceRefSources(["TypeRef", "NodeType", "nodeType"], "nodeType", ["NodeTypeId", "nodeTypeId"]);
        case ProductResource =>
          CoalesceRefSources(["Vendor", "vendor"], "vendor", ["OrgUnitId", "orgUnitId"]);
        case FindingResource =>
          CoalesceRefSources(["TypeRef", "Type", "type"], "type", ["FindingTypeId", "findingTypeId"]);
        case PermissionResource =>
          CoalesceRefSources(["Spec", "spec"], "spec", ["PermissionSpecId", "permissionSpecId"]);
        case _ =>
      }
      ThroughSteps(Steps(rt), old(wire));
    }

    method NormalizeRole()
      modifies this
      ensures wire == Through(Steps(RoleResource), old(wire))
    {
      ghost var ops := RoleSteps();
      CoalesceRefSources(["Spec", "spec"], "spec", ["RoleSpecId", "roleSpecId"]);
      CoalesceRefSources(["ContextRef", "context"], "context", ["ContextId", "contextId"]);
      FlattenRefObjectArray("Permissions", ["PermissionId", "permissionId"]);
      FlattenRefObjectArray("permissions", ["PermissionId", "permissionId"]);
      ThroughSteps(ops, old(wire));
    }

    method NormalizeRoleSpec()
      modifies this
      ensures wire == Through(Steps(RoleSpecResource), old(wire))
    {
      FlattenRefObjectArray("Permissions", ["PermissionSpecId", "permissionSpecId"]);
      FlattenRefObjectArray("permissions", ["PermissionSpecId", "permissionSpecId"]);
      ThroughSteps(Steps(RoleSpecResource), old(wire));
    }

    method NormalizeBinding()
      modifies this
      ensures wire == Through(Steps(BindingResource), old(wire))
    {
      ghost var ops := BindingSteps();
      CoalesceObject("Role", "role", ["RoleId", "roleId"]);
      NormalizeBindingSubject();
      ThroughSteps(ops, old(wire));
    }

    method NormalizeReplicationWireMap(rt: ResourceType)
      modifies this
      ensures wire == Normalize(rt, old(wire))
    {
      StripInvalidAnnotations();
      ThroughAll(rt, old(wire), wire);
      match rt {
        case RoleResource => NormalizeRole();
        case RoleSpecResource => NormalizeRoleSpec();
        case BindingResource => NormalizeBinding();
        case _ => NormalizeReferences(rt);
      }
    }
  }

  lemma RoleSteps() returns (ops: seq<Op>)
    ensures ops == Steps(RoleResource) && |ops| == 4
    ensures ops[0] == CoalesceOp(["Spec", "spec"], "spec", ["RoleSpecId", "roleSpecId"])
    ensures ops[1] == CoalesceOp(["ContextRef", "context"], "context", ["ContextId", "contextId"])
    ensures ops[2] == FlattenOp("Permissions", ["PermissionId", "permissionId"])
    ensures ops[3] == FlattenOp("permissions", ["PermissionId", "permissionId"])
  {
    ops := Steps(RoleResource);
  }

  lemma BindingSteps() returns (ops: seq<Op>)
    ensures ops == Steps(BindingResource) && |ops| == 3
    ensures ops[0] == ScalarOp("Role", "role", ["RoleId", "roleId"])
    ensures ops[1] == SubjectOp("subject") && ops[2] == SubjectOp("Subject")
  {
    ops := Steps(BindingResource);
  }

  lemma ThroughSteps(ops: seq<Op>, w: Wire)
    ensures |ops| == 0 ==> Through(ops, w) == w
    ensures |ops| == 1 ==> Through(ops, w) == ops[0].Apply(w)
    ensures |ops| == 2 ==> Through(ops, w) == ops[1].Apply(ops[0].Apply(w))
    ensures |ops| == 3 ==> Through(ops, w) == ops[2].Apply(ops[1].Apply(ops[0].Apply(w)))
    ensures |ops| == 4 ==> Through(ops, w) == ops[3].Apply(ops[2].Apply(ops[1].Apply(ops[0].Apply(w))))
  {
    if |ops| >= 2 {
      var a := ops[0].Apply(w);
      ThroughTail(ops, a, 1);
      if |ops| >= 3 {
        var b := ops[1].Apply(a);
        ThroughTail(ops, b, 2);
        if |ops| == 4 { ThroughTail(ops, ops[2].Apply(b), 3); }
      }
    }
  }

  lemma ThroughTail(ops: seq<Op>, w: Wire, i: nat)
    requires i < |ops|
    ensures Through(ops[i..], w) == Through(ops[i + 1..], ops[i].Apply(w))
  {
    assert ops[i..][1..] == ops[i + 1..];
  }

  lemma ThroughAll(rt: ResourceType, w: Wire, stripped: Wire)
    requires stripped == Strip(Strip(w, "Annotations"), "annotations")
    ensures Normalize(rt, w) == Through(Steps(rt), stripped)
  {
    var ops := AllSteps(rt);
    ThroughTail(ops, w, 0);
    ThroughTail(ops, ops[0].Apply(w), 1);
    assert ops[0..] == ops && ops[2..] == Steps(rt);
  }

  // The loop over idKeys that every helper has.
  method FindId(fields: Wire, idKeys: seq<string>) returns (id: Option<Json>)
    ensures id == RefId(Obj(fields), idKeys)
  {
    for i := 0 to |idKeys|
      invariant First(fields, idKeys) == First(fields, idKeys[i..])
    {
      assert idKeys[i..][1..] == idKeys[i + 1..];
      if idKeys[i] in fields && fields[idKeys[i]] != Null {
        return Some(fields[idKeys[i]]);
      }
    }
    id := None;
  }

  method FindKey(w: Wire, keys: seq<string>) returns (key: Option<string>)
    ensures key == First(w, keys)
    ensures key.Some? ==> key.value in w
  {
    for i := 0 to |keys|
      invariant First(w, keys) == First(w, keys[i..])
    {
      assert keys[i..][1..] == keys[i + 1..];
      if keys[i] in w && w[keys[i]] != Null {
        return Some(keys[i]);
      }
    }
    key := None;
  }
}
