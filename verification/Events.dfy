// pkg/events: events, resource types and operations, and their names on the wire.
module Events {
  import opened Wrappers

  // A UUID is represented by its canonical string.
  type Uuid = string

  // The declared constants of pkg/events.ResourceType, in declaration order. The Go type is an
  // int, so it has further values; none of them has a name of its own.
  datatype ResourceType =
    | UnknownResourceType
    | NodeResource | NodeTypeResource
    | ContextResource | ContextTypeResource
    | SystemResource | SystemInstanceResource
    | APIResource | APIInstanceResource
    | ComponentResource | ComponentInstanceResource
    | OrgUnitResource | GroupResource | IdentityResource
    | PermissionSpecResource | RoleSpecResource | PermissionResource | RoleResource
    | BindingResource | ProductResource
    | FindingResource | FindingTypeResource
    | ArtifactResource | ArtifactInstanceResource
    | FilterRuleResource | MergeRuleResource
    | CapabilityResource | ParameterResource
    | CapacityResourceTypeResource | CapacityResource
    | AnnotationsResource
    | Undeclared(code: int)
  {
    function String(): string {
      match this
      case UnknownResourceType => "UnknownResourceType"
      case NodeResource => "Node"
      case NodeTypeResource => "NodeType"
      case ContextResource => "Context"
      case ContextTypeResource => "ContextType"
      case SystemResource => "System"
      case SystemInstanceResource => "SystemInstance"
      case APIResource => "API"
      case APIInstanceResource => "APIInstance"
      case ComponentResource => "Component"
      case ComponentInstanceResource => "ComponentInstance"
      case OrgUnitResource => "OrgUnit"
      case GroupResource => "Group"
      case IdentityResource => "Identity"
      case PermissionSpecResource => "PermissionSpec"
      case RoleSpecResource => "RoleSpec"
      case PermissionResource => "Permission"
      case RoleResource => "Role"
      case BindingResource => "Binding"
      case ProductResource => "Product"
      case FindingResource => "Finding"
      case FindingTypeResource => "FindingType"
      case ArtifactResource => "Artifact"
      case ArtifactInstanceResource => "ArtifactInstance"
      case FilterRuleResource => "FilterRule"
      case MergeRuleResource => "MergeRule"
      case CapabilityResource => "Capability"
      case ParameterResource => "Parameter"
      case CapacityResourceTypeResource => "CapacityResourceType"
      case CapacityResource => "Capacity"
      case AnnotationsResource => "Annotations"
      case Undeclared(_) => "UnknownResourceType"
    }

    function WireKind(): string {
      if APIInstanceResource? then "ApiInstance" else String()
    }

    predicate Declared() { !Undeclared? }
  }

  datatype Operation = UnknownOperation | CreateOperation | UpdateOperation | DeleteOperation {
    function WireOperation(): string {
      match this
      case CreateOperation => "Create"
      case UpdateOperation => "Update"
      case DeleteOperation => "Delete"
      case UnknownOperation => "Unknown"
    }
  }

  function ParseWireOperation(s: string): Operation {
    if s == "Create" then CreateOperation
    else if s == "Update" then UpdateOperation
    else if s == "Delete" then DeleteOperation
    else UnknownOperation
  }

  // Operations keep their identity on the wire, and only their own names stand for them.
  lemma OperationNames(op: Operation)
    ensures ParseWireOperation(op.WireOperation()) == op
    ensures forall s :: ParseWireOperation(s) == op && op != UnknownOperation ==> s == op.WireOperation()
  {
    assert "Update"[0] == 'U' && "Unknown"[1] == 'n' && "Update"[1] == 'p';
  }

  // An ApiInstance as the endpoint watcher reads it: its id and the accessors
  // TargetFromApiInstance calls.
  datatype ApiInstance = ApiInstance(
    instanceId: Uuid,
    displayName: string,
    annotations: map<string, string>,
    apiRef: Option<Uuid>,
    systemInstance: Option<Uuid>)

  // An event's payload items are Go `any` values: ApiInstances, or values nothing here inspects.
  datatype Any = ApiInstanceObject(ai: ApiInstance) | Opaque(repr: string)

  type Payload = seq<Any>

  datatype ResourceKey = ResourceKey(resType: ResourceType, id: Uuid)

  datatype Event = Event(resType: ResourceType, op: Operation, id: Uuid, objects: Payload) {
    function Key(): ResourceKey { ResourceKey(resType, id) }
  }

  // The length and first two letters of a name already tell the declared types apart.
  ghost function TypeNamed(s: string): ResourceType
    requires |s| >= 2
  {
    if |s| == 3 then APIResource
    else if |s| == 4 then (if s[0] == 'N' then NodeResource else RoleResource)
    else if |s| == 5 then GroupResource
    else if |s| == 6 then SystemResource
    else if |s| == 7 then (
      if s[0] == 'B' then BindingResource
      else if s[0] == 'C' then ContextResource
      else if s[0] == 'F' then FindingResource
      else if s[0] == 'O' then OrgUnitResource
      else ProductResource)
    else if |s| == 8 then (
      if s[0] == 'A' then ArtifactResource
      else if s[0] == 'C' then CapacityResource
      else if s[0] == 'I' then IdentityResource
      else if s[0] == 'N' then NodeTypeResource
      else RoleSpecResource)
    else if |s| == 9 then (
      if s[0] == 'C' then ComponentResource
      else if s[0] == 'M' then MergeRuleResource
      else ParameterResource)
    else if |s| == 10 then (
      if s[0] == 'C' then CapabilityResource
      else if s[0] == 'F' then FilterRuleResource
      else PermissionResource)
    else if |s| == 11 then (
      if s[0] == 'A' && s[1] == 'n' then AnnotationsResource
      else if s[0] == 'A' && s[1] == 'p' then APIInstanceResource
      else if s[0] == 'C' then ContextTypeResource
      else FindingTypeResource)
    else if |s| == 14 then (if s[0] == 'P' then PermissionSpecResource else SystemInstanceResource)
    else if |s| == 16 then ArtifactInstanceResource
    else if |s| == 17 then ComponentInstanceResource
    else if |s| == 20 then CapacityResourceTypeResource
    else UnknownResourceType
  }

  lemma NamesOwnType(rt: ResourceType)
    requires rt.Declared()
    ensures |rt.String()| >= 2 && |rt.WireKind()| >= 2
    ensures TypeNamed(rt.WireKind()) == rt
    ensures !rt.APIInstanceResource? ==> TypeNamed(rt.String()) == rt
  {
  }

  // Known resource types keep distinct names on the wire, so a wire key names one resource.
  lemma WireKindInjective(a: ResourceType, b: ResourceType)
    requires a.Declared() && b.Declared()
    ensures a.WireKind() == b.WireKind() <==> a == b
  {
    NamesOwnType(a);
    NamesOwnType(b);
  }

  predicate Nameless(t: ResourceType) { t.UnknownResourceType? || t.Undeclared? }

  // Over all values of the Go type, two share a name exactly when they are equal or neither has a
  // name of its own.
  lemma WireKindCollides(a: ResourceType, b: ResourceType)
    ensures a.WireKind() == b.WireKind() <==> a == b || (Nameless(a) && Nameless(b))
  {
    WireKindInjective(if Nameless(a) then UnknownResourceType else a, if Nameless(b) then UnknownResourceType else b);
  }

  // ParseWireKind searches the table of names, which is a Go map: `order` is the order in which
  // this run of the program visits it.
  method ParseWireKind(order: seq<ResourceType>, s: string) returns (rt: ResourceType)
    requires forall t: ResourceType :: t in order <==> t.Declared()
    ensures rt.Declared() && !rt.AnnotationsResource?
    ensures forall t: ResourceType :: t.Declared() && !t.AnnotationsResource? ==>
              (s == t.WireKind() || s == t.String() ==> rt == t)
    ensures !rt.UnknownResourceType? ==> s == rt.WireKind() || s == rt.String()
  {
    for i := 0 to |order|
      invariant forall j :: 0 <= j < i && !order[j].UnknownResourceType? && !order[j].AnnotationsResource? ==>
                  s != order[j].WireKind() && s != order[j].String()
    {
      var t := order[i];
      if t.UnknownResourceType? || t.AnnotationsResource? {
        continue;
      }
      if s == t.String() || s == t.WireKind() {
        NamesIdentify(s, t);
        return t;
      }
    }
    rt := UnknownResourceType;
  }

  lemma NamesIdentify(s: string, t: ResourceType)
    requires t.Declared() && (s == t.String() || s == t.WireKind())
    ensures forall u: ResourceType :: u.Declared() && (s == u.WireKind() || s == u.String()) ==> u == t
  {
    NamesOwnType(t);
    forall u: ResourceType | u.Declared() && (s == u.WireKind() || s == u.String()) ensures u == t {
      NamesOwnType(u);
    }
  }
}
