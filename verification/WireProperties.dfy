// What normalizing a wire map does, key by key, and when doing it again changes nothing.
module WireProperties {
  import opened Wrappers
  import opened Events
  import opened Fold
  import opened WireNormalize

  lemma FirstAgrees(v: Wire, w: Wire, keys: seq<string>)
    requires forall k :: k in keys ==> At(v, k) == At(w, k)
    ensures First(v, keys) == First(w, keys)
  {
    if keys != [] {
      assert keys[0] in keys && At(v, keys[0]) == At(w, keys[0]);
      FirstAgrees(v, w, keys[1..]);
    }
  }

  lemma FirstUsableAgrees(v: Wire, w: Wire, sources: seq<string>, idKeys: seq<string>)
    requires forall k :: k in sources ==> At(v, k) == At(w, k)
    ensures FirstUsable(v, sources, idKeys) == FirstUsable(w, sources, idKeys)
  {
    if sources != [] {
      assert sources[0] in sources && At(v, sources[0]) == At(w, sources[0]);
      FirstUsableAgrees(v, w, sources[1..], idKeys);
    }
  }

  // A step changes no key but its own.
  lemma StepIsLocal(op: Op, w: Wire, k: string)
    requires k !in op.Keys()
    ensures At(op.Apply(w), k) == At(w, k)
  {
  }

  // What a step leaves under its keys depends on what was there.
  lemma StepDependsOnItsKeys(op: Op, v: Wire, w: Wire, k: string)
    requires k in op.Keys() && forall x :: x in op.Keys() ==> At(v, x) == At(w, x)
    ensures At(op.Apply(v), k) == At(op.Apply(w), k)
  {
    match op
    case StripOp(key) => assert At(v, key) == At(w, key);
    case FlattenOp(key, _) => assert At(v, key) == At(w, key);
    case SubjectOp(key) => assert At(v, key) == At(w, key);
    case CoalesceOp(sources, key, idKeys) =>
      FirstUsableAgrees(v, w, sources, idKeys);
      assert At(v, k) == At(w, k);
    case NestedOp(nested, key, _) =>
      FirstAgrees(v, w, nested);
      assert At(v, k) == At(w, k);
      if First(v, nested).Some? {
        var found := First(v, nested).value;
        assert At(v, found) == At(w, found);
      }
    case ScalarOp(primary, alt, _) =>
      FirstAgrees(v, w, [primary, alt]);
      assert At(v, primary) == At(w, primary) && At(v, alt) == At(w, alt);
  }

  // ---------- Steps that share no key ----------

  ghost predicate Separate(ops: seq<Op>) {
    forall i, j :: 0 <= i < j < |ops| ==> ops[i].Keys() !! ops[j].Keys()
  }

  lemma {:induction false} UntouchedThrough(ops: seq<Op>, w: Wire, k: string)
    requires forall i :: 0 <= i < |ops| ==> k !in ops[i].Keys()
    ensures At(Through(ops, w), k) == At(w, k)
  {
    if ops == [] {
    } else {
      StepIsLocal(ops[0], w, k);
      UntouchedThrough(ops[1..], ops[0].Apply(w), k);
    }
  }

  // Under its keys, every step has the effect it would have alone.
  lemma {:induction false} EachStepActsAlone(ops: seq<Op>, w: Wire, i: nat, k: string)
    requires Separate(ops) && i < |ops| && k in ops[i].Keys()
    ensures At(Through(ops, w), k) == At(ops[i].Apply(w), k)
  {
    var w' := ops[0].Apply(w);
    if i == 0 {
      forall j | 0 <= j < |ops[1..]| ensures k !in ops[1..][j].Keys() {
        assert ops[0].Keys() !! ops[j + 1].Keys();
      }
      UntouchedThrough(ops[1..], w', k);
    } else {
      assert ops[0].Keys() !! ops[i].Keys();
      forall x | x in ops[i].Keys() ensures At(w', x) == At(w, x) { StepIsLocal(ops[0], w, x); }
      StepDependsOnItsKeys(ops[i], w', w, k);
      EachStepActsAlone(ops[1..], w', i - 1, k);
    }
  }

  // A second pass changes nothing exactly when no single step would change its own result.
  lemma SecondPass(ops: seq<Op>, w: Wire)
    requires Separate(ops)
    ensures Through(ops, Through(ops, w)) == Through(ops, w) <==>
              forall i :: 0 <= i < |ops| ==> ops[i].Apply(ops[i].Apply(w)) == ops[i].Apply(w)
  {
    var once := Through(ops, w);
    var twice := Through(ops, once);
    forall i | 0 <= i < |ops| ensures ops[i].Apply(ops[i].Apply(w)) == ops[i].Apply(w) <==>
                                      forall k :: k in ops[i].Keys() ==> At(twice, k) == At(once, k)
    {
      StepTwice(ops, w, i);
    }
    if forall i :: 0 <= i < |ops| ==> ops[i].Apply(ops[i].Apply(w)) == ops[i].Apply(w) {
      forall k ensures At(twice, k) == At(once, k) {
        if j :| 0 <= j < |ops| && k in ops[j].Keys() {
        } else {
          UntouchedThrough(ops, once, k);
        }
      }
      SameAt(twice, once);
    }
  }

  lemma StepTwice(ops: seq<Op>, w: Wire, i: nat)
    requires Separate(ops) && i < |ops|
    ensures var once := Through(ops, w); var op := ops[i];
            op.Apply(op.Apply(w)) == op.Apply(w) <==>
              forall k :: k in op.Keys() ==> At(Through(ops, once), k) == At(once, k)
  {
    var once, op := Through(ops, w), ops[i];
    var one := op.Apply(w);
    forall k | k in op.Keys()
      ensures At(once, k) == At(one, k)
    {
      EachStepActsAlone(ops, w, i, k);
    }
    forall k | k in op.Keys()
      ensures At(Through(ops, once), k) == At(op.Apply(one), k)
    {
      EachStepActsAlone(ops, once, i, k);
      StepDependsOnItsKeys(op, once, one, k);
    }
    if forall k :: k in op.Keys() ==> At(Through(ops, once), k) == At(once, k) {
      forall k ensures At(op.Apply(one), k) == At(one, k) {
        if k !in op.Keys() { StepIsLocal(op, one, k); }
      }
      SameAt(op.Apply(one), one);
    }
  }

  // ---------- When one step changes its own result ----------

  // The id a value carries is part of the value.
  lemma IdIsInside(v: Json, idKeys: seq<string>)
    requires RefId(v, idKeys).Some?
    ensures RefId(v, idKeys).value != v && RefId(v, idKeys).value != Null
  {
    var k := First(v.fields, idKeys).value;
    assert v.fields[k] < v;
  }

  // A value from which an id can be extracted.
  predicate Ref(w: Wire, k: string, idKeys: seq<string>) {
    Lookup(w, k).Some? && RefId(w[k], idKeys).Some?
  }

  predicate OneSpelling(w: Wire, nested: seq<string>, idKeys: seq<string>) {
    !(|nested| == 2 && Ref(w, nested[0], idKeys) && Ref(w, nested[1], idKeys))
  }

  // Extracting ids from w leaves none to extract: no extracted id is itself a reference object, and
  // no nested reference of a subject comes in two spellings.
  ghost predicate Settles(op: Op, w: Wire) {
    match op
    case StripOp(_) => true
    case CoalesceOp(sources, _, idKeys) =>
      var id := FirstUsable(w, sources, idKeys);
      id.Some? ==> RefId(id.value, idKeys).None?
    case FlattenOp(key, idKeys) =>
      Lookup(w, key).Some? && w[key].Arr? ==>
        forall e :: e in w[key].elems && RefId(e, idKeys).Some? ==> RefId(RefId(e, idKeys).value, idKeys).None?
    case ScalarOp(primary, alt, idKeys) =>
      var k := First(w, [primary, alt]);
      k.Some? && RefId(w[k.value], idKeys).Some? ==> RefId(RefId(w[k.value], idKeys).value, idKeys).None?
    case NestedOp(nested, _, idKeys) => OneSpelling(w, nested, idKeys)
    case SubjectOp(key) =>
      Lookup(w, key).Some? && w[key].Obj? ==>
        OneSpelling(w[key].fields, GROUP_KEYS, GROUP_IDS) && OneSpelling(w[key].fields, IDENTITY_KEYS, IDENTITY_IDS)
  }

  const GROUP := NestedOp(GROUP_KEYS, "groupId", GROUP_IDS)
  const IDENTITY := NestedOp(IDENTITY_KEYS, "identityId", IDENTITY_IDS)

  lemma {:induction false} OnlyOneSource(w: Wire, sources: seq<string>, key: string, idKeys: seq<string>)
    requires "" !in sources && forall k :: k in sources && k != key ==> k !in w
    ensures FirstUsable(w, sources, idKeys) ==
              if key in sources && Lookup(w, key).Some? then UsableId(w[key], idKeys) else None
  {
    if sources == [] {
    } else {
      OnlyOneSource(w, sources[1..], key, idKeys);
    }
  }

  lemma {:induction false} UsableNotNull(w: Wire, sources: seq<string>, idKeys: seq<string>)
    ensures FirstUsable(w, sources, idKeys).Some? ==> FirstUsable(w, sources, idKeys).value != Null
  {
    if sources == [] {
    } else {
      UsableNotNull(w, sources[1..], idKeys);
    }
  }

  lemma CoalesceTwice(w: Wire, sources: seq<string>, key: string, idKeys: seq<string>)
    requires key in sources && "" !in sources
    ensures var once := Coalesce(w, sources, key, idKeys);
            Coalesce(once, sources, key, idKeys) == once <==> Settles(CoalesceOp(sources, key, idKeys), w)
  {
    var id, once := FirstUsable(w, sources, idKeys), Coalesce(w, sources, key, idKeys);
    if id.Some? {
      UsableNotNull(w, sources, idKeys);
      forall k | k in sources && k != key ensures k !in once { assert k in KeySet(sources); }
      OnlyOneSource(once, sources, key, idKeys);
      assert once[key] == id.value;
      if RefId(id.value, idKeys).Some? {
        IdIsInside(id.value, idKeys);
        assert At(Coalesce(once, sources, key, idKeys), key) == RefId(id.value, idKeys);
      } else {
        assert Coalesce(once, sources, key, idKeys) == once;
      }
    }
  }

  lemma FlattenTwice(w: Wire, key: string, idKeys: seq<string>)
    ensures var once := Flatten(w, key, idKeys);
            Flatten(once, key, idKeys) == once <==> Settles(FlattenOp(key, idKeys), w)
  {
    if Lookup(w, key).Some? && w[key].Arr? {
      var a := w[key].elems;
      var b := FlattenAll(a, idKeys);
      var once := Flatten(w, key, idKeys);
      assert once[key] == Arr(b);
      if Settles(FlattenOp(key, idKeys), w) {
        forall i | 0 <= i < |a| ensures FlattenElem(b[i], idKeys) == b[i] { assert a[i] in a; }
        assert FlattenAll(b, idKeys) == b;
        assert Flatten(once, key, idKeys) == once;
      } else {
        var e :| e in a && RefId(e, idKeys).Some? && RefId(RefId(e, idKeys).value, idKeys).Some?;
        var i :| 0 <= i < |a| && a[i] == e;
        IdIsInside(b[i], idKeys);
        assert FlattenAll(b, idKeys)[i] != b[i];
        assert At(Flatten(once, key, idKeys), key) == Some(Arr(FlattenAll(b, idKeys)));
      }
    }
  }

  lemma ScalarTwice(w: Wire, primary: string, alt: string, idKeys: seq<string>)
    ensures var once := Scalar(w, primary, alt, idKeys);
            Scalar(once, primary, alt, idKeys) == once <==> Settles(ScalarOp(primary, alt, idKeys), w)
  {
    var k := First(w, [primary, alt]);
    if k.Some? && RefId(w[k.value], idKeys).Some? {
      var id, once := RefId(w[k.value], idKeys).value, Scalar(w, primary, alt, idKeys);
      IdIsInside(w[k.value], idKeys);
      assert [primary, alt][1..] == [alt];
      assert First(once, [primary, alt]) == k;
      if RefId(id, idKeys).Some? {
        IdIsInside(id, idKeys);
        assert At(Scalar(once, primary, alt, idKeys), k.value) != At(once, k.value);
      }
    }
  }

  lemma NestedTwice(w: Wire, a: string, b: string, key: string, idKeys: seq<string>)
    requires a != b && a != key && b != key
    ensures var once := Nested(w, [a, b], key, idKeys);
            Nested(once, [a, b], key, idKeys) == once <==> Settles(NestedOp([a, b], key, idKeys), w)
  {
    var once := Nested(w, [a, b], key, idKeys);
    assert [a, b][1..] == [b];
    if Ref(w, a, idKeys) && Ref(w, b, idKeys) {
      assert First(once, [a, b]) == Some(b);
      assert b in once && b !in Nested(once, [a, b], key, idKeys);
    } else {
      assert First(w, [a, b]).Some? ==> Nested(once, [a, b], key, idKeys) == once;
    }
  }

  lemma SubjectTwice(w: Wire, key: string)
    ensures var once := Subject(w, key);
            Subject(once, key) == once <==> Settles(SubjectOp(key), w)
  {
    if Lookup(w, key).Some? && w[key].Obj? {
      var sub := w[key].fields;
      SubjectFieldsTwice(sub);
      var once := Subject(w, key);
      assert once[key] == Obj(SubjectFields(sub));
      assert At(Subject(once, key), key) == Some(Obj(SubjectFields(SubjectFields(sub))));
      if SubjectFields(SubjectFields(sub)) == SubjectFields(sub) {
        assert Subject(once, key) == once;
      }
    }
  }

  lemma SubjectFieldsTwice(sub: Wire)
    ensures SubjectFields(SubjectFields(sub)) == SubjectFields(sub) <==> Settles(GROUP, sub) && Settles(IDENTITY, sub)
  {
    var ops := [GROUP, IDENTITY];
    forall w ensures SubjectFields(w) == Through(ops, w) { ThroughSteps(ops, w); }
    assert GROUP.Keys() !! IDENTITY.Keys() by {
      assert GROUP_KEYS[0][0] == 'G' && GROUP_KEYS[1][0] == 'g' && "groupId"[0] == 'g';
      assert IDENTITY_KEYS[0][0] == 'I' && IDENTITY_KEYS[1][0] == 'i' && "identityId"[0] == 'i';
    }
    SecondPass(ops, sub);
    NestedTwice(sub, "Group", "group", "groupId", GROUP_IDS);
    NestedTwice(sub, "Identity", "identity", "identityId", IDENTITY_IDS);
    assert ops[0].Apply(ops[0].Apply(sub)) == ops[0].Apply(sub) <==> Settles(GROUP, sub);
    assert ops[1].Apply(ops[1].Apply(sub)) == ops[1].Apply(sub) <==> Settles(IDENTITY, sub);
  }

  // Well-formed steps: what the literals in Steps satisfy.
  predicate Proper(op: Op) {
    match op
    case CoalesceOp(sources, key, _) => key in sources && "" !in sources
    case NestedOp(nested, key, _) => |nested| == 2 && nested[0] != nested[1] && key !in nested
    case _ => true
  }

  lemma StepSettles(op: Op, w: Wire)
    requires Proper(op)
    ensures op.Apply(op.Apply(w)) == op.Apply(w) <==> Settles(op, w)
  {
    match op
    case StripOp(_) =>
    case CoalesceOp(sources, key, idKeys) => CoalesceTwice(w, sources, key, idKeys);
    case FlattenOp(key, idKeys) => FlattenTwice(w, key, idKeys);
    case ScalarOp(primary, alt, idKeys) => ScalarTwice(w, primary, alt, idKeys);
    case SubjectOp(key) => SubjectTwice(w, key);
    case NestedOp(nested, key, idKeys) =>
      assert nested == [nested[0], nested[1]];
      NestedTwice(w, nested[0], nested[1], key, idKeys);
  }

  // ---------- Every resource kind ----------

  ghost predicate Sound(ops: seq<Op>) {
    Separate(ops) && forall i :: 0 <= i < |ops| ==> Proper(ops[i])
  }

  // The first letters of the keys of each step; within a kind, no two steps share one.
  function Letters(rt: ResourceType): seq<string> {
    match rt
    case SystemInstanceResource => ["Ss", "Cc"]
    case APIInstanceResource => ["Aa", "Ss"]
    case ComponentInstanceResource => ["Cc", "Ss"]
    case ContextResource => ["Tt", "Pp"]
    case RoleResource => ["Ss", "Cc", "P", "p"]
    case RoleSpecResource => ["P", "p"]
    case BindingResource => ["Rr", "s", "S"]
    case _ => if |Steps(rt)| == 1 then [""] else []
  }

  ghost predicate Begins(op: Op, letters: string) {
    forall k :: k in op.Keys() ==> k != "" && k[0] in letters
  }

  lemma StepsBegin(rt: ResourceType)
    requires |Steps(rt)| >= 2
    ensures |Letters(rt)| == |Steps(rt)|
    ensures forall i :: 0 <= i < |Steps(rt)| ==> Begins(Steps(rt)[i], Letters(rt)[i])
  {
    if rt.RoleResource? || rt.RoleSpecResource? || rt.BindingResource? {
      IamStepsBegin(rt);
    } else if rt.ContextResource? {
      ContextStepsBegin();
    } else {
      InstanceStepsBegin(rt);
    }
  }

  lemma ContextStepsBegin()
    ensures var rt := ContextResource;
            |Letters(rt)| == |Steps(rt)| && forall i :: 0 <= i < |Steps(rt)| ==> Begins(Steps(rt)[i], Letters(rt)[i])
  {
  }

  lemma IamStepsBegin(rt: ResourceType)
    requires rt.RoleResource? || rt.RoleSpecResource? || rt.BindingResource?
    ensures |Letters(rt)| == |Steps(rt)|
    ensures forall i :: 0 <= i < |Steps(rt)| ==> Begins(Steps(rt)[i], Letters(rt)[i])
  {
  }

  lemma InstanceStepsBegin(rt: ResourceType)
    requires rt.SystemInstanceResource? || rt.APIInstanceResource? || rt.ComponentInstanceResource?
    ensures |Letters(rt)| == |Steps(rt)|
    ensures forall i :: 0 <= i < |Steps(rt)| ==> Begins(Steps(rt)[i], Letters(rt)[i])
  {
  }

  lemma LettersApart(rt: ResourceType, i: nat, j: nat)
    requires i < j < |Letters(rt)|
    ensures forall c :: c in Letters(rt)[i] ==> c !in Letters(rt)[j]
  {
  }

  lemma ReferenceStepsApart(rt: ResourceType)
    ensures Separate(Steps(rt))
  {
    if |Steps(rt)| >= 2 {
      StepsBegin(rt);
      forall i, j | 0 <= i < j < |Steps(rt)| ensures Steps(rt)[i].Keys() !! Steps(rt)[j].Keys() {
        LettersApart(rt, i, j);
      }
    }
  }

  lemma StepsProper(rt: ResourceType)
    ensures forall i :: 0 <= i < |Steps(rt)| ==> Proper(Steps(rt)[i])
  {
    if rt.RoleResource? || rt.RoleSpecResource? || rt.BindingResource? {
      IamStepsProper(rt);
    } else {
      ReferenceStepsProper(rt);
    }
  }

  lemma ReferenceStepsProper(rt: ResourceType)
    requires !rt.RoleResource? && !rt.RoleSpecResource? && !rt.BindingResource?
    ensures forall i :: 0 <= i < |Steps(rt)| ==> Proper(Steps(rt)[i])
  {
  }

  lemma IamStepsProper(rt: ResourceType)
    requires rt.RoleResource? || rt.RoleSpecResource? || rt.BindingResource?
    ensures forall i :: 0 <= i < |Steps(rt)| ==> Proper(Steps(rt)[i])
  {
  }

  lemma AnnotationsApart(rt: ResourceType)
    ensures forall i :: 0 <= i < |Steps(rt)| ==>
      "Annotations" !in Steps(rt)[i].Keys() && "annotations" !in Steps(rt)[i].Keys()
  {
    if |Steps(rt)| >= 2 && !rt.APIInstanceResource? {
      StepsBegin(rt);
      forall i | 0 <= i < |Steps(rt)|
        ensures "Annotations" !in Steps(rt)[i].Keys() && "annotations" !in Steps(rt)[i].Keys()
      {
        NoLetterA(rt, i);
        NotBegun(Steps(rt)[i], Letters(rt)[i]);
      }
    } else {
      FewStepsApart(rt);
    }
  }

  lemma NoLetterA(rt: ResourceType, i: nat)
    requires i < |Letters(rt)| && !rt.APIInstanceResource?
    ensures 'A' !in Letters(rt)[i] && 'a' !in Letters(rt)[i]
  {
  }

  lemma NotBegun(op: Op, letters: string)
    requires Begins(op, letters) && 'A' !in letters && 'a' !in letters
    ensures "Annotations" !in op.Keys() && "annotations" !in op.Keys()
  {
    assert "Annotations"[0] == 'A' && "annotations"[0] == 'a';
  }

  lemma FewStepsApart(rt: ResourceType)
    requires |Steps(rt)| < 2 || rt.APIInstanceResource?
    ensures forall i :: 0 <= i < |Steps(rt)| ==>
      "Annotations" !in Steps(rt)[i].Keys() && "annotations" !in Steps(rt)[i].Keys()
  {
    if rt.APIInstanceResource? { ApiInstanceStepsApart(); }
  }

  lemma ApiInstanceStepsApart()
    ensures forall i :: 0 <= i < |Steps(APIInstanceResource)| ==>
      "Annotations" !in Steps(APIInstanceResource)[i].Keys() && "annotations" !in Steps(APIInstanceResource)[i].Keys()
  {
  }

  // Two more steps in front of sound ones.
  lemma SoundWith(a: Op, b: Op, ops: seq<Op>)
    requires Sound(ops) && Proper(a) && Proper(b) && a.Keys() !! b.Keys()
    requires forall i :: 0 <= i < |ops| ==> a.Keys() !! ops[i].Keys() && b.Keys() !! ops[i].Keys()
    ensures Sound([a, b] + ops)
  {
    var all := [a, b] + ops;
    assert all[0] == a && all[1] == b;
    forall i | 2 <= i < |all| ensures all[i] == ops[i - 2] {}
  }

  lemma StepsAreSound(rt: ResourceType)
    ensures Sound(AllSteps(rt))
  {
    ReferenceStepsApart(rt);
    StepsProper(rt);
    AnnotationsApart(rt);
    assert "Annotations"[0] == 'A' && "annotations"[0] == 'a';
    SoundWith(StripOp("Annotations"), StripOp("annotations"), Steps(rt));
  }

  // The key under which a resource of this kind carries its own id; the two kinds that are not
  // resources have none.
  function OwnIdKey(rt: ResourceType): Option<string> {
    match rt
    case NodeResource => Some("nodeId")
    case NodeTypeResource => Some("nodeTypeId")
    case ContextResource => Some("contextId")
    case ContextTypeResource => Some("contextTypeId")
    case SystemResource => Some("systemId")
    case SystemInstanceResource => Some("systemInstanceId")
    case APIResource => Some("apiId")
    case APIInstanceResource => Some("apiInstanceId")
    case ComponentResource => Some("componentId")
    case ComponentInstanceResource => Some("componentInstanceId")
    case OrgUnitResource => Some("orgUnitId")
    case GroupResource => Some("groupId")
    case IdentityResource => Some("identityId")
    case PermissionSpecResource => Some("permissionSpecId")
    case RoleSpecResource => Some("roleSpecId")
    case PermissionResource => Some("permissionId")
    case RoleResource => Some("roleId")
    case BindingResource => Some("bindingId")
    case ProductResource => Some("productId")
    case FindingResource => Some("findingId")
    case FindingTypeResource => Some("findingTypeId")
    case ArtifactResource => Some("artifactId")
    case ArtifactInstanceResource => Some("artifactInstanceId")
    case FilterRuleResource => Some("ruleId")
    case MergeRuleResource => Some("ruleId")
    case CapabilityResource => Some("capabilityId")
    case ParameterResource => Some("parameterId")
    case CapacityResourceTypeResource => Some("capacityResourceTypeId")
    case CapacityResource => Some("capacityId")
    case UnknownResourceType => None
    case AnnotationsResource => None
    case Undeclared(_) => None
  }

  ghost predicate LooksAt(rt: ResourceType, k: string) {
    exists i :: 0 <= i < |AllSteps(rt)| && k in AllSteps(rt)[i].Keys()
  }

  lemma OwnIdIsNoStepsKey(rt: ResourceType)
    requires OwnIdKey(rt).Some?
    ensures !LooksAt(rt, OwnIdKey(rt).value)
  {
    if |Steps(rt)| == 0 {
      PlainIdIsNoStepsKey(rt);
    } else if rt.SystemInstanceResource? || rt.APIInstanceResource? || rt.ComponentInstanceResource? {
      InstanceIdIsNoStepsKey(rt);
    } else if AccessKind(rt) {
      AccessIdIsNoStepsKey(rt);
    } else {
      OtherIdIsNoStepsKey(rt);
    }
  }

  lemma PlainIdIsNoStepsKey(rt: ResourceType)
    requires OwnIdKey(rt).Some? && |Steps(rt)| == 0
    ensures !LooksAt(rt, OwnIdKey(rt).value)
  {
    var k := OwnIdKey(rt).value;
    IdKeysEndInD(rt);
    assert "Annotations"[|"Annotations"| - 1] == 's' && "annotations"[|"annotations"| - 1] == 's';
    assert Steps(rt) == [];
  }

  lemma IdKeysEndInD(rt: ResourceType)
    requires OwnIdKey(rt).Some?
    ensures var k := OwnIdKey(rt).value; |k| > 0 && k[|k| - 1] == 'd'
  {
  }

  lemma InstanceIdIsNoStepsKey(rt: ResourceType)
    requires rt.SystemInstanceResource? || rt.APIInstanceResource? || rt.ComponentInstanceResource?
    ensures !LooksAt(rt, OwnIdKey(rt).value)
  {
  }

  predicate AccessKind(rt: ResourceType) {
    rt.PermissionResource? || rt.RoleResource? || rt.RoleSpecResource? || rt.BindingResource?
  }

  lemma AccessIdIsNoStepsKey(rt: ResourceType)
    requires AccessKind(rt)
    ensures !LooksAt(rt, OwnIdKey(rt).value)
  {
  }

  lemma OtherIdIsNoStepsKey(rt: ResourceType)
    requires OwnIdKey(rt).Some? && |Steps(rt)| > 0 && !AccessKind(rt)
    requires !rt.SystemInstanceResource? && !rt.APIInstanceResource? && !rt.ComponentInstanceResource?
    ensures !LooksAt(rt, OwnIdKey(rt).value)
  {
  }

  // ---------- The promises ----------

  // A key that no step of the kind looks at keeps its value; in particular the resource's own id.
  lemma OtherKeysUnchanged(rt: ResourceType, w: Wire, k: string)
    requires !LooksAt(rt, k)
    ensures At(Normalize(rt, w), k) == At(w, k)
  {
    UntouchedThrough(AllSteps(rt), w, k);
  }

  lemma OwnIdUnchanged(rt: ResourceType, w: Wire)
    requires OwnIdKey(rt).Some?
    ensures At(Normalize(rt, w), OwnIdKey(rt).value) == At(w, OwnIdKey(rt).value)
  {
    OwnIdIsNoStepsKey(rt);
    OtherKeysUnchanged(rt, w, OwnIdKey(rt).value);
  }

  // Every reference that is coalesced to an OpenAPI field ends as the first usable id among its
  // spellings, under the canonical key alone; if there is none, all spellings stay as they are.
  lemma ReferencesCoalesced(rt: ResourceType, w: Wire, i: nat)
    requires i < |AllSteps(rt)| && AllSteps(rt)[i].CoalesceOp?
    ensures var op := AllSteps(rt)[i];
            var id := FirstUsable(w, op.sources, op.idKeys);
            && (id.Some? ==> At(Normalize(rt, w), op.key) == id)
            && (id.Some? ==> forall k :: k in op.sources && k != op.key ==> k !in Normalize(rt, w))
            && (id.None? ==> forall k :: k in op.sources ==> At(Normalize(rt, w), k) == At(w, k))
  {
    var ops := AllSteps(rt);
    var op := ops[i];
    StepsAreSound(rt);
    assert Proper(op);
    forall k | k in op.Keys() ensures At(Normalize(rt, w), k) == At(op.Apply(w), k) {
      EachStepActsAlone(ops, w, i, k);
    }
    forall k | k in op.sources && k != op.key && FirstUsable(w, op.sources, op.idKeys).Some?
      ensures k !in Normalize(rt, w)
    {
      assert k in op.Keys() && k !in op.Apply(w);
      assert At(Normalize(rt, w), k) == None;
    }
    forall k | k in op.sources ensures k in op.Keys() {}
  }

  // Normalizing a second time changes nothing exactly when no extracted id is itself a reference
  // object and no nested reference of a binding's subject comes in two spellings.
  lemma SecondPassIsIdle(rt: ResourceType, w: Wire)
    ensures Normalize(rt, Normalize(rt, w)) == Normalize(rt, w) <==>
              forall i :: 0 <= i < |AllSteps(rt)| ==> Settles(AllSteps(rt)[i], w)
  {
    var ops := AllSteps(rt);
    StepsAreSound(rt);
    SecondPass(ops, w);
    forall i | 0 <= i < |ops|
      ensures ops[i].Apply(ops[i].Apply(w)) == ops[i].Apply(w) <==> Settles(ops[i], w)
    {
      assert Proper(ops[i]);
      StepSettles(ops[i], w);
    }
  }
}
