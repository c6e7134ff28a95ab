// What normalizing does to each kind of resource, key by key and in the wire map's own terms.
module WireKinds {
  import opened Wrappers
  import opened Events
  import opened Fold
  import opened WireNormalize
  import opened WireProperties

  // ---------- Which id a value stands for ----------

  // The object holds x under the first of these keys that has a value other than null.
  ghost predicate Carries(v: Json, ids: seq<string>, x: Json) {
    && v.Obj? && x != Null
    && exists p :: 0 <= p < |ids| && ids[p] in v.fields && v.fields[ids[p]] == x
                && forall q :: 0 <= q < p && ids[q] in v.fields ==> v.fields[ids[q]] == Null
  }

  // A string or a number stands for itself, and an object for the id it carries.
  ghost predicate Gives(v: Json, ids: seq<string>, x: Json) {
    ((v.Str? || v.Number?) && x == v) || Carries(v, ids, x)
  }

  ghost predicate GivesAny(w: Wire, k: string, ids: seq<string>) {
    k in w && exists x :: Gives(w[k], ids, x)
  }

  // x is what the first of these keys to give anything gives.
  ghost predicate FirstGiven(w: Wire, sources: seq<string>, ids: seq<string>, x: Json) {
    exists i :: 0 <= i < |sources| && sources[i] in w && Gives(w[sources[i]], ids, x)
             && forall j :: 0 <= j < i ==> !GivesAny(w, sources[j], ids)
  }

  lemma {:induction false} FirstMeans(w: Wire, keys: seq<string>)
    ensures First(w, keys).Some? ==>
              exists p :: 0 <= p < |keys| && keys[p] == First(w, keys).value
                          && forall q :: 0 <= q < p && keys[q] in w ==> w[keys[q]] == Null
    ensures First(w, keys).None? ==> forall q :: 0 <= q < |keys| && keys[q] in w ==> w[keys[q]] == Null
  {
    if keys == [] {
    } else {
      FirstMeans(w, keys[1..]);
      if First(w, keys).Some? && First(w, keys).value != keys[0] {
        var p :| 0 <= p < |keys[1..]| && keys[1..][p] == First(w, keys).value
                 && forall q :: 0 <= q < p && keys[1..][q] in w ==> w[keys[1..][q]] == Null;
        forall q | 0 <= q < p + 1 && keys[q] in w ensures w[keys[q]] == Null {
          if q > 0 { assert keys[1..][q - 1] == keys[q]; }
        }
        assert keys[p + 1] == First(w, keys).value;
      }
      if First(w, keys).None? {
        forall q | 0 <= q < |keys| && keys[q] in w ensures w[keys[q]] == Null {
          if q > 0 { assert keys[1..][q - 1] == keys[q]; }
        }
      }
    }
  }

  lemma CarriesMeans(v: Json, ids: seq<string>, x: Json)
    ensures Carries(v, ids, x) <==> RefId(v, ids) == Some(x)
  {
    if v.Obj? {
      FirstMeans(v.fields, ids);
      if Carries(v, ids, x) {
        var p :| 0 <= p < |ids| && ids[p] in v.fields && v.fields[ids[p]] == x
                 && forall q :: 0 <= q < p && ids[q] in v.fields ==> v.fields[ids[q]] == Null;
        var k := First(v.fields, ids).value;
        var r :| 0 <= r < |ids| && ids[r] == k
                 && forall q :: 0 <= q < r && ids[q] in v.fields ==> v.fields[ids[q]] == Null;
      }
    }
  }

  lemma GivesMeans(v: Json, ids: seq<string>, x: Json)
    ensures Gives(v, ids, x) <==> UsableId(v, ids) == Some(x)
  {
    CarriesMeans(v, ids, x);
  }

  lemma GivesAnyMeans(w: Wire, k: string, ids: seq<string>)
    ensures GivesAny(w, k, ids) <==> Lookup(w, k).Some? && UsableId(w[k], ids).Some?
  {
    if k in w {
      forall x ensures Gives(w[k], ids, x) <==> UsableId(w[k], ids) == Some(x) { GivesMeans(w[k], ids, x); }
      if UsableId(w[k], ids).Some? { assert Gives(w[k], ids, UsableId(w[k], ids).value); }
    }
  }

  lemma {:induction false} FirstUsableMeans(w: Wire, sources: seq<string>, ids: seq<string>, x: Json)
    requires "" !in sources
    ensures FirstGiven(w, sources, ids, x) <==> FirstUsable(w, sources, ids) == Some(x)
  {
    if sources == [] {
    } else {
      var rest := sources[1..];
      GivesAnyMeans(w, sources[0], ids);
      if sources[0] in w { GivesMeans(w[sources[0]], ids, x); }
      FirstUsableMeans(w, rest, ids, x);
      if FirstGiven(w, sources, ids, x) {
        var i :| 0 <= i < |sources| && sources[i] in w && Gives(w[sources[i]], ids, x)
                 && forall j :: 0 <= j < i ==> !GivesAny(w, sources[j], ids);
        if i > 0 {
          assert rest[i - 1] == sources[i] && forall j :: 0 <= j < i - 1 ==> rest[j] == sources[j + 1];
          assert !GivesAny(w, sources[0], ids);
        }
      }
      if FirstGiven(w, rest, ids, x) && !GivesAny(w, sources[0], ids) {
        var i :| 0 <= i < |rest| && rest[i] in w && Gives(w[rest[i]], ids, x)
                 && forall j :: 0 <= j < i ==> !GivesAny(w, rest[j], ids);
        forall j | 0 <= j < i + 1 ensures !GivesAny(w, sources[j], ids) {
          if j > 0 { assert rest[j - 1] == sources[j]; }
        }
        assert sources[i + 1] == rest[i];
      }
    }
  }

  // ---------- What may happen to a key ----------

  // The reference ends as the first id its spellings give, under its OpenAPI key alone; if they give
  // none, they stay as they are.
  ghost predicate Coalesced(w: Wire, out: Wire, sources: seq<string>, key: string, ids: seq<string>) {
    && (forall x :: FirstGiven(w, sources, ids, x) ==>
          At(out, key) == Some(x) && forall k :: k in sources && k != key ==> k !in out)
    && ((forall x :: !FirstGiven(w, sources, ids, x)) ==> forall k :: k in sources ==> At(out, k) == At(w, k))
  }

  // What a domain struct encodes as an object with an id is that id under the OpenAPI key.
  ghost predicate Carried(w: Wire, out: Wire, field: string, id: string, key: string) {
    forall x :: field in w && w[field].Obj? && id in w[field].fields && w[field].fields[id] == x && x != Null ==>
      At(out, key) == Some(x) && field !in out
  }

  // Elements that carry an id become it; everything else stays.
  ghost predicate Flattened(w: Wire, out: Wire, key: string, ids: seq<string>) {
    if key in w && w[key].Arr? then
      && key in out && out[key].Arr? && |out[key].elems| == |w[key].elems|
      && forall i :: 0 <= i < |w[key].elems| ==> Extracted(w[key].elems[i], out[key].elems[i], ids)
    else At(out, key) == At(w, key)
  }

  ghost predicate Extracted(v: Json, out: Json, ids: seq<string>) {
    (forall x :: Carries(v, ids, x) ==> out == x) && ((forall x :: !Carries(v, ids, x)) ==> out == v)
  }

  // The first of two keys with a value other than null.
  ghost predicate Leads(w: Wire, k: string, primary: string, alt: string) {
    && k in w && w[k] != Null
    && (k == primary || (k == alt && (primary in w ==> w[primary] == Null)))
  }

  // A reference object is replaced by its id where it is found.
  ghost predicate Replaced(w: Wire, out: Wire, primary: string, alt: string, ids: seq<string>) {
    forall k :: k == primary || k == alt ==>
      if Leads(w, k, primary, alt) then k in out && Extracted(w[k], out[k], ids) else At(out, k) == At(w, k)
  }

  ghost predicate Refers(f: Wire, k: string, primary: string, alt: string, ids: seq<string>, x: Json) {
    Leads(f, k, primary, alt) && Carries(f[k], ids, x)
  }

  // A nested reference goes, and its id is put beside it.
  ghost predicate Sibling(f: Wire, out: Wire, primary: string, alt: string, key: string, ids: seq<string>) {
    && (forall k, x :: Refers(f, k, primary, alt, ids, x) ==>
          && At(out, key) == Some(x) && k !in out
          && (k != primary ==> At(out, primary) == At(f, primary)) && (k != alt ==> At(out, alt) == At(f, alt)))
    && ((forall k, x :: !Refers(f, k, primary, alt, ids, x)) ==> Same3(f, out, primary, alt, key))
  }

  predicate Same3(f: Wire, g: Wire, a: string, b: string, c: string) {
    At(g, a) == At(f, a) && At(g, b) == At(f, b) && At(g, c) == At(f, c)
  }

  ghost predicate SubjectNormalized(w: Wire, out: Wire, key: string) {
    if key in w && w[key].Obj? then
      && key in out && out[key].Obj?
      && Sibling(w[key].fields, out[key].fields, "Group", "group", "groupId", ["groupId", "GroupId", "group_id"])
      && Sibling(w[key].fields, out[key].fields, "Identity", "identity", "identityId",
                 ["identityId", "IdentityId", "identity_id"])
      && Elsewhere(w[key].fields, out[key].fields, {"Group", "group", "groupId", "Identity", "identity", "identityId"})
    else At(out, key) == At(w, key)
  }

  // An empty object under an annotations key goes, and anything else stays.
  ghost predicate Stripped(w: Wire, out: Wire) {
    forall k :: k == "Annotations" || k == "annotations" ==>
      At(out, k) == if At(w, k) == Some(Obj(map[])) then None else At(w, k)
  }

  ghost predicate Elsewhere(w: Wire, out: Wire, keys: set<string>) {
    forall k :: k !in keys ==> At(out, k) == At(w, k)
  }

  // ---------- What single steps do ----------

  lemma StepAlone(rt: ResourceType, w: Wire, i: nat, k: string)
    requires i < |Steps(rt)| && k in Steps(rt)[i].Keys()
    ensures At(Normalize(rt, w), k) == At(Steps(rt)[i].Apply(w), k)
  {
    StepsAreSound(rt);
    assert AllSteps(rt)[i + 2] == Steps(rt)[i];
    EachStepActsAlone(AllSteps(rt), w, i + 2, k);
  }

  lemma CoalesceStep(rt: ResourceType, w: Wire, i: nat)
    requires i < |Steps(rt)| && Steps(rt)[i].CoalesceOp?
    ensures var op := Steps(rt)[i]; Coalesced(w, Normalize(rt, w), op.sources, op.key, op.idKeys)
  {
    var op, out := Steps(rt)[i], Normalize(rt, w);
    assert AllSteps(rt)[i + 2] == op;
    ReferencesCoalesced(rt, w, i + 2);
    StepsAreSound(rt);
    assert Proper(op);
    forall x ensures FirstGiven(w, op.sources, op.idKeys, x) <==> FirstUsable(w, op.sources, op.idKeys) == Some(x) {
      FirstUsableMeans(w, op.sources, op.idKeys, x);
    }
    if FirstUsable(w, op.sources, op.idKeys).Some? {
      assert FirstGiven(w, op.sources, op.idKeys, FirstUsable(w, op.sources, op.idKeys).value);
    }
  }

  lemma DomainField(w: Wire, out: Wire, sources: seq<string>, key: string, ids: seq<string>)
    requires Coalesced(w, out, sources, key, ids) && sources != [] && ids != [] && sources[0] != key
    ensures Carried(w, out, sources[0], ids[0], key)
  {
    forall x | sources[0] in w && w[sources[0]].Obj? && ids[0] in w[sources[0]].fields
               && w[sources[0]].fields[ids[0]] == x && x != Null
      ensures At(out, key) == Some(x) && sources[0] !in out
    {
      assert Carries(w[sources[0]], ids, x);
      assert FirstGiven(w, sources, ids, x);
      assert sources[0] in sources;
    }
  }

  lemma CoalescesField(rt: ResourceType, w: Wire, i: nat)
    requires i < |Steps(rt)| && Steps(rt)[i].CoalesceOp?
    requires var op := Steps(rt)[i]; op.sources != [] && op.idKeys != [] && op.sources[0] != op.key
    ensures var op := Steps(rt)[i];
            && Coalesced(w, Normalize(rt, w), op.sources, op.key, op.idKeys)
            && Carried(w, Normalize(rt, w), op.sources[0], op.idKeys[0], op.key)
  {
    CoalesceStep(rt, w, i);
    var op := Steps(rt)[i];
    DomainField(w, Normalize(rt, w), op.sources, op.key, op.idKeys);
  }

  lemma ExtractedMeans(v: Json, ids: seq<string>)
    ensures Extracted(v, if RefId(v, ids).Some? then RefId(v, ids).value else v, ids)
  {
    forall x ensures Carries(v, ids, x) <==> RefId(v, ids) == Some(x) { CarriesMeans(v, ids, x); }
    if RefId(v, ids).Some? { assert Carries(v, ids, RefId(v, ids).value); }
  }

  lemma FlattenStep(rt: ResourceType, w: Wire, i: nat)
    requires i < |Steps(rt)| && Steps(rt)[i].FlattenOp?
    ensures var op := Steps(rt)[i]; Flattened(w, Normalize(rt, w), op.key, op.idKeys)
  {
    var op := Steps(rt)[i];
    StepAlone(rt, w, i, op.key);
    FlattenMeans(w, Normalize(rt, w), op.key, op.idKeys);
  }

  lemma FlattenMeans(w: Wire, out: Wire, key: string, ids: seq<string>)
    requires At(out, key) == At(Flatten(w, key, ids), key)
    ensures Flattened(w, out, key, ids)
  {
    if key in w && w[key].Arr? {
      forall j | 0 <= j < |w[key].elems| ensures Extracted(w[key].elems[j], FlattenElem(w[key].elems[j], ids), ids) {
        ExtractedMeans(w[key].elems[j], ids);
      }
    }
  }

  lemma ScalarStep(rt: ResourceType, w: Wire, i: nat)
    requires i < |Steps(rt)| && Steps(rt)[i].ScalarOp? && Steps(rt)[i].primary != Steps(rt)[i].alt
    ensures var op := Steps(rt)[i]; Replaced(w, Normalize(rt, w), op.primary, op.alt, op.idKeys)
  {
    var op := Steps(rt)[i];
    StepAlone(rt, w, i, op.primary);
    StepAlone(rt, w, i, op.alt);
    ScalarReplaces(w, op.primary, op.alt, op.idKeys);
  }

  lemma FirstOfTwo(w: Wire, a: string, b: string)
    requires a != b
    ensures First(w, [a, b]) == if Leads(w, a, a, b) then Some(a) else if Leads(w, b, a, b) then Some(b) else None
    ensures forall k :: Leads(w, k, a, b) <==> First(w, [a, b]) == Some(k)
  {
    assert [a, b][1..] == [b] && [b][1..] == [];
  }

  lemma ScalarReplaces(w: Wire, primary: string, alt: string, ids: seq<string>)
    requires primary != alt
    ensures Replaced(w, Scalar(w, primary, alt, ids), primary, alt, ids)
  {
    FirstOfTwo(w, primary, alt);
    forall k | k in w ensures Extracted(w[k], if RefId(w[k], ids).Some? then RefId(w[k], ids).value else w[k], ids) {
      ExtractedMeans(w[k], ids);
    }
  }

  lemma NestedSibling(f: Wire, primary: string, alt: string, key: string, ids: seq<string>)
    requires primary != alt && key != primary && key != alt
    ensures Sibling(f, Nested(f, [primary, alt], key, ids), primary, alt, key, ids)
  {
    forall k, x ensures Refers(f, k, primary, alt, ids, x) <==>
                        First(f, [primary, alt]) == Some(k) && RefId(f[k], ids) == Some(x)
    {
      RefersMeans(f, k, primary, alt, ids, x);
    }
    var k := First(f, [primary, alt]);
    if k.Some? && RefId(f[k.value], ids).Some? {
      assert Refers(f, k.value, primary, alt, ids, RefId(f[k.value], ids).value);
    }
  }

  lemma RefersMeans(f: Wire, k: string, primary: string, alt: string, ids: seq<string>, x: Json)
    requires primary != alt
    ensures Refers(f, k, primary, alt, ids, x) <==> First(f, [primary, alt]) == Some(k) && RefId(f[k], ids) == Some(x)
  {
    FirstOfTwo(f, primary, alt);
    if k in f { CarriesMeans(f[k], ids, x); }
  }

  lemma SiblingElsewhere(f: Wire, g: Wire, h: Wire, primary: string, alt: string, key: string, ids: seq<string>)
    requires Sibling(f, g, primary, alt, key, ids) && Same3(g, h, primary, alt, key)
    ensures Sibling(f, h, primary, alt, key, ids)
  {
    forall k, x | Refers(f, k, primary, alt, ids, x) ensures At(h, key) == Some(x) && k !in h {
      assert k == primary || k == alt;
      assert At(h, k) == At(g, k) == None;
    }
  }

  lemma SiblingFrom(e: Wire, f: Wire, g: Wire, primary: string, alt: string, key: string, ids: seq<string>)
    requires Sibling(f, g, primary, alt, key, ids) && Same3(e, f, primary, alt, key)
    ensures Sibling(e, g, primary, alt, key, ids)
  {
    forall k, x ensures Refers(e, k, primary, alt, ids, x) <==> Refers(f, k, primary, alt, ids, x) {
      if k == primary || k == alt { assert At(f, k) == At(e, k); }
    }
  }

  lemma NestedLocal(f: Wire, primary: string, alt: string, key: string, ids: seq<string>)
    ensures Elsewhere(f, Nested(f, [primary, alt], key, ids), {primary, alt, key})
  {
    forall k | k !in {primary, alt, key} ensures At(Nested(f, [primary, alt], key, ids), k) == At(f, k) {
      StepIsLocal(NestedOp([primary, alt], key, ids), f, k);
    }
  }

  lemma SubjectKeysDiffer()
    ensures {"Group", "group", "groupId"} !! {"Identity", "identity", "identityId"}
    ensures "Group" != "group" && "Group" != "groupId" && "group" != "groupId"
    ensures "Identity" != "identity" && "Identity" != "identityId" && "identity" != "identityId"
  {
    assert "Group"[0] == 'G' && "group"[0] == 'g' && "groupId"[0] == 'g' && |"group"| == 5 && |"groupId"| == 7;
    assert "Identity"[0] == 'I' && "identity"[0] == 'i' && "identityId"[0] == 'i' && |"identity"| == 8;
    assert |"identityId"| == 10;
  }

  lemma SubjectFieldsMean(f: Wire)
    ensures var out := SubjectFields(f);
            && Sibling(f, out, "Group", "group", "groupId", ["groupId", "GroupId", "group_id"])
            && Sibling(f, out, "Identity", "identity", "identityId", ["identityId", "IdentityId", "identity_id"])
            && Elsewhere(f, out, {"Group", "group", "groupId", "Identity", "identity", "identityId"})
  {
    var g := Nested(f, GROUP_KEYS, "groupId", GROUP_IDS);
    var out := SubjectFields(f);
    SubjectKeysDiffer();
    NestedSibling(f, "Group", "group", "groupId", GROUP_IDS);
    NestedSibling(g, "Identity", "identity", "identityId", IDENTITY_IDS);
    NestedLocal(f, "Group", "group", "groupId", GROUP_IDS);
    NestedLocal(g, "Identity", "identity", "identityId", IDENTITY_IDS);
    SiblingElsewhere(f, g, out, "Group", "group", "groupId", GROUP_IDS);
    SiblingFrom(f, g, out, "Identity", "identity", "identityId", IDENTITY_IDS);
  }

  lemma SubjectStep(rt: ResourceType, w: Wire, i: nat)
    requires i < |Steps(rt)| && Steps(rt)[i].SubjectOp?
    ensures SubjectNormalized(w, Normalize(rt, w), Steps(rt)[i].key)
  {
    StepAlone(rt, w, i, Steps(rt)[i].key);
    SubjectMeans(w, Normalize(rt, w), Steps(rt)[i].key);
  }

  lemma SubjectMeans(w: Wire, out: Wire, key: string)
    requires At(out, key) == At(Subject(w, key), key)
    ensures SubjectNormalized(w, out, key)
  {
    if key in w && w[key].Obj? { SubjectFieldsMean(w[key].fields); }
  }

  lemma StripsAnnotations(rt: ResourceType, w: Wire)
    ensures Stripped(w, Normalize(rt, w))
  {
    StepsAreSound(rt);
    EachStepActsAlone(AllSteps(rt), w, 0, "Annotations");
    EachStepActsAlone(AllSteps(rt), w, 1, "annotations");
  }

  lemma NothingElse(rt: ResourceType, w: Wire, keys: set<string>)
    requires "Annotations" in keys && "annotations" in keys
    requires forall i :: 0 <= i < |Steps(rt)| ==> Steps(rt)[i].Keys() <= keys
    ensures Elsewhere(w, Normalize(rt, w), keys)
  {
    forall k | k !in keys ensures At(Normalize(rt, w), k) == At(w, k) {
      NoStepLooksAt(rt, keys, k);
      UntouchedThrough(AllSteps(rt), w, k);
    }
  }

  lemma NoStepLooksAt(rt: ResourceType, keys: set<string>, k: string)
    requires "Annotations" in keys && "annotations" in keys && k !in keys
    requires forall i :: 0 <= i < |Steps(rt)| ==> Steps(rt)[i].Keys() <= keys
    ensures forall i :: 0 <= i < |AllSteps(rt)| ==> k !in AllSteps(rt)[i].Keys()
  {
    forall i | 0 <= i < |AllSteps(rt)| ensures k !in AllSteps(rt)[i].Keys() {
      if i >= 2 {
        assert AllSteps(rt)[i] == Steps(rt)[i - 2] && Steps(rt)[i - 2].Keys() <= keys;
      }
    }
  }

  // ---------- Kind by kind ----------

  const ANNOTATIONS := {"Annotations", "annotations"}

  lemma NormalizedSystem(w: Wire)
    ensures var out := Normalize(SystemResource, w);
            && Coalesced(w, out, ["Parent", "parent"], "parent", ["SystemId", "systemId"])
            && Carried(w, out, "Parent", "SystemId", "parent")
            && Stripped(w, out) && Elsewhere(w, out, ANNOTATIONS + {"Parent", "parent"})
  {
    CoalescesField(SystemResource, w, 0);
    StripsAnnotations(SystemResource, w);
    NothingElse(SystemResource, w, ANNOTATIONS + {"Parent", "parent"});
  }

  lemma NormalizedSystemInstance(w: Wire)
    ensures var out := Normalize(SystemInstanceResource, w);
            && Coalesced(w, out, ["System", "system", "systemId"], "system", ["SystemId", "systemId"])
            && Carried(w, out, "System", "SystemId", "system")
            && Coalesced(w, out, ["Context", "context", "contextId"], "context", ["ContextId", "contextId"])
            && Carried(w, out, "Context", "ContextId", "context")
            && Stripped(w, out)
            && Elsewhere(w, out, ANNOTATIONS + {"System", "system", "systemId", "Context", "context", "contextId"})
  {
    CoalescesField(SystemInstanceResource, w, 0);
    CoalescesField(SystemInstanceResource, w, 1);
    StripsAnnotations(SystemInstanceResource, w);
    NothingElse(SystemInstanceResource, w,
                ANNOTATIONS + {"System", "system", "systemId", "Context", "context", "contextId"});
  }

  lemma NormalizedAPI(w: Wire)
    ensures var out := Normalize(APIResource, w);
            && Coalesced(w, out, ["System", "system", "systemId"], "system", ["SystemId", "systemId"])
            && Carried(w, out, "System", "SystemId", "system")
            && Stripped(w, out) && Elsewhere(w, out, ANNOTATIONS + {"System", "system", "systemId"})
  {
    CoalescesField(APIResource, w, 0);
    StripsAnnotations(APIResource, w);
    NothingElse(APIResource, w, ANNOTATIONS + {"System", "system", "systemId"});
  }

  lemma NormalizedAPIInstance(w: Wire)
    ensures var out := Normalize(APIInstanceResource, w);
            && Coalesced(w, out, ["Api", "api", "apiId"], "api", ["ApiID", "ApiId", "apiId"])
            && Carried(w, out, "Api", "ApiID", "api")
            && Coalesced(w, out, ["SystemInstance", "systemInstance", "systemInstanceId"], "systemInstance",
                         ["InstanceId", "instanceId", "systemInstanceId"])
            && Carried(w, out, "SystemInstance", "InstanceId", "systemInstance")
            && Stripped(w, out)
            && Elsewhere(w, out, ANNOTATIONS + {"Api", "api", "apiId",
                                                "SystemInstance", "systemInstance", "systemInstanceId"})
  {
    CoalescesField(APIInstanceResource, w, 0);
    CoalescesField(APIInstanceResource, w, 1);
    StripsAnnotations(APIInstanceResource, w);
    NothingElse(APIInstanceResource, w,
                ANNOTATIONS + {"Api", "api", "apiId", "SystemInstance", "systemInstance", "systemInstanceId"});
  }

  lemma NormalizedComponent(w: Wire)
    ensures var out := Normalize(ComponentResource, w);
            && Coalesced(w, out, ["System", "system", "systemId"], "system", ["SystemId", "systemId"])
            && Carried(w, out, "System", "SystemId", "system")
            && Stripped(w, out) && Elsewhere(w, out, ANNOTATIONS + {"System", "system", "systemId"})
  {
    CoalescesField(ComponentResource, w, 0);
    StripsAnnotations(ComponentResource, w);
    NothingElse(ComponentResource, w, ANNOTATIONS + {"System", "system", "systemId"});
  }

  lemma NormalizedComponentInstance(w: Wire)
    ensures var out := Normalize(ComponentInstanceResource, w);
            && Coalesced(w, out, ["Component", "component", "componentId"], "component", ["ComponentId", "componentId"])
            && Carried(w, out, "Component", "ComponentId", "component")
            && Coalesced(w, out, ["SystemInstance", "systemInstance", "systemInstanceId"], "systemInstance",
                         ["InstanceId", "instanceId", "systemInstanceId"])
            && Carried(w, out, "SystemInstance", "InstanceId", "systemInstance")
            && Stripped(w, out)
            && Elsewhere(w, out, ANNOTATIONS + {"Component", "component", "componentId",
                                                "SystemInstance", "systemInstance", "systemInstanceId"})
  {
    CoalescesField(ComponentInstanceResource, w, 0);
    CoalescesField(ComponentInstanceResource, w, 1);
    StripsAnnotations(ComponentInstanceResource, w);
    NothingElse(ComponentInstanceResource, w,
                ANNOTATIONS + {"Component", "component", "componentId",
                               "SystemInstance", "systemInstance", "systemInstanceId"});
  }

  lemma NormalizedContext(w: Wire)
    ensures var out := Normalize(ContextResource, w);
            && Coalesced(w, out, ["TypeRef", "Type", "type"], "type", ["ContextTypeId", "contextTypeId"])
            && Carried(w, out, "TypeRef", "ContextTypeId", "type")
            && Coalesced(w, out, ["Parent", "parent"], "parent", ["ContextId", "contextId"])
            && Carried(w, out, "Parent", "ContextId", "parent")
            && Stripped(w, out) && Elsewhere(w, out, ANNOTATIONS + {"TypeRef", "Type", "type", "Parent", "parent"})
  {
    CoalescesField(ContextResource, w, 0);
    CoalescesField(ContextResource, w, 1);
    StripsAnnotations(ContextResource, w);
    NothingElse(ContextResource, w, ANNOTATIONS + {"TypeRef", "Type", "type", "Parent", "parent"});
  }

  lemma NormalizedNode(w: Wire)
    ensures var out := Normalize(NodeResource, w);
            && Coalesced(w, out, ["TypeRef", "NodeType", "nodeType"], "nodeType", ["NodeTypeId", "nodeTypeId"])
            && Carried(w, out, "TypeRef", "NodeTypeId", "nodeType")
            && Stripped(w, out) && Elsewhere(w, out, ANNOTATIONS + {"TypeRef", "NodeType", "nodeType"})
  {
    CoalescesField(NodeResource, w, 0);
    StripsAnnotations(NodeResource, w);
    NothingElse(NodeResource, w, ANNOTATIONS + {"TypeRef", "NodeType", "nodeType"});
  }

  lemma NormalizedProduct(w: Wire)
    ensures var out := Normalize(ProductResource, w);
            && Coalesced(w, out, ["Vendor", "vendor"], "vendor", ["OrgUnitId", "orgUnitId"])
            && Carried(w, out, "Vendor", "OrgUnitId", "vendor")
            && Stripped(w, out) && Elsewhere(w, out, ANNOTATIONS + {"Vendor", "vendor"})
  {
    CoalescesField(ProductResource, w, 0);
    StripsAnnotations(ProductResource, w);
    NothingElse(ProductResource, w, ANNOTATIONS + {"Vendor", "vendor"});
  }

  lemma NormalizedFinding(w: Wire)
    ensures var out := Normalize(FindingResource, w);
            && Coalesced(w, out, ["TypeRef", "Type", "type"], "type", ["FindingTypeId", "findingTypeId"])
            && Carried(w, out, "TypeRef", "FindingTypeId", "type")
            && Stripped(w, out) && Elsewhere(w, out, ANNOTATIONS + {"TypeRef", "Type", "type"})
  {
    CoalescesField(FindingResource, w, 0);
    StripsAnnotations(FindingResource, w);
    NothingElse(FindingResource, w, ANNOTATIONS + {"TypeRef", "Type", "type"});
  }

  lemma NormalizedPermission(w: Wire)
    ensures var out := Normalize(PermissionResource, w);
            && Coalesced(w, out, ["Spec", "spec"], "spec", ["PermissionSpecId", "permissionSpecId"])
            && Carried(w, out, "Spec", "PermissionSpecId", "spec")
            && Stripped(w, out) && Elsewhere(w, out, ANNOTATIONS + {"Spec", "spec"})
  {
    CoalescesField(PermissionResource, w, 0);
    StripsAnnotations(PermissionResource, w);
    NothingElse(PermissionResource, w, ANNOTATIONS + {"Spec", "spec"});
  }

  lemma NormalizedRole(w: Wire)
    ensures var out := Normalize(RoleResource, w);
            && Coalesced(w, out, ["Spec", "spec"], "spec", ["RoleSpecId", "roleSpecId"])
            && Carried(w, out, "Spec", "RoleSpecId", "spec")
            && Coalesced(w, out, ["ContextRef", "context"], "context", ["ContextId", "contextId"])
            && Carried(w, out, "ContextRef", "ContextId", "context")
            && Flattened(w, out, "Permissions", ["PermissionId", "permissionId"])
            && Flattened(w, out, "permissions", ["PermissionId", "permissionId"])
            && Stripped(w, out)
            && Elsewhere(w, out, ANNOTATIONS + {"Spec", "spec", "ContextRef", "context", "Permissions", "permissions"})
  {
    RoleReferences(w);
    FlattenStep(RoleResource, w, 2);
    FlattenStep(RoleResource, w, 3);
    StripsAnnotations(RoleResource, w);
    RoleElsewhere(w);
  }

  lemma RoleReferences(w: Wire)
    ensures var out := Normalize(RoleResource, w);
            && Coalesced(w, out, ["Spec", "spec"], "spec", ["RoleSpecId", "roleSpecId"])
            && Carried(w, out, "Spec", "RoleSpecId", "spec")
            && Coalesced(w, out, ["ContextRef", "context"], "context", ["ContextId", "contextId"])
            && Carried(w, out, "ContextRef", "ContextId", "context")
  {
    CoalescesField(RoleResource, w, 0);
    CoalescesField(RoleResource, w, 1);
  }

  lemma RoleElsewhere(w: Wire)
    ensures var keys := {"Spec", "spec", "ContextRef", "context", "Permissions", "permissions"};
            Elsewhere(w, Normalize(RoleResource, w), ANNOTATIONS + keys)
  {
    NothingElse(RoleResource, w, ANNOTATIONS + {"Spec", "spec", "ContextRef", "context", "Permissions", "permissions"});
  }

  lemma NormalizedRoleSpec(w: Wire)
    ensures var out := Normalize(RoleSpecResource, w);
            && Flattened(w, out, "Permissions", ["PermissionSpecId", "permissionSpecId"])
            && Flattened(w, out, "permissions", ["PermissionSpecId", "permissionSpecId"])
            && Stripped(w, out) && Elsewhere(w, out, ANNOTATIONS + {"Permissions", "permissions"})
  {
    FlattenStep(RoleSpecResource, w, 0);
    FlattenStep(RoleSpecResource, w, 1);
    StripsAnnotations(RoleSpecResource, w);
    NothingElse(RoleSpecResource, w, ANNOTATIONS + {"Permissions", "permissions"});
  }

  lemma NormalizedBinding(w: Wire)
    ensures var out := Normalize(BindingResource, w);
            && Replaced(w, out, "Role", "role", ["RoleId", "roleId"])
            && SubjectNormalized(w, out, "subject")
            && SubjectNormalized(w, out, "Subject")
            && Stripped(w, out) && Elsewhere(w, out, ANNOTATIONS + {"Role", "role", "subject", "Subject"})
  {
    BindingRole(w);
    BindingSubjects(w);
    StripsAnnotations(BindingResource, w);
    BindingElsewhere(w);
  }

  lemma BindingSubjects(w: Wire)
    ensures SubjectNormalized(w, Normalize(BindingResource, w), "subject")
    ensures SubjectNormalized(w, Normalize(BindingResource, w), "Subject")
  {
    SubjectStep(BindingResource, w, 1);
    SubjectStep(BindingResource, w, 2);
  }

  lemma BindingElsewhere(w: Wire)
    ensures Elsewhere(w, Normalize(BindingResource, w), ANNOTATIONS + {"Role", "role", "subject", "Subject"})
  {
    NothingElse(BindingResource, w, ANNOTATIONS + {"Role", "role", "subject", "Subject"});
  }

  lemma BindingRole(w: Wire)
    ensures Replaced(w, Normalize(BindingResource, w), "Role", "role", ["RoleId", "roleId"])
  {
    assert "Role"[0] != "role"[0];
    ScalarStep(BindingResource, w, 0);
  }

  predicate HasReferences(rt: ResourceType) {
    || rt.SystemResource? || rt.SystemInstanceResource? || rt.APIResource? || rt.APIInstanceResource?
    || rt.ComponentResource? || rt.ComponentInstanceResource? || rt.ContextResource? || rt.NodeResource?
    || rt.ProductResource? || rt.FindingResource? || rt.PermissionResource? || rt.RoleResource? || rt.RoleSpecResource?
    || rt.BindingResource?
  }

  lemma NormalizedOther(rt: ResourceType, w: Wire)
    requires !HasReferences(rt)
    ensures Stripped(w, Normalize(rt, w)) && Elsewhere(w, Normalize(rt, w), ANNOTATIONS)
  {
    StripsAnnotations(rt, w);
    NothingElse(rt, w, ANNOTATIONS);
  }
}
