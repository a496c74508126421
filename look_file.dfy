/** The batch operations: `save` collects the looks of a list of markers
    into one look file, `load` applies a look file to the markers of a
    scene. The file is modelled by its contents, a JSON object from marker
    name to serialized look; reading and writing it are left out. */
module LookFiles {
  import opened Results
  import opened Options
  import opened Json
  import opened MarkerLooks
  import opened Markers

  /** The contents of a look file. */
  type LookFile = map<string, Object>

  /** The scene's lookup by label name (`FBFindModelByLabelName`). */
  type Scene = map<string, SceneObject>

  /** `"{}:{}".format(namespace, name) if namespace else str(name)`: a
      namespace is used only when it is a non-empty string. */
  function FullName(namespace: Option<string>, name: string): (fullName: string)
    ensures namespace.Some? && namespace.value != "" ==> fullName == namespace.value + ":" + name
    ensures namespace.None? || namespace.value == "" ==> fullName == name
  {
    if namespace.Some? && namespace.value != "" then namespace.value + ":" + name else name
  }

  /** Under one namespace, different names resolve to different label names. */
  lemma FullNameInjective(namespace: Option<string>, a: string, b: string)
    requires FullName(namespace, a) == FullName(namespace, b)
    ensures a == b
  {
    if namespace.Some? && namespace.value != "" {
      var prefix := namespace.value + ":";
      assert a == (prefix + a)[|prefix|..];
      assert b == (prefix + b)[|prefix|..];
    }
  }

  /** With a namespace, a saved name never matches the bare label name. */
  lemma NamespacedNeverBare(namespace: string, name: string)
    requires namespace != ""
    ensures FullName(Some(namespace), name) != name
  {
    assert |FullName(Some(namespace), name)| > |name|;
  }

  /** Two namespaces put the same name under two different label names. */
  lemma NamespacesDistinguished(ns1: string, ns2: string, name: string)
    requires ns1 != "" && ns2 != ""
    requires FullName(Some(ns1), name) == FullName(Some(ns2), name)
    ensures ns1 == ns2
  {
    var f := FullName(Some(ns1), name);
    assert |ns1| == |ns2|;
    assert ns1 == f[..|ns1|];
    assert ns2 == f[..|ns2|];
  }

  /** Position `i` holds the last marker of its name. */
  ghost predicate LastOfName(markers: seq<SceneObject>, i: int)
    reads markers
  {
    0 <= i < |markers| && forall j :: i < j < |markers| ==> markers[j].name != markers[i].name
  }

  /** `save` without the file write. Every object is recorded under its name,
      including those that are not markers: the source's kind check only
      prints. A later object overwrites an earlier one of the same name, and
      a missing parent-link property aborts the whole save. */
  method Save(markers: seq<SceneObject>) returns (result: Result<LookFile>)
    ensures result.Success? <==> forall i :: 0 <= i < |markers| ==> ParentLinkProperty in markers[i].properties
    ensures result.Failure? ==> result.error == MissingProperty(ParentLinkProperty)
    ensures result.Success? ==> result.value.Keys == set i | 0 <= i < |markers| :: markers[i].name
    ensures result.Success? ==>
              forall i :: LastOfName(markers, i) ==>
                FromModel(markers[i]).Success? && result.value[markers[i].name] == Serialize(FromModel(markers[i]).value)
  {
    var data: LookFile := map[];
    for i := 0 to |markers|
      invariant forall j :: 0 <= j < i ==> ParentLinkProperty in markers[j].properties
      invariant data.Keys == set j | 0 <= j < i :: markers[j].name
      invariant forall j :: 0 <= j < i && (forall k :: j < k < i ==> markers[k].name != markers[j].name) ==>
                  data[markers[j].name] == Serialize(FromModel(markers[j]).value)
    {
      var look := FromModel(markers[i]);
      if look.Failure? {
        return Failure(look.error);
      }
      var key, entry := markers[i].name, Serialize(look.value);
      ghost var previous := data;
      data := data[key := entry];
      forall j | 0 <= j <= i && (forall k :: j < k <= i ==> markers[k].name != markers[j].name)
        ensures data[markers[j].name] == Serialize(FromModel(markers[j]).value)
      {
        if j < i {
          assert markers[j].name != key;
          assert data[markers[j].name] == previous[markers[j].name];
        }
      }
    }
    return Success(data);
  }

  /** Each object of the scene answers to one label name only. */
  ghost predicate OneLabelPerObject(scene: Scene) {
    forall a, b :: a in scene && b in scene && a != b ==> scene[a] != scene[b]
  }

  /** What applying entry `name` raises, if anything: the decoding error,
      then a label name that does not resolve (applying to `None`), then a
      missing parent-link property, in the source's order. */
  ghost function EntryError(data: LookFile, namespace: Option<string>, scene: Scene, name: string): (error: Option<Error>)
    reads if FullName(namespace, name) in scene then {scene[FullName(namespace, name)]} else {}
    requires name in data
  {
    var decoded := FromSerialized(data[name]);
    if decoded.Failure? then Some(decoded.error)
    else if FullName(namespace, name) !in scene then Some(MissingObject(FullName(namespace, name)))
    else if ParentLinkProperty !in scene[FullName(namespace, name)].properties then Some(MissingProperty(ParentLinkProperty))
    else Options.None
  }

  /** The objects the entries of `data` resolve to: all that `load` may change. */
  ghost function Targets(data: LookFile, namespace: Option<string>, scene: Scene): (targets: set<SceneObject>) {
    set name | name in data && FullName(namespace, name) in scene :: scene[FullName(namespace, name)]
  }

  /** Entry `name` has been applied to the object it resolves to: the object
      reads back as the entry's decoded look, keeps its name, and of its
      other properties only the parent-link flag takes the entry's value. */
  twostate predicate Reloaded(new data: LookFile, namespace: Option<string>, scene: Scene, name: string)
    reads if FullName(namespace, name) in scene then {scene[FullName(namespace, name)]} else {}
    requires name in data
  {
    var decoded := FromSerialized(data[name]);
    && decoded.Success?
    && FullName(namespace, name) in scene
    && var target := scene[FullName(namespace, name)];
    && FromModel(target) == decoded
    && target.name == old(target.name)
    && target.properties == old(target.properties)[ParentLinkProperty := decoded.value.parentLink]
  }

  /** `load` without the file read. The entries are visited in an order the
      model leaves open; the first entry that cannot be applied aborts the
      load, after the entries before it have been applied. Only the objects
      the entries resolve to may change. */
  method Load(data: LookFile, namespace: Option<string>, scene: Scene) returns (outcome: Outcome)
    requires OneLabelPerObject(scene)
    modifies Targets(data, namespace, scene)
    ensures outcome.Pass? <==> forall name :: name in data ==> old(EntryError(data, namespace, scene, name)).None?
    ensures outcome.Fail? ==>
              exists name :: name in data && old(EntryError(data, namespace, scene, name)) == Some(outcome.error)
    ensures outcome.Pass? ==> forall name :: name in data ==> Reloaded(data, namespace, scene, name)
  {
    var pending := data.Keys;
    ghost var done: set<string> := {};
    while pending != {}
      invariant pending + done == data.Keys && pending !! done
      invariant forall name :: name in done ==> old(EntryError(data, namespace, scene, name)).None?
      invariant forall name :: name in done ==> Reloaded(data, namespace, scene, name)
      invariant forall name :: name in pending && FullName(namespace, name) in scene ==>
                  unchanged(scene[FullName(namespace, name)])
      decreases pending
    {
      var name :| name in pending;
      var fullName := FullName(namespace, name);
      forall other | other in data && other != name
        ensures FullName(namespace, other) != fullName
      {
        if FullName(namespace, other) == fullName {
          FullNameInjective(namespace, other, name);
        }
      }
      var look := FromSerialized(data[name]);
      if look.Failure? {
        return Fail(look.error);
      }
      if fullName !in scene {
        return Fail(MissingObject(fullName));
      }
      outcome := Apply(look.value, scene[fullName]);
      if outcome.Fail? {
        return outcome;
      }
      pending, done := pending - {name}, done + {name};
    }
    return Pass;
  }

  /** Every name in the list has a last position. */
  lemma {:induction false} LastOfNameExists(markers: seq<SceneObject>, i: int)
    requires 0 <= i < |markers|
    ensures exists j :: LastOfName(markers, j) && markers[j].name == markers[i].name
    decreases |markers| - i
  {
    if !LastOfName(markers, i) {
      var k :| i < k < |markers| && markers[k].name == markers[i].name;
      LastOfNameExists(markers, k);
    }
  }

  /** A label name that no entry of `data` resolves to names an object
      outside the objects `load` may change. */
  lemma NotATarget(data: LookFile, namespace: Option<string>, scene: Scene, labelName: string)
    requires OneLabelPerObject(scene)
    requires labelName in scene
    requires forall name :: name in data ==> FullName(namespace, name) != labelName
    ensures scene[labelName] !in Targets(data, namespace, scene)
  {
  }

  /** `save` followed by `load` into a scene where every saved name resolves
      (under the same namespace) to a marker: the load succeeds, each
      resolved marker gets the look the last marker of that name had and
      keeps its name and its other properties, and every other object of
      the scene is left alone. */
  method SaveThenLoad(markers: seq<SceneObject>, namespace: Option<string>, scene: Scene) returns (outcome: Outcome)
    requires OneLabelPerObject(scene)
    requires forall i :: 0 <= i < |markers| ==> ParentLinkProperty in markers[i].properties
    requires forall i :: 0 <= i < |markers| ==> FullName(namespace, markers[i].name) in scene
    requires forall i :: 0 <= i < |markers| ==>
               ParentLinkProperty in scene[FullName(namespace, markers[i].name)].properties
    modifies scene.Values
    ensures outcome == Pass
    ensures forall i :: old(LastOfName(markers, i)) ==>
              var target := scene[FullName(namespace, old(markers[i].name))];
              && FromModel(target) == old(FromModel(markers[i]))
              && target.name == old(target.name)
              && target.properties == old(target.properties)[ParentLinkProperty := old(markers[i].properties[ParentLinkProperty])]
    ensures forall labelName :: labelName in scene && (forall i :: 0 <= i < |markers| ==> labelName != FullName(namespace, old(markers[i].name))) ==>
              unchanged(scene[labelName])
  {
    var saved := Save(markers);
    var data := saved.value;
    forall i | LastOfName(markers, i)
      ensures FromSerialized(data[markers[i].name]) == FromModel(markers[i])
    {
      RoundTrip(FromModel(markers[i]).value);
    }
    forall name | name in data
      ensures EntryError(data, namespace, scene, name).None?
    {
      var i :| 0 <= i < |markers| && markers[i].name == name;
      LastOfNameExists(markers, i);
      var j :| LastOfName(markers, j) && markers[j].name == name;
      assert FromSerialized(data[name]).Success?;
    }
    forall labelName | labelName in scene && (forall i :: 0 <= i < |markers| ==> labelName != FullName(namespace, markers[i].name))
      ensures scene[labelName] !in Targets(data, namespace, scene)
    {
      NotATarget(data, namespace, scene, labelName);
    }
    outcome := Load(data, namespace, scene);
    forall i | old(LastOfName(markers, i))
      ensures var target := scene[FullName(namespace, old(markers[i].name))];
              && FromModel(target) == old(FromModel(markers[i]))
              && target.name == old(target.name)
              && target.properties == old(target.properties)[ParentLinkProperty := old(markers[i].properties[ParentLinkProperty])]
    {
      assert Reloaded(data, namespace, scene, old(markers[i].name));
    }
  }
}
