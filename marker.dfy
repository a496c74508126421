/** A marker of the live scene, as far as its look is concerned, and the two
    operations that copy a look between a marker and a `MarkerLook`. */
module Markers {
  import opened Results
  import opened MarkerLooks

  /** The name under which the parent-link flag sits in a marker's property list. */
  const ParentLinkProperty := "Show Parent Link"

  /** A scene object (an `FBModelMarker`). Its look is stored in eight host
      properties; the parent-link flag lives in the property list, which is
      modelled as its boolean properties by name. */
  class SceneObject {
    var name: string
    var geometricTranslation: Vector3
    var geometricRotation: Vector3
    var geometricScaling: Vector3
    var look: Look
    var size: real
    var color: Color
    var length: real
    var properties: map<string, bool>
  }

  /** `MarkerLook.from_model`: reads the eight look properties; the lookup of
      the parent-link property returns `None` when it is absent, and reading
      its `Data` then raises. */
  function FromModel(marker: SceneObject): (r: Result<MarkerLook>)
    reads marker
    ensures r.Success? <==> ParentLinkProperty in marker.properties
  {
    if ParentLinkProperty in marker.properties then
      Success(MarkerLook(
        marker.geometricTranslation, marker.geometricRotation, marker.geometricScaling,
        marker.look, marker.size, marker.color,
        marker.properties[ParentLinkProperty], marker.length))
    else
      Failure(MissingProperty(ParentLinkProperty))
  }

  /** `MarkerLook.apply`: writes the record's fields onto the marker in the
      source's order. Without the parent-link property the write of its
      `Data` raises after the first six fields are set, and the length is
      never written. */
  method Apply(look: MarkerLook, marker: SceneObject) returns (outcome: Outcome)
    modifies marker
    ensures outcome.Pass? <==> ParentLinkProperty in old(marker.properties)
    ensures outcome.Fail? ==> outcome.error == MissingProperty(ParentLinkProperty)
    // the six writes before the property lookup always happen
    ensures marker.look == look.look && marker.size == look.size
    ensures marker.geometricTranslation == look.offsetTranslation
    ensures marker.geometricRotation == look.offsetRotation
    ensures marker.geometricScaling == look.offsetScaling
    ensures marker.color == look.color
    ensures outcome.Pass? ==> marker.length == look.length
    ensures outcome.Fail? ==> marker.length == old(marker.length)
    ensures marker.properties ==
              if outcome.Pass? then old(marker.properties)[ParentLinkProperty := look.parentLink]
              else old(marker.properties)
    ensures marker.name == old(marker.name)
    // reading the look back gives the record that was applied
    ensures outcome.Pass? ==> FromModel(marker) == Success(look)
    // applying a marker's own look changes nothing
    ensures old(FromModel(marker)) == Success(look) ==> unchanged(marker)
  {
    marker.look := look.look;
    marker.size := look.size;
    marker.geometricTranslation := look.offsetTranslation;
    marker.geometricRotation := look.offsetRotation;
    marker.geometricScaling := look.offsetScaling;
    marker.color := look.color;
    if ParentLinkProperty !in marker.properties {
      return Fail(MissingProperty(ParentLinkProperty));
    }
    var before := marker.properties;
    marker.properties := before[ParentLinkProperty := look.parentLink];
    marker.length := look.length;
    if old(FromModel(marker)) == Success(look) {
      assert marker.properties == before;
    }
    outcome := Pass;
  }
}
