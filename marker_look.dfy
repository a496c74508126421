/** The `MarkerLook` record: the eight display properties of a marker, its
    fixed shape table, and its conversion to and from a JSON object. */
module MarkerLooks {
  import opened Results
  import opened Json

  /** The marker shapes the table knows (the host's `kFBMarkerLook*` values).
      The shape `None` hides `Options.None` wherever both modules are opened. */
  datatype Look =
    | AimRollGoal | Bone | Box | Capsule | Circle | Cube | HardCross
    | LightCross | None | RigidGoal | RotationGoal | Sphere | Square | Stick

  /** The shape table. A shape is stored on disk as its position here, so the
      order is part of the file format. */
  const Looks: seq<Look> :=
    [AimRollGoal, Bone, Box, Capsule, Circle, Cube, HardCross,
     LightCross, None, RigidGoal, RotationGoal, Sphere, Square, Stick]

  lemma LooksComplete(l: Look)
    ensures l in Looks
  {
  }

  lemma LooksDistinct()
    ensures forall i, j :: 0 <= i < j < |Looks| ==> Looks[i] != Looks[j]
  {
  }

  /** Python's `tuple.index`: the first position holding `x`. */
  function FirstIndex<T(==)>(t: seq<T>, x: T): (i: nat)
    requires x in t
    ensures i < |t| && t[i] == x
    ensures forall j :: 0 <= j < i ==> t[j] != x
  {
    if t[0] == x then 0 else 1 + FirstIndex(t[1..], x)
  }

  /** `_LOOKS.index(look)`. */
  function IndexOf(l: Look): (i: nat)
    ensures i < |Looks| && Looks[i] == l
  {
    LooksComplete(l);
    FirstIndex(Looks, l)
  }

  /** Python's `t[i]` on a tuple: negative indices count from the end, so
      exactly the indices -|t|..|t|-1 are accepted, and each picks the
      position congruent to it modulo |t|; any other raises `IndexError`. */
  function TupleIndex<T>(t: seq<T>, i: int): (r: Result<T>)
    ensures r.Success? <==> -|t| <= i < |t|
    ensures r.Success? ==> r.value == t[i % |t|]
    ensures r.Failure? ==> r.error == IndexError(i)
  {
    if 0 <= i < |t| then Success(t[i])
    else if -|t| <= i < 0 then Success(t[|t| + i])
    else Failure(IndexError(i))
  }

  /** Every position of the table is the one `IndexOf` finds for its entry. */
  lemma IndexOfLooksAt(i: int)
    requires 0 <= i < |Looks|
    ensures IndexOf(Looks[i]) == i
  {
    LooksDistinct();
  }

  datatype Vector3 = Vector3(x: real, y: real, z: real)

  datatype Color = Color(r: real, g: real, b: real)

  datatype MarkerLook = MarkerLook(
    offsetTranslation: Vector3,
    offsetRotation: Vector3,
    offsetScaling: Vector3,
    look: Look,
    size: real,
    color: Color,
    parentLink: bool,
    length: real)

  const OffsetTranslationKey := "offset_translation"
  const OffsetRotationKey := "offset_rotation"
  const OffsetScalingKey := "offset_scaling"
  const LookKey := "look"
  const SizeKey := "size"
  const ColorKey := "color"
  const ParentLinkKey := "parent_link"
  const LengthKey := "length"

  const FieldKeys: set<string> :=
    {OffsetTranslationKey, OffsetRotationKey, OffsetScalingKey, LookKey,
     SizeKey, ColorKey, ParentLinkKey, LengthKey}

  lemma KeysDistinct()
    ensures |FieldKeys| == 8
    ensures OffsetTranslationKey !in {OffsetRotationKey, OffsetScalingKey, LookKey, SizeKey, ColorKey, ParentLinkKey, LengthKey}
    ensures OffsetRotationKey !in {OffsetScalingKey, LookKey, SizeKey, ColorKey, ParentLinkKey, LengthKey}
    ensures OffsetScalingKey !in {LookKey, SizeKey, ColorKey, ParentLinkKey, LengthKey}
    ensures LookKey !in {SizeKey, ColorKey, ParentLinkKey, LengthKey}
    ensures SizeKey !in {ColorKey, ParentLinkKey, LengthKey}
    ensures ColorKey !in {ParentLinkKey, LengthKey}
    ensures ParentLinkKey != LengthKey
  {
  }

  /** `FBVector3d.GetList()` and `FBColor.GetList()`: three floats in order. */
  function VectorList(v: Vector3): (r: seq<Value>) { [Number(v.x), Number(v.y), Number(v.z)] }

  function ColorList(c: Color): (r: seq<Value>) { [Number(c.r), Number(c.g), Number(c.b)] }

  /** A list of three floats, as `GetList()` writes it. */
  predicate IsTriple(v: Value) {
    v.Array? && |v.items| == 3 && v.items[0].Number? && v.items[1].Number? && v.items[2].Number?
  }

  /** The objects `Serialize` produces: exactly the eight keys, each with the
      JSON kind `Serialize` writes, and a shape index inside 0..13. */
  predicate Canonical(d: Object) {
    && d.Keys == FieldKeys
    && IsTriple(d[OffsetTranslationKey])
    && IsTriple(d[OffsetRotationKey])
    && IsTriple(d[OffsetScalingKey])
    && d[LookKey].Integer? && 0 <= d[LookKey].n < |Looks|
    && d[SizeKey].Number?
    && IsTriple(d[ColorKey])
    && d[ParentLinkKey].Boolean?
    && d[LengthKey].Number?
  }

  /** The value `serialize` writes under `key`. */
  function SerializedField(m: MarkerLook, key: string): (r: Value) {
    if key == OffsetTranslationKey then Array(VectorList(m.offsetTranslation))
    else if key == OffsetRotationKey then Array(VectorList(m.offsetRotation))
    else if key == OffsetScalingKey then Array(VectorList(m.offsetScaling))
    else if key == LookKey then Integer(IndexOf(m.look))
    else if key == SizeKey then Number(m.size)
    else if key == ColorKey then Array(ColorList(m.color))
    else if key == ParentLinkKey then Boolean(m.parentLink)
    else Number(m.length)
  }

  /** `MarkerLook.serialize`. */
  function Serialize(m: MarkerLook): (r: Object)
  {
    KeysDistinct();
    map key | key in FieldKeys :: SerializedField(m, key)
  }

  /** `data[key]` on a dict. */
  function Field(d: Object, key: string): (r: Result<Value>) {
    if key in d then Success(d[key]) else Failure(KeyError(key))
  }

  /** A JSON number, as the host's float properties accept it. */
  function AsReal(key: string, v: Value): (r: Result<real>) {
    match v
    case Integer(n) => Success(n as real)
    case Number(x) => Success(x)
    case _ => Failure(TypeError(key))
  }

  function AsTriple(key: string, v: Value): (r: Result<(real, real, real)>) {
    if v.Array? && |v.items| == 3 then
      var a :- AsReal(key, v.items[0]);
      var b :- AsReal(key, v.items[1]);
      var c :- AsReal(key, v.items[2]);
      Success((a, b, c))
    else
      Failure(TypeError(key))
  }

  /** `pyfbsdk.FBVector3d(data[key])`. */
  function VectorAt(d: Object, key: string): (r: Result<Vector3>) {
    var v :- Field(d, key);
    var t :- AsTriple(key, v);
    Success(Vector3(t.0, t.1, t.2))
  }

  /** `pyfbsdk.FBColor(data[key])`. */
  function ColorAt(d: Object, key: string): (r: Result<Color>) {
    var v :- Field(d, key);
    var t :- AsTriple(key, v);
    Success(Color(t.0, t.1, t.2))
  }

  /** `cls._LOOKS[data["look"]]`: a Python bool is an int, so it indexes too. */
  function LookAt(d: Object): (r: Result<Look>) {
    var v :- Field(d, LookKey);
    match v
    case Integer(n) => TupleIndex(Looks, n)
    case Boolean(b) => TupleIndex(Looks, if b then 1 else 0)
    case _ => Failure(TypeError(LookKey))
  }

  function RealAt(d: Object, key: string): (r: Result<real>) {
    var v :- Field(d, key);
    AsReal(key, v)
  }

  function BoolAt(d: Object, key: string): (r: Result<bool>) {
    var v :- Field(d, key);
    if v.Boolean? then Success(v.b) else Failure(TypeError(key))
  }

  /** `MarkerLook.from_serialized`: the fields are read in the order of the
      constructor call's keyword arguments, and the first failure escapes. */
  function FromSerialized(d: Object): (r: Result<MarkerLook>)
  {
    var translation :- VectorAt(d, OffsetTranslationKey);
    var rotation :- VectorAt(d, OffsetRotationKey);
    var scaling :- VectorAt(d, OffsetScalingKey);
    var look :- LookAt(d);
    var size :- RealAt(d, SizeKey);
    var color :- ColorAt(d, ColorKey);
    var parentLink :- BoolAt(d, ParentLinkKey);
    var length :- RealAt(d, LengthKey);
    Success(MarkerLook(translation, rotation, scaling, look, size, color, parentLink, length))
  }

  /** The value under each key of a serialization is the field it names. */
  lemma SerializedFields(m: MarkerLook)
    ensures Serialize(m).Keys == FieldKeys
    ensures Serialize(m)[OffsetTranslationKey] == Array(VectorList(m.offsetTranslation))
    ensures Serialize(m)[OffsetRotationKey] == Array(VectorList(m.offsetRotation))
    ensures Serialize(m)[OffsetScalingKey] == Array(VectorList(m.offsetScaling))
    ensures Serialize(m)[LookKey] == Integer(IndexOf(m.look))
    ensures Serialize(m)[SizeKey] == Number(m.size)
    ensures Serialize(m)[ColorKey] == Array(ColorList(m.color))
    ensures Serialize(m)[ParentLinkKey] == Boolean(m.parentLink)
    ensures Serialize(m)[LengthKey] == Number(m.length)
  {
    KeysDistinct();
  }

  /** The stored shape index of a serialization is the shape's place in the table. */
  lemma SerializedLook(m: MarkerLook)
    ensures LookKey in Serialize(m) && Serialize(m)[LookKey] == Integer(IndexOf(m.look))
  {
    SerializedFields(m);
  }

  lemma TripleDecodes(d: Object, key: string)
    requires key in d && IsTriple(d[key])
    ensures VectorAt(d, key) == Success(Vector3(d[key].items[0].x, d[key].items[1].x, d[key].items[2].x))
    ensures ColorAt(d, key) == Success(Color(d[key].items[0].x, d[key].items[1].x, d[key].items[2].x))
  {
  }

  lemma RealDecodes(d: Object, key: string, x: real)
    requires key in d && d[key] == Number(x)
    ensures RealAt(d, key) == Success(x)
  {
  }

  lemma BoolDecodes(d: Object, key: string, b: bool)
    requires key in d && d[key] == Boolean(b)
    ensures BoolAt(d, key) == Success(b)
  {
  }

  lemma LookDecodes(d: Object, i: int)
    requires LookKey in d && d[LookKey] == Integer(i) && 0 <= i < |Looks|
    ensures LookAt(d) == Success(Looks[i])
  {
  }

  /** `from_serialized` builds the record out of its eight field decodings. */
  lemma DecodesTo(d: Object, m: MarkerLook)
    requires VectorAt(d, OffsetTranslationKey) == Success(m.offsetTranslation)
    requires VectorAt(d, OffsetRotationKey) == Success(m.offsetRotation)
    requires VectorAt(d, OffsetScalingKey) == Success(m.offsetScaling)
    requires LookAt(d) == Success(m.look)
    requires RealAt(d, SizeKey) == Success(m.size)
    requires ColorAt(d, ColorKey) == Success(m.color)
    requires BoolAt(d, ParentLinkKey) == Success(m.parentLink)
    requires RealAt(d, LengthKey) == Success(m.length)
    ensures FromSerialized(d) == Success(m)
  {
  }

  /** Every serialization has exactly the eight keys, with the kinds and the
      index range `Canonical` describes. */
  lemma SerializeCanonical(m: MarkerLook)
    ensures Serialize(m).Keys == FieldKeys
    ensures Canonical(Serialize(m))
    ensures Looks[Serialize(m)[LookKey].n] == m.look
  {
    SerializedFields(m);
  }

  /** Deserializing what was serialized gives back the record, field for field. */
  lemma RoundTrip(m: MarkerLook)
    ensures FromSerialized(Serialize(m)) == Success(m)
  {
    var d := Serialize(m);
    SerializedFields(m);
    OtherFieldsDecode(d, m);
    LookDecodes(d, IndexOf(m.look));
    DecodesTo(d, m);
  }

  /** A list of three floats is what `GetList` writes for the vector it holds. */
  lemma TripleIsList(v: Value)
    requires IsTriple(v)
    ensures v == Array(VectorList(Vector3(v.items[0].x, v.items[1].x, v.items[2].x)))
    ensures v == Array(ColorList(Color(v.items[0].x, v.items[1].x, v.items[2].x)))
  {
  }

  /** Two objects with the eight keys are equal when they agree on each. */
  lemma SameFields(d: Object, e: Object)
    requires d.Keys == FieldKeys && e.Keys == FieldKeys
    requires d[OffsetTranslationKey] == e[OffsetTranslationKey]
    requires d[OffsetRotationKey] == e[OffsetRotationKey]
    requires d[OffsetScalingKey] == e[OffsetScalingKey]
    requires d[LookKey] == e[LookKey]
    requires d[SizeKey] == e[SizeKey]
    requires d[ColorKey] == e[ColorKey]
    requires d[ParentLinkKey] == e[ParentLinkKey]
    requires d[LengthKey] == e[LengthKey]
    ensures d == e
  {
  }

  /** Serializing what was deserialized gives back the object, for every
      object of the shape `Serialize` writes. */
  lemma CanonicalRoundTrip(d: Object)
    requires Canonical(d)
    ensures FromSerialized(d).Success?
    ensures Serialize(FromSerialized(d).value) == d
  {
    var t, r, s, c := d[OffsetTranslationKey], d[OffsetRotationKey], d[OffsetScalingKey], d[ColorKey];
    var n := d[LookKey].n;
    var m := MarkerLook(
      Vector3(t.items[0].x, t.items[1].x, t.items[2].x),
      Vector3(r.items[0].x, r.items[1].x, r.items[2].x),
      Vector3(s.items[0].x, s.items[1].x, s.items[2].x),
      Looks[n], d[SizeKey].x,
      Color(c.items[0].x, c.items[1].x, c.items[2].x),
      d[ParentLinkKey].b, d[LengthKey].x);
    TripleDecodes(d, OffsetTranslationKey);
    TripleDecodes(d, OffsetRotationKey);
    TripleDecodes(d, OffsetScalingKey);
    LookDecodes(d, n);
    RealDecodes(d, SizeKey, m.size);
    TripleDecodes(d, ColorKey);
    BoolDecodes(d, ParentLinkKey, m.parentLink);
    RealDecodes(d, LengthKey, m.length);
    DecodesTo(d, m);
    SerializedFields(m);
    IndexOfLooksAt(n);
    TripleIsList(t);
    TripleIsList(r);
    TripleIsList(s);
    TripleIsList(c);
    SameFields(d, Serialize(m));
  }

  /** What `from_serialized` demands: all eight keys are needed; a key error
      names a missing key of the eight; an index error comes from an integer
      index outside -14..13 stored under "look". */
  lemma FromSerializedErrors(d: Object)
    ensures FromSerialized(d).Success? ==> FieldKeys <= d.Keys
    ensures var r := FromSerialized(d);
      r.Failure? && r.error.KeyError? ==> r.error.key in FieldKeys && r.error.key !in d
    ensures var r := FromSerialized(d);
      r.Failure? && r.error.IndexError? ==>
        LookKey in d && d[LookKey] == Integer(r.error.index)
        && (r.error.index >= |Looks| || r.error.index < -|Looks|)
  {
  }

  /** Taking any one of the eight keys out of an object that decodes makes
      decoding raise `KeyError` for exactly that key. */
  lemma MissingKeyFails(d: Object, k: string)
    requires FromSerialized(d).Success?
    requires k in FieldKeys
    ensures FromSerialized(d - {k}) == Failure(KeyError(k))
  {
    KeysDistinct();
  }

  /** The seven fields other than the shape decode to `m`'s when they hold
      what `serialize` writes for `m`. */
  lemma OtherFieldsDecode(d: Object, m: MarkerLook)
    requires FieldKeys - {LookKey} <= d.Keys
    requires d[OffsetTranslationKey] == Array(VectorList(m.offsetTranslation))
    requires d[OffsetRotationKey] == Array(VectorList(m.offsetRotation))
    requires d[OffsetScalingKey] == Array(VectorList(m.offsetScaling))
    requires d[SizeKey] == Number(m.size)
    requires d[ColorKey] == Array(ColorList(m.color))
    requires d[ParentLinkKey] == Boolean(m.parentLink)
    requires d[LengthKey] == Number(m.length)
    ensures VectorAt(d, OffsetTranslationKey) == Success(m.offsetTranslation)
    ensures VectorAt(d, OffsetRotationKey) == Success(m.offsetRotation)
    ensures VectorAt(d, OffsetScalingKey) == Success(m.offsetScaling)
    ensures RealAt(d, SizeKey) == Success(m.size)
    ensures ColorAt(d, ColorKey) == Success(m.color)
    ensures BoolAt(d, ParentLinkKey) == Success(m.parentLink)
    ensures RealAt(d, LengthKey) == Success(m.length)
  {
    KeysDistinct();
    TripleDecodes(d, OffsetTranslationKey);
    TripleDecodes(d, OffsetRotationKey);
    TripleDecodes(d, OffsetScalingKey);
    RealDecodes(d, SizeKey, m.size);
    TripleDecodes(d, ColorKey);
    BoolDecodes(d, ParentLinkKey, m.parentLink);
    RealDecodes(d, LengthKey, m.length);
  }

  /** Replacing the stored shape of an object leaves the other seven
      fields decoding as before. */
  lemma OtherFieldsKept(d: Object, v: Value)
    ensures var e := d[LookKey := v];
      && VectorAt(e, OffsetTranslationKey) == VectorAt(d, OffsetTranslationKey)
      && VectorAt(e, OffsetRotationKey) == VectorAt(d, OffsetRotationKey)
      && VectorAt(e, OffsetScalingKey) == VectorAt(d, OffsetScalingKey)
      && RealAt(e, SizeKey) == RealAt(d, SizeKey)
      && ColorAt(e, ColorKey) == ColorAt(d, ColorKey)
      && BoolAt(e, ParentLinkKey) == BoolAt(d, ParentLinkKey)
      && RealAt(e, LengthKey) == RealAt(d, LengthKey)
  {
    KeysDistinct();
  }

  /** `from_serialized` fails with the shape's error once the three offsets
      have decoded and the shape has not. */
  lemma FailsAtLook(d: Object)
    requires VectorAt(d, OffsetTranslationKey).Success?
    requires VectorAt(d, OffsetRotationKey).Success?
    requires VectorAt(d, OffsetScalingKey).Success?
    requires LookAt(d).Failure?
    ensures FromSerialized(d) == Failure(LookAt(d).error)
  {
  }

  /** Replacing the stored shape index of an object that decodes leaves the
      other seven fields decoding as before: the result is the record with
      the shape that `_LOOKS[index]` picks, or the error that indexing raises. */
  lemma LookReplaced(d: Object, v: Value)
    requires FromSerialized(d).Success?
    ensures var e := d[LookKey := v];
      FromSerialized(e) == if LookAt(e).Success? then Success(FromSerialized(d).value.(look := LookAt(e).value))
                           else Failure(LookAt(e).error)
  {
    var e := d[LookKey := v];
    OtherFieldsKept(d, v);
    if LookAt(e).Success? {
      DecodesTo(e, FromSerialized(d).value.(look := LookAt(e).value));
    } else {
      FailsAtLook(e);
    }
  }

  /** A stored index `n` picks `_LOOKS[n]`, counting from the end when negative. */
  lemma LookAtIndex(d: Object, n: int)
    requires LookKey in d && d[LookKey] == Integer(n)
    ensures LookAt(d) == TupleIndex(Looks, n)
  {
  }

  /** Indices 0..13 decode to their table entry, whatever the object holds
      otherwise, and serialize back unchanged. */
  lemma LookIndexInTable(d: Object, n: int)
    requires FromSerialized(d).Success?
    requires 0 <= n < |Looks|
    ensures FromSerialized(d[LookKey := Integer(n)]) == Success(FromSerialized(d).value.(look := Looks[n]))
    ensures Serialize(FromSerialized(d).value.(look := Looks[n]))[LookKey] == Integer(n)
  {
    LookReplaced(d, Integer(n));
    LookAtIndex(d[LookKey := Integer(n)], n);
    SerializedLook(FromSerialized(d).value.(look := Looks[n]));
    IndexOfLooksAt(n);
  }

  /** A negative index -k, for k in 1..14, counts from the end of the table
      (so -1 is `Stick`), and serializing the result stores 14 - k, not -k. */
  lemma NegativeLookIndex(d: Object, k: int)
    requires FromSerialized(d).Success?
    requires 1 <= k <= |Looks|
    ensures FromSerialized(d[LookKey := Integer(-k)]) == Success(FromSerialized(d).value.(look := Looks[|Looks| - k]))
    ensures Serialize(FromSerialized(d).value.(look := Looks[|Looks| - k]))[LookKey] == Integer(|Looks| - k)
    ensures k == 1 ==> Looks[|Looks| - k] == Stick
  {
    LookReplaced(d, Integer(-k));
    LookAtIndex(d[LookKey := Integer(-k)], -k);
    SerializedLook(FromSerialized(d).value.(look := Looks[|Looks| - k]));
    IndexOfLooksAt(|Looks| - k);
  }

  /** Indices from 14 up, and below -14, raise an index error. */
  lemma LookIndexOutOfRange(d: Object, n: int)
    requires FromSerialized(d).Success?
    requires n >= |Looks| || n < -|Looks|
    ensures FromSerialized(d[LookKey := Integer(n)]) == Failure(IndexError(n))
  {
    LookReplaced(d, Integer(n));
    LookAtIndex(d[LookKey := Integer(n)], n);
  }

  /** A JSON boolean is a Python int: `true` picks entry 1, `false` entry 0. */
  lemma BooleanLookIndex(d: Object, b: bool)
    requires FromSerialized(d).Success?
    ensures FromSerialized(d[LookKey := Boolean(b)]) == Success(FromSerialized(d).value.(look := if b then Bone else AimRollGoal))
  {
    LookReplaced(d, Boolean(b));
  }

  /** Keys other than the eight are ignored by `from_serialized`. */
  lemma ExtraKeyIgnored(d: Object, key: string, v: Value)
    requires key !in FieldKeys
    ensures FromSerialized(d[key := v]) == FromSerialized(d)
  {
    var e := d[key := v];
    assert VectorAt(e, OffsetTranslationKey) == VectorAt(d, OffsetTranslationKey);
    assert VectorAt(e, OffsetRotationKey) == VectorAt(d, OffsetRotationKey);
    assert VectorAt(e, OffsetScalingKey) == VectorAt(d, OffsetScalingKey);
    assert LookAt(e) == LookAt(d);
    assert RealAt(e, SizeKey) == RealAt(d, SizeKey);
    assert ColorAt(e, ColorKey) == ColorAt(d, ColorKey);
    assert BoolAt(e, ParentLinkKey) == BoolAt(d, ParentLinkKey);
    assert RealAt(e, LengthKey) == RealAt(d, LengthKey);
  }
}
