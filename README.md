# Marker looks, modelled in Dafny

`mobulook` saves the display properties of MotionBuilder markers to a JSON
file and applies them again later. Those properties are the three geometric
offsets, the shape, the size, the colour, the parent-link flag and the length.
This project models that core and proves its properties:

- `MarkerLook` is the record of the eight properties, with its fixed
  14-entry shape table `_LOOKS`.
- `serialize` and `from_serialized` convert the record to and from a JSON
  object. The shape is stored as its index in the table.
- `from_model` reads a record out of a marker. `apply` writes one onto a
  marker.
- `save` collects the looks of a list of markers into one look file.
- `load` resolves every entry of a look file in the scene, optionally under a
  namespace, and applies the entry's look.

Modules; `results.dfy` holds two, every other file one:

- `Results` (`results.dfy`) holds the `Result` type that carries the Python
  exception a call raises, and `Outcome` for operations that only succeed or
  raise.
- `Options` (`results.dfy`) holds the `Option` type of the optional namespace.
- `Json` (`json.dfy`) holds the JSON values a look file can hold.
- `MarkerLooks` (`marker_look.dfy`) holds the shape table, the record, the
  codec and its lemmas.
- `Markers` (`marker.dfy`) holds the scene object as a class whose fields
  `apply` overwrites, together with `FromModel` and `Apply`.
- `LookFiles` (`look_file.dfy`) holds label-name composition, `save`, `load`,
  and the composition of the two.

The pure parts are functions over datatypes. `apply` is a method that
modifies one marker. `save` and `load` are methods with loops and invariants.

Two points where the code does something other than one might expect from its
messages. The model follows the code in both.

- Line 72 indexes a Python tuple, so the stored indices -14..-1 are accepted
  and count from the end of the table. For example -1 gives `Stick`. Only
  14 and above, and -15 and below, raise `IndexError`
  (`MarkerLooks.NegativeLookIndex`, `MarkerLooks.LookIndexOutOfRange`).
  Index -1 does not raise.
- Line 121 prints that a non-marker is "ignored", but nothing skips it, and
  line 122 records it anyway. `LookFiles.Save` records every object it is
  given.

## Model

| member | source | states |
|---|---|---|
| MarkerLooks.FirstIndex | src/mobulook.py:92 | `tuple.index`: the result holds `x`, and no earlier position does |
| MarkerLooks.IndexOf | src/mobulook.py:92 | every shape has an index inside the table, at which the table holds that shape |
| MarkerLooks.TupleIndex | src/mobulook.py:72 | Python tuple indexing: exactly the indices -n..n-1 of an n-entry tuple are accepted, each picking the entry at its position modulo n; any other index raises `IndexError` with that index |
| MarkerLooks.IndexOfLooksAt | src/mobulook.py:12-27 | for each i in 0..13, `_LOOKS.index(_LOOKS[i]) == i` (the table has no duplicates) |
| MarkerLooks.Serialize | src/mobulook.py:86-97 | its contract is carried by `SerializeCanonical` and `RoundTrip`: exactly the eight keys, in the shapes listed there, and an object that decodes back to the record |
| MarkerLooks.FromSerialized | src/mobulook.py:66-77 | its contract is carried by `CanonicalRoundTrip`, `FromSerializedErrors`, `MissingKeyFails`, `LookReplaced` and the shape-index lemmas: it inverts `serialize`, raises `KeyError` only for a missing key of the eight, and does raise it when any one key is taken out of an object that decodes, and treats the stored shape as a tuple index |
| MarkerLooks.SerializeCanonical | src/mobulook.py:86-97 | `serialize` writes exactly the eight keys, offsets and colour as three-number lists, size and length as numbers, the flag as a boolean, and a shape index in 0..13 that names the record's shape |
| MarkerLooks.RoundTrip | src/mobulook.py:66-97 | `from_serialized(serialize(r))` succeeds and gives back `r`, field for field |
| MarkerLooks.CanonicalRoundTrip | src/mobulook.py:66-97 | every object of the form `serialize` writes decodes, and serializing the result gives the object back |
| MarkerLooks.FromSerializedErrors | src/mobulook.py:66-77 | decoding succeeds only when all eight keys are present; a `KeyError` names one of the eight keys that is missing; an `IndexError` comes from an integer shape index outside -14..13 |
| MarkerLooks.MissingKeyFails | src/mobulook.py:69-76 | removing any one of the eight keys from an object that decodes makes decoding raise `KeyError` naming that key |
| MarkerLooks.LookReplaced | src/mobulook.py:66-77 | replacing the stored shape of an object that decodes changes only the decoded shape, or fails with exactly the shape's error |
| MarkerLooks.LookIndexInTable | src/mobulook.py:72-92 | indices 0..13 decode to `_LOOKS[n]` whatever else the object holds, and serialize back as n |
| MarkerLooks.NegativeLookIndex | src/mobulook.py:72-92 | index -k, for k in 1..14, decodes to `_LOOKS[14-k]`, with -1 giving `Stick`, and serializes back as 14-k rather than -k |
| MarkerLooks.LookIndexOutOfRange | src/mobulook.py:72 | indices from 14 up, and below -14, make decoding raise `IndexError` with that index |
| MarkerLooks.BooleanLookIndex | src/mobulook.py:72 | a JSON boolean used as an index is a Python int: `true` picks `Bone` and `false` picks `AimRollGoal` |
| MarkerLooks.ExtraKeyIgnored | src/mobulook.py:66-77 | keys other than the eight do not change what decoding returns |
| Markers.FromModel | src/mobulook.py:52-63 | reading a marker's look succeeds exactly when it has the "Show Parent Link" property, and raises otherwise |
| Markers.Apply | src/mobulook.py:99-108 | sets the eight look properties in the source's order; without the parent-link property it raises after the first six writes, leaving the length alone; never changes the name or other properties; afterwards `from_model` gives back the applied record; applying a marker's own look leaves it unchanged |
| LookFiles.FullName | src/mobulook.py:140 | with a non-empty namespace the label name is `ns:name`; with none or an empty one it is `name` |
| LookFiles.FullNameInjective | src/mobulook.py:140 | under one namespace, different names give different label names |
| LookFiles.NamespacedNeverBare | src/mobulook.py:140 | with a non-empty namespace, a name never resolves to itself |
| LookFiles.NamespacesDistinguished | src/mobulook.py:140 | two non-empty namespaces that give the same label name for a name are equal |
| LookFiles.Save | src/mobulook.py:118-122 | succeeds exactly when every object has the parent-link property; its keys are exactly the names of all the objects, markers or not; each name holds the serialization of the last object of that name |
| LookFiles.LastOfNameExists | src/mobulook.py:118-122 | every name in the list has a last position, the one whose entry survives in the file |
| LookFiles.Load | src/mobulook.py:139-143 | succeeds exactly when every entry decodes, resolves to a scene object and that object has the parent-link property; a failure carries the error of an entry that does not load, checked in the source's order (decode, resolve, property); on success each resolved object reads back as its entry's decoded look, keeps its name, and of its properties only the parent-link flag changes, to the entry's value; only the objects the entries resolve to may change |
| LookFiles.SaveThenLoad | src/mobulook.py:111-143 | saving a list of markers and loading the result, without or with a namespace, into a scene where every saved name resolves to a marker with the parent-link property succeeds, and gives each resolved marker the look of the last saved marker of its name; those markers keep their names and all properties but the parent-link flag, which takes the saved marker's value; every scene object under a label name that no saved name resolves to is left unchanged |

## Left out

- File I/O is not modelled: the `open`, `json.dump` and `json.load` calls at lines 124-125 and 136-137. A look file is its parsed contents, a map from name to JSON object.
- A look file whose top level is not a JSON object, or one with an entry that is not a JSON object, cannot be represented. So the model has no counterpart for the `AttributeError` that `.items()` at line 139 raises on the first, or the `TypeError` that `data["offset_translation"]` at line 69 raises on the second.
- The `print` diagnostic at line 121 and the `isinstance` test it depends on are not modelled. They do not change what is recorded.
- `__repr__` (lines 79-84) is debug formatting only.
- The host types are not modelled. Vectors and colours are triples of reals. `GetList` is a three-number list. `PropertyList.Find` is a lookup in a map of boolean properties. `FBFindModelByLabelName` is a lookup in a map from label name to scene object. The host's own checks of the values it is given are not modelled.
- MarkerLooks.FromSerialized: lines 73, 75 and 76 store `size`, `parent_link` and `length` without looking at them; a value of the wrong kind only fails in `apply`, at lines 102, 107 and 108, after `marker.Look` has already been written at line 101. The model checks these values while decoding instead: size and length must be JSON integers or floats, the parent-link flag a boolean, and vectors and colours lists of exactly three numbers (what the host's `FBVector3d` and `FBColor` accept is not modelled). Any other kind raises `TypeError` at decode time.
- MarkerLooks.FromSerialized: an integer size or length is decoded as a real, so `serialize` writes it back as the float `1.0` where the source writes back the integer `1`.
- LookFiles.Load: because of that early check, the error `load` reports can differ from the source's. For example, an entry whose size is `"x"` and whose label name does not resolve fails in the model with `TypeError` on the size, while the source applies to `None` and raises `AttributeError`. An entry that fails only at `apply` in the source leaves writes on the marker there, while the model rejects it before writing anything.
- A host shape value outside the 14 of the table would make `_LOOKS.index` raise `ValueError`. The datatype `Look` has only those 14 values, so that case cannot occur.
- Every scene object is modelled with the eight look fields. A host object that is not a marker has no `Look` attribute, so `from_model` on it would raise `AttributeError`. That failure is not modelled.
- Floating-point values are real numbers. They are only carried, never computed on.
- LookFiles.Load: the order in which entries are visited is left open, because the model does not fix the order of a JSON object's keys. So, on failure, the contract names one entry that does not load rather than the first. It also does not describe the state of the objects that were applied before the failure.
- LookFiles.Load: the precondition `OneLabelPerObject` (each scene object answers to one label name) is an assumption about the host's label lookup.
