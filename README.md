# OMEGA metadata registry in Dafny

This is a model of the metadata registry of the OMEGA ocean component. The
registry has three name-keyed stores:

- **Dimensions** (`MetaDim`) map a name to a global length. A length of 0
  means unlimited.
- **Field metadata records** (`MetaData`) map a field name to a record. A
  record holds entries of six kinds (I4, I8, R4, R8, bool, string), a number
  of dimensions, and the dimension names in the index order of the field's
  data.
- **Groups** (`MetaGroup`) map a group name to a set of field names.

In the C++ code the stores are static class members. Here they are the three
fields of one explicit `Registry` object (`allDims`, `allFields`,
`allGroups`). Each field holds a map from names to objects. `MetaDim`,
`MetaData` and `MetaGroup` are classes, so "`get` returns the instance that
`create` made" is stated as reference equality. A null reference stands for
`nullptr`. Status codes are the source's own: 0, -1 and -2.

Files:

- `entries.dfy` (module `Entries`): the entry-value datatype, the 32- and
  64-bit integer types, and the fold that batch creation performs.
- `name_order.dfy` (module `NameOrder`): the ascending string order in which
  an ordered map visits its keys, and its properties.
- `metadata.dfy` (module `Meta`): the four classes and their operations.
- `scenarios.dfy` (module `Scenarios`): properties that span several calls.
  They are stated for all inputs and proved from the single-operation
  contracts only.

Every mutator keeps `Registry.Valid()`: each stored entity carries the name
it is stored under. Each mutator also says which of the three stores it
leaves unchanged.

Behaviour of the code that the model keeps:

- A bare `create` builds the record with `std::make_shared<MetaData>()`.
  `MetaData` has no user-provided constructor, so this value-initialises the
  record and `NDims` starts at 0. The model's new records have `nDims == 0`.
- `MetaGroup::addField` inserts the name even when it reports -2 (field not
  defined). The model keeps this behaviour.
- Batch creation adds the pairs one by one. Of repeated names, the first
  value is kept and later ones are dropped. The model keeps this too.
- `getEntry` has no type-mismatch return code: a read of the wrong kind
  throws `std::bad_any_cast`. The model makes the right kind a precondition
  of each `GetEntry` method.
- The code has `clear` only for dimensions and fields. Groups are removed
  one at a time with `destroy`, and the model has no group clear either.
- `getFieldList` returns a `std::set`, which is visited in ascending name
  order. The model returns the members as a strictly ascending sequence.

## Model

| member | source | states |
|---|---|---|
| `Entries.FirstWinsKeys` | components/omega/src/infra/MetaData.cpp:98-117 | the entries of a batch-created record are exactly the names of the given pairs |
| `Entries.FirstWinsValue` | components/omega/src/infra/MetaData.cpp:108-110 | for a repeated name, the record keeps the value of its first occurrence; later duplicates are rejected by addEntry and dropped |
| `NameOrder.LessIrreflexive` | components/omega/src/infra/MetaData.h:73-80 | no name sorts before itself in the dimension map's key order |
| `NameOrder.LessTransitive` | components/omega/src/infra/MetaData.h:73-80 | the key order is transitive |
| `NameOrder.LessTotal` | components/omega/src/infra/MetaData.h:73-80 | any two distinct names are ordered one way or the other |
| `NameOrder.LessAsymmetric` | components/omega/src/infra/MetaData.h:73-80 | two names are never ordered both ways |
| `NameOrder.LessCommonPrefix` | components/omega/src/infra/MetaData.h:73-80 | names that share a prefix are ordered by what follows it |
| `NameOrder.SortedUnique` | components/omega/src/infra/MetaData.h:73-80 | two strictly ascending sequences of the same names are equal, so the iteration order is unique |
| `Meta.DimListingUnique` | components/omega/src/infra/MetaData.h:73-80 | two listings that hold every defined dimension once, ascending by name and with its stored length, are identical |
| `Meta.MetaDim.GetLength` | components/omega/src/infra/MetaData.cpp:447 | returns the dimension's stored length |
| `Meta.MetaData.HasEntry` | components/omega/src/infra/MetaData.cpp:162-165 | true exactly when the record has an entry of that name |
| `Meta.MetaData.AddEntry` | components/omega/src/infra/MetaData.cpp:169-186 | an existing name gives -1 and keeps the stored value; otherwise the value is stored under the name and the result is 0; nothing but the entry map changes |
| `Meta.MetaData.RemoveEntry` | components/omega/src/infra/MetaData.cpp:190-210 | a missing name gives -1 and changes nothing; otherwise exactly that entry is deleted and the result is 0 |
| `Meta.MetaData.GetNumDims` | components/omega/src/infra/MetaData.cpp:214 | returns the stored number of dimensions |
| `Meta.MetaData.GetDimNames` | components/omega/src/infra/MetaData.cpp:219-237 | always 0; with nDims > 0 the first nDims dimension names in stored index order, otherwise the empty list; requires nDims not to exceed the stored names |
| `Meta.MetaData.GetEntryI4` | components/omega/src/infra/MetaData.cpp:243-257 | a missing name gives -1 and the caller's value back unchanged; a present I4 entry gives 0 and exactly the stored value |
| `Meta.MetaData.GetEntryI8` | components/omega/src/infra/MetaData.cpp:263-277 | as for I4, for an I8 entry |
| `Meta.MetaData.GetEntryR4` | components/omega/src/infra/MetaData.cpp:283-297 | as for I4, for an R4 entry (its bit pattern) |
| `Meta.MetaData.GetEntryR8` | components/omega/src/infra/MetaData.cpp:303-317 | as for I4, for an R8 entry (its bit pattern) |
| `Meta.MetaData.GetEntryBool` | components/omega/src/infra/MetaData.cpp:323-337 | as for I4, for a bool entry |
| `Meta.MetaData.GetEntryStr` | components/omega/src/infra/MetaData.cpp:343-357 | as for I4, for a string entry |
| `Meta.MetaData.GetAllEntries` | components/omega/src/infra/MetaData.cpp:361 | returns the record's current entry map, as a value |
| `Meta.MetaGroup.HasField` | components/omega/src/infra/MetaData.cpp:544-547 | true exactly when the name is a member of the group |
| `Meta.MetaGroup.AddField` | components/omega/src/infra/MetaData.cpp:551-567 | the name is always added to the member set, and a repeat add is a no-op; the result is -2 when no record of that name exists and 0 otherwise |
| `Meta.MetaGroup.GetField` | components/omega/src/infra/MetaData.cpp:571-581 | null for a non-member; for a member, the record registered under that name, or null when there is none |
| `Meta.MetaGroup.RemoveField` | components/omega/src/infra/MetaData.cpp:585-605 | a non-member gives -1 and changes nothing; otherwise exactly that name is removed and the result is 0 |
| `Meta.MetaGroup.GetFieldList` | components/omega/src/infra/MetaData.cpp:610-618 | a copy of the members in the order the returned ordered set is visited: every member exactly once, strictly ascending by name |
| `Meta.Registry.DistinctNamesDistinctEntities` | components/omega/src/infra/MetaData.h:39 | within each store, two distinct names are held by two distinct entities |
| `Meta.Registry.HasDim` | components/omega/src/infra/MetaData.cpp:365-368 | true exactly when the dimension is defined |
| `Meta.Registry.CreateDim` | components/omega/src/infra/MetaData.cpp:374-400 | an unknown name inserts a fresh dimension of that length and the count rises by 1; a known name with an equal length returns the stored instance and changes nothing; a known name with another length returns null and keeps the stored dimension; the other stores are unchanged |
| `Meta.Registry.DestroyDim` | components/omega/src/infra/MetaData.cpp:404-422 | an unknown name gives -1 and changes nothing; otherwise 0, and exactly that name is removed |
| `Meta.Registry.ClearDims` | components/omega/src/infra/MetaData.cpp:426-428 | no dimension remains; fields and groups are unchanged |
| `Meta.Registry.GetDim` | components/omega/src/infra/MetaData.cpp:432-443 | the stored instance for a defined name, null otherwise |
| `Meta.Registry.GetDimLength` | components/omega/src/infra/MetaData.cpp:451-467 | the stored length for a defined name, -1 otherwise |
| `Meta.Registry.GetNumDefinedDims` | components/omega/src/infra/MetaData.cpp:471 | the number of defined dimension names |
| `Meta.Registry.DimsInOrder` | components/omega/src/infra/MetaData.cpp:475-479 | iteration visits every defined name exactly once, in strictly ascending order, each with its stored length |
| `Meta.Registry.HasField` | components/omega/src/infra/MetaData.cpp:26-29 | true exactly when a record of that name exists |
| `Meta.Registry.CreateField` | components/omega/src/infra/MetaData.cpp:34-51 | a taken name gives null and changes nothing; otherwise a fresh record with no entries is stored under the name and returned |
| `Meta.Registry.CreateArrayField` | components/omega/src/infra/MetaData.cpp:61-93 | a taken name gives null and adds nothing; otherwise the record has the given dimension count and names, and exactly the entries Description, Units, StdName, ValidMin, ValidMax and FillValue |
| `Meta.Registry.CreateScalarField` | components/omega/src/infra/MetaData.cpp:98-117 | a taken name gives null and adds nothing; otherwise the record has 0 dimensions, and its entries result from adding the pairs in order with first-wins on repeats |
| `Meta.Registry.DestroyField` | components/omega/src/infra/MetaData.cpp:121-139 | an unknown name gives -1 and changes nothing; otherwise 0, and exactly that record is removed |
| `Meta.Registry.ClearFields` | components/omega/src/infra/MetaData.cpp:143 | no record remains; dimensions and groups are unchanged |
| `Meta.Registry.GetField` | components/omega/src/infra/MetaData.cpp:147-158 | the stored instance for a defined name, null otherwise |
| `Meta.Registry.HasGroup` | components/omega/src/infra/MetaData.cpp:483-486 | true exactly when the group exists |
| `Meta.Registry.CreateGroup` | components/omega/src/infra/MetaData.cpp:490-506 | a taken name gives null and changes nothing; otherwise a fresh group with no fields is stored under the name and returned |
| `Meta.Registry.DestroyGroup` | components/omega/src/infra/MetaData.cpp:510-527 | an unknown name gives -1 and changes nothing; otherwise 0, and exactly that group is removed |
| `Meta.Registry.GetGroup` | components/omega/src/infra/MetaData.cpp:531-540 | the stored instance for a defined name, null otherwise |
| `Scenarios.CreateDimTwice` | components/omega/src/infra/MetaData.h:42-48 | two creates with the same name and length return one and the same instance, and the dimension count rises by exactly 1 |
| `Scenarios.ConflictingDim` | components/omega/src/infra/MetaData.cpp:381-391 | redefining a dimension with another length returns null, and the first length is still reported |
| `Scenarios.SharedFieldNamespace` | components/omega/src/infra/MetaData.h:22-23 | bare, scalar and array records share one namespace: after a bare create, the scalar and array forms fail on that name whatever their arguments, and get still returns the first record, with no entries and 0 dimensions |
| `Scenarios.GlobalRecords` | components/omega/test/infra/MetadataTest.cpp:104-121 | the reserved code record, created bare, and the simulation record, created from three integer pairs, both exist, and the simulation record holds exactly Meta1 = 1, Meta2 = 2, Meta3 = 3 |
| `Scenarios.ReplaceEntry` | components/omega/test/infra/MetadataTest.cpp:214-234 | a duplicate add gives -1 and keeps the first value; after a remove, adding the same name succeeds and the new value is read back |
| `Scenarios.MemberOutlivesRecord` | components/omega/src/infra/MetaData.cpp:571-581 | getField returns the same record as the registry lookup; after the record is destroyed, the group still lists the name but getField gives null |
| `Scenarios.AddUnregisteredField` | components/omega/src/infra/MetaData.cpp:555-564 | adding an unregistered name gives -2 and still inserts it; a second add gives -2 and changes nothing more |
| `Scenarios.ClearDimensionsOnly` | components/omega/test/infra/MetadataTest.cpp:90-94 | after clear, no dimension is defined and the count is 0; other stores are untouched |
| `Scenarios.IterateDims` | components/omega/test/infra/MetadataTest.cpp:59-81 | MyDim, MyDim2 and MyDim3, defined out of order, are visited in ascending order with lengths 1, 2 and 200 |
| `Scenarios.TemperatureInGroup` | components/omega/test/infra/MetadataTest.cpp:146-212 | an array field added to a new group is the group's only listed member, and its FillValue reads back as stored |
| `Scenarios.GroupListing` | components/omega/test/infra/MetadataTest.cpp:286-310 | two records added to a group out of order are listed as MyField1 then MyField2 |

## Left out

- Logging: every `LOG_ERROR` call is a diagnostic sink only. The model leaves those calls out.
- The `erase(...) != 1` branches in the destroy and remove operations are left out. They run only after a successful `has` check, so they cannot fire.
- Wrong-kind `getEntry`: in the code this throws `std::bad_any_cast`. Each `GetEntry` method instead requires a present entry to be of the requested kind.
- Floating point: R4 and R8 values are kept as 32- and 64-bit patterns. They are stored and returned, never computed with. Equality of patterns is not IEEE equality (NaN, signed zero).
- `std::any` and `shared_ptr`: a tagged datatype and class references replace them. There is no reference counting. A record destroyed in the registry stays reachable through references callers already hold, as with `shared_ptr`.
- `getAllEntries` hands out a raw pointer into the live map. The model returns the map as a value, so callers cannot mutate the record through it.
- Meta.MetaData.GetDimNames: requires `nDims` not to exceed the stored names. The code does not check this, and with a larger `NDims` it reads out of bounds. That behaviour is not modelled.
- Meta.Registry.GetNumDefinedDims: the code converts the map size to a C++ `int`. The model returns the exact count, ignoring that overflow.
- Meta.Registry.DimsInOrder: iteration through `begin`/`end` returns live map iterators. The model returns a snapshot list of (name, length) pairs in the same order. It compares characters by code point; this matches `std::char_traits<char>` for the 7-bit names the registry uses.
- Meta.MetaGroup.GetFieldList: the code returns a new `std::set`; the model returns the same names as an ascending sequence, with the same code-point order as `DimsInOrder`.
- Dimension names cited by a record are not checked against the dimension store. The same holds for group members and the field store (weak references). The model checks neither.
- components/omega/src/ocn/auxiliaryVars/LayerThicknessAuxVars.cpp is not part of this model. It is glue over Field, FieldGroup, HorzMesh and array attachment, none of which this model contains.
- Concurrency: the registry is single-threaded and is modelled as such.
