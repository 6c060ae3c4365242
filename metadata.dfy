/** The OMEGA metadata registry: named dimensions, field metadata records and
    groups of field names, each kept in its own name-keyed store. */
module Meta {
  import opened Entries
  import opened NameOrder

  /** Reserved names of the two global (non-array) metadata records. */
  const CodeMeta: string := "code"
  const SimMeta: string := "simulation"

  /** The names of a list of (name, length) pairs, in order. */
  function NamesOf(dims: seq<(string, int32)>): (names: seq<string>)
    ensures |names| == |dims|
    ensures forall i :: 0 <= i < |dims| ==> names[i] == dims[i].0
  {
    seq(|dims|, i requires 0 <= i < |dims| => dims[i].0)
  }

  /** Iteration over the dimensions is determined by the stored dimensions:
      two listings that each hold every defined name once, in ascending
      order, with its stored length, are the same listing. */
  lemma {:induction false} DimListingUnique(allDims: map<string, MetaDim>,
                                            a: seq<(string, int32)>, b: seq<(string, int32)>)
    requires StrictlySorted(NamesOf(a)) && Elems(NamesOf(a)) == allDims.Keys
    requires forall i :: 0 <= i < |a| ==> a[i].0 in allDims && a[i].1 == allDims[a[i].0].length
    requires StrictlySorted(NamesOf(b)) && Elems(NamesOf(b)) == allDims.Keys
    requires forall i :: 0 <= i < |b| ==> b[i].0 in allDims && b[i].1 == allDims[b[i].0].length
    ensures a == b
  {
    SortedUnique(NamesOf(a), NamesOf(b));
    assert |a| == |b|;
    forall i | 0 <= i < |a| ensures a[i] == b[i] {
      assert NamesOf(a)[i] == NamesOf(b)[i];
    }
  }

  /** A named dimension and its global length (0 for unlimited). */
  class MetaDim {
    const dimName: string
    const length: int32

    constructor (name: string, length: int32)
      ensures dimName == name && this.length == length
    {
      dimName := name;
      this.length := length;
    }

    /** The length of this dimension. */
    method GetLength() returns (l: int32)
      ensures l == length
    {
      l := length;
    }
  }

  /** The metadata record of one field: named entries of fixed kinds, the
      number of dimensions and the dimension names in array index order. */
  class MetaData {
    const fieldName: string
    var metaMap: map<string, EntryValue>
    var nDims: int32
    var dimNames: seq<string>

    /** An empty record; the number of dimensions starts at 0. */
    constructor (name: string)
      ensures fieldName == name
      ensures metaMap == map[] && nDims == 0 && dimNames == []
    {
      fieldName := name;
      metaMap := map[];
      nDims := 0;
      dimNames := [];
    }

    method HasEntry(name: string) returns (b: bool)
      ensures b <==> name in metaMap
    {
      b := name in metaMap;
    }

    /** Adds an entry; a name already present is rejected (-1) and its value
        kept, with no overwrite. */
    method AddEntry(name: string, value: EntryValue) returns (code: int)
      modifies this`metaMap
      ensures name in old(metaMap) ==> code == -1 && metaMap == old(metaMap)
      ensures name !in old(metaMap) ==> code == 0 && metaMap == old(metaMap)[name := value]
    {
      if name in metaMap {
        code := -1;
      } else {
        metaMap := metaMap[name := value];
        code := 0;
      }
    }

    /** Removes an entry; a missing name is rejected (-1). */
    method RemoveEntry(name: string) returns (code: int)
      modifies this`metaMap
      ensures name !in old(metaMap) ==> code == -1 && metaMap == old(metaMap)
      ensures name in old(metaMap) ==> code == 0 && metaMap == old(metaMap) - {name}
    {
      if name !in metaMap {
        code := -1;
      } else {
        metaMap := metaMap - {name};
        code := 0;
      }
    }

    method GetNumDims() returns (n: int32)
      ensures n == nDims
    {
      n := nDims;
    }

    /** The first nDims dimension names, in the stored index order, or the
        empty list for a field that is not an array. Always succeeds (0). */
    method GetDimNames() returns (code: int, dimensions: seq<string>)
      requires nDims as int <= |dimNames|
      ensures code == 0
      ensures nDims > 0 ==> |dimensions| == nDims as int &&
                            forall i :: 0 <= i < |dimensions| ==> dimensions[i] == dimNames[i]
      ensures nDims <= 0 ==> dimensions == []
    {
      code := 0;
      if nDims > 0 {
        var n := nDims as int;
        var dims := new string[n];
        var i := 0;
        while i < n
          invariant 0 <= i <= n
          invariant forall k :: 0 <= k < i ==> dims[k] == dimNames[k]
        {
          dims[i] := dimNames[i];
          i := i + 1;
        }
        dimensions := dims[..];
      } else {
        dimensions := [];
      }
    }

    // One retrieval per entry kind. A missing name gives -1 and hands back
    // the caller's value untouched; a present name must hold the requested
    // kind, and its value is returned with 0.

    method GetEntryI4(name: string, value: int32) returns (code: int, result: int32)
      requires name in metaMap ==> metaMap[name].I4?
      ensures name !in metaMap ==> code == -1 && result == value
      ensures name in metaMap ==> code == 0 && metaMap[name] == I4(result)
    {
      if name !in metaMap {
        code, result := -1, value;
      } else {
        code, result := 0, metaMap[name].i4;
      }
    }

    method GetEntryI8(name: string, value: int64) returns (code: int, result: int64)
      requires name in metaMap ==> metaMap[name].I8?
      ensures name !in metaMap ==> code == -1 && result == value
      ensures name in metaMap ==> code == 0 && metaMap[name] == I8(result)
    {
      if name !in metaMap {
        code, result := -1, value;
      } else {
        code, result := 0, metaMap[name].i8;
      }
    }

    method GetEntryR4(name: string, value: bv32) returns (code: int, result: bv32)
      requires name in metaMap ==> metaMap[name].R4?
      ensures name !in metaMap ==> code == -1 && result == value
      ensures name in metaMap ==> code == 0 && metaMap[name] == R4(result)
    {
      if name !in metaMap {
        code, result := -1, value;
      } else {
        code, result := 0, metaMap[name].r4;
      }
    }

    method GetEntryR8(name: string, value: bv64) returns (code: int, result: bv64)
      requires name in metaMap ==> metaMap[name].R8?
      ensures name !in metaMap ==> code == -1 && result == value
      ensures name in metaMap ==> code == 0 && metaMap[name] == R8(result)
    {
      if name !in metaMap {
        code, result := -1, value;
      } else {
        code, result := 0, metaMap[name].r8;
      }
    }

    method GetEntryBool(name: string, value: bool) returns (code: int, result: bool)
      requires name in metaMap ==> metaMap[name].Bool?
      ensures name !in metaMap ==> code == -1 && result == value
      ensures name in metaMap ==> code == 0 && metaMap[name] == Bool(result)
    {
      if name !in metaMap {
        code, result := -1, value;
      } else {
        code, result := 0, metaMap[name].b;
      }
    }

    method GetEntryStr(name: string, value: string) returns (code: int, result: string)
      requires name in metaMap ==> metaMap[name].Str?
      ensures name !in metaMap ==> code == -1 && result == value
      ensures name in metaMap ==> code == 0 && metaMap[name] == Str(result)
    {
      if name !in metaMap {
        code, result := -1, value;
      } else {
        code, result := 0, metaMap[name].s;
      }
    }

    /** A snapshot of all entries of this record. */
    method GetAllEntries() returns (entries: map<string, EntryValue>)
      ensures entries == metaMap
    {
      entries := metaMap;
    }
  }

  /** A named set of field names. Membership is by name only: a member need
      not have a metadata record, now or later. */
  class MetaGroup {
    const grpName: string
    var fields: set<string>

    constructor (name: string)
      ensures grpName == name && fields == {}
    {
      grpName := name;
      fields := {};
    }

    method HasField(name: string) returns (b: bool)
      ensures b <==> name in fields
    {
      b := name in fields;
    }

    /** Inserts the name whether or not a record of that name exists; a
        repeat insert changes nothing. Reports -2 when no record exists. */
    method AddField(reg: Registry, name: string) returns (code: int)
      modifies this
      ensures fields == old(fields) + {name}
      ensures code == (if name in reg.allFields then 0 else -2)
    {
      code := 0;
      var defined := reg.HasField(name);
      if !defined {
        code := -2;
      }
      fields := fields + {name};
    }

    /** The record of a member, looked up again in the registry: null for a
        non-member, and for a member whose record no longer exists. */
    method GetField(reg: Registry, name: string) returns (r: MetaData?)
      ensures name !in fields ==> r == null
      ensures name in fields && name in reg.allFields ==> r == reg.allFields[name]
      ensures name in fields && name !in reg.allFields ==> r == null
    {
      if name !in fields {
        r := null;
      } else {
        r := reg.GetField(name);
      }
    }

    /** Removes a member; a non-member is rejected (-1). */
    method RemoveField(name: string) returns (code: int)
      modifies this
      ensures name !in old(fields) ==> code == -1 && fields == old(fields)
      ensures name in old(fields) ==> code == 0 && fields == old(fields) - {name}
    {
      if name !in fields {
        code := -1;
      } else {
        fields := fields - {name};
        code := 0;
      }
    }

    /** An independent copy of the member names, in the ascending order in
        which the returned ordered set is visited: every member exactly once. */
    method GetFieldList() returns (list: seq<string>)
      ensures StrictlySorted(list)
      ensures Elems(list) == fields
    {
      list := [];
      var rest := fields;
      while rest != {}
        invariant rest <= fields
        invariant StrictlySorted(list)
        invariant Elems(list) + rest == fields
        invariant forall i, x :: 0 <= i < |list| && x in rest ==> Less(list[i], x)
        decreases rest
      {
        var f := Least(rest);
        list := list + [f];
        rest := rest - {f};
      }
    }
  }

  /** The three name-keyed stores. Each name maps to at most one entity, and
      each stored entity carries the name it is stored under. */
  class Registry {
    var allDims: map<string, MetaDim>
    var allFields: map<string, MetaData>
    var allGroups: map<string, MetaGroup>

    ghost predicate Valid()
      reads this
    {
      && (forall n | n in allDims :: allDims[n].dimName == n)
      && (forall n | n in allFields :: allFields[n].fieldName == n)
      && (forall n | n in allGroups :: allGroups[n].grpName == n)
    }

    constructor ()
      ensures Valid()
      ensures allDims == map[] && allFields == map[] && allGroups == map[]
    {
      allDims, allFields, allGroups := map[], map[], map[];
    }

    /** Distinct names in one store are held by distinct entities. */
    lemma DistinctNamesDistinctEntities(a: string, b: string)
      requires Valid() && a != b
      ensures a in allDims && b in allDims ==> allDims[a] != allDims[b]
      ensures a in allFields && b in allFields ==> allFields[a] != allFields[b]
      ensures a in allGroups && b in allGroups ==> allGroups[a] != allGroups[b]
    {
    }

    // ---------------------------------------------------------------- dims

    method HasDim(name: string) returns (b: bool)
      ensures b <==> name in allDims
    {
      b := name in allDims;
    }

    /** Defines a dimension. A known name with the same length gives back the
        stored dimension; a known name with another length gives null and
        keeps the stored one; an unknown name is inserted. */
    method CreateDim(name: string, length: int32) returns (d: MetaDim?)
      requires Valid()
      modifies this
      ensures Valid()
      ensures allFields == old(allFields) && allGroups == old(allGroups)
      ensures name in old(allDims) && old(allDims)[name].length == length ==>
                d == old(allDims)[name] && allDims == old(allDims)
      ensures name in old(allDims) && old(allDims)[name].length != length ==>
                d == null && allDims == old(allDims)
      ensures name !in old(allDims) ==>
                d != null && fresh(d) && d.dimName == name && d.length == length &&
                allDims == old(allDims)[name := d] && |allDims| == |old(allDims)| + 1
    {
      if name in allDims {
        d := allDims[name];
        if d.length != length {
          d := null;
        }
      } else {
        d := new MetaDim(name, length);
        allDims := allDims[name := d];
      }
    }

    /** Removes exactly the named dimension; an unknown name gives -1. */
    method DestroyDim(name: string) returns (code: int)
      requires Valid()
      modifies this
      ensures Valid()
      ensures allFields == old(allFields) && allGroups == old(allGroups)
      ensures name !in old(allDims) ==> code == -1 && allDims == old(allDims)
      ensures name in old(allDims) ==> code == 0 && allDims == old(allDims) - {name}
    {
      if name !in allDims {
        code := -1;
      } else {
        allDims := allDims - {name};
        code := 0;
      }
    }

    /** Drops every dimension and nothing else. */
    method ClearDims()
      requires Valid()
      modifies this
      ensures Valid()
      ensures allDims == map[]
      ensures allFields == old(allFields) && allGroups == old(allGroups)
    {
      allDims := map[];
    }

    method GetDim(name: string) returns (d: MetaDim?)
      ensures name in allDims ==> d == allDims[name]
      ensures name !in allDims ==> d == null
    {
      if name !in allDims {
        d := null;
      } else {
        d := allDims[name];
      }
    }

    /** The stored length of a defined dimension, -1 otherwise. */
    method GetDimLength(name: string) returns (l: int32)
      ensures name in allDims ==> l == allDims[name].length
      ensures name !in allDims ==> l == -1
    {
      if name in allDims {
        l := allDims[name].length;
      } else {
        l := -1;
      }
    }

    method GetNumDefinedDims() returns (n: nat)
      ensures n == |allDims.Keys|
    {
      n := |allDims.Keys|;
    }

    /** The defined dimensions as visited by iteration: every defined name
        exactly once, in ascending name order, with its stored length. */
    method DimsInOrder() returns (dims: seq<(string, int32)>)
      ensures StrictlySorted(NamesOf(dims))
      ensures Elems(NamesOf(dims)) == allDims.Keys
      ensures forall i :: 0 <= i < |dims| ==> dims[i].0 in allDims && dims[i].1 == allDims[dims[i].0].length
    {
      dims := [];
      var rest := allDims.Keys;
      while rest != {}
        invariant rest <= allDims.Keys
        invariant StrictlySorted(NamesOf(dims))
        invariant Elems(NamesOf(dims)) + rest == allDims.Keys
        invariant forall i :: 0 <= i < |dims| ==> dims[i].0 in allDims && dims[i].1 == allDims[dims[i].0].length
        invariant forall i, x :: 0 <= i < |dims| && x in rest ==> Less(dims[i].0, x)
        decreases rest
      {
        var m := Least(rest);
        ghost var before := dims;
        dims := dims + [(m, allDims[m].length)];
        assert NamesOf(dims) == NamesOf(before) + [m];
        assert Elems(NamesOf(dims)) == Elems(NamesOf(before)) + {m};
        rest := rest - {m};
      }
    }

    // -------------------------------------------------------------- fields

    method HasField(name: string) returns (b: bool)
      ensures b <==> name in allFields
    {
      b := name in allFields;
    }

    /** Creates an empty record; a taken name gives null and changes nothing. */
    method CreateField(name: string) returns (r: MetaData?)
      requires Valid()
      modifies this
      ensures Valid()
      ensures allDims == old(allDims) && allGroups == old(allGroups)
      ensures name in old(allFields) ==> r == null && allFields == old(allFields)
      ensures name !in old(allFields) ==>
                r != null && fresh(r) && allFields == old(allFields)[name := r] &&
                r.fieldName == name && r.metaMap == map[] && r.nDims == 0 && r.dimNames == []
    {
      if name in allFields {
        r := null;
      } else {
        r := new MetaData(name);
        allFields := allFields[name := r];
      }
    }

    /** Creates an array field record with its dimensions and the six
        standard entries; a taken name gives null and adds nothing. */
    method CreateArrayField(name: string, description: string, units: string, stdName: string,
                            validMin: EntryValue, validMax: EntryValue, fillValue: EntryValue,
                            numDims: int32, dimensions: seq<string>) returns (r: MetaData?)
      requires Valid()
      modifies this
      ensures Valid()
      ensures allDims == old(allDims) && allGroups == old(allGroups)
      ensures name in old(allFields) ==> r == null && allFields == old(allFields)
      ensures name !in old(allFields) ==>
                r != null && fresh(r) && allFields == old(allFields)[name := r] &&
                r.fieldName == name && r.nDims == numDims && r.dimNames == dimensions &&
                r.metaMap == map["Description" := Str(description), "Units" := Str(units),
                                 "StdName" := Str(stdName), "ValidMin" := validMin,
                                 "ValidMax" := validMax, "FillValue" := fillValue]
    {
      r := CreateField(name);
      if r != null {
        r.nDims := numDims;
        r.dimNames := dimensions;
        var ignored := r.AddEntry("Description", Str(description));
        ignored := r.AddEntry("Units", Str(units));
        ignored := r.AddEntry("StdName", Str(stdName));
        ignored := r.AddEntry("ValidMin", validMin);
        ignored := r.AddEntry("ValidMax", validMax);
        ignored := r.AddEntry("FillValue", fillValue);
      }
    }

    /** Creates a scalar field record from (name, value) pairs added in
        order; of repeated names the first value is kept. A taken name gives
        null and adds nothing. */
    method CreateScalarField(name: string, pairs: seq<(string, EntryValue)>) returns (r: MetaData?)
      requires Valid()
      modifies this
      ensures Valid()
      ensures allDims == old(allDims) && allGroups == old(allGroups)
      ensures name in old(allFields) ==> r == null && allFields == old(allFields)
      ensures name !in old(allFields) ==>
                r != null && fresh(r) && allFields == old(allFields)[name := r] &&
                r.fieldName == name && r.nDims == 0 && r.dimNames == [] &&
                r.metaMap == FirstWins(pairs)
    {
      r := CreateField(name);
      if r != null {
        r.nDims := 0;
        var i := 0;
        while i < |pairs|
          invariant 0 <= i <= |pairs|
          invariant fresh(r)
          invariant r.metaMap == FirstWins(pairs[..i])
          invariant r.fieldName == name && r.nDims == 0 && r.dimNames == []
          invariant allFields == old(allFields)[name := r]
          invariant allDims == old(allDims) && allGroups == old(allGroups)
        {
          assert pairs[..i + 1][..i] == pairs[..i];
          var _ := r.AddEntry(pairs[i].0, pairs[i].1);
          i := i + 1;
        }
        assert pairs[..|pairs|] == pairs;
      }
    }

    /** Removes exactly the named record; an unknown name gives -1. */
    method DestroyField(name: string) returns (code: int)
      requires Valid()
      modifies this
      ensures Valid()
      ensures allDims == old(allDims) && allGroups == old(allGroups)
      ensures name !in old(allFields) ==> code == -1 && allFields == old(allFields)
      ensures name in old(allFields) ==> code == 0 && allFields == old(allFields) - {name}
    {
      if name !in allFields {
        code := -1;
      } else {
        allFields := allFields - {name};
        code := 0;
      }
    }

    /** Drops every field record and nothing else. */
    method ClearFields()
      requires Valid()
      modifies this
      ensures Valid()
      ensures allFields == map[]
      ensures allDims == old(allDims) && allGroups == old(allGroups)
    {
      allFields := map[];
    }

    method GetField(name: string) returns (r: MetaData?)
      ensures name in allFields ==> r == allFields[name]
      ensures name !in allFields ==> r == null
    {
      if name !in allFields {
        r := null;
      } else {
        r := allFields[name];
      }
    }

    // -------------------------------------------------------------- groups

    method HasGroup(name: string) returns (b: bool)
      ensures b <==> name in allGroups
    {
      b := name in allGroups;
    }

    /** Creates an empty group; a taken name gives null and changes nothing. */
    method CreateGroup(name: string) returns (g: MetaGroup?)
      requires Valid()
      modifies this
      ensures Valid()
      ensures allDims == old(allDims) && allFields == old(allFields)
      ensures name in old(allGroups) ==> g == null && allGroups == old(allGroups)
      ensures name !in old(allGroups) ==>
                g != null && fresh(g) && allGroups == old(allGroups)[name := g] &&
                g.grpName == name && g.fields == {}
    {
      if name in allGroups {
        g := null;
      } else {
        g := new MetaGroup(name);
        allGroups := allGroups[name := g];
      }
    }

    /** Removes exactly the named group; an unknown name gives -1. */
    method DestroyGroup(name: string) returns (code: int)
      requires Valid()
      modifies this
      ensures Valid()
      ensures allDims == old(allDims) && allFields == old(allFields)
      ensures name !in old(allGroups) ==> code == -1 && allGroups == old(allGroups)
      ensures name in old(allGroups) ==> code == 0 && allGroups == old(allGroups) - {name}
    {
      if name !in allGroups {
        code := -1;
      } else {
        allGroups := allGroups - {name};
        code := 0;
      }
    }

    method GetGroup(name: string) returns (g: MetaGroup?)
      ensures name in allGroups ==> g == allGroups[name]
      ensures name !in allGroups ==> g == null
    {
      if name !in allGroups {
        g := null;
      } else {
        g := allGroups[name];
      }
    }
  }
}
