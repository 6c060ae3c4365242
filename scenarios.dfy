/** Properties of the registry that span several calls, stated for all
    inputs and proved from the contracts of the single operations alone. */
module Scenarios {
  import opened Entries
  import opened NameOrder
  import opened Meta

  /** Creating a dimension twice with the same length yields the same
      instance both times, and the count rises by one, not two. */
  method CreateDimTwice(reg: Registry, name: string, length: int32) returns (d1: MetaDim?, d2: MetaDim?)
    requires reg.Valid() && name !in reg.allDims
    modifies reg
    ensures reg.Valid()
    ensures d1 != null && d1 == d2 && reg.allDims == old(reg.allDims)[name := d1]
    ensures |reg.allDims| == |old(reg.allDims)| + 1
  {
    d1 := reg.CreateDim(name, length);
    d2 := reg.CreateDim(name, length);
    var got := reg.GetDim(name);
    assert got == d1;
  }

  /** Redefining a dimension with another length is rejected and the stored
      length survives. */
  method ConflictingDim(reg: Registry, name: string, length: int32, other: int32)
    returns (d: MetaDim?, l: int32)
    requires reg.Valid() && name !in reg.allDims && length != other
    modifies reg
    ensures reg.Valid()
    ensures d == null && l == length
  {
    var first := reg.CreateDim(name, length);
    d := reg.CreateDim(name, other);
    l := reg.GetDimLength(name);
  }

  /** Bare, array and scalar records share one namespace: once a name holds
      a record, neither other form can create it again, whatever their
      arguments, and the first record is still the one retrieved. */
  method SharedFieldNamespace(reg: Registry, name: string, pairs: seq<(string, EntryValue)>,
                              description: string, units: string, stdName: string,
                              validMin: EntryValue, validMax: EntryValue, fillValue: EntryValue,
                              numDims: int32, dimensions: seq<string>)
    returns (first: MetaData?, second: MetaData?, third: MetaData?, got: MetaData?)
    requires reg.Valid() && name !in reg.allFields
    modifies reg
    ensures reg.Valid()
    ensures first != null && second == null && third == null && got == first
    ensures first.metaMap == map[] && first.nDims == 0
  {
    first := reg.CreateField(name);
    second := reg.CreateScalarField(name, pairs);
    third := reg.CreateArrayField(name, description, units, stdName, validMin, validMax, fillValue,
                                  numDims, dimensions);
    got := reg.GetField(name);
  }

  /** The two reserved global records of the test driver: the code record is
      created bare and the simulation record from three integer pairs; both
      then exist, and the simulation record holds exactly those entries. */
  method GlobalRecords() returns (hasCode: bool, hasSim: bool, simEntries: map<string, EntryValue>)
    ensures hasCode && hasSim
    ensures simEntries == map["Meta1" := I4(1), "Meta2" := I4(2), "Meta3" := I4(3)]
  {
    var reg := new Registry();
    var code := reg.CreateField(CodeMeta);
    var pairs := [("Meta1", I4(1)), ("Meta2", I4(2)), ("Meta3", I4(3))];
    assert CodeMeta != SimMeta;
    var sim := reg.CreateScalarField(SimMeta, pairs);
    hasCode := reg.HasField(CodeMeta);
    hasSim := reg.HasField(SimMeta);
    simEntries := sim.GetAllEntries();
    assert FirstWins(pairs[..1]) == map["Meta1" := I4(1)] by {
      assert pairs[..1][..0] == [];
    }
    assert FirstWins(pairs[..2]) == map["Meta1" := I4(1), "Meta2" := I4(2)] by {
      assert pairs[..2][..1] == pairs[..1];
    }
    assert pairs[..3][..2] == pairs[..2] && pairs[..3] == pairs;
  }

  /** A duplicate add is rejected and keeps the first value; after a remove
      the same name can be added again, and the new value is retrieved. */
  method ReplaceEntry(rec: MetaData, name: string, v1: int32, v2: int32)
    returns (c1: int, c2: int, kept: int32, c3: int, c4: int, got: int32)
    requires name !in rec.metaMap
    modifies rec
    ensures c1 == 0 && c2 == -1 && kept == v1
    ensures c3 == 0 && c4 == 0 && got == v2
    ensures rec.metaMap == old(rec.metaMap)[name := I4(v2)]
  {
    c1 := rec.AddEntry(name, I4(v1));
    c2 := rec.AddEntry(name, I4(v2));
    var code;
    code, kept := rec.GetEntryI4(name, 0);
    c3 := rec.RemoveEntry(name);
    c4 := rec.AddEntry(name, I4(v2));
    code, got := rec.GetEntryI4(name, 0);
    assert rec.metaMap == old(rec.metaMap)[name := I4(v2)];
  }

  /** A group keeps a member's name after its record is destroyed: the
      member is still reported, but retrieving it gives null. */
  method MemberOutlivesRecord(reg: Registry, g: MetaGroup, name: string)
    returns (added: int, before: MetaData?, destroyed: int, still: bool, after: MetaData?)
    requires reg.Valid() && name in reg.allFields
    modifies reg, g
    ensures reg.Valid()
    ensures added == 0 && before == old(reg.allFields)[name]
    ensures destroyed == 0 && still && after == null
    ensures g.fields == old(g.fields) + {name}
  {
    added := g.AddField(reg, name);
    before := g.GetField(reg, name);
    destroyed := reg.DestroyField(name);
    still := g.HasField(name);
    after := g.GetField(reg, name);
  }

  /** Adding an unregistered name to a group reports -2 but still inserts
      it; adding it again changes nothing. */
  method AddUnregisteredField(reg: Registry, g: MetaGroup, name: string)
    returns (c1: int, c2: int)
    requires name !in reg.allFields
    modifies g
    ensures c1 == -2 && c2 == -2
    ensures g.fields == old(g.fields) + {name}
  {
    c1 := g.AddField(reg, name);
    c2 := g.AddField(reg, name);
  }

  /** Clearing one store leaves it empty and the other two as they were. */
  method ClearDimensionsOnly(reg: Registry, name: string) returns (has: bool, count: nat)
    requires reg.Valid()
    modifies reg
    ensures reg.Valid()
    ensures !has && count == 0
    ensures reg.allFields == old(reg.allFields) && reg.allGroups == old(reg.allGroups)
  {
    reg.ClearDims();
    has := reg.HasDim(name);
    count := reg.GetNumDefinedDims();
  }

  /** The listing the test driver expects, as names and as a set. */
  lemma ExpectedDimListing()
    ensures StrictlySorted(NamesOf([("MyDim", 1), ("MyDim2", 2), ("MyDim3", 200)]))
    ensures Elems(NamesOf([("MyDim", 1), ("MyDim2", 2), ("MyDim3", 200)])) == {"MyDim", "MyDim2", "MyDim3"}
  {
    var names := NamesOf([("MyDim", 1), ("MyDim2", 2), ("MyDim3", 200)]);
    assert names == ["MyDim", "MyDim2", "MyDim3"];
    assert "MyDim"[1..] == "yDim" && "MyDim2"[1..] == "yDim2" && "MyDim3"[1..] == "yDim3";
    assert "yDim"[1..] == "Dim" && "yDim2"[1..] == "Dim2" && "yDim3"[1..] == "Dim3";
    assert "Dim"[1..] == "im" && "Dim2"[1..] == "im2" && "Dim3"[1..] == "im3";
    assert "im"[1..] == "m" && "im2"[1..] == "m2" && "im3"[1..] == "m3";
    assert "m"[1..] == "" && "m2"[1..] == "2" && "m3"[1..] == "3";
    assert Less("MyDim", "MyDim2") && Less("MyDim", "MyDim3") && Less("MyDim2", "MyDim3");
  }

  /** A fresh registry holding the three test dimensions, defined out of
      name order. */
  method ThreeDims() returns (reg: Registry)
    ensures fresh(reg) && reg.allDims.Keys == {"MyDim", "MyDim2", "MyDim3"}
    ensures reg.allDims["MyDim"].length == 1 && reg.allDims["MyDim2"].length == 2
    ensures reg.allDims["MyDim3"].length == 200
  {
    reg := new Registry();
    var d3 := reg.CreateDim("MyDim3", 200);
    assert "MyDim" != "MyDim3" && "MyDim2" != "MyDim3" && "MyDim2" != "MyDim";
    var d1 := reg.CreateDim("MyDim", 1);
    var d2 := reg.CreateDim("MyDim2", 2);
    assert reg.allDims == map["MyDim3" := d3, "MyDim" := d1, "MyDim2" := d2];
  }

  /** Dimensions are visited in ascending name order with their lengths,
      whatever order they were defined in. */
  method IterateDims() returns (dims: seq<(string, int32)>)
    ensures dims == [("MyDim", 1), ("MyDim2", 2), ("MyDim3", 200)]
  {
    var reg := ThreeDims();
    dims := reg.DimsInOrder();
    var expected: seq<(string, int32)> := [("MyDim", 1), ("MyDim2", 2), ("MyDim3", 200)];
    ExpectedDimListing();
    assert forall i :: 0 <= i < |expected| ==>
      expected[i].0 in reg.allDims && expected[i].1 == reg.allDims[expected[i].0].length;
    DimListingUnique(reg.allDims, dims, expected);
  }

  /** Bit patterns of the IEEE-754 doubles -5.0, 40.0 and -999.0. */
  const MinusFive: bv64 := 0xC014_0000_0000_0000
  const Forty: bv64 := 0x4044_0000_0000_0000
  const MinusNineNineNine: bv64 := 0xC08F_3800_0000_0000

  /** A one-dimensional field registered into a group: the group lists just
      that field and its fill value reads back unchanged. */
  method TemperatureInGroup() returns (added: int, list: seq<string>, code: int, fill: bv64)
    ensures added == 0 && list == ["Temperature"]
    ensures code == 0 && fill == MinusNineNineNine
  {
    var reg := new Registry();
    var dim := reg.CreateDim("NCells", 100);
    var t := reg.CreateArrayField("Temperature", "temperature", "C", "", R8(MinusFive), R8(Forty),
                                  R8(MinusNineNineNine), 1, ["NCells"]);
    var g := reg.CreateGroup("Diagnostics");
    added := g.AddField(reg, "Temperature");
    list := g.GetFieldList();
    SortedUnique(list, ["Temperature"]);
    var rec := reg.GetField("Temperature");
    code, fill := rec.GetEntryR8("FillValue", 0);
  }

  /** Two members of a group, listed in ascending name order. */
  method GroupListing() returns (list: seq<string>)
    ensures list == ["MyField1", "MyField2"]
  {
    var reg := new Registry();
    var g := reg.CreateGroup("MyGroup");
    var d1 := reg.CreateField("MyField1");
    var d2 := reg.CreateField("MyField2");
    var c1 := g.AddField(reg, "MyField2");
    var c2 := g.AddField(reg, "MyField1");
    list := g.GetFieldList();
    assert "MyField1" == "MyField" + "1" && "MyField2" == "MyField" + "2";
    LessCommonPrefix("MyField", "1", "2");
    assert Elems(["MyField1", "MyField2"]) == {"MyField1", "MyField2"};
    SortedUnique(list, ["MyField1", "MyField2"]);
  }
}
