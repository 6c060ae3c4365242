/** Entry values of a field's metadata record and the batch-insertion fold. */
module Entries {

  /** The I4 and I8 kinds: 32- and 64-bit signed integers. */
  newtype int32 = x: int | -0x8000_0000 <= x < 0x8000_0000
  newtype int64 = x: int | -0x8000_0000_0000_0000 <= x < 0x8000_0000_0000_0000

  /** One stored metadata value. The closed set of kinds stands in for the
      dynamically typed value; R4 and R8 payloads are kept as their bit
      patterns, stored and returned but never computed with. */
  datatype EntryValue =
    | I4(i4: int32)
    | I8(i8: int64)
    | R4(r4: bv32)
    | R8(r8: bv64)
    | Bool(b: bool)
    | Str(s: string)

  /** The names of a list of (name, value) pairs. */
  function PairNames(pairs: seq<(string, EntryValue)>): (names: set<string>)
  {
    set i | 0 <= i < |pairs| :: pairs[i].0
  }

  /** The entry map obtained by adding the pairs one by one, in order, to an
      empty map, where an add whose name is already present is rejected. */
  function FirstWins(pairs: seq<(string, EntryValue)>): (entries: map<string, EntryValue>)
  {
    if pairs == [] then map[]
    else
      var m := FirstWins(pairs[..|pairs| - 1]);
      var last := pairs[|pairs| - 1];
      if last.0 in m then m else m[last.0 := last.1]
  }

  /** The batch map holds exactly the names of the pairs. */
  lemma {:induction false} FirstWinsKeys(pairs: seq<(string, EntryValue)>)
    ensures FirstWins(pairs).Keys == PairNames(pairs)
  {
    if pairs != [] {
      var init := pairs[..|pairs| - 1];
      FirstWinsKeys(init);
      assert PairNames(pairs) == PairNames(init) + {pairs[|pairs| - 1].0} by {
        forall k | k in PairNames(pairs) ensures k in PairNames(init) + {pairs[|pairs| - 1].0} {
          var i :| 0 <= i < |pairs| && pairs[i].0 == k;
          if i < |pairs| - 1 { assert init[i] == pairs[i]; }
        }
        forall k | k in PairNames(init) ensures k in PairNames(pairs) {
          var i :| 0 <= i < |init| && init[i].0 == k;
          assert pairs[i] == init[i];
        }
      }
    }
  }

  /** For a name that occurs in the pairs, the batch map keeps the value of
      its first occurrence; later duplicates are dropped. */
  lemma {:induction false} FirstWinsValue(pairs: seq<(string, EntryValue)>, i: nat)
    requires i < |pairs|
    requires forall j :: 0 <= j < i ==> pairs[j].0 != pairs[i].0
    ensures pairs[i].0 in FirstWins(pairs)
    ensures FirstWins(pairs)[pairs[i].0] == pairs[i].1
  {
    var init := pairs[..|pairs| - 1];
    var last := pairs[|pairs| - 1];
    if i == |pairs| - 1 {
      FirstWinsKeys(init);
      assert pairs[i].0 !in PairNames(init);
    } else {
      forall j | 0 <= j < i ensures init[j].0 != init[i].0 {
        assert init[j] == pairs[j] && init[i] == pairs[i];
      }
      FirstWinsValue(init, i);
      assert init[i] == pairs[i];
    }
  }
}
