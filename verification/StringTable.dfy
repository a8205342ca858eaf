// Tables of distinct NUL-terminated strings: each string once, in the order of first appearance, found by
// the offset of its first byte.
module StringTable {
  import opened Bytestream

  function Distinct(names: seq<Bytes>): (d: seq<Bytes>)
    ensures forall x :: x in d <==> x in names
  {
    if names == [] then []
    else
      var front, last := Distinct(names[..|names| - 1]), names[|names| - 1];
      if last in front then front else front + [last]
  }

  lemma {:induction false} NoneTwice(names: seq<Bytes>)
    ensures forall i, j :: 0 <= i < j < |Distinct(names)| ==> Distinct(names)[i] != Distinct(names)[j]
  {
    if names != [] { NoneTwice(names[..|names| - 1]); }
  }

  // The strings of a list with their NULs.
  function Packed(list: seq<Bytes>): (b: Bytes) {
    if list == [] then [] else Packed(list[..|list| - 1]) + list[|list| - 1] + [0]
  }

  function Offset(list: seq<Bytes>, name: Bytes): (v: nat)
    requires name in list
  {
    if name in list[..|list| - 1] then Offset(list[..|list| - 1], name) else |Packed(list[..|list| - 1])|
  }

  // A string further down does not move the ones before it.
  lemma OffsetStays(list: seq<Bytes>, name: Bytes, more: Bytes)
    requires name in list
    ensures Offset(list + [more], name) == Offset(list, name)
    ensures Packed(list + [more]) == Packed(list) + more + [0]
  {
    assert (list + [more])[..|list|] == list;
  }

  lemma OffsetOfNew(list: seq<Bytes>, more: Bytes)
    requires more !in list
    ensures Offset(list + [more], more) == |Packed(list)| && Packed(list + [more]) == Packed(list) + more + [0]
  {
    assert (list + [more])[..|list|] == list;
  }

  // A C reader finds every string of the table at its offset, whatever follows the table.
  lemma {:induction false} Lookup(list: seq<Bytes>, name: Bytes, rest: Bytes)
    requires name in list && forall i :: 0 <= i < |list| ==> NoNul(list[i])
    ensures Offset(list, name) < |Packed(list)|
    ensures CString((Packed(list) + rest)[Offset(list, name)..]) == name
    decreases |list|
  {
    var front, last := list[..|list| - 1], list[|list| - 1];
    if name in front {
      Lookup(front, name, last + [0] + rest);
      assert Packed(list) + rest == Packed(front) + (last + [0] + rest);
    } else {
      assert name == last;
      assert (Packed(list) + rest)[|Packed(front)|..] == last + ([0] + rest);
      CStringOf(last, [0] + rest);
    }
  }

  lemma LookupAlone(list: seq<Bytes>, name: Bytes)
    requires name in list && forall i :: 0 <= i < |list| ==> NoNul(list[i])
    ensures Offset(list, name) < |Packed(list)| && CString(Packed(list)[Offset(list, name)..]) == name
  {
    Lookup(list, name, []);
    assert Packed(list) + [] == Packed(list);
  }

  lemma {:induction false} PackedGrows(list: seq<Bytes>, i: nat)
    requires i <= |list|
    ensures |Packed(list[..i])| <= |Packed(list)|
    decreases |list|
  {
    if i == |list| {
      assert list[..i] == list;
    } else {
      var front := list[..|list| - 1];
      assert front[..i] == list[..i];
      PackedGrows(front, i);
    }
  }

  // The table of a longer list starts with the table of a shorter one.
  lemma {:induction false} DistinctGrows(names: seq<Bytes>, i: nat)
    requires i <= |names|
    ensures Distinct(names[..i]) <= Distinct(names) && Packed(Distinct(names[..i])) <= Packed(Distinct(names))
    ensures forall x :: x in names[..i] ==> Offset(Distinct(names[..i]), x) == Offset(Distinct(names), x)
    decreases |names|
  {
    if i == |names| {
      assert names[..i] == names;
    } else {
      var front, last := names[..|names| - 1], names[|names| - 1];
      DistinctGrows(front, i);
      assert front[..i] == names[..i];
      var d := Distinct(front);
      if last !in d {
        OffsetOfNew(d, last);
        forall x | x in names[..i]
          ensures Offset(Distinct(names[..i]), x) == Offset(Distinct(names), x)
        {
          assert x in Distinct(names[..i]);
          OffsetStays(d, x, last);
        }
      }
    }
  }
}
