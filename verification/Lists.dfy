/** Sequences as the program's lists: where a search ends, and what insertion gives. */
module Lists {
  /** Where a search for the place of an arriving command ends: at a slot, or at a command that is
      the same. */
  datatype Place = Slot(index: nat) | Duplicate(index: nat)

  function Inserted<T>(s: seq<T>, index: nat, x: T): (r: seq<T>)
    requires index <= |s|
    ensures |r| == |s| + 1
  {
    s[..index] + [x] + s[index..]
  }

  ghost predicate Distinct<T>(s: seq<T>) {
    forall i, j :: 0 <= i < j < |s| ==> s[i] != s[j]
  }
}
