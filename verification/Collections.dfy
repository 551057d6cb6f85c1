/** Small pieces the other modules share. */
module Collections {

  datatype Option<+T> = None | Some(value: T)

  function Min(a: int, b: int): int { if a < b then a else b }

  /** The sequence without its entry at position i. */
  function Remove<T>(q: seq<T>, i: nat): seq<T>
    requires i < |q|
  {
    q[..i] + q[i + 1..]
  }

  /** Position of the first entry that matches; the length when there is none. */
  function FirstIndex<T>(q: seq<T>, matches: T -> bool): (i: nat)
    ensures i <= |q|
    ensures i < |q| ==> matches(q[i])
    ensures forall j :: 0 <= j < i ==> !matches(q[j])
  {
    if q == [] || matches(q[0]) then 0 else 1 + FirstIndex(q[1..], matches)
  }

  predicate Distinct<T(==)>(q: seq<T>) {
    forall i, j :: 0 <= i < j < |q| ==> q[i] != q[j]
  }
}
