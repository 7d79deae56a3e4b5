/** A total order on strings, standing in for `localeCompare`: code points
    compared left to right, a proper prefix first. */
module Collation {

  /** Negative, zero or positive as `a` sorts before, with or after `b`. */
  function Compare(a: string, b: string): (c: int)
    ensures -1 <= c <= 1
  {
    if a == [] then (if b == [] then 0 else -1)
    else if b == [] then 1
    else if a[0] < b[0] then -1
    else if a[0] > b[0] then 1
    else Compare(a[1..], b[1..])
  }

  /** Only equal strings compare equal. */
  lemma {:induction false} CompareZero(a: string, b: string)
    ensures Compare(a, b) == 0 <==> a == b
  {
    if a != [] && b != [] && a[0] == b[0] {
      CompareZero(a[1..], b[1..]);
      assert a == [a[0]] + a[1..] && b == [b[0]] + b[1..];
    }
  }

  /** Swapping the arguments flips the sign. */
  lemma {:induction false} CompareFlip(a: string, b: string)
    ensures Compare(b, a) == -Compare(a, b)
  {
    if a != [] && b != [] && a[0] == b[0] {
      CompareFlip(a[1..], b[1..]);
    }
  }

  /** "Sorts no later than" is transitive. */
  lemma {:induction false} CompareTransitive(a: string, b: string, c: string)
    requires Compare(a, b) <= 0 && Compare(b, c) <= 0
    ensures Compare(a, c) <= 0
  {
    if a != [] && b != [] && c != [] && a[0] == b[0] && b[0] == c[0] {
      CompareTransitive(a[1..], b[1..], c[1..]);
    }
  }
}
