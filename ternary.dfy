/** Three-valued logic values and their ordering. */
module Ternaries {

  datatype Ternary = True | False | Unknown

  /** The rank the ordering is meant to follow: TRUE > UNKNOWN > FALSE. */
  function Rank(t: Ternary): int
  {
    match t
    case True => 1
    case Unknown => 0
    case False => -1
  }

  function Sign(x: int): int { if x < 0 then -1 else if x > 0 then 1 else 0 }

  /** compareTo: a chain of conditional returns on the identity of the two values. */
  function CompareTo(self: Ternary, other: Ternary): (r: int)
    ensures -1 <= r <= 1
    ensures r == 0 <==> self == other
  {
    if self == other then 0
    else if self == True then 1
    else if self == False then -1
    else if other == True then -1 else 1
  }

  /** compareTo agrees with comparing the ranks TRUE > UNKNOWN > FALSE. */
  lemma CompareToIsRankOrder(a: Ternary, b: Ternary)
    ensures CompareTo(a, b) == Sign(Rank(a) - Rank(b))
  {
    match a
    case True =>
    case False =>
    case Unknown =>
  }

  lemma CompareToReflexive(a: Ternary)
    ensures CompareTo(a, a) == 0
  {
  }

  lemma CompareToAntisymmetric(a: Ternary, b: Ternary)
    ensures CompareTo(a, b) == -CompareTo(b, a)
  {
    CompareToIsRankOrder(a, b);
    CompareToIsRankOrder(b, a);
  }

  lemma CompareToTransitive(a: Ternary, b: Ternary, c: Ternary)
    requires CompareTo(a, b) > 0 && CompareTo(b, c) > 0
    ensures CompareTo(a, c) > 0
  {
    CompareToIsRankOrder(a, b);
    CompareToIsRankOrder(b, c);
    CompareToIsRankOrder(a, c);
  }

  /** The ordering is total: any two values are equal or ordered one way. */
  lemma CompareToTotal(a: Ternary, b: Ternary)
    ensures a == b || CompareTo(a, b) > 0 || CompareTo(b, a) > 0
  {
    CompareToAntisymmetric(a, b);
  }
}
