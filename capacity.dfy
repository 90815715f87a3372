/**
 * The arithmetic of DataParser.calculateCapacities: how a port's capacity
 * for one product is estimated from a report of its level (negative when the
 * port buys) and the percentage of capacity that level represents.
 *
 * The game shows a percentage p with p * |cap| <= 100 * |level| < (p + 1) * |cap|.
 * A known capacity that reproduces the reading is kept. Otherwise the estimate
 * is the smallest multiple of 10 whose magnitude could show the reading, and
 * a capacity's magnitude only ever grows.
 */
module Capacities {
  import opened JavaInt

  /** A reading is consistent with a capacity when the capacity shows that percentage. */
  predicate Reproduces(level: int, cap: int, percent: int)
  {
    cap != 0 && Quot(level * 100, cap) == percent
  }

  /**
   * The estimate at line 876-878: level*100/(percent+1), truncated, then
   * moved to the next multiple of 10 strictly farther from zero.
   */
  function Candidate(level: int, percent: int): int
    requires percent >= 0
  {
    var cap := Quot(level * 100, percent + 1);
    if level > 0 then cap + (10 - Rem(cap, 10)) else cap - (10 + Rem(cap, 10))
  }

  /**
   * For a port that sells, the estimate is the smallest multiple of 10
   * strictly above 100 * level / (percent + 1): the smallest capacity of that
   * granularity under which the level could show no more than the percentage.
   */
  lemma CandidateBounds(level: int, percent: int)
    requires level > 0 && percent >= 0
    ensures var c := Candidate(level, percent);
      c > 0 && c % 10 == 0 && (percent + 1) * c > level * 100 && (percent + 1) * (c - 10) <= level * 100
  {
    var n, d := level * 100, percent + 1;
    var q := n / d;
    assert Quot(n, d) == q;
    assert Rem(q, 10) == q % 10;
    var c := Candidate(level, percent);
    assert c == q - q % 10 + 10;
    RoundUp(q);
    DivBounds(n, d);
    assert d * (c - 10) <= d * q by { MultiplyMonotone(d, c - 10, q); }
    assert d * (q + 1) <= d * c by { MultiplyMonotone(d, q + 1, c); }
  }

  /** q rounded up to the next multiple of 10 strictly above it. */
  lemma RoundUp(q: nat)
    ensures var c := q - q % 10 + 10;
      c % 10 == 0 && q + 1 <= c && c - 10 <= q
  {
    assert q == 10 * (q / 10) + q % 10;
    assert q - q % 10 + 10 == 10 * (q / 10 + 1);
  }

  /** Euclidean division brackets n between two multiples of d. */
  lemma DivBounds(n: nat, d: int)
    requires d > 0
    ensures d * (n / d) <= n < d * (n / d + 1)
  {
    assert n == d * (n / d) + n % d;
    assert d * (n / d + 1) == d * (n / d) + d;
  }

  lemma MultiplyMonotone(d: nat, a: int, b: int)
    requires a <= b
    ensures d * a <= d * b
  {
  }

  /**
   * No capacity that is a multiple of 10 and reproduces the reading is
   * smaller than the estimate: the estimate is the least such capacity.
   */
  lemma CandidateSmallest(level: int, percent: int, cap: int)
    requires level > 0 && percent >= 0 && cap > 0 && cap % 10 == 0
    requires Reproduces(level, cap, percent)
    ensures cap >= Candidate(level, percent)
  {
    var n, d := level * 100, percent + 1;
    CandidateBounds(level, percent);
    var c := Candidate(level, percent);
    assert Quot(n, cap) == n / cap;
    assert n < d * cap by { BelowNextMultiple(n, cap); }
    if cap < c {
      MultiplesApart(cap, c);
      MultiplyMonotone(d, cap, c - 10);
      assert false;
    }
  }

  lemma BelowNextMultiple(n: nat, cap: int)
    requires cap > 0
    ensures n < (n / cap + 1) * cap
  {
    assert n == cap * (n / cap) + n % cap;
  }

  lemma MultiplesApart(a: int, b: int)
    requires a < b && a % 10 == 0 && b % 10 == 0
    ensures a <= b - 10
  {
    assert a == 10 * (a / 10) && b == 10 * (b / 10);
  }

  /** A buying port's estimate is the selling estimate with the sign turned. */
  lemma CandidateOdd(level: int, percent: int)
    requires level > 0 && percent >= 0
    ensures Candidate(-level, percent) == -Candidate(level, percent)
  {
    var d, n := percent + 1, level * 100;
    assert (-level) * 100 == -n;
    var q := Quot(n, d);
    QuotNegate(n, d);
    RemNegate(q);
  }

  lemma QuotNegate(a: int, b: int)
    requires b > 0
    ensures Quot(-a, b) == -Quot(a, b)
  {
    assert Abs(-a) == Abs(a);
  }

  lemma RemNegate(q: int)
    requires q >= 0
    ensures Rem(-q, 10) == -Rem(q, 10)
  {
    assert Abs(-q) == Abs(q);
  }

  /** The level's sign is kept. */
  lemma CandidateSign(level: int, percent: int)
    requires level != 0 && percent >= 0
    ensures (Candidate(level, percent) > 0) == (level > 0) && Candidate(level, percent) != 0
  {
    if level > 0 {
      CandidateBounds(level, percent);
    } else {
      CandidateBounds(-level, percent);
      CandidateOdd(-level, percent);
    }
  }

  /** A buying port reporting 2510 units at 97% has capacity at least 2570 units. */
  lemma CandidateExample()
    ensures Candidate(-2510, 97) == -2570
    ensures Candidate(2510, 97) == 2570
  {
    assert Quot(-251000, 98) == -2561;
    assert Quot(251000, 98) == 2561;
  }

  /** The capacity after the estimate c, when only a larger magnitude is taken. */
  function Raise(cap: int, c: int): (r: int)
    ensures Abs(r) >= Abs(cap) && (r == cap || r == c)
    ensures r == c <==> Abs(c) > Abs(cap) || c == cap
  {
    if Abs(c) > Abs(cap) then c else cap
  }

  /**
   * One product's capacity after a report, as calculateCapacities computes
   * it with the consistency test at line 870 corrected to compare the
   * percentage the known capacity shows.
   */
  function NewCapacity(level: int, percent: int, cap: int): (r: int)
    requires percent >= 0
    ensures Abs(r) >= Abs(cap)
    ensures r != cap ==> level != 0 && Abs(r) > Abs(cap)
    ensures r != cap ==> r == (if percent == 100 then level else Candidate(level, percent))
    ensures level != 0 && percent != 100 ==> Reproduces(level, r, percent) || Abs(r) >= Abs(Candidate(level, percent))
  {
    if level == 0 then cap
    else if percent == 100 then Raise(cap, level)
    else if Reproduces(level, cap, percent) then cap
    else Raise(cap, Candidate(level, percent))
  }

  /** The test at line 870 as written: the level divided by the capacity, without the factor 100. */
  predicate ReproducesAsWritten(level: int, cap: int, percent: int)
  {
    cap != 0 && Quot(level, cap) == percent
  }

  /** One product's capacity after a report, with line 870 as written. */
  function NewCapacityAsWritten(level: int, percent: int, cap: int): (r: int)
    requires percent >= 0
    ensures Abs(r) >= Abs(cap)
  {
    if level == 0 then cap
    else if percent == 100 then Raise(cap, level)
    else if ReproducesAsWritten(level, cap, percent) then cap
    else Raise(cap, Candidate(level, percent))
  }

  /**
   * Line 870 as written keeps a capacity of 1000 after a report of 50 units
   * at 0%, a reading that capacity cannot show (it shows 5%); the corrected
   * test raises the capacity to 5010, the least one that shows 0%.
   */
  lemma StaleCapacityExample()
    ensures NewCapacityAsWritten(50, 0, 1000) == 1000
    ensures !Reproduces(50, 1000, 0) && Abs(1000) < Abs(Candidate(50, 0))
    ensures NewCapacity(50, 0, 1000) == 5010 && Reproduces(50, 5010, 0)
  {
    assert Quot(50, 1000) == 0;
    assert Quot(5000, 1000) == 5;
    assert Quot(5000, 1) == 5000;
    assert Quot(5000, 5010) == 0;
  }

  /** The increase reported by PORT_UPGRADED: only when a known capacity grows. */
  function Upgrade(level: int, percent: int, cap: int): (r: int)
    requires percent >= 0
    ensures r >= 0
    ensures r > 0 <==> cap != 0 && NewCapacity(level, percent, cap) != cap
    ensures r > 0 ==> Abs(NewCapacity(level, percent, cap)) == Abs(cap) + r
  {
    var c := NewCapacity(level, percent, cap);
    if cap != 0 && Abs(c) > Abs(cap) then Abs(c) - Abs(cap) else 0
  }
}
