/**
 * Java's 32-bit `int`, its truncating `/` and `%`, Integer.parseInt and
 * Integer.toString, on Dafny's unbounded integers.
 */
module JavaInt {
  import opened Wrappers

  const INT_MIN: int := -0x8000_0000
  const INT_MAX: int := 0x7FFF_FFFF

  predicate IsInt32(x: int) { INT_MIN <= x <= INT_MAX }

  /** Java's `a + b` on int: the sum, wrapped around into the 32-bit range. */
  function AddInt32(a: int, b: int): (r: int)
    requires IsInt32(a) && IsInt32(b)
    ensures IsInt32(r) && (r - (a + b)) % 0x1_0000_0000 == 0
    ensures IsInt32(a + b) ==> r == a + b
  {
    var sum := a + b;
    if sum > INT_MAX then sum - 0x1_0000_0000 else if sum < INT_MIN then sum + 0x1_0000_0000 else sum
  }

  /** Character.isDigit and Character.isLetter, restricted to ASCII. */
  predicate IsDigit(c: char) { '0' <= c <= '9' }
  predicate IsLetter(c: char) { 'A' <= c <= 'Z' || 'a' <= c <= 'z' }

  function Abs(x: int): nat { if x < 0 then -x else x }

  /** Math.max and Math.min. */
  function Max(a: int, b: int): (r: int)
    ensures r >= a && r >= b && (r == a || r == b)
  {
    if a < b then b else a
  }

  function Min(a: int, b: int): (r: int)
    ensures r <= a && r <= b && (r == a || r == b)
  {
    if a < b then a else b
  }

  /** Java's `a / b` on int: the quotient truncated toward zero. */
  function Quot(a: int, b: int): int
    requires b != 0
  {
    var magnitude: int := Abs(a) / Abs(b);
    if (a < 0) == (b < 0) then magnitude else -magnitude
  }

  /** The quotient's magnitude is that of the operands, its sign their agreement. */
  lemma QuotSpec(a: int, b: int)
    requires b != 0
    ensures Abs(Quot(a, b)) == Abs(a) / Abs(b)
    ensures Quot(a, b) < 0 ==> (a < 0) != (b < 0)
    ensures Quot(a, b) > 0 ==> (a < 0) == (b < 0)
  {
    DivNonNegative(Abs(a), Abs(b));
  }

  lemma DivNonNegative(x: nat, y: nat)
    requires y > 0
    ensures x / y >= 0
  {
  }

  /** Java's `a % b` on int: the remainder takes the sign of the dividend. */
  function Rem(a: int, b: int): (r: int)
    requires b != 0
    ensures a == b * Quot(a, b) + r
    ensures Abs(r) == Abs(a) % Abs(b)
    ensures a >= 0 ==> r >= 0
    ensures a <= 0 ==> r <= 0
  {
    RemSign(a, b);
    a - b * Quot(a, b)
  }

  lemma RemSign(a: int, b: int)
    requires b != 0
    ensures a - b * Quot(a, b) == if a < 0 then -(Abs(a) % Abs(b)) else Abs(a) % Abs(b)
  {
    var A: int, B: int := Abs(a), Abs(b);
    var q: int := A / B;
    assert A == B * q + A % B;
    if b > 0 {
      assert b * Quot(a, b) == if a < 0 then -(B * q) else B * q;
    } else {
      assert b * Quot(a, b) == if a < 0 then -(B * q) else B * q by {
        if a < 0 { assert Quot(a, b) == q; } else { assert Quot(a, b) == -q; }
      }
    }
  }

  // ---------------------------------------------------------------------
  // Decimal text

  function DigitValue(c: char): nat
    requires IsDigit(c)
  {
    c as int - '0' as int
  }

  function DigitChar(d: nat): (c: char)
    requires d < 10
    ensures IsDigit(c) && DigitValue(c) == d
  {
    ('0' as int + d) as char
  }

  predicate AllDigits(s: string) { forall i :: 0 <= i < |s| ==> IsDigit(s[i]) }

  /** A nonempty run of decimal digits. */
  predicate IsDigits(s: string) { |s| > 0 && AllDigits(s) }

  /** The value of a digit string, most significant digit first. */
  function DigitsValue(s: string): nat
    requires AllDigits(s)
  {
    if s == [] then 0 else 10 * DigitsValue(s[..|s| - 1]) + DigitValue(s[|s| - 1])
  }

  function InRange(v: int): (r: Option<int>)
  {
    if IsInt32(v) then Some(v) else None
  }

  /**
   * Integer.parseInt(s): an optional '-' or '+', then one or more digits,
   * whose value must fit in 32 bits; None stands for NumberFormatException.
   */
  function ParseInt(s: string): (r: Option<int>)
    ensures r.Some? ==> IsInt32(r.value) && |s| > 0
  {
    if |s| > 0 && (s[0] == '-' || s[0] == '+') then
      if IsDigits(s[1..]) then
        InRange(if s[0] == '-' then 0 - DigitsValue(s[1..]) else DigitsValue(s[1..]))
      else None
    else if IsDigits(s) then InRange(DigitsValue(s))
    else None
  }

  /** Integer.parseInt with the exception made explicit. */
  function ParseIntResult(s: string): (r: Result<int>)
    ensures r.Ok? <==> ParseInt(s).Some?
    ensures r.Ok? ==> r.value == ParseInt(s).value
    ensures r.Err? ==> r.error == NumberFormat
  {
    match ParseInt(s)
    case Some(v) => Ok(v)
    case None => Err(NumberFormat)
  }

  /** The decimal digits of n, without leading zeros. */
  function NatToDigits(n: nat): (s: string)
    ensures IsDigits(s)
    decreases n
  {
    if n < 10 then [DigitChar(n)] else NatToDigits(n / 10) + [DigitChar(n % 10)]
  }

  /** Integer.toString(n) / String.valueOf(n). */
  function IntToString(n: int): (s: string)
    ensures |s| > 0
  {
    if n < 0 then "-" + NatToDigits(-n) else NatToDigits(n)
  }

  lemma {:induction false} DigitsRoundTrip(n: nat)
    ensures DigitsValue(NatToDigits(n)) == n
    decreases n
  {
    if n >= 10 {
      var s := NatToDigits(n);
      assert s[..|s| - 1] == NatToDigits(n / 10);
      DigitsRoundTrip(n / 10);
    }
  }

  /** Integer.parseInt reads back every value Integer.toString writes. */
  lemma ParseIntToString(n: int)
    requires IsInt32(n)
    ensures ParseInt(IntToString(n)) == Some(n)
  {
    var s := IntToString(n);
    if n < 0 {
      assert s[1..] == NatToDigits(-n);
      DigitsRoundTrip(-n);
    } else {
      assert IsDigit(s[0]);
      DigitsRoundTrip(n);
    }
  }

  /** Integer.toString of a value 1..N is never longer than that of N. */
  lemma {:induction false} DigitsLengthMonotone(m: nat, n: nat)
    requires m <= n
    ensures |NatToDigits(m)| <= |NatToDigits(n)|
    decreases n
  {
    if m >= 10 {
      DigitsLengthMonotone(m / 10, n / 10);
    }
  }
}
