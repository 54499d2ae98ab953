/**
 * Kotlin `Int` arithmetic as the party counter uses it: a 32-bit
 * two's-complement integer whose `++` wraps around, and whose `%` and `/`
 * truncate toward zero (so a negative dividend gives a non-positive remainder,
 * unlike Dafny's Euclidean `%`).
 */
module KotlinInt {
  const MinValue: int := -0x8000_0000
  const MaxValue: int := 0x7fff_ffff
  const Modulus: int := 0x1_0000_0000

  predicate IsInt(x: int) {
    MinValue <= x <= MaxValue
  }

  /** `x++`: the 32-bit value congruent to x + 1. */
  function Inc(x: int): (r: int)
    requires IsInt(x)
    ensures IsInt(r)
    ensures (r - (x + 1)) % Modulus == 0
    ensures x < MaxValue ==> r == x + 1
  {
    if x == MaxValue then MinValue else x + 1
  }

  /** `a % b` for a positive divisor: the remainder keeps the sign of `a`. */
  function Rem(a: int, b: int): (r: int)
    requires b > 0
    ensures -b < r < b
    ensures a >= 0 ==> r == a % b
    ensures a <= 0 ==> r <= 0
  {
    if a >= 0 then a % b else -((-a) % b)
  }

  /**
   * `a / b` for a positive divisor: the quotient is rounded toward zero.
   * With `Rem`'s bound and sign, the division law pins both the quotient and
   * the remainder for every dividend, negative ones included.
   */
  function Div(a: int, b: int): (r: int)
    requires b > 0
    ensures a >= 0 ==> r == a / b
    ensures a <= 0 ==> r <= 0
    ensures a == b * r + Rem(a, b)
  {
    if a >= 0 then a / b
    else
      assert -a == b * ((-a) / b) + (-a) % b;
      assert b * (-((-a) / b)) == -(b * ((-a) / b));
      -((-a) / b)
  }

  /** Truncating `% 4` agrees with Dafny's `% 4` on non-negative values; it is 1 or 2 only for positive ones. */
  lemma RemFour(c: int)
    ensures c >= 0 ==> Rem(c, 4) == c % 4
    ensures Rem(c, 4) == 1 ==> c > 0 && c % 2 == 1
    ensures Rem(c, 4) == 2 ==> c > 0 && c % 2 == 0
    ensures c < 0 ==> Rem(c, 4) <= 0
  {
    if c > 0 {
      var q := c / 4;
      var r := c % 4;
      assert c == 4 * q + r;
      if r == 1 {
        assert c == 2 * (2 * q) + 1;
        assert c / 2 == 2 * q;
      } else if r == 2 {
        assert c == 2 * (2 * q + 1);
        assert c / 2 == 2 * q + 1;
      }
    }
  }

  /** A test `c % 4 == 0` means the same under truncating and Euclidean `%`. */
  lemma RemFourZero(c: int)
    ensures Rem(c, 4) == 0 <==> c % 4 == 0
  {
    if c < 0 {
      var q := (-c) / 4;
      assert -c == 4 * q + (-c) % 4;
    }
  }

  /** A parity test `c % 2 == 0` means the same under truncating and Euclidean `%`. */
  lemma RemTwo(c: int)
    ensures Rem(c, 2) == 0 <==> c % 2 == 0
  {
    if c < 0 {
      var q := (-c) / 2;
      assert -c == 2 * q + (-c) % 2;
    }
  }

  /** On non-negative values `(c / 4) % 3` is determined by `c % 12`. */
  lemma QuarterModThree(c: int)
    ensures c >= 0 ==> Rem(Div(c, 4), 3) == (c % 12) / 4
  {
    if c >= 0 {
      var k := c / 12;
      var m := c % 12;
      assert c == 12 * k + m;
      assert c / 4 == 3 * k + m / 4;
    }
  }
}
