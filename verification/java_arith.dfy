/**
 * The places where the Java game narrows a number: the `(int)` cast of a float
 * (truncation toward zero), `/` on `int` (also truncation toward zero, whereas
 * Dafny's `/` is Euclidean) and the `(int)` cast of a `long` (wrap-around to 32 bits).
 * Floats themselves are modelled as exact reals.
 */
module JavaArith {

  const INT_MIN: int := -0x8000_0000
  const INT_MAX: int := 0x7FFF_FFFF

  /** Java `(int) f` for a finite float `f` inside the int range: rounds toward zero. */
  function Trunc(r: real): (t: int)
    ensures r >= 0.0 ==> t as real <= r < t as real + 1.0
    ensures r <= 0.0 ==> t as real - 1.0 < r <= t as real
  {
    if r >= 0.0 then r.Floor else -((-r).Floor)
  }

  /** Truncation commutes with negation, which is what keeps the arena centred. */
  lemma TruncNeg(r: real)
    ensures Trunc(-r) == -Trunc(r)
  {
    if r > 0.0 {
      assert -r < 0.0;
    } else if r < 0.0 {
      assert -(-r) == r;
    }
  }

  /** Java `a / b` on `int`: the quotient rounded toward zero. */
  function Div(a: int, b: int): (q: int)
    requires b != 0
    ensures a >= 0 && b > 0 ==> q == a / b
    ensures a < 0 && b > 0 ==> q == -((-a) / b)
  {
    var n := if a < 0 then -a else a;
    var d := if b < 0 then -b else b;
    if (a < 0) != (b < 0) then -(n / d) else n / d
  }

  /** Truncating division commutes with negation of the dividend. */
  lemma DivNeg(a: int, b: int)
    requires b > 0
    ensures Div(-a, b) == -Div(a, b)
  {
    if a < 0 {
      assert Div(a, b) == -((-a) / b);
      assert Div(-a, b) == (-a) / b;
    } else if a > 0 {
      assert Div(a, b) == a / b;
      assert Div(-a, b) == -(a / b);
    }
  }

  /** Java's narrowing of a `long` to an `int`: keep the low 32 bits, two's complement. */
  function LongToInt(v: int): (r: int)
    ensures INT_MIN <= r <= INT_MAX
    ensures (r - v) % 0x1_0000_0000 == 0
    ensures INT_MIN <= v <= INT_MAX ==> r == v
  {
    var low := v % 0x1_0000_0000;
    if low > INT_MAX then low - 0x1_0000_0000 else low
  }
}
