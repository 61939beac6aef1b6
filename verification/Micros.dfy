/**
 How a trace prints nanoseconds: `t / 1000.0` in double precision, then `%.3f`.
 Doubles are modelled as reals rounded to 53 significant bits, ties to even.
 */
module Micros {
  import opened Text
  import opened Words

  function Pow2(e: int): (r: real)
    ensures r > 0.0
    decreases if e < 0 then -e else e
  {
    if e == 0 then 1.0 else if e > 0 then 2.0 * Pow2(e - 1) else Pow2(e + 1) / 2.0
  }

  /** The integer nearest to `y`, ties to even. */
  function RoundEven(y: real): (n: int)
    ensures -0.5 <= n as real - y <= 0.5
    ensures n as real - y == 0.5 || n as real - y == -0.5 ==> n % 2 == 0
    ensures y >= 0.0 ==> n >= 0
  {
    var f := y.Floor;
    var d := y - f as real;
    if d < 0.5 || (d == 0.5 && f % 2 == 0) then f else f + 1
  }

  /** The least exponent `k >= e` with `x < 2^k`, up to 64. */
  function BinExp(x: real, e: int): (k: int)
    requires e <= 64
    ensures e <= k <= 64
    ensures k > e ==> Pow2(k - 1) <= x
    ensures k < 64 ==> x < Pow2(k)
    decreases 64 - e
  {
    if e == 64 || x < Pow2(e) then e else BinExp(x, e + 1)
  }

  /** The spacing of doubles around `x`, for 0.001 <= x < 2^64. */
  function Ulp(x: real): (u: real)
    ensures u > 0.0
  {
    Pow2(BinExp(x, -9) - 53)
  }

  function ToDouble(x: real): (d: real)
    ensures x >= 0.0 ==> d >= 0.0
  {
    ToMultiple(x, Ulp(x))
  }

  /** The multiple of `u` nearest to `x`. */
  function ToMultiple(x: real, u: real): (d: real)
    requires u > 0.0
    ensures x >= 0.0 ==> d >= 0.0
  {
    assert x >= 0.0 ==> x / u >= 0.0;
    RoundEven(x / u) as real * u
  }

  /** The thousandths that `%.3f` prints for `t / 1000.0`. */
  function PrintedNs(t: uint64): (n: nat) {
    RoundEven(1000.0 * ToDouble(ToDouble(t as real) / 1000.0))
  }

  /** 1000 * 2^43 ns, a little over 101 days: the last time up to which printing is exact. */
  const EXACT_LIMIT: uint64 := 8_796_093_022_208_000

  function Pad3(n: nat): (s: string)
    requires n < 1000
    ensures |s| == 3 && AllDigits(s)
  {
    [DigitChar(n / 100), DigitChar(n / 10 % 10), DigitChar(n % 10)]
  }

  /** The text `%.3f` produces. */
  function MicroText(t: uint64): string {
    Digits(PrintedNs(t) / 1000) + ("." + Pad3(PrintedNs(t) % 1000))
  }

  lemma Pad3Value(n: nat)
    requires n < 1000
    ensures Value(Pad3(n)) == n
  {
    var s := Pad3(n);
    assert s[..2] == [s[0], s[1]] && s[..1] == [s[0]] && s[..0] == "";
    assert s[..2][..1] == s[..1] && s[..1][..0] == s[..0];
    assert Value(s[..1]) == n / 100;
    assert Value(s[..2]) == 10 * (n / 100) + n / 10 % 10 == n / 10;
  }

  // ---- Rounding ----

  lemma {:induction false} Pow2Mono(a: int, b: int)
    requires a <= b
    ensures Pow2(a) <= Pow2(b)
    decreases b - a
  {
    if a < b {
      Pow2Mono(a, b - 1);
      assert Pow2(b) == 2.0 * Pow2(b - 1);
    }
  }

  lemma {:induction false} Pow2Inverse(e: int)
    requires e >= 0
    ensures Pow2(e) * Pow2(-e) == 1.0
    decreases e
  {
    if e > 0 {
      Pow2Inverse(e - 1);
      var p, q := Pow2(e - 1), Pow2(-(e - 1));
      assert Pow2(e) == 2.0 * p && Pow2(-e) == q / 2.0;
      assert (2.0 * p) * (q / 2.0) == p * q;
    }
  }

  /** `2^e` as an integer. */
  function IntPow2(e: nat): nat {
    if e == 0 then 1 else 2 * IntPow2(e - 1)
  }

  lemma Associate(a: int, b: int, c: int)
    ensures (a * b) * c == a * (b * c)
  {
  }

  lemma {:induction false} IntPow2Sum(a: nat, b: nat)
    ensures IntPow2(a + b) == IntPow2(a) * IntPow2(b)
  {
    if a > 0 {
      IntPow2Sum(a - 1, b);
      Associate(2, IntPow2(a - 1), IntPow2(b));
    }
  }

  lemma {:induction false} Pow2IsInt(e: nat)
    ensures Pow2(e) == IntPow2(e) as real
  {
    if e > 0 {
      Pow2IsInt(e - 1);
    }
  }

  lemma RoundsToSelf(n: int, y: real)
    requires y == n as real
    ensures RoundEven(y) == n
  {
  }

  /** Rounding to a double is off by at most half the spacing. */
  lemma HalfUlp(x: real)
    ensures -Ulp(x) <= 2.0 * (ToDouble(x) - x) <= Ulp(x)
  {
    hide Ulp, RoundEven;
    var u := Ulp(x);
    var y := x / u;
    ScaleError(RoundEven(y) as real, y, x, u);
  }

  lemma ScaleError(r: real, y: real, x: real, u: real)
    requires u > 0.0 && y == x / u && -0.5 <= r - y <= 0.5
    ensures -u <= 2.0 * (r * u - x) <= u
  {
    assert y * u == x;
    ProductNonNegative(r - y + 0.5, u);
    ProductNonNegative(0.5 - (r - y), u);
    assert (r - y + 0.5) * u == r * u - y * u + 0.5 * u;
    assert (0.5 - (r - y)) * u == 0.5 * u - r * u + y * u;
  }

  lemma ProductNonNegative(a: real, b: real)
    requires a >= 0.0 && b >= 0.0
    ensures a * b >= 0.0
  {
  }

  lemma Pow2Step(e: int)
    ensures Pow2(e + 1) == 2.0 * Pow2(e)
  {
  }

  lemma Doubled(a: real, b: real)
    ensures (2.0 * a) * b == 2.0 * (a * b)
  {
  }

  lemma Pow2Zero()
    ensures Pow2(0) == 1.0
  {
  }

  lemma {:induction false} Pow2Sum(a: nat, e: int)
    ensures Pow2(a) * Pow2(e) == Pow2(a + e)
  {
    hide Pow2;
    if a == 0 {
      Pow2Zero();
    } else {
      Pow2Sum(a - 1, e);
      Pow2Step(a - 1);
      Pow2Step(a - 1 + e);
      Doubled(Pow2(a - 1), Pow2(e));
    }
  }

  lemma AtLeast(x: real, k: int)
    requires k == BinExp(x, -9) && Pow2(-10) <= x < Pow2(64)
    ensures Pow2(k - 1) <= x < Pow2(k)
  {
    hide Pow2;
  }

  /** In the modelled range doubles have 53 significant bits: `x` lies between 2^52 and 2^53 of its spacing. */
  lemma UlpIsNormal(x: real)
    requires Pow2(-10) <= x < Pow2(64)
    ensures Pow2(52) * Ulp(x) <= x < Pow2(53) * Ulp(x)
  {
    hide Pow2, BinExp;
    var k := BinExp(x, -9);
    AtLeast(x, k);
    Pow2Sum(52, k - 53);
    Pow2Sum(53, k - 53);
  }

  /** An integer below 2^53 is a double already. */
  lemma IntIsDouble(n: nat)
    requires n as real < Pow2(53)
    ensures ToDouble(n as real) == n as real
  {
    hide Pow2, IntPow2, RoundEven, BinExp;
    var x := n as real;
    var k := BinExp(x, -9);
    if k > 53 {
      Pow2Mono(53, k - 1);
      assert false;
    }
    var e := 53 - k;
    Pow2Inverse(e);
    Pow2IsInt(e);
    ScaledInt(n, IntPow2(e), Ulp(x));
  }

  lemma ScaledInt(n: nat, p: nat, u: real)
    requires p as real * u == 1.0 && u > 0.0
    ensures RoundEven(n as real / u) as real * u == n as real
  {
    DivideByPow2(n as real, p as real, u);
    assert (n * p) as real == n as real * p as real;
    RoundsToSelf(n * p, n as real / u);
  }

  lemma DivideByPow2(x: real, p: real, q: real)
    requires p * q == 1.0 && q > 0.0
    ensures x / q == x * p && x * p * q == x
  {
    assert x * p * q == x * (p * q);
  }

  lemma UlpBelow(x: real, k: int)
    requires -9 <= k <= 64 && x < Pow2(k)
    ensures Ulp(x) <= Pow2(k - 53)
  {
    var m := BinExp(x, -9);
    if m > k {
      Pow2Mono(k, m - 1);
      assert false;
    }
    Pow2Mono(m - 53, k - 53);
  }

  // ---- Printing is exact up to the limit, and no further ----

  lemma SmallPowers()
    ensures IntPow2(9) == 512 && IntPow2(10) == 1024 && IntPow2(11) == 2048
  {
  }

  lemma LargePowers()
    ensures IntPow2(43) == 8796093022208 && IntPow2(44) == 17592186044416 && IntPow2(53) == 9007199254740992
  {
    hide IntPow2;
    SmallPowers();
    IntPow2Sum(10, 11);
    IntPow2Sum(11, 11);
    IntPow2Sum(21, 22);
    IntPow2Sum(22, 22);
    IntPow2Sum(43, 10);
  }

  lemma Powers()
    ensures Pow2(43) == 8796093022208.0 && Pow2(44) == 17592186044416.0
    ensures Pow2(53) == 9007199254740992.0
    ensures Pow2(-9) == 1.0 / 512.0 && Pow2(-10) == 1.0 / 1024.0
  {
    hide Pow2, IntPow2;
    SmallPowers();
    LargePowers();
    Pow2IsInt(43);
    Pow2IsInt(44);
    Pow2IsInt(53);
    Pow2IsInt(9);
    Pow2IsInt(10);
    Pow2Inverse(9);
    Pow2Inverse(10);
  }

  lemma PrintsExactly(t: uint64)
    requires t <= EXACT_LIMIT
    ensures PrintedNs(t) == t
  {
    Powers();
    IntIsDouble(t);
    var x := t as real / 1000.0;
    if t == EXACT_LIMIT {
      IntIsDouble(8796093022208);
    } else {
      UlpBelow(x, 43);
      HalfUlp(x);
    }
  }

  lemma PrintsWrongAfterLimit()
    ensures PrintedNs(EXACT_LIMIT + 1) == EXACT_LIMIT + 2
  {
    Powers();
    IntIsDouble(EXACT_LIMIT + 1);
    var x := (EXACT_LIMIT + 1) as real / 1000.0;
    var k := BinExp(x, -9);
    if k < 44 {
      Pow2Mono(k, 43);
      assert false;
    } else if k > 44 {
      Pow2Mono(44, k - 1);
      assert false;
    }
    assert x / Ulp(x) == 4503599627370496.0 + 0.512;
    assert RoundEven(x / Ulp(x)) == 4503599627370497;
  }

  /** All times up to `bound` print exactly precisely when `bound` is at most 1000 * 2^43 nanoseconds. */
  lemma ExactUpTo(bound: uint64)
    ensures (forall t: uint64 :: t <= bound ==> PrintedNs(t) == t) <==> bound <= 8_796_093_022_208_000
  {
    if bound <= EXACT_LIMIT {
      forall t: uint64 | t <= bound ensures PrintedNs(t) == t {
        PrintsExactly(t);
      }
    } else {
      PrintsWrongAfterLimit();
    }
  }
}
