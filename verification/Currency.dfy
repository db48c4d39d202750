/**
 Amounts in smallest currency units, and why the floating-point computation of them is exact.

 An amount stored as Decimal(10,2) is parsed to a binary64 number, multiplied by 100 in binary64 and
 rounded to an integer. Each of the two operations returns a number nearest to the exact result, as
 section 4.3.1 of IEEE 754-2019 requires.
 */
module Currency {

  /** The number of smallest currency units in an amount of `hundredths` hundredths. */
  function SmallestUnits(hundredths: nat, currency: string): nat {
    if currency == "JPY" then (hundredths + 50) / 100 else hundredths
  }

  /** `toUpperCase` on the letters a currency code can hold. */
  function ToUpper(s: string): string {
    seq(|s|, i requires 0 <= i < |s| => if 'a' <= s[i] <= 'z' then (s[i] as int - 32) as char else s[i])
  }

  /** The same letter, one possibly in lower case. */
  ghost predicate SameLetter(c: char, d: char) {
    || c == d
    || ('a' <= c <= 'z' && c as int == d as int + 32)
    || ('a' <= d <= 'z' && d as int == c as int + 32)
  }

  ghost predicate SameUpToCase(s: string, t: string) {
    |s| == |t| && forall i :: 0 <= i < |s| ==> SameLetter(s[i], t[i])
  }

  /** Comparing upper-cased texts ignores case and nothing else. */
  lemma UpperMeaning(s: string, t: string)
    ensures ToUpper(s) == ToUpper(t) <==> SameUpToCase(s, t)
  {
    var u, v := ToUpper(s), ToUpper(t);
    if u == v {
      assert |s| == |u| && |t| == |v|;
      forall i | 0 <= i < |s| ensures SameLetter(s[i], t[i]) {
        assert u[i] == v[i];
      }
    }
  }

  // ---------------------------------------------------------------- binary64

  ghost function Pow2(k: int): (p: real)
    ensures p > 0.0
    decreases if k >= 0 then k else -k
  {
    if k == 0 then 1.0 else if k > 0 then 2.0 * Pow2(k - 1) else Pow2(k + 1) / 2.0
  }

  ghost function Distance(x: real, y: real): real {
    if x <= y then y - x else x - y
  }

  /** `y` is a 53-bit number within half a unit in the last place of the positive number `x`. */
  ghost predicate NearestIn(x: real, y: real, k: int, m: int) {
    Pow2(k) <= x < Pow2(k + 1) && y == m as real * Pow2(k - 52) && Distance(x, y) <= Pow2(k - 53)
  }

  /** Rounding to nearest, for results that are zero or in the normal range. */
  ghost predicate Nearest(x: real, y: real) {
    if x == 0.0 then y == 0.0 else x > 0.0 && exists k: int, m: int :: NearestIn(x, y, k, m)
  }

  lemma Pow2Double(k: int)
    ensures Pow2(k + 1) == 2.0 * Pow2(k)
  {
  }

  lemma {:induction false} Pow2Split(k: int, j: nat)
    ensures Pow2(k) == Pow2(k - j) * Pow2(j)
    decreases j
  {
    if j > 0 {
      Pow2Split(k, j - 1);
      Pow2Double(k - j);
      Regroup(Pow2(k - j), Pow2(j - 1));
      assert Pow2(j) == 2.0 * Pow2(j - 1);
    }
  }

  lemma Regroup(a: real, b: real)
    ensures (2.0 * a) * b == a * (2.0 * b)
  {
  }

  lemma Pow2Ten()
    ensures Pow2(10) == 1024.0
  {
    assert Pow2(5) == 2.0 * Pow2(4);
    assert Pow2(4) == 16.0;
    assert Pow2(5) == 32.0;
    Pow2Split(10, 5);
  }

  lemma Pow2Values()
    ensures Pow2(52) == 4503599627370496.0 && Pow2(53) == 9007199254740992.0
  {
    Pow2Ten();
    Pow2Split(20, 10);
    Pow2Split(40, 20);
    Pow2Split(50, 10);
    Pow2Double(50);
    Pow2Double(51);
    Pow2Double(52);
  }

  /** Every positive number lies between two consecutive powers of two. */
  lemma {:induction false} Exponent(x: real) returns (k: int)
    requires x > 0.0
    ensures Pow2(k) <= x < Pow2(k + 1)
    decreases x.Floor
  {
    if x < 1.0 {
      k := ExponentBelow(x);
    } else if x < 2.0 {
      assert Pow2(1) == 2.0 * Pow2(0);
      return 0;
    } else {
      var j := Exponent(x / 2.0);
      Pow2Double(j);
      Pow2Double(j + 1);
      return j + 1;
    }
  }

  lemma {:induction false} ExponentBelow(x: real) returns (k: int)
    requires 0.0 < x < 1.0
    ensures Pow2(k) <= x < Pow2(k + 1)
    decreases (1.0 / x).Floor
  {
    var j := 0;
    if x < 0.5 {
      HalvesFloor(x);
      j := ExponentBelow(2.0 * x);
    } else {
      assert Pow2(1) == 2.0 * Pow2(0);
    }
    Pow2Double(j - 1);
    Pow2Double(j);
    return j - 1;
  }

  lemma HalvesFloor(x: real)
    requires 0.0 < x < 0.5
    ensures (1.0 / (2.0 * x)).Floor < (1.0 / x).Floor
  {
    assert 1.0 / (2.0 * x) == (1.0 / x) / 2.0;
    assert (1.0 / x) * x == 1.0;
    assert 1.0 / x >= 2.0;
  }

  /** Rounding to nearest has a result for every number that is not negative. */
  lemma NearestExists(x: real) returns (y: real)
    requires x >= 0.0
    ensures Nearest(x, y)
  {
    if x == 0.0 {
      return 0.0;
    }
    var k := Exponent(x);
    var u := Pow2(k - 52);
    var m := (x / u + 0.5).Floor;
    y := m as real * u;
    RoundedMultiple(x, u, m);
    Pow2Double(k - 53);
    assert NearestIn(x, y, k, m);
  }

  lemma RoundedMultiple(x: real, u: real, m: int)
    requires u > 0.0 && m == (x / u + 0.5).Floor
    ensures Distance(x, m as real * u) <= u / 2.0
  {
    var q := x / u;
    assert q * u == x;
    assert -0.5 <= q - m as real <= 0.5;
    ScaleBounds(q - m as real, u);
  }

  lemma ScaleBounds(d: real, u: real)
    requires u > 0.0 && -0.5 <= d <= 0.5
    ensures -0.5 * u <= d * u <= 0.5 * u
  {
  }

  /** One rounding changes a number by at most one part in 2^53. */
  lemma RelativeError(x: real, y: real)
    requires Nearest(x, y)
    ensures x >= 0.0 && Distance(x, y) * 9007199254740992.0 <= x
  {
    if x > 0.0 {
      var k, m :| NearestIn(x, y, k, m);
      Pow2Split(k, 53);
      Pow2Values();
    }
  }

  /** Two roundings of at most ten billion hundredths stay well within half a unit. */
  lemma ProductClose(h: nat, y1: real, y2: real)
    requires h < 10_000_000_000 && Nearest(h as real / 100.0, y1) && Nearest(y1 * 100.0, y2)
    ensures Distance(h as real, y2) < 0.25
  {
    RelativeError(h as real / 100.0, y1);
    RelativeError(y1 * 100.0, y2);
    var x := h as real / 100.0;
    assert x * 100.0 == h as real;
    assert Distance(h as real, y1 * 100.0) == Distance(x, y1) * 100.0;
    assert Distance(x, y1) * 9007199254740992.0 <= 100_000_000.0;
    assert y1 * 100.0 <= 20_000_000_000.0;
  }

  /** `Math.round`: the nearest integer, ties upward (section 21.3.2.28 of ECMA-262 2024). */
  function MathRound(x: real): int {
    (x + 0.5).Floor
  }

  /** In a two-decimal currency the float computation returns exactly the hundredths. */
  lemma TwoDecimalExact(h: nat, y1: real, y2: real)
    requires h < 10_000_000_000 && Nearest(h as real / 100.0, y1) && Nearest(y1 * 100.0, y2)
    ensures MathRound(y2) == h
  {
    ProductClose(h, y1, y2);
  }

  // ---------------------------------------------------------------- zero-decimal currencies

  function IntPow2(j: nat): nat {
    if j == 0 then 1 else 2 * IntPow2(j - 1)
  }

  lemma {:induction false} Pow2IsInt(j: nat)
    ensures Pow2(j) == IntPow2(j) as real
  {
    if j > 0 {
      Pow2IsInt(j - 1);
    }
  }

  lemma {:induction false} Pow2Grows(k: int, j: nat)
    ensures Pow2(k) <= Pow2(k + j)
    decreases j
  {
    if j > 0 {
      Pow2Grows(k, j - 1);
      Pow2Double(k + j - 1);
    }
  }

  /** Two multiples of `u` no more than half of `u` apart are equal. */
  lemma SameMultiple(x: real, y: real, n: int, m: int, u: real)
    requires u > 0.0 && x == n as real * u && y == m as real * u && Distance(x, y) <= u / 2.0
    ensures x == y
  {
    var d := (n - m) as real;
    assert d * u == x - y;
    assert n > m ==> d >= 1.0 && d * u >= 1.0 * u;
    assert n < m ==> d <= -1.0 && d * u <= -1.0 * u;
  }

  /** With spacing 2^(k-52) and k at most 51, every half-integer is a grid point. */
  lemma HalfOnGrid(n: nat, k: int) returns (whole: int)
    requires k <= 51
    ensures n as real / 2.0 == whole as real * Pow2(k - 52)
  {
    var u, j := Pow2(k - 52), 51 - k;
    Pow2IsInt(j);
    Pow2Split(-1, j);
    assert Pow2(-1) == Pow2(0) / 2.0;
    var w := IntPow2(j) as real;
    assert u * w == 0.5;
    whole := n * IntPow2(j);
    assert whole as real == n as real * w;
    assert (n as real * w) * u == n as real * (u * w);
  }

  lemma {:induction false} ExponentBound(x: real, k: int)
    requires Pow2(k) <= x < 4503599627370496.0
    ensures k <= 51
  {
    Pow2Values();
    Pow2Grows(52, if k >= 52 then k - 52 else 0);
  }

  /** Half-integers below 2^52 are binary64 numbers, so rounding leaves them alone. */
  lemma HalvesAreExact(n: nat, y: real)
    requires 0 < n < 9007199254740992 && Nearest(n as real / 2.0, y)
    ensures y == n as real / 2.0
  {
    var x := n as real / 2.0;
    var k, m :| NearestIn(x, y, k, m);
    HalfNearest(n, x, y, k, m);
  }

  lemma HalfNearest(n: nat, x: real, y: real, k: int, m: int)
    requires n < 9007199254740992 && x == n as real / 2.0 && NearestIn(x, y, k, m)
    ensures y == x
  {
    ExponentBound(x, k);
    var whole := HalfOnGrid(n, k);
    Pow2Double(k - 53);
    SameMultiple(x, y, whole, m, Pow2(k - 52));
  }

  /** In a zero-decimal currency it returns the nearest whole amount, ties upward. */
  lemma ZeroDecimalExact(h: nat, y: real)
    requires h < 10_000_000_000 && Nearest(h as real / 100.0, y)
    ensures MathRound(y) == (h + 50) / 100
  {
    var x := h as real / 100.0;
    RelativeError(x, y);
    assert Distance(x, y) * 9007199254740992.0 <= 100_000_000.0;
    assert Distance(x, y) < 0.001;
    var q, r := h / 100, h % 100;
    assert x == q as real + r as real / 100.0;
    if r == 50 {
      var n := 2 * q + 1;
      assert x == n as real / 2.0;
      HalvesAreExact(n, y);
    } else if r < 50 {
      assert q as real - 0.001 < y < q as real + 0.5;
      RoundsTo(y, q);
    } else {
      assert q as real + 0.5 <= y < q as real + 1.0;
      RoundsTo(y, q + 1);
    }
  }

  lemma RoundsTo(y: real, n: int)
    requires n as real - 0.5 <= y < n as real + 0.5
    ensures MathRound(y) == n
  {
  }

  // ---------------------------------------------------------------- the service's conversion

  /** The conversion with `y1` the parsed amount and `y2` the product. */
  ghost predicate ConvertsVia(h: nat, currency: string, r: int, y1: real, y2: real) {
    && Nearest(h as real / 100.0, y1)
    && Nearest(y1 * 100.0, y2)
    && r == if currency == "JPY" then MathRound(y1) else MathRound(y2)
  }

  /** `r` is what `toSmallestCurrencyUnit` may return for the stored amount. */
  ghost predicate Converts(h: nat, currency: string, r: int) {
    exists y1: real, y2: real :: ConvertsVia(h, currency, r, y1, y2)
  }

  /** For every storable amount the conversion returns the exact number of smallest units and nothing else, in every currency. */
  lemma ConversionExact(h: nat, currency: string, r: int)
    requires h < 10_000_000_000
    ensures Converts(h, currency, r) <==> r == SmallestUnits(h, currency)
  {
    if Converts(h, currency, r) {
      var y1: real, y2: real :| ConvertsVia(h, currency, r, y1, y2);
      TwoDecimalExact(h, y1, y2);
      ZeroDecimalExact(h, y1);
    } else {
      var y1 := NearestExists(h as real / 100.0);
      RelativeError(h as real / 100.0, y1);
      var y2 := NearestExists(y1 * 100.0);
      TwoDecimalExact(h, y1, y2);
      ZeroDecimalExact(h, y1);
      assert ConvertsVia(h, currency, SmallestUnits(h, currency), y1, y2);
    }
  }
}
