/**
 The mean rating in hundredths, computed the way the code does: the database divides, the quotient travels as a
 binary64 number, and `toFixed(2)` prints it.
 */
module Ratings {
  import opened Currency

  /** `toFixed(2)` read back as hundredths: the closest multiple, the larger of two (section 21.1.3.3 of ECMA-262 2024). */
  function ToFixed2(x: real): int {
    (100.0 * x + 0.5).Floor
  }

  /** The mean `sum / count` in hundredths, rounded the same way. */
  function RoundedMean(sum: int, count: nat): int
    requires count > 0
  {
    (200 * sum + count) / (2 * count)
  }

  /** The mean lies exactly between two hundredths. */
  predicate Tie(sum: int, count: nat)
    requires count > 0
  {
    (200 * sum + count) % (2 * count) == 0
  }

  /** The binary64 number nearest to `h / 200` lies below it, for quotients from 1 to 5: a remainder modulo 25 decides. */
  predicate FallsBelow(h: int) {
    var factor := if h < 400 then 12 else if h < 800 then 6 else 3;
    0 < factor * h % 25 < 13
  }

  /** The mean is a tie whose float falls below it. */
  predicate FloatTie(sum: int, count: nat)
    requires count > 0
  {
    Tie(sum, count) && FallsBelow(2 * RoundedMean(sum, count) - 1)
  }

  /** What the code stores: the rounded mean, but one less for the ties whose float falls short. */
  function Average(sum: int, count: nat): int
    requires count > 0
  {
    RoundedMean(sum, count) - if FloatTie(sum, count) then 1 else 0
  }

  /** No hundredth is closer to the mean than `n`. */
  ghost predicate Closest(n: int, sum: int, count: nat) {
    2 * (n * count - 100 * sum) <= count && 2 * (100 * sum - n * count) <= count
  }

  lemma AverageIsClosest(sum: int, count: nat)
    requires count > 0
    ensures Closest(Average(sum, count), sum, count)
  {
    var n, d := RoundedMean(sum, count), 2 * count;
    assert 200 * sum + count == d * n + (200 * sum + count) % d;
    assert d * n == 2 * (n * count);
    assert (n - 1) * count == n * count - count;
  }

  lemma ClosestBounds(n: int, sum: int, count: nat)
    requires count > 0 && count <= sum <= 5 * count && Closest(n, sum, count)
    ensures 100 <= n <= 500
  {
    TimesAtMost(n, 99, count);
    TimesAtMost(501, n, count);
  }

  lemma TimesAtMost(a: int, b: int, c: nat)
    ensures a <= b ==> a * c <= b * c
  {
  }

  // ---------------------------------------------------------------- the float the service receives

  ghost function Mean(sum: int, count: nat): real
    requires count > 0
  {
    sum as real / count as real
  }

  /** `a` is `x` rounded to `1 / scale`, with at least sixteen decimal digits. */
  ghost predicate DecimalNear(x: real, a: real, scale: nat, n: int) {
    && scale > 0 && scale % 10_000_000_000_000_000 == 0
    && a * scale as real == n as real && Distance(x, a) * scale as real <= 0.5
  }

  /** What SQL's AVG may return: the mean itself or a decimal quotient of it. */
  ghost predicate Quotient(sum: int, count: nat, a: real)
    requires count > 0
  {
    a == Mean(sum, count) || exists scale, n :: DecimalNear(Mean(sum, count), a, scale, n)
  }

  /** The float the service may receive for the mean. */
  ghost predicate Answers(sum: int, count: nat, x: real)
    requires count > 0
  {
    exists a :: Quotient(sum, count, a) && Nearest(a, x)
  }

  lemma AnswerExists(sum: int, count: nat) returns (x: real)
    requires 0 < count <= sum
    ensures Answers(sum, count, x)
  {
    assert Mean(sum, count) >= 0.0 by {
      SignOf(Mean(sum, count), count as real, sum as real);
    }
    x := NearestExists(Mean(sum, count));
  }

  lemma SameSign(q: real, d: real)
    requires d > 0.0
    ensures q > 0.0 <==> q * d > 0.0
    ensures q < 0.0 <==> q * d < 0.0
  {
  }

  lemma Product(q: real, d: real, p: real)
    requires d > 0.0 && q * d == p
    ensures (q > 0.0 <==> p > 0.0) && (q < 0.0 <==> p < 0.0)
  {
    SameSign(q, d);
  }

  lemma SignOf(q: real, d: real, slack: real)
    requires d > 0.0 && q * d == slack
    ensures q >= 0.0 <==> slack >= 0.0
    ensures q < 1.0 <==> slack < d
    ensures -1.0 < q <==> 0.0 < slack + d
  {
    SameSign(q, d);
    Product(q - 1.0, d, slack - d);
    Product(q + 1.0, d, slack + d);
  }

  lemma MeanBounds(sum: int, count: nat)
    requires 0 < count && count <= sum <= 5 * count
    ensures 1.0 <= Mean(sum, count) <= 5.0
  {
    MeanTimes(sum, count, 1.0);
    MeanTimes(sum, count, 5.0);
    Product(1.0 - Mean(sum, count), count as real, (count - sum) as real);
    Product(5.0 - Mean(sum, count), count as real, (5 * count - sum) as real);
  }

  lemma QuotientClose(x: real, a: real, scale: nat, n: int)
    requires DecimalNear(x, a, scale, n)
    ensures Distance(x, a) * 10_000_000_000_000_000.0 <= 0.5
  {
    var d := Distance(x, a);
    assert scale as real >= 10_000_000_000_000_000.0;
    assert d >= 0.0;
    Grows(d, 10_000_000_000_000_000.0, scale as real);
  }

  lemma Grows(d: real, u: real, v: real)
    requires d >= 0.0 && u <= v
    ensures d * u <= d * v
  {
  }

  /** The received float is within 10^-15 of the mean. */
  lemma AnswerNear(sum: int, count: nat, x: real)
    requires 0 < count && count <= sum <= 5 * count && Answers(sum, count, x)
    ensures Distance(Mean(sum, count), x) * 1_000_000_000_000_000.0 < 1.0
  {
    MeanBounds(sum, count);
    var a :| Quotient(sum, count, a) && Nearest(a, x);
    if a != Mean(sum, count) {
      var scale, n :| DecimalNear(Mean(sum, count), a, scale, n);
      QuotientClose(Mean(sum, count), a, scale, n);
    }
    RelativeError(a, x);
  }

  /** The `Int` column that holds the number of reviews. */
  const INT_MAX := 2_147_483_647

  lemma AnswerClose(sum: int, count: nat, x: real)
    requires 0 < count <= INT_MAX && count <= sum <= 5 * count && Answers(sum, count, x)
    ensures Distance(sum as real, x * count as real) < 0.005
  {
    AnswerNear(sum, count, x);
    NearTimes(sum, count, x);
  }

  lemma NearTimes(sum: int, count: nat, x: real)
    requires 0 < count <= INT_MAX && Distance(Mean(sum, count), x) * 1_000_000_000_000_000.0 < 1.0
    ensures Distance(sum as real, x * count as real) < 0.005
  {
    MeanTimes(sum, count, x);
    SmallTimes(Mean(sum, count), x, count as real, sum as real, x * count as real);
  }

  lemma MeanTimes(sum: int, count: nat, x: real)
    requires count > 0
    ensures (x - Mean(sum, count)) * count as real == x * count as real - sum as real
  {
    assert Mean(sum, count) * count as real == sum as real;
  }

  lemma SmallTimes(m: real, x: real, c: real, mc: real, xc: real)
    requires Distance(m, x) * 1_000_000_000_000_000.0 < 1.0 && 0.0 < c <= 2_147_483_647.0 && (x - m) * c == xc - mc
    ensures Distance(mc, xc) < 0.005
  {
    var d := x - m;
    Product(d - 0.000_000_000_000_001, c, (xc - mc) - 0.000_000_000_000_001 * c);
    Product(d + 0.000_000_000_000_001, c, (xc - mc) + 0.000_000_000_000_001 * c);
  }

  /**
   As long as the float is within 1/(200 count) of the mean, two printed digits give the rounded mean, except
   that they are one less when the mean is a tie and the float fell below it.
   */
  lemma FloatMean(sum: int, count: nat, x: real)
    requires count > 0 && Distance(sum as real, x * count as real) < 0.005
    ensures ToFixed2(x) == RoundedMean(sum, count) - if Tie(sum, count) && x * count as real < sum as real then 1 else 0
  {
    var n, d := RoundedMean(sum, count), 2 * count;
    var r := (200 * sum + count) % d;
    assert 200 * sum + count == d * n + r;
    var t := 100.0 * x + 0.5;
    var delta := 200.0 * (x * count as real - sum as real);
    assert t * d as real == (200 * sum + count) as real + delta;
    assert (200 * sum + count) as real == d as real * n as real + r as real;
    var slack := r as real + delta;
    assert (t - n as real) * d as real == slack;
    SignOf(t - n as real, d as real, slack);
    FloorIs(t, n);
    FloorIs(t, n - 1);
  }

  lemma FloorIs(t: real, n: int)
    ensures t.Floor == n <==> n as real <= t < n as real + 1.0
  {
    assert t.Floor as real <= t < t.Floor as real + 1.0;
  }

  // ---------------------------------------------------------------- ties

  lemma TieMean(sum: int, count: nat)
    requires count > 0 && Tie(sum, count)
    ensures Mean(sum, count) == (2 * RoundedMean(sum, count) - 1) as real / 200.0
  {
    var h := 2 * RoundedMean(sum, count) - 1;
    assert 200 * sum == h * count;
    assert 200.0 * sum as real == h as real * count as real;
    Divide(sum as real, count as real, h as real);
  }

  lemma Divide(s: real, c: real, h: real)
    requires c > 0.0 && 200.0 * s == h * c
    ensures s / c == h / 200.0
  {
    var q := s / c;
    assert q * c == s;
    assert (200.0 * q - h) * c == 0.0;
  }

  /** Three decimal digits survive the decimal quotient. */
  lemma TieIsExact(h: int, a: real, scale: nat, n: int)
    requires DecimalNear(h as real / 200.0, a, scale, n)
    ensures a == h as real / 200.0
  {
    var x, u := h as real / 200.0, 1.0 / scale as real;
    var c := scale / 200;
    assert scale == 200 * c;
    assert u * scale as real == 1.0;
    assert x * scale as real == h as real * c as real;
    assert (h * c) as real == h as real * c as real;
    ByUnit(x, scale as real, u, (h * c) as real);
    ByUnit(a, scale as real, u, n as real);
    HalfUnit(Distance(x, a), scale as real, u);
    SameMultiple(x, a, h * c, n, u);
  }

  lemma ByUnit(x: real, scale: real, u: real, n: real)
    requires u * scale == 1.0 && x * scale == n
    ensures x == n * u
  {
    assert n * u == x * (scale * u);
  }

  lemma HalfUnit(d: real, scale: real, u: real)
    requires u > 0.0 && u * scale == 1.0 && d * scale <= 0.5
    ensures d <= u / 2.0
  {
    assert d == (d * scale) * u;
  }

  lemma SmallPowers()
    ensures Pow2(0) == 1.0 && Pow2(1) == 2.0 && Pow2(2) == 4.0 && Pow2(3) == 8.0
  {
    assert Pow2(2) == 2.0 * Pow2(1);
    assert Pow2(3) == 2.0 * Pow2(2);
  }

  lemma ExponentOf(x: real, k: int)
    requires 1.0 <= x < 8.0 && Pow2(k) <= x < Pow2(k + 1)
    ensures k == if x < 2.0 then 0 else if x < 4.0 then 1 else 2
  {
    SmallPowers();
    if k < 0 {
      Pow2Grows(k + 1, -k - 1);
    } else if k > 2 {
      Pow2Grows(3, k - 3);
    }
  }

  /** The scaled units in the last place between 1 and 8. */
  lemma UnitTimes(k: int)
    requires 0 <= k <= 2
    ensures Pow2(k - 52) * (if k == 0 then 4503599627370496.0 else if k == 1 then 2251799813685248.0 else 1125899906842624.0) == 1.0
  {
    Pow2Values();
    Pow2Double(51);
    Pow2Double(50);
    Pow2Split(0, 52);
    Pow2Double(-52);
    Pow2Double(-51);
  }

  /** On which side of `h / 200` its nearest binary64 number lies. */
  lemma TieSide(h: int, x: real)
    requires 200 <= h <= 1000 && Nearest(h as real / 200.0, x)
    ensures x < h as real / 200.0 <==> FallsBelow(h)
  {
    var y := h as real / 200.0;
    var k, m :| NearestIn(y, x, k, m);
    ExponentOf(y, k);
    UnitTimes(k);
    var units := if k == 0 then 4503599627370496 else if k == 1 then 2251799813685248 else 1125899906842624;
    Scaled(h, x, m, Pow2(k - 52), units as real);
    Pow2Double(k - 53);
    Remainder(h, k, m, units);
  }

  /** Clearing denominators: the difference counted in `1 / (200 units)`. */
  lemma Scaled(h: int, x: real, m: int, u: real, units: real)
    requires u > 0.0 && units > 0.0 && u * units == 1.0 && x == m as real * u && Distance(h as real / 200.0, x) <= u / 2.0
    ensures -100.0 <= 200.0 * m as real - h as real * units <= 100.0
    ensures x < h as real / 200.0 <==> 200.0 * m as real - h as real * units < 0.0
  {
    var d := x - h as real / 200.0;
    assert x * units == m as real * (u * units);
    assert 200.0 * (d * units) == 200.0 * m as real - h as real * units;
    assert -u / 2.0 <= d <= u / 2.0;
    assert d * units <= u / 2.0 * units;
    assert d * units >= -u / 2.0 * units;
    assert d < 0.0 ==> d * units < 0.0;
    assert d >= 0.0 ==> d * units >= 0.0;
  }

  lemma Remainder(h: int, k: int, m: int, units: int)
    requires 200 <= h <= 1000 && k == if h < 400 then 0 else if h < 800 then 1 else 2
    requires units == if k == 0 then 4503599627370496 else if k == 1 then 2251799813685248 else 1125899906842624
    requires -100 <= 200 * m - h * units <= 100
    ensures 200 * m - h * units < 0 <==> FallsBelow(h)
  {
    if k == 0 {
      assert 200 * m - h * units == 8 * (25 * (m - h * 22517998136852) - 12 * h);
      NearestMultiple(m - h * 22517998136852, 12 * h);
    } else if k == 1 {
      assert 200 * m - h * units == 8 * (25 * (m - h * 11258999068426) - 6 * h);
      NearestMultiple(m - h * 11258999068426, 6 * h);
    } else {
      assert 200 * m - h * units == 8 * (25 * (m - h * 5629499534213) - 3 * h);
      NearestMultiple(m - h * 5629499534213, 3 * h);
    }
  }

  /** The multiple of 25 nearest to `g` is below it exactly for a small positive remainder. */
  lemma NearestMultiple(j: int, g: int)
    requires -100 <= 8 * (25 * j - g) <= 100
    ensures 25 * j - g < 0 <==> 0 < g % 25 < 13
  {
  }

  // ---------------------------------------------------------------- the stored average

  /** Whatever nearest float arrives, what is printed depends on the ratings alone. */
  lemma PrintedAverage(sum: int, count: nat, x: real)
    requires 0 < count <= INT_MAX && count <= sum <= 5 * count && Answers(sum, count, x)
    ensures ToFixed2(x) == Average(sum, count)
  {
    AnswerClose(sum, count, x);
    FloatMean(sum, count, x);
    if Tie(sum, count) {
      TieFloat(sum, count, x);
      BelowMean(sum, count, x);
    }
  }

  lemma BelowMean(sum: int, count: nat, x: real)
    requires count > 0
    ensures x * count as real < sum as real <==> x < Mean(sum, count)
  {
    MeanTimes(sum, count, x);
    SameSign(x - Mean(sum, count), count as real);
  }

  lemma TieFloat(sum: int, count: nat, x: real)
    requires 0 < count && count <= sum <= 5 * count && Tie(sum, count) && Answers(sum, count, x)
    ensures x < Mean(sum, count) <==> FallsBelow(2 * RoundedMean(sum, count) - 1)
  {
    var h := 2 * RoundedMean(sum, count) - 1;
    TieMean(sum, count);
    MeanBounds(sum, count);
    var a :| Quotient(sum, count, a) && Nearest(a, x);
    if a != Mean(sum, count) {
      var scale, n :| DecimalNear(Mean(sum, count), a, scale, n);
      TieIsExact(h, a, scale, n);
    }
    TieSide(h, x);
  }

  /** Forty reviews with 41 stars: the mean is 1.025, and 1.02 is stored where rounding halves up gives 1.03. */
  lemma FortyOneOverForty(x: real)
    requires Answers(41, 40, x)
    ensures ToFixed2(x) == 102 && RoundedMean(41, 40) == 103
  {
    PrintedAverage(41, 40, x);
  }
}
