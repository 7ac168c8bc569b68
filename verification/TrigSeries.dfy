/**
 * The polynomials of fast_sin and fast_cos against the power series of sine
 * and cosine, to the same degree.
 */
module TrigSeries {
  import opened FastTrig
  import opened Filter

  function Factorial(k: nat): (f: real)
    ensures f > 0.0
  {
    if k == 0 then 1.0 else k as real * Factorial(k - 1)
  }

  /** n terms of an alternating series: y^k / k! - y^(k+2) / (k+2)! + ... */
  function Series(y: real, k: nat, n: nat): real
    decreases n
  {
    if n == 0 then 0.0 else Power(y, k) / Factorial(k) - Series(y, k + 2, n - 1)
  }

  function Signed(negative: bool, x: real): real { if negative then -x else x }

  function Product(a: real, b: real): real { a * b }

  /** A polynomial term by term, the last coefficient at `w` and each one before it a factor `z` further. */
  function Spread(cs: seq<real>, w: real, z: real): real {
    if cs == [] then 0.0 else Product(cs[|cs| - 1], w) + Spread(cs[..|cs| - 1], Product(w, z), z)
  }

  lemma {:induction false} HornerSpread(cs: seq<real>, w: real, z: real)
    ensures w * Horner(cs, z) == Spread(cs, w, z)
    decreases |cs|
  {
    if cs != [] {
      var init, c := cs[..|cs| - 1], cs[|cs| - 1];
      HornerSpread(init, Product(w, z), z);
      Shift(w, z, Horner(init, z), c);
    }
  }

  lemma Shift(w: real, z: real, h: real, c: real)
    ensures w * (h * z + c) == c * w + (w * z) * h
  {
  }

  /** How far a coefficient list can be from the series that starts at power k, or its negative, up to 3.2. */
  function Gap(cs: seq<real>, k: nat, negative: bool): real {
    if cs == [] then 0.0
    else Term(cs[|cs| - 1], k, negative) + Gap(cs[..|cs| - 1], k + 2, !negative)
  }

  function Term(c: real, k: nat, negative: bool): real {
    Product(Size(c - Signed(negative, 1.0 / Factorial(k))), Power(3.2, k))
  }

  lemma {:induction false} PowerBound(y: real, k: nat)
    requires -3.2 <= y <= 3.2
    ensures Size(Power(y, k)) <= Power(3.2, k)
  {
    if k > 0 {
      PowerBound(y, k - 1);
      SizeTimes(y, Power(y, k - 1), 3.2, Power(3.2, k - 1));
    }
  }

  lemma SizeTimes(a: real, b: real, m: real, n: real)
    requires Size(a) <= m && Size(b) <= n
    ensures Size(Product(a, b)) <= Product(m, n)
  {
    SizeOfProduct(a, b);
    ProductGrows(Size(a), Size(b), m, n);
  }

  lemma SizeOfProduct(a: real, b: real)
    ensures Size(Product(a, b)) == Product(Size(a), Size(b))
  {
    if a >= 0.0 && b >= 0.0 {
      assert a * b >= 0.0;
    } else if a >= 0.0 {
      assert a * b == -(a * (-b)) && a * (-b) >= 0.0;
    } else if b >= 0.0 {
      assert a * b == -((-a) * b) && (-a) * b >= 0.0;
    } else {
      assert a * b == (-a) * (-b) && (-a) * (-b) >= 0.0;
    }
  }

  lemma ProductGrows(x: real, y: real, m: real, n: real)
    requires 0.0 <= x <= m && 0.0 <= y <= n
    ensures Product(x, y) <= Product(m, n)
  {
    assert (m - x) * y >= 0.0 && m * (n - y) >= 0.0;
    assert m * n - x * y == (m - x) * y + m * (n - y);
  }

  lemma PowerTwice(y: real, k: nat)
    ensures Power(y, k + 2) == Product(Power(y, k), Square(y))
  {
    assert Power(y, k + 2) == y * (y * Power(y, k));
  }

  lemma {:induction false} SpreadNear(cs: seq<real>, y: real, k: nat, negative: bool)
    requires -3.2 <= y <= 3.2
    ensures Size(Spread(cs, Power(y, k), Square(y)) - Signed(negative, Series(y, k, |cs|))) <= Gap(cs, k, negative)
    decreases |cs|
  {
    if cs != [] {
      var init, c := cs[..|cs| - 1], cs[|cs| - 1];
      SpreadNear(init, y, k + 2, !negative);
      PowerTwice(y, k);
      TermNear(c, y, k, negative);
      hide Power, Square, Factorial, Term, Size, Product;
      var p, rest := Power(y, k) / Factorial(k), Spread(init, Power(y, k + 2), Square(y));
      var a, b := Product(c, Power(y, k)) - Signed(negative, p), rest - Signed(!negative, Series(y, k + 2, |cs| - 1));
      assert Spread(cs, Power(y, k), Square(y)) - Signed(negative, Series(y, k, |cs|)) == a + b;
      SizeSum(a, b);
    }
  }

  lemma SizeSum(a: real, b: real)
    ensures Size(a + b) <= Size(a) + Size(b)
  {
  }

  lemma TermNear(c: real, y: real, k: nat, negative: bool)
    requires -3.2 <= y <= 3.2
    ensures Size(Product(c, Power(y, k)) - Signed(negative, Power(y, k) / Factorial(k))) <= Term(c, k, negative)
  {
    PowerBound(y, k);
    hide Power, Factorial, Size, Product;
    var d := c - Signed(negative, 1.0 / Factorial(k));
    SizeTimes(d, Power(y, k), Size(d), Power(3.2, k));
    Scale(c, Power(y, k), Factorial(k), negative);
  }

  lemma Scale(c: real, p: real, f: real, negative: bool)
    requires f > 0.0
    ensures Product(c - Signed(negative, 1.0 / f), p) == Product(c, p) - Signed(negative, p / f)
  {
    assert (c - 1.0 / f) * p == c * p - p / f && (c + 1.0 / f) * p == c * p + p / f;
  }

  /** The two polynomials term by term, beyond their first terms y and 1. */
  lemma SinSpread(y: real)
    ensures SinPoly(y) == y + Spread(F1_COEFFICIENTS, Power(y, 3), Square(y))
  {
    HornerSpread(F1_COEFFICIENTS, Power(y, 3), Square(y));
    Cubed(y, F1(Square(y)));
    hide Horner, Spread, Power, Square;
  }

  lemma CosSpread(y: real)
    ensures CosPoly(y) == 1.0 + Spread(F2_COEFFICIENTS, Power(y, 2), Square(y))
  {
    HornerSpread(F2_COEFFICIENTS, Power(y, 2), Square(y));
    Squared(y, F2(Square(y)));
    hide Horner, Spread, Power, Square;
  }

  lemma Cubed(y: real, p: real)
    ensures y * y * y * p == Power(y, 3) * p
  {
    Squared(y, p);
    assert Power(y, 3) == y * Power(y, 2);
    assert y * y * y * p == y * (y * y * p) == y * (Power(y, 2) * p);
  }

  lemma Squared(y: real, p: real)
    ensures y * y * p == Power(y, 2) * p
  {
    assert Power(y, 2) == y * (y * Power(y, 0));
  }

  /** The series from its first term on. */
  lemma SeriesFrom(y: real)
    ensures Series(y, 1, 7) == y - Series(y, 3, 6) && Series(y, 0, 7) == 1.0 - Series(y, 2, 6)
  {
    assert Power(y, 1) == y && Power(y, 0) == 1.0 && Factorial(1) == 1.0 && Factorial(0) == 1.0;
  }

  /** Up to 3.2, beyond half a turn, the polynomial of fast_sin is within 0.0004 of the series of sine to degree 13. */
  lemma SinNearSeries(y: real)
    requires -3.2 <= y <= 3.2
    ensures Size(SinPoly(y) - Series(y, 1, 7)) < 0.0004
  {
    SinSpread(y);
    SeriesFrom(y);
    SpreadNear(F1_COEFFICIENTS, y, 3, true);
    SinGap();
    hide Power, Spread, Gap, Square, SinPoly, Series;
  }

  lemma CosNearSeries(y: real)
    requires -3.2 <= y <= 3.2
    ensures Size(CosPoly(y) - Series(y, 0, 7)) < 0.0015
  {
    CosSpread(y);
    SeriesFrom(y);
    SpreadNear(F2_COEFFICIENTS, y, 2, true);
    CosGap();
    hide Power, Spread, Gap, Square, CosPoly, Series;
  }

  /** Where the reduction stays within 3.2, fast_sin and fast_cos are that close to the series at the reduced angle. */
  lemma FastNearSeries(x: real)
    requires -3.2 <= Reduce(x) <= 3.2
    ensures Size(FastSin(x) - Series(Reduce(x), 1, 7)) < 0.0004
    ensures Size(FastCos(x) - Series(Reduce(x), 0, 7)) < 0.0015
  {
    hide SinPoly, CosPoly, Reduce, Series;
    SinNearSeries(Reduce(x));
    CosNearSeries(Reduce(x));
  }

  lemma SinGap()
    ensures Gap(F1_COEFFICIENTS, 3, true) < 0.0004
  {
    Factorials();
    Powers();
    hide Factorial, Power;
    var cs := F1_COEFFICIENTS;
    assert cs[..5][..4] == cs[..4] && cs[..4][..3] == cs[..3] && cs[..3][..2] == cs[..2] && cs[..2][..1] == cs[..1];
    assert Gap(cs[..1], 13, false) < 0.0001;
    assert Gap(cs[..2], 11, true) < 0.00023;
    assert Gap(cs[..3], 9, false) < 0.00032;
    assert Gap(cs[..4], 7, true) < 0.00036;
    assert Gap(cs[..5], 5, false) < 0.00037;
  }

  lemma CosGap()
    ensures Gap(F2_COEFFICIENTS, 2, true) < 0.0015
  {
    Factorials();
    Powers();
    hide Factorial, Power;
    var cs := F2_COEFFICIENTS;
    assert cs[..5][..4] == cs[..4] && cs[..4][..3] == cs[..3] && cs[..3][..2] == cs[..2] && cs[..2][..1] == cs[..1];
    assert Gap(cs[..1], 12, false) < 0.00045;
    assert Gap(cs[..2], 10, true) < 0.00098;
    assert Gap(cs[..3], 8, false) < 0.00132;
    assert Gap(cs[..4], 6, true) < 0.00143;
    assert Gap(cs[..5], 4, false) < 0.00145;
  }

  lemma Factorials()
    ensures Factorial(2) == 2.0 && Factorial(3) == 6.0 && Factorial(4) == 24.0 && Factorial(5) == 120.0
    ensures Factorial(6) == 720.0 && Factorial(7) == 5040.0 && Factorial(8) == 40320.0 && Factorial(9) == 362880.0
    ensures Factorial(10) == 3628800.0 && Factorial(11) == 39916800.0
    ensures Factorial(12) == 479001600.0 && Factorial(13) == 6227020800.0
  {
    assert Factorial(6) == 6.0 * Factorial(5);
    assert Factorial(9) == 9.0 * (8.0 * (7.0 * Factorial(6)));
    assert Factorial(12) == 12.0 * (11.0 * (10.0 * Factorial(9)));
  }

  /** Powers of 3.2, rounded up where they are long. */
  lemma Powers()
    ensures Power(3.2, 2) == 10.24 && Power(3.2, 3) == 32.768
    ensures 0.0 <= Power(3.2, 4) <= 104.9 && 0.0 <= Power(3.2, 5) <= 335.6
    ensures 0.0 <= Power(3.2, 6) <= 1073.8 && 0.0 <= Power(3.2, 7) <= 3436.0
    ensures 0.0 <= Power(3.2, 8) <= 10996.0 && 0.0 <= Power(3.2, 9) <= 35185.0
    ensures 0.0 <= Power(3.2, 10) <= 112590.0 && 0.0 <= Power(3.2, 11) <= 360288.0
    ensures 0.0 <= Power(3.2, 12) <= 1152922.0 && 0.0 <= Power(3.2, 13) <= 3689349.0
  {
    assert Power(3.2, 4) == 3.2 * (3.2 * (3.2 * (3.2 * 1.0)));
  }
}
