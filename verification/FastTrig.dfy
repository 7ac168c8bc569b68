/**
 * fast_sin.h: sine and cosine by range reduction and a polynomial. The
 * reduction is over exact reals, with the header's truncated constants.
 */
module FastTrig {
  const M_PI := 3.1415926
  const INV_PI := 0.31830988

  /** The conversion of a float to an integer: toward zero. */
  function Trunc(x: real): int { if x >= 0.0 then x.Floor else -((-x).Floor) }

  /** A polynomial by Horner's rule, highest coefficient first: u = u * x + c. */
  function Horner(cs: seq<real>, x: real): real
    decreases |cs|
  {
    if cs == [] then 0.0 else Horner(cs[..|cs| - 1], x) * x + cs[|cs| - 1]
  }

  const F1_COEFFICIENTS :=
    [0.00000000013528548, -0.000000024703144, 0.0000027532926, -0.00019840381, 0.0083333179, -0.16666666]

  const F2_COEFFICIENTS :=
    [0.0000000017290616, -0.00000027093486, 0.000024771643, -0.0013887906, 0.041666519, -0.49999991]

  function F1(x: real): real { Horner(F1_COEFFICIENTS, x) }

  function F2(x: real): real { Horner(F2_COEFFICIENTS, x) }

  /** Half turns removed before the parity fold. */
  function Turns(x: real): int { Trunc(x * INV_PI) }

  function Folded(x: real): real { x - Turns(x) as real * M_PI }

  function Reduce(x: real): real {
    var y := Folded(x);
    if Turns(x) % 2 == 0 then y else if y > 0.0 then y - M_PI else y + M_PI
  }

  function Square(y: real): real { y * y }

  /** The sine polynomial of a reduced angle. */
  function SinPoly(y: real): real { y + y * y * y * F1(Square(y)) }

  function CosPoly(y: real): real { 1.0 + y * y * F2(Square(y)) }

  function FastSin(x: real): real { SinPoly(Reduce(x)) }

  function FastCos(x: real): real { CosPoly(Reduce(x)) }

  function Magnitude(n: int): nat { if n >= 0 then n else -n }

  lemma TruncBounds(x: real)
    ensures x >= 0.0 ==> Trunc(x) >= 0 && Trunc(x) as real <= x < Trunc(x) as real + 1.0
    ensures x <= 0.0 ==> Trunc(x) <= 0 && Trunc(x) as real - 1.0 < x <= Trunc(x) as real
    ensures Trunc(-x) == -Trunc(x)
  {
  }

  /** How far the folded argument of a nonnegative input can be from a half turn. */
  lemma FoldedRange(x: real)
    requires x >= 0.0
    ensures Turns(x) >= 0
    ensures Turns(x) as real * (1.0 / INV_PI - M_PI) <= Folded(x)
    ensures Folded(x) < M_PI + (Turns(x) + 1) as real * (1.0 / INV_PI - M_PI)
  {
  }

  /** An odd half turn never folds to zero, so the fold's choice of side is symmetric. */
  lemma OddNeverZero(x: real)
    requires Turns(x) % 2 != 0
    ensures Folded(x) != 0.0
  {
  }

  /** Whole turns the reduction takes off, counting the fold. */
  function WholeTurns(x: real): int {
    if Turns(x) % 2 == 0 then Turns(x) / 2
    else if Folded(x) > 0.0 then (Turns(x) + 1) / 2
    else (Turns(x) - 1) / 2
  }

  /** What is taken off is an even multiple of M_PI, so the reduced angle is the same angle. */
  lemma ReducesWholeTurns(x: real)
    ensures x - Reduce(x) == (2 * WholeTurns(x)) as real * 3.1415926
  {
  }

  /** Negative arguments are reduced to the mirror image of positive ones. */
  lemma ReduceOdd(x: real)
    ensures Reduce(-x) == -Reduce(x)
  {
  }

  /**
   * The reduced angle leaves the half turn only by the error of the two
   * constants, 1 / INV_PI against M_PI, added up over the half turns removed.
   */
  lemma ReductionRange(x: real)
    ensures Magnitude(Turns(-x)) == Magnitude(Turns(x))
    ensures var bound := 3.1415926 + (Magnitude(Turns(x)) + 1) as real * (1.0 / 0.31830988 - 3.1415926);
            -bound < Reduce(x) < bound
  {
  }

  lemma Cube(y: real, p: real)
    ensures (-y) * (-y) * (-y) * p == -(y * y * y * p)
    ensures (-y) * (-y) * p == y * y * p
  {
  }

  lemma PolyParity(y: real)
    ensures SinPoly(-y) == -SinPoly(y) && CosPoly(-y) == CosPoly(y)
  {
    hide F1, F2;
    assert Square(-y) == Square(y);
    hide Square;
    Cube(y, F1(Square(y)));
    Cube(y, F2(Square(y)));
  }

  lemma AtZero()
    ensures FastSin(0.0) == 0.0 && FastCos(0.0) == 1.0
  {
    hide F1, F2;
    assert Turns(0.0) == 0 && Reduce(0.0) == 0.0;
    Vanishes(F1(Square(0.0)));
    Vanishes(F2(Square(0.0)));
  }

  lemma Vanishes(p: real)
    ensures 0.0 * 0.0 * 0.0 * p == 0.0 && 0.0 * 0.0 * p == 0.0
  {
  }

  /** fast_sin is odd and fast_cos is even on every argument. */
  lemma SinOddCosEven(x: real)
    ensures FastSin(-x) == -FastSin(x) && FastCos(-x) == FastCos(x)
  {
    hide Reduce, SinPoly, CosPoly;
    ReduceOdd(x);
    PolyParity(Reduce(x));
  }

  /** Within half a turn of zero nothing is reduced. */
  lemma SmallAngles(x: real)
    requires -M_PI < x < M_PI
    ensures Reduce(x) == x
  {
  }

  // Periodicity

  function Size(x: real): real { if x >= 0.0 then x else -x }

  /** The error of the two constants over the half turns counted, and one more. */
  function Drift(x: real): real { (Magnitude(Turns(x)) + 1) as real * (1.0 / INV_PI - M_PI) }

  /** The odd multiples of M_PI, where one turn meets the next. */
  function Seam(k: int): real { (2 * k + 1) as real * M_PI }

  /**
   * The counted half turns miss one: the argument has reached the next seam
   * but its product with INV_PI has not reached the next integer.
   */
  predicate Overrun(x: real) {
    Size(x) >= (Magnitude(Turns(x)) + if Turns(x) % 2 == 0 then 1 else 2) as real * M_PI
  }

  /** Overrun arguments are exactly those that are not reduced to within half a turn, and they keep their side. */
  lemma OverrunIff(x: real)
    ensures Overrun(x) <==> Size(Reduce(x)) >= M_PI
    ensures Overrun(x) ==> (Reduce(x) > 0.0 <==> x > 0.0)
  {
    OverrunPositive(Size(x));
    Mirrored(x);
    ReduceOdd(x);
  }

  lemma Mirrored(x: real)
    ensures Turns(-x) == -Turns(x) && Magnitude(Turns(-x)) == Magnitude(Turns(x))
  {
  }

  lemma OverrunPositive(x: real)
    requires x >= 0.0
    ensures Overrun(x) <==> Size(Reduce(x)) >= M_PI
    ensures Overrun(x) ==> Reduce(x) > 0.0
  {
    FoldedRange(x);
    hide Turns;
  }

  /** An argument overruns only within the drift of a seam. */
  lemma OverrunNearSeam(x: real)
    requires Overrun(x)
    ensures exists k :: Size(x - Seam(k)) < Drift(x)
  {
    OverrunIff(x);
    ReducesWholeTurns(x);
    ReductionRange(x);
    hide Turns, Reduce, WholeTurns, Overrun;
    var n := WholeTurns(x);
    if Reduce(x) >= M_PI {
      assert Size(x - Seam(n)) < Drift(x);
    } else {
      assert Size(x - Seam(n - 1)) < Drift(x);
    }
  }

  lemma OnlyZeroFits(n: int)
    requires -2.0 * M_PI < (2 * n) as real * M_PI < 2.0 * M_PI
    ensures n == 0
  {
  }

  lemma Congruent(x: real, y: real, n: int)
    requires x - y == (2 * n) as real * M_PI
    ensures Size(Reduce(x) - Reduce(y)) < 2.0 * M_PI ==> Reduce(x) == Reduce(y)
  {
    hide Reduce, WholeTurns;
    ReducesWholeTurns(x);
    ReducesWholeTurns(y);
    var k := n - WholeTurns(x) + WholeTurns(y);
    assert Reduce(x) - Reduce(y) == (2 * k) as real * M_PI;
    if Size(Reduce(x) - Reduce(y)) < 2.0 * M_PI {
      OnlyZeroFits(k);
    }
  }

  /**
   * Periodicity. Arguments whole turns apart reduce to the same angle if
   * neither overruns; they do not if one overruns; and if both do, they do
   * exactly when they lie on the same side of zero.
   */
  lemma Periodic(x: real, y: real, n: int)
    requires x - y == (2 * n) as real * M_PI
    ensures !Overrun(x) && !Overrun(y) ==>
              Reduce(x) == Reduce(y) && FastSin(x) == FastSin(y) && FastCos(x) == FastCos(y)
    ensures Overrun(x) != Overrun(y) ==> Reduce(x) != Reduce(y)
    ensures Overrun(x) && Overrun(y) && Drift(x) <= 2.0 * M_PI && Drift(y) <= 2.0 * M_PI ==>
      (Reduce(x) == Reduce(y) <==> (x > 0.0 <==> y > 0.0))
  {
    OverrunIff(x);
    OverrunIff(y);
    ReductionRange(x);
    ReductionRange(y);
    Congruent(x, y, n);
    hide Reduce, Overrun, Turns, SinPoly, CosPoly;
  }

  /** Periodicity by distance: enough that both arguments keep clear of every seam by their drift. */
  lemma PeriodicClear(x: real, y: real, n: int)
    requires x - y == (2 * n) as real * M_PI
    requires (forall k :: Size(x - Seam(k)) >= Drift(x)) && (forall k :: Size(y - Seam(k)) >= Drift(y))
    ensures Reduce(x) == Reduce(y) && FastSin(x) == FastSin(y) && FastCos(x) == FastCos(y)
  {
    hide Reduce, Overrun, Drift, Seam, SinPoly, CosPoly;
    if Overrun(x) {
      OverrunNearSeam(x);
    }
    if Overrun(y) {
      OverrunNearSeam(y);
    }
    Periodic(x, y, n);
  }

  /** Just past half a turn an argument is not reduced, and neither is the same angle a turn earlier. */
  lemma PeriodicFails()
    ensures var x := 3.14159265; var y := x - 2.0 * M_PI;
      Overrun(x) && !Overrun(y) && Reduce(x) == x && Reduce(y) == y && Reduce(x) != Reduce(y)
  {
    var x := 3.14159265;
    TruncBounds(x * INV_PI);
    SmallAngles(x - 2.0 * M_PI);
  }
}
