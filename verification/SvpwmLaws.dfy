/**
 * What the sector-free modulator guarantees: it is the only solution of the
 * line-to-line equations, it fits the period, it is continuous, symmetric and
 * saturates, and it is linear up to the inscribed circle of the hexagon.
 */
module SvpwmLaws {
  import opened Svpwm

  ghost predicate InPeriod(ts: real, d: Duties) {
    0.0 <= d.a <= ts && 0.0 <= d.b <= ts && 0.0 <= d.c <= ts
  }

  /** Corresponding axes differ by at most `e`. */
  ghost predicate Near(x: Axes, y: Axes, e: real) {
    Abs(x.u1 - y.u1) <= e && Abs(x.u2 - y.u2) <= e && Abs(x.u3 - y.u3) <= e
  }

  ghost predicate NearDuties(d: Duties, e: Duties, r: real) {
    Abs(d.a - e.a) <= r && Abs(d.b - e.b) <= r && Abs(d.c - e.c) <= r
  }

  function Negate(x: Axes): Axes { Axes(-x.u1, -x.u2, -x.u3) }

  function Turn(x: Axes): Axes { Axes(x.u2, x.u3, x.u1) }

  lemma ModulateSolves(ts: real, x: Axes, d: Duties)
    requires ts > 0.0 && Balanced(x)
    ensures Solves(ts, Scale(Gain(ts, x), x), d) <==> d == Modulate(ts, x)
    ensures Balanced(Scale(Gain(ts, x), x))
  {
    hide Gain, Centre, Solves, Scale, Balanced;
    ScaleBalanced(Gain(ts, x), x);
    SolvesUnique(ts, Scale(Gain(ts, x), x), d);
  }

  lemma TimesAbs(u: real, k: real)
    requires k >= 0.0
    ensures Abs(Times(u, k)) == Times(Abs(u), k)
  {
  }

  lemma TimesMax(u: real, v: real, k: real)
    requires k >= 0.0
    ensures Max(Times(u, k), Times(v, k)) == Times(Max(u, v), k)
  {
  }

  lemma PeakScale(k: real, x: Axes)
    requires k >= 0.0
    ensures Peak(Scale(k, x)) == Times(Peak(x), k)
  {
    hide Abs, Max, Times;
    TimesAbs(x.u1, k);
    TimesAbs(x.u2, k);
    TimesAbs(x.u3, k);
    TimesMax(Abs(x.u2), Abs(x.u3), k);
    TimesMax(Abs(x.u1), Max(Abs(x.u2), Abs(x.u3)), k);
  }

  lemma ScaledPeak(ts: real, x: Axes)
    requires ts > 0.0
    ensures Peak(Scale(Gain(ts, x), x)) == Min(ts, Peak(x))
  {
    hide Peak, Scale;
    GainRange(ts, x);
    PeakScale(Gain(ts, x), x);
  }

  lemma CentreInPeriod(ts: real, y: Axes)
    requires Balanced(y) && Peak(y) <= ts
    ensures InPeriod(ts, Centre(ts, y))
  {
  }

  /** Every duty lies in the period, over-modulated or not. */
  lemma FitsPeriod(ts: real, x: Axes)
    requires ts > 0.0 && Balanced(x)
    ensures InPeriod(ts, Modulate(ts, x))
  {
    hide Peak, Gain, Scale, Centre, InPeriod;
    ScaledPeak(ts, x);
    ModulateSolves(ts, x, Modulate(ts, x));
    CentreInPeriod(ts, Scale(Gain(ts, x), x));
  }

  // Continuity

  lemma CentreNear(ts: real, y: Axes, z: Axes, e: real)
    requires Balanced(y) && Balanced(z) && Near(y, z, e)
    ensures NearDuties(Centre(ts, y), Centre(ts, z), e)
  {
    hide Centre;
    CentreNearA(ts, y, z, e);
    CentreNearA(ts, Turn(y), Turn(z), e);
    CentreNearA(ts, Turn(Turn(y)), Turn(Turn(z)), e);
    CentreTurn(ts, y);
    CentreTurn(ts, z);
    CentreTurn(ts, Turn(y));
    CentreTurn(ts, Turn(z));
  }

  lemma CentreNearA(ts: real, y: Axes, z: Axes, e: real)
    requires Balanced(y) && Balanced(z) && Near(y, z, e)
    ensures Abs(Centre(ts, y).a - Centre(ts, z).a) <= e
  {
    hide Max, Min;
    MaxNear(-y.u2, y.u3, -z.u2, z.u3, e);
    MaxNear(0.0, Max(-y.u2, y.u3), 0.0, Max(-z.u2, z.u3), e);
    MaxNear(0.0, Min(-y.u2, y.u3), 0.0, Min(-z.u2, z.u3), e);
  }

  lemma MaxNear(u: real, v: real, u': real, v': real, e: real)
    requires Abs(u - u') <= e && Abs(v - v') <= e
    ensures Abs(Max(u, v) - Max(u', v')) <= e && Abs(Min(u, v) - Min(u', v')) <= e
  {
  }

  lemma CentreTurn(ts: real, y: Axes)
    requires Balanced(y)
    ensures var d := Centre(ts, y); Centre(ts, Turn(y)) == Duties(d.c, d.a, d.b)
  {
  }

  lemma NoGain(ts: real, x: Axes)
    requires ts > 0.0 && Peak(x) <= ts
    ensures Gain(ts, x) == 1.0 && Scale(Gain(ts, x), x) == x
  {
  }

  /** No jump at a sector boundary: duties move no further than the axes do. */
  lemma NoJump(ts: real, x: Axes, y: Axes, e: real)
    requires ts > 0.0 && Balanced(x) && Balanced(y)
    requires Peak(x) <= ts && Peak(y) <= ts && Near(x, y, e)
    ensures NearDuties(Modulate(ts, x), Modulate(ts, y), e)
  {
    hide Peak, Near, NearDuties, Centre, Gain, Scale, Balanced;
    NoGain(ts, x);
    NoGain(ts, y);
    CentreNear(ts, x, y, e);
  }

  lemma PeakNear(x: Axes, y: Axes, e: real)
    requires Near(x, y, e)
    ensures Abs(Peak(x) - Peak(y)) <= e
  {
  }

  /** One axis of two inputs, both rescaled to the period. */
  lemma RadialAxis(u: real, v: real, p: real, q: real, g: real, h: real, e: real)
    requires Abs(u - v) <= e && Abs(v) <= q && p <= q + e
    requires 0.0 < g <= h <= 1.0 && q * h <= p * g
    ensures Abs(u * g - v * h) <= 2.0 * e
  {
    AbsNonNegative(u - v);
    hide Abs;
    ProductBound(u, v, g, e);
    SpanBound(h, g, v, q);
    Grow(p - q, e, g);
    Grow(g, 1.0, e);
    Distribute(p, q, g);
    Distribute(h, g, q);
    Difference(u * g, v * g, v * h, q * g, q * h, p * g, e * g, e);
  }

  lemma RadialTimes(u: real, v: real, p: real, q: real, g: real, h: real, e: real)
    requires Abs(u - v) <= e && Abs(v) <= q && p <= q + e
    requires 0.0 < g <= h <= 1.0 && q * h <= p * g
    ensures Abs(Times(u, g) - Times(v, h)) <= 2.0 * e
  {
    RadialAxis(u, v, p, q, g, h, e);
  }

  lemma AbsNonNegative(u: real)
    ensures Abs(u) >= 0.0
  {
  }

  lemma Difference(ug: real, vg: real, vh: real, qg: real, qh: real, pg: real, eg: real, e: real)
    requires Abs(ug - vg) <= eg <= e && Abs(vh - vg) <= qh - qg && pg - qg <= eg && qh <= pg
    ensures Abs(ug - vh) <= 2.0 * e
  {
  }

  lemma Distribute(a: real, b: real, c: real)
    ensures (a - b) * c == a * c - b * c
  {
  }

  lemma Grow(a: real, b: real, c: real)
    requires a <= b && c >= 0.0
    ensures a * c <= b * c && c * a <= c * b
  {
  }

  lemma ProductBound(u: real, v: real, k: real, b: real)
    requires Abs(u - v) <= b && k >= 0.0
    ensures Abs(u * k - v * k) <= b * k
  {
    Distribute(u, v, k);
    Grow(u - v, b, k);
    Grow(v - u, b, k);
    Distribute(v, u, k);
  }

  lemma SpanBound(h: real, g: real, v: real, b: real)
    requires g <= h && Abs(v) <= b
    ensures Abs(v * h - v * g) <= b * h - b * g
  {
    Distribute(h, g, v);
    Distribute(h, g, b);
    Grow(v, b, h - g);
    Grow(-v, b, h - g);
  }

  lemma Quotients(ts: real, p: real, q: real)
    requires ts > 0.0 && 0.0 < q <= p
    ensures ts / p <= ts / q && (ts / p) * p == ts == (ts / q) * q
  {
  }

  lemma GainOrder(ts: real, x: Axes, y: Axes)
    requires ts > 0.0 && Peak(y) <= Peak(x)
    ensures Gain(ts, x) <= Gain(ts, y)
    ensures Times(Peak(y), Gain(ts, y)) <= Times(Peak(x), Gain(ts, x))
  {
    hide Peak;
    GainRange(ts, x);
    if Peak(y) > ts {
      Quotients(ts, Peak(x), Peak(y));
    }
  }

  lemma PeakBounds(x: Axes)
    ensures Abs(x.u1) <= Peak(x) && Abs(x.u2) <= Peak(x) && Abs(x.u3) <= Peak(x)
  {
  }

  lemma RadialNear(ts: real, x: Axes, y: Axes, e: real)
    requires ts > 0.0 && Near(x, y, e) && Peak(y) <= Peak(x)
    ensures Near(Scale(Gain(ts, x), x), Scale(Gain(ts, y), y), 2.0 * e)
  {
    hide Peak, Gain, Abs, Times;
    var g, h, p, q := Gain(ts, x), Gain(ts, y), Peak(x), Peak(y);
    GainRange(ts, x);
    GainRange(ts, y);
    GainOrder(ts, x, y);
    PeakNear(x, y, e);
    PeakBounds(y);
    Unfold(p, q, g, h, e);
    RadialTimes(x.u1, y.u1, p, q, g, h, e);
    RadialTimes(x.u2, y.u2, p, q, g, h, e);
    RadialTimes(x.u3, y.u3, p, q, g, h, e);
  }

  lemma Unfold(p: real, q: real, g: real, h: real, e: real)
    requires Abs(p - q) <= e && Times(q, h) <= Times(p, g)
    ensures p <= q + e && q * h <= p * g
  {
  }

  lemma NearSym(x: Axes, y: Axes, e: real)
    requires Near(x, y, e)
    ensures Near(y, x, e)
  {
  }

  /** Continuity everywhere, into and through over-modulation: at most twice the movement of the axes. */
  lemma NoJumpAnywhere(ts: real, x: Axes, y: Axes, e: real)
    requires ts > 0.0 && Balanced(x) && Balanced(y) && Near(x, y, e)
    ensures NearDuties(Modulate(ts, x), Modulate(ts, y), 2.0 * e)
  {
    hide Peak, Near, NearDuties, Centre, Gain, Scale, Balanced, Solves;
    if Peak(y) <= Peak(x) {
      RadialNear(ts, x, y, e);
    } else {
      NearSym(x, y, e);
      RadialNear(ts, y, x, e);
      NearSym(Scale(Gain(ts, y), y), Scale(Gain(ts, x), x), 2.0 * e);
    }
    ModulateSolves(ts, x, Modulate(ts, x));
    ModulateSolves(ts, y, Modulate(ts, y));
    CentreNear(ts, Scale(Gain(ts, x), x), Scale(Gain(ts, y), y), 2.0 * e);
  }

  // Symmetry and saturation

  lemma NegateScale(ts: real, x: Axes)
    requires ts > 0.0
    ensures Gain(ts, Negate(x)) == Gain(ts, x)
    ensures Scale(Gain(ts, x), Negate(x)) == Negate(Scale(Gain(ts, x), x))
  {
    assert Peak(Negate(x)) == Peak(x);
    hide Peak, Gain;
  }

  lemma NegateSolves(ts: real, y: Axes, d: Duties)
    requires Solves(ts, y, d)
    ensures Solves(ts, Negate(y), Duties(ts - d.a, ts - d.b, ts - d.c))
  {
  }

  /** Negating the input mirrors every duty in the period. */
  lemma Mirror(ts: real, x: Axes)
    requires ts > 0.0 && Balanced(x)
    ensures var d := Modulate(ts, x); Modulate(ts, Negate(x)) == Duties(ts - d.a, ts - d.b, ts - d.c)
  {
    assert Balanced(Negate(x));
    hide Modulate, Gain, Scale, Solves, Balanced, Negate;
    var d := Modulate(ts, x);
    NegateScale(ts, x);
    ModulateSolves(ts, x, d);
    NegateSolves(ts, Scale(Gain(ts, x), x), d);
    ModulateSolves(ts, Negate(x), Duties(ts - d.a, ts - d.b, ts - d.c));
  }

  lemma TurnScale(ts: real, x: Axes)
    requires ts > 0.0
    ensures Gain(ts, Turn(x)) == Gain(ts, x)
    ensures Scale(Gain(ts, x), Turn(x)) == Turn(Scale(Gain(ts, x), x))
  {
  }

  lemma TurnSolves(ts: real, y: Axes, d: Duties)
    requires Solves(ts, y, d)
    ensures Solves(ts, Turn(y), Duties(d.c, d.a, d.b))
  {
  }

  /** Shifting the axes cyclically shifts the duties. */
  lemma Rotate(ts: real, x: Axes)
    requires ts > 0.0 && Balanced(x)
    ensures var d := Modulate(ts, x); Modulate(ts, Turn(x)) == Duties(d.c, d.a, d.b)
  {
    assert Balanced(Turn(x));
    hide Modulate, Gain, Scale, Solves, Balanced, Turn;
    var d := Modulate(ts, x);
    TurnScale(ts, x);
    ModulateSolves(ts, x, d);
    TurnSolves(ts, Scale(Gain(ts, x), x), d);
    ModulateSolves(ts, Turn(x), Duties(d.c, d.a, d.b));
  }

  lemma RescaleAxis(u: real, k: real, g: real, h: real)
    requires k * g == h
    ensures Times(Times(u, k), g) == Times(u, h)
  {
  }

  lemma SaturatedGain(ts: real, x: Axes, k: real)
    requires ts > 0.0 && Peak(x) >= ts && k >= 1.0
    ensures k * Gain(ts, Scale(k, x)) == Gain(ts, x)
  {
    hide Peak, Scale;
    PeakScale(k, x);
    var g, h, p := Gain(ts, Scale(k, x)), Gain(ts, x), Peak(x);
    assert p * k >= p;
    assert g * (p * k) == ts == h * p;
    Cancel(k * g, h, p);
  }

  lemma Cancel(a: real, b: real, p: real)
    requires p > 0.0 && a * p == b * p
    ensures a == b
  {
  }

  lemma Rescale(x: Axes, k: real, g: real, h: real)
    requires Times(Times(x.u1, k), g) == Times(x.u1, h)
    requires Times(Times(x.u2, k), g) == Times(x.u2, h)
    requires Times(Times(x.u3, k), g) == Times(x.u3, h)
    ensures Scale(g, Scale(k, x)) == Scale(h, x)
  {
  }

  /** Once the period is used up, a longer input in the same direction changes nothing. */
  lemma Saturates(ts: real, x: Axes, k: real)
    requires ts > 0.0 && Peak(x) >= ts && k >= 1.0
    ensures Modulate(ts, Scale(k, x)) == Modulate(ts, x)
  {
    hide Peak, Gain, Times, Centre;
    SaturatedGain(ts, x, k);
    RescaleAxis(x.u1, k, Gain(ts, Scale(k, x)), Gain(ts, x));
    RescaleAxis(x.u2, k, Gain(ts, Scale(k, x)), Gain(ts, x));
    RescaleAxis(x.u3, k, Gain(ts, Scale(k, x)), Gain(ts, x));
    Rescale(x, k, Gain(ts, Scale(k, x)), Gain(ts, x));
  }

  lemma TimesTimes(u: real, k: real, m: real)
    ensures Times(u * k, m) == Times(Times(u, m), k)
  {
    assert u * k * m == u * m * k;
  }

  /** Scaling the input vector scales its axes. */
  lemma ProjectScale(ts: real, v: Vector, k: real)
    ensures Project(ts, v.alpha * k, v.beta * k) == Scale(k, Project(ts, v.alpha, v.beta))
  {
    var m := SQRT3 * ts / UDC;
    var v2, v3 := SQRT3_2 * v.alpha - HALF * v.beta, -SQRT3_2 * v.alpha - HALF * v.beta;
    TimesTimes(v.beta, k, m);
    TimesTimes(v2, k, m);
    TimesTimes(v3, k, m);
    assert v2 * k == SQRT3_2 * (v.alpha * k) - HALF * (v.beta * k);
    assert v3 * k == -SQRT3_2 * (v.alpha * k) - HALF * (v.beta * k);
  }

  lemma ScaleNegate(x: Axes)
    ensures Scale(-1.0, x) == Negate(x)
  {
  }

  lemma ScaledZero(v: Vector, k: real)
    requires !v.Zero() && k != 0.0
    ensures !Vector(v.alpha * k, v.beta * k).Zero()
  {
  }

  /** Negating the input vector maps every duty T to ts - T. */
  lemma MirrorInput(ts: real, d: Duties, v: Vector)
    requires ts > 0.0 && !v.Zero()
    ensures var e := Next(ts, d, v); Next(ts, d, Vector(-v.alpha, -v.beta)) == Duties(ts - e.a, ts - e.b, ts - e.c)
  {
    hide Modulate, Project, Scale, Negate;
    var x := Project(ts, v.alpha, v.beta);
    ProjectScale(ts, v, -1.0);
    ScaleNegate(x);
    ProjectBalanced(ts, v.alpha, v.beta);
    Mirror(ts, x);
  }

  /** Once over-modulated, lengthening the input vector leaves every duty as it is. */
  lemma SaturatesInput(ts: real, d: Duties, v: Vector, k: real)
    requires ts > 0.0 && !v.Zero() && k >= 1.0 && Peak(Project(ts, v.alpha, v.beta)) >= ts
    ensures Next(ts, d, Vector(v.alpha * k, v.beta * k)) == Next(ts, d, v)
  {
    hide Modulate, Project, Scale, Peak;
    ScaledZero(v, k);
    ProjectScale(ts, v, k);
    Saturates(ts, Project(ts, v.alpha, v.beta), k);
  }

  /** The active times and the null time at both ends make up the period. */
  lemma DwellsFillPeriod(ts: real, x: Axes)
    requires ts > 0.0 && Balanced(x)
    ensures var d := Modulate(ts, x);
      var w := Dwells(d);
      w.t1 + w.t2 + w.t3 + w.t4 + w.t5 + w.t6 + 2.0 * Null(d) == ts
  {
    var d := Modulate(ts, x);
    ModulateSolves(ts, x, d);
    hide Modulate, Centre, Gain, Scale;
    DwellsSpan(d);
  }

  lemma DwellsSpan(d: Duties)
    ensures var w := Dwells(d);
      w.t1 + w.t2 + w.t3 + w.t4 + w.t5 + w.t6 == Max(d.a, Max(d.b, d.c)) - Min(d.a, Min(d.b, d.c))
  {
  }

  // The linear range

  lemma Positive(a: real, b: real)
    requires a > 0.0 && b > 0.0
    ensures a * b > 0.0
  {
  }

  lemma SquareBound(v: real, r: real)
    requires r >= 0.0 && v * v <= r * r
    ensures Abs(v) <= r
  {
    if v > r {
      Positive(v - r, v + r);
      assert (v - r) * (v + r) == v * v - r * r;
    } else if v < -r {
      Positive(-v - r, r - v);
      assert (-v - r) * (r - v) == v * v - r * r;
    }
  }

  /** Cauchy-Schwarz for one axis of length at most one. */
  lemma AxisBound(p: real, q: real, a: real, b: real, r: real)
    requires r >= 0.0 && a * a + b * b <= r * r && p * p + q * q <= 1.0
    ensures Abs(p * a + q * b) <= r
  {
    var v, w, n, m := p * a + q * b, p * b - q * a, p * p + q * q, a * a + b * b;
    assert v * v + w * w == n * m by { Lagrange(p, q, a, b); }
    assert w * w >= 0.0;
    assert n * m <= m;
    SquareBound(v, r);
  }

  lemma Lagrange(p: real, q: real, a: real, b: real)
    ensures (p * a + q * b) * (p * a + q * b) + (p * b - q * a) * (p * b - q * a) == (p * p + q * q) * (a * a + b * b)
  {
  }

  lemma AxisLength(v: real, ts: real)
    requires ts > 0.0 && Abs(v) <= UDC / SQRT3
    ensures Abs(Times(v, SQRT3 * ts / UDC)) <= ts
  {
  }

  lemma PeakWithin(x: Axes, ts: real)
    requires Abs(x.u1) <= ts && Abs(x.u2) <= ts && Abs(x.u3) <= ts
    ensures Peak(x) <= ts
  {
  }

  /** No vector as long as the inscribed circle of the hexagon is rescaled. */
  lemma LinearRange(ts: real, uAlpha: real, uBeta: real)
    requires ts > 0.0
    requires uAlpha * uAlpha + uBeta * uBeta <= (UDC / SQRT3) * (UDC / SQRT3)
    ensures Peak(Project(ts, uAlpha, uBeta)) <= ts && Gain(ts, Project(ts, uAlpha, uBeta)) == 1.0
  {
    hide Abs, Peak, Times;
    AxisBound(0.0, 1.0, uAlpha, uBeta, UDC / SQRT3);
    AxisBound(SQRT3_2, -HALF, uAlpha, uBeta, UDC / SQRT3);
    AxisBound(-SQRT3_2, -HALF, uAlpha, uBeta, UDC / SQRT3);
    AxisLength(uBeta, ts);
    AxisLength(SQRT3_2 * uAlpha - HALF * uBeta, ts);
    AxisLength(-SQRT3_2 * uAlpha - HALF * uBeta, ts);
    PeakWithin(Project(ts, uAlpha, uBeta), ts);
  }

  // Runs of calls

  function Run(ts: real, d: Duties, vs: seq<Vector>): Duties
    requires ts > 0.0
  {
    if vs == [] then d else Next(ts, Run(ts, d, vs[..|vs| - 1]), vs[|vs| - 1])
  }

  lemma NextInPeriod(ts: real, d: Duties, v: Vector)
    requires ts > 0.0 && InPeriod(ts, d)
    ensures InPeriod(ts, Next(ts, d, v))
  {
    hide InPeriod, Modulate, Project;
    ProjectBalanced(ts, v.alpha, v.beta);
    FitsPeriod(ts, Project(ts, v.alpha, v.beta));
  }

  /** No run of calls, zero inputs included, leaves the period. */
  lemma {:induction false} RunInPeriod(ts: real, d: Duties, vs: seq<Vector>)
    requires ts > 0.0 && InPeriod(ts, d)
    ensures InPeriod(ts, Run(ts, d, vs))
  {
    hide InPeriod, Next;
    if vs != [] {
      RunInPeriod(ts, d, vs[..|vs| - 1]);
      NextInPeriod(ts, Run(ts, d, vs[..|vs| - 1]), vs[|vs| - 1]);
    }
  }

  /** History reaches back to the last nonzero input and no further. */
  lemma {:induction false} RunHolds(ts: real, d: Duties, vs: seq<Vector>, k: nat)
    requires ts > 0.0 && k < |vs| && !vs[k].Zero() && (forall i :: k < i < |vs| ==> vs[i].Zero())
    ensures Run(ts, d, vs) == Modulate(ts, Project(ts, vs[k].alpha, vs[k].beta))
  {
    hide Modulate, Project;
    if k < |vs| - 1 {
      RunHolds(ts, d, vs[..|vs| - 1], k);
    }
  }

  /** The code meets the sector-free formula on every input but the zero vector with uncentred old duties. */
  lemma ZeroVector(ts: real, d: Duties, v: Vector)
    requires ts > 0.0
    ensures Modulate(ts, Axes(0.0, 0.0, 0.0)) == Duties(ts / 2.0, ts / 2.0, ts / 2.0)
    ensures (Next(ts, d, v) == Modulate(ts, Project(ts, v.alpha, v.beta))) <==>
      (!v.Zero() || d == Duties(ts / 2.0, ts / 2.0, ts / 2.0))
  {
  }

  /** From the initial duties, which are not centred, the first call may leave all three outputs low. */
  lemma ZeroVectorFails()
    ensures Next(1.0, Duties(0.0, 0.0, 0.0), Vector(0.0, 0.0)) != Modulate(1.0, Project(1.0, 0.0, 0.0))
  {
    ZeroVector(1.0, Duties(0.0, 0.0, 0.0), Vector(0.0, 0.0));
  }
}
