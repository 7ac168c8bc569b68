/**
 * Space-vector PWM. The modulator picks one of six sectors and computes the
 * three phase duties case by case; here it is shown to compute one sector-free
 * function of its input, and that function's laws are proved.
 */
module Svpwm {
  const UDC := 12.0
  const SQRT3 := 1.732
  const SQRT3_2 := 0.866
  const HALF := 0.5

  /** The input projected on the three line-to-line axes, in units of time. */
  datatype Axes = Axes(u1: real, u2: real, u3: real)

  datatype Duties = Duties(a: real, b: real, c: real)

  function Max(x: real, y: real): real { if x >= y then x else y }

  function Min(x: real, y: real): real { if x <= y then x else y }

  function Abs(x: real): real { if x >= 0.0 then x else -x }

  function Project(ts: real, uAlpha: real, uBeta: real): Axes {
    var k := SQRT3 * ts / UDC;
    Axes(Times(uBeta, k), Times(SQRT3_2 * uAlpha - HALF * uBeta, k), Times(-SQRT3_2 * uAlpha - HALF * uBeta, k))
  }

  function Times(u: real, k: real): real { u * k }

  function Scale(k: real, x: Axes): Axes { Axes(Times(x.u1, k), Times(x.u2, k), Times(x.u3, k)) }

  /** The longest axis: the share of the period the active vectors ask for. */
  function Peak(x: Axes): real { Max(Abs(x.u1), Max(Abs(x.u2), Abs(x.u3))) }

  /** One bus voltage along each axis of the stator, on the three line-to-line axes. */
  lemma ProjectAxes()
    ensures Project(1.0, 12.0, 0.0) == Axes(0.0, 1.499912, -1.499912)
    ensures Project(1.0, 0.0, 12.0) == Axes(1.732, -0.866, -0.866)
  {
  }

  /** Over-modulation: the input is shrunk until it fits the period. */
  function Gain(ts: real, x: Axes): real
    requires ts > 0.0
  {
    if Peak(x) > ts then ts / Peak(x) else 1.0
  }

  /** Line-to-line duties are the axes, and the pulses are centred in the period. */
  function Centre(ts: real, y: Axes): Duties {
    var a := (ts - Max(0.0, Max(-y.u2, y.u3)) - Min(0.0, Min(-y.u2, y.u3))) / 2.0;
    Duties(a, a - y.u2, a + y.u3)
  }

  /** The sector-free modulator. */
  function Modulate(ts: real, x: Axes): Duties
    requires ts > 0.0
  {
    Centre(ts, Scale(Gain(ts, x), x))
  }

  datatype Vector = Vector(alpha: real, beta: real) {
    predicate Zero() { alpha == 0.0 && beta == 0.0 }
  }

  /** The duties one call leaves: the zero vector selects no sector and keeps the old ones. */
  function Next(ts: real, d: Duties, v: Vector): Duties
    requires ts > 0.0
  {
    if v.Zero() then d else Modulate(ts, Project(ts, v.alpha, v.beta))
  }

  /** What the modulator is for: the line-to-line duties, and equal null time at both ends. */
  ghost predicate Solves(ts: real, y: Axes, d: Duties) {
    && d.a - d.b == y.u2 && d.b - d.c == y.u1 && d.c - d.a == y.u3
    && Max(d.a, Max(d.b, d.c)) + Min(d.a, Min(d.b, d.c)) == ts
  }

  /** The times stored for the six active vectors; vector v switches phases a, b, c by the bits of v, a highest. */
  datatype Actives = Actives(t1: real, t2: real, t3: real, t4: real, t5: real, t6: real)

  /** How long each active vector is applied, given how long each phase is high around the middle of the period. */
  function Dwells(d: Duties): Actives {
    Actives(
      Max(0.0, d.c - Max(d.a, d.b)), Max(0.0, d.b - Max(d.a, d.c)), Max(0.0, Min(d.b, d.c) - d.a),
      Max(0.0, d.a - Max(d.b, d.c)), Max(0.0, Min(d.a, d.c) - d.b), Max(0.0, Min(d.a, d.b) - d.c))
  }

  /** The time all three phases are high. */
  function Null(d: Duties): real { Min(d.a, Min(d.b, d.c)) }

  /** The two vectors next to the input, whose times a sector stores. */
  predicate Uses(sector: nat, vector: nat) {
    match sector
    case 1 => vector == 2 || vector == 6
    case 2 => vector == 4 || vector == 5
    case 3 => vector == 4 || vector == 6
    case 4 => vector == 1 || vector == 3
    case 5 => vector == 2 || vector == 3
    case 6 => vector == 1 || vector == 5
    case _ => false
  }

  function Fresh(sector: nat, before: Actives, d: Actives): Actives {
    Actives(
      if Uses(sector, 1) then d.t1 else before.t1, if Uses(sector, 2) then d.t2 else before.t2,
      if Uses(sector, 3) then d.t3 else before.t3, if Uses(sector, 4) then d.t4 else before.t4,
      if Uses(sector, 5) then d.t5 else before.t5, if Uses(sector, 6) then d.t6 else before.t6)
  }

  /** The stored factor changes only when the active times exceed the period. */
  ghost predicate Rescaled(ts: real, sum: real, before: real, after: real)
    requires ts > 0.0
  {
    after == if sum > ts then ts / sum else before
  }

  ghost predicate Balanced(x: Axes) { x.u1 + x.u2 + x.u3 == 0.0 }

  class SvpwmState {
    var Ts: real
    var sector: nat
    var Ta: real
    var Tb: real
    var Tc: real
    var u1: real
    var u2: real
    var u3: real
    var t1: real
    var t2: real
    var t3: real
    var t4: real
    var t5: real
    var t6: real
    var t7: real
    var sum: real
    var kSvpwm: real
    var K: real
    var times: int

    /** SVpwm_1 and SVpwm_2. */
    constructor ()
      ensures Ts == 1.0 && sector == 0 && times == 0 && Out() == Duties(0.0, 0.0, 0.0) && In() == Axes(0.0, 0.0, 0.0)
      ensures Active() == Actives(0.0, 0.0, 0.0, 0.0, 0.0, 0.0) && t7 == sum == kSvpwm == K == 0.0
    {
      Ts, sector, times := 1.0, 0, 0;
      Ta, Tb, Tc := 0.0, 0.0, 0.0;
      u1, u2, u3 := 0.0, 0.0, 0.0;
      t1, t2, t3, t4, t5, t6, t7 := 0.0, 0.0, 0.0, 0.0, 0.0, 0.0, 0.0;
      sum, kSvpwm, K := 0.0, 0.0, 0.0;
    }

    ghost function Out(): Duties
      reads this
    {
      Duties(Ta, Tb, Tc)
    }

    ghost function Active(): Actives
      reads this
    {
      Actives(t1, t2, t3, t4, t5, t6)
    }

    ghost function In(): Axes
      reads this
    {
      Axes(u1, u2, u3)
    }

    /** Two active vectors of one sector, rescaled when they exceed the period, and the null time left over. */
    method Fit(x: real, y: real, ghost u: Axes) returns (x': real, y': real)
      requires Ts > 0.0 && x + y == Peak(u)
      modifies this`sum, this`kSvpwm, this`t7
      ensures sum == Peak(u) && Rescaled(Ts, sum, old(kSvpwm), kSvpwm)
      ensures x' == Times(x, Gain(Ts, u)) && y' == Times(y, Gain(Ts, u))
      ensures t7 == (Ts - x' - y') / 2.0
    {
      hide Peak;
      x', y' := x, y;
      sum := x + y;
      if sum > Ts {
        kSvpwm := Ts / sum;
        x', y' := x' * kSvpwm, y' * kSvpwm;
      }
      t7 := (Ts - x' - y') / 2.0;
    }

    method Put(a: real, b: real, c: real)
      modifies this`Ta, this`Tb, this`Tc
      ensures Out() == Duties(a, b, c)
    {
      Ta, Tb, Tc := a, b, c;
    }

    /** The three projections and the number of the sector their signs select. */
    method SelectSector(uAlpha: real, uBeta: real)
      requires Ts > 0.0
      modifies this`K, this`u1, this`u2, this`u3, this`sector
      ensures K == SQRT3 * Ts / UDC && In() == Project(Ts, uAlpha, uBeta)
      ensures Selected()
    {
      K := SQRT3 * Ts / UDC;
      u1 := uBeta * K;
      u2 := (SQRT3_2 * uAlpha - HALF * uBeta) * K;
      u3 := (-SQRT3_2 * uAlpha - HALF * uBeta) * K;
      sector := (if u1 > 0.0 then 1 else 0) + (if u2 > 0.0 then 2 else 0) + (if u3 > 0.0 then 4 else 0);
    }

    ghost predicate Selected()
      reads this
    {
      sector == (if u1 > 0.0 then 1 else 0) + (if u2 > 0.0 then 2 else 0) + (if u3 > 0.0 then 4 else 0)
    }

    /** What a sector leaves: the sector-free duties, and the times its two vectors are applied for. */
    ghost predicate Switched(before: Actives, gain: real)
      requires Ts > 0.0
      reads this
    {
      && Out() == Centre(Ts, Scale(Gain(Ts, In()), In())) && sum == Peak(In()) && Rescaled(Ts, sum, gain, kSvpwm)
      && Active() == Fresh(sector, before, Dwells(Out())) && t7 == Null(Out())
    }

    method Sector1()
      requires Ts > 0.0 && sector == 3 && Selected() && Balanced(In())
      modifies this`t4, this`t6, this`t7, this`Ta, this`Tb, this`Tc, this`sum, this`kSvpwm
      ensures Switched(old(Active()), old(kSvpwm))
    {
      hide Peak, Gain, Times, Rescaled, Fresh, Dwells, Null;
      PeakBySector(In());
      GainKeeps(Ts, In());
      t4, t6 := Fit(u2, u1, In());
      Put(t4 + t6 + t7, t6 + t7, t7);
      Ladder(sector, old(Active()), t4, t6, t7);
    }

    method Sector2()
      requires Ts > 0.0 && sector == 1 && Selected() && Balanced(In())
      modifies this`t2, this`t6, this`t7, this`Ta, this`Tb, this`Tc, this`sum, this`kSvpwm
      ensures Switched(old(Active()), old(kSvpwm))
    {
      hide Peak, Gain, Times, Rescaled, Fresh, Dwells, Null;
      PeakBySector(In());
      GainKeeps(Ts, In());
      t2, t6 := Fit(-u2, -u3, In());
      Put(t6 + t7, t2 + t6 + t7, t7);
      Ladder(sector, old(Active()), t2, t6, t7);
    }

    method Sector3()
      requires Ts > 0.0 && sector == 5 && Selected() && Balanced(In())
      modifies this`t2, this`t3, this`t7, this`Ta, this`Tb, this`Tc, this`sum, this`kSvpwm
      ensures Switched(old(Active()), old(kSvpwm))
    {
      hide Peak, Gain, Times, Rescaled, Fresh, Dwells, Null;
      PeakBySector(In());
      GainKeeps(Ts, In());
      t2, t3 := Fit(u1, u3, In());
      Put(t7, t2 + t3 + t7, t3 + t7);
      Ladder(sector, old(Active()), t2, t3, t7);
    }

    method Sector4()
      requires Ts > 0.0 && sector == 4 && Selected() && Balanced(In())
      modifies this`t1, this`t3, this`t7, this`Ta, this`Tb, this`Tc, this`sum, this`kSvpwm
      ensures Switched(old(Active()), old(kSvpwm))
    {
      hide Peak, Gain, Times, Rescaled, Fresh, Dwells, Null;
      PeakBySector(In());
      GainKeeps(Ts, In());
      t1, t3 := Fit(-u1, -u2, In());
      Put(t7, t3 + t7, t1 + t3 + t7);
      Ladder(sector, old(Active()), t1, t3, t7);
    }

    method Sector5()
      requires Ts > 0.0 && sector == 6 && Selected() && Balanced(In())
      modifies this`t1, this`t5, this`t7, this`Ta, this`Tb, this`Tc, this`sum, this`kSvpwm
      ensures Switched(old(Active()), old(kSvpwm))
    {
      hide Peak, Gain, Times, Rescaled, Fresh, Dwells, Null;
      PeakBySector(In());
      GainKeeps(Ts, In());
      t1, t5 := Fit(u3, u2, In());
      Put(t5 + t7, t7, t1 + t5 + t7);
      Ladder(sector, old(Active()), t1, t5, t7);
    }

    method Sector6()
      requires Ts > 0.0 && sector == 2 && Selected() && Balanced(In())
      modifies this`t4, this`t5, this`t7, this`Ta, this`Tb, this`Tc, this`sum, this`kSvpwm
      ensures Switched(old(Active()), old(kSvpwm))
    {
      hide Peak, Gain, Times, Rescaled, Fresh, Dwells, Null;
      PeakBySector(In());
      GainKeeps(Ts, In());
      t4, t5 := Fit(-u3, -u1, In());
      Put(t4 + t5 + t7, t7, t5 + t7);
      Ladder(sector, old(Active()), t4, t5, t7);
    }

    /** The active times and duties of the selected sector. */
    method Switch()
      requires Ts > 0.0 && Selected() && Balanced(In())
      modifies this`t1, this`t2, this`t3, this`t4, this`t5, this`t6, this`t7
      modifies this`Ta, this`Tb, this`Tc, this`sum, this`kSvpwm
      ensures if sector != 0 then Switched(old(Active()), old(kSvpwm))
              else Active() == old(Active()) && Out() == old(Out())
                   && t7 == old(t7) && sum == old(sum) && kSvpwm == old(kSvpwm)
    {
      hide Switched;
      match sector {
        case 3 => Sector1();
        case 1 => Sector2();
        case 5 => Sector3();
        case 4 => Sector4();
        case 6 => Sector5();
        case 2 => Sector6();
        case _ =>
      }
    }

    method SVpwm(uAlpha: real, uBeta: real)
      requires Ts > 0.0
      modifies this
      ensures Ts == old(Ts) && times == old(times) && K == SQRT3 * Ts / UDC
      ensures In() == Project(Ts, uAlpha, uBeta) && Selected()
      ensures sector == 0 <==> uAlpha == 0.0 && uBeta == 0.0
      ensures Out() == Next(Ts, old(Out()), Vector(uAlpha, uBeta))
      ensures if sector != 0 then Switched(old(Active()), old(kSvpwm))
              else Active() == old(Active()) && t7 == old(t7) && sum == old(sum) && kSvpwm == old(kSvpwm)
    {
      hide Project, Peak, Gain, Centre, Scale, Rescaled, Fresh, Dwells, Null;
      SelectSector(uAlpha, uBeta);
      ProjectBalanced(Ts, uAlpha, uBeta);
      Switch();
    }
  }

  /** The duties a sector builds from its two active times and the null time. */
  function Steps(sector: nat, p: real, q: real, z: real): Duties {
    match sector
    case 1 => Duties(q + z, p + q + z, z)
    case 2 => Duties(p + q + z, z, q + z)
    case 3 => Duties(p + q + z, q + z, z)
    case 4 => Duties(z, q + z, p + q + z)
    case 5 => Duties(z, p + q + z, q + z)
    case _ => Duties(q + z, z, p + q + z)
  }

  /** The same two times where the sector stores them. */
  function Rungs(sector: nat, before: Actives, p: real, q: real): Actives {
    match sector
    case 1 => before.(t2 := p, t6 := q)
    case 2 => before.(t4 := p, t5 := q)
    case 3 => before.(t4 := p, t6 := q)
    case 4 => before.(t1 := p, t3 := q)
    case 5 => before.(t2 := p, t3 := q)
    case _ => before.(t1 := p, t5 := q)
  }

  /** Those two times are the only ones any active vector is applied for. */
  lemma Ladder(sector: nat, before: Actives, p: real, q: real, z: real)
    requires 1 <= sector <= 6 && p >= 0.0 && q >= 0.0
    ensures Fresh(sector, before, Dwells(Steps(sector, p, q, z))) == Rungs(sector, before, p, q)
    ensures Dwells(Steps(sector, p, q, z)) == Rungs(sector, Actives(0.0, 0.0, 0.0, 0.0, 0.0, 0.0), p, q)
    ensures Null(Steps(sector, p, q, z)) == z
  {
  }

  /** The two axes a sector uses add up to the longest one. */
  lemma PeakBySector(x: Axes)
    requires Balanced(x)
    ensures x.u1 > 0.0 >= x.u3 && x.u2 > 0.0 ==> Peak(x) == x.u2 + x.u1
    ensures x.u1 > 0.0 >= x.u3 && 0.0 >= x.u2 ==> Peak(x) == -x.u2 - x.u3
    ensures x.u1 > 0.0 >= x.u2 && x.u3 > 0.0 ==> Peak(x) == x.u1 + x.u3
    ensures x.u3 > 0.0 >= x.u1 && 0.0 >= x.u2 ==> Peak(x) == -x.u1 - x.u2
    ensures x.u3 > 0.0 >= x.u1 && x.u2 > 0.0 ==> Peak(x) == x.u3 + x.u2
    ensures x.u2 > 0.0 >= x.u1 && 0.0 >= x.u3 ==> Peak(x) == -x.u3 - x.u1
  {
  }

  lemma GainRange(ts: real, x: Axes)
    requires ts > 0.0
    ensures 0.0 < Gain(ts, x) <= 1.0
    ensures Gain(ts, x) * Peak(x) <= ts
  {
    hide Peak;
  }

  /** Shrinking keeps the signs of the axes and their balance. */
  lemma GainKeeps(ts: real, x: Axes)
    requires ts > 0.0 && Balanced(x)
    ensures Balanced(Scale(Gain(ts, x), x))
    ensures Keeps(Gain(ts, x), x.u1) && Keeps(Gain(ts, x), x.u2) && Keeps(Gain(ts, x), x.u3)
  {
    hide Gain, Times, Keeps;
    GainRange(ts, x);
    ScaleBalanced(Gain(ts, x), x);
    Sign(Gain(ts, x), x.u1);
    Sign(Gain(ts, x), x.u2);
    Sign(Gain(ts, x), x.u3);
  }

  ghost predicate Keeps(k: real, u: real) {
    (Times(u, k) > 0.0 <==> u > 0.0) && Times(-u, k) == -Times(u, k)
  }

  lemma Sign(k: real, u: real)
    requires k > 0.0
    ensures Keeps(k, u)
  {
  }

  lemma ProjectBalanced(ts: real, uAlpha: real, uBeta: real)
    requires ts > 0.0
    ensures Balanced(Project(ts, uAlpha, uBeta))
    ensures var x := Project(ts, uAlpha, uBeta);
            (x.u1 <= 0.0 && x.u2 <= 0.0 && x.u3 <= 0.0) <==> uAlpha == 0.0 && uBeta == 0.0
  {
    var k := SQRT3 * ts / UDC;
    var v2, v3 := SQRT3_2 * uAlpha - HALF * uBeta, -SQRT3_2 * uAlpha - HALF * uBeta;
    assert (uBeta + v2 + v3) * k == uBeta * k + v2 * k + v3 * k;
    Sign(k, uBeta);
    Sign(k, v2);
    Sign(k, v3);
  }

  lemma ScaleBalanced(k: real, x: Axes)
    requires Balanced(x)
    ensures Balanced(Scale(k, x))
  {
  }

  /** The four equations determine the duties: they are those of the sector-free modulator. */
  lemma SolvesUnique(ts: real, y: Axes, d: Duties)
    requires Balanced(y)
    ensures Solves(ts, y, d) <==> d == Centre(ts, y)
  {
  }
}
