/**
 * FOC.c: the angle reduction, the Clarke and Park transforms and their
 * inverses, and the timer outputs.
 */
module Foc {
  import opened FastTrig
  import opened Svpwm
  import opened SvpwmLaws

  const TWO_PI := 6.28318
  const POLE_PAIRS := 11.0
  const EPSILON := 0.000001
  const VOLTAGE_HIGH := 12.0
  const ALL_DUTY := 5000
  const ADC_REF_VOLTAGE := 3.3
  const GAIN := 50.0
  const PERIOD := 4999

  function Limit(v: real, low: real, high: real): real {
    if v >= high then high else if v <= low then low else v
  }

  /** fmod: the remainder of a division truncated toward zero. */
  function Fmod(x: real, m: real): real
    requires m > 0.0
  {
    x - Trunc(x / m) as real * m
  }

  function AngleLimit(angle: real): real {
    var a := Fmod(angle, TWO_PI);
    if a >= 0.0 then a else a + TWO_PI
  }

  /** The angle of n full turns. */
  function Round(n: int): real { n as real * TWO_PI }

  /** `r` is the representative of the angle `x` in [0, TWO_PI). */
  ghost predicate Residue(x: real, r: real) {
    0.0 <= r < TWO_PI && exists k: int :: x - r == Round(k)
  }

  /** The snap of an angle just below a full turn to zero. */
  function Snap(angle: real): real {
    if Abs(angle - TWO_PI) < EPSILON then 0.0 else angle
  }

  function CorrectedAngle(mechanical: real, zero: real): real {
    Snap(AngleLimit(AngleLimit(mechanical * POLE_PAIRS) - zero))
  }

  lemma {:induction false} AngleLimitIsResidue(x: real)
    ensures Residue(x, AngleLimit(x))
  {
    TruncBounds(x / TWO_PI);
    var q := Trunc(x / TWO_PI);
    var a := Fmod(x, TWO_PI);
    assert x - a == Round(q);
    assert (q - 1) as real == q as real - 1.0;
    assert x - (a + TWO_PI) == Round(q - 1);
  }

  lemma NoTurnBetween(n: int)
    requires -TWO_PI < Round(n) < TWO_PI
    ensures n == 0
  {
  }

  lemma ResidueUnique(x: real, r: real, s: real)
    requires Residue(x, r) && Residue(x, s)
    ensures r == s
  {
    var k :| x - r == Round(k);
    var j :| x - s == Round(j);
    assert s - r == Round(k - j);
    NoTurnBetween(k - j);
  }

  lemma ResidueShift(x: real, r: real, z: real, s: real)
    requires Residue(x, r) && Residue(r - z, s)
    ensures Residue(x - z, s)
  {
    var k :| x - r == Round(k);
    var j :| r - z - s == Round(j);
    assert x - z - s == Round(k + j);
  }

  /** The two nested reductions are one: the corrected angle is the residue of 11 m - zero, up to the snap. */
  lemma CorrectedIsResidue(mechanical: real, zero: real)
    ensures var x := mechanical * POLE_PAIRS - zero;
      Residue(x, AngleLimit(x)) && CorrectedAngle(mechanical, zero) == Snap(AngleLimit(x))
  {
    var x := mechanical * POLE_PAIRS;
    var r := AngleLimit(x);
    var s := AngleLimit(r - zero);
    AngleLimitIsResidue(x);
    AngleLimitIsResidue(r - zero);
    ResidueShift(x, r, zero, s);
    AngleLimitIsResidue(x - zero);
    hide AngleLimit, Snap;
    ResidueUnique(x - zero, s, AngleLimit(x - zero));
  }

  /** An angle less k full turns. */
  function Turned(x: real, k: int): real { x - k as real * 6.28318 }

  /**
   * In numbers: the corrected angle is eleven times the mechanical one less
   * the zero, up to whole turns and a millionth; and exactly so, in [0, 2 PI),
   * unless it is the zero that stands for the last millionth of a turn.
   */
  lemma CorrectedInNumbers(mechanical: real, zero: real)
    ensures var x, r := 11.0 * mechanical - zero, CorrectedAngle(mechanical, zero);
      && 0.0 <= r < 6.28318
      && exists k: int :: -0.000001 < Turned(x, k) - r < 0.000001 && (r == 0.0 || Turned(x, k) == r)
  {
    var x := mechanical * POLE_PAIRS - zero;
    CorrectedIsResidue(mechanical, zero);
    var s := AngleLimit(x);
    var r := CorrectedAngle(mechanical, zero);
    hide AngleLimit, CorrectedAngle;
    var k :| x - s == Round(k);
    var j := if r == s then k else k + 1;
    assert Round(k + 1) == Round(k) + TWO_PI;
    assert -0.000001 < Turned(x, j) - r < 0.000001 && (r == 0.0 || Turned(x, j) == r);
  }

  /** Whole electrical turns of the rotor do not show. */
  lemma ElectricalTurns(mechanical: real, zero: real, n: int)
    ensures CorrectedAngle(mechanical + Round(n) / POLE_PAIRS, zero) == CorrectedAngle(mechanical, zero)
  {
    var x, y := mechanical * POLE_PAIRS - zero, (mechanical + Round(n) / POLE_PAIRS) * POLE_PAIRS - zero;
    assert y == x + Round(n);
    CorrectedIsResidue(mechanical, zero);
    CorrectedIsResidue(mechanical + Round(n) / POLE_PAIRS, zero);
    AngleLimitIsResidue(x);
    AngleLimitIsResidue(y);
    hide AngleLimit, Snap, CorrectedAngle;
    TurnedResidue(x, AngleLimit(x), n);
    ResidueUnique(y, AngleLimit(x), AngleLimit(y));
  }

  lemma TurnedResidue(x: real, r: real, n: int)
    requires Residue(x, r)
    ensures Residue(x + Round(n), r)
  {
    var k :| x - r == Round(k);
    assert x + Round(n) - r == Round(k + n);
  }

  // The transforms

  datatype Phases = Phases(a: real, b: real, c: real)

  /** A vector in the rotor's frame. */
  datatype Rotor = Rotor(d: real, q: real)

  function Clarke(a: real, b: real): Vector { Vector(a, (a + 2.0 * b) / SQRT3) }

  function InvClarke(v: Vector): Phases {
    Phases(v.alpha + UDC / 2.0,
           (SQRT3 * v.beta - v.alpha) / 2.0 + UDC / 2.0,
           (-SQRT3 * v.beta - v.alpha) / 2.0 + UDC / 2.0)
  }

  function Park(v: Vector, s: real, c: real): Rotor { Rotor(v.alpha * c + v.beta * s, -v.alpha * s + v.beta * c) }

  function InvPark(r: Rotor, s: real, c: real): Vector { Vector(-r.q * s + r.d * c, r.q * c + r.d * s) }

  /** The d axis lies on alpha at angle zero, and on beta a quarter turn later. */
  lemma InvParkAxes(r: Rotor)
    ensures InvPark(r, 0.0, 1.0) == Vector(r.d, r.q) && InvPark(r, 1.0, 0.0) == Vector(-r.q, r.d)
  {
  }

  /** One volt along each axis of the stator, on the three phases. */
  lemma InvClarkeAxes()
    ensures InvClarke(Vector(0.0, 0.0)) == Phases(6.0, 6.0, 6.0)
    ensures InvClarke(Vector(1.0, 0.0)) == Phases(7.0, 5.5, 5.5)
    ensures InvClarke(Vector(0.0, 1.0)) == Phases(6.0, 6.866, 5.134)
  {
  }

  /** Inverse Park then Park is multiplication by s^2 + c^2, whatever s and c are. */
  lemma ParkRoundTrip(r: Rotor, s: real, c: real)
    ensures Park(InvPark(r, s, c), s, c) == Rotor((s * s + c * c) * r.d, (s * s + c * c) * r.q)
  {
  }

  /** So is Park then inverse Park. */
  lemma InvParkRoundTrip(v: Vector, s: real, c: real)
    ensures InvPark(Park(v, s, c), s, c) == Vector((s * s + c * c) * v.alpha, (s * s + c * c) * v.beta)
  {
  }

  lemma InvParkLength(r: Rotor, s: real, c: real)
    ensures var v := InvPark(r, s, c);
      v.alpha * v.alpha + v.beta * v.beta == (r.d * r.d + r.q * r.q) * (s * s + c * c)
  {
  }

  /** The inverse Clarke transform of the (negated) currents is the bus midpoint less each phase current. */
  lemma ClarkeRoundTrip(ia: real, ib: real, ic: real)
    requires ia + ib + ic == 0.0
    ensures InvClarke(Clarke(-ia, -ib)) == Phases(UDC / 2.0 - ia, UDC / 2.0 - ib, UDC / 2.0 - ic)
  {
  }

  /** Phase voltages always average to the bus midpoint, and the transform loses nothing. */
  lemma InvClarkeInjective(v: Vector, w: Vector)
    ensures var p := InvClarke(v); p.a + p.b + p.c == 3.0 * UDC / 2.0
    ensures InvClarke(v) == InvClarke(w) ==> v == w
  {
  }

  /**
   * In the linear range the modulator's line-to-line duties are the inverse
   * Clarke voltages over the bus: exactly between phases B and C, and up to
   * the truncation of the square root of three on the other two lines.
   */
  lemma LineToLine(ts: real, v: Vector)
    requires ts > 0.0 && Peak(Project(ts, v.alpha, v.beta)) <= ts
    ensures var d, p, k := Modulate(ts, Project(ts, v.alpha, v.beta)), InvClarke(v), ts / UDC;
      d.b - d.c == (p.b - p.c) * k
      && d.a - d.b == (p.a - p.b) * k - 0.000088 * v.alpha * k
      && d.c - d.a == (p.c - p.a) * k + 0.000088 * v.alpha * k
  {
    var x := Project(ts, v.alpha, v.beta);
    ProjectBalanced(ts, v.alpha, v.beta);
    ModulateSolves(ts, x, Modulate(ts, x));
    NoGain(ts, x);
    hide Modulate, Gain, Peak, Scale, Max, Min;
    LineVoltages(ts, v);
  }

  lemma LineVoltages(ts: real, v: Vector)
    ensures var x, p, k := Project(ts, v.alpha, v.beta), InvClarke(v), ts / UDC;
      x.u1 == (p.b - p.c) * k
      && x.u2 == (p.a - p.b) * k - 0.000088 * v.alpha * k
      && x.u3 == (p.c - p.a) * k + 0.000088 * v.alpha * k
  {
  }

  // Timer outputs

  datatype Channel = CH1 | CH2 | CH3 | CH4

  class Timer {
    var c1dt: int
    var c2dt: int
    var c3dt: int
    var c4dt: int

    constructor ()
      ensures c1dt == 0 && c2dt == 0 && c3dt == 0 && c4dt == 0
    {
      c1dt, c2dt, c3dt, c4dt := 0, 0, 0, 0;
    }

    function Compare(ch: Channel): int
      reads this
    {
      match ch
      case CH1 => c1dt
      case CH2 => c2dt
      case CH3 => c3dt
      case CH4 => c4dt
    }

    method ChannelValueSet(ch: Channel, value: int)
      modifies this
      ensures c1dt == (if ch.CH1? then value else old(c1dt)) && c2dt == if ch.CH2? then value else old(c2dt)
      ensures c3dt == (if ch.CH3? then value else old(c3dt)) && c4dt == if ch.CH4? then value else old(c4dt)
    {
      match ch
      case CH1 => c1dt := value;
      case CH2 => c2dt := value;
      case CH3 => c3dt := value;
      case CH4 => c4dt := value;
    }
  }

  /** Motor 1 is wired to TMR4, motor 2 to TMR2. */
  datatype Motor = M1 | M2 {
    function A(): Channel { if M1? then CH3 else CH4 }
    function B(): Channel { CH2 }
    function C(): Channel { CH1 }
    function Trigger(): Channel { if M1? then CH4 else CH3 }
  }

  /** The compare value of a duty: at most nine tenths of the period. */
  function Counts(duty: real): int { Trunc(duty * ALL_DUTY as real * 0.9) }

  lemma CountsRange(duty: real)
    requires 0.0 <= duty <= 1.0
    ensures 0 <= Counts(duty) <= Counts(1.0) == 4500 < 4999 == PERIOD
  {
  }

  /** 4500 counts for a full duty, truncated. */
  lemma CountsLinear(duty: real)
    requires 0.0 <= duty <= 1.0
    ensures 4500.0 * duty - 1.0 < Counts(duty) as real <= 4500.0 * duty
  {
  }

  lemma CountsMonotone(x: real, y: real)
    requires 0.0 <= x <= y
    ensures Counts(x) <= Counts(y)
  {
  }

  method AdcTrigger(motor: Motor, tmr: Timer, timePwm: nat)
    modifies tmr
    ensures tmr.c1dt == old(tmr.c1dt) && tmr.c2dt == old(tmr.c2dt)
    ensures motor.M1? ==> tmr.c4dt == Trunc(timePwm as real * 0.9) && tmr.c3dt == old(tmr.c3dt)
    ensures motor.M2? ==> tmr.c3dt == Trunc(timePwm as real * 0.9) && tmr.c4dt == old(tmr.c4dt)
  {
    tmr.ChannelValueSet(motor.Trigger(), Trunc(timePwm as real * 0.9));
  }

  /** setpwm1_channel and setpwm2_channel. */
  method SetPwmChannel(motor: Motor, tmr: Timer, a: real, b: real, c: real)
    modifies tmr
    ensures tmr.c1dt == Counts(c) && tmr.c2dt == Counts(b)
    ensures motor.M1? ==> tmr.c3dt == Counts(a) && tmr.c4dt == old(tmr.c4dt)
    ensures motor.M2? ==> tmr.c4dt == Counts(a) && tmr.c3dt == old(tmr.c3dt)
  {
    tmr.ChannelValueSet(motor.A(), Counts(a));
    tmr.ChannelValueSet(motor.B(), Counts(b));
    tmr.ChannelValueSet(motor.C(), Counts(c));
  }
}
