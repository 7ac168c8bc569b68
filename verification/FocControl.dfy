/**
 * The motor object of FOC.c: one control pass from encoder and ADC readings
 * through the current controllers to timer compare values.
 */
module FocControl {
  import opened FastTrig
  import opened Filter
  import opened Svpwm
  import opened SvpwmLaws
  import opened Foc
  import opened PiControl

  /** A phase current from an ADC reading; phase A's offset is used for both phases. */
  function Current(ad: nat, offset: nat): real {
    (ad - offset) as real / 4096.0 * ADC_REF_VOLTAGE * GAIN
  }

  /** The measured currents in the rotor's frame: sign reversed, then Clarke and Park. */
  function Measured(adA: nat, adB: nat, offset: nat, angle: real): Rotor {
    Park(Clarke(-Current(adA, offset), -Current(adB, offset)), FastSin(angle), FastCos(angle))
  }

  /** The stator vector of a rotor-frame voltage. */
  function Applied(u: Rotor, angle: real): Vector { InvPark(u, FastSin(angle), FastCos(angle)) }

  /** The three compare values that phase voltages give without space-vector modulation. */
  function DirectDuty(u: real): real { Limit(Limit(u, 0.0, VOLTAGE_HIGH) / UDC, 0.0, 1.0) }

  class FocState {
    const motor: Motor
    var adA: nat
    var adB: nat
    var voltageAOffset: nat
    var voltageBOffset: nat
    var uAlpha: real
    var uBeta: real
    var iAlpha: real
    var iBeta: real
    var ia: real
    var ib: real
    var ic: real
    var ua: real
    var ub: real
    var uc: real
    var uq: real
    var ud: real
    var iq: real
    var id: real
    var mechanicalAngle: real
    var elecAngle: real
    var corrAngle: real
    var zero: real
    var idPID: Pi
    var iqPID: Pi
    var tariq: real
    var tarid: real
    var speed: real
    var speedPID: Pi
    var tarSpeed: real

    constructor (motor: Motor)
      ensures this.motor == motor && zero == 0.0 && voltageAOffset == 0 && voltageBOffset == 0
      ensures idPID == iqPID == speedPID == ZERO && tarid == tariq == tarSpeed == speed == 0.0
    {
      this.motor := motor;
      adA, adB, voltageAOffset, voltageBOffset := 0, 0, 0, 0;
      uAlpha, uBeta, iAlpha, iBeta := 0.0, 0.0, 0.0, 0.0;
      ia, ib, ic, ua, ub, uc := 0.0, 0.0, 0.0, 0.0, 0.0, 0.0;
      uq, ud, iq, id := 0.0, 0.0, 0.0, 0.0;
      mechanicalAngle, elecAngle, corrAngle, zero := 0.0, 0.0, 0.0, 0.0;
      idPID, iqPID, speedPID := ZERO, ZERO, ZERO;
      tarid, tariq, tarSpeed, speed := 0.0, 0.0, 0.0, 0.0;
    }

    method ElectricalAngle(encoder: real)
      modifies this`mechanicalAngle, this`elecAngle
      ensures mechanicalAngle == encoder && elecAngle == AngleLimit(encoder * POLE_PAIRS)
    {
      mechanicalAngle := encoder;
      elecAngle := AngleLimit(mechanicalAngle * POLE_PAIRS);
    }

    method GetCorrectedElectricalAngle(encoder: real)
      modifies this`mechanicalAngle, this`elecAngle, this`corrAngle
      ensures mechanicalAngle == encoder && corrAngle == CorrectedAngle(encoder, zero)
    {
      hide AngleLimit;
      ElectricalAngle(encoder);
      corrAngle := AngleLimit(elecAngle - zero);
      if Abs(corrAngle - TWO_PI) < EPSILON {
        corrAngle := 0.0;
      }
    }

    method ClarkeTransform()
      modifies this`ia, this`ib, this`iAlpha, this`iBeta
      ensures ia == -old(ia) && ib == -old(ib) && Vector(iAlpha, iBeta) == Clarke(ia, ib)
    {
      ia := -ia;
      ib := -ib;
      iAlpha := ia;
      iBeta := (ia + 2.0 * ib) / SQRT3;
    }

    method ParkTransform()
      modifies this`id, this`iq
      ensures Rotor(id, iq) == Park(Vector(iAlpha, iBeta), FastSin(corrAngle), FastCos(corrAngle))
    {
      hide FastSin, FastCos;
      id := iAlpha * FastCos(corrAngle) + iBeta * FastSin(corrAngle);
      iq := -iAlpha * FastSin(corrAngle) + iBeta * FastCos(corrAngle);
    }

    method InvParkTransform()
      modifies this`uAlpha, this`uBeta
      ensures Vector(uAlpha, uBeta) == Applied(Rotor(ud, uq), corrAngle)
    {
      hide FastSin, FastCos;
      uAlpha := -uq * FastSin(corrAngle) + ud * FastCos(corrAngle);
      uBeta := uq * FastCos(corrAngle) + ud * FastSin(corrAngle);
    }

    method InvClarkeTransform()
      modifies this`ua, this`ub, this`uc
      ensures Phases(ua, ub, uc) == InvClarke(Vector(uAlpha, uBeta))
    {
      ua := uAlpha + UDC / 2.0;
      ub := (SQRT3 * uBeta - uAlpha) / 2.0 + UDC / 2.0;
      uc := (-SQRT3 * uBeta - uAlpha) / 2.0 + UDC / 2.0;
    }

    /** The compare registers of this motor's three phases. */
    ghost function Outputs(tmr: Timer): (int, int, int)
      reads tmr
    {
      (tmr.Compare(motor.A()), tmr.Compare(motor.B()), tmr.Compare(motor.C()))
    }

    method SetPwm(tmr: Timer)
      modifies this`ua, this`ub, this`uc, tmr
      ensures Outputs(tmr) == (Counts(DirectDuty(old(ua))), Counts(DirectDuty(old(ub))), Counts(DirectDuty(old(uc))))
      ensures ua == Limit(old(ua), 0.0, 12.0) && ub == Limit(old(ub), 0.0, 12.0) && uc == Limit(old(uc), 0.0, 12.0)
      ensures tmr.Compare(motor.Trigger()) == old(tmr.Compare(motor.Trigger()))
    {
      hide Counts;
      ua, ub, uc := Limit(ua, 0.0, VOLTAGE_HIGH), Limit(ub, 0.0, VOLTAGE_HIGH), Limit(uc, 0.0, VOLTAGE_HIGH);
      var a, b, c := Limit(ua / UDC, 0.0, 1.0), Limit(ub / UDC, 0.0, 1.0), Limit(uc / UDC, 0.0, 1.0);
      SetPwmChannel(motor, tmr, a, b, c);
    }

    /** Both phase currents from the ADC, and the third that makes them sum to zero. */
    method SampleCurrents(adValueA: nat, adValueB: nat)
      modifies this`adA, this`adB, this`ia, this`ib, this`ic
      ensures adA == adValueA && adB == adValueB && ia + ib + ic == 0.0
      ensures ia == Current(adValueA, voltageAOffset) && ib == Current(adValueB, voltageAOffset)
    {
      adA, adB := adValueA, adValueB;
      ia := (adA - voltageAOffset) as real / 4096.0 * ADC_REF_VOLTAGE * GAIN;
      ib := (adB - voltageAOffset) as real / 4096.0 * ADC_REF_VOLTAGE * GAIN;
      ic := 0.0 - ia - ib;
    }

    /** The currents as a pass leaves them: the Clarke transform reverses the first two and not the third. */
    ghost predicate Sampled(adValueA: nat, adValueB: nat)
      reads this
    {
      && adA == adValueA && adB == adValueB
      && ia == -Current(adA, voltageAOffset) && ib == -Current(adB, voltageAOffset) && ic == ia + ib
    }

    /** From the encoder and ADC to the filtered rotor-frame currents. */
    method Measure(encoder: real, adValueA: nat, adValueB: nat, lpf: LpfCurrent)
      modifies this`mechanicalAngle, this`elecAngle, this`corrAngle, this`adA, this`adB, this`ia, this`ib, this`ic
      modifies this`iAlpha, this`iBeta, this`id, this`iq, lpf
      ensures mechanicalAngle == encoder && corrAngle == CorrectedAngle(encoder, zero)
      ensures Sampled(adValueA, adValueB)
      ensures var m := Measured(adValueA, adValueB, voltageAOffset, corrAngle);
        lpf.id == Step(old(lpf.id), m.d) && lpf.iq == Step(old(lpf.iq), m.q)
      ensures id == lpf.id.filtered && iq == lpf.iq.filtered
    {
      hide Park, Clarke, Current, CorrectedAngle, FastSin, FastCos, Step;
      GetCorrectedElectricalAngle(encoder);
      SampleCurrents(adValueA, adValueB);
      ClarkeTransform();
      ParkTransform();
      id, iq := lpf.LpfUpdate(id, iq);
    }

    method CurrentPiControlId()
      modifies this`idPID
      ensures idPID == old(idPID).Next(id, tarid) && Abs(idPID.out) <= Abs(idPID.outMax)
    {
      Limited(idPID, id, tarid);
      hide Pi.Next, Abs;
      idPID := Advance(idPID, id, tarid);
    }

    /** The q axis follows the speed controller; its own target `tariq` is overwritten. */
    method CurrentPiControlIq()
      modifies this`iqPID
      ensures iqPID == old(iqPID).Next(iq, speedPID.out) && Abs(iqPID.out) <= Abs(iqPID.outMax)
    {
      Limited(iqPID, iq, speedPID.out);
      iqPID := iqPID.(tar := tariq);
      iqPID := Advance(iqPID, iq, speedPID.out);
    }

    method SpeedPiControl()
      modifies this`speedPID
      ensures speedPID == old(speedPID).Next(speed, tarSpeed)
    {
      speedPID := Advance(speedPID, speed, tarSpeed);
    }

    /** From the rotor-frame voltages to the compare registers. */
    method Output(sv: SvpwmState, tmr: Timer)
      requires sv.Ts == 1.0 && InPeriod(1.0, sv.Out())
      modifies this`uAlpha, this`uBeta, sv, tmr
      ensures sv.Ts == 1.0 && InPeriod(1.0, sv.Out())
      ensures sv.Out() == Next(1.0, old(sv.Out()), Applied(Rotor(ud, uq), corrAngle))
      ensures Outputs(tmr) == (Counts(sv.Ta), Counts(sv.Tb), Counts(sv.Tc))
      ensures tmr.Compare(motor.Trigger()) == old(tmr.Compare(motor.Trigger()))
    {
      hide Applied, Next, InPeriod, Counts, Project, Peak, Rescaled;
      InvParkTransform();
      ghost var before := sv.Out();
      sv.SVpwm(uAlpha, uBeta);
      NextInPeriod(1.0, before, Vector(uAlpha, uBeta));
      SetPwmChannel(motor, tmr, sv.Ta, sv.Tb, sv.Tc);
    }

    /** One interrupt's worth of current control. */
    method FocControl(encoder: real, adValueA: nat, adValueB: nat, sv: SvpwmState, lpf: LpfCurrent, tmr: Timer)
      requires sv.Ts == 1.0 && InPeriod(1.0, sv.Out())
      modifies this, sv, lpf, tmr
      ensures zero == old(zero) && voltageAOffset == old(voltageAOffset) && voltageBOffset == old(voltageBOffset)
      ensures tarid == old(tarid) && tariq == old(tariq) && speedPID == old(speedPID)
      ensures mechanicalAngle == encoder && corrAngle == CorrectedAngle(encoder, zero)
      ensures Sampled(adValueA, adValueB)
      // measurement
      ensures var m := Measured(adValueA, adValueB, voltageAOffset, corrAngle);
        lpf.id == Step(old(lpf.id), m.d) && lpf.iq == Step(old(lpf.iq), m.q)
      // control
      ensures idPID == old(idPID).Next(lpf.id.filtered, tarid)
      ensures iqPID == old(iqPID).Next(lpf.iq.filtered, speedPID.out)
      ensures ud == idPID.out && uq == iqPID.out
      ensures Abs(ud) <= Abs(idPID.outMax) && Abs(uq) <= Abs(iqPID.outMax)
      // output
      ensures sv.Ts == 1.0 && InPeriod(1.0, sv.Out())
      ensures sv.Out() == Next(1.0, old(sv.Out()), Applied(Rotor(ud, uq), corrAngle))
      ensures Outputs(tmr) == (Counts(sv.Ta), Counts(sv.Tb), Counts(sv.Tc))
      ensures tmr.Compare(motor.Trigger()) == old(tmr.Compare(motor.Trigger()))
    {
      hide Measured, CorrectedAngle, Applied, Step, Next, InPeriod, Counts, Pi.Next, Abs;
      Measure(encoder, adValueA, adValueB, lpf);
      CurrentPiControlId();
      CurrentPiControlIq();
      ud := idPID.out;
      uq := iqPID.out;
      Output(sv, tmr);
    }

    /** Forced alignment of the rotor: a fixed voltage along the zero angle. */
    method StrongDrag(tmr: Timer)
      modifies this, tmr
      ensures zero == old(zero) && corrAngle == CorrectedAngle(0.0, zero)
      ensures var p := InvClarke(Applied(Rotor(2.0, 0.0), corrAngle));
        Outputs(tmr) == (Counts(DirectDuty(p.a)), Counts(DirectDuty(p.b)), Counts(DirectDuty(p.c)))
      ensures tmr.Compare(motor.Trigger()) == old(tmr.Compare(motor.Trigger()))
    {
      hide Applied, CorrectedAngle, InvClarke, DirectDuty, Counts;
      ud := 2.0;
      uq := 0.0;
      GetCorrectedElectricalAngle(0.0);
      InvParkTransform();
      InvClarkeTransform();
      SetPwm(tmr);
    }
  }

  // What a pass achieves

  /** One ADC count is 3.3 V / 4096 at a gain of 50. */
  lemma CurrentInNumbers(ad: nat, offset: nat)
    ensures Current(ad, offset) == (ad - offset) as real * 0.040283203125
  {
  }

  /** Without current in phase B its reading is zero exactly if the two offsets agree. */
  lemma PhaseBOffset(adB: nat, offsetA: nat, offsetB: nat)
    requires adB == offsetB
    ensures Current(adB, offsetA) == 0.0 <==> offsetA == offsetB
    ensures Current(adB, offsetA) == Current(offsetB, 0) - Current(offsetA, 0)
  {
  }

  /** At angle zero (FastTrig.AtZero) the rotor's axes are the stator's, a quarter turn later the d axis is on beta. */
  lemma AppliedAxes(u: Rotor, angle: real)
    ensures FastSin(angle) == 0.0 && FastCos(angle) == 1.0 ==> Applied(u, angle) == Vector(u.d, u.q)
    ensures FastSin(angle) == 1.0 && FastCos(angle) == 0.0 ==> Applied(u, angle) == Vector(-u.q, u.d)
  {
    hide FastSin, FastCos;
    InvParkAxes(u);
  }

  /** The frame the currents are measured in sees the voltage back, whatever the error of sine and cosine. */
  lemma AppliedReturns(u: Rotor, angle: real)
    ensures var s, c := FastSin(angle), FastCos(angle);
      Park(Applied(u, angle), s, c) == Rotor((s * s + c * c) * u.d, (s * s + c * c) * u.q)
  {
    hide FastSin, FastCos;
    ParkRoundTrip(u, FastSin(angle), FastCos(angle));
  }

  /** Undone, a measurement gives the bus midpoint less each phase current, phase A first. */
  lemma MeasuredReturns(adA: nat, adB: nat, offset: nat, angle: real)
    ensures var s, c, ia, ib := FastSin(angle), FastCos(angle), Current(adA, offset), Current(adB, offset);
      InvClarke(InvPark(Measured(adA, adB, offset, angle), s, c))
      == Phases(6.0 - (s * s + c * c) * ia, 6.0 - (s * s + c * c) * ib, 6.0 + (s * s + c * c) * (ia + ib))
  {
    var s, c, ia, ib := FastSin(angle), FastCos(angle), Current(adA, offset), Current(adB, offset);
    hide FastSin, FastCos, Current;
    InvParkRoundTrip(Clarke(-ia, -ib), s, c);
    ScaledPhases(ia, ib, s * s + c * c);
  }

  lemma ScaledPhases(ia: real, ib: real, g: real)
    ensures var v := Clarke(-ia, -ib);
      InvClarke(Vector(g * v.alpha, g * v.beta)) == Phases(6.0 - g * ia, 6.0 - g * ib, 6.0 + g * (ia + ib))
  {
  }

  /** A voltage within the inscribed circle, after the transform's own gain, is applied without rescaling. */
  lemma AppliedLinearly(ts: real, u: Rotor, angle: real)
    requires ts > 0.0
    requires var s, c := FastSin(angle), FastCos(angle);
      (u.d * u.d + u.q * u.q) * (c * c + s * s) <= (UDC / SQRT3) * (UDC / SQRT3)
    ensures var x := Project(ts, Applied(u, angle).alpha, Applied(u, angle).beta); Peak(x) <= ts && Gain(ts, x) == 1.0
  {
    hide FastSin, FastCos, InvPark, Gain, Project, Peak;
    var v := Applied(u, angle);
    InvParkLength(u, FastSin(angle), FastCos(angle));
    LinearRange(ts, v.alpha, v.beta);
  }

  lemma Limited(c: Pi, pre: real, tar: real)
    ensures Abs(c.Next(pre, tar).out) <= Abs(c.Next(pre, tar).outMax)
  {
    NextBounded(c, pre, tar);
    hide Clamp, Times;
  }

  /** Controllers limited tightly enough never over-modulate, whatever they are fed. */
  lemma LimitedLinearly(ts: real, u: Rotor, angle: real, m: real)
    requires ts > 0.0 && Abs(u.d) <= m && Abs(u.q) <= m
    requires var s, c := FastSin(angle), FastCos(angle);
      2.0 * m * m * (c * c + s * s) <= (UDC / SQRT3) * (UDC / SQRT3)
    ensures var x := Project(ts, Applied(u, angle).alpha, Applied(u, angle).beta); Peak(x) <= ts && Gain(ts, x) == 1.0
  {
    hide FastSin, FastCos, Project, Peak, Gain, Applied;
    SquareWithin(u.d, m);
    SquareWithin(u.q, m);
    LengthWithin(u.d * u.d + u.q * u.q, 2.0 * m * m, FastCos(angle) * FastCos(angle) + FastSin(angle) * FastSin(angle));
    AppliedLinearly(ts, u, angle);
  }

  lemma SquareWithin(v: real, m: real)
    requires Abs(v) <= m
    ensures v * v <= m * m
  {
  }

  lemma LengthWithin(a: real, b: real, g: real)
    requires a <= b && g >= 0.0
    ensures a * g <= b * g
  {
  }

  /** The firmware's limit of 6 on each axis is not that tight: at angle zero both at their limit are rescaled. */
  lemma FirmwareLimitOverruns()
    ensures var v := Applied(Rotor(6.0, 6.0), 0.0);
      Peak(Project(1.0, v.alpha, v.beta)) > 1.0
  {
    AtZero();
    hide FastSin, FastCos;
    assert Applied(Rotor(6.0, 6.0), 0.0) == Vector(6.0, 6.0);
    hide Applied;
    Overlong();
  }

  lemma Overlong()
    ensures Peak(Project(1.0, 6.0, 6.0)) > 1.0
  {
    assert -SQRT3_2 * 6.0 - HALF * 6.0 == -8.196;
    assert Times(-8.196, SQRT3 * 1.0 / UDC) < -1.0;
  }

  /** Over every run of passes each compare value is at most the ADC trigger's and below the period. */
  lemma CompareInRange(vs: seq<Vector>)
    ensures var d := Run(1.0, Duties(0.0, 0.0, 0.0), vs);
      0 <= Counts(d.a) <= Trunc(ALL_DUTY as real * 0.9) < PERIOD
      && 0 <= Counts(d.b) <= Trunc(ALL_DUTY as real * 0.9) < PERIOD
      && 0 <= Counts(d.c) <= Trunc(ALL_DUTY as real * 0.9) < PERIOD
  {
    var d := Run(1.0, Duties(0.0, 0.0, 0.0), vs);
    RunInPeriod(1.0, Duties(0.0, 0.0, 0.0), vs);
    hide Run, Trunc;
    CountsRange(d.a);
    CountsRange(d.b);
    CountsRange(d.c);
  }

  /** The direct output path is limited to the same range. */
  lemma DirectInRange(u: real)
    ensures 0 <= Counts(DirectDuty(u)) <= 4500 < PERIOD
    ensures DirectDuty(u) == if u <= 0.0 then 0.0 else if u >= 12.0 then 1.0 else u / 12.0
  {
  }
}
