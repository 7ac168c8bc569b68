/**
 * The incremental PI controllers of current_control.c and speed_control.c: each
 * call adds a correction to the last output and limits the sum. Over any run
 * the output is that of the positional form less what the limit took off.
 */
module PiControl {
  import opened Svpwm

  /** PI_Struct without kd, which the code stores and never reads. */
  datatype Pi = Pi(kp: real, ki: real, pre: real, tar: real, bias: real, lastBias: real, out: real, outMax: real)
  {
    function Bound(): real { Abs(outMax) }

    /** The output before it is limited. */
    function Raw(b: real): real { out + (Times(b - lastBias, kp) + Times(b, ki)) }

    /** One call, on a measured value and a target. */
    function Next(pre: real, tar: real): Pi {
      var b := tar - pre;
      this.(pre := pre, tar := tar, bias := b, lastBias := b, out := Clamp(Raw(b), Bound()))
    }
  }

  /** The body that the two current controllers and the speed controller share. */
  method Advance(c: Pi, pre: real, tar: real) returns (d: Pi)
    ensures d == c.Next(pre, tar)
  {
    hide Times;
    d := c.(pre := pre);
    d := d.(tar := tar);
    d := d.(bias := d.tar - d.pre);
    TimesFlip(d.kp, d.bias - d.lastBias);
    TimesFlip(d.ki, d.bias);
    d := d.(out := d.out + (d.kp * (d.bias - d.lastBias) + d.ki * d.bias));
    assert d.out == c.Raw(tar - pre);
    d := d.(lastBias := d.bias);
    if d.out > Abs(d.outMax) {
      d := d.(out := Abs(d.outMax));
    }
    if d.out < -Abs(d.outMax) {
      d := d.(out := -Abs(d.outMax));
    }
  }

  const ZERO := Pi(0.0, 0.0, 0.0, 0.0, 0.0, 0.0, 0.0, 0.0)

  function Clamp(v: real, m: real): real { if v > m then m else if v < -m then -m else v }

  /** What one call is given. */
  datatype Sample = Sample(pre: real, tar: real) {
    function Bias(): real { tar - pre }
  }

  function After(c: Pi, xs: seq<Sample>): Pi {
    if xs == [] then c
    else After(c, xs[..|xs| - 1]).Next(xs[|xs| - 1].pre, xs[|xs| - 1].tar)
  }

  function BiasSum(xs: seq<Sample>): real {
    if xs == [] then 0.0 else BiasSum(xs[..|xs| - 1]) + xs[|xs| - 1].Bias()
  }

  /** What the limit has taken off the output, over a run. */
  function Clipped(c: Pi, xs: seq<Sample>): real {
    if xs == [] then 0.0
    else
      var d, b := After(c, xs[..|xs| - 1]), xs[|xs| - 1].Bias();
      Clipped(c, xs[..|xs| - 1]) + (d.Raw(b) - Clamp(d.Raw(b), d.Bound()))
  }

  /** The textbook form: the proportional part of the last bias and the integral part of all of them. */
  function Positional(c: Pi, xs: seq<Sample>): real {
    var last := if xs == [] then c.lastBias else xs[|xs| - 1].Bias();
    c.out + Times(last - c.lastBias, c.kp) + Times(BiasSum(xs), c.ki)
  }

  lemma TimesFlip(k: real, u: real)
    ensures k * u == Times(u, k)
  {
  }

  lemma TimesSum(u: real, v: real, k: real)
    ensures Times(u + v, k) == Times(u, k) + Times(v, k)
    ensures Times(0.0, k) == 0.0
  {
  }

  lemma {:induction false} AfterFacts(c: Pi, xs: seq<Sample>)
    ensures var d := After(c, xs);
            && d.kp == c.kp && d.ki == c.ki && d.outMax == c.outMax
            && d.lastBias == if xs == [] then c.lastBias else xs[|xs| - 1].Bias()
  {
    hide Clamp, Times;
    if xs != [] {
      AfterFacts(c, xs[..|xs| - 1]);
    }
  }

  /** Over every run: the output and what the limit took off add up to the positional form. */
  lemma {:induction false} OutputConserved(c: Pi, xs: seq<Sample>)
    ensures After(c, xs).out + Clipped(c, xs) == Positional(c, xs)
  {
    hide Clamp, Times;
    if xs == [] {
      TimesSum(0.0, 0.0, c.kp);
      TimesSum(0.0, 0.0, c.ki);
    } else {
      var init, b := xs[..|xs| - 1], xs[|xs| - 1].Bias();
      var d := After(c, init);
      OutputConserved(c, init);
      AfterFacts(c, init);
      TimesSum(d.lastBias - c.lastBias, b - d.lastBias, c.kp);
      TimesSum(BiasSum(init), b, c.ki);
      assert Positional(c, xs) == Positional(c, init) + (Times(b - d.lastBias, c.kp) + Times(b, c.ki));
    }
  }

  /** From the first call on the output stays within its limit, whatever the gains and inputs. */
  lemma OutputBounded(c: Pi, xs: seq<Sample>)
    requires xs != [] || -Abs(c.outMax) <= c.out <= Abs(c.outMax)
    ensures -Abs(c.outMax) <= After(c, xs).out <= Abs(c.outMax)
  {
    if xs != [] {
      AfterFacts(c, xs[..|xs| - 1]);
      NextBounded(After(c, xs[..|xs| - 1]), xs[|xs| - 1].pre, xs[|xs| - 1].tar);
    }
  }

  lemma NextBounded(c: Pi, pre: real, tar: real)
    ensures -Abs(c.outMax) <= c.Next(pre, tar).out <= Abs(c.outMax)
  {
    hide Times;
  }

  /** A standing bias moves the output by the same amount at each call, until the limit: no windup behind it. */
  lemma {:induction false} Ramp(c: Pi, xs: seq<Sample>)
    requires -Abs(c.outMax) <= c.out <= Abs(c.outMax)
    requires forall i :: 0 <= i < |xs| ==> xs[i].Bias() == c.lastBias
    ensures var x, m := c.out + Times(Times(c.lastBias, c.ki), |xs| as real), Abs(c.outMax);
            After(c, xs).out == if x > m then m else if x < -m then -m else x
    ensures Times(Times(c.lastBias, c.ki), |xs| as real) >= 2.0 * Abs(c.outMax) ==> After(c, xs).out == Abs(c.outMax)
  {
    hide Times;
    var n, step := |xs| as real, Times(c.lastBias, c.ki);
    if xs == [] {
      TimesZero(step);
    } else {
      var init := xs[..|xs| - 1];
      Ramp(c, init);
      AfterFacts(c, init);
      TimesSum(0.0, 0.0, c.kp);
      TimesCount(step, n - 1.0);
      assert After(c, xs).out == Clamp(After(c, init).out + step, Abs(c.outMax));
      ClampStep(c.out, Times(step, n - 1.0), step, Abs(c.outMax));
    }
  }

  lemma TimesZero(u: real)
    ensures Times(u, 0.0) == 0.0
  {
  }

  lemma TimesCount(u: real, n: real)
    requires n >= 0.0
    ensures Times(u, n + 1.0) == Times(u, n) + u
    ensures (u >= 0.0 ==> Times(u, n) >= 0.0) && (u <= 0.0 ==> Times(u, n) <= 0.0)
  {
  }

  lemma ClampStep(v: real, moved: real, step: real, m: real)
    requires -m <= v <= m && (step >= 0.0 ==> moved >= 0.0) && (step <= 0.0 ==> moved <= 0.0)
    ensures Clamp(Clamp(v + moved, m) + step, m) == Clamp(v + (moved + step), m)
  {
  }

  /** The output rests under a standing bias exactly if there is nothing to integrate or the limit is reached. */
  lemma RestsIff(c: Pi, x: Sample)
    requires -Abs(c.outMax) <= c.out <= Abs(c.outMax) && x.Bias() == c.lastBias
    ensures var step := Times(c.lastBias, c.ki);
            c.Next(x.pre, x.tar).out == c.out
            <==> step == 0.0 || (step > 0.0 && c.out == Abs(c.outMax)) || (step < 0.0 && c.out == -Abs(c.outMax))
  {
    TimesSum(0.0, 0.0, c.kp);
    hide Times;
  }

  /** Once at the limit, the first call whose bias turns takes the output off it, however long it was held there. */
  lemma NoWindup(c: Pi, xs: seq<Sample>, x: Sample)
    requires After(c, xs).out == Abs(c.outMax) > 0.0 && c.kp >= 0.0 && c.ki > 0.0
    requires x.Bias() < 0.0 && x.Bias() <= After(c, xs).lastBias
    ensures After(c, xs + [x]).out < Abs(c.outMax)
  {
    var d := After(c, xs);
    AfterFacts(c, xs);
    assert (xs + [x])[..|xs|] == xs;
    Falls(x.Bias() - d.lastBias, d.kp);
    Falls(x.Bias(), d.ki);
    hide Times;
  }

  lemma Falls(u: real, k: real)
    requires u <= 0.0 && k >= 0.0
    ensures Times(u, k) <= 0.0
    ensures u < 0.0 && k > 0.0 ==> Times(u, k) < 0.0
  {
  }
}
