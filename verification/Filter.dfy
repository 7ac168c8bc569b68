/**
 * filter.c: first-order low-pass filters for the two current axes and the
 * speed. A filter's state after any run is a weighted sum of its inputs.
 */
module Filter {
  const SAMPLE_FREQ := 24000.0
  const CUTOFF_FREQ := 500.0
  const PI := 3.1415

  datatype LpfFilter = LpfFilter(alpha: real, filtered: real)

  /** The smoothing factor of a first-order filter, from the two frequencies. */
  function Alpha(sampleFreq: real, cutoffFreq: real): real
    requires sampleFreq > 0.0 && cutoffFreq > 0.0
  {
    var z := 2.0 * PI * (1.0 / sampleFreq) * cutoffFreq;
    assert z > 0.0;
    1.0 / (1.0 + 1.0 / z)
  }

  function Mix(a: real, y: real, x: real): real { y + a * (x - y) }

  /** One update of one filter. */
  function Step(f: LpfFilter, x: real): LpfFilter {
    f.(filtered := Mix(f.alpha, f.filtered, x))
  }

  /** The filtered value after the inputs `xs`. */
  function Filtered(alpha: real, y0: real, xs: seq<real>): real {
    if xs == [] then y0
    else Mix(alpha, Filtered(alpha, y0, xs[..|xs| - 1]), xs[|xs| - 1])
  }

  function Power(b: real, n: nat): real {
    if n == 0 then 1.0 else b * Power(b, n - 1)
  }

  /** What is left of a value n updates later. */
  function Decayed(a: real, n: nat, v: real): real { Power(1.0 - a, n) * v }

  /** What an input weighs n updates later. */
  function Weight(a: real, n: nat, x: real): real { Decayed(a, n, a * x) }

  /** Every input, weighted by `a` and forgotten by a factor `1 - a` at each later update. */
  function WeightedSum(a: real, xs: seq<real>): real {
    if xs == [] then 0.0
    else Weight(a, |xs| - 1, xs[0]) + WeightedSum(a, xs[1..])
  }

  class LpfCurrent {
    var id: LpfFilter
    var iq: LpfFilter

    constructor ()
      ensures Initial(id) && Initial(iq)
    {
      AlphaRange(SAMPLE_FREQ, CUTOFF_FREQ);
      var alpha := Alpha(SAMPLE_FREQ, CUTOFF_FREQ);
      id := LpfFilter(alpha, 0.0);
      iq := LpfFilter(alpha, 0.0);
    }

    method LpfUpdate(idInput: real, iqInput: real) returns (idOut: real, iqOut: real)
      modifies this
      ensures id == Step(old(id), idInput) && iq == Step(old(iq), iqInput)
      ensures idOut == id.filtered && iqOut == iq.filtered
    {
      id := id.(filtered := id.filtered + id.alpha * (idInput - id.filtered));
      idOut := id.filtered;
      iq := iq.(filtered := iq.filtered + iq.alpha * (iqInput - iq.filtered));
      iqOut := iq.filtered;
    }
  }

  class LpfSpeed {
    var speed: LpfFilter

    constructor ()
      ensures Initial(speed)
    {
      AlphaRange(SAMPLE_FREQ, CUTOFF_FREQ);
      speed := LpfFilter(Alpha(SAMPLE_FREQ, CUTOFF_FREQ), 0.0);
    }

    method LpfSpeedUpdate(speedInput: real) returns (speedOut: real)
      modifies this
      ensures speed == Step(old(speed), speedInput) && speedOut == speed.filtered
    {
      speed := speed.(filtered := speed.filtered + speed.alpha * (speedInput - speed.filtered));
      speedOut := speed.filtered;
    }
  }

  /** A filter fresh from its init function. */
  ghost predicate Initial(f: LpfFilter) {
    f.filtered == 0.0 && 0.0 < f.alpha < 1.0 && f.alpha * 27.1415 == 3.1415
  }

  lemma AlphaRange(sampleFreq: real, cutoffFreq: real)
    requires sampleFreq > 0.0 && cutoffFreq > 0.0
    ensures 0.0 < Alpha(sampleFreq, cutoffFreq) < 1.0
    ensures Alpha(sampleFreq, cutoffFreq) * (sampleFreq + 2.0 * PI * cutoffFreq) == 2.0 * PI * cutoffFreq
  {
  }

  // Runs of one filter

  lemma Decays(a: real, n: nat, v: real)
    ensures Decayed(a, 0, v) == v && Decayed(a, n + 1, v) == (1.0 - a) * Decayed(a, n, v)
  {
  }

  lemma Distribute(k: real, u: real, v: real)
    ensures k * (u + v) == k * u + k * v
  {
  }

  lemma Weighs(a: real, n: nat, x: real)
    ensures Weight(a, 0, x) == a * x && Weight(a, n + 1, x) == (1.0 - a) * Weight(a, n, x)
  {
    Decays(a, n, a * x);
    hide Decayed;
  }

  lemma {:induction false} WeightedSnoc(a: real, xs: seq<real>, x: real)
    ensures WeightedSum(a, xs + [x]) == (1.0 - a) * WeightedSum(a, xs) + a * x
  {
    hide Weight;
    if xs == [] {
      assert xs + [x] == [x] && [x][1..] == [];
      Weighs(a, 0, x);
    } else {
      var n, rest := |xs| - 1, xs[1..];
      assert (xs + [x])[0] == xs[0] && (xs + [x])[1..] == rest + [x];
      WeightedSnoc(a, rest, x);
      Weighs(a, n, xs[0]);
      Distribute(1.0 - a, Weight(a, n, xs[0]), WeightedSum(a, rest));
    }
  }

  /** What the inputs and the first value weigh after the run. */
  function Weighed(a: real, y0: real, xs: seq<real>): real {
    Decayed(a, |xs|, y0) + WeightedSum(a, xs)
  }

  lemma Combine(a: real, r: real, w: real, x: real)
    ensures Mix(a, r + w, x) == (1.0 - a) * r + ((1.0 - a) * w + a * x)
  {
  }

  lemma WeighedSnoc(a: real, y0: real, xs: seq<real>, x: real)
    ensures Weighed(a, y0, xs + [x]) == Mix(a, Weighed(a, y0, xs), x)
  {
    hide WeightedSum, Decayed, Mix;
    WeightedSnoc(a, xs, x);
    Decays(a, |xs|, y0);
    Combine(a, Decayed(a, |xs|, y0), WeightedSum(a, xs), x);
  }

  /** After n updates the filter is the weighted sum of its inputs, plus what is left of its first value. */
  lemma {:induction false} ClosedForm(a: real, y0: real, xs: seq<real>)
    ensures Filtered(a, y0, xs) == Weighed(a, y0, xs)
  {
    if xs != [] {
      var init, x := xs[..|xs| - 1], xs[|xs| - 1];
      ClosedForm(a, y0, init);
      assert xs == init + [x];
      WeighedSnoc(a, y0, init, x);
      hide Weighed, Mix;
    }
  }

  /** The output never leaves the interval of the first value and the inputs. */
  lemma {:induction false} StaysInHull(a: real, y0: real, xs: seq<real>, lo: real, hi: real)
    requires 0.0 < a < 1.0 && lo <= y0 <= hi
    requires forall i :: 0 <= i < |xs| ==> lo <= xs[i] <= hi
    ensures lo <= Filtered(a, y0, xs) <= hi
  {
    hide Mix;
    if xs != [] {
      var init := xs[..|xs| - 1];
      StaysInHull(a, y0, init, lo, hi);
      Between(a, Filtered(a, y0, init), xs[|xs| - 1], lo, hi);
    }
  }

  lemma Between(a: real, y: real, x: real, lo: real, hi: real)
    requires 0.0 < a < 1.0 && lo <= y <= hi && lo <= x <= hi
    ensures lo <= Mix(a, y, x) <= hi
  {
    NonNegative(1.0 - a, y - lo);
    NonNegative(a, x - lo);
    NonNegative(1.0 - a, hi - y);
    NonNegative(a, hi - x);
    assert Mix(a, y, x) - lo == (1.0 - a) * (y - lo) + a * (x - lo);
    assert hi - Mix(a, y, x) == (1.0 - a) * (hi - y) + a * (hi - x);
  }

  lemma NonNegative(k: real, v: real)
    requires k >= 0.0 && v >= 0.0
    ensures k * v >= 0.0
  {
  }

  lemma DecayedDifference(a: real, n: nat, y: real, z: real)
    ensures Decayed(a, n, y) - Decayed(a, n, z) == Decayed(a, n, y - z)
  {
  }

  /** Two filters fed the same inputs forget their difference at the rate (1 - a)^n. */
  lemma Forgets(a: real, y0: real, z0: real, xs: seq<real>)
    ensures Filtered(a, y0, xs) - Filtered(a, z0, xs) == Decayed(a, |xs|, y0 - z0)
  {
    hide Filtered, WeightedSum, Decayed;
    ClosedForm(a, y0, xs);
    ClosedForm(a, z0, xs);
    DecayedDifference(a, |xs|, y0, z0);
  }

  lemma {:induction false} Rests(a: real, c: real, xs: seq<real>)
    requires forall i :: 0 <= i < |xs| ==> xs[i] == c
    ensures Filtered(a, c, xs) == c
  {
    if xs != [] {
      Rests(a, c, xs[..|xs| - 1]);
    }
  }

  /** A constant input is approached geometrically, with no error in the limit. */
  lemma {:induction false} ConstantInput(a: real, y0: real, c: real, xs: seq<real>)
    requires forall i :: 0 <= i < |xs| ==> xs[i] == c
    ensures c - Filtered(a, y0, xs) == Decayed(a, |xs|, c - y0)
  {
    Rests(a, c, xs);
    Forgets(a, c, y0, xs);
  }

  lemma {:induction false} PowerShrinks(b: real, n: nat)
    requires 0.0 < b < 1.0
    ensures 0.0 < Power(b, n) <= 1.0
    ensures Power(b, n + 1) < Power(b, n)
  {
    if n > 0 {
      PowerShrinks(b, n - 1);
    }
  }

  function Distance(x: real, y: real): real { if x >= y then x - y else y - x }

  /** The error for a constant input shrinks strictly at every update and never changes sign. */
  lemma ErrorShrinks(a: real, y0: real, c: real, xs: seq<real>)
    requires 0.0 < a < 1.0 && y0 != c && forall i :: 0 <= i < |xs| ==> xs[i] == c
    ensures 0.0 < Distance(c, Filtered(a, y0, xs + [c])) < Distance(c, Filtered(a, y0, xs))
    ensures c > Filtered(a, y0, xs) <==> c > y0
  {
    hide Filtered, Decayed;
    ConstantInput(a, y0, c, xs);
    ConstantInput(a, y0, c, xs + [c]);
    DecayShrinks(a, |xs|, c - y0);
  }

  lemma DecayShrinks(a: real, n: nat, e: real)
    requires 0.0 < a < 1.0 && e != 0.0
    ensures e > 0.0 ==> 0.0 < Decayed(a, n + 1, e) < Decayed(a, n, e)
    ensures e < 0.0 ==> Decayed(a, n, e) < Decayed(a, n + 1, e) < 0.0
  {
    PowerShrinks(1.0 - a, n);
    PowerShrinks(1.0 - a, n + 1);
    hide Power;
    Shrunk(Power(1.0 - a, n), Power(1.0 - a, n + 1), e);
  }

  lemma Shrunk(p: real, q: real, e: real)
    requires 0.0 < q < p && e != 0.0
    ensures e > 0.0 ==> 0.0 < q * e < p * e
    ensures e < 0.0 ==> p * e < q * e < 0.0
  {
  }

  lemma SumStep(a: real, y: real, z: real, u: real, v: real)
    ensures Mix(a, y + z, u + v) == Mix(a, y, u) + Mix(a, z, v)
  {
  }

  /** Superposition: filtering a sum of two signals is summing the filtered signals. */
  lemma {:induction false} Superposition(a: real, y0: real, z0: real, xs: seq<real>, zs: seq<real>, sum: seq<real>)
    requires |xs| == |zs| == |sum| && forall i :: 0 <= i < |xs| ==> sum[i] == xs[i] + zs[i]
    ensures Filtered(a, y0 + z0, sum) == Filtered(a, y0, xs) + Filtered(a, z0, zs)
  {
    if xs != [] {
      var n := |xs| - 1;
      Superposition(a, y0, z0, xs[..n], zs[..n], sum[..n]);
      hide Mix;
      SumStep(a, Filtered(a, y0, xs[..n]), Filtered(a, z0, zs[..n]), xs[n], zs[n]);
    }
  }

  // The two current axes

  /** The state of a current filter after a run of updates. */
  function RunBoth(id: LpfFilter, iq: LpfFilter, inputs: seq<(real, real)>): (LpfFilter, LpfFilter) {
    if inputs == [] then (id, iq)
    else
      var before := RunBoth(id, iq, inputs[..|inputs| - 1]);
      (Step(before.0, inputs[|inputs| - 1].0), Step(before.1, inputs[|inputs| - 1].1))
  }

  /** The axes never interact: each runs as a filter alone on its own inputs. */
  lemma {:induction false} AxesIndependent(id: LpfFilter, iq: LpfFilter, inputs: seq<(real, real)>,
                                           ds: seq<real>, qs: seq<real>)
    requires |ds| == |qs| == |inputs| && forall i :: 0 <= i < |inputs| ==> inputs[i] == (ds[i], qs[i])
    ensures var r := RunBoth(id, iq, inputs);
      (r.0 == id.(filtered := Filtered(id.alpha, id.filtered, ds))
       && r.1 == iq.(filtered := Filtered(iq.alpha, iq.filtered, qs)))
  {
    if inputs != [] {
      var n := |inputs| - 1;
      AxesIndependent(id, iq, inputs[..n], ds[..n], qs[..n]);
    }
  }
}
