/**
 * The time-varying spreading rate λ_t of SIR_model_with_change_points (lines
 * 109-118), evaluated at one assignment of the model's latent variables. The
 * smooth step function is not part of this model: it is a parameter, of which
 * only the length of its result is assumed.
 */
module Rate {

  /** A value as numpy/theano see it: a plain number, or a vector of days. */
  datatype Tensor = Scalar(v: real) | Vector(xs: seq<real>)

  /** The value on day t; a number stands for the same value on every day. */
  function At(r: Tensor, t: nat): real
    requires r.Vector? ==> t < |r.xs|
  {
    match r
    case Scalar(v) => v
    case Vector(xs) => xs[t]
  }

  /** `a + b` for a running total and a vector of days, broadcasting a number over the days. */
  function Add(a: Tensor, b: seq<real>): Tensor
    requires a.Vector? ==> |a.xs| == |b|
  {
    match a
    case Scalar(v) => Vector(seq(|b|, i requires 0 <= i < |b| => v + b[i]))
    case Vector(xs) => Vector(seq(|b|, i requires 0 <= i < |b| => xs[i] + b[i]))
  }

  /** `s * c` for a vector and a number. */
  function Scale(s: seq<real>, c: real): seq<real> {
    seq(|s|, i requires 0 <= i < |s| => s[i] * c)
  }

  /** Python's `sum(terms)`: the number 0 plus each term, left to right; with no
      terms it is the number 0 itself. */
  function PySum(terms: seq<seq<real>>, days: nat): (r: Tensor)
    requires forall i :: 0 <= i < |terms| ==> |terms[i]| == days
    ensures terms == [] ==> r == Scalar(0.0)
    ensures terms != [] ==> r.Vector? && |r.xs| == days
    decreases |terms|
  {
    if terms == [] then Scalar(0.0)
    else Add(PySum(terms[..|terms| - 1], days), terms[|terms| - 1])
  }

  /** The sum over the terms of their values on day t. */
  function ColumnSum(terms: seq<seq<real>>, t: nat): real
    requires forall i :: 0 <= i < |terms| ==> t < |terms[i]|
    decreases |terms|
  {
    if terms == [] then 0.0 else ColumnSum(terms[..|terms| - 1], t) + terms[|terms| - 1][t]
  }

  /** `sum` of equal-length vectors is their day-by-day sum (0 on every day when there are none). */
  lemma {:induction false} PySumAt(terms: seq<seq<real>>, days: nat, t: nat)
    requires forall i :: 0 <= i < |terms| ==> |terms[i]| == days
    requires t < days
    ensures At(PySum(terms, days), t) == ColumnSum(terms, t)
  {
    if terms != [] {
      PySumAt(terms[..|terms| - 1], days, t);
    }
  }

  /** `_smooth_step_function(λ_begin, λ_end, t_begin, t_end, t_total)`. */
  type SmoothStep = (real, real, real, real, nat) -> seq<real>

  /** The only thing assumed of the smooth step: a 0-to-1 step over numDaysSim
      days is numDaysSim long. */
  ghost predicate StepLength(step: SmoothStep, numDaysSim: nat) {
    forall tBegin, tEnd :: |step(0.0, 1.0, tBegin, tEnd, numDaysSim)| == numDaysSim
  }

  /** Values of the latent variables: λ_0..λ_n, transient_begin_0..transient_begin_{n-1}
      and transient_len_0..transient_len_{n-1}. */
  datatype Latent = Latent(lambdas: seq<real>, begins: seq<real>, lens: seq<real>) {
    ghost predicate WellShaped() {
      |lambdas| == |begins| + 1 && |lens| == |begins|
    }
  }

  /** Change point i's 0-to-1 step on day t. */
  function StepAt(v: Latent, step: SmoothStep, numDaysSim: nat, i: nat, t: nat): real
    requires v.WellShaped() && StepLength(step, numDaysSim) && i < |v.begins| && t < numDaysSim
  {
    step(0.0, 1.0, v.begins[i], v.begins[i] + v.lens[i], numDaysSim)[t]
  }

  /** Σ_{i < m} step_i[t] · (λ_{i+1} − λ_0): the value on day t of the rate as lines
      109-118 write it, with λ_step_before fixed at λ_0 and no baseline. */
  function AsWrittenAt(v: Latent, step: SmoothStep, numDaysSim: nat, t: nat, m: nat): real
    requires v.WellShaped() && StepLength(step, numDaysSim) && m <= |v.begins| && t < numDaysSim
  {
    if m == 0 then 0.0
    else AsWrittenAt(v, step, numDaysSim, t, m - 1) + StepAt(v, step, numDaysSim, m - 1, t) * (v.lambdas[m] - v.lambdas[0])
  }

  /** Lines 109-118: one term per change point, `step_i * (λ_{i+1} − λ_step_before)`
      with λ_step_before set once to λ_0, then `sum` of the terms. With no change
      point the rate is the number 0; otherwise it is a vector over the simulated
      days whose value on day t is Σ_i step_i[t] · (λ_{i+1} − λ_0). */
  method ComposeRate(v: Latent, step: SmoothStep, numDaysSim: nat) returns (rate: Tensor)
    requires v.WellShaped() && StepLength(step, numDaysSim)
    ensures |v.begins| == 0 ==> rate == Scalar(0.0)
    ensures |v.begins| > 0 ==> rate.Vector? && |rate.xs| == numDaysSim
    ensures forall t :: 0 <= t < numDaysSim ==> At(rate, t) == AsWrittenAt(v, step, numDaysSim, t, |v.begins|)
  {
    var terms: seq<seq<real>> := [];
    var lambdaStepBefore := v.lambdas[0];
    for i := 0 to |v.begins|
      invariant |terms| == i
      invariant forall j :: 0 <= j < i ==> |terms[j]| == numDaysSim
      invariant forall t :: 0 <= t < numDaysSim ==> ColumnSum(terms, t) == AsWrittenAt(v, step, numDaysSim, t, i)
    {
      var s := step(0.0, 1.0, v.begins[i], v.begins[i] + v.lens[i], numDaysSim);
      var term := Scale(s, v.lambdas[i + 1] - lambdaStepBefore);
      assert (terms + [term])[..i] == terms;
      terms := terms + [term];
    }
    rate := PySum(terms, numDaysSim);
    forall t | 0 <= t < numDaysSim
      ensures At(rate, t) == AsWrittenAt(v, step, numDaysSim, t, |v.begins|)
    {
      PySumAt(terms, numDaysSim, t);
    }
  }

  /** λ_0 + Σ_{i < m} step_i[t] · (λ_{i+1} − λ_i): the telescoping rate, a baseline
      plus one increment per change point from the previous level to the next, so
      that each change point's λ is the level the rate changes to (line 17). */
  function IntendedAt(v: Latent, step: SmoothStep, numDaysSim: nat, t: nat, m: nat): real
    requires v.WellShaped() && StepLength(step, numDaysSim) && m <= |v.begins| && t < numDaysSim
  {
    if m == 0 then v.lambdas[0]
    else IntendedAt(v, step, numDaysSim, t, m - 1) + StepAt(v, step, numDaysSim, m - 1, t) * (v.lambdas[m] - v.lambdas[m - 1])
  }

  /** The corrected lines 109-118: the baseline λ_0 as a first term over all days and
      λ_step_before advanced to each change point's level. The result is a vector
      over the simulated days whose value on day t is λ_0 + Σ_i step_i[t] · (λ_{i+1} − λ_i). */
  method ComposeRateIntended(v: Latent, step: SmoothStep, numDaysSim: nat) returns (rate: seq<real>)
    requires v.WellShaped() && StepLength(step, numDaysSim)
    ensures |rate| == numDaysSim
    ensures forall t :: 0 <= t < numDaysSim ==> rate[t] == IntendedAt(v, step, numDaysSim, t, |v.begins|)
  {
    var terms: seq<seq<real>> := [seq(numDaysSim, _ => v.lambdas[0])];
    var lambdaStepBefore := v.lambdas[0];
    for i := 0 to |v.begins|
      invariant |terms| == i + 1
      invariant lambdaStepBefore == v.lambdas[i]
      invariant forall j :: 0 <= j < i + 1 ==> |terms[j]| == numDaysSim
      invariant forall t :: 0 <= t < numDaysSim ==> ColumnSum(terms, t) == IntendedAt(v, step, numDaysSim, t, i)
    {
      var s := step(0.0, 1.0, v.begins[i], v.begins[i] + v.lens[i], numDaysSim);
      var term := Scale(s, v.lambdas[i + 1] - lambdaStepBefore);
      assert (terms + [term])[..i + 1] == terms;
      terms := terms + [term];
      lambdaStepBefore := v.lambdas[i + 1];
    }
    var total := PySum(terms, numDaysSim);
    rate := total.xs;
    forall t | 0 <= t < numDaysSim
      ensures rate[t] == IntendedAt(v, step, numDaysSim, t, |v.begins|)
    {
      PySumAt(terms, numDaysSim, t);
    }
  }

  /** The intended rate telescopes: on a day where the first j steps are complete
      (value 1) and the later ones have not started (value 0), it equals λ_j. */
  lemma {:induction false} IntendedPlateau(v: Latent, step: SmoothStep, numDaysSim: nat, t: nat, m: nat, j: nat)
    requires v.WellShaped() && StepLength(step, numDaysSim) && m <= |v.begins| && t < numDaysSim && j <= m
    requires forall i :: 0 <= i < j ==> StepAt(v, step, numDaysSim, i, t) == 1.0
    requires forall i :: j <= i < m ==> StepAt(v, step, numDaysSim, i, t) == 0.0
    ensures IntendedAt(v, step, numDaysSim, t, m) == v.lambdas[j]
  {
    if m > 0 {
      if j == m {
        IntendedPlateau(v, step, numDaysSim, t, m - 1, m - 1);
      } else {
        IntendedPlateau(v, step, numDaysSim, t, m - 1, j);
      }
    }
  }

  /** A step that has completed on every day. */
  function Saturated(): SmoothStep {
    (levelBegin: real, levelEnd: real, tBegin: real, tEnd: real, days: nat) => seq(days, _ => levelEnd)
  }

  /** Lines 109-118 as written drop the baseline: with no change point the rate
      is 0 on every day instead of λ_0. */
  lemma AsWrittenDropsBaseline()
    ensures var v := Latent([0.4], [], []);
      AsWrittenAt(v, Saturated(), 1, 0, 0) == 0.0 && IntendedAt(v, Saturated(), 1, 0, 0) == 0.4
  {
  }

  /** Lines 109-118 as written never advance λ_step_before: with rates
      λ = 0.4, 0.2, 0.1 and both transitions complete, the rate is
      (0.2 − 0.4) + (0.1 − 0.4) = −0.5 where the telescoping rate gives λ_2 = 0.1. */
  lemma AsWrittenMeasuresFromFirstRate()
    ensures var v := Latent([0.4, 0.2, 0.1], [10.0, 20.0], [3.0, 3.0]);
      AsWrittenAt(v, Saturated(), 1, 0, 2) == -0.5 && IntendedAt(v, Saturated(), 1, 0, 2) == 0.1
  {
    var v := Latent([0.4, 0.2, 0.1], [10.0, 20.0], [3.0, 3.0]);
    assert StepAt(v, Saturated(), 1, 0, 0) == 1.0;
    assert StepAt(v, Saturated(), 1, 1, 0) == 1.0;
  }
}
