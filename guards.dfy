/**
 * The two horizon guards of SIR_model_with_change_points, checked in order after
 * the priors are merged: the lead time before the data against the delay prior,
 * then the simulation length against the data length plus that lead time.
 */
module Guards {
  import opened Outcomes
  import opened PyDict

  /** The lead time the delay prior asks for: its median plus three times the
      median scaled by its spread. */
  function LeadTimeThreshold(medianDelay: real, sigmaDelay: real): real {
    medianDelay + 3.0 * medianDelay * sigmaDelay
  }

  /** Lines 68-71. The delay priors are taken from the merged prior dict; a value
      that is not a number makes Python's arithmetic raise a TypeError. */
  function CheckHorizon(medianDelay: Value, sigmaDelay: Value, diffDataSim: int, numDaysSim: int, numDaysData: nat)
    : (r: Option<Error>)
    ensures r.None? <==>
      && medianDelay.Num? && sigmaDelay.Num?
      && diffDataSim as real >= LeadTimeThreshold(medianDelay.x, sigmaDelay.x)
      && numDaysSim >= numDaysData + diffDataSim
    ensures r.Some? ==> r.value in {TypeError, InsufficientLeadTime, HorizonTooShort}
    // the lead-time guard comes first: a short horizon is reported only when the lead time is sufficient
    ensures r == Some(HorizonTooShort) ==>
      medianDelay.Num? && sigmaDelay.Num? && diffDataSim as real >= LeadTimeThreshold(medianDelay.x, sigmaDelay.x)
    ensures r == Some(TypeError) <==> !(medianDelay.Num? && sigmaDelay.Num?)
    ensures r == Some(InsufficientLeadTime) <==>
      medianDelay.Num? && sigmaDelay.Num? && diffDataSim as real < LeadTimeThreshold(medianDelay.x, sigmaDelay.x)
    ensures r == Some(HorizonTooShort) <==>
      && medianDelay.Num? && sigmaDelay.Num?
      && diffDataSim as real >= LeadTimeThreshold(medianDelay.x, sigmaDelay.x)
      && numDaysSim < numDaysData + diffDataSim
    // on success the inferred series, num_days_sim - diff_data_sim days long (line 140),
    // covers every observed day sliced from it at line 149
    ensures r.None? ==> numDaysSim - diffDataSim >= numDaysData
  {
    if !(medianDelay.Num? && sigmaDelay.Num?) then Some(TypeError)
    else if (diffDataSim as real) < LeadTimeThreshold(medianDelay.x, sigmaDelay.x) then Some(InsufficientLeadTime)
    else if numDaysSim < numDaysData + diffDataSim then Some(HorizonTooShort)
    else None
  }

  /** With the default delay prior (median 8, spread 0.2) the threshold is 12.8:
      a lead time of 13 days or more passes the first guard, 12 or less (0 among
      them) raises. */
  lemma {:induction false} DefaultLeadTime(diffDataSim: int, numDaysSim: int, numDaysData: nat)
    ensures LeadTimeThreshold(8.0, 0.2) == 12.8
    ensures CheckHorizon(Num(8.0), Num(0.2), diffDataSim, numDaysSim, numDaysData) == Some(InsufficientLeadTime)
            <==> diffDataSim <= 12
  {
    assert diffDataSim <= 12 <==> (diffDataSim as real) < 12.8 by {
      if diffDataSim >= 13 {
        assert diffDataSim as real >= 13.0;
      }
    }
  }
}
