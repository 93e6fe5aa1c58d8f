/**
 * SIR_model_with_change_points: validate and complete the prior configuration,
 * check the simulation horizon, then declare the model's variables in order,
 * checking on the way that the change points are temporally ordered.
 */
module Models {
  import opened Outcomes
  import opened PyDict
  import opened Priors
  import opened Guards
  import opened Declarations

  /** The prior dict the call works on before it changes anything: the caller's, or
      a fresh empty one when the caller passes None (lines 34-35). */
  ghost function InitialPriors(priorsDic: Dict?): Entries
    reads priorsDic
  {
    if priorsDic == null then Entries([], map[]) else priorsDic.Contents()
  }

  /** A change point's date once its defaults are filled in: its own, or None. */
  function DateOf(e: Entries): Value {
    if DateKey in e.vals then e.vals[DateKey] else NoneValue
  }

  /** The dates of the change points, in list order. */
  ghost function DatesOf(changePoints: seq<Dict>): seq<Value>
    reads set d | d in changePoints
  {
    seq(|changePoints|, i requires 0 <= i < |changePoints| reads set d | d in changePoints =>
      DateOf(changePoints[i].Contents()))
  }

  /** Lines 52-54 pass: every top-level prior name is known. */
  ghost predicate PriorsKnown(p0: Entries) {
    FirstUnknown(p0.keys, Names(DefaultPriors)).None?
  }

  /** The error that lines 52-62 raise, if any: an unknown top-level name first,
      then an unknown change-point name. */
  ghost function NameError(p0: Entries, keyLists: seq<seq<string>>): Option<Error> {
    match FirstUnknown(p0.keys, Names(DefaultPriors))
    case Some(name) => Some(UnknownPrior(name))
    case None =>
      match FirstUnknownAmong(keyLists, Names(DefaultPriorsChangePoints))
      case Some(name) => Some(UnknownChangePointPrior(name))
      case None => None
  }

  /** The error that lines 34-71 raise, if any, in the order they check. */
  ghost function ConfigError(p0: Entries, keyLists: seq<seq<string>>, numDaysData: nat, numDaysSim: int, diffDataSim: int)
    : Option<Error>
    requires p0.Valid()
  {
    if NameError(p0, keyLists).Some? then NameError(p0, keyLists)
    else
      var p := Fill(p0, DefaultPriors);
      MergedPriors(p0);
      assert MedianDelayKey == Names(DefaultPriors)[5] && SigmaDelayKey == Names(DefaultPriors)[6];
      CheckHorizon(p.vals[MedianDelayKey], p.vals[SigmaDelayKey], diffDataSim, numDaysSim, numDaysData)
  }

  /** Lines 52-66: reject unknown names, then fill the prior dict and every
      change-point dict with their defaults, in place. */
  method CompletePriors(priors: Dict, changePoints: seq<Dict>) returns (error: Option<Error>)
    requires priors.Valid() && priors !in changePoints
    requires forall d :: d in changePoints ==> d.Valid()
    modifies priors, set d | d in changePoints
    ensures error == NameError(old(priors.Contents()), old(KeysOf(changePoints)))
    ensures priors.Valid()
    ensures priors.Contents() == if PriorsKnown(old(priors.Contents())) then Fill(old(priors.Contents()), DefaultPriors)
                                 else old(priors.Contents())
    ensures forall d :: d in changePoints ==>
      && d.Valid()
      && d.Contents() == if error.None? then Fill(old(d.Contents()), DefaultPriorsChangePoints) else old(d.Contents())
    // on success the delay priors are present, and every change point has a date entry: its own or None
    ensures error.None? ==> MedianDelayKey in priors.vals && SigmaDelayKey in priors.vals
    ensures error.None? ==> forall i :: 0 <= i < |changePoints| ==>
      DateKey in changePoints[i].vals && changePoints[i].vals[DateKey] == old(DatesOf(changePoints))[i]
  {
    error := CompletePriorDict(priors);
    if error.Some? {
      return;
    }
    assert KeysOf(changePoints) == old(KeysOf(changePoints));
    assert DatesOf(changePoints) == old(DatesOf(changePoints));
    error := CompleteChangePoints(changePoints);
  }

  /** Lines 52-57: reject an unknown top-level name, then fill the prior dict with
      its defaults, in place. */
  method CompletePriorDict(priors: Dict) returns (error: Option<Error>)
    requires priors.Valid()
    modifies priors
    ensures var unknown := FirstUnknown(old(priors.keys), Names(DefaultPriors));
      error == if unknown.Some? then Some(UnknownPrior(unknown.value)) else None
    ensures priors.Valid()
    ensures priors.Contents() == if error.None? then Fill(old(priors.Contents()), DefaultPriors) else old(priors.Contents())
    ensures error.None? ==> MedianDelayKey in priors.vals && SigmaDelayKey in priors.vals
  {
    var unknown := FindUnknown(priors, Names(DefaultPriors));
    if unknown.Some? {
      return Some(UnknownPrior(unknown.value));
    }
    MergeDefaults(priors, DefaultPriors);
    MergedPriors(old(priors.Contents()));
    assert MedianDelayKey == Names(DefaultPriors)[5] && SigmaDelayKey == Names(DefaultPriors)[6];
    return None;
  }

  /** Lines 59-66: reject unknown change-point names, then fill every change-point
      dict with its defaults, in place. */
  method CompleteChangePoints(changePoints: seq<Dict>) returns (error: Option<Error>)
    requires forall d :: d in changePoints ==> d.Valid()
    modifies set d | d in changePoints
    ensures var unknown := FirstUnknownAmong(old(KeysOf(changePoints)), Names(DefaultPriorsChangePoints));
      error == if unknown.Some? then Some(UnknownChangePointPrior(unknown.value)) else None
    ensures forall d :: d in changePoints ==>
      && d.Valid()
      && d.Contents() == if error.None? then Fill(old(d.Contents()), DefaultPriorsChangePoints) else old(d.Contents())
    ensures error.None? ==> forall i :: 0 <= i < |changePoints| ==>
      DateKey in changePoints[i].vals && changePoints[i].vals[DateKey] == old(DatesOf(changePoints))[i]
  {
    ghost var dates := DatesOf(changePoints);
    var unknown := FindUnknownInChangePoints(changePoints, Names(DefaultPriorsChangePoints));
    if unknown.Some? {
      return Some(UnknownChangePointPrior(unknown.value));
    }
    FillChangePoints(changePoints, DefaultPriorsChangePoints);
    forall i | 0 <= i < |changePoints|
      ensures DateKey in changePoints[i].vals && changePoints[i].vals[DateKey] == dates[i]
    {
      ChangePointDefaults(old(changePoints[i].Contents()));
    }
    return None;
  }

  /** Lines 79-83: λ_0, then λ_{i+1} for each change point i. */
  method DeclareRates(model: Model, numChangePoints: nat)
    modifies model
    ensures model.decls == old(model.decls) + RateDecls(numChangePoints)
  {
    model.Declare(Lambda(0), None);
    for i := 0 to numChangePoints
      invariant model.decls == old(model.decls) + RateDecls(i)
    {
      model.Declare(Lambda(i + 1), None);
      assert RateDecls(i + 1) == RateDecls(i) + [Decl(Lambda(i + 1), None)];
    }
  }

  /** Lines 86-96: for each change point in order, reject a date earlier than the
      previous one, then declare transient_begin_i with prior mean
      `(date - date_begin_simulation).days`. A date that is not a date (None when the
      change point gave none) cannot be compared or subtracted: Python raises a TypeError. */
  method DeclareTransientBegins(model: Model, changePoints: seq<Dict>, ghost dates: seq<Value>, dateBeginSimulation: int)
    returns (error: Option<Error>)
    requires |dates| == |changePoints|
    requires forall i :: 0 <= i < |changePoints| ==> DateKey in changePoints[i].vals && changePoints[i].vals[DateKey] == dates[i]
    modifies model
    ensures model.decls == old(model.decls) + TransientBeginDecls(MeansOf(dates, FirstRejected(dates), dateBeginSimulation))
    ensures error == OrderingError(dates)
  {
    var dateBefore := NoneValue;
    for i := 0 to |changePoints|
      invariant forall j :: 0 <= j < i ==> DateAccepted(dates, j) && dates[j].Date?
      invariant model.decls == old(model.decls) + TransientBeginDecls(MeansOf(dates, i, dateBeginSimulation))
      invariant dateBefore == if i == 0 then NoneValue else dates[i - 1]
    {
      var dateBeginTransient := changePoints[i].vals[DateKey];
      assert dateBeginTransient == dates[i];
      if dateBefore != NoneValue {
        if !dateBeginTransient.Date? {
          RejectedAt(dates, i);
          return Some(TypeError);
        }
        if dateBefore.day > dateBeginTransient.day {
          RejectedAt(dates, i);
          return Some(NotTemporallyOrdered);
        }
      }
      if !dateBeginTransient.Date? {
        RejectedAt(dates, i);
        return Some(TypeError);
      }
      model.Declare(TransientBegin(i), Some(dateBeginTransient.day - dateBeginSimulation));
      AcceptedAt(dates, i, dateBeginSimulation);
      dateBefore := dateBeginTransient;
    }
    return None;
  }

  /** Accepting change point i extends the declared transient_begin variables by one. */
  lemma AcceptedAt(dates: seq<Value>, i: nat, dateBeginSimulation: int)
    requires i < |dates| && forall j :: 0 <= j <= i ==> dates[j].Date?
    ensures TransientBeginDecls(MeansOf(dates, i + 1, dateBeginSimulation))
         == TransientBeginDecls(MeansOf(dates, i, dateBeginSimulation))
            + [Decl(TransientBegin(i), Some(dates[i].day - dateBeginSimulation))]
  {
    assert MeansOf(dates, i + 1, dateBeginSimulation)
        == MeansOf(dates, i, dateBeginSimulation) + [dates[i].day - dateBeginSimulation];
  }

  /** The first change point the loop stops at is the first rejected one. */
  lemma RejectedAt(dates: seq<Value>, i: nat)
    requires i < |dates| && !DateAccepted(dates, i)
    requires forall j :: 0 <= j < i ==> DateAccepted(dates, j)
    ensures FirstRejected(dates) == i
  {
  }

  /** Lines 100-105: transient_len_i for each change point i. */
  method DeclareTransientLens(model: Model, numChangePoints: nat)
    modifies model
    ensures model.decls == old(model.decls) + TransientLenDecls(numChangePoints)
  {
    for i := 0 to numChangePoints
      invariant model.decls == old(model.decls) + TransientLenDecls(i)
    {
      model.Declare(TransientLen(i), None);
      assert TransientLenDecls(i + 1) == TransientLenDecls(i) + [Decl(TransientLen(i), None)];
    }
  }

  /**
   * SIR_model_with_change_points. Returns the prior dict it worked on, the model
   * context (null when an error is raised before it is opened at line 73; on a
   * later error, what had been declared in it when the error was raised), and the
   * error raised, if any.
   */
  method SIRModelWithChangePoints(newCasesObs: seq<real>, changePoints: seq<Dict>, dateBeginSimulation: int,
                                  numDaysSim: int, diffDataSim: int, priorsDic: Dict?)
    returns (priors: Dict, model: Model?, error: Option<Error>)
    requires priorsDic != null ==> priorsDic.Valid() && priorsDic !in changePoints
    requires forall d :: d in changePoints ==> d.Valid()
    modifies priorsDic, set d | d in changePoints
    ensures priorsDic != null ==> priors == priorsDic
    ensures priorsDic == null ==> fresh(priors)
    // the errors of lines 34-71 come first, and are raised before the model context is opened
    ensures var configError := ConfigError(old(InitialPriors(priorsDic)), old(KeysOf(changePoints)),
                                           |newCasesObs|, numDaysSim, diffDataSim);
      configError.Some? ==> error == configError && model == null
    // past them, the model context holds what was declared up to the ordering loop's error, or everything
    ensures var configError := ConfigError(old(InitialPriors(priorsDic)), old(KeysOf(changePoints)),
                                           |newCasesObs|, numDaysSim, diffDataSim);
      var dates := old(DatesOf(changePoints));
      configError.None? ==>
        && model != null && fresh(model)
        && model.decls == DeclaredVariables(dates, dateBeginSimulation)
        && error == OrderingError(dates)
    // the prior dict is filled in place once its names are known
    ensures var p0 := old(InitialPriors(priorsDic));
      priors.Valid() && priors.Contents() == if PriorsKnown(p0) then Fill(p0, DefaultPriors) else p0
    // every change-point dict is filled in place once all names, top-level and change-point, are known (lines 52-66)
    ensures forall d :: d in changePoints ==>
      && d.Valid()
      && d.Contents() == if NameError(old(InitialPriors(priorsDic)), old(KeysOf(changePoints))).None?
                         then Fill(old(d.Contents()), DefaultPriorsChangePoints)
                         else old(d.Contents())
  {
    if priorsDic == null {
      priors := new Dict();
    } else {
      priors := priorsDic;
    }
    model := null;
    ghost var dates := DatesOf(changePoints);
    assert priors.Contents() == old(InitialPriors(priorsDic));
    assert KeysOf(changePoints) == old(KeysOf(changePoints));
    assert dates == old(DatesOf(changePoints));

    error := Configure(priors, changePoints, |newCasesObs|, numDaysSim, diffDataSim);
    if error.Some? {
      return;
    }
    model, error := BuildModel(changePoints, dates, dateBeginSimulation);
  }

  /** Lines 52-71 on a prior dict: the name checks and the filling with defaults,
      then the horizon guards on the merged delay priors. */
  method Configure(priors: Dict, changePoints: seq<Dict>, numDaysData: nat, numDaysSim: int, diffDataSim: int)
    returns (error: Option<Error>)
    requires priors.Valid() && priors !in changePoints
    requires forall d :: d in changePoints ==> d.Valid()
    modifies priors, set d | d in changePoints
    ensures error == ConfigError(old(priors.Contents()), old(KeysOf(changePoints)), numDaysData, numDaysSim, diffDataSim)
    ensures priors.Valid()
    ensures priors.Contents() == if PriorsKnown(old(priors.Contents())) then Fill(old(priors.Contents()), DefaultPriors)
                                 else old(priors.Contents())
    ensures forall d :: d in changePoints ==>
      && d.Valid()
      && d.Contents() == if NameError(old(priors.Contents()), old(KeysOf(changePoints))).None?
                         then Fill(old(d.Contents()), DefaultPriorsChangePoints)
                         else old(d.Contents())
    ensures error.None? ==> forall i :: 0 <= i < |changePoints| ==>
      DateKey in changePoints[i].vals && changePoints[i].vals[DateKey] == old(DatesOf(changePoints))[i]
  {
    error := CompletePriors(priors, changePoints);
    if error.Some? {
      return;
    }
    error := CheckHorizon(priors.vals[MedianDelayKey], priors.vals[SigmaDelayKey], diffDataSim, numDaysSim, numDaysData);
  }

  /** Lines 73-154: a fresh model context and the variables declared in it, in
      order, up to the ordering loop's error if it raises one. The change points'
      dates are read from their filled dicts. */
  method BuildModel(changePoints: seq<Dict>, ghost dates: seq<Value>, dateBeginSimulation: int)
    returns (model: Model, error: Option<Error>)
    requires |dates| == |changePoints|
    requires forall i :: 0 <= i < |changePoints| ==> DateKey in changePoints[i].vals && changePoints[i].vals[DateKey] == dates[i]
    ensures fresh(model)
    ensures model.decls == DeclaredVariables(dates, dateBeginSimulation)
    ensures error == OrderingError(dates)
  {
    ghost var n, k := |dates|, FirstRejected(dates);
    model := new Model();
    model.Declare(IBegin, None);
    DeclareRates(model, |changePoints|);
    error := DeclareTransientBegins(model, changePoints, dates, dateBeginSimulation);
    ghost var head := [Decl(IBegin, None)] + RateDecls(n) + TransientBeginDecls(MeansOf(dates, k, dateBeginSimulation));
    assert model.decls == head;
    if error.Some? {
      assert DeclaredVariables(dates, dateBeginSimulation) == head + [];
      return;
    }
    DeclareTransientLens(model, |changePoints|);
    // λ_t (lines 109-118) is an expression over these variables, not a declared one: see Rate.ComposeRate
    DeclareTail(model);
    assert DeclaredVariables(dates, dateBeginSimulation) == head + (TransientLenDecls(n) + TailDecls);
  }

  /** Lines 121-127 and 146-154: μ, delay and σ_obs, then obs, λ_t and new_cases. The
      SIR integration and the delay between them (lines 130-145) declare nothing. */
  method DeclareTail(model: Model)
    modifies model
    ensures model.decls == old(model.decls) + TailDecls
  {
    model.Declare(Mu, None);
    model.Declare(Delay, None);
    model.Declare(SigmaObs, None);
    model.Declare(Obs, None);
    model.Declare(LambdaT, None);
    model.Declare(NewCases, None);
  }
}
