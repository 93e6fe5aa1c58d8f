/**
 * The PyMC3 model context that SIR_model_with_change_points fills, seen as an
 * explicit builder that records, in order, the name of each variable declared in
 * it and, for a change point's transient_begin_i, its integer prior mean day.
 * Also the specification of what the declaration phase leaves in the builder.
 */
module Declarations {
  import opened Outcomes
  import opened PyDict

  /** The names of the model's variables: "I_begin", "λ_i", "transient_begin_i",
      "transient_len_i", "μ", "delay", "σ_obs", "obs", "λ_t", "new_cases". */
  datatype VarName =
    | IBegin
    | Lambda(i: nat)
    | TransientBegin(i: nat)
    | TransientLen(i: nat)
    | Mu
    | Delay
    | SigmaObs
    | Obs
    | LambdaT
    | NewCases

  /** One declared variable. */
  datatype Decl = Decl(name: VarName, priorMeanDay: Option<int>)

  /** The `pm.Model()` context, as an explicit builder. */
  class Model {
    var decls: seq<Decl>

    /** `pm.Model()`: nothing declared yet. */
    constructor ()
      ensures decls == []
    {
      decls := [];
    }

    /** A named variable registered in the model context. */
    method Declare(name: VarName, priorMeanDay: Option<int>)
      modifies this
      ensures decls == old(decls) + [Decl(name, priorMeanDay)]
    {
      decls := decls + [Decl(name, priorMeanDay)];
    }
  }

  /** λ_0, λ_1, ..., λ_n for n change points (lines 79-83). */
  function RateDecls(n: nat): seq<Decl> {
    seq(n + 1, i requires 0 <= i <= n => Decl(Lambda(i), None))
  }

  /** transient_begin_0, ... with their prior mean days (lines 92-94). */
  function TransientBeginDecls(means: seq<int>): seq<Decl> {
    seq(|means|, i requires 0 <= i < |means| => Decl(TransientBegin(i), Some(means[i])))
  }

  /** transient_len_0, ..., transient_len_{n-1} (lines 101-104). */
  function TransientLenDecls(n: nat): seq<Decl> {
    seq(n, i requires 0 <= i < n => Decl(TransientLen(i), None))
  }

  /** μ, delay, σ_obs (lines 121-127), then obs, λ_t and new_cases (lines 146-154). */
  const TailDecls: seq<Decl> := [
    Decl(Mu, None), Decl(Delay, None), Decl(SigmaObs, None),
    Decl(Obs, None), Decl(LambdaT, None), Decl(NewCases, None)
  ]

  /** Lines 89-92 for change point i, reached only when every earlier one passed
      (so the previous date is a date): its date must be a date, no earlier than
      the previous one. Equal dates pass. */
  predicate DateAccepted(dates: seq<Value>, i: nat)
    requires i < |dates|
  {
    dates[i].Date? && (i == 0 || (dates[i - 1].Date? && dates[i - 1].day <= dates[i].day))
  }

  /** The error raised for a rejected date: comparing or subtracting a value that
      is not a date (a change point left without a date gets None) is a TypeError,
      a date earlier than the previous one is the ordering error. */
  function Rejection(date: Value): Error {
    if date.Date? then NotTemporallyOrdered else TypeError
  }

  function FirstRejectedFrom(dates: seq<Value>, i: nat): (k: nat)
    requires i <= |dates|
    ensures i <= k <= |dates|
    ensures forall j :: i <= j < k ==> DateAccepted(dates, j) && dates[j].Date?
    ensures k < |dates| ==> !DateAccepted(dates, k)
    decreases |dates| - i
  {
    if i == |dates| || !DateAccepted(dates, i) then i else FirstRejectedFrom(dates, i + 1)
  }

  /** The index of the first change point whose date the loop of lines 88-96
      rejects, or the number of change points when it rejects none. */
  function FirstRejected(dates: seq<Value>): (k: nat)
    ensures k <= |dates|
    ensures forall j :: 0 <= j < k ==> DateAccepted(dates, j) && dates[j].Date?
    ensures k < |dates| ==> !DateAccepted(dates, k)
  {
    FirstRejectedFrom(dates, 0)
  }

  /** `(date - date_begin_simulation).days` for each of the first k dates. */
  function MeansOf(dates: seq<Value>, k: nat, dateBeginSimulation: int): (means: seq<int>)
    requires k <= |dates| && forall i :: 0 <= i < k ==> dates[i].Date?
    ensures |means| == k
  {
    seq(k, i requires 0 <= i < k => dates[i].day - dateBeginSimulation)
  }

  /** What the model context holds after the declaration phase, for change points
      with these dates: everything up to the rejected change point's
      transient_begin when the ordering loop raises, the whole model otherwise. */
  function DeclaredVariables(dates: seq<Value>, dateBeginSimulation: int): seq<Decl> {
    var n, k := |dates|, FirstRejected(dates);
    [Decl(IBegin, None)] + RateDecls(n) + TransientBeginDecls(MeansOf(dates, k, dateBeginSimulation))
      + (if k == n then TransientLenDecls(n) + TailDecls else [])
  }

  /** The error of the ordering loop, if any. */
  function OrderingError(dates: seq<Value>): Option<Error> {
    var k := FirstRejected(dates);
    if k == |dates| then None else Some(Rejection(dates[k]))
  }

  /** When every change point has a date, the ordering loop raises exactly when
      some date is strictly earlier than its predecessor's, and then it raises the
      ordering error; equal dates are accepted. */
  lemma {:induction false} OrderingErrorExactly(dates: seq<Value>)
    requires forall i :: 0 <= i < |dates| ==> dates[i].Date?
    ensures OrderingError(dates).Some? <==> exists i :: 0 < i < |dates| && dates[i].day < dates[i - 1].day
    ensures OrderingError(dates).Some? ==> OrderingError(dates) == Some(NotTemporallyOrdered)
  {
    var k := FirstRejected(dates);
    if exists i :: 0 < i < |dates| && dates[i].day < dates[i - 1].day {
      var i :| 0 < i < |dates| && dates[i].day < dates[i - 1].day;
      assert !DateAccepted(dates, i);
    }
  }

  /** What has been declared when the ordering loop raises at change point k: I_begin,
      λ_0 to λ_n and transient_begin_0 to transient_begin_{k-1}, and nothing else. */
  lemma {:induction false} DeclaredOnRejection(dates: seq<Value>, dateBeginSimulation: int)
    requires FirstRejected(dates) < |dates|
    ensures |DeclaredVariables(dates, dateBeginSimulation)| == |dates| + 2 + FirstRejected(dates)
    ensures DeclaredVariables(dates, dateBeginSimulation)[0].name == IBegin
    ensures forall i :: 0 <= i <= |dates| ==> DeclaredVariables(dates, dateBeginSimulation)[1 + i].name == Lambda(i)
    ensures forall i :: 0 <= i < FirstRejected(dates) ==>
      dates[i].Date? &&
      DeclaredVariables(dates, dateBeginSimulation)[|dates| + 2 + i] == Decl(TransientBegin(i), Some(dates[i].day - dateBeginSimulation))
  {
    var n, k := |dates|, FirstRejected(dates);
    var decls := DeclaredVariables(dates, dateBeginSimulation);
    var rates, tb := RateDecls(n), TransientBeginDecls(MeansOf(dates, k, dateBeginSimulation));
    RejectedShape(dates, dateBeginSimulation);
    forall i | 0 <= i <= n ensures decls[1 + i].name == Lambda(i) {
      assert decls[1 + i] == rates[i];
    }
    forall i | 0 <= i < k
      ensures dates[i].Date? && decls[n + 2 + i] == Decl(TransientBegin(i), Some(dates[i].day - dateBeginSimulation))
    {
      assert decls[n + 2 + i] == tb[i];
    }
  }

  lemma RejectedShape(dates: seq<Value>, dateBeginSimulation: int)
    requires FirstRejected(dates) < |dates|
    ensures DeclaredVariables(dates, dateBeginSimulation) ==
      [Decl(IBegin, None)] + RateDecls(|dates|) + TransientBeginDecls(MeansOf(dates, FirstRejected(dates), dateBeginSimulation))
  {
  }

  /** What has been declared when no change point is rejected: I_begin, λ_0 to λ_n,
      every transient_begin_i with prior mean date_i - date_begin_simulation days,
      every transient_len_i, then μ, delay, σ_obs, obs, λ_t and new_cases. */
  lemma {:induction false} DeclaredOnSuccess(dates: seq<Value>, dateBeginSimulation: int)
    requires FirstRejected(dates) == |dates|
    ensures var n, decls := |dates|, DeclaredVariables(dates, dateBeginSimulation);
      && |decls| == 3 * n + 8
      && decls[0].name == IBegin
      && (forall i :: 0 <= i <= n ==> decls[1 + i].name == Lambda(i))
      && (forall i :: 0 <= i < n ==>
            dates[i].Date? && decls[n + 2 + i] == Decl(TransientBegin(i), Some(dates[i].day - dateBeginSimulation)))
      && (forall i :: 0 <= i < n ==> decls[2 * n + 2 + i].name == TransientLen(i))
      && decls[3 * n + 2..] == TailDecls
  {
    var n := |dates|;
    var decls := DeclaredVariables(dates, dateBeginSimulation);
    assert decls == [Decl(IBegin, None)] + RateDecls(n) + TransientBeginDecls(MeansOf(dates, n, dateBeginSimulation))
                    + TransientLenDecls(n) + TailDecls;
  }

  /** No two variables of the model share a name, as PyMC3 requires. */
  lemma {:induction false} NamesDistinct(dates: seq<Value>, dateBeginSimulation: int)
    ensures var decls := DeclaredVariables(dates, dateBeginSimulation);
      forall i, j :: 0 <= i < j < |decls| ==> decls[i].name != decls[j].name
  {
    var n, k := |dates|, FirstRejected(dates);
    var decls := DeclaredVariables(dates, dateBeginSimulation);
    var tb := TransientBeginDecls(MeansOf(dates, k, dateBeginSimulation));
    var front := [Decl(IBegin, None)] + RateDecls(n) + tb;
    // each declaration's name determines its position
    forall i | 0 <= i < |decls|
      ensures Position(decls[i].name, n, k) == i
    {
      if i == 0 {
      } else if i < n + 2 {
        assert decls[i] == RateDecls(n)[i - 1];
      } else if i < n + 2 + k {
        assert decls[i] == tb[i - n - 2];
      } else if i < 2 * n + 2 + k {
        assert decls[i] == TransientLenDecls(n)[i - n - 2 - k];
      } else {
        assert decls[i] == TailDecls[i - 2 * n - 2 - k];
      }
    }
  }

  /** The position a name takes in the declaration order. */
  function Position(name: VarName, n: nat, k: nat): int {
    match name
    case IBegin => 0
    case Lambda(i) => 1 + i
    case TransientBegin(i) => n + 2 + i
    case TransientLen(i) => n + 2 + k + i
    case Mu => 2 * n + 2 + k
    case Delay => 2 * n + 3 + k
    case SigmaObs => 2 * n + 4 + k
    case Obs => 2 * n + 5 + k
    case LambdaT => 2 * n + 6 + k
    case NewCases => 2 * n + 7 + k
  }

  /** Two change points dated day 20 and then day 10 raise the ordering error,
      after I_begin, λ_0, λ_1, λ_2 and transient_begin_0 are declared. */
  lemma OutOfOrderExample(dateBeginSimulation: int)
    ensures OrderingError([Date(20), Date(10)]) == Some(NotTemporallyOrdered)
    ensures DeclaredVariables([Date(20), Date(10)], dateBeginSimulation) ==
      [Decl(IBegin, None), Decl(Lambda(0), None), Decl(Lambda(1), None), Decl(Lambda(2), None),
       Decl(TransientBegin(0), Some(20 - dateBeginSimulation))]
  {
    var dates := [Date(20), Date(10)];
    assert DateAccepted(dates, 0) && !DateAccepted(dates, 1);
    assert FirstRejected(dates) == 1;
  }

  /** A change point left without a date keeps the default None, and the loop
      raises a TypeError when it reaches it. */
  lemma MissingDateExample()
    ensures OrderingError([Date(5), NoneValue]) == Some(TypeError)
  {
    var dates := [Date(5), NoneValue];
    assert DateAccepted(dates, 0) && !DateAccepted(dates, 1);
  }
}
