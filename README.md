# SIR model with change points: configuration, guards and declarations

This project models the model-building function `SIR_model_with_change_points`
of the `covid19_inference` package (`covid19_inference/models.py`). The function
builds a Bayesian SIR epidemic model whose spreading rate changes at a list of
change points. The model covers the parts of it that decide what gets built:

- **Prior configuration** (lines 34-66). The caller's prior dict, or a fresh empty
  dict when the caller passes `None`, must use only the eight known names. It is
  then completed in place from `default_priors`. Every change-point dict must use
  only the six known change-point names. Each is then completed in place from
  `default_priors_change_points`. Python's insertion-ordered dict is the class
  `PyDict.Dict`. The completion loops are proved against the pure function
  `PyDict.Fill`.
- **Horizon guards** (lines 68-71). The lead time `diff_data_sim` must cover the
  delay prior's median plus three median-scaled spreads. The simulation must
  cover the data plus that lead time.
- **Declarations** (lines 73-154). The PyMC3 model context is a builder,
  `Declarations.Model`. It records, in order, every named variable declared in it:
  - `I_begin`;
  - `λ_0` … `λ_n`;
  - `transient_begin_i`, with its prior mean day, for each change point;
  - `transient_len_i` for each change point;
  - `μ`, `delay`, `σ_obs`, `obs`, `λ_t` and `new_cases`.

  Before declaring `transient_begin_i`, the loop of lines 86-96 checks that the
  change points are temporally ordered.
- **The time-varying rate** (lines 109-118). `λ_t` is evaluated at one assignment
  of the latent variables. The smooth step function is a parameter of the model.

Errors are values of `Outcomes.Error`:

- `UnknownPrior` and `UnknownChangePointPrior` are the `RuntimeError` of lines 54
  and 62. They carry the offending name.
- `InsufficientLeadTime` and `HorizonTooShort` are the `RuntimeError`s of lines 69
  and 71.
- `NotTemporallyOrdered` is the `RuntimeError` of line 91.
- `TypeError` is what Python raises when one of these values is not usable in
  the arithmetic or comparison that reads it:
  - a delay prior that is not a number (line 68);
  - a change-point date that is not a date (lines 90 and 92). This includes the
    default `None` of a change point that gives no date.

Dates are whole day numbers, so `(date - date_begin_simulation).days` is a
difference of integers.

The function's description of its arguments (lines 14-21) disagrees with the
code in two places. The model follows the code in both:

- The date of a change point is described as required (line 15). The code gives
  it the default `None`, which later fails with a `TypeError`.
- Each change point's `prior_median_λ` is described as the level the rate
  changes to (line 17), which a telescoping rate, a baseline plus one increment
  per change point from one level to the next, would give. The code has no
  baseline, and measures every increment from `λ_0`; see Findings.

## Model

| member | source | states |
|---|---|---|
| `PyDict.Dict.constructor` | covid19_inference/models.py:34-35 | `dict()` is a well-formed dict with no keys |
| `PyDict.Dict.Set` | covid19_inference/models.py:56-57 | `d[k] = v` maps `k` to `v` and leaves every other value unchanged; a new key is appended to the insertion order, an existing key keeps its place; the dict stays well formed |
| `PyDict.FillValid` | covid19_inference/models.py:55-57 | completing a well-formed dict from a table of defaults gives a well-formed dict: distinct keys, exactly the keys that have values |
| `PyDict.FillKeys` | covid19_inference/models.py:55-57 | after completion, a name is present iff it was present before or is one of the table's names |
| `PyDict.FillKeepsValues` | covid19_inference/models.py:55-57 | completion never changes the value of a name the dict already had |
| `PyDict.FillDefaults` | covid19_inference/models.py:55-57 | every table name the dict lacked receives the table's value for it |
| `PyDict.FillOrder` | covid19_inference/models.py:55-57 | the keys after completion are the old keys, in their old order, followed by the missing table names in table order |
| `PyDict.FillSpec` | covid19_inference/models.py:55-57 | all five properties above together, for a table with distinct names |
| `Priors.Lookup` | covid19_inference/models.py:45-46 | `default_priors[name]` returns the value of the first table entry with that name |
| `Priors.FirstUnknown` | covid19_inference/models.py:52-54 | no name is reported iff every key is known; a reported name is an unknown key, and every key before it is known |
| `Priors.FirstUnknownAmong` | covid19_inference/models.py:59-62 | no name is reported iff every dict's keys are known; a reported name is the first unknown key of some dict, and every earlier dict has only known keys |
| `Priors.FindUnknown` | covid19_inference/models.py:52-54 | the scan over one dict's keys returns exactly the first unknown key, or none |
| `Priors.FindUnknownInChangePoints` | covid19_inference/models.py:59-62 | the scan over all change points, dict after dict, returns exactly the first unknown key across them, or none |
| `Priors.SetMissing` | covid19_inference/models.py:56-57 | `if name not in d: d[name] = value` adds the name with its default only when it is missing; the dict stays well formed |
| `Priors.MergeDefaults` | covid19_inference/models.py:55-57 | the loop leaves the dict in the state `Fill` describes for the whole table, which `FillSpec` characterises |
| `Priors.SetMissingInAll` | covid19_inference/models.py:64-66 | one pass of the inner loop adds the name to every change-point dict that lacked it; a dict listed twice is updated once |
| `Priors.FillChangePoints` | covid19_inference/models.py:63-66 | every change-point dict ends up completed from the whole table, also when the list holds the same dict twice |
| `Priors.MergedPriors` | covid19_inference/models.py:37-57 | once its names are known, the merged prior dict has exactly the eight default names; the caller's values are kept and the missing ones get their defaults |
| `Priors.ChangePointDefaults` | covid19_inference/models.py:45-66 | a completed change point has rate priors and a date; missing rate priors get 0.4 and 0.5, the baseline defaults of `default_priors`, not the caller's values; a missing date gets `None`; a given date is kept |
| `Priors.DocumentedNameRejected` | covid19_inference/models.py:19-62 | the documented name `prior_sigma_begin_transient` is not a key the code knows, so a change point using it is rejected with that name |
| `Guards.CheckHorizon` | covid19_inference/models.py:68-71 | no error iff both delay priors are numbers, the lead time reaches median + 3·median·sigma, and the simulation covers the data plus the lead time; a `TypeError` exactly when a delay prior is not a number; the lead-time error exactly when both are numbers and the lead time falls short; the short-simulation error exactly when the lead time suffices and the simulation does not cover the data plus the lead time; on success the inferred series of `num_days_sim - diff_data_sim` days covers every observed day |
| `Guards.DefaultLeadTime` | covid19_inference/models.py:42-69 | with the default delay prior (8, 0.2) the threshold is 12.8, so the lead-time error is raised exactly when `diff_data_sim <= 12` |
| `Declarations.Model.constructor` | covid19_inference/models.py:73 | a new model context has nothing declared |
| `Declarations.Model.Declare` | covid19_inference/models.py:75-79 | declaring a variable appends it to the context's declarations and changes nothing else |
| `Declarations.FirstRejected` | covid19_inference/models.py:86-96 | the ordering loop stops at the first change point whose date is not a date or is earlier than the previous date; every change point before it has an accepted date |
| `Declarations.OrderingErrorExactly` | covid19_inference/models.py:88-91 | when every change point has a date, the loop raises iff some date is strictly earlier than its predecessor's, and the error is then the ordering error; equal dates pass |
| `Declarations.DeclaredOnRejection` | covid19_inference/models.py:73-96 | when the loop raises at change point k, the context holds exactly `I_begin`, `λ_0`…`λ_n` and `transient_begin_0`…`transient_begin_{k-1}`, each with prior mean `date_i - date_begin_simulation` |
| `Declarations.DeclaredOnSuccess` | covid19_inference/models.py:73-154 | when no change point is rejected, the context holds 3n+8 variables in source order, with each `transient_begin_i` centred on its date's offset from the simulation start |
| `Declarations.NamesDistinct` | covid19_inference/models.py:73-154 | no two declared variables share a name |
| `Declarations.OutOfOrderExample` | covid19_inference/models.py:88-96 | dates day 20 then day 10 raise the ordering error after `I_begin`, `λ_0`, `λ_1`, `λ_2` and `transient_begin_0` |
| `Declarations.MissingDateExample` | covid19_inference/models.py:88-92 | a second change point without a date raises a `TypeError` |
| `Models.CompletePriorDict` | covid19_inference/models.py:52-57 | the first unknown top-level name is reported and the dict is left unchanged; otherwise the dict is completed from `default_priors` and holds both delay priors |
| `Models.CompleteChangePoints` | covid19_inference/models.py:59-66 | the first unknown change-point name is reported and no dict is changed; otherwise every dict is completed, and each change point's date entry is its own date or `None` |
| `Models.CompletePriors` | covid19_inference/models.py:52-66 | the name error is the first unknown top-level name, else the first unknown change-point name; the change points are filled only when both checks pass |
| `Models.Configure` | covid19_inference/models.py:52-71 | the error is the name error or else the horizon guards' verdict on the merged delay priors; both kinds of dict are completed as far as the name checks allow |
| `Models.DeclareRates` | covid19_inference/models.py:78-83 | declares `λ_0` and then `λ_{i+1}` for each change point, in order |
| `Models.DeclareTransientBegins` | covid19_inference/models.py:86-96 | declares `transient_begin_i` for every change point before the first rejected one, and returns that change point's error; returns no error when none is rejected |
| `Models.DeclareTransientLens` | covid19_inference/models.py:100-105 | declares `transient_len_i` for each change point, in order |
| `Models.DeclareTail` | covid19_inference/models.py:120-154 | declares `μ`, `delay`, `σ_obs`, `obs`, `λ_t` and `new_cases`, in order |
| `Models.BuildModel` | covid19_inference/models.py:73-154 | a fresh context holds exactly the declarations `DeclaredVariables` describes, and the error is the ordering loop's |
| `Models.SIRModelWithChangePoints` | covid19_inference/models.py:9-155 | The configuration error, if any, is returned before the context is opened. Otherwise the new context holds the declarations for the change points' dates and the error is the ordering loop's. The prior dict is the caller's, or a new one for `None`, and is completed in place once its names are known. The change-point dicts are completed in place once all names are known. |
| `Rate.PySum` | covid19_inference/models.py:118 | `sum` of no terms is the number 0; of one or more equal-length vectors, a vector of that length |
| `Rate.PySumAt` | covid19_inference/models.py:118 | the value of `sum(terms)` on day t is the sum of the terms' values on day t |
| `Rate.ComposeRate` | covid19_inference/models.py:108-118 | with no change point the rate is the number 0; otherwise it is a vector over the simulated days; on day t it equals Σ_i step_i[t]·(λ_{i+1} − λ_0) |
| `Rate.ComposeRateIntended` | covid19_inference/models.py:108-118 | the corrected composition is a vector over the simulated days whose value on day t is λ_0 + Σ_i step_i[t]·(λ_{i+1} − λ_i) |
| `Rate.IntendedPlateau` | covid19_inference/models.py:108-118 | the corrected rate telescopes: on a day where the first j transitions are complete and the rest have not started, it equals λ_j |
| `Rate.AsWrittenDropsBaseline` | covid19_inference/models.py:108-118 | with no change point the rate as written is 0 where the corrected rate is λ_0 = 0.4 |
| `Rate.AsWrittenMeasuresFromFirstRate` | covid19_inference/models.py:108-118 | with λ = 0.4, 0.2, 0.1 and both transitions complete, the rate as written is −0.5 where the corrected rate is λ_2 = 0.1 |

## Left out

- Distribution families and their parameters (`HalfCauchy`, `Lognormal`, `Normal`, `StudentT`, `np.log` of the medians, the sigmas) are left out. A declaration records only the variable's name and, for `transient_begin_i`, its prior mean day. These are PyMC3 objects with no counterpart here.
- `_SIR_model`, `_smooth_step_function` and `_delay_cases` come from `modelling_help_functions.py`, which is not part of this model. The smooth step is a function parameter, of which only the length of its result is assumed. The two other helpers are assumed to declare no named variables.
- The likelihood (lines 129-151) is left out: `N_germany`, the SIR recursion, the delayed cases and the Student-t observation model are numerical PyMC3/Theano code. Of `new_cases_obs` only its length is used.
- `Rate.ComposeRate` evaluates `λ_t` at concrete values of the latent variables, as exact reals, instead of building a symbolic Theano expression.
- All arithmetic is on exact reals, not IEEE doubles. The threshold 8 + 3·8·0.2 is 12.8 here; in floating point it may differ in the last bits. That does not change which integer lead times pass.
- Dates are whole day numbers: a `datetime` with a time of day, and the truncation `.days` applies to it, are not modelled.
- Values other than numbers, dates and `None` (strings, booleans, the distinction between `int` and `float`) are not modelled.
- Models.SIRModelWithChangePoints, Models.Configure, Models.CompletePriors: require that the prior dict is not also one of the change-point dicts. In Python that call always raises the change-point name error: after merging, the shared dict holds the eight top-level names, none of which is a change-point name. The model does not state this case.
- Models.SIRModelWithChangePoints: does not model errors that `np.log` or PyMC3 raise on unusable prior values at lines 75-127, for example a caller's `None` or a non-positive median. Where Python would raise, the model reports success.
- Models.BuildModel, Declarations.DeclaredOnSuccess: with no change points the build is modelled as a success with 3·0+8 declarations. There `λ_t` is the Python int 0 (line 118), which goes to `_SIR_model` (line 136) and to `pm.Deterministic('λ_t', λ_t)` (line 153); the model assumes lines 136-154 accept it, although PyMC3 may raise there, after `obs` is declared.
- Models.SIRModelWithChangePoints: when the ordering loop raises, it returns the context as it stood at the raise. In Python the exception discards it; the model exposes it so that what was declared can be stated.
- The messages of the `RuntimeError`s are left out. An error is a datatype constructor, carrying the unknown name where the message does.

## Findings

| source | as written | input that shows it | evidently intended | confidence | as-written member | corrected member |
|---|---|---|---|---|---|---|
| covid19_inference/models.py:109-118 | `λ_t = Σ_i step_i·(λ_{i+1} − λ_step_before)` with no baseline term; `λ_step_before` is set once to `λ_0` and never advanced | λ = 0.4, 0.2, 0.1 with both transitions complete gives λ_t = −0.5; with no change point λ_t is the number 0 | `λ_t = λ_0 + Σ_i step_i·(λ_{i+1} − λ_i)`, equal to λ_j after j complete transitions | high, not executed | `Rate.AsWrittenMeasuresFromFirstRate` | `Rate.ComposeRateIntended` |
