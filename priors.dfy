/**
 * The prior configuration of SIR_model_with_change_points: the two default
 * tables, the rejection of unknown names and the in-place filling of missing
 * names with their defaults.
 */
module Priors {
  import opened Outcomes
  import opened PyDict

  /** `default_priors`, in its literal's order. */
  const DefaultPriors: Defaults := [
    ("prior_beta_I_begin", Num(100.0)),
    ("prior_median_λ_0", Num(0.4)),
    ("prior_sigma_λ_0", Num(0.5)),
    ("prior_median_μ", Num(0.125)),
    ("prior_sigma_μ", Num(0.2)),
    ("prior_median_delay", Num(8.0)),
    ("prior_sigma_delay", Num(0.2)),
    ("prior_beta_σ_obs", Num(10.0))
  ]

  const MedianDelayKey := "prior_median_delay"
  const SigmaDelayKey := "prior_sigma_delay"
  const DateKey := "prior_mean_date_begin_transient"

  /** `ds[name]` on a default table: the value of the first entry with that name. */
  function Lookup(ds: Defaults, name: string): (v: Value)
    requires name in Names(ds)
    ensures exists i :: 0 <= i < |ds| && ds[i] == (name, v) && forall j :: 0 <= j < i ==> ds[j].0 != name
  {
    if ds[0].0 == name then ds[0].1
    else
      assert Names(ds) == [ds[0].0] + Names(ds[1..]);
      Lookup(ds[1..], name)
  }

  /** `default_priors_change_points`: the two rate defaults are read from
      `default_priors`'s baseline entries, the date defaults to None. */
  const DefaultPriorsChangePoints: Defaults :=
    assert Names(DefaultPriors)[1] == "prior_median_λ_0" && Names(DefaultPriors)[2] == "prior_sigma_λ_0";
    [
    ("prior_median_λ", Lookup(DefaultPriors, "prior_median_λ_0")),
    ("prior_sigma_λ", Lookup(DefaultPriors, "prior_sigma_λ_0")),
    ("prior_sigma_date_begin_transient", Num(3.0)),
    ("prior_median_transient_len", Num(3.0)),
    ("prior_sigma_transient_len", Num(0.3)),
    (DateKey, NoneValue)
  ]

  /** The first of `keys` that is not among the `known` names, if any: the name
      `for prior_name in d.keys(): if prior_name not in defaults: raise` reports. */
  function FirstUnknown(keys: seq<string>, known: seq<string>): (r: Option<string>)
    ensures r.None? <==> forall i :: 0 <= i < |keys| ==> keys[i] in known
    ensures r.Some? ==> exists i :: 0 <= i < |keys| && keys[i] == r.value && r.value !in known
                                   && forall j :: 0 <= j < i ==> keys[j] in known
  {
    if keys == [] then None
    else if keys[0] !in known then Some(keys[0])
    else
      var r := FirstUnknown(keys[1..], known);
      assert r.Some? ==> exists i :: 0 <= i < |keys| && keys[i] == r.value && r.value !in known
                                     && forall j :: 0 <= j < i ==> keys[j] in known by {
        if r.Some? {
          var i :| 0 <= i < |keys[1..]| && keys[1..][i] == r.value && r.value !in known
                   && forall j :: 0 <= j < i ==> keys[1..][j] in known;
          assert keys[i + 1] == r.value;
          assert forall j :: 0 <= j < i + 1 ==> keys[j] in known by {
            forall j | 0 <= j < i + 1 ensures keys[j] in known {
              if j > 0 { assert keys[j] == keys[1..][j - 1]; }
            }
          }
        }
      }
      r
  }

  /** The first unknown name over several dicts, scanned one dict after the other. */
  function FirstUnknownAmong(keyLists: seq<seq<string>>, known: seq<string>): (r: Option<string>)
    ensures r.None? <==> forall i :: 0 <= i < |keyLists| ==> FirstUnknown(keyLists[i], known).None?
    ensures r.Some? ==> exists i :: 0 <= i < |keyLists| && FirstUnknown(keyLists[i], known) == r
                                   && forall j :: 0 <= j < i ==> FirstUnknown(keyLists[j], known).None?
  {
    if keyLists == [] then None
    else
      match FirstUnknown(keyLists[0], known)
      case Some(k) => Some(k)
      case None =>
        var r := FirstUnknownAmong(keyLists[1..], known);
        assert r.Some? ==> exists i :: 0 <= i < |keyLists| && FirstUnknown(keyLists[i], known) == r
                                       && forall j :: 0 <= j < i ==> FirstUnknown(keyLists[j], known).None? by {
          if r.Some? {
            var i :| 0 <= i < |keyLists[1..]| && FirstUnknown(keyLists[1..][i], known) == r
                     && forall j :: 0 <= j < i ==> FirstUnknown(keyLists[1..][j], known).None?;
            assert keyLists[i + 1] == keyLists[1..][i];
            forall j | 0 <= j < i + 1 ensures FirstUnknown(keyLists[j], known).None? {
              if j > 0 { assert keyLists[j] == keyLists[1..][j - 1]; }
            }
          }
        }
        r
  }

  /** The key lists of the change-point dicts, in list order. */
  ghost function KeysOf(dicts: seq<Dict>): seq<seq<string>>
    reads set d | d in dicts
  {
    seq(|dicts|, i requires 0 <= i < |dicts| reads set d | d in dicts => dicts[i].keys)
  }

  /** Lines 52-54 and 60-62: the scan over one dict's keys for a name outside `known`. */
  method FindUnknown(d: Dict, known: seq<string>) returns (unknown: Option<string>)
    ensures unknown == FirstUnknown(d.keys, known)
  {
    var i := 0;
    while i < |d.keys|
      invariant i <= |d.keys|
      invariant FirstUnknown(d.keys, known) == FirstUnknown(d.keys[i..], known)
    {
      if d.keys[i] !in known {
        return Some(d.keys[i]);
      }
      assert d.keys[i..][1..] == d.keys[i + 1..];
      i := i + 1;
    }
    return None;
  }

  /** Lines 59-62: every change-point dict is scanned, in list order, before any is filled. */
  method FindUnknownInChangePoints(changePoints: seq<Dict>, known: seq<string>) returns (unknown: Option<string>)
    ensures unknown == FirstUnknownAmong(KeysOf(changePoints), known)
  {
    ghost var keyLists := KeysOf(changePoints);
    for i := 0 to |changePoints|
      invariant FirstUnknownAmong(keyLists, known) == FirstUnknownAmong(keyLists[i..], known)
    {
      unknown := FindUnknown(changePoints[i], known);
      assert keyLists[i..][0] == changePoints[i].keys;
      if unknown.Some? {
        return;
      }
      assert keyLists[i..][1..] == keyLists[i + 1..];
    }
    return None;
  }

  /** The body of the loops at lines 55-57 and 63-66: a name the dict lacks is set to its default. */
  method SetMissing(d: Dict, name: string, value: Value)
    requires d.Valid()
    modifies d
    ensures d.Valid() && d.Contents() == AddMissing(old(d.Contents()), name, value)
  {
    if name !in d.vals {
      d.Set(name, value);
    }
  }

  /** Lines 55-57: every default name missing from the dict is added with its default value. */
  method MergeDefaults(d: Dict, ds: Defaults)
    requires d.Valid()
    modifies d
    ensures d.Valid() && d.Contents() == Fill(old(d.Contents()), ds)
  {
    for i := 0 to |ds|
      invariant d.Valid() && d.Contents() == Fill(old(d.Contents()), ds[..i])
    {
      var (name, value) := ds[i];
      assert ds[..i + 1][..i] == ds[..i];
      SetMissing(d, name, value);
    }
    assert ds[..|ds|] == ds;
  }

  /** One pass of the inner loop of lines 63-66: the name is set to its default in
      every change-point dict that lacks it. A dict listed twice is visited twice;
      the second visit changes nothing. */
  method SetMissingInAll(changePoints: seq<Dict>, name: string, value: Value)
    requires forall d :: d in changePoints ==> d.Valid()
    modifies set d | d in changePoints
    ensures forall d :: d in changePoints ==> d.Valid() && d.Contents() == AddMissing(old(d.Contents()), name, value)
  {
    for j := 0 to |changePoints|
      invariant forall d :: d in changePoints ==>
        && d.Valid()
        && d.Contents() == if d in changePoints[..j] then AddMissing(old(d.Contents()), name, value) else old(d.Contents())
    {
      var cp := changePoints[j];
      SetMissing(cp, name, value);
      assert changePoints[..j + 1] == changePoints[..j] + [cp];
    }
    assert changePoints[..|changePoints|] == changePoints;
  }

  /** Lines 63-66: the outer loop runs over the default names, the inner one over
      the change points; every change-point dict ends up filled from the table,
      also when the same dict appears in the list more than once. */
  method FillChangePoints(changePoints: seq<Dict>, ds: Defaults)
    requires forall d :: d in changePoints ==> d.Valid()
    modifies set d | d in changePoints
    ensures forall d :: d in changePoints ==> d.Valid() && d.Contents() == Fill(old(d.Contents()), ds)
  {
    for i := 0 to |ds|
      invariant forall d :: d in changePoints ==> d.Valid() && d.Contents() == Fill(old(d.Contents()), ds[..i])
    {
      var (name, value) := ds[i];
      SetMissingInAll(changePoints, name, value);
      assert ds[..i + 1][..i] == ds[..i];
    }
    assert ds[..|ds|] == ds;
  }

  /** Lines 52-57 on success: the merged prior dict holds exactly the eight
      default names; a value the caller gave is kept, a missing one is the default. */
  lemma MergedPriors(e: Entries)
    requires e.Valid() && FirstUnknown(e.keys, Names(DefaultPriors)).None?
    ensures var r := Fill(e, DefaultPriors);
      && r.Valid()
      && (forall k :: k in r.vals <==> k in Names(DefaultPriors))
      && (forall k :: k in e.vals ==> r.vals[k] == e.vals[k])
      && (forall i :: 0 <= i < |DefaultPriors| && DefaultPriors[i].0 !in e.vals ==>
            DefaultPriors[i].0 in r.vals && r.vals[DefaultPriors[i].0] == DefaultPriors[i].1)
  {
    FillSpec(e, DefaultPriors);
  }

  /** Lines 45-50 and 63-66: a change point that leaves out its rate priors gets
      0.4 and 0.5, the table's own baseline defaults, whatever the caller gave as
      prior_median_λ_0 or prior_sigma_λ_0; one that leaves out its date gets None. */
  lemma ChangePointDefaults(e: Entries)
    requires e.Valid()
    ensures var r := Fill(e, DefaultPriorsChangePoints);
      && "prior_median_λ" in r.vals && "prior_sigma_λ" in r.vals && DateKey in r.vals
      && ("prior_median_λ" !in e.vals ==> r.vals["prior_median_λ"] == Num(0.4))
      && ("prior_sigma_λ" !in e.vals ==> r.vals["prior_sigma_λ"] == Num(0.5))
      && (DateKey !in e.vals ==> r.vals[DateKey] == NoneValue)
      && (DateKey in e.vals ==> r.vals[DateKey] == e.vals[DateKey])
  {
    FillSpec(e, DefaultPriorsChangePoints);
    assert DefaultPriorsChangePoints[0].0 == "prior_median_λ";
    assert DefaultPriorsChangePoints[1].0 == "prior_sigma_λ";
    assert DefaultPriorsChangePoints[5].0 == DateKey;
  }

  /** The documented name `prior_sigma_begin_transient` is not a key the code knows:
      a change point using it is rejected. */
  lemma DocumentedNameRejected()
    ensures FirstUnknown(["prior_sigma_begin_transient"], Names(DefaultPriorsChangePoints))
            == Some("prior_sigma_begin_transient")
  {
  }
}
