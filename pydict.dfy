/**
 * Python's built-in dict as the prior configuration uses it: string keys kept in
 * insertion order, each mapped to a value, updated in place by `d[k] = v`.
 */
module PyDict {

  /** A value stored in a prior dictionary: a number, a calendar date given as a
      day number, or None. */
  datatype Value = Num(x: real) | Date(day: int) | NoneValue

  ghost predicate Distinct(s: seq<string>) {
    forall i, j :: 0 <= i < j < |s| ==> s[i] != s[j]
  }

  /** The contents of a dict: its keys in insertion order and the value under each key. */
  datatype Entries = Entries(keys: seq<string>, vals: map<string, Value>) {
    ghost predicate Valid() {
      && Distinct(keys)
      && forall k :: k in vals <==> k in keys
    }
  }

  /** A table of defaults written as a dict literal: names in order, each with its value. */
  type Defaults = seq<(string, Value)>

  /** The keys of a table of defaults, in order. */
  function Names(ds: Defaults): seq<string> {
    seq(|ds|, i requires 0 <= i < |ds| => ds[i].0)
  }

  /** `if name not in d: d[name] = v` */
  function AddMissing(e: Entries, name: string, v: Value): Entries {
    if name in e.vals then e else Entries(e.keys + [name], e.vals[name := v])
  }

  /** The contents after `for name, v in ds.items(): if name not in d: d[name] = v`. */
  function Fill(e: Entries, ds: Defaults): Entries
    decreases |ds|
  {
    if ds == [] then e
    else
      var last := ds[|ds| - 1];
      AddMissing(Fill(e, ds[..|ds| - 1]), last.0, last.1)
  }

  /** The names of ds that vals lacks, in the order of ds. */
  function Missing(vals: map<string, Value>, ds: Defaults): seq<string>
    decreases |ds|
  {
    if ds == [] then []
    else
      var last := ds[|ds| - 1];
      Missing(vals, ds[..|ds| - 1]) + (if last.0 in vals then [] else [last.0])
  }

  /** The names of a table split at its last entry; with distinct names, the last is not among the others. */
  lemma NamesSnoc(ds: Defaults)
    requires ds != []
    ensures Names(ds) == Names(ds[..|ds| - 1]) + [ds[|ds| - 1].0]
    ensures Distinct(Names(ds)) ==> ds[|ds| - 1].0 !in Names(ds[..|ds| - 1])
    ensures Distinct(Names(ds)) ==> Distinct(Names(ds[..|ds| - 1]))
  {
    var front := ds[..|ds| - 1];
    assert Names(ds) == Names(front) + [ds[|ds| - 1].0];
    if Distinct(Names(ds)) {
      forall j | 0 <= j < |front| ensures Names(front)[j] != ds[|ds| - 1].0 {
        assert Names(ds)[j] == Names(front)[j] && Names(ds)[|ds| - 1] == ds[|ds| - 1].0;
      }
      forall i, j | 0 <= i < j < |front| ensures Names(front)[i] != Names(front)[j] {
        assert Names(ds)[i] == Names(front)[i] && Names(ds)[j] == Names(front)[j];
      }
    }
  }

  /** Filling in defaults keeps a dict well formed. */
  lemma {:induction false} FillValid(e: Entries, ds: Defaults)
    requires e.Valid()
    ensures Fill(e, ds).Valid()
  {
    if ds != [] {
      FillValid(e, ds[..|ds| - 1]);
    }
  }

  /** Filling in defaults adds exactly the default names to the keys. */
  lemma {:induction false} FillKeys(e: Entries, ds: Defaults)
    ensures forall k :: k in Fill(e, ds).vals <==> k in e.vals || k in Names(ds)
  {
    if ds != [] {
      FillKeys(e, ds[..|ds| - 1]);
      NamesSnoc(ds);
    }
  }

  /** Filling in defaults never changes the value of a key the dict already had. */
  lemma {:induction false} FillKeepsValues(e: Entries, ds: Defaults)
    ensures forall k :: k in e.vals ==> k in Fill(e, ds).vals && Fill(e, ds).vals[k] == e.vals[k]
  {
    if ds != [] {
      FillKeepsValues(e, ds[..|ds| - 1]);
    }
  }

  /** Every default name the dict lacked receives its default value. */
  lemma {:induction false} FillDefaults(e: Entries, ds: Defaults)
    requires Distinct(Names(ds))
    ensures forall i :: 0 <= i < |ds| && ds[i].0 !in e.vals ==>
      ds[i].0 in Fill(e, ds).vals && Fill(e, ds).vals[ds[i].0] == ds[i].1
  {
    if ds != [] {
      var front, last := ds[..|ds| - 1], ds[|ds| - 1];
      NamesSnoc(ds);
      FillDefaults(e, front);
      FillKeys(e, front);
      forall i | 0 <= i < |ds| && ds[i].0 !in e.vals
        ensures ds[i].0 in Fill(e, ds).vals && Fill(e, ds).vals[ds[i].0] == ds[i].1
      {
        if i < |ds| - 1 {
          assert ds[i] == front[i] && Names(front)[i] == ds[i].0;
        }
      }
    }
  }

  /** The added names are appended after the existing keys, in table order. */
  lemma {:induction false} FillOrder(e: Entries, ds: Defaults)
    requires Distinct(Names(ds))
    ensures Fill(e, ds).keys == e.keys + Missing(e.vals, ds)
  {
    if ds != [] {
      var front := ds[..|ds| - 1];
      NamesSnoc(ds);
      FillOrder(e, front);
      FillKeys(e, front);
    }
  }

  /** Filling in defaults keeps a dict well formed and adds exactly the default
      names, each missing one with its default value, appended in table order,
      while every key the dict already had keeps its value and its position. */
  lemma FillSpec(e: Entries, ds: Defaults)
    requires e.Valid() && Distinct(Names(ds))
    ensures var r := Fill(e, ds);
      && r.Valid()
      && (forall k :: k in r.vals <==> k in e.vals || k in Names(ds))
      && (forall k :: k in e.vals ==> r.vals[k] == e.vals[k])
      && (forall i :: 0 <= i < |ds| && ds[i].0 !in e.vals ==> ds[i].0 in r.vals && r.vals[ds[i].0] == ds[i].1)
      && r.keys == e.keys + Missing(e.vals, ds)
  {
    FillValid(e, ds);
    FillKeys(e, ds);
    FillKeepsValues(e, ds);
    FillDefaults(e, ds);
    FillOrder(e, ds);
  }

  /** A dict object, updated in place. */
  class Dict {
    var keys: seq<string>
    var vals: map<string, Value>

    ghost predicate Valid()
      reads this
    {
      Entries(keys, vals).Valid()
    }

    function Contents(): Entries
      reads this
    {
      Entries(keys, vals)
    }

    /** `dict()` */
    constructor ()
      ensures Valid() && Contents() == Entries([], map[])
    {
      keys, vals := [], map[];
    }

    /** `d[k] = v`: a new key goes to the end of the insertion order. */
    method Set(k: string, v: Value)
      requires Valid()
      modifies this
      ensures Valid()
      ensures vals == old(vals)[k := v]
      ensures keys == if k in old(vals) then old(keys) else old(keys) + [k]
    {
      if k !in vals {
        keys := keys + [k];
      }
      vals := vals[k := v];
    }
  }
}
