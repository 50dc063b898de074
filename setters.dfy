/**
 * The checks behind the validating setters every draft repeats; only the
 * exception class differs (`PyroError` in pyrostat, `EurobaseError` in
 * the older drafts).
 */
module Setters {
  import opened Python

  /** Which exception class a draft raises. */
  datatype Family = Pyro | Eurobase

  function Raise(f: Family, msg: string): (e: Error)
    ensures e.PyroError? <==> f.Pyro?
    ensures e.PyroError? ==> e.msg == msg
    ensures e.EurobaseError? ==> e.msg == msg
  {
    match f
    case Pyro => PyroError(msg)
    case Eurobase => EurobaseError(msg)
  }

  /** The string setters (`domain`, `query`, `protocol`) accept a string only. */
  function CheckText(v: Py, name: string, f: Family): (r: Result<Py>)
    ensures r.Ok? <==> v.PStr?
    ensures r.Ok? ==> r.value == v
    ensures r.Err? ==> r.error == Raise(f, "wrong type for " + name + " parameter")
  {
    if v.PStr? then Ok(v) else Err(Raise(f, "wrong type for " + name + " parameter"))
  }

  /** `lang` accepts one of `langs` only. */
  function CheckLang(v: Py, langs: seq<string>, f: Family): (r: Result<Py>)
    ensures r.Ok? <==> InStrs(v, langs)
    ensures r.Ok? ==> r.value == v
    ensures v.PStr? && r.Err? ==> r.error == Raise(f, "language not supported")
  {
    if !v.PStr? then Err(Raise(f, "wrong type for LANG parameter"))
    else if v.s !in langs then Err(Raise(f, "language not supported"))
    else Ok(v)
  }

  /** `sort` accepts a positive int (`True` is one). */
  function CheckSort(v: Py, f: Family): (r: Result<Py>)
    ensures r.Ok? <==> IsInt(v) && IntOf(v) > 0
    ensures r.Ok? ==> r.value == v
  {
    if !IsInt(v) then Err(Raise(f, "wrong type for SORT parameter"))
    else if IntOf(v) <= 0 then Err(Raise(f, "wrong value for SORT parameter"))
    else Ok(v)
  }

  /** Every key of a dict is a string. */
  predicate StringKeys(entries: seq<(Py, Py)>)
  {
    forall i :: 0 <= i < |entries| ==> entries[i].0.PStr?
  }

  /**
   * The table a `dictionaries`/`dimensions`/`datasets` setter stores: a
   * string `s` becomes `{s: None}`, a dict with string keys is kept as it
   * is; a list or tuple fails inside `zip_longest(list, None)`, anything
   * else is refused.
   */
  function TableOf(v: Py, name: string, f: Family): (r: Result<Kwargs>)
    ensures r.Ok? <==> v.PStr? || (v.PDict? && StringKeys(v.entries))
    ensures (v.PList? || v.PTuple?) ==> r == Err(TypeError)
    ensures v.PStr? ==> r == Ok([(v.s, PNone)])
    ensures r.Ok? && v.PDict? ==> |r.value| == |v.entries|
    ensures r.Ok? && v.PDict? ==> forall i :: 0 <= i < |v.entries| ==> r.value[i] == (v.entries[i].0.s, v.entries[i].1)
  {
    if v.PList? || v.PTuple? then Err(TypeError)
    else if v.PStr? then Ok([(v.s, PNone)])
    else if !v.PDict? || !StringKeys(v.entries) then Err(Raise(f, "wrong type for " + name + " parameter"))
    else Ok(seq(|v.entries|, i requires 0 <= i < |v.entries| => (v.entries[i].0.s, v.entries[i].1)))
  }
}
