/**
 * esdata/collection.py, class `Collection`: the validating setters and the
 * constructor built on them, the collection URL, `update_url`, membership
 * of dimensions and datasets, the metabase queries through the shared
 * `BULK_BASE_NAMES` dictionary, the table-of-contents file and the
 * argument checks of `last_update`.
 */
module EsdataCollection {
  import opened Python
  import opened Text
  import opened UrlCore
  import opened Setters
  import opened Drafts
  import opened Metabase
  import opened FileStore
  import EsSession

  // ---------------------------------------------------------------------
  // esdata/settings.py

  const BULK_DIC_ZIP: string := "gz"
  const BULK_TOC_FILE: string := "table_of_contents"
  const BULK_TOC_EXTS: seq<string> := ["txt", "xml"]
  const BULK_TOC_ZIP: string := ""

  /** `BULK_BASE_NAMES`: metabase column to entity name, one dictionary shared by every caller. */
  const BULK_BASE_NAMES: Kwargs := [("data", PStr("dataset")), ("dic", PStr("dimension")), ("label", PStr("label"))]

  /** The keywords the constructor hands to the setters of the same name. */
  const ATTRS: set<string> := {"domain", "query", "lang", "sort", "dimensions", "datasets"}

  // ---------------------------------------------------------------------
  // The constructor

  function InitSort(kw: Kwargs): (r: Py)
    ensures IsInt(r) && IntOf(r) > 0
  {
    Chosen(CheckSort(Get(kw, "sort", PNone), Eurobase), PInt(DEF_SORT))
  }

  /** A table keyword: the setter's table, or the empty default. */
  function InitTable(v: Py, name: string): Kwargs
  {
    TableOr(v, name, [])
  }

  /** The keywords `setURL` hands to the builder: `lang` dropped, `query` the caller's when truthy, else the collection's. */
  function UrlArgs(kw: Kwargs, query: Py): Kwargs
  {
    Put(Remove(kw, "lang"), "query", Or(Get(kw, "query", PNone), query))
  }

  /** `setURL(**kwargs)`: session.py's builder on the collection's domain. */
  function SessionUrl(domain: Py, query: Py, kw: Kwargs): Result<string>
  {
    EsSession.BuildUrl(domain, UrlArgs(kw, query))
  }

  /**
   * The URL the constructor ends with, or the error it raises: the keywords
   * no setter took go first to `setSession`, which fails on any of them but
   * `time_out`, `force_download` and `cache`, then, all of them, to `setURL`.
   */
  function StartUrl(kw: Kwargs): (r: Result<string>)
    ensures !EsSession.SessionBuilds(Without(kw, ATTRS)) ==> r == Err(EsSession.SESSION_ERROR)
    ensures EsSession.SessionBuilds(Without(kw, ATTRS)) ==> r == SessionUrl(InitDomain(kw), InitQuery(kw), Without(kw, ATTRS))
  {
    if !EsSession.SessionBuilds(Without(kw, ATTRS)) then Err(EsSession.SESSION_ERROR)
    else SessionUrl(InitDomain(kw), InitQuery(kw), Without(kw, ATTRS))
  }

  /** A keyword that is neither a collection keyword nor a session keyword makes the constructor raise. */
  lemma UnknownKeywordRefused(kw: Kwargs, i: nat)
    requires i < |kw| && kw[i].0 !in ATTRS && kw[i].0 !in EsSession.SESSION_KEYS
    ensures StartUrl(kw) == Err(EsSession.SESSION_ERROR)
  {
    assert kw[i] in kw;
    assert kw[i] in Without(kw, ATTRS);
    assert kw[i] in Without(Without(kw, ATTRS), EsSession.SESSION_KEYS);
  }

  /** `Collection(dir='data')` raises. */
  lemma DirRefused(kw: Kwargs)
    requires kw == [("dir", PStr("data"))]
    ensures StartUrl(kw) == Err(EsSession.SESSION_ERROR)
  {
    UnknownKeywordRefused(kw, 0);
  }

  /**
   * The constructor keywords `domain`, `lang`, `sort` and `query`, given
   * valid values, read back unchanged, and the URL is then the prefixed
   * domain followed by `/query`, with no parameter.
   */
  lemma KeywordsReadBack(kw: Kwargs, d: string, l: string, s: int, q: string)
    requires kw == [("domain", PStr(d)), ("lang", PStr(l)), ("sort", PInt(s)), ("query", PStr(q))]
    requires l in LANGS && s > 0
    ensures InitDomain(kw) == PStr(d) && InitLang(kw) == PStr(l) && InitSort(kw) == PInt(s) && InitQuery(kw) == PStr(q)
    ensures StartUrl(kw) == Ok(Prefix(d, DEF_PROTOCOL) + "/" + q)
  {
    InitsReadBack(kw, d, l, s, q);
    WithoutAll(kw, ATTRS);
    AttributesOnlyUrl(d, q);
  }

  /** Valid values given to the constructor are what the setters keep. */
  lemma InitsReadBack(kw: Kwargs, d: string, l: string, s: int, q: string)
    requires kw == [("domain", PStr(d)), ("lang", PStr(l)), ("sort", PInt(s)), ("query", PStr(q))]
    requires l in LANGS && s > 0
    ensures InitDomain(kw) == PStr(d) && InitLang(kw) == PStr(l) && InitSort(kw) == PInt(s) && InitQuery(kw) == PStr(q)
  {
    KeywordsGot(kw, d, l, s, q);
  }

  /** Reading the four keywords back from the literal dictionary. */
  lemma KeywordsGot(kw: Kwargs, d: string, l: string, s: int, q: string)
    requires kw == [("domain", PStr(d)), ("lang", PStr(l)), ("sort", PInt(s)), ("query", PStr(q))]
    ensures Get(kw, "domain", PNone) == PStr(d) && Get(kw, "lang", PNone) == PStr(l)
    ensures Get(kw, "sort", PNone) == PInt(s) && Get(kw, "query", PNone) == PStr(q)
  {
    GetFirst(kw, "lang", 1);
    GetFirst(kw, "sort", 2);
    GetFirst(kw, "query", 3);
  }

  /** With no keyword left for `setURL`, the URL is the domain and `/query`, nothing more. */
  lemma AttributesOnlyUrl(d: string, q: string)
    ensures SessionUrl(PStr(d), PStr(q), []) == Ok(Prefix(d, DEF_PROTOCOL) + "/" + q)
  {
    var e := ("query", PStr(q));
    PutNew([], "query", PStr(q));
    assert UrlArgs([], PStr(q)) == [] + [e] == [e];
    QueryOnly(EsSession.Builder, d, q);
    var u := Prefix(d, DEF_PROTOCOL) + "/" + q;
    assert u + "" == u;
  }

  /** Keywords naming none of `keys` are left as they are. */
  lemma {:induction false} WithoutUntouched(kw: Kwargs, keys: set<string>)
    requires forall i :: 0 <= i < |kw| ==> kw[i].0 !in keys
    ensures Without(kw, keys) == kw
    decreases |kw|
  {
    if kw != [] {
      WithoutUntouched(kw[1..], keys);
    }
  }

  /** An entry added last under a new key is the one popping that key takes out. */
  lemma {:induction false} RemoveLast(kw: Kwargs, e: (string, Py))
    requires !Has(kw, e.0)
    ensures Remove(kw + [e], e.0) == kw
    decreases |kw|
  {
    if kw == [] {
      assert [] + [e] == [e];
    } else {
      assert (kw + [e])[1..] == kw[1..] + [e];
      assert !Has(kw[1..], e.0);
      RemoveLast(kw[1..], e);
    }
  }

  /**
   * The only keywords left for `setURL` are the session keywords `cache`,
   * `time_out` and `force_download`, which `setSession` reads from a copy
   * and never pops: each reaches the URL as a parameter, in the caller's
   * order, after `?` (or `&`).
   */
  lemma LeftoverKeywordsInUrl(kw: Kwargs)
    requires forall i :: 0 <= i < |kw| ==> kw[i].0 in EsSession.SESSION_KEYS
    requires kw != [] && Plain(kw)
    ensures exists head, sep, p ::
      StartUrl(kw) == Ok(head + sep + p)
      && StartsWith(head, Prefix(BULK_DOMAIN, DEF_PROTOCOL)) && (sep == "?" || sep == "&")
      && ParseQuery(p) == Rendered(kw)
  {
    LeftoverArgs(kw);
    BuiltWithParams(BULK_DOMAIN, kw + [("query", PStr(BULK_QUERY))], kw);
  }

  /** With the default protocol and plain parameters, session.py builds the URL and the parameters read back. */
  lemma BuiltWithParams(domain: string, args: Kwargs, kw: Kwargs)
    requires Params(args) == kw && Protocol(args) == PStr(DEF_PROTOCOL) && kw != [] && Plain(kw)
    ensures exists head, sep, p ::
      EsSession.BuildUrl(PStr(domain), args) == Ok(head + sep + p)
      && StartsWith(head, Prefix(domain, DEF_PROTOCOL)) && (sep == "?" || sep == "&")
      && ParseQuery(p) == Rendered(kw)
  {
    EsSession.ParamsAfterMark(domain, args);
    var head := Head(EsSession.Builder, Prefix(domain, Protocol(args).s), Remove(args, "protocol"));
    var last := AfterLast(head, '/');
    var sep := if last.Some? && '?' in last.value then "&" else "?";
    var p := Filters(Params(args)).value;
    assert EsSession.BuildUrl(PStr(domain), args) == Ok(head + sep + p);
  }

  /** What the builder receives when no keyword is a setter's: the keywords, then the collection's query. */
  lemma LeftoverArgs(kw: Kwargs)
    requires forall i :: 0 <= i < |kw| ==> kw[i].0 in EsSession.SESSION_KEYS
    ensures var args := kw + [("query", PStr(BULK_QUERY))];
      StartUrl(kw) == EsSession.BuildUrl(PStr(BULK_DOMAIN), args)
      && Params(args) == kw && Protocol(args) == PStr(DEF_PROTOCOL)
  {
    WithoutUntouched(kw, ATTRS);
    EsSession.SessionBuildsIff(kw);
    assert !Has(kw, "domain") && !Has(kw, "query") && !Has(kw, "lang") && !Has(kw, "protocol") && !Has(kw, "path");
    var e := ("query", PStr(BULK_QUERY));
    var args := kw + [e];
    assert InitDomain(kw) == PStr(BULK_DOMAIN) && InitQuery(kw) == PStr(BULK_QUERY);
    assert Remove(kw, "lang") == kw;
    assert Or(Get(kw, "query", PNone), PStr(BULK_QUERY)) == PStr(BULK_QUERY);
    assert UrlArgs(kw, PStr(BULK_QUERY)) == args;
    RemoveSnoc(kw, e, "protocol");
    RemoveSnoc(kw, e, "path");
    RemoveLast(kw, e);
    GetSnoc(kw, e, "protocol", PStr(DEF_PROTOCOL));
  }

  // ---------------------------------------------------------------------
  // Membership

  const ITEM_TYPE: Error := EurobaseError("wrong type for ITEM parameter")

  /** `item in collection`: a string that names a dimension or a dataset. */
  function HeldIn(item: Py, dims: Kwargs, data: Kwargs): (r: Result<bool>)
    ensures r.Err? <==> !item.PStr?
    ensures r.Err? ==> r.error == ITEM_TYPE
  {
    if !item.PStr? then Err(ITEM_TYPE) else Ok(item.s in Keys(dims) || item.s in Keys(data))
  }

  /**
   * `__contains__` answers as `check_dimension` or `check_dataset` would:
   * those compare with keys views, which are never `[]`, so they answer for
   * every item, even over an empty table.
   */
  lemma HeldInChecksBoth(item: Py, dims: Kwargs, data: Kwargs)
    requires item.PStr?
    ensures CheckMember(item, KeysOf(Keys(dims))).Ok? && CheckMember(item, KeysOf(Keys(data))).Ok?
    ensures HeldIn(item, dims, data)
      == Ok(CheckMember(item, KeysOf(Keys(dims))).value || CheckMember(item, KeysOf(Keys(data))).value)
  {
  }

  /** A table set from a string or a dict holds exactly that string, or exactly the dict's keys. */
  lemma StoredNamesHeld(v: Py, name: string, data: Kwargs, s: string)
    requires TableOf(v, name, Eurobase).Ok? && data == []
    ensures HeldIn(PStr(s), TableOf(v, name, Eurobase).value, data)
      == Ok(if v.PStr? then s == v.s else exists i :: 0 <= i < |v.entries| && v.entries[i].0 == PStr(s))
  {
    var t := TableOf(v, name, Eurobase).value;
    assert Keys(data) == [];
    if v.PStr? {
      assert Keys(t) == [v.s];
    } else {
      if exists i :: 0 <= i < |v.entries| && v.entries[i].0 == PStr(s) {
        var i :| 0 <= i < |v.entries| && v.entries[i].0 == PStr(s);
        assert Keys(t)[i] == s;
      }
      if s in Keys(t) {
        var i :| 0 <= i < |t| && Keys(t)[i] == s;
        assert v.entries[i].0 == PStr(s);
      }
    }
  }

  // ---------------------------------------------------------------------
  // Metabase queries through the shared names

  const NO_METABASE: Error := EurobaseError("metabase data not found")

  /** The names as a Python dict, for the error message. */
  function NamesDict(names: Kwargs): Py
  {
    PDict(seq(|names|, i requires 0 <= i < |names| => (PStr(names[i].0), names[i].1)))
  }

  function Unrecognised(names: Kwargs): Error
  {
    EurobaseError("member value not recognised - must be any string in: " + Str(NamesDict(names)))
  }

  /** Every key of the names is a metabase column. */
  predicate ColumnKeys(names: Kwargs)
  {
    forall i :: 0 <= i < |names| ==> names[i].0 in COLUMNS
  }

  /** `[m for m in members if m in kwargs]` paired with `kwargs.get(m)`: the grouping columns and the group asked for. */
  function GroupBy(keys: seq<string>, kw: Kwargs): (f: Kwargs)
    ensures forall e :: e in f <==> e.0 in keys && Has(kw, e.0) && e.1 == Get(kw, e.0, PNone)
    ensures forall i :: 0 <= i < |f| ==> f[i].0 in keys
    decreases |keys|
  {
    if keys == [] then []
    else
      var tail := GroupBy(keys[1..], kw);
      assert forall k :: k in keys <==> k == keys[0] || k in keys[1..];
      (if Has(kw, keys[0]) then [(keys[0], Get(kw, keys[0], PNone))] else []) + tail
  }

  /**
   * `metabase.groupby(grpby).get_group(tuple(fltby))[member].unique()`:
   * grouping by no column is a ValueError, a column the table lacks or an
   * empty group a KeyError.
   */
  function Group(rows: seq<Record>, member: string, filters: Kwargs): (r: Result<seq<string>>)
    ensures filters == [] ==> r == Err(ValueError)
    ensures r.Ok? ==> (member in COLUMNS && filters != [] && NoDup(r.value)
      && forall x :: (x in r.value <==> exists row :: row in rows && Matches(row, filters) && Column(row, member) == x))
  {
    if filters == [] then Err(ValueError)
    else if member !in COLUMNS || exists i :: 0 <= i < |filters| && filters[i].0 !in COLUMNS then Err(KeyError)
    else Select(rows, member, filters)
  }

  /** What `__get_member` answers, and the shared names it leaves behind. */
  datatype Answer = Answer(result: Result<seq<string>>, names: Kwargs)

  /**
   * `__get_member(member, metabase, **kwargs)`: no metabase, or a member
   * that is not (or no longer) a key of the shared names, is refused; a
   * known member is popped from the shared names for good, and the
   * remaining keys found among the keywords choose the group.
   */
  function GetMember(names: Kwargs, member: string, metabase: Option<seq<Record>>, kw: Kwargs): (a: Answer)
    ensures metabase.None? ==> a == Answer(Err(NO_METABASE), names)
    ensures metabase.Some? && !Has(names, member) ==> a == Answer(Err(Unrecognised(names)), names)
    ensures metabase.Some? && Has(names, member) ==> a.names == Remove(names, member)
    ensures a.result.Ok? ==> (metabase.Some? && Has(names, member) && member in COLUMNS && NoDup(a.result.value)
      && forall x :: (x in a.result.value
        <==> exists row :: row in metabase.value && Matches(row, GroupBy(Keys(a.names), kw)) && Column(row, member) == x))
  {
    if metabase.None? then Answer(Err(NO_METABASE), names)
    else if !Has(names, member) then Answer(Err(Unrecognised(names)), names)
    else
      var left := Remove(names, member);
      Answer(Group(metabase.value, member, GroupBy(Keys(left), kw)), left)
  }

  /** `getDatasets(dimension, **kwargs)` */
  function GetDatasets(names: Kwargs, metabase: Option<seq<Record>>, dimension: Py, kw: Kwargs): (a: Answer)
    ensures metabase.None? ==> a == Answer(Err(NO_METABASE), names)
    ensures metabase.Some? && !Has(names, "dataset") ==> a == Answer(Err(Unrecognised(names)), names)
    ensures a.result.Ok? ==> Has(names, "dataset") && a.names == Remove(names, "dataset") && NoDup(a.result.value)
  {
    GetMember(names, "dataset", metabase, Put(kw, "dimension", dimension))
  }

  /** `getDimensions(dataset, **kwargs)` */
  function GetDimensions(names: Kwargs, metabase: Option<seq<Record>>, dataset: Py, kw: Kwargs): (a: Answer)
    ensures metabase.None? ==> a == Answer(Err(NO_METABASE), names)
    ensures metabase.Some? && !Has(names, "dimension") ==> a == Answer(Err(Unrecognised(names)), names)
    ensures a.result.Ok? ==> Has(names, "dimension") && a.names == Remove(names, "dimension") && NoDup(a.result.value)
  {
    GetMember(names, "dimension", metabase, Put(kw, "dataset", dataset))
  }

  /** `getLabels(dimension, **kwargs)` */
  function GetLabels(names: Kwargs, metabase: Option<seq<Record>>, dimension: Py, kw: Kwargs): (a: Answer)
    ensures metabase.None? ==> a == Answer(Err(NO_METABASE), names)
    ensures metabase.Some? && !Has(names, "label") ==> a == Answer(Err(Unrecognised(names)), names)
    ensures a.result.Ok? ==> Has(names, "label") && a.names == Remove(names, "label") && NoDup(a.result.value)
  {
    GetMember(names, "label", metabase, Put(kw, "dimension", dimension))
  }

  /** The entity names `dataset` and `dimension` are values of the shared names, never keys: those queries are always refused. */
  lemma EntityQueriesRefused(names: Kwargs, rows: seq<Record>, x: Py, kw: Kwargs)
    requires ColumnKeys(names)
    ensures GetDatasets(names, Some(rows), x, kw) == Answer(Err(Unrecognised(names)), names)
    ensures GetDimensions(names, Some(rows), x, kw) == Answer(Err(Unrecognised(names)), names)
  {
    assert !Has(names, "dataset") && !Has(names, "dimension");
  }

  /** The shared names once `label` is popped. */
  const NAMES_WITHOUT_LABEL: Kwargs := [("data", PStr("dataset")), ("dic", PStr("dimension"))]

  /** Popping `label` from the shared names leaves `data` and `dic`, both columns. */
  lemma PopLabel()
    ensures ColumnKeys(BULK_BASE_NAMES) && Has(BULK_BASE_NAMES, "label")
    ensures Remove(BULK_BASE_NAMES, "label") == NAMES_WITHOUT_LABEL
    ensures !Has(NAMES_WITHOUT_LABEL, "label") && Keys(NAMES_WITHOUT_LABEL) == ["data", "dic"]
  {
    assert BULK_BASE_NAMES[2].0 == "label";
    assert BULK_BASE_NAMES[1..][1..][0].0 == "label";
  }

  /** A member answered once is popped, and is refused from then on. */
  lemma AnsweredOnce(names: Kwargs, member: string, rows: seq<Record>, kw: Kwargs, rows2: seq<Record>, kw2: Kwargs)
    requires Has(names, member)
    ensures var left := GetMember(names, member, Some(rows), kw).names;
      left == Remove(names, member) && !Has(left, member)
      && GetMember(left, member, Some(rows2), kw2) == Answer(Err(Unrecognised(left)), left)
  {
  }

  /**
   * `label` is answered at most once: the first query with a metabase pops
   * it from the shared names, and every later one is refused, its message
   * listing only `data` and `dic`.
   */
  lemma LabelsAnsweredOnce(rows: seq<Record>, d: Py, kw: Kwargs, rows2: seq<Record>, d2: Py, kw2: Kwargs)
    ensures var first := GetLabels(BULK_BASE_NAMES, Some(rows), d, kw);
      first.names == NAMES_WITHOUT_LABEL
      && GetLabels(first.names, Some(rows2), d2, kw2) == Answer(Err(Unrecognised(NAMES_WITHOUT_LABEL)), NAMES_WITHOUT_LABEL)
  {
    PopLabel();
    AnsweredOnce(BULK_BASE_NAMES, "label", rows, Put(kw, "dimension", d), rows2, Put(kw2, "dimension", d2));
  }

  /** Grouping keys not naming `k` pick the same group whatever `k` is set to. */
  lemma {:induction false} GroupByIgnores(keys: seq<string>, kw: Kwargs, k: string, v: Py)
    requires DistinctKeys(kw) && k !in keys
    ensures GroupBy(keys, Put(kw, k, v)) == GroupBy(keys, kw)
    decreases |keys|
  {
    if keys != [] {
      PutOther(kw, k, v, keys[0]);
      GroupByIgnores(keys[1..], kw, k, v);
    }
  }

  /** The `dimension` keyword `getLabels` adds names no column, so it never narrows the group. */
  lemma DimensionKeywordIgnored(names: Kwargs, rows: seq<Record>, d: Py, kw: Kwargs)
    requires ColumnKeys(names) && DistinctKeys(kw)
    ensures GetLabels(names, Some(rows), d, kw) == GetMember(names, "label", Some(rows), kw)
  {
    if Has(names, "label") {
      var left := Remove(names, "label");
      assert "dimension" !in Keys(left);
      GroupByIgnores(Keys(left), kw, "dimension", d);
    }
  }

  /** No grouping key among the keywords: the group is asked for by nothing. */
  lemma {:induction false} GroupByNone(keys: seq<string>, kw: Kwargs)
    requires forall i :: 0 <= i < |keys| ==> !Has(kw, keys[i])
    ensures GroupBy(keys, kw) == []
    decreases |keys|
  {
    if keys != [] {
      GroupByNone(keys[1..], kw);
    }
  }

  /** `getLabels(dimension)` with no `data` or `dic` keyword groups by nothing, and pandas refuses that. */
  lemma LabelsNeedAColumn(rows: seq<Record>, d: Py, kw: Kwargs)
    requires DistinctKeys(kw) && !Has(kw, "data") && !Has(kw, "dic")
    ensures GetLabels(BULK_BASE_NAMES, Some(rows), d, kw).result == Err(ValueError)
  {
    PopLabel();
    DimensionKeywordIgnored(BULK_BASE_NAMES, rows, d, kw);
    NoColumnNoGroup(kw);
    UngroupedMember(BULK_BASE_NAMES, "label", rows, kw);
  }

  /** Keywords naming neither column group by nothing. */
  lemma NoColumnNoGroup(kw: Kwargs)
    requires !Has(kw, "data") && !Has(kw, "dic")
    ensures GroupBy(["data", "dic"], kw) == []
  {
    var keys := ["data", "dic"];
    assert keys[0] == "data" && keys[1] == "dic";
    GroupByNone(keys, kw);
  }

  /** A known member whose remaining names select no keyword is refused as pandas refuses an empty grouping. */
  lemma UngroupedMember(names: Kwargs, member: string, rows: seq<Record>, kw: Kwargs)
    requires Has(names, member) && GroupBy(Keys(Remove(names, member)), kw) == []
    ensures GetMember(names, member, Some(rows), kw).result == Err(ValueError)
  {
  }

  /** The labels of the records of dimension `x`; a KeyError when there are none. */
  lemma SelectByDimension(rows: seq<Record>, x: string)
    ensures var r := Group(rows, "label", [("dic", PStr(x))]);
      (r.Err? <==> forall row :: row in rows ==> row.dic != x)
      && (r.Ok? ==> forall l :: (l in r.value <==> exists row :: row in rows && row.dic == x && row.lbl == l))
  {
    var f := [("dic", PStr(x))];
    assert Grouped(f) by { assert f[0].0 in COLUMNS; }
    forall row ensures Matches(row, f) <==> row.dic == x {
      assert Column(row, "dic") == row.dic;
    }
    assert Group(rows, "label", f) == Select(rows, "label", f);
    if forall row :: row in rows ==> row.dic != x {
      MatchingNone(rows, f);
    } else {
      var row :| row in rows && row.dic == x;
      assert row in Matching(rows, f);
    }
  }

  /**
   * The one query that answers: the first `getLabels` with a `dic`
   * keyword returns the labels of the records of that dimension, and
   * fails with KeyError when there are none.
   */
  lemma LabelsOfADimension(rows: seq<Record>, d: Py, x: string)
    ensures var a := GetLabels(BULK_BASE_NAMES, Some(rows), d, [("dic", PStr(x))]);
      (a.result.Err? <==> forall row :: row in rows ==> row.dic != x)
      && (a.result.Ok? ==> forall l :: (l in a.result.value <==> exists row :: row in rows && row.dic == x && row.lbl == l))
  {
    PopLabel();
    DicGroup(x);
    LabelsOfGroup(BULK_BASE_NAMES, rows, d, [("dic", PStr(x))], x);
  }

  /** A lone `dic` keyword is the whole group once `label` is popped. */
  lemma DicGroup(x: string)
    ensures DistinctKeys([("dic", PStr(x))])
    ensures GroupBy(Keys(NAMES_WITHOUT_LABEL), [("dic", PStr(x))]) == [("dic", PStr(x))]
  {
    var kw := [("dic", PStr(x))];
    assert Keys(NAMES_WITHOUT_LABEL) == ["data", "dic"];
    assert kw[0].0 == "dic";
    assert !Has(kw, "data") && Has(kw, "dic") && Get(kw, "dic", PNone) == PStr(x);
    var keys := ["data", "dic"];
    assert keys[1..] == ["dic"] && keys[1..][1..] == [];
    assert GroupBy(["dic"], kw) == kw + GroupBy([], kw);
    assert GroupBy(keys, kw) == [] + GroupBy(["dic"], kw);
  }

  /** `getLabels` grouped by `dic` alone answers with the labels of that dimension. */
  lemma LabelsOfGroup(names: Kwargs, rows: seq<Record>, d: Py, kw: Kwargs, x: string)
    requires ColumnKeys(names) && DistinctKeys(kw) && Has(names, "label")
    requires GroupBy(Keys(Remove(names, "label")), kw) == [("dic", PStr(x))]
    ensures var a := GetLabels(names, Some(rows), d, kw);
      (a.result.Err? <==> forall row :: row in rows ==> row.dic != x)
      && (a.result.Ok? ==> forall l :: (l in a.result.value <==> exists row :: row in rows && row.dic == x && row.lbl == l))
  {
    DimensionKeywordIgnored(names, rows, d, kw);
    SelectByDimension(rows, x);
  }

  // ---------------------------------------------------------------------
  // The table of contents

  const TOC_EXT_UNKNOWN: Error := EurobaseError("bulk table of contents extension EXT not recognised")
  const LANG_UNKNOWN: Error := EurobaseError("language LANG not recognised")

  /** The extension `read_toc` asks for; the first of `BULK_TOC_EXTS` by default. */
  function TocExt(kw: Kwargs): Py
  {
    Get(kw, "ext", PStr(BULK_TOC_EXTS[0]))
  }

  /** The language `read_toc` asks for; the collection's own by default. */
  function TocLang(kw: Kwargs, lang: Py): Py
  {
    if Has(kw, "lang") then Get(kw, "lang", PNone) else lang
  }

  /**
   * The table-of-contents file `read_toc` names after `base`: the XML table
   * is language-free, the text table carries the language; an extension or
   * a given language outside the accepted lists is refused.
   */
  function TocName(base: string, kw: Kwargs, lang: Py): (r: Result<string>)
    ensures r.Ok? <==> InStrs(TocExt(kw), BULK_TOC_EXTS) && (Has(kw, "lang") ==> InStrs(Get(kw, "lang", PNone), LANGS))
    ensures !InStrs(TocExt(kw), BULK_TOC_EXTS) ==> r == Err(TOC_EXT_UNKNOWN)
    ensures r.Ok? ==> StartsWith(r.value, base) && EndsWith(r.value, "." + TocExt(kw).s)
  {
    var ext := TocExt(kw);
    if !InStrs(ext, BULK_TOC_EXTS) then Err(TOC_EXT_UNKNOWN)
    else if Has(kw, "lang") && !InStrs(Get(kw, "lang", PNone), LANGS) then Err(LANG_UNKNOWN)
    else
      var name := if ext.s == "xml" then base + ".xml" else base + "_" + Str(TocLang(kw, lang)) + "." + ext.s;
      assert name[..|base|] == base;
      assert name[|name| - |"." + ext.s|..] == "." + ext.s;
      Ok(if BULK_TOC_ZIP != "" then name + "." + BULK_DIC_ZIP else name)
  }

  /** The file as `read_toc` names it: after the metabase file. */
  function TocFileAsWritten(kw: Kwargs, lang: Py): Result<string>
  {
    TocName(BULK_BASE_FILE, kw, lang)
  }

  /** The file as intended: after `BULK_TOC_FILE`, as the example in its documentation asks for. */
  function TocFile(kw: Kwargs, lang: Py): Result<string>
  {
    TocName(BULK_TOC_FILE, kw, lang)
  }

  /** Asking for the XML table of contents, `read_toc` requests the file `metabase.xml` instead of `table_of_contents.xml`. */
  lemma TocAsWrittenNamesMetabase(lang: Py)
    ensures TocFileAsWritten([("ext", PStr("xml"))], lang) == Ok("metabase.xml")
    ensures TocFile([("ext", PStr("xml"))], lang) == Ok("table_of_contents.xml")
  {
    var kw := [("ext", PStr("xml"))];
    assert TocExt(kw) == PStr("xml") && InStrs(TocExt(kw), BULK_TOC_EXTS);
    assert !Has(kw, "lang");
    assert BULK_BASE_FILE + ".xml" == "metabase.xml";
    assert BULK_TOC_FILE + ".xml" == "table_of_contents.xml";
  }

  /** A text table of contents splits back into the stem with its language, and the extension. */
  lemma TocFileReadsBack(kw: Kwargs, lang: Py)
    requires TocFile(kw, lang).Ok? && TocExt(kw) == PStr("txt")
    requires '.' !in Str(TocLang(kw, lang))
    ensures Split(TocFile(kw, lang).value, '.') == [BULK_TOC_FILE + "_" + Str(TocLang(kw, lang)), "txt"]
  {
    var parts := [BULK_TOC_FILE + "_" + Str(TocLang(kw, lang)), "txt"];
    assert Join(parts, ['.']) == TocFile(kw, lang).value;
    assert '.' !in parts[0] by {
      assert parts[0] == "table_of_contents_" + Str(TocLang(kw, lang));
    }
    SplitJoin(parts, '.');
  }

  /** `update_url(self.url, sort=self.sort, file=basefile)` for the table of contents named after `base`. */
  function TocUrl(base: string, url: Py, sort: Py, kw: Kwargs, lang: Py): (r: Result<Py>)
    ensures TocName(base, kw, lang).Err? ==> r == Err(TocName(base, kw, lang).error)
  {
    match TocName(base, kw, lang)
    case Err(e) => Err(e)
    case Ok(file) => CompleteUrl(true, url, [("sort", sort), ("file", PStr(file))])
  }

  /** The table of contents is asked for by name, `sort` first, whatever base names it. */
  lemma TocUrlNamesFile(base: string, url: string, sort: int, kw: Kwargs, lang: Py)
    requires TocName(base, kw, lang).Ok? && '&' !in TocName(base, kw, lang).value
    ensures exists head, sep, q ::
      TocUrl(base, PStr(url), PInt(sort), kw, lang) == Ok(PStr(head + sep + q))
      && StartsWith(head, Prefix(url, DEF_PROTOCOL)) && (sep == "?" || sep == "&")
      && ParseQuery(q) == [("sort", IntToString(sort)), ("file", TocName(base, kw, lang).value)]
  {
    SortThenKey(url, sort, "file", TocName(base, kw, lang).value);
  }

  // ---------------------------------------------------------------------
  // last_update

  /** The entry `last_update` looks up. */
  datatype Entry = Dimension(name: Py) | Dataset(name: Py)

  /** `last_update(**kwargs)` up to the table it reads: exactly one of `dic` and `data` must be given other than `None`. */
  function LastUpdateEntry(kw: Kwargs): (r: Result<Entry>)
    ensures r.Ok? <==> Get(kw, "dic", PNone).PNone? != Get(kw, "data", PNone).PNone?
    ensures Get(kw, "dic", PNone).PNone? && Get(kw, "data", PNone).PNone?
      ==> r == Err(EurobaseError("one of the parameters DIC or DATA needs to be set"))
    ensures !Get(kw, "dic", PNone).PNone? && !Get(kw, "data", PNone).PNone?
      ==> r == Err(EurobaseError("parameters DIC or DATA are incompatible"))
    ensures r.Ok? ==> r.value == if Get(kw, "dic", PNone).PNone? then Dataset(Get(kw, "data", PNone)) else Dimension(Get(kw, "dic", PNone))
  {
    var dimension := Get(kw, "dic", PNone);
    var dataset := Get(kw, "data", PNone);
    if dataset.PNone? && dimension.PNone? then Err(EurobaseError("one of the parameters DIC or DATA needs to be set"))
    else if !(dataset.PNone? || dimension.PNone?) then Err(EurobaseError("parameters DIC or DATA are incompatible"))
    else if !dimension.PNone? then Ok(Dimension(dimension))
    else Ok(Dataset(dataset))
  }

  /** A keyword given as `None` counts as not given. */
  lemma LastUpdateNoneIsAbsent(name: Py)
    requires !name.PNone?
    ensures LastUpdateEntry([("dic", PNone), ("data", name)]) == Ok(Dataset(name))
    ensures LastUpdateEntry([("dic", name), ("data", PNone)]) == Ok(Dimension(name))
    ensures LastUpdateEntry([("dic", name), ("data", name)]).Err?
  {
    assert Get([("dic", PNone), ("data", name)], "data", PNone) == name;
    assert Get([("dic", name), ("data", PNone)], "data", PNone) == PNone;
    assert Get([("dic", name), ("data", name)], "data", PNone) == name;
  }

  // ---------------------------------------------------------------------
  // The collection

  /** The module-level `settings.BULK_BASE_NAMES` dictionary, which `__get_member` mutates. */
  class BaseNames {
    var names: Kwargs

    constructor ()
      ensures names == BULK_BASE_NAMES
    {
      names := BULK_BASE_NAMES;
    }
  }

  /** Every field of a collection, as one value. */
  datatype CollectionState = CollectionState(domain: Py, query: Py, lang: Py, sort: Py, dimensions: Kwargs,
                                             datasets: Kwargs, metabase: Option<seq<Record>>, url: Option<string>)

  /** The collection `Collection(**kwargs)` leaves when its URL is built. */
  function Opened(kw: Kwargs): (c: CollectionState)
    ensures c.domain.PStr? && c.query.PStr? && InStrs(c.lang, LANGS) && IsInt(c.sort) && IntOf(c.sort) > 0
    ensures c.metabase.None? && (c.url.Some? <==> StartUrl(kw).Ok?)
  {
    var u := StartUrl(kw);
    CollectionState(InitDomain(kw), InitQuery(kw), InitLang(kw), InitSort(kw),
                    InitTable(Get(kw, "dimensions", PNone), "DIMENSIONS"), InitTable(Get(kw, "datasets", PNone), "DATASETS"),
                    None, if u.Ok? then Some(u.value) else None)
  }

  /** The fields `__init__` starts from, before any keyword. */
  const DEFAULT_STATE: CollectionState :=
    CollectionState(PStr(BULK_DOMAIN), PStr(BULK_QUERY), PStr(DEF_LANG), PInt(DEF_SORT), [], [], None, None)

  /** The text and number keywords applied through their setters; a refused value keeps the old one. */
  function WithTexts(st: CollectionState, kw: Kwargs): CollectionState
  {
    st.(domain := Chosen(CheckText(Get(kw, "domain", PNone), "DOMAIN", Eurobase), st.domain),
        query := Chosen(CheckText(Get(kw, "query", PNone), "QUERY", Eurobase), st.query),
        lang := Chosen(CheckLang(Get(kw, "lang", PNone), LANGS, Eurobase), st.lang),
        sort := Chosen(CheckSort(Get(kw, "sort", PNone), Eurobase), st.sort))
  }

  /** A table keyword through its setter: the new table, or the old one when refused. */
  function TableOr(v: Py, name: string, old_: Kwargs): Kwargs
  {
    var t := TableOf(v, name, Eurobase);
    if t.Ok? then t.value else old_
  }

  /** The table keywords applied through their setters. */
  function WithTables(st: CollectionState, kw: Kwargs): CollectionState
  {
    st.(dimensions := TableOr(Get(kw, "dimensions", PNone), "DIMENSIONS", st.dimensions),
        datasets := TableOr(Get(kw, "datasets", PNone), "DATASETS", st.datasets))
  }

  /** `setURL`: a built URL is kept, a failure leaves the old one. */
  function WithUrl(st: CollectionState, u: Result<string>): CollectionState
  {
    st.(url := if u.Ok? then Some(u.value) else st.url)
  }

  /** The constructor is the defaults, then the text keywords, then the tables, then the URL of the keywords left. */
  lemma OpenedInSteps(kw: Kwargs)
    requires EsSession.SessionBuilds(Without(kw, ATTRS))
    ensures var st := WithTables(WithTexts(DEFAULT_STATE, kw), kw);
      st.domain == InitDomain(kw) && st.query == InitQuery(kw)
      && WithUrl(st, SessionUrl(st.domain, st.query, Without(kw, ATTRS))) == Opened(kw)
  {
  }

  class Collection {
    var domain: Py
    var query: Py
    var lang: Py
    var sort: Py
    var dimensions: Kwargs
    var datasets: Kwargs
    var metabase: Option<seq<Record>>
    var url: Option<string>
    var session: EsSession.Session?

    function State(): CollectionState
      reads this
    {
      CollectionState(domain, query, lang, sort, dimensions, datasets, metabase, url)
    }

    /** What the setters keep: string domain and query, a known language, a positive sort, no metabase. */
    predicate Valid()
      reads this
    {
      domain.PStr? && query.PStr? && InStrs(lang, LANGS) && IsInt(sort) && IntOf(sort) > 0 && metabase.None?
    }

    /** The defaults `__init__` starts from, before any keyword. */
    constructor ()
      ensures State() == DEFAULT_STATE
    {
      domain, query, lang, sort := PStr(BULK_DOMAIN), PStr(BULK_QUERY), PStr(DEF_LANG), PInt(DEF_SORT);
      dimensions, datasets := [], [];
      metabase, url := None, None;
      session := null;
    }

    /**
     * `Collection(**kwargs)`: each of `domain`, `query`, `lang`, `sort`,
     * `dimensions`, `datasets` given is popped and handed to its setter, a
     * refused value only warned about; the keywords left build the session,
     * then the URL, and either failure is the constructor's.
     */
    static method Open(kw: Kwargs, host: Platform) returns (r: Result<Collection>)
      ensures r.Ok? <==> StartUrl(kw).Ok?
      ensures r.Err? ==> r.error == StartUrl(kw).error
      ensures r.Ok? ==> fresh(r.value) && r.value.State() == Opened(kw)
      ensures r.Ok? ==> r.value.session != null && fresh(r.value.session)
    {
      var c := new Collection();
      c.ApplyKeywords(kw);
      ghost var tables := c.State();
      var connected := c.Connect(Without(kw, ATTRS), host);
      if connected.Err? {
        return Err(connected.error);
      }
      OpenedInSteps(kw);
      return Ok(c);
    }

    /** The end of `__init__`: the keywords left build the session, then the URL from the fields set so far. */
    method Connect(kw: Kwargs, host: Platform) returns (r: Result<()>)
      modifies this`session, this`url
      ensures r.Ok? <==> EsSession.SessionBuilds(kw) && SessionUrl(domain, query, kw).Ok?
      ensures r.Err? ==> r.error == if EsSession.SessionBuilds(kw) then SessionUrl(domain, query, kw).error else EsSession.SESSION_ERROR
      ensures r.Ok? ==> State() == WithUrl(old(State()), SessionUrl(domain, query, kw)) && session != null && fresh(session)
    {
      ghost var fields := State();
      var started := SetSession(kw, host);
      if started.Err? {
        return Err(started.error);
      }
      assert State() == fields;
      var built := SetUrl(kw);
      assert State() == WithUrl(fields, SessionUrl(domain, query, kw));
      if built.Err? {
        return Err(built.error);
      }
      return Ok(());
    }

    /** The loop of `__init__` over its own keywords: texts and numbers first, then the tables. */
    method ApplyKeywords(kw: Kwargs)
      modifies this`domain, this`query, this`lang, this`sort, this`dimensions, this`datasets
      ensures State() == WithTables(WithTexts(old(State()), kw), kw)
      ensures session == old(session)
    {
      ApplyTexts(kw);
      ghost var texts := State();
      assert texts == WithTexts(old(State()), kw);
      ApplyTables(kw);
    }

    /** The text and number keywords of `__init__`, each through its setter; a refused value keeps the old one. */
    method ApplyTexts(kw: Kwargs)
      modifies this`domain, this`query, this`lang, this`sort
      ensures var st := WithTexts(old(State()), kw); domain == st.domain && query == st.query && lang == st.lang && sort == st.sort
    {
      // A keyword left out reads as None, which each setter refuses, so it keeps the old value.
      var ignored: Result<()>;
      ignored := SetDomain(Get(kw, "domain", PNone));
      ignored := SetQuery(Get(kw, "query", PNone));
      ignored := SetLang(Get(kw, "lang", PNone));
      ignored := SetSort(Get(kw, "sort", PNone));
    }

    /** The table keywords of `__init__`, each through its setter; a refused value keeps the old table. */
    method ApplyTables(kw: Kwargs)
      modifies this`dimensions, this`datasets
      ensures State() == WithTables(old(State()), kw)
    {
      // A keyword left out reads as None, which each setter refuses, so it keeps the old table.
      var ignored: Result<()>;
      ignored := SetDimensions(Get(kw, "dimensions", PNone));
      ignored := SetDatasets(Get(kw, "datasets", PNone));
    }

    method SetDomain(v: Py) returns (r: Result<()>)
      modifies this`domain
      ensures r.Ok? <==> v.PStr?
      ensures domain == (if v.PStr? then v else old(domain))
      ensures old(Valid()) ==> Valid()
    {
      match CheckText(v, "DOMAIN", Eurobase)
      case Err(e) => return Err(e);
      case Ok(d) =>
        domain := d;
        return Ok(());
    }

    method SetQuery(v: Py) returns (r: Result<()>)
      modifies this`query
      ensures r.Ok? <==> v.PStr?
      ensures query == (if v.PStr? then v else old(query))
      ensures old(Valid()) ==> Valid()
    {
      match CheckText(v, "QUERY", Eurobase)
      case Err(e) => return Err(e);
      case Ok(q) =>
        query := q;
        return Ok(());
    }

    method SetLang(v: Py) returns (r: Result<()>)
      modifies this`lang
      ensures r.Ok? <==> InStrs(v, LANGS)
      ensures lang == (if r.Ok? then v else old(lang))
      ensures old(Valid()) ==> Valid()
    {
      match CheckLang(v, LANGS, Eurobase)
      case Err(e) => return Err(e);
      case Ok(l) =>
        lang := l;
        return Ok(());
    }

    method SetSort(v: Py) returns (r: Result<()>)
      modifies this`sort
      ensures r.Ok? <==> IsInt(v) && IntOf(v) > 0
      ensures sort == (if r.Ok? then v else old(sort))
      ensures old(Valid()) ==> Valid()
    {
      match CheckSort(v, Eurobase)
      case Err(e) => return Err(e);
      case Ok(s) =>
        sort := s;
        return Ok(());
    }

    /** The `dimensions` setter: the table is replaced, never merged. */
    method SetDimensions(v: Py) returns (r: Result<()>)
      modifies this`dimensions
      ensures r.Ok? <==> TableOf(v, "DIMENSIONS", Eurobase).Ok?
      ensures dimensions == (if r.Ok? then TableOf(v, "DIMENSIONS", Eurobase).value else old(dimensions))
      ensures old(Valid()) ==> Valid()
    {
      match TableOf(v, "DIMENSIONS", Eurobase)
      case Err(e) => return Err(e);
      case Ok(t) =>
        dimensions := t;
        return Ok(());
    }

    /** The `datasets` setter: the table is replaced, never merged. */
    method SetDatasets(v: Py) returns (r: Result<()>)
      modifies this`datasets
      ensures r.Ok? <==> TableOf(v, "DATASETS", Eurobase).Ok?
      ensures datasets == (if r.Ok? then TableOf(v, "DATASETS", Eurobase).value else old(datasets))
      ensures old(Valid()) ==> Valid()
    {
      match TableOf(v, "DATASETS", Eurobase)
      case Err(e) => return Err(e);
      case Ok(t) =>
        datasets := t;
        return Ok(());
    }

    /**
     * The `metabase` setter: `isinstance(metabase, np.array)` is handed a
     * function where it wants a type, so every call raises TypeError and
     * the metabase stays as it was.
     */
    method SetMetabase(v: Py) returns (r: Result<()>)
      ensures r == Err(TypeError)
    {
      return Err(TypeError);
    }

    /** `setMetabase(**kwargs)`: `read_metabase` reads `self.BULK_BASE_NAMES`, which the class does not have. */
    method LoadMetabase(kw: Kwargs) returns (r: Result<()>)
      ensures r == Err(AttributeError)
    {
      return Err(AttributeError);
    }

    /** `setSession(**kwargs)`: a new session from the keywords, or the session error with the old session kept. */
    method SetSession(kw: Kwargs, host: Platform) returns (r: Result<()>)
      modifies this`session
      ensures r.Ok? <==> EsSession.SessionBuilds(kw)
      ensures r.Err? ==> r.error == EsSession.SESSION_ERROR && session == old(session)
      ensures r.Ok? ==> session != null && fresh(session)
    {
      var s := EsSession.Session.Create(kw, host);
      if s.Err? {
        return Err(s.error);
      }
      session := s.value;
      return Ok(());
    }

    /** `setURL(**kwargs)` */
    method SetUrl(kw: Kwargs) returns (r: Result<()>)
      modifies this`url
      ensures r.Ok? <==> SessionUrl(domain, query, kw).Ok?
      ensures r.Err? ==> r.error == SessionUrl(domain, query, kw).error
      ensures url == (if r.Ok? then Some(SessionUrl(domain, query, kw).value) else old(url))
    {
      match SessionUrl(domain, query, kw)
      case Err(e) => return Err(e);
      case Ok(u) =>
        url := Some(u);
        return Ok(());
    }

    /** The `dimensions` and `datasets` getters: the keys of the tables. */
    function Dimensions(): seq<string>
      reads this
    {
      Keys(dimensions)
    }

    function Datasets(): seq<string>
      reads this
    {
      Keys(datasets)
    }

    /** `item in collection` */
    function Contains(item: Py): (r: Result<bool>)
      reads this
      ensures r.Err? <==> !item.PStr?
      ensures r.Err? ==> r.error == ITEM_TYPE
      ensures item.PStr? ==> r == Ok(item.s in Dimensions() || item.s in Datasets())
    {
      HeldIn(item, dimensions, datasets)
    }

    /** `check_dimension(dimension)`, `check_dataset(dataset)` */
    function CheckDimension(item: Py): (r: Result<bool>)
      reads this
      ensures r.Err? <==> !Hashable(item)
      ensures r.Err? ==> r.error == TypeError
      ensures item.PStr? ==> r == Ok(item.s in Dimensions())
    {
      CheckMember(item, KeysOf(Dimensions()))
    }

    function CheckDataset(item: Py): (r: Result<bool>)
      reads this
      ensures r.Err? <==> !Hashable(item)
      ensures r.Err? ==> r.error == TypeError
      ensures item.PStr? ==> r == Ok(item.s in Datasets())
    {
      CheckMember(item, KeysOf(Datasets()))
    }

    /** The collection URL as the value `update_url` receives: `None` before `setURL`. */
    function UrlValue(): Py
      reads this
    {
      if url.Some? then PStr(url.value) else PNone
    }

    /**
     * The URL `read_toc(**kwargs)` requests, as written: the file is named
     * after the metabase file (see `TocAsWrittenNamesMetabase`).
     */
    function ReadTocUrl(kw: Kwargs): (r: Result<Py>)
      reads this
      ensures TocFileAsWritten(kw, lang).Err? ==> r == Err(TocFileAsWritten(kw, lang).error)
      ensures r.Ok? ==> r.value.PStr?
      ensures url.Some? && sort.PInt? && TocFileAsWritten(kw, lang).Ok? && '&' !in TocFileAsWritten(kw, lang).value ==>
        exists head, sep, q :: r == Ok(PStr(head + sep + q))
          && StartsWith(head, Prefix(url.value, DEF_PROTOCOL)) && (sep == "?" || sep == "&")
          && ParseQuery(q) == [("sort", IntToString(sort.i)), ("file", TocFileAsWritten(kw, lang).value)]
    {
      var r := TocUrl(BULK_BASE_FILE, UrlValue(), sort, kw, lang);
      if url.Some? && sort.PInt? && TocFileAsWritten(kw, lang).Ok? && '&' !in TocFileAsWritten(kw, lang).value then
        TocUrlNamesFile(BULK_BASE_FILE, url.value, sort.i, kw, lang);
        r
      else r
    }

    /** `getDatasets`: refused as long as the collection holds no metabase, which is always. */
    method GetDatasetsOf(shared: BaseNames, dimension: Py, kw: Kwargs) returns (r: Result<seq<string>>)
      modifies shared
      ensures var a := GetDatasets(old(shared.names), metabase, dimension, kw); r == a.result && shared.names == a.names
      ensures Valid() ==> r == Err(NO_METABASE) && shared.names == old(shared.names)
    {
      var a := GetDatasets(shared.names, metabase, dimension, kw);
      shared.names := a.names;
      r := a.result;
    }

    /** `getDimensions` */
    method GetDimensionsOf(shared: BaseNames, dataset: Py, kw: Kwargs) returns (r: Result<seq<string>>)
      modifies shared
      ensures var a := GetDimensions(old(shared.names), metabase, dataset, kw); r == a.result && shared.names == a.names
      ensures Valid() ==> r == Err(NO_METABASE) && shared.names == old(shared.names)
    {
      var a := GetDimensions(shared.names, metabase, dataset, kw);
      shared.names := a.names;
      r := a.result;
    }

    /** `getLabels` */
    method GetLabelsOf(shared: BaseNames, dimension: Py, kw: Kwargs) returns (r: Result<seq<string>>)
      modifies shared
      ensures var a := GetLabels(old(shared.names), metabase, dimension, kw); r == a.result && shared.names == a.names
      ensures Valid() ==> r == Err(NO_METABASE) && shared.names == old(shared.names)
    {
      var a := GetLabels(shared.names, metabase, dimension, kw);
      shared.names := a.names;
      r := a.result;
    }
  }
}
