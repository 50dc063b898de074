/**
 * What the older drafts (esdata/collection.py, bulkdata.py, collection.py,
 * database.py, eurobase.py, collections.py) share: the settings they read,
 * the checks behind their setters, the two ways they complete a listing
 * URL (`sort` moved first, or re-appended last), their membership tests and
 * the way they read entry names off the listing pages.
 */
module Drafts {
  import opened Python
  import opened Text
  import opened UrlCore
  import opened Listing
  import opened Setters
  import EsSession

  // ---------------------------------------------------------------------
  // settings.py

  const LANGS: seq<string> := ["en", "de", "fr"]
  const DEF_LANG: string := "en"
  const DEF_SORT: int := 1
  const BULK_DOMAIN: string := "ec.europa.eu/eurostat/estat-navtree-portlet-prod/"
  const BULK_QUERY: string := "BulkDownloadListing"
  const BULK_DIC_DIR: string := "dic"
  const BULK_DIC_EXT: string := "dic"
  const BULK_DATA_DIR: string := "data"
  const BULK_DATA_EXT: string := "tsv.gz"
  const BULK_BASE_FILE: string := "metabase"
  const BULK_BASE_EXT: string := "txt.gz"
  /** Only eurobase.py defines it; settings.py does not. */
  const BULK_DIC_FILE: string := "dic"

  // ---------------------------------------------------------------------
  // Setters

  /** The value a setter leaves: the checked one, or the default when the setter refused (the refusal is only warned about). */
  function Chosen<T>(checked: Result<T>, default: T): T
  {
    if checked.Ok? then checked.value else default
  }

  /** The `domain` keyword of a constructor through its setter. */
  function InitDomain(kw: Kwargs): (r: Py)
    ensures r.PStr?
  {
    Chosen(CheckText(Get(kw, "domain", PNone), "DOMAIN", Eurobase), PStr(BULK_DOMAIN))
  }

  /** The `query` keyword of a constructor through its setter. */
  function InitQuery(kw: Kwargs): (r: Py)
    ensures r.PStr?
  {
    Chosen(CheckText(Get(kw, "query", PNone), "QUERY", Eurobase), PStr(BULK_QUERY))
  }

  /** The `lang` keyword of a constructor through its setter. */
  function InitLang(kw: Kwargs): (r: Py)
    ensures InStrs(r, LANGS)
  {
    Chosen(CheckLang(Get(kw, "lang", PNone), LANGS, Eurobase), PStr(DEF_LANG))
  }

  /** The `dimensions` setter of the list-based drafts: a string `s` becomes `[s]`, a list or tuple is kept. */
  function ListOf(v: Py): (r: Result<Py>)
    ensures r.Ok? <==> v.PStr? || v.PList? || v.PTuple?
    ensures v.PStr? ==> r == Ok(PList([v]))
    ensures (v.PList? || v.PTuple?) ==> r == Ok(v)
  {
    if v.PStr? then Ok(PList([v]))
    else if v.PList? || v.PTuple? then Ok(v)
    else Err(EurobaseError("wrong type for DIMENSIONS parameter"))
  }

  /** The `datasets` setter of the list-based drafts: a dict is kept, a list or tuple is filed under `_all_`. */
  function GroupsOf(v: Py): (r: Result<seq<(Py, Py)>>)
    ensures r.Ok? <==> v.PDict? || v.PList? || v.PTuple?
    ensures v.PDict? ==> r == Ok(v.entries)
    ensures (v.PList? || v.PTuple?) ==> r == Ok([(PStr("_all_"), v)])
  {
    if v.PDict? then Ok(v.entries)
    else if v.PList? || v.PTuple? then Ok([(PStr("_all_"), v)])
    else Err(EurobaseError("wrong type for DATASETS parameter"))
  }

  /** The datasets a list-based draft starts with: every letter, with no dataset yet. */
  function DefaultGroups(): seq<(Py, Py)>
  {
    seq(|LETTERS|, i requires 0 <= i < |LETTERS| => (PStr([LETTERS[i]]), PList([])))
  }

  /** `for items in v`: a list or tuple gives its items, a string its characters, a dict its keys; nothing else iterates. */
  function Iterate(v: Py): (r: Result<seq<Py>>)
    ensures (v.PList? || v.PTuple?) ==> r == Ok(v.items)
    ensures r.Err? <==> !(v.PList? || v.PTuple? || v.PStr? || v.PDict?)
  {
    match v
    case PList(items) => Ok(items)
    case PTuple(items) => Ok(items)
    case PStr(s) => Ok(seq(|s|, i requires 0 <= i < |s| => PStr([s[i]])))
    case PDict(entries) => Ok(seq(|entries|, i requires 0 <= i < |entries| => entries[i].0))
    case _ => Err(TypeError)
  }

  /** The `datasets` getter: `[items for lists in d.values() for items in lists]`. */
  function Flatten(groups: seq<(Py, Py)>): (r: Result<seq<Py>>)
    ensures r.Err? ==> r.error == TypeError
    decreases |groups|
  {
    if groups == [] then Ok([])
    else
      match Flatten(groups[..|groups| - 1])
      case Err(e) => Err(e)
      case Ok(items) =>
        match Iterate(groups[|groups| - 1].1)
        case Err(e) => Err(e)
        case Ok(more) => Ok(items + more)
  }

  /** The getter reads back what the setter was given: a list or tuple of datasets comes back item for item. */
  lemma DatasetsRoundTrip(v: Py)
    requires v.PList? || v.PTuple?
    ensures Flatten(GroupsOf(v).value) == Ok(v.items)
  {
    var g := GroupsOf(v).value;
    assert g[..0] == [];
    assert Flatten(g[..0]) == Ok([]);
    assert Iterate(g[0].1) == Ok(v.items);
    assert [] + v.items == v.items;
  }

  /** Groups whose values are all lists flatten to all their items, group after group. */
  lemma {:induction false} FlattenLists(groups: seq<(Py, Py)>)
    requires forall i :: 0 <= i < |groups| ==> groups[i].1.PList?
    ensures Flatten(groups).Ok?
    ensures forall x :: x in Flatten(groups).value <==> exists i :: 0 <= i < |groups| && x in groups[i].1.items
    decreases |groups|
  {
    if groups != [] {
      var k := |groups| - 1;
      FlattenLists(groups[..k]);
      forall x ensures x in Flatten(groups).value <==> exists i :: 0 <= i < |groups| && x in groups[i].1.items {
        if exists i :: 0 <= i < |groups| && x in groups[i].1.items {
          var i :| 0 <= i < |groups| && x in groups[i].1.items;
          if i < k { assert groups[..k][i] == groups[i]; }
        }
        if x in Flatten(groups[..k]).value {
          var i :| 0 <= i < k && x in groups[..k][i].1.items;
          assert groups[..k][i] == groups[i];
        }
      }
    }
  }

  /** Groups that hold empty lists only list nothing. */
  lemma {:induction false} FlattenEmpty(groups: seq<(Py, Py)>)
    requires forall i :: 0 <= i < |groups| ==> groups[i].1 == PList([])
    ensures Flatten(groups) == Ok([])
    decreases |groups|
  {
    if groups != [] {
      var k := |groups| - 1;
      assert forall i :: 0 <= i < k ==> groups[..k][i] == groups[i];
      FlattenEmpty(groups[..k]);
      assert Iterate(groups[k].1) == Ok([]);
      var none: seq<Py> := [];
      assert Flatten(groups) == Ok(none + none);
      assert none + none == none;
    }
  }

  /** A fresh list-based collection lists no dataset at all. */
  lemma DefaultGroupsEmpty()
    ensures Flatten(DefaultGroups()) == Ok([])
  {
    FlattenEmpty(DefaultGroups());
  }

  /** `expire` accepts an int at least 0 (a bool is one) or a timedelta. */
  function CheckExpire(v: Py): (r: Result<Py>)
    ensures r.Ok? <==> (IsInt(v) && IntOf(v) >= 0) || v.PDelta?
    ensures r.Ok? ==> r.value == v
  {
    if !IsInt(v) && !v.PDelta? then Err(EurobaseError("wrong type for EXPIRE parameter"))
    else if IsInt(v) && IntOf(v) < 0 then Err(EurobaseError("wrong setting for EXPIRE parameter"))
    else Ok(v)
  }

  // ---------------------------------------------------------------------
  // Membership

  /** What a draft compares a member with. */
  datatype Members =
    | Missing                  // None
    | Listed(items: seq<Py>)   // a list
    | Tupled(items: seq<Py>)   // a tuple
    | KeysOf(keys: seq<string>)  // the keys view of a dict

  /**
   * `member in members`: only a list, a tuple or a keys view can be searched;
   * a list or tuple is searched with Python's `==`, and a keys view first
   * hashes the member, which fails for a list, a dict or a tuple holding one.
   */
  function IsMember(member: Py, members: Members): (r: Result<bool>)
    ensures r.Err? <==> members.Missing? || (members.KeysOf? && !Hashable(member))
    ensures r.Err? ==> r.error == TypeError
    ensures (members.Listed? || members.Tupled?) ==> r == Ok(Holds(members.items, member))
    ensures members.KeysOf? && member.PStr? ==> r == Ok(member.s in members.keys)
  {
    match members
    case Missing => Err(TypeError)
    case Listed(items) => Ok(Holds(items, member))
    case Tupled(items) => Ok(Holds(items, member))
    case KeysOf(keys) => if !Hashable(member) then Err(TypeError) else Ok(member.PStr? && member.s in keys)
  }

  /** Against a keys view, a hashable member that is not a string is simply not held; a list member raises. */
  lemma KeysRefuseUnhashable(keys: seq<string>)
    ensures IsMember(PInt(1), KeysOf(keys)) == Ok(false)
    ensures IsMember(PList([]), KeysOf(keys)) == Err(TypeError)
    ensures IsMember(PTuple([PList([])]), KeysOf(keys)) == Err(TypeError)
  {
    assert !Hashable(PTuple([PList([])])) by {
      assert PTuple([PList([])]).items[0] == PList([]);
    }
  }

  /** `1 in [True]` holds, as in Python, though the two values differ. */
  lemma ListedComparesByValue()
    ensures IsMember(PInt(1), Listed([PBool(true)])) == Ok(true)
    ensures IsMember(PStr("1"), Listed([PInt(1)])) == Ok(false)
  {
    IntHeldAsBool();
    HoldsStr([PInt(1)], "1");
  }

  /**
   * `__check_member(member, members)` of esdata, bulkdata and collection.py:
   * `None` and the empty list are refused; an empty tuple or keys view is
   * not equal to `[]` and simply holds nothing.
   */
  function CheckMember(member: Py, members: Members): (r: Result<bool>)
    ensures members.Missing? || members == Listed([]) ==> r == Err(EurobaseError("no members to compare to"))
    ensures r.Err? <==> members.Missing? || members == Listed([]) || (members.KeysOf? && !Hashable(member))
  {
    if members.Missing? || members == Listed([]) then Err(EurobaseError("no members to compare to"))
    else IsMember(member, members)
  }

  /** The checked test answers as the plain one wherever it answers at all. */
  lemma CheckMemberIsMembership(member: Py, members: Members)
    requires CheckMember(member, members).Ok?
    ensures CheckMember(member, members) == IsMember(member, members)
    ensures CheckMember(member, members).value <==> match members
      case Listed(items) => Holds(items, member)
      case Tupled(items) => Holds(items, member)
      case KeysOf(keys) => member.PStr? && member.s in keys
      case Missing => false
  {
  }

  /** The only answers the plain test gives and the checked one refuses: no members, or an empty list. */
  lemma CheckMemberRefusesEmpty(member: Py)
    ensures CheckMember(member, Listed([])).Err? && IsMember(member, Listed([])) == Ok(false)
    ensures CheckMember(member, Tupled([])) == Ok(false)
    ensures Hashable(member) ==> CheckMember(member, KeysOf([])) == Ok(false)
    ensures !Hashable(member) ==> CheckMember(member, KeysOf([])) == Err(TypeError)
  {
  }

  /** The members held by a `dimensions` value of the list-based drafts. */
  function MembersOf(v: Py): Members
  {
    if v.PList? then Listed(v.items) else if v.PTuple? then Tupled(v.items) else Missing
  }

  /** `member in self.dimensions`: membership by `==` in the list or tuple the setter keeps. */
  function InDimensions(x: Py, dims: Py): (r: Result<bool>)
    ensures (dims.PList? || dims.PTuple?) ==> r == Ok(Holds(dims.items, x))
    ensures !(dims.PList? || dims.PTuple?) ==> r == Err(TypeError)
  {
    IsMember(x, MembersOf(dims))
  }

  /** `member in self.datasets`: membership by `==` among the datasets the getter flattens. */
  function InDatasets(x: Py, groups: seq<(Py, Py)>): (r: Result<bool>)
    ensures Flatten(groups).Ok? ==> r == Ok(Holds(Flatten(groups).value, x))
    ensures Flatten(groups).Err? ==> r == Err(TypeError)
  {
    match Flatten(groups)
    case Err(e) => Err(e)
    case Ok(items) => IsMember(x, Listed(items))
  }

  /** Over groups that are all lists, a dataset is held exactly when some group holds it. */
  lemma InDatasetsOfGroups(x: Py, groups: seq<(Py, Py)>)
    requires forall i :: 0 <= i < |groups| ==> groups[i].1.PList?
    ensures InDatasets(x, groups) == Ok(exists i :: 0 <= i < |groups| && Holds(groups[i].1.items, x))
  {
    FlattenLists(groups);
    var all := Flatten(groups).value;
    if Holds(all, x) {
      var k :| 0 <= k < |all| && PyEq(x, all[k]);
      assert all[k] in all;
      var i :| 0 <= i < |groups| && all[k] in groups[i].1.items;
      var m :| 0 <= m < |groups[i].1.items| && groups[i].1.items[m] == all[k];
      assert Holds(groups[i].1.items, x);
    }
    if exists i :: 0 <= i < |groups| && Holds(groups[i].1.items, x) {
      var i :| 0 <= i < |groups| && Holds(groups[i].1.items, x);
      var m :| 0 <= m < |groups[i].1.items| && PyEq(x, groups[i].1.items[m]);
      assert groups[i].1.items[m] in all;
      var k :| 0 <= k < |all| && all[k] == groups[i].1.items[m];
      assert Holds(all, x);
    }
  }

  // ---------------------------------------------------------------------
  // Completing a URL: `sort` first (esdata `update_url`, bulkdata
  // `__complete_url`) or kept in place (collection.py `__complete_url`)

  function LangArg(kw: Kwargs): Py
  {
    Get(kw, "lang", PNone)
  }

  /** `/lang` when a language other than `None` was given. */
  function LangSuffix(kw: Kwargs): string
  {
    if LangArg(kw).PNone? then "" else "/" + Str(LangArg(kw))
  }

  /** The keywords handed to session.py's builder: `lang` popped, and `sort` (default `DEF_SORT`) put first when asked. */
  function CompleteArgs(sortFirst: bool, kw: Kwargs): Kwargs
  {
    var k := Remove(kw, "lang");
    if sortFirst then [("sort", Get(k, "sort", PInt(DEF_SORT)))] + Remove(k, "sort") else k
  }

  /**
   * `update_url(domain, **kwargs)` / `__complete_url(domain, **kwargs)`:
   * with no keyword the domain comes back untouched; a language other than
   * `None` must be one of `LANGS`; the builder receives the domain
   * positionally, so a `domain` keyword is given twice; `/lang` goes after
   * the whole URL.
   */
  function CompleteUrl(sortFirst: bool, domain: Py, kw: Kwargs): (r: Result<Py>)
    ensures kw == [] ==> r == Ok(domain)
    ensures kw != [] && !LangArg(kw).PNone? && !InStrs(LangArg(kw), LANGS) ==> r == Err(EurobaseError("language not supported"))
    ensures kw != [] && r.Ok? ==> r.value.PStr? && EndsWith(r.value.s, LangSuffix(kw))
  {
    if kw == [] then Ok(domain)
    else
      var lang := LangArg(kw);
      if !lang.PNone? && !InStrs(lang, LANGS) then Err(EurobaseError("language not supported"))
      else
        var args := CompleteArgs(sortFirst, kw);
        if Has(args, "domain") then Err(TypeError)   // got multiple values for argument 'domain'
        else match EsSession.BuildUrl(domain, args)
          case Err(e) => Err(e)
          case Ok(u) =>
            assert (u + LangSuffix(kw))[|u|..] == LangSuffix(kw);
            Ok(PStr(u + LangSuffix(kw)))
  }

  /** The keywords other than `lang` and `sort` that reach the parameter string, in the caller's order. */
  function OtherParams(kw: Kwargs): Kwargs
  {
    Params(Remove(Remove(kw, "lang"), "sort"))
  }

  /** The value sent for `sort`: the caller's, else `DEF_SORT`. */
  function SortFirstValue(kw: Kwargs): Py
  {
    Get(kw, "sort", PInt(DEF_SORT))
  }

  /** A call that can be completed: some keyword, a valid or absent language, no `domain`, a known protocol. */
  predicate Completable(kw: Kwargs)
  {
    kw != [] && (LangArg(kw).PNone? || InStrs(LangArg(kw), LANGS)) && !Has(kw, "domain")
    && InStrs(Protocol(kw), PROTOCOLS)
  }

  /** Popping keys other than `domain` and `protocol` keeps the domain out and the protocol as it was. */
  lemma PoppedKeys(kw: Kwargs, k: string)
    requires k != "protocol"
    ensures Has(Remove(kw, k), "domain") ==> Has(kw, "domain")
    ensures Protocol(Remove(kw, k)) == Protocol(kw)
  {
    GetRemove(kw, k, "protocol", PStr(DEF_PROTOCOL));
    HasEntry(kw, "domain");
    HasEntry(Remove(kw, k), "domain");
  }

  /**
   * `sort` first: for a completable call with plain values, the URL is the
   * prefixed domain with `/path` and `/query`, one `?` (or `&` after a
   * segment already holding one), a parameter string that reads back as
   * `sort` and then the caller's other parameters in the caller's order,
   * and `/lang` last.
   */
  lemma SortFirstInQuery(domain: string, kw: Kwargs)
    requires Completable(kw)
    requires Plain([("sort", SortFirstValue(kw))] + OtherParams(kw))
    ensures exists head, sep, q ::
      CompleteUrl(true, PStr(domain), kw) == Ok(PStr(head + sep + q + LangSuffix(kw)))
      && StartsWith(head, Prefix(domain, Protocol(kw).s)) && (sep == "?" || sep == "&")
      && ParseQuery(q) == Rendered([("sort", SortFirstValue(kw))] + OtherParams(kw))
  {
    var k := Remove(kw, "lang");
    var t := Remove(k, "sort");
    var e := ("sort", Get(k, "sort", PInt(DEF_SORT)));
    var args := CompleteArgs(true, kw);
    assert args == [e] + t;
    GetRemove(kw, "lang", "sort", PInt(DEF_SORT));
    PoppedKeys(kw, "lang");
    PoppedKeys(k, "sort");
    ParamsCons(e, t);
    assert !Has(args, "domain") by {
      HasEntry(args, "domain");
      HasEntry(t, "domain");
    }
    EsSession.ParamsAfterMark(domain, args);
    var head := Head(EsSession.Builder, Prefix(domain, Protocol(args).s), Remove(args, "protocol"));
    var last := AfterLast(head, '/');
    var sep := if last.Some? && '?' in last.value then "&" else "?";
    var q := Filters(Params(args)).value;
    assert CompleteUrl(true, PStr(domain), kw) == Ok(PStr(head + sep + q + LangSuffix(kw)));
    QueryUrlWitness(CompleteUrl(true, PStr(domain), kw), head, sep, q, LangSuffix(kw),
                    Prefix(domain, Protocol(kw).s), Rendered([("sort", SortFirstValue(kw))] + OtherParams(kw)));
  }

  /** A URL seen as a head, a separator, a query string and a suffix. */
  lemma QueryUrlWitness(u: Result<Py>, head: string, sep: string, q: string, suffix: string,
                        pre: string, expected: seq<(string, string)>)
    requires u == Ok(PStr(head + sep + q + suffix)) && StartsWith(head, pre) && (sep == "?" || sep == "&")
    requires ParseQuery(q) == expected
    ensures exists head, sep, q ::
      u == Ok(PStr(head + sep + q + suffix)) && StartsWith(head, pre) && (sep == "?" || sep == "&")
      && ParseQuery(q) == expected
  {
  }

  /** `SortFirstInQuery` read off for a call whose parameters, suffix and protocol are known. */
  lemma SortFirstUrl(domain: string, kw: Kwargs, suffix: string, expected: seq<(string, string)>)
    requires Completable(kw) && Plain([("sort", SortFirstValue(kw))] + OtherParams(kw))
    requires Rendered([("sort", SortFirstValue(kw))] + OtherParams(kw)) == expected
    requires LangSuffix(kw) == suffix && Protocol(kw).s == DEF_PROTOCOL
    ensures exists head, sep, q ::
      CompleteUrl(true, PStr(domain), kw) == Ok(PStr(head + sep + q + suffix))
      && StartsWith(head, Prefix(domain, DEF_PROTOCOL)) && (sep == "?" || sep == "&")
      && ParseQuery(q) == expected
  {
    SortFirstInQuery(domain, kw);
  }

  /** The facts `SortFirstInQuery` needs about `[sort, key]` or `[lang, sort, key]`. */
  lemma ListingArgs(kw: Kwargs, key: string, v: Py, sort: int)
    requires v.PStr? && '&' !in v.s
    requires key !in {"lang", "sort", "domain", "protocol", "path", "query"} && '&' !in key && '=' !in key
    requires kw == [("sort", PInt(sort)), (key, v)]
    ensures Completable(kw) && SortFirstValue(kw) == PInt(sort) && OtherParams(kw) == [(key, v)]
    ensures Plain([("sort", SortFirstValue(kw))] + OtherParams(kw))
    ensures [("sort", SortFirstValue(kw))] + OtherParams(kw) == kw
    ensures Rendered(kw) == [("sort", IntToString(sort)), (key, v.s)]
    ensures LangSuffix(kw) == "" && Protocol(kw).s == DEF_PROTOCOL
  {
    assert !Has(kw, "domain") && !Has(kw, "lang") && !Has(kw, "protocol");
    assert Remove(kw, "lang") == kw;
    assert Remove(kw, "sort") == [(key, v)] by {
      assert kw[1..] == [(key, v)];
    }
    assert Params([(key, v)]) == [(key, v)];
    assert '&' !in IntToString(sort);
    assert Plain([kw[0]]) && Plain([kw[1]]);
    PlainTwo(kw[0], kw[1]);
  }

  /** A listing or file URL asked for with a valid sort and one more plain parameter: `sort` first, then that parameter. */
  lemma SortThenKey(url: string, sort: int, key: string, v: string)
    requires '&' !in v
    requires key !in {"lang", "sort", "domain", "protocol", "path", "query"} && '&' !in key && '=' !in key
    ensures exists head, sep, q ::
      CompleteUrl(true, PStr(url), [("sort", PInt(sort)), (key, PStr(v))]) == Ok(PStr(head + sep + q))
      && StartsWith(head, Prefix(url, DEF_PROTOCOL)) && (sep == "?" || sep == "&")
      && ParseQuery(q) == [("sort", IntToString(sort)), (key, v)]
  {
    var kw := [("sort", PInt(sort)), (key, PStr(v))];
    ListingArgs(kw, key, PStr(v), sort);
    SortFirstUrl(url, kw, "", [("sort", IntToString(sort)), (key, v)]);
    var head, sep, q :| CompleteUrl(true, PStr(url), kw) == Ok(PStr(head + sep + q + ""))
      && StartsWith(head, Prefix(url, DEF_PROTOCOL)) && (sep == "?" || sep == "&")
      && ParseQuery(q) == [("sort", IntToString(sort)), (key, v)];
    assert head + sep + q + "" == head + sep + q;
  }

  /**
   * Kept in place: for a completable call with plain values, the parameter
   * string reads back as the caller's parameters other than `lang`, in the
   * caller's order, with no `sort` added.
   */
  lemma OrderKept(domain: string, kw: Kwargs)
    requires Completable(kw)
    requires Params(Remove(kw, "lang")) != [] && Plain(Params(Remove(kw, "lang")))
    ensures exists head, sep, q ::
      CompleteUrl(false, PStr(domain), kw) == Ok(PStr(head + sep + q + LangSuffix(kw)))
      && StartsWith(head, Prefix(domain, Protocol(kw).s)) && (sep == "?" || sep == "&")
      && ParseQuery(q) == Rendered(Params(Remove(kw, "lang")))
  {
    var args := CompleteArgs(false, kw);
    PoppedKeys(kw, "lang");
    EsSession.ParamsAfterMark(domain, args);
    var head := Head(EsSession.Builder, Prefix(domain, Protocol(args).s), Remove(args, "protocol"));
    var last := AfterLast(head, '/');
    var sep := if last.Some? && '?' in last.value then "&" else "?";
    var q := Filters(Params(args)).value;
    assert CompleteUrl(false, PStr(domain), kw) == Ok(PStr(head + sep + q + LangSuffix(kw)));
  }

  // ---------------------------------------------------------------------
  // Building a URL with `sort` last (database.py, eurobase.py,
  // collections.py `__build_url`)

  /** The keywords left once `domain` and `lang` are popped. */
  function Popped(kw: Kwargs): Kwargs
  {
    Remove(Remove(kw, "domain"), "lang")
  }

  /** The value `sort` takes: the caller's, else 1. */
  function SortLastValue(kw: Kwargs): Py
  {
    Get(Popped(kw), "sort", PInt(1))
  }

  /** The keywords handed to the builder: `sort` popped and put back by `update`, so it comes last. */
  function SortLastArgs(kw: Kwargs): Kwargs
  {
    Put(Remove(Popped(kw), "sort"), "sort", SortLastValue(kw))
  }

  /**
   * `__build_url(**kwargs)` over a builder dialect: nothing for no keyword;
   * a `domain` is required, and a language from `LANGS` (an absent one is
   * `None`, which is refused too); `sort` must be an int; `/lang` goes
   * after the whole URL.
   */
  function BuildUrlSortLast(d: Dialect, kw: Kwargs): (r: Result<Option<string>>)
    ensures kw == [] ==> r == Ok(None)
    ensures kw != [] && !Has(kw, "domain") ==> r == Err(EurobaseError("uncomplete information for building URL"))
    ensures kw != [] && Has(kw, "domain") && !InStrs(LangArg(kw), LANGS) ==> r == Err(EurobaseError("language not supported"))
    ensures r.Ok? && r.value.Some? ==> InStrs(LangArg(kw), LANGS) && EndsWith(r.value.value, "/" + LangArg(kw).s)
    ensures kw != [] && r.Ok? ==> r.value.Some?
  {
    if kw == [] then Ok(None)
    else if !Has(kw, "domain") then Err(EurobaseError("uncomplete information for building URL"))
    else
      // popping `domain` first leaves the value of `lang` as it was
      var lang := LangArg(kw);
      if !InStrs(lang, LANGS) then Err(EurobaseError("language not supported"))
      else if !IsInt(SortLastValue(kw)) then Err(EurobaseError("wrong parameter value for sort"))
      else match UrlCore.BuildUrl(d, Get(kw, "domain", PNone), SortLastArgs(kw))
        case Err(e) => Err(e)
        case Ok(u) => Ok(Some(WithLang(u, lang.s)))
  }

  /** `"{url}/{lang}"` */
  function WithLang(u: string, lang: string): (r: string)
    ensures EndsWith(r, "/" + lang)
  {
    assert (u + "/" + lang)[|u|..] == "/" + lang;
    u + "/" + lang
  }

  /** The keywords other than `domain`, `lang` and `sort` that reach the parameter string, in the caller's order. */
  function LeadingParams(kw: Kwargs): Kwargs
  {
    Params(Remove(Popped(kw), "sort"))
  }

  /** A call `__build_url` completes: a string domain, a language, an int sort and a known protocol. */
  predicate Buildable(kw: Kwargs)
  {
    Has(kw, "domain") && Get(kw, "domain", PNone).PStr? && InStrs(LangArg(kw), LANGS)
    && IsInt(SortLastValue(kw)) && InStrs(Protocol(kw), PROTOCOLS)
  }

  /** The arguments `sort` last: the other parameters in order, then `sort`, under the caller's protocol. */
  lemma SortLastArgsFacts(kw: Kwargs)
    ensures Params(SortLastArgs(kw)) == LeadingParams(kw) + [("sort", SortLastValue(kw))]
    ensures Protocol(SortLastArgs(kw)) == Protocol(kw)
  {
    var popped := Popped(kw);
    var rest := Remove(popped, "sort");
    var e := ("sort", SortLastValue(kw));
    assert !Has(rest, "sort");
    assert SortLastArgs(kw) == rest + [e];
    ParamsSnoc(rest, e);
    GetSnoc(rest, e, "protocol", PStr(DEF_PROTOCOL));
    assert Protocol(rest) == Protocol(popped) by { PoppedKeys(popped, "sort"); }
    assert Protocol(popped) == Protocol(Remove(kw, "domain")) by { PoppedKeys(Remove(kw, "domain"), "lang"); }
    assert Protocol(Remove(kw, "domain")) == Protocol(kw) by { PoppedKeys(kw, "domain"); }
  }

  /**
   * `sort` last: with a dialect that always binds its separator and plain
   * values, the URL is the prefixed domain with `/path` and `/query`, one
   * separator, a parameter string that reads back as the caller's other
   * parameters in order and then `sort`, and `/lang` after it all.
   */
  lemma SortEmittedLast(d: Dialect, kw: Kwargs)
    requires d.sep != OpenQuery && Buildable(kw)
    requires Plain(LeadingParams(kw) + [("sort", SortLastValue(kw))])
    ensures exists head, sep, q ::
      BuildUrlSortLast(d, kw) == Ok(Some(head + sep + q + "/" + LangArg(kw).s))
      && StartsWith(head, Prefix(Get(kw, "domain", PNone).s, Protocol(kw).s)) && (sep == "?" || sep == "&")
      && ParseQuery(q) == Rendered(LeadingParams(kw) + [("sort", SortLastValue(kw))])
  {
    var args := SortLastArgs(kw);
    var domain := Get(kw, "domain", PNone).s;
    SortLastArgsFacts(kw);
    GetRemove(kw, "domain", "lang", PNone);
    var head := Head(d, Prefix(domain, Protocol(args).s), Remove(args, "protocol"));
    FiltersRoundTrip(Params(args));
    SepBound(d.sep, head);
    assert UrlCore.BuildUrl(d, PStr(domain), args) == Ok(head + Sep(d.sep, head).value + Filters(Params(args)).value);
    var q := Filters(Params(args)).value;
    assert BuildUrlSortLast(d, kw) == Ok(Some(head + Sep(d.sep, head).value + q + "/" + LangArg(kw).s));
  }

  // ---------------------------------------------------------------------
  // Names read off the listing pages

  /**
   * The names of the page at `url` as `find_*` iterate them: the first kept
   * row only (the `return` inside `__read_members`' loop), and a page with
   * no content gives `None`, which the comprehension cannot iterate.
   */
  function MemberNames(fetch: string -> Option<seq<Table>>, url: string): (r: Result<seq<string>>)
    ensures r.Ok? ==> |r.value| <= 1
    ensures fetch(url).None? ==> r == Err(TypeError)
  {
    match FirstMember(fetch(url))
    case Err(e) => Err(e)
    case Ok(None) => Err(TypeError)
    case Ok(Some(names)) => Ok(names)
  }

  /**
   * `find_datasets(alpha)`: every letter, or the one lower-case letter
   * given; for each, the page `url&dir=data&start=<a>` read with
   * `__read_members`, every `.tsv.gz` removed from its names.
   */
  function FindDatasets(alpha: Py, url: string, fetch: string -> Option<seq<Table>>): (r: Result<map<char, seq<string>>>)
    ensures CheckAlpha(alpha, EurobaseError("unrecognised parameter alpha")).Err? ==> r == Err(EurobaseError("unrecognised parameter alpha"))
  {
    match CheckAlpha(alpha, EurobaseError("unrecognised parameter alpha"))
    case Err(e) => Err(e)
    case Ok(letters) =>
      ByLetter(letters, DataPrefix(url), Reader(fetch), BULK_DATA_EXT)
  }

  /** The listing of one letter is `url&dir=data&start=<a>`. */
  function DataPrefix(url: string): string
  {
    url + "&dir=" + BULK_DATA_DIR + "&start="
  }

  /** `__read_members` over the pages `fetch` returns. */
  function Reader(fetch: string -> Option<seq<Table>>): string -> Result<seq<string>>
  {
    u => MemberNames(fetch, u)
  }

  /**
   * What `find_datasets` returns: the letters asked for, each filed with at
   * most one name, the page's first entry stripped of `.tsv.gz`.
   */
  lemma FindDatasetsContents(alpha: Py, url: string, fetch: string -> Option<seq<Table>>)
    requires FindDatasets(alpha, url, fetch).Ok?
    ensures var m := FindDatasets(alpha, url, fetch).value;
      var letters := CheckAlpha(alpha, EurobaseError("unrecognised parameter alpha")).value;
      m.Keys == (set i | 0 <= i < |letters| :: letters[i])
      && forall a :: a in m ==>
        MemberNames(fetch, DataPrefix(url) + [a]).Ok? && |m[a]| <= 1
        && m[a] == Stripped(MemberNames(fetch, DataPrefix(url) + [a]).value, BULK_DATA_EXT)
  {
    var letters := CheckAlpha(alpha, EurobaseError("unrecognised parameter alpha")).value;
    var read := Reader(fetch);
    assert FindDatasets(alpha, url, fetch) == ByLetter(letters, DataPrefix(url), read, BULK_DATA_EXT);
    ByLetterContents(letters, DataPrefix(url), read, BULK_DATA_EXT);
    assert forall u :: read(u) == MemberNames(fetch, u);
  }

  /** `find_dimensions()`: the page `url&file=dic` read with `__read_members`, every `.dic` removed. */
  function FindDimensions(url: string, fetch: string -> Option<seq<Table>>): (r: Result<seq<string>>)
    ensures r.Ok? ==> |r.value| <= 1
  {
    match MemberNames(fetch, url + "&file=" + BULK_DIC_FILE)
    case Err(e) => Err(e)
    case Ok(names) => Ok(Stripped(names, BULK_DIC_EXT))
  }

  /** A page whose first entry is a dictionary file `<stem>.dic` gives back exactly its stem. */
  lemma FindDimensionsStem(url: string, fetch: string -> Option<seq<Table>>, stem: string)
    requires MemberNames(fetch, url + "&file=dic") == Ok([stem + ".dic"])
    requires '.' !in stem
    ensures FindDimensions(url, fetch) == Ok([stem])
  {
    assert url + "&file=" + BULK_DIC_FILE == url + "&file=dic";
    StrippedWithExt([stem], BULK_DIC_EXT);
    assert stem + "." + BULK_DIC_EXT == stem + ".dic";
    assert WithExt([stem], BULK_DIC_EXT) == [stem + ".dic"];
  }
}
