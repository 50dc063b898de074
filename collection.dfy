/**
 * collection.py, class `Collection`: the validating setters (with `sort`),
 * `setURL`/`getURL` over session.py's builder, the listings
 * `bulk_dimensions` and `bulk_datasets` read through the session, the
 * checked membership tests, and the metabase URL of `getMetabase`.
 *
 * The module reads `settings.BULK_DIC_FILE`, `settings.BULK_META_FILE` and
 * `settings.BULK_META_EXT`, none of which settings.py defines; the
 * as-written members below fail there, the others use the constants
 * settings.py does define for the same purpose.
 */
module CollectionDraft {
  import opened Python
  import opened Text
  import opened UrlCore
  import opened Listing
  import opened Setters
  import opened Drafts
  import EsSession
  import DatabaseDraft

  const ALPHA_UNKNOWN: Error := EurobaseError("unrecognised parameter alpha")

  /** Every field of a collection, as one value; `session` is the pages a session built by `setSession` reads. */
  datatype CollectionState = CollectionState(domain: Py, query: Py, lang: Py, sort: Py, dimensions: Py,
                                             datasets: seq<(Py, Py)>, url: Option<string>, session: Option<Pages>)

  /** The fields `__init__` starts from, before any keyword. */
  const DEFAULT_STATE: CollectionState :=
    CollectionState(PStr(BULK_DOMAIN), PStr(BULK_QUERY), PStr(DEF_LANG), PInt(DEF_SORT), PList([]), DefaultGroups(),
                    None, None)

  /** What the setters keep: string domain and query, a known language, a positive sort, a list or tuple of dimensions. */
  predicate Sound(st: CollectionState)
  {
    st.domain.PStr? && st.query.PStr? && InStrs(st.lang, LANGS) && IsInt(st.sort) && IntOf(st.sort) > 0
    && (st.dimensions.PList? || st.dimensions.PTuple?)
  }

  /** The text and `sort` keywords through their setters; a refused value keeps the old one. */
  function WithTexts(st: CollectionState, kw: Kwargs): CollectionState
  {
    st.(domain := Chosen(CheckText(Get(kw, "domain", PNone), "DOMAIN", Eurobase), st.domain),
        query := Chosen(CheckText(Get(kw, "query", PNone), "QUERY", Eurobase), st.query),
        lang := Chosen(CheckLang(Get(kw, "lang", PNone), LANGS, Eurobase), st.lang),
        sort := Chosen(CheckSort(Get(kw, "sort", PNone), Eurobase), st.sort))
  }

  /** The `dimensions` and `datasets` keywords through their setters. */
  function WithLists(st: CollectionState, kw: Kwargs): CollectionState
  {
    st.(dimensions := Chosen(ListOf(Get(kw, "dimensions", PNone)), st.dimensions),
        datasets := Chosen(GroupsOf(Get(kw, "datasets", PNone)), st.datasets))
  }

  /**
   * The collection `Collection(**kwargs)` leaves: each of the six setter
   * keywords given goes through its setter, a refused value only warned
   * about; there is no session and no URL yet.
   */
  function Opened(kw: Kwargs): (st: CollectionState)
    ensures Sound(st) && st.url.None? && st.session.None?
    ensures st.domain == InitDomain(kw) && st.query == InitQuery(kw) && st.lang == InitLang(kw)
    ensures st.sort == Chosen(CheckSort(Get(kw, "sort", PNone), Eurobase), PInt(DEF_SORT))
  {
    WithLists(WithTexts(DEFAULT_STATE, kw), kw)
  }

  // ---------------------------------------------------------------------
  // `setURL` and `getURL`

  /** What `setURL` hands to the builder: `lang` popped, `query` and `sort` the caller's when truthy, else the collection's. */
  function UrlArgs(kw: Kwargs, query: Py, sort: Py): Kwargs
  {
    var k := Remove(kw, "lang");
    var k2 := Put(k, "query", Or(Get(k, "query", PNone), query));
    Put(k2, "sort", Or(Get(k2, "sort", PNone), sort))
  }

  /** What `getURL` hands to the builder: `lang` popped, and only a `query` or `sort` the caller names is filled in. */
  function GetArgs(kw: Kwargs, query: Py, sort: Py): Kwargs
  {
    var k := Remove(kw, "lang");
    var k2 := if Has(k, "query") then Put(k, "query", Or(Get(k, "query", PNone), query)) else k;
    if Has(k2, "sort") then Put(k2, "sort", Or(Get(k2, "sort", PNone), sort)) else k2
  }

  /** `Session.build_url(self.domain, **kwargs)`: the domain goes positionally, so a `domain` keyword is given twice. */
  function SessionUrl(domain: Py, args: Kwargs): (r: Result<string>)
    ensures Has(args, "domain") ==> r == Err(TypeError)
    ensures !Has(args, "domain") ==> r == EsSession.BuildUrl(domain, args)
  {
    if Has(args, "domain") then Err(TypeError) else EsSession.BuildUrl(domain, args)
  }

  /** A URL the session builds is never empty: it starts with its protocol. */
  lemma SessionUrlNonEmpty(domain: Py, args: Kwargs)
    ensures SessionUrl(domain, args).Ok? ==> SessionUrl(domain, args).value != []
  {
    var r := SessionUrl(domain, args);
    if r.Ok? {
      assert !Has(args, "domain") && domain.PStr?;
      assert r == UrlCore.BuildUrl(EsSession.Builder, domain, args);
      UrlCore.BuiltUrlNonEmpty(EsSession.Builder, domain.s, args);
    }
  }

  /**
   * The keywords `setURL` sends: never a language; the query and sort the
   * caller gives when truthy, else the collection's.
   */
  lemma UrlArgsFilled(kw: Kwargs, query: Py, sort: Py)
    requires DistinctKeys(kw)
    ensures var args := UrlArgs(kw, query, sort);
      !Has(args, "lang") && DistinctKeys(args)
      && Get(args, "query", PNone) == Or(Get(kw, "query", PNone), query)
      && Get(args, "sort", PNone) == Or(Get(kw, "sort", PNone), sort)
  {
    var k := Remove(kw, "lang");
    var k2 := Put(k, "query", Or(Get(k, "query", PNone), query));
    RemoveDistinct(kw, "lang");
    GetRemove(kw, "lang", "query", PNone);
    GetRemove(kw, "lang", "sort", PNone);
    PutOther(k, "query", Or(Get(k, "query", PNone), query), "sort");
    PutOther(k2, "sort", Or(Get(k2, "sort", PNone), sort), "lang");
    PutOther(k2, "sort", Or(Get(k2, "sort", PNone), sort), "query");
    PutOther(k, "query", Or(Get(k, "query", PNone), query), "lang");
  }

  /** Every keyword `setURL` does not fill in or pop reaches the builder as the caller gave it. */
  lemma UrlArgsKeepOthers(kw: Kwargs, query: Py, sort: Py, key: string)
    requires DistinctKeys(kw) && key !in {"lang", "query", "sort"}
    ensures var args := UrlArgs(kw, query, sort);
      Get(args, key, PNone) == Get(kw, key, PNone) && (Has(args, key) <==> Has(kw, key))
  {
    var k := Remove(kw, "lang");
    var k2 := Put(k, "query", Or(Get(k, "query", PNone), query));
    RemoveDistinct(kw, "lang");
    GetRemove(kw, "lang", key, PNone);
    HasEntry(kw, key);
    HasEntry(k, key);
    PutOther(k, "query", Or(Get(k, "query", PNone), query), key);
    PutOther(k2, "sort", Or(Get(k2, "sort", PNone), sort), key);
  }

  /** `getURL` fills in a `sort` only when the caller names one. */
  lemma GetArgsAddsNoSort(kw: Kwargs, query: Py, sort: Py)
    requires !Has(kw, "sort")
    ensures !Has(GetArgs(kw, query, sort), "sort")
  {
    var k := Remove(kw, "lang");
    HasEntry(kw, "sort");
    HasEntry(k, "sort");
    if Has(k, "query") {
      var k2 := Put(k, "query", Or(Get(k, "query", PNone), query));
      HasKeys(k, "sort");
      HasKeys(k2, "sort");
    }
  }

  /**
   * `getURL` and `setURL` send the same keywords when the caller names both
   * `query` and `sort`; with neither named, `getURL` sends no sort at all.
   */
  lemma GetArgsAsUrlArgs(kw: Kwargs, query: Py, sort: Py)
    ensures DistinctKeys(kw) && Has(kw, "query") && Has(kw, "sort") ==> GetArgs(kw, query, sort) == UrlArgs(kw, query, sort)
    ensures !Has(kw, "query") && !Has(kw, "sort") ==> GetArgs(kw, query, sort) == Remove(kw, "lang")
    ensures !Has(kw, "sort") ==> !Has(GetArgs(kw, query, sort), "sort")
  {
    var k := Remove(kw, "lang");
    HasEntry(kw, "query");
    HasEntry(k, "query");
    HasEntry(kw, "sort");
    HasEntry(k, "sort");
    if DistinctKeys(kw) {
      RemoveDistinct(kw, "lang");
      if Has(k, "query") {
        PutOther(k, "query", Or(Get(k, "query", PNone), query), "sort");
      }
    }
    if !Has(kw, "sort") {
      GetArgsAddsNoSort(kw, query, sort);
    }
  }

  // ---------------------------------------------------------------------
  // The listings

  /** `bulk_dimensions` as written: with no `dir` keyword it reads `settings.BULK_DIC_FILE`, which does not exist. */
  function DimensionsDirAsWritten(kw: Kwargs): (r: Result<Py>)
    ensures r.Ok? <==> Has(kw, "dir")
    ensures r.Ok? ==> r.value == Get(kw, "dir", PNone)
  {
    if Has(kw, "dir") then Ok(Get(kw, "dir", PNone)) else Err(AttributeError)
  }

  /** The directory of the dimension listing: the caller's, else settings.py's `BULK_DIC_DIR`. */
  function DimensionsDir(kw: Kwargs): (r: Py)
    ensures DimensionsDirAsWritten(kw).Ok? ==> r == DimensionsDirAsWritten(kw).value
    ensures !Has(kw, "dir") ==> r == PStr(BULK_DIC_DIR)
  {
    if Has(kw, "dir") then Get(kw, "dir", PNone) else PStr(BULK_DIC_DIR)
  }

  /** `kwargs.pop(key)` when given, else the default. */
  function PopOr(kw: Kwargs, key: string, default: Py): Py
  {
    if Has(kw, key) then Get(kw, key, PNone) else default
  }

  /** The URL as `__complete_url` receives it: `None` before `setURL`. */
  function UrlValue(url: Option<string>): Py
  {
    if url.Some? then PStr(url.value) else PNone
  }

  /** `__complete_url(self.url, lang=self.lang, dir=dire)`: the directory in the query, `/lang` after it. */
  function DimensionsUrl(url: Option<string>, lang: Py, dire: Py): (r: Result<Py>)
    ensures r.Ok? ==> r.value.PStr? && EndsWith(r.value.s, LangSuffix([("lang", lang), ("dir", dire)]))
  {
    CompleteUrl(false, UrlValue(url), [("lang", lang), ("dir", dire)])
  }

  /**
   * `bulk_dimensions(**kwargs)`: the listing of the dictionary directory,
   * read through the session, filtered, and stripped of `.ext` (default
   * `dic`). Without a session, `None.load_page` fails.
   */
  function BulkDimensions(st: CollectionState, kw: Kwargs): (r: Result<seq<string>>)
    ensures DimensionsUrl(st.url, st.lang, DimensionsDir(kw)).Ok? && st.session.None? ==> r == Err(AttributeError)
    ensures r.Ok? ==> DimensionsUrl(st.url, st.lang, DimensionsDir(kw)).Ok? && st.session.Some?
  {
    var ext := PopOr(kw, "ext", PStr(BULK_DIC_EXT));
    match DimensionsUrl(st.url, st.lang, DimensionsDir(kw))
    case Err(e) => Err(e)
    case Ok(u) =>
      if st.session.None? then Err(AttributeError)
      else
        match TableNames(st.session.value(u.s))
        case Err(e) => Err(e)
        case Ok(names) => Ok(Stripped(names, Str(ext)))
  }

  /** A listing of dictionary files `<stem>.dic` gives back exactly their stems, in order. */
  lemma BulkDimensionsStems(st: CollectionState, pages: Pages, stems: seq<string>)
    requires st.session == Some(pages)
    requires DimensionsUrl(st.url, st.lang, PStr(BULK_DIC_DIR)).Ok?
    requires TableNames(pages(DimensionsUrl(st.url, st.lang, PStr(BULK_DIC_DIR)).value.s)) == Ok(WithExt(stems, BULK_DIC_EXT))
    requires forall i :: 0 <= i < |stems| ==> '.' !in stems[i]
    ensures BulkDimensions(st, []) == Ok(stems)
  {
    assert Str(PStr(BULK_DIC_EXT)) == BULK_DIC_EXT;
    StrippedWithExt(stems, BULK_DIC_EXT);
  }

  /**
   * `bulk_dimensions(**kwargs)` as written: without a `dir` keyword the
   * missing `settings.BULK_DIC_FILE` raises before any URL is built; the
   * page goes through the session's `load_page` (given here as `loads`),
   * whose `(pathname, html)` pair is then handed to `read_html_table` in
   * place of a URL.
   */
  function BulkDimensionsAsWritten(st: CollectionState, kw: Kwargs, loads: Loads): Result<seq<string>>
  {
    var ext := PopOr(kw, "ext", PStr(BULK_DIC_EXT));
    match DimensionsDirAsWritten(kw)
    case Err(e) => Err(e)
    case Ok(dire) =>
      match DimensionsUrl(st.url, st.lang, dire)
      case Err(e) => Err(e)
      case Ok(u) =>
        if st.session.None? then Err(AttributeError)
        else
          match ReadAsWritten(loads)(u.s)
          case Err(e) => Err(e)
          case Ok(names) => Ok(Stripped(names, Str(ext)))
  }

  /**
   * As written the dimension listing never returns: without a `dir`
   * keyword it raises AttributeError on the missing default; with one, a
   * session and a URL, the load or the unpacking raises.
   */
  lemma DimensionListingNeverRead(st: CollectionState, kw: Kwargs, loads: Loads)
    ensures !Has(kw, "dir") ==> BulkDimensionsAsWritten(st, kw, loads) == Err(AttributeError)
    ensures var u := DimensionsUrl(st.url, st.lang, Get(kw, "dir", PNone));
      Has(kw, "dir") && st.session.Some? && u.Ok? ==>
      BulkDimensionsAsWritten(st, kw, loads) == Err(FirstPageError(loads, u.value.s))
  {
  }

  /** `__complete_url(self.url, dir=dire)`: the datasets directory, default `data`. */
  function DatasetsUrl(url: Option<string>, kw: Kwargs): (r: Result<Py>)
    ensures r.Ok? ==> r.value.PStr?
  {
    CompleteUrl(false, UrlValue(url), [("dir", PopOr(kw, "dir", PStr(BULK_DATA_DIR)))])
  }

  /**
   * `bulk_datasets(alpha, **kwargs)`: every letter, or the one lower-case
   * letter given; for each, the listing `url&start=<a>` read through the
   * session, filtered, stripped of `.ext` (default `tsv.gz`), and filed
   * under the letter.
   */
  function BulkDatasets(st: CollectionState, alpha: Py, kw: Kwargs): (r: Result<map<char, seq<string>>>)
    ensures CheckAlpha(alpha, ALPHA_UNKNOWN).Err? ==> r == Err(ALPHA_UNKNOWN)
    ensures CheckAlpha(alpha, ALPHA_UNKNOWN).Ok? && DatasetsUrl(st.url, kw).Ok? && st.session.None? ==> r == Err(AttributeError)
  {
    match CheckAlpha(alpha, ALPHA_UNKNOWN)
    case Err(e) => Err(e)
    case Ok(letters) =>
      match DatasetsUrl(st.url, kw)
      case Err(e) => Err(e)
      case Ok(u) =>
        if st.session.None? then Err(AttributeError)   // in the loop's first pass: there is always a letter
        else ByLetter(letters, u.s + "&start=", Filtered(st.session.value), Str(PopOr(kw, "ext", PStr(BULK_DATA_EXT))))
  }

  /**
   * What `bulk_datasets` returns once its URL is built and a session is
   * there: it succeeds when every letter's listing reads, and then holds
   * exactly the letters asked for, each with its listing's names stripped
   * of `.tsv.gz`.
   */
  lemma BulkDatasetsContents(st: CollectionState, alpha: Py, pages: Pages)
    requires st.session == Some(pages)
    requires CheckAlpha(alpha, ALPHA_UNKNOWN).Ok? && DatasetsUrl(st.url, []).Ok?
    ensures var letters := CheckAlpha(alpha, ALPHA_UNKNOWN).value;
      var prefix := DatasetsUrl(st.url, []).value.s + "&start=";
      var r := BulkDatasets(st, alpha, []);
      (r.Ok? <==> forall i :: 0 <= i < |letters| ==> TableNames(pages(prefix + [letters[i]])).Ok?)
      && (r.Ok? ==>
            r.value.Keys == (set i | 0 <= i < |letters| :: letters[i])
            && forall a :: a in r.value ==> r.value[a] == Stripped(TableNames(pages(prefix + [a])).value, BULK_DATA_EXT))
  {
    var letters := CheckAlpha(alpha, ALPHA_UNKNOWN).value;
    var prefix := DatasetsUrl(st.url, []).value.s + "&start=";
    BulkDatasetsWalk(st, alpha, pages);
    ByLetterContents(letters, prefix, Filtered(pages), BULK_DATA_EXT);
  }

  /** With a session and no keywords, `bulk_datasets` is the walk over the letters asked for. */
  lemma BulkDatasetsWalk(st: CollectionState, alpha: Py, pages: Pages)
    requires st.session == Some(pages)
    requires CheckAlpha(alpha, ALPHA_UNKNOWN).Ok? && DatasetsUrl(st.url, []).Ok?
    ensures BulkDatasets(st, alpha, [])
      == ByLetter(CheckAlpha(alpha, ALPHA_UNKNOWN).value, DatasetsUrl(st.url, []).value.s + "&start=", Filtered(pages), BULK_DATA_EXT)
  {
    assert Str(PStr(BULK_DATA_EXT)) == BULK_DATA_EXT;
  }

  /** `bulk_datasets(alpha, **kwargs)` as written: each letter's `(pathname, html)` pair is handed to `read_html_table`. */
  function BulkDatasetsAsWritten(st: CollectionState, alpha: Py, kw: Kwargs, loads: Loads): Result<map<char, seq<string>>>
  {
    match CheckAlpha(alpha, ALPHA_UNKNOWN)
    case Err(e) => Err(e)
    case Ok(letters) =>
      match DatasetsUrl(st.url, kw)
      case Err(e) => Err(e)
      case Ok(u) =>
        if st.session.None? then Err(AttributeError)
        else ByLetter(letters, u.s + "&start=", ReadAsWritten(loads), Str(PopOr(kw, "ext", PStr(BULK_DATA_EXT))))
  }

  /**
   * As written, with a session and a URL, the dataset listing never
   * returns: the page of the first letter asked for raises, by its load or
   * by the unpacking.
   */
  lemma DatasetListingNeverRead(st: CollectionState, alpha: Py, kw: Kwargs, loads: Loads)
    requires st.session.Some? && CheckAlpha(alpha, ALPHA_UNKNOWN).Ok? && DatasetsUrl(st.url, kw).Ok?
    ensures var first := CheckAlpha(alpha, ALPHA_UNKNOWN).value[0];
      BulkDatasetsAsWritten(st, alpha, kw, loads)
        == Err(FirstPageError(loads, DatasetsUrl(st.url, kw).value.s + "&start=" + [first]))
  {
    var letters := CheckAlpha(alpha, ALPHA_UNKNOWN).value;
    assert |LETTERS| == 26;
    WalksNeverRead(letters, DatasetsUrl(st.url, kw).value.s + "&start=", loads, Str(PopOr(kw, "ext", PStr(BULK_DATA_EXT))));
  }

  // ---------------------------------------------------------------------
  // The metabase URL of `getMetabase`

  /** `'{url}&fil={fil}{ext}'` as written: no dot, `fil` for `file`, and defaults settings.py does not have. */
  function MetabaseUrlAsWritten(url: Option<string>, kw: Kwargs): (r: Result<string>)
    ensures !Has(kw, "ext") || !Has(kw, "file") ==> r == Err(AttributeError)
  {
    if !Has(kw, "ext") || !Has(kw, "file") then Err(AttributeError)
    else Ok(Str(UrlValue(url)) + "&fil=" + Str(Get(kw, "file", PNone)) + Str(Get(kw, "ext", PNone)))
  }

  /** The metabase file named as the listing names it: `&file=<file>.<ext>`, by default `metabase.txt.gz`. */
  function MetabaseUrl(url: Option<string>, kw: Kwargs): (r: string)
    ensures StartsWith(r, Str(UrlValue(url)))
  {
    var u := Str(UrlValue(url));
    var fil := Str(PopOr(kw, "file", PStr(BULK_BASE_FILE)));
    var ext := Str(PopOr(kw, "ext", PStr(BULK_BASE_EXT)));
    assert (u + ("&file=" + fil + "." + ext))[..|u|] == u;
    u + ("&file=" + fil + "." + ext)
  }

  /**
   * The finding: asked for `metabase` and `txt.gz` by name, `getMetabase`
   * requests `&fil=metabasetxt.gz`, a parameter the service does not know
   * and a file that does not exist; the corrected URL asks for the file
   * `metabase.txt.gz` the bulk listing holds, with or without the keywords.
   */
  lemma MetabaseFileName(url: string)
    ensures MetabaseUrlAsWritten(Some(url), [("ext", PStr("txt.gz")), ("file", PStr("metabase"))])
      == Ok(url + "&fil=metabasetxt.gz")
    ensures MetabaseUrlAsWritten(Some(url), []) == Err(AttributeError)
    ensures MetabaseUrl(Some(url), [("ext", PStr("txt.gz")), ("file", PStr("metabase"))]) == url + "&file=metabase.txt.gz"
    ensures MetabaseUrl(Some(url), []) == url + "&file=" + BULK_BASE_FILE + "." + BULK_BASE_EXT
  {
    var kw := [("ext", PStr("txt.gz")), ("file", PStr("metabase"))];
    assert Get(kw, "file", PNone) == PStr("metabase") by { assert kw[1..] == [("file", PStr("metabase"))]; }
    assert Get(kw, "ext", PNone) == PStr("txt.gz");
    assert Has(kw, "file") && Has(kw, "ext");
    assert url + "&fil=" + "metabase" + "txt.gz" == url + "&fil=metabasetxt.gz";
    assert url + ("&file=" + "metabase" + "." + "txt.gz") == url + "&file=metabase.txt.gz";
    assert url + ("&file=" + BULK_BASE_FILE + "." + BULK_BASE_EXT) == url + "&file=" + BULK_BASE_FILE + "." + BULK_BASE_EXT;
  }

  /** The bulk dimension listing as written, without a `dir` keyword, never gets as far as its URL. */
  lemma DimensionsDirMissing()
    ensures DimensionsDirAsWritten([]) == Err(AttributeError)
    ensures DimensionsDir([]) == PStr("dic")
  {
  }

  // ---------------------------------------------------------------------
  // Membership

  /** The collection's datasets as the getter lists them, for `__check_member`. */
  function DatasetMembers(datasets: seq<(Py, Py)>): (r: Result<Members>)
    ensures Flatten(datasets).Ok? ==> r == Ok(Listed(Flatten(datasets).value))
  {
    match Flatten(datasets)
    case Err(e) => Err(e)
    case Ok(items) => Ok(Listed(items))
  }

  /**
   * A fresh collection refuses both checks, having no members to compare
   * to. database.py's checks over the defaults its constructor means to
   * start from would answer `False` (as written no database is built).
   */
  lemma FreshChecksRefused(x: Py)
    ensures CheckMember(x, MembersOf(DEFAULT_STATE.dimensions)) == Err(EurobaseError("no members to compare to"))
    ensures DatasetMembers(DEFAULT_STATE.datasets) == Ok(Listed([]))
    ensures CheckMember(x, Listed([])) == Err(EurobaseError("no members to compare to"))
    ensures InDimensions(x, DatabaseDraft.DEFAULT_STATE.dimensions) == Ok(false)
    ensures InDatasets(x, DatabaseDraft.DEFAULT_STATE.datasets) == Ok(false)
  {
    DefaultGroupsEmpty();
  }

  class Collection {
    var domain: Py
    var query: Py
    var lang: Py
    var sort: Py
    var dimensions: Py
    var datasets: seq<(Py, Py)>
    var url: Option<string>
    var session: Option<Pages>

    function State(): CollectionState
      reads this
    {
      CollectionState(domain, query, lang, sort, dimensions, datasets, url, session)
    }

    predicate Valid()
      reads this
    {
      Sound(State())
    }

    /** The defaults `__init__` starts from, before any keyword. */
    constructor ()
      ensures State() == DEFAULT_STATE
    {
      domain, query, lang, sort := PStr(BULK_DOMAIN), PStr(BULK_QUERY), PStr(DEF_LANG), PInt(DEF_SORT);
      dimensions, datasets, url, session := PList([]), DefaultGroups(), None, None;
    }

    /** `Collection(**kwargs)`: each of the six setter keywords given is popped and handed to its setter. */
    static method Open(kw: Kwargs) returns (c: Collection)
      ensures fresh(c) && c.State() == Opened(kw)
    {
      c := new Collection();
      c.ApplyTexts(kw);
      ghost var texts := c.State();
      assert texts == WithTexts(DEFAULT_STATE, kw);
      c.ApplyLists(kw);
    }

    // A keyword left out reads as None, which each setter refuses, so the default stays.

    /** The text and `sort` keywords of `__init__`, each through its setter. */
    method ApplyTexts(kw: Kwargs)
      modifies this`domain, this`query, this`lang, this`sort
      ensures State() == WithTexts(old(State()), kw)
    {
      var ignored: Result<()>;
      ignored := SetDomain(Get(kw, "domain", PNone));
      ignored := SetQuery(Get(kw, "query", PNone));
      ignored := SetLang(Get(kw, "lang", PNone));
      ignored := SetSort(Get(kw, "sort", PNone));
    }

    /** The `dimensions` and `datasets` keywords of `__init__`, each through its setter. */
    method ApplyLists(kw: Kwargs)
      modifies this`dimensions, this`datasets
      ensures State() == WithLists(old(State()), kw)
    {
      var ignored: Result<()>;
      ignored := SetDimensions(Get(kw, "dimensions", PNone));
      ignored := SetDatasets(Get(kw, "datasets", PNone));
    }

    method SetDomain(v: Py) returns (r: Result<()>)
      modifies this`domain
      ensures r.Ok? <==> v.PStr?
      ensures domain == (if r.Ok? then v else old(domain))
      ensures old(Valid()) ==> Valid()
    {
      match CheckText(v, "DOMAIN", Eurobase)
      case Err(e) => return Err(e);
      case Ok(d) =>
        domain := d;
        return Ok(());
    }

    method SetQuery(v: Py) returns (r: Result<()>)
      modifies this`query
      ensures r.Ok? <==> v.PStr?
      ensures query == (if r.Ok? then v else old(query))
      ensures old(Valid()) ==> Valid()
    {
      match CheckText(v, "QUERY", Eurobase)
      case Err(e) => return Err(e);
      case Ok(q) =>
        query := q;
        return Ok(());
    }

    method SetLang(v: Py) returns (r: Result<()>)
      modifies this`lang
      ensures r.Ok? <==> InStrs(v, LANGS)
      ensures lang == (if r.Ok? then v else old(lang))
      ensures old(Valid()) ==> Valid()
    {
      match CheckLang(v, LANGS, Eurobase)
      case Err(e) => return Err(e);
      case Ok(l) =>
        lang := l;
        return Ok(());
    }

    /** The `sort` setter: a positive int. */
    method SetSort(v: Py) returns (r: Result<()>)
      modifies this`sort
      ensures r.Ok? <==> IsInt(v) && IntOf(v) > 0
      ensures sort == (if r.Ok? then v else old(sort))
      ensures old(Valid()) ==> Valid()
    {
      match CheckSort(v, Eurobase)
      case Err(e) => return Err(e);
      case Ok(s) =>
        sort := s;
        return Ok(());
    }

    /** The `dimensions` setter: a string becomes a one-item list. */
    method SetDimensions(v: Py) returns (r: Result<()>)
      modifies this`dimensions
      ensures r.Ok? <==> v.PStr? || v.PList? || v.PTuple?
      ensures dimensions == (if r.Ok? then ListOf(v).value else old(dimensions))
      ensures old(Valid()) ==> Valid()
    {
      match ListOf(v)
      case Err(e) => return Err(e);
      case Ok(d) =>
        dimensions := d;
        return Ok(());
    }

    /** The `datasets` setter: a list or tuple is filed under `_all_`; the groups are replaced, never merged. */
    method SetDatasets(v: Py) returns (r: Result<()>)
      modifies this`datasets
      ensures r.Ok? <==> v.PDict? || v.PList? || v.PTuple?
      ensures datasets == (if r.Ok? then GroupsOf(v).value else old(datasets))
      ensures old(Valid()) ==> Valid()
    {
      match GroupsOf(v)
      case Err(e) => return Err(e);
      case Ok(g) =>
        datasets := g;
        return Ok(());
    }

    /** `setSession(**kwargs)`: the session built from the keywords, or its failure reported as the draft's own error. */
    method SetSession(built: Result<Pages>) returns (r: Result<()>)
      modifies this`session
      ensures r.Ok? <==> built.Ok?
      ensures r.Err? ==> r.error == EurobaseError("wrong definition for SESSION parameter")
      ensures session == (if built.Ok? then Some(built.value) else old(session))
    {
      if built.Err? {
        return Err(EurobaseError("wrong definition for SESSION parameter"));
      }
      session := Some(built.value);
      return Ok(());
    }

    /** `setURL(**kwargs)`: the collection's domain, with `query` and `sort` filled in from the collection. */
    method SetUrl(kw: Kwargs) returns (r: Result<()>)
      modifies this`url
      ensures var u := SessionUrl(domain, UrlArgs(kw, query, sort));
        (r.Ok? <==> u.Ok?) && (r.Err? ==> r.error == u.error)
        && url == (if u.Ok? then Some(u.value) else old(url))
    {
      var built := SessionUrl(domain, UrlArgs(kw, query, sort));
      if built.Err? {
        return Err(built.error);
      }
      url := Some(built.value);
      return Ok(());
    }

    /**
     * `getURL(**kwargs)`: the URL built from the keywords, nothing stored;
     * the `or self.url` fallback never applies, a built URL being a
     * non-empty string. Naming both `query` and `sort`, it builds what
     * `setURL` would store.
     */
    function GetUrl(kw: Kwargs): (r: Result<string>)
      reads this
      ensures r.Ok? ==> r.value != []
      ensures DistinctKeys(kw) && Has(kw, "query") && Has(kw, "sort") ==> r == SessionUrl(domain, UrlArgs(kw, query, sort))
    {
      GetArgsAsUrlArgs(kw, query, sort);
      SessionUrlNonEmpty(domain, GetArgs(kw, query, sort));
      SessionUrl(domain, GetArgs(kw, query, sort))
    }

    /** `bulk_dimensions(**kwargs)`: the listing read with the session's `read_html_table` and filtered by the loop. */
    method BulkDimensionsRead(kw: Kwargs) returns (r: Result<seq<string>>)
      ensures r == BulkDimensions(State(), kw)
    {
      var ext := PopOr(kw, "ext", PStr(BULK_DIC_EXT));
      var complete := DimensionsUrl(url, lang, DimensionsDir(kw));
      if complete.Err? {
        return Err(complete.error);
      }
      if session.None? {
        return Err(AttributeError);
      }
      var names := FilterTable(session.value(complete.value.s));
      if names.Err? {
        return Err(names.error);
      }
      return Ok(Stripped(names.value, Str(ext)));
    }

    /** `bulk_datasets(alpha, **kwargs)`: the loop over the letters, each listing filtered and stripped. */
    method BulkDatasetsRead(alpha: Py, kw: Kwargs) returns (r: Result<map<char, seq<string>>>)
      ensures r == BulkDatasets(State(), alpha, kw)
    {
      var letters := CheckAlpha(alpha, ALPHA_UNKNOWN);
      if letters.Err? {
        return Err(letters.error);
      }
      var complete := DatasetsUrl(url, kw);
      if complete.Err? {
        return Err(complete.error);
      }
      if session.None? {
        return Err(AttributeError);
      }
      var ext := Str(PopOr(kw, "ext", PStr(BULK_DATA_EXT)));
      r := FillByLetter(letters.value, complete.value.s + "&start=", Filtered(session.value), ext);
    }

    /** `check_dimension(dimension)`: no dimensions to compare to is an error, otherwise membership. */
    function CheckDimension(dimension: Py): (r: Result<bool>)
      reads this
      ensures Valid() && dimensions != PList([]) ==> r == Ok(Holds(dimensions.items, dimension))
      ensures dimensions == PList([]) ==> r == Err(EurobaseError("no members to compare to"))
    {
      CheckMember(dimension, MembersOf(dimensions))
    }

    /** `check_dataset(dataset)`: no datasets to compare to is an error, otherwise membership. */
    function CheckDataset(dataset: Py): (r: Result<bool>)
      reads this
      ensures Flatten(datasets) == Ok([]) ==> r == Err(EurobaseError("no members to compare to"))
      ensures Flatten(datasets).Ok? && Flatten(datasets) != Ok([]) ==> r == Ok(Holds(Flatten(datasets).value, dataset))
    {
      match DatasetMembers(datasets)
      case Err(e) => Err(e)
      case Ok(m) => CheckMember(dataset, m)
    }
  }
}
