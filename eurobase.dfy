/**
 * eurobase.py: its own copy of the request URL builder, and the
 * `Collections` class: the validating setters and the constructor built
 * on them, `setURL` over `__build_url` (`sort` re-appended last), the
 * cache file names, membership of dimensions and datasets, and the names
 * `find_datasets`/`find_dimensions` read off the listings.
 *
 * collections.py holds the same class over requests.py's builder; the
 * class here takes its builder as a constant, so both drafts are this one
 * class.
 */
module Eurobase {
  import opened Python
  import opened Text
  import opened UrlCore
  import opened Listing
  import opened Setters
  import opened Drafts
  import opened FileStore
  import EsSession
  import Requests

  // ---------------------------------------------------------------------
  // `Request.build_url`

  /** No mark after the query, a single `?` before the parameters, eurobase.py's own error for an unknown protocol. */
  const RequestBuilder: Dialect := Dialect(false, AlwaysQuestion, EurobaseError("web protocol not recognised"))

  /** `Request.build_url(domain, **kwargs)` */
  function BuildUrl(domain: Py, kw: Kwargs): Result<string>
  {
    UrlCore.BuildUrl(RequestBuilder, domain, kw)
  }

  /**
   * The copy builds every URL requests.py's builder builds; the two differ
   * only in what an unknown protocol raises: eurobase.py's own error
   * here, a NameError there, where the error class is never imported.
   */
  lemma SameAsRequests(domain: string, kw: Kwargs)
    ensures InStrs(Protocol(kw), PROTOCOLS) ==> BuildUrl(PStr(domain), kw) == Requests.BuildUrl(PStr(domain), kw)
    ensures !InStrs(Protocol(kw), PROTOCOLS) ==>
      BuildUrl(PStr(domain), kw) == Err(EurobaseError("web protocol not recognised"))
      && Requests.BuildUrl(PStr(domain), kw) == Err(NameError)
  {
    if InStrs(Protocol(kw), PROTOCOLS) {
      var pre := Prefix(domain, Protocol(kw).s);
      var k := Remove(kw, "protocol");
      HeadWithoutMark(RequestBuilder, pre, k);
      HeadWithoutMark(Requests.Builder, pre, k);
    }
  }

  // ---------------------------------------------------------------------
  // The cache

  /**
   * `__build_pathname(filename, dirname)`: the digest of the name, under
   * the directory unless that is `None` or empty.
   */
  function BuildPathname(digest: string, dirname: Py): (r: Result<string>)
    ensures dirname.PNone? || dirname == PStr("") ==> r == Ok(digest)
    ensures dirname.PStr? && dirname.s != "" ==>
      r.Ok? && StartsWith(r.value, dirname.s) && EndsWith(r.value, digest)
      && |r.value| > |digest| && r.value[|r.value| - |digest| - 1] == '/'
    ensures !dirname.PNone? && !dirname.PStr? ==> r == Err(TypeError)
  {
    if dirname.PNone? || dirname == PStr("") then Ok(digest)
    else if dirname.PStr? then Ok(PathJoin(dirname.s, digest))
    else Err(TypeError)  // os.path.join on a non-path
  }

  /** The empty-directory guard changes nothing: session.py's builder, which joins under `''` too, names the same file. */
  lemma PathnameAsSession(digest: string, dirname: Py)
    ensures BuildPathname(digest, dirname) == EsSession.BuildPathname(digest, dirname)
  {
  }

  // ---------------------------------------------------------------------
  // The collection

  const ALPHA_UNKNOWN: Error := EurobaseError("unrecognised parameter alpha")

  /** Every field of a collection, as one value. */
  datatype CollectionsState = CollectionsState(domain: Py, query: Py, lang: Py, dimensions: Py, datasets: seq<(Py, Py)>,
                                               cache: Option<string>, expire: Py, forceDownload: bool, url: Option<string>)

  /** The fields `__init__` starts from, before any keyword. */
  const DEFAULT_STATE: CollectionsState :=
    CollectionsState(PStr(BULK_DOMAIN), PStr(BULK_QUERY), PStr(DEF_LANG), PList([]), DefaultGroups(), None, PInt(0), false, None)

  /** What the setters keep: string domain and query, a known language, a list or tuple of dimensions, a valid expiry. */
  predicate Sound(st: CollectionsState)
  {
    st.domain.PStr? && st.query.PStr? && InStrs(st.lang, LANGS) && (st.dimensions.PList? || st.dimensions.PTuple?)
    && ((IsInt(st.expire) && IntOf(st.expire) >= 0) || st.expire.PDelta?)
  }

  /** The `cache` keyword through its setter: the absolute path of a string, else no cache. */
  function InitCache(v: Py, host: Platform): Option<string>
  {
    var c := EsSession.CheckCache(v, host);
    if c.Ok? then Some(c.value) else None
  }

  /** The text keywords through their setters; a refused value keeps the old one. */
  function WithTexts(st: CollectionsState, kw: Kwargs): CollectionsState
  {
    st.(domain := Chosen(CheckText(Get(kw, "domain", PNone), "DOMAIN", Eurobase), st.domain),
        query := Chosen(CheckText(Get(kw, "query", PNone), "QUERY", Eurobase), st.query),
        lang := Chosen(CheckLang(Get(kw, "lang", PNone), LANGS, Eurobase), st.lang))
  }

  /** The cache keywords through their setters. */
  function WithSession(st: CollectionsState, kw: Kwargs, host: Platform): CollectionsState
  {
    var c := EsSession.CheckCache(Get(kw, "cache", PNone), host);
    st.(expire := Chosen(CheckExpire(Get(kw, "expire", PNone)), st.expire),
        forceDownload := Chosen(EsSession.CheckForceDownload(Get(kw, "force_download", PNone)), st.forceDownload),
        cache := if c.Ok? then Some(c.value) else st.cache)
  }

  /** The `dimensions` and `datasets` keywords through their setters. */
  function WithLists(st: CollectionsState, kw: Kwargs): CollectionsState
  {
    st.(dimensions := Chosen(ListOf(Get(kw, "dimensions", PNone)), st.dimensions),
        datasets := Chosen(GroupsOf(Get(kw, "datasets", PNone)), st.datasets))
  }

  /**
   * The collection `Collections(**kwargs)` leaves: each of the eight
   * setter keywords given goes through its setter, a refused value only
   * warned about. The setters touch one field each, so the order of
   * Python's `set` does not matter.
   */
  function Opened(kw: Kwargs, host: Platform): (c: CollectionsState)
    ensures Sound(c) && c.url.None?
    ensures c.domain == InitDomain(kw) && c.query == InitQuery(kw) && c.lang == InitLang(kw)
    ensures c.cache == InitCache(Get(kw, "cache", PNone), host)
  {
    WithLists(WithSession(WithTexts(DEFAULT_STATE, kw), kw, host), kw)
  }

  /** With no `datasets` keyword a collection lists no dataset; with a list or tuple it lists exactly its items. */
  lemma OpenedDatasets(kw: Kwargs, host: Platform)
    ensures !Has(kw, "datasets") ==> Flatten(Opened(kw, host).datasets) == Ok([])
    ensures var v := Get(kw, "datasets", PNone); (v.PList? || v.PTuple?) ==> Flatten(Opened(kw, host).datasets) == Ok(v.items)
  {
    var v := Get(kw, "datasets", PNone);
    if !Has(kw, "datasets") {
      DefaultGroupsEmpty();
    }
    if v.PList? || v.PTuple? {
      DatasetsRoundTrip(v);
    }
  }

  /** A string given as `dimensions` becomes the one dimension; a string `cache` is kept as its absolute path. */
  lemma OpenedDimensionsAndCache(kw: Kwargs, host: Platform)
    ensures var v := Get(kw, "dimensions", PNone); v.PStr? ==> Opened(kw, host).dimensions == PList([v])
    ensures var c := Get(kw, "cache", PNone); c.PStr? ==> Opened(kw, host).cache == Some(host.absPath(c.s))
    ensures !Has(kw, "cache") ==> Opened(kw, host).cache.None?
  {
  }

  /** The keywords `setURL` hands to `__build_url`: `domain`, `query` and `lang` each the caller's when truthy, else the collection's. */
  function UrlArgs(kw: Kwargs, domain: Py, query: Py, lang: Py): Kwargs
  {
    var k := Put(kw, "domain", Or(Get(kw, "domain", PNone), domain));
    var k2 := Put(k, "query", Or(Get(k, "query", PNone), query));
    Put(k2, "lang", Or(Get(k2, "lang", PNone), lang))
  }

  /**
   * `setURL` with the settings the setters keep (a string domain, a known
   * language): the domain is always there, so the URL is never skipped nor
   * refused as incomplete; the kept language passes unless the caller
   * names another; and a URL that is built ends with `/` and that language.
   * Database shares this `setURL`.
   */
  lemma UrlOfKeptSettings(d: Dialect, kw: Kwargs, domain: Py, query: Py, lang: Py)
    requires d.badProtocol !in {EurobaseError("uncomplete information for building URL"), EurobaseError("language not supported")}
    requires DistinctKeys(kw) && domain.PStr? && InStrs(lang, LANGS) && !Truthy(Get(kw, "lang", PNone))
    ensures var r := BuildUrlSortLast(d, UrlArgs(kw, domain, query, lang));
      r != Ok(None) && r != Err(EurobaseError("uncomplete information for building URL"))
      && r != Err(EurobaseError("language not supported"))
      && (r.Ok? ==> EndsWith(r.value.value, "/" + lang.s))
  {
    var args := UrlArgs(kw, domain, query, lang);
    UrlArgsFilled(kw, domain, query, lang);
    assert args != [] && LangArg(args) == lang;
    var r := BuildUrlSortLast(d, args);
    if IsInt(SortLastValue(args)) {
      var u := UrlCore.BuildUrl(d, Get(args, "domain", PNone), SortLastArgs(args));
      if u.Err? {
        assert r == Err(u.error);
        assert u.error in {AttributeError, d.badProtocol, ValueError, UnboundLocalError};
        assert !u.error.EurobaseError? || u.error == d.badProtocol;
      } else {
        assert r == Ok(Some(WithLang(u.value, lang.s)));
      }
    } else {
      assert r == Err(EurobaseError("wrong parameter value for sort"));
      assert r.error.msg != "uncomplete information for building URL";
      assert r.error.msg != "language not supported";
    }
  }

  /** The keywords `setURL` fills in always hold a domain, and the language is the caller's when truthy, else the collection's. */
  lemma UrlArgsFilled(kw: Kwargs, domain: Py, query: Py, lang: Py)
    requires DistinctKeys(kw)
    ensures var args := UrlArgs(kw, domain, query, lang);
      Has(args, "domain") && Get(args, "lang", PNone) == Or(Get(kw, "lang", PNone), lang)
  {
    var k := Put(kw, "domain", Or(Get(kw, "domain", PNone), domain));
    var k2 := Put(k, "query", Or(Get(k, "query", PNone), query));
    PutOther(k, "query", Or(Get(k, "query", PNone), query), "domain");
    PutOther(k2, "lang", Or(Get(k2, "lang", PNone), lang), "domain");
    PutOther(kw, "domain", Or(Get(kw, "domain", PNone), domain), "lang");
    PutOther(k, "query", Or(Get(k, "query", PNone), query), "lang");
  }

  class Collections {
    const builder: Dialect
    var domain: Py
    var query: Py
    var lang: Py
    var dimensions: Py
    var datasets: seq<(Py, Py)>
    var cache: Option<string>
    var expire: Py
    var forceDownload: bool
    var url: Option<string>

    function State(): CollectionsState
      reads this
    {
      CollectionsState(domain, query, lang, dimensions, datasets, cache, expire, forceDownload, url)
    }

    predicate Valid()
      reads this
    {
      Sound(State())
    }

    /** The defaults `__init__` starts from, before any keyword, over the given builder. */
    constructor (builder: Dialect)
      ensures this.builder == builder && State() == DEFAULT_STATE
    {
      this.builder := builder;
      domain, query, lang := PStr(BULK_DOMAIN), PStr(BULK_QUERY), PStr(DEF_LANG);
      dimensions, datasets := PList([]), DefaultGroups();
      cache, expire, forceDownload, url := None, PInt(0), false, None;
    }

    /**
     * `Collections(**kwargs)`: each of the eight setter keywords given is
     * popped and handed to its setter, a refused value only warned about.
     */
    static method Open(builder: Dialect, kw: Kwargs, host: Platform) returns (c: Collections)
      ensures fresh(c) && c.builder == builder && c.State() == Opened(kw, host)
    {
      c := new Collections(builder);
      c.ApplyTexts(kw);
      ghost var texts := c.State();
      assert texts == WithTexts(DEFAULT_STATE, kw);
      c.ApplySession(kw, host);
      ghost var session := c.State();
      assert session == WithSession(texts, kw, host);
      c.ApplyLists(kw);
    }

    // A keyword left out reads as None, which each setter refuses, so the default stays.

    /** The text keywords of `__init__`, each through its setter. */
    method ApplyTexts(kw: Kwargs)
      modifies this`domain, this`query, this`lang
      ensures State() == WithTexts(old(State()), kw)
    {
      var ignored: Result<()>;
      ignored := SetDomain(Get(kw, "domain", PNone));
      ignored := SetQuery(Get(kw, "query", PNone));
      ignored := SetLang(Get(kw, "lang", PNone));
    }

    /** The cache keywords of `__init__`, each through its setter. */
    method ApplySession(kw: Kwargs, host: Platform)
      modifies this`expire, this`forceDownload, this`cache
      ensures State() == WithSession(old(State()), kw, host)
    {
      var ignored: Result<()>;
      ignored := SetExpire(Get(kw, "expire", PNone));
      ignored := SetForceDownload(Get(kw, "force_download", PNone));
      ignored := SetCache(Get(kw, "cache", PNone), host);
    }

    /** The `dimensions` and `datasets` keywords of `__init__`, each through its setter. */
    method ApplyLists(kw: Kwargs)
      modifies this`dimensions, this`datasets
      ensures State() == WithLists(old(State()), kw)
    {
      var ignored: Result<()>;
      ignored := SetDimensions(Get(kw, "dimensions", PNone));
      ignored := SetDatasets(Get(kw, "datasets", PNone));
    }

    method SetDomain(v: Py) returns (r: Result<()>)
      modifies this`domain
      ensures r.Ok? <==> v.PStr?
      ensures domain == (if r.Ok? then v else old(domain))
      ensures old(Valid()) ==> Valid()
    {
      match CheckText(v, "DOMAIN", Eurobase)
      case Err(e) => return Err(e);
      case Ok(d) =>
        domain := d;
        return Ok(());
    }

    method SetQuery(v: Py) returns (r: Result<()>)
      modifies this`query
      ensures r.Ok? <==> v.PStr?
      ensures query == (if r.Ok? then v else old(query))
      ensures old(Valid()) ==> Valid()
    {
      match CheckText(v, "QUERY", Eurobase)
      case Err(e) => return Err(e);
      case Ok(q) =>
        query := q;
        return Ok(());
    }

    method SetLang(v: Py) returns (r: Result<()>)
      modifies this`lang
      ensures r.Ok? <==> InStrs(v, LANGS)
      ensures lang == (if r.Ok? then v else old(lang))
      ensures old(Valid()) ==> Valid()
    {
      match CheckLang(v, LANGS, Eurobase)
      case Err(e) => return Err(e);
      case Ok(l) =>
        lang := l;
        return Ok(());
    }

    /** The `dimensions` setter: a string becomes a one-item list. */
    method SetDimensions(v: Py) returns (r: Result<()>)
      modifies this`dimensions
      ensures r.Ok? <==> v.PStr? || v.PList? || v.PTuple?
      ensures dimensions == (if r.Ok? then ListOf(v).value else old(dimensions))
      ensures old(Valid()) ==> Valid()
    {
      match ListOf(v)
      case Err(e) => return Err(e);
      case Ok(d) =>
        dimensions := d;
        return Ok(());
    }

    /** The `datasets` setter: a list or tuple is filed under `_all_`; the groups are replaced, never merged. */
    method SetDatasets(v: Py) returns (r: Result<()>)
      modifies this`datasets
      ensures r.Ok? <==> v.PDict? || v.PList? || v.PTuple?
      ensures datasets == (if r.Ok? then GroupsOf(v).value else old(datasets))
      ensures old(Valid()) ==> Valid()
    {
      match GroupsOf(v)
      case Err(e) => return Err(e);
      case Ok(g) =>
        datasets := g;
        return Ok(());
    }

    /** The `cache` setter: a string, kept as its absolute path. */
    method SetCache(v: Py, host: Platform) returns (r: Result<()>)
      modifies this`cache
      ensures r.Ok? <==> v.PStr?
      ensures cache == (if r.Ok? then Some(host.absPath(v.s)) else old(cache))
      ensures old(Valid()) ==> Valid()
    {
      match EsSession.CheckCache(v, host)
      case Err(e) => return Err(e);
      case Ok(c) =>
        cache := Some(c);
        return Ok(());
    }

    /** The `expire` setter: an int at least 0 or a timedelta. */
    method SetExpire(v: Py) returns (r: Result<()>)
      modifies this`expire
      ensures r.Ok? <==> (IsInt(v) && IntOf(v) >= 0) || v.PDelta?
      ensures expire == (if r.Ok? then v else old(expire))
      ensures old(Valid()) ==> Valid()
    {
      match CheckExpire(v)
      case Err(e) => return Err(e);
      case Ok(x) =>
        expire := x;
        return Ok(());
    }

    /** The `force_download` setter: a bool only. */
    method SetForceDownload(v: Py) returns (r: Result<()>)
      modifies this`forceDownload
      ensures r.Ok? <==> v.PBool?
      ensures forceDownload == (if r.Ok? then v.b else old(forceDownload))
      ensures old(Valid()) ==> Valid()
    {
      match EsSession.CheckForceDownload(v)
      case Err(e) => return Err(e);
      case Ok(f) =>
        forceDownload := f;
        return Ok(());
    }

    /** The URL `setURL(**kwargs)` builds: the collection's own `domain`, `query` and `lang` fill in what the caller leaves falsy. */
    function BuiltUrl(kw: Kwargs): Result<Option<string>>
      reads this`domain, this`query, this`lang
    {
      BuildUrlSortLast(builder, UrlArgs(kw, domain, query, lang))
    }

    /** `setURL(**kwargs)`: a URL that builds is kept, a failure leaves the old one. */
    method SetUrl(kw: Kwargs) returns (r: Result<()>)
      modifies this`url
      ensures var u := old(BuiltUrl(kw));
        (r.Ok? <==> u.Ok?) && (r.Err? ==> r.error == u.error)
        && url == (if u.Ok? then u.value else old(url))
    {
      var built := BuiltUrl(kw);
      if built.Err? {
        return Err(built.error);
      }
      url := built.value;
      return Ok(());
    }

    /** The collection URL as `str.format` renders it: `None` before `setURL`. */
    function UrlText(): string
      reads this
    {
      if url.Some? then url.value else Str(PNone)
    }

    /** The file the cache keeps for a URL: its digest, under the cache directory when there is one. */
    function CachePath(digest: string): (p: string)
      reads this
      ensures cache.None? || cache == Some("") ==> p == digest
      ensures cache.Some? && cache.value != "" ==>
        StartsWith(p, cache.value) && EndsWith(p, digest) && |p| > |digest| && p[|p| - |digest| - 1] == '/'
    {
      BuildPathname(digest, if cache.Some? then PStr(cache.value) else PNone).value
    }

    /**
     * `is_cached(url)`: the URL's file, judged against the collection's
     * `expire`: a missing file is not cached, a stored one never expires
     * under `0`, and a timedelta cannot be compared with the file's age.
     */
    function IsCached(nodes: map<string, Node>, now: int, host: Platform, url: string): (r: Result<bool>)
      reads this
      ensures var p := CachePath(host.md5Hex(url));
        (p !in nodes ==> r == Ok(false))
        && (p in nodes && EqualsZero(expire) ==> r == Ok(true))
        && (p in nodes && IsInt(expire) && IntOf(expire) > 0 ==> r == Ok(now - nodes[p].mtime < IntOf(expire)))
        && (p in nodes && expire.PDelta? ==> r == Err(TypeError))
    {
      Requests.IsCached(nodes, now, CachePath(host.md5Hex(url)), expire)
    }

    /** `check_dimensions(dimension)`: plain membership, which a collection its setters kept always answers. */
    function CheckDimensions(dimension: Py): (r: Result<bool>)
      reads this
      ensures Valid() ==> r == Ok(Holds(dimensions.items, dimension))
    {
      InDimensions(dimension, dimensions)
    }

    /** `check_datasets(dataset)`: plain membership among the datasets the getter lists. */
    function CheckDatasets(dataset: Py): (r: Result<bool>)
      reads this
      ensures Flatten(datasets).Ok? ==> r == Ok(Holds(Flatten(datasets).value, dataset))
      ensures Flatten(datasets).Err? ==> r == Err(TypeError)
    {
      InDatasets(dataset, datasets)
    }

    /**
     * `find_datasets(alpha, **kwargs)`: the loop over the letters, each
     * listing read and stripped of `.tsv.gz`; keywords would go to
     * `self.get_url`, which the class does not define.
     */
    method FindDatasets(alpha: Py, kw: Kwargs, fetch: string -> Option<seq<Table>>)
      returns (r: Result<map<char, seq<string>>>)
      ensures CheckAlpha(alpha, ALPHA_UNKNOWN).Err? ==> r == Err(ALPHA_UNKNOWN)
      ensures CheckAlpha(alpha, ALPHA_UNKNOWN).Ok? && kw != [] ==> r == Err(AttributeError)
      ensures kw == [] ==> r == Drafts.FindDatasets(alpha, UrlText(), fetch)
    {
      var letters := CheckAlpha(alpha, ALPHA_UNKNOWN);
      if letters.Err? {
        return Err(letters.error);
      }
      if kw != [] {
        return Err(AttributeError);
      }
      r := FillByLetter(letters.value, DataPrefix(UrlText()), Reader(fetch), BULK_DATA_EXT);
    }

    /** `find_dimensions(**kwargs)`: the dictionary listing read and stripped of `.dic`. */
    method FindDimensions(kw: Kwargs, fetch: string -> Option<seq<Table>>) returns (r: Result<seq<string>>)
      ensures kw != [] ==> r == Err(AttributeError)
      ensures kw == [] ==> r == Drafts.FindDimensions(UrlText(), fetch)
    {
      if kw != [] {
        return Err(AttributeError);
      }
      r := Drafts.FindDimensions(UrlText(), fetch);
    }
  }
}
