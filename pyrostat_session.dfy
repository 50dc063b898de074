/**
 * pyrostat/session.py: the URL builder of the `pyrostat` package, the
 * freshness test of its page cache, the fetch-through download and the
 * validating setters of `Session`.
 */
module PyrostatSession {
  import opened Python
  import opened Text
  import opened UrlCore
  import opened FileStore

  /** `/query?` after the query; parameters glued directly after a trailing `?` or `/`. */
  const Builder: Dialect := Dialect(true, OpenQuery, PyroError("web protocol not recognised"))

  /** The backends `cache_backend` accepts, in lower case. */
  const BACKENDS: seq<string> := ["sqlite", "memory", "dict", "file", "redis", "mongo"]
  /** The backends served by `requests_cache`; the others by `cachecontrol`. */
  const REQUESTS_CACHE_BACKENDS: seq<string> := ["sqlite", "memory", "redis", "mongo"]
  const PACKAGE: string := "pyrostat"

  // ---------------------------------------------------------------------
  // build_url

  /** The domain: the first positional argument, else the `domain` keyword, else the empty string. */
  function Domain(args: seq<Py>, kw: Kwargs): Py
  {
    if |args| > 0 then args[0] else Get(kw, "domain", PStr(""))
  }

  /** The keywords left for the builder once the domain is taken. */
  function Rest(args: seq<Py>, kw: Kwargs): Kwargs
  {
    if |args| > 0 then kw else Remove(kw, "domain")
  }

  /** `Session.build_url(*args, **kwargs)` */
  function BuildUrl(args: seq<Py>, kw: Kwargs): Result<string>
  {
    UrlCore.BuildUrl(Builder, Domain(args, kw), Rest(args, kw))
  }

  /** An unknown protocol is refused with pyroError, and only then. */
  lemma ProtocolRefused(args: seq<Py>, kw: Kwargs)
    requires Domain(args, kw).PStr?
    ensures BuildUrl(args, kw) == Err(PyroError("web protocol not recognised"))
        <==> !InStrs(Protocol(Rest(args, kw)), PROTOCOLS)
  {
    UnknownProtocolRefused(Builder, Domain(args, kw).s, Rest(args, kw));
  }

  /** A URL built with a query and no other parameter ends in `?`. */
  lemma QueryAloneEndsWithMark(domain: string, kw: Kwargs)
    requires InStrs(Protocol(kw), PROTOCOLS)
    requires Has(Remove(kw, "protocol"), "query") && Params(kw) == []
    ensures UrlCore.BuildUrl(Builder, PStr(domain), kw).Ok?
    ensures EndsWith(UrlCore.BuildUrl(Builder, PStr(domain), kw).value, "?")
  {
  }

  /** The head ending in `query?` takes the parameters with no separator at all. */
  lemma QueryHeadTakesNoSeparator(pre: string, kw: Kwargs)
    requires Has(kw, "query")
    ensures Sep(OpenQuery, Head(Builder, pre, kw)) == Ok("")
  {
    var head := Head(Builder, pre, kw);
    var withPath := if Has(kw, "path") then pre + "/" + Str(Get(kw, "path", PNone)) else pre;
    assert head == withPath + "/" + Str(Get(kw, "query", PNone)) + "?";
    assert head[|withPath|] == '/';
    AfterLastKeepsEnd(head, '/');
  }

  /** After a query the parameters follow the `?` directly, and read back in insertion order. */
  lemma ParamsFollowQuery(domain: string, kw: Kwargs)
    requires UrlCore.BuildUrl(Builder, PStr(domain), kw).Ok?
    requires Has(Remove(kw, "protocol"), "query") && Params(kw) != [] && Plain(Params(kw))
    ensures var head := Head(Builder, Prefix(domain, Protocol(kw).s), Remove(kw, "protocol"));
      EndsWith(head, "?")
      && UrlCore.BuildUrl(Builder, PStr(domain), kw).value == head + Filters(Params(kw)).value
      && ParseQuery(Filters(Params(kw)).value) == Rendered(Params(kw))
  {
    var head := Head(Builder, Prefix(domain, Protocol(kw).s), Remove(kw, "protocol"));
    QueryHeadTakesNoSeparator(Prefix(domain, Protocol(kw).s), Remove(kw, "protocol"));
    BuildUrlParams(Builder, domain, kw);
  }

  /**
   * Without a path or a query, parameters after a prefixed domain that ends
   * in neither `?` nor `/` leave the separator unbound: the call fails.
   */
  lemma ParamsWithoutQueryFail(domain: string, kw: Kwargs)
    requires InStrs(Protocol(kw), PROTOCOLS)
    requires !Has(Remove(kw, "protocol"), "path") && !Has(Remove(kw, "protocol"), "query")
    requires Params(kw) != [] && Plain(Params(kw))
    requires var u := Strip(domain, '/'); u != "" && u[|u| - 1] != '?' && !StartsWith(u, Protocol(kw).s)
    ensures UrlCore.BuildUrl(Builder, PStr(domain), kw) == Err(UnboundLocalError)
  {
    DomainUnbound(domain, Protocol(kw).s);
    FiltersRoundTrip(Params(kw));
    UnboundWithoutQuery(domain, kw);
  }

  /** A bare head that binds no separator makes any parameter fail the call. */
  lemma UnboundWithoutQuery(domain: string, kw: Kwargs)
    requires InStrs(Protocol(kw), PROTOCOLS)
    requires !Has(Remove(kw, "protocol"), "path") && !Has(Remove(kw, "protocol"), "query")
    requires Params(kw) != [] && Filters(Params(kw)).Ok?
    requires Sep(OpenQuery, Prefix(domain, Protocol(kw).s)) == Err(UnboundLocalError)
    ensures UrlCore.BuildUrl(Builder, PStr(domain), kw) == Err(UnboundLocalError)
  {
    var pre := Prefix(domain, Protocol(kw).s);
    HeadBare(Builder, pre, Remove(kw, "protocol"));
    AttachUnbound(pre, Params(kw));
  }

  /** A domain that gets the protocol prefix and ends in neither `?` nor `/` once stripped binds no separator. */
  lemma DomainUnbound(domain: string, p: string)
    requires var u := Strip(domain, '/'); u != "" && u[|u| - 1] != '?' && !StartsWith(u, p)
    ensures Sep(OpenQuery, Prefix(domain, p)) == Err(UnboundLocalError)
  {
    StripEnds(domain, '/');
    PrefixedDomainUnbound(p, Strip(domain, '/'));
  }

  /** A prefixed domain ending in neither `?` nor `/` binds no separator. */
  lemma PrefixedDomainUnbound(p: string, u: string)
    requires u != "" && u[|u| - 1] != '?' && u[|u| - 1] != '/'
    ensures Sep(OpenQuery, p + "://" + u) == Err(UnboundLocalError)
  {
    var pre := p + "://" + u;
    assert pre[|p| + 1] == '/';
    assert pre[|pre| - 1] == u[|u| - 1];
    AfterLastKeepsEnd(pre, '/');
    var last := AfterLast(pre, '/').value;
    assert last[|last| - 1] != '?' && last[|last| - 1] != '/';
    assert !EndsWith(last, "?") && !EndsWith(last, "/");
  }

  // ---------------------------------------------------------------------
  // The page cache

  /**
   * `__is_cached(pathname, time_out)`: a missing file is never cached; `None`
   * and negative limits never expire; `0` always expires; otherwise the file
   * is fresh while its age is below the limit.
   */
  function IsCached(nodes: map<string, Node>, now: int, pathname: string, timeOut: Py): (r: Result<bool>)
    ensures pathname !in nodes ==> r == Ok(false)
    ensures pathname in nodes && timeOut.PNone? ==> r == Ok(true)
    ensures pathname in nodes && IsInt(timeOut) ==>
      r == Ok(IntOf(timeOut) < 0 || (IntOf(timeOut) > 0 && now - nodes[pathname].mtime < IntOf(timeOut)))
    ensures pathname in nodes && !timeOut.PNone? && !IsInt(timeOut) ==> r == Err(TypeError)
  {
    if pathname !in nodes then Ok(false)
    else if timeOut.PNone? then Ok(true)
    else match LessThan(0, timeOut) // `time_out < 0` compares a number only
      case Err(e) => Err(e)
      case Ok(_) =>
        if IntOf(timeOut) < 0 then Ok(true)
        else if EqualsZero(timeOut) then Ok(false)
        else LessThan(now - nodes[pathname].mtime, timeOut)
  }

  /**
   * `__default_cache(backend)`: the cache directory for a backend. The
   * in-memory backends map to `eurobase`; the `file` backend to the
   * platform's cache directory `fileBase` joined with the package name. The
   * test for the server backends is case-sensitive, so a mixed-case name
   * falls through to no directory at all.
   */
  function DefaultCache(backend: Py, fileBase: string): (r: Result<Option<string>>)
    ensures !backend.PStr? ==> r == Err(PyroError("wrong type for BACKEND parameter"))
    ensures backend.PStr? && Lower(backend.s) !in BACKENDS ==> r == Err(PyroError("wrong definition for BACKEND parameter"))
    ensures backend.PStr? && Lower(backend.s) in BACKENDS ==> r.Ok?
    ensures r.Ok? && r.value.Some? ==> r.value.value == "eurobase" || r.value.value == PathJoin(fileBase, PACKAGE)
  {
    if !backend.PStr? then Err(PyroError("wrong type for BACKEND parameter"))
    else if Lower(backend.s) !in BACKENDS then Err(PyroError("wrong definition for BACKEND parameter"))
    else if Lower(backend.s) == "file" then Ok(Some(PathJoin(fileBase, PACKAGE)))
    else if Lower(backend.s) in ["memory", "dict"] then Ok(Some("eurobase"))
    else if backend.s in ["sqlite", "redis", "mongo"] then Ok(Some("eurobase"))
    else Ok(None)
  }

  /** A server backend spelled in anything but lower case yields no cache directory. */
  lemma DefaultCacheCaseSensitive(s: string, fileBase: string)
    requires Lower(s) in ["sqlite", "redis", "mongo"] && s != Lower(s)
    ensures DefaultCache(PStr(s), fileBase) == Ok(None)
  {
    assert Lower(s) != "file" && Lower(s) !in ["memory", "dict"];
  }

  /** The file a URL is cached in: its MD5 hex name under `cache`, or under `./` when caching is off. */
  function CachePath(cache: Py, digest: string): (r: Result<string>)
    ensures cache.PStr? && cache.s != "" ==> r == Ok(PathJoin(cache.s, digest))
    ensures !Truthy(cache) ==> r == Ok("./" + digest)
    ensures Truthy(cache) && !cache.PStr? ==> r == Err(TypeError)
  {
    if !Truthy(cache) then Ok(PathJoin("./", digest))
    else if cache.PStr? then Ok(PathJoin(cache.s, digest))
    else Err(TypeError)  // os.path.join on a non-path
  }

  function NotADirectory(cache: Py): Error
  {
    PyroError("cache " + Str(cache) + " is not a directory")
  }

  /**
   * `__get_response`: download when forced or not cached, then create the
   * cache directory if missing and store the body; otherwise read the stored
   * body back. A cache that is not a path (caching switched off with
   * `False`) is not a directory, so both branches raise once they test it.
   */
  function Fetch(nodes: map<string, Node>, respond: string -> Option<string>, now: int,
                 url: string, cache: Py, force: bool, expire: Py, digest: string): (o: Outcome)
    ensures CachePath(cache, digest).Err? ==> o == Outcome(Err(CachePath(cache, digest).error), nodes, false)
    ensures o.fetched <==> (CachePath(cache, digest).Ok?
      && (force || IsCached(nodes, now, CachePath(cache, digest).value, expire) == Ok(false)))
    ensures o.fetched && respond(url).None? ==> o == Outcome(Err(OSError), nodes, true)
    ensures !o.fetched ==> o.nodes == nodes
    ensures o.result.Ok? ==> cache.PStr? && o.result.value.0 == CachePath(cache, digest).value
    ensures o.result.Ok? && o.fetched ==> respond(url) == Some(o.result.value.1)
    ensures o.result.Ok? && !o.fetched ==> o.result.value.0 in nodes && nodes[o.result.value.0] == File(o.result.value.1, nodes[o.result.value.0].mtime)
  {
    match CachePath(cache, digest)
    case Err(e) => Outcome(Err(e), nodes, false)
    case Ok(p) =>
      // a forced call never asks whether the stored page is fresh
      match if force then Ok(false) else IsCached(nodes, now, p, expire)
      case Err(e) => Outcome(Err(e), nodes, false)
      case Ok(current) =>
        if !current then
          match respond(url)
          case None => Outcome(Err(OSError), nodes, true)
          case Some(body) =>
            if !cache.PStr? then Outcome(Err(NotADirectory(cache)), nodes, true)
            else SaveUnder(nodes, now, cache.s, p, body, NotADirectory(cache))
        else if !(cache.PStr? && cache.s in nodes && nodes[cache.s].Dir?) then Outcome(Err(NotADirectory(cache)), nodes, false)
        else if nodes[p].File? then Outcome(Ok((p, nodes[p].content)), nodes, false)
        else Outcome(Err(OSError), nodes, false)
  }

  /** Not forced and cached: no transport call, the file system unchanged. */
  lemma CachedPageNotFetched(nodes: map<string, Node>, respond: string -> Option<string>, now: int,
                             url: string, cache: Py, expire: Py, digest: string)
    requires CachePath(cache, digest).Ok?
    requires IsCached(nodes, now, CachePath(cache, digest).value, expire) == Ok(true)
    ensures var o := Fetch(nodes, respond, now, url, cache, false, expire, digest);
      !o.fetched && o.nodes == nodes
  {
  }

  /** A successful download leaves the body stored at the returned path, time-stamped now, inside the cache directory. */
  lemma DownloadIsStored(nodes: map<string, Node>, respond: string -> Option<string>, now: int,
                         url: string, cache: Py, force: bool, expire: Py, digest: string)
    requires var o := Fetch(nodes, respond, now, url, cache, force, expire, digest); o.fetched && o.result.Ok?
    ensures var o := Fetch(nodes, respond, now, url, cache, force, expire, digest);
      cache.PStr? && o.result.value.0 == PathJoin(cache.s, digest)
      && respond(url) == Some(o.result.value.1)
      && o.result.value.0 in o.nodes && o.nodes[o.result.value.0] == File(o.result.value.1, now)
      && cache.s in o.nodes && o.nodes[cache.s].Dir?
      && CachePath(cache, digest) == Ok(o.result.value.0)
  {
    var o := Fetch(nodes, respond, now, url, cache, force, expire, digest);
    var p := CachePath(cache, digest).value;
    assert o == SaveUnder(nodes, now, cache.s, p, respond(url).value, NotADirectory(cache));
    assert p != cache.s;
  }

  /**
   * The cache round trip: right after a download, the same request with a
   * limit other than `0` is answered from the disk with the same body and
   * no transport call.
   */
  lemma {:induction false} SecondRequestServedFromDisk(nodes: map<string, Node>, respond: string -> Option<string>, now: int,
                                    url: string, cache: Py, force: bool, expire: Py, digest: string)
    requires var o := Fetch(nodes, respond, now, url, cache, force, expire, digest); o.fetched && o.result.Ok?
    requires expire.PNone? || (IsInt(expire) && IntOf(expire) != 0)
    ensures var o := Fetch(nodes, respond, now, url, cache, force, expire, digest);
      Fetch(o.nodes, respond, now, url, cache, false, expire, digest) == Outcome(o.result, o.nodes, false)
  {
    var o := Fetch(nodes, respond, now, url, cache, force, expire, digest);
    DownloadIsStored(nodes, respond, now, url, cache, force, expire, digest);
    var p, body := o.result.value.0, o.result.value.1;
    assert o.result == Ok((p, body));
    JustStoredRead(o.nodes, respond, now, url, cache, expire, digest, p, body);
  }

  /** A file stored now inside the cache directory is read back under no limit or any limit other than `0`. */
  lemma JustStoredRead(nodes: map<string, Node>, respond: string -> Option<string>, now: int,
                       url: string, cache: Py, expire: Py, digest: string, p: string, body: string)
    requires CachePath(cache, digest) == Ok(p) && p in nodes && nodes[p] == File(body, now)
    requires cache.PStr? && cache.s in nodes && nodes[cache.s].Dir?
    requires expire.PNone? || (IsInt(expire) && IntOf(expire) != 0)
    ensures Fetch(nodes, respond, now, url, cache, false, expire, digest) == Outcome(Ok((p, body)), nodes, false)
  {
    assert IsCached(nodes, now, p, expire) == Ok(true);
    StoredPageRead(nodes, respond, now, url, cache, expire, digest, p);
  }

  /** A fresh stored file inside the cache directory is read back without a transport call. */
  lemma StoredPageRead(nodes: map<string, Node>, respond: string -> Option<string>, now: int,
                       url: string, cache: Py, expire: Py, digest: string, p: string)
    requires CachePath(cache, digest) == Ok(p) && IsCached(nodes, now, p, expire) == Ok(true)
    requires cache.PStr? && cache.s in nodes && nodes[cache.s].Dir? && p in nodes && nodes[p].File?
    ensures Fetch(nodes, respond, now, url, cache, false, expire, digest) == Outcome(Ok((p, nodes[p].content)), nodes, false)
  {
  }

  /**
   * A forced call goes to the transport whatever the freshness test would
   * say, even one that would raise: it behaves as an unforced call with a
   * `0` limit.
   */
  lemma ForcedAlwaysFetches(nodes: map<string, Node>, respond: string -> Option<string>, now: int,
                            url: string, cache: Py, expire: Py, digest: string)
    requires CachePath(cache, digest).Ok?
    ensures Fetch(nodes, respond, now, url, cache, true, expire, digest).fetched
    ensures Fetch(nodes, respond, now, url, cache, true, expire, digest)
      == Fetch(nodes, respond, now, url, cache, false, PInt(0), digest)
  {
  }

  /** A `0` limit always downloads again, even right after storing the page. */
  lemma ZeroLimitAlwaysFetches(nodes: map<string, Node>, respond: string -> Option<string>, now: int,
                               url: string, cache: Py, force: bool, digest: string)
    requires CachePath(cache, digest).Ok?
    ensures Fetch(nodes, respond, now, url, cache, force, PInt(0), digest).fetched
  {
  }

  // ---------------------------------------------------------------------
  // Setters

  /** `cache` accepts `None`, a string or a bool; turning caching on needs one of the caching libraries. */
  function CheckCache(v: Py, requestsCache: bool, cacheControl: bool): (r: Result<Py>)
    ensures r.Ok? <==> (v.PNone? || v.PStr? || v.PBool?)
                       && (v in [PBool(false), PStr(""), PNone] || requestsCache || cacheControl)
    ensures r.Ok? ==> r.value == v
  {
    if !(v.PNone? || v.PStr? || v.PBool?) then Err(PyroError("wrong type for CACHE_NAME parameter"))
    else if v !in [PBool(false), PStr(""), PNone] && !requestsCache && !cacheControl then
      Err(PyroError("caching not supported in the absence of modules requests_cache and cachecontrol"))
    else Ok(v)
  }

  /**
   * `cache_backend` maps `None` to `sqlite`, and otherwise accepts a string
   * naming one of the six backends in any case, provided the library serving
   * it is present; the name is stored in lower case.
   */
  function CheckBackend(v: Py, requestsCache: bool, cacheControl: bool): (r: Result<string>)
    ensures v.PNone? ==> r == Ok("sqlite")
    ensures r.Ok? ==> r.value in BACKENDS
    ensures v.PStr? ==>
      (r.Ok? <==> (Lower(v.s) in BACKENDS
                   && (Lower(v.s) in REQUESTS_CACHE_BACKENDS ==> requestsCache)
                   && (Lower(v.s) !in REQUESTS_CACHE_BACKENDS ==> cacheControl)))
    ensures v.PStr? && r.Ok? ==> r.value == Lower(v.s)
    ensures !v.PNone? && !v.PStr? ==> r.Err?
  {
    if v.PNone? then Ok("sqlite")
    else if !v.PStr? then Err(PyroError("wrong type for CACHE_BACKEND parameter"))
    else if Lower(v.s) in BACKENDS then
      BackendFamilies(Lower(v.s));
      if Lower(v.s) in REQUESTS_CACHE_BACKENDS && !requestsCache then
        Err(PyroError("backend not supported in the absence of module requests_cache"))
      else if Lower(v.s) in ["dict", "file"] && !cacheControl then
        Err(PyroError("backend not supported in the absence of module cachecontrol"))
      else Ok(Lower(v.s))
    else Err(PyroError("wrong backend definition for CACHE_BACKEND parameter"))
  }

  /** A known backend is served either by `requests_cache` or, as `dict` and `file`, by `cachecontrol`. */
  lemma BackendFamilies(b: string)
    requires b in BACKENDS
    ensures b !in REQUESTS_CACHE_BACKENDS <==> b in ["dict", "file"]
  {
  }

  /**
   * `expire_after` accepts `None` or an int at least 0. A timedelta fails in
   * the `int()` conversion; other types and negative ints are refused.
   */
  function CheckExpireAfter(v: Py): (r: Result<Py>)
    ensures r.Ok? <==> v.PNone? || (IsInt(v) && IntOf(v) >= 0)
    ensures r.Ok? ==> r.value == v
    ensures v.PDelta? ==> r == Err(TypeError)
  {
    if v.PNone? || (IsInt(v) && IntOf(v) >= 0) then Ok(v)
    else if v.PDelta? then Err(TypeError)
    else if !IsInt(v) then Err(PyroError("wrong type for EXPIRE_AFTER parameter"))
    else Err(PyroError("wrong time setting for EXPIRE_AFTER parameter"))
  }

  /** `force_download` accepts `None` or a bool. */
  function CheckForceDownload(v: Py): (r: Result<Py>)
    ensures r.Ok? <==> v.PNone? || v.PBool?
    ensures r.Ok? ==> r.value == v
  {
    if v.PNone? || v.PBool? then Ok(v) else Err(PyroError("wrong type for FORCE_DOWNLOAD parameter"))
  }

  /** A download session with its caching settings. */
  class Session {
    const requestsCache: bool   // whether `requests_cache` imported
    const cacheControl: bool    // whether `cachecontrol` imported
    var cache: Py
    var cacheBackend: Py
    var forceDownload: Py
    var expireAfter: Py

    /** The fields hold values their setters accept (the initial `cache=True` is kept even without a caching library). */
    predicate Valid()
      reads this
    {
      (cache.PNone? || cache.PStr? || cache.PBool?)
      && (cacheBackend.PNone? || (cacheBackend.PStr? && cacheBackend.s in BACKENDS))
      && (expireAfter.PNone? || (IsInt(expireAfter) && IntOf(expireAfter) >= 0))
      && (forceDownload.PNone? || forceDownload.PBool?)
    }

    /** The defaults: caching on, no backend chosen, no forced download, no expiry. */
    constructor (requestsCache: bool, cacheControl: bool)
      ensures this.requestsCache == requestsCache && this.cacheControl == cacheControl
      ensures cache == PBool(true) && cacheBackend == PNone && forceDownload == PBool(false) && expireAfter == PNone
      ensures Valid()
    {
      this.requestsCache := requestsCache;
      this.cacheControl := cacheControl;
      cache := PBool(true);
      cacheBackend := PNone;
      forceDownload := PBool(false);
      expireAfter := PNone;
    }

    method SetCache(v: Py) returns (r: Result<()>)
      requires Valid()
      modifies this`cache
      ensures Valid()
      ensures r.Ok? <==> CheckCache(v, requestsCache, cacheControl).Ok?
      ensures r.Ok? ==> cache == v
      ensures r.Err? ==> cache == old(cache)
    {
      match CheckCache(v, requestsCache, cacheControl)
      case Err(e) => return Err(e);
      case Ok(c) =>
        cache := c;
        return Ok(());
    }

    method SetCacheBackend(v: Py) returns (r: Result<()>)
      requires Valid()
      modifies this`cacheBackend
      ensures Valid()
      ensures r.Ok? <==> CheckBackend(v, requestsCache, cacheControl).Ok?
      ensures r.Ok? ==> cacheBackend == PStr(CheckBackend(v, requestsCache, cacheControl).value)
      ensures r.Err? ==> cacheBackend == old(cacheBackend)
    {
      match CheckBackend(v, requestsCache, cacheControl)
      case Err(e) => return Err(e);
      case Ok(b) =>
        cacheBackend := PStr(b);
        return Ok(());
    }

    method SetExpireAfter(v: Py) returns (r: Result<()>)
      requires Valid()
      modifies this`expireAfter
      ensures Valid()
      ensures r.Ok? <==> CheckExpireAfter(v).Ok?
      ensures r.Ok? ==> expireAfter == v
      ensures r.Err? ==> expireAfter == old(expireAfter)
    {
      match CheckExpireAfter(v)
      case Err(e) => return Err(e);
      case Ok(x) =>
        expireAfter := x;
        return Ok(());
    }

    method SetForceDownload(v: Py) returns (r: Result<()>)
      requires Valid()
      modifies this`forceDownload
      ensures Valid()
      ensures r.Ok? <==> CheckForceDownload(v).Ok?
      ensures r.Ok? ==> forceDownload == v
      ensures r.Err? ==> forceDownload == old(forceDownload)
    {
      match CheckForceDownload(v)
      case Err(e) => return Err(e);
      case Ok(x) =>
        forceDownload := x;
        return Ok(());
    }

    /** The cache directory of a call: the keyword, else the field, else `False`; `True` means the default directory. */
    function CacheFor(kw: Kwargs): (c: Py)
      reads this
      ensures c != PBool(true)
      ensures c.PStr? ==> c.s != ""
    {
      var c := Or(Get(kw, "cache", PNone), Or(cache, PBool(false)));
      if c == PBool(true) then PStr("eurobase") else c
    }

    /** The expiry of a call: the keyword, else the field. */
    function ExpireFor(kw: Kwargs): Py
      reads this
    {
      Or(Get(kw, "expire_after", PNone), expireAfter)
    }

    /** `__get_response(url, **kwargs)`; returns the cache path and the body. */
    method GetResponse(url: string, kw: Kwargs, disk: Disk, net: Transport, host: Platform, now: int)
      returns (r: Result<(string, string)>)
      modifies disk, net
      ensures var o := Fetch(old(disk.nodes), net.respond, now, url, CacheFor(kw),
                             Get(kw, "force_download", PNone) == PBool(true), ExpireFor(kw), host.md5Hex(url));
        r == o.result && disk.nodes == o.nodes
        && net.requested == old(net.requested) + (if o.fetched then [url] else [])
    {
      var cache := CacheFor(kw);
      var force := Get(kw, "force_download", PNone) == PBool(true);
      var expire := ExpireFor(kw);
      var pathname := CachePath(cache, host.md5Hex(url));
      if pathname.Err? {
        return Err(pathname.error);
      }
      var p := pathname.value;
      var cached: Result<bool> := Ok(false);
      if !force {
        cached := IsCached(disk.nodes, now, p, expire);
        if cached.Err? {
          return Err(cached.error);
        }
      }
      if !cached.value {
        var body := net.Get(url);
        if body.None? {
          return Err(OSError);
        }
        if !cache.PStr? {
          return Err(NotADirectory(cache));
        }
        if !disk.Exists(cache.s) {
          var _ := disk.MakeDirs(cache.s, now);  // never the empty path: "" is not a cache setting
        } else if !disk.IsDir(cache.s) {
          return Err(NotADirectory(cache));
        }
        var written := disk.Write(p, body.value, now);
        if written.Err? {
          return Err(written.error);
        }
        return Ok((p, body.value));
      } else {
        if !(cache.PStr? && disk.Exists(cache.s) && disk.IsDir(cache.s)) {
          return Err(NotADirectory(cache));
        }
        var content := disk.Read(p);
        if content.Err? {
          return Err(content.error);
        }
        return Ok((p, content.value));
      }
    }
  }
}
