/**
 * session.py: the `Session` shared by the esdata, bulkdata, collection and
 * database drafts: its URL builder, the MD5-named cache file, the
 * freshness test, the fetch-through `load_page` and the validating setters.
 */
module EsSession {
  import opened Python
  import opened Text
  import opened UrlCore
  import opened FileStore

  /** No mark after the query; parameters after `?`, or after `&` when the last segment already holds a `?`. */
  const Builder: Dialect := Dialect(false, QuestionOrAmpersand, EurobaseError("web protocol not recognised"))

  /** `Session.build_url(domain, **kwargs)` */
  function BuildUrl(domain: Py, kw: Kwargs): Result<string>
  {
    UrlCore.BuildUrl(Builder, domain, kw)
  }

  /** An unknown protocol is refused with EurobaseError, and only then. */
  lemma ProtocolRefused(domain: string, kw: Kwargs)
    ensures BuildUrl(PStr(domain), kw) == Err(EurobaseError("web protocol not recognised"))
        <==> !InStrs(Protocol(kw), PROTOCOLS)
  {
    UnknownProtocolRefused(Builder, domain, kw);
  }

  /**
   * With no parameter left the URL is the prefixed domain, then `/path`,
   * then `/query`, each after a single `/`, and no `?` is added.
   */
  lemma NoParametersNoMark(domain: string, kw: Kwargs)
    requires InStrs(Protocol(kw), PROTOCOLS) && Params(kw) == []
    ensures var k := Remove(kw, "protocol"); var pre := Prefix(domain, Protocol(kw).s);
      BuildUrl(PStr(domain), kw)
        == Ok(pre + (if Has(k, "path") then "/" + Str(Get(k, "path", PNone)) else "")
                  + (if Has(k, "query") then "/" + Str(Get(k, "query", PNone)) else ""))
  {
    var k := Remove(kw, "protocol");
    var pre := Prefix(domain, Protocol(kw).s);
    HeadWithoutMark(Builder, pre, k);
    assert BuildUrl(PStr(domain), kw) == Attach(Builder.sep, Head(Builder, pre, k), Params(kw));
  }

  /**
   * With plain parameters the URL is always built: the head, then `&` when
   * its last `/`-segment already holds a `?` and `?` otherwise, then the
   * parameters, which read back in insertion order.
   */
  lemma ParamsAfterMark(domain: string, kw: Kwargs)
    requires InStrs(Protocol(kw), PROTOCOLS)
    requires Params(kw) != [] && Plain(Params(kw))
    ensures var head := Head(Builder, Prefix(domain, Protocol(kw).s), Remove(kw, "protocol"));
      var last := AfterLast(head, '/');
      BuildUrl(PStr(domain), kw).Ok?
      && BuildUrl(PStr(domain), kw).value
         == head + (if last.Some? && '?' in last.value then "&" else "?") + Filters(Params(kw)).value
      && ParseQuery(Filters(Params(kw)).value) == Rendered(Params(kw))
  {
    var head := Head(Builder, Prefix(domain, Protocol(kw).s), Remove(kw, "protocol"));
    FiltersRoundTrip(Params(kw));
    AttachAfterMark(head, Params(kw));
    assert BuildUrl(PStr(domain), kw) == Attach(Builder.sep, head, Params(kw));
  }

  // ---------------------------------------------------------------------
  // The page cache

  /** `__build_pathname(url, cache)`: the digest, under the cache directory when there is one. */
  function BuildPathname(digest: string, cache: Py): (r: Result<string>)
    ensures cache.PNone? ==> r == Ok(digest)
    ensures cache.PStr? ==> r.Ok? && EndsWith(r.value, digest)
    ensures cache.PStr? && cache.s != "" ==> StartsWith(r.value, cache.s) && |r.value| > |digest| && r.value[|r.value| - |digest| - 1] == '/'
    ensures !cache.PNone? && !cache.PStr? ==> r == Err(TypeError)
  {
    if cache.PNone? then Ok(digest)
    else if cache.PStr? then Ok(PathJoin(cache.s, digest))
    else Err(TypeError)  // os.path.join on a non-path
  }

  /**
   * `__is_cached(pathname, time_out)`: a missing file is never cached; the
   * int `0` always expires; `None` never does; otherwise the file is fresh
   * while its age is below the limit, which must be a number.
   */
  function IsCached(nodes: map<string, Node>, now: int, pathname: string, timeOut: Py): (r: Result<bool>)
    ensures pathname !in nodes ==> r == Ok(false)
    ensures pathname in nodes && timeOut == PInt(0) ==> r == Ok(false)
    ensures pathname in nodes && timeOut.PNone? ==> r == Ok(true)
    ensures pathname in nodes && IsInt(timeOut) && timeOut != PInt(0) ==>
      r == Ok(now - nodes[pathname].mtime < IntOf(timeOut))
    ensures pathname in nodes && !timeOut.PNone? && !IsInt(timeOut) ==> r == Err(TypeError)
  {
    if pathname !in nodes then Ok(false)
    else if timeOut == PInt(0) then Ok(false)   // `time_out is 0`: False is not the int 0
    else if timeOut.PNone? then Ok(true)
    else LessThan(now - nodes[pathname].mtime, timeOut)
  }

  function NotADirectory(cache: string): Error
  {
    EurobaseError("cache " + cache + " is not a directory")
  }

  /**
   * `load_page(url, ...)` as a function of the file system: download when
   * forced or not cached, store the text when there is a cache directory,
   * otherwise read the stored text back from the cache directory.
   */
  function Load(nodes: map<string, Node>, respond: string -> Option<string>, now: int,
                url: string, cache: Py, force: bool, timeOut: Py, digest: string): (o: Outcome)
    ensures BuildPathname(digest, cache).Err? ==> o == Outcome(Err(BuildPathname(digest, cache).error), nodes, false)
    ensures o.fetched <==> (BuildPathname(digest, cache).Ok?
      && (force || IsCached(nodes, now, BuildPathname(digest, cache).value, timeOut) == Ok(false)))
    ensures o.fetched && respond(url).None? ==> o == Outcome(Err(EurobaseError("wrong request formulated")), nodes, true)
    ensures !o.fetched ==> o.nodes == nodes
    ensures o.result.Ok? ==> o.result.value.0 == BuildPathname(digest, cache).value
    ensures o.result.Ok? && o.fetched ==> respond(url) == Some(o.result.value.1)
    ensures o.result.Ok? && !o.fetched ==> o.result.value.0 in nodes && nodes[o.result.value.0] == File(o.result.value.1, nodes[o.result.value.0].mtime)
  {
    match BuildPathname(digest, cache)
    case Err(e) => Outcome(Err(e), nodes, false)
    case Ok(p) =>
      // a forced call never asks whether the stored page is fresh
      match if force then Ok(false) else IsCached(nodes, now, p, timeOut)
      case Err(e) => Outcome(Err(e), nodes, false)
      case Ok(current) =>
        if !current then
          match respond(url)
          case None => Outcome(Err(EurobaseError("wrong request formulated")), nodes, true)
          case Some(html) =>
            if cache.PNone? then Outcome(Ok((p, html)), nodes, true)
            else SaveUnder(nodes, now, cache.s, p, html, NotADirectory(cache.s))
        else if cache.PNone? then Outcome(Err(TypeError), nodes, false)   // os.path.exists(None)
        else if !(cache.s in nodes && nodes[cache.s].Dir?) then Outcome(Err(NotADirectory(cache.s)), nodes, false)
        else if nodes[p].File? then Outcome(Ok((p, nodes[p].content)), nodes, false)
        else Outcome(Err(OSError), nodes, false)
  }

  /** Not forced and cached: no transport call, the file system unchanged. */
  lemma CachedPageNotFetched(nodes: map<string, Node>, respond: string -> Option<string>, now: int,
                             url: string, cache: Py, timeOut: Py, digest: string)
    requires BuildPathname(digest, cache).Ok?
    requires IsCached(nodes, now, BuildPathname(digest, cache).value, timeOut) == Ok(true)
    ensures var o := Load(nodes, respond, now, url, cache, false, timeOut, digest);
      !o.fetched && o.nodes == nodes
  {
  }

  /** Without a cache directory a download is returned under its bare digest and nothing is written. */
  lemma NoCacheNothingWritten(nodes: map<string, Node>, respond: string -> Option<string>, now: int,
                              url: string, force: bool, timeOut: Py, digest: string)
    ensures var o := Load(nodes, respond, now, url, PNone, force, timeOut, digest);
      o.nodes == nodes && (o.fetched && o.result.Ok? ==> o.result.value == (digest, respond(url).value))
  {
  }

  /** A successful download into a cache directory leaves the text stored at the returned path, time-stamped now. */
  lemma DownloadIsStored(nodes: map<string, Node>, respond: string -> Option<string>, now: int,
                         url: string, cache: string, force: bool, timeOut: Py, digest: string)
    requires var o := Load(nodes, respond, now, url, PStr(cache), force, timeOut, digest); o.fetched && o.result.Ok?
    ensures var o := Load(nodes, respond, now, url, PStr(cache), force, timeOut, digest);
      o.result.value.0 == PathJoin(cache, digest) && respond(url) == Some(o.result.value.1)
      && o.result.value.0 in o.nodes && o.nodes[o.result.value.0] == File(o.result.value.1, now)
      && cache in o.nodes && o.nodes[cache].Dir?
  {
    LoadedIsSaved(nodes, respond, now, url, cache, force, timeOut, digest);
  }

  /** An error from the freshness test of a call that is not forced is returned as is, before any transport call. */
  lemma FreshnessErrorReturned(nodes: map<string, Node>, respond: string -> Option<string>, now: int,
                               url: string, cache: string, timeOut: Py, digest: string)
    requires IsCached(nodes, now, PathJoin(cache, digest), timeOut).Err?
    ensures Load(nodes, respond, now, url, PStr(cache), false, timeOut, digest)
      == Outcome(Err(IsCached(nodes, now, PathJoin(cache, digest), timeOut).error), nodes, false)
  {
    assert BuildPathname(digest, PStr(cache)) == Ok(PathJoin(cache, digest));
  }

  /** A page the server does not answer is an error, whatever the cache holds. */
  lemma UnansweredIsError(nodes: map<string, Node>, respond: string -> Option<string>, now: int,
                          url: string, cache: string, force: bool, timeOut: Py, digest: string)
    requires respond(url).None?
    requires force || IsCached(nodes, now, PathJoin(cache, digest), timeOut) == Ok(false)
    ensures Load(nodes, respond, now, url, PStr(cache), force, timeOut, digest)
      == Outcome(Err(EurobaseError("wrong request formulated")), nodes, true)
  {
    assert BuildPathname(digest, PStr(cache)) == Ok(PathJoin(cache, digest));
  }

  /** A download into a cache directory is the write of the response under the cache path. */
  lemma LoadedIsSaved(nodes: map<string, Node>, respond: string -> Option<string>, now: int,
                      url: string, cache: string, force: bool, timeOut: Py, digest: string)
    requires Load(nodes, respond, now, url, PStr(cache), force, timeOut, digest).fetched
    requires Load(nodes, respond, now, url, PStr(cache), force, timeOut, digest).result.Ok?
    ensures respond(url).Some?
    ensures Load(nodes, respond, now, url, PStr(cache), force, timeOut, digest)
      == SaveUnder(nodes, now, cache, PathJoin(cache, digest), respond(url).value, NotADirectory(cache))
  {
    var p := PathJoin(cache, digest);
    assert BuildPathname(digest, PStr(cache)) == Ok(p);
    var c := IsCached(nodes, now, p, timeOut);
    if !force && c.Err? {
      FreshnessErrorReturned(nodes, respond, now, url, cache, timeOut, digest);
    } else if !force && c.value {
      CachedPageNotFetched(nodes, respond, now, url, PStr(cache), timeOut, digest);
    } else if respond(url).None? {
      UnansweredIsError(nodes, respond, now, url, cache, force, timeOut, digest);
    }
  }

  /**
   * The cache round trip: right after a download into a cache directory,
   * the same request with no limit or a positive one is answered from the
   * disk with the same text and no transport call.
   */
  lemma {:induction false} SecondRequestServedFromDisk(nodes: map<string, Node>, respond: string -> Option<string>, now: int,
                                    url: string, cache: string, force: bool, timeOut: Py, digest: string)
    requires var o := Load(nodes, respond, now, url, PStr(cache), force, timeOut, digest); o.fetched && o.result.Ok?
    requires timeOut.PNone? || (IsInt(timeOut) && IntOf(timeOut) > 0)
    ensures var o := Load(nodes, respond, now, url, PStr(cache), force, timeOut, digest);
      Load(o.nodes, respond, now, url, PStr(cache), false, timeOut, digest) == Outcome(o.result, o.nodes, false)
  {
    var o := Load(nodes, respond, now, url, PStr(cache), force, timeOut, digest);
    DownloadIsStored(nodes, respond, now, url, cache, force, timeOut, digest);
    var p := o.result.value.0;
    assert BuildPathname(digest, PStr(cache)) == Ok(p);
    assert IsCached(o.nodes, now, p, timeOut) == Ok(true);
  }

  /**
   * A forced call goes to the transport whatever the freshness test would
   * say, even one that would raise: it behaves as an unforced call with a
   * `0` time-out.
   */
  lemma ForcedAlwaysFetches(nodes: map<string, Node>, respond: string -> Option<string>, now: int,
                            url: string, cache: Py, timeOut: Py, digest: string)
    requires BuildPathname(digest, cache).Ok?
    ensures Load(nodes, respond, now, url, cache, true, timeOut, digest).fetched
    ensures Load(nodes, respond, now, url, cache, true, timeOut, digest)
      == Load(nodes, respond, now, url, cache, false, PInt(0), digest)
  {
  }

  /** A `0` time-out always downloads again. */
  lemma ZeroTimeOutAlwaysFetches(nodes: map<string, Node>, respond: string -> Option<string>, now: int,
                                 url: string, cache: Py, force: bool, digest: string)
    requires BuildPathname(digest, cache).Ok?
    ensures Load(nodes, respond, now, url, cache, force, PInt(0), digest).fetched
  {
  }

  /** A timedelta time-out, which the setter accepts, cannot be compared with an age: a stored page raises. */
  lemma TimedeltaTimeOutRaises(nodes: map<string, Node>, now: int, pathname: string, seconds: int)
    requires pathname in nodes
    ensures CheckTimeOut(PDelta(seconds)).Ok?
    ensures IsCached(nodes, now, pathname, PDelta(seconds)) == Err(TypeError)
  {
  }

  // ---------------------------------------------------------------------
  // Setters

  /** `time_out` accepts an int (a bool is one) at least 0, or a timedelta. */
  function CheckTimeOut(v: Py): (r: Result<Py>)
    ensures r.Ok? <==> (IsInt(v) && IntOf(v) >= 0) || v.PDelta?
    ensures r.Ok? ==> r.value == v
  {
    if !IsInt(v) && !v.PDelta? then Err(EurobaseError("wrong type for TIME_OUT parameter"))
    else if IsInt(v) && IntOf(v) < 0 then Err(EurobaseError("wrong setting for TIME_OUT parameter"))
    else Ok(v)
  }

  /** `cache` accepts a string only, and keeps its absolute path. */
  function CheckCache(v: Py, host: Platform): (r: Result<string>)
    ensures r.Ok? <==> v.PStr?
    ensures r.Ok? ==> r.value == host.absPath(v.s)
  {
    if v.PStr? then Ok(host.absPath(v.s)) else Err(EurobaseError("wrong type for CACHE parameter"))
  }

  /** `force_download` accepts a bool only. */
  function CheckForceDownload(v: Py): (r: Result<bool>)
    ensures r.Ok? <==> v.PBool?
    ensures r.Ok? ==> r.value == v.b
  {
    if v.PBool? then Ok(v.b) else Err(EurobaseError("wrong type for FORCE_DOWNLOAD parameter"))
  }

  /** The keywords `Session(**kwargs)` hands to its own setters. */
  const SESSION_KEYS: set<string> := {"time_out", "force_download", "cache"}

  const SESSION_ERROR: Error := EurobaseError("wrong definition for SESSION parameter")

  /** Whether `Session(**kwargs)` is built at all: only the session keywords may be given. */
  predicate SessionBuilds(kw: Kwargs)
  {
    Without(kw, SESSION_KEYS) == []
  }

  /** A session is built from the session keywords alone, and refused as soon as any other keyword is given. */
  lemma {:induction false} SessionBuildsIff(kw: Kwargs)
    ensures SessionBuilds(kw) <==> forall i :: 0 <= i < |kw| ==> kw[i].0 in SESSION_KEYS
    decreases |kw|
  {
    if kw != [] {
      SessionBuildsIff(kw[1..]);
      assert forall i :: 1 <= i < |kw| ==> kw[1..][i - 1] == kw[i];
    }
  }

  /** A download session with its caching settings. */
  class Session {
    var cache: Option<string>
    var timeOut: Py
    var forceDownload: bool

    predicate Valid()
      reads this
    {
      CheckTimeOut(timeOut).Ok?
    }

    /**
     * Defaults: no cache directory, a `0` time-out, no forced download; each
     * of `cache`, `time_out` and `force_download` given as a keyword goes
     * through its setter, and a value the setter refuses is ignored.
     */
    constructor (kw: Kwargs, host: Platform)
      ensures Valid()
      ensures cache == (if Has(kw, "cache") && CheckCache(Get(kw, "cache", PNone), host).Ok?
                        then Some(CheckCache(Get(kw, "cache", PNone), host).value) else None)
      ensures timeOut == (if Has(kw, "time_out") && CheckTimeOut(Get(kw, "time_out", PNone)).Ok?
                          then Get(kw, "time_out", PNone) else PInt(0))
      ensures forceDownload == (Has(kw, "force_download") && Get(kw, "force_download", PNone) == PBool(true))
    {
      var c := if Has(kw, "cache") then CheckCache(Get(kw, "cache", PNone), host) else Err(KeyError);
      cache := if c.Ok? then Some(c.value) else None;
      var t := if Has(kw, "time_out") then CheckTimeOut(Get(kw, "time_out", PNone)) else Err(KeyError);
      timeOut := if t.Ok? then t.value else PInt(0);
      var f := if Has(kw, "force_download") then CheckForceDownload(Get(kw, "force_download", PNone)) else Err(KeyError);
      forceDownload := f.Ok? && f.value;
    }

    /**
     * `Session(**kwargs)` as a whole: the three session keywords are popped
     * and set as above, then `set(**kwargs)` hands the keywords left to the
     * `requests` library's `session()`, which takes none, so any keyword
     * left raises.
     */
    static method Create(kw: Kwargs, host: Platform) returns (r: Result<Session>)
      ensures r.Err? <==> !SessionBuilds(kw)
      ensures r.Err? ==> r.error == SESSION_ERROR
      ensures r.Ok? ==> fresh(r.value) && r.value.Valid()
      ensures r.Ok? ==> r.value.cache == (if Has(kw, "cache") && CheckCache(Get(kw, "cache", PNone), host).Ok?
                                          then Some(CheckCache(Get(kw, "cache", PNone), host).value) else None)
      ensures r.Ok? ==> r.value.timeOut == (if Has(kw, "time_out") && CheckTimeOut(Get(kw, "time_out", PNone)).Ok?
                                            then Get(kw, "time_out", PNone) else PInt(0))
      ensures r.Ok? ==> r.value.forceDownload == (Has(kw, "force_download") && Get(kw, "force_download", PNone) == PBool(true))
    {
      var s := new Session(kw, host);
      if !SessionBuilds(kw) {
        return Err(SESSION_ERROR);
      }
      return Ok(s);
    }

    method SetCache(v: Py, host: Platform) returns (r: Result<()>)
      modifies this
      ensures r.Ok? <==> v.PStr?
      ensures cache == (if v.PStr? then Some(host.absPath(v.s)) else old(cache))
      ensures timeOut == old(timeOut) && forceDownload == old(forceDownload)
    {
      match CheckCache(v, host)
      case Err(e) => return Err(e);
      case Ok(c) =>
        cache := Some(c);
        return Ok(());
    }

    method SetTimeOut(v: Py) returns (r: Result<()>)
      requires Valid()
      modifies this
      ensures Valid()
      ensures r.Ok? <==> CheckTimeOut(v).Ok?
      ensures timeOut == (if r.Ok? then v else old(timeOut))
      ensures cache == old(cache) && forceDownload == old(forceDownload)
    {
      match CheckTimeOut(v)
      case Err(e) => return Err(e);
      case Ok(t) =>
        timeOut := t;
        return Ok(());
    }

    method SetForceDownload(v: Py) returns (r: Result<()>)
      modifies this
      ensures r.Ok? <==> v.PBool?
      ensures forceDownload == (if v.PBool? then v.b else old(forceDownload))
      ensures cache == old(cache) && timeOut == old(timeOut)
    {
      match CheckForceDownload(v)
      case Err(e) => return Err(e);
      case Ok(f) =>
        forceDownload := f;
        return Ok(());
    }

    /** The cache directory of a call: the keyword when truthy, else the field, else `None`. */
    function CacheFor(kw: Kwargs): (c: Py)
      reads this
      ensures c.PNone? || Truthy(c)
      ensures Truthy(Get(kw, "cache", PNone)) ==> c == Get(kw, "cache", PNone)
      ensures !Truthy(Get(kw, "cache", PNone)) ==> c == (if cache.Some? && cache.value != "" then PStr(cache.value) else PNone)
    {
      Or(Get(kw, "cache", PNone), Or(if cache.Some? then PStr(cache.value) else PNone, PNone))
    }

    /** The time-out of a call: the keyword when truthy, else the field when truthy, else `0`; an explicit `0` never wins. */
    function TimeOutFor(kw: Kwargs): (t: Py)
      reads this
      ensures t == PInt(0) || Truthy(t)
      ensures Truthy(Get(kw, "time_out", PNone)) ==> t == Get(kw, "time_out", PNone)
      ensures !Truthy(Get(kw, "time_out", PNone)) && Truthy(timeOut) ==> t == timeOut
    {
      Or(Get(kw, "time_out", PNone), Or(timeOut, PInt(0)))
    }

    /** Whether a call downloads regardless of the cache: the keyword or the field. */
    function ForceFor(kw: Kwargs): (f: bool)
      reads this
      ensures f <==> Truthy(Get(kw, "force_download", PNone)) || forceDownload
    {
      Truthy(Or(Get(kw, "force_download", PNone), Or(PBool(forceDownload), PBool(false))))
    }

    /** `load_page(url, **kwargs)`; returns the cache path and the text. */
    method LoadPage(url: string, kw: Kwargs, disk: Disk, net: Transport, host: Platform, now: int)
      returns (r: Result<(string, string)>)
      modifies disk, net
      ensures var o := Load(old(disk.nodes), net.respond, now, url, CacheFor(kw), ForceFor(kw), TimeOutFor(kw), host.md5Hex(url));
        r == o.result && disk.nodes == o.nodes
        && net.requested == old(net.requested) + (if o.fetched then [url] else [])
    {
      var cache := CacheFor(kw);
      var timeOut := TimeOutFor(kw);
      var force := ForceFor(kw);
      ghost var o := Load(disk.nodes, net.respond, now, url, cache, force, timeOut, host.md5Hex(url));
      var pathname := BuildPathname(host.md5Hex(url), cache);
      if pathname.Err? {
        return Err(pathname.error);
      }
      var p := pathname.value;
      var cached: Result<bool> := Ok(false);
      if !force {
        cached := IsCached(disk.nodes, now, p, timeOut);
        if cached.Err? {
          return Err(cached.error);
        }
      }
      if !cached.value {
        var response := net.Get(url);
        if response.None? {
          return Err(EurobaseError("wrong request formulated"));
        }
        var html := response.value;
        if !cache.PNone? {
          if !disk.Exists(cache.s) {
            var _ := disk.MakeDirs(cache.s, now);  // never the empty path: "" is falsy
          } else if !disk.IsDir(cache.s) {
            return Err(NotADirectory(cache.s));
          }
          var written := disk.Write(p, html, now);
          if written.Err? {
            return Err(written.error);
          }
        }
        return Ok((p, html));
      } else {
        if cache.PNone? {
          return Err(TypeError);
        }
        if !disk.Exists(cache.s) || !disk.IsDir(cache.s) {
          return Err(NotADirectory(cache.s));
        }
        var html := disk.Read(p);
        if html.Err? {
          return Err(html.error);
        }
        return Ok((p, html.value));
      }
    }

    /** `is_cached(url)`: the freshness of a URL's file under the session's own settings. */
    function IsCachedUrl(nodes: map<string, Node>, now: int, url: string, host: Platform): (r: Result<bool>)
      reads this
      ensures IsInt(timeOut) || timeOut.PNone? ==> r.Ok?
      ensures timeOut == PInt(0) ==> r == Ok(false)
      ensures var p := if cache.Some? then PathJoin(cache.value, host.md5Hex(url)) else host.md5Hex(url);
        p !in nodes ==> r == Ok(false)
    {
      var p := BuildPathname(host.md5Hex(url), if cache.Some? then PStr(cache.value) else PNone);
      IsCached(nodes, now, p.value, timeOut)
    }
  }
}
