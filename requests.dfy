/**
 * requests.py: the `Requests` helper's URL builder and freshness test.
 * The module raises `EurobaseError` without importing it, so every error
 * it means to raise surfaces as a NameError.
 */
module Requests {
  import opened Python
  import opened Text
  import opened UrlCore
  import opened FileStore

  /** No mark after the query; the parameters always follow a single `?`. */
  const Builder: Dialect := Dialect(false, AlwaysQuestion, NameError)

  /** `Requests.build_url(domain, **kwargs)` */
  function BuildUrl(domain: Py, kw: Kwargs): Result<string>
  {
    UrlCore.BuildUrl(Builder, domain, kw)
  }

  /** An unknown protocol fails as a NameError, and nothing else fails that way. */
  lemma ProtocolRefused(domain: string, kw: Kwargs)
    ensures BuildUrl(PStr(domain), kw) == Err(NameError) <==> !InStrs(Protocol(kw), PROTOCOLS)
  {
    UnknownProtocolRefused(Builder, domain, kw);
  }

  /** With no parameter left: the prefixed domain, `/path`, `/query`, and no `?`. */
  lemma NoParametersNoMark(domain: string, kw: Kwargs)
    requires InStrs(Protocol(kw), PROTOCOLS) && Params(kw) == []
    ensures var k := Remove(kw, "protocol"); var pre := Prefix(domain, Protocol(kw).s);
      BuildUrl(PStr(domain), kw)
        == Ok(pre + (if Has(k, "path") then "/" + Str(Get(k, "path", PNone)) else "")
                  + (if Has(k, "query") then "/" + Str(Get(k, "query", PNone)) else ""))
  {
    var k := Remove(kw, "protocol");
    var pre := Prefix(domain, Protocol(kw).s);
    HeadWithoutMark(Builder, pre, k);
    assert BuildUrl(PStr(domain), kw) == Attach(Builder.sep, Head(Builder, pre, k), Params(kw));
  }

  /**
   * With plain parameters: the prefixed domain, `/path`, `/query`, one `?`
   * whatever the head already holds, and the parameters, which read back
   * in insertion order.
   */
  lemma ParamsAfterQuestion(domain: string, kw: Kwargs)
    requires InStrs(Protocol(kw), PROTOCOLS)
    requires Params(kw) != [] && Plain(Params(kw))
    ensures var k := Remove(kw, "protocol"); var pre := Prefix(domain, Protocol(kw).s);
      BuildUrl(PStr(domain), kw).Ok?
      && BuildUrl(PStr(domain), kw).value
         == pre + (if Has(k, "path") then "/" + Str(Get(k, "path", PNone)) else "")
                + (if Has(k, "query") then "/" + Str(Get(k, "query", PNone)) else "")
                + "?" + Filters(Params(kw)).value
      && ParseQuery(Filters(Params(kw)).value) == Rendered(Params(kw))
  {
    var k := Remove(kw, "protocol");
    var pre := Prefix(domain, Protocol(kw).s);
    HeadWithoutMark(Builder, pre, k);
    FiltersRoundTrip(Params(kw));
    assert BuildUrl(PStr(domain), kw) == Attach(Builder.sep, Head(Builder, pre, k), Params(kw));
  }

  /**
   * `is_cached(pathname, expire=0)`: a missing file is never cached;
   * `None` and `0` (the int, or False) mean the file never expires;
   * otherwise it is fresh while its age is below `expire`, which must then
   * be a number.
   */
  function IsCached(nodes: map<string, Node>, now: int, pathname: string, expire: Py): (r: Result<bool>)
    ensures pathname !in nodes ==> r == Ok(false)
    ensures pathname in nodes && (expire.PNone? || EqualsZero(expire)) ==> r == Ok(true)
    ensures pathname in nodes && IsInt(expire) && IntOf(expire) != 0 ==>
      r == Ok(now - nodes[pathname].mtime < IntOf(expire))
    ensures pathname in nodes && !expire.PNone? && !IsInt(expire) ==> r == Err(TypeError)
  {
    if pathname !in nodes then Ok(false)
    else if expire.PNone? || EqualsZero(expire) then Ok(true)
    else LessThan(now - nodes[pathname].mtime, expire)
  }

  /** A stored file stays fresh forever under the default `0`, however old it is. */
  lemma DefaultNeverExpires(nodes: map<string, Node>, now: int, pathname: string)
    requires pathname in nodes
    ensures IsCached(nodes, now, pathname, PInt(0)) == Ok(true)
    ensures IsCached(nodes, now, pathname, PBool(false)) == Ok(true)
  {
  }

  /** With a positive limit a file is fresh exactly while it is younger than the limit. */
  lemma PositiveLimitIsAge(nodes: map<string, Node>, now: int, pathname: string, expire: int)
    requires pathname in nodes && expire > 0
    ensures IsCached(nodes, now, pathname, PInt(expire)) == Ok(now < nodes[pathname].mtime + expire)
  {
  }
}
