/**
 * The URL composer every draft shares: strip the domain, prefix the
 * protocol, append `path` and `query`, then join the remaining keyword
 * parameters as raw `k=v` pairs with `&`. The drafts differ in the mark
 * after the query, the separator before the parameters and the exception
 * raised for an unknown protocol; a `Dialect` names those choices.
 */
module UrlCore {
  import opened Python
  import opened Text

  const PROTOCOLS: seq<string> := ["http", "https", "ftp"]
  const DEF_PROTOCOL: string := "http"

  /** How the parameters are attached to the path. */
  datatype Separator =
    | AlwaysQuestion       // always "?"
    | QuestionOrAmpersand  // "&" when the last `/`-segment already holds a "?", else "?"
    | OpenQuery            // "" after a last segment ending in "?" or "/"; "?" when there is no "/"; otherwise the separator is never bound

  datatype Dialect = Dialect(queryMark: bool, sep: Separator, badProtocol: Error)

  /** `"{k}={v}".format(...)` for one entry of the parameter dictionary. */
  function Pair(k: string, v: Py): (r: Result<string>)
    ensures (v.PList? || v.PTuple?) && |v.items| != 2 <==> r == Err(ValueError)
    ensures !v.PList? && !v.PTuple? ==> r == Ok(k + "=" + Str(v))
  {
    if v.PList? || v.PTuple? then
      // the list of pairs built for a sequence value is unpacked as one (k, v)
      if |v.items| == 2 then Ok(Str(PTuple([PStr(k), v.items[0]])) + "=" + Str(PTuple([PStr(k), v.items[1]])))
      else Err(ValueError)
    else Ok(k + "=" + Str(v))
  }

  /** The `&`-joined parameters, in insertion order. */
  function Filters(kw: Kwargs): (r: Result<string>)
    ensures r.Err? ==> r.error == ValueError
  {
    match Pairs(kw)
    case Err(e) => Err(e)
    case Ok(ps) => Ok(Join(ps, "&"))
  }

  function Pairs(kw: Kwargs): (r: Result<seq<string>>)
    ensures r.Ok? ==> |r.value| == |kw|
    ensures r.Err? ==> r.error == ValueError
  {
    if kw == [] then Ok([])
    else match Pair(kw[0].0, kw[0].1)
      case Err(e) => Err(e)
      case Ok(p) =>
        match Pairs(kw[1..])
        case Err(e) => Err(e)
        case Ok(ps) => Ok([p] + ps)
  }

  /** The stripped domain behind its protocol; nothing is added when it already starts with the protocol name. */
  function Prefix(domain: string, protocol: string): string
  {
    var u := Strip(domain, '/');
    if StartsWith(u, protocol) then u else protocol + "://" + u
  }

  /** The URL before any parameter: prefix, then `/path`, then `/query` (with a `?` in some dialects). */
  function Head(d: Dialect, prefix: string, kw: Kwargs): (r: string)
    ensures StartsWith(r, prefix)
  {
    var withPath := if Has(kw, "path") then prefix + "/" + Str(Get(kw, "path", PNone)) else prefix;
    assert withPath[..|prefix|] == prefix;
    var r := if Has(kw, "query") then withPath + "/" + Str(Get(kw, "query", PNone)) + (if d.queryMark then "?" else "")
      else withPath;
    assert r[..|withPath|] == withPath;
    assert r[..|prefix|] == withPath[..|prefix|];
    r
  }

  /** The parameters left once `protocol`, `path` and `query` are taken out. */
  function Params(kw: Kwargs): Kwargs
  {
    Remove(Remove(Remove(kw, "protocol"), "path"), "query")
  }

  /** The protocol asked for, `http` by default. */
  function Protocol(kw: Kwargs): Py
  {
    Get(kw, "protocol", PStr(DEF_PROTOCOL))
  }

  /** The separator placed between `url` and a non-empty parameter string. */
  function Sep(s: Separator, url: string): Result<string>
  {
    match s
    case AlwaysQuestion => Ok("?")
    case QuestionOrAmpersand =>
      (match AfterLast(url, '/')
       case Some(last) => if '?' in last then Ok("&") else Ok("?")
       case None => Ok("?"))
    case OpenQuery =>
      (match AfterLast(url, '/')
       case Some(last) => if EndsWith(last, "?") || EndsWith(last, "/") then Ok("") else Err(UnboundLocalError)
       case None => Ok("?"))
  }

  /** Outside the open-query dialect the separator is always bound, to `?` or `&`. */
  lemma SepBound(s: Separator, url: string)
    requires s != OpenQuery
    ensures Sep(s, url) == Ok("?") || Sep(s, url) == Ok("&")
  {
  }

  /** The head followed by the separator and the parameters, when there are any. */
  function Attach(sep: Separator, head: string, params: Kwargs): (r: Result<string>)
    ensures r.Err? ==> r.error == ValueError || r.error == UnboundLocalError
    ensures params == [] ==> r == Ok(head)
    ensures r.Ok? ==> StartsWith(r.value, head)
  {
    if params == [] then Ok(head)
    else match Filters(params)
      case Err(e) => Err(e)
      case Ok(f) =>
        match Sep(sep, head)
        case Err(e) => Err(e)
        case Ok(s) =>
          assert (head + s + f)[..|head|] == head;
          Ok(head + s + f)
  }

  /** `build_url(domain, **kwargs)` of a dialect. */
  function BuildUrl(d: Dialect, domain: Py, kw: Kwargs): (r: Result<string>)
    ensures r.Err? ==> r.error in {AttributeError, d.badProtocol, ValueError, UnboundLocalError}
  {
    if !domain.PStr? then Err(AttributeError)   // `domain.strip` on a non-string
    else if !InStrs(Protocol(kw), PROTOCOLS) then Err(d.badProtocol)
    else Attach(d.sep, Head(d, Prefix(domain.s, Protocol(kw).s), Remove(kw, "protocol")), Params(kw))
  }

  // ---------------------------------------------------------------------
  // Reading a parameter string back

  /** `k=v` split at its first `=`. */
  function ParsePair(p: string): (string, string)
  {
    if '=' in p then (p[..FirstIndex(p, '=')], p[FirstIndex(p, '=') + 1..]) else (p, "")
  }

  /** The (key, value) pairs of a query string. */
  function ParseQuery(q: string): seq<(string, string)>
  {
    var parts := Split(q, '&');
    seq(|parts|, i requires 0 <= i < |parts| => ParsePair(parts[i]))
  }

  /** The parameters as the text they are rendered to. */
  function Rendered(kw: Kwargs): (r: seq<(string, string)>)
    ensures |r| == |kw|
    ensures forall i :: 0 <= i < |kw| ==> r[i] == (kw[i].0, Str(kw[i].1))
  {
    seq(|kw|, i requires 0 <= i < |kw| => (kw[i].0, Str(kw[i].1)))
  }

  /** A parameter is read back unchanged when its text does not collide with the delimiters. */
  predicate Plain(kw: Kwargs)
  {
    forall i :: 0 <= i < |kw| ==>
      !kw[i].1.PList? && !kw[i].1.PTuple? && '&' !in kw[i].0 && '=' !in kw[i].0 && '&' !in Str(kw[i].1)
  }

  /** Two plain entries make a plain dictionary. */
  lemma PlainTwo(a: (string, Py), b: (string, Py))
    requires Plain([a]) && Plain([b])
    ensures Plain([a, b])
  {
    var kw := [a, b];
    forall i | 0 <= i < 2 ensures kw[i] == [a][0] || kw[i] == [b][0] { }
  }

  lemma {:induction false} PairsPlain(kw: Kwargs)
    requires Plain(kw)
    ensures Pairs(kw).Ok?
    ensures forall i :: 0 <= i < |kw| ==> Pairs(kw).value[i] == kw[i].0 + "=" + Str(kw[i].1)
  {
    if kw != [] {
      assert Plain(kw[1..]) by {
        forall i | 0 <= i < |kw| - 1 ensures kw[1..][i] == kw[i + 1] { }
      }
      PairsPlain(kw[1..]);
    }
  }

  lemma ParsePairOf(k: string, v: string)
    requires '=' !in k
    ensures ParsePair(k + "=" + v) == (k, v)
  {
    var p := k + "=" + v;
    assert p[|k|] == '=';
    assert p[..|k|] == k;
    assert FirstIndex(p, '=') == |k|;
    assert p[|k| + 1..] == v;
  }

  /**
   * The round trip of the parameter string: with no delimiter inside a key
   * or a rendered value, reading the query back gives every parameter, in
   * insertion order, with its `str()` text.
   */
  lemma FiltersRoundTrip(kw: Kwargs)
    requires kw != [] && Plain(kw)
    ensures Filters(kw).Ok?
    ensures ParseQuery(Filters(kw).value) == Rendered(kw)
  {
    PairsPlain(kw);
    var ps := Pairs(kw).value;
    forall i | 0 <= i < |ps| ensures '&' !in ps[i] {
      assert ps[i] == kw[i].0 + "=" + Str(kw[i].1);
    }
    SplitJoin(ps, '&');
    assert Join(ps, "&") == Join(ps, ['&']);
    forall i | 0 <= i < |ps| ensures ParsePair(ps[i]) == Rendered(kw)[i] {
      ParsePairOf(kw[i].0, Str(kw[i].1));
    }
  }

  /** Without a query mark the head is the prefix, then `/path`, then `/query`, each after a single `/`. */
  lemma HeadWithoutMark(d: Dialect, pre: string, k: Kwargs)
    requires !d.queryMark
    ensures Head(d, pre, k)
      == pre + (if Has(k, "path") then "/" + Str(Get(k, "path", PNone)) else "")
             + (if Has(k, "query") then "/" + Str(Get(k, "query", PNone)) else "")
  {
    var path := if Has(k, "path") then "/" + Str(Get(k, "path", PNone)) else "";
    var query := if Has(k, "query") then "/" + Str(Get(k, "query", PNone)) else "";
    var withPath := if Has(k, "path") then pre + "/" + Str(Get(k, "path", PNone)) else pre;
    AppendAssoc(pre, "/", Str(Get(k, "path", PNone)));
    assert withPath == pre + path;
    if Has(k, "query") {
      var q := Str(Get(k, "query", PNone));
      assert Head(d, pre, k) == withPath + "/" + q + "";
      assert withPath + "/" + q + "" == withPath + "/" + q;
      AppendAssoc(withPath, "/", q);
    } else {
      assert pre + path + query == pre + path;
    }
  }

  lemma AppendAssoc(a: string, b: string, c: string)
    ensures a + b + c == a + (b + c)
  {
  }

  // ---------------------------------------------------------------------
  // What every dialect promises

  /** Every URL begins with its protocol name, whether or not the prefix was added. */
  lemma PrefixStartsWithProtocol(domain: string, protocol: string)
    ensures StartsWith(Prefix(domain, protocol), protocol)
    ensures EndsWith(Prefix(domain, protocol), Strip(domain, '/'))
  {
    var u := Strip(domain, '/');
    if !StartsWith(u, protocol) {
      var r := protocol + "://" + u;
      assert r[..|protocol|] == protocol;
      assert r[|r| - |u|..] == u;
    } else {
      assert u[|u| - |u|..] == u;
    }
  }

  /** An unknown protocol is refused with the dialect's exception, and only then. */
  lemma UnknownProtocolRefused(d: Dialect, domain: string, kw: Kwargs)
    requires d.badProtocol !in {ValueError, UnboundLocalError, AttributeError}
    ensures BuildUrl(d, PStr(domain), kw) == Err(d.badProtocol) <==> !InStrs(Protocol(kw), PROTOCOLS)
  {
  }

  /**
   * Only a dialect with the open-query separator can leave `sep` unbound:
   * the others fail on a non-string domain, an unknown protocol or a
   * parameter that does not unpack, and on nothing else.
   */
  lemma SeparatorAlwaysBound(d: Dialect, domain: Py, kw: Kwargs)
    requires d.sep != OpenQuery
    ensures BuildUrl(d, domain, kw).Err? ==> BuildUrl(d, domain, kw).error in {AttributeError, d.badProtocol, ValueError}
  {
    if domain.PStr? && InStrs(Protocol(kw), PROTOCOLS) && Params(kw) != [] {
      var head := Head(d, Prefix(domain.s, Protocol(kw).s), Remove(kw, "protocol"));
      assert Sep(d.sep, head).Ok?;
    }
  }

  /** The URL starts with the prefixed domain, and with no parameter left it is just the head: no separator is added. */
  lemma BuildUrlHead(d: Dialect, domain: string, kw: Kwargs)
    requires BuildUrl(d, PStr(domain), kw).Ok?
    ensures var p := Protocol(kw).s; var u := BuildUrl(d, PStr(domain), kw).value;
      StartsWith(u, Prefix(domain, p)) && StartsWith(u, p)
      && (Params(kw) == [] ==> u == Head(d, Prefix(domain, p), Remove(kw, "protocol")))
  {
    var p := Protocol(kw).s;
    var pre := Prefix(domain, p);
    var head := Head(d, pre, Remove(kw, "protocol"));
    assert BuildUrl(d, PStr(domain), kw) == Attach(d.sep, head, Params(kw));
    var u := BuildUrl(d, PStr(domain), kw).value;
    PrefixStartsWithProtocol(domain, p);
    StartsWithTrans(u, head, pre);
    StartsWithTrans(u, pre, p);
  }

  /** A URL that builds is never empty: it starts with its protocol. */
  lemma BuiltUrlNonEmpty(d: Dialect, domain: string, kw: Kwargs)
    requires BuildUrl(d, PStr(domain), kw).Ok?
    ensures BuildUrl(d, PStr(domain), kw).value != []
  {
    BuildUrlHead(d, domain, kw);
    var p := Protocol(kw).s;
    assert p == "http" || p == "https" || p == "ftp";
  }

  /**
   * With parameters left and plain text throughout, the URL is the head, one
   * separator, and a query string that reads back as the parameters in order.
   */
  lemma BuildUrlParams(d: Dialect, domain: string, kw: Kwargs)
    requires BuildUrl(d, PStr(domain), kw).Ok?
    requires Params(kw) != [] && Plain(Params(kw))
    ensures var head := Head(d, Prefix(domain, Protocol(kw).s), Remove(kw, "protocol"));
      Sep(d.sep, head).Ok? && Filters(Params(kw)).Ok?
      && BuildUrl(d, PStr(domain), kw).value == head + Sep(d.sep, head).value + Filters(Params(kw)).value
      && ParseQuery(Filters(Params(kw)).value) == Rendered(Params(kw))
  {
    var head := Head(d, Prefix(domain, Protocol(kw).s), Remove(kw, "protocol"));
    var params := Params(kw);
    FiltersRoundTrip(params);
    assert BuildUrl(d, PStr(domain), kw) == Attach(d.sep, head, params);
  }

  /** Attaching parameters after `?`, or after `&` when the last `/`-segment of the head already holds a `?`. */
  lemma AttachAfterMark(head: string, params: Kwargs)
    requires params != [] && Filters(params).Ok?
    ensures var last := AfterLast(head, '/');
      Attach(QuestionOrAmpersand, head, params)
        == Ok(head + (if last.Some? && '?' in last.value then "&" else "?") + Filters(params).value)
  {
  }

  /** Parameters after a head that binds no separator make the call fail. */
  lemma AttachUnbound(head: string, params: Kwargs)
    requires params != [] && Filters(params).Ok?
    requires Sep(OpenQuery, head) == Err(UnboundLocalError)
    ensures Attach(OpenQuery, head, params) == Err(UnboundLocalError)
  {
  }

  /** Without a path or a query the head is the prefix alone. */
  lemma HeadBare(d: Dialect, pre: string, kw: Kwargs)
    requires !Has(kw, "path") && !Has(kw, "query")
    ensures Head(d, pre, kw) == pre
  {
  }

  /** A query alone builds the prefixed domain, `/` and the query (and the dialect's mark), with no parameter. */
  lemma QueryOnly(d: Dialect, domain: string, q: string)
    ensures BuildUrl(d, PStr(domain), [("query", PStr(q))])
      == Ok(Prefix(domain, DEF_PROTOCOL) + "/" + q + (if d.queryMark then "?" else ""))
  {
    var kw := [("query", PStr(q))];
    assert !Has(kw, "protocol") && !Has(kw, "path");
    assert Get(kw, "query", PNone) == PStr(q);
    assert Remove(kw, "protocol") == kw && Remove(kw, "path") == kw;
    assert Params(kw) == [] by {
      assert Remove(kw, "query") == Remove(kw[1..], "query");
    }
    var pre := Prefix(domain, DEF_PROTOCOL);
    assert Head(d, pre, kw) == pre + "/" + q + (if d.queryMark then "?" else "");
    BuildUrlNoParams(d, domain, kw);
  }

  /** With no parameter left the URL is the head alone. */
  lemma BuildUrlNoParams(d: Dialect, domain: string, kw: Kwargs)
    requires InStrs(Protocol(kw), PROTOCOLS) && Params(kw) == []
    ensures BuildUrl(d, PStr(domain), kw) == Ok(Head(d, Prefix(domain, Protocol(kw).s), Remove(kw, "protocol")))
  {
  }

  /** An entry other than protocol, path or query put first stays first among the parameters. */
  lemma ParamsCons(e: (string, Py), kw: Kwargs)
    requires e.0 !in {"protocol", "path", "query"}
    ensures Params([e] + kw) == [e] + Params(kw)
    ensures Protocol([e] + kw) == Protocol(kw)
  {
    RemoveCons(e, kw, "protocol");
    RemoveCons(e, Remove(kw, "protocol"), "path");
    RemoveCons(e, Remove(Remove(kw, "protocol"), "path"), "query");
    assert ([e] + kw)[1..] == kw;
  }

  /** An entry other than protocol, path or query put last stays last among the parameters. */
  lemma ParamsSnoc(kw: Kwargs, e: (string, Py))
    requires e.0 !in {"protocol", "path", "query"}
    ensures Params(kw + [e]) == Params(kw) + [e]
  {
    RemoveSnoc(kw, e, "protocol");
    RemoveSnoc(Remove(kw, "protocol"), e, "path");
    RemoveSnoc(Remove(Remove(kw, "protocol"), "path"), e, "query");
  }
}
