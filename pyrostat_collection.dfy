/**
 * pyrostat/collection.py, classes `__Base` and `Bulk`: the URL a bulk
 * collection sends (its fields written in, `sort` first, `/lang` last),
 * the validating setters, the file names `read` requests and the
 * bookkeeping of `read_html_table`.
 */
module PyrostatCollection {
  import opened Python
  import opened Text
  import opened UrlCore
  import opened PyrostatSettings
  import opened Setters
  import PyrostatSession

  // ---------------------------------------------------------------------
  // build_url

  /** The fields `build_url` reads. */
  datatype UrlFields = UrlFields(domain: Py, protocol: Py, query: Py, sort: Py)

  /** `__Base._url_static`: the collection's domain and protocol written in, `lang` taken out. */
  function StaticArgs(f: UrlFields, kw: Kwargs): Kwargs
  {
    Remove(Put(Put(kw, "domain", f.domain), "protocol", f.protocol), "lang")
  }

  /** `self.query not in (None, '')` */
  predicate HasQuery(f: UrlFields)
  {
    !(f.query.PNone? || f.query == PStr(""))
  }

  /** `Bulk._url_dynamic`: the collection's query added when the call has none, then `sort` moved to the front. */
  function DynamicArgs(f: UrlFields, kw: Kwargs): Kwargs
  {
    var k := if !Has(kw, "query") && HasQuery(f) then Put(kw, "query", f.query) else kw;
    [("sort", Get(k, "sort", Or(f.sort, PInt(DEF_SORT))))] + Remove(k, "sort")
  }

  /** The keywords `__Base.build_url` hands to `Session.build_url`. */
  function Sent(f: UrlFields, kw: Kwargs): Kwargs
  {
    DynamicArgs(f, StaticArgs(f, kw))
  }

  /** `__Base.build_url`: any failure of the builder gives the empty string. */
  function BaseUrl(f: UrlFields, kw: Kwargs): string
  {
    match PyrostatSession.BuildUrl([], Sent(f, kw))
    case Ok(u) => u
    case Err(_) => ""
  }

  /** `/lang` when the call names a language other than `None`. */
  function LangSuffix(kw: Kwargs): string
  {
    var lang := Get(kw, "lang", PNone);
    if lang.PNone? then "" else "/" + Str(lang)
  }

  /** `Bulk.build_url(**kwargs)` */
  function Url(f: UrlFields, kw: Kwargs): (r: string)
    ensures EndsWith(r, LangSuffix(kw))
    ensures PyrostatSession.BuildUrl([], Sent(f, Remove(kw, "lang"))).Err? ==> r == LangSuffix(kw)
  {
    BaseUrl(f, Remove(kw, "lang")) + LangSuffix(kw)
  }

  /** The sort value sent: the caller's, else the collection's when truthy, else `DEF_SORT`. */
  function SortOf(f: UrlFields, kw: Kwargs): Py
  {
    if Has(kw, "sort") then Get(kw, "sort", PNone) else Or(f.sort, PInt(DEF_SORT))
  }

  /** The keys that never reach the parameter string as the caller wrote them. */
  const DROPPED: set<string> := {"lang", "sort"} + SESSION_KEYS

  /** The keys `Session.build_url` takes out of the parameters. */
  const SESSION_KEYS: set<string> := {"domain", "protocol", "path", "query"}

  /** `_url_static` writes the domain and the protocol in, takes `lang` out and leaves every other entry as it was. */
  lemma StaticArgsFacts(f: UrlFields, kw: Kwargs, ks: set<string>)
    requires DistinctKeys(kw) && "domain" in ks && "protocol" in ks
    ensures var s := StaticArgs(f, kw);
      DistinctKeys(s) && ("domain", f.domain) in s && ("protocol", f.protocol) in s
      && (forall e: (string, Py) :: e.0 !in {"lang", "domain", "protocol"} ==> (e in s <==> e in kw))
      && Without(s, ks) == Without(kw, {"lang"} + ks)
  {
    var s1a := Put(kw, "domain", f.domain);
    var s1 := Put(s1a, "protocol", f.protocol);
    assert ("domain", f.domain) in s1a;
    RemoveIsWithout(s1, "lang");
    RemoveDistinct(s1, "lang");
    WithoutTwice(s1, {"lang"}, ks);
    WithoutPut(s1a, "protocol", f.protocol, {"lang"} + ks);
    WithoutPut(kw, "domain", f.domain, {"lang"} + ks);
  }

  /** `_url_dynamic` keeps the keys distinct: `sort` is taken out of the rest before it goes first. */
  lemma DynamicArgsDistinct(f: UrlFields, k: Kwargs)
    requires DistinctKeys(k)
    ensures DistinctKeys(DynamicArgs(f, k))
  {
    var k3 := if !Has(k, "query") && HasQuery(f) then Put(k, "query", f.query) else k;
    var tail := Remove(k3, "sort");
    RemoveDistinct(k3, "sort");
    ConsDistinct(("sort", Get(k3, "sort", Or(f.sort, PInt(DEF_SORT)))), tail);
  }

  /** Leaving out `query` and other keys, `_url_dynamic` adds only `sort` in front of the call's own keywords. */
  lemma DynamicArgsWithout(f: UrlFields, k: Kwargs, ks: set<string>)
    requires DistinctKeys(k) && "query" in ks && "sort" !in ks
    ensures Without(DynamicArgs(f, k), ks) == [DynamicArgs(f, k)[0]] + Without(k, {"sort"} + ks)
  {
    var k3 := if !Has(k, "query") && HasQuery(f) then Put(k, "query", f.query) else k;
    var tail := Remove(k3, "sort");
    var x := DynamicArgs(f, k)[0];
    assert DynamicArgs(f, k) == [x] + tail;
    WithoutConcat([x], tail, ks);
    assert Without([x], ks) == [x] + Without([], ks);
    RemoveIsWithout(k3, "sort");
    WithoutTwice(k3, {"sort"}, ks);
    if !Has(k, "query") && HasQuery(f) {
      WithoutPut(k, "query", f.query, {"sort"} + ks);
    }
  }

  /** `Bulk._url_dynamic` puts `sort` first and otherwise only adds the collection's query when the call has none. */
  lemma DynamicArgsFacts(f: UrlFields, k: Kwargs, ks: set<string>)
    requires DistinctKeys(k) && "query" in ks && "sort" !in ks
    ensures var s := DynamicArgs(f, k);
      DistinctKeys(s)
      && s[0] == ("sort", if Has(k, "sort") then Get(k, "sort", PNone) else Or(f.sort, PInt(DEF_SORT)))
      && ((Has(k, "query") || HasQuery(f)) ==> Has(s, "query"))
      && (forall e: (string, Py) :: e.0 !in {"sort", "query"} ==> (e in s <==> e in k))
      && Without(s, ks) == [s[0]] + Without(k, {"sort"} + ks)
  {
    var k3 := if !Has(k, "query") && HasQuery(f) then Put(k, "query", f.query) else k;
    var tail := Remove(k3, "sort");
    RemoveDistinct(k3, "sort");
    var x := ("sort", Get(k3, "sort", Or(f.sort, PInt(DEF_SORT))));
    var s := [x] + tail;
    assert s == DynamicArgs(f, k);
    assert x.1 == if Has(k, "sort") then Get(k, "sort", PNone) else Or(f.sort, PInt(DEF_SORT)) by {
      HasEntry(k, "sort");
      HasEntry(k3, "sort");
      if Has(k, "sort") {
        var v := Get(k, "sort", PNone);
        assert ("sort", v) in k && ("sort", v) in k3;
        GetOfEntry(k3, "sort", v, Or(f.sort, PInt(DEF_SORT)));
      }
    }
    DynamicArgsDistinct(f, k);
    assert (Has(k, "query") || HasQuery(f)) ==> Has(s, "query") by {
      HasEntry(k, "query");
      HasEntry(s, "query");
      if Has(k, "query") {
        var v := Get(k, "query", PNone);
        assert ("query", v) in k3 && ("query", v) in tail && ("query", v) in s;
      } else if HasQuery(f) {
        assert ("query", f.query) in tail && ("query", f.query) in s;
      }
    }
    assert forall e: (string, Py) :: e.0 !in {"sort", "query"} ==> (e in s <==> e in k);
    DynamicArgsWithout(f, k, ks);
  }

  /** `_url_static` keeps the caller's `sort` and `query`: the sort it leaves is the one `SortOf` names, and a query stays. */
  lemma StaticSortQuery(f: UrlFields, kw: Kwargs)
    requires DistinctKeys(kw)
    ensures var s2 := StaticArgs(f, Remove(kw, "lang"));
      SortOf(f, kw) == (if Has(s2, "sort") then Get(s2, "sort", PNone) else Or(f.sort, PInt(DEF_SORT)))
      && (Has(kw, "query") ==> Has(s2, "query"))
  {
    StaticKeeps(f, kw, "sort");
    StaticKeeps(f, kw, "query");
  }

  /** A key other than `lang`, `domain` and `protocol` reads the same before and after `_url_static`. */
  lemma StaticKeeps(f: UrlFields, kw: Kwargs, k: string)
    requires DistinctKeys(kw) && k !in {"lang", "domain", "protocol"}
    ensures var s2 := StaticArgs(f, Remove(kw, "lang"));
      (Has(s2, k) <==> Has(kw, k)) && Get(s2, k, PNone) == Get(kw, k, PNone)
  {
    var s0 := Remove(kw, "lang");
    RemoveDistinct(kw, "lang");
    StaticArgsFacts(f, s0, {"domain", "protocol"});
    SameEntry(kw, s0, k, PNone);
    SameEntry(s0, StaticArgs(f, s0), k, PNone);
  }

  /**
   * What `_url_static` and `_url_dynamic` hand on: `sort` first, with the
   * caller's value or the default; the domain and protocol of the
   * collection; a query whenever the call or the collection has one; and
   * apart from those, exactly the caller's parameters in the caller's order.
   */
  lemma SentArgs(f: UrlFields, kw: Kwargs)
    requires DistinctKeys(kw)
    ensures var s := Sent(f, Remove(kw, "lang"));
      DistinctKeys(s) && s[0] == ("sort", SortOf(f, kw))
      && ("domain", f.domain) in s && ("protocol", f.protocol) in s
      && ((Has(kw, "query") || HasQuery(f)) ==> Has(s, "query"))
      && Without(s, SESSION_KEYS) == [("sort", SortOf(f, kw))] + Without(kw, DROPPED)
  {
    assert {"lang"} + ({"lang"} + ({"sort"} + SESSION_KEYS)) == DROPPED;
    assert "query" in SESSION_KEYS && "sort" !in SESSION_KEYS;
    var s0 := Remove(kw, "lang");
    RemoveDistinct(kw, "lang");
    var s2 := StaticArgs(f, s0);
    var s := DynamicArgs(f, s2);
    StaticArgsFacts(f, s0, {"sort"} + SESSION_KEYS);
    DynamicArgsFacts(f, s2, SESSION_KEYS);
    StaticSortQuery(f, kw);
    assert ("domain", f.domain) in s && ("protocol", f.protocol) in s;
    assert Without(s0, {"lang"} + ({"sort"} + SESSION_KEYS)) == Without(kw, DROPPED) by {
      RemoveIsWithout(kw, "lang");
      WithoutTwice(kw, {"lang"}, {"lang"} + ({"sort"} + SESSION_KEYS));
    }
  }

  /** The parameters left after the builder takes the domain and then protocol, path and query out. */
  lemma ParamsOfRest(s: Kwargs)
    ensures Params(Remove(s, "domain")) == Without(s, SESSION_KEYS)
  {
    var k1 := Remove(s, "domain");
    var k2 := Remove(k1, "protocol");
    var k3 := Remove(k2, "path");
    var a: set<string> := {"domain"};
    var b: set<string> := {"domain", "protocol"};
    var c: set<string> := {"domain", "protocol", "path"};
    RemoveIsWithout(s, "domain");
    assert k1 == Without(s, a);
    RemoveIsWithout(k1, "protocol");
    WithoutTwice(s, a, {"protocol"});
    assert a + {"protocol"} == b;
    assert k2 == Without(s, b);
    RemoveIsWithout(k2, "path");
    WithoutTwice(s, b, {"path"});
    assert b + {"path"} == c;
    assert k3 == Without(s, c);
    RemoveIsWithout(k3, "query");
    WithoutTwice(s, c, {"query"});
    assert c + {"query"} == SESSION_KEYS;
  }

  /**
   * What reaches the shared builder for a collection whose domain is a
   * string: that domain, the collection's protocol, a query whenever the
   * call or the collection has one, and the parameters `sort` first.
   */
  lemma SentReachesBuilder(f: UrlFields, kw: Kwargs)
    requires DistinctKeys(kw) && f.domain.PStr?
    ensures var rest := Remove(Sent(f, Remove(kw, "lang")), "domain");
      PyrostatSession.BuildUrl([], Sent(f, Remove(kw, "lang"))) == UrlCore.BuildUrl(PyrostatSession.Builder, f.domain, rest)
      && Protocol(rest) == f.protocol
      && Params(rest) == [("sort", SortOf(f, kw))] + Without(kw, DROPPED)
      && ((Has(kw, "query") || HasQuery(f)) ==> Has(Remove(rest, "protocol"), "query"))
  {
    var s := Sent(f, Remove(kw, "lang"));
    SentArgs(f, kw);
    KeywordDomain(s, f.domain, f.protocol);
    ParamsOfRest(s);
    QueryKept(s);
  }

  /** Keywords naming the domain and the protocol: the domain is taken out, the protocol read from the rest. */
  lemma KeywordDomain(s: Kwargs, domain: Py, protocol: Py)
    requires DistinctKeys(s) && ("domain", domain) in s && ("protocol", protocol) in s
    ensures PyrostatSession.BuildUrl([], s) == UrlCore.BuildUrl(PyrostatSession.Builder, domain, Remove(s, "domain"))
    ensures Protocol(Remove(s, "domain")) == protocol
  {
    GetOfEntry(s, "domain", domain, PStr(""));
    RemoveDistinct(s, "domain");
    GetOfEntry(Remove(s, "domain"), "protocol", protocol, PStr(DEF_PROTOCOL));
  }

  /** Taking out the domain and the protocol keeps a query. */
  lemma QueryKept(s: Kwargs)
    ensures Has(s, "query") ==> Has(Remove(Remove(s, "domain"), "protocol"), "query")
  {
    HasEntry(s, "query");
    HasEntry(Remove(Remove(s, "domain"), "protocol"), "query");
  }

  /**
   * The URL of a collection whose domain is a string and whose protocol is
   * known, for a call with a query (its own or the collection's) and plain
   * parameters: the prefixed domain with `/path` and `/query?`, then a
   * parameter string that reads back as `sort` first and the caller's other
   * parameters in the caller's order, then `/lang` when a language is given.
   */
  lemma UrlSortFirst(f: UrlFields, kw: Kwargs)
    requires DistinctKeys(kw)
    requires f.domain.PStr? && InStrs(f.protocol, PROTOCOLS)
    requires Has(kw, "query") || HasQuery(f)
    requires Plain([("sort", SortOf(f, kw))] + Without(kw, DROPPED))
    ensures exists head, q :: (Url(f, kw) == head + q + LangSuffix(kw)
      && StartsWith(head, Prefix(f.domain.s, f.protocol.s)) && EndsWith(head, "?")
      && ParseQuery(q) == Rendered([("sort", SortOf(f, kw))] + Without(kw, DROPPED)))
  {
    var rest := Remove(Sent(f, Remove(kw, "lang")), "domain");
    SentReachesBuilder(f, kw);
    var params := Params(rest);
    var pre := Prefix(f.domain.s, f.protocol.s);
    var head := Head(PyrostatSession.Builder, pre, Remove(rest, "protocol"));
    PyrostatSession.QueryHeadTakesNoSeparator(pre, Remove(rest, "protocol"));
    FiltersRoundTrip(params);
    var q := Filters(params).value;
    assert UrlCore.BuildUrl(PyrostatSession.Builder, f.domain, rest) == Ok(head + "" + q);
    PyrostatSession.ParamsFollowQuery(f.domain.s, rest);
    assert Url(f, kw) == head + q + LangSuffix(kw);
  }

  /** A collection whose domain is not a string sends nothing: the URL is at most the language suffix. */
  lemma BadDomainSwallowed(f: UrlFields, kw: Kwargs)
    requires DistinctKeys(kw) && !f.domain.PStr?
    ensures Url(f, kw) == LangSuffix(kw)
  {
    SentArgs(f, kw);
    GetOfEntry(Sent(f, Remove(kw, "lang")), "domain", f.domain, PStr(""));
  }

  /** An unknown protocol is swallowed the same way. */
  lemma BadProtocolSwallowed(f: UrlFields, kw: Kwargs)
    requires DistinctKeys(kw) && f.domain.PStr? && !InStrs(f.protocol, PROTOCOLS)
    ensures Url(f, kw) == LangSuffix(kw)
  {
    SentReachesBuilder(f, kw);
  }

  // ---------------------------------------------------------------------
  // read: the file a dictionary or a dataset is fetched from

  const NEITHER: Error := PyroError("one of the parameters DIC or DATA needs to be set")
  const BOTH: Error := PyroError("parameters DIC or DATA are incompatible")

  /** Which table `read` addresses: `dic` when a dimension is named, else `data`. */
  function ReadKind(kw: Kwargs): Kind
  {
    if !Get(kw, "dic", PNone).PNone? then Dic else Data
  }

  /** The extension asked for, the kind's first one by default. */
  function ReadExt(kw: Kwargs): Py
  {
    Get(Remove(Remove(kw, "dic"), "data"), "ext", PStr(BulkExts(ReadKind(kw))[0]))
  }

  /** `<dir>/<lang>/<name>.<ext>` for a dictionary, `<dir>/<name>.<ext>` for a dataset, the compression suffix after the extension. */
  function FileName(kind: Kind, lang: Py, name: string, ext: string): (r: string)
    ensures StartsWith(r, BulkDir(kind) + "/")
    ensures EndsWith(r, "." + ext + Zip(kind))
  {
    var b := BaseName(kind, name, ext);
    var dir := BulkDir(kind) + "/";
    var pre := if kind == Dic then dir + (Str(lang) + "/") else dir;
    ConcatEnds(dir, Str(lang) + "/");
    ConcatEnds(pre, b);
    StartsWithTrans(pre + b, pre, dir);
    EndsWithTrans(pre + b, b, "." + ext + Zip(kind));
    pre + b
  }

  /** The file name spelled out: directory, language for a dictionary, then the base name, each after a `/`. */
  lemma FileNameParts(kind: Kind, lang: Py, name: string, ext: string)
    ensures FileName(kind, lang, name, ext) == if kind == Dic
      then BulkDir(kind) + "/" + Str(lang) + "/" + BaseName(kind, name, ext)
      else BulkDir(kind) + "/" + BaseName(kind, name, ext)
  {
    var dir := BulkDir(kind) + "/";
    assert dir + (Str(lang) + "/") == dir + Str(lang) + "/";
  }

  /** `<name>.<ext>` and the compression suffix. */
  function BaseName(kind: Kind, name: string, ext: string): (r: string)
    ensures EndsWith(r, "." + ext + Zip(kind))
  {
    var r := name + "." + ext + Zip(kind);
    assert r[|r| - |"." + ext + Zip(kind)|..] == "." + ext + Zip(kind);
    r
  }

  /** A file name built from slash-free parts holds no slash. */
  lemma BaseNameNoSlash(kind: Kind, name: string, ext: string)
    requires '/' !in name && '/' !in ext
    ensures '/' !in BaseName(kind, name, ext)
  {
    var z := Zip(kind);
    assert '/' !in z by {
      assert z == "" || z == "." + BulkZip(kind);
      assert '/' !in BulkZip(kind);
    }
    assert BaseName(kind, name, ext) == name + ['.'] + ext + z;
  }

  /** The compression suffix with its dot, empty for none. */
  function Zip(kind: Kind): string
  {
    if BulkZip(kind) != "" then "." + BulkZip(kind) else ""
  }

  /**
   * The file `read(**kwargs)` requests: `dic/<lang>/<name>.<ext>.gz` for a
   * dimension, `data/<name>.<ext>.gz` for a dataset; exactly one of the
   * two must be named and the extension must be one of the kind's.
   */
  function ReadFile(kw: Kwargs, lang: Py): (r: Result<string>)
    ensures Get(kw, "dic", PNone).PNone? && Get(kw, "data", PNone).PNone? <==> r == Err(NEITHER)
    ensures !Get(kw, "dic", PNone).PNone? && !Get(kw, "data", PNone).PNone? <==> r == Err(BOTH)
    ensures r.Ok? <==> (Get(kw, "dic", PNone).PNone? != Get(kw, "data", PNone).PNone?)
                       && InStrs(ReadExt(kw), BulkExts(ReadKind(kw)))
    ensures r.Ok? ==> StartsWith(r.value, BulkDir(ReadKind(kw)) + "/")
    ensures r.Ok? ==> EndsWith(r.value, "." + ReadExt(kw).s + Zip(ReadKind(kw)))
  {
    var dimension := Get(kw, "dic", PNone);
    var dataset := Get(kw, "data", PNone);
    if dataset.PNone? && dimension.PNone? then Err(NEITHER)
    else if !dataset.PNone? && !dimension.PNone? then Err(BOTH)
    else
      var kind := ReadKind(kw);
      var ext := ReadExt(kw);
      if !InStrs(ext, BulkExts(kind)) then
        Err(PyroError("bulk " + (if kind == Dic then "dic" else "data") + " extension EXT not recognised"))
      else
        Ok(FileName(kind, lang, Str(Or(dimension, dataset)), ext.s))
  }

  /** `read(data=name, ext=ext)` with a known extension names the dataset's file. */
  lemma ReadFileOfDataset(name: string, ext: string, lang: Py)
    requires name != "" && ext in BulkExts(Data)
    ensures ReadFile([("data", PStr(name)), ("ext", PStr(ext))], lang) == Ok(FileName(Data, lang, name, ext))
  {
    var kw := [("data", PStr(name)), ("ext", PStr(ext))];
    assert Get(kw, "dic", PNone) == PNone && Get(kw, "data", PNone) == PStr(name);
    assert ReadKind(kw) == Data;
    assert Remove(Remove(kw, "dic"), "data") == [("ext", PStr(ext))];
    assert ReadExt(kw) == PStr(ext);
    assert Str(Or(PNone, PStr(name))) == name;
  }

  /** A dataset file splits back into the data directory and a name whose stem is the dataset. */
  lemma ReadDatasetFile(name: string, ext: string, lang: Py)
    requires name != "" && '/' !in name && '.' !in name && '/' !in ext
    requires ext in BulkExts(Data)
    ensures var r := ReadFile([("data", PStr(name)), ("ext", PStr(ext))], lang);
      r.Ok? && Split(r.value, '/') == [BulkDir(Data), BaseName(Data, name, ext)]
      && BeforeFirst(Split(r.value, '/')[1], '.') == name
  {
    ReadFileOfDataset(name, ext, lang);
    var file := BaseName(Data, name, ext);
    FileNameParts(Data, lang, name, ext);
    BaseNameNoSlash(Data, name, ext);
    SplitPair(BulkDir(Data), file, '/');
    StemOfBaseName(Data, name, ext);
  }

  /** `read(dic=name)` names the dimension's file with the first dictionary extension. */
  lemma ReadFileOfDimension(name: string, lang: string)
    requires name != ""
    ensures ReadFile([("dic", PStr(name))], PStr(lang)) == Ok(FileName(Dic, PStr(lang), name, BulkExts(Dic)[0]))
  {
    var kw := [("dic", PStr(name))];
    assert Get(kw, "dic", PNone) == PStr(name) && Get(kw, "data", PNone) == PNone;
    assert ReadKind(kw) == Dic;
    assert Remove(Remove(kw, "dic"), "data") == [];
    assert ReadExt(kw) == PStr(BulkExts(Dic)[0]);
    assert Str(Or(PStr(name), PNone)) == name;
  }

  /** A dimension file splits back into the dictionary directory, the language and a name whose stem is the dimension. */
  lemma ReadDimensionFile(name: string, lang: string)
    requires name != "" && '/' !in name && '.' !in name && '/' !in lang
    ensures var r := ReadFile([("dic", PStr(name))], PStr(lang));
      r.Ok? && Split(r.value, '/') == [BulkDir(Dic), lang, BaseName(Dic, name, BulkExts(Dic)[0])]
      && BeforeFirst(Split(r.value, '/')[2], '.') == name
  {
    var ext := BulkExts(Dic)[0];
    ReadFileOfDimension(name, lang);
    var file := BaseName(Dic, name, ext);
    FileNameParts(Dic, PStr(lang), name, ext);
    BaseNameNoSlash(Dic, name, ext);
    SplitThree(BulkDir(Dic), lang, file, '/');
    StemOfBaseName(Dic, name, ext);
  }

  /** The stem of a file name, up to its first dot, is the name it was made from. */
  lemma StemOfBaseName(kind: Kind, name: string, ext: string)
    requires '.' !in name
    ensures BeforeFirst(BaseName(kind, name, ext), '.') == name
  {
    assert BaseName(kind, name, ext) == name + ['.'] + (ext + Zip(kind));
    BeforeFirstOfSuffixed(name, '.', ext + Zip(kind));
  }

  /** An empty dimension name is falsy, so `dimension or dataset` names the file `None`. */
  lemma EmptyDimensionReadsNone(lang: Py)
    ensures ReadFile([("dic", PStr(""))], lang) == Ok(BulkDir(Dic) + "/" + Str(lang) + "/" + BaseName(Dic, "None", BulkExts(Dic)[0]))
  {
    var kw := [("dic", PStr(""))];
    assert Get(kw, "dic", PNone) == PStr("") && Get(kw, "data", PNone) == PNone;
    assert ReadKind(kw) == Dic;
    assert Remove(Remove(kw, "dic"), "data") == [];
    assert ReadExt(kw) == PStr("dic");
    assert Str(Or(PStr(""), PNone)) == "None";
    FileNameParts(Dic, lang, "None", "dic");
  }

  // ---------------------------------------------------------------------
  // read_html_table

  /** What `read_html_table` does after its checks: return a table it holds, or fetch with these `build_url` arguments. */
  datatype Lookup = Cached(table: Py) | Download(args: Kwargs)

  /** `alpha is None or alpha in list(string.ascii_lowercase)` */
  predicate AlphaOk(alpha: Py)
  {
    alpha.PNone? || (alpha.PStr? && |alpha.s| == 1 && 'a' <= alpha.s[0] <= 'z')
  }

  /** The outcome of a lookup and the dictionary and dataset tables after it. */
  datatype Plan = Plan(result: Result<Lookup>, dic: Kwargs, data: Kwargs)

  /**
   * `read_html_table(key, **kwargs)` up to the download: `key` must read
   * `dic` or `data` in any case, though the table is looked up under the
   * key as written; with a letter, the letter's entry is returned, or an
   * `alpha: None` placeholder is inserted and the page is to be fetched.
   */
  function PlanLookup(dic: Kwargs, data: Kwargs, key: Py, kw: Kwargs, lang: Py): (p: Plan)
    ensures p.result.Err? ==> p.dic == dic && p.data == data
    ensures !(key.PStr? && key.s == "dic") ==> p.dic == dic
    ensures !(key.PStr? && key.s == "data") ==> p.data == data
  {
    if !key.PStr? || Lower(key.s) !in ["dic", "data"] then
      Plan(Err(PyroError("keyword parameter " + Str(key) + " not recognised")), dic, data)
    else
      var alpha := Get(kw, "alpha", PNone);
      if !AlphaOk(alpha) then Plan(Err(PyroError("wrong parameter ALPHA")), dic, data)
      else if key.s == "dic" then
        var l := LookIn(dic, alpha, Download([("dir", PStr(BulkDir(Dic))), ("lang", lang)]));
        Plan(l.0, l.1, data)
      else if key.s == "data" then
        var l := LookIn(data, alpha, Download([("dir", PStr(BulkDir(Data))), ("start", alpha)]));
        Plan(l.0, dic, l.1)
      else if !alpha.PNone? then Plan(Err(AttributeError), dic, data)  // `None.update(...)`
      else Plan(Err(KeyError), dic, data)  // `BULK_DIR[key]`
  }

  /**
   * The lookup in the table `_table.get(key)` returns: with a letter, its
   * entry, an `alpha: None` placeholder being inserted when the letter is
   * missing; without one, the whole table. An entry that is `None` or empty
   * sends the call to the download.
   */
  function LookIn(table: Kwargs, alpha: Py, download: Lookup): (Result<Lookup>, Kwargs)
    requires AlphaOk(alpha)
  {
    var updated := if !alpha.PNone? && !Has(table, alpha.s) then Put(table, alpha.s, PNone) else table;
    var value := if !alpha.PNone? then Get(updated, alpha.s, PNone)
      else PDict(seq(|updated|, i requires 0 <= i < |updated| => (PStr(updated[i].0), updated[i].1)));
    if !(value.PNone? || value == PDict([])) then (Ok(Cached(value)), updated) else (Ok(download), updated)
  }

  /** A second lookup in the table the first one left finds what the first found, and changes nothing. */
  lemma LookInIdempotent(table: Kwargs, alpha: Py, download: Lookup)
    requires AlphaOk(alpha)
    ensures var l := LookIn(table, alpha, download); LookIn(l.1, alpha, download) == l
  {
    if !alpha.PNone? && !Has(table, alpha.s) {
      var updated := Put(table, alpha.s, PNone);
      assert Has(updated, alpha.s) && Get(updated, alpha.s, PNone) == PNone;
    }
  }

  /**
   * A lookup leaves the tables as a second identical lookup finds them: the
   * placeholder it inserts reads as "not yet fetched", so the second call
   * asks for the same download and changes nothing more.
   */
  lemma LookupIdempotent(dic: Kwargs, data: Kwargs, key: Py, kw: Kwargs, lang: Py)
    ensures var p := PlanLookup(dic, data, key, kw, lang);
      PlanLookup(p.dic, p.data, key, kw, lang) == p
  {
    var alpha := Get(kw, "alpha", PNone);
    if key.PStr? && Lower(key.s) in ["dic", "data"] && AlphaOk(alpha) {
      if key.s == "dic" {
        LookInIdempotent(dic, alpha, Download([("dir", PStr(BulkDir(Dic))), ("lang", lang)]));
      } else if key.s == "data" {
        LookInIdempotent(data, alpha, Download([("dir", PStr(BulkDir(Data))), ("start", alpha)]));
      }
    }
  }

  /** The key is checked in any case but looked up as written: `DIC` with a letter fails on `None`, without one on `BULK_DIR`. */
  lemma UpperCaseKeyFails(dic: Kwargs, data: Kwargs, lang: Py, letter: char)
    requires 'a' <= letter <= 'z'
    ensures PlanLookup(dic, data, PStr("DIC"), [("alpha", PStr([letter]))], lang).result == Err(AttributeError)
    ensures PlanLookup(dic, data, PStr("DIC"), [], lang).result == Err(KeyError)
  {
    assert Lower("DIC") == "dic";
  }

  // ---------------------------------------------------------------------
  // The collection

  /**
   * The URL fields a new collection starts from: each keyword of the same
   * name as given, without any check, else the bulk domain and query, the
   * default protocol and sort.
   */
  function DefaultFields(kw: Kwargs): (f: UrlFields)
    ensures !Has(kw, "domain") ==> f.domain == PStr(BULK_DOMAIN)
    ensures !Has(kw, "protocol") ==> f.protocol == PStr(DEF_PROTOCOL)
    ensures !Has(kw, "query") ==> f.query == PStr(BULK_QUERY)
    ensures !Has(kw, "sort") ==> f.sort == PInt(DEF_SORT)
  {
    UrlFields(Get(kw, "domain", PStr(BULK_DOMAIN)), Get(kw, "protocol", PStr(DEF_PROTOCOL)),
              Get(kw, "query", PStr(BULK_QUERY)), Get(kw, "sort", PInt(DEF_SORT)))
  }

  /** `build_url()` called with no keyword. */
  const NO_ARGS: Kwargs := []

  /** The fields of a `Bulk` collection, as one value. */
  datatype BulkState = BulkState(fields: UrlFields, lang: Py, dic: Kwargs, data: Kwargs, mainurl: string)

  /**
   * What `Bulk(**kwargs)` leaves: the URL fields as given or defaulted,
   * `lang` as given or English, empty tables, and the main URL that
   * `setMainurl()` builds from those fields with no keyword.
   */
  function Initial(kw: Kwargs): BulkState
  {
    var f := DefaultFields(kw);
    BulkState(f, Get(kw, "lang", PStr(DEF_LANG)), [], [], Url(f, NO_ARGS))
  }

  /** A `Bulk` collection: its URL settings and its dictionary and dataset tables. */
  class Bulk {
    var domain: Py
    var protocol: Py
    var query: Py
    var lang: Py
    var sort: Py
    var dic: Kwargs     // `_table['dic']`
    var data: Kwargs    // `_table['data']`
    var mainurl: string

    function Fields(): UrlFields
      reads this
    {
      UrlFields(domain, protocol, query, sort)
    }

    /** All the collection's fields, as one value. */
    function State(): BulkState
      reads this
    {
      BulkState(Fields(), lang, dic, data, mainurl)
    }

    /**
     * Defaults (the bulk domain and query, sort 1, English, http, empty
     * tables), each overridden as given by the keywords of the same name
     * without any check; then the main URL is built.
     */
    constructor (kw: Kwargs)
      ensures State() == Initial(kw)
    {
      var init := Initial(kw);
      domain, protocol, query, sort := init.fields.domain, init.fields.protocol, init.fields.query, init.fields.sort;
      lang, dic, data, mainurl := init.lang, init.dic, init.data, init.mainurl;
    }

    /** `setMainurl(**kwargs)`: the URL the collection's fields and the keywords build. */
    method SetMainurl(kw: Kwargs)
      modifies this`mainurl
      ensures mainurl == Url(Fields(), kw)
    {
      mainurl := Url(Fields(), kw);
    }

    method SetDomain(v: Py) returns (r: Result<()>)
      modifies this`domain
      ensures r.Ok? <==> v.PStr?
      ensures domain == (if v.PStr? then v else old(domain))
    {
      match CheckText(v, "DOMAIN", Pyro)
      case Err(e) => return Err(e);
      case Ok(d) =>
        domain := d;
        return Ok(());
    }

    method SetProtocol(v: Py) returns (r: Result<()>)
      modifies this`protocol
      ensures r.Ok? <==> v.PStr?
      ensures protocol == (if v.PStr? then v else old(protocol))
    {
      match CheckText(v, "PROTOCOL", Pyro)
      case Err(e) => return Err(e);
      case Ok(p) =>
        protocol := p;
        return Ok(());
    }

    method SetQuery(v: Py) returns (r: Result<()>)
      modifies this`query
      ensures r.Ok? <==> v.PStr?
      ensures query == (if v.PStr? then v else old(query))
    {
      match CheckText(v, "QUERY", Pyro)
      case Err(e) => return Err(e);
      case Ok(q) =>
        query := q;
        return Ok(());
    }

    method SetLang(v: Py) returns (r: Result<()>)
      modifies this`lang
      ensures r.Ok? <==> InStrs(v, LANGS)
      ensures lang == (if r.Ok? then v else old(lang))
    {
      match CheckLang(v, LANGS, Pyro)
      case Err(e) => return Err(e);
      case Ok(l) =>
        lang := l;
        return Ok(());
    }

    method SetSort(v: Py) returns (r: Result<()>)
      modifies this`sort
      ensures r.Ok? <==> IsInt(v) && IntOf(v) > 0
      ensures sort == (if r.Ok? then v else old(sort))
    {
      match CheckSort(v, Pyro)
      case Err(e) => return Err(e);
      case Ok(s) =>
        sort := s;
        return Ok(());
    }

    /** The `dictionaries` setter: the table is replaced, never merged. */
    method SetDictionaries(v: Py) returns (r: Result<()>)
      modifies this`dic
      ensures r.Ok? <==> TableOf(v, "DICTIONARIES", Pyro).Ok?
      ensures dic == (if r.Ok? then TableOf(v, "DICTIONARIES", Pyro).value else old(dic))
    {
      match TableOf(v, "DICTIONARIES", Pyro)
      case Err(e) => return Err(e);
      case Ok(t) =>
        dic := t;
        return Ok(());
    }

    /** The `datasets` setter: the table is replaced, never merged. */
    method SetDatasets(v: Py) returns (r: Result<()>)
      modifies this`data
      ensures r.Ok? <==> TableOf(v, "DATASETS", Pyro).Ok?
      ensures data == (if r.Ok? then TableOf(v, "DATASETS", Pyro).value else old(data))
    {
      match TableOf(v, "DATASETS", Pyro)
      case Err(e) => return Err(e);
      case Ok(t) =>
        data := t;
        return Ok(());
    }

    /** The URL `read(**kwargs)` fetches: its file under the collection's URL. */
    function ReadUrl(kw: Kwargs): (r: Result<string>)
      reads this
      ensures r.Err? <==> ReadFile(kw, lang).Err?
      ensures r.Err? ==> r.error == ReadFile(kw, lang).error
    {
      match ReadFile(kw, lang)
      case Err(e) => Err(e)
      case Ok(file) => Ok(Url(Fields(), [("file", PStr(file))]))
    }

    /** `read_html_table(key, **kwargs)` up to the download; inserts the placeholder. */
    method ReadHtmlTable(key: Py, kw: Kwargs) returns (r: Result<Lookup>)
      modifies this`dic, this`data
      ensures var p := PlanLookup(old(dic), old(data), key, kw, lang);
        r == p.result && dic == p.dic && data == p.data
    {
      var p := PlanLookup(dic, data, key, kw, lang);
      dic := p.dic;
      data := p.data;
      r := p.result;
    }
  }

  /** A call naming only a file: default sort, no language, the file passed through. */
  lemma FileOnlyArgs(f: UrlFields, file: string)
    ensures var kw := [("file", PStr(file))];
      SortOf(f, kw) == Or(f.sort, PInt(DEF_SORT)) && LangSuffix(kw) == "" && !Has(kw, "query")
      && Rendered([("sort", SortOf(f, kw))] + Without(kw, DROPPED)) == [("sort", Str(Or(f.sort, PInt(DEF_SORT)))), ("file", file)]
      && [("sort", SortOf(f, kw))] + Without(kw, DROPPED) == [("sort", Or(f.sort, PInt(DEF_SORT))), ("file", PStr(file))]
  {
    var kw := [("file", PStr(file))];
    assert !Has(kw, "sort") && !Has(kw, "lang") && !Has(kw, "query");
    assert Without(kw, DROPPED) == [kw[0]] + Without([], DROPPED);
  }

  /**
   * The URL `read` fetches, for a collection with a usable domain, protocol,
   * query and sort: the query string reads back as `sort` and then `file`
   * naming the file.
   */
  lemma ReadUrlSortThenFile(f: UrlFields, file: string)
    requires f.domain.PStr? && InStrs(f.protocol, PROTOCOLS) && HasQuery(f)
    requires Plain([("sort", Or(f.sort, PInt(DEF_SORT))), ("file", PStr(file))])
    ensures exists head, q :: (Url(f, [("file", PStr(file))]) == head + q
      && StartsWith(head, Prefix(f.domain.s, f.protocol.s)) && EndsWith(head, "?")
      && ParseQuery(q) == [("sort", Str(Or(f.sort, PInt(DEF_SORT)))), ("file", file)])
  {
    var kw := [("file", PStr(file))];
    FileOnlyArgs(f, file);
    UrlSortFirst(f, kw);
    var head, q :| Url(f, kw) == head + q + LangSuffix(kw)
      && StartsWith(head, Prefix(f.domain.s, f.protocol.s)) && EndsWith(head, "?")
      && ParseQuery(q) == Rendered([("sort", SortOf(f, kw))] + Without(kw, DROPPED));
    assert Url(f, kw) == head + q;
  }
}
