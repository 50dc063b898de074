/**
 * bulkdata.py, class `Bulkdata`: the listing URLs it completes (`sort`
 * moved first), the dataset and dimension names read off those listings,
 * its metabase queries, and the file and compression of the metabase.
 */
module Bulkdata {
  import opened Python
  import opened Text
  import opened UrlCore
  import opened Listing
  import opened Drafts
  import Metabase

  // ---------------------------------------------------------------------
  // The dataset listing

  /** `__complete_url(self.url, sort=self.sort, dir=BULK_DATA_DIR)` */
  function DatasetsUrl(url: Py, sort: Py): (r: Result<Py>)
    ensures r.Ok? ==> r.value.PStr?
  {
    CompleteUrl(true, url, [("sort", sort), ("dir", PStr(BULK_DATA_DIR))])
  }

  /**
   * `bulk_datasets`: for each of the 26 letters, the listing
   * `<url>&start=<letter>` filtered, every `.tsv.gz` removed from its
   * names, all appended into one list.
   */
  function BulkDatasets(url: Py, sort: Py, pages: Pages): (r: Result<seq<string>>)
    ensures DatasetsUrl(url, sort).Err? ==> r == Err(DatasetsUrl(url, sort).error)
  {
    match DatasetsUrl(url, sort)
    case Err(e) => Err(e)
    case Ok(u) => AllLetters(LETTERS, u.s + "&start=", Filtered(pages), BULK_DATA_EXT)
  }

  /** `bulk_datasets` as written: the URL completed once, then the loop over the letters. */
  method CollectDatasets(url: Py, sort: Py, pages: Pages) returns (r: Result<seq<string>>)
    ensures r == BulkDatasets(url, sort, pages)
  {
    var complete := DatasetsUrl(url, sort);
    if complete.Err? {
      return Err(complete.error);
    }
    r := AppendByLetter(LETTERS, complete.value.s + "&start=", Filtered(pages), BULK_DATA_EXT);
  }

  /**
   * The list reads when every letter's page reads, and is then the
   * stripped names of the pages `a` to `z`, one page after another.
   */
  lemma BulkDatasetsByLetter(url: Py, sort: Py, pages: Pages)
    requires DatasetsUrl(url, sort).Ok?
    ensures var prefix := DatasetsUrl(url, sort).value.s + "&start=";
      (BulkDatasets(url, sort, pages).Ok? <==> forall i :: 0 <= i < |LETTERS| ==> TableNames(pages(prefix + [LETTERS[i]])).Ok?)
      && (BulkDatasets(url, sort, pages).Ok? ==>
            BulkDatasets(url, sort, pages).value
              == Concat(seq(|LETTERS|, i requires 0 <= i < |LETTERS| => PageNames(Filtered(pages), prefix + [LETTERS[i]], BULK_DATA_EXT))))
  {
    var prefix := DatasetsUrl(url, sort).value.s + "&start=";
    PagesByLetter(prefix, pages);
    assert BulkDatasets(url, sort, pages) == AllLetters(LETTERS, prefix, Filtered(pages), BULK_DATA_EXT);
  }

  /** The walk over the letters under any prefix: it reads when every page reads, and is then their names in order. */
  lemma PagesByLetter(prefix: string, pages: Pages)
    ensures var r := AllLetters(LETTERS, prefix, Filtered(pages), BULK_DATA_EXT);
      (r.Ok? <==> forall i :: 0 <= i < |LETTERS| ==> TableNames(pages(prefix + [LETTERS[i]])).Ok?)
      && (r.Ok? ==>
            r.value == Concat(seq(|LETTERS|, i requires 0 <= i < |LETTERS| => PageNames(Filtered(pages), prefix + [LETTERS[i]], BULK_DATA_EXT))))
  {
    AllLettersIsConcat(LETTERS, prefix, Filtered(pages), BULK_DATA_EXT);
    ByLetterContents(LETTERS, prefix, Filtered(pages), BULK_DATA_EXT);
  }

  /**
   * `bulk_datasets` as written: each letter's page goes through
   * `load_page`, whose `(pathname, html)` pair is then handed to
   * `read_html_table` in place of a URL.
   */
  function BulkDatasetsAsWritten(url: Py, sort: Py, loads: Loads): Result<seq<string>>
  {
    match DatasetsUrl(url, sort)
    case Err(e) => Err(e)
    case Ok(u) => AllLetters(LETTERS, u.s + "&start=", ReadAsWritten(loads), BULK_DATA_EXT)
  }

  /** As written, the dataset listing never returns: the page of `a` raises, by its load or by the unpacking. */
  lemma DatasetListingNeverRead(url: Py, sort: Py, loads: Loads)
    requires DatasetsUrl(url, sort).Ok?
    ensures BulkDatasetsAsWritten(url, sort, loads)
      == Err(FirstPageError(loads, DatasetsUrl(url, sort).value.s + "&start=a"))
  {
    var u := DatasetsUrl(url, sort).value.s;
    var prefix := u + "&start=";
    assert BulkDatasetsAsWritten(url, sort, loads) == AllLetters(LETTERS, prefix, ReadAsWritten(loads), BULK_DATA_EXT);
    WalksNeverRead(LETTERS, prefix, loads, BULK_DATA_EXT);
    assert LETTERS[0] == 'a';
    assert prefix + [LETTERS[0]] == u + "&start=a";
  }

  /** The parameters of a listing URL asked for with a valid sort: `sort` first, in every case. */
  lemma DatasetsUrlSortFirst(url: string, sort: int)
    ensures exists head, sep, q ::
      DatasetsUrl(PStr(url), PInt(sort)) == Ok(PStr(head + sep + q))
      && StartsWith(head, Prefix(url, DEF_PROTOCOL)) && (sep == "?" || sep == "&")
      && ParseQuery(q) == [("sort", IntToString(sort)), ("dir", BULK_DATA_DIR)]
  {
    SortThenKey(url, sort, "dir", BULK_DATA_DIR);
  }

  // ---------------------------------------------------------------------
  // The dimension listing

  /** `__complete_url(self.url, lang=self.lang, sort=self.sort, dir=BULK_DIC_DIR)` */
  function DimensionsUrl(url: Py, lang: Py, sort: Py): (r: Result<Py>)
    ensures r.Ok? ==> r.value.PStr?
  {
    CompleteUrl(true, url, [("lang", lang), ("sort", sort), ("dir", PStr(BULK_DIC_DIR))])
  }

  /** `bulk_dimensions`: the listing filtered, every `.dic` removed from its names. */
  function BulkDimensions(url: Py, lang: Py, sort: Py, pages: Pages): (r: Result<seq<string>>)
    ensures DimensionsUrl(url, lang, sort).Err? ==> r == Err(DimensionsUrl(url, lang, sort).error)
    ensures r.Ok? ==> (DimensionsUrl(url, lang, sort).Ok? && TableNames(pages(DimensionsUrl(url, lang, sort).value.s)).Ok?
      && |r.value| == |TableNames(pages(DimensionsUrl(url, lang, sort).value.s)).value|)
  {
    match DimensionsUrl(url, lang, sort)
    case Err(e) => Err(e)
    case Ok(u) =>
      match TableNames(pages(u.s))
      case Err(e) => Err(e)
      case Ok(names) => Ok(Stripped(names, BULK_DIC_EXT))
  }

  /** A listing of dictionary files `<stem>.dic` gives back exactly their stems, in order. */
  lemma BulkDimensionsStems(url: Py, lang: Py, sort: Py, pages: Pages, stems: seq<string>)
    requires DimensionsUrl(url, lang, sort).Ok?
    requires TableNames(pages(DimensionsUrl(url, lang, sort).value.s)) == Ok(WithExt(stems, BULK_DIC_EXT))
    requires forall i :: 0 <= i < |stems| ==> '.' !in stems[i]
    ensures BulkDimensions(url, lang, sort, pages) == Ok(stems)
  {
    StrippedWithExt(stems, BULK_DIC_EXT);
  }

  /** `bulk_dimensions` as written: the page's `(pathname, html)` pair is handed to `read_html_table`. */
  function BulkDimensionsAsWritten(url: Py, lang: Py, sort: Py, loads: Loads): Result<seq<string>>
  {
    match DimensionsUrl(url, lang, sort)
    case Err(e) => Err(e)
    case Ok(u) =>
      match ReadAsWritten(loads)(u.s)
      case Err(e) => Err(e)
      case Ok(names) => Ok(Stripped(names, BULK_DIC_EXT))
  }

  /** As written, the dimension listing never returns: the page raises, by its load or by the unpacking. */
  lemma DimensionListingNeverRead(url: Py, lang: Py, sort: Py, loads: Loads)
    requires DimensionsUrl(url, lang, sort).Ok?
    ensures BulkDimensionsAsWritten(url, lang, sort, loads) == Err(FirstPageError(loads, DimensionsUrl(url, lang, sort).value.s))
  {
  }

  /** The dimension listing is asked for `sort` first, then `dir=dic`, with `/lang` after the whole URL. */
  lemma DimensionsUrlSortFirst(url: string, lang: string, sort: int)
    requires lang in LANGS
    ensures exists head, sep, q ::
      DimensionsUrl(PStr(url), PStr(lang), PInt(sort)) == Ok(PStr(head + sep + q + ("/" + lang)))
      && StartsWith(head, Prefix(url, DEF_PROTOCOL)) && (sep == "?" || sep == "&")
      && ParseQuery(q) == [("sort", IntToString(sort)), ("dir", BULK_DIC_DIR)]
  {
    var kw := [("lang", PStr(lang)), ("sort", PInt(sort)), ("dir", PStr(BULK_DIC_DIR))];
    LangListingArgs(kw, lang, sort);
    SortFirstUrl(url, kw, "/" + lang, [("sort", IntToString(sort)), ("dir", BULK_DIC_DIR)]);
  }

  /** The facts `SortFirstInQuery` needs about `[lang, sort, dir]`. */
  lemma LangListingArgs(kw: Kwargs, lang: string, sort: int)
    requires lang in LANGS
    requires kw == [("lang", PStr(lang)), ("sort", PInt(sort)), ("dir", PStr(BULK_DIC_DIR))]
    ensures Completable(kw) && Plain([("sort", SortFirstValue(kw))] + OtherParams(kw))
    ensures Rendered([("sort", SortFirstValue(kw))] + OtherParams(kw)) == [("sort", IntToString(sort)), ("dir", BULK_DIC_DIR)]
    ensures LangSuffix(kw) == "/" + lang && Protocol(kw).s == DEF_PROTOCOL
  {
    var rest := [("sort", PInt(sort)), ("dir", PStr(BULK_DIC_DIR))];
    LangListingShape(kw, lang, sort);
    ListingArgs(rest, "dir", PStr(BULK_DIC_DIR), sort);
    assert OtherParams(kw) == OtherParams(rest);
  }

  /** How `[lang, sort, dir]` reads: the language, then `[sort, dir]` once it is popped. */
  lemma LangListingShape(kw: Kwargs, lang: string, sort: int)
    requires kw == [("lang", PStr(lang)), ("sort", PInt(sort)), ("dir", PStr(BULK_DIC_DIR))]
    ensures Remove(kw, "lang") == kw[1..] && LangArg(kw) == PStr(lang) && SortFirstValue(kw) == PInt(sort)
    ensures !Has(kw, "domain") && !Has(kw, "protocol")
  {
    var rest := kw[1..];
    assert !Has(rest, "lang");
    assert rest[0].0 == "sort";
  }

  // ---------------------------------------------------------------------
  // Metabase

  /** `settings.BULK_BASE_NAMES` */
  const BULK_BASE_NAMES: seq<string> := ["dataset", "dimension", "label"]

  /**
   * `__get_member(member, metabase, **kwargs)`: no metabase, or a member
   * outside `BULK_BASE_NAMES`, is refused; for a listed member
   * `list.pop(member)` is handed a string where it wants an index.
   */
  function GetMember(member: string, metabase: Option<seq<Metabase.Record>>): (r: Result<seq<string>>)
    ensures metabase.None? ==> r == Err(EurobaseError("metabase data not found"))
    ensures metabase.Some? && member !in BULK_BASE_NAMES
      ==> r == Err(EurobaseError("member value not recognised - must be any string in: ['dataset', 'dimension', 'label']"))
    ensures metabase.Some? && member in BULK_BASE_NAMES ==> r == Err(TypeError)
  {
    if metabase.None? then Err(EurobaseError("metabase data not found"))
    else if member !in BULK_BASE_NAMES then
      Err(EurobaseError("member value not recognised - must be any string in: ['dataset', 'dimension', 'label']"))
    else Err(TypeError)
  }

  /** `getDatasets(dimension)`, `getDimensions(dataset)`, `getLabels(dimension)` */
  function GetDatasets(metabase: Option<seq<Metabase.Record>>): (r: Result<seq<string>>)
    ensures metabase.None? ==> r == Err(EurobaseError("metabase data not found"))
    ensures metabase.Some? ==> r == Err(TypeError)
  {
    GetMember("dataset", metabase)
  }

  function GetDimensions(metabase: Option<seq<Metabase.Record>>): (r: Result<seq<string>>)
    ensures metabase.None? ==> r == Err(EurobaseError("metabase data not found"))
    ensures metabase.Some? ==> r == Err(TypeError)
  {
    GetMember("dimension", metabase)
  }

  function GetLabels(metabase: Option<seq<Metabase.Record>>): (r: Result<seq<string>>)
    ensures metabase.None? ==> r == Err(EurobaseError("metabase data not found"))
    ensures metabase.Some? ==> r == Err(TypeError)
  {
    GetMember("label", metabase)
  }

  /** No query returns: without a metabase each is refused, with one each fails on `pop`. */
  lemma NoQueryReturns(metabase: Option<seq<Metabase.Record>>)
    ensures GetDatasets(metabase).Err? && GetDimensions(metabase).Err? && GetLabels(metabase).Err?
    ensures metabase.Some? ==>
      GetDatasets(metabase) == Err(TypeError) && GetDimensions(metabase) == Err(TypeError) && GetLabels(metabase) == Err(TypeError)
  {
    assert BULK_BASE_NAMES[0] == "dataset" && BULK_BASE_NAMES[1] == "dimension" && BULK_BASE_NAMES[2] == "label";
  }

  /** `'{}.{}'.format(BULK_BASE_FILE, BULK_BASE_EXT)` */
  const METABASE_FILE: string := BULK_BASE_FILE + "." + BULK_BASE_EXT

  /** `__complete_url(self.url, sort=self.sort, file=basefile)` */
  function MetabaseUrl(url: Py, sort: Py): (r: Result<Py>)
    ensures r.Ok? ==> r.value.PStr?
  {
    CompleteUrl(true, url, [("sort", sort), ("file", PStr(METABASE_FILE))])
  }

  /** The metabase file is asked for by name, `sort` first. */
  lemma MetabaseUrlNamesFile(url: string, sort: int)
    ensures exists head, sep, q ::
      MetabaseUrl(PStr(url), PInt(sort)) == Ok(PStr(head + sep + q))
      && StartsWith(head, Prefix(url, DEF_PROTOCOL)) && (sep == "?" || sep == "&")
      && ParseQuery(q) == [("sort", IntToString(sort)), ("file", "metabase.txt.gz")]
  {
    assert METABASE_FILE == "metabase.txt.gz";
    SortThenKey(url, sort, "file", METABASE_FILE);
  }

  /**
   * `getMetabase()`: the URL is completed and the page loaded, whose
   * failure is the call's; a loaded page (a `(pathname, html)` pair, never
   * `None` or empty) is then followed by a read of `self.BULK_BASE_NAMES`,
   * which the class does not have; nothing past that line runs.
   */
  function GetMetabase(url: Py, sort: Py, loads: Loads): (r: Result<seq<Metabase.Record>>)
    ensures r.Err?
    ensures MetabaseUrl(url, sort).Err? ==> r == Err(MetabaseUrl(url, sort).error)
    ensures MetabaseUrl(url, sort).Ok? && loads(MetabaseUrl(url, sort).value.s).Err?
      ==> r == Err(loads(MetabaseUrl(url, sort).value.s).error)
    ensures MetabaseUrl(url, sort).Ok? && loads(MetabaseUrl(url, sort).value.s).Ok? ==> r == Err(AttributeError)
  {
    match MetabaseUrl(url, sort)
    case Err(e) => Err(e)
    case Ok(u) =>
      match loads(u.s)
      case Err(e) => Err(e)
      case Ok(_) => Err(AttributeError)
  }

  /** `{'gz': 'gzip', 'bz2': 'bz2', 'zip': 'zip'}`, in its order. */
  const COMPRESSIONS: seq<(string, string)> := [("gz", "gzip"), ("bz2", "bz2"), ("zip", "zip")]

  /**
   * `[table[ext] for ext in table if name.endswith(ext)][0]`: the
   * compression of the first extension `name` ends with; none at all is
   * an `IndexError`.
   */
  function FirstCompression(name: string, table: seq<(string, string)>): (r: Result<string>)
    ensures r.Err? <==> forall j :: 0 <= j < |table| ==> !EndsWith(name, table[j].0)
    ensures r.Err? ==> r.error == IndexError
    ensures r.Ok? ==> exists i :: 0 <= i < |table| && EndsWith(name, table[i].0) && r.value == table[i].1
                                 && forall j :: 0 <= j < i ==> !EndsWith(name, table[j].0)
    decreases |table|
  {
    if table == [] then Err(IndexError)
    else if EndsWith(name, table[0].0) then Ok(table[0].1)
    else
      var r := FirstCompression(name, table[1..]);
      assert forall j :: 1 <= j < |table| ==> table[j] == table[1..][j - 1];
      r
  }

  /** The metabase file `txt.gz` is read as gzip. */
  lemma MetabaseIsGzip()
    ensures FirstCompression(BULK_BASE_EXT, COMPRESSIONS) == Ok("gzip")
  {
    assert BULK_BASE_EXT[|BULK_BASE_EXT| - 2..] == "gz";
  }
}
