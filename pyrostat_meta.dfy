/**
 * pyrostat/collection.py, class `Meta`: the queries over the metabase and
 * the names of the metabase and table-of-contents files. `Meta.__init__`
 * calls `super(Bulk, self)` on an object that is not a `Bulk`, so no
 * `Meta` can be built; its members are modelled as functions of the
 * metabase they read (`None` until one is loaded).
 */
module PyrostatMeta {
  import opened Python
  import opened Text
  import opened Metabase
  import opened PyrostatSettings

  const NO_METABASE: Error := PyroError("metabase data not found - get the file from Eurobase")
  const UNKNOWN_MEMBER: Error := PyroError("member value not recognised - must be any string in: dict_keys(['data', 'dic', 'label'])")
  const MEMBER_AS_KEYWORD: Error := PyroError("member value should not be passed as a keyword argument")
  const NO_BASE_DATA: Error := PyroError("no METABASE data found")
  const NO_MEMBERS: Error := PyroError("no member to perform comparison with")
  const ITEM_TYPE: Error := PyroError("wrong type for ITEM parameter")
  const ITEM_UNKNOWN: Error := PyroError("ITEM not recognised as either a dataset or a dictionary")

  // ---------------------------------------------------------------------
  // __get_member and the queries built on it

  /**
   * `__get_member(member, metabase, **kwargs)`: the distinct values of
   * `member` over the records holding every given column value; keywords
   * naming no column are ignored, and the member itself may not be one.
   */
  function GetMember(member: string, metabase: Option<seq<Record>>, kw: Kwargs): (r: Result<seq<string>>)
    ensures metabase.None? ==> r == Err(NO_METABASE)
    ensures metabase.Some? && member !in COLUMNS ==> r == Err(UNKNOWN_MEMBER)
    ensures metabase.Some? && member in COLUMNS && Has(kw, member) ==> r == Err(MEMBER_AS_KEYWORD)
    ensures r == Err(KeyError) <==>
      metabase.Some? && member in COLUMNS && !Has(kw, member) && Grouped(kw) && Matching(metabase.value, kw) == []
    ensures r.Ok? ==> metabase.Some? && member in COLUMNS && NoDup(r.value)
    ensures r.Ok? ==> forall x :: (x in r.value
      <==> exists row :: row in metabase.value && Matches(row, kw) && Column(row, member) == x)
  {
    if metabase.None? then Err(NO_METABASE)
    else if member !in COLUMNS then Err(UNKNOWN_MEMBER)
    else if Has(kw, member) then Err(MEMBER_AS_KEYWORD)
    else Select(metabase.value, member, kw)
  }

  /** `getAllDatasets(dimension=None)` */
  function GetAllDatasets(metabase: Option<seq<Record>>, dimension: Py): (r: Result<seq<string>>)
    ensures metabase.None? ==> r == Err(NO_METABASE)
    ensures metabase.Some? && dimension.PNone? ==> r.Ok?
    ensures r.Ok? ==> NoDup(r.value)
  {
    if dimension.PNone? then GetMember("data", metabase, [])
    else GetMember("data", metabase, [("dic", dimension)])
  }

  /** `getAllDimensions(dataset)` */
  function GetAllDimensions(metabase: Option<seq<Record>>, dataset: Py): (r: Result<seq<string>>)
    ensures metabase.None? ==> r == Err(NO_METABASE)
    ensures r.Ok? ==> NoDup(r.value)
  {
    GetMember("dic", metabase, [("data", dataset)])
  }

  /** `getAllLabels(dimension, **kwargs)`: a second `dic` keyword is a TypeError at the call. */
  function GetAllLabels(metabase: Option<seq<Record>>, dimension: Py, kw: Kwargs): (r: Result<seq<string>>)
    ensures Has(kw, "dic") ==> r == Err(TypeError)
    ensures !Has(kw, "dic") && metabase.None? ==> r == Err(NO_METABASE)
    ensures r.Ok? ==> NoDup(r.value)
  {
    if Has(kw, "dic") then Err(TypeError)
    else GetMember("label", metabase, [("dic", dimension)] + kw)
  }

  /** `checkDataset(dataset)` */
  function CheckDataset(metabase: Option<seq<Record>>, dataset: Py): (r: Result<bool>)
    ensures metabase.None? ==> r == Err(NO_METABASE)
    ensures metabase.Some? ==> r.Ok?
    ensures r.Ok? && r.value ==> dataset.PStr?
  {
    match GetAllDatasets(metabase, PNone)
    case Err(e) => Err(e)
    case Ok(ds) => Ok(InList(dataset, ds))
  }

  /** `checkDimensionInDataset(dimension, dataset)` */
  function CheckDimensionInDataset(metabase: Option<seq<Record>>, dimension: Py, dataset: Py): (r: Result<bool>)
    ensures metabase.None? ==> r == Err(NO_METABASE)
    ensures r.Ok? && r.value ==> dimension.PStr?
  {
    match GetAllDimensions(metabase, dataset)
    case Err(e) => Err(e)
    case Ok(ds) => Ok(InList(dimension, ds))
  }

  /** `checkLabelInDimension(label, dimension, **kwargs)` */
  function CheckLabelInDimension(metabase: Option<seq<Record>>, lbl: Py, dimension: Py, kw: Kwargs): (r: Result<bool>)
    ensures Has(kw, "dic") ==> r == Err(TypeError)
    ensures !Has(kw, "dic") && metabase.None? ==> r == Err(NO_METABASE)
    ensures r.Ok? && r.value ==> lbl.PStr?
  {
    match GetAllLabels(metabase, dimension, kw)
    case Err(e) => Err(e)
    case Ok(ls) => Ok(InList(lbl, ls))
  }

  /** A loaded metabase lists a dataset exactly when some record names it. */
  lemma CheckDatasetIff(rows: seq<Record>, dataset: Py)
    ensures CheckDataset(Some(rows), dataset)
      == Ok(dataset.PStr? && exists row :: row in rows && row.data == dataset.s)
  {
    assert !Grouped([]);
    var ds := GetMember("data", Some(rows), []).value;
    if dataset.PStr? && exists row :: row in rows && row.data == dataset.s {
      var row :| row in rows && row.data == dataset.s;
      assert Matches(row, []) && Column(row, "data") == dataset.s;
    }
  }

  /**
   * A dimension is found in a dataset exactly when some record pairs them;
   * a dataset no record names is a KeyError rather than `False`.
   */
  lemma CheckDimensionInDatasetIff(rows: seq<Record>, dimension: Py, dataset: Py)
    ensures CheckDimensionInDataset(Some(rows), dimension, dataset).Err?
      <==> !exists row :: row in rows && PStr(row.data) == dataset
    ensures CheckDimensionInDataset(Some(rows), dimension, dataset).Ok? ==>
      CheckDimensionInDataset(Some(rows), dimension, dataset).value
        == (dimension.PStr? && exists row :: row in rows && PStr(row.data) == dataset && row.dic == dimension.s)
  {
    SelectOne(rows, "data", dataset, "dic");
    assert forall row :: Column(row, "data") == row.data && Column(row, "dic") == row.dic;
  }

  /** With no other filter, a label is found in a dimension exactly when some record pairs them. */
  lemma CheckLabelInDimensionIff(rows: seq<Record>, lbl: Py, dimension: Py)
    ensures CheckLabelInDimension(Some(rows), lbl, dimension, []).Err?
      <==> !exists row :: row in rows && PStr(row.dic) == dimension
    ensures CheckLabelInDimension(Some(rows), lbl, dimension, []).Ok? ==>
      CheckLabelInDimension(Some(rows), lbl, dimension, []).value
        == (lbl.PStr? && exists row :: row in rows && PStr(row.dic) == dimension && row.lbl == lbl.s)
  {
    assert [("dic", dimension)] + [] == [("dic", dimension)];
    SelectOne(rows, "dic", dimension, "label");
    assert forall row :: Column(row, "dic") == row.dic && Column(row, "label") == row.lbl;
  }

  /** Every query needs a loaded metabase. */
  lemma QueriesNeedMetabase(d: Py, e: Py, kw: Kwargs)
    requires !Has(kw, "dic")
    ensures GetAllDatasets(None, d) == Err(NO_METABASE)
    ensures GetAllDimensions(None, d) == Err(NO_METABASE)
    ensures GetAllLabels(None, d, kw) == Err(NO_METABASE)
    ensures CheckDataset(None, d) == Err(NO_METABASE)
    ensures CheckDimensionInDataset(None, d, e) == Err(NO_METABASE)
    ensures CheckLabelInDimension(None, d, e, kw) == Err(NO_METABASE)
  {
  }

  // ---------------------------------------------------------------------
  // The listing properties and check(item)

  /** The `datasets` property: the distinct dataset codes, in file order. */
  function Datasets(metabase: Option<seq<Record>>): (r: Result<seq<string>>)
    ensures metabase.None? <==> r == Err(NO_BASE_DATA)
    ensures r.Ok? ==> NoDup(r.value) && forall x :: (x in r.value <==> exists row :: row in metabase.value && row.data == x)
  {
    if metabase.None? then Err(NO_BASE_DATA)
    else
      var vs := Values(metabase.value, "data");
      assert forall row :: row in metabase.value ==> row.data in vs;
      Ok(Unique(vs))
  }

  /** The `dictionaries` property: the distinct dimension codes, in file order. */
  function Dictionaries(metabase: Option<seq<Record>>): (r: Result<seq<string>>)
    ensures metabase.None? <==> r == Err(NO_BASE_DATA)
    ensures r.Ok? ==> NoDup(r.value) && forall x :: (x in r.value <==> exists row :: row in metabase.value && row.dic == x)
  {
    if metabase.None? then Err(NO_BASE_DATA)
    else
      var vs := Values(metabase.value, "dic");
      assert forall row :: row in metabase.value ==> row.dic in vs;
      Ok(Unique(vs))
  }

  /** `__check_member(member, members)`: nothing to compare with is an error, not `False`. */
  function CheckMember(member: Py, members: Option<seq<string>>): (r: Result<bool>)
    ensures r.Err? <==> members.None? || members.value == []
    ensures r.Err? ==> r.error == NO_MEMBERS
    ensures r.Ok? ==> (r.value <==> member.PStr? && member.s in members.value)
  {
    if members.None? || members.value == [] then Err(NO_MEMBERS)
    else Ok(InList(member, members.value))
  }

  /** `check_dictionary(dictionary)` */
  function CheckDictionary(metabase: Option<seq<Record>>, dictionary: Py): (r: Result<bool>)
    ensures metabase.None? ==> r == Err(NO_BASE_DATA)
    ensures metabase.Some? ==> (r.Err? <==> metabase.value == [])
    ensures r.Err? ==> r.error in {NO_BASE_DATA, NO_MEMBERS}
    ensures r.Ok? ==> (r.value <==> dictionary.PStr? && exists row :: row in metabase.value && row.dic == dictionary.s)
  {
    match Dictionaries(metabase)
    case Err(e) => Err(e)
    case Ok(ds) => CheckMember(dictionary, Some(ds))
  }

  /** `check_dataset(dataset)` */
  function CheckDatasetListed(metabase: Option<seq<Record>>, dataset: Py): (r: Result<bool>)
    ensures metabase.None? ==> r == Err(NO_BASE_DATA)
    ensures metabase.Some? ==> (r.Err? <==> metabase.value == [])
    ensures r.Err? ==> r.error in {NO_BASE_DATA, NO_MEMBERS}
    ensures r.Ok? ==> (r.value <==> dataset.PStr? && exists row :: row in metabase.value && row.data == dataset.s)
  {
    match Datasets(metabase)
    case Err(e) => Err(e)
    case Ok(ds) => CheckMember(dataset, Some(ds))
  }

  /**
   * `check(item)`: an item that is neither a dataset nor a dictionary is
   * refused before the comparison, so the answer, when there is one, is
   * always `True`.
   */
  function Check(metabase: Option<seq<Record>>, item: Py): (r: Result<bool>)
    ensures !item.PStr? ==> r == Err(ITEM_TYPE)
    ensures item.PStr? && metabase.None? ==> r == Err(NO_BASE_DATA)
    ensures item.PStr? && metabase.Some? ==>
      r == if exists row :: row in metabase.value && (row.data == item.s || row.dic == item.s)
           then Ok(true) else Err(ITEM_UNKNOWN)
  {
    if !item.PStr? then Err(ITEM_TYPE)
    else match Dictionaries(metabase)
      case Err(e) => Err(e)
      case Ok(dics) =>
        var ds := Datasets(metabase).value;
        if item.s !in dics && item.s !in ds then Err(ITEM_UNKNOWN)
        else
          assert ds != [] by {
            var row :| row in metabase.value && (row.data == item.s || row.dic == item.s);
            assert row.data in ds;
          }
          match CheckDatasetListed(metabase, item)
          case Err(e) => Err(e)
          case Ok(b) => if b then Ok(b) else CheckDictionary(metabase, item)
  }

  // ---------------------------------------------------------------------
  // File names

  /** The `compression` argument `readMetabase` derives from the compression suffix. */
  function Compression(zip: string): (r: Result<string>)
    ensures r.Ok? <==> zip in ["gz", "bz2", "zip"]
  {
    if zip == "gz" then Ok("gzip")
    else if zip == "bz2" then Ok("bz2")
    else if zip == "zip" then Ok("zip")
    else Err(KeyError)
  }

  /** The metabase file name as `readMetabase` writes it: the list of extensions is formatted whole. */
  function MetabaseFileAsWritten(): string
  {
    var exts := BulkExts(Base);
    var basefile := BulkFiles(Base) + "." + Str(PList(seq(|exts|, i requires 0 <= i < |exts| => PStr(exts[i]))));
    if BulkZip(Base) != "" then basefile + "." + BulkZip(Base) else basefile
  }

  /** The name it produces holds the list's brackets and quotes, so no metabase file is ever addressed. */
  lemma MetabaseFileAsWrittenHoldsList()
    ensures MetabaseFileAsWritten() == "metabase.['txt'].gz"
    ensures MetabaseFileAsWritten() != MetabaseFile()
  {
    BaseExtsStr();
    assert MetabaseFileAsWritten() == "metabase" + "." + "['txt']" + "." + "gz";
    assert MetabaseFileAsWritten()[9] == '[' != MetabaseFile()[9];
  }

  /** The metabase's list of extensions, printed: `['txt']`. */
  lemma BaseExtsStr()
    ensures var exts := BulkExts(Base);
      Str(PList(seq(|exts|, i requires 0 <= i < |exts| => PStr(exts[i])))) == "['txt']"
  {
    var exts := BulkExts(Base);
    assert exts == ["txt"];
    assert seq(|exts|, i requires 0 <= i < |exts| => PStr(exts[i])) == [PStr("txt")];
    PlainListStr("txt");
  }

  /** `str([x])` for a plain text `x`: the text between quotes and brackets. */
  lemma PlainListStr(x: string)
    requires '\'' !in x && '"' !in x && '\\' !in x && '\t' !in x && '\n' !in x && '\r' !in x
    ensures Str(PList([PStr(x)])) == "['" + x + "']"
  {
    PlainStrRepr(x);
    var v := PList([PStr(x)]);
    assert ReprItems(v, 0) == Repr(v.items[0]);
  }

  /** The intended metabase file name: the base name, its (single) extension and the compression suffix. */
  function MetabaseFile(): string
  {
    var basefile := BulkFiles(Base) + "." + BulkExts(Base)[0];
    if BulkZip(Base) != "" then basefile + "." + BulkZip(Base) else basefile
  }

  /** The intended name splits back into base name, extension and suffix, and the suffix names a known compression. */
  lemma MetabaseFileReadsBack()
    ensures Split(MetabaseFile(), '.') == [BulkFiles(Base), BulkExts(Base)[0], BulkZip(Base)]
    ensures Compression(BulkZip(Base)) == Ok("gzip")
  {
    var parts: seq<string> := ["metabase", "txt", "gz"];
    assert MetabaseFile() == parts[0] + "." + parts[1] + "." + parts[2];
    JoinThree(parts[0], parts[1], parts[2], '.');
    forall k | 0 <= k < |parts| ensures '.' !in parts[k] {
      assert forall i :: 0 <= i < |parts[k]| ==> parts[k][i] != '.';
    }
    SplitJoin(parts, '.');
  }

  const TOC_EXT_UNKNOWN: Error := PyroError("bulk table of contents extension EXT not recognised")
  const LANG_UNKNOWN: Error := PyroError("language LANG not recognised")

  /** The extension `readToc` asks for; `txt` by default. */
  function TocExt(kw: Kwargs): Py
  {
    Get(kw, "ext", PStr(BulkExts(Toc)[0]))
  }

  /** The language `readToc` asks for; the collection's own (unchecked) language by default. */
  function TocLang(kw: Kwargs, lang: Py): Py
  {
    if Has(kw, "lang") then Get(kw, "lang", PNone) else lang
  }

  /**
   * The table-of-contents file name `readToc` requests: the XML table is
   * language-free, the text table carries the language; an extension or a
   * given language outside the accepted lists is refused.
   */
  function TocFile(kw: Kwargs, lang: Py): (r: Result<string>)
    ensures r.Ok? <==> InStrs(TocExt(kw), BulkExts(Toc)) && (Has(kw, "lang") ==> InStrs(Get(kw, "lang", PNone), LANGS))
    ensures !InStrs(TocExt(kw), BulkExts(Toc)) ==> r == Err(TOC_EXT_UNKNOWN)
    ensures r.Ok? ==> StartsWith(r.value, BulkFiles(Toc)) && EndsWith(r.value, "." + TocExt(kw).s)
  {
    var ext := TocExt(kw);
    if !InStrs(ext, BulkExts(Toc)) then Err(TOC_EXT_UNKNOWN)
    else if Has(kw, "lang") && !InStrs(Get(kw, "lang", PNone), LANGS) then Err(LANG_UNKNOWN)
    else
      var name := if ext.s == "xml" then BulkFiles(Toc) + ".xml"
        else BulkFiles(Toc) + "_" + Str(TocLang(kw, lang)) + "." + ext.s;
      assert name[..|BulkFiles(Toc)|] == BulkFiles(Toc);
      assert name[|name| - |"." + ext.s|..] == "." + ext.s;
      Ok(if BulkZip(Toc) != "" then name + "." + BulkZip(Toc) else name)
  }

  /** A text table of contents in a given language splits back into its stem with the language, and the extension. */
  lemma TocFileReadsBack(kw: Kwargs, lang: Py)
    requires TocFile(kw, lang).Ok? && TocExt(kw) == PStr("txt")
    requires '.' !in Str(TocLang(kw, lang))
    ensures Split(TocFile(kw, lang).value, '.') == [BulkFiles(Toc) + "_" + Str(TocLang(kw, lang)), "txt"]
  {
    var stem := BulkFiles(Toc) + "_" + Str(TocLang(kw, lang));
    assert TocFile(kw, lang).value == stem + "." + "txt";
    assert '.' !in stem by {
      assert stem == "table_of_contents_" + Str(TocLang(kw, lang));
    }
    SplitPair(stem, "txt", '.');
  }
}
