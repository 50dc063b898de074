/**
 * database.py: the `Database` class, the collection without a cache.
 * Its setters, `setURL` and membership checks are eurobase.py's, with
 * session.py's builder behind `__build_url`; `find_dimensions` and
 * `find_datasets` reach for a `__get_members` the class never defines.
 *
 * The module binds only `requests`, `lxml`, what settings.py defines and
 * session.py's `Session`; the names `string`, `warnings`,
 * `EurobaseError`, `EurobaseWarning` and `Request` it also reads are
 * eurobase.py's. Each member that reads one is modelled over the set of
 * names bound: `DATABASE_NAMES` as written, `INTENDED_NAMES` as meant.
 */
module DatabaseDraft {
  import opened Python
  import opened Text
  import opened UrlCore
  import opened Listing
  import opened Setters
  import opened Drafts
  import Eurobase
  import EsSession
  import FileStore

  /** Every field of a database, as one value. */
  datatype DatabaseState = DatabaseState(domain: Py, query: Py, lang: Py, dimensions: Py, datasets: seq<(Py, Py)>,
                                         url: Option<string>)

  /** The fields `__init__` starts from, before any keyword. */
  const DEFAULT_STATE: DatabaseState :=
    DatabaseState(PStr(BULK_DOMAIN), PStr(BULK_QUERY), PStr(DEF_LANG), PList([]), DefaultGroups(), None)

  /** What the setters keep: string domain and query, a known language, a list or tuple of dimensions. */
  predicate Sound(st: DatabaseState)
  {
    st.domain.PStr? && st.query.PStr? && InStrs(st.lang, LANGS) && (st.dimensions.PList? || st.dimensions.PTuple?)
  }

  /** The names settings.py defines, all of which `from .settings import *` binds. */
  const SETTINGS_NAMES: set<string> :=
    {"PROTOCOLS", "DEF_PROTOCOL", "LANGS", "DEF_LANG", "DEF_SORT", "DEF_FMT", "BULK_DOMAIN", "BULK_QUERY",
     "BULK_DIC_DIR", "BULK_DIC_LIST", "BULK_DIC_EXT", "BULK_DATA_DIR", "BULK_DATA_EXT", "BULK_BASE_FILE",
     "BULK_BASE_EXT", "BULK_BASE_NAMES", "API_DOMAIN", "API_VERS", "API_PRECISION", "KW_DEFAULT", "BS_PARSERS"}

  /** The module-level names of database.py as written. */
  const DATABASE_NAMES: set<string> := {"requests", "lxml", "Session", "Database"} + SETTINGS_NAMES

  /** The names database.py reads that eurobase.py binds and it does not. */
  const BORROWED_NAMES: set<string> := {"string", "warnings", "EurobaseError", "EurobaseWarning", "Request"}

  /** The module-level names database.py evidently means to have. */
  const INTENDED_NAMES: set<string> := DATABASE_NAMES + BORROWED_NAMES

  /** `raise cls(...)`: the exception `e`, or a NameError when `cls` is not bound. */
  function RaisedIn(names: set<string>, cls: string, e: Error): (r: Error)
    ensures cls in names ==> r == e
    ensures cls !in names ==> r == NameError
  {
    if cls in names then e else NameError
  }

  /** The text keywords through their setters; a refused value keeps the old one. */
  function WithTexts(st: DatabaseState, kw: Kwargs): DatabaseState
  {
    st.(domain := Chosen(CheckText(Get(kw, "domain", PNone), "DOMAIN", Eurobase), st.domain),
        query := Chosen(CheckText(Get(kw, "query", PNone), "QUERY", Eurobase), st.query),
        lang := Chosen(CheckLang(Get(kw, "lang", PNone), LANGS, Eurobase), st.lang))
  }

  /** The `dimensions` and `datasets` keywords through their setters. */
  function WithLists(st: DatabaseState, kw: Kwargs): DatabaseState
  {
    st.(dimensions := Chosen(ListOf(Get(kw, "dimensions", PNone)), st.dimensions),
        datasets := Chosen(GroupsOf(Get(kw, "datasets", PNone)), st.datasets))
  }

  /** A text keyword given whose setter refuses it. */
  predicate TextsRefused(kw: Kwargs)
  {
    (Has(kw, "domain") && !Get(kw, "domain", PNone).PStr?)
    || (Has(kw, "query") && !Get(kw, "query", PNone).PStr?)
    || (Has(kw, "lang") && !InStrs(Get(kw, "lang", PNone), LANGS))
  }

  /** A `dimensions` or `datasets` keyword given whose setter refuses it. */
  predicate ListsRefused(kw: Kwargs)
  {
    var dims := Get(kw, "dimensions", PNone);
    var sets := Get(kw, "datasets", PNone);
    (Has(kw, "dimensions") && !(dims.PStr? || dims.PList? || dims.PTuple?))
    || (Has(kw, "datasets") && !(sets.PDict? || sets.PList? || sets.PTuple?))
  }

  /**
   * The database the constructor is meant to leave: the five keywords with
   * a setter go through it, a refused value only warned about; `expire`,
   * `force_download` and `cache` have no setter and change none of these
   * fields.
   */
  function Opened(kw: Kwargs): (st: DatabaseState)
    ensures Sound(st) && st.url.None?
    ensures st.domain == InitDomain(kw) && st.query == InitQuery(kw) && st.lang == InitLang(kw)
  {
    WithLists(WithTexts(DEFAULT_STATE, kw), kw)
  }

  /** No keyword leaves the defaults. */
  lemma OpenedNothing()
    ensures Opened([]) == DEFAULT_STATE
  {
  }

  /**
   * `Database(**kwargs)` over the module-level names `names`: the default
   * groups read `string` (line 86); a refused keyword is warned about,
   * which reads `warnings` and `EurobaseWarning` (line 97).
   */
  function Init(names: set<string>, kw: Kwargs): (r: Result<DatabaseState>)
    ensures r.Ok? ==> r.value == Opened(kw)
    ensures r.Err? ==> r.error == NameError
  {
    if "string" !in names then Err(NameError)
    else if kw == [] then OpenedNothing(); Ok(DEFAULT_STATE)
    else if (TextsRefused(kw) || ListsRefused(kw)) && !("warnings" in names && "EurobaseWarning" in names) then Err(NameError)
    else Ok(Opened(kw))
  }

  /** As written no database can be built: `string` is never imported. */
  lemma ConstructionRaises(kw: Kwargs)
    ensures Init(DATABASE_NAMES, kw) == Err(NameError)
  {
    assert "string" !in DATABASE_NAMES;
  }

  /** With eurobase.py's names bound, every keyword set builds the database `Opened` defines. */
  lemma ConstructionIntended(kw: Kwargs)
    ensures Init(INTENDED_NAMES, kw) == Ok(Opened(kw))
  {
    assert "string" in INTENDED_NAMES && "warnings" in INTENDED_NAMES && "EurobaseWarning" in INTENDED_NAMES;
  }

  /** From the same keywords a database and an eurobase.py collection agree on every field they share. */
  lemma OpenedAsCollections(kw: Kwargs, host: FileStore.Platform)
    ensures var st := Opened(kw); var c := Eurobase.Opened(kw, host);
      st.domain == c.domain && st.query == c.query && st.lang == c.lang
      && st.dimensions == c.dimensions && st.datasets == c.datasets && st.url == c.url
  {
  }

  /** With no `datasets` keyword a database lists no dataset; with a list or tuple it lists exactly its items. */
  lemma OpenedDatasets(kw: Kwargs)
    ensures !Has(kw, "datasets") ==> Flatten(Opened(kw).datasets) == Ok([])
    ensures var v := Get(kw, "datasets", PNone); (v.PList? || v.PTuple?) ==> Flatten(Opened(kw).datasets) == Ok(v.items)
  {
    var v := Get(kw, "datasets", PNone);
    if !Has(kw, "datasets") {
      DefaultGroupsEmpty();
    }
    if v.PList? || v.PTuple? {
      DatasetsRoundTrip(v);
    }
  }

  /**
   * `find_datasets(alpha)` over the names `names`: the letters are
   * `string.ascii_lowercase` (lines 280-283); once `alpha` is accepted, the
   * missing `__get_members` is an AttributeError.
   */
  function FindDatasetsIn(names: set<string>, alpha: Py): (r: Result<map<char, seq<string>>>)
    ensures r.Err?
    ensures "string" !in names ==> r.error == NameError
    ensures "string" in names ==> (r.error == AttributeError <==> CheckAlpha(alpha, Eurobase.ALPHA_UNKNOWN).Ok?)
    ensures "string" in names && CheckAlpha(alpha, Eurobase.ALPHA_UNKNOWN).Err? ==>
      r.error == RaisedIn(names, "EurobaseError", Eurobase.ALPHA_UNKNOWN)
  {
    if "string" !in names then Err(NameError)
    else match CheckAlpha(alpha, RaisedIn(names, "EurobaseError", Eurobase.ALPHA_UNKNOWN))
      case Err(e) => Err(e)
      case Ok(_) => Err(AttributeError)
  }

  /** `find_datasets(alpha)` as written: whatever `alpha` is, `string` is looked up and is not there. */
  function FindDatasetsAsWritten(alpha: Py): (r: Result<map<char, seq<string>>>)
    ensures r == Err(NameError)
  {
    assert "string" !in DATABASE_NAMES;
    FindDatasetsIn(DATABASE_NAMES, alpha)
  }

  /** For the letter `a`, what each namespace gives. */
  lemma FindDatasetsOfA()
    ensures FindDatasetsAsWritten(PStr("a")) == Err(NameError)
    ensures FindDatasetsIn(INTENDED_NAMES, PStr("a")) == Err(AttributeError)
  {
    assert "string" in INTENDED_NAMES;
    assert "a"[0] in LETTERS;
  }

  /** A listing page whose table holds a header row and one dataset file. */
  function OneFilePage(name: string): Option<seq<Table>>
  {
    Some([[[], [Cell(Some(name))]]])
  }

  /** The listing page `OneFilePage` gives names its one file. */
  lemma OneFileMember(url: string)
    ensures MemberNames(_ => OneFilePage("nama_10_gdp.tsv.gz"), url) == Ok(["nama_10_gdp.tsv.gz"])
  {
    var rows: seq<Row> := [[], [Cell(Some("nama_10_gdp.tsv.gz"))]];
    assert !Kept(rows, 0, 1) && Kept(rows, 1, 1);
    assert FirstName(rows, 0) == Ok(Some(["nama_10_gdp.tsv.gz"]));
  }

  /** eurobase.py's `find_datasets('a')` over a one-file listing files the file's stem under `a`. */
  lemma OneFileListed(url: string)
    ensures Drafts.FindDatasets(PStr("a"), url, _ => OneFilePage("nama_10_gdp.tsv.gz")) == Ok(map['a' := ["nama_10_gdp"]])
  {
    var fetch: string -> Option<seq<Table>> := _ => OneFilePage("nama_10_gdp.tsv.gz");
    OneFileMember(DataPrefix(url) + "a");
    StrippedWithExt(["nama_10_gdp"], BULK_DATA_EXT);
    assert "nama_10_gdp" + "." + BULK_DATA_EXT == "nama_10_gdp.tsv.gz";
    assert WithExt(["nama_10_gdp"], BULK_DATA_EXT)[0] == "nama_10_gdp.tsv.gz";
    assert WithExt(["nama_10_gdp"], BULK_DATA_EXT) == ["nama_10_gdp.tsv.gz"];
    assert "a"[..0] == [] && "a"[0] == 'a';
    assert ByLetter("", DataPrefix(url), Reader(fetch), BULK_DATA_EXT) == Ok(map[]);
  }

  /**
   * The finding: for a letter whose listing holds a file, eurobase.py's
   * `find_datasets` (the evidently intended reading) files the file's stem
   * under the letter, where database.py's raises NameError, and with
   * eurobase.py's names bound would still raise on `__get_members`.
   */
  lemma FindDatasetsNeverAnswers(url: string)
    ensures FindDatasetsAsWritten(PStr("a")) == Err(NameError)
    ensures FindDatasetsIn(INTENDED_NAMES, PStr("a")) == Err(AttributeError)
    ensures Drafts.FindDatasets(PStr("a"), url, _ => OneFilePage("nama_10_gdp.tsv.gz")) == Ok(map['a' := ["nama_10_gdp"]])
  {
    FindDatasetsOfA();
    OneFileListed(url);
  }

  /** A refusal `__build_url` raises itself, before session.py's builder is called. */
  predicate OwnRefusal(kw: Kwargs)
  {
    kw != [] && (!Has(kw, "domain") || !InStrs(LangArg(kw), LANGS) || !IsInt(SortLastValue(kw)))
  }

  /** `__build_url(**kwargs)` over the names `names`: its own refusals raise `EurobaseError`. */
  function BuildUrlIn(names: set<string>, kw: Kwargs): Result<Option<string>>
  {
    if OwnRefusal(kw) && "EurobaseError" !in names then Err(NameError)
    else BuildUrlSortLast(EsSession.Builder, kw)
  }

  /**
   * As written each refusal of `__build_url` itself is a NameError; these
   * are exactly the keyword sets the intended builder refuses before
   * calling session.py's, and every other answer is the intended one.
   */
  lemma BuildUrlAsWritten(kw: Kwargs)
    ensures OwnRefusal(kw) ==> BuildUrlSortLast(EsSession.Builder, kw).Err?
    ensures OwnRefusal(kw) ==> BuildUrlIn(DATABASE_NAMES, kw) == Err(NameError)
    ensures !OwnRefusal(kw) ==> BuildUrlIn(DATABASE_NAMES, kw) == BuildUrlSortLast(EsSession.Builder, kw)
  {
    assert "EurobaseError" !in DATABASE_NAMES;
  }

  /** With eurobase.py's names bound, `__build_url` is the builder `BuildUrlSortLast` defines. */
  lemma BuildUrlIntended(kw: Kwargs)
    ensures BuildUrlIn(INTENDED_NAMES, kw) == BuildUrlSortLast(EsSession.Builder, kw)
  {
    assert "EurobaseError" in INTENDED_NAMES;
  }

  class Database {
    var domain: Py
    var query: Py
    var lang: Py
    var dimensions: Py
    var datasets: seq<(Py, Py)>
    var url: Option<string>

    function State(): DatabaseState
      reads this
    {
      DatabaseState(domain, query, lang, dimensions, datasets, url)
    }

    predicate Valid()
      reads this
    {
      Sound(State())
    }

    /** The defaults `__init__` starts from, before any keyword. */
    constructor ()
      ensures State() == DEFAULT_STATE
    {
      domain, query, lang := PStr(BULK_DOMAIN), PStr(BULK_QUERY), PStr(DEF_LANG);
      dimensions, datasets, url := PList([]), DefaultGroups(), None;
    }

    /**
     * `Database(**kwargs)` over the module-level names `names`: the defaults,
     * whose groups read `string`; then, unless no keyword is given, each
     * setter keyword through its setter, a refusal warned about.
     */
    static method OpenIn(names: set<string>, kw: Kwargs) returns (r: Result<Database>)
      ensures r.Ok? <==> Init(names, kw).Ok?
      ensures r.Ok? ==> fresh(r.value) && r.value.State() == Init(names, kw).value
      ensures r.Err? ==> r.error == Init(names, kw).error
    {
      if "string" !in names {
        return Err(NameError);
      }
      var d := new Database();
      if kw == [] {
        OpenedNothing();
        return Ok(d);
      }
      var textsRefused := d.ApplyTexts(kw);
      ghost var texts := d.State();
      assert texts == WithTexts(DEFAULT_STATE, kw);
      var listsRefused := d.ApplyLists(kw);
      if (textsRefused || listsRefused) && !("warnings" in names && "EurobaseWarning" in names) {
        return Err(NameError);
      }
      return Ok(d);
    }

    /** `Database(**kwargs)` as written: line 86 reads `string`, which database.py never imports. */
    static method Open(kw: Kwargs) returns (r: Result<Database>)
      ensures r == Err(NameError)
    {
      ConstructionRaises(kw);
      r := OpenIn(DATABASE_NAMES, kw);
    }

    /** `Database(**kwargs)` with eurobase.py's names bound: the database `Opened` defines. */
    static method OpenAsIntended(kw: Kwargs) returns (d: Database)
      ensures fresh(d) && d.State() == Opened(kw)
    {
      ConstructionIntended(kw);
      var r := OpenIn(INTENDED_NAMES, kw);
      d := r.value;
    }

    // A keyword left out reads as None, which each setter refuses, so the default stays.

    /** The text keywords of `__init__`, each through its setter; whether one given was refused. */
    method ApplyTexts(kw: Kwargs) returns (refused: bool)
      modifies this`domain, this`query, this`lang
      ensures State() == WithTexts(old(State()), kw)
      ensures refused <==> TextsRefused(kw)
    {
      var d := SetDomain(Get(kw, "domain", PNone));
      var q := SetQuery(Get(kw, "query", PNone));
      var l := SetLang(Get(kw, "lang", PNone));
      refused := (Has(kw, "domain") && d.Err?) || (Has(kw, "query") && q.Err?) || (Has(kw, "lang") && l.Err?);
    }

    /** The `dimensions` and `datasets` keywords of `__init__`, each through its setter; whether one given was refused. */
    method ApplyLists(kw: Kwargs) returns (refused: bool)
      modifies this`dimensions, this`datasets
      ensures State() == WithLists(old(State()), kw)
      ensures refused <==> ListsRefused(kw)
    {
      var dims := SetDimensions(Get(kw, "dimensions", PNone));
      var sets := SetDatasets(Get(kw, "datasets", PNone));
      refused := (Has(kw, "dimensions") && dims.Err?) || (Has(kw, "datasets") && sets.Err?);
    }

    // database.py binds no `EurobaseError`: each setter's refusal raises NameError.

    method SetDomain(v: Py) returns (r: Result<()>)
      modifies this`domain
      ensures r.Ok? <==> v.PStr?
      ensures domain == (if r.Ok? then v else old(domain))
      ensures r.Err? ==> r.error == NameError
      ensures old(Valid()) ==> Valid()
    {
      match CheckText(v, "DOMAIN", Eurobase)
      case Err(_) => return Err(NameError);
      case Ok(d) =>
        domain := d;
        return Ok(());
    }

    method SetQuery(v: Py) returns (r: Result<()>)
      modifies this`query
      ensures r.Ok? <==> v.PStr?
      ensures query == (if r.Ok? then v else old(query))
      ensures r.Err? ==> r.error == NameError
      ensures old(Valid()) ==> Valid()
    {
      match CheckText(v, "QUERY", Eurobase)
      case Err(_) => return Err(NameError);
      case Ok(q) =>
        query := q;
        return Ok(());
    }

    method SetLang(v: Py) returns (r: Result<()>)
      modifies this`lang
      ensures r.Ok? <==> InStrs(v, LANGS)
      ensures lang == (if r.Ok? then v else old(lang))
      ensures r.Err? ==> r.error == NameError
      ensures old(Valid()) ==> Valid()
    {
      match CheckLang(v, LANGS, Eurobase)
      case Err(_) => return Err(NameError);
      case Ok(l) =>
        lang := l;
        return Ok(());
    }

    /** The `dimensions` setter: a string becomes a one-item list. */
    method SetDimensions(v: Py) returns (r: Result<()>)
      modifies this`dimensions
      ensures r.Ok? <==> v.PStr? || v.PList? || v.PTuple?
      ensures dimensions == (if r.Ok? then ListOf(v).value else old(dimensions))
      ensures r.Err? ==> r.error == NameError
      ensures old(Valid()) ==> Valid()
    {
      match ListOf(v)
      case Err(_) => return Err(NameError);
      case Ok(d) =>
        dimensions := d;
        return Ok(());
    }

    /** The `datasets` setter: a list or tuple is filed under `_all_`; the groups are replaced, never merged. */
    method SetDatasets(v: Py) returns (r: Result<()>)
      modifies this`datasets
      ensures r.Ok? <==> v.PDict? || v.PList? || v.PTuple?
      ensures datasets == (if r.Ok? then GroupsOf(v).value else old(datasets))
      ensures r.Err? ==> r.error == NameError
      ensures old(Valid()) ==> Valid()
    {
      match GroupsOf(v)
      case Err(_) => return Err(NameError);
      case Ok(g) =>
        datasets := g;
        return Ok(());
    }

    /** `setURL(**kwargs)`: eurobase.py's, over session.py's builder, with the refusals of `__build_url` itself a NameError. */
    method SetUrl(kw: Kwargs) returns (r: Result<()>)
      modifies this`url
      ensures var u := old(BuildUrlIn(DATABASE_NAMES, Eurobase.UrlArgs(kw, domain, query, lang)));
        (r.Ok? <==> u.Ok?) && (r.Err? ==> r.error == u.error)
        && url == (if u.Ok? then u.value else old(url))
    {
      var built := BuildUrlIn(DATABASE_NAMES, Eurobase.UrlArgs(kw, domain, query, lang));
      if built.Err? {
        return Err(built.error);
      }
      url := built.value;
      return Ok(());
    }

    /** `check_dimensions(dimension)`: plain membership, which a database its setters kept always answers. */
    function CheckDimensions(dimension: Py): (r: Result<bool>)
      reads this
      ensures Valid() ==> r == Ok(Holds(dimensions.items, dimension))
    {
      InDimensions(dimension, dimensions)
    }

    /** `check_datasets(dataset)`: plain membership among the datasets the getter lists. */
    function CheckDatasets(dataset: Py): (r: Result<bool>)
      reads this
      ensures Flatten(datasets).Ok? ==> r == Ok(Holds(Flatten(datasets).value, dataset))
      ensures Flatten(datasets).Err? ==> r == Err(TypeError)
    {
      InDatasets(dataset, datasets)
    }

    /**
     * `find_datasets(alpha, **kwargs)`: the letters are looked up in the
     * unbound `string` before `alpha`, the URL or a page is looked at.
     */
    method FindDatasets(alpha: Py, kw: Kwargs) returns (r: Result<map<char, seq<string>>>)
      ensures r == FindDatasetsAsWritten(alpha) && r == Err(NameError)
    {
      r := FindDatasetsIn(DATABASE_NAMES, alpha);
    }

    /**
     * `find_dimensions(**kwargs)`: keywords go to the missing `get_url`;
     * without them the listing URL names `BULK_DIC_FILE`, which settings.py
     * does not define. No page is read either way.
     */
    method FindDimensions(kw: Kwargs) returns (r: Result<seq<string>>)
      ensures kw != [] <==> r == Err(AttributeError)
      ensures kw == [] <==> r == Err(NameError)
    {
      if kw != [] {
        return Err(AttributeError);
      }
      return Err(NameError);
    }
  }
}
