/**
 * pyrostat/settings.py: the constants the `pyrostat` collections read,
 * with the per-kind tables (`BULK_DIR`, `BULK_EXTS`, `BULK_ZIP`,
 * `BULK_FILES`) as functions of the kind.
 */
module PyrostatSettings {

  const LANGS: seq<string> := ["en", "de", "fr"]
  const DEF_LANG: string := "en"
  const DEF_SORT: int := 1
  const BULK_DOMAIN: string := "ec.europa.eu/eurostat/estat-navtree-portlet-prod"
  const BULK_QUERY: string := "BulkDownloadListing"

  /** The keys of the per-kind tables: dictionaries, datasets, the metabase and the table of contents. */
  datatype Kind = Dic | Data | Base | Toc

  /** `BULK_DIR[kind]` */
  function BulkDir(k: Kind): string
  {
    match k
    case Dic => "dic"
    case Data => "data"
    case Base => ""
    case Toc => ""
  }

  /** `BULK_EXTS[kind]`: the accepted extensions, the default first. */
  function BulkExts(k: Kind): (r: seq<string>)
    ensures |r| > 0
  {
    match k
    case Dic => ["dic"]
    case Data => ["tsv", "sdmx"]
    case Base => ["txt"]
    case Toc => ["txt", "xml"]
  }

  /** `BULK_ZIP[kind]`: the compression suffix, empty for none. */
  function BulkZip(k: Kind): string
  {
    match k
    case Dic => "gz"
    case Data => "gz"
    case Base => "gz"
    case Toc => ""
  }

  /** `BULK_FILES[kind]`: the fixed file name of the single-file kinds. */
  function BulkFiles(k: Kind): string
  {
    match k
    case Dic => ""
    case Data => ""
    case Base => "metabase"
    case Toc => "table_of_contents"
  }
}
