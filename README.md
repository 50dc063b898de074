# A verified model of the bulk-download URL, cache and listing core

The repository is a small Python library, written in roughly ten
overlapping drafts, that fetches tables from the Eurostat bulk-download
service. Every draft repeats the same core:

- it composes request URLs from a domain, a `path`, a `query` and keyword
  parameters, each draft with its own quirks about the separator before
  the parameters, where `sort` goes, and a trailing `/lang`;
- it keeps downloaded pages on disk under the MD5 digest of their URL and
  decides by age whether a stored page is still fresh;
- it reads entry names off the HTML listing pages and strips their
  extensions;
- it answers queries over the metabase, the flat table of
  dataset/dimension/label records;
- it validates every field through a setter, and composes the names of the
  files it downloads.

This project models that core in Dafny, draft by draft, and proves what
each draft's code promises, including where it breaks its own promise.

Modules:

- `UrlCore` (urls.dfy) is the shared URL builder over a `Dialect`, which
  fixes three things: whether a `?` follows the query, how the parameters
  are attached, and the error an unknown protocol raises. The draft
  builders are `EsSession.Builder` (session.py), `Requests.Builder`
  (requests.py, whose unknown-protocol error is a NameError because the
  error class is never imported), `PyrostatSession.Builder`
  (pyrostat/session.py) and `Eurobase.RequestBuilder` (eurobase.py).
- `EsSession` and `PyrostatSession` model the two sessions:
  - the cache file name;
  - freshness, with each draft's own reading of `0` and `None`;
  - the fetch-through over a `FileStore.Disk` (a map from path to file or
    directory), a `FileStore.Transport` whose calls are counted, and the
    clock as a parameter;
  - the validating setters.
- `Listing` models the row filters (`__filter_table`, `__read_members`)
  and the letter-by-letter listing loops. `Text` holds the string
  operations they use.
- `Metabase` and `PyrostatMeta` model the `Meta` queries of
  pyrostat/collection.py and its metabase and table-of-contents file names.
- `PyrostatCollection` models `__Base`/`Bulk`:
  - URL composition, with `sort` first and `/lang` last;
  - the setters;
  - the file `read` requests;
  - the bookkeeping of `read_html_table`.
- `Drafts` holds what the older drafts share:
  - their settings;
  - the `update_url`/`__complete_url` (`sort` first or kept in place) and
    `__build_url` (`sort` re-appended last) wrappers;
  - their membership tests;
  - `find_datasets`/`find_dimensions`.
- `EsdataCollection`, `Bulkdata`, `CollectionDraft` and `DatabaseDraft`
  are the classes of esdata/collection.py, bulkdata.py, collection.py and
  database.py. database.py reads `string`, `warnings`, `EurobaseError`,
  `EurobaseWarning` and `Request` without binding them (it imports only
  `requests`, `lxml`, settings.py and `Session`), so `DatabaseDraft`
  models each member that reads one over the set of names bound: as
  written, and with eurobase.py's names added as intended. As written no
  `Database` can be built.
- `Eurobase` is eurobase.py. Its `Collections` class takes its builder as
  a constant. collections.py's `Collections` differs from eurobase.py's in
  two ways. It calls requests.py's builder. It also lacks the cache helpers
  `__write_to_cache` and `__read_from_cache` (eurobase.py:781-800), which
  its `__get_members` calls (collections.py:317-319). In both classes
  `__get_members` is modelled as a page fetch (see "Left out"), so
  `CollectionsDraft` is eurobase.py's class over requests.py's builder.
- `Python` models the Python values the code handles (`Py`), keyword
  arguments as an ordered association list (`Kwargs`), and the exceptions
  as `Error`. `Setters` holds the checks the setters of every draft
  repeat.

Where the library's own design notes and its code disagree, the model
follows the code:

- A list-valued parameter is not expanded into repeated `k=v` pairs. The
  comprehension yields a list of `(k, item)` pairs, which is unpacked as
  one `(k, v)`: a two-item list or tuple renders as
  `('k', a)=('k', b)`, and any other length raises ValueError
  (`UrlCore.Pair`).
- Only the pyrostat, esdata and bulkdata drafts put `sort` first.
  eurobase.py, collections.py and database.py re-append it last, and
  collection.py leaves the order alone.
- An expiry of `0` means "always stale" only in session.py and
  pyrostat/session.py. requests.py, eurobase.py and collections.py treat
  `0` like `None`, as never expiring.

## Model

| member | source | states |
|---|---|---|
| UrlCore.Pair | session.py:248-254 | a list or tuple value that is not a pair fails to unpack (ValueError); a scalar value renders as `k=str(v)` |
| UrlCore.Pairs | session.py:254 | one rendered `k=v` per parameter, or ValueError |
| UrlCore.Filters | session.py:254 | the `&`-joined parameters fail only by ValueError |
| UrlCore.Head | session.py:243-246 | the head before the parameters starts with the prefixed domain |
| UrlCore.Attach | session.py:247-265 | no parameter leaves the head unchanged; a built URL starts with the head; the only failures are the unpacking ValueError and the unbound separator |
| UrlCore.BuildUrl | session.py:236-266 | the builder fails only on a non-string domain, an unknown protocol, a bad parameter value or an unbound separator |
| UrlCore.SeparatorAlwaysBound | session.py:256-264 | a dialect whose separator is always bound (session.py's and requests.py's builders) fails only on a non-string domain, an unknown protocol or a parameter that does not unpack |
| UrlCore.PairsPlain | session.py:254 | plain parameters render one `k=str(v)` each, in insertion order |
| UrlCore.FiltersRoundTrip | session.py:248-254 | reading the joined parameter string back gives every parameter, in insertion order, with its `str()` text (no percent-encoding) |
| UrlCore.HeadWithoutMark | session.py:243-246 | without a query mark the head is the prefix, then `/path`, then `/query`, each after one `/` |
| UrlCore.PrefixStartsWithProtocol | session.py:236-242 | the prefixed domain starts with the protocol name and ends with the domain stripped of `/` |
| UrlCore.UnknownProtocolRefused | session.py:237-240 | a dialect's own exception is raised exactly when the protocol is not http, https or ftp |
| UrlCore.BuildUrlHead | session.py:236-247 | a built URL starts with the prefixed domain; with no parameter left it is the head alone |
| UrlCore.BuiltUrlNonEmpty | session.py:236-247 | a URL the builder returns is never the empty string |
| UrlCore.BuildUrlParams | session.py:247-265 | with plain parameters the URL is the head, one separator and a parameter string that reads back as the parameters in order |
| UrlCore.AttachAfterMark | session.py:256-264 | the separator is `&` when the last `/`-segment already holds a `?`, and `?` otherwise |
| UrlCore.AttachUnbound | pyrostat/session.py:339-344 | parameters after a last segment ending in neither `?` nor `/` leave `sep` unbound, and the call fails |
| UrlCore.HeadBare | session.py:243-247 | without `path` or `query` the head is the prefixed domain |
| UrlCore.QueryOnly | pyrostat/session.py:324-325 | a query alone gives the prefixed domain, `/`, the query and the dialect's `?` mark |
| UrlCore.BuildUrlNoParams | session.py:247 | with no parameter left no separator is added |
| Requests.ProtocolRefused | requests.py:161-164 | an unknown protocol fails as a NameError (the exception class is not imported), and nothing else fails that way |
| Requests.NoParametersNoMark | requests.py:160-171 | with no parameter: prefixed domain, `/path`, `/query`, and no `?` |
| Requests.ParamsAfterQuestion | requests.py:171-183 | with parameters: the head, one `?` whatever the head holds, and the parameters, which read back in insertion order |
| Requests.IsCached | requests.py:317-327 | missing file: not cached; `None` or `0` (or False): always fresh; otherwise fresh while younger than `expire`; a non-number raises TypeError |
| Requests.DefaultNeverExpires | requests.py:318-323 | under the default `0` a stored file is fresh however old it is |
| Requests.PositiveLimitIsAge | requests.py:324-326 | with a positive limit a file is fresh exactly while younger than the limit |
| EsSession.ProtocolRefused | session.py:237-240 | an unknown protocol raises EurobaseError, and only then |
| EsSession.NoParametersNoMark | session.py:236-247 | with no parameter: prefixed domain, `/path`, `/query`, and no `?` |
| EsSession.ParamsAfterMark | session.py:247-265 | with parameters: the head, then `&` if its last segment holds a `?` else `?`, then the parameters, read back in order |
| EsSession.BuildPathname | session.py:411-420 | no cache: the bare digest; a cache directory: the digest joined under it; any other cache value raises |
| EsSession.IsCached | session.py:440-453 | missing file: not cached; the int `0`: expired; `None`: fresh; otherwise age below the limit; a non-number raises TypeError |
| EsSession.Load | session.py:380-410 | a bad cache path raises first; the page is downloaded exactly when the call is forced or the stored file is not fresh, and the freshness test is skipped for a forced call; a download the transport does not answer raises "wrong request formulated"; without a download the disk is unchanged; a page returned comes from the transport when downloaded and from the stored file otherwise, under the cache path |
| EsSession.CachedPageNotFetched | session.py:397-410 | not forced and cached: no transport call and the file system unchanged |
| EsSession.NoCacheNothingWritten | session.py:401-408 | without a cache directory a download is returned under its bare digest and nothing is written |
| EsSession.DownloadIsStored | session.py:397-405 | a download into a cache directory leaves the text at the returned path, stamped now, inside the directory |
| EsSession.FreshnessErrorReturned | session.py:396-397 | an error of the freshness test of a call that is not forced is raised before any transport call, with the disk unchanged |
| EsSession.UnansweredIsError | session.py:397-399 | a page the transport does not deliver is an error whenever the call is forced or the stored file is not fresh |
| EsSession.LoadedIsSaved | session.py:397-405 | a download into a cache directory is the write of the response under the cache path |
| EsSession.SecondRequestServedFromDisk | session.py:380-410 | right after a download, the same request with no limit or a positive one is answered from disk with the same text and no transport call |
| EsSession.ZeroTimeOutAlwaysFetches | session.py:443-444 | a `0` time-out always downloads again |
| EsSession.ForcedAlwaysFetches | session.py:396 | a forced call always downloads, without testing freshness: it behaves as an unforced call with a `0` time-out, even where the time-out would make the freshness test raise |
| EsSession.TimedeltaTimeOutRaises | session.py:176-181 | a timedelta time-out, which the setter accepts, makes the freshness test of a stored page raise |
| EsSession.CheckTimeOut | session.py:176-181 | `time_out` accepts an int at least 0 (a bool included) or a timedelta |
| EsSession.CheckCache | session.py:166-169 | `cache` accepts a string only and keeps its absolute path |
| EsSession.CheckForceDownload | session.py:188-191 | `force_download` accepts a bool only |
| EsSession.Session.constructor | session.py:119-131 | defaults no cache, `0`, not forced; each session keyword given goes through its setter, and a refused value is ignored with a warning |
| EsSession.SessionBuildsIff | session.py:192-197 | the transport session is built exactly when no keyword other than `time_out`, `force_download` and `cache` is left for it |
| EsSession.Session.Create | session.py:119-134 | construction raises "wrong definition for SESSION parameter" exactly when a keyword other than the three session keywords is given; otherwise the session holds the accepted cache, time-out and forcing |
| EsSession.Session.SetCache | session.py:166-169 | a string is stored as its absolute path, anything else refused with the field unchanged |
| EsSession.Session.SetTimeOut | session.py:176-181 | stores exactly the accepted time-outs; the other fields unchanged |
| EsSession.Session.SetForceDownload | session.py:188-191 | stores a bool, refuses the rest |
| EsSession.Session.CacheFor | session.py:393 | a call's cache is the keyword when truthy, else the field when non-empty, else `None` |
| EsSession.Session.TimeOutFor | session.py:394 | a call's time-out is the keyword when truthy, else the field when truthy, else `0`: an explicit `0` never wins |
| EsSession.Session.ForceFor | session.py:395 | a call is forced when the keyword or the field is |
| EsSession.Session.LoadPage | session.py:380-410 | the disk and transport afterwards are those of the fetch-through function; the transport is called once exactly when the page is downloaded, and a forced call never tests freshness |
| EsSession.Session.IsCachedUrl | session.py:456-463 | the freshness of a URL's file under the session's settings: a missing file or a `0` time-out is not cached |
| Text.StripEnds | session.py:236 | what `domain.strip("/")` leaves neither starts nor ends with `/` |
| Text.StripCutsOnly | session.py:236 | `strip` cuts away only copies of the character, on either side of what it leaves |
| Text.StripIdempotent | session.py:236 | stripping twice is stripping once |
| Text.Split | pyrostat/collection.py:542 | `split` gives at least one part and no part holds the separator |
| Text.SplitJoin | pyrostat/collection.py:542 | splitting a join on a separator none of the parts holds gives the parts back |
| Text.BeforeFirst | pyrostat/collection.py:542 | `split('.')[0]` is a prefix free of `.`, followed by the first `.` when there is one |
| Text.BeforeFirstOfSuffixed | pyrostat/collection.py:556 | a name followed by `.` and an extension keeps only the name |
| Text.AfterLast | session.py:258 | `rsplit('/',1)[1]` is the text after the last `/`, and fails exactly when there is none |
| Text.AfterLastKeepsEnd | pyrostat/session.py:340-341 | when the URL does not end with `/`, its last segment ends as the URL does |
| Text.RemoveAll | collection.py:243 | `replace(pat, '')` never lengthens a name |
| Text.RemoveAllUntouched | collection.py:243 | a name that never holds the first character of the pattern is left unchanged |
| Text.RemoveAllSuffix | collection.py:266 | removing the extension a name was given returns the name |
| Text.Lower | pyrostat/session.py:205 | `lower()` on ASCII letters: each upper-case ASCII letter becomes its lower case, every other character is kept, length kept |
| Text.PathJoin | session.py:419 | `os.path.join(a, b)` ends with `b`; for a non-empty `a` it starts with `a` and a `/` comes right before `b` |
| FileStore.SaveUnder | session.py:401-405 | a successful write leaves the directory made and the body at the path, stamped now; an error is the not-a-directory error or an OSError; a directory that exists takes any non-directory path |
| FileStore.Disk.MakeDirs | session.py:402-403 | `os.makedirs` adds the directory, and refuses the empty path |
| FileStore.Disk.Write | session.py:422-429 | a write stores the content stamped now, and is refused on a directory |
| FileStore.Disk.Read | session.py:432-438 | a read returns a file's content, and is refused on a missing path or a directory |
| FileStore.Transport.Get | session.py:322-362 | the transport answers as its response function and logs the request |
| FileStore.LessThan | session.py:451 | `age < limit` is answered only for a number (an int or bool) and compares with its value |
| Python.Or | session.py:393 | `a or b` is `a` when truthy and `b` otherwise |
| Python.Get | eurobase.py:611-614 | `kw.get(k, d)` is the default for a missing key and otherwise the value of an entry under `k` |
| Python.Remove | eurobase.py:610 | after `kw.pop(k)` the key is gone and every other entry is kept |
| Python.Put | eurobase.py:621 | `kw.update({k: v})` reads back `v` under `k`; an existing key keeps its place, a new key goes last |
| Python.PutOther | eurobase.py:621 | updating one key leaves the presence and value of every other key unchanged |
| Python.GetRemove | eurobase.py:610 | popping one key leaves the value under every other key unchanged |
| Python.Without | session.py:237-246 | the dictionary left once the named keys are popped: exactly the other entries, in order |
| Python.PyEqRefl | eurobase.py:771-775 | Python `==` holds between every value and itself, so every item of a list is `in` it |
| Python.HoldsItem | eurobase.py:771-775 | an item of a list is `in` that list |
| Python.HoldsStr | eurobase.py:771-775 | a string is `in` a list exactly when an equal string is an item: no number, bool or container equals a string |
| Python.IntHeldAsBool | eurobase.py:771-775 | `1 in [True]` and `True in [1]` hold although the values differ: bools compare as the ints 1 and 0 |
| Python.DictOrderIgnored | eurobase.py:771-775 | two dicts with the same entries in another order are `==` |
| Python.QuoteFor | pyrostat/collection.py:806-808 | `repr` of a text quotes with `"` exactly when the text holds `'` and no `"`, and with `'` otherwise |
| Python.EscapedPlain | pyrostat/collection.py:806-808 | a text holding neither the quote, a backslash nor a tab, newline or carriage return is shown unchanged between the quotes |
| Python.PlainStrRepr | pyrostat/collection.py:806-808 | a plain text is shown between single quotes as it is |
| Python.SingleQuoteSwitchesQuote | pyrostat/collection.py:806-808 | a text holding `'` and no `"` is shown between double quotes, unescaped |
| Listing.Collect | bulkdata.py:319-332 | the names of a table fail only by AttributeError (a first cell without a link) and are never more than its rows |
| Listing.CollectOk | bulkdata.py:325-331 | the table reads without error exactly when every kept row (past the first two, with cells) links its first cell |
| Listing.CollectNames | bulkdata.py:325-331 | a name is read exactly when some kept row links it from its first cell |
| Listing.CollectOfHeader | bulkdata.py:328-329 | rows that are all skipped give no name |
| Listing.CollectIgnoresHeader | bulkdata.py:328-329 | whatever the skipped rows hold, the names are the same |
| Listing.CollectErrPersists | bulkdata.py:331 | a failing row fails the whole table |
| Listing.FilterTable | pyrostat/collection.py:579-588 | the loop with its 1-based counter returns the names of the first table |
| Listing.FirstName | eurobase.py:711-723 | the loop whose `return` sits in its body reads at most one name and fails only by AttributeError |
| Listing.ReadMembers | eurobase.py:706-723 | `__read_members`: `None` for an empty page, else the loop as written over the first table |
| Listing.FirstNameOfCollect | eurobase.py:711-723 | of all the names a listing holds past its first row, only the first is read |
| Listing.FirstNameFrom | eurobase.py:711-723 | from any row on, the loop reads the first kept row's name |
| Listing.NoKeptNoNames | eurobase.py:719-720 | with no kept row nothing is collected |
| Listing.KeptFirstHeadsNames | eurobase.py:721-723 | the first kept row gives the first collected name |
| Listing.Stripped | collection.py:243 | each name with every `.ext` removed, one per name |
| Listing.Stems | pyrostat/collection.py:556 | each name cut at its first `.`, one per name |
| Listing.WithExt | bulkdata.py:279 | the file names a listing shows: each stem, a dot, the extension |
| Listing.StrippedWithExt | bulkdata.py:279-280 | removing `.ext` from the files of dot-free stems gives the stems back |
| Listing.StemsWithExt | pyrostat/collection.py:542 | cutting the files of dot-free stems at the first dot gives the stems back, whatever the extension |
| Listing.CheckAlpha | eurobase.py:739-744 | `None` walks all 26 letters, one lower-case letter walks itself, anything else is refused |
| Listing.ByLetterContents | eurobase.py:747-752 | the walk succeeds exactly when every letter's page reads, and files each letter's stripped names under it, and only those letters |
| Listing.FillByLetter | collection.py:258-267 | the loop over the letters builds the dictionary of the walk |
| Listing.ByLetterErrPersists | collection.py:258-267 | a page that fails early fails the whole walk with its own error |
| Listing.AppendByLetter | bulkdata.py:273-281 | the loop appending each letter's names builds the list of the walk |
| Listing.AllLettersErrPersists | bulkdata.py:273-281 | a page that fails early fails the whole list with its own error |
| Listing.AllLettersIsConcat | bulkdata.py:273-281 | the list is the letters' names concatenated in letter order, and succeeds exactly when the dictionary walk does |
| Listing.ReadAsWritten | session.py:519-528 | a listing page read as written always raises: the load's own error when the load fails, otherwise TypeError from unpacking the `None` that `read_html_table` returns for a `(pathname, html)` pair |
| Listing.WalksNeverRead | bulkdata.py:273-281 | read as written, a walk over any non-empty letters raises the first letter's error, as a dictionary and as a list |
| Metabase.Values | pyrostat/collection.py:738 | the column of every record, in table order |
| Metabase.Unique | pyrostat/collection.py:738 | `unique().tolist()` holds exactly the values of the list, each once |
| Metabase.UniqueOfDistinct | pyrostat/collection.py:738 | a list with no repeated value is its own distinct list |
| Metabase.UniqueIdempotent | pyrostat/collection.py:738 | taking the distinct values twice changes nothing |
| Metabase.Matching | pyrostat/collection.py:730-735 | the records of the group are exactly the records holding every filter's value |
| Metabase.MatchingAll | pyrostat/collection.py:736-737 | without a filter on a column the group is the whole table |
| Metabase.MatchingNone | pyrostat/collection.py:736-737 | when no record holds the filtered values the group is empty, the case `get_group` refuses |
| Metabase.Select | pyrostat/collection.py:729-738 | distinct member values over the group; an empty group of a filtered table is a KeyError, and only that fails |
| Metabase.SelectValues | pyrostat/collection.py:738 | the values of the group are the member values of the matching records |
| Metabase.Known | pyrostat/collection.py:729 | only keywords naming a column are kept |
| Metabase.UnknownKeysIgnored | pyrostat/collection.py:729 | keywords naming no column change no query |
| Metabase.MatchingSame | pyrostat/collection.py:730-735 | two filter sets accepting the same records form the same group |
| Metabase.SelectOne | pyrostat/collection.py:732-735 | filtering on one column fails exactly when no record holds the value, and otherwise gives the member values of the records that do |
| PyrostatMeta.GetMember | pyrostat/collection.py:720-738 | no metabase, an unknown member and a member passed as a keyword each raise; otherwise the distinct member values of the matching records, or KeyError for an empty group |
| PyrostatMeta.GetAllDatasets | pyrostat/collection.py:754-760 | no metabase raises; with one and no dimension every dataset is listed without error; a listing names each dataset once |
| PyrostatMeta.GetAllDimensions | pyrostat/collection.py:761-764 | no metabase raises; a listing names each dimension once |
| PyrostatMeta.GetAllLabels | pyrostat/collection.py:765-770 | a second `dic` keyword is a TypeError at the call; otherwise no metabase raises; a listing names each label once |
| PyrostatMeta.CheckDataset | pyrostat/collection.py:772-786 | no metabase raises; a loaded one always answers, and answers `True` only for a string |
| PyrostatMeta.CheckDimensionInDataset | pyrostat/collection.py:787-791 | no metabase raises; `True` only for a string dimension |
| PyrostatMeta.CheckLabelInDimension | pyrostat/collection.py:792-795 | a second `dic` keyword is a TypeError; otherwise no metabase raises; `True` only for a string label |
| PyrostatMeta.CheckDatasetIff | pyrostat/collection.py:772-786 | a loaded metabase lists a dataset exactly when some record names it |
| PyrostatMeta.CheckDimensionInDatasetIff | pyrostat/collection.py:787-791 | a dimension is in a dataset exactly when some record pairs them; an unknown dataset is a KeyError |
| PyrostatMeta.CheckLabelInDimensionIff | pyrostat/collection.py:792-795 | a label is in a dimension exactly when some record pairs them; an unknown dimension is a KeyError |
| PyrostatMeta.QueriesNeedMetabase | pyrostat/collection.py:721-722 | every query without a loaded metabase raises |
| PyrostatMeta.Datasets | pyrostat/collection.py:649-653 | the distinct dataset codes, each once; no metabase raises |
| PyrostatMeta.Dictionaries | pyrostat/collection.py:657-661 | the distinct dimension codes, each once; no metabase raises |
| PyrostatMeta.CheckMember | pyrostat/collection.py:697-704 | nothing to compare with raises; otherwise membership of a string |
| PyrostatMeta.CheckDictionary | pyrostat/collection.py:705-706 | no metabase raises "no METABASE data found", an empty one "no member to perform comparison with", each exactly then; otherwise a dictionary is found exactly when it is a string some record names as its dimension |
| PyrostatMeta.CheckDatasetListed | pyrostat/collection.py:707-708 | no metabase raises "no METABASE data found", an empty one "no member to perform comparison with", each exactly then; otherwise a dataset is found exactly when it is a string some record names |
| PyrostatMeta.Check | pyrostat/collection.py:708-716 | a non-string raises; an item that is neither dataset nor dictionary raises; otherwise the answer is always `True` |
| PyrostatMeta.Compression | pyrostat/collection.py:814-816 | only gz, bz2 and zip name a compression |
| PyrostatMeta.MetabaseFileAsWrittenHoldsList | pyrostat/collection.py:806-808 | the name formatted from the list of extensions is `metabase.['txt'].gz`, not the intended file |
| PyrostatMeta.MetabaseFileReadsBack | pyrostat/collection.py:806-816 | the intended name splits into base name, extension and suffix, and the suffix is gzip |
| PyrostatMeta.TocFile | pyrostat/collection.py:838-853 | an extension or given language outside the accepted lists is refused; the name starts with the table-of-contents base and ends with the extension |
| PyrostatMeta.TocFileReadsBack | pyrostat/collection.py:850-851 | a text table of contents splits back into its stem with the language, and the extension |
| PyrostatSession.ProtocolRefused | pyrostat/session.py:317-319 | an unknown protocol raises pyroError, and only then |
| PyrostatSession.QueryAloneEndsWithMark | pyrostat/session.py:324-326 | a URL built with a query and no other parameter ends in `?` |
| PyrostatSession.QueryHeadTakesNoSeparator | pyrostat/session.py:339-341 | a head ending in `query?` takes the parameters with an empty separator |
| PyrostatSession.ParamsFollowQuery | pyrostat/session.py:324-344 | after a query the parameters follow the `?` directly and read back in insertion order |
| PyrostatSession.ParamsWithoutQueryFail | pyrostat/session.py:339-344 | without path or query, parameters after a domain ending in neither `?` nor `/` leave `sep` unbound and the call fails |
| PyrostatSession.UnboundWithoutQuery | pyrostat/session.py:339-344 | a bare head that binds no separator fails the call whatever the parameters |
| PyrostatSession.DomainUnbound | pyrostat/session.py:316-321 | a domain that gets the protocol prefix and ends in neither `?` nor `/` binds no separator |
| PyrostatSession.PrefixedDomainUnbound | pyrostat/session.py:340-341 | a prefixed domain ending in neither `?` nor `/` binds no separator |
| PyrostatSession.IsCached | pyrostat/session.py:555-567 | missing file: not cached; `None` or a negative limit: fresh; `0`: expired; otherwise age below the limit; a non-number raises TypeError |
| PyrostatSession.DefaultCache | pyrostat/session.py:525-547 | a non-string or unknown backend raises; a known one gives `eurobase`, the platform directory joined with the package, or nothing |
| PyrostatSession.DefaultCacheCaseSensitive | pyrostat/session.py:546-547 | a server backend spelled in anything but lower case gives no cache directory |
| PyrostatSession.CachePath | pyrostat/session.py:419-424 | the MD5 name under the cache directory, or under `./` when caching is off; a non-path raises |
| PyrostatSession.Fetch | pyrostat/session.py:412-443 | a cache that is not a path raises first; the page is downloaded exactly when the call is forced or the stored file is not fresh, and the freshness test is skipped for a forced call; an unanswered request raises; without a download the disk is unchanged; a page returned sits under a string cache, from the transport when downloaded and from the stored file otherwise |
| PyrostatSession.CachedPageNotFetched | pyrostat/session.py:425-443 | not forced and cached: no transport call, the file system unchanged |
| PyrostatSession.DownloadIsStored | pyrostat/session.py:425-437 | a download leaves the body at the returned path, stamped now, inside the cache directory |
| PyrostatSession.SecondRequestServedFromDisk | pyrostat/session.py:412-443 | right after a download the same request with a limit other than `0` is answered from disk, same body, no transport call |
| PyrostatSession.JustStoredRead | pyrostat/session.py:438-443 | a file stored now inside the cache directory is read back under no limit or any limit other than `0` |
| PyrostatSession.StoredPageRead | pyrostat/session.py:438-443 | a fresh stored file inside the cache directory is read back without a transport call |
| PyrostatSession.ZeroLimitAlwaysFetches | pyrostat/session.py:564-565 | a `0` limit always downloads again |
| PyrostatSession.ForcedAlwaysFetches | pyrostat/session.py:425 | a forced call always downloads, without testing freshness: it behaves as an unforced call with a `0` limit |
| PyrostatSession.CheckCache | pyrostat/session.py:180-187 | `cache` accepts `None`, a string or a bool; switching caching on needs a caching library |
| PyrostatSession.CheckBackend | pyrostat/session.py:195-208 | `None` gives `sqlite`; a string naming one of the six backends in any case is stored lower-cased when its library is present; the rest is refused |
| PyrostatSession.CheckExpireAfter | pyrostat/session.py:214-221 | `None` or an int at least 0 is accepted; a timedelta fails in `int()`; the rest is refused |
| PyrostatSession.CheckForceDownload | pyrostat/session.py:226-231 | `force_download` accepts `None` or a bool |
| PyrostatSession.Session.constructor | pyrostat/session.py:164-168 | defaults: caching on, no backend, not forced, no expiry |
| PyrostatSession.Session.SetCache | pyrostat/session.py:180-187 | stores exactly the accepted values; a refused one leaves the field |
| PyrostatSession.Session.SetCacheBackend | pyrostat/session.py:195-208 | stores the lower-cased accepted backend; a refused one leaves the field |
| PyrostatSession.Session.SetExpireAfter | pyrostat/session.py:214-221 | stores exactly the accepted values; a refused one leaves the field |
| PyrostatSession.Session.SetForceDownload | pyrostat/session.py:226-231 | stores exactly the accepted values; a refused one leaves the field |
| PyrostatSession.Session.CacheFor | pyrostat/session.py:414-416 | a call's cache is never `True` (it resolves to the default directory) and never the empty string |
| PyrostatSession.Session.GetResponse | pyrostat/session.py:405-443 | the result and disk afterwards are those of the fetch-through function, and the URL is requested once exactly when the page is downloaded, and a forced call never tests freshness |
| PyrostatSettings.BulkExts | pyrostat/settings.py:121-124 | every kind accepts at least one extension, the default being the first |
| Setters.CheckText | pyrostat/collection.py:211-215 | the `domain`, `protocol` and `query` setters accept exactly the strings, store them unchanged and otherwise raise "wrong type for … parameter" |
| Setters.CheckLang | pyrostat/collection.py:251-257 | the `lang` setter accepts exactly the supported languages; a string outside them raises "language not supported" |
| Setters.CheckSort | pyrostat/collection.py:323-329 | the `sort` setter accepts exactly the positive integers |
| Setters.TableOf | pyrostat/collection.py:339-348 | a string becomes a one-entry table mapping it to `None`, a dict with string keys is kept entry for entry, a list or tuple fails inside `zip_longest`, and nothing else is accepted |
| PyrostatCollection.StaticArgsFacts | pyrostat/collection.py:148-154 | `_url_static` writes the collection's domain and protocol in, drops `lang` and leaves every other entry as the caller gave it |
| PyrostatCollection.StaticKeeps | pyrostat/collection.py:148-154 | after `_url_static` a key other than `lang`, `domain` and `protocol` is present exactly when the caller passed it, and reads the caller's value |
| PyrostatCollection.StaticSortQuery | pyrostat/collection.py:148-154 | the `sort` left by `_url_static` is the caller's, so the sort `_url_dynamic` then picks is the caller's, else the collection's or the default; a caller's `query` survives |
| PyrostatCollection.DynamicArgsFacts | pyrostat/collection.py:409-418 | `Bulk._url_dynamic` puts `sort` first (the caller's, else the collection's, else the default), adds the collection's query only when the call has none and keeps every other entry |
| PyrostatCollection.SentArgs | pyrostat/collection.py:159-163 | the keywords handed to the shared builder are `sort` first, the collection's domain and protocol, a query whenever call or collection has one, and otherwise exactly the caller's parameters in the caller's order |
| PyrostatCollection.SentReachesBuilder | pyrostat/collection.py:159-165 | the shared builder receives the collection's domain and protocol and the parameters `sort` first, then the caller's |
| PyrostatCollection.Url | pyrostat/collection.py:421-426 | the URL ends with `/lang` when a language other than `None` is named, and is that suffix alone when the shared builder fails |
| PyrostatCollection.UrlSortFirst | pyrostat/collection.py:421-426 | the URL is the prefixed domain and query ending in `?`, a parameter string that reads back `sort` first and then the caller's parameters, and `/lang` when a language is named |
| PyrostatCollection.BadDomainSwallowed | pyrostat/collection.py:164-167 | a domain that is not a string makes the builder fail, the failure is swallowed and only the language suffix remains |
| PyrostatCollection.BadProtocolSwallowed | pyrostat/collection.py:164-167 | an unknown protocol is swallowed the same way |
| PyrostatCollection.FileName | pyrostat/collection.py:492-495 | the requested file sits under the kind's bulk directory and ends in its extension and compression suffix |
| PyrostatCollection.FileNameParts | pyrostat/collection.py:492-495 | a dictionary file is `dic/<lang>/<name>.<ext>.gz`, a dataset file `data/<name>.<ext>.gz` |
| PyrostatCollection.BaseName | pyrostat/collection.py:484-485 | the base name ends in the extension followed by the kind's compression suffix |
| PyrostatCollection.ReadFile | pyrostat/collection.py:470-495 | naming neither `dic` nor `data` raises the "needs to be set" error and naming both the "incompatible" error, each exactly then; the call succeeds exactly when one is named and the extension is one of its kind's, and the file then lies under the kind's directory with the right suffix |
| PyrostatCollection.ReadDatasetFile | pyrostat/collection.py:494-495 | a dataset file splits on `/` into the data directory and a base name whose stem is the dataset |
| PyrostatCollection.ReadDimensionFile | pyrostat/collection.py:492-493 | a dimension file splits on `/` into the dictionary directory, the language and a base name whose stem is the dimension |
| PyrostatCollection.StemOfBaseName | pyrostat/collection.py:484-495 | the part of a base name before its first dot is the name it was made from |
| PyrostatCollection.EmptyDimensionReadsNone | pyrostat/collection.py:492-493 | an empty dimension name is falsy, so `dimension or dataset` writes `None` into the file name |
| PyrostatCollection.PlanLookup | pyrostat/collection.py:429-452 | a failed lookup changes no table, and only the table named by the key can change |
| PyrostatCollection.LookInIdempotent | pyrostat/collection.py:436-446 | a second lookup in the table the first one left finds the same thing and changes nothing |
| PyrostatCollection.LookupIdempotent | pyrostat/collection.py:429-452 | the `alpha: None` placeholder a lookup inserts reads as "not yet fetched", so repeating the call asks for the same download and leaves the tables as they are |
| PyrostatCollection.UpperCaseKeyFails | pyrostat/collection.py:430-448 | the key is checked in any case but used as written: `DIC` with a letter fails on the missing table, without one on `BULK_DIR` |
| PyrostatCollection.DefaultFields | pyrostat/collection.py:283-314 | a new collection takes each URL field from the keyword of the same name, else the bulk domain and query, the default protocol and sort 1 |
| PyrostatCollection.Bulk.constructor | pyrostat/collection.py:283-314 | the keywords override the defaults without any check, the tables start empty and the main URL is built from the resulting fields |
| PyrostatCollection.Bulk.SetMainurl | pyrostat/collection.py:171-198 | the main URL becomes the one the collection's fields and the keywords build, nothing else changes |
| PyrostatCollection.Bulk.SetDomain | pyrostat/collection.py:211-215 | succeeds exactly for a string, which is then stored; otherwise the domain is unchanged |
| PyrostatCollection.Bulk.SetProtocol | pyrostat/collection.py:224-228 | succeeds exactly for a string, which is then stored; otherwise the protocol is unchanged |
| PyrostatCollection.Bulk.SetQuery | pyrostat/collection.py:237-241 | succeeds exactly for a string, which is then stored; otherwise the query is unchanged |
| PyrostatCollection.Bulk.SetLang | pyrostat/collection.py:251-257 | succeeds exactly for a supported language, which is then stored; otherwise the language is unchanged |
| PyrostatCollection.Bulk.SetSort | pyrostat/collection.py:323-329 | succeeds exactly for a positive integer, which is then stored; otherwise the sort is unchanged |
| PyrostatCollection.Bulk.SetDictionaries | pyrostat/collection.py:339-348 | the dictionary table is replaced, never merged, by the accepted table, and kept on a refusal |
| PyrostatCollection.Bulk.SetDatasets | pyrostat/collection.py:364-373 | the dataset table is replaced, never merged, by the accepted table, and kept on a refusal |
| PyrostatCollection.Bulk.ReadHtmlTable | pyrostat/collection.py:429-457 | the result and both tables after the call are those of the lookup plan on the tables before it |
| PyrostatCollection.FileOnlyArgs | pyrostat/collection.py:496 | a call naming only a file sends the default sort, then the file, with no language suffix |
| PyrostatCollection.Bulk.ReadUrl | pyrostat/collection.py:460-497 | the URL `read` fetches fails exactly when the file name is refused, with the same error |
| PyrostatCollection.ReadUrlSortThenFile | pyrostat/collection.py:496 | the URL `read` fetches has a query string that reads back as `sort` and then `file` naming the file |
| Drafts.InitDomain | eurobase.py:454-472 | a collection's domain is always a string: the keyword when its setter accepts it, else the bulk domain |
| Drafts.InitQuery | eurobase.py:456-472 | a collection's query is always a string: the keyword when its setter accepts it, else the bulk query |
| Drafts.InitLang | eurobase.py:455-472 | a collection's language is always a supported one: the keyword when its setter accepts it, else English |
| Drafts.ListOf | eurobase.py:511-516 | the `dimensions` setter accepts exactly a string, a list or a tuple; a string becomes a one-item list, a list or tuple is kept as given |
| Drafts.GroupsOf | eurobase.py:523-528 | the `datasets` setter accepts exactly a dict, a list or a tuple; a dict is kept, a list or tuple is filed under `_all_` |
| Drafts.Iterate | eurobase.py:521 | a list or tuple iterates its items, and only a list, tuple, string or dict can be iterated at all |
| Drafts.Flatten | eurobase.py:521 | the `datasets` getter can only fail with a TypeError, on a group it cannot iterate |
| Drafts.DatasetsRoundTrip | eurobase.py:520-528 | the getter gives back, item for item, the list or tuple of datasets the setter was given |
| Drafts.FlattenLists | eurobase.py:521 | groups that all hold lists flatten to exactly the items of their lists |
| Drafts.FlattenEmpty | eurobase.py:521 | groups that all hold empty lists flatten to nothing |
| Drafts.DefaultGroupsEmpty | eurobase.py:458 | a fresh collection, one empty list per letter, lists no dataset |
| Drafts.CheckExpire | eurobase.py:545-550 | the `expire` setter accepts exactly a timedelta or an int at least 0, and stores it unchanged |
| Drafts.IsMember | eurobase.py:771-775 | `member in members` with Python's `==`: a list or tuple holds a value equal to some item (so `1 in [True]`), a keys view holds exactly its string keys and raises TypeError for an unhashable member, and `None` raises TypeError |
| Drafts.KeysRefuseUnhashable | esdata/collection.py:480-490 | a keys view answers `False` for a number, and raises TypeError for a list or a tuple holding a list |
| Drafts.ListedComparesByValue | eurobase.py:771-775 | `1 in [True]` holds, `'1' in [1]` does not |
| Drafts.CheckMember | collection.py:300-306 | the checked membership test raises "no members to compare to" for `None` and for the empty list, and raises exactly then or for an unhashable member of a keys view |
| Drafts.CheckMemberIsMembership | collection.py:300-306 | wherever the checked test answers, it answers as plain membership does |
| Drafts.CheckMemberRefusesEmpty | collection.py:301-302 | only the empty list is refused among empty collections: an empty tuple or keys view holds nothing, and an empty keys view still refuses an unhashable member |
| Drafts.InDimensions | eurobase.py:776-777 | a dimension is held when it is `==` to an item of the list or tuple the setter keeps; anything else raises TypeError |
| Drafts.InDatasets | eurobase.py:778-779 | a dataset is held when it is `==` to one of the flattened datasets, and fails as the getter does |
| Drafts.InDatasetsOfGroups | eurobase.py:778-779 | over groups that all hold lists, a dataset is held exactly when some group holds a value `==` to it |
| Drafts.CompleteUrl | esdata/collection.py:218-235 | with no keyword the domain comes back untouched; a language other than `None` outside the supported ones is refused; otherwise the URL ends in the language suffix |
| Drafts.PoppedKeys | esdata/collection.py:222-230 | popping `lang` or `sort` brings in no `domain` and leaves the protocol as it was |
| Drafts.SortFirstInQuery | esdata/collection.py:218-235 | the completed URL is the prefixed domain, one separator, a parameter string that reads back as `sort` (the caller's or 1) and then the caller's other parameters in order, and `/lang` last |
| Drafts.SortThenKey | esdata/collection.py:314 | a listing URL asked for with a sort and one plain parameter reads back as `sort` and then that parameter |
| Drafts.OrderKept | collection.py:270-281 | without the reordering, the parameter string reads back as the caller's parameters other than `lang`, in the caller's order, and no `sort` is added |
| Drafts.BuildUrlSortLast | eurobase.py:604-625 | no keyword gives `None`; a missing domain and an absent or unsupported language are refused with their own errors; any URL built ends in `/lang` |
| Drafts.WithLang | eurobase.py:623-624 | the language is appended after a `/` at the very end |
| Drafts.SortLastArgsFacts | eurobase.py:617-621 | `sort` is popped and put back by `update`, so the builder receives the other parameters in order and then `sort`, under the caller's protocol |
| Drafts.SortEmittedLast | eurobase.py:604-625 | the URL is the prefixed domain, one separator, a parameter string that reads back as the caller's other parameters in order and then `sort`, and `/lang` after it all |
| Drafts.MemberNames | eurobase.py:706-723 | the `return` inside the loop keeps at most the first listed name, and a page with no content gives `None`, which the caller cannot iterate |
| Drafts.FindDatasets | eurobase.py:738-742 | a letter other than a lower-case one is refused with "unrecognised parameter alpha" |
| Drafts.FindDatasetsContents | eurobase.py:738-754 | the result files exactly the letters asked for, each with at most one name, the listing's first entry stripped of `.tsv.gz` |
| Drafts.FindDimensions | eurobase.py:726-735 | the dimensions found number at most one |
| Drafts.FindDimensionsStem | eurobase.py:731-734 | a page whose first entry is `<stem>.dic` gives back exactly that stem |
| Bulkdata.DatasetsUrl | bulkdata.py:272 | a completed dataset listing URL is a string |
| Bulkdata.CollectDatasets | bulkdata.py:270-281 | the loop over the letters returns the dataset list its specification defines |
| Bulkdata.BulkDatasetsByLetter | bulkdata.py:270-281 | the list reads exactly when every letter's page reads, and is then the stripped names of the pages `a` to `z`, one after another |
| Bulkdata.BulkDatasets | bulkdata.py:270-272 | a URL that cannot be completed fails the listing with the completion's error |
| Bulkdata.DatasetListingNeverRead | bulkdata.py:273-279 | as written, once the URL is completed the dataset listing raises the error of the page for `a` (its load's, else TypeError), so it never returns |
| Bulkdata.PagesByLetter | bulkdata.py:273-280 | the walk over the letters under any prefix reads exactly when every page reads, and is then their names in order |
| Bulkdata.DatasetsUrlSortFirst | bulkdata.py:300-317 | the dataset listing is asked for with `sort` first and then `dir=data` |
| Bulkdata.DimensionsUrl | bulkdata.py:290 | a completed dimension listing URL is a string |
| Bulkdata.BulkDimensionsStems | bulkdata.py:289-297 | a listing of dictionary files `<stem>.dic` gives back exactly their stems, in order |
| Bulkdata.BulkDimensions | bulkdata.py:289-297 | a URL that cannot be completed fails with its error; a listing read holds one stripped name per name of the page |
| Bulkdata.DimensionListingNeverRead | bulkdata.py:290-294 | as written, once the URL is completed the dimension listing raises its page's error (its load's, else TypeError), so it never returns |
| Bulkdata.DimensionsUrlSortFirst | bulkdata.py:300-317 | the dimension listing is asked for with `sort` first, then `dir=dic`, and `/lang` after the whole URL |
| Bulkdata.GetMember | bulkdata.py:368-376 | no metabase is refused, a member outside the base names is refused with the list of accepted ones, and a listed member fails on `list.pop` given a string |
| Bulkdata.NoQueryReturns | bulkdata.py:358-376 | `getDatasets`, `getDimensions` and `getLabels` never return a result: without a metabase they are refused, with one they fail on `pop` |
| Bulkdata.MetabaseUrlNamesFile | bulkdata.py:388-389 | the metabase is asked for by its file name `metabase.txt.gz`, `sort` first |
| Bulkdata.GetMetabase | bulkdata.py:387-394 | `getMetabase` never returns a table: a URL that cannot be completed raises its error, a page that does not load raises the load's error, and a loaded page fails reading `self.BULK_BASE_NAMES`, which the class does not define |
| Bulkdata.GetDatasets | bulkdata.py:358-360 | `getDatasets` without a metabase raises "metabase data not found", and with one fails with TypeError |
| Bulkdata.GetDimensions | bulkdata.py:361-363 | `getDimensions` without a metabase raises "metabase data not found", and with one fails with TypeError |
| Bulkdata.GetLabels | bulkdata.py:364-366 | `getLabels` without a metabase raises "metabase data not found", and with one fails with TypeError |
| Bulkdata.FirstCompression | bulkdata.py:397-398 | the compression is that of the first extension the name ends with, and there is none exactly when it ends with no listed extension |
| Bulkdata.MetabaseIsGzip | bulkdata.py:397-398 | the metabase file `txt.gz` is read as gzip |
| Bulkdata.MetabaseUrl | bulkdata.py:389 | a completed metabase URL is a string |
| EsdataCollection.InitSort | esdata/collection.py:95-106 | a collection's sort is always a positive integer: the keyword when its setter accepts it, else 1 |
| EsdataCollection.KeywordsReadBack | esdata/collection.py:100-108 | valid `domain`, `lang`, `sort` and `query` keywords read back unchanged, and the URL is then the prefixed domain and `/query` with no parameter |
| EsdataCollection.InitsReadBack | esdata/collection.py:100-106 | valid values given to the constructor are the ones the setters keep |
| EsdataCollection.AttributesOnlyUrl | esdata/collection.py:265-269 | with no keyword left for `setURL`, the URL is the prefixed domain and `/query`, nothing more |
| EsdataCollection.StartUrl | esdata/collection.py:100-108 | the constructor raises "wrong definition for SESSION parameter" exactly when a keyword no setter takes is not a session keyword; otherwise its URL is the one the leftover keywords build |
| EsdataCollection.UnknownKeywordRefused | esdata/collection.py:107 | any keyword that is neither a collection keyword nor `time_out`, `force_download` or `cache` makes the constructor raise |
| EsdataCollection.DirRefused | esdata/collection.py:107 | `Collection(dir='data')` raises "wrong definition for SESSION parameter" |
| EsdataCollection.LeftoverKeywordsInUrl | esdata/collection.py:100-108 | the session keywords, which `setSession` reads from a copy and never pops, each reach the URL as a parameter, in the caller's order |
| EsdataCollection.BuiltWithParams | esdata/collection.py:269 | with the default protocol and plain parameters the shared builder's parameter string reads back as those parameters |
| EsdataCollection.LeftoverArgs | esdata/collection.py:265-269 | with only session keywords, the builder receives the keywords and then the collection's query |
| EsdataCollection.HeldIn | esdata/collection.py:473-476 | `item in collection` is refused with "wrong type for ITEM parameter" exactly for a non-string |
| EsdataCollection.HeldInChecksBoth | esdata/collection.py:473-490 | `__contains__` answers as `check_dimension` or `check_dataset`, which compare with keys views and so answer even over an empty table |
| EsdataCollection.Collection.Contains | esdata/collection.py:473-476 | `item in collection` raises "wrong type for ITEM parameter" exactly for a non-string, and otherwise holds exactly when the item names a dimension or a dataset |
| EsdataCollection.Collection.CheckDimension | esdata/collection.py:487-488 | `check_dimension` raises TypeError exactly for an unhashable value, and holds for a string exactly when it names a dimension, even over an empty table |
| EsdataCollection.Collection.CheckDataset | esdata/collection.py:489-490 | `check_dataset` raises TypeError exactly for an unhashable value, and holds for a string exactly when it names a dataset, even over an empty table |
| EsdataCollection.StoredNamesHeld | esdata/collection.py:171-197 | a table set from a string holds exactly that string, one set from a dict exactly the dict's keys |
| EsdataCollection.GroupBy | esdata/collection.py:521-523 | the grouping columns are exactly the remaining names found among the keywords, each with the keyword's value |
| EsdataCollection.Group | esdata/collection.py:524-525 | grouping by no column fails with ValueError; an answer lists without repetition exactly the member column of the matching records |
| EsdataCollection.GetMember | esdata/collection.py:512-525 | no metabase, or a member not (or no longer) among the shared names, is refused and changes nothing; a known member is popped from the shared names for good, and an answer is the member column of the records matching the remaining keywords |
| EsdataCollection.GetDatasets | esdata/collection.py:502-504 | without a metabase, or once `dataset` is not among the shared names, the query raises and leaves the names; an answer pops `dataset` and lists each value once |
| EsdataCollection.GetDimensions | esdata/collection.py:505-507 | without a metabase, or once `dimension` is not among the shared names, the query raises and leaves the names; an answer pops `dimension` and lists each value once |
| EsdataCollection.GetLabels | esdata/collection.py:508-510 | without a metabase, or once `label` is not among the shared names, the query raises and leaves the names; an answer pops `label` and lists each value once |
| EsdataCollection.EntityQueriesRefused | esdata/collection.py:502-507 | `dataset` and `dimension` are values of the shared names, never keys, so `getDatasets` and `getDimensions` are always refused |
| EsdataCollection.PopLabel | esdata/collection.py:520 | popping `label` from the shared names leaves `data` and `dic` |
| EsdataCollection.AnsweredOnce | esdata/collection.py:515-520 | a member answered once is popped from the shared names and refused from then on |
| EsdataCollection.LabelsAnsweredOnce | esdata/collection.py:508-520 | `label` is answered at most once per process: every later query is refused, its message listing only `data` and `dic` |
| EsdataCollection.GroupByIgnores | esdata/collection.py:521-523 | a keyword no remaining name selects never changes the group |
| EsdataCollection.DimensionKeywordIgnored | esdata/collection.py:508-510 | the `dimension` keyword `getLabels` adds names no column, so it never narrows the group |
| EsdataCollection.GroupByNone | esdata/collection.py:521-523 | without any selecting keyword the group is asked for by nothing |
| EsdataCollection.LabelsNeedAColumn | esdata/collection.py:508-524 | `getLabels` without a `data` or `dic` keyword groups by nothing, which pandas refuses |
| EsdataCollection.NoColumnNoGroup | esdata/collection.py:521-523 | keywords naming neither column group by nothing |
| EsdataCollection.UngroupedMember | esdata/collection.py:520-524 | a known member whose remaining names select no keyword fails as an empty grouping does |
| EsdataCollection.SelectByDimension | esdata/collection.py:524-525 | grouping by one dimension gives exactly the labels of its records, and a KeyError exactly when it has none |
| EsdataCollection.LabelsOfADimension | esdata/collection.py:508-525 | the first `getLabels` with a `dic` keyword returns exactly the labels of that dimension's records, and fails exactly when there are none |
| EsdataCollection.DicGroup | esdata/collection.py:521-523 | a lone `dic` keyword is the whole group once `label` is popped |
| EsdataCollection.LabelsOfGroup | esdata/collection.py:508-525 | `getLabels` grouped by `dic` alone answers with exactly the labels of that dimension |
| EsdataCollection.TocName | esdata/collection.py:556-573 | the name is refused exactly for an extension or a given language outside the accepted lists, and otherwise starts with the base and ends with the extension |
| EsdataCollection.TocAsWrittenNamesMetabase | esdata/collection.py:570-573 | as written, the XML table of contents is requested as `metabase.xml`, where `table_of_contents.xml` is meant |
| EsdataCollection.TocFileReadsBack | esdata/collection.py:573 | a text table of contents splits back into the file stem with its language, and the extension |
| EsdataCollection.TocUrl | esdata/collection.py:576 | whatever base names the file, a table-of-contents name that is refused refuses the URL with the same error |
| EsdataCollection.TocUrlNamesFile | esdata/collection.py:576 | whatever base names the file, the table of contents is asked for by its file name, `sort` first |
| EsdataCollection.Collection.ReadTocUrl | esdata/collection.py:552-576 | as written the file is named after the metabase file: a refused name refuses the request with the same error; with a URL set and an int `sort`, the query is `sort`, then `file=` that name |
| EsdataCollection.LastUpdateEntry | esdata/collection.py:284-295 | naming neither `dic` nor `data` and naming both are refused with their own errors, each exactly then; otherwise the named entry is looked up |
| EsdataCollection.LastUpdateNoneIsAbsent | esdata/collection.py:285-289 | a keyword given as `None` counts as not given |
| EsdataCollection.BaseNames.constructor | esdata/settings.py:91 | the shared names start as the settings dictionary |
| EsdataCollection.Opened | esdata/collection.py:83-108 | a constructed collection has a string domain and query, a supported language, a positive sort, no metabase, and a URL exactly when the session and then the URL build from the leftover keywords |
| EsdataCollection.OpenedInSteps | esdata/collection.py:100-108 | when the session builds, the constructor is the defaults, then the text keywords, then the tables, then the URL of the keywords left |
| EsdataCollection.Collection.constructor | esdata/collection.py:88-98 | a collection starts from the defaults |
| EsdataCollection.Collection.Open | esdata/collection.py:83-108 | construction succeeds exactly when the session and then the URL build from the leftover keywords, fails with the session's or the builder's error otherwise, leaves the state its specification defines, and holds a new session |
| EsdataCollection.Collection.SetSession | esdata/collection.py:200-204 | a session is set exactly when one builds from the keywords; otherwise "wrong definition for SESSION parameter" is raised and the old one kept |
| EsdataCollection.Collection.ApplyTexts | esdata/collection.py:100-106 | `domain`, `query`, `lang` and `sort` go through their setters; a refused value keeps the old one |
| EsdataCollection.Collection.ApplyTables | esdata/collection.py:100-106 | `dimensions` and `datasets` go through their setters; a refused value keeps the old table |
| EsdataCollection.Collection.ApplyKeywords | esdata/collection.py:100-106 | the keyword loop of `__init__` leaves the collection as the text keywords and then the table keywords through their setters make it, and leaves the session alone |
| EsdataCollection.Collection.Connect | esdata/collection.py:107-108 | the end of `__init__` succeeds exactly when the session builds and then the URL builds from the fields set so far; it fails with the session error first, else the builder's, and on success the session is a new one and, of the other fields, only the URL changes, to the one built |
| EsdataCollection.Collection.SetDomain | esdata/collection.py:114-118 | succeeds exactly for a string, which is stored; otherwise nothing changes, and validity is kept |
| EsdataCollection.Collection.SetQuery | esdata/collection.py:124-128 | succeeds exactly for a string, which is stored; otherwise nothing changes, and validity is kept |
| EsdataCollection.Collection.SetLang | esdata/collection.py:134-140 | succeeds exactly for a supported language, which is stored; otherwise nothing changes, and validity is kept |
| EsdataCollection.Collection.SetSort | esdata/collection.py:146-152 | succeeds exactly for a positive integer, which is stored; otherwise nothing changes, and validity is kept |
| EsdataCollection.Collection.SetDimensions | esdata/collection.py:170-180 | the dimension table is replaced, never merged, by the accepted table, and kept on a refusal |
| EsdataCollection.Collection.SetDatasets | esdata/collection.py:187-197 | the dataset table is replaced, never merged, by the accepted table, and kept on a refusal |
| EsdataCollection.Collection.SetMetabase | esdata/collection.py:158-164 | every call fails with TypeError, since `np.array` is not a type |
| EsdataCollection.Collection.LoadMetabase | esdata/collection.py:528-536 | `setMetabase` always fails reading `self.BULK_BASE_NAMES`, which the class does not define |
| EsdataCollection.Collection.SetUrl | esdata/collection.py:265-269 | the URL is set exactly when the builder succeeds, to what it builds; a failure is reported with the builder's error and keeps the old URL |
| EsdataCollection.Collection.GetDatasetsOf | esdata/collection.py:502-504 | the answer and the shared names after it are those of the query; on a valid collection, which never holds a metabase, it is refused and changes nothing |
| EsdataCollection.Collection.GetDimensionsOf | esdata/collection.py:505-507 | the answer and the shared names after it are those of the query; on a valid collection it is refused and changes nothing |
| EsdataCollection.Collection.GetLabelsOf | esdata/collection.py:508-510 | the answer and the shared names after it are those of the query; on a valid collection it is refused and changes nothing |
| Eurobase.SameAsRequests | eurobase.py:205-233 | eurobase.py's copy of the request builder builds every URL requests.py's builder builds; only an unknown protocol differs, raising eurobase.py's own error here and a NameError there |
| Eurobase.BuildPathname | eurobase.py:657-666 | the cache file is the digest alone for no or an empty directory, and otherwise the digest under the directory after a `/` |
| Eurobase.PathnameAsSession | eurobase.py:664-665 | the empty-directory guard names the same file as session.py's builder does without it |
| Eurobase.Opened | eurobase.py:444-472 | a constructed collection has a string domain and query, a supported language, a list or tuple of dimensions, a valid expiry and no URL, and its domain, query, language and cache come from the keywords through their setters |
| Eurobase.OpenedDatasets | eurobase.py:458-472 | without a `datasets` keyword a collection lists no dataset; with a list or tuple it lists exactly its items |
| Eurobase.OpenedDimensionsAndCache | eurobase.py:466-472 | a string `dimensions` becomes the one dimension; a string `cache` is kept as its absolute path, and no `cache` keyword leaves none |
| Eurobase.UrlOfKeptSettings | eurobase.py:590-592 | with the settings the setters keep, `setURL` never skips the URL nor refuses it as incomplete, refuses the language only when the caller names another, and a URL built ends in `/` and the language |
| Eurobase.UrlArgsFilled | eurobase.py:590-591 | the keywords `setURL` fills in always hold a domain, and the language is the caller's when truthy, else the collection's |
| Eurobase.Collections.constructor | eurobase.py:449-461 | a collection starts from the defaults, over the given builder |
| Eurobase.Collections.Open | eurobase.py:444-472 | construction leaves the state its specification defines, whatever order the keywords are applied in |
| Eurobase.Collections.ApplyTexts | eurobase.py:466-472 | `domain`, `query` and `lang` go through their setters; a refused value keeps the old one |
| Eurobase.Collections.ApplySession | eurobase.py:466-472 | `expire`, `force_download` and `cache` go through their setters; a refused value keeps the old one |
| Eurobase.Collections.ApplyLists | eurobase.py:466-472 | `dimensions` and `datasets` go through their setters; a refused value keeps the old one |
| Eurobase.Collections.SetDomain | eurobase.py:478-482 | succeeds exactly for a string, which is stored; otherwise nothing changes, and validity is kept |
| Eurobase.Collections.SetQuery | eurobase.py:488-492 | succeeds exactly for a string, which is stored; otherwise nothing changes, and validity is kept |
| Eurobase.Collections.SetLang | eurobase.py:498-504 | succeeds exactly for a supported language, which is stored; otherwise nothing changes, and validity is kept |
| Eurobase.Collections.SetDimensions | eurobase.py:510-516 | succeeds exactly for a string, list or tuple; a string becomes a one-item list; validity is kept |
| Eurobase.Collections.SetDatasets | eurobase.py:522-528 | succeeds exactly for a dict, list or tuple; the groups are replaced, never merged; validity is kept |
| Eurobase.Collections.SetCache | eurobase.py:534-538 | succeeds exactly for a string, kept as its absolute path; validity is kept |
| Eurobase.Collections.SetExpire | eurobase.py:544-550 | succeeds exactly for a timedelta or an int at least 0; validity is kept |
| Eurobase.Collections.SetForceDownload | eurobase.py:556-560 | succeeds exactly for a bool; validity is kept |
| Eurobase.Collections.SetUrl | eurobase.py:563-592 | the URL is set exactly when `__build_url` succeeds on the filled-in keywords, to what it returns; a failure is reported with its error and keeps the old URL |
| Eurobase.Collections.CachePath | eurobase.py:642 | the file the cache keeps for a URL is its digest, under the cache directory when there is a non-empty one |
| Eurobase.Collections.IsCached | eurobase.py:637-654 | a missing file is not cached; under an expiry of 0 a stored file is always fresh; under a positive one it is fresh while younger; a timedelta cannot be compared and raises TypeError |
| Eurobase.Collections.CheckDimensions | eurobase.py:776-777 | on a valid collection, a dimension is held exactly when it is `==` to one of its dimensions |
| Eurobase.Collections.CheckDatasets | eurobase.py:778-779 | a dataset is held exactly when it is `==` to one of the flattened datasets, failing as the getter does |
| Eurobase.Collections.FindDatasets | eurobase.py:738-754 | a bad letter is refused; keywords fail on the undefined `self.get_url`; otherwise the result is the letters' listings read off the collection URL |
| Eurobase.Collections.FindDimensions | eurobase.py:726-735 | keywords fail on the undefined `self.get_url`; otherwise the result is the dictionary listing read off the collection URL |
| CollectionsDraft.Open | collections.py:62-92 | a `Collections` of collections.py is eurobase.py's class over requests.py's builder, constructed to the same state |
| CollectionsDraft.SetUrlAsEurobase | collections.py:222-244 | from the same keywords both drafts' `__build_url` build the same URL or fail the same way, except an unknown protocol, a NameError here and eurobase.py's own error there, and only then |
| DatabaseDraft.Opened | database.py:72-97 | the database the constructor is meant to leave has a string domain and query, a supported language, a list or tuple of dimensions and no URL, each from its keyword through its setter |
| DatabaseDraft.OpenedAsCollections | database.py:72-97 | from the same keywords the intended database and an eurobase.py collection agree on every field they share; `expire`, `force_download` and `cache` change none of them |
| DatabaseDraft.OpenedDatasets | database.py:86-97 | without a `datasets` keyword the intended database lists no dataset; with a list or tuple it lists exactly its items |
| DatabaseDraft.Init | database.py:72-97 | over any set of bound names, construction either raises NameError or leaves exactly the intended database, with no partial state |
| DatabaseDraft.ConstructionRaises | database.py:86 | as written every `Database(**kwargs)` raises NameError: the default groups read `string`, which database.py never imports |
| DatabaseDraft.ConstructionIntended | database.py:72-97 | with `string`, `warnings` and `EurobaseWarning` bound as in eurobase.py, every keyword set builds the intended database, a refused value only warned about |
| DatabaseDraft.FindDatasetsIn | database.py:279-291 | never a result: without `string` bound every call raises NameError; with it, a bad letter is refused (NameError unless `EurobaseError` is bound) and an accepted one fails on the undefined `__get_members` |
| DatabaseDraft.FindDatasetsAsWritten | database.py:279-283 | as written every `find_datasets(alpha)` raises NameError on `string`, whatever `alpha` is |
| DatabaseDraft.FindDatasetsOfA | database.py:279-291 | for `alpha='a'`: NameError as written, AttributeError on `__get_members` with eurobase.py's names bound |
| DatabaseDraft.FindDatasetsNeverAnswers | database.py:279-295 | for a letter whose listing holds a file, eurobase.py's reading files the file's stem under the letter, where database.py's raises NameError as written and AttributeError with eurobase.py's names |
| DatabaseDraft.BuildUrlAsWritten | database.py:197-218 | as written each refusal `__build_url` raises itself (no keyword `domain`, an unsupported language, a non-int `sort`) is a NameError; these are refusals of the intended builder too, and every other answer is the intended one |
| DatabaseDraft.BuildUrlIntended | database.py:197-218 | with `EurobaseError` bound, `__build_url` is eurobase.py's builder over session.py's `build_url` |
| DatabaseDraft.Database.constructor | database.py:77-86 | a database starts from the defaults |
| DatabaseDraft.Database.OpenIn | database.py:72-97 | over any set of bound names, construction answers as `Init` says, and a database built holds the intended state |
| DatabaseDraft.Database.Open | database.py:72-97 | as written `Database(**kwargs)` raises NameError for every keyword set |
| DatabaseDraft.Database.OpenAsIntended | database.py:72-97 | with eurobase.py's names bound, construction leaves the state `Opened` defines |
| DatabaseDraft.Database.ApplyTexts | database.py:91-97 | `domain`, `query` and `lang` go through their setters; a refused value keeps the old one, and the flag says whether a keyword given was refused |
| DatabaseDraft.Database.ApplyLists | database.py:91-97 | `dimensions` and `datasets` go through their setters; a refused value keeps the old one, and the flag says whether a keyword given was refused |
| DatabaseDraft.Database.SetDomain | database.py:103-107 | succeeds exactly for a string, which is stored; otherwise nothing changes and the refusal is a NameError on `EurobaseError`; validity is kept |
| DatabaseDraft.Database.SetQuery | database.py:113-117 | succeeds exactly for a string, which is stored; otherwise nothing changes and the refusal is a NameError on `EurobaseError`; validity is kept |
| DatabaseDraft.Database.SetLang | database.py:123-129 | succeeds exactly for a supported language, which is stored; otherwise nothing changes and the refusal is a NameError on `EurobaseError`; validity is kept |
| DatabaseDraft.Database.SetDimensions | database.py:135-141 | succeeds exactly for a string, list or tuple; a string becomes a one-item list; a refusal is a NameError; validity is kept |
| DatabaseDraft.Database.SetDatasets | database.py:147-153 | succeeds exactly for a dict, list or tuple; the groups are replaced, never merged; a refusal is a NameError; validity is kept |
| DatabaseDraft.Database.SetUrl | database.py:183-219 | the URL is set exactly when `__build_url` as written succeeds on the filled-in keywords; a failure is reported with its error (NameError for its own refusals) and keeps the old URL |
| DatabaseDraft.Database.CheckDimensions | database.py:312-318 | on a valid database, a dimension is held exactly when it is `==` to one of its dimensions |
| DatabaseDraft.Database.CheckDatasets | database.py:319-320 | a dataset is held exactly when it is `==` to one of the flattened datasets, failing as the getter does |
| DatabaseDraft.Database.FindDatasets | database.py:279-295 | answers as `find_datasets` as written: NameError for every `alpha` |
| DatabaseDraft.Database.FindDimensions | database.py:267-276 | keywords fail on the undefined `get_url` and no keywords on the undefined `BULK_DIC_FILE`; no page is read either way |
| CollectionDraft.Opened | collection.py:74-99 | a constructed collection has a string domain and query, a supported language, a positive sort, a list or tuple of dimensions, and no session nor URL yet |
| CollectionDraft.SessionUrl | collection.py:218 | a `domain` keyword is given twice and raises TypeError; otherwise the URL is session.py's over the collection's domain |
| CollectionDraft.SessionUrlNonEmpty | collection.py:225 | a URL the session builds is never empty, so the `or self.url` fallback never applies |
| CollectionDraft.UrlArgsFilled | collection.py:215-217 | `setURL` never sends a language, and sends the caller's query and sort when truthy, else the collection's |
| CollectionDraft.UrlArgsKeepOthers | collection.py:215-217 | every other keyword reaches the builder as the caller gave it |
| CollectionDraft.GetArgsAsUrlArgs | collection.py:219-225 | `getURL` sends what `setURL` sends when the caller names both `query` and `sort`; naming neither it sends the keywords without `lang`, and without a `sort` keyword it sends no sort at all |
| CollectionDraft.DimensionsDirAsWritten | collection.py:235-236 | as written, `bulk_dimensions` gets a directory exactly when the caller names one, the default being missing from settings.py |
| CollectionDraft.DimensionsDir | collection.py:235-236 | corrected, the caller's directory is kept and the default is the dictionary directory |
| CollectionDraft.DimensionsUrl | collection.py:237 | the dimension listing URL ends in the language suffix |
| CollectionDraft.BulkDimensions | collection.py:232-244 | without a session the listing fails on `None.load_page`, and a listing read means the URL was built and a session was there |
| CollectionDraft.BulkDimensionsStems | collection.py:241-243 | a listing of dictionary files `<stem>.dic` gives back exactly their stems, in order |
| CollectionDraft.DimensionListingNeverRead | collection.py:232-244 | as written the dimension listing never returns: without a `dir` keyword it raises AttributeError on the missing `settings.BULK_DIC_FILE` before any URL or load; with one, a session and a URL it raises its page's error (its load's, else TypeError) |
| CollectionDraft.DatasetsUrl | collection.py:258 | the dataset listing URL is a string |
| CollectionDraft.BulkDatasets | collection.py:245-268 | a bad letter is refused with "unrecognised parameter alpha"; without a session the listing fails on `None.load_page` |
| CollectionDraft.BulkDatasetsContents | collection.py:245-268 | once the URL is built and a session is there, the call succeeds exactly when every letter's listing reads, and then holds exactly the letters asked for, each with its names stripped of `.tsv.gz` |
| CollectionDraft.DatasetListingNeverRead | collection.py:245-268 | as written, with a session and a URL the dataset listing raises the error of the first letter's page (its load's, else TypeError), so it never returns |
| CollectionDraft.MetabaseUrlAsWritten | collection.py:319-327 | as written, without both `ext` and `file` keywords `getMetabase` fails on constants settings.py does not define |
| CollectionDraft.MetabaseUrl | collection.py:319-327 | corrected, the metabase URL extends the collection URL |
| CollectionDraft.MetabaseFileName | collection.py:327 | as written the file is asked for as `&fil=metabasetxt.gz`; corrected, as `&file=metabase.txt.gz`, with or without the keywords |
| CollectionDraft.DimensionsDirMissing | collection.py:236 | as written the default directory is an AttributeError; corrected it is `dic` |
| CollectionDraft.DatasetMembers | collection.py:309-310 | the datasets compared with are those the getter lists |
| CollectionDraft.FreshChecksRefused | collection.py:300-310 | a fresh collection refuses both checks, having no members to compare to; over the defaults database.py's constructor means to start from (as written it builds no database) its checks would answer `False` |
| CollectionDraft.Collection.constructor | collection.py:79-89 | a collection starts from the defaults |
| CollectionDraft.Collection.Open | collection.py:74-99 | construction leaves the state its specification defines |
| CollectionDraft.Collection.ApplyTexts | collection.py:94-99 | `domain`, `query`, `lang` and `sort` go through their setters; a refused value keeps the old one |
| CollectionDraft.Collection.ApplyLists | collection.py:94-99 | `dimensions` and `datasets` go through their setters; a refused value keeps the old one |
| CollectionDraft.Collection.SetDomain | collection.py:105-109 | succeeds exactly for a string, which is stored; otherwise nothing changes, and validity is kept |
| CollectionDraft.Collection.SetQuery | collection.py:115-119 | succeeds exactly for a string, which is stored; otherwise nothing changes, and validity is kept |
| CollectionDraft.Collection.SetLang | collection.py:125-131 | succeeds exactly for a supported language, which is stored; otherwise nothing changes, and validity is kept |
| CollectionDraft.Collection.SetSort | collection.py:137-143 | succeeds exactly for a positive integer, which is stored; otherwise nothing changes, and validity is kept |
| CollectionDraft.Collection.SetDimensions | collection.py:149-155 | succeeds exactly for a string, list or tuple; a string becomes a one-item list; validity is kept |
| CollectionDraft.Collection.SetDatasets | collection.py:161-167 | succeeds exactly for a dict, list or tuple; the groups are replaced, never merged; validity is kept |
| CollectionDraft.Collection.SetSession | collection.py:171-175 | the session is set exactly when one can be built; a failure raises "wrong definition for SESSION parameter" and keeps the old one |
| CollectionDraft.Collection.SetUrl | collection.py:215-218 | the URL is set exactly when the builder succeeds, to what it builds; a failure keeps the old URL |
| CollectionDraft.Collection.GetUrl | collection.py:219-225 | a URL returned is never empty, and with `query` and `sort` named it is the one `setURL` would store |
| CollectionDraft.Collection.BulkDimensionsRead | collection.py:232-244 | the loop returns the dimension listing its specification defines |
| CollectionDraft.Collection.BulkDatasetsRead | collection.py:245-268 | the loop over the letters returns the dataset listings its specification defines |
| CollectionDraft.Collection.CheckDimension | collection.py:300-308 | an empty list of dimensions raises "no members to compare to"; otherwise a dimension is held exactly when it is `==` to one of them |
| CollectionDraft.Collection.CheckDataset | collection.py:300-310 | no listed dataset raises "no members to compare to"; otherwise a dataset is held exactly when it is `==` to one of the listed datasets |

## Left out

- HTTP transport: `requests`, `requests_cache` and `cachecontrol` are not modelled. A download is a `FileStore.Transport` whose answer is a fixed function of the URL; only the number of calls is tracked.
- HTML parsing: BeautifulSoup is not modelled. A listing page is the sequence of tables it holds, each a sequence of rows of cells.
- pandas: `read_csv`/`read_table` are not modelled. A file read is modelled up to the URL or file it requests.
- Clock, MD5 digest and `os.path.abspath`: these are parameters (`now`, `Platform`), because their results are outside the code.
- eurobase.py and collections.py do not parse as written: `__get_members` is indented one level too deep. Both are modelled as their authors evidently meant, with `__get_members(url)` fetching and parsing the page.
- Listing.ReadMembers: it models eurobase.py's `__read_members`, where `Request` is the class eurobase.py defines (eurobase.py:173) and `Request.read_html_table` is its parse of the page tables. The same code in database.py:246-264 and collections.py:323-341 reads a `Request` those modules never bind (collections.py imports `Requests`), so there a non-empty page would raise NameError. In database.py no call reaches it: `find_*` fail first. In collections.py `Drafts.MemberNames` and `Listing.ReadMembers` read it as eurobase.py's parse. The oddity the fetch model does hide is eurobase.py's `__get_members` (eurobase.py:676-702): a staticmethod that reads `self.__cache` and calls `cls.get_response` with neither `self` nor `cls` bound.
- Listings in bulkdata.py and collection.py: as written they never succeed. `load_page` returns a `(pathname, html)` pair, `read_html_table` (session.py:519-528) fails on it and returns `None`, and `_, rows = None` raises TypeError (bulkdata.py:278/294, collection.py:241/264). `Bulkdata.DatasetListingNeverRead`, `Bulkdata.DimensionListingNeverRead` and their `CollectionDraft` namesakes prove this (collection.py's dimension listing without a `dir` keyword raises AttributeError earlier, on the missing `settings.BULK_DIC_FILE`); the other listing members model the listing as intended, with the page tables an abstract function of the URL (see "## Findings").
- Settings constants: those missing from the `settings.py` a draft imports take the value eurobase.py gives them, except where the gap is itself a finding below.
- database.py has no setter for the `expire`, `cache` and `force_download` keywords. `setattr` stores them as plain attributes that nothing modelled reads, so the model ignores those keywords.
- DatabaseDraft.Database.ApplyTexts, DatabaseDraft.Database.ApplyLists: they model the keyword loop of the constructor, which as written is never reached (line 86 raises NameError first). `Database.Open` states the constructor as written and `Database.OpenAsIntended` as intended.
- DatabaseDraft.Database.SetDomain, SetQuery, SetLang, SetDimensions, SetDatasets: each refusal is the NameError of the unbound `EurobaseError`. The messages they were meant to carry are those of `Eurobase`'s setters.
- The `if html is None or html == ''` guards that raise "no HTML content found" (collection.py:239-240, 262-263; bulkdata.py:276-277, 292-293, 391-392) are not modelled separately. As written they are dead: `load_page` returns a pair, never `None` or `''`. In the intended listings (Bulkdata.BulkDatasetsByLetter, Bulkdata.BulkDimensions, Bulkdata.BulkDimensionsStems, Bulkdata.GetMetabase, CollectionDraft.BulkDatasetsContents, CollectionDraft.BulkDimensions, Listing.ByLetterErrPersists) an empty page is one more failure of the page reader, whose error is passed on.
- Set iteration order: Python gives no fixed order. `find_*` results are modelled as maps, and a set of members as a `set`.
- The `file` branch of `__default_cache` (a cache next to the module file) is a parameter.
- The REST/API façades in api.py and pyrostat/api.py are not modelled. They are outside the bulk-download core.
- esdata/collection.py: `readTable`, `readBulk`, `__getitem__` and `__setitem__` are not modelled, because they only hand URLs to pandas.
- PyrostatMeta: `Meta` cannot be constructed, because its `__init__` calls `super(Bulk, self)`. Its queries are modelled as pure functions of the metabase records.
- UrlCore.BuildUrl: its row states only the scalar-parameter case. A two-item list or tuple value renders as `('k', a)=('k', b)` and any other length raises ValueError, as `UrlCore.Pair` states.
- PyrostatCollection.Bulk.constructor: the `table` keyword of the constructor is not modelled. The session the constructor builds is not part of `BulkState`.
- PyrostatCollection.ReadHtmlTable: modelled up to the request plan and its bookkeeping. The page download itself is a transport call.
- PyrostatCollection.ReadFile: `read`'s final download is modelled only up to the URL and file name.
- `data_in_table`, `Meta.search`, `getTitle` and `getPeriod` are not modelled. They depend on pandas frames.
- EsdataCollection.LastUpdate: `last_update` is modelled only as far as its argument checks, because the rest reads a pandas frame.
- The `__obsolete_*` members of pyrostat/session.py and pyrostat/collection.py are not modelled. They are superseded code that only other obsolete members call.
- The public `is_cached(url)` of pyrostat/session.py is not modelled as such. It is the modelled freshness test applied to the cache path.
- collections.py: the missing `__write_to_cache`/`__read_from_cache` are not modelled. Its `__get_members` is modelled as eurobase.py's page fetch, which would raise AttributeError once it parsed.
- Text.Lower: only ASCII letters are lowered. Python's `str.lower` is Unicode-aware and can change a string's length (`'İ'.lower()`), which is not modelled.
- Python floats are not modelled: no `Py` value is a float, so `1.0 == 1` has no counterpart.
- Python.Repr: only quotes, backslash, `\t`, `\n` and `\r` are escaped. Python's other escapes (`\x..`, `\u....` for non-printable characters) are not modelled.
- esdata/session.py is not part of this model. The `.session` of esdata/collection.py is read as session.py's `Session`.
- Concurrency: the library has none.

## Findings

| source | as written | input that shows it | evidently intended | confidence | as-written member | corrected member |
|---|---|---|---|---|---|---|
| pyrostat/collection.py:806-808 | `readMetabase` formats the whole list of extensions into the file name | the default settings give `metabase.['txt'].gz` | `metabase.txt.gz` | not executed | PyrostatMeta.MetabaseFileAsWrittenHoldsList | PyrostatMeta.MetabaseFileReadsBack |
| esdata/collection.py:570-573 | `read_toc` builds the file name from `BULK_BASE_FILE` | `ext='xml'` gives `metabase.xml` | `table_of_contents.xml` | not executed | EsdataCollection.TocAsWrittenNamesMetabase | EsdataCollection.TocFileReadsBack |
| collection.py:319-327 | `getMetabase` writes `&fil={fil}{ext}`, with no dot, and defaults that settings.py lacks | `file='metabase', ext='txt.gz'` gives `&fil=metabasetxt.gz`; no keywords raise AttributeError | `&file=metabase.txt.gz` | not executed | CollectionDraft.MetabaseFileName | CollectionDraft.MetabaseUrl |
| collection.py:235-236 | `bulk_dimensions` defaults its directory to `settings.BULK_DIC_FILE`, which settings.py does not define | no `dir` keyword raises AttributeError | the dimension directory `dic` | not executed | CollectionDraft.DimensionsDirMissing | CollectionDraft.DimensionsDir |
| database.py:279-292 | `find_datasets` reads `string`, which database.py never imports, and then calls `self.__get_members`, which it never defines | `alpha='a'` raises NameError at lines 281-282; with `string` bound it raises AttributeError | the datasets under `a`, as eurobase.py lists them | not executed | DatabaseDraft.FindDatasetsNeverAnswers | Drafts.FindDatasets |
| database.py:86 | the default groups read `string.ascii_lowercase`, and database.py imports neither `string` nor the `warnings` and `EurobaseWarning` of line 97 | `Database()` raises NameError | a database with one empty group per letter, refused keywords only warned about | not executed | DatabaseDraft.ConstructionRaises | DatabaseDraft.ConstructionIntended |
| bulkdata.py:273-294 | `bulk_datasets` and `bulk_dimensions` hand `read_html_table` the `(pathname, html)` pair from `load_page`; its status request fails, it returns `None`, and `_, rows = ...` cannot unpack it | any listing call, e.g. `bulk_datasets()` | the tables of the listing pages, letter by letter | not executed | Bulkdata.DatasetListingNeverRead | Bulkdata.BulkDatasetsByLetter |
| collection.py:238-264 | `bulk_dimensions` and `bulk_datasets` hand `read_html_table` the pair `load_page` returns, with the same failed unpacking | any listing call, e.g. `bulk_datasets(alpha='a')` | the tables of the listing pages | not executed | CollectionDraft.DatasetListingNeverRead | CollectionDraft.BulkDatasetsContents |
