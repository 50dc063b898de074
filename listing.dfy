/**
 * The bulk-download listing pages: a table of rows whose first cell links
 * to a file. The drafts read the link texts off the first table of a page,
 * drop the extension from each name, and walk the listing letter by
 * letter. Parsing the HTML itself is not modelled: a page arrives as its
 * tables.
 */
module Listing {
  import opened Python
  import opened Text

  /** One `<td>` cell: the text of its first link, when it has one. */
  datatype Cell = Cell(anchor: Option<string>)

  /** The `<td>` cells of one `<tr>`; a header row of `<th>` cells has none. */
  type Row = seq<Cell>

  type Table = seq<Row>

  /** `string.ascii_lowercase` */
  const LETTERS: string := "abcdefghijklmnopqrstuvwxyz"

  // ---------------------------------------------------------------------
  // Every name of a listing

  /** Row `k` (0-based) holds a name: it has cells and is not among the first `skip` rows. */
  predicate Kept(rows: seq<Row>, k: int, skip: nat)
    requires 0 <= k < |rows|
  {
    rows[k] != [] && k >= skip
  }

  /**
   * The first-cell link texts of the kept rows, in row order. A kept row
   * whose first cell has no link fails, as `None.find(...)` does.
   */
  function Collect(rows: seq<Row>, skip: nat): (r: Result<seq<string>>)
    ensures r.Err? ==> r.error == AttributeError
    ensures r.Ok? ==> |r.value| <= |rows|
    decreases |rows|
  {
    if rows == [] then Ok([])
    else
      var k := |rows| - 1;
      match Collect(rows[..k], skip)
      case Err(e) => Err(e)
      case Ok(names) =>
        if !Kept(rows, k, skip) then Ok(names)
        else if rows[k][0].anchor.None? then Err(AttributeError)
        else Ok(names + [rows[k][0].anchor.value])
  }

  /** The listing reads without error exactly when every kept row links its first cell. */
  lemma {:induction false} CollectOk(rows: seq<Row>, skip: nat)
    ensures Collect(rows, skip).Ok?
        <==> forall k :: 0 <= k < |rows| && Kept(rows, k, skip) ==> rows[k][0].anchor.Some?
  {
    if rows != [] {
      var k := |rows| - 1;
      var pre := rows[..k];
      CollectOk(pre, skip);
      assert forall j :: 0 <= j < k ==> pre[j] == rows[j];
      assert (forall j :: 0 <= j < |pre| && Kept(pre, j, skip) ==> pre[j][0].anchor.Some?)
         <==> (forall j :: 0 <= j < k && Kept(rows, j, skip) ==> rows[j][0].anchor.Some?);
    }
  }

  /** A name is read exactly when some kept row links it from its first cell. */
  lemma {:induction false} CollectNames(rows: seq<Row>, skip: nat)
    requires Collect(rows, skip).Ok?
    ensures forall n :: (n in Collect(rows, skip).value
        <==> exists k :: 0 <= k < |rows| && Kept(rows, k, skip) && rows[k][0].anchor == Some(n))
  {
    if rows != [] {
      var k := |rows| - 1;
      var pre := rows[..k];
      CollectNames(pre, skip);
      assert forall j :: 0 <= j < k ==> pre[j] == rows[j];
      forall n
        ensures (exists j :: 0 <= j < |pre| && Kept(pre, j, skip) && pre[j][0].anchor == Some(n))
            <==> (exists j :: 0 <= j < k && Kept(rows, j, skip) && rows[j][0].anchor == Some(n))
      {
        if exists j :: 0 <= j < k && Kept(rows, j, skip) && rows[j][0].anchor == Some(n) {
          var j :| 0 <= j < k && Kept(rows, j, skip) && rows[j][0].anchor == Some(n);
          assert Kept(pre, j, skip) && pre[j][0].anchor == Some(n);
        }
      }
    }
  }

  /** Rows that are all skipped yield no name. */
  lemma {:induction false} CollectOfHeader(rows: seq<Row>, skip: nat)
    requires |rows| <= skip
    ensures Collect(rows, skip) == Ok([])
  {
    if rows != [] {
      CollectOfHeader(rows[..|rows| - 1], skip);
    }
  }

  /** Whatever the first `skip` rows hold, the names are the same. */
  lemma {:induction false} CollectIgnoresHeader(a: seq<Row>, b: seq<Row>, skip: nat)
    requires |a| == |b| && skip <= |a| && a[skip..] == b[skip..]
    ensures Collect(a, skip) == Collect(b, skip)
    decreases |a|
  {
    if |a| == skip {
      CollectOfHeader(a, skip);
      CollectOfHeader(b, skip);
    } else {
      var k := |a| - 1;
      assert a[k] == a[skip..][k - skip] == b[skip..][k - skip] == b[k];
      assert a[..k][skip..] == b[..k][skip..] by {
        forall j | 0 <= j < k - skip ensures a[..k][skip..][j] == b[..k][skip..][j] {
          assert a[..k][skip..][j] == a[skip..][j];
          assert b[..k][skip..][j] == b[skip..][j];
        }
      }
      CollectIgnoresHeader(a[..k], b[..k], skip);
    }
  }

  /** An error in the first rows is an error of the whole listing. */
  lemma {:induction false} CollectErrPersists(rows: seq<Row>, j: nat, skip: nat)
    requires j <= |rows| && Collect(rows[..j], skip).Err?
    ensures Collect(rows, skip).Err?
    decreases |rows| - j
  {
    if j < |rows| {
      var k := j + 1;
      assert rows[..k][..j] == rows[..j];
      CollectErrPersists(rows, k, skip);
    } else {
      assert rows[..j] == rows;
    }
  }

  /** The names of a page: its first table, read with the first two rows skipped (IndexError when there is no table). */
  function TableNames(tables: seq<Table>): Result<seq<string>>
  {
    if tables == [] then Err(IndexError) else Collect(tables[0], 2)
  }

  /** The tables `read_html_table` yields for the page at a URL. */
  type Pages = string -> seq<Table>

  /** `__filter_table` applied to the page at each URL. */
  function Filtered(pages: Pages): string -> Result<seq<string>>
  {
    u => TableNames(pages(u))
  }

  /** `__filter_table(rows)`: the loop over the rows of the first table, with its 1-based counter. */
  method FilterTable(tables: seq<Table>) returns (r: Result<seq<string>>)
    ensures r == TableNames(tables)
  {
    if tables == [] {
      return Err(IndexError);
    }
    var rows := tables[0];
    var data: seq<string> := [];
    var i := 0;
    var k := 0;
    while k < |rows|
      invariant 0 <= k <= |rows| && i == k
      invariant Collect(rows[..k], 2) == Ok(data)
    {
      assert rows[..k + 1][..k] == rows[..k];
      var cols := rows[k];
      i := i + 1;
      if cols == [] || i <= 2 {
      } else if cols[0].anchor.None? {
        CollectErrPersists(rows, k + 1, 2);
        return Err(AttributeError);
      } else {
        data := data + [cols[0].anchor.value];
      }
      k := k + 1;
    }
    assert rows[..k] == rows;
    return Ok(data);
  }

  // ---------------------------------------------------------------------
  // The first name only

  /**
   * The loop of `__read_members` from row `from` on: row 0 and cell-less rows
   * are skipped, and the `return` inside the loop ends it at the first kept
   * row, so at most one name is ever read; no kept row returns `None`.
   */
  function FirstName(rows: seq<Row>, from: nat): (r: Result<Option<seq<string>>>)
    ensures r.Err? ==> r.error == AttributeError
    ensures r.Ok? && r.value.Some? ==> |r.value.value| == 1
    decreases |rows| - from
  {
    if from >= |rows| then Ok(None)
    else if !Kept(rows, from, 1) then FirstName(rows, from + 1)
    else if rows[from][0].anchor.None? then Err(AttributeError)
    else Ok(Some([rows[from][0].anchor.value]))
  }

  /** `__read_members(html)`: `None` for a page with no content; else the first name of its first table. */
  function FirstMember(page: Option<seq<Table>>): Result<Option<seq<string>>>
  {
    match page
    case None => Ok(None)
    case Some(tables) => if tables == [] then Err(IndexError) else FirstName(tables[0], 0)
  }

  /** The loop as written, returning from inside its body. */
  method ReadMembers(page: Option<seq<Table>>) returns (r: Result<Option<seq<string>>>)
    ensures r == FirstMember(page)
  {
    if page.None? {
      return Ok(None);
    }
    if page.value == [] {
      return Err(IndexError);
    }
    var rows := page.value[0];
    var data: seq<string> := [];
    var i := 0;
    var k := 0;
    while k < |rows|
      invariant 0 <= k <= |rows| && i == k && data == []
      invariant FirstName(rows, 0) == FirstName(rows, k)
    {
      var cols := rows[k];
      i := i + 1;
      if cols == [] || i == 1 {
        assert !Kept(rows, k, 1);
        k := k + 1;
        continue;
      }
      if cols[0].anchor.None? {
        return Err(AttributeError);
      }
      assert Kept(rows, k, 1);
      data := data + [cols[0].anchor.value];
      assert data == [cols[0].anchor.value];
      return Ok(Some(data));
    }
    return Ok(None);
  }

  /**
   * What the early return costs: of all the names the listing holds with
   * its first row skipped, only the first is read.
   */
  lemma {:induction false} FirstNameOfCollect(rows: seq<Row>)
    requires Collect(rows, 1).Ok?
    ensures var names := Collect(rows, 1).value;
      FirstName(rows, 0) == if names == [] then Ok(None) else Ok(Some([names[0]]))
  {
    FirstNameFrom(rows, 0);
  }

  /** `FirstName` from `from` on is the first kept row at or after `from`, as `Collect` sees it. */
  lemma {:induction false} FirstNameFrom(rows: seq<Row>, from: nat)
    requires Collect(rows, 1).Ok? && from <= |rows|
    requires forall j :: 0 <= j < from ==> !Kept(rows, j, 1)
    ensures var names := Collect(rows, 1).value;
      FirstName(rows, from) == if names == [] then Ok(None) else Ok(Some([names[0]]))
    decreases |rows| - from
  {
    if from == |rows| {
      NoKeptNoNames(rows);
    } else if !Kept(rows, from, 1) {
      FirstNameFrom(rows, from + 1);
    } else {
      CollectOk(rows, 1);
      KeptFirstHeadsNames(rows, from);
    }
  }

  /** With no kept row, nothing is collected. */
  lemma {:induction false} NoKeptNoNames(rows: seq<Row>)
    requires forall j :: 0 <= j < |rows| ==> !Kept(rows, j, 1)
    ensures Collect(rows, 1) == Ok([])
  {
    if rows != [] {
      var k := |rows| - 1;
      forall j | 0 <= j < k ensures !Kept(rows[..k], j, 1) {
        assert rows[..k][j] == rows[j] && !Kept(rows, j, 1);
      }
      NoKeptNoNames(rows[..k]);
    }
  }

  /** The first kept row gives the first collected name. */
  lemma {:induction false} KeptFirstHeadsNames(rows: seq<Row>, from: nat)
    requires from < |rows| && Kept(rows, from, 1) && rows[from][0].anchor.Some?
    requires forall j :: 0 <= j < from ==> !Kept(rows, j, 1)
    requires Collect(rows, 1).Ok?
    ensures Collect(rows, 1).value != [] && Collect(rows, 1).value[0] == rows[from][0].anchor.value
    decreases |rows|
  {
    var k := |rows| - 1;
    var pre := rows[..k];
    forall j | 0 <= j < from ensures !Kept(pre, j, 1) {
      assert pre[j] == rows[j] && !Kept(rows, j, 1);
    }
    if k == from {
      NoKeptNoNames(pre);
    } else {
      assert pre[from] == rows[from];
      assert Collect(pre, 1).Ok?;
      KeptFirstHeadsNames(pre, from);
    }
  }

  // ---------------------------------------------------------------------
  // Names without their extension

  /** `[d.replace('.' + ext, '') for d in names]` */
  function Stripped(names: seq<string>, ext: string): (r: seq<string>)
    ensures |r| == |names|
    ensures forall i :: 0 <= i < |names| ==> r[i] == RemoveAll(names[i], "." + ext)
  {
    seq(|names|, i requires 0 <= i < |names| => RemoveAll(names[i], "." + ext))
  }

  /** `[d.split('.')[0] for d in names]` */
  function Stems(names: seq<string>): (r: seq<string>)
    ensures |r| == |names|
    ensures forall i :: 0 <= i < |names| ==> r[i] == BeforeFirst(names[i], '.')
  {
    seq(|names|, i requires 0 <= i < |names| => BeforeFirst(names[i], '.'))
  }

  /** The file names a listing shows for stems: each stem, a dot, the extension. */
  function WithExt(stems: seq<string>, ext: string): (r: seq<string>)
    ensures |r| == |stems|
    ensures forall i :: 0 <= i < |stems| ==> r[i] == stems[i] + "." + ext
  {
    seq(|stems|, i requires 0 <= i < |stems| => stems[i] + "." + ext)
  }

  /** Removing `.ext` from the files of dot-free stems gives the stems back. */
  lemma StrippedWithExt(stems: seq<string>, ext: string)
    requires forall i :: 0 <= i < |stems| ==> '.' !in stems[i]
    ensures Stripped(WithExt(stems, ext), ext) == stems
  {
    forall i | 0 <= i < |stems|
      ensures RemoveAll(stems[i] + "." + ext, "." + ext) == stems[i]
    {
      assert stems[i] + "." + ext == stems[i] + ("." + ext);
      RemoveAllSuffix(stems[i], "." + ext);
    }
  }

  /** Keeping the text before the first dot of dot-free stems' files gives the stems back, whatever the extension. */
  lemma StemsWithExt(stems: seq<string>, ext: string)
    requires forall i :: 0 <= i < |stems| ==> '.' !in stems[i]
    ensures Stems(WithExt(stems, ext)) == stems
  {
    forall i | 0 <= i < |stems|
      ensures BeforeFirst(stems[i] + "." + ext, '.') == stems[i]
    {
      assert stems[i] + "." + ext == stems[i] + ['.'] + ext;
      BeforeFirstOfSuffixed(stems[i], '.', ext);
    }
  }

  // ---------------------------------------------------------------------
  // Letter by letter

  /** The letters to walk: all of them for `None`, else the one lower-case letter given. */
  function CheckAlpha(alpha: Py, err: Error): (r: Result<string>)
    ensures alpha.PNone? ==> r == Ok(LETTERS)
    ensures alpha.PStr? && |alpha.s| == 1 && alpha.s[0] in LETTERS ==> r == Ok(alpha.s)
    ensures !alpha.PNone? && !(alpha.PStr? && |alpha.s| == 1 && alpha.s[0] in LETTERS) ==> r == Err(err)
  {
    if alpha.PNone? then Ok(LETTERS)
    else if alpha.PStr? && |alpha.s| == 1 && alpha.s[0] in LETTERS then Ok(alpha.s)
    else Err(err)
  }

  /**
   * The names of the pages `prefix + a`, one per letter `a`, each stripped
   * of `.ext` and filed under its letter; the first page that fails stops
   * the walk.
   */
  function ByLetter(letters: string, prefix: string, read: string -> Result<seq<string>>, ext: string)
    : (r: Result<map<char, seq<string>>>)
    decreases |letters|
  {
    if letters == [] then Ok(map[])
    else
      var a := letters[|letters| - 1];
      match ByLetter(letters[..|letters| - 1], prefix, read, ext)
      case Err(e) => Err(e)
      case Ok(m) =>
        match read(prefix + [a])
        case Err(e) => Err(e)
        case Ok(names) => Ok(m[a := Stripped(names, ext)])
  }

  /** The walk succeeds when every page reads, and then files each letter's names under it, and only those letters. */
  lemma {:induction false} ByLetterContents(letters: string, prefix: string, read: string -> Result<seq<string>>, ext: string)
    ensures ByLetter(letters, prefix, read, ext).Ok? <==> forall i :: 0 <= i < |letters| ==> read(prefix + [letters[i]]).Ok?
    ensures ByLetter(letters, prefix, read, ext).Ok? ==>
      var m := ByLetter(letters, prefix, read, ext).value;
      m.Keys == (set i | 0 <= i < |letters| :: letters[i])
      && forall a :: a in m ==> m[a] == Stripped(read(prefix + [a]).value, ext)
    decreases |letters|
  {
    if letters != [] {
      var k := |letters| - 1;
      var pre := letters[..k];
      ByLetterContents(pre, prefix, read, ext);
      assert forall i :: 0 <= i < k ==> pre[i] == letters[i];
      if ByLetter(letters, prefix, read, ext).Ok? {
        var m := ByLetter(letters, prefix, read, ext).value;
        assert m.Keys == (set i | 0 <= i < |pre| :: pre[i]) + {letters[k]};
      }
    }
  }

  /** The walk over the letters, filling the dictionary one page at a time. */
  method FillByLetter(letters: string, prefix: string, read: string -> Result<seq<string>>, ext: string)
    returns (r: Result<map<char, seq<string>>>)
    ensures r == ByLetter(letters, prefix, read, ext)
  {
    var found: map<char, seq<string>> := map[];
    var k := 0;
    while k < |letters|
      invariant 0 <= k <= |letters|
      invariant ByLetter(letters[..k], prefix, read, ext) == Ok(found)
    {
      var a := letters[k];
      assert letters[..k + 1][..k] == letters[..k];
      var names := read(prefix + [a]);
      if names.Err? {
        ByLetterErrPersists(letters, k + 1, prefix, read, ext);
        return Err(names.error);
      }
      found := found[a := Stripped(names.value, ext)];
      k := k + 1;
    }
    assert letters[..k] == letters;
    return Ok(found);
  }

  /** A page that fails early fails the whole walk, with its own error. */
  lemma {:induction false} ByLetterErrPersists(letters: string, j: nat, prefix: string, read: string -> Result<seq<string>>, ext: string)
    requires j <= |letters| && ByLetter(letters[..j], prefix, read, ext).Err?
    ensures ByLetter(letters, prefix, read, ext) == ByLetter(letters[..j], prefix, read, ext)
    decreases |letters| - j
  {
    if j < |letters| {
      assert letters[..j + 1][..j] == letters[..j];
      ByLetterErrPersists(letters, j + 1, prefix, read, ext);
    } else {
      assert letters[..j] == letters;
    }
  }

  /** The same walk, with every letter's names appended to one list. */
  function AllLetters(letters: string, prefix: string, read: string -> Result<seq<string>>, ext: string)
    : (r: Result<seq<string>>)
    decreases |letters|
  {
    if letters == [] then Ok([])
    else
      var a := letters[|letters| - 1];
      match AllLetters(letters[..|letters| - 1], prefix, read, ext)
      case Err(e) => Err(e)
      case Ok(names) =>
        match read(prefix + [a])
        case Err(e) => Err(e)
        case Ok(more) => Ok(names + Stripped(more, ext))
  }

  /** The walk over the letters, appending each page's names to one list. */
  method AppendByLetter(letters: string, prefix: string, read: string -> Result<seq<string>>, ext: string)
    returns (r: Result<seq<string>>)
    ensures r == AllLetters(letters, prefix, read, ext)
  {
    var names: seq<string> := [];
    var k := 0;
    while k < |letters|
      invariant 0 <= k <= |letters|
      invariant AllLetters(letters[..k], prefix, read, ext) == Ok(names)
    {
      assert letters[..k + 1][..k] == letters[..k];
      var page := read(prefix + [letters[k]]);
      if page.Err? {
        AllLettersErrPersists(letters, k + 1, prefix, read, ext);
        return Err(page.error);
      }
      names := names + Stripped(page.value, ext);
      k := k + 1;
    }
    assert letters[..k] == letters;
    return Ok(names);
  }

  /** A page that fails early fails the whole list, with its own error. */
  lemma {:induction false} AllLettersErrPersists(letters: string, j: nat, prefix: string, read: string -> Result<seq<string>>, ext: string)
    requires j <= |letters| && AllLetters(letters[..j], prefix, read, ext).Err?
    ensures AllLetters(letters, prefix, read, ext) == AllLetters(letters[..j], prefix, read, ext)
    decreases |letters| - j
  {
    if j < |letters| {
      assert letters[..j + 1][..j] == letters[..j];
      AllLettersErrPersists(letters, j + 1, prefix, read, ext);
    } else {
      assert letters[..j] == letters;
    }
  }

  /** The list is the dictionary's letters' names, concatenated in letter order. */
  lemma {:induction false} AllLettersIsConcat(letters: string, prefix: string, read: string -> Result<seq<string>>, ext: string)
    ensures AllLetters(letters, prefix, read, ext).Ok? <==> ByLetter(letters, prefix, read, ext).Ok?
    ensures AllLetters(letters, prefix, read, ext).Ok? ==>
      AllLetters(letters, prefix, read, ext).value
        == Concat(seq(|letters|, i requires 0 <= i < |letters| => PageNames(read, prefix + [letters[i]], ext)))
    decreases |letters|
  {
    if letters != [] {
      var k := |letters| - 1;
      var pre := letters[..k];
      AllLettersIsConcat(pre, prefix, read, ext);
      if AllLetters(letters, prefix, read, ext).Ok? {
        ByLetterContents(pre, prefix, read, ext);
        var parts := seq(|letters|, i requires 0 <= i < |letters| => PageNames(read, prefix + [letters[i]], ext));
        var preParts := seq(|pre|, i requires 0 <= i < |pre| => PageNames(read, prefix + [pre[i]], ext));
        assert parts[..k] == preParts;
        ConcatSnoc(parts);
      }
    }
  }

  /** The stripped names of one page; nothing when it does not read. */
  function PageNames(read: string -> Result<seq<string>>, url: string, ext: string): seq<string>
  {
    if read(url).Ok? then Stripped(read(url).value, ext) else []
  }

  /** The lists of `parts`, one after another. */
  function Concat(parts: seq<seq<string>>): seq<string>
    decreases |parts|
  {
    if parts == [] then [] else Concat(parts[..|parts| - 1]) + parts[|parts| - 1]
  }

  lemma ConcatSnoc(parts: seq<seq<string>>)
    requires parts != []
    ensures Concat(parts) == Concat(parts[..|parts| - 1]) + parts[|parts| - 1]
  {
  }

  // ---------------------------------------------------------------------
  // The listings as written

  /** What `load_page` gives for a URL: the cache path and the text, or the error it raises. */
  type Loads = string -> Result<(string, string)>

  /**
   * A listing page read as written: `read_html_table` is handed the
   * `(pathname, html)` pair that `load_page` returns, not a URL; its status
   * request on that pair fails, so it returns `None`, which `_, rows = ...`
   * cannot unpack.
   */
  function ReadAsWritten(loads: Loads): (read: string -> Result<seq<string>>)
    ensures forall u :: read(u).Err?
    ensures forall u :: loads(u).Err? ==> read(u) == Err(loads(u).error)
    ensures forall u :: loads(u).Ok? ==> read(u) == Err(TypeError)
  {
    u => if loads(u).Err? then Err(loads(u).error) else Err(TypeError)
  }

  /** The error the first page of a walk raises as written: the load's own, else the failed unpacking. */
  function FirstPageError(loads: Loads, url: string): Error
  {
    if loads(url).Err? then loads(url).error else TypeError
  }

  /**
   * Read as written, no walk over the letters ever returns: the first
   * letter's page already raises, and its error is the walk's, both for
   * the dictionary and for the list.
   */
  lemma WalksNeverRead(letters: string, prefix: string, loads: Loads, ext: string)
    requires letters != []
    ensures ByLetter(letters, prefix, ReadAsWritten(loads), ext) == Err(FirstPageError(loads, prefix + [letters[0]]))
    ensures AllLetters(letters, prefix, ReadAsWritten(loads), ext) == Err(FirstPageError(loads, prefix + [letters[0]]))
  {
    var read := ReadAsWritten(loads);
    var first := letters[..1];
    assert first[..0] == [] && first[0] == letters[0];
    assert ByLetter(first, prefix, read, ext) == Err(FirstPageError(loads, prefix + [letters[0]]));
    assert AllLetters(first, prefix, read, ext) == Err(FirstPageError(loads, prefix + [letters[0]]));
    ByLetterErrPersists(letters, 1, prefix, read, ext);
    AllLettersErrPersists(letters, 1, prefix, read, ext);
  }
}
