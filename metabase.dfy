/**
 * The metabase: the flat table of the bulk-download service listing, for
 * every dataset, each of its dimensions and each label of that dimension.
 * A query groups the table by some columns, keeps the group matching the
 * given values and returns the distinct values of another column, in the
 * order they first occur.
 */
module Metabase {
  import opened Python

  /** One line of the metabase file. */
  datatype Record = Record(data: string, dic: string, lbl: string)  // `label` is a Dafny keyword

  /** The column names, in file order. */
  const COLUMNS: seq<string> := ["data", "dic", "label"]

  /** The value of column `c` in a record. */
  function Column(r: Record, c: string): string
    requires c in COLUMNS
  {
    if c == "data" then r.data else if c == "dic" then r.dic else r.lbl
  }

  /** The column of every record, in table order. */
  function Values(rows: seq<Record>, c: string): (r: seq<string>)
    requires c in COLUMNS
    ensures |r| == |rows|
    ensures forall i :: 0 <= i < |rows| ==> r[i] == Column(rows[i], c)
  {
    seq(|rows|, i requires 0 <= i < |rows| => Column(rows[i], c))
  }

  predicate NoDup(xs: seq<string>)
  {
    forall i, j :: 0 <= i < j < |xs| ==> xs[i] != xs[j]
  }

  /** `pandas.Series.unique().tolist()`: each value once, where it first occurs. */
  function Unique(xs: seq<string>): (r: seq<string>)
    ensures forall x :: x in r <==> x in xs
    ensures NoDup(r)
    decreases |xs|
  {
    if xs == [] then []
    else
      var u := Unique(xs[..|xs| - 1]);
      var last := xs[|xs| - 1];
      assert forall x :: x in xs <==> x in xs[..|xs| - 1] || x == last;
      if last in u then u else u + [last]
  }

  /** A list with no repeated value is its own list of distinct values. */
  lemma {:induction false} UniqueOfDistinct(xs: seq<string>)
    requires NoDup(xs)
    ensures Unique(xs) == xs
    decreases |xs|
  {
    if xs != [] {
      var pre := xs[..|xs| - 1];
      assert NoDup(pre);
      UniqueOfDistinct(pre);
      assert xs[|xs| - 1] !in pre;
      assert pre + [xs[|xs| - 1]] == xs;
    }
  }

  /** Taking the distinct values twice changes nothing. */
  lemma UniqueIdempotent(xs: seq<string>)
    ensures Unique(Unique(xs)) == Unique(xs)
  {
    UniqueOfDistinct(Unique(xs));
  }

  /** A record belongs to the group of `filters`: it holds every filter's value in that filter's column; other keys are ignored. */
  predicate Matches(r: Record, filters: Kwargs)
  {
    forall i :: 0 <= i < |filters| && filters[i].0 in COLUMNS ==> filters[i].1 == PStr(Column(r, filters[i].0))
  }

  /** Some filter names a column. */
  predicate Grouped(filters: Kwargs)
  {
    exists i :: 0 <= i < |filters| && filters[i].0 in COLUMNS
  }

  /** The records of the group, in table order. */
  function Matching(rows: seq<Record>, filters: Kwargs): (r: seq<Record>)
    ensures forall x :: x in r <==> x in rows && Matches(x, filters)
    ensures |r| <= |rows|
    decreases |rows|
  {
    if rows == [] then []
    else
      var pre := Matching(rows[..|rows| - 1], filters);
      var last := rows[|rows| - 1];
      assert forall x :: x in rows <==> x in rows[..|rows| - 1] || x == last;
      if Matches(last, filters) then pre + [last] else pre
  }

  /** Without a filter on a column, every record is in the group. */
  lemma {:induction false} MatchingAll(rows: seq<Record>, filters: Kwargs)
    requires !Grouped(filters)
    ensures Matching(rows, filters) == rows
    decreases |rows|
  {
    if rows != [] {
      MatchingAll(rows[..|rows| - 1], filters);
      assert rows[..|rows| - 1] + [rows[|rows| - 1]] == rows;
    }
  }

  /** When no record passes the filters, the group is empty. */
  lemma {:induction false} MatchingNone(rows: seq<Record>, filters: Kwargs)
    requires forall row :: row in rows ==> !Matches(row, filters)
    ensures Matching(rows, filters) == []
    decreases |rows|
  {
    if rows != [] {
      assert forall row :: row in rows[..|rows| - 1] ==> row in rows;
      MatchingNone(rows[..|rows| - 1], filters);
      assert rows[|rows| - 1] in rows;
    }
  }

  /**
   * The distinct values of `member` over the group of `filters`: the whole
   * table when no filter names a column; an empty group is a KeyError, as
   * `get_group` raises for a key it does not hold.
   */
  function Select(rows: seq<Record>, member: string, filters: Kwargs): (r: Result<seq<string>>)
    requires member in COLUMNS
    ensures r.Err? <==> Grouped(filters) && Matching(rows, filters) == []
    ensures r.Err? ==> r.error == KeyError
    ensures r.Ok? ==> NoDup(r.value)
    ensures r.Ok? ==> forall x :: (x in r.value <==> exists row :: row in rows && Matches(row, filters) && Column(row, member) == x)
  {
    if !Grouped(filters) then
      MatchingAll(rows, filters);
      SelectValues(rows, filters, member);
      Ok(Unique(Values(rows, member)))
    else
      var group := Matching(rows, filters);
      if group == [] then Err(KeyError)
      else
        SelectValues(rows, filters, member);
        Ok(Unique(Values(group, member)))
  }

  /** The values of the group are the member values of the matching records. */
  lemma SelectValues(rows: seq<Record>, filters: Kwargs, member: string)
    requires member in COLUMNS
    ensures forall x :: (x in Values(Matching(rows, filters), member)
        <==> exists row :: row in rows && Matches(row, filters) && Column(row, member) == x)
  {
    var group := Matching(rows, filters);
    var vs := Values(group, member);
    forall x | exists row :: row in rows && Matches(row, filters) && Column(row, member) == x
      ensures x in vs
    {
      var row :| row in rows && Matches(row, filters) && Column(row, member) == x;
      var i :| 0 <= i < |group| && group[i] == row;
      assert vs[i] == x;
    }
  }

  /** Keys naming no column change nothing. */
  function Known(filters: Kwargs): (r: Kwargs)
    ensures forall e :: e in r <==> e in filters && e.0 in COLUMNS
    decreases |filters|
  {
    if filters == [] then []
    else
      var tail := Known(filters[1..]);
      assert forall e :: e in filters <==> e == filters[0] || e in filters[1..];
      if filters[0].0 in COLUMNS then [filters[0]] + tail else tail
  }

  /** Filtering on the known keys alone selects the same values. */
  lemma UnknownKeysIgnored(rows: seq<Record>, member: string, filters: Kwargs)
    requires member in COLUMNS
    ensures Select(rows, member, filters) == Select(rows, member, Known(filters))
  {
    var k := Known(filters);
    forall r ensures Matches(r, filters) <==> Matches(r, k) {
      if Matches(r, k) {
        forall i | 0 <= i < |filters| && filters[i].0 in COLUMNS
          ensures filters[i].1 == PStr(Column(r, filters[i].0))
        {
          assert filters[i] in k;
          var j :| 0 <= j < |k| && k[j] == filters[i];
        }
      }
      if Matches(r, filters) {
        forall j | 0 <= j < |k| && k[j].0 in COLUMNS
          ensures k[j].1 == PStr(Column(r, k[j].0))
        {
          assert k[j] in filters;
          var i :| 0 <= i < |filters| && filters[i] == k[j];
        }
      }
    }
    MatchingSame(rows, filters, k);
    assert Grouped(filters) <==> Grouped(k) by {
      if Grouped(filters) {
        var i :| 0 <= i < |filters| && filters[i].0 in COLUMNS;
        assert filters[i] in k;
      }
      if Grouped(k) {
        var j :| 0 <= j < |k| && k[j].0 in COLUMNS;
        assert k[j] in filters;
      }
    }
  }

  /** Two filter sets that accept the same records form the same group. */
  lemma {:induction false} MatchingSame(rows: seq<Record>, f: Kwargs, g: Kwargs)
    requires forall r :: Matches(r, f) <==> Matches(r, g)
    ensures Matching(rows, f) == Matching(rows, g)
    decreases |rows|
  {
    if rows != [] {
      MatchingSame(rows[..|rows| - 1], f, g);
    }
  }

  /** Filtering on one column: the group is the records holding that value. */
  lemma SelectOne(rows: seq<Record>, col: string, v: Py, member: string)
    requires col in COLUMNS && member in COLUMNS
    ensures Select(rows, member, [(col, v)]).Err? <==> !exists row :: row in rows && PStr(Column(row, col)) == v
    ensures Select(rows, member, [(col, v)]).Ok? ==> forall x :: (x in Select(rows, member, [(col, v)]).value
      <==> exists row :: row in rows && PStr(Column(row, col)) == v && Column(row, member) == x)
  {
    var kw := [(col, v)];
    assert Grouped(kw) by { assert kw[0].0 in COLUMNS; }
    forall row ensures Matches(row, kw) <==> PStr(Column(row, col)) == v {
      if PStr(Column(row, col)) != v {
        assert kw[0].0 in COLUMNS && kw[0].1 != PStr(Column(row, kw[0].0));
      }
    }
    if exists row :: row in rows && PStr(Column(row, col)) == v {
      var row :| row in rows && PStr(Column(row, col)) == v;
      assert row in Matching(rows, kw);
    }
  }

  /** `x in members` for a list of strings: only a string can be found. */
  predicate InList(x: Py, members: seq<string>)
  {
    x.PStr? && x.s in members
  }
}
