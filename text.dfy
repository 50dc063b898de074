/**
 * The string methods the library calls: `startswith`, `endswith`,
 * `strip`, `join`, `split`, `rsplit`, `replace` with an empty
 * replacement, `lower` and `os.path.join`.
 */
module Text {
  import opened Python

  predicate StartsWith(s: string, p: string)
  {
    |p| <= |s| && s[..|p|] == p
  }

  /** A prefix of a prefix is a prefix. */
  lemma StartsWithTrans(s: string, a: string, b: string)
    requires StartsWith(s, a) && StartsWith(a, b)
    ensures StartsWith(s, b)
  {
    assert s[..|b|] == s[..|a|][..|b|];
  }

  /** A concatenation starts with its first part and ends with its second. */
  lemma ConcatEnds(a: string, b: string)
    ensures StartsWith(a + b, a) && EndsWith(a + b, b)
  {
    assert (a + b)[..|a|] == a;
    assert (a + b)[|a + b| - |b|..] == b;
  }

  predicate EndsWith(s: string, p: string)
  {
    |p| <= |s| && s[|s| - |p|..] == p
  }

  /** A suffix of a suffix is a suffix. */
  lemma EndsWithTrans(s: string, a: string, b: string)
    requires EndsWith(s, a) && EndsWith(a, b)
    ensures EndsWith(s, b)
  {
    assert s[|s| - |b|..] == s[|s| - |a|..][|a| - |b|..];
  }

  /** Every character of `t` is `c`. */
  predicate AllAre(t: string, c: char)
  {
    forall k :: 0 <= k < |t| ==> t[k] == c
  }

  /** `s.lstrip(c)` */
  function StripLeft(s: string, c: char): (r: string)
    ensures |r| <= |s| && r == s[|s| - |r|..]
    ensures r == [] || r[0] != c
  {
    if s != [] && s[0] == c then StripLeft(s[1..], c) else s
  }

  /** `s.rstrip(c)` */
  function StripRight(s: string, c: char): (r: string)
    ensures |r| <= |s| && r == s[..|r|]
    ensures r == [] || r[|r| - 1] != c
  {
    if s != [] && s[|s| - 1] == c then StripRight(s[..|s| - 1], c) else s
  }

  /** `lstrip` cuts away only copies of `c`. */
  lemma {:induction false} StripLeftCuts(s: string, c: char)
    ensures AllAre(s[..|s| - |StripLeft(s, c)|], c)
    decreases |s|
  {
    if s != [] && s[0] == c {
      var r := StripLeft(s[1..], c);
      StripLeftCuts(s[1..], c);
      assert s[..|s| - |r|] == [c] + s[1..][..|s| - 1 - |r|];
    }
  }

  /** `rstrip` cuts away only copies of `c`. */
  lemma {:induction false} StripRightCuts(s: string, c: char)
    ensures AllAre(s[|StripRight(s, c)|..], c)
    decreases |s|
  {
    if s != [] && s[|s| - 1] == c {
      var r := StripRight(s[..|s| - 1], c);
      StripRightCuts(s[..|s| - 1], c);
      assert s[|r|..] == s[..|s| - 1][|r|..] + [c];
    }
  }

  /** `s.strip(c)`: every leading and trailing `c` removed. */
  function Strip(s: string, c: char): string
  {
    StripRight(StripLeft(s, c), c)
  }

  /** What stripping leaves neither starts nor ends with `c`. */
  lemma {:induction false} StripEnds(s: string, c: char)
    ensures var r := Strip(s, c); r == [] || (r[0] != c && r[|r| - 1] != c)
  {
    var l := StripLeft(s, c);
    var r := StripRight(l, c);
    if r != [] {
      assert r[0] == l[0];
    }
  }

  /** What stripping leaves is a middle slice of `s`. */
  lemma {:induction false} StripIsTrimmedSlice(s: string, c: char)
    ensures var i := |s| - |StripLeft(s, c)|; var r := Strip(s, c);
      i + |r| <= |s| && r == s[i..i + |r|]
  {
    PrefixOfSuffix(s, StripLeft(s, c), Strip(s, c));
  }

  /** A prefix `r` of a suffix `l` of `s` is the slice of `s` where `l` starts. */
  lemma PrefixOfSuffix(s: string, l: string, r: string)
    requires |l| <= |s| && l == s[|s| - |l|..]
    requires |r| <= |l| && r == l[..|r|]
    ensures var i := |s| - |l|; i + |r| <= |s| && r == s[i..i + |r|]
  {
    SliceOfSuffix(s, |s| - |l|, |r|);
  }

  /** Stripping cuts away only copies of `c`, on either side of what it leaves. */
  lemma {:induction false} StripCutsOnly(s: string, c: char)
    ensures var i := |s| - |StripLeft(s, c)|; var r := Strip(s, c);
      i + |r| <= |s| && AllAre(s[..i], c) && AllAre(s[i + |r|..], c)
  {
    var l := StripLeft(s, c);
    var r := StripRight(l, c);
    var i := |s| - |l|;
    StripLeftCuts(s, c);
    StripRightCuts(l, c);
    SliceOfSuffix(s, i, |r|);
  }

  /** Slicing a suffix is slicing the whole. */
  lemma SliceOfSuffix(s: string, i: nat, n: nat)
    requires i + n <= |s|
    ensures s[i..][..n] == s[i..i + n] && s[i..][n..] == s[i + n..]
  {
  }

  /** Stripping twice is stripping once. */
  lemma {:induction false} StripIdempotent(s: string, c: char)
    ensures Strip(Strip(s, c), c) == Strip(s, c)
  {
    var r := Strip(s, c);
    StripEnds(s, c);
    if r != [] {
      assert StripLeft(r, c) == r;
      assert StripRight(r, c) == r;
    }
  }

  /** `sep.join(parts)` */
  function Join(parts: seq<string>, sep: string): string
  {
    if parts == [] then ""
    else if |parts| == 1 then parts[0]
    else parts[0] + sep + Join(parts[1..], sep)
  }

  /** `s.split(c)` for a one-character separator. */
  function Split(s: string, c: char): (r: seq<string>)
    ensures |r| > 0
    ensures forall k :: 0 <= k < |r| ==> c !in r[k]
  {
    if c !in s then [s]
    else
      var i := FirstIndex(s, c);
      [s[..i]] + Split(s[i + 1..], c)
  }

  /** The position of the first `c` in `s`. */
  function FirstIndex(s: string, c: char): (i: nat)
    requires c in s
    ensures i < |s| && s[i] == c && c !in s[..i]
  {
    if s[0] == c then 0 else 1 + FirstIndex(s[1..], c)
  }

  /** Splitting a join on a separator none of the parts holds gives the parts back. */
  lemma {:induction false} SplitJoin(parts: seq<string>, c: char)
    requires |parts| > 0
    requires forall k :: 0 <= k < |parts| ==> c !in parts[k]
    ensures Split(Join(parts, [c]), c) == parts
  {
    if |parts| == 1 {
    } else {
      var j := Join(parts, [c]);
      var tail := Join(parts[1..], [c]);
      assert j == parts[0] + [c] + tail;
      assert j[|parts[0]|] == c;
      assert j[..|parts[0]|] == parts[0];
      assert FirstIndex(j, c) == |parts[0]|;
      assert j[|parts[0]| + 1..] == tail;
      SplitJoin(parts[1..], c);
    }
  }

  /** Two dot-free parts joined by one separator split back into the two. */
  lemma SplitPair(a: string, b: string, c: char)
    requires c !in a && c !in b
    ensures Split(a + [c] + b, c) == [a, b]
  {
    assert [a, b][1..] == [b];
    assert Join([a, b], [c]) == a + [c] + b;
    SplitJoin([a, b], c);
  }

  /** Three separator-free parts joined by the separator split back into the three. */
  lemma SplitThree(a: string, b: string, d: string, c: char)
    requires c !in a && c !in b && c !in d
    ensures Split(a + [c] + b + [c] + d, c) == [a, b, d]
  {
    JoinThree(a, b, d, c);
    SplitJoin([a, b, d], c);
  }

  /** Three parts joined with a one-character separator. */
  lemma JoinThree(a: string, b: string, c: string, sep: char)
    ensures Join([a, b, c], [sep]) == a + [sep] + b + [sep] + c
  {
    assert [a, b, c][1..] == [b, c];
    assert [b, c][1..] == [c];
    assert Join([b, c], [sep]) == b + [sep] + c;
  }

  /** `s.split(c)[0]`: the text before the first `c`, or all of `s`. */
  function BeforeFirst(s: string, c: char): (r: string)
    ensures StartsWith(s, r) && c !in r
    ensures c in s ==> |r| < |s| && s[|r|] == c
  {
    Split(s, c)[0]
  }

  /** A name followed by `c` and anything loses everything from the `c` on. */
  lemma BeforeFirstOfSuffixed(name: string, c: char, rest: string)
    requires c !in name
    ensures BeforeFirst(name + [c] + rest, c) == name
  {
    var s := name + [c] + rest;
    assert s[|name|] == c;
    assert s[..|name|] == name;
    assert FirstIndex(s, c) == |name|;
  }

  /** `s.rsplit(c, 1)[1]`: the text after the last `c`; `None` when `c` is absent (IndexError). */
  function AfterLast(s: string, c: char): (r: Option<string>)
    ensures r.None? <==> c !in s
    ensures r.Some? ==> c !in r.value && |r.value| < |s| && s == s[..|s| - |r.value| - 1] + [c] + r.value
  {
    if s == [] then None
    else if s[|s| - 1] == c then Some([])
    else match AfterLast(s[..|s| - 1], c)
      case None => None
      case Some(t) => Some(t + [s[|s| - 1]])
  }

  /** When `s` does not end with `c`, the text after its last `c` ends as `s` does. */
  lemma AfterLastKeepsEnd(s: string, c: char)
    requires c in s && s[|s| - 1] != c
    ensures AfterLast(s, c).Some? && |AfterLast(s, c).value| > 0
    ensures AfterLast(s, c).value[|AfterLast(s, c).value| - 1] == s[|s| - 1]
  {
    assert c in s[..|s| - 1] by {
      var k :| 0 <= k < |s| && s[k] == c;
      assert s[..|s| - 1][k] == c;
    }
  }

  /** `s.replace(pat, '')`: every occurrence of `pat`, scanning left to right, removed. */
  function RemoveAll(s: string, pat: string): (r: string)
    ensures |r| <= |s|
  {
    if pat == [] || s == [] then s
    else if StartsWith(s, pat) then RemoveAll(s[|pat|..], pat)
    else [s[0]] + RemoveAll(s[1..], pat)
  }

  /** A text the first character of `pat` never occurs in loses nothing. */
  lemma {:induction false} RemoveAllUntouched(s: string, pat: string)
    requires pat != [] && pat[0] !in s
    ensures RemoveAll(s, pat) == s
  {
    if s != [] {
      assert !StartsWith(s, pat) by { assert s[0] != pat[0]; }
      RemoveAllUntouched(s[1..], pat);
    }
  }

  /** Removing the suffix a name was given returns the name. */
  lemma {:induction false} RemoveAllSuffix(name: string, pat: string)
    requires pat != [] && pat[0] !in name
    ensures RemoveAll(name + pat, pat) == name
  {
    if name == [] {
      assert name + pat == pat;
      assert pat[|pat|..] == [];
    } else {
      var s := name + pat;
      assert !StartsWith(s, pat) by { assert s[0] == name[0] != pat[0]; }
      assert s[1..] == name[1..] + pat;
      RemoveAllSuffix(name[1..], pat);
    }
  }

  /** ASCII `lower()`. */
  function Lower(s: string): (r: string)
    ensures |r| == |s|
    ensures forall k :: 0 <= k < |s| ==> r[k] == LowerChar(s[k])
  {
    seq(|s|, k requires 0 <= k < |s| => LowerChar(s[k]))
  }

  function LowerChar(c: char): char
  {
    if 'A' <= c <= 'Z' then (c as int - 'A' as int + 'a' as int) as char else c
  }

  /** `os.path.join(a, b)` for a relative `b`. */
  function PathJoin(a: string, b: string): (r: string)
    ensures EndsWith(r, b)
    ensures a != "" ==> |r| > |b| && StartsWith(r, a) && r[|r| - |b| - 1] == '/'
  {
    if a == "" then b
    else if EndsWith(a, "/") then a + b
    else a + "/" + b
  }
}
