/**
 * The slice of Python the library leans on: dynamically typed values, the
 * exceptions its calls raise, truthiness, `str()` rendering and keyword
 * dictionaries that remember insertion order.
 */
module Python {

  datatype Option<T> = None | Some(value: T)

  /** The exception a call raises, by class. */
  datatype Error =
    | PyroError(msg: string)      // pyrostat's own exception class
    | EurobaseError(msg: string)  // the exception class of the older drafts
    | TypeError
    | ValueError
    | KeyError
    | IndexError
    | NameError
    | AttributeError
    | UnboundLocalError
    | OSError

  datatype Result<T> = Ok(value: T) | Err(error: Error)

  /** A Python object, as far as the library inspects it. */
  datatype Py =
    | PNone
    | PBool(b: bool)
    | PInt(i: int)
    | PStr(s: string)
    | PDelta(seconds: int)              // datetime.timedelta, whole seconds
    | PList(items: seq<Py>)
    | PTuple(items: seq<Py>)
    | PDict(entries: seq<(Py, Py)>)
    | PObject(repr: string)             // anything else, known by its repr

  /** `bool(v)` */
  predicate Truthy(v: Py)
  {
    match v
    case PNone => false
    case PBool(b) => b
    case PInt(i) => i != 0
    case PStr(s) => s != ""
    case PDelta(d) => d != 0
    case PList(items) => items != []
    case PTuple(items) => items != []
    case PDict(entries) => entries != []
    case PObject(_) => true
  }

  /** `a or b` */
  function Or(a: Py, b: Py): (r: Py)
    ensures Truthy(a) ==> r == a
    ensures !Truthy(a) ==> r == b
  {
    if Truthy(a) then a else b
  }

  /** `isinstance(v, int)`: a bool is an int in Python. */
  predicate IsInt(v: Py)
  {
    v.PBool? || v.PInt?
  }

  /** The integer value of an int or bool. */
  function IntOf(v: Py): int
    requires IsInt(v)
  {
    if v.PBool? then (if v.b then 1 else 0) else v.i
  }

  /**
   * `a == b`: a bool and an int compare by value, a list only equals a list
   * and a tuple a tuple, item by item, and two dicts are equal when they have
   * as many entries and each entry of the first has an equal key with an
   * equal value in the second, whatever the order.
   */
  predicate PyEq(a: Py, b: Py)
    decreases a
  {
    match a
    case PNone => b.PNone?
    case PBool(_) => IsInt(b) && IntOf(a) == IntOf(b)
    case PInt(_) => IsInt(b) && IntOf(a) == IntOf(b)
    case PStr(s) => b == PStr(s)
    case PDelta(d) => b == PDelta(d)
    case PList(xs) => b.PList? && ItemsEq(a, xs, b.items)
    case PTuple(xs) => b.PTuple? && ItemsEq(a, xs, b.items)
    case PDict(es) => b.PDict? && |es| == |b.entries| && EntriesIn(a, es, b.entries)
    case PObject(r) => b == PObject(r)
  }

  /** Item-wise equality of the items `xs` of `a` with `ys`. */
  predicate ItemsEq(a: Py, xs: seq<Py>, ys: seq<Py>)
    requires (a.PList? || a.PTuple?) && xs == a.items
    decreases a, 0
  {
    |xs| == |ys| && forall i :: 0 <= i < |xs| ==> (assert xs[i] in a.items; PyEq(xs[i], ys[i]))
  }

  /** Every entry of `es`, the entries of `a`, has an equal key with an equal value among `fs`. */
  predicate EntriesIn(a: Py, es: seq<(Py, Py)>, fs: seq<(Py, Py)>)
    requires a.PDict? && es == a.entries
    decreases a, 1
  {
    forall i :: 0 <= i < |es| ==> EntryIn(a, i, fs)
  }

  /** The entry at `i` of `a` has an equal key with an equal value among `fs`. */
  predicate EntryIn(a: Py, i: int, fs: seq<(Py, Py)>)
    requires a.PDict? && 0 <= i < |a.entries|
    decreases a, 0
  {
    assert a.entries[i] in a.entries;
    exists j :: 0 <= j < |fs| && PyEq(a.entries[i].0, fs[j].0) && PyEq(a.entries[i].1, fs[j].1)
  }

  /** Everything equals itself. */
  lemma {:induction false} PyEqRefl(a: Py)
    ensures PyEq(a, a)
    decreases a
  {
    match a
    case PList(xs) =>
      forall i | 0 <= i < |xs| ensures PyEq(xs[i], xs[i]) {
        assert xs[i] in a.items;
        PyEqRefl(xs[i]);
      }
    case PTuple(xs) =>
      forall i | 0 <= i < |xs| ensures PyEq(xs[i], xs[i]) {
        assert xs[i] in a.items;
        PyEqRefl(xs[i]);
      }
    case PDict(es) =>
      forall i | 0 <= i < |es| ensures EntryIn(a, i, es) {
        assert es[i] in a.entries;
        PyEqRefl(es[i].0);
        PyEqRefl(es[i].1);
      }
    case _ =>
  }

  /** `x in items`: some item equals `x`. */
  predicate Holds(items: seq<Py>, x: Py)
  {
    exists i :: 0 <= i < |items| && PyEq(x, items[i])
  }

  /** Whatever is among the items is held. */
  lemma HoldsItem(items: seq<Py>, x: Py)
    requires x in items
    ensures Holds(items, x)
  {
    var i :| 0 <= i < |items| && items[i] == x;
    PyEqRefl(x);
  }

  /** A string is held exactly when it is among the items: it equals only itself. */
  lemma HoldsStr(items: seq<Py>, s: string)
    ensures Holds(items, PStr(s)) <==> PStr(s) in items
  {
    if PStr(s) in items {
      HoldsItem(items, PStr(s));
    }
  }

  /** `1 in [True]` and `True in [1]`, while the two values differ. */
  lemma IntHeldAsBool()
    ensures PInt(1) != PBool(true)
    ensures Holds([PBool(true)], PInt(1)) && Holds([PInt(1)], PBool(true))
  {
    assert PyEq(PInt(1), [PBool(true)][0]);
    assert PyEq(PBool(true), [PInt(1)][0]);
  }

  /** Two dicts differing only in the order of their entries are equal. */
  lemma DictOrderIgnored(k1: Py, v1: Py, k2: Py, v2: Py)
    ensures PyEq(PDict([(k1, v1), (k2, v2)]), PDict([(k2, v2), (k1, v1)]))
  {
    PyEqRefl(k1);
    PyEqRefl(v1);
    PyEqRefl(k2);
    PyEqRefl(v2);
    var a := PDict([(k1, v1), (k2, v2)]);
    var b := PDict([(k2, v2), (k1, v1)]);
    assert PyEq(a.entries[0].0, b.entries[1].0) && PyEq(a.entries[0].1, b.entries[1].1);
    assert PyEq(a.entries[1].0, b.entries[0].0) && PyEq(a.entries[1].1, b.entries[0].1);
  }

  /** `hash(v)` succeeds: not a list or a dict, and a tuple only of such values. */
  predicate Hashable(v: Py)
    decreases v
  {
    match v
    case PList(_) => false
    case PDict(_) => false
    case PTuple(xs) => forall i :: 0 <= i < |xs| ==> (assert xs[i] in v.items; Hashable(xs[i]))
    case _ => true
  }

  /** `v in (s1, s2, ...)` for a tuple of strings. */
  predicate InStrs(v: Py, xs: seq<string>)
  {
    v.PStr? && v.s in xs
  }

  /** Decimal digits of a natural number. */
  function NatToString(n: nat): (r: string)
    ensures |r| > 0
    ensures forall k :: 0 <= k < |r| ==> '0' <= r[k] <= '9'
    decreases n
  {
    if n < 10 then [Digit(n)] else NatToString(n / 10) + [Digit(n % 10)]
  }

  function Digit(d: nat): (c: char)
    requires d < 10
    ensures '0' <= c <= '9'
  {
    "0123456789"[d]
  }

  /** `str(i)` for an int. */
  function IntToString(i: int): string
  {
    if i < 0 then "-" + NatToString(-i) else NatToString(i)
  }

  /** Two digits, zero-padded: `"%02d"` for 0 <= n < 100. */
  function TwoDigits(n: nat): string
    requires n < 100
  {
    [Digit(n / 10), Digit(n % 10)]
  }

  /** `str(timedelta(seconds=s))`: "[D day[s], ]H:MM:SS", days floored. */
  function DeltaToString(s: int): string
  {
    var days := s / 86400;
    var rest := s % 86400;
    var clock := IntToString(rest / 3600) + ":" + TwoDigits(rest % 3600 / 60) + ":" + TwoDigits(rest % 60);
    if days == 0 then clock
    else IntToString(days) + " day" + (if days == 1 || days == -1 then "" else "s") + ", " + clock
  }

  /** `repr(v)`; a string is quoted and escaped as `str.__repr__` does. */
  function Repr(v: Py): string
    decreases v, 3, 0
  {
    match v
    case PStr(s) => StrRepr(s)
    case _ => Str(v)
  }

  /**
   * The quote `repr` puts around a string: a double quote when the text holds
   * a single quote and no double quote, a single quote otherwise.
   */
  function QuoteFor(s: string): (q: char)
    ensures q == '"' <==> '\'' in s && '"' !in s
    ensures q == '"' || q == '\''
  {
    if '\'' in s && '"' !in s then '"' else '\''
  }

  /** One character as `repr` writes it inside quotes `q`: the quote itself and the backslash escaped, tab, newline and return spelled out. */
  function EscapeChar(c: char, q: char): string
  {
    if c == q || c == '\\' then ['\\', c]
    else if c == '\t' then "\\t"
    else if c == '\n' then "\\n"
    else if c == '\r' then "\\r"
    else [c]
  }

  /** The text between the quotes, character by character. */
  function Escaped(s: string, q: char): string
  {
    if s == [] then "" else EscapeChar(s[0], q) + Escaped(s[1..], q)
  }

  /** A text with nothing to escape is written as it is. */
  lemma {:induction false} EscapedPlain(s: string, q: char)
    requires q !in s && '\\' !in s && '\t' !in s && '\n' !in s && '\r' !in s
    ensures Escaped(s, q) == s
  {
    if s != [] {
      assert s[1..][..] == s[1..];
      assert forall c :: c in s[1..] ==> c in s;
      EscapedPlain(s[1..], q);
    }
  }

  function StrRepr(s: string): string
  {
    [QuoteFor(s)] + Escaped(s, QuoteFor(s)) + [QuoteFor(s)]
  }

  /** A text without quotes, backslashes or control characters is shown as it is, between single quotes. */
  lemma PlainStrRepr(s: string)
    requires '\'' !in s && '"' !in s && '\\' !in s && '\t' !in s && '\n' !in s && '\r' !in s
    ensures Repr(PStr(s)) == "'" + s + "'"
  {
    EscapedPlain(s, '\'');
  }

  /** A text holding a single quote, and no double quote, backslash or control character, is shown between double quotes. */
  lemma SingleQuoteSwitchesQuote(s: string)
    requires '\'' in s && '"' !in s && '\\' !in s && '\t' !in s && '\n' !in s && '\r' !in s
    ensures Repr(PStr(s)) == "\"" + s + "\""
  {
    EscapedPlain(s, '"');
  }

  /** The reprs of the items of a list or tuple from index `from` on, comma-separated. */
  function ReprItems(v: Py, from: nat): string
    requires v.PList? || v.PTuple?
    decreases v, 1, |v.items| - from
  {
    if from >= |v.items| then ""
    else if from == |v.items| - 1 then Repr(v.items[from])
    else Repr(v.items[from]) + ", " + ReprItems(v, from + 1)
  }

  /** The `key: value` reprs of a dict from index `from` on, comma-separated. */
  function ReprEntries(v: Py, from: nat): string
    requires v.PDict?
    decreases v, 1, |v.entries| - from
  {
    if from >= |v.entries| then ""
    else
      assert v.entries[from] in v.entries;
      var e := Repr(v.entries[from].0) + ": " + Repr(v.entries[from].1);
      if from == |v.entries| - 1 then e else e + ", " + ReprEntries(v, from + 1)
  }

  /** `str(v)`, which is what `"%s" % v` and `"{}".format(v)` produce. */
  function Str(v: Py): string
    decreases v, 2, 0
  {
    match v
    case PNone => "None"
    case PBool(b) => if b then "True" else "False"
    case PInt(i) => IntToString(i)
    case PStr(s) => s
    case PDelta(d) => DeltaToString(d)
    case PList(items) => "[" + ReprItems(v, 0) + "]"
    case PTuple(items) =>
      if |items| == 1 then "(" + Repr(items[0]) + ",)" else "(" + ReprItems(v, 0) + ")"
    case PDict(entries) => "{" + ReprEntries(v, 0) + "}"
    case PObject(r) => r
  }

  /** Keyword arguments: an insertion-ordered dictionary from names to values. */
  type Kwargs = seq<(string, Py)>

  function Keys(kw: Kwargs): (ks: seq<string>)
    ensures |ks| == |kw|
  {
    seq(|kw|, i requires 0 <= i < |kw| => kw[i].0)
  }

  /** `k in kw` */
  predicate Has(kw: Kwargs, k: string)
  {
    exists i :: 0 <= i < |kw| && kw[i].0 == k
  }

  /** A dictionary holds each key once. */
  predicate DistinctKeys(kw: Kwargs)
  {
    forall i, j :: 0 <= i < j < |kw| ==> kw[i].0 != kw[j].0
  }

  /** `kw.get(k, default)` */
  function Get(kw: Kwargs, k: string, default: Py): (v: Py)
    ensures !Has(kw, k) ==> v == default
    ensures Has(kw, k) ==> exists i :: 0 <= i < |kw| && kw[i] == (k, v)
  {
    if kw == [] then default
    else if kw[0].0 == k then kw[0].1
    else
      var v := Get(kw[1..], k, default);
      assert Has(kw[1..], k) ==> exists i :: 0 <= i < |kw| - 1 && kw[1..][i] == (k, v);
      v
  }

  /** The dictionary after `kw.pop(k, ...)`. */
  function Remove(kw: Kwargs, k: string): (r: Kwargs)
    ensures !Has(r, k)
    ensures |r| <= |kw|
    ensures forall e :: e in r <==> e in kw && e.0 != k
    ensures !Has(kw, k) ==> r == kw
  {
    if kw == [] then []
    else if kw[0].0 == k then Remove(kw[1..], k)
    else
      var tail := Remove(kw[1..], k);
      assert forall e :: e in tail ==> e in kw[1..];
      [kw[0]] + tail
  }

  /** Popping a key keeps a dictionary's keys distinct. */
  lemma {:induction false} RemoveDistinct(kw: Kwargs, k: string)
    requires DistinctKeys(kw)
    ensures DistinctKeys(Remove(kw, k))
    decreases |kw|
  {
    if kw != [] {
      assert DistinctKeys(kw[1..]) by {
        forall i, j | 0 <= i < j < |kw[1..]| ensures kw[1..][i].0 != kw[1..][j].0 {
          assert kw[1..][i] == kw[i + 1] && kw[1..][j] == kw[j + 1];
        }
      }
      RemoveDistinct(kw[1..], k);
      if kw[0].0 != k {
        var tail := Remove(kw[1..], k);
        var r := [kw[0]] + tail;
        forall i, j | 0 <= i < j < |r| ensures r[i].0 != r[j].0 {
          if i == 0 {
            assert r[j] in kw[1..];
            var m :| 0 <= m < |kw[1..]| && kw[1..][m] == r[j];
            assert kw[m + 1] == r[j];
          } else {
            assert r[i] == tail[i - 1] && r[j] == tail[j - 1];
          }
        }
      }
    }
  }

  /** Where key `k` sits in `kw`. */
  function IndexOf(kw: Kwargs, k: string): (i: nat)
    requires Has(kw, k)
    ensures i < |kw| && kw[i].0 == k
    ensures forall j :: 0 <= j < i ==> kw[j].0 != k
  {
    if kw[0].0 == k then 0
    else
      assert Has(kw[1..], k) by {
        var j :| 0 <= j < |kw| && kw[j].0 == k;
        assert kw[1..][j - 1].0 == k;
      }
      1 + IndexOf(kw[1..], k)
  }

  /** `kw.update({k: v})`: an existing key keeps its place, a new key goes last. */
  function Put(kw: Kwargs, k: string, v: Py): (r: Kwargs)
    ensures Has(r, k) && Get(r, k, PNone) == v
    ensures Keys(r) == if Has(kw, k) then Keys(kw) else Keys(kw) + [k]
    ensures DistinctKeys(kw) ==> DistinctKeys(r)
    ensures DistinctKeys(kw) ==> forall e :: e in r <==> e == (k, v) || (e in kw && e.0 != k)
  {
    if Has(kw, k) then
      var i := IndexOf(kw, k);
      var r := kw[i := (k, v)];
      assert r[i].0 == k;
      GetFirst(r, k, i);
      UpdateEntries(kw, i, (k, v));
      r
    else
      var r := kw + [(k, v)];
      assert r[|kw|].0 == k;
      GetFirst(r, k, |kw|);
      r
  }

  /** In a dictionary, setting one key leaves the presence and value of every other key as they were. */
  lemma PutOther(kw: Kwargs, k: string, v: Py, m: string)
    requires DistinctKeys(kw) && m != k
    ensures Has(Put(kw, k, v), m) <==> Has(kw, m)
    ensures Get(Put(kw, k, v), m, PNone) == Get(kw, m, PNone)
  {
    var r := Put(kw, k, v);
    HasEntry(kw, m);
    HasEntry(r, m);
    if Has(kw, m) {
      var x := Get(kw, m, PNone);
      assert (m, x) in kw;
      assert (m, x) in r;
      GetOfEntry(r, m, x, PNone);
    }
  }

  /** A new key goes last. */
  lemma PutNew(kw: Kwargs, k: string, v: Py)
    requires !Has(kw, k)
    ensures Put(kw, k, v) == kw + [(k, v)]
  {
  }

  lemma {:induction false} GetFirst(kw: Kwargs, k: string, i: nat)
    requires i < |kw| && kw[i].0 == k
    requires forall j :: 0 <= j < i ==> kw[j].0 != k
    ensures Get(kw, k, PNone) == kw[i].1
    decreases i
  {
    if i > 0 {
      GetFirst(kw[1..], k, i - 1);
    }
  }

  /** A key is present exactly when some entry carries it. */
  /** A new key in front of a dictionary keeps its keys distinct. */
  lemma ConsDistinct(e: (string, Py), kw: Kwargs)
    requires DistinctKeys(kw) && !Has(kw, e.0)
    ensures DistinctKeys([e] + kw)
  {
    var s := [e] + kw;
    forall i, j | 0 <= i < j < |s| ensures s[i].0 != s[j].0 {
      assert s[j] == kw[j - 1];
      if i > 0 { assert s[i] == kw[i - 1]; }
    }
  }

  /** A key is held exactly when it is among the keys. */
  lemma HasKeys(kw: Kwargs, k: string)
    ensures Has(kw, k) <==> k in Keys(kw)
  {
    if Has(kw, k) {
      var i :| 0 <= i < |kw| && kw[i].0 == k;
      assert Keys(kw)[i] == k;
    }
    if k in Keys(kw) {
      var i :| 0 <= i < |Keys(kw)| && Keys(kw)[i] == k;
      assert kw[i].0 == k;
    }
  }

  lemma HasEntry(kw: Kwargs, k: string)
    ensures Has(kw, k) <==> exists e :: e in kw && e.0 == k
  {
    if exists e :: e in kw && e.0 == k {
      var e :| e in kw && e.0 == k;
      var i :| 0 <= i < |kw| && kw[i] == e;
    }
  }


  /** In a dictionary, the value read under a key is the one its entry holds. */
  lemma GetOfEntry(kw: Kwargs, k: string, v: Py, default: Py)
    requires DistinctKeys(kw) && (k, v) in kw
    ensures Get(kw, k, default) == v
  {
    var j :| 0 <= j < |kw| && kw[j] == (k, v);
    assert Has(kw, k);
    var i :| 0 <= i < |kw| && kw[i] == (k, Get(kw, k, default));
    assert i == j;
  }

  /** Two dictionaries holding the same entries under `k` agree on whether they hold `k` and on what they read under it. */
  lemma SameEntry(a: Kwargs, b: Kwargs, k: string, d: Py)
    requires DistinctKeys(a) && DistinctKeys(b)
    requires forall v :: (k, v) in a <==> (k, v) in b
    ensures Has(a, k) <==> Has(b, k)
    ensures Get(a, k, d) == Get(b, k, d)
  {
    if Has(a, k) {
      var v := Get(a, k, d);
      assert (k, v) in a;
      var j :| 0 <= j < |b| && b[j] == (k, v);
      GetOfEntry(b, k, v, d);
    }
    if Has(b, k) {
      var v := Get(b, k, d);
      assert (k, v) in b;
      var j :| 0 <= j < |a| && a[j] == (k, v);
      GetOfEntry(a, k, v, d);
    }
  }

  /** The dictionary with every key of `ks` taken out, the others in order. */
  function Without(kw: Kwargs, ks: set<string>): (r: Kwargs)
    ensures forall e :: e in r <==> e in kw && e.0 !in ks
    ensures |r| <= |kw|
    decreases |kw|
  {
    if kw == [] then []
    else
      assert forall e :: e in kw <==> e == kw[0] || e in kw[1..];
      (if kw[0].0 in ks then [] else [kw[0]]) + Without(kw[1..], ks)
  }

  /** Popping one key is taking out a one-key set. */
  lemma {:induction false} RemoveIsWithout(kw: Kwargs, k: string)
    ensures Remove(kw, k) == Without(kw, {k})
    decreases |kw|
  {
    if kw != [] {
      RemoveIsWithout(kw[1..], k);
    }
  }

  /** Taking out every key present leaves nothing. */
  lemma {:induction false} WithoutAll(kw: Kwargs, ks: set<string>)
    requires forall i :: 0 <= i < |kw| ==> kw[i].0 in ks
    ensures Without(kw, ks) == []
    decreases |kw|
  {
    if kw != [] {
      assert forall i :: 0 <= i < |kw| - 1 ==> kw[1..][i] == kw[i + 1];
      WithoutAll(kw[1..], ks);
    }
  }

  /** Taking out two sets in turn is taking out their union. */
  lemma {:induction false} WithoutTwice(kw: Kwargs, a: set<string>, b: set<string>)
    ensures Without(Without(kw, a), b) == Without(kw, a + b)
    decreases |kw|
  {
    if kw != [] {
      WithoutTwice(kw[1..], a, b);
      var head := if kw[0].0 in a then [] else [kw[0]];
      WithoutConcat(head, Without(kw[1..], a), b);
      if kw[0].0 !in a {
        assert Without(head, b) == (if kw[0].0 in b then [] else [kw[0]]) + Without([], b);
      }
    }
  }

  /** Taking keys out of a concatenation takes them out of each part. */
  lemma {:induction false} WithoutConcat(x: Kwargs, y: Kwargs, ks: set<string>)
    ensures Without(x + y, ks) == Without(x, ks) + Without(y, ks)
    decreases |x|
  {
    if x == [] {
      assert x + y == y;
    } else {
      assert (x + y)[0] == x[0];
      assert (x + y)[1..] == x[1..] + y;
      WithoutConcat(x[1..], y, ks);
    }
  }

  /** Overwriting an entry whose key is taken out changes nothing. */
  lemma {:induction false} WithoutUpdate(kw: Kwargs, i: nat, e: (string, Py), ks: set<string>)
    requires i < |kw| && kw[i].0 in ks && e.0 in ks
    ensures Without(kw[i := e], ks) == Without(kw, ks)
    decreases i
  {
    if i > 0 {
      assert kw[i := e][1..] == kw[1..][i - 1 := e];
      WithoutUpdate(kw[1..], i - 1, e, ks);
    } else {
      assert kw[i := e][1..] == kw[1..];
    }
  }

  /** A key written and then taken out leaves no trace. */
  lemma WithoutPut(kw: Kwargs, k: string, v: Py, ks: set<string>)
    requires k in ks
    ensures Without(Put(kw, k, v), ks) == Without(kw, ks)
  {
    if Has(kw, k) {
      WithoutUpdate(kw, IndexOf(kw, k), (k, v), ks);
    } else {
      WithoutConcat(kw, [(k, v)], ks);
      assert Without([(k, v)], ks) == [] + Without([], ks);
      assert Without(kw, ks) + [] == Without(kw, ks);
    }
  }

  /** Overwriting the entry of a key, by membership. */
  lemma UpdateEntries(kw: Kwargs, i: nat, e: (string, Py))
    requires i < |kw| && kw[i].0 == e.0
    ensures DistinctKeys(kw) ==> forall x :: x in kw[i := e] <==> x == e || (x in kw && x.0 != e.0)
  {
    var r := kw[i := e];
    if DistinctKeys(kw) {
      forall x ensures x in r <==> x == e || (x in kw && x.0 != e.0) {
        if x in r {
          var j :| 0 <= j < |r| && r[j] == x;
          if j != i { assert kw[j] == x; }
        }
        if x in kw && x.0 != e.0 {
          var j :| 0 <= j < |kw| && kw[j] == x;
          assert r[j] == x;
        }
        if x == e { assert r[i] == x; }
      }
    }
  }

  /** Popping one key leaves the value under every other key as it was. */
  lemma {:induction false} GetRemove(kw: Kwargs, k: string, k2: string, default: Py)
    requires k != k2
    ensures Get(Remove(kw, k), k2, default) == Get(kw, k2, default)
    decreases |kw|
  {
    if kw != [] {
      GetRemove(kw[1..], k, k2, default);
      if kw[0].0 != k {
        assert ([kw[0]] + Remove(kw[1..], k))[1..] == Remove(kw[1..], k);
      }
    }
  }

  /** Popping a key other than the last entry's keeps that entry last. */
  lemma {:induction false} RemoveSnoc(kw: Kwargs, e: (string, Py), k: string)
    requires e.0 != k
    ensures Remove(kw + [e], k) == Remove(kw, k) + [e]
    decreases |kw|
  {
    if kw == [] {
      assert ([] + [e])[1..] == [];
    } else {
      assert (kw + [e])[0] == kw[0];
      assert (kw + [e])[1..] == kw[1..] + [e];
      RemoveSnoc(kw[1..], e, k);
    }
  }

  /** Popping a key other than the first entry's keeps that entry first. */
  lemma RemoveCons(e: (string, Py), kw: Kwargs, k: string)
    requires e.0 != k
    ensures Remove([e] + kw, k) == [e] + Remove(kw, k)
  {
    assert ([e] + kw)[0] == e;
    assert ([e] + kw)[1..] == kw;
  }

  /** An entry added last does not change the value read under another key. */
  lemma {:induction false} GetSnoc(kw: Kwargs, e: (string, Py), k: string, default: Py)
    requires e.0 != k
    ensures Get(kw + [e], k, default) == Get(kw, k, default)
    decreases |kw|
  {
    if kw == [] {
      assert ([] + [e])[1..] == [];
    } else {
      assert (kw + [e])[0] == kw[0];
      assert (kw + [e])[1..] == kw[1..] + [e];
      GetSnoc(kw[1..], e, k, default);
    }
  }
}
