/**
 * Python runtime values as the application stores them in dictionaries
 * and JSON: dictionaries keep insertion order and have string keys.
 */
module Values {
  import opened Wrappers
  import PyStr

  /** A Python float: its numeric value and the text `str()` prints for it. */
  datatype Float = F(value: real, text: string)

  datatype Value =
    | Null
    | Bool(b: bool)
    | Int(i: int)
    | Real(f: Float)
    | Str(s: string)
    | List(items: seq<Value>)
    | Obj(entries: seq<(string, Value)>)

  /** Python truthiness (`if value:`). */
  predicate Truthy(v: Value) {
    match v
    case Null => false
    case Bool(b) => b
    case Int(i) => i != 0
    case Real(f) => f.value != 0.0
    case Str(s) => |s| > 0
    case List(xs) => |xs| > 0
    case Obj(es) => |es| > 0
  }

  // ------------------------------------------------- repr of a string

  /** The quote `repr` puts around a string: double only when the text has a single quote and no double one. */
  function QuoteOf(s: string): (q: char)
    ensures q == '\'' || q == '"'
    ensures q == '"' <==> '\'' in s && '"' !in s
  {
    if '\'' in s && '"' !in s then '"' else '\''
  }

  const HexDigits: string := "0123456789abcdef"

  /** A byte as two lower-case hex digits. */
  function Hex2(n: nat): (r: string)
    requires n < 256
    ensures |r| == 2 && HexValue(r[0]) * 16 + HexValue(r[1]) == n
  {
    HexDigitValue(n / 16);
    HexDigitValue(n % 16);
    [HexDigits[n / 16], HexDigits[n % 16]]
  }

  function HexValue(c: char): int {
    if '0' <= c <= '9' then c as int - '0' as int
    else if 'a' <= c <= 'f' then c as int - 'a' as int + 10
    else -1
  }

  lemma HexDigitValue(d: nat)
    requires d < 16
    ensures HexValue(HexDigits[d]) == d
  {
  }

  /** One character as `repr` writes it inside the quotes `q`. */
  function EscapeChar(c: char, q: char): (r: string)
    ensures |r| > 0
  {
    if c == '\\' then "\\\\"
    else if c == q then ['\\', q]
    else if c == '\n' then "\\n"
    else if c == '\r' then "\\r"
    else if c == '\t' then "\\t"
    else if c as int < 32 || c as int == 127 then "\\x" + Hex2(c as int)
    else [c]
  }

  /** The text between the quotes of `repr(s)`. */
  function Escaped(s: string, q: char): (r: string)
    decreases |s|
  {
    if |s| == 0 then [] else EscapeChar(s[0], q) + Escaped(s[1..], q)
  }

  /** `repr(s)` for a string `s`. */
  function StrRepr(s: string): (r: string)
    ensures |r| >= 2 && r[0] == QuoteOf(s) && r[|r| - 1] == QuoteOf(s)
  {
    [QuoteOf(s)] + Escaped(s, QuoteOf(s)) + [QuoteOf(s)]
  }

  /** Reads back the escapes `repr` writes; an unknown escape is kept as it stands. */
  function Unescaped(t: string): string
    decreases |t|
  {
    if |t| == 0 then []
    else if t[0] != '\\' || |t| == 1 then [t[0]] + Unescaped(t[1..])
    else if t[1] == '\\' || t[1] == '\'' || t[1] == '"' then [t[1]] + Unescaped(t[2..])
    else if t[1] == 'n' then ['\n'] + Unescaped(t[2..])
    else if t[1] == 'r' then ['\r'] + Unescaped(t[2..])
    else if t[1] == 't' then ['\t'] + Unescaped(t[2..])
    else if t[1] == 'x' && |t| >= 4 && 0 <= HexValue(t[2]) && 0 <= HexValue(t[3]) then
      [(HexValue(t[2]) * 16 + HexValue(t[3])) as char] + Unescaped(t[4..])
    else [t[0]] + Unescaped(t[1..])
  }

  lemma EscapeCharReadsBack(c: char, q: char, rest: string)
    requires q == '\'' || q == '"'
    ensures Unescaped(EscapeChar(c, q) + rest) == [c] + Unescaped(rest)
  {
    var e := EscapeChar(c, q);
    if c == '\\' || c == q || c == '\n' || c == '\r' || c == '\t' {
      assert (e + rest)[2..] == rest;
    } else if c as int < 32 || c as int == 127 {
      assert (e + rest)[4..] == rest;
    } else {
      assert (e + rest)[1..] == rest;
    }
  }

  /** No information is lost between the quotes: reading the escapes back gives the text. */
  lemma {:induction false} EscapedReadsBack(s: string, q: char)
    requires q == '\'' || q == '"'
    ensures Unescaped(Escaped(s, q)) == s
    decreases |s|
  {
    if |s| > 0 {
      EscapedReadsBack(s[1..], q);
      EscapeCharReadsBack(s[0], q, Escaped(s[1..], q));
    }
  }

  /** `repr` of a string is a round trip: strip the quotes, read the escapes, and the text is back. */
  lemma StrReprRoundTrip(s: string)
    ensures var r := StrRepr(s); Unescaped(r[1..|r| - 1]) == s
  {
    var r := StrRepr(s);
    assert r[1..|r| - 1] == Escaped(s, QuoteOf(s));
    EscapedReadsBack(s, QuoteOf(s));
  }

  /** A printable text without quote or backslash is written as it stands, between single quotes. */
  lemma {:induction false} PlainEscaped(s: string)
    requires forall i :: 0 <= i < |s| ==> s[i] != '\\' && s[i] != '\'' && 32 <= s[i] as int != 127
    ensures StrRepr(s) == "'" + s + "'"
  {
    PlainEscapedAs(s, '\'');
  }

  lemma {:induction false} PlainEscapedAs(s: string, q: char)
    requires q == '\''
    requires forall i :: 0 <= i < |s| ==> s[i] != '\\' && s[i] != q && 32 <= s[i] as int != 127
    ensures Escaped(s, q) == s
    decreases |s|
  {
    if |s| > 0 {
      PlainEscapedAs(s[1..], q);
      assert s == [s[0]] + s[1..];
    }
  }

  /**
   * `repr(v)`: the form a value takes inside a printed list or dictionary.
   * Strings, and the keys of a dictionary, are written by `StrRepr`.
   */
  function Repr(v: Value): string
    decreases v
  {
    match v
    case Null => "None"
    case Bool(b) => if b then "True" else "False"
    case Int(i) => PyStr.IntToStr(i)
    case Real(f) => f.text
    case Str(s) => StrRepr(s)
    case List(xs) => "[" + PyStr.Join(", ", seq(|xs|, i requires 0 <= i < |xs| => Repr(xs[i]))) + "]"
    case Obj(es) =>
      "{" + PyStr.Join(", ", seq(|es|, i requires 0 <= i < |es| => StrRepr(es[i].0) + ": " + Repr(es[i].1))) + "}"
  }

  /** `str(v)`, as an f-string prints a value: a string prints as itself. */
  function ToText(v: Value): (r: string)
    ensures v.Str? ==> r == v.s
    ensures !v.Str? ==> r == Repr(v)
  {
    if v.Str? then v.s else Repr(v)
  }

  /** An insertion-ordered dictionary with string keys. */
  type Dict<V> = seq<(string, V)>

  function Keys<V>(d: Dict<V>): (ks: seq<string>)
    ensures |ks| == |d| && forall i :: 0 <= i < |d| ==> ks[i] == d[i].0
  {
    if |d| == 0 then [] else [d[0].0] + Keys(d[1..])
  }

  predicate DistinctKeys<V>(d: Dict<V>) {
    forall i, j :: 0 <= i < j < |d| ==> d[i].0 != d[j].0
  }

  predicate HasKey<V>(d: Dict<V>, k: string) {
    exists i :: 0 <= i < |d| && d[i].0 == k
  }

  /** The position of the entry with key `k`, or -1. */
  function IndexOf<V>(d: Dict<V>, k: string): (r: int)
    ensures -1 <= r < |d|
    ensures r >= 0 ==> d[r].0 == k
  {
    if |d| == 0 then -1
    else if d[|d| - 1].0 == k && IndexOf(d[..|d| - 1], k) == -1 then |d| - 1
    else IndexOf(d[..|d| - 1], k)
  }

  /** `IndexOf` finds the first entry with the key, and -1 exactly when there is none. */
  lemma {:induction false} IndexOfSpec<V>(d: Dict<V>, k: string)
    ensures IndexOf(d, k) == -1 <==> !HasKey(d, k)
    ensures IndexOf(d, k) >= 0 ==> forall j :: 0 <= j < IndexOf(d, k) ==> d[j].0 != k
  {
    if |d| > 0 {
      var n := |d| - 1;
      var f := d[..n];
      IndexOfSpec(f, k);
      assert forall j :: 0 <= j < n ==> f[j] == d[j];
      if IndexOf(f, k) != -1 {
        assert IndexOf(d, k) == IndexOf(f, k);
        assert d[IndexOf(f, k)].0 == k;
      } else if d[n].0 == k {
        assert IndexOf(d, k) == n;
      } else {
        assert IndexOf(d, k) == -1;
      }
    }
  }

  /** The position of a key depends only on the keys. */
  lemma IndexOfSameKeys<V>(d: Dict<V>, e: Dict<V>, k: string)
    requires |d| == |e| && forall j :: 0 <= j < |d| ==> d[j].0 == e[j].0
    ensures IndexOf(d, k) == IndexOf(e, k)
  {
    if |d| > 0 {
      IndexOfSameKeys(d[..|d| - 1], e[..|e| - 1], k);
    }
  }

  /** `d.get(k)`: the value stored under key `k`, or `None`. */
  function Get<V>(d: Dict<V>, k: string): Option<V> {
    var i := IndexOf(d, k);
    if i == -1 then None else Some(d[i].1)
  }

  lemma GetNone<V>(d: Dict<V>, k: string)
    ensures Get(d, k).None? <==> !HasKey(d, k)
  {
    IndexOfSpec(d, k);
  }

  lemma GetAt<V>(d: Dict<V>, i: nat)
    requires DistinctKeys(d) && i < |d|
    ensures Get(d, d[i].0) == Some(d[i].1)
  {
    IndexOfSpec(d, d[i].0);
    var j := IndexOf(d, d[i].0);
    assert j >= 0 && d[j].0 == d[i].0;
  }

  /** An appended entry is found under its key unless the key was already present. */
  lemma GetSnoc<V>(d: Dict<V>, k: string, v: V, q: string)
    ensures Get(d + [(k, v)], q) == if q == k && !HasKey(d, k) then Some(v) else Get(d, q)
  {
    var e := d + [(k, v)];
    assert e[..|d|] == d;
    GetNone(d, k);
  }

  /** `d.get(k, default)`. */
  function GetOr<V>(d: Dict<V>, k: string, default: V): V {
    Get(d, k).GetOr(default)
  }

  /**
   * `d[k] = v`: an existing key keeps its position and gets the new value,
   * a new key is appended at the end.
   */
  function Set<V>(d: Dict<V>, k: string, v: V): (r: Dict<V>)
    ensures Get(r, k) == Some(v)
  {
    var i := IndexOf(d, k);
    if i >= 0 then
      var r := d[i := (k, v)];
      assert IndexOf(r, k) == i by {
        IndexOfSameKeys(r, d, k);
      }
      r
    else
      var r := d + [(k, v)];
      PyStr.SnocParts(d, (k, v));
      r
  }

  /**
   * `d[k] = v` keeps the keys in place when `k` is present and appends it
   * otherwise; every other key keeps its value, and keys stay distinct.
   */
  lemma SetProperties<V>(d: Dict<V>, k: string, v: V)
    ensures HasKey(d, k) ==> |Set(d, k, v)| == |d| && Keys(Set(d, k, v)) == Keys(d)
    ensures !HasKey(d, k) ==> Set(d, k, v) == d + [(k, v)]
    ensures forall k' :: k' != k ==> Get(Set(d, k, v), k') == Get(d, k')
    ensures DistinctKeys(d) ==> DistinctKeys(Set(d, k, v))
  {
    IndexOfSpec(d, k);
    if HasKey(d, k) {
      SetPresent(d, k, v);
    } else {
      SetAbsent(d, k, v);
    }
  }

  /** A present key is overwritten in place. */
  /** A second `d[k] = ...` overwrites the first: only the last value stays, in the same place. */
  lemma SetTwice<V>(d: Dict<V>, k: string, a: V, b: V)
    ensures Set(Set(d, k, a), k, b) == Set(d, k, b)
  {
    var i := IndexOf(d, k);
    if i >= 0 {
      var r := d[i := (k, a)];
      IndexOfSameKeys(r, d, k);
      assert Set(d, k, a) == r;
      assert Set(r, k, b) == r[i := (k, b)];
      assert r[i := (k, b)] == d[i := (k, b)];
    } else {
      var e := d + [(k, a)];
      assert Set(d, k, a) == e;
      assert IndexOf(e, k) == |d| by {
        PyStr.SnocParts(d, (k, a));
      }
      assert Set(e, k, b) == e[|d| := (k, b)];
      assert e[|d| := (k, b)] == d + [(k, b)];
    }
  }

  lemma SetPresent<V>(d: Dict<V>, k: string, v: V)
    requires IndexOf(d, k) >= 0
    ensures Set(d, k, v) == d[IndexOf(d, k) := (k, v)]
    ensures |Set(d, k, v)| == |d| && Keys(Set(d, k, v)) == Keys(d)
    ensures forall k' :: k' != k ==> Get(Set(d, k, v), k') == Get(d, k')
    ensures DistinctKeys(d) ==> DistinctKeys(Set(d, k, v))
  {
    var r := Set(d, k, v);
    forall k' ensures IndexOf(r, k') == IndexOf(d, k') {
      IndexOfSameKeys(r, d, k');
    }
    PyStr.SameElements(Keys(r), Keys(d));
  }

  /** An absent key is appended. */
  lemma SetAbsent<V>(d: Dict<V>, k: string, v: V)
    requires IndexOf(d, k) == -1
    ensures Set(d, k, v) == d + [(k, v)]
    ensures forall k' :: k' != k ==> Get(Set(d, k, v), k') == Get(d, k')
    ensures DistinctKeys(d) ==> DistinctKeys(Set(d, k, v))
  {
    IndexOfSpec(d, k);
    forall k' | k' != k ensures Get(Set(d, k, v), k') == Get(d, k') {
      GetSnoc(d, k, v, k');
    }
  }

  /** `r` is `d` without key `k`: keys stay distinct and the other lookups agree. */
  ghost predicate RemovedFrom<V>(r: Dict<V>, d: Dict<V>, k: string) {
    DistinctKeys(r) && !HasKey(r, k) && forall k' :: k' != k ==> Get(r, k') == Get(d, k')
  }

  /** `del d[k]`: the entry with key `k` is removed, the others keep their order. */
  function Remove<V>(d: Dict<V>, k: string): (r: Dict<V>)
    ensures !HasKey(d, k) ==> r == d
    ensures HasKey(d, k) ==> |r| == |d| - 1
    ensures DistinctKeys(d) ==> RemovedFrom(r, d, k)
  {
    IndexOfSpec(d, k);
    var i := IndexOf(d, k);
    if i == -1 then d
    else
      assert DistinctKeys(d) ==> RemovedFrom(d[..i] + d[i + 1..], d, k) by {
        if DistinctKeys(d) {
          RemoveAt(d, i);
        }
      }
      d[..i] + d[i + 1..]
  }

  lemma RemoveAt<V>(d: Dict<V>, i: nat)
    requires DistinctKeys(d) && i < |d|
    ensures RemovedFrom(d[..i] + d[i + 1..], d, d[i].0)
  {
    var r := d[..i] + d[i + 1..];
    PyStr.RemoveAtIndex(d, i);
    forall k' | k' != d[i].0 ensures Get(r, k') == Get(d, k') {
      RemoveAtGet(d, i, k');
    }
  }

  lemma RemoveAtGet<V>(d: Dict<V>, i: nat, k': string)
    requires DistinctKeys(d) && i < |d| && k' != d[i].0
    ensures Get(d[..i] + d[i + 1..], k') == Get(d, k')
  {
    var r := d[..i] + d[i + 1..];
    PyStr.RemoveAtIndex(d, i);
    IndexOfSpec(r, k');
    IndexOfSpec(d, k');
    var p, q := IndexOf(r, k'), IndexOf(d, k');
    if q >= 0 {
      assert r[if q < i then q else q - 1].0 == k';
    }
    if p >= 0 {
      assert d[if p < i then p else p + 1].0 == k';
    }
  }

  /** Looking up in a dictionary whose first entry is `x`. */
  lemma GetCons<V>(x: (string, V), t: Dict<V>, k: string)
    ensures Get([x] + t, k) == if x.0 == k then Some(x.1) else Get(t, k)
  {
    var d := [x] + t;
    IndexOfSpec(d, k);
    IndexOfSpec(t, k);
    var p, q := IndexOf(d, k), IndexOf(t, k);
    if x.0 != k {
      if q >= 0 {
        assert d[q + 1].0 == k;
        assert p >= 0 && p > 0;
        assert t[p - 1].0 == k;
      }
      if p > 0 {
        assert t[p - 1].0 == k;
        assert q >= 0;
      }
    } else {
      assert d[0].0 == k;
    }
  }

  /** `d.update(e)`: the entries of `e` are set into `d` one after the other. */
  function Update<V>(d: Dict<V>, e: Dict<V>): Dict<V>
    decreases |e|
  {
    if |e| == 0 then d else Update(Set(d, e[0].0, e[0].1), e[1..])
  }

  /** After `d.update(e)` a key finds its value in `e` if it has one there, else in `d`. */
  lemma {:induction false} UpdateGet<V>(d: Dict<V>, e: Dict<V>, k: string)
    requires DistinctKeys(e)
    ensures Get(Update(d, e), k) == if Get(e, k).Some? then Get(e, k) else Get(d, k)
    decreases |e|
  {
    if |e| > 0 {
      var t := e[1..];
      assert e == [e[0]] + t;
      GetCons(e[0], t, k);
      UpdateGet(Set(d, e[0].0, e[0].1), t, k);
      SetProperties(d, e[0].0, e[0].1);
      if e[0].0 == k {
        GetNone(t, k);
      }
    }
  }

  /**
   * The value of the last entry with key `k` in a list of entries that may
   * repeat keys, or `None`.
   */
  function LastGet<V>(e: Dict<V>, k: string): (r: Option<V>)
    ensures r.None? <==> !HasKey(e, k)
    ensures r.Some? ==> exists i :: 0 <= i < |e| && e[i] == (k, r.value) && forall j :: i < j < |e| ==> e[j].0 != k
    decreases |e|
  {
    if |e| == 0 then None
    else
      var r := LastGet(e[1..], k);
      assert forall j :: 1 <= j < |e| ==> e[j] == e[1..][j - 1];
      if r.Some? then r
      else if e[0].0 == k then Some(e[0].1)
      else None
  }

  /** After `d.update(e)`, with keys of `e` possibly repeated, the last entry for a key wins. */
  lemma {:induction false} UpdateLast<V>(d: Dict<V>, e: Dict<V>, k: string)
    ensures Get(Update(d, e), k) == if LastGet(e, k).Some? then LastGet(e, k) else Get(d, k)
    decreases |e|
  {
    if |e| > 0 {
      UpdateLast(Set(d, e[0].0, e[0].1), e[1..], k);
      SetProperties(d, e[0].0, e[0].1);
    }
  }

  predicate Distinct(ks: seq<string>) {
    forall i, j :: 0 <= i < j < |ks| ==> ks[i] != ks[j]
  }

  /** The dictionary literal `{ks[0]: vs[0], ks[1]: vs[1], ...}`. */
  function Zip<V>(ks: seq<string>, vs: seq<V>): (r: Dict<V>)
    requires |ks| == |vs|
    ensures |r| == |ks| && forall i :: 0 <= i < |ks| ==> r[i] == (ks[i], vs[i])
  {
    if |ks| == 0 then [] else [(ks[0], vs[0])] + Zip(ks[1..], vs[1..])
  }

  /** A dictionary literal has its keys in order, each once when they are distinct. */
  lemma ZipKeys<V>(ks: seq<string>, vs: seq<V>)
    requires |ks| == |vs|
    ensures Keys(Zip(ks, vs)) == ks
    ensures Distinct(ks) ==> DistinctKeys(Zip(ks, vs))
  {
  }

  lemma GetZip<V>(ks: seq<string>, vs: seq<V>, i: nat)
    requires |ks| == |vs| && Distinct(ks) && i < |ks|
    ensures Get(Zip(ks, vs), ks[i]) == Some(vs[i])
  {
    ZipKeys(ks, vs);
    GetAt(Zip(ks, vs), i);
  }
}
