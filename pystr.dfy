/**
 * Python string and list semantics used throughout the application:
 * `str.strip`, `find`, `replace`, `split`, `join`, `lower`, `isdigit`,
 * `str(int)`/`int(str)` and negative slicing `xs[-m:]`.
 */
module PyStr {

  /** Python's `str.isspace` set, the characters `strip()` removes. */
  predicate IsSpace(c: char) {
    c == ' ' || ('\t' <= c <= '\r') || ('\U{1C}' <= c <= '\U{1F}') || c == '\U{85}'
    || c == '\U{A0}' || c == '\U{1680}' || ('\U{2000}' <= c <= '\U{200A}')
    || c == '\U{2028}' || c == '\U{2029}' || c == '\U{202F}' || c == '\U{205F}' || c == '\U{3000}'
  }

  predicate AllSpace(s: string) {
    forall i :: 0 <= i < |s| ==> IsSpace(s[i])
  }

  /** No whitespace at either end: what `strip()` guarantees. */
  predicate Trimmed(s: string) {
    |s| == 0 || (!IsSpace(s[0]) && !IsSpace(s[|s| - 1]))
  }

  function LStrip(s: string): (r: string)
    ensures |r| <= |s| && r == s[|s| - |r|..]
    ensures |r| == 0 || !IsSpace(r[0])
  {
    if |s| == 0 || !IsSpace(s[0]) then s else LStrip(s[1..])
  }

  /** What `lstrip()` drops is whitespace. */
  lemma {:induction false} LStripDrops(s: string)
    ensures AllSpace(s[..|s| - |LStrip(s)|])
    decreases |s|
  {
    if |s| > 0 && IsSpace(s[0]) {
      LStripDrops(s[1..]);
      var n := |s| - |LStrip(s)|;
      forall k | 1 <= k < n ensures IsSpace(s[..n][k]) {
        assert s[..n][k] == s[1..][..n - 1][k - 1];
      }
    }
  }

  function RStrip(s: string): (r: string)
    ensures |r| <= |s| && r == s[..|r|]
    ensures |r| == 0 || !IsSpace(r[|r| - 1])
  {
    if |s| == 0 || !IsSpace(s[|s| - 1]) then s else RStrip(s[..|s| - 1])
  }

  /** `s.strip()`: the part of `s` between its leading and trailing whitespace. */
  function Strip(s: string): (r: string)
    ensures Trimmed(r)
  {
    RStrip(LStrip(s))
  }

  /** `strip()` cuts a slice out of the text: what `LStrip` drops, then what `RStrip` drops. */
  lemma StripSlice(s: string) returns (i: nat, j: nat)
    ensures i <= j <= |s| && Strip(s) == s[i..j]
  {
    i, j := |s| - |LStrip(s)|, |s| - |LStrip(s)| + |Strip(s)|;
    SliceOfSlice(s, LStrip(s), Strip(s));
  }

  lemma SliceOfSlice(s: string, l: string, r: string)
    requires |r| <= |l| <= |s| && l == s[|s| - |l|..] && r == l[..|r|]
    ensures r == s[|s| - |l|..|s| - |l| + |r|]
  {
  }

  lemma StripOfTrimmed(s: string)
    requires Trimmed(s)
    ensures Strip(s) == s
  {
  }

  /** A string that does not end in whitespace keeps its last character through `strip()`. */
  lemma StripKeepsLast(s: string)
    requires |s| > 0 && !IsSpace(s[|s| - 1])
    ensures |Strip(s)| > 0 && Strip(s)[|Strip(s)| - 1] == s[|s| - 1]
  {
    var l := LStrip(s);
    LStripDrops(s);
    assert |l| > 0 by {
      WholePrefix(s);
    }
    assert l[|l| - 1] == s[|s| - 1];
  }

  /** `Strip` is idempotent. */
  lemma StripIdempotent(s: string)
    ensures Strip(Strip(s)) == Strip(s)
  {
    StripOfTrimmed(Strip(s));
  }

  /** A string with no whitespace character at all strips to itself. */
  lemma StripNoSpace(s: string)
    requires forall i :: 0 <= i < |s| ==> !IsSpace(s[i])
    ensures Strip(s) == s
  {
  }

  /** `sub` occurs in `s` at position `i`. */
  predicate At(s: string, sub: string, i: int) {
    0 <= i && i + |sub| <= |s| && s[i..i + |sub|] == sub
  }

  /** Python's `sub in s`. */
  predicate Contains(s: string, sub: string) {
    exists i :: 0 <= i <= |s| && At(s, sub, i)
  }

  predicate StartsWith(s: string, p: string) {
    |p| <= |s| && s[..|p|] == p
  }

  predicate EndsWith(s: string, p: string) {
    |p| <= |s| && s[|s| - |p|..] == p
  }

  function FindFrom(s: string, sub: string, k: nat): (r: int)
    requires k <= |s| + 1
    ensures r == -1 || (k <= r && At(s, sub, r))
    ensures r == -1 ==> forall i :: k <= i ==> !At(s, sub, i)
    ensures r != -1 ==> forall i :: k <= i < r ==> !At(s, sub, i)
    decreases |s| + 1 - k
  {
    if k + |sub| > |s| then -1
    else if s[k..k + |sub|] == sub then k
    else FindFrom(s, sub, k + 1)
  }

  /** `s.find(sub)`: the first index where `sub` occurs, or -1. */
  function Find(s: string, sub: string): (r: int)
    ensures r == -1 <==> !Contains(s, sub)
    ensures r != -1 ==> At(s, sub, r) && forall i :: 0 <= i < r ==> !At(s, sub, i)
  {
    FindFrom(s, sub, 0)
  }

  function FindFromEnd(s: string, sub: string, k: int): (r: int)
    requires k <= |s|
    ensures r == -1 || (0 <= r <= k && At(s, sub, r))
    ensures r == -1 ==> forall i :: 0 <= i <= k ==> !At(s, sub, i)
    ensures r != -1 ==> forall i :: r < i <= k ==> !At(s, sub, i)
    decreases k + 1
  {
    if k < 0 then -1
    else if At(s, sub, k) then k
    else FindFromEnd(s, sub, k - 1)
  }

  /** `s.rfind(sub)`: the last index where `sub` occurs, or -1. */
  function RFind(s: string, sub: string): (r: int)
    ensures r == -1 <==> !Contains(s, sub)
    ensures r != -1 ==> At(s, sub, r) && forall i :: r < i ==> !At(s, sub, i)
  {
    FindFromEnd(s, sub, |s|)
  }

  /**
   * `s.replace(pat, rep)`: every non-overlapping occurrence of `pat`,
   * scanning left to right, is replaced by `rep`.
   */
  function Replace(s: string, pat: string, rep: string): (r: string)
    requires |pat| > 0
    decreases |s|
  {
    if |s| < |pat| then s
    else if s[..|pat|] == pat then rep + Replace(s[|pat|..], pat, rep)
    else [s[0]] + Replace(s[1..], pat, rep)
  }

  /** Replacing a string that does not occur changes nothing. */
  lemma {:induction false} ReplaceAbsent(s: string, pat: string, rep: string)
    requires |pat| > 0 && !Contains(s, pat)
    ensures Replace(s, pat, rep) == s
    decreases |s|
  {
    if |s| >= |pat| {
      assert !At(s, pat, 0);
      forall i | At(s[1..], pat, i) ensures false {
        assert s[1..][i..i + |pat|] == s[i + 1..i + 1 + |pat|];
        assert At(s, pat, i + 1);
      }
      ReplaceAbsent(s[1..], pat, rep);
    }
  }

  /** Deleting a pattern never lengthens a string, and shortens it when the pattern occurs. */
  lemma {:induction false} DeleteShortens(s: string, pat: string)
    requires |pat| > 0
    ensures |Replace(s, pat, "")| <= |s|
    ensures Contains(s, pat) ==> |Replace(s, pat, "")| < |s|
    decreases |s|
  {
    if |s| >= |pat| {
      if s[..|pat|] == pat {
        DeleteShortens(s[|pat|..], pat);
      } else {
        DeleteShortens(s[1..], pat);
        if Contains(s, pat) {
          var i :| 0 <= i <= |s| && At(s, pat, i);
          assert i != 0;
          assert s[1..][i - 1..i - 1 + |pat|] == s[i..i + |pat|];
          assert At(s[1..], pat, i - 1);
        }
      }
    }
  }

  /** Replacing a single character is a character-by-character substitution. */
  function MapChar(s: string, c: char, t: string): (r: string)
    ensures c !in t ==> c !in r
    ensures c !in s ==> r == s
    ensures forall x :: x in r ==> x in t || (x in s && x != c)
  {
    if |s| == 0 then ""
    else (if s[0] == c then t else [s[0]]) + MapChar(s[1..], c, t)
  }

  lemma {:induction false} ReplaceCharIsMap(s: string, c: char, t: string)
    ensures Replace(s, [c], t) == MapChar(s, c, t)
    decreases |s|
  {
    if |s| > 0 {
      ReplaceCharIsMap(s[1..], c, t);
    }
  }

  lemma {:induction false} MapCharAppend(a: string, b: string, c: char, t: string)
    ensures MapChar(a + b, c, t) == MapChar(a, c, t) + MapChar(b, c, t)
    decreases |a|
  {
    if |a| == 0 {
      assert a + b == b;
    } else {
      assert (a + b)[1..] == a[1..] + b;
      MapCharAppend(a[1..], b, c, t);
    }
  }

  /** ASCII `str.lower()`. */
  function LowerChar(c: char): char {
    if 'A' <= c <= 'Z' then (c as int + 32) as char else c
  }

  function Lower(s: string): (r: string)
    ensures |r| == |s| && forall i :: 0 <= i < |s| ==> r[i] == LowerChar(s[i])
  {
    if |s| == 0 then "" else [LowerChar(s[0])] + Lower(s[1..])
  }

  /** `str.isdigit()` on ASCII digits: non-empty and every character a digit. */
  predicate IsDigitChar(c: char) {
    '0' <= c <= '9'
  }

  predicate IsDigits(s: string) {
    |s| > 0 && forall i :: 0 <= i < |s| ==> IsDigitChar(s[i])
  }

  /** `int(s)` for a digit string. */
  function DigitsValue(s: string): (n: nat)
    requires forall i :: 0 <= i < |s| ==> IsDigitChar(s[i])
  {
    if |s| == 0 then 0
    else
      assert IsDigitChar(s[|s| - 1]);
      DigitsValue(s[..|s| - 1]) * 10 + (s[|s| - 1] as int - '0' as int)
  }

  /** `str(n)` for a natural number. */
  function NatToStr(n: nat): (r: string)
    ensures IsDigits(r)
    ensures n > 0 ==> r[0] != '0'
  {
    if n < 10 then [('0' as int + n) as char]
    else NatToStr(n / 10) + [('0' as int + n % 10) as char]
  }

  /** `str(n)` for any integer. */
  function IntToStr(n: int): (r: string)
    ensures |r| > 0
  {
    if n < 0 then "-" + NatToStr(-n) else NatToStr(n)
  }

  /** `int(str(n)) == n`. */
  lemma {:induction false} NatToStrRoundTrip(n: nat)
    ensures DigitsValue(NatToStr(n)) == n
  {
    if n >= 10 {
      NatToStrRoundTrip(n / 10);
      var s := NatToStr(n);
      assert s[..|s| - 1] == NatToStr(n / 10);
    }
  }

  /** `sep.join(parts)`. */
  function Join(sep: string, parts: seq<string>): (r: string)
  {
    if |parts| == 0 then ""
    else if |parts| == 1 then parts[0]
    else parts[0] + sep + Join(sep, parts[1..])
  }

  /** `s.split(sep)` for a non-empty separator. */
  function Split(s: string, sep: string): (r: seq<string>)
    requires |sep| > 0
    ensures |r| > 0
    ensures Contains(s, sep) ==> |r| >= 2
    ensures forall k :: 0 <= k < |r| ==> !Contains(r[k], sep)
    decreases |s|
  {
    var i := Find(s, sep);
    if i == -1 then [s]
    else
      assert !Contains(s[..i], sep) by {
        forall j | At(s[..i], sep, j) ensures false {
          assert s[..i][j..j + |sep|] == s[j..j + |sep|];
          assert At(s, sep, j);
        }
      }
      [s[..i]] + Split(s[i + |sep|..], sep)
  }

  /** Joining the pieces of a split with the same separator restores the string. */
  lemma {:induction false} JoinSplit(s: string, sep: string)
    requires |sep| > 0
    ensures Join(sep, Split(s, sep)) == s
    decreases |s|
  {
    var i := Find(s, sep);
    if i != -1 {
      var tail := s[i + |sep|..];
      JoinSplit(tail, sep);
      var rest := Split(tail, sep);
      assert Split(s, sep) == [s[..i]] + rest;
      JoinCons(sep, s[..i], rest);
      assert s[i..i + |sep|] == sep;
      assert s == s[..i] + s[i..i + |sep|] + tail;
    }
  }

  lemma JoinCons(sep: string, x: string, rest: seq<string>)
    requires |rest| > 0
    ensures Join(sep, [x] + rest) == x + sep + Join(sep, rest)
  {
    assert ([x] + rest)[1..] == rest;
  }

  /** Joining one more piece adds the separator and the piece at the end. */
  lemma {:induction false} JoinSnoc(sep: string, xs: seq<string>, x: string)
    requires |xs| > 0
    ensures Join(sep, xs + [x]) == Join(sep, xs) + sep + x
    decreases |xs|
  {
    if |xs| == 1 {
      assert xs + [x] == [xs[0], x];
      assert [xs[0], x][1..] == [x];
    } else {
      assert (xs + [x])[1..] == xs[1..] + [x];
      JoinSnoc(sep, xs[1..], x);
    }
  }

  /** A non-empty sequence is its front and its last element. */
  lemma FrontAndLast<T>(s: seq<T>)
    requires |s| > 0
    ensures s[..|s| - 1] + [s[|s| - 1]] == s
  {
  }

  /** The front and the last element of a concatenation whose second part is not empty. */
  lemma AppendParts<T>(a: seq<T>, b: seq<T>)
    requires |b| > 0
    ensures (a + b)[..|a + b| - 1] == a + b[..|b| - 1] && (a + b)[|a + b| - 1] == b[|b| - 1]
  {
  }

  /** A sequence cut before its element at `i`. */
  lemma CutAt<T>(s: seq<T>, i: nat)
    requires i < |s|
    ensures s == s[..i] + s[i..] && s[i..][0] == s[i] && s[i..][1..] == s[i + 1..]
  {
  }

  /** The elements of a sequence without its element at `i`. */
  lemma RemoveAtIndex<T>(s: seq<T>, i: nat)
    requires i < |s|
    ensures var r := s[..i] + s[i + 1..];
      |r| == |s| - 1 && forall j :: 0 <= j < |r| ==> r[j] == if j < i then s[j] else s[j + 1]
  {
  }

  /** A sequence without its element at `i`, seen from its end. */
  lemma RemoveAtParts<T>(s: seq<T>, i: nat)
    requires i < |s|
    ensures i == |s| - 1 ==> s[..i] + s[i + 1..] == s[..|s| - 1]
    ensures i < |s| - 1 ==> var w, f := s[..i] + s[i + 1..], s[..|s| - 1];
      |w| > 0 && w[..|w| - 1] == f[..i] + f[i + 1..] && w[|w| - 1] == s[|s| - 1]
  {
    if i < |s| - 1 {
      var w, f := s[..i] + s[i + 1..], s[..|s| - 1];
      assert w[..|w| - 1] == f[..i] + f[i + 1..];
    }
  }

  /** The prefix of length `k + 1`, seen from its end. */
  lemma PrefixStep<T>(s: seq<T>, k: nat)
    requires k < |s|
    ensures |s[..k + 1]| - 1 == k && s[..k + 1][..k] == s[..k] && s[..k + 1][k] == s[k]
  {
  }

  /** The elements of a sequence with one element appended. */
  lemma SnocAt<T>(a: seq<T>, x: T)
    ensures |a + [x]| == |a| + 1 && (a + [x])[|a|] == x
    ensures forall i :: 0 <= i < |a| ==> (a + [x])[i] == a[i]
  {
  }

  lemma PrefixAt<T>(s: seq<T>, k: nat, i: nat)
    requires i <= k < |s|
    ensures s[..k + 1][i] == s[i] && (i < k ==> s[..k][i] == s[i])
  {
  }

  /** `f` applied to every element, in order. */
  function MapAll<A, B>(f: A -> B, xs: seq<A>): (r: seq<B>)
    ensures |r| == |xs| && forall i :: 0 <= i < |xs| ==> r[i] == f(xs[i])
  {
    seq(|xs|, i requires 0 <= i < |xs| => f(xs[i]))
  }

  lemma MapSnoc<A, B>(f: A -> B, xs: seq<A>, k: nat)
    requires k < |xs|
    ensures MapAll(f, xs[..k + 1]) == MapAll(f, xs[..k]) + [f(xs[k])]
  {
    var a, b := MapAll(f, xs[..k + 1]), MapAll(f, xs[..k]) + [f(xs[k])];
    forall i | 0 <= i < |a| ensures a[i] == b[i] {
      PrefixAt(xs, k, i);
    }
  }

  /** Sequences with the same elements are equal. */
  lemma SameElements<T>(a: seq<T>, b: seq<T>)
    requires |a| == |b| && forall i :: 0 <= i < |a| ==> a[i] == b[i]
    ensures a == b
  {
  }

  lemma WholePrefix<T>(s: seq<T>)
    ensures s[..|s|] == s
  {
  }

  lemma Assoc<T>(a: seq<T>, b: seq<T>, c: seq<T>)
    ensures a + b + c == a + (b + c)
  {
  }

  /** The front and the last element of a sequence with one element appended. */
  lemma SnocParts<T>(front: seq<T>, x: T)
    ensures |front + [x]| - 1 == |front|
    ensures (front + [x])[..|front|] == front && (front + [x])[|front|] == x
  {
  }

  /** Concatenation regrouped to the left. */
  lemma Regroup<T>(a: seq<T>, b: seq<T>, c: seq<T>, d: seq<T>)
    ensures a + (b + c + d) == a + b + c + d
  {
  }

  /** Nothing in front changes nothing. */
  lemma EmptyLeft<T>(a: seq<T>)
    ensures [] + a == a
  {
  }

  /** Overwriting the element just appended. */
  lemma SnocUpdate<T>(a: seq<T>, x: T, y: T)
    ensures (a + [x])[|a| := y] == a + [y]
  {
  }

  /** Two elements appended one at a time. */
  lemma SnocSnoc<T>(a: seq<T>, x: T, y: T)
    ensures a + [x] + [y] == a + [x, y]
  {
  }

  lemma SnocThree<T>(a: seq<T>, x: T, y: T, z: T)
    ensures a + [x] + [y] + [z] == a + [x, y, z]
  {
  }

  lemma DropFront<T>(a: seq<T>, b: seq<T>)
    ensures (a + b)[|a|..] == b
  {
  }

  lemma MultisetSnoc<T>(a: seq<T>, x: T)
    ensures multiset(a + [x]) == multiset(a) + multiset{x}
  {
  }

  lemma EmptyRight<T>(a: seq<T>)
    ensures a + [] == a
  {
  }

  /** A pair appended after an element. */
  lemma SnocPair<T>(a: seq<T>, x: T, y: T, z: T)
    ensures a + [x] + [y, z] == a + [x, y, z]
  {
  }

  /** A pair appended after a pair. */
  lemma PairPair<T>(a: seq<T>, x: T, y: T, z: T, w: T)
    ensures a + [x, y] + [z, w] == a + [x, y, z, w]
  {
  }

  /** Joining a longer prefix of `xs` adds the separator and the next piece. */
  lemma JoinPrefix(sep: string, xs: seq<string>, k: nat)
    requires 2 <= k <= |xs|
    ensures Join(sep, xs[..k]) == Join(sep, xs[..k - 1]) + sep + xs[k - 1]
  {
    assert xs[..k] == xs[..k - 1] + [xs[k - 1]];
    JoinSnoc(sep, xs[..k - 1], xs[k - 1]);
  }

  /** A non-empty trimmed text between two spaces strips back to itself. */
  lemma StripPadded(q: string)
    requires Trimmed(q) && |q| > 0
    ensures Strip(" " + q + " ") == q
  {
    var s := " " + q + " ";
    assert s[1..] == q + " ";
    assert LStrip(s) == LStrip(q + " ");
    assert LStrip(q + " ") == q + " ";
    assert (q + " ")[..|q|] == q;
    assert RStrip(q + " ") == RStrip(q);
  }

  /** Only whitespace strips to nothing. */
  lemma StripAllSpace(s: string)
    requires AllSpace(s)
    ensures Strip(s) == ""
  {
  }

  /** `s.find(c)` for a single character: its first index, or -1. */
  function FindCharIndex(s: string, c: char): (r: int)
    ensures r == -1 <==> c !in s
    ensures r != -1 ==> 0 <= r < |s| && s[r] == c && forall j :: 0 <= j < r ==> s[j] != c
    decreases |s|
  {
    if |s| == 0 then -1
    else if s[0] == c then 0
    else
      var k := FindCharIndex(s[1..], c);
      assert forall j :: 1 <= j < |s| ==> s[1..][j - 1] == s[j];
      if k == -1 then -1 else k + 1
  }

  /** The first occurrence of a single character is what `FindCharIndex` finds. */
  lemma FindCharFirst(s: string, c: char, i: nat)
    requires i < |s| && s[i] == c && forall j :: 0 <= j < i ==> s[j] != c
    ensures FindCharIndex(s, c) == i
  {
    assert c in s;
  }

  /** The first occurrence of a single character. */
  lemma FindChar(s: string, c: char, i: nat)
    requires i < |s| && s[i] == c && forall j :: 0 <= j < i ==> s[j] != c
    ensures Find(s, [c]) == i
  {
    assert s[i..i + 1] == [c];
    assert At(s, [c], i);
    var r := Find(s, [c]);
    assert s[r..r + 1][0] == s[r];
  }

  /** `", "` is a comma and a space. */
  lemma CommaSpace(a: string, b: string)
    ensures a + ", " + b == a + "," + " " + b
  {
    assert a + ", " == a + "," + " ";
  }

  /** A trimmed text after a space strips back to itself. */
  lemma StripAfterSpace(q: string)
    requires Trimmed(q)
    ensures Strip(" " + q) == q
  {
    assert (" " + q)[1..] == q;
    assert LStrip(" " + q) == LStrip(q);
  }

  /** The first piece of a split, `s.split(sep)[0]`: the text before the first `sep`. */
  lemma SplitHead(s: string, sep: string)
    requires |sep| > 0
    ensures Find(s, sep) == -1 ==> Split(s, sep)[0] == s
    ensures Find(s, sep) != -1 ==> Split(s, sep)[0] == s[..Find(s, sep)]
  {
  }

  /**
   * `sub` is first found right after `a` when no occurrence starts inside
   * `a`, that is, none lies within `a` and the front of `sub`.
   */
  lemma FindAfter(a: string, sub: string, b: string)
    requires |sub| > 0 && !Contains(a + sub[..|sub| - 1], sub)
    ensures Find(a + sub + b, sub) == |a|
  {
    var s := a + sub + b;
    assert s[|a|..|a| + |sub|] == sub;
    assert At(s, sub, |a|);
    forall i | 0 <= i < |a| && At(s, sub, i) ensures false {
      var f := a + sub[..|sub| - 1];
      assert f[i..i + |sub|] == s[i..i + |sub|];
      assert At(f, sub, i);
    }
  }

  /** No occurrence of `sub` can start in a text free of its first character. */
  lemma FirstCharAbsent(a: string, sub: string)
    requires |sub| > 0 && sub[0] !in a
    ensures !Contains(a + sub[..|sub| - 1], sub)
  {
  }

  /** A text without some character does not contain a string starting with it. */
  lemma CharAbsent(s: string, sub: string)
    requires |sub| > 0 && sub[0] !in s
    ensures !Contains(s, sub)
  {
  }

  /** Splitting at the first separator: the text before it, then the split of the rest. */
  lemma SplitAt(a: string, sep: string, b: string)
    requires |sep| > 0 && Find(a + sep + b, sep) == |a|
    ensures Split(a + sep + b, sep) == [a] + Split(b, sep)
  {
    var s := a + sep + b;
    assert s[..|a|] == a;
    assert s[|a| + |sep|..] == b;
  }

  /** A text without the separator is a single piece. */
  lemma SplitNone(s: string, sep: string)
    requires |sep| > 0 && !Contains(s, sep)
    ensures Split(s, sep) == [s]
  {
  }

  /** A character absent from every piece and from the separator is absent from the join. */
  lemma {:induction false} JoinAvoids(sep: string, xs: seq<string>, c: char)
    requires c !in sep && forall i :: 0 <= i < |xs| ==> c !in xs[i]
    ensures c !in Join(sep, xs)
    decreases |xs|
  {
    if |xs| > 1 {
      JoinAvoids(sep, xs[1..], c);
    }
  }

  /** Splitting a join at a one-character separator the pieces lack gives the pieces back. */
  lemma {:induction false} SplitJoin(xs: seq<string>, c: char)
    requires |xs| > 0 && forall i :: 0 <= i < |xs| ==> c !in xs[i]
    ensures Split(Join([c], xs), [c]) == xs
    decreases |xs|
  {
    if |xs| == 1 {
      CharAbsent(xs[0], [c]);
    } else {
      JoinSplitStep(xs, c);
      SplitJoin(xs[1..], c);
    }
  }

  lemma JoinSplitStep(xs: seq<string>, c: char)
    requires |xs| > 1 && forall i :: 0 <= i < |xs| ==> c !in xs[i]
    ensures Split(Join([c], xs), [c]) == [xs[0]] + Split(Join([c], xs[1..]), [c])
  {
    var rest := Join([c], xs[1..]);
    assert Join([c], xs) == xs[0] + [c] + rest;
    FirstCharAbsent(xs[0], [c]);
    assert [c][..0] == [];
    assert xs[0] + [c][..0] == xs[0];
    FindAfter(xs[0], [c], rest);
    SplitAt(xs[0], [c], rest);
  }

  /** Leading whitespace is what `lstrip()` removes. */
  lemma {:induction false} LStripSpace(w: string, x: string)
    requires AllSpace(w)
    ensures LStrip(w + x) == LStrip(x)
    decreases |w|
  {
    if |w| > 0 {
      assert (w + x)[1..] == w[1..] + x;
      LStripSpace(w[1..], x);
    } else {
      assert w + x == x;
    }
  }

  /** Trailing whitespace is what `rstrip()` removes. */
  lemma {:induction false} RStripSpace(x: string, w: string)
    requires AllSpace(w)
    ensures RStrip(x + w) == RStrip(x)
    decreases |w|
  {
    if |w| > 0 {
      assert (x + w)[..|x + w| - 1] == x + w[..|w| - 1];
      RStripSpace(x, w[..|w| - 1]);
    } else {
      assert x + w == x;
    }
  }

  /** Whitespace around a trimmed text is what `strip()` removes. */
  lemma StripAround(w1: string, q: string, w2: string)
    requires AllSpace(w1) && AllSpace(w2) && Trimmed(q) && |q| > 0
    ensures Strip(w1 + q + w2) == q
  {
    var s := w1 + q + w2;
    assert s == w1 + (q + w2);
    LStripSpace(w1, q + w2);
    assert LStrip(q + w2) == q + w2;
    RStripSpace(q, w2);
    assert RStrip(q) == q;
    assert RStrip(LStrip(s)) == q;
  }

  /**
   * Python's `xs[-m:]`: for `m > 0` the last `min(m, |xs|)` elements;
   * `xs[-0:]` is `xs[0:]`, the whole list; a negative `m` drops `-m` elements
   * from the front.
   */
  function SliceFromEnd<T>(xs: seq<T>, m: int): (r: seq<T>)
    ensures m > 0 ==> |r| == if m < |xs| then m else |xs|
    ensures m > 0 ==> r == xs[|xs| - |r|..]
    ensures m == 0 ==> r == xs
  {
    var start := -m;
    if start >= 0 then (if start <= |xs| then xs[start..] else [])
    else if |xs| + start >= 0 then xs[|xs| + start..]
    else xs
  }

  /** `xs[:n]` for a natural `n`. */
  function Take<T>(xs: seq<T>, n: nat): (r: seq<T>)
    ensures |r| == if n < |xs| then n else |xs|
    ensures r == xs[..|r|]
  {
    if n <= |xs| then xs[..n] else xs
  }

  /**
   * `if len(h) > max: h = h[-max:]`, the bound every history in the
   * application keeps: the most recent `max` elements, and for `max == 0`
   * the whole list (`h[-0:]` is `h[0:]`).
   */
  function KeepLast<T>(h: seq<T>, max: int): (r: seq<T>)
    ensures |r| <= |h|
    ensures max > 0 ==> |r| <= max
    ensures max >= 0 ==> |r| == |h| || |r| == max
    ensures max >= 0 ==> r == h[|h| - |r|..]
    ensures max == 0 ==> r == h
  {
    if |h| > max then SliceFromEnd(h, max) else h
  }

  /** With a bound of at least zero the newest element survives the cut. */
  lemma KeepLastKeepsNewest<T>(h: seq<T>, max: int)
    requires |h| > 0 && max >= 0
    ensures |KeepLast(h, max)| > 0 && KeepLast(h, max)[|KeepLast(h, max)| - 1] == h[|h| - 1]
  {
    var r := KeepLast(h, max);
    assert r == h[|h| - |r|..];
  }
}
