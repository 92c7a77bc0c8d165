/**
 * Escaping by chained `str.replace` calls, one per special character, as the
 * chat display and the message formatter do before embedding text in HTML
 * or in a JavaScript template. Chained replacements are a single
 * left-to-right escape exactly when no replacement inserts a character that
 * a later step replaces again: that is why `&` (or the backslash) goes first.
 */
module Escaping {
  import opened PyStr

  /** The characters replaced, in the order of the calls, with their replacements. */
  type Table = seq<(char, string)>

  /** The replacements done one after the other. */
  function Chain(s: string, t: Table): string
    decreases |t|
  {
    if |t| == 0 then s else Chain(MapChar(s, t[0].0, t[0].1), t[1..])
  }

  /** What one character becomes in a single pass: its first table entry, or itself. */
  function EscapeChar(c: char, t: Table): (r: string)
    ensures (forall i :: 0 <= i < |t| ==> t[i].0 != c) ==> r == [c]
    ensures (exists i :: 0 <= i < |t| && t[i].0 == c) ==> exists i :: 0 <= i < |t| && t[i].0 == c && r == t[i].1
    decreases |t|
  {
    if |t| == 0 then [c]
    else if c == t[0].0 then t[0].1
    else
      var r := EscapeChar(c, t[1..]);
      assert forall i :: 1 <= i < |t| ==> t[1..][i - 1] == t[i];
      r
  }

  /** A single left-to-right pass: every character replaced by what its table entry says. */
  function Escape(s: string, t: Table): string
    decreases |s|
  {
    if |s| == 0 then "" else EscapeChar(s[0], t) + Escape(s[1..], t)
  }

  /** No replacement holds a character that a later call replaces. */
  predicate Ordered(t: Table) {
    forall i, j :: 0 <= i < j < |t| ==> t[j].0 !in t[i].1
  }

  lemma {:induction false} ChainAppend(a: string, b: string, t: Table)
    ensures Chain(a + b, t) == Chain(a, t) + Chain(b, t)
    decreases |t|
  {
    if |t| > 0 {
      MapCharAppend(a, b, t[0].0, t[0].1);
      ChainAppend(MapChar(a, t[0].0, t[0].1), MapChar(b, t[0].0, t[0].1), t[1..]);
    }
  }

  /** Text without any of the characters is left alone. */
  lemma {:induction false} ChainAbsent(s: string, t: Table)
    requires forall j :: 0 <= j < |t| ==> t[j].0 !in s
    ensures Chain(s, t) == s
    decreases |t|
  {
    if |t| > 0 {
      assert MapChar(s, t[0].0, t[0].1) == s;
      ChainAbsent(s, t[1..]);
    }
  }

  lemma {:induction false} ChainChar(c: char, t: Table)
    requires Ordered(t)
    ensures Chain([c], t) == EscapeChar(c, t)
    decreases |t|
  {
    if |t| > 0 {
      assert MapChar([c], t[0].0, t[0].1) == (if c == t[0].0 then t[0].1 else [c]) + MapChar([c][1..], t[0].0, t[0].1);
      assert [c][1..] == "";
      if c == t[0].0 {
        forall j | 0 <= j < |t[1..]| ensures t[1..][j].0 !in t[0].1 {
          assert t[1..][j] == t[j + 1];
        }
        ChainAbsent(t[0].1, t[1..]);
        var m := MapChar([c], t[0].0, t[0].1);
        assert m == t[0].1 + "" == t[0].1;
        assert Chain([c], t) == Chain(m, t[1..]);
      } else {
        assert Ordered(t[1..]) by {
          forall i, j | 0 <= i < j < |t[1..]| ensures t[1..][j].0 !in t[1..][i].1 {
            assert t[1..][i] == t[i + 1] && t[1..][j] == t[j + 1];
          }
        }
        ChainChar(c, t[1..]);
      }
    }
  }

  /** With an ordered table, the chained replacements are the single-pass escape. */
  lemma {:induction false} ChainIsEscape(s: string, t: Table)
    requires Ordered(t)
    ensures Chain(s, t) == Escape(s, t)
    decreases |s|
  {
    if |s| == 0 {
      ChainAbsent(s, t);
    } else {
      assert s == [s[0]] + s[1..];
      ChainAppend([s[0]], s[1..], t);
      ChainChar(s[0], t);
      ChainIsEscape(s[1..], t);
    }
  }

  lemma {:induction false} EscapeAppend(a: string, b: string, t: Table)
    ensures Escape(a + b, t) == Escape(a, t) + Escape(b, t)
    decreases |a|
  {
    if |a| == 0 {
      assert a + b == b;
    } else {
      assert (a + b)[1..] == a[1..] + b;
      EscapeAppend(a[1..], b, t);
    }
  }

  /** An escaped character none of whose replacements holds it does not survive the escape. */
  lemma {:induction false} EscapeAvoids(s: string, t: Table, x: char)
    requires exists i :: 0 <= i < |t| && t[i].0 == x
    requires forall i :: 0 <= i < |t| ==> x !in t[i].1
    ensures x !in Escape(s, t)
    decreases |s|
  {
    if |s| > 0 {
      EscapeAvoids(s[1..], t, x);
      var r := EscapeChar(s[0], t);
      if exists i :: 0 <= i < |t| && t[i].0 == s[0] {
        var i :| 0 <= i < |t| && t[i].0 == s[0] && r == t[i].1;
      } else {
        assert r == [s[0]];
      }
    }
  }
}
