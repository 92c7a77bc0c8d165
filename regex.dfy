/**
 * Python's `re` module as an uninterpreted matcher. Every use in the model
 * names the pattern text the application passes, so the logic around a
 * match is verified while the regular-expression semantics stay abstract.
 */
module Regex {
  import opened Wrappers

  /** A pattern and whether it is compiled with `re.IGNORECASE`. */
  datatype Pattern = Pattern(source: string, ignoreCase: bool)

  /** A match: capture group `g` is `groups[g - 1]`, `None` when it did not take part. */
  datatype Match = Match(start: nat, end: nat, groups: seq<Option<string>>)

  /**
   * The matcher: `search` is `re.search`, `matchStart` is `re.match`
   * (anchored at the start), `findAll` is `re.finditer` and `sub` is
   * `re.sub(pattern, replacement, text)`.
   */
  datatype Engine = Engine(
    search: (Pattern, string) -> Option<Match>,
    matchStart: (Pattern, string) -> Option<Match>,
    findAll: (Pattern, string) -> seq<Match>,
    sub: (Pattern, string, string) -> string)

  /** `match.group(g)`, or `None` when the group did not take part. */
  function Group(m: Match, g: nat): Option<string> {
    if 1 <= g <= |m.groups| then m.groups[g - 1] else None
  }

  /** `match.group(g)` for a group the pattern always fills. */
  function Text(m: Match, g: nat): string {
    Group(m, g).GetOr("")
  }

  /** The first pattern of `ps`, in list order, that matches `text`, with its match. */
  function FirstSearch(e: Engine, ps: seq<Pattern>, text: string): (r: Option<(nat, Match)>)
    ensures r.Some? ==> r.value.0 < |ps| && e.search(ps[r.value.0], text) == Some(r.value.1)
    ensures r.Some? ==> forall j :: 0 <= j < r.value.0 ==> e.search(ps[j], text).None?
    ensures r.None? <==> forall j :: 0 <= j < |ps| ==> e.search(ps[j], text).None?
  {
    if |ps| == 0 then None
    else match e.search(ps[0], text)
      case Some(m) => Some((0, m))
      case None =>
        match FirstSearch(e, ps[1..], text)
        case None => None
        case Some(p) => Some((p.0 + 1, p.1))
  }

  /** The first pattern that matches is the one `FirstSearch` reports. */
  lemma FirstSearchIsFirst(e: Engine, ps: seq<Pattern>, text: string, j: nat)
    requires j < |ps| && e.search(ps[j], text).Some?
    requires forall k :: 0 <= k < j ==> e.search(ps[k], text).None?
    ensures FirstSearch(e, ps, text) == Some((j, e.search(ps[j], text).value))
  {
    var r := FirstSearch(e, ps, text);
    assert r.Some?;
    assert r.value.0 == j;
  }

  /** Python's `text[a:b]` for bounds that are not negative: clipped to the text. */
  function Slice(text: string, a: nat, b: nat): (r: string)
    ensures a <= b <= |text| ==> r == text[a..b]
    ensures b <= a ==> r == ""
  {
    if b <= a || |text| <= a then "" else text[a..if b < |text| then b else |text|]
  }

  /** Where the last of the matches ends, or 0 when there are none. */
  function LastEnd(ms: seq<Match>): nat {
    if |ms| == 0 then 0 else ms[|ms| - 1].end
  }

  /** The text up to the end of the last match, each match replaced by `f` of it. */
  function Spliced(text: string, ms: seq<Match>, f: Match -> string): string
    decreases |ms|
  {
    if |ms| == 0 then ""
    else
      var front := ms[..|ms| - 1];
      Spliced(text, front, f) + Slice(text, LastEnd(front), ms[|ms| - 1].start) + f(ms[|ms| - 1])
  }

  /**
   * `re.sub(pattern, f, text)` with a function as replacement, given the
   * matches `re.finditer` yields: each match replaced by `f` of it, the text
   * between and after the matches kept.
   */
  function SubWith(text: string, ms: seq<Match>, f: Match -> string): string {
    Spliced(text, ms, f) + Slice(text, LastEnd(ms), |text|)
  }

  /** Without a match the text is returned as it is. */
  lemma SubWithNone(text: string, f: Match -> string)
    ensures SubWith(text, [], f) == text
  {
    assert text[0..|text|] == text;
  }

  /** One match: the text before it, its replacement, the text after it. */
  lemma SubWithOne(text: string, m: Match, f: Match -> string)
    requires m.start <= m.end <= |text|
    ensures SubWith(text, [m], f) == text[..m.start] + f(m) + text[m.end..]
  {
    assert [m][..0] == [];
    assert Spliced(text, [m], f) == "" + Slice(text, 0, m.start) + f(m);
  }
}
