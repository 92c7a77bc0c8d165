/**
 * `_extract_from_prompt_text` of `services/export_service_txt.py`: the
 * key specifications read from the "Label: value" lines of the prompt a
 * sequence was generated from.
 */
module PromptText {
  import opened Wrappers
  import opened PyStr

  /** The five key specifications, in the order of the result dictionary. */
  datatype Specs = Specs(partName: string, partNumber: string, freeLength: string, testMode: string, safetyLimit: string)

  /** The result before anything is found: every field empty. */
  const NoSpecs := Specs("", "", "", "", "")

  /** `all(result.values())`. */
  predicate Complete(s: Specs) {
    s.partName != "" && s.partNumber != "" && s.freeLength != "" && s.testMode != "" && s.safetyLimit != ""
  }

  // ------------------------------------------------- labelled lines

  /**
   * The text after a label found at `p` (of length `n`) up to the next
   * newline: `text[start:end]`, provided that newline comes later than
   * `start`; `None` when the label is absent (`p` is -1) or no such
   * newline follows.
   */
  function Line(text: string, p: int, n: nat): Option<string> {
    if p < 0 || p + n > |text| then None
    else
      var end := FindFrom(text, "\n", p + n);
      if end > p + n then Some(text[p + n..end]) else None
  }

  /** The line after the first occurrence of `label`. */
  function LineAfter(text: string, tag: string): Option<string> {
    Line(text, Find(text, tag), |tag|)
  }

  /** The first label of the list whose line is found gives that line, stripped. */
  function FirstLabelled(text: string, labels: seq<string>): Option<string>
    decreases |labels|
  {
    if |labels| == 0 then None
    else match LineAfter(text, labels[0])
      case Some(l) => Some(Strip(l))
      case None => FirstLabelled(text, labels[1..])
  }

  /** The `for pattern in [...]` loop of one field, which breaks at the first line found. */
  method FindLabelled(text: string, labels: seq<string>) returns (r: Option<string>)
    ensures r == FirstLabelled(text, labels)
  {
    var k := 0;
    while k < |labels|
      invariant 0 <= k <= |labels|
      invariant FirstLabelled(text, labels) == FirstLabelled(text, labels[k..])
    {
      assert labels[k..][1..] == labels[k + 1..];
      var pattern := labels[k];
      LineAfterFound(text, pattern);
      if Contains(text, pattern) {
        var start := Find(text, pattern) + |pattern|;
        var end := FindFrom(text, "\n", start);
        if end > start {
          return Some(Strip(text[start..end]));
        }
      }
      k := k + 1;
    }
    r := None;
  }

  /** `LineAfter` as the loop computes it: a label found, then the first later newline. */
  lemma LineAfterFound(text: string, tag: string)
    ensures !Contains(text, tag) ==> LineAfter(text, tag).None?
    ensures Contains(text, tag) ==> (
      Find(text, tag) + |tag| <= |text| &&
      var start := Find(text, tag) + |tag|;
      var end := FindFrom(text, "\n", start);
      LineAfter(text, tag) == if end > start then Some(text[start..end]) else None)
  {
    var p := Find(text, tag);
    if p != -1 {
      assert At(text, tag, p);
      assert LineAfter(text, tag) == Line(text, p, |tag|);
    }
  }

  /**
   * The first label, in the order listed, that is present and followed by
   * a later newline decides the value: the rest of its line, stripped.
   */
  lemma {:induction false} FirstLabelledFirst(text: string, labels: seq<string>, i: nat)
    requires i < |labels| && LineAfter(text, labels[i]).Some?
    requires forall j :: 0 <= j < i ==> LineAfter(text, labels[j]).None?
    ensures FirstLabelled(text, labels) == Some(Strip(LineAfter(text, labels[i]).value))
    decreases i
  {
    if i > 0 {
      FirstLabelledFirst(text, labels[1..], i - 1);
    }
  }

  lemma {:induction false} FirstLabelledNone(text: string, labels: seq<string>)
    requires forall j :: 0 <= j < |labels| ==> LineAfter(text, labels[j]).None?
    ensures FirstLabelled(text, labels).None?
    decreases |labels|
  {
    if |labels| > 0 {
      FirstLabelledNone(text, labels[1..]);
    }
  }

  /** The first newline at or after `|a|` in `a + v + "\n" + c`, when `v` has none, ends `v`. */
  lemma NewlineAfter(a: string, v: string, c: string)
    requires '\n' !in v
    ensures FindFrom(a + v + "\n" + c, "\n", |a|) == |a| + |v|
  {
    var s := a + v + "\n" + c;
    assert s[|a| + |v|..|a| + |v| + 1] == "\n";
    assert At(s, "\n", |a| + |v|);
    forall k | |a| <= k < |a| + |v| ensures !At(s, "\n", k) {
      assert s[k..k + 1][0] == s[k] == v[k - |a|];
    }
  }

  /**
   * In a prompt `a + tag + v + "\n" + c` whose first `tag` ends `a`,
   * the line of the label is `v` when `v` is not empty and has no
   * newline; an empty `v` gives no line at all (the newline does not come
   * later than the start).
   */
  lemma LineOfLayout(a: string, tag: string, v: string, c: string)
    requires Find(a + tag + v + "\n" + c, tag) == |a| && '\n' !in v
    ensures LineAfter(a + tag + v + "\n" + c, tag) == if |v| > 0 then Some(v) else None
  {
    var s := a + tag + v + "\n" + c;
    assert s == (a + tag) + v + "\n" + c;
    NewlineAfter(a + tag, v, c);
    assert s[|a| + |tag|..|a| + |tag| + |v|] == v;
  }

  /** A label that does not occur gives no line. */
  lemma LineOfAbsent(text: string, tag: string)
    requires !Contains(text, tag)
    ensures LineAfter(text, tag).None?
  {
  }

  // ------------------------------------------------- values

  /** `t.split(unit)[0].strip()` when the unit occurs, else `t`: " mm" and " N" are cut. */
  function CutUnit(t: string, unit: string): (r: string)
    requires |unit| > 0
    ensures !Contains(t, unit) ==> r == t
    ensures Contains(t, unit) ==> !Contains(r, unit)
  {
    if Contains(t, unit) then
      var head := Split(t, unit)[0];
      SliceAvoids(head, unit);
      Strip(head)
    else t
  }

  /** `strip` never brings a substring into a text that lacks it. */
  lemma SliceAvoids(s: string, sub: string)
    requires !Contains(s, sub)
    ensures !Contains(Strip(s), sub)
  {
    var i, j := StripSlice(s);
    SliceAvoidsAt(s, sub, i, j, Strip(s));
  }

  lemma SliceAvoidsAt(s: string, sub: string, i: nat, j: nat, t: string)
    requires i <= j <= |s| && t == s[i..j] && !Contains(s, sub)
    ensures !Contains(t, sub)
  {
    forall k | 0 <= k <= |t| && At(t, sub, k) ensures false {
      assert k + |sub| <= |t| && t[k..k + |sub|] == sub;
      var u := s[i + k..i + k + |sub|];
      forall m | 0 <= m < |sub| ensures u[m] == sub[m] {
        assert u[m] == s[i + k + m] == t[k + m];
        assert sub[m] == t[k..k + |sub|][m];
      }
      assert At(s, sub, i + k);
    }
  }

  /** A value with its unit: the number before the first `unit`, stripped. */
  lemma CutUnitOfLayout(n: string, unit: string, rest: string)
    requires |unit| > 0 && Find(n + unit + rest, unit) == |n|
    ensures CutUnit(n + unit + rest, unit) == Strip(n)
  {
    SplitAt(n, unit, rest);
    assert At(n + unit + rest, unit, |n|);
  }

  /** The index of the first whitespace character of `s` at or after `i`, or `|s|`. */
  function WordEnd(s: string, i: nat): (e: nat)
    requires i <= |s|
    ensures i <= e <= |s| && (e < |s| ==> IsSpace(s[e]))
    ensures forall k :: i <= k < e ==> !IsSpace(s[k])
    decreases |s| - i
  {
    if i == |s| || IsSpace(s[i]) then i else WordEnd(s, i + 1)
  }

  /** `s.split()[0]`; `None` where Python raises `IndexError`, for a text of whitespace only. */
  function FirstWord(s: string): (r: Option<string>)
    ensures r.None? <==> AllSpace(s)
    ensures r.Some? ==> |r.value| > 0 && forall k :: 0 <= k < |r.value| ==> !IsSpace(r.value[k])
  {
    var l := LStrip(s);
    LStripDrops(s);
    if |l| == 0 then
      assert s[..|s|] == s;
      None
    else
      assert !IsSpace(s[|s| - |l|]);
      Some(l[..WordEnd(l, 0)])
  }

  /** The first word of `w + sp + rest`, with `w` a word and `sp` whitespace, is `w`. */
  lemma FirstWordOf(w: string, sp: char, rest: string)
    requires |w| > 0 && IsSpace(sp) && forall k :: 0 <= k < |w| ==> !IsSpace(w[k])
    ensures FirstWord(w + [sp] + rest) == Some(w)
  {
    var s := w + [sp] + rest;
    assert LStrip(s) == s;
    assert WordEnd(s, 0) == |w| by {
      assert s[|w|] == sp;
      assert forall k :: 0 <= k < |w| ==> s[k] == w[k];
    }
    assert s[..|w|] == w;
  }

  // ------------------------------------------------- the fields

  const PartNameLabels: seq<string> := ["Part Name:", "PartName:", "Name:"]
  const PartNumberLabels: seq<string> := ["Part Number:", "PartNumber:", "Number:"]
  const FreeLengthLabels: seq<string> := ["Free Length:", "FreeLength:", "Length:"]
  const TestModeLabels: seq<string> := ["Test Mode:", "TestMode:", "Mode:"]
  const SafetyLimitLabels: seq<string> := ["Safety Limit:", "SafetyLimit:", "Limit:"]

  /** A value read with its unit cut; empty when no label gives a line. */
  function UnitField(text: string, labels: seq<string>, unit: string): (r: string)
    requires |unit| > 0
    ensures !Contains(r, unit)
  {
    match FirstLabelled(text, labels)
    case None => ""
    case Some(t) => CutUnit(t, unit)
  }

  /**
   * The result from the five values read: a test-mode line of whitespace
   * only raises `IndexError`, and the handler returns the fields read so
   * far, so the test mode and the safety limit stay empty; otherwise the
   * test mode is the first word and a safety limit of "0.0" is dropped.
   */
  function Assemble(name: string, number: string, free: string, mode: Option<string>, safety: string): (r: Specs)
    ensures r.partName == name && r.partNumber == number && r.freeLength == free
    ensures mode.Some? && FirstWord(mode.value).None? ==> r.testMode == "" && r.safetyLimit == ""
    ensures mode.Some? && FirstWord(mode.value).Some? ==> r.testMode == FirstWord(mode.value).value
    ensures mode.None? ==> r.testMode == ""
    ensures r.safetyLimit == "" || (r.safetyLimit == safety && safety != "0.0")
    ensures !(mode.Some? && FirstWord(mode.value).None?) && safety != "0.0" ==> r.safetyLimit == safety
  {
    if mode.Some? && FirstWord(mode.value).None? then Specs(name, number, free, "", "")
    else
      var word := if mode.Some? then FirstWord(mode.value).value else "";
      Specs(name, number, free, word, if safety != "0.0" then safety else "")
  }

  /** `_extract_from_prompt_text` of a string: each field read from its labels in turn. */
  function PromptFields(text: string): (r: Specs)
    ensures text == "" ==> r == NoSpecs
    ensures !Contains(r.freeLength, " mm") && !Contains(r.safetyLimit, " N")
    ensures r.safetyLimit != "0.0"
    ensures r.testMode == "" || forall k :: 0 <= k < |r.testMode| ==> !IsSpace(r.testMode[k])
  {
    if text == "" then NoSpecs
    else
      Assemble(
        FirstLabelled(text, PartNameLabels).GetOr(""),
        FirstLabelled(text, PartNumberLabels).GetOr(""),
        UnitField(text, FreeLengthLabels, " mm"),
        FirstLabelled(text, TestModeLabels),
        UnitField(text, SafetyLimitLabels, " N"))
  }

  /** A "Part Name:" line, when present, gives the part name, whatever the later labels say. */
  lemma PromptPartName(text: string, v: string)
    requires text != "" && LineAfter(text, "Part Name:") == Some(v)
    ensures PromptFields(text).partName == Strip(v)
  {
    FirstLabelledFirst(text, PartNameLabels, 0);
  }

  /** A test-mode value of several words gives its first word. */
  lemma PromptTestMode(text: string, w: string, sp: char, rest: string)
    requires text != "" && FirstLabelled(text, TestModeLabels) == Some(w + [sp] + rest)
    requires |w| > 0 && IsSpace(sp) && forall k :: 0 <= k < |w| ==> !IsSpace(w[k])
    ensures PromptFields(text).testMode == w
  {
    FirstWordOf(w, sp, rest);
  }

  /** The loops of `_extract_from_prompt_text`, field after field. */
  method ExtractFromPromptText(text: string) returns (r: Specs)
    ensures r == PromptFields(text)
  {
    if text == "" {
      return NoSpecs;
    }
    var name := ReadPlain(text, PartNameLabels);
    var number := ReadPlain(text, PartNumberLabels);
    var free := ReadWithUnit(text, FreeLengthLabels, " mm");
    var modeLine := FindLabelled(text, TestModeLabels);
    var mode := "";
    if modeLine.Some? {
      var word := FirstWord(modeLine.value);
      if word.None? {
        return Specs(name, number, free, "", "");
      }
      mode := word.value;
    }
    var safety := ReadWithUnit(text, SafetyLimitLabels, " N");
    if safety == "0.0" {
      safety := "";
    }
    r := Specs(name, number, free, mode, safety);
  }

  /** A field kept as found: the value is set only when the stripped line is not empty. */
  method ReadPlain(text: string, labels: seq<string>) returns (v: string)
    ensures v == FirstLabelled(text, labels).GetOr("")
  {
    v := "";
    var found := FindLabelled(text, labels);
    if found.Some? && found.value != "" {
      v := found.value;
    }
  }

  /** A field whose unit is cut from the line found. */
  method ReadWithUnit(text: string, labels: seq<string>, unit: string) returns (v: string)
    requires |unit| > 0
    ensures v == UnitField(text, labels, unit)
  {
    v := "";
    var found := FindLabelled(text, labels);
    if found.Some? {
      v := CutUnit(found.value, unit);
    }
  }
}
