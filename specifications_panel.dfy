/**
 * The text handling of the specifications panel (`ui/specifications_panel.py`):
 * the test-mode names, the part-number conversion of the form, the parser
 * of pasted specification text and the cleaner of text extracted from a
 * PDF. Regular expressions are the uninterpreted matcher of `Regex`;
 * `int()` and `float()` on text are given conversions that fail with `None`.
 */
module SpecificationsPanel {
  import opened Wrappers
  import opened PyStr
  import opened Values
  import opened DataModels
  import Regex

  // ------------------------------------------------- form values

  const OldTestModes: seq<string> := ["Height", "Deflection", "Force"]

  /** The old names are non-empty single words. */
  lemma OldTestModesAreWords()
    ensures forall k :: k in OldTestModes ==> |k| > 0 && ' ' !in k
  {
    assert OldTestModes == ["Height", "Deflection", "Force"];
  }

  /** A name with " Mode" appended: still trimmed, and holding a space. */
  lemma ModeNameTrimmed(m: string)
    requires Trimmed(m) && |m| > 0
    ensures Trimmed(m + " Mode") && (m + " Mode")[|m|] == ' '
  {
    assert (m + " Mode")[0] == m[0];
  }

  /** `_normalize_test_mode`: the old names get " Mode" appended; any other stripped value is kept. */
  function NormalizeTestMode(mode: string): (r: string)
    ensures Strip(mode) in OldTestModes ==> r == Strip(mode) + " Mode"
    ensures Strip(mode) !in OldTestModes ==> r == Strip(mode)
    ensures Trimmed(r)
  {
    var m := Strip(mode);
    if m in OldTestModes then
      OldTestModesAreWords();
      ModeNameTrimmed(m);
      m + " Mode"
    else m
  }

  /** Normalising a normalised mode changes nothing. */
  lemma NormalizeTestModeIdempotent(mode: string)
    ensures NormalizeTestMode(NormalizeTestMode(mode)) == NormalizeTestMode(mode)
  {
    var r := NormalizeTestMode(mode);
    StripOfTrimmed(r);
    var m := Strip(mode);
    if m in OldTestModes {
      OldTestModesAreWords();
      ModeNameTrimmed(m);
      assert ' ' in r;
      assert r !in OldTestModes;
    }
  }

  /** The conversions the application relies on: `int(text)` and `float(text)`. */
  datatype Conversions = Conversions(toInt: string -> Option<int>, toFloat: string -> Option<Float>)

  /** The part id the form stores: a number when the text is all digits, else the text itself. */
  function PartIdFromText(text: string): (r: PartId)
    ensures IsDigits(text) ==> r == IdNum(DigitsValue(text))
    ensures !IsDigits(text) ==> r == IdText(text)
  {
    if IsDigits(text) then IdNum(DigitsValue(text)) else IdText(text)
  }

  /** A number's decimal text is stored as that number. */
  lemma PartIdOfNumber(n: nat)
    ensures PartIdFromText(NatToStr(n)) == IdNum(n)
  {
    NatToStrRoundTrip(n);
  }

  // ------------------------------------------------- shared loops

  /** Substitutions done one after the other: `text = re.sub(pattern, replacement, text)`. */
  function SubAll(e: Regex.Engine, text: string, subs: seq<(Regex.Pattern, string)>): string
    decreases |subs|
  {
    if |subs| == 0 then text
    else
      var last := subs[|subs| - 1];
      e.sub(last.0, last.1, SubAll(e, text, subs[..|subs| - 1]))
  }

  method SubstituteAll(e: Regex.Engine, text: string, subs: seq<(Regex.Pattern, string)>) returns (r: string)
    ensures r == SubAll(e, text, subs)
  {
    r := text;
    var k := 0;
    while k < |subs|
      invariant 0 <= k <= |subs|
      invariant r == SubAll(e, text, subs[..k])
    {
      PrefixStep(subs, k);
      r := e.sub(subs[k].0, subs[k].1, r);
      k := k + 1;
    }
    assert subs[..k] == subs;
  }

  /** The `for pattern in patterns: ... break` search: the first pattern that matches. */
  method SearchFirst(e: Regex.Engine, ps: seq<Regex.Pattern>, text: string) returns (r: Option<Regex.Match>)
    ensures r.Some? <==> Regex.FirstSearch(e, ps, text).Some?
    ensures r.Some? ==> r.value == Regex.FirstSearch(e, ps, text).value.1
  {
    var k := 0;
    while k < |ps|
      invariant 0 <= k <= |ps|
      invariant forall j :: 0 <= j < k ==> e.search(ps[j], text).None?
    {
      var m := e.search(ps[k], text);
      if m.Some? {
        Regex.FirstSearchIsFirst(e, ps, text, k);
        return m;
      }
      k := k + 1;
    }
    r := None;
  }

  // ------------------------------------------------- pasted text

  /** The labels before which the parser starts a new line. */
  const ParseLineKeys: seq<string> :=
    ["Part Name:", "Part Number:", "ID:", "Free Length:", "No of ", "Wire ", "Wired ", "OD:", "Set Po", "Safety"]

  /** `\s+(<key>)` replaced by a newline and the key, ignoring case. */
  function ParseLineBreaks(keys: seq<string>): (subs: seq<(Regex.Pattern, string)>)
    ensures |subs| == |keys|
  {
    seq(|keys|, i requires 0 <= i < |keys| => (Regex.Pattern(@"\s+(" + keys[i] + ")", true), "\n" + @"\1"))
  }

  /** How a field's captured text is stored: `int()`, the first number in it through `float()`, or as it is. */
  datatype FieldKind = IdKind | NumberKind | TextKind

  datatype FieldPattern = FieldPattern(key: string, source: string, kind: FieldKind)

  /** A parsed field value. */
  datatype Field = TextField(t: string) | IntField(i: int) | NumberField(f: Float)

  const FieldPatterns: seq<FieldPattern> := [
    FieldPattern("part_name", @"(?:^|\s+)(?:Part|Spring)\s+Name:?\s*(.+?)(?:\s+(?:Part|ID|Free|No|Wire|OD|Set|Safety)|$)", TextKind),
    FieldPattern("part_number", @"(?:^|\s+)Part\s+Number:?\s*(.+?)(?:\s+(?:Part|ID|Free|No|Wire|OD|Set|Safety)|$)", TextKind),
    FieldPattern("part_id", @"(?:^|\s+)ID:?\s*(\d+)", IdKind),
    FieldPattern("free_length", @"(?:^|\s+)Free\s+Length:?\s*([\d.]+)", NumberKind),
    FieldPattern("coil_count", @"(?:^|\s+)No\s+of\s+(?:Coils|Colis):?\s*([\d.]+)", NumberKind),
    FieldPattern("wire_dia", @"(?:^|\s+)(?:Wire|Wired)\s+Dia(?:meter)?:?\s*([\d.]+)", NumberKind),
    FieldPattern("outer_dia", @"(?:^|\s+)OD:?\s*([\d.]+)", NumberKind),
    FieldPattern("safety_limit", @"(?:^|\s+)[Ss]afety\s+[Ll]imit:?\s*([\d.]+)", NumberKind),
    FieldPattern("force_unit", @"(?:^|\s+)Force\s+Unit:?\s*(\w+)", TextKind),
    FieldPattern("test_mode", @"(?:^|\s+)Test\s+Mode:?\s*(Height Mode|Deflection Mode|Force Mode|Height|Deflection|Tension)", TextKind),
    FieldPattern("component_type", @"(?:^|\s+)Component\s+Type:?\s*(\w+)", TextKind),
    FieldPattern("first_speed", @"(?:^|\s+)First\s+Speed:?\s*([\d.]+)", TextKind),
    FieldPattern("second_speed", @"(?:^|\s+)Second\s+Speed:?\s*([\d.]+)", TextKind),
    FieldPattern("offer_number", @"(?:^|\s+)Offer\s+Number:?\s*(.+?)(?:\s+(?:Production|Part|Material|Surface|End)|$)", TextKind),
    FieldPattern("production_batch_number", @"(?:^|\s+)Production\s+Batch(?:\s+Number)?:?\s*(.+?)(?:\s+(?:Part|Material|Surface|End)|$)", TextKind),
    FieldPattern("part_rev_no_date", @"(?:^|\s+)Part\s+Rev(?:ision|\.)?:?\s*(.+?)(?:\s+(?:Material|Surface|End)|$)", TextKind),
    FieldPattern("material_description", @"(?:^|\s+)Material(?:\s+Description)?:?\s*(.+?)(?:\s+(?:Surface|End)|$)", TextKind),
    FieldPattern("surface_treatment", @"(?:^|\s+)Surface\s+Treatment:?\s*(.+?)(?:\s+(?:end)|$)", TextKind),
    FieldPattern("end_coil_finishing", @"(?:^|\s+)End\s+Coil(?:\s+Finishing)?:?\s*(.+?)(?:\s+Set|Safety|$)", TextKind)]

  /** The label text a lazy capture may have swallowed, removed from the end of a value. */
  const TrailingLabel := Regex.Pattern(@"\s+(?:Part|ID|Free|No|Wire|OD|Set|Safety).*$", true)
  const FirstNumber := Regex.Pattern(@"([\d.]+)", false)

  /** One field: nothing when its pattern does not match or its conversion fails. */
  function FieldOf(e: Regex.Engine, c: Conversions, text: string, p: FieldPattern): Option<Field> {
    match e.search(Regex.Pattern(p.source, true), text)
    case None => None
    case Some(m) =>
      var value := e.sub(TrailingLabel, "", Strip(Regex.Text(m, 1)));
      match p.kind
      case IdKind => (match c.toInt(value) case None => None case Some(i) => Some(IntField(i)))
      case NumberKind =>
        (match e.search(FirstNumber, value)
         case None => None
         case Some(nm) => match c.toFloat(Regex.Text(nm, 1)) case None => None case Some(f) => Some(NumberField(f)))
      case TextKind => Some(TextField(value))
  }

  /** The `basic_info` dictionary: one entry per field found, in pattern order. */
  function Fields(e: Regex.Engine, c: Conversions, text: string, ps: seq<FieldPattern>): (d: Dict<Field>)
    ensures |d| <= |ps|
    ensures forall j :: 0 <= j < |d| ==> exists i :: 0 <= i < |ps| && d[j].0 == ps[i].key
    decreases |ps|
  {
    if |ps| == 0 then []
    else
      var front := Fields(e, c, text, ps[..|ps| - 1]);
      var last := ps[|ps| - 1];
      match FieldOf(e, c, text, last)
      case None => front
      case Some(v) => front + [(last.key, v)]
  }

  predicate DistinctFieldKeys(ps: seq<FieldPattern>) {
    forall i, j :: 0 <= i < j < |ps| ==> ps[i].key != ps[j].key
  }

  /** Each field is found or skipped on its own: a failed conversion skips that field only. */
  lemma {:induction false} FieldsLookup(e: Regex.Engine, c: Conversions, text: string, ps: seq<FieldPattern>, i: nat)
    requires i < |ps| && DistinctFieldKeys(ps)
    ensures Get(Fields(e, c, text, ps), ps[i].key) == FieldOf(e, c, text, ps[i])
    decreases |ps|
  {
    var front := ps[..|ps| - 1];
    var last := ps[|ps| - 1];
    var d := Fields(e, c, text, front);
    var v := FieldOf(e, c, text, last);
    if i == |ps| - 1 {
      assert !HasKey(d, last.key);
      GetNone(d, last.key);
      if v.Some? {
        GetSnoc(d, last.key, v.value, last.key);
      }
    } else {
      assert front[i] == ps[i];
      FieldsLookup(e, c, text, front, i);
      if v.Some? {
        GetSnoc(d, last.key, v.value, ps[i].key);
      }
    }
  }

  lemma FieldPatternKeysDistinct()
    ensures DistinctFieldKeys(FieldPatterns)
  {
    PdfKeysDistinct();
    assert |FieldPatterns| == |PdfKeys|;
    assert forall i :: 0 <= i < |FieldPatterns| ==> FieldPatterns[i].key == PdfKeys[i];
  }

  /** The loop over the field patterns. */
  method ExtractFields(e: Regex.Engine, c: Conversions, text: string, ps: seq<FieldPattern>) returns (d: Dict<Field>)
    ensures d == Fields(e, c, text, ps)
  {
    d := [];
    var k := 0;
    while k < |ps|
      invariant 0 <= k <= |ps|
      invariant d == Fields(e, c, text, ps[..k])
    {
      PrefixStep(ps, k);
      var v := FieldOf(e, c, text, ps[k]);
      if v.Some? {
        d := d + [(ps[k].key, v.value)];
      }
      k := k + 1;
    }
    assert ps[..k] == ps;
  }

  // ------------------------------------------------- pasted set points

  /** A value, or the `ValueError` a conversion outside any `try` raises. */
  datatype Outcome<T> = Raised | Returned(value: T)

  /** A parsed set point; `index` is its number minus one, and it is always enabled. */
  datatype ParsedPoint = ParsedPoint(index: int, position: Float, load: Float, tolerance: Float)

  const DefaultTolerance := F(5.0, "5.0")

  /** Both halves of a set point in one match, across lines (`re.DOTALL`, written `(?s)`). */
  const WholePointPattern := Regex.Pattern(
    "(?s)" + @"Set\s+Point\-(\d+)\s+in\s+mm:\s*([\d.]+).*?Set\s+Point\-\1\s+Load\s+In\s+N:\s*([\d.]+)(?:±([\d.]+)%)?.*?N", true)
  const PositionLinePattern := Regex.Pattern(@"Set\s+Point\-(\d+)\s+in\s+mm:\s*([\d.]+)", true)
  const LoadLinePattern := Regex.Pattern(@"Set\s+Point\-(\d+)\s+Load\s+In\s+N:\s*([\d.]+)(?:±([\d.]+)%)?", true)

  /** A tolerance group: 5 % when it is missing or empty. */
  function ToleranceOf(c: Conversions, g: Option<string>): Option<Float> {
    if g.Some? && g.value != "" then c.toFloat(g.value) else Some(DefaultTolerance)
  }

  /** A position line: the line number, the set-point number and the position. */
  datatype PositionLine = PositionLine(line: nat, number: int, position: Float)
  /** A load line: the line number, the set-point number, the load and the tolerance. */
  datatype LoadLine = LoadLine(line: nat, number: int, load: Float, tolerance: Float)

  /** The position lines among `lines[..n]`; a conversion that fails raises. */
  function PositionLines(e: Regex.Engine, c: Conversions, lines: seq<string>, n: nat): (r: Outcome<seq<PositionLine>>)
    requires n <= |lines|
    ensures r.Returned? ==> forall p :: p in r.value ==> p.line < n
    decreases n
  {
    if n == 0 then Returned([])
    else match PositionLines(e, c, lines, n - 1)
      case Raised => Raised
      case Returned(front) =>
        match e.search(PositionLinePattern, lines[n - 1])
        case None => Returned(front)
        case Some(m) =>
          match (c.toInt(Regex.Text(m, 1)), c.toFloat(Regex.Text(m, 2)))
          case (Some(i), Some(f)) => Returned(front + [PositionLine(n - 1, i, f)])
          case _ => Raised
  }

  /** The load lines among `lines[..n]`; a conversion that fails raises. */
  function LoadLines(e: Regex.Engine, c: Conversions, lines: seq<string>, n: nat): (r: Outcome<seq<LoadLine>>)
    requires n <= |lines|
    ensures r.Returned? ==> forall l :: l in r.value ==> l.line < n
    decreases n
  {
    if n == 0 then Returned([])
    else match LoadLines(e, c, lines, n - 1)
      case Raised => Raised
      case Returned(front) =>
        match e.search(LoadLinePattern, lines[n - 1])
        case None => Returned(front)
        case Some(m) =>
          match (c.toInt(Regex.Text(m, 1)), c.toFloat(Regex.Text(m, 2)), ToleranceOf(c, Regex.Group(m, 3)))
          case (Some(i), Some(f), Some(t)) => Returned(front + [LoadLine(n - 1, i, f, t)])
          case _ => Raised
  }

  /** The first load line with the given set-point number. */
  function FirstLoad(loads: seq<LoadLine>, number: int): (r: Option<LoadLine>)
    ensures r.Some? ==> r.value in loads && r.value.number == number
    ensures r.None? <==> forall l :: l in loads ==> l.number != number
    decreases |loads|
  {
    if |loads| == 0 then None
    else if loads[0].number == number then Some(loads[0])
    else FirstLoad(loads[1..], number)
  }

  /** The load line found is the earliest with the number. */
  lemma {:induction false} FirstLoadAt(loads: seq<LoadLine>, number: int, k: nat)
    requires k < |loads| && loads[k].number == number
    requires forall j :: 0 <= j < k ==> loads[j].number != number
    ensures FirstLoad(loads, number) == Some(loads[k])
    decreases k
  {
    if k > 0 {
      FirstLoadAt(loads[1..], number, k - 1);
    }
  }

  /** Each position paired with the first load of the same number; a position without one is dropped. */
  function Pairs(positions: seq<PositionLine>, loads: seq<LoadLine>): (ps: seq<ParsedPoint>)
    ensures |ps| <= |positions|
    decreases |positions|
  {
    if |positions| == 0 then []
    else
      var front := Pairs(positions[..|positions| - 1], loads);
      var p := positions[|positions| - 1];
      match FirstLoad(loads, p.number)
      case None => front
      case Some(l) => front + [ParsedPoint(p.number - 1, p.position, l.load, l.tolerance)]
  }

  /**
   * A parsed point is exactly a position line together with the first load
   * line of its number: index one below the number, that line's load and
   * tolerance.
   */
  lemma {:induction false} PairsSpec(positions: seq<PositionLine>, loads: seq<LoadLine>, pt: ParsedPoint)
    ensures pt in Pairs(positions, loads) <==>
      exists p :: p in positions && FirstLoad(loads, p.number).Some? &&
        pt == ParsedPoint(p.number - 1, p.position, FirstLoad(loads, p.number).value.load,
                          FirstLoad(loads, p.number).value.tolerance)
    decreases |positions|
  {
    if |positions| > 0 {
      var front := positions[..|positions| - 1];
      PairsSpec(front, loads, pt);
      assert positions == front + [positions[|positions| - 1]];
    }
  }

  /** A point whose number has only one load line takes that line's values. */
  lemma PairsTakeFirstLoad(positions: seq<PositionLine>, loads: seq<LoadLine>, p: PositionLine, k: nat)
    requires p in positions && k < |loads| && loads[k].number == p.number
    requires forall j :: 0 <= j < k ==> loads[j].number != p.number
    ensures ParsedPoint(p.number - 1, p.position, loads[k].load, loads[k].tolerance) in Pairs(positions, loads)
  {
    FirstLoadAt(loads, p.number, k);
    PairsSpec(positions, loads, ParsedPoint(p.number - 1, p.position, loads[k].load, loads[k].tolerance));
  }

  /** The points of the whole-pattern matches, in order; a conversion that fails raises. */
  function WholePoints(c: Conversions, ms: seq<Regex.Match>): Outcome<seq<ParsedPoint>>
    decreases |ms|
  {
    if |ms| == 0 then Returned([])
    else match WholePoints(c, ms[..|ms| - 1])
      case Raised => Raised
      case Returned(front) =>
        var m := ms[|ms| - 1];
        match (c.toInt(Regex.Text(m, 1)), c.toFloat(Regex.Text(m, 2)), c.toFloat(Regex.Text(m, 3)),
               ToleranceOf(c, Regex.Group(m, 4)))
        case (Some(i), Some(pos), Some(load), Some(t)) => Returned(front + [ParsedPoint(i - 1, pos, load, t)])
        case _ => Raised
  }

  /** The set points: whole-pattern matches when there is one, else the line-by-line pairing. */
  function SetPointsOf(e: Regex.Engine, c: Conversions, text: string): Outcome<seq<ParsedPoint>> {
    if e.search(WholePointPattern, text).None? then
      var lines := Split(text, "\n");
      match (PositionLines(e, c, lines, |lines|), LoadLines(e, c, lines, |lines|))
      case (Returned(ps), Returned(ls)) => Returned(Pairs(ps, ls))
      case _ => Raised
    else WholePoints(c, e.findAll(WholePointPattern, text))
  }

  /** The parser's result: the basic fields and the set points. */
  datatype ParsedText = ParsedText(basic: Dict<Field>, points: seq<ParsedPoint>)

  /**
   * `parse_specifications_text(text)`: `None` whenever no basic field was
   * found, even when set points were; a `ValueError` in the set-point
   * conversions escapes.
   */
  function ParseSpecificationsText(e: Regex.Engine, c: Conversions, text: string): (r: Outcome<Option<ParsedText>>)
    ensures var pre := SubAll(e, text, ParseLineBreaks(ParseLineKeys));
      (r.Raised? <==> SetPointsOf(e, c, pre).Raised?) &&
      (r.Returned? ==> (r.value.None? <==> |Fields(e, c, pre, FieldPatterns)| == 0)) &&
      (r.Returned? && r.value.Some? ==>
         r.value.value == ParsedText(Fields(e, c, pre, FieldPatterns), SetPointsOf(e, c, pre).value))
  {
    var pre := SubAll(e, text, ParseLineBreaks(ParseLineKeys));
    var basic := Fields(e, c, pre, FieldPatterns);
    match SetPointsOf(e, c, pre)
    case Raised => Raised
    case Returned(points) => Returned(if |basic| == 0 then None else Some(ParsedText(basic, points)))
  }

  lemma {:induction false} PositionLinesStayRaised(e: Regex.Engine, c: Conversions, lines: seq<string>, k: nat, n: nat)
    requires k <= n <= |lines| && PositionLines(e, c, lines, k) == Raised
    ensures PositionLines(e, c, lines, n) == Raised
    decreases n
  {
    if n > k {
      PositionLinesStayRaised(e, c, lines, k, n - 1);
    }
  }

  lemma {:induction false} LoadLinesStayRaised(e: Regex.Engine, c: Conversions, lines: seq<string>, k: nat, n: nat)
    requires k <= n <= |lines| && LoadLines(e, c, lines, k) == Raised
    ensures LoadLines(e, c, lines, n) == Raised
    decreases n
  {
    if n > k {
      LoadLinesStayRaised(e, c, lines, k, n - 1);
    }
  }

  /** The loop over the lines that collects the position lines. */
  method CollectPositionLines(e: Regex.Engine, c: Conversions, lines: seq<string>) returns (r: Outcome<seq<PositionLine>>)
    ensures r == PositionLines(e, c, lines, |lines|)
  {
    var found: seq<PositionLine> := [];
    var k := 0;
    while k < |lines|
      invariant 0 <= k <= |lines|
      invariant PositionLines(e, c, lines, k) == Returned(found)
    {
      var m := e.search(PositionLinePattern, lines[k]);
      if m.Some? {
        var i := c.toInt(Regex.Text(m.value, 1));
        var f := c.toFloat(Regex.Text(m.value, 2));
        if i.None? || f.None? {
          assert PositionLines(e, c, lines, k + 1) == Raised;
          PositionLinesStayRaised(e, c, lines, k + 1, |lines|);
          return Raised;
        }
        found := found + [PositionLine(k, i.value, f.value)];
      }
      k := k + 1;
    }
    r := Returned(found);
  }

  /** The loop over the lines that collects the load lines. */
  method CollectLoadLines(e: Regex.Engine, c: Conversions, lines: seq<string>) returns (r: Outcome<seq<LoadLine>>)
    ensures r == LoadLines(e, c, lines, |lines|)
  {
    var found: seq<LoadLine> := [];
    var k := 0;
    while k < |lines|
      invariant 0 <= k <= |lines|
      invariant LoadLines(e, c, lines, k) == Returned(found)
    {
      var m := e.search(LoadLinePattern, lines[k]);
      if m.Some? {
        var t := ToleranceOf(c, Regex.Group(m.value, 3));
        var i := c.toInt(Regex.Text(m.value, 1));
        var f := c.toFloat(Regex.Text(m.value, 2));
        if t.None? || i.None? || f.None? {
          assert LoadLines(e, c, lines, k + 1) == Raised;
          LoadLinesStayRaised(e, c, lines, k + 1, |lines|);
          return Raised;
        }
        found := found + [LoadLine(k, i.value, f.value, t.value)];
      }
      k := k + 1;
    }
    r := Returned(found);
  }

  /** The inner loop: the first load line with the number, then `break`. */
  method FindLoad(loads: seq<LoadLine>, number: int) returns (r: Option<LoadLine>)
    ensures r == FirstLoad(loads, number)
  {
    var k := 0;
    while k < |loads|
      invariant 0 <= k <= |loads|
      invariant forall j :: 0 <= j < k ==> loads[j].number != number
    {
      if loads[k].number == number {
        FirstLoadAt(loads, number, k);
        return Some(loads[k]);
      }
      k := k + 1;
    }
    r := None;
  }

  /** The outer loop of the pairing. */
  method PairLines(positions: seq<PositionLine>, loads: seq<LoadLine>) returns (ps: seq<ParsedPoint>)
    ensures ps == Pairs(positions, loads)
  {
    ps := [];
    var k := 0;
    while k < |positions|
      invariant 0 <= k <= |positions|
      invariant ps == Pairs(positions[..k], loads)
    {
      PrefixStep(positions, k);
      var l := FindLoad(loads, positions[k].number);
      if l.Some? {
        ps := ps + [ParsedPoint(positions[k].number - 1, positions[k].position, l.value.load, l.value.tolerance)];
      }
      k := k + 1;
    }
    assert positions[..k] == positions;
  }

  /** The loop over the whole-pattern matches. */
  method CollectWholePoints(c: Conversions, ms: seq<Regex.Match>) returns (r: Outcome<seq<ParsedPoint>>)
    ensures r == WholePoints(c, ms)
  {
    var found: seq<ParsedPoint> := [];
    var k := 0;
    while k < |ms|
      invariant 0 <= k <= |ms|
      invariant WholePoints(c, ms[..k]) == Returned(found)
    {
      PrefixStep(ms, k);
      var m := ms[k];
      var i := c.toInt(Regex.Text(m, 1));
      var pos := c.toFloat(Regex.Text(m, 2));
      var load := c.toFloat(Regex.Text(m, 3));
      var t := ToleranceOf(c, Regex.Group(m, 4));
      if i.None? || pos.None? || load.None? || t.None? {
        WholePointsRaises(c, ms, k);
        return Raised;
      }
      found := found + [ParsedPoint(i.value - 1, pos.value, load.value, t.value)];
      k := k + 1;
    }
    assert ms[..k] == ms;
    r := Returned(found);
  }

  /** Once a conversion fails, the matches after it change nothing: the parse raises. */
  lemma {:induction false} WholePointsRaises(c: Conversions, ms: seq<Regex.Match>, k: nat)
    requires k < |ms| && WholePoints(c, ms[..k]).Returned?
    requires var m := ms[k];
      c.toInt(Regex.Text(m, 1)).None? || c.toFloat(Regex.Text(m, 2)).None? ||
      c.toFloat(Regex.Text(m, 3)).None? || ToleranceOf(c, Regex.Group(m, 4)).None?
    ensures WholePoints(c, ms) == Raised
    decreases |ms| - k
  {
    if k == |ms| - 1 {
      assert ms[..k] == ms[..|ms| - 1];
    } else {
      assert ms[..|ms| - 1][..k] == ms[..k];
      WholePointsRaises(c, ms[..|ms| - 1], k);
    }
  }

  /** The parser itself, loop by loop. */
  method ParseSpecifications(e: Regex.Engine, c: Conversions, text: string) returns (r: Outcome<Option<ParsedText>>)
    ensures r == ParseSpecificationsText(e, c, text)
  {
    var pre := SubstituteAll(e, text, ParseLineBreaks(ParseLineKeys));
    var basic := ExtractFields(e, c, pre, FieldPatterns);
    var points: seq<ParsedPoint>;
    if e.search(WholePointPattern, pre).None? {
      var lines := Split(pre, "\n");
      var positions := CollectPositionLines(e, c, lines);
      if positions.Raised? {
        return Raised;
      }
      var loads := CollectLoadLines(e, c, lines);
      if loads.Raised? {
        return Raised;
      }
      points := PairLines(positions.value, loads.value);
    } else {
      var whole := CollectWholePoints(c, e.findAll(WholePointPattern, pre));
      if whole.Raised? {
        return Raised;
      }
      points := whole.value;
    }
    if |basic| == 0 {
      return Returned(None);
    }
    r := Returned(Some(ParsedText(basic, points)));
  }

  // ------------------------------------------------- text from a PDF

  /** The labels before which the cleaner starts a new line. */
  const PdfLineKeys: seq<string> :=
    ["Part Name", "Part Number", "ID:", "Free Length", "No of ", "Wire ", "Wired ", "OD:", "Set Po", "Safety"]

  /** `([^\n])\s+(<key>)` replaced by the character, a newline and the key, ignoring case. */
  function PdfLineBreaks(keys: seq<string>): (subs: seq<(Regex.Pattern, string)>)
    ensures |subs| == |keys|
  {
    seq(|keys|, i requires 0 <= i < |keys| =>
      (Regex.Pattern(@"([^\n])\s+(" + keys[i] + ")", true), @"\1" + "\n" + @"\2"))
  }

  const Spaces := Regex.Pattern(@"\s+", false)

  /** A line with each run of whitespace made one space, then stripped. */
  function CleanLine(e: Regex.Engine, line: string): string {
    Strip(e.sub(Spaces, " ", line))
  }

  /** Every line cleaned, in order. */
  function CleanLines(e: Regex.Engine, lines: seq<string>): (r: seq<string>)
    ensures |r| == |lines| && forall i :: 0 <= i < |lines| ==> r[i] == CleanLine(e, lines[i])
  {
    MapAll(Cleaner(e), lines)
  }

  function Cleaner(e: Regex.Engine): string -> string {
    line => CleanLine(e, line)
  }

  method CleanEachLine(e: Regex.Engine, lines: seq<string>) returns (r: seq<string>)
    ensures r == CleanLines(e, lines)
  {
    r := [];
    var k := 0;
    while k < |lines|
      invariant 0 <= k <= |lines| && r == MapAll(Cleaner(e), lines[..k])
    {
      MapSnoc(Cleaner(e), lines, k);
      r := r + [CleanLine(e, lines[k])];
      k := k + 1;
    }
    WholePrefix(lines);
  }

  /** A field of the cleaner: its key, its patterns in the order tried, and its output label and unit. */
  datatype PdfField = PdfField(key: string, patterns: seq<string>, caption: string, unit: string)

  /** The cleaner's fields in the order they are searched and written. */
  const PdfKeys: seq<string> := ["part_name", "part_number", "part_id", "free_length", "coil_count", "wire_dia", "outer_dia", "safety_limit", "force_unit", "test_mode", "component_type", "first_speed", "second_speed", "offer_number", "production_batch_number", "part_rev_no_date", "material_description", "surface_treatment", "end_coil_finishing"]

  /** The two patterns of each field, the first tried first. */
  const PdfPatterns: seq<seq<string>> := [
    [@"(?:part|spring)[\s:]+name[\s:]*([^,;\n\d]+)", @"(?:^|\n)[\s:]*part[\s:]*name[\s:]*([^,;\n\d]+)"],
    [@"(?:part|spring)[\s:]+(?:number|no\.?|#)[\s:]*([^,;\n]+)", @"(?:^|\n)[\s:]*part[\s:]*number[\s:]*([^,;\n]+)"],
    [@"(?:part|spring)?[\s:]*id[\s:]*(\d+)", @"(?:^|\n)[\s:]*id[\s:]*(\d+)"],
    [@"free[\s:]+length[\s:]*(\d+\.?\d*)[\s]*(?:mm)?", @"(?:^|\n)[\s:]*free[\s:]*length[\s:]*(\d+\.?\d*)"],
    [@"(?:number[\s:]+of[\s:]+(?:coils|colis)|no[\s:]+of[\s:]+(?:coils|colis))[\s:]*(\d+\.?\d*)", @"(?:^|\n)[\s:]*(?:no\.?|number)[\s:]*of[\s:]*(?:coils|colis)[\s:]*(\d+\.?\d*)"],
    [@"(?:wire|wired)[\s:]+dia(?:meter)?[\s:]*(\d+\.?\d*)[\s]*(?:mm)?", @"(?:^|\n)[\s:]*(?:wire|wired)[\s:]*dia(?:meter)?[\s:]*(\d+\.?\d*)"],
    [@"(?:outer[\s:]+dia(?:meter)?|od)[\s:]*(\d+\.?\d*)[\s]*(?:mm)?", @"(?:^|\n)[\s:]*(?:outer[\s:]*diameter|od)[\s:]*(\d+\.?\d*)"],
    [@"safety[\s:]+limit[\s:]*(\d+\.?\d*)[\s]*(?:n)?", @"(?:^|\n)[\s:]*safety[\s:]*limit[\s:]*(\d+\.?\d*)"],
    [@"force[\s:]+unit[\s:]*(\w+)", @"(?:^|\n)[\s:]*force[\s:]*unit[\s:]*(\w+)"],
    [@"test[\s:]+mode[\s:]*(Height Mode|Deflection Mode|Force Mode|Height|Deflection|Tension)", @"(?:^|\n)[\s:]*test[\s:]*mode[\s:]*(Height Mode|Deflection Mode|Force Mode|Height|Deflection|Tension)"],
    [@"component[\s:]+type[\s:]*(\w+)", @"(?:^|\n)[\s:]*component[\s:]*type[\s:]*(\w+)"],
    [@"first[\s:]+speed[\s:]*(\d+\.?\d*)[\s]*(?:mm)?", @"(?:^|\n)[\s:]*first[\s:]*speed[\s:]*(\d+\.?\d*)"],
    [@"second[\s:]+speed[\s:]*(\d+\.?\d*)[\s]*(?:mm)?", @"(?:^|\n)[\s:]*second[\s:]*speed[\s:]*(\d+\.?\d*)"],
    [@"offer[\s:]+number[\s:]*(\d+)", @"(?:^|\n)[\s:]*offer[\s:]*number[\s:]*(\d+)"],
    [@"production[\s:]+batch[\s:]*(\d+)", @"(?:^|\n)[\s:]*production[\s:]*batch[\s:]*(\d+)"],
    [@"part[\s:]+rev[\s:]*(\d+)", @"(?:^|\n)[\s:]*part[\s:]*rev[\s:]*(\d+)"],
    [@"material[\s:]+description[\s:]*(.+?)(?:\s+(?:surface|end)|$)", @"(?:^|\n)[\s:]*material[\s:]*description[\s:]*(.+?)(?:\s+(?:surface|end)|$)"],
    [@"surface[\s:]+treatment[\s:]*(.+?)(?:\s+(?:end)|$)", @"(?:^|\n)[\s:]*surface[\s:]*treatment[\s:]*(.+?)(?:\s+(?:end)|$)"],
    [@"end[\s:]+coil[\s:]+finishing[\s:]*(.+?)(?:\s+set|safety|$)", @"(?:^|\n)[\s:]*end[\s:]*coil[\s:]*finishing[\s:]*(.+?)(?:\s+set|safety|$)"]]

  const PdfCaptions: seq<string> := ["Part Name", "Part Number", "ID", "Free Length", "No of Coils", "Wire Dia", "OD", "Safety limit", "Force Unit", "Test Mode", "Component Type", "First Speed", "Second Speed", "Offer Number", "Production Batch", "Part Revision", "Material", "Surface Treatment", "End Coil Finishing"]

  const PdfUnits: seq<string> := ["", "", "", " mm", "", " mm", " mm", " N", "", "", "", " mm/s", " mm/s", "", "", "", "", "", ""]

  const PdfFields: seq<PdfField> :=
    seq(19, i requires 0 <= i < 19 => PdfField(PdfKeys[i], PdfPatterns[i], PdfCaptions[i], PdfUnits[i]))

  /** The patterns of a field, searched ignoring case. */
  function IgnoringCase(sources: seq<string>): (ps: seq<Regex.Pattern>)
    ensures |ps| == |sources|
  {
    seq(|sources|, i requires 0 <= i < |sources| => Regex.Pattern(sources[i], true))
  }

  /** A field's value: group 1 of its first pattern that matches, stripped. */
  function PdfValue(e: Regex.Engine, text: string, f: PdfField): Option<string> {
    match Regex.FirstSearch(e, IgnoringCase(f.patterns), text)
    case None => None
    case Some(hit) => Some(Strip(Regex.Text(hit.1, 1)))
  }

  /** The `extracted` dictionary, in table order. */
  function Extracted(e: Regex.Engine, text: string, fs: seq<PdfField>): (d: Dict<string>)
    ensures |d| <= |fs|
    ensures forall j :: 0 <= j < |d| ==> exists i :: 0 <= i < |fs| && d[j].0 == fs[i].key
    decreases |fs|
  {
    if |fs| == 0 then []
    else
      var front := Extracted(e, text, fs[..|fs| - 1]);
      var last := fs[|fs| - 1];
      match PdfValue(e, text, last)
      case None => front
      case Some(v) => front + [(last.key, v)]
  }

  /** One more field adds its value, when it has one, at the end. */
  lemma ExtractedStep(e: Regex.Engine, text: string, fs: seq<PdfField>, k: nat)
    requires k < |fs|
    ensures Extracted(e, text, fs[..k + 1]) ==
            match PdfValue(e, text, fs[k])
            case None => Extracted(e, text, fs[..k])
            case Some(v) => Extracted(e, text, fs[..k]) + [(fs[k].key, v)]
  {
    PrefixStep(fs, k);
  }

  method ExtractPdfFields(e: Regex.Engine, text: string, fs: seq<PdfField>) returns (d: Dict<string>)
    ensures d == Extracted(e, text, fs)
  {
    d := [];
    var k := 0;
    while k < |fs|
      invariant 0 <= k <= |fs|
      invariant d == Extracted(e, text, fs[..k])
    {
      ExtractedStep(e, text, fs, k);
      var m := SearchFirst(e, IgnoringCase(fs[k].patterns), text);
      if m.Some? {
        d := d + [(fs[k].key, Strip(Regex.Text(m.value, 1)))];
      }
      k := k + 1;
    }
    assert fs[..k] == fs;
  }

  /** The field lines, in table order, for the fields that were extracted. */
  function FieldLines(fs: seq<PdfField>, d: Dict<string>): string
    decreases |fs|
  {
    if |fs| == 0 then ""
    else
      var f := fs[|fs| - 1];
      FieldLines(fs[..|fs| - 1], d) +
      (match Get(d, f.key) case None => "" case Some(v) => f.caption + ": " + v + f.unit + "\n")
  }

  const PdfIndexPattern := Regex.Pattern(@"set[\s:]+(?:poin?t|poni)[\s\-:]+(\d+)", true)

  /** The set-point numbers, each once, in order of first mention; a failed `int()` is skipped. */
  function PdfIndices(c: Conversions, ms: seq<Regex.Match>): (r: seq<int>)
    ensures forall i, j :: 0 <= i < j < |r| ==> r[i] != r[j]
    ensures forall x :: x in r <==> exists k :: 0 <= k < |ms| && c.toInt(Regex.Text(ms[k], 1)) == Some(x)
    decreases |ms|
  {
    if |ms| == 0 then []
    else
      var front := PdfIndices(c, ms[..|ms| - 1]);
      assert forall k :: 0 <= k < |ms| - 1 ==> ms[..|ms| - 1][k] == ms[k];
      match c.toInt(Regex.Text(ms[|ms| - 1], 1))
      case None => front
      case Some(x) => if x in front then front else front + [x]
  }

  method CollectPdfIndices(c: Conversions, ms: seq<Regex.Match>) returns (r: seq<int>)
    ensures r == PdfIndices(c, ms)
  {
    r := [];
    var k := 0;
    while k < |ms|
      invariant 0 <= k <= |ms|
      invariant r == PdfIndices(c, ms[..k])
    {
      PrefixStep(ms, k);
      var x := c.toInt(Regex.Text(ms[k], 1));
      if x.Some? && x.value !in r {
        r := r + [x.value];
      }
      k := k + 1;
    }
    assert ms[..k] == ms;
  }

  function PdfPositionPatterns(index: int): seq<Regex.Pattern> {
    var head := @"set[\s:]+(?:poin?t|poni)[\s\-:]+" + IntToStr(index);
    IgnoringCase([head + @"[\s:]+in[\s:]+mm[\s:]*(\d+\.?\d*)[\s]*(?:mm)?",
                  head + @"[\s:]*(\d+\.?\d*)[\s]*(?:mm)?",
                  head + @"[^0-9]*?(\d+\.?\d*)[\s]*(?:mm)?"])
  }

  function PdfLoadPatterns(index: int): seq<Regex.Pattern> {
    var head := @"set[\s:]+(?:poin?t|poni)[\s\-:]+" + IntToStr(index);
    IgnoringCase([head + @"[\s:]+load[\s:]+in[\s:]+n[\s:]*(\d+\.?\d*)(?:±([\d.]+)%)?[\s]*(?:n)?",
                  head + @"[\s:]+load[\s:]*(\d+\.?\d*)(?:±([\d.]+)%)?[\s]*(?:n)?",
                  head + @".*?load.*?(\d+\.?\d*)(?:±([\d.]+)%)?[\s]*(?:n)?"])
  }

  /** A set point of the cleaner: its number, its position text, and its load and tolerance texts. */
  datatype PdfPoint = PdfPoint(index: int, position: Option<string>, load: Option<(string, string)>)

  /** Load and tolerance from a load match; the tolerance is "5" when the match has none. */
  function LoadOf(m: Regex.Match): (r: (string, string))
    ensures r.0 == Strip(Regex.Text(m, 1))
    ensures (Regex.Group(m, 2).None? || Regex.Group(m, 2) == Some("")) ==> r.1 == "5"
    ensures Regex.Group(m, 2).Some? && Regex.Group(m, 2) != Some("") ==> r.1 == Strip(Regex.Group(m, 2).value)
  {
    var g := Regex.Group(m, 2);
    (Strip(Regex.Text(m, 1)), if g.Some? && g.value != "" then Strip(g.value) else "5")
  }

  /** The position and the load of one set point, each from the first of its patterns that matches. */
  function PdfPointOf(e: Regex.Engine, text: string, index: int): (p: PdfPoint)
    ensures p.index == index
    ensures p.position.Some? <==> Regex.FirstSearch(e, PdfPositionPatterns(index), text).Some?
    ensures p.load.Some? <==> Regex.FirstSearch(e, PdfLoadPatterns(index), text).Some?
  {
    var pos := Regex.FirstSearch(e, PdfPositionPatterns(index), text);
    var load := Regex.FirstSearch(e, PdfLoadPatterns(index), text);
    PdfPoint(index,
             if pos.Some? then Some(Strip(Regex.Text(pos.value.1, 1))) else None,
             if load.Some? then Some(LoadOf(load.value.1)) else None)
  }

  method FindPdfPoint(e: Regex.Engine, text: string, index: int) returns (p: PdfPoint)
    ensures p == PdfPointOf(e, text, index)
  {
    var pos := SearchFirst(e, PdfPositionPatterns(index), text);
    var load := SearchFirst(e, PdfLoadPatterns(index), text);
    p := PdfPoint(index,
                  if pos.Some? then Some(Strip(Regex.Text(pos.value, 1))) else None,
                  if load.Some? then Some(LoadOf(load.value)) else None);
  }

  // ------------------------------------------------- ordering the set points

  predicate Ascending(xs: seq<int>) {
    forall i, j :: 0 <= i < j < |xs| ==> xs[i] < xs[j]
  }

  /** `x` put before the first element above it. */
  function Insert(x: int, xs: seq<int>): seq<int>
    decreases |xs|
  {
    if |xs| == 0 then [x]
    else if x < xs[0] then [x] + xs
    else [xs[0]] + Insert(x, xs[1..])
  }

  lemma AscendingTail(xs: seq<int>)
    requires |xs| > 0 && Ascending(xs)
    ensures Ascending(xs[1..])
  {
    var tail := xs[1..];
    forall i, j | 0 <= i < j < |tail| ensures tail[i] < tail[j] {
      assert tail[i] == xs[i + 1] && tail[j] == xs[j + 1];
    }
  }

  lemma AscendingCons(h: int, rest: seq<int>)
    requires Ascending(rest) && forall j :: 0 <= j < |rest| ==> h < rest[j]
    ensures Ascending([h] + rest)
  {
    var r := [h] + rest;
    forall i, j | 0 <= i < j < |r| ensures r[i] < r[j] {
      assert r[j] == rest[j - 1];
      if i > 0 {
        assert r[i] == rest[i - 1];
      }
    }
  }

  lemma BelowAll(h: int, tail: seq<int>, x: int, rest: seq<int>)
    requires forall i :: 0 <= i < |tail| ==> h < tail[i]
    requires h < x && multiset(rest) == multiset(tail) + multiset{x}
    ensures forall j :: 0 <= j < |rest| ==> h < rest[j]
  {
    forall j | 0 <= j < |rest| ensures h < rest[j] {
      assert rest[j] in multiset(rest);
      if rest[j] != x {
        assert rest[j] in multiset(tail);
        var i :| 0 <= i < |tail| && tail[i] == rest[j];
      }
    }
  }

  /** Inserting adds exactly `x`. */
  lemma {:induction false} InsertAdds(x: int, xs: seq<int>)
    ensures multiset(Insert(x, xs)) == multiset(xs) + multiset{x}
    decreases |xs|
  {
    if |xs| > 0 && x >= xs[0] {
      InsertAdds(x, xs[1..]);
      assert xs == [xs[0]] + xs[1..];
    }
  }

  /** Into an ascending list that does not hold it, `x` goes to its place. */
  lemma {:induction false} InsertSorts(x: int, xs: seq<int>)
    requires Ascending(xs) && x !in xs
    ensures Ascending(Insert(x, xs))
    decreases |xs|
  {
    if |xs| > 0 && x >= xs[0] {
      var tail := xs[1..];
      AscendingTail(xs);
      assert x != xs[0];
      assert x !in tail;
      InsertSorts(x, tail);
      var rest := Insert(x, tail);
      assert forall i :: 0 <= i < |tail| ==> xs[0] < tail[i] by {
        forall i | 0 <= i < |tail| ensures xs[0] < tail[i] {
          assert tail[i] == xs[i + 1];
        }
      }
      InsertAdds(x, tail);
      BelowAll(xs[0], tail, x, rest);
      AscendingCons(xs[0], rest);
    } else {
      InsertFront(x, xs);
    }
  }

  lemma InsertFront(x: int, xs: seq<int>)
    requires Ascending(xs) && (|xs| == 0 || x < xs[0])
    ensures Ascending([x] + xs)
  {
    forall j | 0 <= j < |xs| ensures x < xs[j] {
      if j > 0 {
        assert xs[0] < xs[j];
      }
    }
    AscendingCons(x, xs);
  }

  /** `sorted(xs)`, by inserting the elements one after the other. */
  function Sorted(xs: seq<int>): seq<int>
    decreases |xs|
  {
    if |xs| == 0 then [] else Insert(xs[|xs| - 1], Sorted(xs[..|xs| - 1]))
  }

  /** For distinct numbers the result is ascending, with the same elements. */
  lemma {:induction false} SortedSorts(xs: seq<int>)
    requires forall i, j :: 0 <= i < j < |xs| ==> xs[i] != xs[j]
    ensures Ascending(Sorted(xs))
    ensures multiset(Sorted(xs)) == multiset(xs)
    decreases |xs|
  {
    if |xs| > 0 {
      var front := xs[..|xs| - 1];
      var x := xs[|xs| - 1];
      assert xs == front + [x];
      SortedSorts(front);
      var s := Sorted(front);
      assert x !in multiset(s);
      InsertSorts(x, s);
      InsertAdds(x, s);
    }
  }

  /** The lines of one set point: its position line, then its load line. */
  function PointLines(p: PdfPoint): string {
    (if p.position.Some? then "Set Point-" + IntToStr(p.index) + " in mm: " + p.position.value + " mm\n" else "") +
    (if p.load.Some? then
       "Set Point-" + IntToStr(p.index) + " Load In N: " + p.load.value.0 + "±" + p.load.value.1 + "% N\n"
     else "")
  }

  /** The lines `f` gives each number, in the order given. */
  function LinesWith(f: int -> string, order: seq<int>): string
    decreases |order|
  {
    if |order| == 0 then "" else LinesWith(f, order[..|order| - 1]) + f(order[|order| - 1])
  }

  /** The lines of each number's set point, found in the text. */
  function PointsOf(e: Regex.Engine, text: string): int -> string {
    k => PointLines(PdfPointOf(e, text, k))
  }

  /** The set-point lines for the numbers in the order given. */
  function PointsText(e: Regex.Engine, text: string, order: seq<int>): string {
    LinesWith(PointsOf(e, text), order)
  }

  // ------------------------------------------------- the fallback

  const FallbackKeywords: seq<string> := ["part name", "part number", "id:", "free length", "coils", "colis",
                                          "wire dia", "wired", "od:", "set point", "set poni", "safety"]

  /** One of the keys occurs in `s`, trying them in list order as `any` does. */
  predicate AnyIn(s: string, keys: seq<string>)
    decreases |keys|
  {
    |keys| > 0 && (Contains(s, keys[0]) || AnyIn(s, keys[1..]))
  }

  lemma {:induction false} AnyInIff(s: string, keys: seq<string>)
    ensures AnyIn(s, keys) <==> exists i :: 0 <= i < |keys| && Contains(s, keys[i])
    decreases |keys|
  {
    if |keys| > 0 {
      AnyInIff(s, keys[1..]);
      if !Contains(s, keys[0]) {
        assert forall i :: 1 <= i < |keys| ==> keys[1..][i - 1] == keys[i];
      }
    }
  }

  /** A lowered line holds one of the keywords. */
  predicate HasKeyword(line: string) {
    AnyIn(Lower(line), FallbackKeywords)
  }

  /** The stripped lines of the raw text that pass the test, each with a newline. */
  function FallbackText(keep: string -> bool, lines: seq<string>): string
    decreases |lines|
  {
    if |lines| == 0 then ""
    else
      var l := Strip(lines[|lines| - 1]);
      FallbackText(keep, lines[..|lines| - 1]) + (if keep(l) then l + "\n" else "")
  }

  /** No line passing the test contributes nothing. */
  lemma {:induction false} FallbackTextEmpty(keep: string -> bool, lines: seq<string>)
    requires forall i :: 0 <= i < |lines| ==> !keep(Strip(lines[i]))
    ensures FallbackText(keep, lines) == ""
    decreases |lines|
  {
    if |lines| > 0 {
      FallbackTextEmpty(keep, lines[..|lines| - 1]);
    }
  }

  // ------------------------------------------------- the cleaner

  /** The cleaned text the patterns are searched in. */
  function CleanedText(e: Regex.Engine, text: string): string {
    Join("\n", CleanLines(e, Split(SubAll(e, text, PdfLineBreaks(PdfLineKeys)), "\n")))
  }

  /** The formatted fields and set points, before any fallback. */
  function Formatted(e: Regex.Engine, c: Conversions, text: string): string {
    var cleaned := CleanedText(e, text);
    FieldLines(PdfFields, Extracted(e, cleaned, PdfFields)) +
    PointsText(e, cleaned, Sorted(PdfIndices(c, e.findAll(PdfIndexPattern, cleaned))))
  }

  /**
   * `clean_pdf_text(text)`: the formatted fields and set points; when those
   * are blank, the raw lines holding a keyword; when those are blank too,
   * the text as it came.
   */
  function CleanPdfText(e: Regex.Engine, c: Conversions, text: string): (r: string)
    ensures Strip(Formatted(e, c, text)) != "" ==> r == Formatted(e, c, text)
    ensures Strip(Formatted(e, c, text)) == "" ==>
      r == text || r == Formatted(e, c, text) + FallbackText(HasKeyword, Split(text, "\n"))
    ensures r != text ==> Strip(r) != ""
  {
    var out := Formatted(e, c, text);
    if Strip(out) != "" then out
    else
      var out := out + FallbackText(HasKeyword, Split(text, "\n"));
      if Strip(out) == "" then text else out
  }

  /** The length, first character and last character of each field key. */
  const PdfKeySigs: seq<(int, char, char)> := [(9, 'p', 'e'), (11, 'p', 'r'), (7, 'p', 'd'), (11, 'f', 'h'), (10, 'c', 't'), (8, 'w', 'a'), (9, 'o', 'a'), (12, 's', 't'), (10, 'f', 't'), (9, 't', 'e'), (14, 'c', 'e'), (11, 'f', 'd'), (12, 's', 'd'), (12, 'o', 'r'), (23, 'p', 'r'), (16, 'p', 'e'), (20, 'm', 'n'), (17, 's', 't'), (18, 'e', 'g')]

  lemma PdfKeySigsDistinct()
    ensures forall i, j :: 0 <= i < j < |PdfKeySigs| ==> PdfKeySigs[i] != PdfKeySigs[j]
  {
  }

  lemma PdfKeySigsOfKeys()
    ensures |PdfKeySigs| == |PdfKeys|
    ensures forall i :: 0 <= i < |PdfKeys| ==>
      |PdfKeys[i]| == PdfKeySigs[i].0 && PdfKeys[i][0] == PdfKeySigs[i].1 && PdfKeys[i][|PdfKeys[i]| - 1] == PdfKeySigs[i].2
  {
  }

  /** The field keys are distinct: no two of them agree in length, first character and last character. */
  lemma PdfKeysDistinct()
    ensures forall i, j :: 0 <= i < j < |PdfKeys| ==> PdfKeys[i] != PdfKeys[j]
  {
    PdfKeySigsDistinct();
    PdfKeySigsOfKeys();
  }

  predicate DistinctPdfKeys(fs: seq<PdfField>) {
    forall i, j :: 0 <= i < j < |fs| ==> fs[i].key != fs[j].key
  }

  lemma PdfFieldKeysDistinct()
    ensures DistinctPdfKeys(PdfFields)
  {
    PdfKeysDistinct();
    assert forall i :: 0 <= i < |PdfFields| ==> PdfFields[i].key == PdfKeys[i];
  }

  /** Each field is extracted from its own patterns, whatever the other fields do. */
  lemma {:induction false} ExtractedLookup(e: Regex.Engine, text: string, fs: seq<PdfField>, i: nat)
    requires i < |fs| && DistinctPdfKeys(fs)
    ensures Get(Extracted(e, text, fs), fs[i].key) == PdfValue(e, text, fs[i])
    decreases |fs|
  {
    var front := fs[..|fs| - 1];
    var last := fs[|fs| - 1];
    var d := Extracted(e, text, front);
    var v := PdfValue(e, text, last);
    if i == |fs| - 1 {
      assert !HasKey(d, last.key);
      GetNone(d, last.key);
      if v.Some? {
        GetSnoc(d, last.key, v.value, last.key);
      }
    } else {
      assert front[i] == fs[i];
      ExtractedLookup(e, text, front, i);
      if v.Some? {
        GetSnoc(d, last.key, v.value, fs[i].key);
      }
    }
  }

  /** Text in which no pattern matches yields no field. */
  lemma {:induction false} ExtractedNothing(e: Regex.Engine, text: string, fs: seq<PdfField>)
    requires forall p :: e.search(p, text).None?
    ensures Extracted(e, text, fs) == []
    decreases |fs|
  {
    if |fs| > 0 {
      ExtractedNothing(e, text, fs[..|fs| - 1]);
      var last := fs[|fs| - 1];
      assert Regex.FirstSearch(e, IgnoringCase(last.patterns), text).None?;
    }
  }

  lemma {:induction false} FieldLinesOfNothing(fs: seq<PdfField>)
    ensures FieldLines(fs, []) == ""
    decreases |fs|
  {
    if |fs| > 0 {
      FieldLinesOfNothing(fs[..|fs| - 1]);
      GetNone<string>([], fs[|fs| - 1].key);
    }
  }

  lemma {:induction false} LinesWithAppend(f: int -> string, a: seq<int>, b: seq<int>)
    ensures LinesWith(f, a + b) == LinesWith(f, a) + LinesWith(f, b)
    decreases |b|
  {
    if |b| == 0 {
      assert a + b == a;
    } else {
      var front := b[..|b| - 1];
      assert (a + b)[..|a + b| - 1] == a + front;
      LinesWithAppend(f, a, front);
    }
  }

  /**
   * The block of the `k`-th number sits between the blocks of the numbers
   * before it and those after it; with `Sorted` as the order the numbers
   * are ascending, so the set points come out in ascending order, each
   * position line before its load line.
   */
  lemma PointsTextBlock(e: Regex.Engine, text: string, order: seq<int>, k: nat)
    requires k < |order|
    ensures PointsText(e, text, order) ==
      PointsText(e, text, order[..k]) + PointLines(PdfPointOf(e, text, order[k])) + PointsText(e, text, order[k + 1..])
  {
    var f := PointsOf(e, text);
    assert order == order[..k] + [order[k]] + order[k + 1..];
    LinesWithAppend(f, order[..k] + [order[k]], order[k + 1..]);
    LinesWithAppend(f, order[..k], [order[k]]);
    assert [order[k]][..0] == [];
  }

  /** When nothing is found and no raw line holds a keyword, the text comes back unchanged. */
  lemma CleanPdfNothingFound(e: Regex.Engine, c: Conversions, text: string)
    requires forall p :: e.search(p, CleanedText(e, text)).None?
    requires e.findAll(PdfIndexPattern, CleanedText(e, text)) == []
    requires forall line :: line in Split(text, "\n") ==> !HasKeyword(Strip(line))
    ensures CleanPdfText(e, c, text) == text
  {
    FormattedNothing(e, c, text);
    NoKeywordLines(Split(text, "\n"));
    CleanPdfBlank(e, c, text);
  }

  /** Lines none of which holds a keyword give no fallback text. */
  lemma NoKeywordLines(lines: seq<string>)
    requires forall line :: line in lines ==> !HasKeyword(Strip(line))
    ensures FallbackText(HasKeyword, lines) == ""
  {
    assert forall i :: 0 <= i < |lines| ==> lines[i] in lines;
    FallbackTextEmpty(HasKeyword, lines);
  }

  /** Blank formatted text and blank fallback text give back the raw text. */
  lemma CleanPdfBlank(e: Regex.Engine, c: Conversions, text: string)
    requires Formatted(e, c, text) == ""
    requires FallbackText(HasKeyword, Split(text, "\n")) == ""
    ensures CleanPdfText(e, c, text) == text
  {
    StripOfTrimmed("");
    assert Formatted(e, c, text) + FallbackText(HasKeyword, Split(text, "\n")) == "";
  }

  /** When no pattern finds anything, there are no field lines and no set-point block. */
  lemma FormattedNothing(e: Regex.Engine, c: Conversions, text: string)
    requires forall p :: e.search(p, CleanedText(e, text)).None?
    requires e.findAll(PdfIndexPattern, CleanedText(e, text)) == []
    ensures Formatted(e, c, text) == ""
  {
    var cleaned := CleanedText(e, text);
    ExtractedNothing(e, cleaned, PdfFields);
    FieldLinesOfNothing(PdfFields);
    assert PdfIndices(c, []) == [];
    assert PointsText(e, cleaned, []) == "";
  }

  lemma FallbackSnoc(keep: string -> bool, lines: seq<string>, k: nat)
    requires k < |lines|
    ensures var l := Strip(lines[k]);
      FallbackText(keep, lines[..k + 1]) == FallbackText(keep, lines[..k]) + (if keep(l) then l + "\n" else "")
  {
    PrefixStep(lines, k);
  }

  /** The fallback loop over the raw lines, for the keyword test given. */
  method FallbackLines(keep: string -> bool, lines: seq<string>) returns (out: string)
    ensures out == FallbackText(keep, lines)
  {
    out := "";
    var k := 0;
    while k < |lines|
      invariant 0 <= k <= |lines|
      invariant out == FallbackText(keep, lines[..k])
    {
      FallbackSnoc(keep, lines, k);
      var line := Strip(lines[k]);
      if keep(line) {
        out := out + (line + "\n");
      }
      k := k + 1;
    }
    assert lines[..k] == lines;
  }

  /** The loop that finds each set point's position and load, keyed by number. */
  method FindPdfPoints(e: Regex.Engine, text: string, indices: seq<int>) returns (points: map<int, PdfPoint>)
    ensures forall i :: i in indices ==> i in points && points[i] == PdfPointOf(e, text, i)
  {
    points := map[];
    var k := 0;
    while k < |indices|
      invariant 0 <= k <= |indices|
      invariant forall j :: 0 <= j < k ==> indices[j] in points && points[indices[j]] == PdfPointOf(e, text, indices[j])
    {
      var p := FindPdfPoint(e, text, indices[k]);
      points := points[indices[k] := p];
      k := k + 1;
    }
  }

  /** The set-point lines of the numbers in the order given, each looked up in the map. */
  function MapLines(points: map<int, PdfPoint>, order: seq<int>): string
    requires forall k :: 0 <= k < |order| ==> order[k] in points
    decreases |order|
  {
    if |order| == 0 then "" else MapLines(points, order[..|order| - 1]) + PointLines(points[order[|order| - 1]])
  }

  /** When the map holds for each number the lines `f` gives it, the looked-up lines are those of `f`. */
  lemma {:induction false} MapLinesAgree(points: map<int, PdfPoint>, order: seq<int>, f: int -> string)
    requires forall k :: 0 <= k < |order| ==> order[k] in points && PointLines(points[order[k]]) == f(order[k])
    ensures MapLines(points, order) == LinesWith(f, order)
    decreases |order|
  {
    if |order| > 0 {
      var front := order[..|order| - 1];
      assert forall k :: 0 <= k < |front| ==> front[k] == order[k];
      MapLinesAgree(points, front, f);
    }
  }

  /** The output loop over the numbers in the order given. */
  method EmitPoints(order: seq<int>, points: map<int, PdfPoint>) returns (out: string)
    requires forall k :: 0 <= k < |order| ==> order[k] in points
    ensures out == MapLines(points, order)
  {
    out := "";
    for k := 0 to |order|
      invariant out == MapLines(points, order[..k])
    {
      PrefixStep(order, k);
      out := out + PointLines(points[order[k]]);
    }
    assert order[..|order|] == order;
  }

  /** The line-break substitutions, the per-line cleaning and the join. */
  method CleanPdfLines(e: Regex.Engine, text: string) returns (cleaned: string)
    ensures cleaned == CleanedText(e, text)
  {
    var pre := SubstituteAll(e, text, PdfLineBreaks(PdfLineKeys));
    var lines := CleanEachLine(e, Split(pre, "\n"));
    cleaned := Join("\n", lines);
  }

  /** Every number of the sorted order is one of the numbers found. */
  lemma SortedMembers(indices: seq<int>)
    requires forall i, j :: 0 <= i < j < |indices| ==> indices[i] != indices[j]
    ensures forall k :: 0 <= k < |Sorted(indices)| ==> Sorted(indices)[k] in indices
  {
    var order := Sorted(indices);
    SortedSorts(indices);
    forall k | 0 <= k < |order| ensures order[k] in indices {
      assert order[k] in multiset(order);
    }
  }

  /** The set-point numbers found, their lines looked up, and the lines in ascending order. */
  method PdfPointLines(e: Regex.Engine, c: Conversions, cleaned: string) returns (pointLines: string)
    ensures pointLines == PointsText(e, cleaned, Sorted(PdfIndices(c, e.findAll(PdfIndexPattern, cleaned))))
  {
    var indices := CollectPdfIndices(c, e.findAll(PdfIndexPattern, cleaned));
    var points := FindPdfPoints(e, cleaned, indices);
    var order := Sorted(indices);
    SortedMembers(indices);
    pointLines := EmitPoints(order, points);
    ghost var f := PointsOf(e, cleaned);
    forall k | 0 <= k < |order| ensures PointLines(points[order[k]]) == f(order[k]) {
      assert order[k] in indices;
    }
    MapLinesAgree(points, order, f);
  }

  /** The formatted fields and set points, loop by loop. */
  method FormatPdf(e: Regex.Engine, c: Conversions, text: string) returns (out: string)
    ensures out == Formatted(e, c, text)
  {
    var cleaned := CleanPdfLines(e, text);
    var extracted := ExtractPdfFields(e, cleaned, PdfFields);
    var pointLines := PdfPointLines(e, c, cleaned);
    out := FieldLines(PdfFields, extracted) + pointLines;
  }

  /** The cleaner itself: the formatted text, else the fallback lines, else the text as it came. */
  method CleanPdf(e: Regex.Engine, c: Conversions, text: string) returns (r: string)
    ensures r == CleanPdfText(e, c, text)
  {
    var out := FormatPdf(e, c, text);
    if Strip(out) == "" {
      var extra := FallbackLines(HasKeyword, Split(text, "\n"));
      out := out + extra;
      if Strip(out) == "" {
        return text;
      }
    }
    r := out;
  }
}
