/**
 * The logic of the chat panel (`ui/chat_components/chat_panel.py`) that does
 * not draw anything: the readiness report on the current specification, the
 * detection of requests to open the specification form, the form commands
 * in the assistant's replies, the pasted-specification parser and the
 * progress and status values. Widgets, signals and timers are left out;
 * what the panel adds to the chat history is returned instead.
 */
module ChatPanel {
  import opened Wrappers
  import opened PyStr
  import opened Values
  import opened DataModels
  import Regex
  import SettingsService
  import SpecificationForm
  import SpecificationsPanel

  // ------------------------------------------------- progress and status

  /** `on_progress_updated`: the bar shows a progress strictly between 0 and 100, else 0. */
  function ProgressValue(progress: int): (v: int)
    ensures 0 <= v < 100
    ensures v == progress <==> 0 < progress < 100 || progress == 0
    ensures v != progress ==> v == 0
  {
    if 0 < progress < 100 then progress else 0
  }

  /** `on_status_updated`: every "Together.ai" in a status is shown as "FTS.ai". */
  function StatusText(status: string): (r: string)
    ensures !Contains(status, "Together.ai") ==> r == status
    ensures Contains(status, "Together.ai") ==> r == Replace(status, "Together.ai", "FTS.ai")
  {
    if status != "" && Contains(status, "Together.ai") then Replace(status, "Together.ai", "FTS.ai") else status
  }

  /** A status that begins with the provider's name shows the new name in its place. */
  lemma StatusRenamesProvider(rest: string)
    ensures StatusText("Together.ai" + rest) == "FTS.ai" + Replace(rest, "Together.ai", "FTS.ai")
  {
    var s := "Together.ai" + rest;
    assert s[..|"Together.ai"|] == "Together.ai";
    assert s[|"Together.ai"|..] == rest;
    assert At(s, "Together.ai", 0);
  }

  // ------------------------------------------------- readiness

  /** The opening words of the four reports, which tell them apart. */
  const NoSpecificationsHead := "NO SPECIFICATIONS SET"
  const NotEnabledHead := "SPECIFICATIONS NOT ENABLED"
  const IncompleteHead := "INCOMPLETE REQUIRED SPECIFICATIONS"
  const CompleteHead := "COMPLETE REQUIRED SPECIFICATIONS"

  const NoSpecificationsDetail := ": Please ask the user to provide spring specifications before generating a test sequence."
  const NotEnabledDetail := ": Specifications exist but are not enabled. Ask the user to enable them in the Specifications panel."
  const NoSpecificationsMessage := NoSpecificationsHead + NoSpecificationsDetail
  const NotEnabledMessage := NotEnabledHead + NotEnabledDetail

  /** A set point the sequence can use: enabled, with a positive position and load. */
  predicate ValidSetPoint(sp: SetPoint) {
    sp.enabled && sp.positionMm.value > 0.0 && sp.loadN.value > 0.0
  }

  /** `[sp for sp in set_points if ...]`: the usable set points, in order. */
  function ValidSetPoints(sps: seq<SetPoint>): (r: seq<SetPoint>)
    ensures |r| <= |sps|
    ensures forall sp :: sp in r <==> sp in sps && ValidSetPoint(sp)
    decreases |sps|
  {
    if |sps| == 0 then []
    else (if ValidSetPoint(sps[0]) then [sps[0]] else []) + ValidSetPoints(sps[1..])
  }

  /** The required items that are missing, in the order the report names them. */
  function MissingRequired(s: SpringSpecification): seq<string> {
    (if s.freeLengthMm.value <= 0.0 then ["Free Length"] else []) +
    (if |ValidSetPoints(s.setPoints)| == 0 then ["Set Points (position and load)"] else [])
  }

  /** The optional items that are missing, in the order the report names them. */
  function MissingOptional(s: SpringSpecification): seq<string> {
    (if s.wireDiaMm.value <= 0.0 then ["Wire Diameter"] else []) +
    (if s.outerDiaMm.value <= 0.0 then ["Outer Diameter"] else []) +
    (if s.coilCount.value <= 0.0 then ["Coil Count"] else [])
  }

  /** Ready to generate: enabled, a positive free length and at least one usable set point. */
  predicate Ready(s: SpringSpecification) {
    s.enabled && s.freeLengthMm.value > 0.0 && exists sp :: sp in s.setPoints && ValidSetPoint(sp)
  }

  function IncompleteMessage(missing: seq<string>): string {
    IncompleteHead + IncompleteDetail(missing)
  }

  function IncompleteDetail(missing: seq<string>): string {
    ": The following REQUIRED specifications are missing or invalid: " +
    Join(", ", missing) + ". Please ask the user to provide them before generating a test sequence."
  }

  function CompleteMessage(count: nat, optional: seq<string>): string {
    CompleteHead + CompleteDetail(count, optional)
  }

  function CompleteDetail(count: nat, optional: seq<string>): string {
    ": All necessary spring specifications are set and valid. The specification includes " +
    NatToStr(count) + " valid set points." +
    (if |optional| > 0 then " The following OPTIONAL specifications are missing but not required: " + Join(", ", optional) + "." else "")
  }

  /** `generate_specification_status(spring_spec)`; `None` is a missing specification. */
  function SpecificationStatus(spec: Option<SpringSpecification>): (r: string)
    ensures spec.None? ==> r == NoSpecificationsMessage
    ensures spec.Some? && !spec.value.enabled ==> r == NotEnabledMessage
    ensures spec.Some? && spec.value.enabled && !Ready(spec.value) ==> r == IncompleteMessage(MissingRequired(spec.value))
    ensures spec.Some? && Ready(spec.value) ==>
      r == CompleteMessage(|ValidSetPoints(spec.value.setPoints)|, MissingOptional(spec.value))
  {
    if spec.None? then NoSpecificationsMessage
    else
      var s := spec.value;
      if !s.enabled then NotEnabledMessage
      else
        MissingRequiredIsReady(s);
        var missing := MissingRequired(s);
        if |missing| > 0 then IncompleteMessage(missing)
        else CompleteMessage(|ValidSetPoints(s.setPoints)|, MissingOptional(s))
  }

  /** Nothing required is missing exactly when an enabled specification is ready. */
  lemma MissingRequiredIsReady(s: SpringSpecification)
    requires s.enabled
    ensures |MissingRequired(s)| == 0 <==> Ready(s)
  {
    if |ValidSetPoints(s.setPoints)| > 0 {
      assert ValidSetPoints(s.setPoints)[0] in ValidSetPoints(s.setPoints);
    }
  }

  lemma HeadFirst(head: string, tail: string)
    requires |head| > 0
    ensures (head + tail)[0] == head[0]
  {
  }

  /** The report starts with "COMPLETE" exactly when the specification is ready. */
  lemma StatusCompleteIffReady(spec: Option<SpringSpecification>)
    ensures SpecificationStatus(spec)[0] == 'C' <==> spec.Some? && Ready(spec.value)
  {
    if spec.None? {
      HeadFirst(NoSpecificationsHead, NoSpecificationsDetail);
    } else if !spec.value.enabled {
      HeadFirst(NotEnabledHead, NotEnabledDetail);
    } else if !Ready(spec.value) {
      HeadFirst(IncompleteHead, IncompleteDetail(MissingRequired(spec.value)));
    } else {
      HeadFirst(CompleteHead, CompleteDetail(|ValidSetPoints(spec.value.setPoints)|, MissingOptional(spec.value)));
    }
  }

  /** An incomplete report names each missing required item. */
  lemma MissingRequiredItems(s: SpringSpecification)
    ensures "Free Length" in MissingRequired(s) <==> s.freeLengthMm.value <= 0.0
    ensures "Set Points (position and load)" in MissingRequired(s) <==>
      forall sp :: sp in s.setPoints ==> !ValidSetPoint(sp)
  {
    if |ValidSetPoints(s.setPoints)| > 0 {
      assert ValidSetPoints(s.setPoints)[0] in ValidSetPoints(s.setPoints);
    }
    assert "Free Length" != "Set Points (position and load)";
  }

  // ------------------------------------------------- form requests

  /** The phrases that count as an explicit request to set up specifications. */
  const ExplicitPhrases: seq<string> := [
    "create specification", "setup specification", "setup spring specification",
    "open specification form", "create spec form", "open spec form",
    "set up specifications", "enter specifications", "input specifications",
    "create spring spec", "i want to set up specifications", "help me setup specifications"]

  /** `_is_spec_update_request`: the loop over the phrases, returning at the first one found. */
  method IsSpecUpdateRequest(userInput: string) returns (r: bool)
    ensures r <==> exists i :: 0 <= i < |ExplicitPhrases| && Contains(Lower(userInput), ExplicitPhrases[i])
  {
    var lower := Lower(userInput);
    var k := 0;
    while k < |ExplicitPhrases|
      invariant 0 <= k <= |ExplicitPhrases|
      invariant forall i :: 0 <= i < k ==> !Contains(lower, ExplicitPhrases[i])
    {
      if Contains(lower, ExplicitPhrases[k]) {
        return true;
      }
      k := k + 1;
    }
    r := false;
  }

  // ------------------------------------------------- form commands

  /** A command text: never empty, so that removing it is well defined. */
  type Command = c: string | |c| > 0 witness "x"

  function Cmd(c: string): Command
    requires |c| > 0
  {
    c
  }

  /** The commands still removed while a cancellation is recent. */
  const CancelledCommands: seq<Command> := [
    Cmd("[[OPEN_SPEC_FORM]]"), Cmd("[[OPEN SPEC FORM]]"), Cmd("<<OPEN_SPEC_FORM>>"), Cmd("<<OPEN SPEC FORM>>"),
    Cmd("&lt;&lt;OPEN_SPEC_FORM&gt;&gt;"), Cmd("&lt;&lt;OPEN SPEC FORM&gt;&gt;")]

  const FormCommands: seq<Command> := [
    Cmd("[[OPEN_SPEC_FORM]]"), Cmd("[[OPEN SPEC FORM]]"), Cmd("[[OPEN_SPECIFICATION_FORM]]"),
    Cmd("[[OPEN SPECIFICATION FORM]]"), Cmd("[[OPEN-SPEC-FORM]]"), Cmd("<<OPEN_SPEC_FORM>>"), Cmd("<<OPEN SPEC FORM>>")]

  /** The forms the commands take once the formatter has escaped them. */
  const HtmlEscapedCommands: seq<Command> := [
    Cmd("&lt;&lt;OPEN_SPEC_FORM&gt;&gt;"), Cmd("&lt;&lt;OPEN SPEC FORM&gt;&gt;"),
    Cmd("&lt;&lt;OPEN_SPECIFICATION_FORM&gt;&gt;"), Cmd("&lt;&lt;OPEN SPECIFICATION FORM&gt;&gt;"),
    Cmd("&lt;&lt;OPEN-SPEC-FORM&gt;&gt;")]

  /** Each command in turn replaced by nothing. */
  function RemoveAll(message: string, cmds: seq<Command>): string
    decreases |cmds|
  {
    if |cmds| == 0 then message else RemoveAll(Replace(message, cmds[0], ""), cmds[1..])
  }

  /** A message holding none of the commands is left as it is. */
  lemma {:induction false} RemoveAllAbsent(message: string, cmds: seq<Command>)
    requires forall i :: 0 <= i < |cmds| ==> !Contains(message, cmds[i])
    ensures RemoveAll(message, cmds) == message
    decreases |cmds|
  {
    if |cmds| > 0 {
      ReplaceAbsent(message, cmds[0], "");
      RemoveAllAbsent(message, cmds[1..]);
    }
  }

  predicate Mentions(message: string, cmds: seq<Command>) {
    exists i :: 0 <= i < |cmds| && Contains(message, cmds[i])
  }

  /** Removing the commands never lengthens a message, and shortens it when one occurs. */
  lemma {:induction false} RemoveAllShortens(message: string, cmds: seq<Command>)
    ensures |RemoveAll(message, cmds)| <= |message|
    ensures Mentions(message, cmds) ==> |RemoveAll(message, cmds)| < |message|
    decreases |cmds|
  {
    if |cmds| > 0 {
      var m := Replace(message, cmds[0], "");
      DeleteShortens(message, cmds[0]);
      RemoveAllShortens(m, cmds[1..]);
      if Mentions(message, cmds) && !Contains(message, cmds[0]) {
        ReplaceAbsent(message, cmds[0], "");
        var i :| 0 <= i < |cmds| && Contains(message, cmds[i]);
        assert cmds[1..][i - 1] == cmds[i];
        assert Mentions(m, cmds[1..]);
      }
    }
  }

  /** Removing the commands changes a message exactly when one of them occurs in it. */
  lemma RemovalIffCommand(message: string, cmds: seq<Command>)
    ensures RemoveAll(message, cmds) != message <==> Mentions(message, cmds)
  {
    if Mentions(message, cmds) {
      RemoveAllShortens(message, cmds);
    } else {
      RemoveAllAbsent(message, cmds);
    }
  }

  /**
   * `_check_and_handle_special_commands(message)`: whether a command was
   * handled, and the text then added to the chat history as the
   * assistant's message. While a cancellation is recent the commands are
   * only removed; otherwise every variant is removed and the form opens.
   */
  function SpecialCommand(message: string, recentlyCancelled: bool): (r: (bool, Option<string>))
    ensures r.0 <==> r.1.Some?
    ensures !recentlyCancelled ==> (r.0 <==> Mentions(message, FormCommands) || Mentions(message, HtmlEscapedCommands))
    ensures recentlyCancelled ==> (r.0 <==> Mentions(message, CancelledCommands))
  {
    if recentlyCancelled then
      var clean := RemoveAll(message, CancelledCommands);
      RemovalIffCommand(message, CancelledCommands);
      if clean != message then
        (true, Some(Strip(clean)))
      else (false, None)
    else if Mentions(message, FormCommands) || Mentions(message, HtmlEscapedCommands) then
      (true, Some(Strip(RemoveAll(message, FormCommands + HtmlEscapedCommands))))
    else (false, None)
  }

  /** Every variant removed, one after the other, as the source's `for` loops do. */
  method RemoveCommands(message: string, cmds: seq<Command>) returns (clean: string)
    ensures clean == RemoveAll(message, cmds)
  {
    clean := message;
    var k := 0;
    while k < |cmds|
      invariant 0 <= k <= |cmds|
      invariant RemoveAll(message, cmds) == RemoveAll(clean, cmds[k..])
    {
      assert cmds[k..][1..] == cmds[k + 1..];
      clean := Replace(clean, cmds[k], "");
      k := k + 1;
    }
  }

  /** The search for the first command present, as the detection loops run it. */
  method Detect(message: string, cmds: seq<Command>) returns (found: bool)
    ensures found <==> Mentions(message, cmds)
  {
    var k := 0;
    while k < |cmds|
      invariant 0 <= k <= |cmds|
      invariant forall i :: 0 <= i < k ==> !Contains(message, cmds[i])
    {
      if Contains(message, cmds[k]) {
        return true;
      }
      k := k + 1;
    }
    found := false;
  }

  /** The handler itself; `stored` is the message it adds to the chat, if any. */
  method CheckSpecialCommands(message: string, recentlyCancelled: bool) returns (handled: bool, stored: Option<string>)
    ensures (handled, stored) == SpecialCommand(message, recentlyCancelled)
  {
    if recentlyCancelled {
      var clean := RemoveCommands(message, CancelledCommands);
      if clean != message {
        return true, Some(Strip(clean));
      }
      return false, None;
    }
    var detected := Detect(message, FormCommands);
    if !detected {
      detected := Detect(message, HtmlEscapedCommands);
    }
    if detected {
      var clean := RemoveCommands(message, FormCommands + HtmlEscapedCommands);
      return true, Some(Strip(clean));
    }
    handled, stored := false, None;
  }

  // ------------------------------------------------- pasted specifications

  /** The phrases, in lower case, that mark a message as a pasted specification. */
  const TriggerPhrases: seq<string> := ["part name:", "free length:", "wire dia:", "od:", "set point", "safety limit:"]

  predicate Triggered(text: string) {
    exists i | 0 <= i < |TriggerPhrases| :: Contains(Lower(text), TriggerPhrases[i])
  }

  /** A parsed basic field: free text, or a number. */
  datatype FieldValue = TextValue(t: string) | NumberValue(n: Float)

  /** A basic field's key, its pattern (searched ignoring case), and whether it holds a number. */
  datatype BasicPattern = BasicPattern(key: string, source: string, numeric: bool)

  const BasicPatterns: seq<BasicPattern> := [
    BasicPattern("part_name", @"Part Name:\s*(.+?)(?:\n|$)", false),
    BasicPattern("part_number", @"Part Number:\s*(.+?)(?:\n|$)", false),
    BasicPattern("part_id", @"ID:\s*([^\n]+)(?:\n|$)", false),
    BasicPattern("free_length", @"Free Length:\s*([\d.]+)(?:\s*mm)?(?:\n|$)", true),
    BasicPattern("coil_count", @"No of Coils:\s*([\d.]+)(?:\n|$)", true),
    BasicPattern("wire_dia", @"(?:Wire|Wired) Dia(?:meter)?:\s*([\d.]+)(?:\s*mm)?(?:\n|$)", true),
    BasicPattern("outer_dia", @"OD:\s*([\d.]+)(?:\s*mm)?(?:\n|$)", true),
    BasicPattern("safety_limit", @"[Ss]afety limit:\s*([\d.]+)(?:\s*N)?(?:\n|$)", true)]

  /**
   * What one pattern contributes: nothing when it does not match or when
   * `float()` (`toFloat`, `None` where it raises) rejects a number.
   */
  function FieldOf(e: Regex.Engine, toFloat: string -> Option<Float>, text: string, p: BasicPattern): Option<FieldValue> {
    match e.search(Regex.Pattern(p.source, true), text)
    case None => None
    case Some(m) =>
      var value := Strip(Regex.Text(m, 1));
      if !p.numeric then Some(TextValue(value))
      else match toFloat(value)
        case None => None
        case Some(f) => Some(NumberValue(f))
  }

  /** The `basic_info` dictionary: one entry per pattern that yields a field, in pattern order. */
  function BasicFields(e: Regex.Engine, toFloat: string -> Option<Float>, text: string, ps: seq<BasicPattern>): (d: Dict<FieldValue>)
    ensures |d| <= |ps|
    ensures forall j :: 0 <= j < |d| ==> exists i :: 0 <= i < |ps| && d[j].0 == ps[i].key
    decreases |ps|
  {
    if |ps| == 0 then []
    else
      var front := BasicFields(e, toFloat, text, ps[..|ps| - 1]);
      var last := ps[|ps| - 1];
      match FieldOf(e, toFloat, text, last)
      case None => front
      case Some(v) => front + [(last.key, v)]
  }

  predicate DistinctPatternKeys(ps: seq<BasicPattern>) {
    forall i, j :: 0 <= i < j < |ps| ==> ps[i].key != ps[j].key
  }

  /** Each field is found, or skipped on its own: a failed pattern or conversion affects no other field. */
  lemma {:induction false} BasicFieldsLookup(e: Regex.Engine, toFloat: string -> Option<Float>, text: string,
                                             ps: seq<BasicPattern>, i: nat)
    requires i < |ps| && DistinctPatternKeys(ps)
    ensures Get(BasicFields(e, toFloat, text, ps), ps[i].key) == FieldOf(e, toFloat, text, ps[i])
    decreases |ps|
  {
    var front := ps[..|ps| - 1];
    var last := ps[|ps| - 1];
    var d := BasicFields(e, toFloat, text, front);
    var v := FieldOf(e, toFloat, text, last);
    if i == |ps| - 1 {
      assert !HasKey(d, last.key);
      GetNone(d, last.key);
      if v.Some? {
        GetSnoc(d, last.key, v.value, last.key);
      }
    } else {
      assert front[i] == ps[i];
      BasicFieldsLookup(e, toFloat, text, front, i);
      if v.Some? {
        GetSnoc(d, last.key, v.value, ps[i].key);
      }
    }
  }

  /** The loop over the patterns that fills `basic_info`. */
  method ExtractBasicFields(e: Regex.Engine, toFloat: string -> Option<Float>, text: string, ps: seq<BasicPattern>)
    returns (d: Dict<FieldValue>)
    ensures d == BasicFields(e, toFloat, text, ps)
  {
    d := [];
    var k := 0;
    while k < |ps|
      invariant 0 <= k <= |ps|
      invariant d == BasicFields(e, toFloat, text, ps[..k])
    {
      PrefixStep(ps, k);
      var m := e.search(Regex.Pattern(ps[k].source, true), text);
      if m.Some? {
        var value := Strip(Regex.Text(m.value, 1));
        if !ps[k].numeric {
          d := d + [(ps[k].key, TextValue(value))];
        } else {
          var f := toFloat(value);
          if f.Some? {
            d := d + [(ps[k].key, NumberValue(f.value))];
          }
        }
      }
      k := k + 1;
    }
    assert ps[..k] == ps;
  }

  /** The 8 keys are distinct, so every field can be found under its own key. */
  lemma BasicPatternKeysDistinct()
    ensures DistinctPatternKeys(BasicPatterns)
  {
  }

  // ------------------------------------------------- pasted set points

  const IndexPattern := Regex.Pattern(@"Set Po(?:i|n)(?:i|t)-(\d+)", true)

  /** `int(match.group(1))`, `None` where it raises. */
  function LabelOf(m: Regex.Match): Option<nat> {
    var g := Regex.Text(m, 1);
    if |g| > 0 && IsDigits(g) then Some(DigitsValue(g)) else None
  }

  /** The set-point numbers mentioned, each once, in order of first mention. */
  function Labels(ms: seq<Regex.Match>): (ls: seq<nat>)
    ensures forall i, j :: 0 <= i < j < |ls| ==> ls[i] != ls[j]
    ensures forall l :: l in ls <==> exists k :: 0 <= k < |ms| && LabelOf(ms[k]) == Some(l)
    decreases |ms|
  {
    if |ms| == 0 then []
    else
      var front := Labels(ms[..|ms| - 1]);
      assert forall k :: 0 <= k < |ms| - 1 ==> ms[..|ms| - 1][k] == ms[k];
      match LabelOf(ms[|ms| - 1])
      case None => front
      case Some(l) => if l in front then front else front + [l]
  }

  /** The loop over the matches that collects the set-point numbers. */
  method CollectLabels(ms: seq<Regex.Match>) returns (ls: seq<nat>)
    ensures ls == Labels(ms)
  {
    ls := [];
    var k := 0;
    while k < |ms|
      invariant 0 <= k <= |ms|
      invariant ls == Labels(ms[..k])
    {
      PrefixStep(ms, k);
      var l := LabelOf(ms[k]);
      if l.Some? && l.value !in ls {
        ls := ls + [l.value];
      }
      k := k + 1;
    }
    assert ms[..k] == ms;
  }

  function PositionPattern(number: nat): Regex.Pattern {
    Regex.Pattern(@"Set Po(?:i|n)(?:i|t)-" + NatToStr(number) + @"(?:\s+in mm)?:\s*([\d.]+)(?:\s*mm)?(?:\n|$)", true)
  }

  function LoadPattern(number: nat): Regex.Pattern {
    Regex.Pattern(@"Set Po(?:i|n)(?:i|t)-" + NatToStr(number) + @" Load In N:\s*([\d.]+)(?:±([\d.]+)%)?(?:\s*N)?(?:\n|$)", true)
  }

  /** A parsed set point; `index` is the number minus one. */
  datatype ParsedPoint = ParsedPoint(index: int, position: Float, load: Float, tolerance: Float)

  const DefaultTolerance := F(10.0, "10.0")

  /**
   * The set point numbered `number`: it needs both a position and a load;
   * a failed conversion of any of its numbers drops the whole point, and a
   * load without a tolerance gets 10 %.
   */
  function PointOf(e: Regex.Engine, toFloat: string -> Option<Float>, text: string, number: nat): (r: Option<ParsedPoint>)
    ensures r.Some? ==> r.value.index == number - 1
    ensures r.Some? ==> e.search(PositionPattern(number), text).Some? && e.search(LoadPattern(number), text).Some?
  {
    match e.search(PositionPattern(number), text)
    case None => None
    case Some(pm) =>
      match toFloat(Strip(Regex.Text(pm, 1)))
      case None => None
      case Some(position) =>
        match e.search(LoadPattern(number), text)
        case None => None
        case Some(lm) =>
          match toFloat(Strip(Regex.Text(lm, 1)))
          case None => None
          case Some(load) =>
            var tol := Regex.Group(lm, 2);
            if tol.Some? && tol.value != "" then
              match toFloat(Strip(tol.value))
              case None => None
              case Some(tolerance) => Some(ParsedPoint(number - 1, position, load, tolerance))
            else Some(ParsedPoint(number - 1, position, load, DefaultTolerance))
  }

  /** The points kept, in the order of their numbers' first mention. */
  function ParsedPoints(e: Regex.Engine, toFloat: string -> Option<Float>, text: string, numbers: seq<nat>): (ps: seq<ParsedPoint>)
    ensures |ps| <= |numbers|
    ensures forall p :: p in ps ==> exists l :: l in numbers && PointOf(e, toFloat, text, l) == Some(p)
    decreases |numbers|
  {
    if |numbers| == 0 then []
    else
      var front := ParsedPoints(e, toFloat, text, numbers[..|numbers| - 1]);
      var q := PointOf(e, toFloat, text, numbers[|numbers| - 1]);
      KeptFromNumbers(e, toFloat, text, numbers, front, q);
      if q.Some? then front + [q.value] else front
  }

  /** A point kept from the numbers before the last, or from the last, comes from one of the numbers. */
  lemma KeptFromNumbers(e: Regex.Engine, toFloat: string -> Option<Float>, text: string, numbers: seq<nat>,
                        front: seq<ParsedPoint>, q: Option<ParsedPoint>)
    requires |numbers| > 0
    requires forall p :: p in front ==> exists l :: l in numbers[..|numbers| - 1] && PointOf(e, toFloat, text, l) == Some(p)
    requires q == PointOf(e, toFloat, text, numbers[|numbers| - 1])
    ensures forall p :: p in (if q.Some? then front + [q.value] else front) ==>
      exists l :: l in numbers && PointOf(e, toFloat, text, l) == Some(p)
  {
    assert forall l :: l in numbers[..|numbers| - 1] ==> l in numbers;
    assert numbers[|numbers| - 1] in numbers;
  }

  /** The loop over the numbers that builds the set points. */
  method CollectPoints(e: Regex.Engine, toFloat: string -> Option<Float>, text: string, numbers: seq<nat>)
    returns (ps: seq<ParsedPoint>)
    ensures ps == ParsedPoints(e, toFloat, text, numbers)
  {
    ps := [];
    var k := 0;
    while k < |numbers|
      invariant 0 <= k <= |numbers|
      invariant ps == ParsedPoints(e, toFloat, text, numbers[..k])
    {
      PrefixStep(numbers, k);
      var p := PointOf(e, toFloat, text, numbers[k]);
      if p.Some? {
        ps := ps + [p.value];
      }
      k := k + 1;
    }
    assert numbers[..k] == numbers;
  }

  /**
   * `update_set_point(index, ...)` on a list: only an index inside it is
   * written, and the tolerance stays the stored one.
   */
  function WritePoint(sps: seq<SetPoint>, p: ParsedPoint): (r: seq<SetPoint>)
    ensures |r| == |sps|
  {
    if 0 <= p.index < |sps| then
      sps[p.index := SettingsService.UpdatedSetPointAsWritten(sps[p.index], p.position, p.load, p.tolerance, true)]
    else sps
  }

  /** One parsed point: an index below the length updates, any other first appends a new point. */
  function ApplyPoint(sps: seq<SetPoint>, p: ParsedPoint): seq<SetPoint> {
    if p.index < |sps| then WritePoint(sps, p) else WritePoint(sps + [SettingsService.NewSetPointValue], p)
  }

  function ApplyPoints(sps: seq<SetPoint>, ps: seq<ParsedPoint>): seq<SetPoint>
    decreases |ps|
  {
    if |ps| == 0 then sps else ApplyPoint(ApplyPoints(sps, ps[..|ps| - 1]), ps[|ps| - 1])
  }

  /** One more parsed point is one more `ApplyPoint`. */
  lemma ApplyPointsStep(sps: seq<SetPoint>, ps: seq<ParsedPoint>, k: nat)
    requires k < |ps|
    ensures ApplyPoints(sps, ps[..k + 1]) == ApplyPoint(ApplyPoints(sps, ps[..k]), ps[k])
  {
    PrefixStep(ps, k);
  }

  /**
   * A point numbered inside the list, or just past its end, stores its
   * position and load and is enabled; its tolerance stays that of the point
   * it overwrote (the new point's default when appended), not the parsed
   * one. The list grows only in the second case; no other set point changes.
   */
  lemma ApplyPointStores(sps: seq<SetPoint>, p: ParsedPoint)
    requires 0 <= p.index <= |sps|
    ensures |ApplyPoint(sps, p)| == if p.index == |sps| then |sps| + 1 else |sps|
    ensures var sp := ApplyPoint(sps, p)[p.index];
      sp.positionMm == p.position && sp.loadN == p.load && sp.enabled &&
      sp.tolerancePercent == (if p.index < |sps| then sps[p.index] else SettingsService.NewSetPointValue).tolerancePercent
    ensures forall j :: 0 <= j < |sps| && j != p.index ==> ApplyPoint(sps, p)[j] == sps[j]
  {
  }

  /** A point numbered 0, or further than one past the end, leaves a default point or nothing. */
  lemma ApplyPointBeyond(sps: seq<SetPoint>, p: ParsedPoint)
    requires p.index < 0 || p.index > |sps|
    ensures ApplyPoint(sps, p) == if p.index < 0 then sps else sps + [SettingsService.NewSetPointValue]
  {
  }

  /** The basic-info arguments: each found field, else the current value; unit "mm" and enabled. */
  function BasicUpdate(d: Dict<FieldValue>, s: SpringSpecification): SettingsService.BasicInfo {
    SettingsService.NoBasicInfo.(
      partName := Some(TextOr(d, "part_name", s.partName)),
      partNumber := Some(TextOr(d, "part_number", s.partNumber)),
      partId := Some(match Get<FieldValue>(d, "part_id") case Some(TextValue(t)) => IdText(t) case _ => s.partId),
      freeLength := Some(NumberOr(d, "free_length", s.freeLengthMm)),
      coilCount := Some(NumberOr(d, "coil_count", s.coilCount)),
      wireDia := Some(NumberOr(d, "wire_dia", s.wireDiaMm)),
      outerDia := Some(NumberOr(d, "outer_dia", s.outerDiaMm)),
      safetyLimit := Some(NumberOr(d, "safety_limit", s.safetyLimitN)),
      unit := Some("mm"),
      enabled := Some(true))
  }

  function TextOr(d: Dict<FieldValue>, k: string, default: string): string {
    match Get<FieldValue>(d, k) case Some(TextValue(t)) => t case _ => default
  }

  function NumberOr(d: Dict<FieldValue>, k: string, default: Float): Float {
    match Get<FieldValue>(d, k) case Some(NumberValue(f)) => f case _ => default
  }

  /** The specification after the basic-info update: untouched when no field was found. */
  function AfterBasic(s: SpringSpecification, d: Dict<FieldValue>): SpringSpecification {
    if |d| == 0 then s else SettingsService.ApplyBasicInfo(s, BasicUpdate(d, s))
  }

  /** A field not found keeps its value; the unit becomes "mm" and the specification is enabled. */
  lemma AfterBasicFields(s: SpringSpecification, d: Dict<FieldValue>)
    requires |d| > 0
    ensures var r := AfterBasic(s, d);
      r.unit == "mm" && r.enabled && r.setPoints == s.setPoints &&
      (Get(d, "free_length").None? ==> r.freeLengthMm == s.freeLengthMm) &&
      (Get(d, "part_name").None? ==> r.partName == s.partName) &&
      (forall f :: Get(d, "free_length") == Some(NumberValue(f)) ==> r.freeLengthMm == f) &&
      (forall t :: Get(d, "part_name") == Some(TextValue(t)) ==> r.partName == t) &&
      r.testMode == s.testMode && r.forceUnit == s.forceUnit
  {
  }

  /** One parsed point, through the service's own update and add operations. */
  method ApplyParsedPoint(svc: SettingsService.SettingsService, p: ParsedPoint)
    modifies svc
    ensures svc.Spec() == old(svc.Spec()).(setPoints := ApplyPoint(old(svc.Spec()).setPoints, p))
    ensures p.index >= 0 ==> svc.settings == SettingsService.WithSpec(old(svc.settings), svc.Spec())
    ensures p.index < 0 ==> svc.settings == old(svc.settings)
  {
    var spec := svc.Spec();
    if p.index < |spec.setPoints| {
      var _ := svc.UpdateSetPoint(p.index, Some(p.position), Some(p.load), Some(p.tolerance), true, true, false);
    } else {
      ghost var before := svc.settings;
      var added := svc.AddSetPoint(true);
      var _ := svc.UpdateSetPoint(p.index, Some(p.position), Some(p.load), Some(p.tolerance), true, true, false);
      if p.index < |added.setPoints| {
        SettingsService.WithSpecTwice(before, added, svc.Spec());
      }
    }
  }

  /** Some parsed point has an index of 0 or more, so its update writes the specification. */
  predicate Stores(ps: seq<ParsedPoint>) {
    exists j :: 0 <= j < |ps| && ps[j].index >= 0
  }

  lemma StoresStep(ps: seq<ParsedPoint>, k: nat)
    requires k < |ps|
    ensures Stores(ps[..k + 1]) <==> Stores(ps[..k]) || ps[k].index >= 0
  {
    PrefixStep(ps, k);
    if Stores(ps[..k + 1]) && ps[k].index < 0 {
      var j :| 0 <= j < k + 1 && ps[..k + 1][j].index >= 0;
      assert ps[..k][j] == ps[j];
    }
    if Stores(ps[..k]) {
      var j :| 0 <= j < k && ps[..k][j].index >= 0;
      assert ps[..k + 1][j] == ps[j];
    }
  }

  /** Every parsed point in turn. */
  method ApplyParsedPoints(svc: SettingsService.SettingsService, ps: seq<ParsedPoint>)
    modifies svc
    ensures svc.Spec() == old(svc.Spec()).(setPoints := ApplyPoints(old(svc.Spec()).setPoints, ps))
    ensures Stores(ps) ==> svc.settings == SettingsService.WithSpec(old(svc.settings), svc.Spec())
    ensures !Stores(ps) ==> svc.settings == old(svc.settings)
  {
    ghost var s0, t0 := svc.Spec(), svc.settings;
    var k := 0;
    while k < |ps|
      invariant 0 <= k <= |ps|
      invariant Applied(t0, s0, ps[..k], svc.settings)
    {
      ghost var before := svc.settings;
      ApplyParsedPoint(svc, ps[k]);
      AppliedStep(t0, s0, ps, k, before, svc.settings);
      k := k + 1;
    }
    WholePrefix(ps);
  }

  /**
   * The settings `now` are those the updates of `ps` leave from `t0`, whose
   * specification is `s0`: the points applied in turn, and the settings
   * written only when some point writes.
   */
  predicate Applied(t0: Dict<Value>, s0: SpringSpecification, ps: seq<ParsedPoint>, now: Dict<Value>) {
    var s := SettingsService.StoredSpec(now);
    s == s0.(setPoints := ApplyPoints(s0.setPoints, ps)) && now == Written(t0, ps, s)
  }

  lemma AppliedStep(t0: Dict<Value>, s0: SpringSpecification, ps: seq<ParsedPoint>, k: nat,
                    before: Dict<Value>, after: Dict<Value>)
    requires k < |ps| && Applied(t0, s0, ps[..k], before)
    requires var sb := SettingsService.StoredSpec(before);
      SettingsService.StoredSpec(after) == sb.(setPoints := ApplyPoint(sb.setPoints, ps[k]))
    requires ps[k].index >= 0 ==> after == SettingsService.WithSpec(before, SettingsService.StoredSpec(after))
    requires ps[k].index < 0 ==> after == before
    ensures Applied(t0, s0, ps[..k + 1], after)
  {
    ApplyPointsStep(s0.setPoints, ps, k);
    WrittenStep(t0, ps, k, before, after);
  }

  /** The settings after the updates of `ps`, from `t0`, when they leave specification `s`. */
  function Written(t0: Dict<Value>, ps: seq<ParsedPoint>, s: SpringSpecification): Dict<Value> {
    if Stores(ps) then SettingsService.WithSpec(t0, s) else t0
  }

  /** One more parsed point: its update, if it writes, replaces what the earlier ones wrote. */
  lemma WrittenStep(t0: Dict<Value>, ps: seq<ParsedPoint>, k: nat, before: Dict<Value>, after: Dict<Value>)
    requires k < |ps|
    requires before == Written(t0, ps[..k], SettingsService.StoredSpec(before))
    requires ps[k].index >= 0 ==> after == SettingsService.WithSpec(before, SettingsService.StoredSpec(after))
    requires ps[k].index < 0 ==> after == before
    ensures after == Written(t0, ps[..k + 1], SettingsService.StoredSpec(after))
  {
    StoresStep(ps, k);
    if Stores(ps[..k]) && ps[k].index >= 0 {
      SettingsService.WithSpecTwice(t0, SettingsService.StoredSpec(before), SettingsService.StoredSpec(after));
    }
  }

  /**
   * `parse_spring_specs(text)`: a message with none of the trigger phrases,
   * or from which nothing could be parsed, changes nothing and returns
   * false; otherwise the found basic fields and then the set points are
   * written through the settings service, and the result is true.
   */
  method ParseSpringSpecs(svc: SettingsService.SettingsService, e: Regex.Engine, toFloat: string -> Option<Float>, text: string)
    returns (found: bool)
    modifies svc
    ensures !Triggered(text) ==> !found && svc.settings == old(svc.settings)
    ensures var basic := BasicFields(e, toFloat, text, BasicPatterns);
      var points := ParsedPoints(e, toFloat, text, Labels(e.findAll(IndexPattern, text)));
      Triggered(text) ==>
        (found <==> |basic| > 0 || |points| > 0) &&
        (!found ==> svc.settings == old(svc.settings)) &&
        (found ==> var s := AfterBasic(old(svc.Spec()), basic);
                   svc.Spec() == s.(setPoints := ApplyPoints(s.setPoints, points))) &&
        (|basic| > 0 || Stores(points) ==> svc.settings == SettingsService.WithSpec(old(svc.settings), svc.Spec())) &&
        (!(|basic| > 0 || Stores(points)) ==> svc.settings == old(svc.settings))
  {
    if !Triggered(text) {
      return false;
    }
    var basic := ExtractBasicFields(e, toFloat, text, BasicPatterns);
    var numbers := CollectLabels(e.findAll(IndexPattern, text));
    var points := CollectPoints(e, toFloat, text, numbers);
    if |basic| == 0 && |points| == 0 {
      return false;
    }
    ghost var t0 := svc.settings;
    if |basic| > 0 {
      var spec := svc.Spec();
      var _ := svc.UpdateBasicInfo(BasicUpdate(basic, spec), true);
    }
    ghost var sb := svc.Spec();
    ApplyParsedPoints(svc, points);
    if |basic| > 0 && Stores(points) {
      SettingsService.WithSpecTwice(t0, sb, svc.Spec());
    }
    found := |basic| > 0 || |points| > 0;
  }

  // ------------------------------------------------- the form's data

  /**
   * The arguments `_process_form_data` passes to `update_spring_basic_info`:
   * every field from the form's sections, the default where a section was
   * not filled in, the part id converted as the specifications panel does,
   * the safety limit given separately, and enabled.
   */
  function FormBasicUpdateWith(d: SpecificationForm.FormData, safety: Float): SettingsService.BasicInfo {
    var b := d.basicInfo;
    var o := d.optionalInfo;
    SettingsService.BasicInfo(
      partName := Some(if b.Some? then b.value.partName else ""),
      partNumber := Some(if b.Some? then b.value.partNumber else ""),
      partId := Some(SpecificationsPanel.PartIdFromText(if b.Some? then b.value.partId else "0")),
      freeLength := Some(if b.Some? then b.value.freeLength else Zero),
      coilCount := Some(if o.Some? then o.value.coilCount else Zero),
      wireDia := Some(if o.Some? then o.value.wireDia else Zero),
      outerDia := Some(if o.Some? then o.value.outerDia else Zero),
      safetyLimit := Some(safety),
      unit := Some(if b.Some? then b.value.unit else "mm"),
      enabled := Some(true),
      forceUnit := Some(if b.Some? then b.value.forceUnit else "N"),
      testMode := Some(if b.Some? then b.value.testMode else "Height Mode"),
      componentType := Some(if b.Some? then b.value.componentType else "Compression"),
      firstSpeed := Some(if b.Some? then b.value.firstSpeed else Zero),
      secondSpeed := Some(if b.Some? then b.value.secondSpeed else Zero),
      offerNumber := Some(if o.Some? then o.value.offerNumber else ""),
      productionBatchNumber := Some(if o.Some? then o.value.productionBatchNumber else ""),
      partRevNoDate := Some(if o.Some? then o.value.partRevNoDate else ""),
      materialDescription := Some(if o.Some? then o.value.materialDescription else ""),
      surfaceTreatment := Some(if o.Some? then o.value.surfaceTreatment else ""),
      endCoilFinishing := Some(if o.Some? then o.value.endCoilFinishing else ""))
  }

  /**
   * As written: the safety limit is looked up in `optional_info`, which the
   * form never gives one, so the default 0.0 is always passed.
   */
  function FormBasicUpdateAsWritten(d: SpecificationForm.FormData): SettingsService.BasicInfo {
    FormBasicUpdateWith(d, Zero)
  }

  /** Corrected: the safety limit the basic section collected. */
  function FormBasicUpdate(d: SpecificationForm.FormData): SettingsService.BasicInfo {
    FormBasicUpdateWith(d, if d.basicInfo.Some? then d.basicInfo.value.safetyLimit else Zero)
  }

  /** As written, the stored safety limit is 0.0 whatever the user entered. */
  lemma SafetyLimitIsLost(s: SpringSpecification, d: SpecificationForm.FormData)
    requires d.basicInfo.Some? && d.basicInfo.value.safetyLimit != Zero
    ensures SettingsService.ApplyBasicInfo(s, FormBasicUpdateAsWritten(d)).safetyLimitN == Zero
    ensures SettingsService.ApplyBasicInfo(s, FormBasicUpdateAsWritten(d)).safetyLimitN != d.basicInfo.value.safetyLimit
  {
  }

  /**
   * With the correction, every value the form collected is the stored
   * specification's; the set points are left to the second step.
   */
  lemma FormBasicStored(s: SpringSpecification, d: SpecificationForm.FormData)
    ensures var r := SettingsService.ApplyBasicInfo(s, FormBasicUpdate(d));
      r.enabled && r.setPoints == s.setPoints &&
      (d.basicInfo.Some? ==> var b := d.basicInfo.value;
        r.partName == b.partName && r.partNumber == b.partNumber &&
        r.partId == SpecificationsPanel.PartIdFromText(b.partId) && r.freeLengthMm == b.freeLength &&
        r.unit == b.unit && r.forceUnit == b.forceUnit && r.testMode == b.testMode &&
        r.componentType == b.componentType && r.firstSpeed == b.firstSpeed &&
        r.secondSpeed == b.secondSpeed && r.safetyLimitN == b.safetyLimit) &&
      (d.basicInfo.None? ==>
         r.partName == "" && r.partId == IdNum(0) && r.unit == "mm" &&
         r.forceUnit == "N" && r.testMode == "Height Mode" && r.componentType == "Compression" &&
         r.safetyLimitN == Zero) &&
      (d.optionalInfo.Some? ==> var o := d.optionalInfo.value;
        r.coilCount == o.coilCount && r.wireDiaMm == o.wireDia && r.outerDiaMm == o.outerDia &&
        r.offerNumber == o.offerNumber && r.productionBatchNumber == o.productionBatchNumber &&
        r.partRevNoDate == o.partRevNoDate && r.materialDescription == o.materialDescription &&
        r.surfaceTreatment == o.surfaceTreatment && r.endCoilFinishing == o.endCoilFinishing)
  {
    PyStr.NatToStrRoundTrip(0);
    assert NatToStr(0) == "0";
  }

  /**
   * The set point a form set point becomes: its position, load and
   * tolerance, enabled.
   */
  function FormPoint(sp: SpecificationForm.SetPointData): SetPoint {
    SettingsService.UpdatedSetPoint(SettingsService.NewSetPointValue, sp.position, sp.load, sp.tolerance, true)
  }

  /** The set points the corrected processing stores: one per form set point, in order. */
  function FormSetPoints(sps: seq<SpecificationForm.SetPointData>): (r: seq<SetPoint>)
    ensures |r| == |sps|
    ensures forall k :: 0 <= k < |sps| ==>
      r[k].positionMm == sps[k].position && r[k].loadN == sps[k].load &&
      r[k].tolerancePercent == sps[k].tolerance && r[k].enabled
  {
    PyStr.MapAll(FormPoint, sps)
  }

  /** One form set point: a new point added, then updated at the last index. */
  method AddFormPoint(svc: SettingsService.SettingsService, sp: SpecificationForm.SetPointData)
    modifies svc
    ensures svc.Spec() == old(svc.Spec()).(setPoints := old(svc.Spec()).setPoints + [FormPoint(sp)])
    ensures svc.settings == SettingsService.WithSpec(old(svc.settings), svc.Spec())
  {
    ghost var before := svc.Spec().setPoints;
    ghost var t0 := svc.settings;
    var added := svc.AddSetPoint(true);
    var index := |svc.Spec().setPoints| - 1;
    SnocUpdate(before, SettingsService.NewSetPointValue, FormPoint(sp));
    var _ := svc.UpdateSetPoint(index, Some(sp.position), Some(sp.load), Some(sp.tolerance), true, true, true);
    SettingsService.WithSpecTwice(t0, added, svc.Spec());
  }

  /**
   * `_process_form_data(form_data)` as written: the basic update (safety
   * limit 0.0), then, when the form has set points, the list cleared and one
   * new point added, after which `update_set_point` raises `TypeError` on
   * the keyword arguments it does not take. The other form set points are
   * never stored; `raised` reports the exception.
   */
  method ProcessFormDataAsWritten(svc: SettingsService.SettingsService, d: SpecificationForm.FormData)
    returns (raised: bool)
    modifies svc
    ensures raised <==> |d.setPoints| > 0
    ensures var s := SettingsService.ApplyBasicInfo(old(svc.Spec()), FormBasicUpdateAsWritten(d));
      svc.Spec() == if |d.setPoints| == 0 then s else s.(setPoints := [SettingsService.NewSetPointValue])
    ensures svc.settings == SettingsService.WithSpec(old(svc.settings), svc.Spec())
  {
    ghost var t0 := svc.settings;
    var _ := svc.UpdateBasicInfo(FormBasicUpdateAsWritten(d), true);
    if |d.setPoints| == 0 {
      return false;
    }
    ghost var s1 := svc.Spec();
    var _ := svc.ClearSetPoints(true);
    ghost var s2 := svc.Spec();
    var _ := svc.AddSetPoint(true);
    SettingsService.WithSpecTwice(t0, s1, s2);
    SettingsService.WithSpecTwice(t0, s2, svc.Spec());
    return true;
  }

  /**
   * Corrected `_process_form_data(form_data)`: the basic update with the
   * collected safety limit, then, when the form has set points, the list
   * replaced by them, each added as a new point and updated in place by the
   * corrected `update_set_point`, so that its tolerance is kept too.
   */
  method ProcessFormData(svc: SettingsService.SettingsService, d: SpecificationForm.FormData)
    modifies svc
    ensures var s := SettingsService.ApplyBasicInfo(old(svc.Spec()), FormBasicUpdate(d));
      svc.Spec() == if |d.setPoints| == 0 then s else s.(setPoints := FormSetPoints(d.setPoints))
    ensures svc.settings == SettingsService.WithSpec(old(svc.settings), svc.Spec())
  {
    ghost var t0 := svc.settings;
    var _ := svc.UpdateBasicInfo(FormBasicUpdate(d), true);
    if |d.setPoints| > 0 {
      ghost var s1 := svc.Spec();
      StoreFormPoints(svc, d.setPoints);
      SettingsService.WithSpecTwice(t0, s1, svc.Spec());
    }
  }

  /** The set-point step: the list cleared, then each form set point in turn. */
  method StoreFormPoints(svc: SettingsService.SettingsService, sps: seq<SpecificationForm.SetPointData>)
    modifies svc
    ensures svc.Spec() == old(svc.Spec()).(setPoints := FormSetPoints(sps))
    ensures svc.settings == SettingsService.WithSpec(old(svc.settings), svc.Spec())
  {
    ghost var t0 := svc.settings;
    var _ := svc.ClearSetPoints(true);
    ghost var s0 := svc.Spec();
    var k := 0;
    while k < |sps|
      invariant 0 <= k <= |sps|
      invariant svc.Spec() == s0.(setPoints := FormSetPoints(sps[..k]))
      invariant svc.settings == SettingsService.WithSpec(t0, svc.Spec())
    {
      ghost var sb := svc.Spec();
      AddFormPoint(svc, sps[k]);
      SettingsService.WithSpecTwice(t0, sb, svc.Spec());
      PyStr.MapSnoc(FormPoint, sps, k);
      k := k + 1;
    }
    PyStr.WholePrefix(sps);
  }
}
