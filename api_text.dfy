/**
 * The text helpers both language-model clients share, written out twice
 * in the application with the same bodies: the parameter listing sent in
 * the prompt, the error-message extraction, the reply markers and the
 * "previous context" suffix built from the chat memory.
 */
module ApiText {
  import opened Wrappers
  import opened PyStr
  import opened Values
  import Regex

  // ------------------------------------------------- parameter listing

  /** The two keys the listing leaves out. */
  predicate Skipped(k: string) {
    k == "Timestamp" || k == "prompt"
  }

  /** `f"{key}: {value}"`. */
  function ParameterLine(e: (string, Value)): string {
    e.0 + ": " + ToText(e.1)
  }

  /** The listed lines, one per entry whose key is not skipped, in dictionary order. */
  function ParameterLines(params: Dict<Value>): (ls: seq<string>)
    ensures |ls| <= |params|
    ensures forall j :: 0 <= j < |ls| ==> exists i :: 0 <= i < |params| && !Skipped(params[i].0) && ls[j] == ParameterLine(params[i])
    decreases |params|
  {
    if |params| == 0 then []
    else
      var e := params[|params| - 1];
      var front := ParameterLines(params[..|params| - 1]);
      assert forall j :: 0 <= j < |front| ==> exists i :: 0 <= i < |params| && !Skipped(params[i].0) && front[j] == ParameterLine(params[i]) by {
        forall j | 0 <= j < |front|
          ensures exists i :: 0 <= i < |params| && !Skipped(params[i].0) && front[j] == ParameterLine(params[i])
        {
          var i :| 0 <= i < |params| - 1 && !Skipped(params[..|params| - 1][i].0) && front[j] == ParameterLine(params[..|params| - 1][i]);
          assert params[i] == params[..|params| - 1][i];
        }
      }
      front + (if Skipped(e.0) then [] else [ParameterLine(e)])
  }

  /** `format_parameter_text`: the loop over `parameters.items()`, then `"\n".join`. */
  method FormatParameterText(params: Dict<Value>) returns (text: string)
    ensures text == Join("\n", ParameterLines(params))
  {
    var lines: seq<string> := [];
    var k := 0;
    while k < |params|
      invariant 0 <= k <= |params| && lines == ParameterLines(params[..k])
    {
      var e := params[k];
      PrefixStep(params, k);
      if !Skipped(e.0) {
        lines := lines + [e.0 + ": " + ToText(e.1)];
      }
      k := k + 1;
    }
    assert params[..k] == params;
    text := Join("\n", lines);
  }

  /** Each entry that is not skipped contributes exactly one line: the count. */
  function CountListed(params: Dict<Value>): nat
    decreases |params|
  {
    if |params| == 0 then 0
    else CountListed(params[..|params| - 1]) + (if Skipped(params[|params| - 1].0) then 0 else 1)
  }

  lemma {:induction false} ParameterLinesCount(params: Dict<Value>)
    ensures |ParameterLines(params)| == CountListed(params)
    decreases |params|
  {
    if |params| > 0 {
      ParameterLinesCount(params[..|params| - 1]);
    }
  }

  /** Removing a `Timestamp` or `prompt` entry leaves the listing as it was. */
  lemma {:induction false} SkippedEntryIsInvisible(params: Dict<Value>, i: nat)
    requires i < |params| && Skipped(params[i].0)
    ensures ParameterLines(params[..i] + params[i + 1..]) == ParameterLines(params)
    decreases |params|
  {
    RemoveAtParts(params, i);
    if i < |params| - 1 {
      SkippedEntryIsInvisible(params[..|params| - 1], i);
    }
  }

  /** A dictionary appended with one more listed entry lists one more line, at the end. */
  lemma ListedEntryIsLast(params: Dict<Value>, e: (string, Value))
    requires !Skipped(e.0)
    ensures ParameterLines(params + [e]) == ParameterLines(params) + [e.0 + ": " + ToText(e.1)]
  {
    assert (params + [e])[..|params|] == params;
  }

  // ------------------------------------------------- error messages

  /** The four patterns of `extract_error_message`, each searched case-insensitively. */
  const ErrorPatterns: seq<Regex.Pattern> := [
    Regex.Pattern("Error:\\s*(.+?)(?:\\n|$)", true),
    Regex.Pattern("Failed to\\s*(.+?)(?:\\n|$)", true),
    Regex.Pattern("Unable to\\s*(.+?)(?:\\n|$)", true),
    Regex.Pattern("I apologize, but I cannot\\s*(.+?)(?:\\n|$)", true)]

  /**
   * `extract_error_message`: the stripped first group of the first pattern,
   * in list order, that occurs in the text; `""` when none does.
   */
  function ExtractErrorMessage(e: Regex.Engine, text: string): (r: string)
    ensures (forall j :: 0 <= j < |ErrorPatterns| ==> e.search(ErrorPatterns[j], text).None?) ==> r == ""
  {
    match Regex.FirstSearch(e, ErrorPatterns, text)
    case None => ""
    case Some((_, m)) => Strip(Regex.Text(m, 1))
  }

  /** When pattern `j` is the first to occur, its stripped first group is the message. */
  lemma ErrorMessageOfFirstMatch(e: Regex.Engine, text: string, j: nat)
    requires j < |ErrorPatterns| && e.search(ErrorPatterns[j], text).Some?
    requires forall k :: 0 <= k < j ==> e.search(ErrorPatterns[k], text).None?
    ensures ExtractErrorMessage(e, text) == Strip(Regex.Text(e.search(ErrorPatterns[j], text).value, 1))
  {
    Regex.FirstSearchIsFirst(e, ErrorPatterns, text, j);
  }

  // ------------------------------------------------- reply markers

  const StartMarker: string := "---SEQUENCE_DATA_START---"
  const EndMarker: string := "---SEQUENCE_DATA_END---"

  /**
   * A reply laid out as `a`, the start marker, `b`, the end marker, `c`,
   * where the start marker occurs only once and the end marker is found
   * first right after `b` and never in `c`.
   */
  predicate MarkedLayout(a: string, b: string, c: string) {
    !Contains(a + StartMarker[..|StartMarker| - 1], StartMarker) &&
    !Contains(b + EndMarker + c, StartMarker) &&
    !Contains(b + EndMarker[..|EndMarker| - 1], EndMarker) &&
    !Contains(c, EndMarker)
  }

  /** The marker positions of such a layout. */
  lemma MarkedLayoutFinds(a: string, b: string, c: string)
    requires MarkedLayout(a, b, c)
    ensures Find(a + StartMarker + (b + EndMarker + c), StartMarker) == |a|
    ensures Find(b + EndMarker + c, EndMarker) == |b|
    ensures Split(a + StartMarker + (b + EndMarker + c), StartMarker) == [a, b + EndMarker + c]
    ensures Split(b + EndMarker + c, EndMarker) == [b, c]
  {
    FindAfter(a, StartMarker, b + EndMarker + c);
    SplitAt(a, StartMarker, b + EndMarker + c);
    SplitNone(b + EndMarker + c, StartMarker);
    FindAfter(b, EndMarker, c);
    SplitAt(b, EndMarker, c);
    SplitNone(c, EndMarker);
  }

  // ------------------------------------------------- previous context

  /**
   * The suffix added to the user prompt: with a non-empty chat memory, a
   * header and the (at most) three most recent entries, one per line.
   */
  function PreviousContext(memory: seq<string>): (r: string)
    ensures |memory| == 0 <==> r == ""
  {
    if |memory| > 0 then "\n\nPrevious context:\n" + Join("\n", SliceFromEnd(memory, 3)) else ""
  }

  /** The context shows the last three entries, or all of a shorter memory. */
  lemma PreviousContextShowsNewest(memory: seq<string>)
    requires |memory| > 0
    ensures |memory| <= 3 ==> PreviousContext(memory) == "\n\nPrevious context:\n" + Join("\n", memory)
    ensures |memory| > 3 ==> PreviousContext(memory) == "\n\nPrevious context:\n" + Join("\n", memory[|memory| - 3..])
  {
  }
}
