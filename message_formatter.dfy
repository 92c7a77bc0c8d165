/**
 * `MessageFormatter` (`ui/chat_components/message_formatter.py`): a chat
 * message made HTML. Fenced code blocks become code-block `div`s; the rest
 * is read line by line, runs of code-like lines becoming one code block and
 * other lines paragraphs. Regular expressions go through the matcher.
 */
module MessageFormatter {
  import opened Wrappers
  import opened PyStr
  import Regex
  import Escaping

  /** `CODE_PATTERNS`, tried with `re.match` at the start of a line. */
  const CodePatterns: seq<Regex.Pattern> := [
    Regex.Pattern(@"^\s*(def|class|function|var|const|let|import|from|package|public|private)", false),
    Regex.Pattern(@"^\s*(if|for|while|switch|case|return|try|catch|finally)", false),
    Regex.Pattern(@"^\s*(```|def |class |function |public |private )", false),
    Regex.Pattern(@"^\s*\w+\s*\(\w*\)\s*[{:]", false),
    Regex.Pattern(@"^\s*<\w+.*>", false)
  ]

  /** A fenced block, compiled with `re.DOTALL`. */
  const FencedPattern := Regex.Pattern("(?s)" + @"```(?:\w+)?\n?(.*?)\n?```", false)

  // ------------------------------------------------- regular text

  /** `&` first, then `<` and `>`. */
  const HtmlTable: Escaping.Table := [('&', "&amp;"), ('<', "&lt;"), ('>', "&gt;")]

  function EscapeHtml(text: string): string {
    Replace(Replace(Replace(text, "&", "&amp;"), "<", "&lt;"), ">", "&gt;")
  }

  lemma HtmlTableFacts()
    ensures Escaping.Ordered(HtmlTable)
    ensures HtmlTable[1].0 == '<' && HtmlTable[2].0 == '>'
    ensures forall i :: 0 <= i < |HtmlTable| ==> '<' !in HtmlTable[i].1 && '>' !in HtmlTable[i].1
  {
  }

  /** The chained replacements escape each of `&`, `<`, `>` once, and no `<` or `>` is left. */
  lemma EscapeHtmlIsEscape(text: string)
    ensures EscapeHtml(text) == Escaping.Escape(text, HtmlTable)
    ensures '<' !in EscapeHtml(text) && '>' !in EscapeHtml(text)
  {
    var a := Replace(text, "&", "&amp;");
    var b := Replace(a, "<", "&lt;");
    ReplaceCharIsMap(text, '&', "&amp;");
    ReplaceCharIsMap(a, '<', "&lt;");
    ReplaceCharIsMap(b, '>', "&gt;");
    assert EscapeHtml(text) == Escaping.Chain(text, HtmlTable) by {
      assert HtmlTable[1..][1..][1..] == [];
    }
    HtmlTableFacts();
    Escaping.ChainIsEscape(text, HtmlTable);
    Escaping.EscapeAvoids(text, HtmlTable, '<');
    Escaping.EscapeAvoids(text, HtmlTable, '>');
  }

  const UrlPattern := Regex.Pattern(@"(https?://\S+)", false)
  const BoldPattern := Regex.Pattern(@"\*\*(.+?)\*\*", false)
  const ItalicPattern := Regex.Pattern(@"\*([^*]+)\*", false)

  /** The tags put in after escaping: links, then bold, then italics. */
  function Tags(e: Regex.Engine, escaped: string): string {
    var linked := e.sub(UrlPattern, @"<a href=""\1"" target=""_blank"">\1</a>", escaped);
    var bold := e.sub(BoldPattern, @"<strong>\1</strong>", linked);
    e.sub(ItalicPattern, @"<em>\1</em>", bold)
  }

  /** `_format_regular_text(text)`. */
  function FormatRegularText(e: Regex.Engine, text: string): string {
    Tags(e, EscapeHtml(text))
  }

  /**
   * The text is escaped before any tag is put in: the tags see the text
   * with each `&`, `<`, `>` escaped once, and no raw `<` or `>` of it.
   */
  lemma FormatRegularTextEscapesFirst(e: Regex.Engine, text: string)
    ensures var escaped := Escaping.Escape(text, HtmlTable);
      FormatRegularText(e, text) == Tags(e, escaped) && '<' !in escaped && '>' !in escaped
  {
    EscapeHtmlIsEscape(text);
  }

  // ------------------------------------------------- code

  /** The highlighted keywords, between word boundaries. */
  const KeywordPattern := Regex.Pattern(
    @"\b(function|var|let|const|if|else|for|while|return|class|def|import|from|public|private|protected|static|new|try|catch|finally|throw)\b",
    false)

  /** How many spaces a line starts with (`len(line) - len(line.lstrip(' '))`). */
  function LeadingSpaces(line: string): (n: nat)
    ensures n <= |line|
    ensures forall i :: 0 <= i < n ==> line[i] == ' '
    ensures n < |line| ==> line[n] != ' '
    decreases |line|
  {
    if |line| > 0 && line[0] == ' ' then 1 + LeadingSpaces(line[1..]) else 0
  }

  function Nbsp(n: nat): string
    decreases n
  {
    if n == 0 then "" else "&nbsp;" + Nbsp(n - 1)
  }

  function Spaces(n: nat): (s: string)
    ensures |s| == n && forall i :: 0 <= i < n ==> s[i] == ' '
    decreases n
  {
    if n == 0 then "" else " " + Spaces(n - 1)
  }

  /** A line's leading spaces, each made `&nbsp;`. */
  function Indent(line: string): string {
    var n := LeadingSpaces(line);
    if n > 0 then Nbsp(n) + line[n..] else line
  }

  /** `n` leading spaces become exactly `n` non-breaking spaces, and the rest is kept. */
  lemma IndentOf(n: nat, rest: string)
    requires |rest| == 0 || rest[0] != ' '
    ensures Indent(Spaces(n) + rest) == Nbsp(n) + rest
  {
    var line := Spaces(n) + rest;
    LeadingSpacesOf(n, rest);
    assert line[n..] == rest;
  }

  lemma {:induction false} LeadingSpacesOf(n: nat, rest: string)
    requires |rest| == 0 || rest[0] != ' '
    ensures LeadingSpaces(Spaces(n) + rest) == n
    decreases n
  {
    if n > 0 {
      assert (Spaces(n) + rest)[1..] == Spaces(n - 1) + rest;
      LeadingSpacesOf(n - 1, rest);
    }
  }

  /** The lines of a code text after escaping and keyword highlighting. */
  function CodeLines(e: Regex.Engine, code: string): seq<string> {
    var highlighted := e.sub(KeywordPattern, @"<span style=""color:#D500F9;"">\1</span>", EscapeHtml(code));
    Split(highlighted, "\n")
  }

  /** `_format_code(code)`: every line indented with `&nbsp;`, the lines joined by `<br>`. */
  function FormatCodeText(e: Regex.Engine, code: string): string {
    var ls := CodeLines(e, code);
    Join("<br>", seq(|ls|, i requires 0 <= i < |ls| => Indent(ls[i])))
  }

  /** The loop of `_format_code` replacing each line's leading spaces in place. */
  method FormatCode(e: Regex.Engine, code: string) returns (r: string)
    ensures r == FormatCodeText(e, code)
  {
    var lines := CodeLines(e, code);
    ghost var original := lines;
    for i := 0 to |lines|
      invariant |lines| == |original|
      invariant forall j :: 0 <= j < i ==> lines[j] == Indent(original[j])
      invariant forall j :: i <= j < |lines| ==> lines[j] == original[j]
    {
      var n := LeadingSpaces(lines[i]);
      if n > 0 {
        lines := lines[i := Nbsp(n) + lines[i][n..]];
      }
    }
    assert lines == seq(|original|, i requires 0 <= i < |original| => Indent(original[i]));
    r := Join("<br>", lines);
  }

  // ------------------------------------------------- regular text, line by line

  /** Whether one of the patterns matches at the start of the line. */
  predicate AnyMatch(e: Regex.Engine, ps: seq<Regex.Pattern>, line: string)
    decreases |ps|
  {
    |ps| > 0 && (e.matchStart(ps[0], line).Some? || AnyMatch(e, ps[1..], line))
  }

  lemma {:induction false} AnyMatchIff(e: Regex.Engine, ps: seq<Regex.Pattern>, line: string)
    ensures AnyMatch(e, ps, line) <==> exists i :: 0 <= i < |ps| && e.matchStart(ps[i], line).Some?
    decreases |ps|
  {
    if |ps| > 0 {
      AnyMatchIff(e, ps[1..], line);
      if e.matchStart(ps[0], line).None? {
        assert forall i :: 1 <= i < |ps| ==> ps[1..][i - 1] == ps[i];
      }
    }
  }

  /** `re.match` of one of the patterns, in list order, as the loop with `break` tries them. */
  method MatchesAny(e: Regex.Engine, ps: seq<Regex.Pattern>, line: string) returns (found: bool)
    ensures found <==> exists i :: 0 <= i < |ps| && e.matchStart(ps[i], line).Some?
    ensures found == AnyMatch(e, ps, line)
  {
    AnyMatchIff(e, ps, line);
    found := false;
    for i := 0 to |ps|
      invariant !found <==> forall j :: 0 <= j < i ==> e.matchStart(ps[j], line).None?
    {
      if e.matchStart(ps[i], line).Some? {
        return true;
      }
    }
  }

  /** An indented line, or a non-blank line matching a code pattern. */
  predicate IsCodeLine(e: Regex.Engine, line: string) {
    StartsWith(line, "    ") || StartsWith(line, "\t") || (Strip(line) != "" && AnyMatch(e, CodePatterns, line))
  }

  /** The state of the line loop: the parts so far, the open run of code lines, whether one is open. */
  datatype Scan = Scan(parts: seq<string>, code: seq<string>, inCode: bool)

  /** What the line loop makes of lines: the code-line test, a paragraph, the block of a run. */
  datatype Renderer = Renderer(isCode: string -> bool, paragraph: string -> string, codeDiv: seq<string> -> string)

  function CodeDiv(e: Regex.Engine, code: seq<string>): string {
    "<div class=\"code-block\">" + FormatCodeText(e, Join("\n", code)) + "</div>"
  }

  function Paragraph(e: Regex.Engine, line: string): string {
    "<p>" + FormatRegularText(e, line) + "</p>"
  }

  /** The renderer of `_process_regular_text`. */
  function Lines(e: Regex.Engine): Renderer {
    Renderer(line => IsCodeLine(e, line), line => Paragraph(e, line), code => CodeDiv(e, code))
  }

  /**
   * One line, given whether it is code, the block of the open run and the
   * line's paragraph: a code line joins the open run; any other line first
   * closes an open run, then is a paragraph when it is not blank, and a
   * blank line adds an empty paragraph unless the last part already ends one.
   */
  function StepWith(st: Scan, line: string, isCode: bool, block: string, paragraph: string): Scan {
    if isCode then Scan(st.parts, st.code + [line], true)
    else
      var parts := if st.inCode then st.parts + [block] else st.parts;
      var code := if st.inCode then [] else st.code;
      Scan(TextParts(parts, line, paragraph), code, false)
  }

  /** The parts after a line that is not code, once any open run is closed. */
  function TextParts(parts: seq<string>, line: string, paragraph: string): seq<string> {
    if Strip(line) != "" then parts + [paragraph]
    else if |parts| > 0 && !EndsWith(parts[|parts| - 1], "</p>") then parts + ["<p></p>"]
    else parts
  }

  /** One line, rendered as the renderer says. */
  function Step(rd: Renderer, st: Scan, line: string): Scan {
    StepWith(st, line, rd.isCode(line), rd.codeDiv(st.code), rd.paragraph(line))
  }

  const Start := Scan([], [], false)

  /** The state after the given lines. */
  function Scanned(rd: Renderer, lines: seq<string>): Scan
    decreases |lines|
  {
    if |lines| == 0 then Start else Step(rd, Scanned(rd, lines[..|lines| - 1]), lines[|lines| - 1])
  }

  /** The parts at the end, with a run still open closed. */
  function FinalParts(rd: Renderer, st: Scan): seq<string> {
    if st.inCode then st.parts + [rd.codeDiv(st.code)] else st.parts
  }

  /** `_process_regular_text(text)`. */
  function ProcessRegularText(e: Regex.Engine, text: string): string {
    Join("", FinalParts(Lines(e), Scanned(Lines(e), Split(text, "\n"))))
  }

  /** The code lines at the end of `lines`, as many as there are in a row. */
  function TrailingRun(rd: Renderer, lines: seq<string>): (run: seq<string>)
    ensures forall i :: 0 <= i < |run| ==> rd.isCode(run[i])
    decreases |lines|
  {
    if |lines| == 0 || !rd.isCode(lines[|lines| - 1]) then []
    else TrailingRun(rd, lines[..|lines| - 1]) + [lines[|lines| - 1]]
  }

  /** The open run is exactly the code lines ending the input, and it is open when there are some. */
  lemma {:induction false} ScannedRun(rd: Renderer, lines: seq<string>)
    ensures Scanned(rd, lines).code == TrailingRun(rd, lines)
    ensures Scanned(rd, lines).inCode <==> |TrailingRun(rd, lines)| > 0
    decreases |lines|
  {
    if |lines| > 0 {
      ScannedRun(rd, lines[..|lines| - 1]);
    }
  }

  /** Lines that are all code become one code block holding them all. */
  lemma AllCodeLines(rd: Renderer, lines: seq<string>)
    requires |lines| > 0
    requires forall i :: 0 <= i < |lines| ==> rd.isCode(lines[i])
    ensures FinalParts(rd, Scanned(rd, lines)) == [rd.codeDiv(lines)]
  {
    AllCodeScan(rd, lines);
  }

  lemma {:induction false} AllCodeScan(rd: Renderer, lines: seq<string>)
    requires forall i :: 0 <= i < |lines| ==> rd.isCode(lines[i])
    ensures Scanned(rd, lines) == Scan([], lines, |lines| > 0)
    decreases |lines|
  {
    if |lines| > 0 {
      var front := lines[..|lines| - 1];
      AllCodeScan(rd, front);
      assert front + [lines[|lines| - 1]] == lines;
    }
  }

  /** A non-blank line that is not code, with no run open, adds its paragraph. */
  lemma StepProse(rd: Renderer, st: Scan, line: string)
    requires !rd.isCode(line) && Strip(line) != "" && !st.inCode
    ensures Step(rd, st, line) == Scan(st.parts + [rd.paragraph(line)], st.code, false)
  {
  }

  /** Non-blank lines none of which is code become one paragraph each, in order. */
  lemma {:induction false} ProseLines(rd: Renderer, lines: seq<string>)
    requires forall i :: 0 <= i < |lines| ==> !rd.isCode(lines[i]) && Strip(lines[i]) != ""
    ensures var parts := FinalParts(rd, Scanned(rd, lines));
      |parts| == |lines| && forall i :: 0 <= i < |lines| ==> parts[i] == rd.paragraph(lines[i])
    ensures !Scanned(rd, lines).inCode && Scanned(rd, lines).code == []
    decreases |lines|
  {
    if |lines| > 0 {
      var front := lines[..|lines| - 1];
      var last := lines[|lines| - 1];
      ProseFront(rd, lines);
      ProseLines(rd, front);
      var st := Scanned(rd, front);
      StepProse(rd, st, last);
      ProseSnoc(rd, front, st.parts, last);
    }
  }

  lemma ProseFront(rd: Renderer, lines: seq<string>)
    requires |lines| > 0
    requires forall i :: 0 <= i < |lines| ==> !rd.isCode(lines[i]) && Strip(lines[i]) != ""
    ensures var front := lines[..|lines| - 1];
      forall i :: 0 <= i < |front| ==> !rd.isCode(front[i]) && Strip(front[i]) != ""
    ensures lines == lines[..|lines| - 1] + [lines[|lines| - 1]]
  {
    var front := lines[..|lines| - 1];
    forall i | 0 <= i < |front| ensures !rd.isCode(front[i]) && Strip(front[i]) != "" {
      assert front[i] == lines[i];
    }
  }

  lemma ProseSnoc(rd: Renderer, front: seq<string>, parts: seq<string>, last: string)
    requires |parts| == |front| && forall i :: 0 <= i < |front| ==> parts[i] == rd.paragraph(front[i])
    ensures var ps := parts + [rd.paragraph(last)]; var ls := front + [last];
      |ps| == |ls| && forall i :: 0 <= i < |ls| ==> ps[i] == rd.paragraph(ls[i])
  {
  }

  /** A code run still open when the lines end is closed as the last block. */
  lemma RunClosedLast(rd: Renderer, lines: seq<string>)
    requires |lines| > 0 && rd.isCode(lines[|lines| - 1])
    ensures EndsWith(Join("", FinalParts(rd, Scanned(rd, lines))), rd.codeDiv(TrailingRun(rd, lines)))
  {
    var st := Scanned(rd, lines);
    ScannedRun(rd, lines);
    var block := rd.codeDiv(st.code);
    assert FinalParts(rd, st) == st.parts + [block];
    if |st.parts| == 0 {
      assert st.parts + [block] == [block];
    } else {
      JoinSnoc("", st.parts, block);
    }
  }

  /** A code run still open when the input ends is closed as the output's last block. */
  lemma OpenRunClosed(e: Regex.Engine, text: string)
    requires var lines := Split(text, "\n"); IsCodeLine(e, lines[|lines| - 1])
    ensures EndsWith(ProcessRegularText(e, text), CodeDiv(e, TrailingRun(Lines(e), Split(text, "\n"))))
  {
    var lines, rd := Split(text, "\n"), Lines(e);
    assert rd.isCode(lines[|lines| - 1]);
    RunClosedLast(rd, lines);
    assert rd.codeDiv(TrailingRun(rd, lines)) == CodeDiv(e, TrailingRun(rd, lines));
  }

  /** The code test of the loop: indentation first, then the patterns for a non-blank line. */
  method IsCode(e: Regex.Engine, line: string) returns (isCode: bool)
    ensures isCode == IsCodeLine(e, line)
  {
    isCode := StartsWith(line, "    ") || StartsWith(line, "\t");
    if !isCode && Strip(line) != "" {
      isCode := MatchesAny(e, CodePatterns, line);
    }
  }

  /** The block of a run of code lines. */
  method CodeBlock(e: Regex.Engine, code: seq<string>) returns (block: string)
    ensures block == CodeDiv(e, code)
  {
    var formatted := FormatCode(e, Join("\n", code));
    block := "<div class=\"code-block\">" + formatted + "</div>";
  }

  /** One pass of the loop of `_process_regular_text`, with its flag and buffers. */
  method ScanLine(rd: Renderer, parts: seq<string>, code: seq<string>, inCode: bool, line: string)
    returns (parts': seq<string>, code': seq<string>, inCode': bool)
    ensures Scan(parts', code', inCode') == Step(rd, Scan(parts, code, inCode), line)
  {
    parts', code', inCode' := parts, code, inCode;
    if rd.isCode(line) {
      if !inCode' {
        inCode' := true;
      }
      code' := code' + [line];
    } else {
      if inCode' {
        parts' := parts' + [rd.codeDiv(code')];
        code' := [];
        inCode' := false;
      }
      parts' := TextLine(parts', line, rd.paragraph(line));
    }
  }

  /** The regular-text branch of the loop: a paragraph, or an empty one for a blank line. */
  method TextLine(parts: seq<string>, line: string, paragraph: string) returns (parts': seq<string>)
    ensures parts' == TextParts(parts, line, paragraph)
  {
    parts' := parts;
    if Strip(line) != "" {
      parts' := parts' + [paragraph];
    } else if |parts'| > 0 && !EndsWith(parts'[|parts'| - 1], "</p>") {
      parts' := parts' + ["<p></p>"];
    }
  }

  /** The line loop of `_process_regular_text`, then the run still open closed. */
  method RenderLines(rd: Renderer, lines: seq<string>) returns (parts: seq<string>)
    ensures parts == FinalParts(rd, Scanned(rd, lines))
  {
    parts := [];
    var inCode := false;
    var code: seq<string> := [];
    for k := 0 to |lines|
      invariant Scanned(rd, lines[..k]) == Scan(parts, code, inCode)
    {
      PrefixStep(lines, k);
      parts, code, inCode := ScanLine(rd, parts, code, inCode, lines[k]);
    }
    assert lines[..|lines|] == lines;
    if inCode {
      parts := parts + [rd.codeDiv(code)];
    }
  }

  /** `_process_regular_text(text)`: the lines rendered, the parts joined. */
  method ProcessRegular(e: Regex.Engine, text: string) returns (r: string)
    ensures r == ProcessRegularText(e, text)
  {
    var parts := RenderLines(Lines(e), Split(text, "\n"));
    r := Join("", parts);
  }

  // ------------------------------------------------- the whole message

  /** The state of the fence loop: the parts so far and where the last fence ended. */
  datatype Fenced = Fenced(parts: seq<string>, lastEnd: nat)

  /** What the fence loop makes of text and fences: text before a fence, a fence, the rest. */
  datatype Fencing = Fencing(regular: string -> string, block: Regex.Match -> string, rest: string -> string)

  function FenceDiv(e: Regex.Engine, m: Regex.Match): string {
    "<div class=\"code-block\">" + FormatCodeText(e, Regex.Text(m, 1)) + "</div>"
  }

  /** The fencing of `format_message_content`. */
  function Fences(e: Regex.Engine): Fencing {
    Fencing(text => FormatRegularText(e, text), m => FenceDiv(e, m), text => ProcessRegularText(e, text))
  }

  /** One fence: the text since the last one as regular text, when there is some, then the block. */
  function FenceStep(fd: Fencing, content: string, st: Fenced, m: Regex.Match): Fenced {
    var parts := if m.start > st.lastEnd then st.parts + [fd.regular(Regex.Slice(content, st.lastEnd, m.start))]
                 else st.parts;
    Fenced(parts + [fd.block(m)], m.end)
  }

  function FencedParts(fd: Fencing, content: string, ms: seq<Regex.Match>): Fenced
    decreases |ms|
  {
    if |ms| == 0 then Fenced([], 0) else FenceStep(fd, content, FencedParts(fd, content, ms[..|ms| - 1]), ms[|ms| - 1])
  }

  /** The parts at the end: the rest after the last fence, or the whole text when nothing was added. */
  function MessageParts(fd: Fencing, content: string, st: Fenced): seq<string> {
    var parts := if st.lastEnd < |content| then st.parts + [fd.rest(Regex.Slice(content, st.lastEnd, |content|))]
                 else st.parts;
    if |parts| == 0 then [fd.rest(content)] else parts
  }

  function MessageText(fd: Fencing, content: string, ms: seq<Regex.Match>): string {
    Join("", MessageParts(fd, content, FencedParts(fd, content, ms)))
  }

  /** `format_message_content(content)`. */
  function FormatMessageText(e: Regex.Engine, content: string): string {
    MessageText(Fences(e), content, e.findAll(FencedPattern, content))
  }

  lemma NoFenceText(fd: Fencing, content: string)
    ensures MessageText(fd, content, []) == fd.rest(content)
  {
    assert content[0..|content|] == content;
  }

  /** With no fenced block the message is processed as regular text. */
  lemma NoFence(e: Regex.Engine, content: string)
    requires e.findAll(FencedPattern, content) == []
    ensures FormatMessageText(e, content) == ProcessRegularText(e, content)
  {
    NoFenceText(Fences(e), content);
  }

  lemma OneFenceText(fd: Fencing, content: string, m: Regex.Match)
    requires 0 < m.start <= m.end < |content|
    ensures MessageText(fd, content, [m]) == fd.regular(content[..m.start]) + fd.block(m) + fd.rest(content[m.end..])
  {
    assert [m][..0] == [];
    var before := fd.regular(content[..m.start]);
    var after := fd.rest(content[m.end..]);
    assert FencedParts(fd, content, [m]) == FenceStep(fd, content, Fenced([], 0), m);
    assert Regex.Slice(content, 0, m.start) == content[..m.start];
    assert FencedParts(fd, content, [m]) == Fenced([before, fd.block(m)], m.end);
    assert Regex.Slice(content, m.end, |content|) == content[m.end..];
    assert MessageParts(fd, content, FencedParts(fd, content, [m])) == [before, fd.block(m), after];
    assert [before, fd.block(m), after][1..] == [fd.block(m), after];
    assert [fd.block(m), after][1..] == [after];
    assert Join("", [fd.block(m), after]) == fd.block(m) + "" + after;
    assert Join("", [before, fd.block(m), after]) == before + "" + Join("", [fd.block(m), after]);
  }

  /**
   * One fence with text on both sides: the text before it through
   * `_format_regular_text`, the block, the text after it through
   * `_process_regular_text`.
   */
  lemma OneFence(e: Regex.Engine, content: string, m: Regex.Match)
    requires e.findAll(FencedPattern, content) == [m]
    requires 0 < m.start <= m.end < |content|
    ensures FormatMessageText(e, content) ==
      FormatRegularText(e, content[..m.start]) + FenceDiv(e, m) + ProcessRegularText(e, content[m.end..])
  {
    OneFenceText(Fences(e), content, m);
  }

  /** Fences one right after the other: one block per fence, in the order found. */
  lemma {:induction false} FencesInOrder(fd: Fencing, content: string, ms: seq<Regex.Match>)
    requires |ms| > 0 ==> ms[0].start == 0
    requires forall i :: 0 < i < |ms| ==> ms[i].start == ms[i - 1].end
    ensures FencedParts(fd, content, ms).parts == seq(|ms|, i requires 0 <= i < |ms| => fd.block(ms[i]))
    ensures FencedParts(fd, content, ms).lastEnd == Regex.LastEnd(ms)
    decreases |ms|
  {
    if |ms| > 0 {
      FencesInOrder(fd, content, ms[..|ms| - 1]);
    }
  }

  /** The fence's block. */
  method FenceBlock(e: Regex.Engine, m: Regex.Match) returns (block: string)
    ensures block == Fences(e).block(m)
  {
    var code := FormatCode(e, Regex.Text(m, 1));
    block := "<div class=\"code-block\">" + code + "</div>";
  }

  /** The loop of `format_message_content`. */
  method FormatMessageContent(e: Regex.Engine, content: string) returns (r: string)
    ensures r == FormatMessageText(e, content)
  {
    var fd := Fences(e);
    var ms := e.findAll(FencedPattern, content);
    var parts: seq<string> := [];
    var lastEnd: nat := 0;
    for k := 0 to |ms|
      invariant FencedParts(fd, content, ms[..k]) == Fenced(parts, lastEnd)
    {
      PrefixStep(ms, k);
      var m := ms[k];
      if m.start > lastEnd {
        parts := parts + [FormatRegularText(e, Regex.Slice(content, lastEnd, m.start))];
      }
      var block := FenceBlock(e, m);
      parts := parts + [block];
      lastEnd := m.end;
    }
    assert ms[..|ms|] == ms;
    if lastEnd < |content| {
      var rest := ProcessRegular(e, Regex.Slice(content, lastEnd, |content|));
      parts := parts + [rest];
    }
    if |parts| == 0 {
      var whole := ProcessRegular(e, content);
      parts := [whole];
    }
    r := Join("", parts);
  }
}
