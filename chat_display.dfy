/**
 * `ChatDisplay` (`ui/chat_components/chat_display.py`): the history is cut
 * into runs of one role, each run drawn as a group of bubbles, and the HTML
 * handed to the web view inside a JavaScript template literal. The web view
 * is left out: `RefreshDisplay` returns the text placed in the template, or
 * `None` when nothing is updated.
 */
module ChatDisplay {
  import opened Wrappers
  import opened PyStr
  import Regex
  import Escaping

  /**
   * A message of the history: its role, content and timestamp text
   * (`isoformat()` of the timestamp, or the dictionary's entry).
   */
  datatype Message = Message(role: string, content: string, timestamp: string)

  /** A run of consecutive messages of one role. */
  datatype Group = Group(role: string, messages: seq<Message>)

  // ------------------------------------------------- grouping

  /** The groups `refresh_display` builds, one message at a time. */
  function Groups(h: seq<Message>): (gs: seq<Group>)
    decreases |h|
  {
    if |h| == 0 then [] else AddMessage(Groups(h[..|h| - 1]), h[|h| - 1])
  }

  /** A message of the last group's role joins it; any other starts a group. */
  function AddMessage(gs: seq<Group>, m: Message): seq<Group> {
    if |gs| > 0 && gs[|gs| - 1].role == m.role then
      gs[..|gs| - 1] + [Group(m.role, gs[|gs| - 1].messages + [m])]
    else gs + [Group(m.role, [m])]
  }

  /** The groups' messages one after the other. */
  function Flatten(gs: seq<Group>): seq<Message>
    decreases |gs|
  {
    if |gs| == 0 then [] else Flatten(gs[..|gs| - 1]) + gs[|gs| - 1].messages
  }

  lemma FlattenSnoc(gs: seq<Group>, g: Group)
    ensures Flatten(gs + [g]) == Flatten(gs) + g.messages
  {
    assert (gs + [g])[..|gs|] == gs;
  }

  /** No group is empty, every message has its group's role, and neighbouring groups differ in role. */
  predicate WellGrouped(gs: seq<Group>) {
    (forall i :: 0 <= i < |gs| ==> |gs[i].messages| > 0) &&
    (forall i, j :: 0 <= i < |gs| && 0 <= j < |gs[i].messages| ==> gs[i].messages[j].role == gs[i].role) &&
    (forall i :: 0 < i < |gs| ==> gs[i - 1].role != gs[i].role)
  }

  lemma AddMessageFlatten(gs: seq<Group>, m: Message)
    ensures Flatten(AddMessage(gs, m)) == Flatten(gs) + [m]
  {
    if |gs| > 0 && gs[|gs| - 1].role == m.role {
      var last := gs[|gs| - 1];
      var init := gs[..|gs| - 1];
      assert gs == init + [last];
      FlattenSnoc(init, last);
      FlattenSnoc(init, Group(m.role, last.messages + [m]));
    } else {
      FlattenSnoc(gs, Group(m.role, [m]));
    }
  }

  lemma AddMessageWellGrouped(gs: seq<Group>, m: Message)
    requires WellGrouped(gs)
    ensures WellGrouped(AddMessage(gs, m))
    ensures var r := AddMessage(gs, m); |r| > 0 && r[|r| - 1].role == m.role
  {
  }

  /** The groups' messages, one after the other, are the history. */
  lemma {:induction false} GroupsFlatten(h: seq<Message>)
    ensures Flatten(Groups(h)) == h
    decreases |h|
  {
    if |h| > 0 {
      var front := h[..|h| - 1];
      GroupsFlatten(front);
      AddMessageFlatten(Groups(front), h[|h| - 1]);
      assert h == front + [h[|h| - 1]];
    }
  }

  /** The groups are maximal runs of one role; the last has the last message's role. */
  lemma {:induction false} GroupsWellGrouped(h: seq<Message>)
    ensures WellGrouped(Groups(h))
    ensures |h| > 0 ==> |Groups(h)| > 0 && Groups(h)[|Groups(h)| - 1].role == h[|h| - 1].role
    decreases |h|
  {
    if |h| > 0 {
      var front := h[..|h| - 1];
      GroupsWellGrouped(front);
      AddMessageWellGrouped(Groups(front), h[|h| - 1]);
    }
  }

  lemma WellGroupedInit(gs: seq<Group>)
    requires WellGrouped(gs) && |gs| > 0
    ensures WellGrouped(gs[..|gs| - 1])
  {
    var init := gs[..|gs| - 1];
    forall i, j | 0 <= i < |init| && 0 <= j < |init[i].messages|
      ensures init[i].messages[j].role == init[i].role
    {
      assert init[i] == gs[i];
    }
  }

  /** The last group without its last message still leaves a well-grouped split. */
  lemma WellGroupedDropLast(gs: seq<Group>)
    requires WellGrouped(gs) && |gs| > 0 && |gs[|gs| - 1].messages| > 1
    ensures var g := gs[|gs| - 1];
      WellGrouped(gs[..|gs| - 1] + [Group(g.role, g.messages[..|g.messages| - 1])])
  {
    var g := gs[|gs| - 1];
    var init := gs[..|gs| - 1];
    var gs' := init + [Group(g.role, g.messages[..|g.messages| - 1])];
    forall i, j | 0 <= i < |gs'| && 0 <= j < |gs'[i].messages|
      ensures gs'[i].messages[j].role == gs'[i].role
    {
      if i < |init| { assert gs'[i] == gs[i]; }
    }
    forall i | 0 < i < |gs'| ensures gs'[i - 1].role != gs'[i].role {
      assert gs'[i - 1] == gs[i - 1];
    }
  }

  /** They are the only such cut: any well-grouped split of the history is `Groups`. */
  lemma {:induction false} GroupsUnique(h: seq<Message>, gs: seq<Group>)
    requires WellGrouped(gs) && Flatten(gs) == h
    ensures gs == Groups(h)
    decreases |h|
  {
    if |gs| > 0 {
      var g := gs[|gs| - 1];
      var init := gs[..|gs| - 1];
      if |g.messages| == 1 {
        LastAlone(gs);
        WellGroupedInit(gs);
        GroupsUnique(h[..|h| - 1], init);
      } else {
        var gs' := init + [Group(g.role, g.messages[..|g.messages| - 1])];
        LastJoins(gs);
        WellGroupedDropLast(gs);
        GroupsUnique(h[..|h| - 1], gs');
      }
    } else {
      assert h == [];
    }
  }

  /** A last group of one message is that message added to the groups before it. */
  lemma LastAlone(gs: seq<Group>)
    requires WellGrouped(gs) && |gs| > 0 && |gs[|gs| - 1].messages| == 1
    ensures var init, h := gs[..|gs| - 1], Flatten(gs);
      |h| > 0 && h[..|h| - 1] == Flatten(init) && gs == AddMessage(init, h[|h| - 1])
  {
    var g, init := gs[|gs| - 1], gs[..|gs| - 1];
    var m := g.messages[0];
    FrontAndLast(gs);
    FlattenSnoc(init, g);
    AppendParts(Flatten(init), g.messages);
    assert g.messages[..0] == [];
    EmptyRight(Flatten(init));
    if |init| > 0 {
      assert init[|init| - 1].role != g.role;
    }
    assert g.messages == [m];
  }

  /** A longer last group is its last message added to the groups with that message left out. */
  lemma LastJoins(gs: seq<Group>)
    requires WellGrouped(gs) && |gs| > 0 && |gs[|gs| - 1].messages| > 1
    ensures var g, init, h := gs[|gs| - 1], gs[..|gs| - 1], Flatten(gs);
      var gs' := init + [Group(g.role, g.messages[..|g.messages| - 1])];
      |h| > 0 && h[..|h| - 1] == Flatten(gs') && gs == AddMessage(gs', h[|h| - 1])
  {
    var g, init := gs[|gs| - 1], gs[..|gs| - 1];
    var g' := Group(g.role, g.messages[..|g.messages| - 1]);
    FrontAndLast(gs);
    FlattenSnoc(init, g);
    AppendParts(Flatten(init), g.messages);
    SnocParts(init, g');
    FlattenSnoc(init, g');
    FrontAndLast(g.messages);
  }

  /** The grouping loop of `refresh_display`. */
  method GroupMessages(h: seq<Message>) returns (gs: seq<Group>)
    ensures gs == Groups(h)
  {
    gs := [];
    var current: seq<Message> := [];
    var currentRole: Option<string> := None;
    for k := 0 to |h|
      invariant k == 0 ==> current == [] && currentRole == None && gs == []
      invariant k > 0 ==>
        currentRole == Some(h[k - 1].role) && |current| > 0 &&
        Groups(h[..k]) == gs + [Group(h[k - 1].role, current)]
    {
      var m := h[k];
      PrefixStep(h, k);
      ghost var before := Groups(h[..k]);
      assert Groups(h[..k + 1]) == AddMessage(before, m);
      if Some(m.role) != currentRole && |current| > 0 {
        assert before == gs + [Group(currentRole.value, current)];
        gs := gs + [Group(currentRole.value, current)];
        current := [];
        assert current + [m] == [m];
        assert AddMessage(before, m) == gs + [Group(m.role, current + [m])];
      } else if k > 0 {
        var g := Group(m.role, current);
        assert m.role == h[k - 1].role;
        assert before == gs + [g];
        assert before[..|before| - 1] == gs && before[|before| - 1] == g;
        assert AddMessage(before, m) == gs + [Group(m.role, current + [m])];
      } else {
        assert before == [] && gs == [] && current == [];
        assert current + [m] == [m];
        assert AddMessage(before, m) == [Group(m.role, [m])];
        assert AddMessage(before, m) == gs + [Group(m.role, current + [m])];
      }
      currentRole := Some(m.role);
      current := current + [m];
      assert Groups(h[..k + 1]) == gs + [Group(h[k].role, current)];
    }
    if |current| > 0 {
      assert h[..|h|] == h;
      gs := gs + [Group(currentRole.value, current)];
    }
  }

  // ------------------------------------------------- bubbles

  /** The position class of the `i`-th of `n` bubbles of a group. */
  function PositionClass(role: string, i: nat, n: nat): (r: string)
    ensures n == 1 ==> r == ""
    ensures n > 1 && i == 0 ==> r == role + "-bubble-first"
    ensures n > 1 && 0 < i && i == n - 1 ==> r == role + "-bubble-last"
    ensures n > 1 && 0 < i < n - 1 ==> r == role + "-bubble-middle"
  {
    if n == 1 then ""
    else if i == 0 then role + "-bubble-first"
    else if i == n - 1 then role + "-bubble-last"
    else role + "-bubble-middle"
  }

  /**
   * The time shown: "" for no timestamp, else `parse` of it (the
   * `fromisoformat` and `"%I:%M %p"` formatting), or the timestamp itself
   * where parsing raises.
   */
  function FormattedTime(parse: string -> Option<string>, timestamp: string): (r: string)
    ensures timestamp == "" ==> r == ""
    ensures timestamp != "" && parse(timestamp).None? ==> r == timestamp
  {
    if timestamp == "" then "" else parse(timestamp).GetOr(timestamp)
  }

  /** "user" bubbles and timestamps for the user's messages, assistant ones for any other role. */
  function Side(role: string): string {
    if role == "user" then "user" else "assistant"
  }

  function TimestampDiv(role: string, time: string): string {
    if role == "user" then "<div class=\"timestamp\">" + time + "</div>"
    else "<div class=\"timestamp assistant-timestamp\">" + time + "</div>"
  }

  /** A bubble; `format` is what the content goes through (`format_code_blocks`). */
  function BubbleDiv(format: string -> string, role: string, i: nat, n: nat, content: string): string {
    "<div class=\"message-bubble " + Side(role) + "-bubble " + PositionClass(role, i, n) + "\">" +
    format(content) + "</div>"
  }

  /** The parts of the `i`-th of `n` bubbles: the bubble, then the time after a group's last one. */
  function BubbleParts(format: string -> string, parse: string -> Option<string>, role: string, i: nat, n: nat, m: Message)
    : (r: seq<string>)
    ensures |r| > 0 && r[0] == BubbleDiv(format, role, i, n, m.content)
    ensures |r| == 2 <==> i == n - 1 && FormattedTime(parse, m.timestamp) != ""
    ensures |r| == 1 || |r| == 2
    ensures |r| == 2 ==> r[1] == TimestampDiv(role, FormattedTime(parse, m.timestamp))
  {
    var time := FormattedTime(parse, m.timestamp);
    [BubbleDiv(format, role, i, n, m.content)] + (if i == n - 1 && time != "" then [TimestampDiv(role, time)] else [])
  }

  /** The parts of the first `k` bubbles of a group. */
  function BubblesParts(format: string -> string, parse: string -> Option<string>, g: Group, k: nat): seq<string>
    requires k <= |g.messages|
    decreases k
  {
    if k == 0 then []
    else BubblesParts(format, parse, g, k - 1) + BubbleParts(format, parse, g.role, k - 1, |g.messages|, g.messages[k - 1])
  }

  function GroupOpen(role: string): string {
    if role == "user" then "<div class=\"message-group user-group\">"
    else "<div class=\"message-group assistant-group\">"
  }

  /** A group: its opening `div`, its bubbles, the closing `div`. */
  function GroupParts(format: string -> string, parse: string -> Option<string>, g: Group): seq<string> {
    [GroupOpen(g.role)] + BubblesParts(format, parse, g, |g.messages|) + ["</div>"]
  }

  /** The parts of all groups, in order. */
  function AllParts(format: string -> string, parse: string -> Option<string>, gs: seq<Group>): seq<string>
    decreases |gs|
  {
    if |gs| == 0 then [] else AllParts(format, parse, gs[..|gs| - 1]) + GroupParts(format, parse, gs[|gs| - 1])
  }

  /** A group's bubbles, one loop step per message. */
  method RenderGroup(format: string -> string, parse: string -> Option<string>, g: Group) returns (parts: seq<string>)
    ensures parts == GroupParts(format, parse, g)
  {
    parts := [GroupOpen(g.role)];
    var n := |g.messages|;
    for i := 0 to n
      invariant parts == [GroupOpen(g.role)] + BubblesParts(format, parse, g, i)
    {
      Assoc([GroupOpen(g.role)], BubblesParts(format, parse, g, i), BubbleParts(format, parse, g.role, i, n, g.messages[i]));
      parts := AddBubble(format, parse, g.role, i, n, g.messages[i], parts);
    }
    parts := parts + ["</div>"];
  }

  /** One message of a group: its bubble, and the time after the last one. */
  method AddBubble(format: string -> string, parse: string -> Option<string>, role: string, i: nat, n: nat, m: Message,
                   parts: seq<string>)
    returns (parts': seq<string>)
    ensures parts' == parts + BubbleParts(format, parse, role, i, n, m)
  {
    var time := FormattedTime(parse, m.timestamp);
    parts' := parts + [BubbleDiv(format, role, i, n, m.content)];
    if i == n - 1 && time != "" {
      Assoc(parts, [BubbleDiv(format, role, i, n, m.content)], [TimestampDiv(role, time)]);
      parts' := parts' + [TimestampDiv(role, time)];
    } else {
      EmptyRight([BubbleDiv(format, role, i, n, m.content)]);
    }
  }

  /** The groups' parts, one group after the other. */
  method RenderGroups(format: string -> string, parse: string -> Option<string>, gs: seq<Group>)
    returns (parts: seq<string>)
    ensures parts == AllParts(format, parse, gs)
  {
    parts := [];
    for k := 0 to |gs|
      invariant parts == AllParts(format, parse, gs[..k])
    {
      PrefixStep(gs, k);
      var groupParts := RenderGroup(format, parse, gs[k]);
      parts := parts + groupParts;
    }
    assert gs[..|gs|] == gs;
  }

  // ------------------------------------------------- the JavaScript embedding

  /** Backslash first, then backtick and dollar, each behind a backslash. */
  const JsTable: Escaping.Table := [('\\', "\\\\"), ('`', "\\`"), ('$', "\\$")]

  /** The text placed between the template literal's backticks. */
  function JsSafe(html: string): string {
    Replace(Replace(Replace(html, "\\", "\\\\"), "`", "\\`"), "$", "\\$")
  }

  /**
   * What a JavaScript template literal with body `s` stands for, for the
   * escapes `\\`, `` \` `` and `\$`; other characters stand for themselves.
   */
  function TemplateValue(s: string): string
    decreases |s|
  {
    if |s| == 0 then ""
    else if |s| >= 2 && s[0] == '\\' && s[1] in {'\\', '`', '$'} then [s[1]] + TemplateValue(s[2..])
    else [s[0]] + TemplateValue(s[1..])
  }

  /** The chained replacements are one escape of each special character. */
  lemma JsSafeIsEscape(html: string)
    ensures JsSafe(html) == Escaping.Escape(html, JsTable)
  {
    var a := Replace(html, "\\", "\\\\");
    var b := Replace(a, "`", "\\`");
    ReplaceCharIsMap(html, '\\', "\\\\");
    ReplaceCharIsMap(a, '`', "\\`");
    ReplaceCharIsMap(b, '$', "\\$");
    assert JsSafe(html) == Escaping.Chain(html, JsTable) by {
      assert JsTable[1..][1..][1..] == [];
    }
    Escaping.ChainIsEscape(html, JsTable);
  }

  lemma {:induction false} TemplateValueOfEscape(s: string)
    ensures TemplateValue(Escaping.Escape(s, JsTable)) == s
    decreases |s|
  {
    if |s| > 0 {
      var rest := Escaping.Escape(s[1..], JsTable);
      var head := Escaping.EscapeChar(s[0], JsTable);
      TemplateValueOfEscape(s[1..]);
      if s[0] == '\\' || s[0] == '`' || s[0] == '$' {
        assert |head| == 2 && head[0] == '\\' && head[1] == s[0];
      } else {
        assert head == [s[0]];
      }
      DropFront(head, rest);
    }
  }

  /** The page's template reads the HTML back exactly: nothing ends it early or is interpolated. */
  lemma JsSafeRoundTrip(html: string)
    ensures TemplateValue(JsSafe(html)) == html
  {
    JsSafeIsEscape(html);
    TemplateValueOfEscape(html);
  }

  // ------------------------------------------------- refresh

  /** The template text `refresh_display` produces, and `None` for an empty history. */
  function RefreshText(e: Regex.Engine, parse: string -> Option<string>, h: seq<Message>): Option<string> {
    if |h| == 0 then None else Some(JsSafe(Join("\n", AllParts(Format(e), parse, Groups(h)))))
  }

  /** `format_code_blocks` with the matcher fixed. */
  function Format(e: Regex.Engine): string -> string {
    content => FormatCodeBlocks(e, content)
  }

  /**
   * `refresh_display(chat_history)`: nothing for an empty history; else the
   * groups' parts joined by newlines and escaped for the template.
   */
  method RefreshDisplay(e: Regex.Engine, parse: string -> Option<string>, h: seq<Message>)
    returns (r: Option<string>)
    ensures r == RefreshText(e, parse, h)
    ensures r.None? <==> |h| == 0
    ensures r.Some? ==> TemplateValue(r.value) == Join("\n", AllParts(Format(e), parse, Groups(h)))
  {
    if |h| == 0 {
      return None;
    }
    var gs := GroupMessages(h);
    var parts := RenderGroups(Format(e), parse, gs);
    var html := Join("\n", parts);
    JsSafeRoundTrip(html);
    r := Some(JsSafe(html));
  }

  // ------------------------------------------------- code blocks

  const CodeBlockPattern := Regex.Pattern(@"```([a-zA-Z0-9]*)\n([\s\S]*?)\n```", false)
  const InlineCodePattern := Regex.Pattern(@"`([^`]+)`", false)

  /** `&` first, then `<`, `>` and `"`. */
  const CodeTable: Escaping.Table := [('&', "&amp;"), ('<', "&lt;"), ('>', "&gt;"), ('"', "&quot;")]

  function EscapeCode(code: string): string {
    Replace(Replace(Replace(Replace(code, "&", "&amp;"), "<", "&lt;"), ">", "&gt;"), "\"", "&quot;")
  }

  lemma CodeTableOrdered()
    ensures Escaping.Ordered(CodeTable)
  {
  }

  /** The chained replacements escape each special character once. */
  lemma EscapeCodeIsEscape(code: string)
    ensures EscapeCode(code) == Escaping.Escape(code, CodeTable)
  {
    var a := Replace(code, "&", "&amp;");
    var b := Replace(a, "<", "&lt;");
    var c := Replace(b, ">", "&gt;");
    ReplaceCharIsMap(code, '&', "&amp;");
    ReplaceCharIsMap(a, '<', "&lt;");
    ReplaceCharIsMap(b, '>', "&gt;");
    ReplaceCharIsMap(c, '"', "&quot;");
    assert EscapeCode(code) == Escaping.Chain(code, CodeTable) by {
      assert CodeTable[1..][1..][1..][1..] == [];
    }
    CodeTableOrdered();
    Escaping.ChainIsEscape(code, CodeTable);
  }

  lemma CodeTableReplacements()
    ensures CodeTable[1].0 == '<' && CodeTable[2].0 == '>' && CodeTable[3].0 == '"'
    ensures forall i :: 0 <= i < |CodeTable| ==> '<' !in CodeTable[i].1 && '>' !in CodeTable[i].1 && '"' !in CodeTable[i].1
  {
  }

  /** No `<`, `>` or `"` is left in escaped code. */
  lemma EscapedCodeIsInert(code: string)
    ensures '<' !in EscapeCode(code) && '>' !in EscapeCode(code) && '"' !in EscapeCode(code)
  {
    EscapeCodeIsEscape(code);
    CodeTableReplacements();
    Escaping.EscapeAvoids(code, CodeTable, '<');
    Escaping.EscapeAvoids(code, CodeTable, '>');
    Escaping.EscapeAvoids(code, CodeTable, '"');
  }

  /** The name shown for a block: the fence's language, or "text" when it has none. */
  function Language(m: Regex.Match): (r: string)
    ensures r != ""
    ensures Regex.Text(m, 1) != "" ==> r == Regex.Text(m, 1)
  {
    var l := Regex.Text(m, 1);
    if l == "" then "text" else l
  }

  /** The replacement of a fenced block. */
  function CodeBlockHtml(m: Regex.Match): string {
    var language := Language(m);
    "\n            <div class=\"code-block\">\n                <div class=\"code-header\">" + language +
    "</div>\n                <pre class=\"code-content\"><code class=\"" + language + "\">" +
    EscapeCode(Regex.Text(m, 2)) + "</code></pre>\n            </div>\n            "
  }

  /**
   * `format_code_blocks(content)`: fenced blocks replaced, inline code
   * wrapped in `<code>`, then every newline made `<br>`.
   */
  function FormatCodeBlocks(e: Regex.Engine, content: string): (r: string)
    ensures '\n' !in r
  {
    var blocks := Regex.SubWith(content, e.findAll(CodeBlockPattern, content), CodeBlockHtml);
    var inline := e.sub(InlineCodePattern, @"<code>\1</code>", blocks);
    ReplaceCharIsMap(inline, '\n', "<br>");
    Replace(inline, "\n", "<br>")
  }
}
