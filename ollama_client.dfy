/**
 * The local Ollama client: the intent read from the user's prompt, the
 * free-length fallback and the prompt suffixes, the extraction of a
 * command sequence from a reply, the outcome the worker reports, and the
 * client's bounded chat memory and argument defaulting.
 */
module OllamaClient {
  import opened Wrappers
  import opened PyStr
  import opened Values
  import opened ApiText
  import Regex
  import TogetherClient

  const DefaultModel: string := "spring-assistant-complete"
  const DefaultTemperature: Value := Real(F(0.5, "0.5"))
  const DefaultMaxRetries: Value := Int(3)

  // ------------------------------------------------- intent

  datatype Intent = GenerateTestSequence | AnalyzeWithSequence | GeneralConversation

  /** `any(k in text for k in keywords)`. */
  predicate AnyIn(text: string, keywords: seq<string>) {
    exists i :: 0 <= i < |keywords| && Contains(text, keywords[i])
  }

  const SequenceKeywords: seq<string> := ["generate", "create", "make", "build", "produce"]
  const AnalysisKeywords: seq<string> := ["analyze", "compare", "evaluate", "assess", "review"]

  /** The direct-request pattern, searched in the lower-cased prompt. */
  const DirectRequest: Regex.Pattern := Regex.Pattern("(generate|create)\\s+.{0,20}?(test\\s+sequence|sequence)", false)

  /**
   * The intent flag of a prompt. The keyword tests run on the lower-cased
   * prompt in order; a third test for question words sets the flag to the
   * value it already has, so it has no effect; a direct request found by
   * the pattern forces the generation intent whatever came before.
   */
  function ClassifyIntent(e: Regex.Engine, prompt: string): (r: Intent)
    ensures var p := Lower(prompt);
      r == GenerateTestSequence <==>
        (AnyIn(p, SequenceKeywords) && Contains(p, "sequence")) || e.search(DirectRequest, p).Some?
    ensures var p := Lower(prompt);
      r == AnalyzeWithSequence <==>
        !(AnyIn(p, SequenceKeywords) && Contains(p, "sequence")) && e.search(DirectRequest, p).None? &&
        AnyIn(p, AnalysisKeywords)
  {
    var p := Lower(prompt);
    var flag :=
      if AnyIn(p, SequenceKeywords) && Contains(p, "sequence") then GenerateTestSequence
      else if AnyIn(p, AnalysisKeywords) then AnalyzeWithSequence
      else GeneralConversation;
    if e.search(DirectRequest, p).Some? then GenerateTestSequence else flag
  }

  /** Lower-casing twice is lower-casing once. */
  lemma LowerIdempotent(s: string)
    ensures Lower(Lower(s)) == Lower(s)
  {
    var l := Lower(s);
    assert forall i :: 0 <= i < |s| ==> LowerChar(l[i]) == l[i];
  }

  /** The intent does not depend on the case of the prompt. */
  lemma IntentIgnoresCase(e: Regex.Engine, prompt: string)
    ensures ClassifyIntent(e, Lower(prompt)) == ClassifyIntent(e, prompt)
  {
    LowerIdempotent(prompt);
  }

  /** A prompt naming neither a sequence keyword with "sequence", nor an analysis word, nor a direct request, is conversation. */
  lemma ConversationByDefault(e: Regex.Engine, prompt: string)
    requires !AnyIn(Lower(prompt), SequenceKeywords) && !AnyIn(Lower(prompt), AnalysisKeywords)
    requires e.search(DirectRequest, Lower(prompt)).None?
    ensures ClassifyIntent(e, prompt) == GeneralConversation
  {
  }

  // ------------------------------------------------- free length and prompt suffixes

  const NotProvided: Value := Str("Not provided")

  /**
   * `parameters.get('Free Length', 'Not provided')`, and when that is the
   * placeholder, the `str()` of `free_length_mm` of a dictionary stored
   * under `spring_specification`.
   */
  function FreeLengthValue(params: Dict<Value>): (r: Value)
    ensures Get(params, "Free Length").Some? && Get(params, "Free Length").value != NotProvided ==>
      r == Get(params, "Free Length").value
    ensures Get(params, "Free Length").None? && Get(params, "spring_specification").None? ==> r == NotProvided
  {
    var v := GetOr(params, "Free Length", NotProvided);
    var stored := Get(params, "spring_specification");
    var fromSpec := if stored.Some? && stored.value.Obj? then Get(stored.value.entries, "free_length_mm") else None;
    if v == NotProvided && fromSpec.Some? then Str(ToText(fromSpec.value)) else v
  }

  /** Without a `Free Length` entry, a stored specification dictionary supplies the text of its free length. */
  lemma FreeLengthFromSpecification(params: Dict<Value>, spec: Dict<Value>, x: Value)
    requires Get(params, "Free Length").None?
    requires Get(params, "spring_specification") == Some(Obj(spec)) && Get(spec, "free_length_mm") == Some(x)
    ensures FreeLengthValue(params) == Str(ToText(x))
  {
  }

  /** The explicit free-length sentence, added only for a generation request with a known free length. */
  function FreeLengthInfo(intent: Intent, freeLength: Value): (r: string)
    ensures r != "" <==> intent == GenerateTestSequence && freeLength != NotProvided
  {
    if intent == GenerateTestSequence && freeLength != NotProvided then
      "\n\nFREE_LENGTH_INFO: The spring's free length is " + ToText(freeLength) +
      " mm. This is a required specification that has been provided."
    else ""
  }

  /** `f"This should be a {test_type} test sequence."` when a `Test Type` is given. */
  function TestTypeText(params: Dict<Value>): (r: string)
    ensures Get(params, "Test Type").None? ==> r == ""
    ensures Get(params, "Test Type").Some? ==>
      r == "This should be a " + ToText(Get(params, "Test Type").value) + " test sequence."
  {
    match Get(params, "Test Type")
    case None => ""
    case Some(t) => "This should be a " + ToText(t) + " test sequence."
  }

  /** The values the prompt template is filled with. */
  datatype PromptFields = PromptFields(
    parameterText: string, testTypeText: string, prompt: string, freeLength: string,
    intent: Intent, firstSpeed: string, secondSpeed: string)

  /** The template fields of a request: the speeds default to `"50"`. */
  function Fields(e: Regex.Engine, params: Dict<Value>, prompt: string): (f: PromptFields)
    ensures f.intent == ClassifyIntent(e, prompt)
    ensures f.parameterText == Join("\n", ParameterLines(params))
    ensures Get(params, "First Speed").None? ==> f.firstSpeed == "50"
    ensures Get(params, "Second Speed").None? ==> f.secondSpeed == "50"
  {
    PromptFields(Join("\n", ParameterLines(params)), TestTypeText(params), prompt,
      ToText(FreeLengthValue(params)), ClassifyIntent(e, prompt),
      ToText(GetOr(params, "First Speed", Str("50"))), ToText(GetOr(params, "Second Speed", Str("50"))))
  }

  /** The user prompt: the filled template, the free-length sentence, then the recent chat memory. */
  function UserPrompt(render: PromptFields -> string, e: Regex.Engine, params: Dict<Value>, prompt: string,
                      memory: seq<string>): (r: string)
    ensures |memory| == 0 && (ClassifyIntent(e, prompt) != GenerateTestSequence || FreeLengthValue(params) == NotProvided) ==>
      r == render(Fields(e, params, prompt))
  {
    render(Fields(e, params, prompt)) + FreeLengthInfo(ClassifyIntent(e, prompt), FreeLengthValue(params)) +
    PreviousContext(memory)
  }

  // ------------------------------------------------- command sequence extraction

  /**
   * The text `extract_command_sequence` hands to the JSON parser before
   * the fence check: between the two markers when both occur and the end
   * marker lies past the start marker's end, otherwise from the first `[`
   * to the last `]`, otherwise the whole text.
   */
  function CommandContent(text: string): string {
    if Contains(text, StartMarker) && Contains(text, EndMarker) then MarkedContent(text, StartMarker, EndMarker) else BracketedContent(text)
  }

  /**
   * The marked part of a text holding both markers, stripped, when the
   * end marker lies past the start marker's end; otherwise the whole text.
   */
  function MarkedContent(text: string, start: string, end: string): string {
    var span := Span(text, Find(text, start), |start|, Find(text, end));
    if span.Some? then Strip(span.value) else text
  }

  /**
   * `text[p + n:j]` when `0 <= p + n < j` (`j` never passes the end here);
   * `p` is where the start marker was found and `n` its length.
   */
  function Span(text: string, p: int, n: nat, j: int): Option<string> {
    var i := p + n;
    if i >= 0 && j > i && j <= |text| then Some(text[i..j]) else None
  }

  /** From the first `[` to the last `]`, when such a span exists. */
  function BracketedContent(text: string): string {
    var jsonStart := Find(text, "[");
    var jsonEnd := RFind(text, "]") + 1;
    if jsonStart >= 0 && jsonEnd > jsonStart then text[jsonStart..jsonEnd] else text
  }

  /** `content[3:-3].strip()` for fenced content; Python's slice is empty for fewer than six characters. */
  function Unfenced(content: string): (r: string)
    ensures !(StartsWith(content, "```") && EndsWith(content, "```")) ==> r == content
    ensures StartsWith(content, "```") && EndsWith(content, "```") && |content| < 6 ==> r == ""
  {
    if StartsWith(content, "```") && EndsWith(content, "```") then
      if |content| >= 6 then Strip(content[3..|content| - 3]) else ""
    else content
  }

  /** A fence pair around any text leaves the stripped text. */
  lemma UnfencedOfFence(x: string)
    ensures Unfenced("```" + x + "```") == Strip(x)
  {
    var c := "```" + x + "```";
    assert c[..3] == "```" && c[|c| - 3..] == "```";
    assert c[3..|c| - 3] == x;
  }

  /** `extract_command_sequence`: the parsed content, or `{}` when the parser rejects it. */
  function ExtractCommandSequence(json: string -> Option<Value>, text: string): (r: Value)
    ensures json(Unfenced(CommandContent(text))).None? ==> r == Obj([])
    ensures json(Unfenced(CommandContent(text))).Some? ==> r == json(Unfenced(CommandContent(text))).value
  {
    match json(Unfenced(CommandContent(text)))
    case Some(v) => v
    case None => Obj([])
  }

  /**
   * A reply laid out as `a`, start marker, `b`, end marker, `c`, with the
   * start marker first found after `a` and the end marker first found
   * after `b`: the content is `b` stripped, or the whole reply when `b` is
   * empty (the end marker then starts where the start marker ends).
   */
  lemma CommandContentOfMarkers(a: string, b: string, c: string)
    requires !Contains(a + StartMarker[..|StartMarker| - 1], StartMarker)
    requires !Contains(a + StartMarker + b + EndMarker[..|EndMarker| - 1], EndMarker)
    ensures var text := a + StartMarker + b + EndMarker + c;
      CommandContent(text) == if |b| > 0 then Strip(b) else text
  {
    LayoutFinds(a, StartMarker, b, EndMarker, c);
    MarkedContentOfLayout(a, StartMarker, b, EndMarker, c);
  }

  /** The same for any two markers, once their first occurrences are known. */
  lemma MarkedContentOfLayout(a: string, start: string, b: string, end: string, c: string)
    requires Find(a + start + b + end + c, start) == |a|
    requires Find(a + start + b + end + c, end) == |a| + |start| + |b|
    ensures MarkedContent(a + start + b + end + c, start, end) == if |b| > 0 then Strip(b) else a + start + b + end + c
  {
    SpanOfLayout(a, start, b, end, c);
  }

  /** The span between the markers of such a layout: `b`, unless it is empty. */
  lemma SpanOfLayout(a: string, start: string, b: string, end: string, c: string)
    requires Find(a + start + b + end + c, start) == |a|
    requires Find(a + start + b + end + c, end) == |a| + |start| + |b|
    ensures var text := a + start + b + end + c;
      Span(text, Find(text, start), |start|, Find(text, end)) == if |b| > 0 then Some(b) else None
  {
    if |b| > 0 {
      MiddleSlice(a, start, b, end, c);
    }
  }

  /** The first occurrences of the two markers in such a layout. */
  lemma LayoutFinds(a: string, start: string, b: string, end: string, c: string)
    requires |start| > 0 && |end| > 0
    requires !Contains(a + start[..|start| - 1], start)
    requires !Contains(a + start + b + end[..|end| - 1], end)
    ensures Find(a + start + b + end + c, start) == |a|
    ensures Find(a + start + b + end + c, end) == |a| + |start| + |b|
  {
    assert a + start + b + end + c == a + start + (b + end + c);
    FindAfter(a, start, b + end + c);
    FindAfter(a + start + b, end, c);
  }

  lemma MiddleSlice(p: string, q: string, b: string, r: string, t: string)
    ensures (p + q + b + r + t)[|p| + |q|..|p| + |q| + |b|] == b
  {
    var s := p + q + b + r + t;
    assert forall i :: 0 <= i < |b| ==> s[|p| + |q| + i] == b[i];
  }

  /** The last occurrence of a character is the one its suffix lacks. */
  lemma RFindLast(x: string, c: char, z: string)
    requires c !in z
    ensures RFind(x + [c] + z, [c]) == |x|
  {
    var s := x + [c] + z;
    assert s[|x|..|x| + 1] == [c];
    assert At(s, [c], |x|);
    forall i | |x| < i ensures !At(s, [c], i) {
      assert i >= |s| || s[i] == z[i - |x| - 1];
    }
  }

  /** Without both markers, a reply holding one bracketed span is cut to that span. */
  lemma CommandContentOfBrackets(a: string, m: string, z: string)
    requires '[' !in a && ']' !in z
    requires !Contains(a + "[" + m + "]" + z, StartMarker) || !Contains(a + "[" + m + "]" + z, EndMarker)
    ensures CommandContent(a + "[" + m + "]" + z) == "[" + m + "]"
  {
    var text := a + "[" + m + "]" + z;
    assert text == a + "[" + (m + "]" + z);
    FirstCharAbsent(a, "[");
    FindAfter(a, "[", m + "]" + z);
    assert text == (a + "[" + m) + [']'] + z;
    RFindLast(a + "[" + m, ']', z);
    assert text[|a|..|a| + |m| + 2] == "[" + m + "]";
  }

  // ------------------------------------------------- outcome of a reply

  /** What the worker reports once the request loop is over. */
  datatype Outcome =
    | Failed(error: string)
    | Sequence(items: seq<Value>, originalResponse: string)
    | Chat(row: Dict<Value>)

  /**
   * No reply text: the last request error, or the fixed message. A non-empty
   * list extracted from the reply is the sequence; anything else makes the
   * reply a CHAT row with the six other columns empty.
   */
  function ReplyOutcome(json: string -> Option<Value>, responseText: string, errorMessage: string): (o: Outcome)
    ensures o.Failed? <==> responseText == ""
    ensures o.Failed? ==> |o.error| > 0 && (errorMessage != "" ==> o.error == errorMessage)
    ensures o.Sequence? ==> |o.items| > 0 && o.originalResponse == responseText
    ensures o.Chat? ==> o.row == TogetherClient.ChatRow(responseText)
  {
    if responseText == "" then
      Failed(if errorMessage != "" then errorMessage else "No response received from Ollama")
    else
      match ExtractCommandSequence(json, responseText)
      case List(items) =>
        if |items| > 0 then Sequence(items, responseText) else Chat(TogetherClient.ChatRow(responseText))
      case _ => Chat(TogetherClient.ChatRow(responseText))
  }

  /** A reply the parser rejects is a chat reply holding the whole text. */
  lemma UnparsedReplyIsChat(json: string -> Option<Value>, responseText: string, errorMessage: string)
    requires responseText != "" && json(Unfenced(CommandContent(responseText))).None?
    ensures ReplyOutcome(json, responseText, errorMessage) == Chat(TogetherClient.ChatRow(responseText))
  {
  }

  /** A reply whose content parses as a non-empty list is that sequence. */
  lemma ParsedListIsSequence(json: string -> Option<Value>, responseText: string, errorMessage: string, items: seq<Value>)
    requires responseText != "" && json(Unfenced(CommandContent(responseText))) == Some(List(items)) && |items| > 0
    ensures ReplyOutcome(json, responseText, errorMessage) == Sequence(items, responseText)
  {
  }

  // ------------------------------------------------- the client

  /** `value or default`. */
  function Or(value: Value, default: Value): (r: Value)
    ensures Truthy(value) ==> r == value
    ensures !Truthy(value) ==> r == default
  {
    if Truthy(value) then value else default
  }

  /** An explicit zero temperature, or none, gives the default. */
  lemma ZeroTemperatureIsReplaced(text: string)
    ensures Or(Real(F(0.0, text)), DefaultTemperature) == DefaultTemperature
    ensures Or(Null, DefaultTemperature) == DefaultTemperature
  {
  }

  /** The settings a worker is started with. */
  datatype WorkerArgs = WorkerArgs(model: Value, temperature: Value, maxRetries: Value)

  /** One recorded request payload (its timestamp is not modelled). */
  datatype Request = Request(model: Value, prompt: string, temperature: Value)

  class OllamaApiClient {
    var model: Value
    var temperature: Value
    var maxRetries: Value
    var chatMemory: seq<string>
    var requestHistory: seq<Request>

    constructor(model: Value := Str(DefaultModel), temperature: Value := DefaultTemperature,
                maxRetries: Value := DefaultMaxRetries)
      ensures this.model == model && this.temperature == temperature && this.maxRetries == maxRetries
      ensures chatMemory == [] && requestHistory == []
    {
      this.model := model;
      this.temperature := temperature;
      this.maxRetries := maxRetries;
      chatMemory := [];
      requestHistory := [];
    }

    /** `add_to_chat_memory`: append, then keep the ten most recent messages. */
    method AddToChatMemory(message: string)
      modifies this
      ensures chatMemory == KeepLast(old(chatMemory) + [message], 10)
      ensures |chatMemory| <= 10 && chatMemory[|chatMemory| - 1] == message
      ensures model == old(model) && temperature == old(temperature) && maxRetries == old(maxRetries)
      ensures requestHistory == old(requestHistory)
    {
      var m := chatMemory + [message];
      KeepLastKeepsNewest(m, 10);
      if |m| > 10 {
        m := m[|m| - 10..];
      }
      chatMemory := m;
    }

    /** The worker settings of `generate_sequence_async`: each falsy argument gives way to the client's own. */
    method WorkerSettings(model: Value, temperature: Value, maxRetries: Value) returns (w: WorkerArgs)
      ensures w == WorkerArgs(Or(model, this.model), Or(temperature, this.temperature), Or(maxRetries, this.maxRetries))
    {
      var actualModel := if Truthy(model) then model else this.model;
      var actualTemperature := if Truthy(temperature) then temperature else this.temperature;
      var actualMaxRetries := if Truthy(maxRetries) then maxRetries else this.maxRetries;
      w := WorkerArgs(actualModel, actualTemperature, actualMaxRetries);
    }

    /**
     * One worker run: the prompt is built and its payload recorded, then
     * the reply the request loop obtained (or the error it last saw) is
     * turned into the outcome.
     */
    method Run(w: WorkerArgs, render: PromptFields -> string, e: Regex.Engine, json: string -> Option<Value>,
               params: Dict<Value>, prompt: string, responseText: string, errorMessage: string) returns (o: Outcome)
      modifies this
      ensures requestHistory == old(requestHistory) + [Request(w.model, UserPrompt(render, e, params, prompt, old(chatMemory)), w.temperature)]
      ensures o == ReplyOutcome(json, responseText, errorMessage)
      ensures chatMemory == old(chatMemory) && model == old(model) && temperature == old(temperature)
      ensures maxRetries == old(maxRetries)
    {
      var userPrompt := render(Fields(e, params, prompt));
      userPrompt := userPrompt + FreeLengthInfo(ClassifyIntent(e, prompt), FreeLengthValue(params));
      userPrompt := userPrompt + PreviousContext(chatMemory);
      requestHistory := requestHistory + [Request(w.model, userPrompt, w.temperature)];
      o := ReplyOutcome(json, responseText, errorMessage);
    }
  }
}
