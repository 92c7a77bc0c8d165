/**
 * The Together.ai client: what the worker does with a reply once it has
 * one. The reply is cleaned of markdown fences, split at the sequence
 * markers into conversation and sequence text, the sequence text is read
 * as JSON or else as bracketed rows, the columns are put in the fixed
 * seven-column order, and the conversation becomes a leading CHAT row.
 * The client keeps the last ten parameter listings as its chat memory.
 *
 * A data frame is a list of row dictionaries. `json.loads` followed by
 * `pd.DataFrame` is the parameter `json`, which gives `None` when the
 * text is not valid JSON.
 */
module TogetherClient {
  import opened Wrappers
  import opened PyStr
  import opened Values
  import opened ApiText
  import opened RowCodec

  type Frame = seq<Dict<Value>>

  // ------------------------------------------------- the reply text

  /** `response_text.replace("```json", "").replace("```", "").strip()`. */
  function CleanReply(reply: string): string {
    Strip(Replace(Replace(reply, "```json", ""), "```", ""))
  }

  /** A reply without backticks is only stripped. */
  lemma CleanReplyOfPlain(reply: string)
    requires '`' !in reply
    ensures CleanReply(reply) == Strip(reply)
  {
    CharAbsent(reply, "```json");
    ReplaceAbsent(reply, "```json", "");
    CharAbsent(reply, "```");
    ReplaceAbsent(reply, "```", "");
  }

  /** The two halves of a hybrid reply. */
  datatype Hybrid = Hybrid(conversation: string, sequenceText: string)

  /**
   * The split of a reply holding both markers: the text before the first
   * start marker, and after it the text up to the next end marker; any
   * text after that end marker is added to the conversation.
   */
  function HybridSplit(text: string): (h: Hybrid)
    requires Contains(text, StartMarker) && Contains(text, EndMarker)
    ensures Trimmed(h.sequenceText)
  {
    var parts := Split(text, StartMarker);
    var conversation := Strip(parts[0]);
    var seqParts := Split(parts[1], EndMarker);
    var after := if |seqParts| > 1 then Strip(seqParts[1]) else "";
    Hybrid(if |after| > 0 then conversation + "\n\n" + after else conversation, Strip(seqParts[0]))
  }

  /**
   * A reply laid out as conversation, start marker, rows, end marker and
   * closing text splits back into those parts: the rows, stripped, are the
   * sequence text, and the conversation is the stripped opening text
   * followed, when there is one, by the stripped closing text.
   */
  lemma HybridSplitOfLayout(a: string, b: string, c: string)
    requires MarkedLayout(a, b, c)
    ensures Contains(a + StartMarker + (b + EndMarker + c), StartMarker)
    ensures Contains(a + StartMarker + (b + EndMarker + c), EndMarker)
    ensures HybridSplit(a + StartMarker + (b + EndMarker + c)) ==
      Hybrid(if |Strip(c)| > 0 then Strip(a) + "\n\n" + Strip(c) else Strip(a), Strip(b))
  {
    var text := a + StartMarker + (b + EndMarker + c);
    MarkedLayoutFinds(a, b, c);
    var rest := b + EndMarker + c;
    assert text[|a| + |StartMarker|..] == rest;
    assert text == (a + StartMarker) + rest;
    assert At(rest, EndMarker, |b|);
    assert rest[|b|..|b| + |EndMarker|] == text[|a| + |StartMarker| + |b|..|a| + |StartMarker| + |b| + |EndMarker|];
    assert At(text, EndMarker, |a| + |StartMarker| + |b|);
  }

  // ------------------------------------------------- bracketed rows

  /** `line.startswith('[') and line.endswith(']')`. */
  predicate IsRowLine(line: string) {
    |line| > 0 && line[0] == '[' && line[|line| - 1] == ']'
  }

  /** `line[1:-1]`. */
  function Inner(line: string): (r: string)
    requires IsRowLine(line)
    ensures "[" + r + "]" == line
  {
    line[1..|line| - 1]
  }

  /** The seven column names are distinct. */
  lemma ColumnsDistinct()
    ensures Distinct(Columns)
  {
  }

  /** The cells as Python strings. */
  function Strs(cells: seq<string>): (vs: seq<Value>)
    ensures |vs| == |cells| && forall j :: 0 <= j < |cells| ==> vs[j] == Str(cells[j])
  {
    seq(|cells|, j requires 0 <= j < |cells| => Str(cells[j]))
  }

  /** The row dictionary of seven cells, keyed by the seven columns in order. */
  function RowDict(cells: seq<string>): (d: Dict<Value>)
    requires |cells| == 7
    ensures Keys(d) == Columns && DistinctKeys(d)
    ensures forall j :: 0 <= j < 7 ==> d[j] == (Columns[j], Str(cells[j]))
  {
    var vs := Strs(cells);
    ZipKeys(Columns, vs);
    ColumnsDistinct();
    Zip(Columns, vs)
  }

  /** The row a text line gives, if it is a bracketed row once stripped. */
  function LineRow(line: string, fixed: bool): (rows: seq<Dict<Value>>)
    ensures |rows| <= 1 && Keyed(rows)
  {
    var l := Strip(line);
    if IsRowLine(l) then [RowDict(Padded(Cells(Inner(l), fixed)))] else []
  }

  /** Every row is keyed by the seven columns. */
  predicate Keyed(rows: Frame) {
    forall i :: 0 <= i < |rows| ==> Keys(rows[i]) == Columns
  }

  lemma KeyedAppend(a: Frame, b: Frame)
    requires Keyed(a) && Keyed(b)
    ensures Keyed(a + b)
  {
    forall i | 0 <= i < |a + b| ensures Keys((a + b)[i]) == Columns {
      if i >= |a| {
        assert (a + b)[i] == b[i - |a|];
      }
    }
  }

  /** The rows of the bracketed lines, in order; other lines are ignored. */
  function LineRows(lines: seq<string>, fixed: bool): (rows: Frame)
    ensures |rows| <= |lines|
    ensures forall i :: 0 <= i < |rows| ==> Keys(rows[i]) == Columns
    decreases |lines|
  {
    if |lines| == 0 then []
    else
      var front, row := LineRows(lines[..|lines| - 1], fixed), LineRow(lines[|lines| - 1], fixed);
      KeyedAppend(front, row);
      front + row
  }

  /** `text.strip().split('\n')` read line by line. */
  function CustomRows(text: string, fixed: bool): Frame {
    LineRows(Split(Strip(text), "\n"), fixed)
  }

  /** The custom-format parser with the splitter as written. */
  method ParseCustomRows(text: string) returns (rows: Frame)
    ensures rows == CustomRows(text, false)
  {
    rows := ParseRowLines(Split(Strip(text), "\n"));
  }

  /** The loop over the lines: each bracketed line is split, padded and keyed. */
  method ParseRowLines(lines: seq<string>) returns (rows: Frame)
    ensures rows == LineRows(lines, false)
  {
    rows := [];
    var k := 0;
    while k < |lines|
      invariant 0 <= k <= |lines| && rows == LineRows(lines[..k], false)
    {
      var row := ParseLineRow(lines[k]);
      LineRowsStep(lines, k, false);
      rows := rows + row;
      k := k + 1;
    }
    assert lines[..k] == lines;
  }

  /** One line of the loop: a bracketed line is split, padded and keyed; any other gives no row. */
  method ParseLineRow(text: string) returns (row: seq<Dict<Value>>)
    ensures row == LineRow(text, false)
  {
    var line := Strip(text);
    if IsRowLine(line) {
      var cells := ParseRow(Inner(line));
      cells := PadToSeven(cells);
      row := [RowDict(cells)];
    } else {
      row := [];
    }
  }

  lemma LineRowsStep(lines: seq<string>, k: nat, fixed: bool)
    requires k < |lines|
    ensures LineRows(lines[..k + 1], fixed) == LineRows(lines[..k], fixed) + LineRow(lines[k], fixed)
  {
    PrefixStep(lines, k);
  }

  // ------------------------------------------------- the column fix-ups

  predicate HasColumn(f: Frame, c: string) {
    exists i :: 0 <= i < |f| && HasKey(f[i], c)
  }

  function RenameKey(d: Dict<Value>, from: string, to: string): (r: Dict<Value>)
    ensures |r| == |d|
  {
    seq(|d|, i requires 0 <= i < |d| => if d[i].0 == from then (to, d[i].1) else d[i])
  }

  /** `df.rename(columns={from: to})` when `from` is a column and `to` is not. */
  function RenameColumn(f: Frame, from: string, to: string): (r: Frame)
    ensures |r| == |f|
  {
    if HasColumn(f, from) && !HasColumn(f, to) then
      seq(|f|, i requires 0 <= i < |f| => RenameKey(f[i], from, to))
    else f
  }

  /**
   * A cell after the fix-ups: a column no row has is added filled with
   * `""`; a row missing a column other rows have holds NaN (`Null`).
   */
  function FrameCell(f: Frame, row: Dict<Value>, col: string): Value {
    if HasColumn(f, col) then GetOr(row, col, Null) else Str("")
  }

  /**
   * The `Cmd` and `Speed` renames, the added missing columns and
   * `df[required_columns]`: every row has exactly the seven columns.
   */
  function Normalize(f: Frame): (r: Frame)
    ensures |r| == |f|
    ensures forall i :: 0 <= i < |r| ==> Keys(r[i]) == Columns && DistinctKeys(r[i])
  {
    var g := RenameColumn(RenameColumn(f, "Cmd", "CMD"), "Speed", "Speed rpm");
    seq(|g|, i requires 0 <= i < |g| => NormalRow(g, g[i]))
  }

  /** One row of `df[required_columns]` after the missing columns are added. */
  function NormalRow(g: Frame, row: Dict<Value>): (d: Dict<Value>)
    ensures Keys(d) == Columns && DistinctKeys(d)
    ensures forall j :: 0 <= j < 7 ==> d[j] == (Columns[j], FrameCell(g, row, Columns[j]))
  {
    var cells := seq(7, j requires 0 <= j < 7 => FrameCell(g, row, Columns[j]));
    ZipKeys(Columns, cells);
    ColumnsDistinct();
    Zip(Columns, cells)
  }

  /** Rows that already have the seven columns, in order, pass the fix-ups unchanged. */
  lemma NormalizeKeepsRows(f: Frame)
    requires forall i :: 0 <= i < |f| ==> Keys(f[i]) == Columns
    ensures Normalize(f) == f
  {
    ColumnlessRenameKeeps(f, "Cmd", "CMD");
    ColumnlessRenameKeeps(f, "Speed", "Speed rpm");
    forall i | 0 <= i < |f| ensures Normalize(f)[i] == f[i] {
      NormalRowKeeps(f, f[i], i);
    }
    SameElements(Normalize(f), f);
  }

  /** A row of a frame that already has the seven columns is its own normal row. */
  lemma NormalRowKeeps(f: Frame, row: Dict<Value>, i: nat)
    requires i < |f| && row == f[i] && Keys(row) == Columns
    ensures NormalRow(f, row) == row
  {
    var d := NormalRow(f, row);
    KeysDistinct(row);
    forall j | 0 <= j < 7 ensures d[j] == row[j] {
      assert row[j].0 == Columns[j];
      assert HasKey(f[i], Columns[j]);
      assert HasColumn(f, Columns[j]);
      GetAt(row, j);
    }
    SameElements(d, row);
  }

  lemma KeysDistinct(d: Dict<Value>)
    requires Keys(d) == Columns
    ensures DistinctKeys(d)
  {
    forall i, j | 0 <= i < j < |d| ensures d[i].0 != d[j].0 {
      assert d[i].0 == Columns[i] && d[j].0 == Columns[j];
    }
  }

  /** Renaming a column no row has changes nothing. */
  lemma ColumnlessRenameKeeps(f: Frame, from: string, to: string)
    requires forall i :: 0 <= i < |f| ==> Keys(f[i]) == Columns
    requires from !in Columns
    ensures RenameColumn(f, from, to) == f
  {
  }

  // ------------------------------------------------- the reply frame

  /** `{"Row": "CHAT", "CMD": "CHAT", "Description": text}`: a conversation-only frame row. */
  function ChatOnly(text: string): Dict<Value> {
    [("Row", Str("CHAT")), ("CMD", Str("CHAT")), ("Description", Str(text))]
  }

  /** The CHAT row put before the sequence rows, with the other columns empty. */
  function ChatRow(text: string): (d: Dict<Value>)
    ensures Keys(d) == Columns
  {
    RowDict(["CHAT", "CHAT", text, "", "", "", ""])
  }

  /** The data of a sequence text: its JSON, else its bracketed rows, else a conversation-only row. */
  function SequenceData(json: string -> Option<Frame>, seqText: string, whole: string, fixed: bool): (f: Frame)
    ensures |f| > 0 || json(seqText) == Some([])
  {
    match json(seqText)
    case Some(f) => f
    case None =>
      var rows := CustomRows(seqText, fixed);
      if |rows| > 0 then rows else [ChatOnly(whole)]
  }

  /**
   * The frame the worker emits for one reply (`fixed` selects the
   * corrected Scrag rule in the splitter; the worker runs it as written).
   */
  function ReplyFrame(json: string -> Option<Frame>, reply: string, fixed: bool): (f: Frame)
  {
    var text := CleanReply(reply);
    if Contains(text, StartMarker) && Contains(text, EndMarker) then
      var h := HybridSplit(text);
      [ChatRow(h.conversation)] + Normalize(SequenceData(json, h.sequenceText, text, fixed))
    else if StartsWith(text, "[") && EndsWith(text, "]") then
      Normalize(SequenceData(json, text, text, fixed))
    else
      [ChatOnly(text)]
  }

  /**
   * A hybrid reply's frame starts with the CHAT row holding the
   * conversation; every row of it has the seven columns in order.
   */
  lemma HybridFrameShape(json: string -> Option<Frame>, reply: string, fixed: bool)
    requires Contains(CleanReply(reply), StartMarker) && Contains(CleanReply(reply), EndMarker)
    ensures var f := ReplyFrame(json, reply, fixed);
      |f| >= 1 && f[0] == ChatRow(HybridSplit(CleanReply(reply)).conversation) &&
      forall i :: 0 <= i < |f| ==> Keys(f[i]) == Columns
  {
    var text := CleanReply(reply);
    var h := HybridSplit(text);
    var rest := Normalize(SequenceData(json, h.sequenceText, text, fixed));
    var f := [ChatRow(h.conversation)] + rest;
    assert ReplyFrame(json, reply, fixed) == f;
    forall i | 0 <= i < |f| ensures Keys(f[i]) == Columns {
      if i > 0 {
        assert f[i] == rest[i - 1];
      }
    }
  }

  /** A reply with no markers that is not bracketed is one CHAT row holding all of it. */
  lemma PlainReplyIsChat(json: string -> Option<Frame>, reply: string, fixed: bool)
    requires !Contains(CleanReply(reply), StartMarker)
    requires !StartsWith(CleanReply(reply), "[")
    ensures ReplyFrame(json, reply, fixed) == [ChatOnly(CleanReply(reply))]
  {
  }

  // ------------------------------------------------- the client

  /** `TogetherAPIClient`: its key, its last raw reply and its chat memory. */
  class TogetherApiClient {
    var apiKey: string
    var lastRawResponse: string
    var chatMemory: seq<string>

    constructor(apiKey: string)
      ensures this.apiKey == apiKey && lastRawResponse == "" && chatMemory == []
    {
      this.apiKey := apiKey;
      lastRawResponse := "";
      chatMemory := [];
    }

    method SetApiKey(key: string)
      modifies this
      ensures apiKey == key && lastRawResponse == old(lastRawResponse) && chatMemory == old(chatMemory)
    {
      apiKey := key;
    }

    /**
     * The worker's handling of a reply: the parameter listing joins the
     * chat memory, which keeps its ten most recent entries, the raw reply
     * is kept, and the frame of the reply is emitted.
     */
    method HandleReply(params: Dict<Value>, json: string -> Option<Frame>, reply: string) returns (df: Frame)
      modifies this
      ensures chatMemory == KeepLast(old(chatMemory) + [Join("\n", ParameterLines(params))], 10)
      ensures |chatMemory| <= 10 && chatMemory[|chatMemory| - 1] == Join("\n", ParameterLines(params))
      ensures lastRawResponse == reply && apiKey == old(apiKey)
      ensures df == ReplyFrame(json, reply, false)
    {
      var parameterText := FormatParameterText(params);
      var m := chatMemory + [parameterText];
      KeepLastKeepsNewest(m, 10);
      if |m| > 10 {
        m := m[|m| - 10..];
      }
      chatMemory := m;
      lastRawResponse := reply;
      df := EmitFrame(json, reply);
    }
  }

  /** The three ways a reply becomes a frame: hybrid, bracketed only, or conversation only. */
  method EmitFrame(json: string -> Option<Frame>, reply: string) returns (df: Frame)
    ensures df == ReplyFrame(json, reply, false)
  {
    var text := CleanReply(reply);
    if Contains(text, StartMarker) && Contains(text, EndMarker) {
      var h := HybridSplit(text);
      var data := SequenceFrame(json, h.sequenceText, text);
      df := [ChatRow(h.conversation)] + Normalize(data);
    } else if StartsWith(text, "[") && EndsWith(text, "]") {
      var data := SequenceFrame(json, text, text);
      df := Normalize(data);
    } else {
      df := [ChatOnly(text)];
    }
  }

  /** The JSON attempt, then the custom-format loop, then the conversation-only row. */
  method SequenceFrame(json: string -> Option<Frame>, seqText: string, whole: string) returns (f: Frame)
    ensures f == SequenceData(json, seqText, whole, false)
  {
    var parsed := json(seqText);
    if parsed.Some? {
      f := parsed.value;
    } else {
      var rows := ParseCustomRows(seqText);
      if |rows| > 0 {
        f := rows;
      } else {
        f := [ChatOnly(whole)];
      }
    }
  }
}
