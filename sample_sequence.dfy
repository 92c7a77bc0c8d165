/**
 * The sample compression-spring sequence and the chat message that prints
 * it in the reply format: the chat text, then the rows between the two
 * sequence markers, then a closing sentence. Read back by the Together.ai
 * worker, such a message gives the chat row and then the rows.
 */
module SampleSequence {
  import opened Wrappers
  import opened PyStr
  import opened Values
  import opened ApiText
  import opened RowCodec
  import opened TogetherClient

  /** The fifteen sample rows, each as its seven column values in column order. */
  const SampleValues: seq<seq<string>> := [
    ["R00", "ZF", "Zero Force", "", "", "", ""],
    ["R01", "TH", "Search Contact", "10", "N", "", "10"],
    ["R02", "FL(P)", "Measure Free Length-Position", "", "mm", "58.0(57.9,58.1)", ""],
    ["R03", "Mv(P)", "L1", "40", "mm", "", "50"],
    ["R04", "Fr(P)", "Force @ Position", "", "N", "23.6(21.24,25.96)", ""],
    ["R05", "Mv(P)", "L2", "33", "mm", "", "50"],
    ["R06", "Fr(P)", "Force @ Position", "", "N", "34.14(30.73,37.55)", ""],
    ["R07", "Mv(P)", "Move to Position", "28", "mm", "", "50"],
    ["R08", "Fr(P)", "Force @ Position", "", "N", "42.36(38.12,46.6)", ""],
    ["R09", "Scrag", "Scragging", "R03,2", "", "", ""],
    ["R10", "Mv(P)", "Move to Position", "40", "mm", "", "50"],
    ["R11", "Fr(P)", "Force @ Position", "", "N", "23.6(21.24,25.96)", ""],
    ["R12", "TH", "Search Contact", "10", "N", "", "10"],
    ["R13", "FL(P)", "Measure Free Length-Position", "", "mm", "58.0(57.9,58.1)", ""],
    ["R14", "PMsg", "User Message", "Test Complete", "", "", ""]]

  /** Seven values per row. */
  predicate Rows7(rows: seq<seq<string>>) {
    forall i :: 0 <= i < |rows| ==> |rows[i]| == 7
  }

  /** The rows as dictionaries with the seven column keys. */
  function RowDicts(rows: seq<seq<string>>): (ds: Frame)
    requires Rows7(rows)
    ensures |ds| == |rows|
    ensures forall i :: 0 <= i < |rows| ==> Keys(ds[i]) == Columns && ds[i] == RowDict(rows[i])
  {
    seq(|rows|, i requires 0 <= i < |rows| => RowDict(rows[i]))
  }

  /** Every sample row has exactly the seven column keys, in column order. */
  lemma SampleRows7()
    ensures Rows7(SampleValues)
  {
  }

  lemma SampleRowsHaveColumns()
    ensures Rows7(SampleValues) && |SampleValues| == 15
    ensures forall i :: 0 <= i < 15 ==> Keys(RowDicts(SampleValues)[i]) == Columns
  {
  }

  /** The sentence after the end marker, held in pieces so that facts about its characters stay small. */
  const Closing: string := Closing1 + Closing2 + Closing3 + Closing4 + Closing5 + Closing6
  const Closing1: string := "You can use this "
  const Closing2: string := "sequence directly "
  const Closing3: string := "with your spring "
  const Closing4: string := "testing machine. "
  const Closing5: string := "Let me know if you "
  const Closing6: string := "need any adjustments!"

  /** The written rows, one per sample row. */
  function RowTexts(rows: seq<seq<string>>): (ts: seq<string>)
    requires Rows7(rows)
    ensures |ts| == |rows| && forall i :: 0 <= i < |rows| ==> ts[i] == RowText(rows[i])
  {
    seq(|rows|, i requires 0 <= i < |rows| => RowText(rows[i]))
  }

  /** The final message: chat text, the marked rows, then the closing sentence. */
  function Message(chat: string, rowTexts: seq<string>): string {
    chat + "\n\n" + StartMarker + ("\n" + Join("\n", rowTexts) + "\n" + EndMarker + "\n\n" + Closing)
  }

  /** `print_sequence_as_chat_message`: the row loop, then the message around the rows. */
  method FormatMessage(chat: string, rows: seq<seq<string>>) returns (msg: string)
    requires Rows7(rows)
    ensures msg == Message(chat, RowTexts(rows))
  {
    var sequenceRows: seq<string> := [];
    var k := 0;
    while k < |rows|
      invariant 0 <= k <= |rows| && sequenceRows == RowTexts(rows)[..k]
    {
      var rowStr := FormatRow(rows[k]);
      sequenceRows := sequenceRows + [rowStr];
      k := k + 1;
    }
    assert sequenceRows == RowTexts(rows);
    var sequenceText := Join("\n", sequenceRows);
    msg := chat + "\n\n" + StartMarker + ("\n" + sequenceText + "\n" + EndMarker + "\n\n" + Closing);
  }

  // ------------------------------------------------- reading the message back

  /** A character other than a double quote that a value lacks, its written field lacks too. */
  lemma QuoteFieldAvoids(field: string, v: string, cmd: string, c: char)
    requires c != '"' && c !in v
    ensures c !in QuoteField(field, v, cmd)
  {
  }

  /** A written row lacks any character its values, `[`, `]`, `,`, space and `"` all lack. */
  lemma RowTextAvoids(vs: seq<string>, c: char)
    requires |vs| == 7 && forall i :: 0 <= i < 7 ==> c !in vs[i]
    requires c != '"' && c != '[' && c != ']' && c != ',' && c != ' '
    ensures c !in RowText(vs)
  {
    var qs := QuotedValues(vs);
    forall i | 0 <= i < 7 ensures c !in qs[i] {
      QuoteFieldAvoids(Columns[i], vs[i], vs[1], c);
    }
    JoinAvoids(", ", qs, c);
  }

  /** A written row strips to itself, and the text between its brackets is its body. */
  lemma RowTextLine(vs: seq<string>)
    requires |vs| == 7
    ensures Strip(RowText(vs)) == RowText(vs)
    ensures IsRowLine(RowText(vs)) && Inner(RowText(vs)) == RowBody(vs)
  {
    var t := RowText(vs);
    assert t[0] == '[' && t[|t| - 1] == ']';
    StripOfTrimmed(t);
  }

  /** Values the splitter reads back: good, on one line, and left alone by the Scrag rule. */
  predicate Readable(rows: seq<seq<string>>, fixed: bool) {
    forall i :: 0 <= i < |rows| ==> ReadableRow(rows[i], fixed)
  }

  predicate ReadableRow(vs: seq<string>, fixed: bool) {
    |vs| == 7 && (forall j :: 0 <= j < 7 ==> Good(vs[j]) && '\n' !in vs[j] && '`' !in vs[j]) &&
    ScragSafe(vs, fixed)
  }

  /** One written row, read back as a line, gives the row. */
  lemma WrittenLineRow(vs: seq<string>, fixed: bool)
    requires ReadableRow(vs, fixed)
    ensures LineRow(RowText(vs), fixed) == [RowDict(vs)]
  {
    var t := RowText(vs);
    RowTextLine(vs);
    SerializedRowRoundTrip(vs, fixed);
    assert Cells(Inner(Strip(t)), fixed) == vs;
    assert Padded(vs) == vs;
  }

  /** One more line that reads back as one row adds that row. */
  lemma LineRowsSnoc(front: seq<string>, line: string, ds: Frame, d: Dict<Value>, fixed: bool)
    requires LineRows(front, fixed) == ds && LineRow(line, fixed) == [d]
    ensures LineRows(front + [line], fixed) == ds + [d]
  {
    SnocParts(front, line);
  }

  /** Lines that each read back as one row give those rows, in order. */
  lemma {:induction false} LineRowsOfEach(lines: seq<string>, ds: Frame, fixed: bool)
    requires |lines| == |ds|
    requires forall i :: 0 <= i < |lines| ==> LineRow(lines[i], fixed) == [ds[i]]
    ensures LineRows(lines, fixed) == ds
    decreases |lines|
  {
    if |lines| > 0 {
      var n := |lines| - 1;
      var front := lines[..n];
      forall i | 0 <= i < n ensures LineRow(front[i], fixed) == [ds[..n][i]] {
        assert front[i] == lines[i] && ds[..n][i] == ds[i];
      }
      LineRowsOfEach(front, ds[..n], fixed);
      LineRowsSnoc(front, lines[n], ds[..n], ds[n], fixed);
      FrontAndLast(lines);
      FrontAndLast(ds);
    }
  }

  /** The bracketed lines of written rows parse back to the rows. */
  lemma LineRowsOfWritten(rows: seq<seq<string>>, fixed: bool)
    requires Rows7(rows) && Readable(rows, fixed)
    ensures LineRows(RowTexts(rows), fixed) == RowDicts(rows)
  {
    var ts := RowTexts(rows);
    var ds := RowDicts(rows);
    forall i | 0 <= i < |rows| ensures LineRow(ts[i], fixed) == [ds[i]] {
      WrittenLineRow(rows[i], fixed);
    }
    LineRowsOfEach(ts, ds, fixed);
  }

  /** The rows text of the message: its lines are the written rows, none holding a newline. */
  lemma RowsTextLines(rows: seq<seq<string>>, fixed: bool)
    requires Rows7(rows) && |rows| > 0 && Readable(rows, fixed)
    ensures Trimmed(Join("\n", RowTexts(rows))) && |Join("\n", RowTexts(rows))| > 0
    ensures CustomRows(Join("\n", RowTexts(rows)), fixed) == RowDicts(rows)
    ensures '`' !in Join("\n", RowTexts(rows))
  {
    var ts := RowTexts(rows);
    forall i | 0 <= i < |ts| ensures '\n' !in ts[i] && '`' !in ts[i] {
      RowTextAvoids(rows[i], '\n');
      RowTextAvoids(rows[i], '`');
    }
    JoinAvoids("\n", ts, '`');
    var t := Join("\n", ts);
    JoinEnds(ts);
    StripOfTrimmed(t);
    SplitJoin(ts, '\n');
    LineRowsOfWritten(rows, fixed);
  }

  /** A join of written rows starts with `[` and ends with `]`. */
  lemma {:induction false} JoinEnds(ts: seq<string>)
    requires |ts| > 0 && forall i :: 0 <= i < |ts| ==> IsRowLine(ts[i])
    ensures var t := Join("\n", ts); |t| > 0 && t[0] == '[' && t[|t| - 1] == ']'
    decreases |ts|
  {
    if |ts| > 1 {
      JoinEnds(ts[1..]);
    }
  }

  lemma ClosingPiecesLack(c: char)
    requires c == '`' || c == '\n'
    ensures c !in Closing1 && c !in Closing2 && c !in Closing3
    ensures c !in Closing4 && c !in Closing5 && c !in Closing6
  {
    ClosingPieceLacks(Closing1, c);
    ClosingPieceLacks(Closing2, c);
    ClosingPieceLacks(Closing3, c);
    ClosingPieceLacks(Closing4, c);
    ClosingPieceLacks(Closing5, c);
    ClosingPieceLacks(Closing6, c);
  }

  /** A piece of the closing sentence holds no backtick and no newline. */
  lemma ClosingPieceLacks(piece: string, c: char)
    requires piece in {Closing1, Closing2, Closing3, Closing4, Closing5, Closing6}
    requires c == '`' || c == '\n'
    ensures c !in piece
  {
  }

  /** The closing sentence is trimmed and free of backticks. */
  lemma ClosingIsPlain()
    ensures Trimmed(Closing) && |Closing| > 0 && '`' !in Closing
  {
    ClosingPiecesLack('`');
    assert Closing[0] == 'Y' && Closing[|Closing| - 1] == '!';
  }

  /**
   * The printed message, read back by the worker, gives the chat row (the
   * chat text and the closing sentence) followed by the rows, as long as
   * the markers occur only where the message puts them and the rows text
   * is not itself JSON.
   */
  lemma MessageReadBack(json: string -> Option<Frame>, chat: string, rows: seq<seq<string>>, fixed: bool)
    requires Rows7(rows) && |rows| > 0 && Readable(rows, fixed)
    requires Trimmed(chat) && |chat| > 0 && '`' !in chat
    requires MarkedLayout(chat + "\n\n", "\n" + Join("\n", RowTexts(rows)) + "\n", "\n\n" + Closing)
    requires json(Join("\n", RowTexts(rows))) == None
    ensures ReplyFrame(json, Message(chat, RowTexts(rows)), fixed) ==
      [ChatRow(chat + "\n\n" + Closing)] + RowDicts(rows)
  {
    var body := Join("\n", RowTexts(rows));
    var a := chat + "\n\n";
    var b := "\n" + body + "\n";
    var c := "\n\n" + Closing;
    var msg := Message(chat, RowTexts(rows));
    assert msg == a + StartMarker + (b + EndMarker + c);
    RowsTextLines(rows, fixed);
    ClosingIsPlain();
    MessagePlain(chat, body, a, b, c, msg);
    HybridSplitOfLayout(a, b, c);
    MessageParts(chat, body, a, b, c);
    var h := HybridSplit(msg);
    assert h == Hybrid(chat + "\n\n" + Closing, body);
    assert SequenceData(json, body, msg, fixed) == RowDicts(rows);
    NormalizeKeepsRows(RowDicts(rows));
  }

  lemma MarkersLack(c: char)
    requires c == '`' || c == '\n'
    ensures c !in StartMarker && c !in EndMarker
  {
  }

  /** The message is only stripped by the clean-up. */
  lemma MessagePlain(chat: string, body: string, a: string, b: string, c: string, msg: string)
    requires Trimmed(chat) && |chat| > 0 && '`' !in chat && '`' !in body
    requires Trimmed(Closing) && |Closing| > 0 && '`' !in Closing
    requires a == chat + "\n\n" && b == "\n" + body + "\n" && c == "\n\n" + Closing
    requires msg == a + StartMarker + (b + EndMarker + c)
    ensures CleanReply(msg) == msg
  {
    assert '`' !in msg by {
      MarkersLack('`');
    }
    assert Trimmed(msg) by {
      assert msg[0] == chat[0];
      assert msg[|msg| - 1] == c[|c| - 1] == Closing[|Closing| - 1];
    }
    CleanReplyOfPlain(msg);
    StripOfTrimmed(msg);
  }

  /** The stripped pieces of the message layout. */
  lemma MessageParts(chat: string, body: string, a: string, b: string, c: string)
    requires Trimmed(chat) && |chat| > 0 && Trimmed(body) && |body| > 0
    requires Trimmed(Closing) && |Closing| > 0
    requires a == chat + "\n\n" && b == "\n" + body + "\n" && c == "\n\n" + Closing
    ensures Strip(a) == chat && Strip(b) == body && Strip(c) == Closing
  {
    assert a == "" + chat + "\n\n";
    StripAround("", chat, "\n\n");
    StripAround("\n", body, "\n");
    assert c == "\n\n" + Closing + "";
    StripAround("\n\n", Closing, "");
  }

  /** The sample message. */
  const SampleChat: string := "Here's a standard compression test sequence for the spring with the specifications you provided. This sequence includes:\n\n1. Initial zeroing and contact detection\n2. Free length measurement with tolerance\n3. Compression to three different positions (L1, L2, and additional position)\n4. Force measurements at each position\n5. Scragging cycle to stabilize the spring\n6. Repeat measurements to verify performance after scragging\n7. Final free length verification\n\nThe tolerances are set to approximately ±10% for force measurements and ±0.1mm for length measurements."

  /** `print_sequence_as_chat_message` on the sample sequence. */
  method PrintSequenceAsChatMessage() returns (msg: string)
    ensures Rows7(SampleValues) && msg == Message(SampleChat, RowTexts(SampleValues))
  {
    SampleRows7();
    msg := FormatMessage(SampleChat, SampleValues);
  }
}
