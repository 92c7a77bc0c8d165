/**
 * The bracketed row format the language model is asked to reply in,
 * `[R00, ZF, Zero Force, , , , ]`: the character-level cell splitter
 * (which respects double quotes, brackets and a special case for Scrag
 * row references such as `R03,2`), the clean-up of the cells, the padding
 * to seven columns, and the serializer that writes sample rows in that
 * format.
 *
 * The three regular expressions of the Scrag rule are simple enough to be
 * written out as predicates. They are only ever applied to stripped text,
 * where `$` can only match at the very end. `\d` is taken as an ASCII digit.
 */
module RowCodec {
  import opened PyStr

  /** The seven columns of a sequence row, in order. */
  const Columns: seq<string> := ["Row", "CMD", "Description", "Condition", "Unit", "Tolerance", "Speed rpm"]

  // ------------------------------------------------- the Scrag patterns

  function DropLeadingQuote(s: string): string {
    if |s| > 0 && s[0] == '"' then s[1..] else s
  }

  predicate AllDigits(s: string) {
    forall i :: 0 <= i < |s| ==> IsDigitChar(s[i])
  }

  /** `R` followed by digits: a row reference such as `R03`. */
  predicate RowName(r: string) {
    |r| >= 2 && r[0] == 'R' && IsDigits(r[1..])
  }

  /** `re.match(r'^"?R\d+$', s)`: a row reference without a count, `R03`. */
  predicate RowRef(s: string) {
    RowName(DropLeadingQuote(s))
  }

  /** The text between an optional leading and an optional trailing double quote. */
  function Unquoted(s: string): string {
    var t := DropLeadingQuote(s);
    if |t| > 0 && t[|t| - 1] == '"' then t[..|t| - 1] else t
  }

  /** `re.match(r'^"?R\d+,\d*"?$', s)`: a row reference followed by a comma and a possibly empty count. */
  predicate RowRefWithCount(s: string) {
    var u := Unquoted(s);
    var i := FindCharIndex(u, ',');
    i >= 2 && u[0] == 'R' && IsDigits(u[1..i]) && AllDigits(u[i + 1..])
  }

  /** `re.match(r'^"?R\d+,\d+$', s)`: a complete reference with its count, `R03,2`. */
  predicate RowRefComplete(s: string) {
    var t := DropLeadingQuote(s);
    var i := FindCharIndex(t, ',');
    i >= 2 && t[0] == 'R' && IsDigits(t[1..i]) && IsDigits(t[i + 1..])
  }

  /**
   * The test for "the second comma" can never succeed: it is applied to the
   * cell just after a comma was appended, and a stripped text ending in a
   * comma never ends in the digit the pattern needs.
   */
  lemma SecondCommaCheckNeverHolds(cur: string)
    ensures !RowRefComplete(Strip(cur + ","))
  {
    StripKeepsLast(cur + ",");
    var r := Strip(cur + ",");
    var t := DropLeadingQuote(r);
    if |t| > 0 {
      assert t[|t| - 1] == ',';
    }
  }

  // ------------------------------------------------------- the splitter

  /**
   * The splitter's variables: the finished cells, the cell being read, the
   * bracket and quote flags, the index of the current cell and whether the
   * CMD cell was `Scrag`.
   */
  datatype Splitter = Splitter(cells: seq<string>, cur: string, inParen: bool, inQuotes: bool, index: nat, scrag: bool)

  const Start: Splitter := Splitter([], "", false, false, 0, false)

  /**
   * Whether the Scrag rule keeps a comma inside the Condition cell. As
   * written, a comma after `R03` and also after `R03,2` is kept; corrected
   * (`fixed`), only the comma after `R03`, so the one after the count
   * separates as intended.
   */
  predicate KeepsComma(scrag: bool, index: nat, completed: string, fixed: bool) {
    scrag && index == 3 && |completed| > 0 && (RowRef(completed) || (!fixed && RowRefWithCount(completed)))
  }

  /** A comma outside quotes and brackets the Scrag rule does not keep: it ends a cell. */
  predicate Separates(st: Splitter, c: char, fixed: bool) {
    c == ',' && !(st.inParen || st.inQuotes) &&
    var completed := Strip(st.cur);
    !KeepsComma(st.scrag || (st.index == 1 && completed == "Scrag"), st.index, completed, fixed)
  }

  /**
   * One character of the loop. The source tests for a quote, then for
   * brackets, then for a separating comma; the tests are exclusive, so the
   * comma is tested first here and the other characters go to `CharStep`.
   */
  function Step(st: Splitter, c: char, fixed: bool): Splitter {
    if c == ',' && !(st.inParen || st.inQuotes) then Separator(st, fixed) else CharStep(st, c)
  }

  /** A comma outside quotes and brackets: the cell ends, unless the Scrag rule keeps the comma. */
  function Separator(st: Splitter, fixed: bool): Splitter {
    var completed := Strip(st.cur);
    var scrag := st.scrag || (st.index == 1 && completed == "Scrag");
    if KeepsComma(scrag, st.index, completed, fixed) then
      var kept := st.cur + [','];
      if RowRefComplete(Strip(kept)) then
        Splitter(st.cells + [Strip(kept)], "", st.inParen, st.inQuotes, st.index + 1, scrag)
      else
        st.(cur := kept, scrag := scrag)
    else
      Splitter(st.cells + [completed], "", st.inParen, st.inQuotes, st.index + 1, scrag)
  }

  /** Any other character: a quote not after a backslash toggles the quote flag, a bracket sets the bracket flag. */
  function CharStep(st: Splitter, c: char): Splitter {
    if c == '"' && (|st.cur| == 0 || st.cur[|st.cur| - 1] != '\\') then
      st.(inQuotes := !st.inQuotes, cur := st.cur + [c])
    else if c == '(' || c == '[' then
      st.(inParen := true, cur := st.cur + [c])
    else if c == ')' || c == ']' then
      st.(inParen := false, cur := st.cur + [c])
    else
      st.(cur := st.cur + [c])
  }

  /** The loop over the characters of `s`, from state `st`. */
  function Run(st: Splitter, s: string, fixed: bool): Splitter
    decreases |s|
  {
    if |s| == 0 then st else Step(Run(st, s[..|s| - 1], fixed), s[|s| - 1], fixed)
  }

  /** The bracket flag after reading `s` from `flag`: the last bracket decides. */
  function BracketFlag(flag: bool, s: string): bool
    decreases |s|
  {
    if |s| == 0 then flag
    else
      var c := s[|s| - 1];
      if c == '(' || c == '[' then true
      else if c == ')' || c == ']' then false
      else BracketFlag(flag, s[..|s| - 1])
  }

  /** Reading one more character is one more step. */
  lemma RunSnoc(st: Splitter, s: string, c: char, fixed: bool)
    ensures Run(st, s + [c], fixed) == Step(Run(st, s, fixed), c, fixed)
  {
    assert (s + [c])[..|s|] == s;
  }

  /** A character that is neither a comma, a quote nor a bracket adds to the current cell. */
  lemma PlainStep(st: Splitter, c: char, fixed: bool)
    requires c != ',' && c != '"' && c != '(' && c != '[' && c != ')' && c != ']'
    ensures Step(st, c, fixed) == st.(cur := st.cur + [c])
  {
  }

  /** Reading `a + b` is reading `a`, then `b`. */
  lemma {:induction false} RunAppend(st: Splitter, a: string, b: string, fixed: bool)
    ensures Run(st, a + b, fixed) == Run(Run(st, a, fixed), b, fixed)
    decreases |b|
  {
    if |b| == 0 {
      assert a + b == a;
    } else {
      var b', c := b[..|b| - 1], b[|b| - 1];
      assert b == b' + [c];
      assert a + b == (a + b') + [c];
      RunAppend(st, a, b', fixed);
      RunSnoc(st, a + b', c, fixed);
      RunSnoc(Run(st, a, fixed), b', c, fixed);
    }
  }

  /**
   * Text without double quotes, and without commas unless inside quotes, is
   * added to the current cell; only the bracket flag moves.
   */
  lemma {:induction false} RunPlain(st: Splitter, u: string, fixed: bool)
    requires '"' !in u
    requires st.inQuotes || ',' !in u
    ensures Run(st, u, fixed) == st.(cur := st.cur + u, inParen := BracketFlag(st.inParen, u))
    decreases |u|
  {
    if |u| > 0 {
      var u' := u[..|u| - 1];
      assert forall c :: c in u' ==> c in u;
      RunPlain(st, u', fixed);
      assert st.cur + u' + [u[|u| - 1]] == st.cur + u;
    }
  }

  /** A quoted text without inner quotes is one piece of the current cell, whatever commas it holds. */
  lemma RunQuoted(st: Splitter, v: string, fixed: bool)
    requires !st.inQuotes && '"' !in v && !EndsWithChar(v, '\\')
    requires !EndsWithChar(st.cur, '\\')
    ensures Run(st, "\"" + v + "\"", fixed) == st.(cur := st.cur + "\"" + v + "\"", inParen := BracketFlag(st.inParen, v))
  {
    var st1 := Step(st, '"', fixed);
    assert Run(st, "\"", fixed) == st1;
    RunAppend(st, "\"", v, fixed);
    RunPlain(st1, v, fixed);
    var st2 := Run(st1, v, fixed);
    RunAppend(st, "\"" + v, "\"", fixed);
    assert Run(st2, "\"", fixed) == Step(st2, '"', fixed);
  }

  /**
   * The texts the splitter reads back as one cell: a quoted text without
   * inner quotes or a final backslash, or a text with neither quotes nor
   * commas; either way trimmed and leaving the bracket flag down.
   */
  predicate CellText(q: string) {
    Trimmed(q) &&
    ((|q| >= 2 && Enclosed(q, '"') && var v := q[1..|q| - 1];
      '"' !in v && !EndsWithChar(v, '\\') && !BracketFlag(false, v)) ||
     ('"' !in q && ',' !in q && !BracketFlag(false, q)))
  }

  /** Reading a cell text from a state outside quotes and brackets adds it to the current cell. */
  lemma RunCellText(st: Splitter, q: string, fixed: bool)
    requires CellText(q) && !st.inQuotes && !st.inParen && !EndsWithChar(st.cur, '\\')
    ensures Run(st, q, fixed) == st.(cur := st.cur + q)
  {
    if '"' in q {
      var v := q[1..|q| - 1];
      assert '"' !in v && !EndsWithChar(v, '\\') && !BracketFlag(false, v);
      assert q == "\"" + v + "\"";
      RunQuoted(st, v, fixed);
      assert st.cur + "\"" + v + "\"" == st.cur + q;
    } else {
      RunPlain(st, q, fixed);
    }
  }

  /**
   * The state after reading the first `k` cell texts joined by ", ": the
   * first `k - 1` are finished cells, the last is being read (after its
   * space), and the Scrag flag records the CMD cell.
   */
  function Mid(qs: seq<string>, k: nat): Splitter
    requires 1 <= k <= |qs|
  {
    Splitter(qs[..k - 1], if k == 1 then qs[0] else " " + qs[k - 1], false, false, k - 1,
             k - 1 >= 2 && qs[1] == "Scrag")
  }

  /** A comma outside quotes and brackets that the Scrag rule does not keep finishes the stripped cell. */
  lemma CellBoundary(st: Splitter, fixed: bool)
    requires !st.inQuotes && !st.inParen
    requires !KeepsComma(st.scrag || (st.index == 1 && Strip(st.cur) == "Scrag"), st.index, Strip(st.cur), fixed)
    ensures Step(st, ',', fixed) ==
            Splitter(st.cells + [Strip(st.cur)], "", false, false, st.index + 1,
                     st.scrag || (st.index == 1 && Strip(st.cur) == "Scrag"))
  {
  }

  /** A comma the Scrag rule keeps stays in the current cell. */
  lemma KeepStep(st: Splitter, fixed: bool)
    requires !st.inQuotes && !st.inParen
    requires KeepsComma(st.scrag || (st.index == 1 && Strip(st.cur) == "Scrag"), st.index, Strip(st.cur), fixed)
    requires !RowRefComplete(Strip(st.cur + ","))
    ensures Step(st, ',', fixed) == st.(cur := st.cur + ",", scrag := st.scrag || (st.index == 1 && Strip(st.cur) == "Scrag"))
  {
  }

  /** After a finished cell, ", " and the next cell text start the next cell. */
  lemma NextCell(st: Splitter, q: string, fixed: bool)
    requires st.cur == "" && !st.inQuotes && !st.inParen && CellText(q)
    ensures Run(st, " " + q, fixed) == st.(cur := " " + q)
  {
    RunAppend(st, " ", q, fixed);
    assert Run(st, " ", fixed) == st.(cur := " ");
    RunCellText(st.(cur := " "), q, fixed);
  }

  /** The comma after the `k - 1`-th cell text finishes it. */
  lemma MidBoundary(qs: seq<string>, k: nat, fixed: bool)
    requires 2 <= k <= |qs| && CellText(qs[k - 2])
    requires k == 5 ==> !KeepsComma(qs[1] == "Scrag", 3, qs[3], fixed)
    ensures Step(Mid(qs, k - 1), ',', fixed) ==
            Splitter(qs[..k - 1], "", false, false, k - 1, k - 1 >= 2 && qs[1] == "Scrag")
  {
    var m := Mid(qs, k - 1);
    TakeOneMore(qs, k - 2);
    MidStrip(qs, k);
    MidNotKept(qs, k, fixed);
    CellBoundary(m, fixed);
  }

  lemma TakeOneMore<T>(s: seq<T>, i: nat)
    requires i < |s|
    ensures s[..i] + [s[i]] == s[..i + 1]
  {
  }

  /** The `k - 1`-th cell being read, stripped, is the `k - 1`-th cell text. */
  lemma MidStrip(qs: seq<string>, k: nat)
    requires 2 <= k <= |qs| && Trimmed(qs[k - 2])
    ensures Strip(Mid(qs, k - 1).cur) == qs[k - 2]
  {
    if k > 2 {
      StripAfterSpace(qs[k - 2]);
    }
  }

  /** The Scrag rule keeps no comma after the `k - 1`-th cell text. */
  lemma MidNotKept(qs: seq<string>, k: nat, fixed: bool)
    requires 2 <= k <= |qs| && Trimmed(qs[k - 2])
    requires k == 5 ==> !KeepsComma(qs[1] == "Scrag", 3, qs[3], fixed)
    ensures var m := Mid(qs, k - 1);
      !KeepsComma(m.scrag || (m.index == 1 && Strip(m.cur) == "Scrag"), m.index, Strip(m.cur), fixed) &&
      (m.scrag || (m.index == 1 && Strip(m.cur) == "Scrag") <==> k - 1 >= 2 && qs[1] == "Scrag")
  {
    MidStrip(qs, k);
  }

  /** Reading one character is one step. */
  lemma RunOne(st: Splitter, c: char, fixed: bool)
    ensures Run(st, [c], fixed) == Step(st, c, fixed)
  {
    assert [c][..0] == [];
  }

  /** A separating comma after `j`, then a space and the next cell text. */
  lemma RunNextCell(j: string, q: string, fixed: bool)
    requires !Run(Start, j, fixed).inQuotes && !Run(Start, j, fixed).inParen
    requires Step(Run(Start, j, fixed), ',', fixed).cur == "" && CellText(q)
    requires !Step(Run(Start, j, fixed), ',', fixed).inQuotes && !Step(Run(Start, j, fixed), ',', fixed).inParen
    ensures Run(Start, (j + ",") + (" " + q), fixed) == Step(Run(Start, j, fixed), ',', fixed).(cur := " " + q)
  {
    var sep := Step(Run(Start, j, fixed), ',', fixed);
    RunAppend(Start, j, ",", fixed);
    RunOne(Run(Start, j, fixed), ',', fixed);
    RunAppend(Start, j + ",", " " + q, fixed);
    NextCell(sep, q, fixed);
  }

  /** The loop over one more character of `s` from the start is one more step. */
  lemma RunPrefixStep(s: string, i: nat, st: Splitter, fixed: bool)
    requires i < |s| && Run(Start, s[..i], fixed) == st
    ensures Run(Start, s[..i + 1], fixed) == Step(st, s[i], fixed)
  {
    TakeOneMore(s, i);
    RunSnoc(Start, s[..i], s[i], fixed);
  }

  /** Reading one more character from the start is one more step. */
  lemma Extend(t: string, c: char, st: Splitter, fixed: bool)
    requires Run(Start, t, fixed) == st
    ensures Run(Start, t + [c], fixed) == Step(st, c, fixed)
  {
    RunSnoc(Start, t, c, fixed);
  }

  /** One more cell text joined by ", " moves to the next middle state. */
  lemma JoinedStep(qs: seq<string>, k: nat, fixed: bool)
    requires 2 <= k <= |qs| && CellText(qs[k - 2]) && CellText(qs[k - 1])
    requires k == 5 ==> !KeepsComma(qs[1] == "Scrag", 3, qs[3], fixed)
    requires Run(Start, Join(", ", qs[..k - 1]), fixed) == Mid(qs, k - 1)
    ensures Run(Start, Join(", ", qs[..k]), fixed) == Mid(qs, k)
  {
    var j := JoinedSplit(qs, k);
    MidBoundary(qs, k, fixed);
    RunNextCell(j, qs[k - 1], fixed);
  }

  /** The first `k` cell texts joined: the first `k - 1` joined, the comma, the space and the next one. */
  lemma JoinedSplit(qs: seq<string>, k: nat) returns (j: string)
    requires 2 <= k <= |qs|
    ensures j == Join(", ", qs[..k - 1]) && Join(", ", qs[..k]) == (j + ",") + (" " + qs[k - 1])
  {
    JoinPrefix(", ", qs, k);
    j := Join(", ", qs[..k - 1]);
    CommaSpace(j, qs[k - 1]);
  }

  lemma CommaSpace(j: string, q: string)
    ensures j + ", " + q == (j + ",") + (" " + q)
  {
  }

  /**
   * Cell texts joined by ", " are read cell by cell, as long as the Scrag
   * rule does not keep the comma after the Condition cell.
   */
  lemma {:induction false} RunJoined(qs: seq<string>, k: nat, fixed: bool)
    requires 1 <= k <= |qs|
    requires forall i :: 0 <= i < k ==> CellText(qs[i])
    requires k >= 5 ==> !KeepsComma(qs[1] == "Scrag", 3, qs[3], fixed)
    ensures Run(Start, Join(", ", qs[..k]), fixed) == Mid(qs, k)
    decreases k
  {
    if k == 1 {
      assert qs[..1] == [qs[0]];
      RunCellText(Start, qs[0], fixed);
    } else {
      RunJoined(qs, k - 1, fixed);
      JoinedStep(qs, k, fixed);
    }
  }

  /** `cells.append(current_cell.strip())` after the loop. */
  function Finish(st: Splitter): seq<string> {
    st.cells + [Strip(st.cur)]
  }

  /** `c.startswith(ch) and c.endswith(ch)`; a single `ch` does both. */
  predicate Enclosed(c: string, ch: char) {
    |c| > 0 && c[0] == ch && c[|c| - 1] == ch
  }

  predicate EndsWithChar(c: string, ch: char) {
    |c| > 0 && c[|c| - 1] == ch
  }

  /** The clean-up of one cell: surrounding quotes are removed, then one trailing comma. */
  function Cleanup(c: string): (r: string)
    ensures |r| <= |c|
  {
    var a := if Enclosed(c, '"') then (if |c| >= 2 then c[1..|c| - 1] else "") else c;
    if EndsWithChar(a, ',') then a[..|a| - 1] else a
  }

  function CleanupAll(cs: seq<string>): (r: seq<string>)
    ensures |r| == |cs| && forall i :: 0 <= i < |cs| ==> r[i] == Cleanup(cs[i])
  {
    seq(|cs|, i requires 0 <= i < |cs| => Cleanup(cs[i]))
  }

  /** The cells of a row text (without its brackets). */
  function Cells(line: string, fixed: bool): seq<string> {
    CleanupAll(Finish(Run(Start, line, fixed)))
  }

  /**
   * `test_parse_row` (and the same loop in the Together.ai worker) as
   * written: the character loop, the last cell, then the clean-up loop.
   */
  method ParseRow(rowText: string) returns (cells: seq<string>)
    ensures cells == Cells(rowText, false)
  {
    var split := SplitCells(rowText);
    cells := CleanCells(split);
  }

  /** The character loop and the last cell: the splitter run over the whole text. */
  method SplitCells(rowText: string) returns (cells: seq<string>)
    ensures cells == Finish(Run(Start, rowText, false))
  {
    cells := [];
    var currentCell := "";
    var inParentheses := false;
    var inQuotes := false;
    var cellIndex: nat := 0;
    var foundScragCmd := false;
    var i := 0;
    while i < |rowText|
      invariant 0 <= i <= |rowText|
      invariant Splitter(cells, currentCell, inParentheses, inQuotes, cellIndex, foundScragCmd) == Run(Start, rowText[..i], false)
    {
      ghost var st := Splitter(cells, currentCell, inParentheses, inQuotes, cellIndex, foundScragCmd);
      RunPrefixStep(rowText, i, st, false);
      cells, currentCell, inParentheses, inQuotes, cellIndex, foundScragCmd :=
        ReadChar(cells, currentCell, inParentheses, inQuotes, cellIndex, foundScragCmd, rowText[i]);
      i := i + 1;
    }
    assert rowText[..i] == rowText;
    cells := cells + [Strip(currentCell)];
  }

  /** The clean-up loop, which rewrites each cell in place. */
  method CleanCells(cs: seq<string>) returns (cells: seq<string>)
    ensures cells == CleanupAll(cs)
  {
    cells := cs;
    var k := 0;
    while k < |cells|
      invariant 0 <= k <= |cells| == |cs|
      invariant forall j :: 0 <= j < k ==> cells[j] == Cleanup(cs[j])
      invariant forall j :: k <= j < |cells| ==> cells[j] == cs[j]
    {
      var c := cells[k];
      if Enclosed(c, '"') {
        c := if |c| >= 2 then c[1..|c| - 1] else "";
      }
      if EndsWithChar(c, ',') {
        c := c[..|c| - 1];
      }
      cells := cells[k := c];
      k := k + 1;
    }
  }

  /** The body of the character loop, in the source's order of tests: one step of the splitter. */
  method ReadChar(cells: seq<string>, currentCell: string, inParentheses: bool, inQuotes: bool,
                  cellIndex: nat, foundScragCmd: bool, c: char)
    returns (cells': seq<string>, currentCell': string, inParentheses': bool, inQuotes': bool,
             cellIndex': nat, foundScragCmd': bool)
    ensures Splitter(cells', currentCell', inParentheses', inQuotes', cellIndex', foundScragCmd') ==
            Step(Splitter(cells, currentCell, inParentheses, inQuotes, cellIndex, foundScragCmd), c, false)
  {
    cells', currentCell', inParentheses', inQuotes', cellIndex', foundScragCmd' :=
      cells, currentCell, inParentheses, inQuotes, cellIndex, foundScragCmd;
    if c == '"' && (|currentCell| == 0 || currentCell[|currentCell| - 1] != '\\') {
      inQuotes' := !inQuotes;
      currentCell' := currentCell + [c];
    } else if c == '(' || c == '[' {
      inParentheses' := true;
      currentCell' := currentCell + [c];
    } else if c == ')' || c == ']' {
      inParentheses' := false;
      currentCell' := currentCell + [c];
    } else if c == ',' && !(inParentheses || inQuotes) {
      var completedCell := Strip(currentCell);
      if cellIndex == 1 && completedCell == "Scrag" {
        foundScragCmd' := true;
      }
      if foundScragCmd' && cellIndex == 3 && |completedCell| > 0 &&
         (RowRef(completedCell) || RowRefWithCount(completedCell)) {
        currentCell' := currentCell + [c];
        if RowRefComplete(Strip(currentCell')) {
          cells' := cells + [Strip(currentCell')];
          currentCell' := "";
          cellIndex' := cellIndex + 1;
        }
      } else {
        cells' := cells + [completedCell];
        currentCell' := "";
        cellIndex' := cellIndex + 1;
      }
    } else {
      currentCell' := currentCell + [c];
    }
  }

  // ------------------------------------------------- seven columns

  /**
   * Exactly seven cells: missing ones are empty, and cells beyond the
   * sixth are joined with ", " into the seventh.
   */
  function Padded(cells: seq<string>): (r: seq<string>)
    ensures |r| == 7
    ensures |cells| <= 7 ==> r[..|cells|] == cells && forall j :: |cells| <= j < 7 ==> r[j] == ""
    ensures |cells| > 7 ==> r[..6] == cells[..6] && r[6] == Join(", ", cells[6..])
  {
    if |cells| < 7 then cells + seq(7 - |cells|, _ => "")
    else if |cells| > 7 then cells[..6] + [Join(", ", cells[6..])]
    else cells
  }

  /** The `while len(cells) < 7` padding and the merge of extra cells. */
  method PadToSeven(cells: seq<string>) returns (r: seq<string>)
    ensures r == Padded(cells)
  {
    r := cells;
    while |r| < 7
      invariant |r| <= 7 || r == cells
      invariant |cells| <= |r| && r[..|cells|] == cells
      invariant forall j :: |cells| <= j < |r| ==> r[j] == ""
      decreases 7 - |r|
    {
      r := r + [""];
    }
    if |r| > 7 {
      r := r[..6] + [Join(", ", r[6..])];
    }
  }

  /** `run_tests` strips one trailing comma from every padded cell once more. */
  function DropTrailingCommas(cells: seq<string>): (r: seq<string>)
    ensures |r| == |cells|
    ensures forall i :: 0 <= i < |cells| ==> !EndsWithChar(cells[i], ',') ==> r[i] == cells[i]
  {
    seq(|cells|, i requires 0 <= i < |cells| => if EndsWithChar(cells[i], ',') then cells[i][..|cells[i]| - 1] else cells[i])
  }

  // ------------------------------------------------------- the serializer

  /** `re.match(r'^R\d+,\d+$', str(value))`; here `$` also matches before a final newline. */
  predicate ScragPair(v: string) {
    |v| > 0 && v[0] == 'R' &&
    (RowRefComplete(v) || (EndsWithChar(v, '\n') && RowRefComplete(v[..|v| - 1])))
  }

  /**
   * One field as `print_sequence_as_chat_message` writes it: a non-empty
   * value with a comma, or a Scrag row reference in the Condition column,
   * is put in double quotes unless it already is.
   */
  function QuoteField(field: string, v: string, cmd: string): string {
    var scragCondition := field == "Condition" && cmd == "Scrag" && |v| > 0 && ScragPair(v);
    if |v| > 0 && (',' in v || scragCondition) && !Enclosed(v, '"') then
      "\"" + v + "\""
    else v
  }

  /** The checked Scrag reference always contains a comma, so it adds nothing to the comma test. */
  lemma ScragPairHasComma(v: string)
    requires ScragPair(v)
    ensures ',' in v
  {
    var w := if RowRefComplete(v) then v else v[..|v| - 1];
    assert RowRefComplete(w);
    var i := FindCharIndex(w, ',');
    assert v[i] == ',';
  }

  /** The quoted values of a row, in column order; `vs[1]` is its CMD. */
  function QuotedValues(vs: seq<string>): (qs: seq<string>)
    requires |vs| == 7
    ensures |qs| == 7 && forall i :: 0 <= i < 7 ==> qs[i] == QuoteField(Columns[i], vs[i], vs[1])
  {
    seq(7, i requires 0 <= i < 7 => QuoteField(Columns[i], vs[i], vs[1]))
  }

  /** The text of one row between its brackets. */
  function RowBody(vs: seq<string>): string
    requires |vs| == 7
  {
    Join(", ", QuotedValues(vs))
  }

  /** `"[" + ", ".join(...) + "]"`. */
  function RowText(vs: seq<string>): string
    requires |vs| == 7
  {
    "[" + RowBody(vs) + "]"
  }

  /** The values of `row[field]` for the seven columns, written as a row; built as the loop does. */
  method FormatRow(vs: seq<string>) returns (text: string)
    requires |vs| == 7
    ensures text == RowText(vs)
  {
    var rowValues: seq<string> := [];
    var k := 0;
    while k < 7
      invariant 0 <= k <= 7 && rowValues == QuotedValues(vs)[..k]
    {
      var value := vs[k];
      var isScragCondition := Columns[k] == "Condition" && vs[1] == "Scrag" && |value| > 0 && ScragPair(value);
      if |value| > 0 && (',' in value || isScragCondition) {
        if !Enclosed(value, '"') {
          value := "\"" + value + "\"";
        }
      }
      rowValues := rowValues + [value];
      k := k + 1;
    }
    assert rowValues == QuotedValues(vs);
    text := "[" + Join(", ", rowValues) + "]";
  }

  // ------------------------------------------------------- the round trip

  /**
   * A value the row format carries unchanged: trimmed, without double
   * quotes, not ending in a backslash or a comma, and leaving no bracket
   * open at its end.
   */
  predicate Good(v: string) {
    Trimmed(v) && '"' !in v && !EndsWithChar(v, '\\') && !EndsWithChar(v, ',') && !BracketFlag(false, v)
  }

  /** A good value is written as one cell text, which cleans up to the value. */
  lemma GoodCellText(field: string, v: string, cmd: string)
    requires Good(v)
    ensures CellText(QuoteField(field, v, cmd)) && Cleanup(QuoteField(field, v, cmd)) == v
  {
    var q := QuoteField(field, v, cmd);
    if field == "Condition" && cmd == "Scrag" && |v| > 0 && ScragPair(v) {
      ScragPairHasComma(v);
    }
    if q != v {
      assert q == "\"" + v + "\"" && q[1..|q| - 1] == v;
    } else {
      assert ',' !in v;
      assert |v| > 0 ==> v[0] in v;
    }
  }

  /** The CMD cell text is `Scrag` exactly when the CMD value is. */
  lemma ScragCellText(v: string)
    ensures QuoteField("CMD", v, v) == "Scrag" <==> v == "Scrag"
  {
    var q := QuoteField("CMD", v, v);
    if q != v {
      assert q[0] == '"';
    }
  }

  /**
   * The Scrag rule leaves the comma after the written Condition cell alone:
   * the row is not a Scrag row, or its written Condition is not a row
   * reference the rule (as written or corrected) recognises.
   */
  predicate ScragSafe(vs: seq<string>, fixed: bool)
    requires |vs| == 7
  {
    !KeepsComma(vs[1] == "Scrag", 3, QuoteField("Condition", vs[3], vs[1]), fixed)
  }

  /**
   * Writing seven good values as a row and splitting the text again gives
   * back the values, as long as the Scrag rule leaves the comma after the
   * Condition cell alone.
   */
  lemma SerializedRowRoundTrip(vs: seq<string>, fixed: bool)
    requires |vs| == 7 && forall i :: 0 <= i < 7 ==> Good(vs[i])
    requires ScragSafe(vs, fixed)
    ensures Cells(RowBody(vs), fixed) == vs
  {
    var qs := QuotedValues(vs);
    QuotedCells(vs);
    ScragCellText(vs[1]);
    assert !KeepsComma(qs[1] == "Scrag", 3, qs[3], fixed);
    CellsJoined(qs, vs, fixed);
  }

  /** Seven cell texts joined by ", " split and clean up into the values they were written from. */
  lemma CellsJoined(qs: seq<string>, vs: seq<string>, fixed: bool)
    requires |qs| == 7 && |vs| == 7 && forall i :: 0 <= i < 7 ==> CellText(qs[i]) && Cleanup(qs[i]) == vs[i]
    requires !KeepsComma(qs[1] == "Scrag", 3, qs[3], fixed)
    ensures Cells(Join(", ", qs), fixed) == vs
  {
    FinishJoined(qs, fixed);
    SameElements(CleanupAll(qs), vs);
  }

  /** Each written value is one cell text that cleans up to the value. */
  lemma QuotedCells(vs: seq<string>)
    requires |vs| == 7 && forall i :: 0 <= i < 7 ==> Good(vs[i])
    ensures forall i :: 0 <= i < 7 ==> CellText(QuotedValues(vs)[i]) && Cleanup(QuotedValues(vs)[i]) == vs[i]
  {
    var qs := QuotedValues(vs);
    forall i | 0 <= i < 7
      ensures CellText(qs[i]) && Cleanup(qs[i]) == vs[i]
    {
      GoodCellText(Columns[i], vs[i], vs[1]);
    }
  }

  /** Seven cell texts joined by ", " split back into themselves. */
  lemma FinishJoined(qs: seq<string>, fixed: bool)
    requires |qs| == 7 && forall i :: 0 <= i < 7 ==> CellText(qs[i])
    requires !KeepsComma(qs[1] == "Scrag", 3, qs[3], fixed)
    ensures Finish(Run(Start, Join(", ", qs), fixed)) == qs
  {
    RunJoined(qs, 7, fixed);
    assert qs[..7] == qs;
    StripAfterSpace(qs[6]);
    FrontAndLast(qs);
  }

  /**
   * With the corrected Scrag rule every row of good values comes back whose
   * Scrag Condition, if any, holds a comma (and so is written in quotes).
   */
  lemma CorrectedRowRoundTrip(vs: seq<string>)
    requires |vs| == 7 && forall i :: 0 <= i < 7 ==> Good(vs[i])
    requires vs[1] == "Scrag" ==> ',' in vs[3]
    ensures Cells(RowBody(vs), true) == vs
  {
    if vs[1] == "Scrag" {
      var q := QuoteField("Condition", vs[3], vs[1]);
      assert vs[3][0] != '"';
      assert q == "\"" + vs[3] + "\"";
      var t := DropLeadingQuote(q);
      assert t[|t| - 1] == '"';
      assert !IsDigits(t[1..]) by {
        if |t| >= 2 {
          assert t[1..][|t| - 2] == '"';
        }
      }
    }
    SerializedRowRoundTrip(vs, true);
  }

  // -------------------------------------- the Scrag rule on unquoted text

  predicate NoBrackets(s: string) {
    forall i :: 0 <= i < |s| ==> s[i] != '(' && s[i] != '[' && s[i] != ')' && s[i] != ']'
  }

  /** Text without brackets leaves the bracket flag as it was. */
  lemma {:induction false} BracketFlagFree(f: bool, s: string)
    requires NoBrackets(s)
    ensures BracketFlag(f, s) == f
    decreases |s|
  {
    if |s| > 0 {
      BracketFlagFree(f, s[..|s| - 1]);
    }
  }

  /** A row name is a cell text of its own, and the pattern `^"?R\d+$` matches it. */
  lemma RowNameCell(r: string)
    requires RowName(r)
    ensures CellText(r) && RowRef(r) && ',' !in r && '"' !in r
  {
    assert forall i :: 1 <= i < |r| ==> r[i] == r[1..][i - 1];
    BracketFlagFree(false, r);
  }

  /** A digit string holds no quote, comma, bracket or space. */
  lemma DigitsPlain(n: string)
    requires IsDigits(n)
    ensures ',' !in n && '"' !in n && NoBrackets(n) && Trimmed(n)
  {
  }

  /** The comma after a row name in the Condition cell of a Scrag row is kept. */
  lemma KeptComma(st: Splitter, fixed: bool)
    requires !st.inQuotes && !st.inParen && st.index == 3 && st.scrag && RowName(Strip(st.cur))
    ensures Step(st, ',', fixed) == st.(cur := st.cur + ",")
  {
    RowNameCell(Strip(st.cur));
    SecondCommaCheckNeverHolds(st.cur);
    KeepStep(st, fixed);
  }

  /** The pieces of `r + "," + n` and where its first comma is. */
  lemma CountText(r: string, n: string, rest: string)
    requires RowName(r) && IsDigits(n)
    ensures FindCharIndex(r + "," + n + rest, ',') == |r|
    ensures (r + "," + n + rest)[1..|r|] == r[1..] && (r + "," + n + rest)[|r| + 1..] == n + rest
    ensures !RowRef(r + "," + n + rest)
  {
    RowNameCell(r);
    var c := r + "," + n + rest;
    assert c[|r|] == ',';
    assert forall j :: 0 <= j < |r| ==> c[j] == r[j];
    FindCharFirst(c, ',', |r|);
    assert c[1..][|r| - 1] == ',';
  }

  /** `r,n` matches `^"?R\d+,\d*"?$`. */
  lemma CountedRef(r: string, n: string)
    requires RowName(r) && IsDigits(n)
    ensures RowRefWithCount(r + "," + n)
  {
    var c := r + "," + n;
    CountText(r, n, "");
    assert c + "" == c;
    assert c[0] == 'R' && c[|c| - 1] == n[|n| - 1];
    assert Unquoted(c) == c;
  }

  /** The Condition cell `r,n` after its space: stripped, it is `r,n`, no bare row reference but one with a count. */
  lemma CountCell(r: string, n: string)
    requires RowName(r) && IsDigits(n)
    ensures Strip(" " + r + "," + n) == r + "," + n
    ensures !RowRef(r + "," + n) && RowRefWithCount(r + "," + n)
  {
    var c := r + "," + n;
    EmptyRight(c);
    CountText(r, n, "");
    DigitsPlain(n);
    AppendParts(r + ",", n);
    Regroup(" ", r, ",", n);
    StripAfterSpace(c);
    CountedRef(r, n);
  }

  /**
   * The comma after the count: as written the pattern `^"?R\d+,\d*"?$`
   * keeps it too; corrected, it ends the Condition cell `r,n`.
   */
  lemma CountComma(st: Splitter, r: string, n: string)
    requires !st.inQuotes && !st.inParen && st.index == 3 && st.scrag
    requires RowName(r) && IsDigits(n) && st.cur == " " + r + "," + n
    ensures Step(st, ',', false) == st.(cur := st.cur + ",")
    ensures Step(st, ',', true) == Splitter(st.cells + [r + "," + n], "", false, false, 4, true)
  {
    CountCommaKept(st, r, n);
    CountCommaEnds(st, r, n);
  }

  /** As written, the comma after the count is kept. */
  lemma CountCommaKept(st: Splitter, r: string, n: string)
    requires !st.inQuotes && !st.inParen && st.index == 3 && st.scrag
    requires RowName(r) && IsDigits(n) && st.cur == " " + r + "," + n
    ensures Step(st, ',', false) == st.(cur := st.cur + ",")
  {
    CountCell(r, n);
    SecondCommaCheckNeverHolds(st.cur);
    KeepStep(st, false);
  }

  /** Corrected, the comma after the count ends the Condition cell. */
  lemma CountCommaEnds(st: Splitter, r: string, n: string)
    requires !st.inQuotes && !st.inParen && st.index == 3 && st.scrag
    requires RowName(r) && IsDigits(n) && st.cur == " " + r + "," + n
    ensures Step(st, ',', true) == Splitter(st.cells + [r + "," + n], "", false, false, 4, true)
  {
    CountCell(r, n);
    CellBoundary(st, true);
  }

  /** The text of a Condition cell that took in the next cell is no row reference. */
  lemma MergedText(r: string, n: string, x: string)
    requires RowName(r) && IsDigits(n) && CellText(x) && |x| > 0
    ensures Strip(" " + r + "," + n + "," + " " + x) == r + "," + n + ", " + x
    ensures !RowRef(r + "," + n + ", " + x) && !RowRefWithCount(r + "," + n + ", " + x)
  {
    MergedStrip(r, n, x);
    MergedNotRef(r, n, x);
  }

  /** `r,n, x` is neither kind of row reference, whatever `x` is. */
  lemma MergedNotRef(r: string, n: string, x: string)
    requires RowName(r) && IsDigits(n)
    ensures !RowRef(r + "," + n + ", " + x) && !RowRefWithCount(r + "," + n + ", " + x)
  {
    assert r + "," + n + ", " + x == r + "," + n + (", " + x);
    NotCountedRef(r, n, ", " + x);
  }

  /** The merged Condition cell after its space, stripped. */
  lemma MergedStrip(r: string, n: string, x: string)
    requires RowName(r) && CellText(x) && |x| > 0
    ensures Strip(" " + r + "," + n + "," + " " + x) == r + "," + n + ", " + x
  {
    var c := r + "," + n + ", " + x;
    assert " " + r + "," + n + "," + " " + x == " " + c;
    assert c[0] == 'R' && c[|c| - 1] == x[|x| - 1];
    StripAfterSpace(c);
  }

  /** The comma after the next cell text, as written: it ends the merged Condition cell. */
  lemma MergedComma(st: Splitter, r: string, n: string, x: string)
    requires !st.inQuotes && !st.inParen && st.index == 3 && st.scrag
    requires RowName(r) && IsDigits(n) && CellText(x) && |x| > 0 && st.cur == " " + r + "," + n + "," + " " + x
    ensures Step(st, ',', false) == Splitter(st.cells + [r + "," + n + ", " + x], "", false, false, 4, true)
  {
    MergedText(r, n, x);
    CellBoundary(st, false);
  }

  /** `r,n` followed by a comma and more is neither `^"?R\d+$` nor `^"?R\d+,\d*"?$`. */
  lemma NotCountedRef(r: string, n: string, rest: string)
    requires RowName(r) && IsDigits(n) && |rest| > 0 && rest[0] == ','
    ensures !RowRef(r + "," + n + rest) && !RowRefWithCount(r + "," + n + rest)
  {
    var c := r + "," + n + rest;
    CountText(r, n, rest);
    assert DropLeadingQuote(c) == c;
    var u := Unquoted(c);
    assert u == if c[|c| - 1] == '"' then c[..|c| - 1] else c;
    assert |rest| == 1 ==> c[|c| - 1] == ',';
    assert |u| > |r| + 1 + |n| && u[|r| + 1 + |n|] == ',';
    RowNameCell(r);
    assert forall j :: 0 <= j <= |r| ==> u[j] == c[j];
    FindCharFirst(u, ',', |r|);
    assert u[|r| + 1..][|n|] == ',';
    assert !AllDigits(u[|r| + 1..]);
  }

  /** The text of a Condition cell `r,n,` is no row reference. */
  lemma MergedEmptyText(r: string, n: string)
    requires RowName(r) && IsDigits(n)
    ensures Strip(" " + r + "," + n + "," + " ") == r + "," + n + ","
    ensures !RowRef(r + "," + n + ",") && !RowRefWithCount(r + "," + n + ",")
  {
    var c := r + "," + n + ",";
    assert " " + r + "," + n + "," + " " == " " + c + " ";
    CountText(r, n, ",");
    assert c[|c| - 1] == ',';
    StripPadded(c);
    NotCountedRef(r, n, ",");
  }

  /** As written, the comma after an empty cell that follows `r,n,` ends the Condition cell `r,n,`. */
  lemma MergedEmptyComma(st: Splitter, r: string, n: string)
    requires !st.inQuotes && !st.inParen && st.index == 3 && st.scrag
    requires RowName(r) && IsDigits(n) && st.cur == " " + r + "," + n + "," + " "
    ensures Step(st, ',', false) == Splitter(st.cells + [r + "," + n + ","], "", false, false, 4, true)
  {
    MergedEmptyText(r, n);
    CellBoundary(st, false);
  }

  /** From a finished cell, a space, a cell text and a separating comma finish the next cell. */
  lemma ContinueCell(st: Splitter, x: string, fixed: bool)
    requires st.cur == "" && !st.inQuotes && !st.inParen && st.index >= 4 && CellText(x)
    ensures Run(st, " " + x + ",", fixed) == Splitter(st.cells + [x], "", false, false, st.index + 1, st.scrag)
  {
    var st1 := st.(cur := " " + x);
    NextCell(st, x, fixed);
    RunAppend(st, " " + x, ",", fixed);
    RunOne(st1, ',', fixed);
    StripAfterSpace(x);
    CellBoundary(st1, fixed);
  }

  /**
   * A Scrag row whose Condition starts with an unquoted row name and a
   * count: after `Row, CMD, Description, r,n` the splitter is still inside
   * the Condition cell.
   */
  lemma ScragCount(p: seq<string>, r: string, n: string, fixed: bool)
    requires |p| == 3 && p[1] == "Scrag" && (forall i :: 0 <= i < 3 ==> CellText(p[i]))
    requires RowName(r) && IsDigits(n)
    ensures Run(Start, Join(", ", p + [r]) + "," + n, fixed) == Splitter(p, " " + r + "," + n, false, false, 3, true)
  {
    var qs := p + [r];
    RowNameCell(r);
    RunJoined(qs, 4, fixed);
    assert qs[..4] == qs && qs[..3] == p;
    var m := Mid(qs, 4);
    var j := Join(", ", qs);
    StripAfterSpace(r);
    KeptComma(m, fixed);
    RunAppend(Start, j, ",", fixed);
    RunOne(m, ',', fixed);
    var m1 := m.(cur := " " + r + ",");
    DigitsPlain(n);
    RunPlain(m1, n, fixed);
    BracketFlagFree(false, n);
    RunAppend(Start, j + ",", n, fixed);
  }

  /**
   * As written, the cell after `r,n` is merged into the Condition cell:
   * `R03,2, N,` gives the Condition `R03,2, N`; an empty cell leaves
   * `R03,2,`, whose trailing comma the clean-up drops.
   */
  lemma ScragRowAsWritten(p: seq<string>, r: string, n: string, x: string)
    requires |p| == 3 && p[1] == "Scrag" && (forall i :: 0 <= i < 3 ==> CellText(p[i]))
    requires RowName(r) && IsDigits(n) && CellText(x)
    ensures Run(Start, Join(", ", p + [r]) + "," + n + "," + " " + x + ",", false) ==
            Splitter(p + [if |x| > 0 then r + "," + n + ", " + x else r + "," + n + ","], "", false, false, 4, true)
  {
    var h := Join(", ", p + [r]) + "," + n;
    var m4 := Splitter(p, " " + r + "," + n + "," + " " + x, false, false, 3, true);
    AsWrittenBeforeLastComma(p, r, n, x);
    Extend(h + "," + " " + x, ',', m4, false);
    if |x| > 0 {
      MergedComma(m4, r, n, x);
    } else {
      assert m4.cur == " " + r + "," + n + "," + " ";
      MergedEmptyComma(m4, r, n);
    }
  }

  /** As written, the comma after the count is kept. */
  lemma AsWrittenCountComma(p: seq<string>, r: string, n: string)
    requires |p| == 3 && p[1] == "Scrag" && (forall i :: 0 <= i < 3 ==> CellText(p[i]))
    requires RowName(r) && IsDigits(n)
    ensures Run(Start, Join(", ", p + [r]) + "," + n + ",", false) == Splitter(p, " " + r + "," + n + ",", false, false, 3, true)
  {
    var m2 := Splitter(p, " " + r + "," + n, false, false, 3, true);
    ScragCount(p, r, n, false);
    CountComma(m2, r, n);
    Extend(Join(", ", p + [r]) + "," + n, ',', m2, false);
  }

  /** A space and a cell text add to the current cell. */
  lemma ExtendCell(t: string, st: Splitter, x: string, fixed: bool)
    requires Run(Start, t, fixed) == st && !st.inQuotes && !st.inParen && CellText(x)
    ensures Run(Start, t + " " + x, fixed) == st.(cur := st.cur + " " + x)
  {
    var st' := st.(cur := st.cur + " ");
    RunSnoc(Start, t, ' ', fixed);
    PlainStep(st, ' ', fixed);
    assert !EndsWithChar(st'.cur, '\\');
    RunAppend(Start, t + " ", x, fixed);
    RunCellText(st', x, fixed);
  }

  /** As written, the next cell text then joins the Condition cell. */
  lemma AsWrittenBeforeLastComma(p: seq<string>, r: string, n: string, x: string)
    requires |p| == 3 && p[1] == "Scrag" && (forall i :: 0 <= i < 3 ==> CellText(p[i]))
    requires RowName(r) && IsDigits(n) && CellText(x)
    ensures Run(Start, Join(", ", p + [r]) + "," + n + "," + " " + x, false) ==
            Splitter(p, " " + r + "," + n + "," + " " + x, false, false, 3, true)
  {
    AsWrittenCountComma(p, r, n);
    ExtendCell(Join(", ", p + [r]) + "," + n + ",", Splitter(p, " " + r + "," + n + ",", false, false, 3, true), x, false);
  }

  /** Corrected, the comma after `r,n` ends the Condition cell and the next cell stays its own. */
  lemma ScragRowCorrected(p: seq<string>, r: string, n: string, x: string)
    requires |p| == 3 && p[1] == "Scrag" && (forall i :: 0 <= i < 3 ==> CellText(p[i]))
    requires RowName(r) && IsDigits(n) && CellText(x)
    ensures Run(Start, Join(", ", p + [r]) + "," + n + "," + " " + x + ",", true) ==
            Splitter(p + [r + "," + n, x], "", false, false, 5, true)
  {
    var h := Join(", ", p + [r]) + "," + n + ",";
    var m3 := Splitter(p + [r + "," + n], "", false, false, 4, true);
    CorrectedCountComma(p, r, n);
    ContinueCell(m3, x, true);
    RunAppend(Start, h, " " + x + ",", true);
    Regroup(h, " ", x, ",");
  }

  /** Corrected, the comma after the count ends the Condition cell. */
  lemma CorrectedCountComma(p: seq<string>, r: string, n: string)
    requires |p| == 3 && p[1] == "Scrag" && (forall i :: 0 <= i < 3 ==> CellText(p[i]))
    requires RowName(r) && IsDigits(n)
    ensures Run(Start, Join(", ", p + [r]) + "," + n + ",", true) == Splitter(p + [r + "," + n], "", false, false, 4, true)
  {
    var m2 := Splitter(p, " " + r + "," + n, false, false, 3, true);
    ScragCount(p, r, n, true);
    CountComma(m2, r, n);
    Extend(Join(", ", p + [r]) + "," + n, ',', m2, true);
  }

  /** After a finished cell, one more cell text and its comma finish that cell too. */
  lemma RunAfterCell(t: string, st: Splitter, q: string, fixed: bool)
    requires Run(Start, t, fixed) == st && st.cur == "" && !st.inQuotes && !st.inParen && st.index >= 4
    requires CellText(q)
    ensures Run(Start, t + " " + q + ",", fixed) == Splitter(st.cells + [q], "", false, false, st.index + 1, st.scrag)
  {
    ContinueCell(st, q, fixed);
    RunAppend(Start, t, " " + q + ",", fixed);
    Regroup(t, " ", q, ",");
  }

  /** After a finished cell, one more cell text, its comma and a final space close the row. */
  lemma FinishAfter(t: string, st: Splitter, q: string, fixed: bool)
    requires Run(Start, t, fixed) == st && st.cur == "" && !st.inQuotes && !st.inParen && st.index >= 4
    requires CellText(q)
    ensures Finish(Run(Start, t + " " + q + "," + " ", fixed)) == st.cells + [q, ""]
  {
    RunAfterCell(t, st, q, fixed);
    var st5 := Splitter(st.cells + [q], "", false, false, st.index + 1, st.scrag);
    RunSnoc(Start, t + " " + q + ",", ' ', fixed);
    PlainStep(st5, ' ', fixed);
    StripAllSpace(" ");
    SnocSnoc(st.cells, q, "");
  }

  /** The text of a Scrag row whose Condition is written `r,n` without quotes, followed by two more cells. */
  function ScragLine(p: seq<string>, r: string, n: string, x: string, q: string): string {
    Join(", ", p + [r]) + "," + n + "," + " " + x + "," + " " + q + "," + " "
  }

  /**
   * As written, the cell after an unquoted `r,n` is merged into the
   * Condition: `R03,2, N` stays together and the row loses a cell. When
   * that cell is empty, the clean-up recovers the Condition `r,n`.
   */
  lemma ScragLineAsWritten(p: seq<string>, r: string, n: string, x: string, q: string)
    requires |p| == 3 && p[1] == "Scrag" && (forall i :: 0 <= i < 3 ==> CellText(p[i]))
    requires RowName(r) && IsDigits(n) && CellText(x) && CellText(q)
    ensures Cells(ScragLine(p, r, n, x, q), false) ==
            CleanupAll(p + [if |x| > 0 then r + "," + n + ", " + x else r + "," + n + ",", q, ""])
  {
    var merged := if |x| > 0 then r + "," + n + ", " + x else r + "," + n + ",";
    ScragRowAsWritten(p, r, n, x);
    FinishAfter(Join(", ", p + [r]) + "," + n + "," + " " + x + ",", Splitter(p + [merged], "", false, false, 4, true), q, false);
    SnocPair(p, merged, q, "");
  }

  /** Corrected, the same text splits into the Condition `r,n` and the cells after it. */
  lemma ScragLineCorrected(p: seq<string>, r: string, n: string, x: string, q: string)
    requires |p| == 3 && p[1] == "Scrag" && (forall i :: 0 <= i < 3 ==> CellText(p[i]))
    requires RowName(r) && IsDigits(n) && CellText(x) && CellText(q)
    ensures Cells(ScragLine(p, r, n, x, q), true) == CleanupAll(p + [r + "," + n, x, q, ""])
  {
    ScragRowCorrected(p, r, n, x);
    FinishAfter(Join(", ", p + [r]) + "," + n + "," + " " + x + ",",
                Splitter(p + [r + "," + n, x], "", false, false, 5, true), q, true);
    PairPair(p, r + "," + n, x, q, "");
  }

  // ------------------------------------- the Scrag rule on quoted text

  /** The count pattern fails when the text after the first comma is not all digits. */
  lemma NoCountAfterComma(s: string, u: string, i: nat)
    requires u == Unquoted(s)
    requires FindCharIndex(u, ',') == i && !AllDigits(u[i + 1..])
    ensures !RowRefWithCount(s)
  {
  }

  /** `"r,n"`: a Scrag Condition as the serializer writes it. */
  function QuotedRef(r: string, n: string): string {
    "\"" + r + "," + n + "\""
  }

  /** `r,n` holds no quote, bracket or surrounding space. */
  lemma CountPlain(r: string, n: string)
    requires RowName(r) && IsDigits(n)
    ensures '"' !in r + "," + n && NoBrackets(r + "," + n) && Trimmed(r + "," + n) && !EndsWithChar(r + "," + n, '\\')
  {
    var c := r + "," + n;
    RowNameCell(r);
    DigitsPlain(n);
    forall i | 0 <= i < |c|
      ensures c[i] != '"' && c[i] != '(' && c[i] != '[' && c[i] != ')' && c[i] != ']'
    {
      if i < |r| {
        assert c[i] == r[i];
      } else if i > |r| {
        assert c[i] == n[i - |r| - 1];
      }
    }
    assert c[|c| - 1] == n[|n| - 1];
  }

  /** The Condition cell that, as written, took in the comma and the next cell text `x`. */
  function MergedQuoted(r: string, n: string, x: string): string {
    QuotedRef(r, n) + (if |x| > 0 then ", " + x else ",")
  }

  /** A written Scrag Condition is a cell text. */
  lemma QuotedRefCell(r: string, n: string)
    requires RowName(r) && IsDigits(n)
    ensures CellText(QuotedRef(r, n))
  {
    var w := QuotedRef(r, n);
    var c := r + "," + n;
    assert w == "\"" + c + "\"" && w[1..|w| - 1] == c;
    CountPlain(r, n);
    BracketFlagFree(false, c);
  }

  /** As written, the Scrag rule recognises a written Scrag Condition; corrected, it does not. */
  lemma QuotedRefPatterns(r: string, n: string)
    requires RowName(r) && IsDigits(n)
    ensures RowRefWithCount(QuotedRef(r, n)) && !RowRef(QuotedRef(r, n))
  {
    QuotedRefCounted(r, n);
    QuotedRefNotName(r, n);
  }

  /** The quotes of a written Scrag Condition come off, leaving `r,n`. */
  lemma QuotedRefUnquoted(r: string, n: string)
    ensures DropLeadingQuote(QuotedRef(r, n)) == r + "," + n + "\""
    ensures Unquoted(QuotedRef(r, n)) == r + "," + n
  {
    var t := r + "," + n + "\"";
    assert QuotedRef(r, n) == "\"" + t;
    assert t[..|t| - 1] == r + "," + n;
  }

  lemma QuotedRefCounted(r: string, n: string)
    requires RowName(r) && IsDigits(n)
    ensures RowRefWithCount(QuotedRef(r, n))
  {
    var c := r + "," + n;
    QuotedRefUnquoted(r, n);
    CountText(r, n, "");
    assert c + "" == c;
  }

  lemma QuotedRefNotName(r: string, n: string)
    requires RowName(r)
    ensures !RowRef(QuotedRef(r, n))
  {
    var t := r + "," + n + "\"";
    QuotedRefUnquoted(r, n);
    assert t[1..][|r| - 1] == ',';
  }

  /** Stripping the Condition cell that took in the comma and the next cell. */
  lemma QuotedMergedStrip(r: string, n: string, x: string)
    requires RowName(r) && IsDigits(n) && CellText(x)
    ensures Strip(" " + QuotedRef(r, n) + "," + " " + x) == MergedQuoted(r, n, x)
  {
    var w := QuotedRef(r, n);
    var c := MergedQuoted(r, n, x);
    if |x| > 0 {
      assert " " + w + "," + " " + x == " " + c;
      assert c[|c| - 1] == x[|x| - 1];
      StripAfterSpace(c);
    } else {
      assert " " + w + "," + " " + x == " " + c + " ";
      StripPadded(c);
    }
  }

  /** Removing the quotes around `"` + `t` keeps the first `k` characters of `t`, for `k` short of its end. */
  lemma UnquotedPrefix(t: string, k: nat)
    requires k < |t|
    ensures |Unquoted("\"" + t)| >= k && Unquoted("\"" + t)[..k] == t[..k]
  {
    assert DropLeadingQuote("\"" + t) == t;
  }

  /** A quote, `r,n`, a quote and more text is no row reference. */
  lemma NotRefWithQuote(r: string, n: string, rest: string)
    requires RowName(r) && IsDigits(n) && |rest| >= 2 && rest[0] == '"'
    ensures !RowRef("\"" + (r + "," + n + rest)) && !RowRefWithCount("\"" + (r + "," + n + rest))
  {
    var t := r + "," + n + rest;
    CountText(r, n, rest);
    assert DropLeadingQuote("\"" + t) == t == DropLeadingQuote(t);
    NoCountWithQuote(r, n, rest);
  }

  lemma NoCountWithQuote(r: string, n: string, rest: string)
    requires RowName(r) && IsDigits(n) && |rest| >= 2 && rest[0] == '"'
    ensures !RowRefWithCount("\"" + (r + "," + n + rest))
  {
    var t := r + "," + n + rest;
    var u := Unquoted("\"" + t);
    UnquotedPrefix(t, |r| + 2 + |n|);
    assert u[|r| + 1 + |n|] == '"' && u[|r|] == ',';
    RowNameCell(r);
    assert forall j :: 0 <= j < |r| ==> u[j] == r[j];
    FindCharFirst(u, ',', |r|);
    assert u[|r| + 1..][|n|] == '"';
    NoCountAfterComma("\"" + t, u, |r|);
  }

  /** The Condition cell text that took in the comma and the next cell is no row reference. */
  lemma QuotedMergedText(r: string, n: string, x: string)
    requires RowName(r) && IsDigits(n)
    ensures !RowRef(MergedQuoted(r, n, x)) && !RowRefWithCount(MergedQuoted(r, n, x))
  {
    var tail := if |x| > 0 then ", " + x else ",";
    QuotedTail(r, n, tail);
    NotRefWithQuote(r, n, "\"" + tail);
  }

  /** Regrouping the text of a quoted Condition followed by more. */
  lemma QuotedTail(r: string, n: string, tail: string)
    ensures QuotedRef(r, n) + tail == "\"" + (r + "," + n + ("\"" + tail))
  {
    var w := QuotedRef(r, n);
    var b := r + "," + n;
    assert w == "\"" + b + "\"";
    assert |w + tail| == |"\"" + (b + ("\"" + tail))|;
    forall i | 0 <= i < |w + tail|
      ensures (w + tail)[i] == ("\"" + (b + ("\"" + tail)))[i]
    {
      if i == 0 {
      } else if i <= |b| {
        assert (w + tail)[i] == b[i - 1];
      } else if i == |b| + 1 {
      } else {
        assert (w + tail)[i] == tail[i - |b| - 2];
      }
    }
  }

  /** As written, the comma after a quoted Scrag Condition is kept. */
  lemma QuotedKept(p: seq<string>, r: string, n: string)
    requires |p| == 3 && p[1] == "Scrag" && (forall i :: 0 <= i < 3 ==> CellText(p[i]))
    requires RowName(r) && IsDigits(n)
    ensures Run(Start, Join(", ", p + [QuotedRef(r, n)]) + ",", false) ==
            Splitter(p, " " + QuotedRef(r, n) + ",", false, false, 3, true)
  {
    var w := QuotedRef(r, n);
    var qs := p + [w];
    QuotedRefCell(r, n);
    QuotedRefPatterns(r, n);
    RunJoined(qs, 4, false);
    assert qs[..4] == qs && qs[..3] == p;
    var m := Mid(qs, 4);
    StripAfterSpace(w);
    SecondCommaCheckNeverHolds(m.cur);
    KeepStep(m, false);
    Extend(Join(", ", qs), ',', m, false);
  }

  /** As written, the next cell text joins the quoted Condition, and the comma after it ends the cell. */
  lemma QuotedMerged(p: seq<string>, r: string, n: string, x: string)
    requires |p| == 3 && p[1] == "Scrag" && (forall i :: 0 <= i < 3 ==> CellText(p[i]))
    requires RowName(r) && IsDigits(n) && CellText(x)
    ensures Run(Start, Join(", ", p + [QuotedRef(r, n)]) + "," + " " + x + ",", false) ==
            Splitter(p + [MergedQuoted(r, n, x)], "", false, false, 4, true)
  {
    var t := Join(", ", p + [QuotedRef(r, n)]) + ",";
    var m := Splitter(p, " " + QuotedRef(r, n) + ",", false, false, 3, true);
    QuotedKept(p, r, n);
    ExtendCell(t, m, x, false);
    var m' := m.(cur := m.cur + " " + x);
    Extend(t + " " + x, ',', m', false);
    QuotedMergedStrip(r, n, x);
    QuotedMergedText(r, n, x);
    CellBoundary(m', false);
  }

  /** From a finished cell, a space and a last cell text close the row. */
  lemma FinishLast(t: string, st: Splitter, q: string, fixed: bool)
    requires Run(Start, t, fixed) == st && st.cur == "" && !st.inQuotes && !st.inParen && CellText(q)
    ensures Finish(Run(Start, t + " " + q, fixed)) == st.cells + [q]
  {
    var st' := Run(Start, t + " " + q, fixed);
    ExtendCell(t, st, q, fixed);
    EmptyLeft(" ");
    assert st'.cur == " " + q && st'.cells == st.cells;
    StripAfterSpace(q);
  }

  /** Seven cell texts joined by ", ", cut after the Condition. */
  lemma JoinSeven(qs: seq<string>)
    requires |qs| == 7
    ensures Join(", ", qs) == Join(", ", qs[..4]) + "," + " " + qs[4] + "," + " " + qs[5] + "," + " " + qs[6]
  {
    var a := Join(", ", qs[..4]);
    JoinPrefix(", ", qs, 5);
    PyStr.CommaSpace(a, qs[4]);
    var b := a + "," + " " + qs[4];
    JoinPrefix(", ", qs, 6);
    PyStr.CommaSpace(b, qs[5]);
    var c := b + "," + " " + qs[5];
    JoinPrefix(", ", qs, 7);
    PyStr.CommaSpace(c, qs[6]);
    WholePrefix(qs);
  }

  /** `R\d+,\d+` matches `r,n`. */
  lemma CountIsScragPair(r: string, n: string)
    requires RowName(r) && IsDigits(n)
    ensures ScragPair(r + "," + n)
  {
    CountText(r, n, "");
    assert r + "," + n + "" == r + "," + n;
  }

  /**
   * As written, a serialized Scrag row never reads back: its Condition is
   * written in quotes (`"R03,2"`), the Scrag rule keeps the comma after it,
   * the Unit cell is merged into the Condition and the row comes back with
   * six cells.
   */
  lemma AsWrittenLosesScragCell(vs: seq<string>, r: string, n: string)
    requires |vs| == 7 && (forall i :: 0 <= i < 7 ==> Good(vs[i]))
    requires vs[1] == "Scrag" && RowName(r) && IsDigits(n) && vs[3] == r + "," + n
    ensures var qs := QuotedValues(vs);
            Cells(RowBody(vs), false) == CleanupAll(qs[..3] + [MergedQuoted(r, n, qs[4]), qs[5], qs[6]])
    ensures |Cells(RowBody(vs), false)| == 6 && Cells(RowBody(vs), false) != vs
  {
    var qs := QuotedValues(vs);
    QuotedCellTexts(vs);
    QuotedScragCondition(vs, r, n);
    AsWrittenQuotedScragCells(qs, r, n);
  }

  /** Good values are written as cell texts. */
  lemma QuotedCellTexts(vs: seq<string>)
    requires |vs| == 7 && (forall i :: 0 <= i < 7 ==> Good(vs[i]))
    ensures forall i :: 0 <= i < 7 ==> CellText(QuotedValues(vs)[i])
  {
    var qs := QuotedValues(vs);
    forall i | 0 <= i < 7
      ensures CellText(qs[i])
    {
      GoodCellText(Columns[i], vs[i], vs[1]);
    }
  }

  /** In a Scrag row the CMD cell is written as it is and the Condition `r,n` in quotes. */
  lemma QuotedScragCondition(vs: seq<string>, r: string, n: string)
    requires |vs| == 7 && vs[1] == "Scrag" && RowName(r) && IsDigits(n) && vs[3] == r + "," + n
    ensures QuotedValues(vs)[1] == "Scrag" && QuotedValues(vs)[3] == QuotedRef(r, n)
  {
    ScragCellText(vs[1]);
    CountIsScragPair(r, n);
    ScragPairHasComma(vs[3]);
    assert vs[3][0] == r[0];
    Regroup("\"", r, ",", n);
  }

  /** The cells, as written, of seven cell texts whose Condition is a quoted `"r,n"` in a Scrag row. */
  lemma AsWrittenQuotedScragCells(qs: seq<string>, r: string, n: string)
    requires |qs| == 7 && (forall i :: 0 <= i < 7 ==> CellText(qs[i]))
    requires qs[1] == "Scrag" && RowName(r) && IsDigits(n) && qs[3] == QuotedRef(r, n)
    ensures Finish(Run(Start, Join(", ", qs), false)) == qs[..3] + [MergedQuoted(r, n, qs[4]), qs[5], qs[6]]
  {
    var p := qs[..3];
    TakeOneMore(qs, 3);
    JoinSeven(qs);
    var t4 := Join(", ", qs[..4]) + "," + " " + qs[4] + ",";
    var m := MergedQuoted(r, n, qs[4]);
    QuotedMerged(p, r, n, qs[4]);
    var s4 := Splitter(p + [m], "", false, false, 4, true);
    RunAfterCell(t4, s4, qs[5], false);
    var s5 := Splitter(p + [m] + [qs[5]], "", false, false, 5, true);
    FinishLast(t4 + " " + qs[5] + ",", s5, qs[6], false);
    SnocThree(p, m, qs[5], qs[6]);
  }

  // ------------------------------------------- quote, bracket and count facts

  /** Every character but a comma is added to the current cell. */
  lemma StepAppends(st: Splitter, c: char, fixed: bool)
    requires c != ','
    ensures Step(st, c, fixed).cur == st.cur + [c] && Step(st, c, fixed).cells == st.cells
  {
  }

  /** After a character other than a comma, the current cell ends with it. */
  lemma LastCharInCell(st: Splitter, u: string, fixed: bool)
    requires |u| > 0 && u[|u| - 1] != ','
    ensures EndsWithChar(Run(st, u, fixed).cur, u[|u| - 1])
  {
    StepAppends(Run(st, u[..|u| - 1], fixed), u[|u| - 1], fixed);
  }

  /** Only a double quote moves the quote flag. */
  lemma StepKeepsQuotes(st: Splitter, c: char, fixed: bool)
    requires c != '"' || EndsWithChar(st.cur, '\\')
    ensures Step(st, c, fixed).inQuotes == st.inQuotes
  {
    if c == ',' && !(st.inParen || st.inQuotes) {
      SeparatorKeepsQuotes(st, fixed);
    } else {
      assert Step(st, c, fixed) == CharStep(st, c);
    }
  }

  /** A separating comma never moves the quote flag. */
  lemma SeparatorKeepsQuotes(st: Splitter, fixed: bool)
    ensures Separator(st, fixed).inQuotes == st.inQuotes
  {
    var completed := Strip(st.cur);
    var scrag := st.scrag || (st.index == 1 && completed == "Scrag");
    if KeepsComma(scrag, st.index, completed, fixed) {
      var kept := st.cur + [','];
      if RowRefComplete(Strip(kept)) {
      } else {
      }
    }
  }

  /**
   * A quote preceded by a backslash does not toggle the quote state: in a
   * text whose every double quote follows a backslash, the quote flag never
   * changes.
   */
  lemma {:induction false} EscapedQuotesKeepState(st: Splitter, u: string, fixed: bool)
    requires forall i :: 0 <= i < |u| && u[i] == '"' ==> i > 0 && u[i - 1] == '\\'
    ensures Run(st, u, fixed).inQuotes == st.inQuotes
    decreases |u|
  {
    if |u| > 0 {
      var u' := u[..|u| - 1];
      assert forall i :: 0 <= i < |u'| ==> u'[i] == u[i];
      EscapedQuotesKeepState(st, u', fixed);
      if u[|u| - 1] == '"' {
        assert u'[|u'| - 1] == '\\';
        LastCharInCell(st, u', fixed);
      }
      StepKeepsQuotes(Run(st, u', fixed), u[|u| - 1], fixed);
    }
  }

  /** Inside brackets, a character other than a quote or a bracket joins the cell. */
  lemma StepInBrackets(st: Splitter, c: char, fixed: bool)
    requires st.inParen && c != '"' && c != '(' && c != '[' && c != ')' && c != ']'
    ensures Step(st, c, fixed) == st.(cur := st.cur + [c])
  {
  }

  /** The prefixes of a text free of quotes and brackets are free of them too. */
  lemma PlainPrefix(u: string)
    requires |u| > 0 && '"' !in u && NoBrackets(u)
    ensures '"' !in u[..|u| - 1] && NoBrackets(u[..|u| - 1])
    ensures var c := u[|u| - 1]; c != '"' && c != '(' && c != '[' && c != ')' && c != ']'
  {
    assert forall i :: 0 <= i < |u| - 1 ==> u[..|u| - 1][i] == u[i];
  }

  /** Inside brackets, text without quotes or brackets joins the cell, commas included. */
  lemma {:induction false} RunInBrackets(st: Splitter, u: string, fixed: bool)
    requires st.inParen && '"' !in u && NoBrackets(u)
    ensures Run(st, u, fixed) == st.(cur := st.cur + u)
    decreases |u|
  {
    if |u| > 0 {
      var u' := u[..|u| - 1];
      PlainPrefix(u);
      RunInBrackets(st, u', fixed);
      StepInBrackets(st.(cur := st.cur + u'), u[|u| - 1], fixed);
      assert st.cur + u' + [u[|u| - 1]] == st.cur + u;
    }
  }

  /**
   * Brackets set a flag rather than a depth: a bracketed text without
   * quotes or inner brackets is one piece of the cell, whatever commas it
   * holds, and the flag is down after it.
   */
  lemma RunBracketed(st: Splitter, v: string, fixed: bool)
    requires !st.inQuotes && '"' !in v && NoBrackets(v)
    ensures Run(st, "(" + v + ")", fixed) == st.(cur := st.cur + "(" + v + ")", inParen := false)
  {
    var st1 := st.(inParen := true, cur := st.cur + "(");
    RunOne(st, '(', fixed);
    RunAppend(st, "(", v, fixed);
    RunInBrackets(st1, v, fixed);
    RunAppend(st, "(" + v, ")", fixed);
    RunOne(st1.(cur := st1.cur + v), ')', fixed);
  }

  /**
   * `((v)`: two opening brackets and one closing bracket leave the flag
   * down, so a comma right after them ends the cell (a depth counter would
   * still be inside brackets).
   */
  lemma BracketFlagIsNotDepth(st: Splitter, v: string, fixed: bool)
    requires !st.inQuotes && '"' !in v && NoBrackets(v)
    ensures Run(st, "(" + ("(" + v + ")"), fixed).inParen == false
    ensures Run(st, "(" + ("(" + v + ")"), fixed).inQuotes == false
  {
    var st1 := st.(inParen := true, cur := st.cur + "(");
    RunOne(st, '(', fixed);
    RunAppend(st, "(", "(" + v + ")", fixed);
    RunBracketed(st1, v, fixed);
  }

  /** The commas of `s` that end a cell when read from `st`. */
  function SeparatorCount(st: Splitter, s: string, fixed: bool): nat
    decreases |s|
  {
    if |s| == 0 then 0
    else
      var before := Run(st, s[..|s| - 1], fixed);
      SeparatorCount(st, s[..|s| - 1], fixed) + (if |Step(before, s[|s| - 1], fixed).cells| > |before.cells| then 1 else 0)
  }

  /** A step finishes at most one cell, and the cell index counts the finished cells. */
  lemma StepCells(st: Splitter, c: char, fixed: bool)
    ensures |Step(st, c, fixed).cells| == |st.cells| || |Step(st, c, fixed).cells| == |st.cells| + 1
    ensures Step(st, c, fixed).index - st.index == |Step(st, c, fixed).cells| - |st.cells|
    ensures |Step(st, c, fixed).cells| == |st.cells| + 1 ==> c == ',' && !st.inParen && !st.inQuotes
  {
    if c == ',' && !(st.inParen || st.inQuotes) {
      CommaStepCells(st, fixed);
    } else {
      assert Step(st, c, fixed).cells == st.cells && Step(st, c, fixed).index == st.index;
    }
  }

  /** A separating comma, kept or not, finishes at most the one cell and moves the index with it. */
  lemma CommaStepCells(st: Splitter, fixed: bool)
    requires !(st.inParen || st.inQuotes)
    ensures var st' := Step(st, ',', fixed);
      (st'.cells == st.cells && st'.index == st.index) ||
      (|st'.cells| == |st.cells| + 1 && st'.index == st.index + 1)
  {
  }

  /**
   * The cell count is the number of separating commas plus one, and the
   * cell index is the number of cells finished so far.
   */
  lemma {:induction false} CellCount(s: string, fixed: bool)
    ensures |Run(Start, s, fixed).cells| == SeparatorCount(Start, s, fixed)
    ensures Run(Start, s, fixed).index == SeparatorCount(Start, s, fixed)
    ensures |Finish(Run(Start, s, fixed))| == SeparatorCount(Start, s, fixed) + 1
    ensures |Cells(s, fixed)| == SeparatorCount(Start, s, fixed) + 1
    decreases |s|
  {
    if |s| > 0 {
      var u := s[..|s| - 1];
      var before := Run(Start, u, fixed);
      var after := Step(before, s[|s| - 1], fixed);
      CellCount(u, fixed);
      StepCells(before, s[|s| - 1], fixed);
      assert Run(Start, s, fixed) == after;
      assert SeparatorCount(Start, s, fixed) ==
             SeparatorCount(Start, u, fixed) + (if |after.cells| > |before.cells| then 1 else 0);
    }
    CellsLength(s, fixed);
  }

  /** The clean-up keeps one cell per finished cell, plus the last one. */
  lemma CellsLength(s: string, fixed: bool)
    ensures |Finish(Run(Start, s, fixed))| == |Run(Start, s, fixed).cells| + 1
    ensures |Cells(s, fixed)| == |Run(Start, s, fixed).cells| + 1
  {
    var fin := Finish(Run(Start, s, fixed));
    assert |CleanupAll(fin)| == |fin|;
  }
}
