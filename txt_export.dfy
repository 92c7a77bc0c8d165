/**
 * `export_txt` (`services/export_service_txt.py`): the tester's text file.
 * The file name is built from the part number next to the requested path;
 * the file holds four header lines and one `|`-separated line per row.
 * Opening and writing the file is I/O: its failure is a given outcome.
 */
module TxtExport {
  import opened Wrappers
  import opened PyStr
  import opened Values
  import opened PromptText
  import KeySpecs
  import DataModels

  // ------------------------------------------------- the path

  /** Trailing `/` characters removed. */
  function RStripSlash(s: string): (r: string)
    ensures StartsWith(s, r)
    ensures |r| > 0 ==> r[|r| - 1] != '/'
    ensures forall i :: |r| <= i < |s| ==> s[i] == '/'
    decreases |s|
  {
    if |s| > 0 && s[|s| - 1] == '/' then RStripSlash(s[..|s| - 1]) else s
  }

  /**
   * `os.path.dirname` on POSIX: the text before the last `/`, with its
   * trailing slashes dropped unless it is made of slashes only.
   */
  function Dirname(path: string): (r: string)
    ensures StartsWith(path, r)
    ensures r == "" <==> '/' !in path
  {
    var cut := RFind(path, "/") + 1;
    var head := path[..cut];
    if cut > 0 then
      assert path[cut - 1..cut] == "/" && path[cut - 1] == '/';
      if exists i :: 0 <= i < |head| && head[i] != '/' then
        var i :| 0 <= i < |head| && head[i] != '/';
        var r := RStripSlash(head);
        assert i < |r|;
        r
      else head
    else
      assert forall i :: 0 <= i < |path| ==> path[i] != '/' by {
        forall i | 0 <= i < |path| ensures path[i] != '/' {
          assert !At(path, "/", i);
          assert path[i..i + 1] == [path[i]];
        }
      }
      head
  }

  /** `os.path.join(a, b)` on POSIX, for two components. */
  function JoinPath(a: string, b: string): (r: string)
    ensures EndsWith(r, b)
  {
    if StartsWith(b, "/") then b
    else if a == "" || EndsWith(a, "/") then a + b
    else a + "/" + b
  }

  /** The file name of the export: the part number, or "unknown_part" when there is none. */
  function TxtFileName(partNumber: string): string {
    "AS 01~" + (if partNumber == "" then "unknown_part" else partNumber) + ".txt"
  }

  /** The path written: the file name in the requested path's directory, or in "." when it has none. */
  function TxtPath(filePath: string, partNumber: string): (r: string)
    ensures EndsWith(r, TxtFileName(partNumber))
  {
    var dir := Dirname(filePath);
    JoinPath(if dir == "" then "." else dir, TxtFileName(partNumber))
  }

  /** A bare file name is replaced by the export's name in the current directory. */
  lemma TxtPathOfBareName(filePath: string, partNumber: string)
    requires '/' !in filePath
    ensures TxtPath(filePath, partNumber) == "./" + TxtFileName(partNumber)
  {
    assert TxtFileName(partNumber)[0] == 'A';
    assert "."[0] != '/';
  }

  /** In a directory `dir` (not ending in `/`), the export goes to `dir/AS 01~<number>.txt`. */
  lemma TxtPathInDirectory(dir: string, name: string, partNumber: string)
    requires |dir| > 0 && dir[|dir| - 1] != '/' && '/' !in name
    ensures TxtPath(dir + "/" + name, partNumber) == dir + "/" + TxtFileName(partNumber)
  {
    var path := dir + "/" + name;
    assert path[|dir|..|dir| + 1] == "/";
    assert At(path, "/", |dir|);
    forall i | |dir| < i ensures !At(path, "/", i) {
      if i < |path| {
        assert path[i] == name[i - |dir| - 1];
        assert path[i..i + 1] == [path[i]];
      }
    }
    assert RFind(path, "/") == |dir|;
    var head := path[..|dir| + 1];
    assert head == dir + "/";
    assert head[|dir| - 1] != '/';
    assert RStripSlash(head) == RStripSlash(dir);
    assert Dirname(path) == dir;
  }

  // ------------------------------------------------- the lines

  /** A line of the file: the fields, each followed by `|`, then a newline. */
  function Record(fields: seq<string>): string {
    Join("|", fields + ["\n"])
  }

  /** Fields without `|` are read back by splitting the line at `|`. */
  lemma RecordFields(fields: seq<string>)
    requires forall i :: 0 <= i < |fields| ==> '|' !in fields[i]
    ensures Split(Record(fields), "|") == fields + ["\n"]
  {
    var xs := fields + ["\n"];
    forall i | 0 <= i < |xs| ensures '|' !in xs[i] {
      if i < |fields| {
        assert xs[i] == fields[i];
      }
    }
    SplitJoin(xs, '|');
  }

  /** The four header lines; an empty free length is shown as "--". */
  function HeaderText(specs: Specs): (r: string) {
    var number := if specs.partNumber == "" then "unknown_part" else specs.partNumber;
    var free := if specs.freeLength == "" then "--" else specs.freeLength;
    Record(["1", "Part Number", "--", number]) +
    Record(["2", "Model Number", "--", specs.partName]) +
    Record(["3", "Free Length", "mm", free]) +
    Record(["<Test Sequence>", "N", "--", specs.testMode, specs.safetyLimit, "100"]) + "\n"
  }

  /** The columns of a row line, in order. */
  const RowColumns: seq<string> := ["CMD", "Description", "Condition", "Unit", "Tolerance", "Speed rpm"]

  /** The cells of a row: each column's value as text, "" where the row lacks it. */
  function RowCells(row: Dict<Value>): (cells: seq<string>)
    ensures |cells| == |RowColumns|
    ensures forall i :: 0 <= i < |RowColumns| ==> cells[i] == ToText(GetOr(row, RowColumns[i], Str("")))
  {
    seq(|RowColumns|, i requires 0 <= i < |RowColumns| => ToText(GetOr(row, RowColumns[i], Str(""))))
  }

  function RowLine(row: Dict<Value>): string {
    Record(RowCells(row))
  }

  /** A row whose cells lack `|` is read back from its line. */
  lemma RowLineFields(row: Dict<Value>)
    requires forall i :: 0 <= i < |RowColumns| ==> '|' !in ToText(GetOr(row, RowColumns[i], Str("")))
    ensures Split(RowLine(row), "|") == RowCells(row) + ["\n"]
  {
    RecordFields(RowCells(row));
  }

  /** The row lines, in order. */
  function RowsText(rows: seq<Dict<Value>>): string
    decreases |rows|
  {
    if |rows| == 0 then "" else RowsText(rows[..|rows| - 1]) + RowLine(rows[|rows| - 1])
  }

  /** The whole file. */
  function TxtContent(specs: Specs, rows: seq<Dict<Value>>): string {
    HeaderText(specs) + RowsText(rows)
  }

  /** The text of more rows continues the text of fewer. */
  lemma {:induction false} RowsTextAppend(a: seq<Dict<Value>>, b: seq<Dict<Value>>)
    ensures RowsText(a + b) == RowsText(a) + RowsText(b)
    decreases |b|
  {
    if |b| == 0 {
      assert a + b == a;
    } else {
      var front, last := b[..|b| - 1], b[|b| - 1];
      AppendParts(a, b);
      RowsTextAppend(a, front);
      Assoc(RowsText(a), RowsText(front), RowLine(last));
    }
  }

  /** One line per row: the row's line sits right after the lines of the rows before it. */
  lemma RowsTextLines(rows: seq<Dict<Value>>, i: nat)
    requires i < |rows|
    ensures RowsText(rows) == RowsText(rows[..i]) + RowLine(rows[i]) + RowsText(rows[i + 1..])
  {
    CutAt(rows, i);
    RowsTextAppend(rows[..i], rows[i..]);
    RowsTextFirst(rows[i..]);
    Assoc(RowsText(rows[..i]), RowLine(rows[i]), RowsText(rows[i + 1..]));
  }

  lemma RowsTextFirst(rows: seq<Dict<Value>>)
    requires |rows| > 0
    ensures RowsText(rows) == RowLine(rows[0]) + RowsText(rows[1..])
  {
    assert rows == [rows[0]] + rows[1..];
    RowsTextAppend([rows[0]], rows[1..]);
    RowsTextOne(rows[0]);
  }

  lemma RowsTextOne(row: Dict<Value>)
    ensures RowsText([row]) == RowLine(row)
  {
    assert [row][..0] == [];
  }

  lemma RowsTextSnoc(rows: seq<Dict<Value>>, k: nat)
    requires k < |rows|
    ensures RowsText(rows[..k + 1]) == RowsText(rows[..k]) + RowLine(rows[k])
  {
    PrefixStep(rows, k);
  }

  // ------------------------------------------------- the export

  /**
   * `export_txt(sequence, file_path)`: on success ("Successfully exported
   * to" the path actually used) `content` is what the file receives; when
   * opening the file fails with `failure`, the message reports it.
   */
  method ExportTxt(sequence: DataModels.TestSequence, filePath: string, failure: Option<string>)
    returns (ok: bool, message: string, path: string, content: string)
    ensures var specs := KeySpecs.KeySpecifications(sequence.parameters);
      path == TxtPath(filePath, specs.partNumber) &&
      (failure.None? ==> ok && message == "Successfully exported to " + path && content == TxtContent(specs, sequence.rows)) &&
      (failure.Some? ==> !ok && message == "TXT export error: " + failure.value && content == "")
  {
    var specs := KeySpecs.ExtractKeySpecifications(sequence);
    path := TxtPath(filePath, specs.partNumber);
    content := "";
    if failure.Some? {
      return false, "TXT export error: " + failure.value, path, content;
    }
    var header := HeaderText(specs);
    var lines := "";
    var rows := sequence.rows;
    var k := 0;
    while k < |rows|
      invariant 0 <= k <= |rows|
      invariant lines == RowsText(rows[..k])
    {
      RowsTextSnoc(rows, k);
      lines := lines + RowLine(rows[k]);
      k := k + 1;
    }
    assert rows[..k] == rows;
    content := header + lines;
    ok, message := true, "Successfully exported to " + path;
  }
}
