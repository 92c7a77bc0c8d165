/**
 * The list-backed table models behind the command reference and the
 * sequence history views (`models/table_models.py`). Only the data the
 * views display is modelled; fonts, colours and alignment are not.
 */
module TableModels {
  import opened Wrappers
  import opened PyStr
  import opened Values

  // ------------------------------------------------- string order

  /** Python's `<` on strings: code-point lexicographic order. */
  predicate StrLess(a: string, b: string)
    decreases |a|
  {
    if |a| == 0 then |b| > 0
    else if |b| == 0 then false
    else if a[0] != b[0] then a[0] < b[0]
    else StrLess(a[1..], b[1..])
  }

  predicate StrLe(a: string, b: string) {
    a == b || StrLess(a, b)
  }

  /** Any two strings are ordered one way or the other. */
  lemma {:induction false} StrLeTotal(a: string, b: string)
    ensures StrLe(a, b) || StrLe(b, a)
    decreases |a|
  {
    if |a| > 0 && |b| > 0 && a[0] == b[0] {
      StrLeTotal(a[1..], b[1..]);
      if a[1..] == b[1..] {
        assert a == [a[0]] + a[1..] && b == [b[0]] + b[1..];
      }
    }
  }

  // ------------------------------------------------- command reference

  /** A command row: its name and its description, the two columns. */
  type Command = (string, string)

  function Column(c: Command, column: nat): string
    requires column < 2
  {
    if column == 0 then c.0 else c.1
  }

  /** `a` may stand before `b` in the chosen order. */
  predicate InOrder(a: Command, b: Command, column: nat, ascending: bool)
    requires column < 2
  {
    if ascending then StrLe(Column(a, column), Column(b, column)) else StrLe(Column(b, column), Column(a, column))
  }

  predicate SortedBy(cs: seq<Command>, column: nat, ascending: bool)
    requires column < 2
  {
    forall i :: 0 < i < |cs| ==> InOrder(cs[i - 1], cs[i], column, ascending)
  }

  /** `c` put before the first row it may stand before. */
  function Insert(c: Command, cs: seq<Command>, column: nat, ascending: bool): (r: seq<Command>)
    requires column < 2
    ensures multiset(r) == multiset(cs) + multiset{c}
    ensures |r| > 0 && (r[0] == c || (|cs| > 0 && r[0] == cs[0]))
  {
    if |cs| == 0 || InOrder(c, cs[0], column, ascending) then [c] + cs
    else
      assert cs == [cs[0]] + cs[1..];
      [cs[0]] + Insert(c, cs[1..], column, ascending)
  }

  lemma {:induction false} InsertSorted(c: Command, cs: seq<Command>, column: nat, ascending: bool)
    requires column < 2 && SortedBy(cs, column, ascending)
    ensures SortedBy(Insert(c, cs, column, ascending), column, ascending)
    decreases |cs|
  {
    if |cs| > 0 && !InOrder(c, cs[0], column, ascending) {
      StrLeTotal(Column(c, column), Column(cs[0], column));
      var tail := cs[1..];
      assert SortedBy(tail, column, ascending) by {
        forall i | 0 < i < |tail| ensures InOrder(tail[i - 1], tail[i], column, ascending) {
          assert tail[i - 1] == cs[i] && tail[i] == cs[i + 1];
        }
      }
      InsertSorted(c, tail, column, ascending);
    }
  }

  /** The order `list.sort(key=lambda x: x[column], reverse=not ascending)` produces. */
  function SortRows(cs: seq<Command>, column: nat, ascending: bool): (r: seq<Command>)
    requires column < 2
    ensures multiset(r) == multiset(cs)
    decreases |cs|
  {
    if |cs| == 0 then []
    else
      assert cs == [cs[0]] + cs[1..];
      Insert(cs[0], SortRows(cs[1..], column, ascending), column, ascending)
  }

  /** The sorted rows are ordered by the chosen column in the chosen direction. */
  lemma {:induction false} SortRowsSorted(cs: seq<Command>, column: nat, ascending: bool)
    requires column < 2
    ensures SortedBy(SortRows(cs, column, ascending), column, ascending)
    decreases |cs|
  {
    if |cs| > 0 {
      SortRowsSorted(cs[1..], column, ascending);
      InsertSorted(cs[0], SortRows(cs[1..], column, ascending), column, ascending);
    }
  }

  /** The (command, description) pairs of the reference dictionary. */
  class CommandTableModel {
    var commands: seq<Command>

    /** `CommandTableModel(commands)`: the dictionary's items, in order. */
    constructor (commands: Dict<string>)
      ensures this.commands == commands
    {
      this.commands := commands;
    }

    function RowCount(): (n: nat)
      reads this
      ensures n == |commands|
    {
      |commands|
    }

    /** The display text of a cell; `None` for an index outside the table. */
    function Data(row: int, column: int): (r: Option<string>)
      reads this
      ensures r.Some? <==> 0 <= row < |commands| && 0 <= column < 2
      ensures r.Some? ==> r.value == (if column == 0 then commands[row].0 else commands[row].1)
    {
      if 0 <= row < |commands| && 0 <= column < 2 then Some(Column(commands[row], column)) else None
    }

    /** `sort(column, order)`: the same rows, ordered by that column. */
    method Sort(column: nat, ascending: bool)
      requires column < 2
      modifies this
      ensures commands == SortRows(old(commands), column, ascending)
      ensures multiset(commands) == multiset(old(commands))
      ensures SortedBy(commands, column, ascending)
    {
      SortRowsSorted(commands, column, ascending);
      commands := SortRows(commands, column, ascending);
    }
  }

  // ------------------------------------------------- sequence history

  /** The header of the history view. */
  const HistoryHeaders: seq<string> := ["Name", "Parameters", "Created", "Actions"]

  /** The Parameters column: the free length, else the part number, else a placeholder. */
  function ParametersText(sequence: Dict<Value>): (r: string)
    ensures var params := GetOr(sequence, "parameters", Obj([]));
      (params.Obj? && Get(params.entries, "Free Length").Some? ==> r == "Length: " + ToText(Get(params.entries, "Free Length").value) + "mm") &&
      (params.Obj? && Get(params.entries, "Free Length").None? && Get(params.entries, "Part Number").Some? ==>
        r == "Part: " + ToText(Get(params.entries, "Part Number").value)) &&
      (!params.Obj? || (Get(params.entries, "Free Length").None? && Get(params.entries, "Part Number").None?) ==> r == "No parameters")
  {
    var params := GetOr(sequence, "parameters", Obj([]));
    if params.Obj? then
      match Get(params.entries, "Free Length")
      case Some(v) => "Length: " + ToText(v) + "mm"
      case None =>
        match Get(params.entries, "Part Number")
        case Some(v) => "Part: " + ToText(v)
        case None => "No parameters"
    else "No parameters"
  }

  /** The Created column: an ISO timestamp cut at its first `T`; anything else as stored. */
  function CreatedText(sequence: Dict<Value>): (r: Value)
    ensures var created := GetOr(sequence, "created_at", Str(""));
      (created.Str? && Contains(created.s, "T") ==> r == Str(created.s[..Find(created.s, "T")])) &&
      (!(created.Str? && Contains(created.s, "T")) ==> r == created)
  {
    var created := GetOr(sequence, "created_at", Str(""));
    if created.Str? && Contains(created.s, "T") then
      SplitHead(created.s, "T");
      Str(Split(created.s, "T")[0])
    else created
  }

  /** The date part of a timestamp has no `T`, and the timestamp continues with one. */
  lemma CreatedIsDate(sequence: Dict<Value>)
    requires GetOr(sequence, "created_at", Str("")).Str? && Contains(GetOr(sequence, "created_at", Str("")).s, "T")
    ensures var created := GetOr(sequence, "created_at", Str("")).s;
      CreatedText(sequence).Str? && 'T' !in CreatedText(sequence).s &&
      StartsWith(created, CreatedText(sequence).s + "T")
  {
    var created := GetOr(sequence, "created_at", Str("")).s;
    var i := Find(created, "T");
    var date := created[..i];
    assert created[i..i + 1] == "T";
    assert date + "T" == created[..i + 1];
    forall j | 0 <= j < |date| ensures date[j] != 'T' {
      assert !At(created, "T", j);
      assert created[j..j + 1] == [created[j]];
    }
  }

  /** The list of saved sequences shown in the history view. */
  class HistoryTableModel {
    var sequences: seq<Dict<Value>>

    constructor (sequences: seq<Dict<Value>>)
      ensures this.sequences == sequences
    {
      this.sequences := sequences;
    }

    function RowCount(): (n: nat)
      reads this
      ensures n == |sequences|
    {
      |sequences|
    }

    /**
     * The display value of a cell: the name (by default "Sequence <n>",
     * counted from 1), the parameters summary, the creation date and
     * "Load"; `None` for an index outside the table.
     */
    function Data(row: int, column: int): (r: Option<Value>)
      reads this
      ensures r.Some? <==> 0 <= row < |sequences| && 0 <= column < |HistoryHeaders|
      ensures r.Some? && column == 0 ==> r.value == GetOr(sequences[row], "name", Str("Sequence " + IntToStr(row + 1)))
      ensures r.Some? && column == 1 ==> r.value == Str(ParametersText(sequences[row]))
      ensures r.Some? && column == 2 ==> r.value == CreatedText(sequences[row])
      ensures r.Some? && column == 3 ==> r.value == Str("Load")
    {
      if !(0 <= row < |sequences|) then None
      else
        var sequence := sequences[row];
        if column == 0 then Some(GetOr(sequence, "name", Str("Sequence " + IntToStr(row + 1))))
        else if column == 1 then Some(Str(ParametersText(sequence)))
        else if column == 2 then Some(CreatedText(sequence))
        else if column == 3 then Some(Str("Load"))
        else None
    }

    /** `add_sequence`: appended at the end, one more row. */
    method AddSequence(sequence: Dict<Value>)
      modifies this
      ensures sequences == old(sequences) + [sequence]
      ensures RowCount() == old(RowCount()) + 1
    {
      sequences := sequences + [sequence];
    }

    /** `remove_sequence`: the element at a valid index is deleted; any other index does nothing. */
    method RemoveSequence(index: int)
      modifies this
      ensures 0 <= index < |old(sequences)| ==> sequences == old(sequences)[..index] + old(sequences)[index + 1..]
      ensures !(0 <= index < |old(sequences)|) ==> sequences == old(sequences)
    {
      if 0 <= index < |sequences| {
        sequences := sequences[..index] + sequences[index + 1..];
      }
    }

    /** `get_sequence`: the element at a valid index, else `None`. */
    function GetSequence(index: int): (r: Option<Dict<Value>>)
      reads this
      ensures r.Some? <==> 0 <= index < |sequences|
      ensures r.Some? ==> r.value == sequences[index]
    {
      if 0 <= index < |sequences| then Some(sequences[index]) else None
    }
  }
}
