/**
 * The sequence generator service: the specification it works with, the
 * parameters it sends to the language model (augmented with the
 * specification), the history of generated sequences and the handling of a
 * finished generation. The request itself and the speed heuristics are
 * outside the model: the computed speeds arrive as a value.
 */
module SequenceGenerator {
  import opened Wrappers
  import opened Values
  import opened DataModels
  import PyStr

  // ------------------------------------------------- parameter augmentation

  /** `[sp for sp in set_points if sp.enabled]`. */
  function EnabledOnly(sps: seq<SetPoint>): (r: seq<SetPoint>)
    ensures |r| <= |sps|
    ensures forall k :: 0 <= k < |r| ==> r[k].enabled && r[k] in sps
    decreases |sps|
  {
    if |sps| == 0 then []
    else EnabledOnly(sps[..|sps| - 1]) + (if sps[|sps| - 1].enabled then [sps[|sps| - 1]] else [])
  }

  /**
   * The enabled set points are exactly those at the positions the prompt
   * numbers them by, in the same order: the `k`-th one sits at position
   * `EnabledNumbers(sps)[k]` of the whole list.
   */
  lemma {:induction false} EnabledOnlyAtNumbers(sps: seq<SetPoint>)
    ensures |EnabledOnly(sps)| == |EnabledNumbers(sps)|
    ensures forall k :: 0 <= k < |EnabledOnly(sps)| ==> EnabledOnly(sps)[k] == sps[EnabledNumbers(sps)[k] - 1]
    decreases |sps|
  {
    if |sps| > 0 {
      var n := |sps| - 1;
      var front := sps[..n];
      EnabledOnlyAtNumbers(front);
      var es, ns := EnabledOnly(front), EnabledNumbers(front);
      PositionsInFront(es, ns, sps);
      if sps[n].enabled {
        assert EnabledOnly(sps) == es + [sps[n]];
        assert EnabledNumbers(sps) == ns + [n + 1];
        PositionsSnoc(es, ns, sps);
      } else {
        PyStr.EmptyRight(es);
        PyStr.EmptyRight(ns);
      }
    }
  }

  /** Positions inside the list without its last element are positions of the list. */
  lemma PositionsInFront(es: seq<SetPoint>, ns: seq<nat>, sps: seq<SetPoint>)
    requires |sps| > 0 && |es| == |ns|
    requires forall k :: 0 <= k < |ns| ==> 1 <= ns[k] <= |sps| - 1 && es[k] == sps[..|sps| - 1][ns[k] - 1]
    ensures forall k :: 0 <= k < |ns| ==> es[k] == sps[ns[k] - 1]
  {
    forall k | 0 <= k < |ns| ensures es[k] == sps[ns[k] - 1] {
      PyStr.PrefixAt(sps, |sps| - 1, ns[k] - 1);
    }
  }

  /** The last element, at the last position, extends the match of elements to positions. */
  lemma PositionsSnoc(es: seq<SetPoint>, ns: seq<nat>, sps: seq<SetPoint>)
    requires |sps| > 0 && |es| == |ns|
    requires forall k :: 0 <= k < |ns| ==> 1 <= ns[k] <= |sps| && es[k] == sps[ns[k] - 1]
    ensures forall k :: 0 <= k <= |es| ==> (es + [sps[|sps| - 1]])[k] == sps[(ns + [|sps|])[k] - 1]
  {
  }

  /** The keys of the `spring_specification` entry added to the parameters. */
  const ContextKeys: seq<string> := [
    "part_name", "part_number", "part_id", "free_length_mm", "coil_count", "wire_dia_mm",
    "outer_dia_mm", "safety_limit_n", "unit", "set_points", "optimal_speeds"]

  /** The `spring_specification` dictionary: a few fields and the enabled set points. */
  function SpecContext(s: SpringSpecification, speeds: Value): Value {
    Obj(Zip(ContextKeys, [
      Str(s.partName), Str(s.partNumber), PartIdToValue(s.partId), Real(s.freeLengthMm),
      Real(s.coilCount), Real(s.wireDiaMm), Real(s.outerDiaMm), Real(s.safetyLimitN), Str(s.unit),
      List(SetPointsToValue(EnabledOnly(s.setPoints))), speeds]))
  }

  /** The prompt after the specification text has been put in front of it. */
  function WithSpecText(s: SpringSpecification, prompt: Value): Value {
    Str(PromptText(s) + "\n\n" + ToText(prompt))
  }

  /**
   * `_prepare_parameters_with_specification`: without an enabled
   * specification the parameters are returned as they are; otherwise a copy
   * gets the specification text in front of its prompt (when it has one) and
   * a `spring_specification` entry.
   */
  function Prepared(spec: Option<SpringSpecification>, params: Dict<Value>, speeds: Value): (r: Dict<Value>)
    ensures spec.None? || !spec.value.enabled ==> r == params
  {
    if spec.None? || !spec.value.enabled then params
    else
      var s := spec.value;
      var p := Get(params, "prompt");
      var withPrompt := if p.Some? then Set(params, "prompt", WithSpecText(s, p.value)) else params;
      Set(withPrompt, "spring_specification", SpecContext(s, speeds))
  }

  /**
   * With an enabled specification the prompt gains the specification text,
   * the `spring_specification` entry holds the enabled set points, and every
   * other key keeps its value.
   */
  lemma PreparedEnabled(s: SpringSpecification, params: Dict<Value>, speeds: Value)
    requires s.enabled
    ensures Get(params, "prompt").Some? ==>
      Get(Prepared(Some(s), params, speeds), "prompt") == Some(WithSpecText(s, Get(params, "prompt").value))
    ensures Get(params, "prompt").None? ==> Get(Prepared(Some(s), params, speeds), "prompt").None?
    ensures Get(Prepared(Some(s), params, speeds), "spring_specification") == Some(SpecContext(s, speeds))
    ensures forall k :: k != "prompt" && k != "spring_specification" ==>
      Get(Prepared(Some(s), params, speeds), k) == Get(params, k)
  {
    var p := Get(params, "prompt");
    var np := if p.Some? then Some(WithSpecText(s, p.value)) else None;
    AddContext(params, "prompt", np, "spring_specification", SpecContext(s, speeds));
  }

  /** A new prompt, when there is one, then the context entry: nothing else changes. */
  lemma AddContext(params: Dict<Value>, pk: string, np: Option<Value>, ck: string, ctx: Value)
    requires pk != ck
    ensures var withPrompt := if np.Some? then Set(params, pk, np.value) else params;
      var r := Set(withPrompt, ck, ctx);
      Get(r, pk) == (if np.Some? then np else Get(params, pk)) &&
      Get(r, ck) == Some(ctx) &&
      forall k :: k != pk && k != ck ==> Get(r, k) == Get(params, k)
  {
    var withPrompt := if np.Some? then Set(params, pk, np.value) else params;
    if np.Some? {
      SetProperties(params, pk, np.value);
    }
    SetProperties(withPrompt, ck, ctx);
  }

  /** The `set_points` list of the context has one dictionary per enabled point, in order. */
  lemma ContextSetPoints(s: SpringSpecification, speeds: Value)
    ensures |EnabledOnly(s.setPoints)| == |EnabledNumbers(s.setPoints)|
    ensures SpecContext(s, speeds).entries[9] == ("set_points", List(SetPointsToValue(EnabledOnly(s.setPoints))))
    ensures forall k :: 0 <= k < |EnabledOnly(s.setPoints)| ==>
      SetPointsToValue(EnabledOnly(s.setPoints))[k] == SetPointToDict(s.setPoints[EnabledNumbers(s.setPoints)[k] - 1])
  {
    EnabledOnlyAtNumbers(s.setPoints);
  }

  // ------------------------------------------------------------ validation

  const RequiredColumns: seq<string> := ["Row", "CMD", "Description", "Condition", "Unit", "Tolerance", "Speed rpm"]

  /** The position in `cols` of the first column `row` lacks, or `|cols|`. */
  function FirstMissing(cols: seq<string>, row: Dict<Value>): (i: nat)
    ensures i <= |cols|
    ensures forall j :: 0 <= j < i ==> HasKey(row, cols[j])
    ensures i < |cols| ==> !HasKey(row, cols[i])
  {
    if |cols| == 0 then 0
    else if !HasKey(row, cols[0]) then 0
    else 1 + FirstMissing(cols[1..], row)
  }

  /**
   * `validate_sequence`: an empty sequence is invalid; otherwise the first
   * row must have the seven required columns, the first missing one (in
   * their fixed order) is named.
   */
  function ValidateSequence(rows: seq<Dict<Value>>): (r: (bool, string))
    ensures |rows| == 0 ==> r == (false, "Sequence is empty")
    ensures |rows| > 0 ==> (r.0 <==> forall j :: 0 <= j < |RequiredColumns| ==> HasKey(rows[0], RequiredColumns[j]))
    ensures |rows| > 0 && r.0 ==> r.1 == ""
    ensures |rows| > 0 && !r.0 ==>
      exists i :: 0 <= i < |RequiredColumns| && !HasKey(rows[0], RequiredColumns[i]) &&
        (forall j :: 0 <= j < i ==> HasKey(rows[0], RequiredColumns[j])) &&
        r.1 == "Missing required column: " + RequiredColumns[i]
  {
    if |rows| == 0 then (false, "Sequence is empty")
    else
      var i := FirstMissing(RequiredColumns, rows[0]);
      if i < |RequiredColumns| then (false, "Missing required column: " + RequiredColumns[i])
      else (true, "")
  }

  // ------------------------------------------------- generation results

  /** `df["Row"] == "CHAT"` for one row. */
  predicate IsChatRow(row: Dict<Value>) {
    Get(row, "Row") == Some(Str("CHAT"))
  }

  function ChatRows(df: seq<Dict<Value>>): (r: seq<Dict<Value>>)
    ensures forall k :: 0 <= k < |r| ==> IsChatRow(r[k])
    decreases |df|
  {
    if |df| == 0 then []
    else ChatRows(df[..|df| - 1]) + (if IsChatRow(df[|df| - 1]) then [df[|df| - 1]] else [])
  }

  function SequenceRows(df: seq<Dict<Value>>): (r: seq<Dict<Value>>)
    ensures forall k :: 0 <= k < |r| ==> !IsChatRow(r[k])
    decreases |df|
  {
    if |df| == 0 then []
    else SequenceRows(df[..|df| - 1]) + (if !IsChatRow(df[|df| - 1]) then [df[|df| - 1]] else [])
  }

  /** The chat rows and the sequence rows together are the rows of the frame, none lost or repeated. */
  lemma {:induction false} RowsPartition(df: seq<Dict<Value>>)
    ensures multiset(ChatRows(df)) + multiset(SequenceRows(df)) == multiset(df)
    ensures |ChatRows(df)| + |SequenceRows(df)| == |df|
    decreases |df|
  {
    if |df| > 0 {
      var front, x := df[..|df| - 1], df[|df| - 1];
      RowsPartition(front);
      PyStr.FrontAndLast(df);
      PyStr.MultisetSnoc(front, x);
      PyStr.EmptyRight(ChatRows(front));
      PyStr.EmptyRight(SequenceRows(front));
    }
  }

  /** A frame has no chat rows exactly when none of its rows is one. */
  lemma {:induction false} NoChatRows(df: seq<Dict<Value>>)
    ensures |ChatRows(df)| == 0 <==> forall k :: 0 <= k < |df| ==> !IsChatRow(df[k])
    decreases |df|
  {
    if |df| > 0 {
      var front := df[..|df| - 1];
      NoChatRows(front);
      if |ChatRows(df)| == 0 {
        forall k | 0 <= k < |df| ensures !IsChatRow(df[k]) {
          if k < |df| - 1 {
            assert df[k] == front[k];
          }
        }
      }
    }
  }

  /** DataFrame `empty`: no rows, or no columns at all. */
  predicate Empty(df: seq<Dict<Value>>) {
    |df| == 0 || forall k :: 0 <= k < |df| ==> |df[k]| == 0
  }

  /**
   * The descriptions of the chat rows; `None` where `"\n\n".join` raises
   * because one of them is not a string (a missing cell is NaN).
   */
  function Descriptions(rows: seq<Dict<Value>>): (r: Option<seq<string>>)
    ensures r.Some? ==> |r.value| == |rows|
    ensures r.Some? <==> forall k :: 0 <= k < |rows| ==> Get(rows[k], "Description").Some? && Get(rows[k], "Description").value.Str?
    ensures r.Some? ==> forall k :: 0 <= k < |rows| ==> Get(rows[k], "Description") == Some(Str(r.value[k]))
    decreases |rows|
  {
    if |rows| == 0 then Some([])
    else
      var d := Get(rows[|rows| - 1], "Description");
      var front := Descriptions(rows[..|rows| - 1]);
      if front.Some? && d.Some? && d.value.Str? then Some(front.value + [d.value.s])
      else
        assert !(forall k :: 0 <= k < |rows| ==> Get(rows[k], "Description").Some? && Get(rows[k], "Description").value.Str?) by {
          if front.None? {
            var k :| 0 <= k < |rows| - 1 && !(Get(rows[..|rows| - 1][k], "Description").Some? &&
              Get(rows[..|rows| - 1][k], "Description").value.Str?);
            assert rows[..|rows| - 1][k] == rows[k];
          }
        }
        None
  }

  /** The one-row frame emitted for a reply that holds only chat text. */
  function ChatFrame(message: string): seq<Dict<Value>> {
    [Zip(["Row", "CMD", "Description"], [Str("CHAT"), Str("CHAT"), Str(message)])]
  }

  /** `self.last_parameters or {}`. */
  function ParamsOrEmpty(p: Option<Dict<Value>>): (r: Dict<Value>)
    ensures p.Some? && |p.value| > 0 ==> r == p.value
    ensures p.None? || |p.value| == 0 ==> r == []
  {
    if p.Some? && |p.value| > 0 then p.value else []
  }

  /** What `sequence_generated` carries: a frame, a sequence or `None`, with the error text. */
  datatype Emitted =
    | EmitFrame(rows: seq<Dict<Value>>, error: string)
    | EmitSequence(sequence: TestSequence, error: string)
    | EmitNothing(error: string)
    | Raised

  class SequenceGenerator {
    var spec: Option<SpringSpecification>
    var history: seq<TestSequence>
    var lastSequence: Option<TestSequence>
    var lastParameters: Option<Dict<Value>>

    constructor()
      ensures spec.None? && history == [] && lastSequence.None? && lastParameters.None?
    {
      spec := None;
      history := [];
      lastSequence := None;
      lastParameters := None;
    }

    /** `set_spring_specification`. */
    method SetSpec(s: SpringSpecification)
      modifies this
      ensures spec == Some(s) && GetSpec() == Some(s)
      ensures history == old(history) && lastSequence == old(lastSequence) && lastParameters == old(lastParameters)
    {
      spec := Some(s);
    }

    /** `get_spring_specification`. */
    function GetSpec(): (r: Option<SpringSpecification>)
      reads this
      ensures r == spec
    {
      spec
    }

    /**
     * `_prepare_parameters_with_specification`, building the prompt with
     * `to_prompt_text`. The input dictionary is a value and cannot change.
     */
    method PrepareParameters(params: Dict<Value>, speeds: Value) returns (r: Dict<Value>)
      ensures r == Prepared(spec, params, speeds)
    {
      if spec.None? || !spec.value.enabled {
        return params;
      }
      var s := spec.value;
      r := params;
      GetNone(r, "prompt");
      if HasKey(r, "prompt") {
        var prompt := PromptWithSpec(s, Get(r, "prompt").value);
        r := Set(r, "prompt", prompt);
      }
      r := Set(r, "spring_specification", SpecContext(s, speeds));
    }

    /** The new prompt: the specification text, a blank line, the old prompt. */
    method PromptWithSpec(s: SpringSpecification, prompt: Value) returns (v: Value)
      ensures v == WithSpecText(s, prompt)
    {
      var text := ToPromptText(s);
      v := Str(text + "\n\n" + ToText(prompt));
    }

    /** `generate_sequence_async` up to the request: keeps a copy of the parameters and prepares them. */
    method StartGeneration(params: Dict<Value>, speeds: Value) returns (prepared: Dict<Value>)
      modifies this
      ensures lastParameters == Some(params)
      ensures prepared == Prepared(spec, params, speeds)
      ensures spec == old(spec) && history == old(history) && lastSequence == old(lastSequence)
    {
      lastParameters := Some(params);
      prepared := PrepareParameters(params, speeds);
    }

    /** `add_to_history`: the sequence is appended and only the last ten are kept. */
    method AddToHistory(t: TestSequence)
      modifies this
      ensures history == PyStr.KeepLast(old(history) + [t], 10)
      ensures |history| <= 10 && history[|history| - 1] == t
      ensures spec == old(spec) && lastSequence == old(lastSequence) && lastParameters == old(lastParameters)
    {
      history := history + [t];
      if |history| > 10 {
        history := history[|history| - 10..];
      }
      PyStr.KeepLastKeepsNewest(old(history) + [t], 10);
    }

    /** `clear_history`. */
    method ClearHistory()
      modifies this
      ensures history == [] && spec == old(spec) && lastSequence == old(lastSequence) && lastParameters == old(lastParameters)
    {
      history := [];
    }

    /** A newly generated sequence becomes the last one and joins the history. */
    method Record(t: TestSequence)
      modifies this
      ensures lastSequence == Some(t) && history == PyStr.KeepLast(old(history) + [t], 10)
      ensures spec == old(spec) && lastParameters == old(lastParameters)
    {
      lastSequence := Some(t);
      AddToHistory(t);
    }

    /**
     * `_on_sequence_generated`. A frame with chat rows has their
     * descriptions joined by blank lines; without other rows that text is
     * emitted as a one-row chat frame, otherwise the other rows become the
     * new sequence, carrying the text as its `chat_message` parameter. A frame
     * without chat rows becomes the sequence as a whole, and an empty frame
     * emits nothing. The parameters dictionary is shared with
     * `last_parameters` when that is non-empty, so adding `chat_message`
     * changes both.
     */
    method OnSequenceGenerated(df: seq<Dict<Value>>, error: string, now: string) returns (out: Emitted)
      modifies this
      ensures spec == old(spec)
      ensures Empty(df) ==>
        out == EmitNothing(error) && history == old(history) &&
        lastSequence == old(lastSequence) && lastParameters == old(lastParameters)
      ensures !Empty(df) && |ChatRows(df)| == 0 ==>
        var t := TestSequence(df, ParamsOrEmpty(old(lastParameters)), now, None);
        out == EmitSequence(t, error) && lastSequence == Some(t) &&
        history == PyStr.KeepLast(old(history) + [t], 10) && lastParameters == old(lastParameters)
      ensures !Empty(df) && |ChatRows(df)| > 0 && Descriptions(ChatRows(df)).None? ==>
        out == Raised && history == old(history) && lastSequence == old(lastSequence) &&
        lastParameters == old(lastParameters)
      ensures !Empty(df) && |ChatRows(df)| > 0 && Descriptions(ChatRows(df)).Some? ==>
        var message := PyStr.Join("\n\n", Descriptions(ChatRows(df)).value);
        if |SequenceRows(df)| == 0 then
          out == EmitFrame(ChatFrame(message), error) && history == old(history) &&
          lastSequence == old(lastSequence) && lastParameters == old(lastParameters)
        else
          var p := ParamsOrEmpty(old(lastParameters));
          var p' := if |message| > 0 then Set(p, "chat_message", Str(message)) else p;
          var t := TestSequence(SequenceRows(df), p', now, None);
          out == EmitSequence(t, error) && lastSequence == Some(t) &&
          history == PyStr.KeepLast(old(history) + [t], 10) &&
          lastParameters == (if |p| > 0 then Some(p') else old(lastParameters))
    {
      if !Empty(df) && |ChatRows(df)| > 0 {
        var texts := Descriptions(ChatRows(df));
        if texts.None? {
          return Raised;
        }
        var message := PyStr.Join("\n\n", texts.value);
        var rest := SequenceRows(df);
        if |rest| == 0 {
          return EmitFrame(ChatFrame(message), error);
        }
        var p := ParamsOrEmpty(lastParameters);
        var t := TestSequence(rest, p, now, None);
        if |message| > 0 {
          t := t.(parameters := Set(p, "chat_message", Str(message)));
          if |p| > 0 {
            lastParameters := Some(t.parameters);
          }
        }
        Record(t);
        return EmitSequence(t, error);
      }
      if !Empty(df) {
        var t := TestSequence(df, ParamsOrEmpty(lastParameters), now, None);
        Record(t);
        return EmitSequence(t, error);
      }
      out := EmitNothing(error);
    }
  }
}
