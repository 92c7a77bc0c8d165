/**
 * The export service (`services/export_service.py`): choosing the export
 * format, the metadata written ahead of a CSV export and the parameter
 * sheet of an Excel export, and the in-memory side of the template
 * manager. Writing files is I/O: each write is a given outcome.
 */
module ExportService {
  import opened Wrappers
  import opened PyStr
  import opened Values
  import DataModels

  /** The keys of `supported_formats`, in insertion order. */
  const SupportedFormats: seq<string> := ["CSV", "JSON", "Excel"]

  /** `get_supported_formats`. */
  function GetSupportedFormats(): (r: seq<string>)
    ensures r == ["CSV", "JSON", "Excel"]
    ensures "TXT" !in r
  {
    SupportedFormats
  }

  // ------------------------------------------------- format dispatch

  /**
   * The start of the extension `os.path.splitext` (POSIX) finds: the last
   * `.` of the last path component, provided something other than dots
   * precedes it in that component; `|path|` when there is none.
   */
  function ExtensionStart(path: string): (i: nat)
    ensures i <= |path|
    ensures i < |path| ==> path[i] == '.' && '/' !in path[i..] && '.' !in path[i + 1..]
  {
    var sep := RFind(path, "/");
    var dot := RFind(path, ".");
    if dot > sep && exists j :: sep + 1 <= j < dot && path[j] != '.' then
      assert path[dot..dot + 1] == ".";
      RFindAfter(path, "/", dot, sep);
      RFindAfter(path, ".", dot + 1, dot);
      dot
    else |path|
  }

  /** Past the last occurrence of a one-character `sub`, the text lacks it. */
  lemma RFindAfter(s: string, sub: string, from: nat, last: int)
    requires |sub| == 1 && RFind(s, sub) == last && last < from <= |s|
    ensures sub[0] !in s[from..]
  {
    forall k | from <= k < |s| ensures s[k] != sub[0] {
      if s[k] == sub[0] {
        assert s[k..k + 1] == sub;
        assert At(s, sub, k);
      }
    }
  }

  /** `os.path.splitext(path)[1]`. */
  function Extension(path: string): string {
    path[ExtensionStart(path)..]
  }

  /** What `export_sequence` does before calling an exporter. */
  datatype Dispatch = Export(format: string) | Refused(message: string)

  /**
   * The format `export_sequence` settles on: the one named, or else the
   * one the lower-cased extension stands for; an unknown extension or an
   * unknown name is refused with its message.
   */
  function ChooseFormat(path: string, formatName: Option<string>): (d: Dispatch)
    ensures d.Export? ==> d.format in SupportedFormats
    ensures formatName.Some? ==> (d.Export? <==> formatName.value in SupportedFormats)
    ensures formatName.Some? && formatName.value !in SupportedFormats ==> d == Refused("Unsupported format: " + formatName.value)
    ensures formatName.Some? && formatName.value in SupportedFormats ==> d == Export(formatName.value)
  {
    var name :=
      if formatName.Some? then Some(formatName.value)
      else
        var ext := Lower(Extension(path));
        if ext == ".csv" then Some("CSV")
        else if ext == ".json" then Some("JSON")
        else if ext == ".xlsx" || ext == ".xls" then Some("Excel")
        else None;
    if name.None? then Refused("Unsupported file extension: " + Lower(Extension(path)))
    else if name.value !in SupportedFormats then Refused("Unsupported format: " + name.value)
    else Export(name.value)
  }

  /** Without a format name, the extension alone decides, in any letter case. */
  lemma FormatOfExtension(path: string)
    ensures var ext := Lower(Extension(path));
      ChooseFormat(path, None) ==
        if ext == ".csv" then Export("CSV")
        else if ext == ".json" then Export("JSON")
        else if ext == ".xlsx" || ext == ".xls" then Export("Excel")
        else Refused("Unsupported file extension: " + ext)
  {
  }

  /** The "TXT" format the text exporter's callers pass is refused. */
  lemma NoTextFormat(path: string)
    ensures ChooseFormat(path, Some("TXT")) == Refused("Unsupported format: TXT")
  {
  }

  // ------------------------------------------------- metadata

  /** The one parameter key both metadata writers leave out. */
  predicate Omitted(key: string) {
    key == "Timestamp"
  }

  /** The rows of the Excel "Parameters" sheet: `[key, str(value)]` per kept parameter. */
  function ParameterRows(params: Dict<Value>): (rows: seq<(string, string)>)
    ensures |rows| <= |params|
    decreases |params|
  {
    if |params| == 0 then []
    else
      var e := params[|params| - 1];
      ParameterRows(params[..|params| - 1]) + (if Omitted(e.0) then [] else [(e.0, ToText(e.1))])
  }

  /** Each kept parameter gives a row, in order, and `Timestamp` gives none. */
  lemma {:induction false} ParameterRowsOfKept(params: Dict<Value>)
    ensures forall r :: r in ParameterRows(params) ==> !Omitted(r.0)
    ensures (forall i :: 0 <= i < |params| ==> !Omitted(params[i].0)) ==>
      ParameterRows(params) == seq(|params|, i requires 0 <= i < |params| => (params[i].0, ToText(params[i].1)))
    decreases |params|
  {
    if |params| > 0 {
      var front := params[..|params| - 1];
      ParameterRowsOfKept(front);
      if forall i :: 0 <= i < |params| ==> !Omitted(params[i].0) {
        assert forall i :: 0 <= i < |front| ==> !Omitted(front[i].0) by {
          forall i | 0 <= i < |front| ensures !Omitted(front[i].0) {
            assert front[i] == params[i];
          }
        }
      }
    }
  }

  /** Removing a `Timestamp` entry leaves the rows as they were. */
  lemma {:induction false} OmittedEntryIsInvisible(params: Dict<Value>, i: nat)
    requires i < |params| && Omitted(params[i].0)
    ensures ParameterRows(params[..i] + params[i + 1..]) == ParameterRows(params)
    decreases |params|
  {
    RemoveAtParts(params, i);
    if i < |params| - 1 {
      OmittedEntryIsInvisible(params[..|params| - 1], i);
    }
  }

  /** A dictionary appended with one more kept entry has one more row, at the end. */
  lemma KeptEntryIsLast(params: Dict<Value>, e: (string, Value))
    requires !Omitted(e.0)
    ensures ParameterRows(params + [e]) == ParameterRows(params) + [(e.0, ToText(e.1))]
  {
    assert (params + [e])[..|params|] == params;
  }

  /** The metadata line of one kept parameter. */
  function MetadataLine(row: (string, string)): string {
    "# " + row.0 + ": " + row.1
  }

  /** The CSV metadata: two header lines, then one line per parameter row. */
  function CsvMetadata(created: string, params: Dict<Value>): (lines: seq<string>)
    ensures |lines| == 2 + |ParameterRows(params)|
    ensures lines[0] == "# Spring Test Sequence" && lines[1] == "# Created: " + created
    ensures forall i :: 0 <= i < |ParameterRows(params)| ==> lines[i + 2] == MetadataLine(ParameterRows(params)[i])
  {
    var rows := ParameterRows(params);
    ["# Spring Test Sequence", "# Created: " + created] + seq(|rows|, i requires 0 <= i < |rows| => MetadataLine(rows[i]))
  }

  /**
   * The metadata lines of `_export_csv`, built by its loop; `created` is
   * the creation time as `strftime('%Y-%m-%d %H:%M:%S')` prints it.
   */
  method BuildCsvMetadata(created: string, params: Dict<Value>) returns (metadata: seq<string>)
    ensures metadata == CsvMetadata(created, params)
  {
    metadata := ["# Spring Test Sequence", "# Created: " + created];
    var k := 0;
    while k < |params|
      invariant 0 <= k <= |params|
      invariant metadata == CsvMetadata(created, params[..k])
    {
      var (key, value) := params[k];
      PrefixStep(params, k);
      if !Omitted(key) {
        metadata := metadata + ["# " + key + ": " + ToText(value)];
      }
      k := k + 1;
    }
    assert params[..k] == params;
  }

  // ------------------------------------------------- templates

  /** `TemplateManager`: the templates by name, as loaded and then edited. */
  class TemplateManager {
    var templates: Dict<DataModels.TestSequence>

    /** Names are keys of a Python dictionary: each occurs once. */
    ghost predicate Valid()
      reads this
    {
      DistinctKeys(templates)
    }

    /** A manager over the templates `_load_templates` read from the directory. */
    constructor (loaded: Dict<DataModels.TestSequence>)
      requires DistinctKeys(loaded)
      ensures Valid() && templates == loaded
    {
      templates := loaded;
    }

    /**
     * `save_template`: when the file is written (`written`), the template
     * is stored under its name and the result is true; otherwise nothing
     * changes and the result is false.
     */
    method SaveTemplate(name: string, sequence: DataModels.TestSequence, written: bool) returns (ok: bool)
      requires Valid()
      modifies this
      ensures Valid() && ok == written
      ensures written ==> templates == Set(old(templates), name, sequence)
      ensures !written ==> templates == old(templates)
    {
      if !written {
        return false;
      }
      SetProperties(templates, name, sequence);
      templates := Set(templates, name, sequence);
      ok := true;
    }

    /**
     * `delete_template`: false and no change for an unknown name or when
     * removing the file fails (`removed` false); otherwise the entry goes.
     */
    method DeleteTemplate(name: string, removed: bool) returns (ok: bool)
      requires Valid()
      modifies this
      ensures Valid()
      ensures ok <==> HasKey(old(templates), name) && removed
      ensures ok ==> templates == Remove(old(templates), name)
      ensures !ok ==> templates == old(templates)
    {
      if !HasKey(templates, name) || !removed {
        return false;
      }
      templates := Remove(templates, name);
      ok := true;
    }

    /** `get_template`: the template of that name, or `None`. */
    function GetTemplate(name: string): (r: Option<DataModels.TestSequence>)
      reads this
      ensures r.None? <==> !HasKey(templates, name)
    {
      GetNone(templates, name);
      Get(templates, name)
    }

    /** `get_template_names`: the names in insertion order. */
    function GetTemplateNames(): (names: seq<string>)
      reads this
      ensures |names| == |templates| && forall i :: 0 <= i < |names| ==> names[i] == templates[i].0
    {
      Keys(templates)
    }
  }

  /** A saved template is found under its name; the other names keep theirs. */
  lemma SavedTemplateIsFound(templates: Dict<DataModels.TestSequence>, name: string, sequence: DataModels.TestSequence, other: string)
    ensures Get(Set(templates, name, sequence), name) == Some(sequence)
    ensures other != name ==> Get(Set(templates, name, sequence), other) == Get(templates, other)
  {
    SetProperties(templates, name, sequence);
  }

  /** A deleted template is gone; the other names keep theirs. */
  lemma DeletedTemplateIsGone(templates: Dict<DataModels.TestSequence>, name: string, other: string)
    requires DistinctKeys(templates)
    ensures Get(Remove(templates, name), name) == None
    ensures other != name ==> Get(Remove(templates, name), other) == Get(templates, other)
  {
    GetNone(Remove(templates, name), name);
  }
}
