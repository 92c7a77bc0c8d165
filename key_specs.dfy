/**
 * `extract_key_specifications` and `export_txt` of
 * `services/export_service_txt.py`: the cascade of searches that fills the
 * five key specifications of a sequence, and the pipe-separated file the
 * TXT export writes. Whether the file can be written is a given outcome.
 */
module KeySpecs {
  import opened Wrappers
  import opened PyStr
  import opened Values
  import opened ExportTxt
  import opened PromptText
  import DataModels

  // ------------------------------------------------- searches

  /** The raw value of the first key whose `d.get(key, '')` is usable. */
  function FirstUsableValue(d: Dict<Value>, keys: seq<string>): (r: Option<Value>)
    ensures r.Some? ==> Usable(r.value)
    decreases |keys|
  {
    if |keys| == 0 then None
    else if Usable(GetOr(d, keys[0], Str(""))) then Some(GetOr(d, keys[0], Str("")))
    else FirstUsableValue(d, keys[1..])
  }

  /** The same search, giving `str(value).strip()` of the value found. */
  function FirstUsable(d: Dict<Value>, keys: seq<string>): (r: Option<string>)
    ensures r.Some? ==> Trimmed(r.value)
  {
    match FirstUsableValue(d, keys)
    case None => None
    case Some(v) => Some(Text(v))
  }

  /** A `for key in keys` loop that breaks at the first usable value. */
  method FindFirstUsable(d: Dict<Value>, keys: seq<string>) returns (r: Option<Value>)
    ensures r == FirstUsableValue(d, keys)
  {
    var k := 0;
    while k < |keys|
      invariant 0 <= k <= |keys|
      invariant FirstUsableValue(d, keys) == FirstUsableValue(d, keys[k..])
    {
      assert keys[k..][1..] == keys[k + 1..];
      var value := GetOr(d, keys[k], Str(""));
      if Usable(value) {
        return Some(value);
      }
      k := k + 1;
    }
    r := None;
  }

  /** The first key, in the order listed, with a usable value decides. */
  lemma {:induction false} FirstUsableFirst(d: Dict<Value>, keys: seq<string>, i: nat)
    requires i < |keys| && Usable(GetOr(d, keys[i], Str("")))
    requires forall j :: 0 <= j < i ==> !Usable(GetOr(d, keys[j], Str("")))
    ensures FirstUsableValue(d, keys) == Some(GetOr(d, keys[i], Str("")))
    decreases i
  {
    if i > 0 {
      FirstUsableFirst(d, keys[1..], i - 1);
    }
  }

  /** An empty dictionary has no usable value under any key. */
  lemma {:induction false} FirstUsableOfEmpty(keys: seq<string>)
    ensures FirstUsableValue([], keys) == None
    decreases |keys|
  {
    if |keys| > 0 {
      FirstUsableOfEmpty(keys[1..]);
    }
  }

  /** The first non-empty dictionary of the candidate locations, else `{}`. */
  function FirstDict(locs: seq<Value>): (r: Value)
    ensures r.Obj?
    ensures r == Obj([]) || (r in locs && Truthy(r))
    decreases |locs|
  {
    if |locs| == 0 then Obj([])
    else if Truthy(locs[0]) && locs[0].Obj? then locs[0]
    else FirstDict(locs[1..])
  }

  /** The `for loc in locations` loop that breaks at the first non-empty dictionary. */
  method FindFirstDict(locs: seq<Value>) returns (r: Value)
    ensures r == FirstDict(locs)
  {
    var k := 0;
    while k < |locs|
      invariant 0 <= k <= |locs|
      invariant FirstDict(locs) == FirstDict(locs[k..])
    {
      assert locs[k..][1..] == locs[k + 1..];
      if Truthy(locs[k]) && locs[k].Obj? {
        return locs[k];
      }
      k := k + 1;
    }
    r := Obj([]);
  }

  /** Empty candidates are passed over: the search goes on past them. */
  lemma {:induction false} FirstDictSkips(locs: seq<Value>, n: nat)
    requires n <= |locs| && forall i :: 0 <= i < n ==> !Truthy(locs[i])
    ensures FirstDict(locs) == FirstDict(locs[n..])
    decreases n
  {
    if n > 0 {
      FirstDictSkips(locs[1..], n - 1);
      assert locs[1..][n - 1..] == locs[n..];
    }
  }

  /** Only empty candidates: the search ends with `{}`. */
  lemma FirstDictOfEmpties(locs: seq<Value>)
    requires forall i :: 0 <= i < |locs| ==> !Truthy(locs[i])
    ensures FirstDict(locs) == Obj([])
  {
    FirstDictSkips(locs, |locs|);
  }

  /** The first path whose nested value is not empty gives that value. */
  function FirstNested(params: Dict<Value>, paths: seq<seq<string>>): (r: Option<string>)
    ensures r.Some? ==> r.value != "" && Trimmed(r.value)
    decreases |paths|
  {
    if |paths| == 0 then None
    else
      NestedValueCases(params, paths[0], "");
      var value := NestedValue(params, paths[0], "");
      if value != "" then Some(value) else FirstNested(params, paths[1..])
  }

  /** A `for path in possible_paths` loop that breaks at the first non-empty value. */
  method FindFirstNested(params: Dict<Value>, paths: seq<seq<string>>) returns (r: Option<string>)
    ensures r == FirstNested(params, paths)
  {
    var k := 0;
    while k < |paths|
      invariant 0 <= k <= |paths|
      invariant FirstNested(params, paths) == FirstNested(params, paths[k..])
    {
      assert paths[k..][1..] == paths[k + 1..];
      var value := ExtractNestedValue(params, paths[k], "");
      if value != "" {
        return Some(value);
      }
      k := k + 1;
    }
    r := None;
  }

  /** A path of keys into nested dictionaries: the path lists hold no empty path. */
  type Path = p: seq<string> | |p| > 0 witness ["parameters"]

  /** In an empty dictionary every path finds nothing. */
  lemma {:induction false} FirstNestedOfEmpty(paths: seq<Path>)
    ensures FirstNested([], paths) == None
    decreases |paths|
  {
    if |paths| > 0 {
      GetNone<Value>([], paths[0][0]);
      FirstNestedOfEmpty(paths[1..]);
    }
  }

  /** The three fields the key-name scans look for. */
  datatype Field = PartNameField | PartNumberField | FreeLengthField

  /**
   * Whether a lower-cased key names the field. The scan of the
   * case-insensitive dictionary also takes "long" for a free length
   * (`long`); the final deep search does not.
   */
  predicate Names(f: Field, k: string, long: bool) {
    match f
    case PartNameField => Contains(k, "part") && Contains(k, "name")
    case PartNumberField => (Contains(k, "part") && Contains(k, "number")) || Contains(k, "model")
    case FreeLengthField => Contains(k, "free") && (Contains(k, "length") || (long && Contains(k, "long")))
  }

  /** The first entry whose key names the field and whose value is usable. */
  function FirstNamed(d: Dict<Value>, f: Field): (r: Option<string>)
    ensures r.Some? ==> Trimmed(r.value)
    decreases |d|
  {
    if |d| == 0 then None
    else if Found(f, d[0]) then Some(Text(d[0].1))
    else FirstNamed(d[1..], f)
  }

  /** The entry's lower-cased key names the field and its value is usable. */
  predicate Found(f: Field, e: (string, Value)) {
    Names(f, Lower(e.0), true) && Usable(e.1)
  }

  /** The scan over the case-insensitive dictionary, breaking at the first match. */
  method FindFirstNamed(d: Dict<Value>, f: Field) returns (r: Option<string>)
    ensures r == FirstNamed(d, f)
  {
    var k := 0;
    while k < |d|
      invariant 0 <= k <= |d|
      invariant FirstNamed(d, f) == FirstNamed(d[k..], f)
    {
      assert d[k..][1..] == d[k + 1..];
      if Found(f, d[k]) {
        return Some(Text(d[k].1));
      }
      k := k + 1;
    }
    r := None;
  }

  /** `{k.lower(): v for k, v in flat.items()}`, written as its loop. */
  function LowerKeys(flat: Dict<Value>): Dict<Value> {
    Update([], LoweredEntries(flat))
  }

  /** The flattened entries with their keys lower-cased, repeats kept. */
  function LoweredEntries(flat: Dict<Value>): (e: Dict<Value>)
    ensures |e| == |flat| && forall i :: 0 <= i < |flat| ==> e[i] == (Lower(flat[i].0), flat[i].1)
  {
    seq(|flat|, i requires 0 <= i < |flat| => (Lower(flat[i].0), flat[i].1))
  }

  /**
   * A key of the case-insensitive dictionary is present exactly when some
   * flattened key lower-cases to it, and it holds the value of the last
   * such entry, since later assignments overwrite earlier ones.
   */
  lemma LowerKeysLast(flat: Dict<Value>, k: string)
    ensures Get(LowerKeys(flat), k).None? <==> forall i :: 0 <= i < |flat| ==> Lower(flat[i].0) != k
    ensures Get(LowerKeys(flat), k).Some? ==>
      exists i :: 0 <= i < |flat| && Lower(flat[i].0) == k && Get(LowerKeys(flat), k).value == flat[i].1 &&
        forall j :: i < j < |flat| ==> Lower(flat[j].0) != k
  {
    var e := LoweredEntries(flat);
    UpdateLast([], e, k);
    assert Get<Value>([], k).None?;
  }

  // ------------------------------------------------- where to look

  const DirectPartNameKeys: seq<string> := [
    "part_name", "partName", "part name", "name", "spring_name", "springName", "spring name",
    "PART_NAME", "PartName", "Part Name", "Name", "SPRING_NAME", "SpringName"]
  const DirectPartNumberKeys: seq<string> := [
    "part_number", "partNumber", "part number", "number", "spring_number", "springNumber",
    "spring number", "PART_NUMBER", "PartNumber", "Part Number", "Number", "SPRING_NUMBER",
    "SpringNumber", "model", "model_number", "modelNumber", "Model Number"]
  const DirectFreeLengthKeys: seq<string> := [
    "free_length", "freeLength", "free length", "length", "free_length_mm", "freeLengthMm",
    "FREE_LENGTH", "FreeLength", "Free Length", "Length", "FREE_LENGTH_MM", "FreeLengthMm",
    "initial_length", "initialLength", "initial length", "spring_length", "springLength"]

  const SpecsLocationKeys: seq<string> := [
    "Specifications", "specifications", "spring_specification", "Spring_Specification", "springSpecification"]
  const BasicInfoKeys: seq<string> := ["basic_info", "Basic_Info", "basicInfo", "info"]

  /** Paths of one, two and three keys. */
  function P1(a: string): Path { [a] }
  function P2(a: string, b: string): Path { [a, b] }
  function P3(a: string, b: string, c: string): Path { [a, b, c] }

  const PartNamePaths: seq<Path> := [
    P1("part_name"), P1("Part_Name"), P1("PartName"), P1("partName"), P1("Name"), P1("name"),
    P2("spring_specification", "part_name"), P2("spring_specification", "Part_Name"),
    P2("spring_specification", "PartName"), P2("SpringSpecification", "partName"),
    P2("springSpecification", "name"), P2("basic_info", "part_name"), P2("basic_info", "Part_Name"),
    P2("Basic_Info", "name"), P2("basicInfo", "partName"),
    P3("spring_specification", "basic_info", "part_name"), P3("spring_specification", "basic_info", "Part_Name"),
    P3("SpringSpecification", "BasicInfo", "partName"), P3("springSpecification", "basicInfo", "name")]
  const PartNumberPaths: seq<Path> := [
    P1("part_number"), P1("Part_Number"), P1("PartNumber"), P1("partNumber"), P1("Number"), P1("number"),
    P1("model_number"), P1("Model_Number"), P1("ModelNumber"), P1("modelNumber"),
    P2("spring_specification", "part_number"), P2("spring_specification", "Part_Number"),
    P2("spring_specification", "PartNumber"), P2("SpringSpecification", "partNumber"),
    P2("springSpecification", "number"), P2("basic_info", "part_number"), P2("basic_info", "Part_Number"),
    P2("Basic_Info", "number"), P2("basicInfo", "partNumber"),
    P3("spring_specification", "basic_info", "part_number"), P3("spring_specification", "basic_info", "Part_Number"),
    P3("SpringSpecification", "BasicInfo", "partNumber"), P3("springSpecification", "basicInfo", "number")]
  const FreeLengthPaths: seq<Path> := [
    P1("free_length"), P1("free_length_mm"), P1("Free_Length"), P1("Free_Length_MM"), P1("FreeLength"),
    P1("FreeLength_MM"), P1("freeLength"), P1("freeLengthMm"), P1("Length"), P1("length"),
    P2("spring_specification", "free_length"), P2("spring_specification", "free_length_mm"),
    P2("spring_specification", "Free_Length"), P2("SpringSpecification", "freeLength"),
    P2("springSpecification", "freeLengthMm"), P2("basic_info", "free_length"), P2("basic_info", "free_length_mm"),
    P2("Basic_Info", "Free_Length"), P2("basicInfo", "freeLengthMm"),
    P3("spring_specification", "basic_info", "free_length"), P3("spring_specification", "basic_info", "free_length_mm"),
    P3("SpringSpecification", "BasicInfo", "freeLength"), P3("springSpecification", "basicInfo", "freeLengthMm")]
  const TestModePaths: seq<Path> := [
    P1("test_mode"), P1("Test_Mode"), P1("TestMode"), P1("testMode"), P1("Mode"), P1("mode"),
    P2("spring_specification", "test_mode"), P2("spring_specification", "Test_Mode"),
    P2("SpringSpecification", "testMode"), P2("springSpecification", "mode"), P2("basic_info", "test_mode"),
    P2("Basic_Info", "Test_Mode"), P2("basicInfo", "testMode"),
    P3("spring_specification", "basic_info", "test_mode"), P3("SpringSpecification", "BasicInfo", "testMode")]
  const SafetyLimitPaths: seq<Path> := [
    P1("safety_limit"), P1("safety_limit_n"), P1("Safety_Limit"), P1("Safety_Limit_N"), P1("SafetyLimit"),
    P1("SafetyLimitN"), P1("safetyLimit"), P1("safetyLimitN"), P1("Limit"), P1("limit"),
    P2("spring_specification", "safety_limit"), P2("spring_specification", "safety_limit_n"),
    P2("SpringSpecification", "safetyLimit"), P2("springSpecification", "safetyLimitN"),
    P2("basic_info", "safety_limit"), P2("basic_info", "safety_limit_n"), P2("Basic_Info", "Safety_Limit"),
    P2("basicInfo", "safetyLimitN"), P3("spring_specification", "basic_info", "safety_limit"),
    P3("spring_specification", "basic_info", "safety_limit_n"), P3("SpringSpecification", "BasicInfo", "safetyLimit"),
    P3("springSpecification", "basicInfo", "safetyLimitN")]

  /** The key lists tried in the chosen specifications dictionary and in the basic information. */
  const InfoPartNameKeys: seq<string> := ["part_name", "partName", "Part_Name", "PartName", "Name", "name"]
  const InfoPartNumberKeys: seq<string> := ["part_number", "partNumber", "Part_Number", "PartNumber", "Number", "number"]
  const InfoFreeLengthKeys: seq<string> := [
    "free_length", "free_length_mm", "freeLength", "freeLengthMm", "Free_Length", "Free_Length_MM", "Length", "length"]
  const InfoSafetyLimitKeys: seq<string> := [
    "safety_limit", "safety_limit_n", "safetyLimit", "safetyLimitN", "Safety_Limit", "Safety_Limit_N", "Limit", "limit"]
  const InfoTestModeKeys: seq<string> := ["test_mode", "testMode", "Test_Mode", "TestMode", "Mode", "mode"]

  /** `d.get(key, {})` for each key in turn. */
  function Lookups(d: Dict<Value>, keys: seq<string>): (r: seq<Value>)
    ensures |r| == |keys| && forall i :: 0 <= i < |keys| ==> r[i] == GetOr(d, keys[i], Obj([]))
  {
    seq(|keys|, i requires 0 <= i < |keys| => GetOr(d, keys[i], Obj([])))
  }

  /**
   * The `specs` dictionary: the first non-empty one of the five
   * locations, else a non-empty "spring" dictionary, else a non-empty
   * "spring_specification" of any type.
   */
  function ChosenSpecs(params: Dict<Value>): Value {
    var first := FirstDict(Lookups(params, SpecsLocationKeys));
    var spring := GetOr(params, "spring", Obj([]));
    var withSpring := if Truthy(spring) && spring.Obj? && !Truthy(first) then spring else first;
    var springSpec := GetOr(params, "spring_specification", Obj([]));
    if Truthy(springSpec) && !Truthy(withSpring) then springSpec else withSpring
  }

  /** The `basic_info` dictionary: the first non-empty one of eight locations, else `{}`. */
  function ChosenBasicInfo(params: Dict<Value>): (r: Value)
    ensures r.Obj?
  {
    var springSpec := GetOr(params, "spring_specification", Obj([]));
    var nested := if springSpec.Obj? then Lookups(springSpec.entries, BasicInfoKeys) else [Obj([]), Obj([]), Obj([]), Obj([])];
    FirstDict(Lookups(params, BasicInfoKeys) + nested)
  }

  // ------------------------------------------------- the cascade

  /** What the prompt gives: its fields when it is a non-empty string, else nothing. */
  function PromptStage(params: Dict<Value>): Specs {
    var prompt := GetOr(params, "prompt", Str(""));
    if Truthy(prompt) && prompt.Str? then PromptFields(prompt.s) else NoSpecs
  }

  /** The top-level keys: a usable value overrides whatever the prompt gave. */
  function DirectStage(params: Dict<Value>, r: Specs): Specs {
    r.(partName := FirstUsable(params, DirectPartNameKeys).GetOr(r.partName),
       partNumber := FirstUsable(params, DirectPartNumberKeys).GetOr(r.partNumber),
       freeLength := FirstUsable(params, DirectFreeLengthKeys).GetOr(r.freeLength))
  }

  /** The key-name scans of the case-insensitive dictionary, for the fields still empty. */
  function NamedStage(ci: Dict<Value>, r: Specs): Specs {
    r.(partName := if r.partName == "" then FirstNamed(ci, PartNameField).GetOr("") else r.partName,
       partNumber := if r.partNumber == "" then FirstNamed(ci, PartNumberField).GetOr("") else r.partNumber,
       freeLength := if r.freeLength == "" then FirstNamed(ci, FreeLengthField).GetOr("") else r.freeLength)
  }

  /** The path lists, for the fields still empty; a test mode keeps its first word. */
  function PathStage(params: Dict<Value>, r: Specs): Specs {
    r.(partName := if r.partName == "" then FirstNested(params, PartNamePaths).GetOr("") else r.partName,
       partNumber := if r.partNumber == "" then FirstNested(params, PartNumberPaths).GetOr("") else r.partNumber,
       freeLength := if r.freeLength == "" then FirstNested(params, FreeLengthPaths).GetOr("") else r.freeLength,
       testMode := PathTestMode(params, r.testMode),
       safetyLimit := if r.safetyLimit == "" then FirstNested(params, SafetyLimitPaths).GetOr("") else r.safetyLimit)
  }

  /** The test mode after its path list: the first word of the first value found, when still empty. */
  function PathTestMode(params: Dict<Value>, current: string): string {
    var mode := FirstNested(params, TestModePaths);
    if current != "" then current
    else if mode.None? then ""
    else
      assert !IsSpace(mode.value[0]);
      FirstWord(mode.value).value
  }

  /**
   * The chosen specifications dictionary, when it is one: the empty
   * fields, a safety limit of exactly "300", and the test mode. The second
   * component is whether the test mode raises (a value that is not a
   * string, or a string of whitespace only), which ends the whole
   * extraction with the fields found so far.
   */
  function SpecsStage(specs: Value, r: Specs): (Specs, bool) {
    if !specs.Obj? then (r, false)
    else
      var d := specs.entries;
      var r1 := r.(
        partName := if r.partName == "" then FirstUsable(d, InfoPartNameKeys).GetOr("") else r.partName,
        partNumber := if r.partNumber == "" then FirstUsable(d, InfoPartNumberKeys).GetOr("") else r.partNumber,
        freeLength := if r.freeLength == "" then FirstUsable(d, InfoFreeLengthKeys).GetOr("") else r.freeLength,
        safetyLimit := if r.safetyLimit == "300" then FirstUsable(d, InfoSafetyLimitKeys).GetOr("300") else r.safetyLimit);
      SpecsModeStage(d, r1)
  }

  /** The test mode of the chosen specifications, when it is still empty; whether it raises. */
  function SpecsModeStage(d: Dict<Value>, r: Specs): (Specs, bool) {
    if r.testMode != "" then (r, false)
    else match FirstUsableValue(d, InfoTestModeKeys)
      case None => (r, false)
      case Some(v) =>
        if v.Str? && FirstWord(v.s).Some? then (r.(testMode := FirstWord(v.s).value), false) else (r, true)
  }

  /** The basic-information dictionary, for the name, number and length still empty. */
  function BasicStage(basic: Value, r: Specs): Specs {
    if !basic.Obj? then r
    else
      var d := basic.entries;
      r.(partName := if r.partName == "" then FirstUsable(d, InfoPartNameKeys).GetOr("") else r.partName,
         partNumber := if r.partNumber == "" then FirstUsable(d, InfoPartNumberKeys).GetOr("") else r.partNumber,
         freeLength := if r.freeLength == "" then FirstUsable(d, InfoFreeLengthKeys).GetOr("") else r.freeLength)
  }

  /** The clean-up of a value: "None", "null" and "" become "", anything else is stripped. */
  function Clean(x: string): (r: string)
    ensures Trimmed(r)
  {
    if x == "None" || x == "null" || x == "" then "" else Strip(x)
  }

  /** The clean-up of the four fields it touches; the test mode is left as it is. */
  function Cleanup(r: Specs): Specs {
    r.(partName := Clean(r.partName), partNumber := Clean(r.partNumber),
       freeLength := Clean(r.freeLength), safetyLimit := Clean(r.safetyLimit))
  }

  /** One entry of the deep search: each of the three fields still empty may take it. */
  function DeepStep(r: Specs, e: (string, Value)): Specs {
    var k := Lower(e.0);
    var r1 := if r.partName == "" && Names(PartNameField, k, false) && Usable(e.1) then r.(partName := Text(e.1)) else r;
    var r2 := if r1.partNumber == "" && Names(PartNumberField, k, false) && Usable(e.1) then r1.(partNumber := Text(e.1)) else r1;
    if r2.freeLength == "" && Names(FreeLengthField, k, false) && Usable(e.1) then r2.(freeLength := Text(e.1)) else r2
  }

  /** The deep search over the flattened parameters, entry after entry, without a break. */
  function DeepSearch(r: Specs, items: Dict<Value>): Specs
    decreases |items|
  {
    if |items| == 0 then r else DeepSearch(DeepStep(r, items[0]), items[1..])
  }

  function DeepStage(flat: Dict<Value>, r: Specs): Specs {
    if r.partName == "" || r.partNumber == "" || r.freeLength == "" then DeepSearch(r, flat) else r
  }

  /** `extract_key_specifications` of a sequence with these parameters. */
  function KeySpecifications(params: Dict<Value>): Specs {
    var start := PromptStage(params);
    if Truthy(GetOr(params, "prompt", Str(""))) && Complete(start) then start
    else Search(params, start)
  }

  /** The searches of the parameters after the prompt, starting from what it gave. */
  function Search(params: Dict<Value>, start: Specs): Specs {
    var flat := Flatten(params, "");
    var r1 := NamedStage(LowerKeys(flat), DirectStage(params, start));
    var r2 := PathStage(params, r1);
    var (r3, raised) := SpecsStage(ChosenSpecs(params), r2);
    if raised then r3 else Finish(params, flat, r3)
  }

  /** The basic information, the clean-up and the deep search. */
  function Finish(params: Dict<Value>, flat: Dict<Value>, r: Specs): Specs {
    DeepStage(flat, Cleanup(BasicStage(ChosenBasicInfo(params), r)))
  }

  // ------------------------------------------------- properties

  /** The deep search fills only empty fields and leaves the test mode and safety limit alone. */
  lemma {:induction false} DeepSearchKeeps(r: Specs, items: Dict<Value>)
    ensures var q := DeepSearch(r, items);
      q.testMode == r.testMode && q.safetyLimit == r.safetyLimit &&
      (r.partName != "" ==> q.partName == r.partName) &&
      (r.partNumber != "" ==> q.partNumber == r.partNumber) &&
      (r.freeLength != "" ==> q.freeLength == r.freeLength)
    decreases |items|
  {
    if |items| > 0 {
      DeepSearchKeeps(DeepStep(r, items[0]), items[1..]);
    }
  }

  /** Filled fields stay as they are in the scans of the case-insensitive dictionary. */
  lemma NamedKeeps(ci: Dict<Value>, r: Specs)
    ensures var q := NamedStage(ci, r);
      q.testMode == r.testMode && q.safetyLimit == r.safetyLimit &&
      (r.partName != "" ==> q.partName == r.partName) &&
      (r.partNumber != "" ==> q.partNumber == r.partNumber) &&
      (r.freeLength != "" ==> q.freeLength == r.freeLength)
  {
  }

  /** Filled fields stay as they are in the path searches. */
  lemma PathKeeps(params: Dict<Value>, r: Specs)
    ensures var q := PathStage(params, r);
      (r.partName != "" ==> q.partName == r.partName) &&
      (r.partNumber != "" ==> q.partNumber == r.partNumber) &&
      (r.freeLength != "" ==> q.freeLength == r.freeLength) &&
      (r.testMode != "" ==> q.testMode == r.testMode) &&
      (r.safetyLimit != "" ==> q.safetyLimit == r.safetyLimit)
  {
  }

  /** Filled fields stay as they are in the chosen specifications, but a safety limit of "300". */
  lemma SpecsKeeps(specs: Value, r: Specs)
    ensures var q := SpecsStage(specs, r).0;
      (r.partName != "" ==> q.partName == r.partName) &&
      (r.partNumber != "" ==> q.partNumber == r.partNumber) &&
      (r.freeLength != "" ==> q.freeLength == r.freeLength) &&
      (r.testMode != "" ==> q.testMode == r.testMode) &&
      (r.safetyLimit != "300" ==> q.safetyLimit == r.safetyLimit)
  {
    if specs.Obj? {
      var d := specs.entries;
      var r1 := r.(
        partName := if r.partName == "" then FirstUsable(d, InfoPartNameKeys).GetOr("") else r.partName,
        partNumber := if r.partNumber == "" then FirstUsable(d, InfoPartNumberKeys).GetOr("") else r.partNumber,
        freeLength := if r.freeLength == "" then FirstUsable(d, InfoFreeLengthKeys).GetOr("") else r.freeLength,
        safetyLimit := if r.safetyLimit == "300" then FirstUsable(d, InfoSafetyLimitKeys).GetOr("300") else r.safetyLimit);
      assert SpecsStage(specs, r) == SpecsModeStage(d, r1);
      SpecsModeKeeps(d, r1);
    }
  }

  /** The test-mode step changes the test mode only, and only when it is empty. */
  lemma SpecsModeKeeps(d: Dict<Value>, r: Specs)
    ensures var q := SpecsModeStage(d, r).0;
      q == r.(testMode := q.testMode) && (r.testMode != "" ==> q.testMode == r.testMode)
  {
  }

  /** Filled fields stay as they are in the basic information. */
  lemma BasicKeeps(basic: Value, r: Specs)
    ensures var q := BasicStage(basic, r);
      q.testMode == r.testMode && q.safetyLimit == r.safetyLimit &&
      (r.partName != "" ==> q.partName == r.partName) &&
      (r.partNumber != "" ==> q.partNumber == r.partNumber) &&
      (r.freeLength != "" ==> q.freeLength == r.freeLength)
  {
  }

  /** Parameters without any entry give five empty specifications. */
  lemma KeySpecsOfEmpty()
    ensures KeySpecifications([]) == NoSpecs
  {
    var empty: Dict<Value> := [];
    assert PromptStage(empty) == NoSpecs;
    SearchOfEmpty();
  }

  lemma SearchOfEmpty()
    ensures Search([], NoSpecs) == NoSpecs
  {
    var empty: Dict<Value> := [];
    assert Flatten(empty, "") == [];
    assert LowerKeys([]) == [];
    DirectOfEmpty();
    assert NamedStage([], NoSpecs) == NoSpecs;
    PathsOfEmpty();
    ChosenOfEmpty();
    InfoOfEmpty();
  }

  lemma DirectOfEmpty()
    ensures DirectStage([], NoSpecs) == NoSpecs
  {
    FirstUsableOfEmpty(DirectPartNameKeys);
    FirstUsableOfEmpty(DirectPartNumberKeys);
    FirstUsableOfEmpty(DirectFreeLengthKeys);
  }

  lemma ChosenOfEmpty()
    ensures ChosenSpecs([]) == Obj([]) && ChosenBasicInfo([]) == Obj([])
  {
    var empty: Dict<Value> := [];
    LookupsOfEmpty(SpecsLocationKeys, []);
    assert Lookups(empty, SpecsLocationKeys) + [] == Lookups(empty, SpecsLocationKeys);
    LookupsOfEmpty(BasicInfoKeys, [Obj([]), Obj([]), Obj([]), Obj([])]);
  }

  /** Nothing is found under any key of an empty dictionary. */
  lemma LookupsOfEmpty(keys: seq<string>, tail: seq<Value>)
    ensures FirstDict(Lookups([], keys) + tail) == FirstDict(tail)
  {
    var locs := Lookups([], keys) + tail;
    forall i | 0 <= i < |keys| ensures !Truthy(locs[i]) {
      assert locs[i] == GetOr([], keys[i], Obj([]));
    }
    FirstDictSkips(locs, |keys|);
    assert locs[|keys|..] == tail;
  }

  lemma InfoOfEmpty()
    ensures SpecsStage(Obj([]), NoSpecs) == (NoSpecs, false) && BasicStage(Obj([]), NoSpecs) == NoSpecs
  {
    FirstUsableOfEmpty(InfoPartNameKeys);
    FirstUsableOfEmpty(InfoPartNumberKeys);
    FirstUsableOfEmpty(InfoFreeLengthKeys);
    FirstUsableOfEmpty(InfoSafetyLimitKeys);
    FirstUsableOfEmpty(InfoTestModeKeys);
  }

  lemma PathsOfEmpty()
    ensures FirstNested([], PartNamePaths) == None && FirstNested([], PartNumberPaths) == None
    ensures FirstNested([], FreeLengthPaths) == None && FirstNested([], TestModePaths) == None
    ensures FirstNested([], SafetyLimitPaths) == None
  {
    FirstNestedOfEmpty(PartNamePaths);
    FirstNestedOfEmpty(PartNumberPaths);
    FirstNestedOfEmpty(FreeLengthPaths);
    FirstNestedOfEmpty(TestModePaths);
    FirstNestedOfEmpty(SafetyLimitPaths);
  }

  /** A non-empty prompt whose five fields are all found decides the result alone. */
  lemma PromptDecides(params: Dict<Value>, text: string)
    requires GetOr(params, "prompt", Str("")) == Str(text) && text != ""
    requires Complete(PromptFields(text))
    ensures KeySpecifications(params) == PromptFields(text)
  {
    assert Truthy(Str(text));
    assert PromptStage(params) == PromptFields(text);
  }

  /**
   * Unless the prompt decides, a part name found under the top-level keys
   * (other than "None" and "null") is the part name of the result: no
   * later search or clean-up replaces it.
   */
  lemma DirectPartNameKept(params: Dict<Value>, name: string)
    requires !(Truthy(GetOr(params, "prompt", Str(""))) && Complete(PromptStage(params)))
    requires FirstUsable(params, DirectPartNameKeys) == Some(name)
    requires name != "" && name != "None" && name != "null"
    ensures KeySpecifications(params).partName == name
  {
    SearchKeepsDirectName(params, PromptStage(params), name);
  }

  lemma SearchKeepsDirectName(params: Dict<Value>, start: Specs, name: string)
    requires FirstUsable(params, DirectPartNameKeys) == Some(name)
    requires name != "" && name != "None" && name != "null"
    ensures Search(params, start).partName == name
  {
    var flat := Flatten(params, "");
    var r0 := DirectStage(params, start);
    var r1 := NamedStage(LowerKeys(flat), r0);
    NamedKeeps(LowerKeys(flat), r0);
    var r2 := PathStage(params, r1);
    PathKeeps(params, r1);
    var (r3, raised) := SpecsStage(ChosenSpecs(params), r2);
    SpecsKeeps(ChosenSpecs(params), r2);
    assert r3.partName == name;
    FinishKeepsName(params, flat, r3);
  }

  lemma FinishKeepsName(params: Dict<Value>, flat: Dict<Value>, r: Specs)
    requires Trimmed(r.partName) && r.partName != "" && r.partName != "None" && r.partName != "null"
    ensures Finish(params, flat, r).partName == r.partName
  {
    var r4 := BasicStage(ChosenBasicInfo(params), r);
    BasicKeeps(ChosenBasicInfo(params), r);
    StripOfTrimmed(r.partName);
    assert Cleanup(r4).partName == r.partName;
    DeepSearchKeeps(Cleanup(r4), flat);
  }

  // ------------------------------------------------- the procedure

  /** The deep-search loop over the flattened parameters. */
  method DeepSearchLoop(start: Specs, items: Dict<Value>) returns (r: Specs)
    ensures r == DeepSearch(start, items)
  {
    r := start;
    var k := 0;
    while k < |items|
      invariant 0 <= k <= |items|
      invariant DeepSearch(start, items) == DeepSearch(r, items[k..])
    {
      assert items[k..][1..] == items[k + 1..];
      ghost var before := r;
      var (key, value) := items[k];
      var lower := Lower(key);
      if r.partName == "" && Names(PartNameField, lower, false) && Usable(value) {
        r := r.(partName := Text(value));
      }
      if r.partNumber == "" && Names(PartNumberField, lower, false) && Usable(value) {
        r := r.(partNumber := Text(value));
      }
      if r.freeLength == "" && Names(FreeLengthField, lower, false) && Usable(value) {
        r := r.(freeLength := Text(value));
      }
      assert r == DeepStep(before, items[k]);
      k := k + 1;
    }
  }

  /** The stages after the prompt, as `extract_key_specifications` runs them. */
  method SearchParameters(params: Dict<Value>, start: Specs) returns (r: Specs)
    ensures r == Search(params, start)
  {
    var flat := Flatten(params, "");
    var ci := LowerKeys(flat);
    r := DirectSearch(params, start);
    r := NamedSearch(ci, r);
    r := PathSearch(params, r);
    var specs := ChooseSpecs(params);
    var raised;
    r, raised := SpecsSearch(specs, r);
    if raised {
      return;
    }
    var basic := ChooseBasicInfo(params);
    ghost var r3 := r;
    r := BasicSearch(basic, r);
    r := r.(partName := Clean(r.partName), partNumber := Clean(r.partNumber),
            freeLength := Clean(r.freeLength), safetyLimit := Clean(r.safetyLimit));
    if r.partName == "" || r.partNumber == "" || r.freeLength == "" {
      r := DeepSearchLoop(r, flat);
    }
    assert r == Finish(params, flat, r3);
  }

  /** The loops over the top-level key lists. */
  method DirectSearch(params: Dict<Value>, start: Specs) returns (r: Specs)
    ensures r == DirectStage(params, start)
  {
    r := start;
    var found := FindFirstUsable(params, DirectPartNameKeys);
    if found.Some? {
      r := r.(partName := Text(found.value));
    }
    found := FindFirstUsable(params, DirectPartNumberKeys);
    if found.Some? {
      r := r.(partNumber := Text(found.value));
    }
    found := FindFirstUsable(params, DirectFreeLengthKeys);
    if found.Some? {
      r := r.(freeLength := Text(found.value));
    }
  }

  /** The scans of the case-insensitive dictionary. */
  method NamedSearch(ci: Dict<Value>, start: Specs) returns (r: Specs)
    ensures r == NamedStage(ci, start)
  {
    r := start;
    if r.partName == "" {
      var found := FindFirstNamed(ci, PartNameField);
      r := r.(partName := found.GetOr(""));
    }
    if r.partNumber == "" {
      var found := FindFirstNamed(ci, PartNumberField);
      r := r.(partNumber := found.GetOr(""));
    }
    if r.freeLength == "" {
      var found := FindFirstNamed(ci, FreeLengthField);
      r := r.(freeLength := found.GetOr(""));
    }
  }

  /** The loops over the path lists. */
  method PathSearch(params: Dict<Value>, start: Specs) returns (r: Specs)
    ensures r == PathStage(params, start)
  {
    var name := PathField(params, start.partName, PartNamePaths);
    var number := PathField(params, start.partNumber, PartNumberPaths);
    var free := PathField(params, start.freeLength, FreeLengthPaths);
    var mode := PathMode(params, start.testMode);
    var safety := PathField(params, start.safetyLimit, SafetyLimitPaths);
    r := start.(partName := name, partNumber := number, freeLength := free, testMode := mode, safetyLimit := safety);
  }

  /** One path list, searched when the field is still empty. */
  method PathField(params: Dict<Value>, current: string, paths: seq<seq<string>>) returns (v: string)
    ensures v == if current == "" then FirstNested(params, paths).GetOr("") else current
  {
    v := current;
    if v == "" {
      var found := FindFirstNested(params, paths);
      v := found.GetOr("");
    }
  }

  /** The test-mode paths, searched when the test mode is still empty; the first word is kept. */
  method PathMode(params: Dict<Value>, current: string) returns (v: string)
    ensures v == PathTestMode(params, current)
  {
    v := current;
    if v == "" {
      var found := FindFirstNested(params, TestModePaths);
      if found.Some? {
        assert !IsSpace(found.value[0]);
        v := FirstWord(found.value).value;
      }
    }
  }

  /** The choice of the `specs` dictionary. */
  method ChooseSpecs(params: Dict<Value>) returns (specs: Value)
    ensures specs == ChosenSpecs(params)
  {
    specs := FindFirstDict(Lookups(params, SpecsLocationKeys));
    var spring := GetOr(params, "spring", Obj([]));
    if Truthy(spring) && spring.Obj? && !Truthy(specs) {
      specs := spring;
    }
    var springSpec := GetOr(params, "spring_specification", Obj([]));
    if Truthy(springSpec) && !Truthy(specs) {
      specs := springSpec;
    }
  }

  /** The choice of the `basic_info` dictionary. */
  method ChooseBasicInfo(params: Dict<Value>) returns (basic: Value)
    ensures basic == ChosenBasicInfo(params)
  {
    var springSpec := GetOr(params, "spring_specification", Obj([]));
    var nested := if springSpec.Obj? then Lookups(springSpec.entries, BasicInfoKeys) else [Obj([]), Obj([]), Obj([]), Obj([])];
    basic := FindFirstDict(Lookups(params, BasicInfoKeys) + nested);
  }

  /** The text of the first usable value under `keys`, or `default` when none is. */
  method FindUsableText(d: Dict<Value>, keys: seq<string>, default: string) returns (r: string)
    ensures r == FirstUsable(d, keys).GetOr(default)
  {
    var found := FindFirstUsable(d, keys);
    r := if found.Some? then Text(found.value) else default;
  }

  /** The loops over the chosen specifications dictionary; `raised` when the test mode raises. */
  method SpecsSearch(specs: Value, start: Specs) returns (r: Specs, raised: bool)
    ensures (r, raised) == SpecsStage(specs, start)
  {
    r, raised := start, false;
    if !specs.Obj? {
      return;
    }
    var d := specs.entries;
    var name := UsableField(d, r.partName, "", InfoPartNameKeys);
    var number := UsableField(d, r.partNumber, "", InfoPartNumberKeys);
    var free := UsableField(d, r.freeLength, "", InfoFreeLengthKeys);
    var safety := UsableField(d, r.safetyLimit, "300", InfoSafetyLimitKeys);
    r := r.(partName := name, partNumber := number, freeLength := free, safetyLimit := safety);
    r, raised := SpecsMode(d, r);
  }

  /** A field still at `unset`, taken from the first usable value under `keys`. */
  method UsableField(d: Dict<Value>, current: string, unset: string, keys: seq<string>) returns (v: string)
    ensures v == if current == unset then FirstUsable(d, keys).GetOr(unset) else current
  {
    v := current;
    if v == unset {
      v := FindUsableText(d, keys, unset);
    }
  }

  /** The test mode of the chosen specifications; `raised` when its value has no first word. */
  method SpecsMode(d: Dict<Value>, start: Specs) returns (r: Specs, raised: bool)
    ensures (r, raised) == SpecsModeStage(d, start)
  {
    r, raised := start, false;
    if r.testMode == "" {
      var found := FindFirstUsable(d, InfoTestModeKeys);
      if found.Some? {
        var value := found.value;
        if !value.Str? || FirstWord(value.s).None? {
          return r, true;
        }
        r := r.(testMode := FirstWord(value.s).value);
      }
    }
  }

  /** The loops over the basic-information dictionary. */
  method BasicSearch(basic: Value, start: Specs) returns (r: Specs)
    ensures r == BasicStage(basic, start)
  {
    r := start;
    if !basic.Obj? {
      return;
    }
    var d := basic.entries;
    var name, number, free := r.partName, r.partNumber, r.freeLength;
    if name == "" {
      name := FindUsableText(d, InfoPartNameKeys, "");
    }
    if number == "" {
      number := FindUsableText(d, InfoPartNumberKeys, "");
    }
    if free == "" {
      free := FindUsableText(d, InfoFreeLengthKeys, "");
    }
    r := r.(partName := name, partNumber := number, freeLength := free);
  }

  /** `extract_key_specifications(sequence)`. */
  method ExtractKeySpecifications(sequence: DataModels.TestSequence) returns (r: Specs)
    ensures r == KeySpecifications(sequence.parameters)
  {
    var params := sequence.parameters;
    r := NoSpecs;
    var prompt := GetOr(params, "prompt", Str(""));
    if Truthy(prompt) {
      if prompt.Str? {
        r := ExtractFromPromptText(prompt.s);
      }
      if Complete(r) {
        return;
      }
    }
    r := SearchParameters(params, r);
  }
}
