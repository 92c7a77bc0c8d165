/**
 * The application's records: chat messages, generated test sequences,
 * set points and the spring specification, with their dictionary forms.
 * Timestamps are kept as their ISO-8601 text.
 */
module DataModels {
  import opened Wrappers
  import opened Values
  import PyStr

  /** Length, first and last character tell the dictionary keys below apart. */
  function Fingerprint(k: string): (int, char, char) {
    if |k| == 0 then (0, ' ', ' ') else (|k|, k[0], k[|k| - 1])
  }

  // ---------------------------------------------------------------- ChatMessage

  datatype ChatMessage = ChatMessage(role: string, content: string, timestamp: string)

  const ChatMessageKeys: seq<string> := ["role", "content", "timestamp"]

  function ChatMessageToDict(m: ChatMessage): (r: Value)
    ensures r.Obj? && Keys(r.entries) == ChatMessageKeys && DistinctKeys(r.entries)
  {
    Obj(Zip(ChatMessageKeys, [Str(m.role), Str(m.content), Str(m.timestamp)]))
  }

  /**
   * `ChatMessage.from_dict`: `None` where Python raises (a missing role or
   * content key, or a timestamp that is not text, on which `fromisoformat`
   * raises `TypeError`); a missing timestamp is replaced by `now`. A text
   * timestamp is kept as it stands, ISO or not.
   */
  function ChatMessageFromDict(d: Dict<Value>, now: string): (r: Option<ChatMessage>)
    ensures r.Some? ==> HasKey(d, "role") && HasKey(d, "content")
    ensures r.Some? && !HasKey(d, "timestamp") ==> r.value.timestamp == now
    ensures r.Some? ==> Get(d, "role") == Some(Str(r.value.role)) && Get(d, "content") == Some(Str(r.value.content))
    ensures r.Some? && Get(d, "timestamp").Some? ==> Get(d, "timestamp") == Some(Str(r.value.timestamp))
    ensures (var role, content := Get(d, "role"), Get(d, "content");
             role.Some? && role.value.Str? && content.Some? && content.value.Str? && Get(d, "timestamp").None?) ==> r.Some?
  {
    var role: Option<Value> := Get(d, "role");
    var content: Option<Value> := Get(d, "content");
    var ts: Value := GetOr(d, "timestamp", Str(now));
    if role.Some? && role.value.Str? && content.Some? && content.value.Str? && ts.Str? then
      Some(ChatMessage(role.value.s, content.value.s, ts.s))
    else None
  }

  lemma ChatMessageRoundTrip(m: ChatMessage, now: string)
    ensures ChatMessageFromDict(ChatMessageToDict(m).entries, now) == Some(m)
  {
    var vs := [Str(m.role), Str(m.content), Str(m.timestamp)];
    assert Distinct(ChatMessageKeys) by {
      forall i, j | 0 <= i < j < 3 ensures ChatMessageKeys[i] != ChatMessageKeys[j] {
        assert |ChatMessageKeys[i]| != |ChatMessageKeys[j]|;
      }
    }
    GetZip(ChatMessageKeys, vs, 0);
    GetZip(ChatMessageKeys, vs, 1);
    GetZip(ChatMessageKeys, vs, 2);
  }

  // --------------------------------------------------------------- TestSequence

  datatype TestSequence = TestSequence(
    rows: seq<Dict<Value>>,
    parameters: Dict<Value>,
    createdAt: string,
    name: Option<string>)

  function RowsToValue(rows: seq<Dict<Value>>): (r: seq<Value>)
    ensures |r| == |rows| && forall i :: 0 <= i < |rows| ==> r[i] == Obj(rows[i])
  {
    if |rows| == 0 then [] else [Obj(rows[0])] + RowsToValue(rows[1..])
  }

  predicate AllDicts(xs: seq<Value>) {
    forall i :: 0 <= i < |xs| ==> xs[i].Obj?
  }

  function RowsFromValue(xs: seq<Value>): (r: seq<Dict<Value>>)
    requires AllDicts(xs)
    ensures |r| == |xs| && forall i :: 0 <= i < |xs| ==> xs[i] == Obj(r[i])
  {
    if |xs| == 0 then [] else [xs[0].entries] + RowsFromValue(xs[1..])
  }

  const TestSequenceKeys: seq<string> := ["rows", "parameters", "created_at", "name"]

  function TestSequenceValues(t: TestSequence): seq<Value> {
    [List(RowsToValue(t.rows)), Obj(t.parameters), Str(t.createdAt),
     match t.name case Some(n) => Str(n) case None => Null]
  }

  function TestSequenceToDict(t: TestSequence): (r: Value)
    ensures r.Obj? && Keys(r.entries) == TestSequenceKeys && DistinctKeys(r.entries)
  {
    Obj(Zip(TestSequenceKeys, TestSequenceValues(t)))
  }

  /**
   * `TestSequence.from_dict`: `None` where Python raises (missing rows or
   * parameters, or a created_at that is not text, on which `fromisoformat`
   * raises `TypeError`); a missing created_at is replaced by `now`, a missing
   * or null name reads as `None`. A text created_at is kept as it stands,
   * ISO or not.
   */
  function TestSequenceFromDict(d: Dict<Value>, now: string): (r: Option<TestSequence>)
    ensures r.Some? ==> HasKey(d, "rows") && HasKey(d, "parameters")
    ensures r.Some? && !HasKey(d, "created_at") ==> r.value.createdAt == now
    ensures r.Some? && !HasKey(d, "name") ==> r.value.name.None?
    ensures r.Some? ==> Get(d, "parameters") == Some(Obj(r.value.parameters))
    ensures r.Some? ==>
      Get(d, "rows").Some? && Get(d, "rows").value.List? && |r.value.rows| == |Get(d, "rows").value.items| &&
      (forall i :: 0 <= i < |r.value.rows| ==> Get(d, "rows").value.items[i] == Obj(r.value.rows[i]))
    ensures r.Some? && Get(d, "created_at").Some? ==> Get(d, "created_at") == Some(Str(r.value.createdAt))
  {
    var rows: Option<Value> := Get(d, "rows");
    var params: Option<Value> := Get(d, "parameters");
    var ts: Value := GetOr(d, "created_at", Str(now));
    var name: Value := GetOr(d, "name", Null);
    if rows.Some? && rows.value.List? && AllDicts(rows.value.items)
       && params.Some? && params.value.Obj? && ts.Str? then
      Some(TestSequence(RowsFromValue(rows.value.items), params.value.entries, ts.s,
                        if name.Str? then Some(name.s) else None))
    else None
  }

  lemma RowsRoundTrip(rows: seq<Dict<Value>>)
    ensures AllDicts(RowsToValue(rows)) && RowsFromValue(RowsToValue(rows)) == rows
  {
    var xs := RowsToValue(rows);
    var back := RowsFromValue(xs);
    assert forall i :: 0 <= i < |rows| ==> back[i] == rows[i];
  }

  lemma TestSequenceKeysDistinct()
    ensures Distinct(TestSequenceKeys)
  {
    forall i, j | 0 <= i < j < 4 ensures TestSequenceKeys[i] != TestSequenceKeys[j] {
      assert Fingerprint(TestSequenceKeys[i]) != Fingerprint(TestSequenceKeys[j]);
    }
  }

  lemma TestSequenceRoundTrip(t: TestSequence, now: string)
    ensures TestSequenceFromDict(TestSequenceToDict(t).entries, now) == Some(t)
  {
    RowsRoundTrip(t.rows);
    var vs := TestSequenceValues(t);
    var d := Zip(TestSequenceKeys, vs);
    TestSequenceKeysDistinct();
    GetZip(TestSequenceKeys, vs, 0);
    assert Get(d, "rows") == Some(List(RowsToValue(t.rows)));
    GetZip(TestSequenceKeys, vs, 1);
    assert Get(d, "parameters") == Some(Obj(t.parameters));
    GetZip(TestSequenceKeys, vs, 2);
    assert GetOr(d, "created_at", Str(now)) == Str(t.createdAt);
    GetZip(TestSequenceKeys, vs, 3);
    assert GetOr(d, "name", Null) == vs[3];
    var name: Value := GetOr(d, "name", Null);
    assert (if name.Str? then Some(name.s) else None) == t.name by {
      match t.name {
        case Some(n) => assert name == Str(n);
        case None => assert name == Null;
      }
    }
  }

  // ------------------------------------------------------------------- SetPoint

  datatype SetPoint = SetPoint(positionMm: Float, loadN: Float, tolerancePercent: Float, enabled: bool)

  /** `SetPoint(position, load)` with the declared defaults: 10 % tolerance, enabled. */
  function NewSetPoint(position: Float, load: Float): (sp: SetPoint)
    ensures sp.tolerancePercent == F(10.0, "10.0") && sp.enabled
  {
    SetPoint(position, load, F(10.0, "10.0"), true)
  }

  /**
   * A stored number as the float field it initialises: an int is kept with
   * its own text, anything but a number reads as the field's default.
   */
  function AsFloat(v: Option<Value>, default: Float): (r: Float)
    ensures v.None? ==> r == default
    ensures v.Some? && v.value.Real? ==> r == v.value.f
    ensures v.Some? && v.value.Int? ==> r.value == v.value.i as real && r.text == PyStr.IntToStr(v.value.i)
    ensures v.Some? && !v.value.Real? && !v.value.Int? ==> r == default
  {
    match v
    case Some(Real(f)) => f
    case Some(Int(i)) => F(i as real, PyStr.IntToStr(i))
    case _ => default
  }

  /** A stored flag as the bool field it initialises: its truthiness. */
  function AsBool(v: Option<Value>, default: bool): (r: bool)
    ensures v.None? ==> r == default
    ensures v.Some? ==> r == Truthy(v.value)
  {
    match v
    case Some(x) => Truthy(x)
    case None => default
  }

  function AsString(v: Option<Value>, default: string): (r: string)
    ensures v.None? ==> r == default
    ensures v.Some? && v.value.Str? ==> r == v.value.s
    ensures v.Some? && !v.value.Str? ==> r == default
  {
    match v
    case Some(Str(s)) => s
    case _ => default
  }

  const SetPointKeys: seq<string> := ["position_mm", "load_n", "tolerance_percent", "enabled"]

  function SetPointValues(sp: SetPoint): seq<Value> {
    [Real(sp.positionMm), Real(sp.loadN), Real(sp.tolerancePercent), Bool(sp.enabled)]
  }

  function SetPointToDict(sp: SetPoint): (r: Value)
    ensures r.Obj? && Keys(r.entries) == SetPointKeys && DistinctKeys(r.entries)
  {
    ZipKeys(SetPointKeys, SetPointValues(sp));
    SetPointKeysDistinct();
    Obj(Zip(SetPointKeys, SetPointValues(sp)))
  }

  /** `SetPoint.from_dict`: every missing key takes its default (0, 0, 10 %, enabled). */
  function SetPointFromDict(d: Dict<Value>): (sp: SetPoint)
    ensures !HasKey(d, "position_mm") ==> sp.positionMm == F(0.0, "0.0")
    ensures !HasKey(d, "load_n") ==> sp.loadN == F(0.0, "0.0")
    ensures !HasKey(d, "tolerance_percent") ==> sp.tolerancePercent == F(10.0, "10.0")
    ensures !HasKey(d, "enabled") ==> sp.enabled
    ensures var v := Get(d, "position_mm"); v.Some? && v.value.Real? ==> sp.positionMm == v.value.f
    ensures var v := Get(d, "load_n"); v.Some? && v.value.Real? ==> sp.loadN == v.value.f
    ensures var v := Get(d, "tolerance_percent"); v.Some? && v.value.Real? ==> sp.tolerancePercent == v.value.f
    ensures Get(d, "enabled").Some? ==> sp.enabled == Truthy(Get(d, "enabled").value)
  {
    SetPoint(AsFloat(Get(d, "position_mm"), F(0.0, "0.0")),
             AsFloat(Get(d, "load_n"), F(0.0, "0.0")),
             AsFloat(Get(d, "tolerance_percent"), F(10.0, "10.0")),
             AsBool(Get(d, "enabled"), true))
  }

  lemma SetPointKeysDistinct()
    ensures Distinct(SetPointKeys)
  {
    forall i, j | 0 <= i < j < 4 ensures SetPointKeys[i] != SetPointKeys[j] {
      assert Fingerprint(SetPointKeys[i]) != Fingerprint(SetPointKeys[j]);
    }
  }

  lemma SetPointRoundTrip(sp: SetPoint)
    ensures SetPointFromDict(SetPointToDict(sp).entries) == sp
  {
    var vs := SetPointValues(sp);
    var d := Zip(SetPointKeys, vs);
    SetPointKeysDistinct();
    GetZip(SetPointKeys, vs, 0);
    assert Get(d, "position_mm") == Some(Real(sp.positionMm));
    GetZip(SetPointKeys, vs, 1);
    GetZip(SetPointKeys, vs, 2);
    GetZip(SetPointKeys, vs, 3);
    assert SetPointFromDict(d) == sp;
  }

  // -------------------------------------------------------- SpringSpecification

  /** `part_id` is declared an int but the panel stores non-numeric text as is. */
  datatype PartId = IdNum(n: int) | IdText(t: string)

  datatype SpringSpecification = SpringSpecification(
    partName: string,
    partNumber: string,
    partId: PartId,
    freeLengthMm: Float,
    coilCount: Float,
    wireDiaMm: Float,
    outerDiaMm: Float,
    setPoints: seq<SetPoint>,
    safetyLimitN: Float,
    unit: string,
    enabled: bool,
    createDefaults: bool,
    forceUnit: string,
    testMode: string,
    componentType: string,
    firstSpeed: Float,
    secondSpeed: Float,
    offerNumber: string,
    productionBatchNumber: string,
    partRevNoDate: string,
    materialDescription: string,
    surfaceTreatment: string,
    endCoilFinishing: string)

  const Zero := F(0.0, "0.0")

  /** The three set points `__post_init__` creates. */
  const DefaultSetPoints: seq<SetPoint> := [
    NewSetPoint(F(40.0, "40.0"), F(23.6, "23.6")),
    NewSetPoint(F(33.0, "33.0"), F(34.14, "34.14")),
    NewSetPoint(F(28.0, "28.0"), F(42.36, "42.36"))]

  /** `__post_init__`: an empty set-point list is filled with the defaults when asked to. */
  function PostInit(s: SpringSpecification): (r: SpringSpecification)
    ensures |s.setPoints| == 0 && s.createDefaults ==> r == s.(setPoints := DefaultSetPoints)
    ensures !(|s.setPoints| == 0 && s.createDefaults) ==> r == s
  {
    if |s.setPoints| == 0 && s.createDefaults then s.(setPoints := DefaultSetPoints) else s
  }

  /** The declared field defaults, before `__post_init__`. */
  function Defaults(createDefaults: bool): SpringSpecification {
    SpringSpecification("", "", IdNum(0), Zero, Zero, Zero, Zero, [], Zero, "mm", false,
                        createDefaults, "N", "Height Mode", "Compression", Zero, Zero,
                        "", "", "", "", "", "")
  }

  /** `SpringSpecification(create_defaults=c)`. */
  function NewSpec(createDefaults: bool): (s: SpringSpecification)
    ensures createDefaults ==> s.setPoints == DefaultSetPoints
    ensures !createDefaults ==> s.setPoints == []
    ensures s.unit == "mm" && s.forceUnit == "N" && s.testMode == "Height Mode"
    ensures s.componentType == "Compression" && !s.enabled && s.partId == IdNum(0)
  {
    PostInit(Defaults(createDefaults))
  }

  /** Construction with defaults requested and no set points yields exactly the three defaults. */
  lemma DefaultSetPointsAreTheStandardThree(s: SpringSpecification)
    requires |s.setPoints| == 0 && s.createDefaults
    ensures |PostInit(s).setPoints| == 3
    ensures forall i :: 0 <= i < 3 ==> (PostInit(s).setPoints[i].tolerancePercent.value == 10.0
                                       && PostInit(s).setPoints[i].enabled)
    ensures PostInit(s).setPoints[0].positionMm.value == 40.0 && PostInit(s).setPoints[0].loadN.value == 23.6
    ensures PostInit(s).setPoints[1].positionMm.value == 33.0 && PostInit(s).setPoints[1].loadN.value == 34.14
    ensures PostInit(s).setPoints[2].positionMm.value == 28.0 && PostInit(s).setPoints[2].loadN.value == 42.36
  {
  }

  function PartIdToValue(p: PartId): Value {
    match p
    case IdNum(n) => Int(n)
    case IdText(t) => Str(t)
  }

  function AsPartId(v: Option<Value>): (r: PartId)
    ensures v.None? ==> r == IdNum(0)
    ensures v.Some? && v.value.Int? ==> r == IdNum(v.value.i)
    ensures v.Some? && v.value.Str? ==> r == IdText(v.value.s)
    ensures v.Some? && !v.value.Int? && !v.value.Str? ==> r == IdNum(0)
  {
    match v
    case Some(Int(n)) => IdNum(n)
    case Some(Str(t)) => IdText(t)
    case _ => IdNum(0)
  }

  function SetPointsToValue(sps: seq<SetPoint>): (r: seq<Value>)
    ensures |r| == |sps| && forall i :: 0 <= i < |sps| ==> r[i] == SetPointToDict(sps[i])
  {
    if |sps| == 0 then [] else [SetPointToDict(sps[0])] + SetPointsToValue(sps[1..])
  }

  /** The keys of `to_dict`, in order. */
  const SpecKeys: seq<string> := [
    "part_name", "part_number", "part_id", "free_length_mm", "coil_count", "wire_dia_mm",
    "outer_dia_mm", "set_points", "safety_limit_n", "unit", "enabled", "create_defaults",
    "force_unit", "test_mode", "component_type", "first_speed", "second_speed", "offer_number",
    "production_batch_number", "part_rev_no_date", "material_description", "surface_treatment",
    "end_coil_finishing"]

  /** The number of keys `to_dict` writes. */
  const FieldCount := 23

  /** The value `to_dict` stores under `SpecKeys[k]`. */
  function SpecValue(s: SpringSpecification, k: nat): Value
    requires k < FieldCount
  {
    match k
    case 0 => Str(s.partName)
    case 1 => Str(s.partNumber)
    case 2 => PartIdToValue(s.partId)
    case 3 => Real(s.freeLengthMm)
    case 4 => Real(s.coilCount)
    case 5 => Real(s.wireDiaMm)
    case 6 => Real(s.outerDiaMm)
    case 7 => List(SetPointsToValue(s.setPoints))
    case 8 => Real(s.safetyLimitN)
    case 9 => Str(s.unit)
    case 10 => Bool(s.enabled)
    case 11 => Bool(s.createDefaults)
    case 12 => Str(s.forceUnit)
    case 13 => Str(s.testMode)
    case 14 => Str(s.componentType)
    case 15 => Real(s.firstSpeed)
    case 16 => Real(s.secondSpeed)
    case 17 => Str(s.offerNumber)
    case 18 => Str(s.productionBatchNumber)
    case 19 => Str(s.partRevNoDate)
    case 20 => Str(s.materialDescription)
    case 21 => Str(s.surfaceTreatment)
    case 22 => Str(s.endCoilFinishing)
  }

  function SpecValues(s: SpringSpecification): (vs: seq<Value>)
    ensures |vs| == FieldCount && forall k :: 0 <= k < FieldCount ==> vs[k] == SpecValue(s, k)
  {
    seq(FieldCount, k requires 0 <= k < FieldCount => SpecValue(s, k))
  }

  lemma SpecKeysDistinct()
    ensures Distinct(SpecKeys)
  {
    forall i, j | 0 <= i < j < |SpecKeys| ensures SpecKeys[i] != SpecKeys[j] {
      assert Fingerprint(SpecKeys[i]) != Fingerprint(SpecKeys[j]);
    }
  }

  /** `SpringSpecification.to_dict`. */
  function SpecToDict(s: SpringSpecification): (r: Value)
    ensures r.Obj? && |r.entries| == |SpecKeys|
  {
    Obj(SpecEntries(s))
  }

  /** The dictionary form has the keys of `to_dict`, in order and each once. */
  lemma SpecToDictKeys(s: SpringSpecification)
    ensures Keys(SpecToDict(s).entries) == SpecKeys && DistinctKeys(SpecToDict(s).entries)
  {
    SpecKeysDistinct();
  }

  /** The dictionary form of a specification is never empty, so it reads as true. */
  lemma SpecToDictTruthy(s: SpringSpecification)
    ensures Truthy(SpecToDict(s))
  {
  }

  function SpecEntries(s: SpringSpecification): Dict<Value> {
    Zip(SpecKeys, SpecValues(s))
  }

  /** `[d.get(k) for k in ks]`. */
  function Lookups(d: Dict<Value>, ks: seq<string>): (r: seq<Option<Value>>)
    ensures |r| == |ks|
  {
    if |ks| == 0 then [] else [Get(d, ks[0])] + Lookups(d, ks[1..])
  }

  lemma {:induction false} LookupsAt(d: Dict<Value>, ks: seq<string>, i: nat)
    requires i < |ks|
    ensures Lookups(d, ks)[i] == Get(d, ks[i])
  {
    if i > 0 {
      LookupsAt(d, ks[1..], i - 1);
    }
  }

  /** Looking up the keys of a dictionary literal gives back its values. */
  lemma LookupsZip(ks: seq<string>, vs: seq<Value>, i: nat)
    requires |ks| == |vs| && Distinct(ks) && i < |ks|
    ensures Lookups(Zip(ks, vs), ks)[i] == Some(vs[i])
  {
    LookupsAt(Zip(ks, vs), ks, i);
    GetZip(ks, vs, i);
  }

  /** The fields `from_dict` reads, with their defaults, before the set points are set. */
  function SpecFields(d: Dict<Value>): (s: SpringSpecification)
    ensures s.setPoints == []
  {
    FieldsOf(Lookups(d, SpecKeys))
  }

  /**
   * The fields built from `ls[i] == data.get(SpecKeys[i])`, each with the
   * default `from_dict` gives it (index 7, the set points, is read separately).
   */
  function FieldsOf(ls: seq<Option<Value>>): (s: SpringSpecification)
    requires |ls| == FieldCount
    ensures s.setPoints == []
  {
    SpringSpecification(
      AsString(ls[0], ""),
      AsString(ls[1], ""),
      AsPartId(ls[2]),
      AsFloat(ls[3], Zero),
      AsFloat(ls[4], Zero),
      AsFloat(ls[5], Zero),
      AsFloat(ls[6], Zero),
      [],
      AsFloat(ls[8], Zero),
      AsString(ls[9], "mm"),
      AsBool(ls[10], false),
      AsBool(ls[11], false),
      AsString(ls[12], "N"),
      AsString(ls[13], "Height Mode"),
      AsString(ls[14], "Compression"),
      AsFloat(ls[15], Zero),
      AsFloat(ls[16], Zero),
      AsString(ls[17], ""),
      AsString(ls[18], ""),
      AsString(ls[19], ""),
      AsString(ls[20], ""),
      AsString(ls[21], ""),
      AsString(ls[22], ""))
  }

  function SetPointsFromValue(xs: seq<Value>): (r: seq<SetPoint>)
    requires AllDicts(xs)
    ensures |r| == |xs| && forall i :: 0 <= i < |xs| ==> r[i] == SetPointFromDict(xs[i].entries)
  {
    if |xs| == 0 then [] else [SetPointFromDict(xs[0].entries)] + SetPointsFromValue(xs[1..])
  }

  /**
   * `SpringSpecification.from_dict`. A non-dictionary input or a set-point
   * entry that is not a dictionary raises inside the `try`, which returns
   * `SpringSpecification(create_defaults=False)`.
   */
  function SpecFromDict(data: Value): (s: SpringSpecification)
    ensures !data.Obj? ==> s == NewSpec(false)
    ensures data.Obj? ==> var sps := Lookups(data.entries, SpecKeys)[7];
      !(sps.Some? && sps.value.List?) ==> s == PostInit(SpecFields(data.entries))
    ensures data.Obj? ==> var sps := Lookups(data.entries, SpecKeys)[7];
      sps.Some? && sps.value.List? && AllDicts(sps.value.items) ==>
        s == PostInit(SpecFields(data.entries)).(setPoints := s.setPoints) &&
        |s.setPoints| == |sps.value.items| &&
        forall i :: 0 <= i < |s.setPoints| ==> s.setPoints[i] == SetPointFromDict(sps.value.items[i].entries)
    ensures data.Obj? ==> var sps := Lookups(data.entries, SpecKeys)[7];
      sps.Some? && sps.value.List? && !AllDicts(sps.value.items) ==> s == NewSpec(false)
  {
    if !data.Obj? then NewSpec(false)
    else
      var ls := Lookups(data.entries, SpecKeys);
      var spec := PostInit(FieldsOf(ls));
      var sps: Option<Value> := ls[7];
      if sps.Some? && sps.value.List? then
        if AllDicts(sps.value.items) then spec.(setPoints := SetPointsFromValue(sps.value.items))
        else NewSpec(false)
      else spec
  }

  /**
   * A dictionary holding none of the keys of `to_dict` reads as the declared
   * defaults, with `create_defaults` off and so no set points.
   */
  lemma SpecFromForeignDict(d: Dict<Value>)
    requires forall i :: 0 <= i < |SpecKeys| ==> !HasKey(d, SpecKeys[i])
    ensures SpecFromDict(Obj(d)) == NewSpec(false)
  {
    var ls := Lookups(d, SpecKeys);
    forall i | 0 <= i < |SpecKeys| ensures ls[i] == None {
      LookupsAt(d, SpecKeys, i);
      GetNone(d, SpecKeys[i]);
    }
    FieldsOfMissing(ls);
  }

  lemma FieldsOfMissing(ls: seq<Option<Value>>)
    requires |ls| == |SpecKeys| && forall i :: 0 <= i < |ls| ==> ls[i] == None
    ensures FieldsOf(ls) == Defaults(false)
  {
    assert ls[0] == None && ls[2] == None && ls[10] == None && ls[11] == None;
  }

  lemma SpecFromEmptyDict()
    ensures SpecFromDict(Obj([])) == NewSpec(false)
  {
    SpecFromForeignDict([]);
  }

  lemma SetPointsRoundTrip(sps: seq<SetPoint>)
    ensures AllDicts(SetPointsToValue(sps)) && SetPointsFromValue(SetPointsToValue(sps)) == sps
  {
    var back := SetPointsFromValue(SetPointsToValue(sps));
    forall i | 0 <= i < |sps| ensures back[i] == sps[i] {
      SetPointRoundTrip(sps[i]);
    }
  }

  /**
   * `from_dict(s.to_dict())` reproduces every field and the set-point list,
   * also when `create_defaults` is set: the stored list replaces the defaults.
   */
  lemma SpecRoundTrip(s: SpringSpecification)
    ensures SpecFromDict(SpecToDict(s)) == s
  {
    SpecFieldsOfEntries(s);
    SetPointsEntry(s);
    SetPointsRoundTrip(s.setPoints);
  }

  lemma SpecFieldsOfEntries(s: SpringSpecification)
    ensures SpecFields(SpecEntries(s)) == s.(setPoints := [])
  {
    LookupsOfEntries(s);
    FieldsOfValues(s, Lookups(SpecEntries(s), SpecKeys));
  }

  lemma SetPointsEntry(s: SpringSpecification)
    ensures Lookups(SpecEntries(s), SpecKeys)[7] == Some(List(SetPointsToValue(s.setPoints)))
  {
    var vs := SpecValues(s);
    assert vs[7] == List(SetPointsToValue(s.setPoints));
    assert Lookups(Zip(SpecKeys, vs), SpecKeys)[7] == Some(vs[7]) by {
      SpecKeysDistinct();
      LookupsZip(SpecKeys, vs, 7);
    }
  }

  /** Every key of `to_dict` finds its own value in the dictionary. */
  lemma LookupsOfEntries(s: SpringSpecification)
    ensures forall i :: 0 <= i < |SpecKeys| ==> Lookups(SpecEntries(s), SpecKeys)[i] == Some(SpecValues(s)[i])
  {
    SpecKeysDistinct();
    forall i | 0 <= i < |SpecKeys| ensures Lookups(SpecEntries(s), SpecKeys)[i] == Some(SpecValues(s)[i]) {
      LookupsZip(SpecKeys, SpecValues(s), i);
    }
  }

  /** Reading back the values `to_dict` stores gives the fields they came from. */
  lemma FieldsOfValues(s: SpringSpecification, ls: seq<Option<Value>>)
    requires |ls| == FieldCount && forall i :: 0 <= i < FieldCount ==> ls[i] == Some(SpecValues(s)[i])
    ensures FieldsOf(ls) == s.(setPoints := [])
  {
    FieldsOfStored(s, ls);
  }

  lemma FieldsOfStored(s: SpringSpecification, ls: seq<Option<Value>>)
    requires |ls| == FieldCount
    requires ls[0] == Some(Str(s.partName)) && ls[1] == Some(Str(s.partNumber)) && ls[2] == Some(PartIdToValue(s.partId)) &&
      ls[3] == Some(Real(s.freeLengthMm)) && ls[4] == Some(Real(s.coilCount)) && ls[5] == Some(Real(s.wireDiaMm)) &&
      ls[6] == Some(Real(s.outerDiaMm)) && ls[8] == Some(Real(s.safetyLimitN)) && ls[9] == Some(Str(s.unit)) &&
      ls[10] == Some(Bool(s.enabled)) && ls[11] == Some(Bool(s.createDefaults)) && ls[12] == Some(Str(s.forceUnit)) &&
      ls[13] == Some(Str(s.testMode)) && ls[14] == Some(Str(s.componentType)) && ls[15] == Some(Real(s.firstSpeed)) &&
      ls[16] == Some(Real(s.secondSpeed)) && ls[17] == Some(Str(s.offerNumber)) && ls[18] == Some(Str(s.productionBatchNumber)) &&
      ls[19] == Some(Str(s.partRevNoDate)) && ls[20] == Some(Str(s.materialDescription)) && ls[21] == Some(Str(s.surfaceTreatment)) &&
      ls[22] == Some(Str(s.endCoilFinishing))
    ensures FieldsOf(ls) == s.(setPoints := [])
  {
    match s.partId {
      case IdNum(n) =>
      case IdText(t) =>
    }
  }

  // ------------------------------------------------------- to_prompt_text

  function PartIdText(p: PartId): string {
    match p
    case IdNum(n) => PyStr.IntToStr(n)
    case IdText(t) => t
  }

  /**
   * The two lines of the `n`-th set point. The plus-minus sign is written in
   * the source as the two characters U+00C2 U+00B1 (UTF-8 read as Latin-1),
   * and so it is here.
   */
  function SetPointPromptLines(n: nat, sp: SetPoint, unit: string, forceUnit: string): string {
    "Set Point-" + PyStr.NatToStr(n) + " Position: " + sp.positionMm.text + " " + unit + "\n" +
    "Set Point-" + PyStr.NatToStr(n) + " Load: " + sp.loadN.text + "\U{C2}\U{B1}" +
    sp.tolerancePercent.text + "% " + forceUnit + "\n"
  }

  /** The two lines of each set point as a function of its number and the point. */
  function PromptLinesOf(unit: string, forceUnit: string): (nat, SetPoint) -> string {
    (n: nat, sp: SetPoint) => SetPointPromptLines(n, sp, unit, forceUnit)
  }

  /** `lines(n, p)` for every enabled point `p` of `sps`, `n` its 1-based position in the whole list. */
  function EnabledLinesWith(lines: (nat, SetPoint) -> string, sps: seq<SetPoint>): string
    decreases |sps|
  {
    if |sps| == 0 then ""
    else
      EnabledLinesWith(lines, sps[..|sps| - 1]) +
      (if sps[|sps| - 1].enabled then lines(|sps|, sps[|sps| - 1]) else "")
  }

  /** The set-point lines for `sps`, enabled points only, numbered from 1 over the whole list. */
  function EnabledPromptLines(sps: seq<SetPoint>, unit: string, forceUnit: string): string {
    EnabledLinesWith(PromptLinesOf(unit, forceUnit), sps)
  }

  /** The 1-based positions of the enabled set points, in order. */
  function EnabledNumbers(sps: seq<SetPoint>): (ns: seq<nat>)
    ensures forall k :: k in ns <==> 1 <= k <= |sps| && sps[k - 1].enabled
    ensures forall a, b :: 0 <= a < b < |ns| ==> ns[a] < ns[b]
    ensures forall a :: 0 <= a < |ns| ==> 1 <= ns[a] <= |sps|
    decreases |sps|
  {
    if |sps| == 0 then []
    else
      var front := EnabledNumbers(sps[..|sps| - 1]);
      assert forall j :: 0 <= j < |sps| - 1 ==> sps[..|sps| - 1][j] == sps[j];
      front + (if sps[|sps| - 1].enabled then [|sps|] else [])
  }

  /** The set-point lines for the numbers `ns`, each taken at its own position in `sps`. */
  function NumberedLines(sps: seq<SetPoint>, ns: seq<nat>, unit: string, forceUnit: string): string
    requires forall a :: 0 <= a < |ns| ==> 1 <= ns[a] <= |sps|
    decreases |ns|
  {
    if |ns| == 0 then ""
    else NumberedLines(sps, ns[..|ns| - 1], unit, forceUnit) +
         SetPointPromptLines(ns[|ns| - 1], sps[ns[|ns| - 1] - 1], unit, forceUnit)
  }

  lemma {:induction false} NumberedLinesPrefix(sps: seq<SetPoint>, x: SetPoint, ns: seq<nat>, unit: string, forceUnit: string)
    requires forall a :: 0 <= a < |ns| ==> 1 <= ns[a] <= |sps|
    ensures NumberedLines(sps + [x], ns, unit, forceUnit) == NumberedLines(sps, ns, unit, forceUnit)
    decreases |ns|
  {
    if |ns| > 0 {
      NumberedLinesPrefix(sps, x, ns[..|ns| - 1], unit, forceUnit);
      assert (sps + [x])[ns[|ns| - 1] - 1] == sps[ns[|ns| - 1] - 1];
    }
  }

  /**
   * The prompt lists exactly the enabled set points, each under its 1-based
   * position in the whole list: a disabled point leaves a gap in the numbering.
   */
  lemma {:induction false} EnabledPromptLinesAreNumbered(sps: seq<SetPoint>, unit: string, forceUnit: string)
    ensures EnabledPromptLines(sps, unit, forceUnit) == NumberedLines(sps, EnabledNumbers(sps), unit, forceUnit)
    decreases |sps|
  {
    if |sps| > 0 {
      var front := sps[..|sps| - 1];
      var x := sps[|sps| - 1];
      assert sps == front + [x];
      EnabledPromptLinesAreNumbered(front, unit, forceUnit);
      NumberedLinesPrefix(front, x, EnabledNumbers(front), unit, forceUnit);
      var ns := EnabledNumbers(sps);
      if x.enabled {
        assert ns[..|ns| - 1] == EnabledNumbers(front);
      } else {
        assert ns == EnabledNumbers(front);
      }
    }
  }

  /** An enabled, a disabled and an enabled point are listed as Set Point-1 and Set Point-3. */
  lemma PromptNumberingSkipsDisabled(a: SetPoint, b: SetPoint, c: SetPoint)
    requires a.enabled && !b.enabled && c.enabled
    ensures EnabledNumbers([a, b, c]) == [1, 3]
  {
    assert [a, b, c][..2] == [a, b] && [a, b][..1] == [a] && [a][..0] == [];
    assert EnabledNumbers([a]) == [1];
    assert EnabledNumbers([a, b]) == [1];
  }

  function PromptHead(s: SpringSpecification): string {
    "Spring Specifications:\n" +
    "Part Name: " + s.partName + "\n" +
    "Part Number: " + s.partNumber + "\n" +
    "ID: " + PartIdText(s.partId) + "\n" +
    "Free Length: " + s.freeLengthMm.text + " " + s.unit + "\n" +
    "No of Coils: " + s.coilCount.text + "\n" +
    "Wire Dia: " + s.wireDiaMm.text + " " + s.unit + "\n" +
    "OD: " + s.outerDiaMm.text + " " + s.unit + "\n"
  }

  function PromptTail(s: SpringSpecification): string {
    "Safety Limit: " + s.safetyLimitN.text + " " + s.forceUnit + "\n" +
    "Displacement Unit: " + s.unit + "\n" +
    "Force Unit: " + s.forceUnit + "\n" +
    "Test Mode: " + s.testMode + "\n" +
    "Component Type: " + s.componentType + "\n" +
    "First Speed: " + s.firstSpeed.text + "\n" +
    "Second Speed: " + s.secondSpeed.text + "\n" +
    "Offer Number: " + s.offerNumber + "\n" +
    "Production Batch Number: " + s.productionBatchNumber + "\n" +
    "Part Revision: " + s.partRevNoDate + "\n" +
    "Material: " + s.materialDescription + "\n" +
    "Surface Treatment: " + s.surfaceTreatment + "\n" +
    "End Coil Finishing: " + s.endCoilFinishing + "\n"
  }

  /**
   * The text of `to_prompt_text`: the fixed header lines, the lines of the
   * enabled set points numbered by position, then the fixed trailer.
   */
  function PromptText(s: SpringSpecification): string {
    PromptHead(s) + NumberedLines(s.setPoints, EnabledNumbers(s.setPoints), s.unit, s.forceUnit) + PromptTail(s)
  }

  /** `SpringSpecification.to_prompt_text`, which builds the text line by line. */
  method ToPromptText(s: SpringSpecification) returns (text: string)
    ensures text == PromptText(s)
  {
    text := AppendEnabledLines(PromptHead(s), PromptLinesOf(s.unit, s.forceUnit), s.setPoints);
    EnabledPromptLinesAreNumbered(s.setPoints, s.unit, s.forceUnit);
    text := text + PromptTail(s);
  }

  /** The loop of `to_prompt_text` over the set points, appending to the text built so far. */
  method AppendEnabledLines(head: string, lines: (nat, SetPoint) -> string, sps: seq<SetPoint>) returns (text: string)
    ensures text == head + EnabledLinesWith(lines, sps)
  {
    text := head;
    var i := 0;
    while i < |sps|
      invariant 0 <= i <= |sps|
      invariant text == head + EnabledLinesWith(lines, sps[..i])
    {
      var sp := sps[i];
      PyStr.PrefixStep(sps, i);
      if sp.enabled {
        text := text + lines(i + 1, sp);
      }
      i := i + 1;
    }
    assert sps[..i] == sps;
  }

  // ---------------------------------------------------------------- AppSettings

  /**
   * `AppSettings` after `__post_init__`: the specification is always present,
   * so the optional field of the source is a plain one here.
   */
  datatype AppSettings = AppSettings(
    apiKey: string,
    defaultExportFormat: string,
    recentSequences: seq<string>,
    maxChatHistory: int,
    springSpecification: SpringSpecification)

  /** The constructor with `spring_specification` possibly `None`, followed by `__post_init__`. */
  function NewAppSettings(apiKey: string, defaultExportFormat: string, recent: seq<string>,
                          maxChatHistory: int, spec: Option<SpringSpecification>): (a: AppSettings)
    ensures spec.Some? ==> a.springSpecification == spec.value
    ensures spec.None? ==> a.springSpecification == NewSpec(false)
    ensures a.apiKey == apiKey && a.defaultExportFormat == defaultExportFormat
    ensures a.recentSequences == recent && a.maxChatHistory == maxChatHistory
  {
    AppSettings(apiKey, defaultExportFormat, recent, maxChatHistory,
                if spec.Some? then spec.value else NewSpec(false))
  }

  const AppSettingsKeys: seq<string> :=
    ["api_key", "default_export_format", "recent_sequences", "max_chat_history", "spring_specification"]

  function StringsToValue(xs: seq<string>): (r: seq<Value>)
    ensures |r| == |xs| && forall i :: 0 <= i < |xs| ==> r[i] == Str(xs[i])
  {
    if |xs| == 0 then [] else [Str(xs[0])] + StringsToValue(xs[1..])
  }

  predicate AllStrings(xs: seq<Value>) {
    forall i :: 0 <= i < |xs| ==> xs[i].Str?
  }

  function StringsFromValue(xs: seq<Value>): (r: seq<string>)
    requires AllStrings(xs)
    ensures |r| == |xs| && forall i :: 0 <= i < |xs| ==> Str(r[i]) == xs[i]
  {
    if |xs| == 0 then [] else [xs[0].s] + StringsFromValue(xs[1..])
  }

  function AppSettingsValues(a: AppSettings): seq<Value> {
    [Str(a.apiKey), Str(a.defaultExportFormat), List(StringsToValue(a.recentSequences)),
     Int(a.maxChatHistory), SpecToDict(a.springSpecification)]
  }

  /** `AppSettings.to_dict`; the specification is always present after construction. */
  function AppSettingsToDict(a: AppSettings): (r: Value)
    ensures r.Obj? && Keys(r.entries) == AppSettingsKeys
  {
    Obj(Zip(AppSettingsKeys, AppSettingsValues(a)))
  }

  /**
   * `AppSettings.from_dict`. A falsy or missing specification becomes the
   * default one; a list of recent sequences that is not all text, or a
   * non-integer history bound, is `None` (the source would keep the raw value).
   */
  function AppSettingsFromDict(d: Dict<Value>): (r: Option<AppSettings>)
    ensures r.Some? && Get(d, "spring_specification").None? ==> r.value.springSpecification == NewSpec(false)
    ensures r.Some? && Get(d, "max_chat_history").None? ==> r.value.maxChatHistory == 100
    ensures r.Some? && Get(d, "recent_sequences").None? ==> r.value.recentSequences == []
    ensures Get(d, "recent_sequences").None? && Get(d, "max_chat_history").None? ==> r.Some?
    ensures r.Some? && Get(d, "max_chat_history").Some? ==> Get(d, "max_chat_history") == Some(Int(r.value.maxChatHistory))
    ensures r.Some? ==> var v := Get(d, "api_key"); v.Some? && v.value.Str? ==> r.value.apiKey == v.value.s
    ensures r.Some? ==> var v := Get(d, "default_export_format"); v.Some? && v.value.Str? ==> r.value.defaultExportFormat == v.value.s
    ensures r.Some? ==> var v := Get(d, "spring_specification");
      v.Some? && Truthy(v.value) ==> r.value.springSpecification == SpecFromDict(v.value)
    ensures r.Some? ==> var v := Get(d, "spring_specification");
      v.Some? && !Truthy(v.value) ==> r.value.springSpecification == NewSpec(false)
  {
    var specData: Option<Value> := Get(d, "spring_specification");
    var spec: Option<SpringSpecification> :=
      if specData.Some? && Truthy(specData.value) then Some(SpecFromDict(specData.value)) else None;
    var recent: Value := GetOr(d, "recent_sequences", List([]));
    var bound: Value := GetOr(d, "max_chat_history", Int(100));
    if recent.List? && AllStrings(recent.items) && bound.Int? then
      Some(NewAppSettings(AsString(Get(d, "api_key"), ""), AsString(Get(d, "default_export_format"), "CSV"),
                          StringsFromValue(recent.items), bound.i, spec))
    else None
  }

  lemma StringsRoundTrip(xs: seq<string>)
    ensures AllStrings(StringsToValue(xs)) && StringsFromValue(StringsToValue(xs)) == xs
  {
    var back := StringsFromValue(StringsToValue(xs));
    assert forall i :: 0 <= i < |xs| ==> back[i] == xs[i];
  }

  /** The specification dictionary `to_dict` stores is never empty, so it is read back. */
  lemma AppSettingsRoundTrip(a: AppSettings)
    ensures AppSettingsFromDict(AppSettingsToDict(a).entries) == Some(a)
  {
    AppSettingsLookups(a);
    StringsRoundTrip(a.recentSequences);
    SpecRoundTrip(a.springSpecification);
    AppSettingsFromStored(AppSettingsToDict(a).entries, a);
  }

  /** `from_dict` of any dictionary that holds the stored form of every field of `a`. */
  lemma AppSettingsFromStored(d: Dict<Value>, a: AppSettings)
    requires Get(d, "api_key") == Some(Str(a.apiKey))
    requires Get(d, "default_export_format") == Some(Str(a.defaultExportFormat))
    requires Get(d, "recent_sequences") == Some(List(StringsToValue(a.recentSequences)))
    requires Get(d, "max_chat_history") == Some(Int(a.maxChatHistory))
    requires Get(d, "spring_specification") == Some(SpecToDict(a.springSpecification))
    requires SpecFromDict(SpecToDict(a.springSpecification)) == a.springSpecification
    requires StringsFromValue(StringsToValue(a.recentSequences)) == a.recentSequences
    ensures AppSettingsFromDict(d) == Some(a)
  {
    SpecToDictTruthy(a.springSpecification);
  }

  lemma AppSettingsLookups(a: AppSettings)
    ensures Get(AppSettingsToDict(a).entries, "api_key") == Some(Str(a.apiKey))
    ensures Get(AppSettingsToDict(a).entries, "default_export_format") == Some(Str(a.defaultExportFormat))
    ensures Get(AppSettingsToDict(a).entries, "recent_sequences") == Some(List(StringsToValue(a.recentSequences)))
    ensures Get(AppSettingsToDict(a).entries, "max_chat_history") == Some(Int(a.maxChatHistory))
    ensures Get(AppSettingsToDict(a).entries, "spring_specification") == Some(SpecToDict(a.springSpecification))
  {
    var vs := AppSettingsValues(a);
    assert Distinct(AppSettingsKeys) by {
      forall i, j | 0 <= i < j < 5 ensures AppSettingsKeys[i] != AppSettingsKeys[j] {
        assert Fingerprint(AppSettingsKeys[i]) != Fingerprint(AppSettingsKeys[j]);
      }
    }
    GetZip(AppSettingsKeys, vs, 0);
    GetZip(AppSettingsKeys, vs, 1);
    GetZip(AppSettingsKeys, vs, 2);
    GetZip(AppSettingsKeys, vs, 3);
    GetZip(AppSettingsKeys, vs, 4);
  }
}
