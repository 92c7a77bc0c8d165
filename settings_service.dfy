/**
 * The in-memory part of the settings service: a dictionary of settings
 * whose spring specification is kept in its dictionary form. Writing the
 * settings to disk (encrypted JSON) is outside the model; its outcome is
 * the `saved` argument of the methods that write.
 */
module SettingsService {
  import opened Wrappers
  import opened Values
  import opened DataModels

  // ------------------------------------------------------------ recent list

  /** The position of the first `x` in `xs`, or -1 (`xs.index(x)` where it exists). */
  function Find(xs: seq<Value>, x: Value): (i: int)
    ensures -1 <= i < |xs|
    ensures i == -1 <==> x !in xs
    ensures i >= 0 ==> xs[i] == x && x !in xs[..i]
  {
    if |xs| == 0 then -1
    else if xs[0] == x then 0
    else
      var j := Find(xs[1..], x);
      assert xs[1..][..if j < 0 then 0 else j] == xs[1..if j < 0 then 1 else j + 1];
      if j == -1 then -1 else j + 1
  }

  /** `xs.remove(x)` where `x` occurs: the first occurrence is dropped, the rest keep their order. */
  function RemoveFirst(xs: seq<Value>, x: Value): (r: seq<Value>)
    ensures x !in xs ==> r == xs
    ensures x in xs ==> |r| == |xs| - 1 && r == xs[..Find(xs, x)] + xs[Find(xs, x) + 1..]
  {
    var i := Find(xs, x);
    if i == -1 then xs else xs[..i] + xs[i + 1..]
  }

  predicate NoDuplicates(xs: seq<Value>) {
    forall i, j :: 0 <= i < j < |xs| ==> xs[i] != xs[j]
  }

  /** Python's `xs[:n]` for `n >= 0`. */
  function PyTake(xs: seq<Value>, n: nat): (r: seq<Value>)
    ensures |r| == if |xs| < n then |xs| else n
    ensures r == xs[..|r|]
  {
    if |xs| <= n then xs else xs[..n]
  }

  /** The list `add_recent_sequence` stores: `x` first, its earlier entry removed, at most ten. */
  function RecentAfter(recent: seq<Value>, x: Value): seq<Value> {
    PyTake([x] + RemoveFirst(recent, x), 10)
  }

  /** Dropping one element of a duplicate-free list leaves it duplicate-free and without that element. */
  lemma RemoveAtNoDuplicates(xs: seq<Value>, i: nat)
    requires NoDuplicates(xs) && i < |xs|
    ensures NoDuplicates(xs[..i] + xs[i + 1..]) && xs[i] !in xs[..i] + xs[i + 1..]
  {
    var r := xs[..i] + xs[i + 1..];
    assert forall j :: 0 <= j < |r| ==> r[j] == xs[if j < i then j else j + 1];
  }

  /**
   * The new id heads the list, the list holds at most ten entries, and a
   * duplicate-free list stays duplicate-free, so the id is not repeated.
   */
  lemma RecentAfterShape(recent: seq<Value>, x: Value)
    ensures |RecentAfter(recent, x)| <= 10
    ensures RecentAfter(recent, x)[0] == x
    ensures NoDuplicates(recent) ==> NoDuplicates(RecentAfter(recent, x))
  {
    var rest := RemoveFirst(recent, x);
    var full := [x] + rest;
    var r := RecentAfter(recent, x);
    if NoDuplicates(recent) {
      if x in recent {
        RemoveAtNoDuplicates(recent, Find(recent, x));
      }
      assert x !in rest;
      assert NoDuplicates(full) by {
        forall i, j | 0 <= i < j < |full| ensures full[i] != full[j] {
          assert full[j] == rest[j - 1];
          if i > 0 {
            assert full[i] == rest[i - 1];
          }
        }
      }
      assert forall j :: 0 <= j < |r| ==> r[j] == full[j];
    }
  }

  /** After the id, the list keeps the other entries in their order. */
  lemma RecentAfterKeepsOthers(recent: seq<Value>, x: Value)
    ensures RecentAfter(recent, x)[1..] == PyTake(RemoveFirst(recent, x), 9)
  {
    var rest := RemoveFirst(recent, x);
    var r := RecentAfter(recent, x);
    assert ([x] + rest)[1..] == rest;
  }

  // ------------------------------------------------------ basic-info update

  /**
   * The keyword arguments of `update_spring_basic_info`; `None` stands for an
   * argument left at its default `None`.
   */
  datatype BasicInfo = BasicInfo(
    partName: Option<string>, partNumber: Option<string>, partId: Option<PartId>,
    freeLength: Option<Float>, coilCount: Option<Float>, wireDia: Option<Float>,
    outerDia: Option<Float>, safetyLimit: Option<Float>, unit: Option<string>,
    enabled: Option<bool>, forceUnit: Option<string>, testMode: Option<string>,
    componentType: Option<string>, firstSpeed: Option<Float>, secondSpeed: Option<Float>,
    offerNumber: Option<string>, productionBatchNumber: Option<string>,
    partRevNoDate: Option<string>, materialDescription: Option<string>,
    surfaceTreatment: Option<string>, endCoilFinishing: Option<string>)

  const NoBasicInfo := BasicInfo(None, None, None, None, None, None, None, None, None, None,
                                 None, None, None, None, None, None, None, None, None, None, None)

  /** The specification with every field whose argument is given replaced by it. */
  function ApplyBasicInfo(s: SpringSpecification, u: BasicInfo): (r: SpringSpecification)
    ensures r.setPoints == s.setPoints && r.createDefaults == s.createDefaults
  {
    s.(partName := u.partName.GetOr(s.partName),
       partNumber := u.partNumber.GetOr(s.partNumber),
       partId := u.partId.GetOr(s.partId),
       freeLengthMm := u.freeLength.GetOr(s.freeLengthMm),
       coilCount := u.coilCount.GetOr(s.coilCount),
       wireDiaMm := u.wireDia.GetOr(s.wireDiaMm),
       outerDiaMm := u.outerDia.GetOr(s.outerDiaMm),
       safetyLimitN := u.safetyLimit.GetOr(s.safetyLimitN),
       unit := u.unit.GetOr(s.unit),
       enabled := u.enabled.GetOr(s.enabled),
       forceUnit := u.forceUnit.GetOr(s.forceUnit),
       testMode := u.testMode.GetOr(s.testMode),
       componentType := u.componentType.GetOr(s.componentType),
       firstSpeed := u.firstSpeed.GetOr(s.firstSpeed),
       secondSpeed := u.secondSpeed.GetOr(s.secondSpeed),
       offerNumber := u.offerNumber.GetOr(s.offerNumber),
       productionBatchNumber := u.productionBatchNumber.GetOr(s.productionBatchNumber),
       partRevNoDate := u.partRevNoDate.GetOr(s.partRevNoDate),
       materialDescription := u.materialDescription.GetOr(s.materialDescription),
       surfaceTreatment := u.surfaceTreatment.GetOr(s.surfaceTreatment),
       endCoilFinishing := u.endCoilFinishing.GetOr(s.endCoilFinishing))
  }

  /** With no argument given nothing changes. */
  lemma ApplyNoBasicInfo(s: SpringSpecification)
    ensures ApplyBasicInfo(s, NoBasicInfo) == s
  {
  }

  /** Applying the same arguments twice is applying them once. */
  lemma ApplyBasicInfoIdempotent(s: SpringSpecification, u: BasicInfo)
    ensures ApplyBasicInfo(ApplyBasicInfo(s, u), u) == ApplyBasicInfo(s, u)
  {
  }

  /** A field whose argument is given takes it; one whose argument is omitted keeps its value. */
  lemma ApplyBasicInfoFields(s: SpringSpecification, u: BasicInfo)
    ensures var r := ApplyBasicInfo(s, u);
      r.partName == (if u.partName.Some? then u.partName.value else s.partName) &&
      r.partNumber == (if u.partNumber.Some? then u.partNumber.value else s.partNumber) &&
      r.partId == (if u.partId.Some? then u.partId.value else s.partId) &&
      r.freeLengthMm == (if u.freeLength.Some? then u.freeLength.value else s.freeLengthMm) &&
      r.coilCount == (if u.coilCount.Some? then u.coilCount.value else s.coilCount) &&
      r.wireDiaMm == (if u.wireDia.Some? then u.wireDia.value else s.wireDiaMm) &&
      r.outerDiaMm == (if u.outerDia.Some? then u.outerDia.value else s.outerDiaMm) &&
      r.safetyLimitN == (if u.safetyLimit.Some? then u.safetyLimit.value else s.safetyLimitN) &&
      r.unit == (if u.unit.Some? then u.unit.value else s.unit) &&
      r.enabled == (if u.enabled.Some? then u.enabled.value else s.enabled) &&
      r.forceUnit == (if u.forceUnit.Some? then u.forceUnit.value else s.forceUnit) &&
      r.testMode == (if u.testMode.Some? then u.testMode.value else s.testMode) &&
      r.componentType == (if u.componentType.Some? then u.componentType.value else s.componentType) &&
      r.firstSpeed == (if u.firstSpeed.Some? then u.firstSpeed.value else s.firstSpeed) &&
      r.secondSpeed == (if u.secondSpeed.Some? then u.secondSpeed.value else s.secondSpeed) &&
      r.offerNumber == (if u.offerNumber.Some? then u.offerNumber.value else s.offerNumber) &&
      r.productionBatchNumber == (if u.productionBatchNumber.Some? then u.productionBatchNumber.value else s.productionBatchNumber) &&
      r.partRevNoDate == (if u.partRevNoDate.Some? then u.partRevNoDate.value else s.partRevNoDate) &&
      r.materialDescription == (if u.materialDescription.Some? then u.materialDescription.value else s.materialDescription) &&
      r.surfaceTreatment == (if u.surfaceTreatment.Some? then u.surfaceTreatment.value else s.surfaceTreatment) &&
      r.endCoilFinishing == (if u.endCoilFinishing.Some? then u.endCoilFinishing.value else s.endCoilFinishing)
  {
  }

  // ------------------------------------------------------------- set points

  /**
   * The set point `update_set_point` leaves behind, as written: the tolerance
   * is assigned to an attribute `tolerance_pct` that `to_dict` never reads,
   * so the stored tolerance stays what it was.
   */
  function UpdatedSetPointAsWritten(sp: SetPoint, position: Float, load: Float, tolerance: Float, enabled: bool): SetPoint {
    SetPoint(position, load, sp.tolerancePercent, enabled)
  }

  /** The set point the method evidently means to store: all four arguments. */
  function UpdatedSetPoint(sp: SetPoint, position: Float, load: Float, tolerance: Float, enabled: bool): SetPoint {
    SetPoint(position, load, tolerance, enabled)
  }

  /** A new tolerance passed to the method as written is lost. */
  lemma ToleranceIsLost(sp: SetPoint, position: Float, load: Float, tolerance: Float, enabled: bool)
    requires tolerance != sp.tolerancePercent
    ensures SetPointFromDict(SetPointToDict(UpdatedSetPointAsWritten(sp, position, load, tolerance, enabled)).entries).tolerancePercent
            != tolerance
  {
    SetPointRoundTrip(UpdatedSetPointAsWritten(sp, position, load, tolerance, enabled));
  }

  /** The corrected update stores every argument and reads them back. */
  lemma UpdatedSetPointIsStored(sp: SetPoint, position: Float, load: Float, tolerance: Float, enabled: bool)
    ensures SetPointFromDict(SetPointToDict(UpdatedSetPoint(sp, position, load, tolerance, enabled)).entries)
            == SetPoint(position, load, tolerance, enabled)
  {
    SetPointRoundTrip(UpdatedSetPoint(sp, position, load, tolerance, enabled));
  }

  /** The list with its `i`-th element removed, the others in order (`list.pop(i)`). */
  function Without(sps: seq<SetPoint>, i: nat): (r: seq<SetPoint>)
    requires i < |sps|
    ensures |r| == |sps| - 1
    ensures forall j :: 0 <= j < i ==> r[j] == sps[j]
    ensures forall j :: i <= j < |r| ==> r[j] == sps[j + 1]
  {
    sps[..i] + sps[i + 1..]
  }

  /** Dropping the `i`-th element and putting it back gives the list again. */
  lemma WithoutInsert(sps: seq<SetPoint>, i: nat)
    requires i < |sps|
    ensures Without(sps, i)[..i] + [sps[i]] + Without(sps, i)[i..] == sps
  {
    var w := Without(sps, i);
    assert w[..i] == sps[..i];
    assert w[i..] == sps[i + 1..];
    assert sps == sps[..i] + [sps[i]] + sps[i + 1..];
  }

  const NewSetPointValue := SetPoint(Zero, Zero, F(10.0, "10.0"), true)

  // ---------------------------------------------------------------- service

  const InitialKeys: seq<string> := ["api_key", "theme", "spring_specification"]

  /** The dictionary `__init__` starts from, before the settings file is read. */
  const InitialSettings: Dict<Value> := Zip(InitialKeys, [Str(""), Str("light"), Null])

  lemma InitialLookups()
    ensures Get(InitialSettings, "spring_specification") == Some(Null)
  {
    assert Distinct(InitialKeys) by {
      forall i, j | 0 <= i < j < 3 ensures InitialKeys[i] != InitialKeys[j] {
        assert |InitialKeys[i]| != |InitialKeys[j]|;
      }
    }
    GetZip(InitialKeys, [Str(""), Str("light"), Null], 2);
  }

  /** A stored specification is read back when its dictionary is non-empty. */
  function StoredSpec(settings: Dict<Value>): (s: SpringSpecification)
    ensures Get(settings, "spring_specification").None? ==> s == NewSpec(false) && s.setPoints == []
  {
    var stored: Option<Value> := Get(settings, "spring_specification");
    if stored.Some? && Truthy(stored.value) then SpecFromDict(stored.value) else NewSpec(false)
  }

  /**
   * The settings after `set_spring_specification(s)`: the specification's
   * dictionary under "spring_specification", every other key as it was.
   */
  function WithSpec(settings: Dict<Value>, s: SpringSpecification): (r: Dict<Value>)
    ensures StoredSpec(r) == s
  {
    StoredSpecRoundTrip(settings, s);
    Set(settings, "spring_specification", SpecToDict(s))
  }

  /** Storing a specification leaves every other setting as it was. */
  lemma WithSpecKeepsOthers(settings: Dict<Value>, s: SpringSpecification, k: string)
    requires k != "spring_specification"
    ensures Get(WithSpec(settings, s), k) == Get(settings, k)
  {
    SetProperties(settings, "spring_specification", SpecToDict(s));
  }

  /** Storing a second specification replaces the first, whatever was stored before. */
  lemma WithSpecTwice(settings: Dict<Value>, a: SpringSpecification, b: SpringSpecification)
    ensures WithSpec(WithSpec(settings, a), b) == WithSpec(settings, b)
  {
    SetTwice(settings, "spring_specification", SpecToDict(a), SpecToDict(b));
  }

  /** Storing a specification and reading it back gives the same specification. */
  lemma StoredSpecRoundTrip(settings: Dict<Value>, s: SpringSpecification)
    ensures StoredSpec(Set(settings, "spring_specification", SpecToDict(s))) == s
  {
    var v := SpecToDict(s);
    var d := Set(settings, "spring_specification", v);
    assert Get(d, "spring_specification") == Some(v);
    SpecToDictTruthy(s);
    SpecRoundTrip(s);
  }

  /** The dictionary holds a specification: present and not `None`. */
  predicate HasSpec(s: Dict<Value>) {
    Get(s, "spring_specification").Some? && !Get(s, "spring_specification").value.Null?
  }

  /** `SpringSpecification().to_dict()`. */
  function DefaultSpecDict(): (v: Value)
    ensures v.Obj?
  {
    SpecToDict(NewSpec(false))
  }

  /** A missing or `None` specification is replaced by the dictionary of `SpringSpecification()`. */
  function WithDefaultSpec(s: Dict<Value>): (r: Dict<Value>)
    ensures HasSpec(r)
    ensures HasSpec(s) ==> r == s
  {
    var stored: Option<Value> := Get(s, "spring_specification");
    if stored.None? || stored.value.Null? then
      Set(s, "spring_specification", SpecToDict(NewSpec(false)))
    else s
  }

  /** Without a stored specification the service starts from `SpringSpecification()`. */
  lemma WithDefaultSpecIsDefault(s: Dict<Value>)
    requires !HasSpec(s)
    ensures StoredSpec(WithDefaultSpec(s)) == NewSpec(false)
  {
    StoredSpecRoundTrip(s, NewSpec(false));
  }

  /** A service started without a settings file holds `SpringSpecification()`, without set points. */
  lemma FreshServiceSpec()
    ensures StoredSpec(WithDefaultSpec(InitialSettings)) == NewSpec(false)
    ensures StoredSpec(WithDefaultSpec(InitialSettings)).setPoints == []
  {
    InitialLookups();
    WithDefaultSpecIsDefault(InitialSettings);
  }

  class SettingsService {
    var settings: Dict<Value>

    /**
     * `SettingsService()`: the initial dictionary, updated with what the
     * settings file held (`loaded`, `None` when there was no file or it could
     * not be read), then given a default specification if it has none.
     */
    constructor(loaded: Option<Value>)
      ensures loaded.Some? && loaded.value.Obj? ==> settings == WithDefaultSpec(Update(InitialSettings, loaded.value.entries))
      ensures !(loaded.Some? && loaded.value.Obj?) ==> settings == WithDefaultSpec(InitialSettings)
      ensures HasSpec(settings)
    {
      var s := InitialSettings;
      if loaded.Some? && loaded.value.Obj? {
        s := Update(s, loaded.value.entries);
      }
      settings := WithDefaultSpec(s);
    }

    /** `get_api_key`. */
    function ApiKey(): (r: Value)
      reads this
      ensures Get(settings, "api_key").None? ==> r == Str("")
      ensures Get(settings, "api_key").Some? ==> r == Get(settings, "api_key").value
    {
      GetOr(settings, "api_key", Str(""))
    }

    /** `set_api_key`: only the key changes; saving is outside the model. */
    method SetApiKey(key: string)
      modifies this
      ensures settings == Set(old(settings), "api_key", Str(key))
      ensures ApiKey() == Str(key)
      ensures forall k :: k != "api_key" ==> Get(settings, k) == Get(old(settings), k)
    {
      SetProperties(settings, "api_key", Str(key));
      settings := Set(settings, "api_key", Str(key));
    }

    /** `get_default_export_format`. */
    function DefaultExportFormat(): (r: Value)
      reads this
      ensures Get(settings, "default_export_format").None? ==> r == Str("CSV")
      ensures Get(settings, "default_export_format").Some? ==> r == Get(settings, "default_export_format").value
    {
      GetOr(settings, "default_export_format", Str("CSV"))
    }

    method SetDefaultExportFormat(format: string)
      modifies this
      ensures settings == Set(old(settings), "default_export_format", Str(format))
      ensures DefaultExportFormat() == Str(format)
    {
      settings := Set(settings, "default_export_format", Str(format));
    }

    /** `get_recent_sequences`. */
    function RecentSequences(): (r: Value)
      reads this
      ensures Get(settings, "recent_sequences").None? ==> r == List([])
      ensures Get(settings, "recent_sequences").Some? ==> r == Get(settings, "recent_sequences").value
    {
      GetOr(settings, "recent_sequences", List([]))
    }

    /**
     * `add_recent_sequence`. `ok` is false where Python raises: the stored
     * value is not a list, and then nothing changes.
     */
    method AddRecentSequence(id: Value) returns (ok: bool)
      modifies this
      ensures ok <==> old(RecentSequences()).List?
      ensures ok ==> settings == Set(old(settings), "recent_sequences", List(RecentAfter(old(RecentSequences()).items, id)))
      ensures !ok ==> settings == old(settings)
    {
      var recent := RecentSequences();
      if !recent.List? {
        return false;
      }
      var items := recent.items;
      if id in items {
        items := RemoveFirst(items, id);
      }
      items := [id] + items;
      settings := Set(settings, "recent_sequences", List(PyTake(items, 10)));
      ok := true;
    }

    /** `get_spring_specification`. */
    function Spec(): SpringSpecification
      reads this
    {
      StoredSpec(settings)
    }

    /** `set_spring_specification`: stores `to_dict()`; the result is the save's. */
    method SetSpec(s: SpringSpecification, saved: bool) returns (ok: bool)
      modifies this
      ensures settings == WithSpec(old(settings), s)
      ensures Spec() == s
      ensures ok == saved
    {
      settings := WithSpec(settings, s);
      ok := saved;
    }

    /** `update_spring_basic_info`. */
    method UpdateBasicInfo(u: BasicInfo, saved: bool) returns (ok: bool)
      modifies this
      ensures Spec() == ApplyBasicInfo(old(Spec()), u)
      ensures Spec().setPoints == old(Spec()).setPoints
      ensures settings == WithSpec(old(settings), Spec())
      ensures ok == saved
    {
      var spec := Spec();
      ok := SetSpec(ApplyBasicInfo(spec, u), saved);
    }

    /**
     * `update_set_point`. `position`, `load` and `tolerance` are the results
     * of `float()` on the arguments, `None` where it raises. An index outside
     * the list or a failed conversion returns false and changes nothing.
     * The point written is `UpdatedSetPointAsWritten`, which keeps the stored
     * tolerance; with `corrected` it is `UpdatedSetPoint`, which takes the
     * new one.
     */
    method UpdateSetPoint(index: int, position: Option<Float>, load: Option<Float>, tolerance: Option<Float>,
                          enabled: bool, saved: bool, corrected: bool) returns (ok: bool)
      modifies this
      ensures !(0 <= index < |old(Spec()).setPoints|) ==> !ok && settings == old(settings)
      ensures position.None? || load.None? || tolerance.None? ==> !ok && settings == old(settings)
      ensures 0 <= index < |old(Spec()).setPoints| && position.Some? && load.Some? && tolerance.Some? ==>
        var sp := old(Spec()).setPoints[index];
        ok == saved &&
        Spec() == old(Spec()).(setPoints := old(Spec()).setPoints[index :=
          if corrected then UpdatedSetPoint(sp, position.value, load.value, tolerance.value, enabled)
          else UpdatedSetPointAsWritten(sp, position.value, load.value, tolerance.value, enabled)]) &&
        settings == WithSpec(old(settings), Spec())
    {
      var spec := Spec();
      if index < 0 || index >= |spec.setPoints| {
        return false;
      }
      if position.None? || load.None? || tolerance.None? {
        return false;
      }
      var current := spec.setPoints[index];
      var sp := if corrected then UpdatedSetPoint(current, position.value, load.value, tolerance.value, enabled)
                else UpdatedSetPointAsWritten(current, position.value, load.value, tolerance.value, enabled);
      ok := SetSpec(spec.(setPoints := spec.setPoints[index := sp]), saved);
    }

    /** `clear_set_points`: no set points, every other field as it was. */
    method ClearSetPoints(saved: bool) returns (ok: bool)
      modifies this
      ensures Spec() == old(Spec()).(setPoints := [])
      ensures settings == WithSpec(old(settings), Spec())
      ensures ok == saved
    {
      var spec := Spec();
      ok := SetSpec(spec.(setPoints := []), saved);
    }

    /** `delete_set_point`: a valid index removes that one point; any other index changes nothing. */
    method DeleteSetPoint(index: int, saved: bool) returns (spec: SpringSpecification)
      modifies this
      ensures 0 <= index < |old(Spec()).setPoints| ==>
        spec == old(Spec()).(setPoints := Without(old(Spec()).setPoints, index)) && Spec() == spec &&
        settings == WithSpec(old(settings), spec)
      ensures !(0 <= index < |old(Spec()).setPoints|) ==> spec == old(Spec()) && settings == old(settings)
    {
      spec := Spec();
      if 0 <= index < |spec.setPoints| {
        spec := spec.(setPoints := Without(spec.setPoints, index));
        var _ := SetSpec(spec, saved);
      }
    }

    /** `add_set_point`: one point (0, 0, 10 %, enabled) is appended. */
    method AddSetPoint(saved: bool) returns (spec: SpringSpecification)
      modifies this
      ensures spec == old(Spec()).(setPoints := old(Spec()).setPoints + [NewSetPointValue])
      ensures Spec() == spec
      ensures settings == WithSpec(old(settings), spec)
    {
      spec := Spec();
      spec := spec.(setPoints := spec.setPoints + [NewSetPointValue]);
      var _ := SetSpec(spec, saved);
    }
  }
}
