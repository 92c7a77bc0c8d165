/**
 * The specification form that the chat panel opens
 * (`ui/chat_components/chat_specification_form.py`): a wizard of sections
 * (basic information, optional information, set points), driven by
 * `SpecificationFormManager`, which collects what each section returns.
 * Widgets are left out: a section's `collect_data` is the record of its
 * inputs' values, and the signals the manager emits are kept as a log.
 */
module SpecificationForm {
  import opened Wrappers
  import opened PyStr
  import opened Values

  /** `BasicInfoSection.collect_data`. */
  datatype BasicData = BasicData(
    partName: string, partNumber: string, partId: string, freeLength: Float,
    componentType: string, testMode: string, unit: string, forceUnit: string,
    firstSpeed: Float, secondSpeed: Float, safetyLimit: Float)

  /** `OptionalInfoSection.collect_data`; the safety limit is not among its fields. */
  datatype OptionalData = OptionalData(
    coilCount: Float, wireDia: Float, outerDia: Float, offerNumber: string,
    productionBatchNumber: string, partRevNoDate: string, materialDescription: string,
    surfaceTreatment: string, endCoilFinishing: string)

  /** `SetPointSection.collect_data`: the section's own index and its inputs. */
  datatype SetPointData = SetPointData(index: int, position: Float, load: Float, tolerance: Float, addAnother: bool)

  /** `form_data`; an empty `basic_info` or `optional_info` dictionary is `None`. */
  datatype FormData = FormData(basicInfo: Option<BasicData>, optionalInfo: Option<OptionalData>, setPoints: seq<SetPointData>)

  const EmptyForm := FormData(None, None, [])

  /** `form_state`. */
  datatype State = Init | Basic | OptionalConfirm | Optional | SetPointConfirm | SetPoint | Complete

  /** What the manager emits: `form_completed(form_data)` or `form_cancelled()`. */
  datatype Signal = FormCompleted(data: FormData) | FormCancelled

  /** The fallback summary lines of the completion section. */
  function SummaryLines(d: FormData): (lines: seq<string>)
    ensures |lines| == 4
    ensures d.basicInfo.None? ==> lines[0] == "<b>Part:</b> Not specified" && lines[2] == "<b>Free Length:</b> 0 mm"
    ensures lines[3] == "<b>Set Points:</b> " + NatToStr(|d.setPoints|)
  {
    var name := if d.basicInfo.Some? then d.basicInfo.value.partName else "Not specified";
    var number := if d.basicInfo.Some? then d.basicInfo.value.partNumber else "Not specified";
    var free := if d.basicInfo.Some? then d.basicInfo.value.freeLength.text else "0";
    var unit := if d.basicInfo.Some? then d.basicInfo.value.unit else "mm";
    ["<b>Part:</b> " + name, "<b>Number:</b> " + number, "<b>Free Length:</b> " + free + " " + unit,
     "<b>Set Points:</b> " + NatToStr(|d.setPoints|)]
  }

  /**
   * `SpecificationFormManager`. `sectionIndex` is the index the shown
   * set-point section was created with; `emitted` is the log of signals.
   */
  class SpecificationFormManager {
    var formData: FormData
    var setPointIndex: int
    var formState: State
    var sectionIndex: int
    var emitted: seq<Signal>

    /**
     * What the wizard keeps, in every state it reaches from a fresh start:
     * the `k`-th set point collected carries index `k`; before the set-point
     * sections none has been collected; while a set-point section is shown
     * its index is the number collected so far.
     */
    predicate Valid()
      reads this
    {
      (forall k :: 0 <= k < |formData.setPoints| ==> formData.setPoints[k].index == k) &&
      (formState in {Basic, OptionalConfirm, Optional, SetPointConfirm} ==> |formData.setPoints| == 0 && setPointIndex == 0) &&
      (formState == SetPoint ==> setPointIndex == |formData.setPoints| && sectionIndex == setPointIndex) &&
      (formState == Complete ==> |formData.setPoints| == 0 || setPointIndex == |formData.setPoints| - 1)
    }

    constructor()
      ensures formData == EmptyForm && setPointIndex == 0 && formState == Init && emitted == []
      ensures sectionIndex == 0
      ensures Valid()
    {
      formData := EmptyForm;
      setPointIndex := 0;
      formState := Init;
      sectionIndex := 0;
      emitted := [];
    }

    /** `start_form_workflow`: empty data, index 0, the basic section shown. */
    method StartFormWorkflow()
      modifies this
      ensures formData == EmptyForm && setPointIndex == 0 && formState == Basic
      ensures sectionIndex == old(sectionIndex) && emitted == old(emitted)
      ensures Valid()
    {
      formData := EmptyForm;
      setPointIndex := 0;
      formState := Basic;
    }

    /** `_on_basic_info_completed`: the data is stored and the optional-information question shown. */
    method OnBasicInfoCompleted(data: BasicData)
      modifies this
      ensures formData == old(formData).(basicInfo := Some(data)) && formState == OptionalConfirm
      ensures setPointIndex == old(setPointIndex) && sectionIndex == old(sectionIndex) && emitted == old(emitted)
      ensures old(Valid()) && old(formState) == Basic ==> Valid()
    {
      formData := formData.(basicInfo := Some(data));
      formState := OptionalConfirm;
    }

    /** `_skip_optional_info`: straight to the set-point question, `optional_info` left as it is. */
    method SkipOptionalInfo()
      modifies this
      ensures formState == SetPointConfirm
      ensures formData == old(formData) && setPointIndex == old(setPointIndex)
      ensures sectionIndex == old(sectionIndex) && emitted == old(emitted)
      ensures old(Valid()) && old(formState) == OptionalConfirm ==> Valid()
    {
      formState := SetPointConfirm;
    }

    /** `_show_optional_info_section`. */
    method ShowOptionalInfoSection()
      modifies this
      ensures formState == Optional
      ensures formData == old(formData) && setPointIndex == old(setPointIndex)
      ensures sectionIndex == old(sectionIndex) && emitted == old(emitted)
      ensures old(Valid()) && old(formState) == OptionalConfirm ==> Valid()
    {
      formState := Optional;
    }

    /** `_on_optional_info_completed`: the data is stored and the set-point question shown. */
    method OnOptionalInfoCompleted(data: OptionalData)
      modifies this
      ensures formData == old(formData).(optionalInfo := Some(data)) && formState == SetPointConfirm
      ensures setPointIndex == old(setPointIndex) && sectionIndex == old(sectionIndex) && emitted == old(emitted)
      ensures old(Valid()) && old(formState) == Optional ==> Valid()
    {
      formData := formData.(optionalInfo := Some(data));
      formState := SetPointConfirm;
    }

    /** `_skip_set_points`: the form completes with no set points. */
    method SkipSetPoints()
      modifies this
      ensures formState == Complete
      ensures formData == old(formData) && setPointIndex == old(setPointIndex)
      ensures sectionIndex == old(sectionIndex) && emitted == old(emitted)
      ensures old(Valid()) && old(formState) == SetPointConfirm ==> Valid() && formData.setPoints == []
    {
      formState := Complete;
    }

    /** `_show_set_point_section`: a set-point section created with the current index. */
    method ShowSetPointSection()
      modifies this
      ensures formState == SetPoint && sectionIndex == setPointIndex
      ensures formData == old(formData) && setPointIndex == old(setPointIndex) && emitted == old(emitted)
      ensures old(Valid()) && old(formState) == SetPointConfirm ==> Valid()
    {
      sectionIndex := setPointIndex;
      formState := SetPoint;
    }

    /**
     * The set-point section's Continue: its `collect_data` (with the index it
     * was created with) handed to `_on_set_point_completed`, which appends it
     * and either shows the next section with the index increased or
     * completes the form.
     */
    method ContinueSetPoint(position: Float, load: Float, tolerance: Float, addAnother: bool)
      modifies this
      ensures var data := SetPointData(old(sectionIndex), position, load, tolerance, addAnother);
        formData == old(formData).(setPoints := old(formData.setPoints) + [data])
      ensures addAnother ==> setPointIndex == old(setPointIndex) + 1 && formState == SetPoint && sectionIndex == setPointIndex
      ensures !addAnother ==> setPointIndex == old(setPointIndex) && formState == Complete && sectionIndex == old(sectionIndex)
      ensures emitted == old(emitted)
      ensures old(Valid()) && old(formState) == SetPoint ==> Valid()
    {
      var data := SetPointData(sectionIndex, position, load, tolerance, addAnother);
      formData := formData.(setPoints := formData.setPoints + [data]);
      if data.addAnother {
        setPointIndex := setPointIndex + 1;
        ShowSetPointSection();
      } else {
        formState := Complete;
      }
    }

    /** `_on_form_done`: `form_completed` carries the data collected. */
    method OnFormDone()
      modifies this
      ensures emitted == old(emitted) + [FormCompleted(formData)]
      ensures formData == old(formData) && formState == old(formState)
      ensures setPointIndex == old(setPointIndex) && sectionIndex == old(sectionIndex)
    {
      emitted := emitted + [FormCompleted(formData)];
    }

    /** `_handle_web_form_completion`: Done in the web view finishes the form once clicked. */
    method HandleWebFormCompletion(isComplete: bool)
      modifies this
      ensures isComplete ==> emitted == old(emitted) + [FormCompleted(formData)]
      ensures !isComplete ==> emitted == old(emitted)
      ensures formData == old(formData) && formState == old(formState)
      ensures setPointIndex == old(setPointIndex) && sectionIndex == old(sectionIndex)
    {
      if isComplete {
        OnFormDone();
      }
    }

    /** `_on_form_cancelled`: `form_cancelled`, and the data is not touched. */
    method OnFormCancelled()
      modifies this
      ensures emitted == old(emitted) + [FormCancelled]
      ensures formData == old(formData) && formState == old(formState)
      ensures setPointIndex == old(setPointIndex) && sectionIndex == old(sectionIndex)
    {
      emitted := emitted + [FormCancelled];
    }
  }

  /**
   * A whole run from a fresh start: basic information, the optional section
   * answered or skipped, then `n` set points entered in a row; the data
   * emitted on Done holds them with indices 0 to n - 1, in order.
   */
  method RunWorkflow(basic: BasicData, optional: Option<OptionalData>, points: seq<(Float, Float, Float)>)
    returns (m: SpecificationFormManager)
    ensures m.formState == Complete && m.Valid()
    ensures |m.emitted| == 1 && m.emitted[0].FormCompleted?
    ensures var d := m.emitted[0].data;
      d.basicInfo == Some(basic) && d.optionalInfo == optional && |d.setPoints| == |points| &&
      forall k :: 0 <= k < |points| ==>
        d.setPoints[k].index == k && d.setPoints[k].position == points[k].0 &&
        d.setPoints[k].load == points[k].1 && d.setPoints[k].tolerance == points[k].2
  {
    m := new SpecificationFormManager();
    m.StartFormWorkflow();
    m.OnBasicInfoCompleted(basic);
    if optional.Some? {
      m.ShowOptionalInfoSection();
      m.OnOptionalInfoCompleted(optional.value);
    } else {
      m.SkipOptionalInfo();
    }
    if |points| == 0 {
      m.SkipSetPoints();
    } else {
      m.ShowSetPointSection();
      var k := 0;
      while k < |points|
        invariant 0 <= k <= |points|
        invariant m.Valid() && m.emitted == []
        invariant m.formData.basicInfo == Some(basic) && m.formData.optionalInfo == optional
        invariant |m.formData.setPoints| == k
        invariant k < |points| ==> m.formState == SetPoint
        invariant k == |points| ==> m.formState == Complete
        invariant forall j :: 0 <= j < k ==>
          m.formData.setPoints[j].position == points[j].0 && m.formData.setPoints[j].load == points[j].1 &&
          m.formData.setPoints[j].tolerance == points[j].2
        modifies m
      {
        m.ContinueSetPoint(points[k].0, points[k].1, points[k].2, k + 1 < |points|);
        k := k + 1;
      }
    }
    m.OnFormDone();
  }
}
