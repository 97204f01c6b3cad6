/**
 * The page that drives the pipeline: a wizard over steps 0 (choose a workflow) to 5 (results),
 * plus a direct-upload view that sits half a step before the step it feeds. Steps are kept
 * DOUBLED, so step 3 is 6 and the direct-upload view before step 3 is 5; step -0.5, the key under
 * which the direct upload's data is recorded, is -1.
 */
module Wizard {
  import opened Common

  datatype Mode = Complete | Direct

  /** What a step hands to `handleStepComplete`: the workflow choice, or a step's output. */
  datatype Payload<T> = Selection(mode: Mode, startStep: int) | Output(value: T)

  /** `data`, with its `apiConfig` (an absent one behaves as an empty one: merging it changes nothing). */
  datatype Data<T> = Data(apiConfig: map<string, string>, payload: Payload<T>)

  /** The steps a direct upload can start at. */
  predicate StartStep(s: int) {
    s == 1 || s == 3 || s == 4
  }

  /** `handleContinue` of the workflow choice: the complete workflow always starts at step 1. */
  function Choice<T>(mode: Mode, selectedStep: int): (p: Payload<T>)
    requires StartStep(selectedStep)
    ensures p.Selection? && p.mode == mode && StartStep(p.startStep)
    ensures mode == Complete ==> p.startStep == 1
    ensures mode == Direct ==> p.startStep == selectedStep
  {
    Selection(mode, if mode == Complete then 1 else selectedStep)
  }

  /** What the page shows. */
  datatype View = DirectUploadView(target: int) | WorkflowView | UploadView | ProcessingView
                | ExtractionView | SearchView | ResultsView

  /** The whole step a view stands for. */
  function StepOf(v: View): int {
    match v
    case DirectUploadView(target) => target - 1
    case WorkflowView => 0
    case UploadView => 1
    case ProcessingView => 2
    case ExtractionView => 3
    case SearchView => 4
    case ResultsView => 5
  }

  class Wizard<T> {
    var step2: int
    var stepData: map<int, Data<T>>
    var mode: Mode
    var directStart: int
    var apiConfig: map<string, string>

    /**
     * The states the handlers can reach: a whole step from 0 to 5, or, in the direct workflow,
     * the direct-upload view half a step before the chosen start.
     */
    predicate Valid()
      reads this
    {
      && StartStep(directStart)
      && (mode == Complete ==> directStart == 1)
      && ((0 <= step2 <= 10 && step2 % 2 == 0) || (mode == Direct && step2 == 2 * directStart - 1))
    }

    constructor ()
      ensures Valid()
      ensures step2 == 0 && stepData == map[] && mode == Complete && directStart == 1 && apiConfig == map[]
    {
      step2, stepData, mode, directStart, apiConfig := 0, map[], Complete, 1, map[];
    }

    /** The direct-upload view is shown: the current step is half a step before the start step. */
    predicate ShowsDirectUpload()
      reads this
    {
      step2 == 2 * directStart - 1
    }

    /**
     * `renderCurrentStep`: the direct-upload view first, then the step by number (the empty
     * rendering of any other number is out of the reachable states).
     */
    function View(): (v: View)
      requires Valid()
      reads this
      ensures v.DirectUploadView? <==> mode == Direct && step2 == 2 * directStart - 1
      ensures v.DirectUploadView? ==> v.target == directStart
      ensures !v.DirectUploadView? ==> step2 == 2 * StepOf(v)
    {
      if ShowsDirectUpload() then DirectUploadView(directStart)
      else if step2 == 0 then WorkflowView
      else if step2 == 2 then UploadView
      else if step2 == 4 then ProcessingView
      else if step2 == 6 then ExtractionView
      else if step2 == 8 then SearchView
      else ResultsView
    }

    /**
     * A step may complete only while it is shown: the view at whole step `s2 / 2`, or the
     * direct-upload view completing as step -0.5. Only the workflow choice hands over a selection.
     */
    predicate CanComplete(s2: int, data: Data<T>)
      reads this
    {
      && (if s2 == -1 then ShowsDirectUpload() else s2 == step2 && 0 <= s2 && s2 % 2 == 0)
      && (data.payload.Selection? <==> s2 == 0)
      && (data.payload.Selection? ==>
            StartStep(data.payload.startStep) && (data.payload.mode == Complete ==> data.payload.startStep == 1))
    }

    /**
     * `handleStepComplete(step, data)`: the data is recorded under the step and its `apiConfig`
     * merged over the kept one; the workflow choice sets the mode and the start step and goes to
     * step 1 or to the direct-upload view; the direct upload goes to the start step; any other
     * step before 5 goes one step on, and step 5 stays.
     */
    method CompleteStep(s2: int, data: Data<T>)
      requires Valid() && CanComplete(s2, data)
      modifies this
      ensures Valid()
      ensures stepData == old(stepData)[s2 := data]
      ensures apiConfig == old(apiConfig) + data.apiConfig
      ensures s2 == 0 ==> mode == data.payload.mode && directStart == data.payload.startStep
      ensures s2 != 0 ==> mode == old(mode) && directStart == old(directStart)
      ensures s2 == 0 && mode == Complete ==> step2 == 2
      ensures s2 == 0 && mode == Direct ==> step2 == 2 * directStart - 1 && View() == DirectUploadView(directStart)
      ensures s2 == -1 ==> step2 == 2 * directStart
      ensures s2 > 0 ==> step2 == (if s2 < 10 then s2 + 2 else s2)
    {
      stepData := stepData[s2 := data];
      apiConfig := apiConfig + data.apiConfig;
      if s2 == 0 {
        mode, directStart := data.payload.mode, data.payload.startStep;
        step2 := if mode == Complete then 2 else 2 * directStart - 1;
      } else if s2 == -1 {
        step2 := 2 * directStart;
      } else if s2 < 10 {
        step2 := s2 + 2;
      }
    }

    /**
     * `handleBack`, offered by the views of steps 1 to 5: from the start step of a direct
     * workflow back to its direct-upload view, otherwise one step back.
     */
    method Back()
      requires Valid() && 2 <= step2 <= 10 && step2 % 2 == 0
      modifies this`step2
      ensures Valid()
      ensures old(step2) == 2 * directStart && mode == Direct ==> step2 == 2 * directStart - 1 && View().DirectUploadView?
      ensures !(old(step2) == 2 * directStart && mode == Direct) ==> step2 == old(step2) - 2
      ensures 0 <= step2 < old(step2)
    {
      if step2 == 2 * directStart && mode == Direct {
        step2 := 2 * directStart - 1;
      } else if step2 > 0 {
        step2 := step2 - 2;
      }
    }

    /** The back action of the direct-upload view: to the workflow choice. */
    method LeaveDirectUpload()
      requires Valid() && ShowsDirectUpload()
      modifies this`step2
      ensures Valid() && step2 == 0 && View() == WorkflowView
    {
      step2 := 0;
    }

    /** `onApiConfigUpdate` of the extraction and search steps: new keys override, others stay. */
    method UpdateApiConfig(config: map<string, string>)
      modifies this`apiConfig
      ensures forall k :: k in apiConfig <==> k in old(apiConfig) || k in config
      ensures forall k :: k in config ==> apiConfig[k] == config[k]
      ensures forall k :: k in old(apiConfig) && k !in config ==> apiConfig[k] == old(apiConfig)[k]
    {
      apiConfig := apiConfig + config;
    }

    /**
     * The input of whole step `id` (2 to 4): the output of the step before, or else what the
     * direct upload recorded. As written the earlier output wins even when it is left over from an
     * earlier run through the workflow; the corrected reading gives the upload to the step it
     * started.
     */
    function InputFor(id: int, asWritten: bool): Option<Data<T>>
      reads this
    {
      var prev := 2 * (id - 1);
      if !asWritten && mode == Direct && id == directStart && -1 in stepData then Some(stepData[-1])
      else if prev in stepData then Some(stepData[prev])
      else if -1 in stepData then Some(stepData[-1])
      else None
    }

    /** The results view shows what the search step handed on, with no fallback. */
    function ResultsInput(): (r: Option<Data<T>>)
      reads this
      ensures r.Some? <==> 8 in stepData
      ensures r.Some? ==> r.value == stepData[8]
    {
      if 8 in stepData then Some(stepData[8]) else None
    }

    /** Indicator `id` (1 to 5) is completed. */
    predicate Completed(id: int)
      reads this
    {
      step2 > 2 * id
    }

    predicate Active(id: int)
      reads this
    {
      step2 == 2 * id
    }

    /** Indicator `id` can be reached: at or before the current step, or on the direct workflow's way. */
    predicate Accessible(id: int)
      reads this
    {
      step2 >= 2 * id || (mode == Direct && id >= directStart)
    }
  }

  // ---------------------------------------------------------------- properties

  /**
   * The indicators: completed and active steps are accessible and never both; in the complete
   * workflow exactly the steps up to the current one are accessible; in the direct workflow every
   * step from the start on is, and the steps before it show as completed once it is reached.
   */
  lemma Indicators<T>(w: Wizard<T>, id: int)
    requires w.Valid()
    ensures !(w.Completed(id) && w.Active(id))
    ensures w.Completed(id) || w.Active(id) ==> w.Accessible(id)
    ensures w.mode == Complete ==> (w.Accessible(id) <==> w.step2 >= 2 * id)
    ensures w.mode == Direct && id >= w.directStart ==> w.Accessible(id)
    ensures w.mode == Direct && w.step2 >= 2 * w.directStart && id < w.directStart ==> w.Completed(id)
  {
  }

  /** The direct upload's data reaches the start step, whatever the corrected reading finds kept. */
  lemma UploadFeedsStart<T>(w: Wizard<T>)
    requires w.Valid() && w.mode == Direct && -1 in w.stepData
    ensures w.directStart > 1 ==> w.InputFor(w.directStart, false) == Some(w.stepData[-1])
    ensures w.directStart > 1 && 2 * (w.directStart - 1) !in w.stepData ==>
      w.InputFor(w.directStart, true) == w.InputFor(w.directStart, false)
  {
  }

  /**
   * The as-written input is stale: a complete run through steps 1 and 2, back to the workflow
   * choice, then a direct upload of processed conversations for step 3 — the extraction step is
   * given the old processed data, not the upload.
   */
  method StaleInput() returns (input: Option<Data<int>>, corrected: Option<Data<int>>)
    ensures input == Some(Data(map[], Output(2)))
    ensures corrected == Some(Data(map[], Output(3)))
  {
    var w := new Wizard<int>();
    w.CompleteStep(0, Data(map[], Choice(Complete, 1)));
    w.CompleteStep(2, Data(map[], Output(1)));
    w.CompleteStep(4, Data(map[], Output(2)));
    w.Back();
    w.Back();
    w.Back();
    w.CompleteStep(0, Data(map[], Choice(Direct, 3)));
    w.CompleteStep(-1, Data(map[], Output(3)));
    assert w.step2 == 6 && w.View() == ExtractionView;
    input := w.InputFor(3, true);
    corrected := w.InputFor(3, false);
  }
}
