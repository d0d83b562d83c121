/** src/components/forms/QCForm.tsx: the quality-control step: QC procedures, a
    quality threshold and custom steps. A handler's result is the form's
    values after the parent has applied the callback the handler calls. */
module QCForm {
  import opened Selection

  /** The value props of the form. */
  datatype Fields = Fields(
    selectedQCSteps: seq<string>,
    qualityThreshold: string,
    customQCSteps: string)

  /** `handleQCStepChange(stepId, checked)`: checking appends `stepId`, unchecking
      removes every occurrence of it; only `onQCStepsChange` is called. */
  function HandleQCStepChange(f: Fields, stepId: string, checked: bool): (r: Fields)
    ensures checked ==> Appended(f.selectedQCSteps, stepId, r.selectedQCSteps)
    ensures !checked ==> Removed(f.selectedQCSteps, stepId, r.selectedQCSteps)
    ensures (stepId in r.selectedQCSteps) <==> checked
    ensures forall x :: x != stepId ==> (x in r.selectedQCSteps <==> x in f.selectedQCSteps)
    ensures r == f.(selectedQCSteps := r.selectedQCSteps)
  {
    f.(selectedQCSteps := Change(f.selectedQCSteps, stepId, checked))
  }

  /** Checking then unchecking an entry the list lacks restores the values. */
  lemma QCStepCheckThenUncheck(f: Fields, stepId: string)
    requires stepId !in f.selectedQCSteps
    ensures HandleQCStepChange(HandleQCStepChange(f, stepId, true), stepId, false) == f
  {
    CheckUncheckAbsent(f.selectedQCSteps, stepId);
  }

  /** Checking does not test membership: checking a listed entry duplicates it. */
  lemma QCStepCheckListedDuplicates(f: Fields, stepId: string)
    requires stepId in f.selectedQCSteps
    ensures |HandleQCStepChange(f, stepId, true).selectedQCSteps| == |f.selectedQCSteps| + 1
    ensures !NoDup(HandleQCStepChange(f, stepId, true).selectedQCSteps)
  {
    CheckPresentDuplicates(f.selectedQCSteps, stepId);
  }

  /** `onQualityThresholdChange` from the input: `e.target.value` replaces `qualityThreshold` whole. */
  function SetQualityThreshold(f: Fields, value: string): (r: Fields)
    ensures r.qualityThreshold == value
    ensures r == f.(qualityThreshold := r.qualityThreshold)
  {
    f.(qualityThreshold := value)
  }

  /** `onCustomQCStepsChange` from the input: `e.target.value` replaces `customQCSteps` whole. */
  function SetCustomQCSteps(f: Fields, value: string): (r: Fields)
    ensures r.customQCSteps == value
    ensures r == f.(customQCSteps := r.customQCSteps)
  {
    f.(customQCSteps := value)
  }
}
