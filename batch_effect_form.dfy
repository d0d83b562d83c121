/** src/components/forms/BatchEffectForm.tsx: the batch-effect step: detection
    methods, one correction method, batch variables, preserved variables and a
    custom correction. A handler's result is the form's values after the
    parent has applied the callback the handler calls. */
module BatchEffectForm {
  import opened Selection

  /** The value props of the form. */
  datatype Fields = Fields(
    selectedDetectionMethods: seq<string>,
    selectedCorrectionMethod: string,
    selectedBatchVariables: seq<string>,
    preservedVariables: string,
    customCorrectionMethod: string)

  /** `handleDetectionMethodChange(methodId, checked)`: checking appends `methodId`, unchecking
      removes every occurrence of it; only `onDetectionMethodsChange` is called. */
  function HandleDetectionMethodChange(f: Fields, methodId: string, checked: bool): (r: Fields)
    ensures checked ==> Appended(f.selectedDetectionMethods, methodId, r.selectedDetectionMethods)
    ensures !checked ==> Removed(f.selectedDetectionMethods, methodId, r.selectedDetectionMethods)
    ensures (methodId in r.selectedDetectionMethods) <==> checked
    ensures forall x :: x != methodId ==> (x in r.selectedDetectionMethods <==> x in f.selectedDetectionMethods)
    ensures r == f.(selectedDetectionMethods := r.selectedDetectionMethods)
  {
    f.(selectedDetectionMethods := Change(f.selectedDetectionMethods, methodId, checked))
  }

  /** Checking then unchecking an entry the list lacks restores the values. */
  lemma DetectionMethodCheckThenUncheck(f: Fields, methodId: string)
    requires methodId !in f.selectedDetectionMethods
    ensures HandleDetectionMethodChange(HandleDetectionMethodChange(f, methodId, true), methodId, false) == f
  {
    CheckUncheckAbsent(f.selectedDetectionMethods, methodId);
  }

  /** Checking does not test membership: checking a listed entry duplicates it. */
  lemma DetectionMethodCheckListedDuplicates(f: Fields, methodId: string)
    requires methodId in f.selectedDetectionMethods
    ensures |HandleDetectionMethodChange(f, methodId, true).selectedDetectionMethods| == |f.selectedDetectionMethods| + 1
    ensures !NoDup(HandleDetectionMethodChange(f, methodId, true).selectedDetectionMethods)
  {
    CheckPresentDuplicates(f.selectedDetectionMethods, methodId);
  }

  /** `handleBatchVariableChange(variableId, checked)`: checking appends `variableId`, unchecking
      removes every occurrence of it; only `onBatchVariablesChange` is called. */
  function HandleBatchVariableChange(f: Fields, variableId: string, checked: bool): (r: Fields)
    ensures checked ==> Appended(f.selectedBatchVariables, variableId, r.selectedBatchVariables)
    ensures !checked ==> Removed(f.selectedBatchVariables, variableId, r.selectedBatchVariables)
    ensures (variableId in r.selectedBatchVariables) <==> checked
    ensures forall x :: x != variableId ==> (x in r.selectedBatchVariables <==> x in f.selectedBatchVariables)
    ensures r == f.(selectedBatchVariables := r.selectedBatchVariables)
  {
    f.(selectedBatchVariables := Change(f.selectedBatchVariables, variableId, checked))
  }

  /** Checking then unchecking an entry the list lacks restores the values. */
  lemma BatchVariableCheckThenUncheck(f: Fields, variableId: string)
    requires variableId !in f.selectedBatchVariables
    ensures HandleBatchVariableChange(HandleBatchVariableChange(f, variableId, true), variableId, false) == f
  {
    CheckUncheckAbsent(f.selectedBatchVariables, variableId);
  }

  /** Checking does not test membership: checking a listed entry duplicates it. */
  lemma BatchVariableCheckListedDuplicates(f: Fields, variableId: string)
    requires variableId in f.selectedBatchVariables
    ensures |HandleBatchVariableChange(f, variableId, true).selectedBatchVariables| == |f.selectedBatchVariables| + 1
    ensures !NoDup(HandleBatchVariableChange(f, variableId, true).selectedBatchVariables)
  {
    CheckPresentDuplicates(f.selectedBatchVariables, variableId);
  }

  /** `onCorrectionMethodChange` from the radio group: the chosen value replaces `selectedCorrectionMethod` whole. */
  function SetCorrectionMethod(f: Fields, value: string): (r: Fields)
    ensures r.selectedCorrectionMethod == value
    ensures r == f.(selectedCorrectionMethod := r.selectedCorrectionMethod)
  {
    f.(selectedCorrectionMethod := value)
  }

  /** `selectedCorrectionMethod === 'custom'`: the custom-correction card is shown. */
  predicate ShowsCustomCorrection(f: Fields) {
    f.selectedCorrectionMethod == "custom"
  }

  /** Choosing a value decides the condition; the checkbox lists never do. */
  lemma ShowsCustomCorrectionAfterEdits(f: Fields, value: string, id: string, checked: bool)
    ensures ShowsCustomCorrection(SetCorrectionMethod(f, value)) <==> value == "custom"
    ensures ShowsCustomCorrection(HandleDetectionMethodChange(f, id, checked)) == ShowsCustomCorrection(f)
    ensures ShowsCustomCorrection(HandleBatchVariableChange(f, id, checked)) == ShowsCustomCorrection(f)
  {
  }
}
