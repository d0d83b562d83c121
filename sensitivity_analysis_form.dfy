/** src/components/forms/SensitivityAnalysisForm.tsx: the sensitivity-analysis
    step: methods, parameter types, robustness checks, ranges, a stability
    threshold and custom methods. A handler's result is the form's values
    after the parent has applied the callback the handler calls. */
module SensitivityAnalysisForm {
  import opened Selection

  /** The value props of the form. */
  datatype Fields = Fields(
    selectedMethods: seq<string>,
    selectedParameterTypes: seq<string>,
    selectedRobustnessChecks: seq<string>,
    parameterRanges: string,
    stabilityThreshold: string,
    customMethods: string)

  /** `handleMethodChange(methodId, checked)`: checking appends `methodId`, unchecking
      removes every occurrence of it; only `onMethodsChange` is called. */
  function HandleMethodChange(f: Fields, methodId: string, checked: bool): (r: Fields)
    ensures checked ==> Appended(f.selectedMethods, methodId, r.selectedMethods)
    ensures !checked ==> Removed(f.selectedMethods, methodId, r.selectedMethods)
    ensures (methodId in r.selectedMethods) <==> checked
    ensures forall x :: x != methodId ==> (x in r.selectedMethods <==> x in f.selectedMethods)
    ensures r == f.(selectedMethods := r.selectedMethods)
  {
    f.(selectedMethods := Change(f.selectedMethods, methodId, checked))
  }

  /** Checking then unchecking an entry the list lacks restores the values. */
  lemma MethodCheckThenUncheck(f: Fields, methodId: string)
    requires methodId !in f.selectedMethods
    ensures HandleMethodChange(HandleMethodChange(f, methodId, true), methodId, false) == f
  {
    CheckUncheckAbsent(f.selectedMethods, methodId);
  }

  /** Checking does not test membership: checking a listed entry duplicates it. */
  lemma MethodCheckListedDuplicates(f: Fields, methodId: string)
    requires methodId in f.selectedMethods
    ensures |HandleMethodChange(f, methodId, true).selectedMethods| == |f.selectedMethods| + 1
    ensures !NoDup(HandleMethodChange(f, methodId, true).selectedMethods)
  {
    CheckPresentDuplicates(f.selectedMethods, methodId);
  }

  /** `handleParameterTypeChange(typeId, checked)`: checking appends `typeId`, unchecking
      removes every occurrence of it; only `onParameterTypesChange` is called. */
  function HandleParameterTypeChange(f: Fields, typeId: string, checked: bool): (r: Fields)
    ensures checked ==> Appended(f.selectedParameterTypes, typeId, r.selectedParameterTypes)
    ensures !checked ==> Removed(f.selectedParameterTypes, typeId, r.selectedParameterTypes)
    ensures (typeId in r.selectedParameterTypes) <==> checked
    ensures forall x :: x != typeId ==> (x in r.selectedParameterTypes <==> x in f.selectedParameterTypes)
    ensures r == f.(selectedParameterTypes := r.selectedParameterTypes)
  {
    f.(selectedParameterTypes := Change(f.selectedParameterTypes, typeId, checked))
  }

  /** Checking then unchecking an entry the list lacks restores the values. */
  lemma ParameterTypeCheckThenUncheck(f: Fields, typeId: string)
    requires typeId !in f.selectedParameterTypes
    ensures HandleParameterTypeChange(HandleParameterTypeChange(f, typeId, true), typeId, false) == f
  {
    CheckUncheckAbsent(f.selectedParameterTypes, typeId);
  }

  /** Checking does not test membership: checking a listed entry duplicates it. */
  lemma ParameterTypeCheckListedDuplicates(f: Fields, typeId: string)
    requires typeId in f.selectedParameterTypes
    ensures |HandleParameterTypeChange(f, typeId, true).selectedParameterTypes| == |f.selectedParameterTypes| + 1
    ensures !NoDup(HandleParameterTypeChange(f, typeId, true).selectedParameterTypes)
  {
    CheckPresentDuplicates(f.selectedParameterTypes, typeId);
  }

  /** `handleRobustnessCheckChange(checkId, checked)`: checking appends `checkId`, unchecking
      removes every occurrence of it; only `onRobustnessChecksChange` is called. */
  function HandleRobustnessCheckChange(f: Fields, checkId: string, checked: bool): (r: Fields)
    ensures checked ==> Appended(f.selectedRobustnessChecks, checkId, r.selectedRobustnessChecks)
    ensures !checked ==> Removed(f.selectedRobustnessChecks, checkId, r.selectedRobustnessChecks)
    ensures (checkId in r.selectedRobustnessChecks) <==> checked
    ensures forall x :: x != checkId ==> (x in r.selectedRobustnessChecks <==> x in f.selectedRobustnessChecks)
    ensures r == f.(selectedRobustnessChecks := r.selectedRobustnessChecks)
  {
    f.(selectedRobustnessChecks := Change(f.selectedRobustnessChecks, checkId, checked))
  }

  /** Checking then unchecking an entry the list lacks restores the values. */
  lemma RobustnessCheckCheckThenUncheck(f: Fields, checkId: string)
    requires checkId !in f.selectedRobustnessChecks
    ensures HandleRobustnessCheckChange(HandleRobustnessCheckChange(f, checkId, true), checkId, false) == f
  {
    CheckUncheckAbsent(f.selectedRobustnessChecks, checkId);
  }

  /** Checking does not test membership: checking a listed entry duplicates it. */
  lemma RobustnessCheckCheckListedDuplicates(f: Fields, checkId: string)
    requires checkId in f.selectedRobustnessChecks
    ensures |HandleRobustnessCheckChange(f, checkId, true).selectedRobustnessChecks| == |f.selectedRobustnessChecks| + 1
    ensures !NoDup(HandleRobustnessCheckChange(f, checkId, true).selectedRobustnessChecks)
  {
    CheckPresentDuplicates(f.selectedRobustnessChecks, checkId);
  }

  /** `selectedMethods.includes('custom')`: the custom-methods card is shown. */
  predicate ShowsCustomMethods(f: Fields) {
    ShowsCustom(f.selectedMethods)
  }

  /** The custom-methods card follows the "custom" checkbox and nothing else. */
  lemma ShowsCustomMethodsAfterChange(f: Fields, id: string, checked: bool)
    ensures ShowsCustomMethods(HandleMethodChange(f, id, checked)) == if id == "custom" then checked else ShowsCustomMethods(f)
    ensures ShowsCustomMethods(HandleParameterTypeChange(f, id, checked)) == ShowsCustomMethods(f)
    ensures ShowsCustomMethods(HandleRobustnessCheckChange(f, id, checked)) == ShowsCustomMethods(f)
  {
    ShowsCustomAfterChange(f.selectedMethods, id, checked);
  }
}
