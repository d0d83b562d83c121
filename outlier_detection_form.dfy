/** src/components/forms/OutlierDetectionForm.tsx: the outlier-detection step:
    detection methods, handling strategies, two thresholds and custom methods.
    A handler's result is the form's values after the parent has applied the
    callback the handler calls. */
module OutlierDetectionForm {
  import opened Selection

  /** The value props of the form. */
  datatype Fields = Fields(
    selectedDetectionMethods: seq<string>,
    selectedHandlingStrategies: seq<string>,
    zScoreThreshold: string,
    iqrMultiplier: string,
    customDetectionMethods: string)

  /** `handleDetectionMethodChange(methodId, checked)`: checking appends `methodId`, unchecking
      removes every occurrence of it; only `onDetectionMethodsChange` is called. */
  function HandleDetectionMethodChange(f: Fields, methodId: string, checked: bool): (r: Fields)
    ensures checked ==> Appended(f.selectedDetectionMethods, methodId, r.selectedDetectionMethods)
    ensures !checked ==> Removed(f.selectedDetectionMethods, methodId, r.selectedDetectionMethods)
    ensures (methodId in r.selectedDetectionMethods) <==> checked
    ensures forall x :: x != methodId ==> (x in r.selectedDetectionMethods <==> x in f.selectedDetectionMethods)
    ensures r == f.(selectedDetectionMethods := r.selectedDetectionMethods)
  {
    f.(selectedDetectionMethods := Change(f.selectedDetectionMethods, methodId, checked))
  }

  /** Checking then unchecking an entry the list lacks restores the values. */
  lemma DetectionMethodCheckThenUncheck(f: Fields, methodId: string)
    requires methodId !in f.selectedDetectionMethods
    ensures HandleDetectionMethodChange(HandleDetectionMethodChange(f, methodId, true), methodId, false) == f
  {
    CheckUncheckAbsent(f.selectedDetectionMethods, methodId);
  }

  /** Checking does not test membership: checking a listed entry duplicates it. */
  lemma DetectionMethodCheckListedDuplicates(f: Fields, methodId: string)
    requires methodId in f.selectedDetectionMethods
    ensures |HandleDetectionMethodChange(f, methodId, true).selectedDetectionMethods| == |f.selectedDetectionMethods| + 1
    ensures !NoDup(HandleDetectionMethodChange(f, methodId, true).selectedDetectionMethods)
  {
    CheckPresentDuplicates(f.selectedDetectionMethods, methodId);
  }

  /** `handleHandlingStrategyChange(strategyId, checked)`: checking appends `strategyId`, unchecking
      removes every occurrence of it; only `onHandlingStrategiesChange` is called. */
  function HandleHandlingStrategyChange(f: Fields, strategyId: string, checked: bool): (r: Fields)
    ensures checked ==> Appended(f.selectedHandlingStrategies, strategyId, r.selectedHandlingStrategies)
    ensures !checked ==> Removed(f.selectedHandlingStrategies, strategyId, r.selectedHandlingStrategies)
    ensures (strategyId in r.selectedHandlingStrategies) <==> checked
    ensures forall x :: x != strategyId ==> (x in r.selectedHandlingStrategies <==> x in f.selectedHandlingStrategies)
    ensures r == f.(selectedHandlingStrategies := r.selectedHandlingStrategies)
  {
    f.(selectedHandlingStrategies := Change(f.selectedHandlingStrategies, strategyId, checked))
  }

  /** Checking then unchecking an entry the list lacks restores the values. */
  lemma HandlingStrategyCheckThenUncheck(f: Fields, strategyId: string)
    requires strategyId !in f.selectedHandlingStrategies
    ensures HandleHandlingStrategyChange(HandleHandlingStrategyChange(f, strategyId, true), strategyId, false) == f
  {
    CheckUncheckAbsent(f.selectedHandlingStrategies, strategyId);
  }

  /** Checking does not test membership: checking a listed entry duplicates it. */
  lemma HandlingStrategyCheckListedDuplicates(f: Fields, strategyId: string)
    requires strategyId in f.selectedHandlingStrategies
    ensures |HandleHandlingStrategyChange(f, strategyId, true).selectedHandlingStrategies| == |f.selectedHandlingStrategies| + 1
    ensures !NoDup(HandleHandlingStrategyChange(f, strategyId, true).selectedHandlingStrategies)
  {
    CheckPresentDuplicates(f.selectedHandlingStrategies, strategyId);
  }

  /** `selectedDetectionMethods.includes('custom')`: the custom-detection card is shown. */
  predicate ShowsCustomDetection(f: Fields) {
    ShowsCustom(f.selectedDetectionMethods)
  }

  /** The custom-detection card follows the "custom" checkbox and nothing else. */
  lemma ShowsCustomDetectionAfterChange(f: Fields, id: string, checked: bool)
    ensures ShowsCustomDetection(HandleDetectionMethodChange(f, id, checked)) == if id == "custom" then checked else ShowsCustomDetection(f)
    ensures ShowsCustomDetection(HandleHandlingStrategyChange(f, id, checked)) == ShowsCustomDetection(f)
  {
    ShowsCustomAfterChange(f.selectedDetectionMethods, id, checked);
  }
}
