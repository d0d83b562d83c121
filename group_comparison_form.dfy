/** src/components/forms/GroupComparisonForm.tsx: the group-comparison step: group
    count, data type, time points, models and the machine-learning switch. A
    handler's result is the form's values after the parent has applied the
    callback the handler calls. */
module GroupComparisonForm {
  import opened Selection

  /** The value props of the form. */
  datatype Fields = Fields(
    numberOfGroups: string,
    dataType: string,
    timePoints: string,
    selectedModels: seq<string>,
    useMachineLearning: bool)

  /** `handleModelToggle(modelId)`: `includes ? filter : append`, passed to `onModelsChange`. */
  function HandleModelToggle(f: Fields, modelId: string): (r: Fields)
    ensures modelId in f.selectedModels ==> Removed(f.selectedModels, modelId, r.selectedModels)
    ensures modelId !in f.selectedModels ==> Appended(f.selectedModels, modelId, r.selectedModels)
    ensures (modelId in r.selectedModels) <==> (modelId !in f.selectedModels)
    ensures forall x :: x != modelId ==> (x in r.selectedModels <==> x in f.selectedModels)
    ensures r == f.(selectedModels := r.selectedModels)
  {
    f.(selectedModels := Toggle(f.selectedModels, modelId))
  }

  /** Toggling an entry the list lacks twice restores the values. */
  lemma ModelToggleTwice(f: Fields, modelId: string)
    requires modelId !in f.selectedModels
    ensures HandleModelToggle(HandleModelToggle(f, modelId), modelId) == f
  {
    ToggleTwiceAbsent(f.selectedModels, modelId);
  }

  /** Toggling never introduces a duplicate. */
  lemma ModelToggleKeepsNoDup(f: Fields, modelId: string)
    requires NoDup(f.selectedModels)
    ensures NoDup(HandleModelToggle(f, modelId).selectedModels)
  {
    ToggleKeepsNoDup(f.selectedModels, modelId);
  }

  /** `onDataTypeChange` from the select: the chosen value replaces `dataType` whole. */
  function SetDataType(f: Fields, value: string): (r: Fields)
    ensures r.dataType == value
    ensures r == f.(dataType := r.dataType)
  {
    f.(dataType := value)
  }

  /** `dataType !== 'longitudinal'`: the time-points input is disabled and its hint shown. */
  predicate TimePointsDisabled(f: Fields) {
    f.dataType != "longitudinal"
  }

  /** Choosing a value decides the condition; the checkbox lists never do. */
  lemma TimePointsDisabledAfterEdits(f: Fields, value: string, id: string)
    ensures TimePointsDisabled(SetDataType(f, value)) <==> value != "longitudinal"
    ensures TimePointsDisabled(HandleModelToggle(f, id)) == TimePointsDisabled(f)
  {
  }
}
