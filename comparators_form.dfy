/** src/components/forms/ComparatorsForm.tsx: the comparators step: contrasts,
    values to extract and their custom texts. A handler's result is the form's
    values after the parent has applied the callback the handler calls. */
module ComparatorsForm {
  import opened Selection

  /** The value props of the form. */
  datatype Fields = Fields(
    selectedContrasts: seq<string>,
    selectedExtractionValues: seq<string>,
    customContrasts: string,
    customExtractionValues: string)

  /** `handleContrastToggle(contrastId)`: `includes ? filter : append`, passed to `onContrastsChange`. */
  function HandleContrastToggle(f: Fields, contrastId: string): (r: Fields)
    ensures contrastId in f.selectedContrasts ==> Removed(f.selectedContrasts, contrastId, r.selectedContrasts)
    ensures contrastId !in f.selectedContrasts ==> Appended(f.selectedContrasts, contrastId, r.selectedContrasts)
    ensures (contrastId in r.selectedContrasts) <==> (contrastId !in f.selectedContrasts)
    ensures forall x :: x != contrastId ==> (x in r.selectedContrasts <==> x in f.selectedContrasts)
    ensures r == f.(selectedContrasts := r.selectedContrasts)
  {
    f.(selectedContrasts := Toggle(f.selectedContrasts, contrastId))
  }

  /** Toggling an entry the list lacks twice restores the values. */
  lemma ContrastToggleTwice(f: Fields, contrastId: string)
    requires contrastId !in f.selectedContrasts
    ensures HandleContrastToggle(HandleContrastToggle(f, contrastId), contrastId) == f
  {
    ToggleTwiceAbsent(f.selectedContrasts, contrastId);
  }

  /** Toggling never introduces a duplicate. */
  lemma ContrastToggleKeepsNoDup(f: Fields, contrastId: string)
    requires NoDup(f.selectedContrasts)
    ensures NoDup(HandleContrastToggle(f, contrastId).selectedContrasts)
  {
    ToggleKeepsNoDup(f.selectedContrasts, contrastId);
  }

  /** `handleExtractionToggle(valueId)`: `includes ? filter : append`, passed to `onExtractionValuesChange`. */
  function HandleExtractionToggle(f: Fields, valueId: string): (r: Fields)
    ensures valueId in f.selectedExtractionValues ==> Removed(f.selectedExtractionValues, valueId, r.selectedExtractionValues)
    ensures valueId !in f.selectedExtractionValues ==> Appended(f.selectedExtractionValues, valueId, r.selectedExtractionValues)
    ensures (valueId in r.selectedExtractionValues) <==> (valueId !in f.selectedExtractionValues)
    ensures forall x :: x != valueId ==> (x in r.selectedExtractionValues <==> x in f.selectedExtractionValues)
    ensures r == f.(selectedExtractionValues := r.selectedExtractionValues)
  {
    f.(selectedExtractionValues := Toggle(f.selectedExtractionValues, valueId))
  }

  /** Toggling an entry the list lacks twice restores the values. */
  lemma ExtractionToggleTwice(f: Fields, valueId: string)
    requires valueId !in f.selectedExtractionValues
    ensures HandleExtractionToggle(HandleExtractionToggle(f, valueId), valueId) == f
  {
    ToggleTwiceAbsent(f.selectedExtractionValues, valueId);
  }

  /** Toggling never introduces a duplicate. */
  lemma ExtractionToggleKeepsNoDup(f: Fields, valueId: string)
    requires NoDup(f.selectedExtractionValues)
    ensures NoDup(HandleExtractionToggle(f, valueId).selectedExtractionValues)
  {
    ToggleKeepsNoDup(f.selectedExtractionValues, valueId);
  }
}
