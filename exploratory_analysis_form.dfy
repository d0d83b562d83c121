/** src/components/forms/ExploratoryAnalysisForm.tsx: the exploratory-analysis
    step: analysis methods and custom methods. A handler's result is the
    form's values after the parent has applied the callback the handler calls. */
module ExploratoryAnalysisForm {
  import opened Selection

  /** The value props of the form. */
  datatype Fields = Fields(
    selectedMethods: seq<string>,
    customMethods: string)

  /** `handleMethodToggle(methodId)`: `includes ? filter : append`, passed to `onMethodsChange`. */
  function HandleMethodToggle(f: Fields, methodId: string): (r: Fields)
    ensures methodId in f.selectedMethods ==> Removed(f.selectedMethods, methodId, r.selectedMethods)
    ensures methodId !in f.selectedMethods ==> Appended(f.selectedMethods, methodId, r.selectedMethods)
    ensures (methodId in r.selectedMethods) <==> (methodId !in f.selectedMethods)
    ensures forall x :: x != methodId ==> (x in r.selectedMethods <==> x in f.selectedMethods)
    ensures r == f.(selectedMethods := r.selectedMethods)
  {
    f.(selectedMethods := Toggle(f.selectedMethods, methodId))
  }

  /** Toggling an entry the list lacks twice restores the values. */
  lemma MethodToggleTwice(f: Fields, methodId: string)
    requires methodId !in f.selectedMethods
    ensures HandleMethodToggle(HandleMethodToggle(f, methodId), methodId) == f
  {
    ToggleTwiceAbsent(f.selectedMethods, methodId);
  }

  /** Toggling never introduces a duplicate. */
  lemma MethodToggleKeepsNoDup(f: Fields, methodId: string)
    requires NoDup(f.selectedMethods)
    ensures NoDup(HandleMethodToggle(f, methodId).selectedMethods)
  {
    ToggleKeepsNoDup(f.selectedMethods, methodId);
  }
}
