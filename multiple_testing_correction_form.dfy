/** src/components/forms/MultipleTestingCorrectionForm.tsx: the multiple-testing-
    correction step: one primary method, additional methods and custom
    methods. A handler's result is the form's values after the parent has
    applied the callback the handler calls. */
module MultipleTestingCorrectionForm {
  import opened Selection

  /** The value props of the form. */
  datatype Fields = Fields(
    selectedMethod: string,
    selectedAdditionalMethods: seq<string>,
    customMethods: string)

  /** `handleAdditionalMethodToggle(methodId)`: `includes ? filter : append`, passed to `onAdditionalMethodsChange`. */
  function HandleAdditionalMethodToggle(f: Fields, methodId: string): (r: Fields)
    ensures methodId in f.selectedAdditionalMethods ==> Removed(f.selectedAdditionalMethods, methodId, r.selectedAdditionalMethods)
    ensures methodId !in f.selectedAdditionalMethods ==> Appended(f.selectedAdditionalMethods, methodId, r.selectedAdditionalMethods)
    ensures (methodId in r.selectedAdditionalMethods) <==> (methodId !in f.selectedAdditionalMethods)
    ensures forall x :: x != methodId ==> (x in r.selectedAdditionalMethods <==> x in f.selectedAdditionalMethods)
    ensures r == f.(selectedAdditionalMethods := r.selectedAdditionalMethods)
  {
    f.(selectedAdditionalMethods := Toggle(f.selectedAdditionalMethods, methodId))
  }

  /** Toggling an entry the list lacks twice restores the values. */
  lemma AdditionalMethodToggleTwice(f: Fields, methodId: string)
    requires methodId !in f.selectedAdditionalMethods
    ensures HandleAdditionalMethodToggle(HandleAdditionalMethodToggle(f, methodId), methodId) == f
  {
    ToggleTwiceAbsent(f.selectedAdditionalMethods, methodId);
  }

  /** Toggling never introduces a duplicate. */
  lemma AdditionalMethodToggleKeepsNoDup(f: Fields, methodId: string)
    requires NoDup(f.selectedAdditionalMethods)
    ensures NoDup(HandleAdditionalMethodToggle(f, methodId).selectedAdditionalMethods)
  {
    ToggleKeepsNoDup(f.selectedAdditionalMethods, methodId);
  }

  /** `onMethodChange` from the radio group: the chosen value replaces `selectedMethod` whole. */
  function SetMethod(f: Fields, value: string): (r: Fields)
    ensures r.selectedMethod == value
    ensures r == f.(selectedMethod := r.selectedMethod)
  {
    f.(selectedMethod := value)
  }
}
