/** src/components/forms/StatisticalModelingForm.tsx: the statistical-modeling
    step: model diagnostics and custom diagnostics. A handler's result is the
    form's values after the parent has applied the callback the handler calls. */
module StatisticalModelingForm {
  import opened Selection

  /** The value props of the form. */
  datatype Fields = Fields(
    selectedDiagnostics: seq<string>,
    customDiagnostics: string)

  /** `handleDiagnosticToggle(diagnosticId)`: `includes ? filter : append`, passed to `onDiagnosticsChange`. */
  function HandleDiagnosticToggle(f: Fields, diagnosticId: string): (r: Fields)
    ensures diagnosticId in f.selectedDiagnostics ==> Removed(f.selectedDiagnostics, diagnosticId, r.selectedDiagnostics)
    ensures diagnosticId !in f.selectedDiagnostics ==> Appended(f.selectedDiagnostics, diagnosticId, r.selectedDiagnostics)
    ensures (diagnosticId in r.selectedDiagnostics) <==> (diagnosticId !in f.selectedDiagnostics)
    ensures forall x :: x != diagnosticId ==> (x in r.selectedDiagnostics <==> x in f.selectedDiagnostics)
    ensures r == f.(selectedDiagnostics := r.selectedDiagnostics)
  {
    f.(selectedDiagnostics := Toggle(f.selectedDiagnostics, diagnosticId))
  }

  /** Toggling an entry the list lacks twice restores the values. */
  lemma DiagnosticToggleTwice(f: Fields, diagnosticId: string)
    requires diagnosticId !in f.selectedDiagnostics
    ensures HandleDiagnosticToggle(HandleDiagnosticToggle(f, diagnosticId), diagnosticId) == f
  {
    ToggleTwiceAbsent(f.selectedDiagnostics, diagnosticId);
  }

  /** Toggling never introduces a duplicate. */
  lemma DiagnosticToggleKeepsNoDup(f: Fields, diagnosticId: string)
    requires NoDup(f.selectedDiagnostics)
    ensures NoDup(HandleDiagnosticToggle(f, diagnosticId).selectedDiagnostics)
  {
    ToggleKeepsNoDup(f.selectedDiagnostics, diagnosticId);
  }
}
