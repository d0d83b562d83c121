/** src/components/forms/DataEntryForm.tsx: the data-entry step: accepted file
    types and free-text requirements. A handler's result is the form's values
    after the parent has applied the callback the handler calls. */
module DataEntryForm {
  import opened Selection

  /** The value props of the form. */
  datatype Fields = Fields(
    selectedFileTypes: seq<string>,
    additionalRequirements: string)

  /** `handleFileTypeChange(fileTypeId, checked)`: checking appends `fileTypeId`, unchecking
      removes every occurrence of it; only `onFileTypesChange` is called. */
  function HandleFileTypeChange(f: Fields, fileTypeId: string, checked: bool): (r: Fields)
    ensures checked ==> Appended(f.selectedFileTypes, fileTypeId, r.selectedFileTypes)
    ensures !checked ==> Removed(f.selectedFileTypes, fileTypeId, r.selectedFileTypes)
    ensures (fileTypeId in r.selectedFileTypes) <==> checked
    ensures forall x :: x != fileTypeId ==> (x in r.selectedFileTypes <==> x in f.selectedFileTypes)
    ensures r == f.(selectedFileTypes := r.selectedFileTypes)
  {
    f.(selectedFileTypes := Change(f.selectedFileTypes, fileTypeId, checked))
  }

  /** Checking then unchecking an entry the list lacks restores the values. */
  lemma FileTypeCheckThenUncheck(f: Fields, fileTypeId: string)
    requires fileTypeId !in f.selectedFileTypes
    ensures HandleFileTypeChange(HandleFileTypeChange(f, fileTypeId, true), fileTypeId, false) == f
  {
    CheckUncheckAbsent(f.selectedFileTypes, fileTypeId);
  }

  /** Checking does not test membership: checking a listed entry duplicates it. */
  lemma FileTypeCheckListedDuplicates(f: Fields, fileTypeId: string)
    requires fileTypeId in f.selectedFileTypes
    ensures |HandleFileTypeChange(f, fileTypeId, true).selectedFileTypes| == |f.selectedFileTypes| + 1
    ensures !NoDup(HandleFileTypeChange(f, fileTypeId, true).selectedFileTypes)
  {
    CheckPresentDuplicates(f.selectedFileTypes, fileTypeId);
  }

  /** `onAdditionalRequirementsChange` from the input: `e.target.value` replaces `additionalRequirements` whole. */
  function SetAdditionalRequirements(f: Fields, value: string): (r: Fields)
    ensures r.additionalRequirements == value
    ensures r == f.(additionalRequirements := r.additionalRequirements)
  {
    f.(additionalRequirements := value)
  }
}
