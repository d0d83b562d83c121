/** src/components/forms/ExportForm.tsx: the export step: export formats, report
    sections and their custom texts. A handler's result is the form's values
    after the parent has applied the callback the handler calls. */
module ExportForm {
  import opened Selection

  /** The value props of the form. */
  datatype Fields = Fields(
    selectedFormats: seq<string>,
    selectedReportSections: seq<string>,
    customExportOptions: string,
    customReportSections: string)

  /** `handleFormatChange(format, checked)`: checking appends `format`, unchecking
      removes every occurrence of it; only `onFormatsChange` is called. */
  function HandleFormatChange(f: Fields, format: string, checked: bool): (r: Fields)
    ensures checked ==> Appended(f.selectedFormats, format, r.selectedFormats)
    ensures !checked ==> Removed(f.selectedFormats, format, r.selectedFormats)
    ensures (format in r.selectedFormats) <==> checked
    ensures forall x :: x != format ==> (x in r.selectedFormats <==> x in f.selectedFormats)
    ensures r == f.(selectedFormats := r.selectedFormats)
  {
    f.(selectedFormats := Change(f.selectedFormats, format, checked))
  }

  /** Checking then unchecking an entry the list lacks restores the values. */
  lemma FormatCheckThenUncheck(f: Fields, format: string)
    requires format !in f.selectedFormats
    ensures HandleFormatChange(HandleFormatChange(f, format, true), format, false) == f
  {
    CheckUncheckAbsent(f.selectedFormats, format);
  }

  /** Checking does not test membership: checking a listed entry duplicates it. */
  lemma FormatCheckListedDuplicates(f: Fields, format: string)
    requires format in f.selectedFormats
    ensures |HandleFormatChange(f, format, true).selectedFormats| == |f.selectedFormats| + 1
    ensures !NoDup(HandleFormatChange(f, format, true).selectedFormats)
  {
    CheckPresentDuplicates(f.selectedFormats, format);
  }

  /** `handleReportSectionChange(section, checked)`: checking appends `section`, unchecking
      removes every occurrence of it; only `onReportSectionsChange` is called. */
  function HandleReportSectionChange(f: Fields, section: string, checked: bool): (r: Fields)
    ensures checked ==> Appended(f.selectedReportSections, section, r.selectedReportSections)
    ensures !checked ==> Removed(f.selectedReportSections, section, r.selectedReportSections)
    ensures (section in r.selectedReportSections) <==> checked
    ensures forall x :: x != section ==> (x in r.selectedReportSections <==> x in f.selectedReportSections)
    ensures r == f.(selectedReportSections := r.selectedReportSections)
  {
    f.(selectedReportSections := Change(f.selectedReportSections, section, checked))
  }

  /** Checking then unchecking an entry the list lacks restores the values. */
  lemma ReportSectionCheckThenUncheck(f: Fields, section: string)
    requires section !in f.selectedReportSections
    ensures HandleReportSectionChange(HandleReportSectionChange(f, section, true), section, false) == f
  {
    CheckUncheckAbsent(f.selectedReportSections, section);
  }

  /** Checking does not test membership: checking a listed entry duplicates it. */
  lemma ReportSectionCheckListedDuplicates(f: Fields, section: string)
    requires section in f.selectedReportSections
    ensures |HandleReportSectionChange(f, section, true).selectedReportSections| == |f.selectedReportSections| + 1
    ensures !NoDup(HandleReportSectionChange(f, section, true).selectedReportSections)
  {
    CheckPresentDuplicates(f.selectedReportSections, section);
  }
}
