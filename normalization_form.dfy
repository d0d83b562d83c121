/** src/components/forms/NormalizationForm.tsx: the bridging and normalization
    step: one method, bridging options and a custom method. A handler's result
    is the form's values after the parent has applied the callback the handler
    calls. */
module NormalizationForm {
  import opened Selection

  /** The value props of the form. */
  datatype Fields = Fields(
    selectedMethod: string,
    selectedBridgingOptions: seq<string>,
    customMethod: string)

  /** `handleBridgingOptionChange(option, checked)`: checking appends `option`, unchecking
      removes every occurrence of it; only `onBridgingOptionsChange` is called. */
  function HandleBridgingOptionChange(f: Fields, option: string, checked: bool): (r: Fields)
    ensures checked ==> Appended(f.selectedBridgingOptions, option, r.selectedBridgingOptions)
    ensures !checked ==> Removed(f.selectedBridgingOptions, option, r.selectedBridgingOptions)
    ensures (option in r.selectedBridgingOptions) <==> checked
    ensures forall x :: x != option ==> (x in r.selectedBridgingOptions <==> x in f.selectedBridgingOptions)
    ensures r == f.(selectedBridgingOptions := r.selectedBridgingOptions)
  {
    f.(selectedBridgingOptions := Change(f.selectedBridgingOptions, option, checked))
  }

  /** Checking then unchecking an entry the list lacks restores the values. */
  lemma BridgingOptionCheckThenUncheck(f: Fields, option: string)
    requires option !in f.selectedBridgingOptions
    ensures HandleBridgingOptionChange(HandleBridgingOptionChange(f, option, true), option, false) == f
  {
    CheckUncheckAbsent(f.selectedBridgingOptions, option);
  }

  /** Checking does not test membership: checking a listed entry duplicates it. */
  lemma BridgingOptionCheckListedDuplicates(f: Fields, option: string)
    requires option in f.selectedBridgingOptions
    ensures |HandleBridgingOptionChange(f, option, true).selectedBridgingOptions| == |f.selectedBridgingOptions| + 1
    ensures !NoDup(HandleBridgingOptionChange(f, option, true).selectedBridgingOptions)
  {
    CheckPresentDuplicates(f.selectedBridgingOptions, option);
  }

  /** `onMethodChange` from the radio group: the chosen value replaces `selectedMethod` whole. */
  function SetMethod(f: Fields, value: string): (r: Fields)
    ensures r.selectedMethod == value
    ensures r == f.(selectedMethod := r.selectedMethod)
  {
    f.(selectedMethod := value)
  }

  /** `selectedMethod === 'custom'`: the custom-method textarea is shown. */
  predicate ShowsCustomMethod(f: Fields) {
    f.selectedMethod == "custom"
  }

  /** Choosing a value decides the condition; the checkbox lists never do. */
  lemma ShowsCustomMethodAfterEdits(f: Fields, value: string, id: string, checked: bool)
    ensures ShowsCustomMethod(SetMethod(f, value)) <==> value == "custom"
    ensures ShowsCustomMethod(HandleBridgingOptionChange(f, id, checked)) == ShowsCustomMethod(f)
  {
  }
}
