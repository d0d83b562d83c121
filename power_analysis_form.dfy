/** src/components/forms/PowerAnalysisForm.tsx: the power-analysis step: one
    method, effect sizes, power and alpha levels and two custom texts. A
    handler's result is the form's values after the parent has applied the
    callback the handler calls. */
module PowerAnalysisForm {
  import opened Selection

  /** The value props of the form. */
  datatype Fields = Fields(
    selectedMethod: string,
    selectedEffectSizes: seq<string>,
    powerLevel: string,
    alphaLevel: string,
    customEffectSize: string,
    customMethods: string)

  /** `handleEffectSizeChange(effectSizeId, checked)`: checking appends `effectSizeId`, unchecking
      removes every occurrence of it; only `onEffectSizesChange` is called. */
  function HandleEffectSizeChange(f: Fields, effectSizeId: string, checked: bool): (r: Fields)
    ensures checked ==> Appended(f.selectedEffectSizes, effectSizeId, r.selectedEffectSizes)
    ensures !checked ==> Removed(f.selectedEffectSizes, effectSizeId, r.selectedEffectSizes)
    ensures (effectSizeId in r.selectedEffectSizes) <==> checked
    ensures forall x :: x != effectSizeId ==> (x in r.selectedEffectSizes <==> x in f.selectedEffectSizes)
    ensures r == f.(selectedEffectSizes := r.selectedEffectSizes)
  {
    f.(selectedEffectSizes := Change(f.selectedEffectSizes, effectSizeId, checked))
  }

  /** Checking then unchecking an entry the list lacks restores the values. */
  lemma EffectSizeCheckThenUncheck(f: Fields, effectSizeId: string)
    requires effectSizeId !in f.selectedEffectSizes
    ensures HandleEffectSizeChange(HandleEffectSizeChange(f, effectSizeId, true), effectSizeId, false) == f
  {
    CheckUncheckAbsent(f.selectedEffectSizes, effectSizeId);
  }

  /** Checking does not test membership: checking a listed entry duplicates it. */
  lemma EffectSizeCheckListedDuplicates(f: Fields, effectSizeId: string)
    requires effectSizeId in f.selectedEffectSizes
    ensures |HandleEffectSizeChange(f, effectSizeId, true).selectedEffectSizes| == |f.selectedEffectSizes| + 1
    ensures !NoDup(HandleEffectSizeChange(f, effectSizeId, true).selectedEffectSizes)
  {
    CheckPresentDuplicates(f.selectedEffectSizes, effectSizeId);
  }

  /** `onMethodChange` from the radio group: the chosen value replaces `selectedMethod` whole. */
  function SetMethod(f: Fields, value: string): (r: Fields)
    ensures r.selectedMethod == value
    ensures r == f.(selectedMethod := r.selectedMethod)
  {
    f.(selectedMethod := value)
  }

  /** `selectedEffectSizes.includes('custom')`: the custom effect-size textarea is shown. */
  predicate ShowsCustomEffectSize(f: Fields) {
    ShowsCustom(f.selectedEffectSizes)
  }

  /** The custom effect-size textarea follows the "custom" checkbox and nothing else. */
  lemma ShowsCustomEffectSizeAfterChange(f: Fields, id: string, checked: bool)
    ensures ShowsCustomEffectSize(HandleEffectSizeChange(f, id, checked)) == if id == "custom" then checked else ShowsCustomEffectSize(f)
  {
    ShowsCustomAfterChange(f.selectedEffectSizes, id, checked);
  }

  /** `selectedMethod === 'custom'`: the custom-methods card is shown. */
  predicate ShowsCustomMethods(f: Fields) {
    f.selectedMethod == "custom"
  }

  /** Choosing a value decides the condition; the checkbox lists never do. */
  lemma ShowsCustomMethodsAfterEdits(f: Fields, value: string, id: string, checked: bool)
    ensures ShowsCustomMethods(SetMethod(f, value)) <==> value == "custom"
    ensures ShowsCustomMethods(HandleEffectSizeChange(f, id, checked)) == ShowsCustomMethods(f)
  {
  }
}
