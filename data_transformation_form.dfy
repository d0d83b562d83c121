/** src/components/forms/DataTransformationForm.tsx: the data-transformation step:
    transformations and custom transformations. A handler's result is the
    form's values after the parent has applied the callback the handler calls. */
module DataTransformationForm {
  import opened Selection

  /** The value props of the form. */
  datatype Fields = Fields(
    selectedTransformations: seq<string>,
    customTransformations: string)

  /** `handleTransformationToggle(transformationId)`: `includes ? filter : append`, passed to `onTransformationsChange`. */
  function HandleTransformationToggle(f: Fields, transformationId: string): (r: Fields)
    ensures transformationId in f.selectedTransformations ==> Removed(f.selectedTransformations, transformationId, r.selectedTransformations)
    ensures transformationId !in f.selectedTransformations ==> Appended(f.selectedTransformations, transformationId, r.selectedTransformations)
    ensures (transformationId in r.selectedTransformations) <==> (transformationId !in f.selectedTransformations)
    ensures forall x :: x != transformationId ==> (x in r.selectedTransformations <==> x in f.selectedTransformations)
    ensures r == f.(selectedTransformations := r.selectedTransformations)
  {
    f.(selectedTransformations := Toggle(f.selectedTransformations, transformationId))
  }

  /** Toggling an entry the list lacks twice restores the values. */
  lemma TransformationToggleTwice(f: Fields, transformationId: string)
    requires transformationId !in f.selectedTransformations
    ensures HandleTransformationToggle(HandleTransformationToggle(f, transformationId), transformationId) == f
  {
    ToggleTwiceAbsent(f.selectedTransformations, transformationId);
  }

  /** Toggling never introduces a duplicate. */
  lemma TransformationToggleKeepsNoDup(f: Fields, transformationId: string)
    requires NoDup(f.selectedTransformations)
    ensures NoDup(HandleTransformationToggle(f, transformationId).selectedTransformations)
  {
    ToggleKeepsNoDup(f.selectedTransformations, transformationId);
  }
}
