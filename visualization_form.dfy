/** src/components/forms/VisualizationForm.tsx: the visualization step: graphs,
    tables and their custom texts. A handler's result is the form's values
    after the parent has applied the callback the handler calls. */
module VisualizationForm {
  import opened Selection

  /** The value props of the form. */
  datatype Fields = Fields(
    selectedGraphs: seq<string>,
    selectedTables: seq<string>,
    customVisualizations: string,
    customTables: string)

  /** `handleGraphToggle(graphId)`: `includes ? filter : append`, passed to `onGraphsChange`. */
  function HandleGraphToggle(f: Fields, graphId: string): (r: Fields)
    ensures graphId in f.selectedGraphs ==> Removed(f.selectedGraphs, graphId, r.selectedGraphs)
    ensures graphId !in f.selectedGraphs ==> Appended(f.selectedGraphs, graphId, r.selectedGraphs)
    ensures (graphId in r.selectedGraphs) <==> (graphId !in f.selectedGraphs)
    ensures forall x :: x != graphId ==> (x in r.selectedGraphs <==> x in f.selectedGraphs)
    ensures r == f.(selectedGraphs := r.selectedGraphs)
  {
    f.(selectedGraphs := Toggle(f.selectedGraphs, graphId))
  }

  /** Toggling an entry the list lacks twice restores the values. */
  lemma GraphToggleTwice(f: Fields, graphId: string)
    requires graphId !in f.selectedGraphs
    ensures HandleGraphToggle(HandleGraphToggle(f, graphId), graphId) == f
  {
    ToggleTwiceAbsent(f.selectedGraphs, graphId);
  }

  /** Toggling never introduces a duplicate. */
  lemma GraphToggleKeepsNoDup(f: Fields, graphId: string)
    requires NoDup(f.selectedGraphs)
    ensures NoDup(HandleGraphToggle(f, graphId).selectedGraphs)
  {
    ToggleKeepsNoDup(f.selectedGraphs, graphId);
  }

  /** `handleTableToggle(tableId)`: `includes ? filter : append`, passed to `onTablesChange`. */
  function HandleTableToggle(f: Fields, tableId: string): (r: Fields)
    ensures tableId in f.selectedTables ==> Removed(f.selectedTables, tableId, r.selectedTables)
    ensures tableId !in f.selectedTables ==> Appended(f.selectedTables, tableId, r.selectedTables)
    ensures (tableId in r.selectedTables) <==> (tableId !in f.selectedTables)
    ensures forall x :: x != tableId ==> (x in r.selectedTables <==> x in f.selectedTables)
    ensures r == f.(selectedTables := r.selectedTables)
  {
    f.(selectedTables := Toggle(f.selectedTables, tableId))
  }

  /** Toggling an entry the list lacks twice restores the values. */
  lemma TableToggleTwice(f: Fields, tableId: string)
    requires tableId !in f.selectedTables
    ensures HandleTableToggle(HandleTableToggle(f, tableId), tableId) == f
  {
    ToggleTwiceAbsent(f.selectedTables, tableId);
  }

  /** Toggling never introduces a duplicate. */
  lemma TableToggleKeepsNoDup(f: Fields, tableId: string)
    requires NoDup(f.selectedTables)
    ensures NoDup(HandleTableToggle(f, tableId).selectedTables)
  {
    ToggleKeepsNoDup(f.selectedTables, tableId);
  }
}
