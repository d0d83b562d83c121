/** src/pages/Dashboard.tsx: the four statistics cards computed in
    `loadDashboardData` and the per-row "% complete" of `getStepProgress`. */
module Dashboard {
  import opened Wrappers
  import opened Json
  import opened PipelineRows

  datatype DashboardStats = DashboardStats(
    totalResponses: nat,
    completedResponses: nat,
    draftResponses: nat,
    uniqueUsers: nat)

  /** The statistics computed from the query's `data`, which is None when the
      query returns no data (every `?.` then yields undefined and `|| 0` gives 0). */
  function ComputeStats(data: Option<seq<PipelineResponse>>): (s: DashboardStats)
    ensures data.None? ==> s == DashboardStats(0, 0, 0, 0)
    ensures data.Some? ==>
      && s.totalResponses == |data.value|
      && s.completedResponses == multiset(Statuses(data.value))["completed"]
      && s.draftResponses == multiset(Statuses(data.value))["draft"]
      && s.uniqueUsers == |set u | u in UserNames(data.value)|
    ensures s.completedResponses + s.draftResponses <= s.totalResponses
    ensures s.uniqueUsers <= s.totalResponses
    ensures s.uniqueUsers == 0 <==> s.totalResponses == 0
  {
    match data
    case None => DashboardStats(0, 0, 0, 0)
    case Some(rows) =>
      TwoStatusesBounded(rows, "completed", "draft");
      DashboardStats(|rows|, CountStatus(rows, "completed"), CountStatus(rows, "draft"), DistinctCount(UserNames(rows)))
  }

  /** How a check reads its field: `?.length > 0`, or `> 0` on the value itself. */
  datatype Test = ListNonEmpty | PositiveNumber

  /** `pipelineData.<section>?.<field>` passes `test`. */
  datatype ProgressCheck = ProgressCheck(section: string, field: string, test: Test)

  const TotalSteps: nat := 16

  /** The sixteen checks of `getStepProgress`, with the section keys exactly as
      the page spells them (`qc`, `export`). */
  const ProgressChecks: seq<ProgressCheck> := [
    ProgressCheck("dataEntry", "selectedFileTypes", ListNonEmpty),
    ProgressCheck("powerAnalysis", "selectedMethods", ListNonEmpty),
    ProgressCheck("qc", "selectedMethods", ListNonEmpty),
    ProgressCheck("lodHandling", "selectedMethods", ListNonEmpty),
    ProgressCheck("outlierDetection", "selectedMethods", ListNonEmpty),
    ProgressCheck("normalization", "selectedMethods", ListNonEmpty),
    ProgressCheck("batchEffect", "selectedMethods", ListNonEmpty),
    ProgressCheck("exploratoryAnalysis", "selectedMethods", ListNonEmpty),
    ProgressCheck("groupComparison", "numberOfGroups", PositiveNumber),
    ProgressCheck("dataTransformation", "selectedTransformations", ListNonEmpty),
    ProgressCheck("statisticalModeling", "selectedMethods", ListNonEmpty),
    ProgressCheck("comparators", "selectedMethods", ListNonEmpty),
    ProgressCheck("multipleTestingCorrection", "selectedMethods", ListNonEmpty),
    ProgressCheck("sensitivityAnalysis", "selectedMethods", ListNonEmpty),
    ProgressCheck("visualization", "selectedTypes", ListNonEmpty),
    ProgressCheck("export", "selectedFormats", ListNonEmpty)
  ]

  /** `pipelineData.<key>`: undefined when the section is missing. */
  function Section(pipelineData: map<string, Json>, key: string): Option<Json> {
    if key in pipelineData then Some(pipelineData[key]) else None
  }

  predicate Holds(pipelineData: map<string, Json>, c: ProgressCheck) {
    var v := Member(Section(pipelineData, c.section), c.field);
    match c.test
    case ListNonEmpty => LengthPositive(v)
    case PositiveNumber => PositiveValue(v)
  }

  /** Which of `checks` hold, in order. */
  function Outcomes(pipelineData: map<string, Json>, checks: seq<ProgressCheck>): (r: seq<bool>)
    ensures |r| == |checks|
    ensures forall i :: 0 <= i < |checks| ==> r[i] == Holds(pipelineData, checks[i])
  {
    seq(|checks|, i requires 0 <= i < |checks| => Holds(pipelineData, checks[i]))
  }

  /** The number of `true` entries of `bs`. */
  function CountTrue(bs: seq<bool>): (n: nat)
    ensures n <= |bs|
    decreases |bs|
  {
    if bs == [] then 0
    else CountTrue(bs[..|bs| - 1]) + (if bs[|bs| - 1] then 1 else 0)
  }

  /** The count is zero exactly when no entry is true, and full exactly when
      every entry is. */
  lemma {:induction false} CountTrueExtremes(bs: seq<bool>)
    ensures CountTrue(bs) == 0 <==> forall i :: 0 <= i < |bs| ==> !bs[i]
    ensures CountTrue(bs) == |bs| <==> forall i :: 0 <= i < |bs| ==> bs[i]
    decreases |bs|
  {
    if bs != [] {
      var init := bs[..|bs| - 1];
      CountTrueExtremes(init);
      assert forall i :: 0 <= i < |init| ==> init[i] == bs[i];
    }
  }

  /** Counting one more entry. */
  lemma CountTrueStep(bs: seq<bool>, j: nat)
    requires j < |bs|
    ensures CountTrue(bs[..j + 1]) == CountTrue(bs[..j]) + (if bs[j] then 1 else 0)
  {
    assert bs[..j + 1][..j] == bs[..j];
  }

  /** `Math.round((k / 16) * 100)`. Both k/16 and k·6.25 are exact binary
      fractions, so the floating-point expression is exactly half-up rounding. */
  function ProgressPercent(k: nat): (r: nat)
    requires k <= TotalSteps
    ensures r == (100 * k + 8) / 16
    ensures r <= 100
    ensures r == 0 <==> k == 0
    ensures r == 100 <==> k == TotalSteps
  {
    var r := RoundHalfUp(k * 100, TotalSteps);
    RoundHalfUpUnique(k * 100, TotalSteps, (100 * k + 8) / 16);
    r
  }

  /** More satisfied checks never lower the percentage. */
  lemma ProgressMonotone(k1: nat, k2: nat)
    requires k1 <= k2 <= TotalSteps
    ensures ProgressPercent(k1) <= ProgressPercent(k2)
  {
  }

  /** `getStepProgress(pipelineData)`: counts the sixteen checks one by one, in
      the page's order, and rounds the completed share to a whole percentage. */
  method GetStepProgress(pipelineData: map<string, Json>) returns (percent: nat)
    ensures percent == ProgressPercent(CountTrue(Outcomes(pipelineData, ProgressChecks)))
    ensures percent <= 100
    ensures percent == 0 <==> forall i :: 0 <= i < |ProgressChecks| ==> !Holds(pipelineData, ProgressChecks[i])
    ensures percent == 100 <==> forall i :: 0 <= i < |ProgressChecks| ==> Holds(pipelineData, ProgressChecks[i])
  {
    ghost var outcomes := Outcomes(pipelineData, ProgressChecks);
    var completedSteps: nat := 0;
    for k := 0 to |ProgressChecks|
      invariant completedSteps == CountTrue(outcomes[..k])
    {
      assert outcomes[k] == Holds(pipelineData, ProgressChecks[k]);
      if Holds(pipelineData, ProgressChecks[k]) {
        completedSteps := completedSteps + 1;
      }
      CountTrueStep(outcomes, k);
    }
    assert outcomes[..|ProgressChecks|] == outcomes;
    percent := RoundHalfUp(completedSteps * 100, TotalSteps);
    OutcomesExtremes(pipelineData, ProgressChecks);
  }

  /** No check holds exactly when the count is zero, and every check holds
      exactly when it is the number of checks. */
  lemma OutcomesExtremes(pipelineData: map<string, Json>, checks: seq<ProgressCheck>)
    ensures CountTrue(Outcomes(pipelineData, checks)) == 0 <==> forall i :: 0 <= i < |checks| ==> !Holds(pipelineData, checks[i])
    ensures CountTrue(Outcomes(pipelineData, checks)) == |checks| <==> forall i :: 0 <= i < |checks| ==> Holds(pipelineData, checks[i])
  {
    CountTrueExtremes(Outcomes(pipelineData, checks));
  }

  /** A missing section, or a section without the field, never passes its check. */
  lemma MissingSectionFails(pipelineData: map<string, Json>, c: ProgressCheck)
    requires c.section !in pipelineData
      || !pipelineData[c.section].JObj?
      || c.field !in pipelineData[c.section].fields
    ensures !Holds(pipelineData, c)
  {
  }
}
