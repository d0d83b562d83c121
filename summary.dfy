/** src/pages/Summary.tsx: the aggregate statistics, the status distribution,
    the completion rate and the "most common analysis steps" ranking, all
    computed from the list of saved pipelines the page has loaded. */
module Summary {
  import opened Json
  import opened PipelineRows

  datatype SummaryStats = SummaryStats(
    total: nat,
    completed: nat,
    inProgress: nat,
    draft: nat,
    uniqueUsers: nat)

  /** `stats`: the row count, exact-status counts and distinct `user_id` values. */
  function ComputeStats(pipelines: seq<PipelineResponse>): (s: SummaryStats)
    ensures s.total == |pipelines|
    ensures s.completed == multiset(Statuses(pipelines))["completed"]
    ensures s.inProgress == multiset(Statuses(pipelines))["in_progress"]
    ensures s.draft == multiset(Statuses(pipelines))["draft"]
    ensures s.uniqueUsers == |set u | u in UserIds(pipelines)|
    ensures s.completed + s.inProgress + s.draft <= s.total
    ensures s.uniqueUsers <= s.total
    ensures s.uniqueUsers == 0 <==> s.total == 0
  {
    ThreeStatusesBounded(pipelines, "completed", "in_progress", "draft");
    SummaryStats(
      |pipelines|,
      CountStatus(pipelines, "completed"),
      CountStatus(pipelines, "in_progress"),
      CountStatus(pipelines, "draft"),
      DistinctCount(UserIds(pipelines)))
  }

  /** One slice of the status pie chart. */
  datatype StatusSlice = StatusSlice(name: string, value: nat, color: string)

  /** The position of a slice name in the chart's fixed order. */
  function StatusRank(name: string): nat {
    if name == "Completed" then 0 else if name == "In Progress" then 1 else 2
  }

  /** Slice names appear in strictly increasing rank. */
  predicate RankIncreasing(xs: seq<StatusSlice>) {
    forall i, j :: 0 <= i < j < |xs| ==> StatusRank(xs[i].name) < StatusRank(xs[j].name)
  }

  /** `.filter(item => item.value > 0)` on slices. */
  function PositiveSlices(xs: seq<StatusSlice>): (r: seq<StatusSlice>)
    ensures forall i :: 0 <= i < |r| ==> r[i].value > 0
    ensures forall x :: x in r <==> x in xs && x.value > 0
    ensures |r| <= |xs|
    decreases |xs|
  {
    if xs == [] then []
    else
      var rest := PositiveSlices(xs[1..]);
      assert xs == [xs[0]] + xs[1..];
      if xs[0].value > 0 then [xs[0]] + rest else rest
  }

  /** Filtering keeps the slices in their rank order. */
  lemma {:induction false} PositiveSlicesKeepRank(xs: seq<StatusSlice>)
    requires RankIncreasing(xs)
    ensures RankIncreasing(PositiveSlices(xs))
    decreases |xs|
  {
    if xs != [] {
      assert RankIncreasing(xs[1..]);
      PositiveSlicesKeepRank(xs[1..]);
      if xs[0].value > 0 {
        ConsRankIncreasing(xs, PositiveSlices(xs[1..]));
      }
    }
  }

  /** Putting a rank-increasing list's head before slices drawn from its tail
      keeps the ranks increasing. */
  lemma ConsRankIncreasing(xs: seq<StatusSlice>, rest: seq<StatusSlice>)
    requires RankIncreasing(xs) && |xs| > 0 && RankIncreasing(rest)
    requires forall x :: x in rest ==> x in xs[1..]
    ensures RankIncreasing([xs[0]] + rest)
  {
    var r := [xs[0]] + rest;
    forall i, j | 0 <= i < j < |r|
      ensures StatusRank(r[i].name) < StatusRank(r[j].name)
    {
      assert r[j] == rest[j - 1];
      assert rest[j - 1] in rest;
      var k :| 0 <= k < |xs| - 1 && xs[1..][k] == rest[j - 1];
      assert xs[k + 1] == r[j];
      if i > 0 {
        assert r[i] == rest[i - 1];
      }
    }
  }

  /** The three entries of `statusData`, before filtering. */
  function CompletedSlice(s: SummaryStats): StatusSlice {
    StatusSlice("Completed", s.completed, "#22c55e")
  }

  function InProgressSlice(s: SummaryStats): StatusSlice {
    StatusSlice("In Progress", s.inProgress, "#f59e0b")
  }

  function DraftSlice(s: SummaryStats): StatusSlice {
    StatusSlice("Draft", s.draft, "#6b7280")
  }

  /** `statusData`: the three slices in the order Completed, In Progress, Draft,
      with every slice of value 0 dropped. */
  function StatusData(s: SummaryStats): (r: seq<StatusSlice>)
    ensures |r| <= 3
    ensures forall i :: 0 <= i < |r| ==> r[i].value > 0
    ensures CompletedSlice(s) in r <==> s.completed > 0
    ensures InProgressSlice(s) in r <==> s.inProgress > 0
    ensures DraftSlice(s) in r <==> s.draft > 0
    ensures forall x :: x in r ==> x == CompletedSlice(s) || x == InProgressSlice(s) || x == DraftSlice(s)
    ensures RankIncreasing(r)
  {
    var all := [CompletedSlice(s), InProgressSlice(s), DraftSlice(s)];
    assert RankIncreasing(all);
    PositiveSlicesKeepRank(all);
    PositiveSlices(all)
  }

  /** The completion-rate line: 0 without rows, otherwise the nearest whole
      percentage of completed rows (halves rounded up). */
  function CompletionRate(s: SummaryStats): (r: nat)
    requires s.completed <= s.total
    ensures r <= 100
    ensures s.total == 0 ==> r == 0
    ensures s.total > 0 ==> 2 * s.total * r <= 200 * s.completed + s.total < 2 * s.total * (r + 1)
    ensures s.completed == 0 ==> r == 0
    ensures 0 < s.completed == s.total ==> r == 100
  {
    if s.total > 0 then
      PercentBounded(s.completed, s.total);
      if s.completed == 0 then
        RoundHalfUpUnique(0, s.total, 0);
        RoundHalfUp(100 * s.completed, s.total)
      else if s.completed == s.total then
        RoundHalfUpUnique(100 * s.total, s.total, 100);
        RoundHalfUp(100 * s.completed, s.total)
      else
        RoundHalfUp(100 * s.completed, s.total)
    else 0
  }

  /** The completion rate of the statistics the page computes is always defined. */
  lemma CompletionRateOfStats(pipelines: seq<PipelineResponse>)
    ensures ComputeStats(pipelines).completed <= ComputeStats(pipelines).total
    ensures CompletionRate(ComputeStats(pipelines)) <= 100
  {
  }

  /** The fifteen section keys `getStepUsage` looks up, spelled as the page
      spells them (`qcStep`, `exportData`). */
  const StepKeys: seq<string> := [
    "dataEntry", "qcStep", "lodHandling", "normalization", "batchEffect",
    "outlierDetection", "dataTransformation", "exploratoryAnalysis",
    "groupComparison", "statisticalModeling", "multipleTestingCorrection",
    "powerAnalysis", "sensitivityAnalysis", "visualization", "exportData"
  ]

  /** `stepLabels`. */
  const StepLabels: map<string, string> := map[
    "dataEntry" := "Data Entry",
    "qcStep" := "Quality Control",
    "lodHandling" := "LOD Handling",
    "normalization" := "Normalization",
    "batchEffect" := "Batch Effect",
    "outlierDetection" := "Outlier Detection",
    "dataTransformation" := "Transformation",
    "exploratoryAnalysis" := "Exploratory",
    "groupComparison" := "Group Comparison",
    "statisticalModeling" := "Statistical Modeling",
    "multipleTestingCorrection" := "Multiple Testing",
    "powerAnalysis" := "Power Analysis",
    "sensitivityAnalysis" := "Sensitivity",
    "visualization" := "Visualization",
    "exportData" := "Export"
  ]

  /** `stepLabels[step] || step`: the label, or the raw key when the label is
      missing or empty. */
  function StepLabel(step: string): (r: string)
    ensures r != "" || step == ""
    ensures step !in StepLabels ==> r == step
  {
    if step in StepLabels && StepLabels[step] != "" then StepLabels[step] else step
  }

  /** Every one of the fifteen keys has its own label, and no two share one. */
  lemma StepLabelsDistinct()
    ensures forall i :: 0 <= i < |StepKeys| ==> StepKeys[i] in StepLabels && StepLabel(StepKeys[i]) == StepLabels[StepKeys[i]]
    ensures forall i, j :: 0 <= i < j < |StepKeys| ==> StepLabel(StepKeys[i]) != StepLabel(StepKeys[j])
  {
    LabelsInKeyOrder();
    LabelListDistinct();
  }

  /** The labels of `StepLabels`, listed in the order of `StepKeys`. */
  const LabelList: seq<string> := [
    "Data Entry", "Quality Control", "LOD Handling", "Normalization", "Batch Effect",
    "Outlier Detection", "Transformation", "Exploratory", "Group Comparison",
    "Statistical Modeling", "Multiple Testing", "Power Analysis", "Sensitivity",
    "Visualization", "Export"
  ]

  lemma LabelsInKeyOrder()
    ensures |LabelList| == |StepKeys|
    ensures forall i :: 0 <= i < |StepKeys| ==> StepKeys[i] in StepLabels && StepLabels[StepKeys[i]] == LabelList[i] && LabelList[i] != ""
  {
  }

  lemma LabelListDistinct()
    ensures forall i, j :: 0 <= i < j < |LabelList| ==> LabelList[i] != LabelList[j]
  {
  }

  /** `p.pipeline_data?.[step] && Object.keys(p.pipeline_data[step]).length > 0`. */
  predicate UsesStep(p: PipelineResponse, step: string) {
    step in p.pipelineData && Truthy(p.pipelineData[step]) && KeyCount(p.pipelineData[step]) > 0
  }

  /** The truthiness test only guards `Object.keys`: a pipeline counts for a
      step iff the section is present and has at least one key. */
  lemma UsesStepIffKeys(p: PipelineResponse, step: string)
    ensures UsesStep(p, step) <==> step in p.pipelineData && KeyCount(p.pipelineData[step]) > 0
  {
  }

  /** The number of pipelines that use `step`. */
  function StepCount(pipelines: seq<PipelineResponse>, step: string): (n: nat)
    ensures n <= |pipelines|
    ensures n == 0 <==> forall i :: 0 <= i < |pipelines| ==> !UsesStep(pipelines[i], step)
    ensures n == |pipelines| <==> forall i :: 0 <= i < |pipelines| ==> UsesStep(pipelines[i], step)
    decreases |pipelines|
  {
    if pipelines == [] then 0
    else
      var rest := StepCount(pipelines[1..], step);
      assert forall i :: 1 <= i < |pipelines| ==> pipelines[i] == pipelines[1..][i - 1];
      (if UsesStep(pipelines[0], step) then 1 else 0) + rest
  }

  /** One bar of the step-usage chart. */
  datatype StepUsage = StepUsage(name: string, count: nat)

  /** `steps.map(...)`: one entry per key, in the order of the keys. */
  function UsageEntries(pipelines: seq<PipelineResponse>): (r: seq<StepUsage>)
    ensures |r| == |StepKeys|
    ensures forall i :: 0 <= i < |r| ==>
      r[i].name == StepLabel(StepKeys[i]) && r[i].count == StepCount(pipelines, StepKeys[i])
  {
    seq(|StepKeys|, i requires 0 <= i < |StepKeys| => StepUsage(StepLabel(StepKeys[i]), StepCount(pipelines, StepKeys[i])))
  }

  /** `.filter(item => item.count > 0)`. */
  function PositiveOnly(xs: seq<StepUsage>): (r: seq<StepUsage>)
    ensures forall i :: 0 <= i < |r| ==> r[i].count > 0
    ensures forall x :: x in r <==> x in xs && x.count > 0
    ensures |r| <= |xs|
    decreases |xs|
  {
    if xs == [] then []
    else
      var rest := PositiveOnly(xs[1..]);
      assert forall x :: x in xs[1..] ==> x in xs;
      if xs[0].count > 0 then [xs[0]] + rest else rest
  }

  /** Counts are non-increasing from first to last. */
  predicate SortedDesc(xs: seq<StepUsage>) {
    forall i, j :: 0 <= i < j < |xs| ==> xs[i].count >= xs[j].count
  }

  /** The entries of `xs` with count `c`, in their order in `xs`. */
  function WithCount(xs: seq<StepUsage>, c: nat): seq<StepUsage>
    decreases |xs|
  {
    if xs == [] then []
    else (if xs[0].count == c then [xs[0]] else []) + WithCount(xs[1..], c)
  }

  /** Places `e` in front of the first entry of the sorted `xs` whose count is
      not larger, so `e` precedes every entry of equal count. */
  function Insert(e: StepUsage, xs: seq<StepUsage>): (r: seq<StepUsage>)
    requires SortedDesc(xs)
    ensures SortedDesc(r)
    ensures multiset(r) == multiset{e} + multiset(xs)
    ensures |r| == |xs| + 1
    decreases |xs|
  {
    if xs == [] || e.count >= xs[0].count then [e] + xs
    else
      var rest := Insert(e, xs[1..]);
      ConsSorted(xs[0], rest, e, xs[1..]);
      assert xs == [xs[0]] + xs[1..];
      [xs[0]] + rest
  }

  /** An entry that outranks `e` and every entry of `tail` can head any sorted
      arrangement of `e` and `tail`. */
  lemma ConsSorted(h: StepUsage, rest: seq<StepUsage>, e: StepUsage, tail: seq<StepUsage>)
    requires SortedDesc(rest) && multiset(rest) == multiset{e} + multiset(tail)
    requires h.count > e.count
    requires forall j :: 0 <= j < |tail| ==> h.count >= tail[j].count
    ensures SortedDesc([h] + rest)
  {
    forall j | 0 <= j < |rest| ensures h.count >= rest[j].count {
      assert rest[j] in multiset(rest);
      if rest[j] != e {
        assert rest[j] in multiset(tail);
        var k :| 0 <= k < |tail| && tail[k] == rest[j];
      }
    }
  }

  /** `.sort((a, b) => b.count - a.count)`: `Array.prototype.sort` is stable, so
      this is a stable sort by descending count. */
  function SortByCountDesc(xs: seq<StepUsage>): (r: seq<StepUsage>)
    ensures SortedDesc(r)
    ensures multiset(r) == multiset(xs)
    ensures |r| == |xs|
    decreases |xs|
  {
    if xs == [] then []
    else
      assert xs == [xs[0]] + xs[1..];
      Insert(xs[0], SortByCountDesc(xs[1..]))
  }

  /** Inserting `e` adds it in front of the entries of its own count and leaves
      every other count's entries as they were. */
  lemma {:induction false} WithCountInsert(e: StepUsage, xs: seq<StepUsage>, c: nat)
    requires SortedDesc(xs)
    ensures WithCount(Insert(e, xs), c) == (if e.count == c then [e] else []) + WithCount(xs, c)
    decreases |xs|
  {
    if xs == [] || e.count >= xs[0].count {
      assert ([e] + xs)[1..] == xs;
    } else {
      var rest := Insert(e, xs[1..]);
      WithCountInsert(e, xs[1..], c);
      assert ([xs[0]] + rest)[1..] == rest;
    }
  }

  /** Stability: sorting keeps the entries of each count in their original order. */
  lemma {:induction false} SortIsStable(xs: seq<StepUsage>, c: nat)
    ensures WithCount(SortByCountDesc(xs), c) == WithCount(xs, c)
    decreases |xs|
  {
    if xs != [] {
      SortIsStable(xs[1..], c);
      WithCountInsert(xs[0], SortByCountDesc(xs[1..]), c);
    }
  }

  /** Dropping zero counts does not touch the entries of a positive count. */
  lemma {:induction false} WithCountPositiveOnly(xs: seq<StepUsage>, c: nat)
    requires c > 0
    ensures WithCount(PositiveOnly(xs), c) == WithCount(xs, c)
    decreases |xs|
  {
    if xs != [] {
      WithCountPositiveOnly(xs[1..], c);
      var rest := PositiveOnly(xs[1..]);
      if xs[0].count > 0 {
        assert ([xs[0]] + rest)[1..] == rest;
      }
    }
  }

  /** The whole ranking before it is cut to ten entries. */
  function Ranking(pipelines: seq<PipelineResponse>): (r: seq<StepUsage>)
    ensures SortedDesc(r)
    ensures forall i :: 0 <= i < |r| ==> r[i].count > 0
    ensures forall x :: x in r <==> x in UsageEntries(pipelines) && x.count > 0
  {
    var positive := PositiveOnly(UsageEntries(pipelines));
    var r := SortByCountDesc(positive);
    SameMembers(r, positive);
    r
  }

  /** Two arrangements of one multiset hold the same entries. */
  lemma SameMembers(a: seq<StepUsage>, b: seq<StepUsage>)
    requires multiset(a) == multiset(b)
    ensures forall x :: x in a <==> x in b
  {
    forall x ensures x in a <==> x in b {
      assert x in a <==> x in multiset(a);
      assert x in b <==> x in multiset(b);
    }
  }

  /** `getStepUsage()`: at most ten entries, all used at least once, in
      non-increasing order of count, being the first entries of the ranking. */
  function GetStepUsage(pipelines: seq<PipelineResponse>): (r: seq<StepUsage>)
    ensures |r| <= 10
    ensures |r| == if |Ranking(pipelines)| < 10 then |Ranking(pipelines)| else 10
    ensures r == Ranking(pipelines)[..|r|]
    ensures SortedDesc(r)
    ensures forall i :: 0 <= i < |r| ==> r[i].count > 0
    ensures forall i :: 0 <= i < |r| ==> r[i] in UsageEntries(pipelines)
  {
    TopTen(Ranking(pipelines))
  }

  /** `.slice(0, 10)` of a ranking: its first ten entries, or all of them. */
  function TopTen(ranking: seq<StepUsage>): (r: seq<StepUsage>)
    ensures |r| == if |ranking| < 10 then |ranking| else 10
    ensures r == ranking[..|r|]
    ensures forall i :: 0 <= i < |r| ==> r[i] in ranking
    ensures SortedDesc(ranking) ==> SortedDesc(r)
  {
    if |ranking| <= 10 then ranking else ranking[..10]
  }

  /** Every entry left off the chart is used no more often than any entry on it. */
  lemma OmittedNotMoreUsed(pipelines: seq<PipelineResponse>, e: StepUsage, i: nat)
    requires e in Ranking(pipelines)[|GetStepUsage(pipelines)|..]
    requires i < |GetStepUsage(pipelines)|
    ensures e.count <= GetStepUsage(pipelines)[i].count
  {
    var ranking := Ranking(pipelines);
    var n := |GetStepUsage(pipelines)|;
    var k :| n <= k < |ranking| && ranking[k] == e;
    assert GetStepUsage(pipelines)[i] == ranking[i];
  }

  /** Ties keep the order of the `steps` list: the ranking's entries of any
      one count are the step entries of that count, in step order. */
  lemma TiesInStepOrder(pipelines: seq<PipelineResponse>, c: nat)
    requires c > 0
    ensures WithCount(Ranking(pipelines), c) == WithCount(UsageEntries(pipelines), c)
  {
    SortIsStable(PositiveOnly(UsageEntries(pipelines)), c);
    WithCountPositiveOnly(UsageEntries(pipelines), c);
  }
}
