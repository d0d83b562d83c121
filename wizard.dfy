/** src/pages/Index.tsx: the wizard page. `currentStep` walks through the
    twelve configuration steps and a completion screen; `pipelineState`
    collects the values the step forms report. */
module Wizard {

  /** `steps.length`. */
  const StepCount: nat := 12

  /** `getStepStatus`'s three answers. */
  datatype StepStatus = Completed | Current | Pending

  /** `getStepStatus(stepNumber)` while the wizard is at `currentStep`. */
  function StepStatusOf(currentStep: int, stepNumber: int): (s: StepStatus)
    ensures s == Completed <==> stepNumber < currentStep
    ensures s == Current <==> stepNumber == currentStep
    ensures s == Pending <==> stepNumber > currentStep
  {
    if stepNumber < currentStep then Completed
    else if stepNumber == currentStep then Current
    else Pending
  }

  /** `steps.map((step, index) => getStepStatus(index + 1))`. */
  function StepStatuses(currentStep: int): (r: seq<StepStatus>)
    ensures |r| == StepCount
    ensures forall i :: 0 <= i < StepCount ==> r[i] == StepStatusOf(currentStep, i + 1)
  {
    seq(StepCount, i => StepStatusOf(currentStep, i + 1))
  }

  /** The number of `Current` entries in `s`. */
  function CountCurrent(s: seq<StepStatus>): nat
    decreases |s|
  {
    if s == [] then 0 else (if s[0] == Current then 1 else 0) + CountCurrent(s[1..])
  }

  /** A status list with no `Current` entry counts none. */
  lemma {:induction false} CountCurrentNone(s: seq<StepStatus>)
    requires forall i :: 0 <= i < |s| ==> s[i] != Current
    ensures CountCurrent(s) == 0
    decreases |s|
  {
    if s != [] {
      CountCurrentNone(s[1..]);
    }
  }

  /** A status list whose only `Current` entry is at `k` counts one. */
  lemma {:induction false} CountCurrentOne(s: seq<StepStatus>, k: nat)
    requires k < |s| && s[k] == Current
    requires forall i :: 0 <= i < |s| && i != k ==> s[i] != Current
    ensures CountCurrent(s) == 1
    decreases |s|
  {
    if k == 0 {
      CountCurrentNone(s[1..]);
    } else {
      CountCurrentOne(s[1..], k - 1);
    }
  }

  /** The step list is partitioned: the completed steps are exactly a prefix,
      the pending steps exactly a suffix, and one step is current iff
      `currentStep` names a step. */
  lemma StatusPartition(currentStep: int)
    ensures forall i, j :: 0 <= i < j < StepCount && StepStatuses(currentStep)[j] == Completed ==>
      StepStatuses(currentStep)[i] == Completed
    ensures forall i, j :: 0 <= i < j < StepCount && StepStatuses(currentStep)[i] == Pending ==>
      StepStatuses(currentStep)[j] == Pending
    ensures CountCurrent(StepStatuses(currentStep)) == if 1 <= currentStep <= StepCount then 1 else 0
  {
    var s := StepStatuses(currentStep);
    if 1 <= currentStep <= StepCount {
      CountCurrentOne(s, currentStep - 1);
    } else {
      CountCurrentNone(s);
    }
  }

  /** Past the last step every step reports completed and none current. */
  lemma SummaryAllCompleted(currentStep: int)
    requires currentStep > StepCount
    ensures forall i :: 0 <= i < StepCount ==> StepStatuses(currentStep)[i] == Completed
    ensures CountCurrent(StepStatuses(currentStep)) == 0
  {
    StatusPartition(currentStep);
  }

  /** The completion screen is rendered iff `currentStep > steps.length`. */
  predicate ShowsSummary(currentStep: int) {
    currentStep > StepCount
  }

  /** The values `currentStep` can take: the twelve steps and the completion screen. */
  predicate InRange(currentStep: int) {
    1 <= currentStep <= StepCount + 1
  }

  /** `handleNext` as written: `if (currentStep < steps.length)`. */
  function NextStepAsWritten(currentStep: int): (r: int)
    ensures currentStep < StepCount ==> r == currentStep + 1
    ensures currentStep >= StepCount ==> r == currentStep
  {
    if currentStep < StepCount then currentStep + 1 else currentStep
  }

  /** `handleNext` with the guard `currentStep <= steps.length`, which lets the
      last step's "Complete Pipeline" button open the completion screen. */
  function NextStep(currentStep: int): (r: int)
    ensures currentStep <= StepCount ==> r == currentStep + 1
    ensures currentStep > StepCount ==> r == currentStep
    ensures InRange(currentStep) ==> InRange(r)
  {
    if currentStep <= StepCount then currentStep + 1 else currentStep
  }

  /** `handlePrevious`: `if (currentStep > 1)`. */
  function PreviousStep(currentStep: int): (r: int)
    ensures currentStep > 1 ==> r == currentStep - 1
    ensures currentStep <= 1 ==> r == currentStep
    ensures InRange(currentStep) ==> InRange(r)
  {
    if currentStep > 1 then currentStep - 1 else currentStep
  }

  /** With the corrected guard, from any step Next and then Previous come back to it. */
  lemma NextThenPrevious(k: int)
    requires 1 <= k <= StepCount
    ensures PreviousStep(NextStep(k)) == k
  {
  }

  /** As written, Next then Previous comes back to every step but the last; from
      the last step Next does nothing, so Previous lands one step earlier. */
  lemma AsWrittenNextThenPrevious(k: int)
    requires 1 <= k <= StepCount
    ensures k < StepCount ==> PreviousStep(NextStepAsWritten(k)) == k
    ensures k == StepCount ==> PreviousStep(NextStepAsWritten(k)) == StepCount - 1
  {
  }

  /** The buttons that move `currentStep`. */
  datatype NavAction = Next | Previous | BackToOverview | ReviewConfiguration

  /** `currentStep` after one action, with the corrected Next. */
  function Apply(currentStep: int, a: NavAction): int {
    match a
    case Next => NextStep(currentStep)
    case Previous => PreviousStep(currentStep)
    case BackToOverview => 1
    case ReviewConfiguration => 1
  }

  /** `currentStep` after one action, with Next as written. */
  function ApplyAsWritten(currentStep: int, a: NavAction): int {
    match a
    case Next => NextStepAsWritten(currentStep)
    case Previous => PreviousStep(currentStep)
    case BackToOverview => 1
    case ReviewConfiguration => 1
  }

  function Run(currentStep: int, actions: seq<NavAction>): int
    decreases |actions|
  {
    if actions == [] then currentStep else Run(Apply(currentStep, actions[0]), actions[1..])
  }

  function RunAsWritten(currentStep: int, actions: seq<NavAction>): int
    decreases |actions|
  {
    if actions == [] then currentStep else RunAsWritten(ApplyAsWritten(currentStep, actions[0]), actions[1..])
  }

  /** Every sequence of button presses keeps `currentStep` within 1..13. */
  lemma {:induction false} RunStaysInRange(k: int, actions: seq<NavAction>)
    requires InRange(k)
    ensures InRange(Run(k, actions))
    decreases |actions|
  {
    if actions != [] {
      RunStaysInRange(Apply(k, actions[0]), actions[1..]);
    }
  }

  /** As written, no sequence of button presses from a step reaches the
      completion screen: `currentStep` never leaves 1..12. */
  lemma {:induction false} AsWrittenNeverShowsSummary(k: int, actions: seq<NavAction>)
    requires 1 <= k <= StepCount
    ensures 1 <= RunAsWritten(k, actions) <= StepCount
    ensures !ShowsSummary(RunAsWritten(k, actions))
    decreases |actions|
  {
    if actions != [] {
      AsWrittenNeverShowsSummary(ApplyAsWritten(k, actions[0]), actions[1..]);
    }
  }

  /** As written, pressing "Complete Pipeline" on the last step changes nothing. */
  lemma AsWrittenCompleteIsNoOp()
    ensures NextStepAsWritten(StepCount) == StepCount
    ensures !ShowsSummary(NextStepAsWritten(StepCount))
  {
  }

  /** `n` presses of Next. */
  function Nexts(n: nat): (r: seq<NavAction>)
    ensures |r| == n
    ensures forall i :: 0 <= i < n ==> r[i] == Next
  {
    seq(n, _ => Next)
  }

  /** With the corrected guard, `n` presses of Next from step `k` advance `n`
      steps as long as the completion screen is not passed. */
  lemma {:induction false} NextsAdvance(k: int, n: nat)
    requires 1 <= k && k + n <= StepCount + 1
    ensures Run(k, Nexts(n)) == k + n
    decreases n
  {
    if n > 0 {
      assert Nexts(n)[1..] == Nexts(n - 1);
      NextsAdvance(k + 1, n - 1);
    }
  }

  /** With the corrected guard, twelve presses of Next from the first step
      reach the completion screen. */
  lemma CompletionReachable()
    ensures Run(1, Nexts(StepCount)) == StepCount + 1
    ensures ShowsSummary(Run(1, Nexts(StepCount)))
  {
    NextsAdvance(1, StepCount);
  }

  /** `interface PipelineState`. */
  datatype PipelineState = PipelineState(
    selectedFileTypes: seq<string>,
    additionalRequirements: string,
    selectedQCSteps: seq<string>,
    qualityThreshold: string,
    customQCSteps: string,
    lodMethod: string,
    lodThreshold: string,
    customLODMethod: string,
    normalizationMethod: string,
    selectedBridgingOptions: seq<string>,
    customNormalizationMethod: string,
    selectedAnalysisMethods: seq<string>,
    customAnalysisMethods: string,
    numberOfGroups: string,
    dataType: string,
    timePoints: string,
    selectedModels: seq<string>,
    useMachineLearning: bool,
    selectedTransformations: seq<string>,
    customTransformations: string)

  /** The `useState<PipelineState>` initial value: empty lists, empty strings, false. */
  const InitialState: PipelineState := PipelineState(
    [], "", [], "", "", "", "", "", "", [], "", [], "", "", "", "", [], false, [], "")

  /** The fields of `PipelineState`, one per updater callback. */
  datatype Field =
    | SelectedFileTypes | AdditionalRequirements
    | SelectedQCSteps | QualityThreshold | CustomQCSteps
    | LodMethod | LodThreshold | CustomLODMethod
    | NormalizationMethod | SelectedBridgingOptions | CustomNormalizationMethod
    | SelectedAnalysisMethods | CustomAnalysisMethods
    | NumberOfGroups | DataType | TimePoints | SelectedModels | UseMachineLearning
    | SelectedTransformations | CustomTransformations

  /** A field's value: a list of option ids, a string or a flag. */
  datatype Value = Ids(ids: seq<string>) | Text(text: string) | Flag(flag: bool)

  function Get(st: PipelineState, f: Field): Value {
    match f
    case SelectedFileTypes => Ids(st.selectedFileTypes)
    case AdditionalRequirements => Text(st.additionalRequirements)
    case SelectedQCSteps => Ids(st.selectedQCSteps)
    case QualityThreshold => Text(st.qualityThreshold)
    case CustomQCSteps => Text(st.customQCSteps)
    case LodMethod => Text(st.lodMethod)
    case LodThreshold => Text(st.lodThreshold)
    case CustomLODMethod => Text(st.customLODMethod)
    case NormalizationMethod => Text(st.normalizationMethod)
    case SelectedBridgingOptions => Ids(st.selectedBridgingOptions)
    case CustomNormalizationMethod => Text(st.customNormalizationMethod)
    case SelectedAnalysisMethods => Ids(st.selectedAnalysisMethods)
    case CustomAnalysisMethods => Text(st.customAnalysisMethods)
    case NumberOfGroups => Text(st.numberOfGroups)
    case DataType => Text(st.dataType)
    case TimePoints => Text(st.timePoints)
    case SelectedModels => Ids(st.selectedModels)
    case UseMachineLearning => Flag(st.useMachineLearning)
    case SelectedTransformations => Ids(st.selectedTransformations)
    case CustomTransformations => Text(st.customTransformations)
  }

  /** `v` has the type of field `f`. */
  predicate Fits(f: Field, v: Value) {
    match f
    case SelectedFileTypes | SelectedQCSteps | SelectedBridgingOptions | SelectedAnalysisMethods
       | SelectedModels | SelectedTransformations => v.Ids?
    case UseMachineLearning => v.Flag?
    case _ => v.Text?
  }

  /** `setPipelineState(prev => ({ ...prev, <f>: v }))`: the field gets `v` and
      every other field keeps its value. */
  function Set(st: PipelineState, f: Field, v: Value): (r: PipelineState)
    requires Fits(f, v)
    ensures Get(r, f) == v
    ensures forall g :: g != f ==> Get(r, g) == Get(st, g)
  {
    match f
    case SelectedFileTypes => st.(selectedFileTypes := v.ids)
    case AdditionalRequirements => st.(additionalRequirements := v.text)
    case SelectedQCSteps => st.(selectedQCSteps := v.ids)
    case QualityThreshold => st.(qualityThreshold := v.text)
    case CustomQCSteps => st.(customQCSteps := v.text)
    case LodMethod => st.(lodMethod := v.text)
    case LodThreshold => st.(lodThreshold := v.text)
    case CustomLODMethod => st.(customLODMethod := v.text)
    case NormalizationMethod => st.(normalizationMethod := v.text)
    case SelectedBridgingOptions => st.(selectedBridgingOptions := v.ids)
    case CustomNormalizationMethod => st.(customNormalizationMethod := v.text)
    case SelectedAnalysisMethods => st.(selectedAnalysisMethods := v.ids)
    case CustomAnalysisMethods => st.(customAnalysisMethods := v.text)
    case NumberOfGroups => st.(numberOfGroups := v.text)
    case DataType => st.(dataType := v.text)
    case TimePoints => st.(timePoints := v.text)
    case SelectedModels => st.(selectedModels := v.ids)
    case UseMachineLearning => st.(useMachineLearning := v.flag)
    case SelectedTransformations => st.(selectedTransformations := v.ids)
    case CustomTransformations => st.(customTransformations := v.text)
  }

  /** Every value `Get` reports has its field's type. */
  lemma GetFits(st: PipelineState, f: Field)
    ensures Fits(f, Get(st, f))
  {
  }

  /** Writing back a field's own value changes nothing. */
  lemma SetOwnValue(st: PipelineState, f: Field)
    ensures Fits(f, Get(st, f))
    ensures Set(st, f, Get(st, f)) == st
  {
    GetFits(st, f);
  }

  /** The second of two updates of one field wins. */
  lemma SetTwice(st: PipelineState, f: Field, v: Value, w: Value)
    requires Fits(f, v) && Fits(f, w)
    ensures Set(Set(st, f, v), f, w) == Set(st, f, w)
  {
  }

  /** The page's state: the step shown and the collected values. */
  class WizardController {
    var currentStep: int
    var pipelineState: PipelineState

    ghost predicate Valid()
      reads this
    {
      InRange(currentStep)
    }

    /** `useState(1)` and the initial `pipelineState`. */
    constructor ()
      ensures Valid()
      ensures currentStep == 1 && pipelineState == InitialState
    {
      currentStep := 1;
      pipelineState := InitialState;
    }

    /** `handleNext`, with the guard that admits the completion screen. */
    method HandleNext()
      requires Valid()
      modifies this`currentStep
      ensures Valid()
      ensures currentStep == NextStep(old(currentStep))
    {
      if currentStep <= StepCount {
        currentStep := currentStep + 1;
      }
    }

    /** `handlePrevious`. */
    method HandlePrevious()
      requires Valid()
      modifies this`currentStep
      ensures Valid()
      ensures currentStep == PreviousStep(old(currentStep))
    {
      if currentStep > 1 {
        currentStep := currentStep - 1;
      }
    }

    /** "Back to Pipeline Overview": `setCurrentStep(1)`. */
    method BackToOverview()
      modifies this`currentStep
      ensures Valid()
      ensures currentStep == 1
    {
      currentStep := 1;
    }

    /** "Review Configuration" on the completion screen: `setCurrentStep(1)`. */
    method ReviewConfiguration()
      modifies this`currentStep
      ensures Valid()
      ensures currentStep == 1
    {
      currentStep := 1;
    }

    /** One of the updater callbacks passed to the step forms. */
    method Update(f: Field, v: Value)
      requires Fits(f, v)
      modifies this`pipelineState
      ensures pipelineState == Set(old(pipelineState), f, v)
      ensures Get(pipelineState, f) == v
      ensures forall g :: g != f ==> Get(pipelineState, g) == Get(old(pipelineState), g)
    {
      pipelineState := Set(pipelineState, f, v);
    }

    /** `getStepStatus(stepNumber)`. */
    function Status(stepNumber: int): (s: StepStatus)
      reads this
      ensures s == Completed <==> stepNumber < currentStep
      ensures s == Current <==> stepNumber == currentStep
      ensures s == Pending <==> stepNumber > currentStep
    {
      StepStatusOf(currentStep, stepNumber)
    }

    /** `currentStep > steps.length`. */
    function SummaryShown(): (b: bool)
      reads this
      ensures b <==> ShowsSummary(currentStep)
      ensures b ==> forall i :: 1 <= i <= StepCount ==> Status(i) == Completed
    {
      currentStep > StepCount
    }
  }
}
