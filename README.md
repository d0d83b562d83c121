# alamar-argo-flow, modelled in Dafny

This project models the logic of the Alamar Argo pipeline-configuration wizard. The wizard is a React front end plus one Supabase edge function. The model covers:

- **Wizard page** (`src/pages/Index.tsx`, module `Wizard`). There are twelve configuration steps and a completion screen. `currentStep` is a field of the class `WizardController`, and Next, Previous and the two reset buttons are its methods. The step-status classification is a function. `pipelineState` is a record, and each updater callback replaces exactly one of its fields.
- **Checkbox lists** (module `Selection`, instantiated by one module per form component). The forms edit their ordered lists of option ids in two shapes. The checked-flag shape `checked ? [...ids, id] : ids.filter(x => x !== id)` never tests membership. The toggle shape `ids.includes(id) ? filter : append` flips membership. Each form module also holds the form's display conditions: a custom card shown iff "custom" is selected, and the time-points input enabled only for longitudinal data.
- **Dashboard page** (`src/pages/Dashboard.tsx`, module `Dashboard`). It covers the four statistics cards and the sixteen-check progress percentage `getStepProgress`.
- **Summary page** (`src/pages/Summary.tsx`, module `Summary`). It covers the statistics, the status pie data, the completion rate, and the top-ten "most common analysis steps" ranking: filter, stable descending sort, take ten.
- **Save endpoint** (`supabase/functions/save-pipeline/index.ts`, module `SavePipeline`). It covers the authentication gates, the owner-scoped update or the insert into the `pipeline_responses` table, the status default and the reply codes. The table is a map field of the class `PipelineTable`. Its method `Serve` is proved equal to the pure specification `Handle`, and `Handle` carries the properties.
- **Identity form** (`src/components/UserInfoForm.tsx`, module `UserInfoForm`). It covers the trim-based submit guard, the trimmed values handed on, and the disabled button.

The JavaScript semantics the pages rely on are written out in two shared modules:
- `JsString` models `String.prototype.trim` with its whitespace and line-terminator set.
- `Json` models JSON values, truthiness, `?.`, `Object.keys(..).length`, `?.length` and `x > 0`. `x > 0` goes through ToPrimitive and ToNumber, including numeric strings and one-element arrays.

`Math.round(p / q * 100)` is modelled as integer half-up rounding of the exact quotient, `PipelineRows.RoundHalfUp`. For the Dashboard's k/16 this is what the page computes, because k/16 and k·6.25 are binary fractions. For Summary's completed/total the double arithmetic can land just below a half, so there the model can be one point higher (see `Summary.CompletionRate` under "## Left out").

Where the code and the design notes disagree, the model follows the code:
- Steps are numbered 1..12 with 13 for the completion screen, not −1..N.
- The third status is `pending`, not `upcoming`.
- Next and Previous do not save, and there is no jump-to-step.
- The Summary page also counts the status `in_progress`.
- The Summary page looks up the section keys `qcStep` and `exportData`, while the Dashboard reads `qc` and `export`. Both are modelled literally.

`getStepProgress`'s sixteen consecutive `if` statements are modelled as one loop over the table `Dashboard.ProgressChecks`. The table lists the same sixteen (section, field, test) triples in the same order.

## Model

| member | source | states |
|---|---|---|
| JsString.TrimStart | src/components/UserInfoForm.tsx:18 | the result is a suffix of the input; all dropped characters are trimmable, and the result is empty or starts with a non-whitespace character |
| JsString.TrimEnd | src/components/UserInfoForm.tsx:18 | the result is a prefix of the input; all dropped characters are trimmable, and the result is empty or ends with a non-whitespace character |
| JsString.Trim | src/components/UserInfoForm.tsx:18-19 | `s.trim()` is the slice of `s` left after removing a whitespace-only prefix and a whitespace-only suffix, and has no whitespace at either end; it is empty iff every character of `s` is whitespace |
| JsString.TrimIdempotent | src/components/UserInfoForm.tsx:19 | trimming twice gives the same string as trimming once |
| Json.Member | src/pages/Dashboard.tsx:156 | `o?.[key]` is defined iff `o` is an object holding `key`, and then it is that member's value |
| Selection.AddId | src/components/forms/DataEntryForm.tsx:31 | `[...ids, id]` keeps all earlier entries in order and puts `id` last; the multiset gains exactly one `id`, present or not |
| Selection.RemoveAll | src/components/forms/DataEntryForm.tsx:33 | `ids.filter(x => x !== id)` is an order-preserving subsequence with no `id` left, every other id with its multiplicity; the list never grows |
| Selection.Toggle | src/components/forms/ExploratoryAnalysisForm.tsx:44-49 | a present id is removed entirely and an absent one appended; membership of `id` flips and that of every other id is unchanged |
| Selection.Change | src/components/forms/DataEntryForm.tsx:29-35 | checked appends and unchecked removes every occurrence; `id` is listed afterwards iff checked, and other ids keep their membership |
| Selection.RemoveAllAppended | src/components/forms/DataEntryForm.tsx:31-33 | removing an id appended at the end is the same as removing it from the list before |
| Selection.RemoveAllAbsent | src/components/forms/DataEntryForm.tsx:33 | removing an id that does not occur leaves the list as it was |
| Selection.ToggleTwiceAbsent | src/components/forms/ExploratoryAnalysisForm.tsx:45-47 | toggling an absent id twice restores the original list |
| Selection.ToggleTwicePresent | src/components/forms/ExploratoryAnalysisForm.tsx:45-47 | toggling a present id twice does not restore the list: its occurrences are replaced by one at the end |
| Selection.ToggleKeepsNoDup | src/components/forms/ExploratoryAnalysisForm.tsx:45-47 | toggling keeps a duplicate-free list duplicate-free |
| Selection.CheckPresentDuplicates | src/components/forms/DataEntryForm.tsx:31 | checking an id that is already listed creates a duplicate |
| Selection.CheckUncheckAbsent | src/components/forms/DataEntryForm.tsx:31-33 | checking then unchecking an absent id restores the original list |
| Selection.UncheckKeepsNoDup | src/components/forms/DataEntryForm.tsx:33 | unchecking keeps a duplicate-free list duplicate-free |
| Selection.ShowsCustomAfterChange | src/components/forms/OutlierDetectionForm.tsx:180 | after a checkbox edit, "custom" is selected iff the edit checked it, or, for another id, iff it was selected before |
| PipelineRows.Statuses | src/pages/Dashboard.tsx:83-84 | one status per row, in row order |
| PipelineRows.UserNames | src/pages/Dashboard.tsx:85 | `rows.map(r => r.user_name)`: one name per row, in row order |
| PipelineRows.UserIds | src/pages/Summary.tsx:63 | `pipelines.map(p => p.user_id)`: one id per row, in row order |
| PipelineRows.CountStatus | src/pages/Dashboard.tsx:83-84 | `filter(r => r.status === s).length` is the multiplicity of `s` among the statuses, at most the row count |
| PipelineRows.ThreeStatusesBounded | src/pages/Summary.tsx:60-62 | counts of three distinct statuses add up to at most the row count |
| PipelineRows.TwoStatusesBounded | src/pages/Dashboard.tsx:83-84 | counts of two distinct statuses add up to at most the row count |
| PipelineRows.DistinctCount | src/pages/Dashboard.tsx:85 | `new Set(xs).size` is the number of distinct values; it is at most `xs`'s length and zero iff `xs` is empty |
| PipelineRows.DistinctBounded | src/pages/Summary.tsx:63 | the set of values of a list is no larger than the list |
| PipelineRows.RoundHalfUp | src/pages/Dashboard.tsx:173 | `Math.round(num / den)`: the result lies within half a unit of `num / den`, with halves rounded up |
| PipelineRows.RoundHalfUpUnique | src/pages/Dashboard.tsx:173 | any integer within half a unit of `num / den` (halves up) is the rounded value |
| PipelineRows.PercentBounded | src/pages/Summary.tsx:168 | the rounded percentage of a part no larger than the whole is at most 100 |
| Dashboard.ComputeStats | src/pages/Dashboard.tsx:82-85 | all zeros without data. Otherwise: the row count, the exact counts of `completed` and `draft`, and the distinct `user_name` count. completed + draft ≤ total, unique ≤ total, and unique = 0 iff total = 0 |
| Dashboard.Outcomes | src/pages/Dashboard.tsx:155-171 | one entry per check, in the page's order, true iff that check passes |
| Dashboard.CountTrue | src/pages/Dashboard.tsx:153-171 | `completedSteps`, the number of passed checks, is at most the number of checks |
| Dashboard.CountTrueExtremes | src/pages/Dashboard.tsx:153-171 | the count is zero iff no entry is true, and full iff every entry is |
| Dashboard.OutcomesExtremes | src/pages/Dashboard.tsx:153-171 | no check passes iff the count is zero, and every check passes iff the count is the number of checks |
| Dashboard.ProgressPercent | src/pages/Dashboard.tsx:173 | `Math.round(k / 16 * 100)` equals `(100k + 8) div 16`; it lies in 0..100, is 0 iff k = 0 and 100 iff k = 16 |
| Dashboard.ProgressMonotone | src/pages/Dashboard.tsx:173 | more satisfied checks never give a lower percentage |
| Dashboard.GetStepProgress | src/pages/Dashboard.tsx:151-174 | the result is the rounded share of the sixteen checks that hold. It is in 0..100, 0 iff no check holds and 100 iff all do; the group check is `numberOfGroups > 0`, the others `?.length > 0` |
| Dashboard.MissingSectionFails | src/pages/Dashboard.tsx:156-171 | a missing section, a non-object section or a missing field never passes its check |
| Summary.ComputeStats | src/pages/Summary.tsx:58-64 | the row count and the exact counts of `completed`, `in_progress` and `draft`, which sum to at most the total. The distinct `user_id` count is at most the total and zero iff there are no rows |
| Summary.PositiveSlices | src/pages/Summary.tsx:71 | `filter(item => item.value > 0)` keeps exactly the slices with a positive value and never adds one |
| Summary.PositiveSlicesKeepRank | src/pages/Summary.tsx:67-71 | filtering keeps the slices in the order Completed, In Progress, Draft |
| Summary.StatusData | src/pages/Summary.tsx:67-71 | each of Completed, In Progress and Draft, with its colour, is present iff its count is positive; nothing else is present, and the order is Completed, In Progress, Draft |
| Summary.CompletionRate | src/pages/Summary.tsx:168 | 0 without rows; otherwise the nearest whole percentage of completed rows (halves up). It lies in 0..100, is 0 with no completed row and 100 when all are completed |
| Summary.CompletionRateOfStats | src/pages/Summary.tsx:168 | the rate of the page's own statistics is always defined and at most 100 |
| Summary.StepLabel | src/pages/Summary.tsx:117 | `stepLabels[step] \|\| step` is never empty for a non-empty key and is the raw key for an unlabelled one |
| Summary.StepLabelsDistinct | src/pages/Summary.tsx:89-112 | every one of the fifteen keys has its own label, and no two labels coincide |
| Summary.UsesStepIffKeys | src/pages/Summary.tsx:115 | a pipeline counts for a step iff `pipeline_data[step]` exists and has at least one key |
| Summary.StepCount | src/pages/Summary.tsx:115 | the count is at most the number of pipelines; it is zero iff no pipeline uses the step and full iff all do |
| Summary.UsageEntries | src/pages/Summary.tsx:114-119 | one entry per key, in key order, labelled and counted as above |
| Summary.PositiveOnly | src/pages/Summary.tsx:120 | `filter(item => item.count > 0)` keeps exactly the entries with a positive count |
| Summary.Insert | src/pages/Summary.tsx:120 | inserting into a list sorted by descending count keeps it sorted and adds exactly that entry |
| Summary.SortByCountDesc | src/pages/Summary.tsx:120 | `sort((a, b) => b.count - a.count)` is sorted by descending count and is a permutation of its input |
| Summary.WithCountInsert | src/pages/Summary.tsx:120 | insertion puts the new entry before all entries of its own count and leaves every other count's entries alone |
| Summary.SortIsStable | src/pages/Summary.tsx:120 | sorting keeps the entries of every count in their input order |
| Summary.WithCountPositiveOnly | src/pages/Summary.tsx:120 | dropping zero counts leaves the entries of every positive count as they were |
| Summary.Ranking | src/pages/Summary.tsx:114-120 | sorted by descending count, all counts positive, and holding exactly the positive step entries |
| Summary.TopTen | src/pages/Summary.tsx:120 | `slice(0, 10)` is the first min(10, n) entries of the ranking, all taken from it, and stays sorted when the ranking is |
| Summary.GetStepUsage | src/pages/Summary.tsx:88-121 | at most ten entries, namely the first min(10, n) of the ranking. They are sorted by descending count, have positive counts, and each is one of the step entries |
| Summary.OmittedNotMoreUsed | src/pages/Summary.tsx:120 | an entry cut off by `slice(0, 10)` is used no more often than any entry shown |
| Summary.TiesInStepOrder | src/pages/Summary.tsx:89-120 | for every positive count, the ranking's entries with that count are the step entries with that count, in the order of `steps` |
| SavePipeline.IndexFrom | supabase/functions/save-pipeline/index.ts:39 | the first occurrence of the pattern from a position on, or none at all |
| SavePipeline.Token | supabase/functions/save-pipeline/index.ts:39 | `replace('Bearer ', '')` leaves a header without `Bearer ` unchanged and otherwise removes exactly the first occurrence, wherever it is, so the token is seven characters shorter |
| SavePipeline.BearerTokenIsRest | supabase/functions/save-pipeline/index.ts:39 | a header `Bearer <jwt>` yields exactly `<jwt>` |
| SavePipeline.Caller | supabase/functions/save-pipeline/index.ts:29-46 | a caller is known exactly when the request is not OPTIONS, has a non-empty Authorization header, and `getUser` on its token returns a user; the caller is that user's id |
| SavePipeline.StoredStatus | supabase/functions/save-pipeline/index.ts:71 | `status \|\| 'draft'` is always truthy: the request's status when truthy, otherwise `'draft'` |
| SavePipeline.Target | supabase/functions/save-pipeline/index.ts:75-76 | a row is selected iff its id is `pipelineId` and its owner is the caller |
| SavePipeline.ThrownMessage | supabase/functions/save-pipeline/index.ts:119 | an `Error` contributes its message; anything else becomes `'Unknown error'` |
| SavePipeline.Updated | supabase/functions/save-pipeline/index.ts:67-78 | the update sets `pipeline_data`, `status \|\| 'draft'`, `user_name` and `updated_at`, and keeps the id and the owner |
| SavePipeline.Inserted | supabase/functions/save-pipeline/index.ts:93-102 | the insert stores the caller as owner, with the given `user_name` and `pipeline_data` and `status \|\| 'draft'` |
| SavePipeline.Handle | supabase/functions/save-pipeline/index.ts:9-126 | OPTIONS is answered first (200, no body, table untouched). No header gives 401 'No authorization header'; failed verification gives 401 'Unauthorized'. Every non-200 reply leaves the table unchanged, and no row is deleted. A changed row is the caller's row named by `pipelineId`; an inserted row is owned by the caller. The saved row is the reply's data, with the status default. 404 'Pipeline not found' only when no owned row matched. Past authentication, each path's reply and table are stated in full: an unreadable or null body gives 500 with a runtime error; a store fault gives 500 with its message; a falsy `pipelineId` inserts the caller's row under the new id; a truthy one replaces the caller's matching row with its update, or else gives 404 or the zero-rows error |
| SavePipeline.UpdateTouchesOnlyTarget | supabase/functions/save-pipeline/index.ts:66-79 | on the update path no row is added, and every row other than `pipelineId`'s is untouched |
| SavePipeline.OthersRowsUntouched | supabase/functions/save-pipeline/index.ts:75-76 | a row owned by someone other than the caller never changes |
| SavePipeline.PipelineTable.Serve | supabase/functions/save-pipeline/index.ts:9-126 | the handler's early-return steps give the reply and the new table that `Handle` specifies |
| UserInfoForm.Submission | src/components/UserInfoForm.tsx:16-21 | it submits iff the name has a non-whitespace character; the values passed on are both trimmed, and the name is non-empty |
| UserInfoForm.Disabled | src/components/UserInfoForm.tsx:76 | the button is disabled iff the name is all whitespace |
| UserInfoForm.DisabledIffNoSubmission | src/components/UserInfoForm.tsx:76 | the disabled condition is exactly the negation of the submit guard |
| UserInfoForm.SubmittedValuesStable | src/components/UserInfoForm.tsx:19 | trimming the submitted name or e-mail again changes nothing |
| UserInfoForm.EmailIsOptional | src/components/UserInfoForm.tsx:18-19 | whether anything is submitted does not depend on the e-mail, and an empty e-mail still allows submission |
| UserInfoForm.Form.constructor | src/components/UserInfoForm.tsx:13-14 | both inputs start empty |
| UserInfoForm.Form.SetName | src/components/UserInfoForm.tsx:45 | the name becomes the typed value and the e-mail is kept |
| UserInfoForm.Form.SetEmail | src/components/UserInfoForm.tsx:62 | the e-mail becomes the typed value and the name is kept |
| UserInfoForm.Form.HandleSubmit | src/components/UserInfoForm.tsx:16-21 | `onSubmit` receives `Submission(name, email)`, and only when the button is enabled |
| UserInfoForm.Form.SubmitDisabled | src/components/UserInfoForm.tsx:76 | the button is disabled exactly when the current name is whitespace only, which is `Disabled` of the name |
| Wizard.StepStatusOf | src/pages/Index.tsx:210-214 | `completed` iff the step is before `currentStep`, `current` iff it is `currentStep`, `pending` iff it is after |
| Wizard.StepStatuses | src/pages/Index.tsx:266-268 | one status per step, step `i + 1` at index `i` |
| Wizard.StatusPartition | src/pages/Index.tsx:210-214 | completed steps form a prefix and pending steps a suffix; exactly one step is current when `currentStep` is in 1..12, none otherwise |
| Wizard.SummaryAllCompleted | src/pages/Index.tsx:287 | past the last step every step is completed and none is current |
| Wizard.NextStepAsWritten | src/pages/Index.tsx:198-202 | `handleNext` as written adds one only below step 12 |
| Wizard.NextStep | src/pages/Index.tsx:198-202 | the corrected Next adds one up to and including step 12 and keeps `currentStep` in 1..13 |
| Wizard.PreviousStep | src/pages/Index.tsx:204-208 | Previous subtracts one only above step 1 and keeps `currentStep` in 1..13 |
| Wizard.NextThenPrevious | src/pages/Index.tsx:198-208 | with the corrected guard, from any step 1..12 Next then Previous returns to it |
| Wizard.AsWrittenNextThenPrevious | src/pages/Index.tsx:198-208 | with the guard as written, Next then Previous returns to steps 1..11, but from step 12 it lands on step 11 |
| Wizard.RunStaysInRange | src/pages/Index.tsx:198-208 | with the corrected guard, any sequence of button presses keeps `currentStep` in 1..13 (as written it stays in 1..12, see `Wizard.AsWrittenNeverShowsSummary`) |
| Wizard.AsWrittenNeverShowsSummary | src/pages/Index.tsx:198-202 | with the guard as written, no sequence of presses from a step leaves 1..12, so the completion screen never shows |
| Wizard.AsWrittenCompleteIsNoOp | src/pages/Index.tsx:199 | with the guard as written, Next on step 12 changes nothing |
| Wizard.NextsAdvance | src/pages/Index.tsx:198-202 | with the corrected guard, n presses of Next advance n steps until the completion screen |
| Wizard.CompletionReachable | src/pages/Index.tsx:287 | with the corrected guard, twelve presses of Next from step 1 reach the completion screen |
| Wizard.Set | src/pages/Index.tsx:81-167 | an updater gives its field the new value and every other field keeps its value |
| Wizard.GetFits | src/pages/Index.tsx:13-47 | every field value has its field's type |
| Wizard.SetOwnValue | src/pages/Index.tsx:81-167 | writing back a field's own value changes nothing |
| Wizard.SetTwice | src/pages/Index.tsx:81-167 | of two updates of one field the later wins |
| Wizard.WizardController.constructor | src/pages/Index.tsx:50-72 | the wizard starts at step 1 with the initial state: empty lists, empty strings, `false` |
| Wizard.WizardController.HandleNext | src/pages/Index.tsx:198-202 | `currentStep` becomes the corrected Next of its old value and stays in 1..13 |
| Wizard.WizardController.HandlePrevious | src/pages/Index.tsx:204-208 | `currentStep` becomes Previous of its old value and stays in 1..13 |
| Wizard.WizardController.BackToOverview | src/pages/Index.tsx:257 | `currentStep` becomes 1 whatever it was |
| Wizard.WizardController.ReviewConfiguration | src/pages/Index.tsx:296 | `currentStep` becomes 1 whatever it was |
| Wizard.WizardController.Update | src/pages/Index.tsx:81-167 | the named field gets the value and every other field of `pipelineState` is unchanged |
| Wizard.WizardController.Status | src/pages/Index.tsx:210-214 | `getStepStatus` against the controller's `currentStep`: completed before it, current at it, pending after it |
| Wizard.WizardController.SummaryShown | src/pages/Index.tsx:287 | the completion screen shows iff `currentStep > 12`, and then every step reports completed |
| DataEntryForm.HandleFileTypeChange | src/components/forms/DataEntryForm.tsx:29-35 | checked: the list gains `fileTypeId` at the end, earlier entries in order; unchecked: every occurrence of `fileTypeId` goes, the rest keep order and multiplicity; `fileTypeId` is listed iff checked; other ids keep their membership; no other value changes |
| DataEntryForm.FileTypeCheckThenUncheck | src/components/forms/DataEntryForm.tsx:29-35 | checking then unchecking an entry absent from `selectedFileTypes` gives back the same values |
| DataEntryForm.FileTypeCheckListedDuplicates | src/components/forms/DataEntryForm.tsx:29-35 | checking an entry already in `selectedFileTypes` still grows it by one and leaves a duplicate |
| DataEntryForm.SetAdditionalRequirements | src/components/forms/DataEntryForm.tsx:78 | `additionalRequirements` becomes exactly the given value, replacing the old one whole; no other value changes |
| QCForm.HandleQCStepChange | src/components/forms/QCForm.tsx:34-40 | checked: the list gains `stepId` at the end, earlier entries in order; unchecked: every occurrence of `stepId` goes, the rest keep order and multiplicity; `stepId` is listed iff checked; other ids keep their membership; no other value changes |
| QCForm.QCStepCheckThenUncheck | src/components/forms/QCForm.tsx:34-40 | checking then unchecking an entry absent from `selectedQCSteps` gives back the same values |
| QCForm.QCStepCheckListedDuplicates | src/components/forms/QCForm.tsx:34-40 | checking an entry already in `selectedQCSteps` still grows it by one and leaves a duplicate |
| QCForm.SetQualityThreshold | src/components/forms/QCForm.tsx:86 | `qualityThreshold` becomes exactly the given value, replacing the old one whole; no other value changes |
| QCForm.SetCustomQCSteps | src/components/forms/QCForm.tsx:102 | `customQCSteps` becomes exactly the given value, replacing the old one whole; no other value changes |
| NormalizationForm.HandleBridgingOptionChange | src/components/forms/NormalizationForm.tsx:65-71 | checked: the list gains `option` at the end, earlier entries in order; unchecked: every occurrence of `option` goes, the rest keep order and multiplicity; `option` is listed iff checked; other ids keep their membership; no other value changes |
| NormalizationForm.BridgingOptionCheckThenUncheck | src/components/forms/NormalizationForm.tsx:65-71 | checking then unchecking an entry absent from `selectedBridgingOptions` gives back the same values |
| NormalizationForm.BridgingOptionCheckListedDuplicates | src/components/forms/NormalizationForm.tsx:65-71 | checking an entry already in `selectedBridgingOptions` still grows it by one and leaves a duplicate |
| NormalizationForm.SetMethod | src/components/forms/NormalizationForm.tsx:79-81 | `selectedMethod` becomes exactly the given value, replacing the old one whole; no other value changes |
| NormalizationForm.ShowsCustomMethodAfterEdits | src/components/forms/NormalizationForm.tsx:129 | the custom-method textarea is shown iff the chosen `selectedMethod` is 'custom'; a checkbox edit never changes it |
| ExploratoryAnalysisForm.HandleMethodToggle | src/components/forms/ExploratoryAnalysisForm.tsx:44-49 | a listed `methodId` is removed entirely, the rest in order; an unlisted one is appended at the end; membership of `methodId` flips and that of every other id is unchanged; no other value changes |
| ExploratoryAnalysisForm.MethodToggleTwice | src/components/forms/ExploratoryAnalysisForm.tsx:44-49 | toggling an entry absent from `selectedMethods` twice gives back the same values |
| ExploratoryAnalysisForm.MethodToggleKeepsNoDup | src/components/forms/ExploratoryAnalysisForm.tsx:44-49 | a duplicate-free `selectedMethods` stays duplicate-free |
| GroupComparisonForm.HandleModelToggle | src/components/forms/GroupComparisonForm.tsx:57-62 | a listed `modelId` is removed entirely, the rest in order; an unlisted one is appended at the end; membership of `modelId` flips and that of every other id is unchanged; no other value changes |
| GroupComparisonForm.ModelToggleTwice | src/components/forms/GroupComparisonForm.tsx:57-62 | toggling an entry absent from `selectedModels` twice gives back the same values |
| GroupComparisonForm.ModelToggleKeepsNoDup | src/components/forms/GroupComparisonForm.tsx:57-62 | a duplicate-free `selectedModels` stays duplicate-free |
| GroupComparisonForm.SetDataType | src/components/forms/GroupComparisonForm.tsx:89 | `dataType` becomes exactly the given value, replacing the old one whole; no other value changes |
| GroupComparisonForm.TimePointsDisabledAfterEdits | src/components/forms/GroupComparisonForm.tsx:119-121 | the time-points input is disabled and hinted iff the chosen `dataType` is not 'longitudinal'; a checkbox edit never changes it |
| DataTransformationForm.HandleTransformationToggle | src/components/forms/DataTransformationForm.tsx:64-69 | a listed `transformationId` is removed entirely, the rest in order; an unlisted one is appended at the end; membership of `transformationId` flips and that of every other id is unchanged; no other value changes |
| DataTransformationForm.TransformationToggleTwice | src/components/forms/DataTransformationForm.tsx:64-69 | toggling an entry absent from `selectedTransformations` twice gives back the same values |
| DataTransformationForm.TransformationToggleKeepsNoDup | src/components/forms/DataTransformationForm.tsx:64-69 | a duplicate-free `selectedTransformations` stays duplicate-free |
| StatisticalModelingForm.HandleDiagnosticToggle | src/components/forms/StatisticalModelingForm.tsx:83-88 | a listed `diagnosticId` is removed entirely, the rest in order; an unlisted one is appended at the end; membership of `diagnosticId` flips and that of every other id is unchanged; no other value changes |
| StatisticalModelingForm.DiagnosticToggleTwice | src/components/forms/StatisticalModelingForm.tsx:83-88 | toggling an entry absent from `selectedDiagnostics` twice gives back the same values |
| StatisticalModelingForm.DiagnosticToggleKeepsNoDup | src/components/forms/StatisticalModelingForm.tsx:83-88 | a duplicate-free `selectedDiagnostics` stays duplicate-free |
| ComparatorsForm.HandleContrastToggle | src/components/forms/ComparatorsForm.tsx:134-139 | a listed `contrastId` is removed entirely, the rest in order; an unlisted one is appended at the end; membership of `contrastId` flips and that of every other id is unchanged; no other value changes |
| ComparatorsForm.ContrastToggleTwice | src/components/forms/ComparatorsForm.tsx:134-139 | toggling an entry absent from `selectedContrasts` twice gives back the same values |
| ComparatorsForm.ContrastToggleKeepsNoDup | src/components/forms/ComparatorsForm.tsx:134-139 | a duplicate-free `selectedContrasts` stays duplicate-free |
| ComparatorsForm.HandleExtractionToggle | src/components/forms/ComparatorsForm.tsx:141-146 | a listed `valueId` is removed entirely, the rest in order; an unlisted one is appended at the end; membership of `valueId` flips and that of every other id is unchanged; no other value changes |
| ComparatorsForm.ExtractionToggleTwice | src/components/forms/ComparatorsForm.tsx:141-146 | toggling an entry absent from `selectedExtractionValues` twice gives back the same values |
| ComparatorsForm.ExtractionToggleKeepsNoDup | src/components/forms/ComparatorsForm.tsx:141-146 | a duplicate-free `selectedExtractionValues` stays duplicate-free |
| MultipleTestingCorrectionForm.HandleAdditionalMethodToggle | src/components/forms/MultipleTestingCorrectionForm.tsx:96-101 | a listed `methodId` is removed entirely, the rest in order; an unlisted one is appended at the end; membership of `methodId` flips and that of every other id is unchanged; no other value changes |
| MultipleTestingCorrectionForm.AdditionalMethodToggleTwice | src/components/forms/MultipleTestingCorrectionForm.tsx:96-101 | toggling an entry absent from `selectedAdditionalMethods` twice gives back the same values |
| MultipleTestingCorrectionForm.AdditionalMethodToggleKeepsNoDup | src/components/forms/MultipleTestingCorrectionForm.tsx:96-101 | a duplicate-free `selectedAdditionalMethods` stays duplicate-free |
| MultipleTestingCorrectionForm.SetMethod | src/components/forms/MultipleTestingCorrectionForm.tsx:115 | `selectedMethod` becomes exactly the given value, replacing the old one whole; no other value changes |
| VisualizationForm.HandleGraphToggle | src/components/forms/VisualizationForm.tsx:174-179 | a listed `graphId` is removed entirely, the rest in order; an unlisted one is appended at the end; membership of `graphId` flips and that of every other id is unchanged; no other value changes |
| VisualizationForm.GraphToggleTwice | src/components/forms/VisualizationForm.tsx:174-179 | toggling an entry absent from `selectedGraphs` twice gives back the same values |
| VisualizationForm.GraphToggleKeepsNoDup | src/components/forms/VisualizationForm.tsx:174-179 | a duplicate-free `selectedGraphs` stays duplicate-free |
| VisualizationForm.HandleTableToggle | src/components/forms/VisualizationForm.tsx:181-186 | a listed `tableId` is removed entirely, the rest in order; an unlisted one is appended at the end; membership of `tableId` flips and that of every other id is unchanged; no other value changes |
| VisualizationForm.TableToggleTwice | src/components/forms/VisualizationForm.tsx:181-186 | toggling an entry absent from `selectedTables` twice gives back the same values |
| VisualizationForm.TableToggleKeepsNoDup | src/components/forms/VisualizationForm.tsx:181-186 | a duplicate-free `selectedTables` stays duplicate-free |
| ExportForm.HandleFormatChange | src/components/forms/ExportForm.tsx:59-65 | checked: the list gains `format` at the end, earlier entries in order; unchecked: every occurrence of `format` goes, the rest keep order and multiplicity; `format` is listed iff checked; other ids keep their membership; no other value changes |
| ExportForm.FormatCheckThenUncheck | src/components/forms/ExportForm.tsx:59-65 | checking then unchecking an entry absent from `selectedFormats` gives back the same values |
| ExportForm.FormatCheckListedDuplicates | src/components/forms/ExportForm.tsx:59-65 | checking an entry already in `selectedFormats` still grows it by one and leaves a duplicate |
| ExportForm.HandleReportSectionChange | src/components/forms/ExportForm.tsx:67-73 | checked: the list gains `section` at the end, earlier entries in order; unchecked: every occurrence of `section` goes, the rest keep order and multiplicity; `section` is listed iff checked; other ids keep their membership; no other value changes |
| ExportForm.ReportSectionCheckThenUncheck | src/components/forms/ExportForm.tsx:67-73 | checking then unchecking an entry absent from `selectedReportSections` gives back the same values |
| ExportForm.ReportSectionCheckListedDuplicates | src/components/forms/ExportForm.tsx:67-73 | checking an entry already in `selectedReportSections` still grows it by one and leaves a duplicate |
| OutlierDetectionForm.HandleDetectionMethodChange | src/components/forms/OutlierDetectionForm.tsx:55-61 | checked: the list gains `methodId` at the end, earlier entries in order; unchecked: every occurrence of `methodId` goes, the rest keep order and multiplicity; `methodId` is listed iff checked; other ids keep their membership; no other value changes |
| OutlierDetectionForm.DetectionMethodCheckThenUncheck | src/components/forms/OutlierDetectionForm.tsx:55-61 | checking then unchecking an entry absent from `selectedDetectionMethods` gives back the same values |
| OutlierDetectionForm.DetectionMethodCheckListedDuplicates | src/components/forms/OutlierDetectionForm.tsx:55-61 | checking an entry already in `selectedDetectionMethods` still grows it by one and leaves a duplicate |
| OutlierDetectionForm.HandleHandlingStrategyChange | src/components/forms/OutlierDetectionForm.tsx:63-69 | checked: the list gains `strategyId` at the end, earlier entries in order; unchecked: every occurrence of `strategyId` goes, the rest keep order and multiplicity; `strategyId` is listed iff checked; other ids keep their membership; no other value changes |
| OutlierDetectionForm.HandlingStrategyCheckThenUncheck | src/components/forms/OutlierDetectionForm.tsx:63-69 | checking then unchecking an entry absent from `selectedHandlingStrategies` gives back the same values |
| OutlierDetectionForm.HandlingStrategyCheckListedDuplicates | src/components/forms/OutlierDetectionForm.tsx:63-69 | checking an entry already in `selectedHandlingStrategies` still grows it by one and leaves a duplicate |
| OutlierDetectionForm.ShowsCustomDetectionAfterChange | src/components/forms/OutlierDetectionForm.tsx:180 | after a checkbox edit, the custom-detection card is shown iff the edit checked "custom", or, for any other id or list, iff it was shown before |
| PowerAnalysisForm.HandleEffectSizeChange | src/components/forms/PowerAnalysisForm.tsx:55-61 | checked: the list gains `effectSizeId` at the end, earlier entries in order; unchecked: every occurrence of `effectSizeId` goes, the rest keep order and multiplicity; `effectSizeId` is listed iff checked; other ids keep their membership; no other value changes |
| PowerAnalysisForm.EffectSizeCheckThenUncheck | src/components/forms/PowerAnalysisForm.tsx:55-61 | checking then unchecking an entry absent from `selectedEffectSizes` gives back the same values |
| PowerAnalysisForm.EffectSizeCheckListedDuplicates | src/components/forms/PowerAnalysisForm.tsx:55-61 | checking an entry already in `selectedEffectSizes` still grows it by one and leaves a duplicate |
| PowerAnalysisForm.SetMethod | src/components/forms/PowerAnalysisForm.tsx:79 | `selectedMethod` becomes exactly the given value, replacing the old one whole; no other value changes |
| PowerAnalysisForm.ShowsCustomEffectSizeAfterChange | src/components/forms/PowerAnalysisForm.tsx:120 | after a checkbox edit, the custom effect-size textarea is shown iff the edit checked "custom", or, for any other id or list, iff it was shown before |
| PowerAnalysisForm.ShowsCustomMethodsAfterEdits | src/components/forms/PowerAnalysisForm.tsx:183 | the custom-methods card is shown iff the chosen `selectedMethod` is 'custom'; a checkbox edit never changes it |
| BatchEffectForm.HandleDetectionMethodChange | src/components/forms/BatchEffectForm.tsx:66-72 | checked: the list gains `methodId` at the end, earlier entries in order; unchecked: every occurrence of `methodId` goes, the rest keep order and multiplicity; `methodId` is listed iff checked; other ids keep their membership; no other value changes |
| BatchEffectForm.DetectionMethodCheckThenUncheck | src/components/forms/BatchEffectForm.tsx:66-72 | checking then unchecking an entry absent from `selectedDetectionMethods` gives back the same values |
| BatchEffectForm.DetectionMethodCheckListedDuplicates | src/components/forms/BatchEffectForm.tsx:66-72 | checking an entry already in `selectedDetectionMethods` still grows it by one and leaves a duplicate |
| BatchEffectForm.HandleBatchVariableChange | src/components/forms/BatchEffectForm.tsx:74-80 | checked: the list gains `variableId` at the end, earlier entries in order; unchecked: every occurrence of `variableId` goes, the rest keep order and multiplicity; `variableId` is listed iff checked; other ids keep their membership; no other value changes |
| BatchEffectForm.BatchVariableCheckThenUncheck | src/components/forms/BatchEffectForm.tsx:74-80 | checking then unchecking an entry absent from `selectedBatchVariables` gives back the same values |
| BatchEffectForm.BatchVariableCheckListedDuplicates | src/components/forms/BatchEffectForm.tsx:74-80 | checking an entry already in `selectedBatchVariables` still grows it by one and leaves a duplicate |
| BatchEffectForm.SetCorrectionMethod | src/components/forms/BatchEffectForm.tsx:152 | `selectedCorrectionMethod` becomes exactly the given value, replacing the old one whole; no other value changes |
| BatchEffectForm.ShowsCustomCorrectionAfterEdits | src/components/forms/BatchEffectForm.tsx:194 | the custom-correction card is shown iff the chosen `selectedCorrectionMethod` is 'custom'; a checkbox edit never changes it |
| SensitivityAnalysisForm.HandleMethodChange | src/components/forms/SensitivityAnalysisForm.tsx:66-72 | checked: the list gains `methodId` at the end, earlier entries in order; unchecked: every occurrence of `methodId` goes, the rest keep order and multiplicity; `methodId` is listed iff checked; other ids keep their membership; no other value changes |
| SensitivityAnalysisForm.MethodCheckThenUncheck | src/components/forms/SensitivityAnalysisForm.tsx:66-72 | checking then unchecking an entry absent from `selectedMethods` gives back the same values |
| SensitivityAnalysisForm.MethodCheckListedDuplicates | src/components/forms/SensitivityAnalysisForm.tsx:66-72 | checking an entry already in `selectedMethods` still grows it by one and leaves a duplicate |
| SensitivityAnalysisForm.HandleParameterTypeChange | src/components/forms/SensitivityAnalysisForm.tsx:74-80 | checked: the list gains `typeId` at the end, earlier entries in order; unchecked: every occurrence of `typeId` goes, the rest keep order and multiplicity; `typeId` is listed iff checked; other ids keep their membership; no other value changes |
| SensitivityAnalysisForm.ParameterTypeCheckThenUncheck | src/components/forms/SensitivityAnalysisForm.tsx:74-80 | checking then unchecking an entry absent from `selectedParameterTypes` gives back the same values |
| SensitivityAnalysisForm.ParameterTypeCheckListedDuplicates | src/components/forms/SensitivityAnalysisForm.tsx:74-80 | checking an entry already in `selectedParameterTypes` still grows it by one and leaves a duplicate |
| SensitivityAnalysisForm.HandleRobustnessCheckChange | src/components/forms/SensitivityAnalysisForm.tsx:82-88 | checked: the list gains `checkId` at the end, earlier entries in order; unchecked: every occurrence of `checkId` goes, the rest keep order and multiplicity; `checkId` is listed iff checked; other ids keep their membership; no other value changes |
| SensitivityAnalysisForm.RobustnessCheckCheckThenUncheck | src/components/forms/SensitivityAnalysisForm.tsx:82-88 | checking then unchecking an entry absent from `selectedRobustnessChecks` gives back the same values |
| SensitivityAnalysisForm.RobustnessCheckCheckListedDuplicates | src/components/forms/SensitivityAnalysisForm.tsx:82-88 | checking an entry already in `selectedRobustnessChecks` still grows it by one and leaves a duplicate |
| SensitivityAnalysisForm.ShowsCustomMethodsAfterChange | src/components/forms/SensitivityAnalysisForm.tsx:224 | after a checkbox edit, the custom-methods card is shown iff the edit checked "custom", or, for any other id or list, iff it was shown before |

## Left out

- Rendering, styling, icons, cards, badges and layout (JSX) are not modelled, since they carry no logic.
- `src/components/PipelineStep.tsx` is not modelled beyond the fact that its Next button calls `onNext` and its Previous button calls `onPrevious`. It is presentational.
- `src/components/forms/LODHandlingForm.tsx` is not modelled. It holds a radio binding and one display condition: at line 106, the custom-method input is shown iff `selectedMethod === 'custom'`. That is the same shape as `NormalizationForm.ShowsCustomMethod`.
- The option catalogues of the forms (ids, labels, descriptions) are left out. The handlers are modelled for any id.
- The Radix checkbox's indeterminate state, passed on with `checked as boolean`, is modelled as a plain boolean.
- Text inputs, selects and numbers of the forms other than the modelled setters are forwarded verbatim like the modelled ones and are left out.
- Supabase queries, sessions, sign-in and row-level security are modelled as inputs: the rows the queries return, the `verify` function for `auth.getUser`, and the `storeFault` and `zeroRows` flags for the update or insert call.
- Environment variables and client creation in the edge function are left out, as are the CORS headers. The model keeps only the status code and body kind of each reply.
- The clock is an input (`now`), and the new row id is an input assumed fresh (`newId !in rows`). Database-side defaults of the insert (`created_at`, `updated_at`) are left out.
- Concurrency between requests is left out. Each request is one atomic step on the table.
- `SavePipeline.Target` matches `pipelineId` only as a string equal to a row id. Coercion of numbers or other values by the `eq` filter is not modelled.
- A field missing from the request body is modelled as JSON `null`. Whether the client library omits or nulls such a field is decided outside this code.
- The Dashboard's and Summary's date formatting, the recent-activity timeline, the charts' geometry, toasts and page navigation are left out.
- Floating-point presentation is left out. Percentages are modelled as the half-up integer of the exact quotient; this matches the page for the Dashboard's k/16.
- Summary.CompletionRate: computes `Math.round(completed / total * 100)` on exact rationals, not on doubles. The page can differ by one point. For 23 of 40, the doubles give 57.49999999999999, so the page shows 57% while the model gives 58%.
- `Json.IsPositive` does not model decimal strings with an exponent (`"1e3"`). Such strings are treated as not positive.
- A row's `pipeline_data` is modelled as a JSON object. A null or non-object `pipeline_data` is not modelled, and neither are keys inherited through prototypes.
- `src/pages/__tests__/Index.test.tsx` describes a different Index page (user-info gating and saving on navigation) and is not modelled.
- `Wizard.WizardController.HandleNext` models the corrected guard (see Findings). The guard as written is modelled by `Wizard.NextStepAsWritten`.
- Wizard.NextThenPrevious: holds only with the corrected guard. With the guard as written it fails on step 12, which `Wizard.AsWrittenNextThenPrevious` states.

## Findings

| source | as written | input that shows it | evidently intended | confidence | as-written member | corrected member |
|---|---|---|---|---|---|---|
| src/pages/Index.tsx:198-202 | `handleNext` advances only while `currentStep < steps.length` | on step 12, press "Complete Pipeline", which calls `onNext`: `currentStep` stays 12, so the completion screen guarded by `currentStep > steps.length` (line 287) never appears | advance while `currentStep <= steps.length`, so that step 12 leads to the completion screen | not executed | Wizard.AsWrittenNeverShowsSummary | Wizard.CompletionReachable |
