# Survey administration front-end — verified model

This project models the state handling of a React front-end for a workplace
evaluation survey. People answer self and colleague evaluations. Administrators
edit the question list, choose the organizations under evaluation and read
statistics. The model covers these parts:

- **Organization chart** (`OrgTree`, `OrgChart`). A cache maps a parent key to its
  fetched child list. A checkbox collects an organization together with all its
  cached descendants into the save set. The save button posts that set.
- **Organization list** (`OrganizationListing`). This is a flat list with a
  selection of organization codes. Delete posts one request per selected code, in
  order.
- **Question editing** (`QuestionForm`). This covers the `useSurveyForm` hook and
  the `SurveyFormPressed` component: editing, adding, deleting and saving
  questions, and the five default answer labels.
- **Survey filling** (`SurveySession`). This covers loading the employee and the
  colleagues they evaluate, starting an evaluation, answering it, and the submit
  check and payload. It also covers the state after a submission and the "all
  done" banner.
- **Statistics page** (`Statistics`). This covers the filter state and its
  defaults, and which buttons are enabled. It also covers the grouped charts with
  their `'평균'` average row, the question chart that pairs self and others
  questions by rank, and the per-question table.
- **Result views** (`SurveyResults`). This covers the category merge that three
  result views share, the MUI view's overall-average row, the two
  percentile-to-colour rules, and the Recharts view's loading of a result.
- **Dashboard rows** (`ExpandableRows`). A row loads its detail rows the first
  time it is opened.

Each modelled component whose state the handlers change is a `class`, with one
method per handler and a `modifies` clause: `OrganizationChart`, `OrganizationList`,
the question editor of `useSurveyForm` and `SurveyFormPressed`, `SurveyComponent`,
the statistics page, the Recharts result view, the D3 and MUI result views (one
class, since their state and loading are the same), and the dashboard's
`ExpandableRow`. The lists and maps that handlers transform are
modelled as functions, with lemmas relating them. An HTTP call is an argument of
type `Remote.Response` (`Ok(value)` or `Failed(message)`). Each handler runs as
one atomic step.

JavaScript semantics are written out where they matter:

- Truthiness: a question id of `0` counts as "new", and an answer of `0` counts
  as unanswered.
- `Object.entries` returns integer keys in ascending order. `Collections.SortedNats`
  models this.
- `x || 0` becomes an explicit default.
- A `NaN` average is `None` or `NaN` rather than a number.

One difference between the written description of the organization chart and its
code: the description says the descendant collector sees the child lists it
fetches along the way. The code reads the `organizations` state captured when the
handler started (`OrganizationChart.tsx:70-73`). A list fetched during the walk
therefore does not contribute to that walk. The model follows the code
(`OrgChart.OrganizationChart.CollectDescendants` reads a snapshot, and
`OrgChart.UnexpandedCheckWalkThrough` shows the consequence).

## Model

| member | source | states |
|---|---|---|
| OrgTree.NoChildrenNoDescendants | survey/src/components/OrganizationChart.tsx:70-75 | a key with no cache entry, or an empty child list, collects no ids |
| OrgTree.DescendantsAreReachable | survey/src/components/OrganizationChart.tsx:68-82 | an id is collected from a key exactly when it is reachable from that key in one or more steps through cached child lists |
| OrgTree.DescendantsSound | survey/src/components/OrganizationChart.tsx:75-79 | every collected id is reachable from the start key |
| OrgTree.PathEndCollected | survey/src/components/OrganizationChart.tsx:75-79 | the end of every path of cached child links is collected from the path's start |
| OrgTree.StartNotDescendant | survey/src/components/OrganizationChart.tsx:68-82 | the start key is never among its own collected ids |
| OrgTree.DescendantsRankBelow | survey/src/components/OrganizationChart.tsx:75-79 | every collected id ranks strictly below the start key, so the recursion terminates |
| OrgTree.DescendantsMonotone | survey/src/components/OrganizationChart.tsx:70-73 | adding cache entries under new keys never loses a collected id |
| OrgTree.FetchKeepsRanked | survey/src/components/OrganizationChart.tsx:50-60 | storing fetched child lists keeps the cache ranked and extends it |
| OrgTree.RankedStore | survey/src/components/OrganizationChart.tsx:50-53 | storing one child list whose ranks lie below its key keeps the cache ranked |
| OrgTree.FetchedOne | survey/src/components/OrganizationChart.tsx:50-60 | fetching a single key changes the cache by one entry, the stored list for that key |
| OrgTree.OnlyChild | survey/src/components/OrganizationChart.tsx:68-82 | a key whose single cached child is a leaf collects exactly that child |
| OrgTree.RenderTree | survey/src/components/OrganizationChart.tsx:139-158 | one top-level tree item per cached child, in list order; such an item is checked exactly when its id is in the save set |
| OrgTree.RenderedCheckedAreSaved | survey/src/components/OrganizationChart.tsx:139-158 | at every depth of the tree view, the ticked boxes are exactly the drawn ids that are in the save set: the collected ids intersected with the save set |
| OrgTree.RenderedIdsAreDescendants | survey/src/components/OrganizationChart.tsx:139-158 | the tree view below a key draws exactly the ids the collector gathers from it |
| OrgChart.OrganizationChart.constructor | survey/src/components/OrganizationChart.tsx:36-41 | empty cache, empty display and save selections, not loading |
| OrgChart.OrganizationChart.FetchSubOrganizations | survey/src/components/OrganizationChart.tsx:43-62 | stores the list under its key on success and `[]` on failure; other keys are unchanged |
| OrgChart.OrganizationChart.CollectDescendants | survey/src/components/OrganizationChart.tsx:68-82 | returns exactly the descendants in the snapshot; the cache gains the fetches for the uncached keys it visited |
| OrgChart.OrganizationChart.Select | survey/src/components/OrganizationChart.tsx:84-113 | checking displays the organization and adds it and its descendants to the save set; unchecking removes both; nothing else changes |
| OrgChart.OrganizationChart.Save | survey/src/components/OrganizationChart.tsx:115-137 | a request exists exactly when the button is enabled (line 196); it lists every saved id once, with the period |
| OrgChart.CheckThenUncheck | survey/src/components/OrganizationChart.tsx:84-113 | check then uncheck removes the organization and all it added; it restores the old save set minus those ids when the check fetched nothing |
| OrgChart.TwoBranchWalkThrough | survey/src/components/OrganizationChart.tsx:84-113 | for any three distinct non-root ids on a tree with root children A and B and A's child C: checking A saves A and C, checking B adds B, unchecking A leaves exactly B saved and displayed |
| OrgChart.TwoBranchChecks | survey/src/components/OrganizationChart.tsx:84-97 | on the loaded chart, checking A saves A and C and checking B adds B; the display holds A and B and the collected ids of A stay {C} |
| OrgChart.OverlapWalkThrough | survey/src/components/OrganizationChart.tsx:99-111 | unchecking a parent drops a child that is still displayed from the save set |
| OrgChart.UnexpandedCheckWalkThrough | survey/src/components/OrganizationChart.tsx:70-73 | checking an unexpanded organization saves only its own id even though its children are fetched meanwhile |
| Collections.SetToSeq | survey/src/components/OrganizationChart.tsx:119 | `Array.from(set)`: every element exactly once |
| Collections.SortedNats | survey/src/components/Statistics.tsx:795-796 | the keys in strictly increasing order, each exactly once |
| OrganizationListing.RemoveAll | survey/src/components/OrganizationList.tsx:53 | the code is gone; every other code keeps its membership |
| OrganizationListing.RemoveAllAppend | survey/src/components/OrganizationList.tsx:53 | the filter distributes over concatenation |
| OrganizationListing.CheckThenUncheck | survey/src/components/OrganizationList.tsx:49-55 | check then uncheck restores a selection that lacked the code; checking twice and unchecking once removes both copies |
| OrganizationListing.UncheckKeepsOrder | survey/src/components/OrganizationList.tsx:53 | unchecking keeps the other selected codes in their order |
| OrganizationListing.OrganizationList.FetchOrganizations | survey/src/components/OrganizationList.tsx:15-19 | the reply replaces the list; the selection is kept |
| OrganizationListing.OrganizationList.OnChange | survey/src/components/OrganizationList.tsx:48-55 | checking appends the code at the end; unchecking removes every copy; the box then shows the new state and no other box changes |
| OrganizationListing.OrganizationList.HandleDelete | survey/src/components/OrganizationList.tsx:21-28 | deletes are issued for a prefix of the selection in order; the list is reloaded exactly when no request rejected; otherwise the last issued request is the rejected one; the selection is not cleared |
| OrganizationListing.SelectionWalkThrough | survey/src/components/OrganizationList.tsx:21-55 | a concrete check, double-check, uncheck and delete sequence ends with one delete for the remaining code and a reload |
| QuestionForm.AnswerOption | survey/src/hooks/useSurveyForm.tsx:14-20 | a label exists exactly for answers 1 to 5 |
| QuestionForm.WithAnswer | survey/src/hooks/useSurveyForm.tsx:39-44 | only slot `n` takes the new text; the other four slots are unchanged |
| QuestionForm.ApplyEdit | survey/src/hooks/useSurveyForm.tsx:38-47 | id and period never change; each edit sets only its own field; an answer edit sets only `answer{index+1}` |
| QuestionForm.ChangeQuestions | survey/src/hooks/useSurveyForm.tsx:36-49 | the same length and ids; questions with another id are unchanged; matching questions receive the edit |
| QuestionForm.RemoveQuestions | survey/src/hooks/useSurveyForm.tsx:77 | the result keeps exactly the questions whose id differs |
| QuestionForm.RemoveDistributes | survey/src/hooks/useSurveyForm.tsx:77 | the filter distributes over concatenation, so the kept questions stay in order |
| QuestionForm.RemoveAbsent | survey/src/hooks/useSurveyForm.tsx:77 | deleting an id no question has changes nothing |
| QuestionForm.AddThenDelete | survey/src/hooks/useSurveyForm.tsx:65-82 | deleting a just-added question under a fresh id gives back the earlier list |
| QuestionForm.ChangeThenRemove | survey/src/hooks/useSurveyForm.tsx:36-82 | editing and then deleting by the same id equals deleting |
| QuestionForm.NewQuestion | survey/src/hooks/useSurveyForm.tsx:52-63 | no id, the current period, category `감수성`, empty content, and the five labels in order |
| QuestionForm.SaveRequest | survey/src/components/SurveyFormPressed.tsx:124-142 | PUT to the item exactly when the id is truthy, so id 0 is created again; otherwise POST to the collection; the body is the question |
| QuestionForm.StaleAnswerSave | survey/src/components/SurveyFormPressed.tsx:198-203 | the answer select's save does not carry the new answer; the corrected save does |
| QuestionForm.QuestionEditor.constructor | survey/src/hooks/useSurveyForm.tsx:5-7 | an empty list and the given period |
| QuestionForm.QuestionEditor.FetchQuestions | survey/src/hooks/useSurveyForm.tsx:26-34 | the reply replaces the list; a failure keeps it |
| QuestionForm.QuestionEditor.HandleQuestionChange | survey/src/components/SurveyFormPressed.tsx:63-76 | the list becomes `ChangeQuestions` of the old list |
| QuestionForm.QuestionEditor.AddQuestion | survey/src/components/SurveyFormPressed.tsx:78-108 | posts the template; on success appends the returned question last; on failure keeps the list |
| QuestionForm.QuestionEditor.DeleteQuestion | survey/src/components/SurveyFormPressed.tsx:110-122 | on success removes every question with the id; on failure keeps the list |
| QuestionForm.QuestionEditor.SaveAll | survey/src/components/SurveyFormPressed.tsx:237-240 | one save per question in list order, each the request `saveQuestion` sends for it: PUT to `/api/questions/{id}` exactly when the id is truthy, otherwise POST to `/api/questions` |
| QuestionForm.QuestionEditor.ChangeAnswerAsWritten | survey/src/components/SurveyFormPressed.tsx:198-203 | edits the list, then saves the row as the render showed it |
| QuestionForm.QuestionEditor.ChangeAnswer | survey/src/components/SurveyFormPressed.tsx:172-175 | edits the list and saves the row with the new answer, as the category select does |
| QuestionForm.QuestionEditor.PressDelete | survey/src/components/SurveyFormPressed.tsx:217 | a delete is requested exactly when the row's id is truthy |
| SurveySession.Unanswered | survey/src/components/SurveyComponent.tsx:163 | the displayed questions whose response is missing or 0 |
| SurveySession.AllAnsweredIffNoneBlocked | survey/src/components/SurveyComponent.tsx:162-167 | submission passes the check exactly when no displayed question is unanswered |
| SurveySession.AnswerUnblocks | survey/src/components/SurveyComponent.tsx:154-167 | a non-zero answer unblocks exactly its own question |
| SurveySession.ZeroBlocks | survey/src/components/SurveyComponent.tsx:157-163 | an answer of 0 blocks its displayed question |
| SurveySession.SubmissionContents | survey/src/components/SurveyComponent.tsx:170-178 | the body built for a submission has one entry per recorded response, in ascending id order, with the recorded answer and the colleague's number; free text only in an others evaluation |
| SurveySession.AllDoneOffersNothing | survey/src/components/SurveyComponent.tsx:264-355 | when everything is done, no evaluation can be started |
| SurveySession.NothingOfferedNotDone | survey/src/components/SurveyComponent.tsx:352-355 | the converse fails: an employee without a self evaluation is offered nothing and never told they are done |
| SurveySession.SurveyState.constructor | survey/src/components/SurveyComponent.tsx:68-77 | loading, with everything else empty |
| SurveySession.SurveyState.LoadEmployee | survey/src/components/SurveyComponent.tsx:86-136 | colleagues are requested exactly for an others-tester; failures set `error`; loading ends |
| SurveySession.SurveyState.FetchQuestions | survey/src/components/SurveyComponent.tsx:138-152 | on success the mode, colleague and questions are set and responses are cleared; on failure only `error` changes |
| SurveySession.SurveyState.HandleResponseChange | survey/src/components/SurveyComponent.tsx:154-159 | only `responses[questionId]` changes |
| SurveySession.SurveyState.SetTextAnswer | survey/src/components/SurveyComponent.tsx:405 | the free text becomes the input |
| SurveySession.SurveyState.ResetSurvey | survey/src/components/SurveyComponent.tsx:226-232 | back to the choice: no mode, no colleague, no responses, no questions, no text |
| SurveySession.SurveyState.Submit | survey/src/components/SurveyComponent.tsx:161-204 | sent exactly when all are answered, with `BuildSubmission`; a status update exactly after a successful others evaluation with a colleague; the rejection and failure paths change only `error`; success resets and reloads |
| SurveySession.SurveyState.Complete | survey/src/components/SurveyComponent.tsx:198-200 | after a successful post: the success message is set, the employee and colleague lists are reloaded as `LoadEmployee` loads them, and the survey is reset to the choice |
| SurveySession.SelfEvaluationWalkThrough | survey/src/components/SurveyComponent.tsx:154-232 | with one of two answers the submit is refused; with both it posts both in id order and returns to the choice |
| Statistics.WithField | survey/src/components/Statistics.tsx:283-286 | the named field takes the value; the other five are unchanged |
| Statistics.InitialFilter | survey/src/components/Statistics.tsx:110-117 | the organization is `all` and every other field is empty |
| Statistics.SexLabel | survey/src/components/Statistics.tsx:688 | `남성` exactly for `M`, otherwise `여성` |
| Statistics.WithoutAverage | survey/src/components/Statistics.tsx:587-588 | keeps exactly the entries not keyed `평균` |
| Statistics.DataRows | survey/src/components/Statistics.tsx:589-593 | one row per kept entry with its label and scores |
| Statistics.Total | survey/src/components/Statistics.tsx:596-597 | a sum exists exactly when no score is missing |
| Statistics.TotalBounds | survey/src/components/Statistics.tsx:596-597 | the sum of n scores in [low, high] lies in [n·low, n·high] |
| Statistics.AverageBounds | survey/src/components/Statistics.tsx:596-597 | `Average` of non-empty bounded scores is defined and lies between the bounds |
| Statistics.GroupedAverageBounds | survey/src/components/Statistics.tsx:587-603 | the `평균` row of a grouped chart lies, on each side, between the smallest and largest score of the rows it averages |
| Statistics.GroupedChart | survey/src/components/Statistics.tsx:587-603 | with a section: the non-average rows in order, then exactly one `평균` row, last |
| Statistics.Scored | survey/src/components/Statistics.tsx:785-792 | a question is filed under a kind exactly when it has that score, with that score |
| Statistics.FiledIsScored | survey/src/components/Statistics.tsx:785-792 | the loop state over any prefix of the keys files exactly that prefix's scored questions |
| Statistics.FiledAll | survey/src/components/Statistics.tsx:785-792 | after all keys, the loop state is `Scored` |
| Statistics.SplitByType | survey/src/components/Statistics.tsx:782-792 | the two maps are the self-scored and others-scored questions |
| Statistics.PairByRank | survey/src/components/Statistics.tsx:799-813 | row i pairs the i-th self and the i-th others question, with scores, up to the longer list |
| Statistics.QuestionChart | survey/src/components/Statistics.tsx:782-832 | paired rows numbered from 1 over the ascending ids, then one average row of the two means, 0 for an empty side |
| Statistics.QuestionData | survey/src/components/Statistics.tsx:301-317 | one row per question in ascending id order, missing scores as 0 |
| Statistics.StatisticsPage.constructor | survey/src/components/Statistics.tsx:110-121 | the initial filter, no data, not loading, no error |
| Statistics.StatisticsPage.HandleChange | survey/src/components/Statistics.tsx:283-286 | the filter becomes `WithField` of the old one |
| Statistics.StatisticsPage.LoadYears | survey/src/components/Statistics.tsx:142-160 | stores the years and selects the first when there is one |
| Statistics.StatisticsPage.LoadEvaluations | survey/src/components/Statistics.tsx:163-185 | a request exactly when a year is set; the evaluation name becomes the first name, or empty |
| Statistics.StatisticsPage.ToggleExcelView | survey/src/components/Statistics.tsx:293-295 | the view flips |
| Statistics.StatisticsPage.FetchStatistics | survey/src/components/Statistics.tsx:200-225 | posts the filter; success stores the data and clears the error; failure stores the message or the default text |
| Statistics.DefaultsEnableQuery | survey/src/components/Statistics.tsx:142-185 | after the two loads, the query is enabled (line 466) exactly when the first year and first evaluation name are non-empty |
| SurveyResults.Lookup | survey/src/components/SurveyResult.tsx:91-92 | a score exists exactly for the record's own categories |
| SurveyResults.Dedup | survey/src/components/SurveyResult.tsx:82-87 | each value once, no new values |
| SurveyResults.DedupDistinct | survey/src/components/SurveyResult.tsx:82-87 | a list without repeats is its own de-duplication |
| SurveyResults.DedupPrefix | survey/src/components/SurveyResult.tsx:82-87 | a longer list's de-duplication starts with the shorter's |
| SurveyResults.MergedCategories | survey/src/components/SurveyResult.tsx:82-87 | every category of either record exactly once, the self record's categories first and in their order |
| SurveyResults.CategoryRows | survey/src/components/SurveyResult.tsx:79-94 | no rows without a result; otherwise one row per merged category in order, each score from its record or 0 |
| SurveyResults.RowCountIsCategoryCount | survey/src/components/SurveyResult.tsx:89-93 | the row count is the number of distinct categories |
| SurveyResults.DistinctCount | survey/src/components/SurveyResult.tsx:82-89 | a list without repeats is as long as its set |
| SurveyResults.MissingScoreIsZero | survey/src/components/SurveyResultMUI.tsx:148-152 | on both the self and the others side, a category absent from the record scores 0 and a present one scores its recorded value; a score is 0 exactly when the record lacks the category or records 0 |
| SurveyResults.SumBounds | survey/src/components/SurveyResultMUI.tsx:155-156 | the sum of n scores in [low, high] lies in [n·low, n·high] |
| SurveyResults.MeanAsWritten | survey/src/components/SurveyResultMUI.tsx:155-156 | `NaN` exactly when there are no categories |
| SurveyResults.Mean | survey/src/components/SurveyResultMUI.tsx:155-156 | 0 with no values; otherwise the value as written |
| SurveyResults.MeanBounds | survey/src/components/SurveyResultMUI.tsx:155-156 | the mean of scores in [low, high] lies in [low, high] |
| SurveyResults.MuiRowsAsWritten | survey/src/components/SurveyResultMUI.tsx:138-166 | the category rows, then exactly one `전체 평균` row, last, whose means are `NaN` with no categories |
| SurveyResults.EmptyResultAverageIsNaN | survey/src/components/SurveyResultMUI.tsx:155-156 | a result without category scores yields the single row `전체 평균` with `NaN` scores |
| SurveyResults.MuiRows | survey/src/components/SurveyResultMUI.tsx:138-166 | the same rows with the guarded mean |
| SurveyResults.MuiRowsProperties | survey/src/components/SurveyResultMUI.tsx:138-166 | agrees with the rows as written whenever there is a category; distinct categories plus one rows; the self average lies between the self scores and the others average between the others scores; with no category the average row is 0 on both sides |
| SurveyResults.StatusInclusive | survey/src/components/SurveyResult.tsx:72-76 | safe for p ≤ 10, warning for 10 < p ≤ 30, danger above |
| SurveyResults.StatusExclusive | survey/src/components/SurveyResultRecharts.tsx:79-83 | safe for p < 10, warning for 10 ≤ p < 30, danger from 30 (also SurveyResultMUI.tsx:130-134) |
| SurveyResults.ViewsDisagreeOnlyAtBounds | survey/src/components/SurveyResultMUI.tsx:130-134 | the two rules differ exactly at 10 and 30, where the inclusive one is better |
| SurveyResults.StatusMonotone | survey/src/components/SurveyResult.tsx:72-76 | a lower percentile never gets a worse band in either rule |
| SurveyResults.RechartsResult.constructor | survey/src/components/SurveyResultRecharts.tsx:26-29 | no result, loading, no error, no rows |
| SurveyResults.RechartsResult.FetchSurveyResult | survey/src/components/SurveyResultRecharts.tsx:36-72 | success stores the result and its merged rows; failure stores the message and keeps the rows; loading ends |
| SurveyResults.FailedLoadWalkThrough | survey/src/components/SurveyResultRecharts.tsx:41-68 | a failed first load leaves the chart empty and shows the error |
| SurveyResults.ResultView.constructor | survey/src/components/SurveyResultMUI.tsx:92-94 | no result, loading, no error, as both the MUI view and the D3 view (SurveyResult.tsx:26-28) start |
| SurveyResults.ResultView.FetchSurveyResult | survey/src/components/SurveyResultMUI.tsx:103-125 | success stores the parsed body as the result, so a JSON `null` body clears it; failure stores the message; loading ends; SurveyResult.tsx:39-61 is the same handler |
| SurveyResults.ResultView.Shown | survey/src/components/SurveyResultMUI.tsx:168-186 | the loading screen exactly while loading; then the error exactly when the message is non-empty; then "no data" exactly when there is no result; otherwise the result (SurveyResult.tsx:223-225 has the same guards) |
| SurveyResults.ResultViewWalkThrough | survey/src/components/SurveyResult.tsx:223-225 | loading before the reply; the result after a success; the message after a failure; "no data" after a successful reply whose body is `null` (stored by SurveyResult.tsx:49) |
| ExpandableRows.ExpandableRow.constructor | survey/src/components/EvaluationStatusDashboard.tsx:121-123 | closed, no details, not loading |
| ExpandableRows.ExpandableRow.HandleExpand | survey/src/components/EvaluationStatusDashboard.tsx:125-138 | fetches exactly when closed with no details; success stores the result and failure keeps the old details; loading ends; the row always flips |
| ExpandableRows.ReopenWalkThrough | survey/src/components/EvaluationStatusDashboard.tsx:125-167 | a loaded row shows its details and is not fetched again when reopened |
| ExpandableRows.EmptyResultWalkThrough | survey/src/components/EvaluationStatusDashboard.tsx:125-167 | an empty or failed load refetches on every opening and shows nothing until a result has rows |

## Left out

- HTTP: every `fetch` is an argument that is either a value or a failure message. URLs, headers, JSON decoding and the difference between a rejected request and a non-OK status are not modelled, except where the source treats them differently (`OrganizationList.tsx` delete loop).
- Rendering: JSX trees, MUI and Recharts components, D3 drawing (`SurveyResult.tsx:97-207`), tabs, the Excel download and window listeners.
- Async interleaving: each handler is one atomic step. The model does not cover overlapping `handleSelect` calls, concurrent fetches of one key, or a `loading` value visible during an `await`.
- Floating point: scores are real numbers. `Math.round(x * 100) / 100` and `toFixed` are not modelled.
- String parsing: question ids are naturals and answers are integers. `parseInt` and the regex in `prepareQuestionData` are identities on them.
- `fetchFilterOptions` and the hard-coded organization options of the statistics page (`Statistics.tsx:124-139`, `188-197`) only fill drop-down menus.
- `handleToggle` of the organization chart (`OrganizationChart.tsx:64-66`) only controls which tree nodes are drawn open.
- The fixed employee number and period of `SurveyComponent.tsx` are not modelled.
- `OrganizationDetails.tsx`, `SurveyManagement.tsx`, `OrganizationManagement .tsx`, `SurveyForm.tsx`, `App.tsx` and `services/api.tsx` are not part of this model, and of `EvaluationStatusDashboard.tsx` only `ExpandableRow` is: the dashboard page's own loading of the department status (lines 308-310) is not. `types/survey.tsx` appears only as datatypes.
- Collections.SetToSeq: states that every element appears exactly once, but not the insertion order `Array.from` yields, which only affects the order of ids in the save request.
- SurveySession.SurveyState.LoadEmployee: stores the colleague list as the reply gives it. The per-colleague lookups that add names and job titles (`SurveyComponent.tsx:111-130`), and the errors those lookups can set, are not modelled.
- SurveySession.SurveyState.Submit: a `loading` flag is not involved. The status update's own outcome is not modelled because the source only logs it.
- Statistics.GroupedChart: the average row holds the exact mean, not the mean rounded to two decimals. Section entries are taken in the order given, not in JavaScript's property order.
- Statistics.QuestionChart: the average row holds the exact means, not the means rounded to two decimals.
- Statistics.SplitByType: a `null` score is modelled as an absent one (`None`). The source files a `null` score, because `null !== undefined`, and its mean then adds it as 0 while counting it.
- SurveyResults.RechartsResult.FetchSurveyResult: the failure message is the reply's. The fallback text for a non-`Error` exception is not modelled.
- QuestionForm.ApplyEdit: only the edits the form's inputs make (category, content, answer slot) are modelled. Ill-typed `(field, value)` pairs that TypeScript would accept through `any` are not modelled.

## Findings

| source | as written | input that shows it | evidently intended | confidence | as-written member | corrected member |
|---|---|---|---|---|---|---|
| survey/src/components/SurveyFormPressed.tsx:198-203 | the answer select updates the list and then saves `question`, the row as the render showed it, which still holds the old answer | a row with id 5 whose `answer1` is `매우 그렇다`; choosing `그렇다` in the first select sends a PUT whose body still says `매우 그렇다` (`QuestionForm.StaleAnswerSave`) | save the row with the new answer, as the category select on line 174 does | high (not executed) | QuestionForm.QuestionEditor.ChangeAnswerAsWritten | QuestionForm.QuestionEditor.ChangeAnswer |
| survey/src/components/SurveyResultMUI.tsx:155-156 | the overall averages divide by `categoryData.length` without a guard | a result whose two score records are both empty: the single `전체 평균` row has `NaN` scores (`SurveyResults.EmptyResultAverageIsNaN`) | 0 for an empty table, as the statistics page's `(data.length \|\| 1)` gives | medium (not executed) | SurveyResults.MuiRowsAsWritten | SurveyResults.MuiRows |
