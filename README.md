# Audit platform core, modelled in Dafny

This project models the computing core of a compliance-audit platform. The
platform takes audit items (one question of an act or a checklist, with the
auditor's verdict and a risk level), routes them to specialist AI agents, and
folds the answers into scores, severity tallies and recommendations. Several
pages compute their own figures from the same data. The model covers:

- the routing of items to agents, in the portal (`ApiPortal`) and in the
  master orchestrator (`MasterOrchestrator`), which disagree on the routing
  rule;
- the mock specialist, the synthesis of the agents' partial results into one
  report, and the whole orchestrated audit;
- four competing batch scoring policies:
  - the portal's batch endpoint (`ApiPortal.SubmitAuditBatch`);
  - the example AI agent (`PythonAgent`);
  - the session report service (`ReportService`);
  - the AI report page (`AuditReport`);
- the per-act audit progress (`AuditProgress`);
- the business-contract risk checklists, their initial data (`BusinessAuditData`)
  and the wizard that edits them and draws the risk heat map
  (`BusinessAuditWizard`);
- the contract audit wizard's answers and risk summary (`ContractAuditWizard`);
- the act registry and its lookups (`ActRegistry`).

`Common` holds the shared vocabulary:

- `Option`;
- association lists, which model JavaScript objects; where their key order can
  be seen, `ObjectKeyOrder` gives the order JavaScript enumerates them in
  (integer-like keys first, ascending, then the others in insertion order);
- `Count` over a predicate;
- ASCII lower-casing and prefix/substring tests;
- Python's `str.strip`;
- decimal rendering of naturals;
- JavaScript `Math.round` of a ratio, and Python `round(x, 2)`.

Loops of the source are `method`s with `while` loops proved against recursive
specification functions. Examples are `PartitionAuditItems` against
`BucketItems`, `GroupByAgent` against `GroupsOf`, `CalculateRiskSummary`
against `RiskSummary` and `SummarizeRisk` against `Summary`. The properties are
proved about those functions. React state updates (`setAuditState(prev => …)`)
are pure functions from the old state to the new one.

## Model

| member | source | states |
|---|---|---|
| MasterOrchestrator.ClassifyByPrefix | MASTER_AUDIT_ORCHESTRATOR_EXAMPLE.py:105-117 | An item goes to wages exactly when its id starts with `CW-2019-SEC-` and to safety exactly when it starts with `OSHWC-SEC-`, the wages test winning; a missing id goes to `other` |
| MasterOrchestrator.PartitionAuditItems | MASTER_AUDIT_ORCHESTRATOR_EXAMPLE.py:87-119 | The loop fills each bucket with exactly the items of that class, in input order |
| MasterOrchestrator.PartitionCovers | MASTER_AUDIT_ORCHESTRATOR_EXAMPLE.py:98-119 | The three buckets together are a permutation of the input, so their sizes add up to the number of items |
| MasterOrchestrator.EachItemInOneBucket | MASTER_AUDIT_ORCHESTRATOR_EXAMPLE.py:98-119 | An input item lies in a bucket if and only if that bucket is its class |
| MasterOrchestrator.MockScore | MASTER_AUDIT_ORCHESTRATOR_EXAMPLE.py:150-157 | The mock score is 100 − 15·critical − 8·high − 5·non-compliant whenever that is non-negative, always lies in [0, 100], and is 100 exactly when all three counts are 0 |
| MasterOrchestrator.MockFindings | MASTER_AUDIT_ORCHESTRATOR_EXAMPLE.py:166-176 | One finding per item, in input order |
| MasterOrchestrator.MockRecommendationsShape | MASTER_AUDIT_ORCHESTRATOR_EXAMPLE.py:178-186 | After dropping `None`, the list starts with the non-compliance line, holds the critical line exactly when critical > 0 and the high-risk line exactly when high > 0 |
| MasterOrchestrator.InvokeSpecialistAgent | MASTER_AUDIT_ORCHESTRATOR_EXAMPLE.py:122-191 | `None` exactly for an empty item list; otherwise the agent name, the analysed count, one finding per item carrying its id, the critical and high counts equal to the number of critical and high items, the score equal to the mock formula over those counts and the non-compliant count (within [0, 100]), and recommendations equal to the mock list: the "address" line first, the "focus" line exactly when there is a critical item and the "improve" line exactly when there is a high one |
| MasterOrchestrator.SeverityCountsBounded | MASTER_AUDIT_ORCHESTRATOR_EXAMPLE.py:145-147 | Critical and high items are different items, so their counts add up to at most the item count |
| MasterOrchestrator.RoundedOverall | MASTER_AUDIT_ORCHESTRATOR_EXAMPLE.py:252-272 | The overall score, rounded to 2 places, is 0 without results, the sole score with one, and the mean of the two with two |
| MasterOrchestrator.SynthesizeResults | MASTER_AUDIT_ORCHESTRATOR_EXAMPLE.py:194-292 | Findings are wages then safety and their count is `total_findings`; severity totals are the sums over present results; recommendations are duplicate-free with the same members as the union; `agents_invoked` equals the `act_scores` keys; the overall score is 0, the sole score or the mean |
| MasterOrchestrator.OverallScoreUnweighted | MASTER_AUDIT_ORCHESTRATOR_EXAMPLE.py:252-258 | The overall score is an unweighted mean: scores 80 and 40 give 60 |
| MasterOrchestrator.RunMasterAudit | MASTER_AUDIT_ORCHESTRATOR_EXAMPLE.py:295-364 | A specialist is invoked only for a non-empty bucket; the findings are those of the wages and safety buckets, so `total_findings` plus the size of `other` is the number of items; the overall score lies in [0, 100] |
| ApiPortal.EnvironmentRoutingRule | src/api_portal.py:142-166 | The environment predicate holds if and only if the lower-cased category contains `environment` or the id starts with `ACT-RULE` |
| ApiPortal.ShouldRouteToWagesAgent | src/api_portal.py:169-180 | Always false |
| ApiPortal.ShouldRouteToSafetyAgent | src/api_portal.py:183-194 | Always false |
| ApiPortal.EvidenceTextBoth | src/api_portal.py:217 | With both parts present and already trimmed, the evidence text is the two joined by one space |
| ApiPortal.EvidenceTextOne | src/api_portal.py:217 | With one part missing, the evidence text is the other part stripped |
| ApiPortal.StripSpaceEnd | src/api_portal.py:217 | Stripping ignores the joining space that an empty second part leaves at the end |
| ApiPortal.StripSpaceStart | src/api_portal.py:217 | Stripping ignores the joining space that an empty first part leaves at the start |
| ApiPortal.RouteAuditItem | src/api_portal.py:197-256 | The route is environment, unknown or error only; unknown exactly when the environment predicate fails, error exactly when the agent raises; a success status yields the final report and any other status the agent's error; a non-environment route's error carries the item id |
| ApiPortal.Bump | src/api_portal.py:327-340 | Counting one more routed item adds one to that agent's count only and one to the total; a key already present keeps its place and a new key is appended, as a Python dict orders its keys |
| ApiPortal.RouteStep | src/api_portal.py:327-340 | Recording one more result keeps the counts, the key order and the set of invoked agents in step with the results |
| ApiPortal.RoutingOfRecords | src/api_portal.py:327-340 | After the loop over the items there is one record per item, in input order |
| ApiPortal.RoutingOfMeaning | src/api_portal.py:327-340 | After the loop over the items, `items_routed` has a key for each agent routed to and no other, in order of first routing, each with that agent's number of results, and `agents_invoked` is the set of agents routed to |
| ApiPortal.RoutedKeysInOrder | src/api_portal.py:327-340 | Every result routed to a later key of `items_routed` comes after some result routed to each earlier key |
| ApiPortal.RouteItems | src/api_portal.py:327-340 | One result per item in input order; `items_routed` has a key for each agent routed to and no other, in order of first routing; the per-agent counts match the results and add up to the number of items; the invoked set is the agents routed to |
| ApiPortal.SortedAgentNames | src/api_portal.py:386 | The invoked agents' names in strictly increasing string order, exactly one per invoked agent and nothing else: every name is the name of an invoked agent, and there are as many names as agents |
| ApiPortal.SortedNamesDistinct | src/api_portal.py:386 | The sorted agent names are duplicate-free |
| ApiPortal.RankIsNameOrder | src/api_portal.py:386 | The agents' fixed ranking is the string order of their names |
| ApiPortal.VerdictCountsBounded | src/api_portal.py:343-368 | Compliant, non-compliant and needs-review counts add up to at most the number of results; critical plus high findings are at most the non-compliant count |
| Common.CompliancePercent | src/api_portal.py:357-358 | The batch score (the same guarded formula as python_ai_agent_example.py line 127) is 100·compliant/total, 0 for an empty batch, and lies in [0, 100] |
| ApiPortal.CollectRecommendations | src/api_portal.py:371-374 | The loop concatenates, in result order, the `recommendations` lists of the analyses that have one |
| ApiPortal.CappedRecommendations | src/api_portal.py:377 | The kept recommendations are distinct, drawn from the collected ones, as many as min(10, number of distinct ones), and all of them when there are at most 10 |
| ApiPortal.SubmitAuditBatch | src/api_portal.py:303-407 | HTTP 500 exactly when some environment result has no report; otherwise the request is echoed, there is one result per item, `items_routed` has a key for each agent routed to and no other, in order of first routing, with counts that match the results, the invoked agents are the sorted names of the agents that received an item and nothing else, the verdict and finding counts are bounded as above, the score is the batch score, and the recommendations are the capped de-duplicated collection: distinct, each taken from some report, and exactly min(10, number of distinct collected strings) of them |
| PythonAgent.CountsBounded | python_ai_agent_example.py:106-124 | Compliant plus non-compliant is at most the item count; critical plus high findings is at most the non-compliant count |
| PythonAgent.BelowReviewThreshold | python_ai_agent_example.py:127-141 | The score is below 70 exactly when 100·compliant < 70·total |
| PythonAgent.TextInjective | python_ai_agent_example.py:130-146 | Different recommendations have different messages |
| PythonAgent.RulesMembers | python_ai_agent_example.py:130-146 | Each of the four recommendations is present exactly when its condition holds (critical > 0, high > 0, score < 70, non-compliant > 0), and only those can be |
| PythonAgent.RulesRanked | python_ai_agent_example.py:130-146 | The recommendations come in the fixed order, so there are at most four |
| PythonAgent.BuildRules | python_ai_agent_example.py:130-146 | The appends produce exactly the rule list `Rules`: the recommendations whose condition holds, in the fixed order |
| PythonAgent.BuildRecommendations | python_ai_agent_example.py:130-146 | The messages are exactly those of the fired rules, in the fixed order; each is present exactly when its condition holds; at most four, all distinct; with no findings and a low score only the review message |
| PythonAgent.SummaryAsWritten | python_ai_agent_example.py:149-160 | The summary fails (division by zero) exactly for an empty batch |
| PythonAgent.SummaryGuarded | python_ai_agent_example.py:149-160 | With the division guarded, the compliant percentage is the score, and for a non-empty batch the summary is the one as written |
| PythonAgent.SubmitAuditBatchAsWritten | python_ai_agent_example.py:87-183 | As written, the endpoint answers HTTP 500 exactly for an empty batch; every success answers the request with the same promises as the guarded endpoint (`Answers`: counts, rounded score, recommendations as the fired rules' messages in order, and summary percentage) |
| PythonAgent.SubmitAuditBatch | python_ai_agent_example.py:87-183 | With the division guarded, every batch is answered (`Answers`): success, the batch id echoed, processed items equal to the item count, the critical and high counts equal to their findings and bounded by the non-compliant count, the score rounded to 2 places and within [0, 100], the recommendations exactly the fired rules' messages in the fixed order (each present exactly when its condition holds, at most 4 and distinct), and the summary percentage equal to the unrounded score; an empty batch scores 0 with only the threshold recommendation |
| ReportService.ScoreSumBounds | src/services/reportService.js:54-59 | Scores in [0, 100] sum to at most 100 per present score |
| ReportService.MeanScoreBounds | src/services/reportService.js:54-59 | The rounded mean of present scores in [0, 100] lies in [0, 100] |
| ReportService.OverallComplianceBounds | src/services/reportService.js:38-51 | Compliant rows are applicable; the percentage lies in [0, 100], is 100 when every applicable row is compliant and 0 when none is |
| ReportService.StatusCounts | src/services/reportService.js:103-116 | Applicable plus not-applicable is the row count; compliant plus non-compliant is at most it; critical open risks are non-compliant rows |
| ReportService.AgentKey | src/services/reportService.js:65 | A missing or empty agent name falls back to `Unknown_Agent`, so a key is never empty |
| ReportService.TallyStep | src/services/reportService.js:64-89 | A row changes only its own agent's entry |
| ReportService.GroupsOfGrouped | src/services/reportService.js:64-89 | The grouping holds each agent once, exactly the agents that some row names, with its own rows' tally |
| ReportService.OrderStep | src/services/reportService.js:64-89 | Appending a row keeps the names in order of first appearance, whether the row's agent is new (appended) or already met |
| ReportService.GroupsOfOrdered | src/services/reportService.js:64-89 | The grouping's names are in order of first appearance: every row of a later name comes after some row of each earlier name |
| ReportService.GroupByAgent | src/services/reportService.js:64-89 | The loop produces the grouping of all rows, with its names in the order they were inserted, which is the order of first appearance |
| ReportService.FirstSeenOrderFilter | src/services/reportService.js:64-89 | Keeping only some of the names keeps them in order of first appearance |
| ReportService.BreakdownKeys | src/services/reportService.js:62-113 | The breakdown's keys, in JavaScript's enumeration order, are the grouped names once each: integer-like names first in ascending value, then the others in order of first appearance |
| ReportService.TallyMeaning | src/services/reportService.js:64-89 | An agent's entry holds exactly its rows; its count of rows is their number and its issues are at most that |
| ReportService.GroupingPartitions | src/services/reportService.js:64-89 | Each row is in its agent's entry, and the entries' sizes add up to the number of rows |
| ReportService.Finish | src/services/reportService.js:93-100 | The second pass keeps an entry's rows, count and issues and drops the score counter |
| ReportService.FinishAll | src/services/reportService.js:93-100 | Every entry, and no other, is finished |
| ReportService.SummaryOf | src/services/reportService.js:37-116 | Each count is the number of rows with that status (applicable, compliant, non-compliant, not applicable, critical and open); the counts are consistent with each other, the critical count is bounded by the non-compliant one, the percentage is the rounded compliant share of applicable rows within [0, 100], and the score is the rounded mean |
| ReportService.EntryMeaning | src/services/reportService.js:64-100 | A finished entry holds its agent's rows, their number, its non-compliant rows and the rounded mean of their scores |
| ReportService.FetchAuditSessionReport | src/services/reportService.js:8-129 | `null` exactly on a query error; an empty report for no rows; otherwise the summary, the agents once each in JavaScript's enumeration order of the breakdown object (integer-like names ascending first, then the others in order of first appearance), each with its finished tally, and the rows |
| AuditReport.CalculateStats | src/components/AuditReport.jsx:58-88 | The row count is `totalItems`, the critical issues are the number of critical rows scored below 50, a non-empty list's score is the rounded mean, the confidence equals the compliance score, and no rows give all zeros |
| AuditReport.CriticalIssuesBounded | src/components/AuditReport.jsx:75-77 | Critical issues are scored rows, so there are at most as many as scored rows and as rows |
| AuditReport.ComplianceScoreMeaning | src/components/AuditReport.jsx:69-72 | The compliance score is the rounded mean of present scores, within [0, 100] when they are |
| AuditReport.ScoreBand | src/components/AuditReport.jsx:112-117 | Green from 80, yellow from 60, orange from 40, red below, each band exactly |
| AuditReport.ScoreBandMonotone | src/components/AuditReport.jsx:112-117 | A higher score never gets a lower band |
| AuditReport.BandClassInjective | src/components/AuditReport.jsx:112-117 | Different bands have different colours |
| AuditReport.ConfidenceLabel | src/components/AuditReport.jsx:362 | High from 80, Medium from 60, Low below, each exactly |
| AuditReport.LabelMatchesBand | src/components/AuditReport.jsx:112-362 | The label is High exactly on green and Medium exactly on yellow |
| AuditReport.RiskColor | src/components/AuditReport.jsx:91-97 | Red, orange or yellow exactly for a lower-cased critical, high or medium level; green otherwise, and for a missing level |
| AuditReport.RiskColorIgnoresCase | src/components/AuditReport.jsx:91-97 | The risk badge ignores letter case |
| AuditReport.CategoryColor | src/components/AuditReport.jsx:100-109 | Each of the five known lower-cased categories has its colour; `constructor` and `__proto__` look up members inherited from `Object.prototype`, which are truthy, so the badge gets that inherited value rather than gray; anything else, and a missing category, is gray |
| AuditReport.CategoryColorIgnoresCase | src/components/AuditReport.jsx:100-109 | The category badge ignores letter case |
| AuditProgress.Completion | src/components/AuditProgress.jsx:46-50 | 0 for an act without questions, within [0, 100] when answers do not outnumber questions, 100 when all are answered |
| AuditProgress.ProgressOf | src/components/AuditProgress.jsx:41-84 | An act's answered count is the number of answers for its id; it is complete exactly when that equals its question count |
| AuditProgress.StatusCountsBounded | src/components/AuditProgress.jsx:53-67 | The status counters, matched in any letter case and spelling, add up to at most the answered count |
| AuditProgress.ActCompletionBounds | src/components/AuditProgress.jsx:46-82 | The completion lies in [0, 100] and is 100 for a complete act with questions |
| AuditProgress.RoundedFullIsNotComplete | src/components/AuditProgress.jsx:48-82 | 199 of 200 answered shows 100% while the act is not complete |
| AuditProgress.ProgressByAct | src/components/AuditProgress.jsx:41 | One progress record per selected act, in order |
| AuditProgress.OverallProgressBounds | src/components/AuditProgress.jsx:90-92 | The overall progress lies in [0, 100] |
| AuditProgress.OverallCompleteIsFull | src/components/AuditProgress.jsx:90-92 | When every act is complete and there are questions, the overall progress is 100 |
| AuditProgress.LoadProgressData | src/components/AuditProgress.jsx:19-101 | A query error keeps the previous progress; otherwise the per-act records and the overall percentage |
| BusinessAuditData.CreateChecklistItem | src/constants/business-audit-data.ts:30-45 | A fresh item is not compliant, pending review, without severity, findings or evidence, and its remarks are the legal reference or empty |
| BusinessAuditData.Build | src/constants/business-audit-data.ts:53-279 | A checklist holds one fresh item per entry, in declaration order |
| BusinessAuditData.WeightsDecreasing | src/constants/business-audit-data.ts:460-465 | The severity weights are positive and strictly decreasing from critical to low |
| BusinessAuditData.SectionsMatchChecklists | src/constants/business-audit-data.ts:372-453 | The wizard's section keys are the checklist keys in the same order, and each section's item count is its checklist's size |
| BusinessAuditData.InitialItemsPending | src/constants/business-audit-data.ts:53-279 | Every initial item is pending review without a severity |
| BusinessAuditData.FlattenDistinct | src/constants/business-audit-data.ts:53-279 | Blocks of distinct ids under prefixes that do not overlap give distinct ids overall |
| BusinessAuditData.IdPrefixesApart | src/constants/business-audit-data.ts:53-279 | No checklist's id prefix begins another's |
| BusinessAuditData.ItemIdsDistinct | src/constants/business-audit-data.ts:53-279 | The item ids of all checklists are pairwise distinct |
| BusinessAuditWizard.FindSection | src/components/BusinessAuditWizard.jsx:75 | Finds a section with that key, and none exactly when no section has it |
| BusinessAuditWizard.OverallRiskLevel | src/components/BusinessAuditWizard.jsx:89 | HIGH exactly when critical > 0 or high > 2, MEDIUM exactly when not HIGH and medium > 5, LOW otherwise |
| BusinessAuditWizard.CalculateRiskSummary | src/components/BusinessAuditWizard.jsx:45-103 | The loops compute the heat map of the checklists |
| BusinessAuditWizard.SectionFlaggedBound | src/components/BusinessAuditWizard.jsx:49-73 | Each item is counted under at most one severity |
| BusinessAuditWizard.TotalBounded | src/components/BusinessAuditWizard.jsx:49-88 | The heat map's total is at most the number of items |
| BusinessAuditWizard.BreakdownLength | src/components/BusinessAuditWizard.jsx:75-85 | A checklist gets a category entry exactly when its key is a known section |
| BusinessAuditWizard.BreakdownEntryTotals | src/components/BusinessAuditWizard.jsx:77-83 | Each category's total is the sum of its four counts |
| BusinessAuditWizard.BreakdownTotals | src/components/BusinessAuditWizard.jsx:75-88 | The categories' totals add up to at most the overall total, and to it exactly when every checklist is a known section |
| BusinessAuditWizard.PendingTotals | src/components/BusinessAuditWizard.jsx:53 | Checklists of items pending review count nothing |
| BusinessAuditWizard.FindDistinct | src/components/BusinessAuditWizard.jsx:75 | With distinct keys, looking up a section's key finds that section |
| BusinessAuditWizard.FreshSummary | src/components/BusinessAuditWizard.jsx:45-103 | Fresh checklists, one per section in order, give an all-zero LOW heat map with a zero category per section |
| BusinessAuditWizard.InitialHeatMapRecomputed | src/components/BusinessAuditWizard.jsx:45-103 | Recomputing the heat map of the initial checklists gives the all-zero LOW heat map |
| BusinessAuditWizard.InitialHeatMapMatchesRule | src/constants/business-audit-data.ts:283-298 | The initial heat map's counts are all zero and its level is the rule's level for zeros |
| BusinessAuditWizard.ApplyChange | src/components/BusinessAuditWizard.jsx:110-114 | Only the edited field changes, except that marking an item compliant also clears its severity |
| BusinessAuditWizard.HandleChecklistItemChange | src/components/BusinessAuditWizard.jsx:105-121 | The section keys stay the same; the target item is changed as above; the other items and sections are unchanged |
| BusinessAuditWizard.NotFlaggedAfterStatus | src/components/BusinessAuditWizard.jsx:53-114 | An item set to any status other than non-compliant is counted under no severity |
| BusinessAuditWizard.ClearingStatusNeverRaisesRisk | src/components/BusinessAuditWizard.jsx:49-121 | Setting an item to a status other than non-compliant never raises any severity count |
| BusinessAuditWizard.HandleNext | src/components/BusinessAuditWizard.jsx:123-129 | Advances one section before the last; on the last it shows the heat map |
| BusinessAuditWizard.HandlePrevious | src/components/BusinessAuditWizard.jsx:131-135 | Steps back one section, never below the first, and leaves the heat-map flag alone |
| BusinessAuditWizard.StepStaysInRange | src/components/BusinessAuditWizard.jsx:123-260 | Any page action keeps the section index within the sections |
| BusinessAuditWizard.RunStaysInRange | src/components/BusinessAuditWizard.jsx:123-260 | Any sequence of page actions keeps the section index within the sections |
| BusinessAuditWizard.NextWalk | src/components/BusinessAuditWizard.jsx:123-129 | k presses of Next from the start reach section k, or the heat map on the last section once k reaches the section count |
| ContractAuditWizard.SummarizeRisk | ContractAuditWizard.tsx:77-97 | The loops compute the risk summary of the checklists |
| ContractAuditWizard.LevelsWithinTotal | ContractAuditWizard.tsx:85-91 | The four level counts add up to at most the total |
| ContractAuditWizard.UnratedFailureWidensGap | ContractAuditWizard.tsx:85-91 | A failed answer without a level raises the total without raising any level |
| ContractAuditWizard.InitialSummaryIsTally | ContractAuditWizard.tsx:59-71 | The initial all-zero summary is the summary of the initial empty checklists |
| ContractAuditWizard.ApplyAnswer | ContractAuditWizard.tsx:110-119 | Only the edited field changes; a status change keeps the risk level |
| ContractAuditWizard.HandleChecklistChange | ContractAuditWizard.tsx:100-121 | The section exists afterwards; the answer is the old or fresh one with the field changed; the other answers and sections are unchanged |
| ContractAuditWizard.FreshAnswer | ContractAuditWizard.tsx:107-108 | Editing a missing answer first creates a pending one with that id and an empty description |
| ContractAuditWizard.RatingUnfailedAnswerKeepsSummary | ContractAuditWizard.tsx:85-121 | Rating an answer that has not failed leaves the risk summary unchanged |
| ContractAuditWizard.StepOf | ContractAuditWizard.tsx:124-226 | The step stays within sections plus summary; Next before the summary advances by one; the summary button reaches the last step |
| ContractAuditWizard.StepsInRange | ContractAuditWizard.tsx:124-226 | Any sequence of page actions keeps the step within sections plus summary |
| ContractAuditWizard.NextReachesSummary | ContractAuditWizard.tsx:124-226 | n presses of Next from step k reach min(k + n, sections), which is the last step exactly when k + n reaches the section count |
| ContractAuditWizard.WizardSectionsHaveChecklists | ContractAuditWizard.tsx:13-71 | Every wizard section names one of the initial checklists |
| ActRegistry.RegistryWith | src/data/actRegistry.js:34-200 | The registry has its 15 entries in order, each with its id, type and checklist data |
| ActRegistry.GetActsByType | src/data/actRegistry.js:203-205 | Exactly the entries of that type, as many as there are, in registry order (the input with the other entries dropped) |
| Common.FirstOccurrences | src/api_portal.py:327-340 | The first occurrences of a sequence's elements are duplicate-free and hold exactly its elements |
| Common.FirstOccurrencesOrder | src/api_portal.py:327-340 | In the first occurrences, every occurrence of a later element comes after an occurrence of each earlier one |
| Common.InsertByValue | src/services/reportService.js:62-67 | Inserting a key keeps the keys a permutation plus that key and keeps them in ascending numeric order |
| Common.SortByValue | src/services/reportService.js:62-67 | The integer-like keys, sorted: a permutation in ascending numeric order |
| Common.ObjectKeyOrder | src/services/reportService.js:62-67 | `Object.keys` of an object filled in a given key order: a permutation of the keys with the integer-like ones first, in ascending value, then the others in insertion order |
| Common.FilterInOrder | src/data/actRegistry.js:203-205 | `filter` keeps relative order: its result lists the input's elements at the increasing positions that satisfy the predicate, and at all of them |
| ActRegistry.GetAllActs | src/data/actRegistry.js:207-209 | Exactly the entries of type `act` |
| ActRegistry.GetAllRules | src/data/actRegistry.js:211-213 | Exactly the entries of type `rules` |
| ActRegistry.GetActById | src/data/actRegistry.js:215-217 | The first entry with that id, as `find` returns it, and none exactly when no entry has it |
| ActRegistry.FindsEachEntry | src/data/actRegistry.js:215-217 | With distinct ids, each entry is found by its own id |
| ActRegistry.Normalize | src/data/actRegistry.js:224-227 | An item's `id` becomes its `audit_item_id`; nothing else changes |
| ActRegistry.GetActData | src/data/actRegistry.js:219-228 | An unknown id gives an empty list; a known one gives its items, same length and order, each normalised |
| ActRegistry.NormalizeIdempotent | src/data/actRegistry.js:224-227 | Normalising an act's data again changes nothing |
| ActRegistry.ActsAndRulesPartition | src/data/actRegistry.js:207-213 | When every entry is an act or a rule, acts and rules together are all entries |
| ActRegistry.RegistryIdsDistinct | src/data/actRegistry.js:34-200 | The registry ids are pairwise distinct |
| ActRegistry.RegistryActsAndRules | src/data/actRegistry.js:34-213 | The registry has 13 acts and 2 rules, which together are all entries |
| ActRegistry.RegistryFindable | src/data/actRegistry.js:34-217 | Every registry entry is found by its own id |

## Left out

- The specialist agent behind the portal's environment route is a parameter
  (`analyze`); what it computes is not part of this model.
- The web and persistence layers are not modelled: FastAPI endpoints, CORS,
  startup, Supabase queries and logging. A query's answer is a parameter of
  the member that consumes it.
- Timestamps and generated ids are not modelled: `processing_timestamp`,
  `datetime.now()`, `new Date()`, `reviewedAt`.
- React rendering, icons, question labels and tooltips, the
  `COMPLIANCE_STATUS_COLORS` table and PDF generation are not modelled.
- `INITIAL_BASIC_CONTRACT_INFO` and the audit metadata of
  `INITIAL_AUDIT_STATE` are not modelled; only its checklists and heat map are.
- Floating point is not modelled. Python `round(x, 2)` is round-half-even on
  the exact rational, and `Math.round(p/q)` is exact on integers. Cases
  where binary floating point would round differently are not captured.
- The summary string's layout (`:.1f`, `:.2f`) is not modelled; only its
  compliant percentage is.
- MasterOrchestrator.PartitionAuditItems: requires every present
  `audit_item_id` to be a string (`IdsReadable`); an explicit `None` makes the
  source raise on `.startswith`, which is not modelled.
- MasterOrchestrator.SynthesizeResults: the order of the recommendations
  after `list(set(...))` is unspecified in the source, so the contract states
  only duplicate-freedom and equal membership.
- ApiPortal.CappedRecommendations: for the same reason, states only which
  strings can be kept and how many, not which ten survive.
- ApiPortal.EnvironmentRoutingRule: lower-casing is ASCII-only; non-ASCII
  case folding is not modelled.
- ActRegistry.RegistryWith: the names, descriptions and table names of the
  acts and the JSON checklist files they load are parameters (`texts`, `data`).
  The JSON files are not part of this model.
- BusinessAuditData.Build: the question wording and legal references of the
  38 items are a parameter (`wording`); an id without wording gets the empty
  one.
- BusinessAuditWizard.HandleChecklistItemChange: requires the section and
  item to exist, which is the only way the page calls it. For a missing key
  the source would build a partial item, and that case is not modelled.
- BusinessAuditWizard.ApplyChange: an empty severity choice is modelled as
  no severity.
- BusinessAuditWizard.CalculateRiskSummary: the sections are a parameter; the
  page passes `AUDIT_SECTIONS`.
- BusinessAuditWizard.ClearingStatusNeverRaisesRisk: requires distinct
  section keys, which JavaScript object keys always are.
- ContractAuditWizard.RatingUnfailedAnswerKeepsSummary: requires distinct
  section and question keys, which JavaScript object keys always are.
- ContractAuditWizard.HandleChecklistChange: the fresh answer has no evidence
  list, modelled as an empty one; editing evidence is not modelled.
- The wizards' association lists keep their keys in insertion order. Their
  keys are fixed identifiers such as `contractAvailability`, never
  integer-like, so that is also the order JavaScript enumerates them in.
- ReportService.FetchAuditSessionReport: only the query-error path returns
  `null`. The source also returns `null` from its catch
  (src/services/reportService.js:126-129) when a row's agent is named after an
  `Object.prototype` member such as `constructor`, `toString` or `__proto__`.
  That inherited member is truthy at line 67, so no entry is created, and
  `.items.push` at line 77 throws. The model instead returns a report with an
  entry for that agent.
- ApiPortal.CollectRecommendations: a report whose `recommendations` key is
  present but `None` makes `extend` raise and the endpoint answer HTTP 500
  (src/api_portal.py:373-374). The report type cannot hold that case, because
  a present key always holds a list, so that path is not modelled.

## Findings

| source | as written | input that shows it | evidently intended | confidence | as-written member | corrected member |
|---|---|---|---|---|---|---|
| python_ai_agent_example.py:153 | The summary divides by `total_items` unguarded, although line 127 guards the score; the `ZeroDivisionError` is turned into HTTP 500 | an empty `audit_items` list | An empty batch gets the guarded score 0 and a success response | not executed | PythonAgent.SubmitAuditBatchAsWritten | PythonAgent.SubmitAuditBatch |
