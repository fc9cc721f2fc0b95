# Phoenix incident-response agents, modelled in Dafny

Phoenix answers monitoring alerts with four cooperating agents:

- **Orchestrator.** Turns an alert into an incident. It classifies the severity, chooses the agents the incident needs, and sends the incident to diagnosis. It then reacts to what the agents report: it escalates, forwards the diagnosis to resolution, or records the outcome of the resolution.
- **Diagnostic agent.** Counts known log patterns against per-pattern thresholds and buckets log severities. It classifies metric anomalies, picks a root cause, writes recommendations and compiles the evidence.
- **Resolution agent.** Turns a root cause into a plan of remediation actions and assesses the plan's risk. It asks for approval or executes the plan action by action, in place, and reports overall success.
- **Communication agent.** Maps events to message types and selects the stakeholders to notify. It routes notifications to the channels that are configured and have a template, keeps a per-incident history, formats the notification texts, and validates approval answers.

The model has six modules:

- `Base` (`base.dfy`): shared vocabulary. It holds optional values, ASCII case mapping, Python's `sub in s`, `str(n)` for integers, and the diagnosis and action-result records that travel between agents.
- `OrchestratorAgent` (`orchestrator.dfy`).
- `ResolutionAgent` (`resolution.dfy`).
- `CommunicationAgent` (`communication.dfy`).
- `DiagnosticAgent` (`diagnostic.dfy`).
- `Pipeline` (`pipeline.dfy`): states what the orchestrator does with the result events of the other agents.

Each agent's object becomes a `class` whose fields its methods update. Those fields are the orchestrator's active incidents, the resolution agent's executed actions, and the communication agent's history. The plan executor updates an `array` of actions in place. Pure decision logic is written as functions. Each loop of the source becomes a method with invariants, proved against a specification function.

Inputs the agents get from the outside world are parameters of the model:

- clock readings (whole seconds);
- generated identifiers;
- the language model's answers;
- the exceptions raised by executors and by the event bus;
- the regular-expression test.

The repository's own description also mentions a virtual-user load generator and an alert relay with retries. No file of these agents implements them, so the model follows the code and leaves them out.

## Model

| member | source | states |
|---|---|---|
| OrchestratorAgent.ClassifyByMetrics | agents/orchestrator/agent.py:217-235 | critical iff cpu>90, memory>95 or errors>50; at least high iff >80, >85 or >20; at least medium iff >70, >75 or >10; low otherwise |
| OrchestratorAgent.FallbackSeverity | agents/orchestrator/agent.py:217-235 | critical iff cpu_percentage>90, memory_percentage>95 or error_rate>50 in the alert's metrics; at least high iff >80, >85 or >20; at least medium iff >70, >75 or >10; a missing metric counts as 0 |
| OrchestratorAgent.ClassifySeverity | agents/orchestrator/agent.py:182-215 | the language model's severity when it gives one, the fallback rules otherwise |
| OrchestratorAgent.FallbackMonotone | agents/orchestrator/agent.py:228-235 | raising any metric never lowers the severity |
| OrchestratorAgent.NoMetricsIsLow | agents/orchestrator/agent.py:219-226 | an alert without metrics is low |
| OrchestratorAgent.RequiredAgents | agents/orchestrator/agent.py:261-271 | diagnostic comes first; resolution iff high or critical; communication iff not low; low gives exactly diagnostic; no role twice |
| OrchestratorAgent.NewIncident | agents/orchestrator/agent.py:160-180 | a new incident is DETECTED with no agents and no actions, title and source defaulted, both times set to now |
| OrchestratorAgent.Coordinate | agents/orchestrator/agent.py:237-247 | coordination makes the incident ANALYZING and assigns exactly the required agents |
| OrchestratorAgent.Escalate | agents/orchestrator/agent.py:312-324 | escalation sets ESCALATED and notifies only when communication is assigned |
| OrchestratorAgent.OnDiagnostic | agents/orchestrator/agent.py:418-434 | top-level confidence (default 0.0) below 0.8 escalates with that confidence as the reason; otherwise the incident is unchanged and the diagnosis goes to resolution when it is assigned, else a "diagnosis_complete" request goes to communication when it is assigned |
| OrchestratorAgent.OnResolution | agents/orchestrator/agent.py:467-488 | the reported actions are appended; success gives RESOLVED with the elapsed time and, when communication is assigned, sends it an "incident_resolved" request; failure escalates the updated incident as "automatic resolution failed" |
| OrchestratorAgent.OnResponse | agents/orchestrator/agent.py:394-416 | an unrecognised agent type changes nothing; identity, severity, creation time and agents are kept; actions only grow; status only moves to RESOLVED or ESCALATED |
| OrchestratorAgent.ReplayPreserves | agents/orchestrator/agent.py:394-488 | over any sequence of responses the incident keeps its identity and assigned agents, and its action record only grows |
| OrchestratorAgent.PhoenixOrchestrator.constructor | agents/orchestrator/agent.py:76-97 | no active incidents and no events |
| OrchestratorAgent.PhoenixOrchestrator.ProcessAlert | agents/orchestrator/agent.py:130-158 | the incident is created and registered; if the Cosmos DB write fails the call raises and the incident stays DETECTED with no agents; otherwise it is coordinated and an analysis request is sent, or, when that dispatch fails, escalated; the call returns the id unless the write failed or the escalation notice to an assigned communication agent failed too |
| OrchestratorAgent.PhoenixOrchestrator.CoordinateResponse | agents/orchestrator/agent.py:237-259 | the incident becomes ANALYZING with the required agents and the analysis request is published; a failed publish escalates it instead; the call fails exactly when both that publish and a due escalation notice fail |
| OrchestratorAgent.PhoenixOrchestrator.EscalateIncident | agents/orchestrator/agent.py:312-340 | the stored incident becomes its escalation whether or not the notice is sent; the notice, if due, is published when its send succeeds, and the call raises exactly when a due notice fails |
| OrchestratorAgent.PhoenixOrchestrator.HandleAgentResponse | agents/orchestrator/agent.py:394-416 | a response for an unknown or missing incident id changes nothing; otherwise the incident is replaced by the handler's result, and its events are published unless the send raised, which is swallowed |
| OrchestratorAgent.PhoenixOrchestrator.HandleDiagnosticResponse | agents/orchestrator/agent.py:418-465 | stores the diagnostic handler's result and publishes its events when the send succeeds |
| OrchestratorAgent.PhoenixOrchestrator.HandleResolutionResponse | agents/orchestrator/agent.py:467-488 | stores the resolution handler's result and publishes its events when the send succeeds |
| OrchestratorAgent.PhoenixOrchestrator.GetIncidentStatus | agents/orchestrator/agent.py:497-512 | None iff the id is unknown; otherwise the incident's id, status, severity, creation and update times, agents and actions |
| ResolutionAgent.SelectBranchFirstMatch | agents/resolution/agent.py:212-225 | the plan branch is the first keyword group found in the lower-cased root cause: cpu, memory, database, timeout/response, error/exception, else none |
| ResolutionAgent.HighCpuMentionsCpu | agents/resolution/agent.py:212 | the "high_cpu" test adds nothing to the "cpu" test |
| ResolutionAgent.PlanCpu | agents/resolution/agent.py:252-288 | scale out to 5 first; an UPDATE_CONFIG follows iff cpu_percentage > 90 |
| ResolutionAgent.PlanMemory | agents/resolution/agent.py:290-324 | restart first; a SCALE_UP follows iff memory_percentage > 85 |
| ResolutionAgent.PlanDatabase | agents/resolution/agent.py:326-358 | optimize the database, then clear the cache |
| ResolutionAgent.PlanPerformance | agents/resolution/agent.py:360-392 | circuit breaker, then scale out to 3 |
| ResolutionAgent.CheckRecentDeployment | agents/resolution/agent.py:477-494 | the placeholder always reports a deployment |
| ResolutionAgent.PlanError | agents/resolution/agent.py:394-427 | one action: rollback to the previous version after a recent deployment, else restart |
| ResolutionAgent.PlanGeneric | agents/resolution/agent.py:429-459 | clear the cache, then scale out to 2 |
| ResolutionAgent.PlanActions | agents/resolution/agent.py:211-229 | never empty; no branch gives the generic plan; every action starts pending, unstarted, without result or rollback, and targets at most 5 instances |
| ResolutionAgent.AssessRisk | agents/resolution/agent.py:231-238 | confidence below 0.7 is high risk with approval; a restart or rollback is medium risk with approval iff severity is critical; else low risk without approval |
| ResolutionAgent.DurationOf | agents/resolution/agent.py:461-475 | every action type's estimate is between 15 and 300 seconds |
| ResolutionAgent.EstimatedDurationAppend | agents/resolution/agent.py:241 | the plan estimate is additive over action lists |
| ResolutionAgent.EstimatedDurationBounds | agents/resolution/agent.py:241 | the estimate lies between 15 and 300 seconds per action |
| ResolutionAgent.CreatePlan | agents/resolution/agent.py:199-250 | the plan holds the actions of the branch the root cause selects, its estimate is their table durations summed (between 15 and 300 s per action), risk and approval follow the risk rules, and it carries the incident id and creation time |
| ResolutionAgent.UnrecognisedCauseUsesGenericPlan | agents/resolution/agent.py:228-229 | an unrecognised root cause gives the generic plan of 150 seconds, low risk when confident |
| ResolutionAgent.ErrorCauseAlwaysRollsBack | agents/resolution/agent.py:394-427 | an error root cause always plans a rollback, medium risk, approval iff critical |
| ResolutionAgent.ExecuteScaleOut | agents/resolution/agent.py:600-630 | a scale-out succeeds iff its target (default 3) is within 20 and nothing raised |
| ResolutionAgent.ExecuteAction | agents/resolution/agent.py:574-598 | an action fails iff its executor raised or it is a scale-out beyond the limit; the message names the reason |
| ResolutionAgent.Rollback | agents/resolution/agent.py:804-821 | the action becomes ROLLED_BACK exactly when its rollback action exists and succeeds |
| ResolutionAgent.StepFacts | agents/resolution/agent.py:531-570 | one iteration keeps the action's identity and records both times and the result; success is COMPLETED, failure is FAILED or ROLLED_BACK |
| ResolutionAgent.Outcomes | agents/resolution/agent.py:524-572 | one outcome per action |
| ResolutionAgent.OutcomeAt | agents/resolution/agent.py:531-570 | the i-th outcome is the i-th action's step |
| ResolutionAgent.Entries | agents/resolution/agent.py:556-568 | one result entry per action, in plan order |
| ResolutionAgent.Finals | agents/resolution/agent.py:531-552 | the final state of each action, in plan order |
| ResolutionAgent.RecordAllExact | agents/resolution/agent.py:814-815 | with distinct ids each executed action is recorded under its id with its final state |
| ResolutionAgent.RecordAllNotIn | agents/resolution/agent.py:814-815 | entries under other ids are untouched |
| ResolutionAgent.PlannedActionsSucceed | agents/resolution/agent.py:600-612 | every planned action passes the safety limit, so only an exception can fail it |
| ResolutionAgent.FaultFreePlanSucceeds | agents/resolution/agent.py:178-181 | a plan whose executors raise nothing succeeds as a whole |
| ResolutionAgent.PhoenixResolutionAgent.constructor | agents/resolution/agent.py:81-105 | no executed actions, approvals or results |
| ResolutionAgent.PhoenixResolutionAgent.ExecuteOne | agents/resolution/agent.py:531-570 | the loop body for one action is its step |
| ResolutionAgent.PhoenixResolutionAgent.ExecutePlan | agents/resolution/agent.py:524-572 | results, the in-place final actions and the executed-action record are those of the stepwise outcomes |
| ResolutionAgent.PhoenixResolutionAgent.ExecuteResolution | agents/resolution/agent.py:148-197 | the plan handled is the one `_create_resolution_plan` gives for the incident and diagnosis, with the outcomes of `ResolvePlan` |
| ResolutionAgent.PhoenixResolutionAgent.ResolvePlan | agents/resolution/agent.py:168-197 | an approval-required plan is queued and nothing runs; otherwise the plan runs, success is all-succeeded, time is the sum of durations, and a result event is sent; when the approval request or result send raises, executed actions stay recorded, the handler reports failure with no actions (unless that send raises too) and the exception propagates |
| ResolutionAgent.PhoenixResolutionAgent.HandlePlan | agents/resolution/agent.py:169-192 | the approval check on a created plan: queue it, or run it; a raising send is not recorded and its error is returned |
| ResolutionAgent.PhoenixResolutionAgent.RunPlan | agents/resolution/agent.py:178-192 | the plan's actions are executed and recorded; the result event is sent and the answer returned, or the send's error is returned |
| ResolutionAgent.AllResultsSucceeded | agents/resolution/agent.py:181 | true iff every result succeeded |
| ResolutionAgent.SumDurations | agents/resolution/agent.py:191 | the sum of the durations |
| CommunicationAgent.MessageTypeMapping | agents/communication/agent.py:378-390 | the six event types map one-to-one to message types; STATUS_UPDATE is never produced |
| CommunicationAgent.TargetStakeholders | agents/communication/agent.py:425-444 | ops always; dev and on-call iff high or critical; management iff critical, escalation or approval request |
| CommunicationAgent.LoadStakeholders | agents/communication/agent.py:134-177 | exactly the four stakeholders, each under its own id, none listing a channel twice |
| CommunicationAgent.TemplatePriority | agents/communication/agent.py:179-356 | templates exist for Teams on every message type but status update, and by e-mail only for a detection |
| CommunicationAgent.StatusUpdatesAreNotSent | agents/communication/agent.py:392-423 | a status update reaches no channel |
| CommunicationAgent.DefaultChannelsOnly | agents/communication/agent.py:392-423 | with the default channels only Teams and e-mail are used |
| CommunicationAgent.CriticalDetectionRouting | agents/communication/agent.py:392-444 | a critical detection goes exactly to the five listed stakeholder/channel pairs |
| CommunicationAgent.EvidenceLines | agents/communication/agent.py:564-576 | up to three bullets with a default description, then a line counting the rest |
| CommunicationAgent.EvidenceLinesAccountForAll | agents/communication/agent.py:564-576 | the count in the last line plus three is the number of items |
| CommunicationAgent.RecommendationLines | agents/communication/agent.py:578-583 | the first five recommendations as bullets |
| CommunicationAgent.ActionLines | agents/communication/agent.py:585-598 | up to three actions with a success mark, then a line counting the rest |
| CommunicationAgent.SuccessCount | agents/communication/agent.py:600-605 | at most the number of actions |
| CommunicationAgent.SuccessCountAll | agents/communication/agent.py:600-605 | all are counted iff every action succeeded |
| CommunicationAgent.FormatMetrics | agents/communication/agent.py:550-562 | "No metrics available" exactly when there are none; otherwise the text opens with the first "- key: value" bullet |
| CommunicationAgent.MetricLines | agents/communication/agent.py:555-562 | one "- key: value" bullet per metric, in order |
| CommunicationAgent.FormatEvidence | agents/communication/agent.py:564-576 | "No evidence collected" exactly when there is none; otherwise the text opens with the first item's bullet |
| CommunicationAgent.FormatRecommendations | agents/communication/agent.py:578-583 | "No recommendations available" exactly when there are none; otherwise the text opens with the first bullet |
| CommunicationAgent.FormatActions | agents/communication/agent.py:585-598 | "No actions taken" exactly when there are none; otherwise the text opens with the first action's mark and description |
| CommunicationAgent.ResolutionSummaryFull | agents/communication/agent.py:600-605 | the summary reads "n/n actions completed successfully" iff every action succeeded |
| CommunicationAgent.FormatProposedActions | agents/communication/agent.py:607-616 | "No actions proposed" exactly when there are none; otherwise the text opens with the first action's bullet |
| CommunicationAgent.ProposedActionLines | agents/communication/agent.py:607-616 | one bullet per proposed action with a default description |
| CommunicationAgent.ElapsedText | agents/communication/agent.py:618-637 | no creation time gives "Unknown"; under an hour elapsed, the whole minutes and " minutes"; from an hour on, the whole hours, "h ", the minutes past them and "m"; a clock behind the creation time gives "0 minutes" within a minute, else "-" and the whole minutes, as `int()` truncates toward zero |
| CommunicationAgent.ElapsedHours | agents/communication/agent.py:628-634 | from an hour on, the hours and minutes printed are the whole hours of the seconds and the whole minutes past them |
| CommunicationAgent.MinutesText | agents/communication/agent.py:628-631 | below an hour the count is printed with " minutes", with a minus sign when negative |
| CommunicationAgent.HoursTextSplits | agents/communication/agent.py:628-634 | the "Hh Mm" text determines both numbers |
| CommunicationAgent.MinutesTextInjective | agents/communication/agent.py:628-634 | from an hour on, different minute counts print differently |
| CommunicationAgent.SmsText | agents/communication/agent.py:743 | over 160 characters are cut to 160 plus "..." |
| CommunicationAgent.SmsTextIdempotent | agents/communication/agent.py:743 | cutting twice is cutting once |
| CommunicationAgent.ThemeColor | agents/communication/agent.py:695-704 | one of the four theme colors |
| CommunicationAgent.SirenSubjectsAreRed | agents/communication/agent.py:695-704 | a subject starting with the siren is red |
| CommunicationAgent.ResolvedSubjectIsGreen | agents/communication/agent.py:695-704 | the resolved subject is green unless its title carries an escalation marker |
| CommunicationAgent.WarningSubjectsAreOrange | agents/communication/agent.py:695-704 | a subject starting with the warning mark (the approval subject) is orange unless the rest carries a red or green marker |
| CommunicationAgent.MagnifierSubjectsAreBlue | agents/communication/agent.py:695-704 | a subject starting with the magnifier (the diagnosis subject) is the default blue when the rest carries no marker |
| CommunicationAgent.NextActionAgreesWithMessageType | agents/communication/agent.py:643-661 | "Status update" iff the event has no message type; a resolution reads "Incident resolved" iff it succeeded |
| CommunicationAgent.ForwardedResponseValid | agents/communication/agent.py:775-800 | the upper-cased answer forwarded is itself valid |
| CommunicationAgent.PhoenixCommunicationAgent.constructor | agents/communication/agent.py:83-103 | configured channels (default Teams and e-mail), the four stakeholders, empty history |
| CommunicationAgent.PhoenixCommunicationAgent.SendNotifications | agents/communication/agent.py:392-423 | exactly the routed deliveries are sent, each once when no stakeholder lists a channel twice (as the loaded directory), and one history entry is appended |
| CommunicationAgent.PhoenixCommunicationAgent.NotifyStakeholder | agents/communication/agent.py:402-412 | one stakeholder's turn adds exactly its routed deliveries, without repeats when its preferences have none |
| CommunicationAgent.PhoenixCommunicationAgent.HandleNotificationRequest | agents/communication/agent.py:358-376 | an unmapped event sends and records nothing; otherwise as for sending |
| CommunicationAgent.PhoenixCommunicationAgent.HandleApprovalResponse | agents/communication/agent.py:775-817 | invalid answers are refused with no effect; a failed publish reports the error; otherwise the upper-cased answer is published and a status update recorded |
| CommunicationAgent.PhoenixCommunicationAgent.NotificationHistory | agents/communication/agent.py:834-836 | an unknown incident has an empty history |
| DiagnosticAgent.KnownPatternsKeyed | agents/diagnostic/agent.py:117-150 | the pattern table has distinct names |
| DiagnosticAgent.HitsAreMatches | agents/diagnostic/agent.py:348-361 | an occurrence is recorded for a pattern iff some log line's message matches it |
| DiagnosticAgent.FirstMatchIsFirst | agents/diagnostic/agent.py:348-361 | the first match is a matching line with no match before it |
| DiagnosticAgent.Least | agents/diagnostic/agent.py:372 | `min` is an element bounding all below |
| DiagnosticAgent.Greatest | agents/diagnostic/agent.py:373 | `max` is an element bounding all above |
| DiagnosticAgent.SummaryFacts | agents/diagnostic/agent.py:366-375 | frequency is the count; first seen ≤ every timestamp ≤ last seen; examples are the first three messages |
| DiagnosticAgent.TallyLine | agents/diagnostic/agent.py:353-361 | one log line is checked against every pattern and its occurrence appended under each match; key order records first matches |
| DiagnosticAgent.TallyPatterns | agents/diagnostic/agent.py:346-361 | the counts hold, per pattern, exactly its matches in log order; keys appear in first-match order |
| DiagnosticAgent.SelectReports | agents/diagnostic/agent.py:364-376 | every report is the summary of a significant pattern of the whole log |
| DiagnosticAgent.SelectOrdered | agents/diagnostic/agent.py:364-376 | reports keep key order |
| DiagnosticAgent.SelectComplete | agents/diagnostic/agent.py:364-376 | a key that reaches its threshold is reported |
| DiagnosticAgent.ReportPatterns | agents/diagnostic/agent.py:364-376 | the second loop reports the keys at or above threshold, in key order |
| DiagnosticAgent.AnalyzeLogPatterns | agents/diagnostic/agent.py:342-379 | each report is a significant pattern's summary; every significant pattern is reported; reports are in first-match order |
| DiagnosticAgent.BucketOf | agents/diagnostic/agent.py:531-539 | critical iff ≥4, error iff 3, warning iff 2, info iff below 2 (missing is 0) |
| DiagnosticAgent.BucketsPartition | agents/diagnostic/agent.py:526-541 | the four bucket counts sum to the number of logs |
| DiagnosticAgent.SeverityDistribution | agents/diagnostic/agent.py:526-541 | a bucket is a key iff its count is positive, and its value is that count |
| DiagnosticAgent.Deviations | agents/diagnostic/agent.py:420 | the deviation count is never negative |
| DiagnosticAgent.AnomalyBands | agents/diagnostic/agent.py:417-429 | >3 critical, >2.5 high, >2 medium, else low |
| DiagnosticAgent.FlatSeriesIsLow | agents/diagnostic/agent.py:420 | zero spread gives low |
| DiagnosticAgent.AnomalySeverityMonotone | agents/diagnostic/agent.py:417-429 | a value further from the mean is never classified lower |
| DiagnosticAgent.FlaggedValueAtLeastMedium | agents/diagnostic/agent.py:399-409 | a value above mean + 2·std is at least medium |
| DiagnosticAgent.NoPercentage | agents/diagnostic/agent.py:333 | a name without "g" never contains "percentage" |
| DiagnosticAgent.PastTimeTest | agents/diagnostic/agent.py:333-336 | a name without "g", "G", "C" and "T" fails the percent and time tests |
| DiagnosticAgent.MetricUnit | agents/diagnostic/agent.py:331-340 | first match, as four iffs: percent iff the lower-cased name has "percentage" or the name has "CPU"; milliseconds iff not percent and "Time"; count iff neither and "Requests" or "Exceptions"; unit iff no rule applies |
| DiagnosticAgent.PercentageCpuUnit | agents/diagnostic/agent.py:333-334 | "Percentage CPU" is percent |
| DiagnosticAgent.MemoryPercentageUnit | agents/diagnostic/agent.py:333-334 | "Memory percentage" is percent through the case-insensitive test |
| DiagnosticAgent.ResponseTimeUnit | agents/diagnostic/agent.py:335-336 | "ResponseTime" is milliseconds |
| DiagnosticAgent.CountUnits | agents/diagnostic/agent.py:337-338 | "Requests" and "Exceptions" are counts |
| DiagnosticAgent.Http5xxUnit | agents/diagnostic/agent.py:339-340 | "Http5xx" matches no rule |
| DiagnosticAgent.FirstBestUnique | agents/diagnostic/agent.py:652-654 | `max` then `index` names one position |
| DiagnosticAgent.RootCauseDetermined | agents/diagnostic/agent.py:624-660 | the choice of root cause is a function of its inputs |
| DiagnosticAgent.NoCandidates | agents/diagnostic/agent.py:637-650 | no candidates iff no pattern is critical or high and no anomaly is critical |
| DiagnosticAgent.CandidateScores | agents/diagnostic/agent.py:637-650 | scores are 0.6, 0.7 or 0.8, and 0.8 only for a critical pattern |
| DiagnosticAgent.CriticalPatternWins | agents/diagnostic/agent.py:637-658 | without a confident model answer a critical pattern wins with 0.8 |
| DiagnosticAgent.ConfidentDiagnosis | agents/diagnostic/agent.py:631-660 | confidence reaches 0.8 iff the model's does, or, without a usable answer, a pattern is critical |
| DiagnosticAgent.DetermineRootCause | agents/diagnostic/agent.py:624-660 | a model confidence of at least 0.7 returns its pair; otherwise the first highest-scoring candidate, or the fixed message with 0.3 |
| DiagnosticAgent.PatternCandidates | agents/diagnostic/agent.py:639-642 | the loop yields, in order, one candidate per critical (0.8) or high (0.6) log pattern and none for the others |
| DiagnosticAgent.AnomalyCandidates | agents/diagnostic/agent.py:645-649 | the loop appends one 0.7 candidate per critical anomaly, in order, after the candidates it is given |
| DiagnosticAgent.FirstBest | agents/diagnostic/agent.py:653-654 | the index chosen holds the highest score and no earlier candidate reaches it |
| DiagnosticAgent.Recommendations | agents/diagnostic/agent.py:662-700 | never empty |
| DiagnosticAgent.DefaultsIffNoRule | agents/diagnostic/agent.py:666-697 | the defaults are used iff no pattern or anomaly rule fired |
| DiagnosticAgent.AdviceSources | agents/diagnostic/agent.py:666-688 | every specific recommendation comes from a pattern or an anomaly |
| DiagnosticAgent.AdvisePatterns | agents/diagnostic/agent.py:668-678 | the loop over patterns yields each pattern's advice, in pattern order |
| DiagnosticAgent.AdviseAnomalies | agents/diagnostic/agent.py:681-688 | the loop over anomalies appends each anomaly's advice, in anomaly order |
| DiagnosticAgent.GenerateRecommendations | agents/diagnostic/agent.py:662-700 | per-pattern advice, then per-anomaly advice, or the four defaults |
| DiagnosticAgent.EvidenceGrouped | agents/diagnostic/agent.py:702-735 | entries are ordered patterns, anomalies, correlations |
| DiagnosticAgent.PatternItemDeterminesFrequency | agents/diagnostic/agent.py:710 | a pattern's description gives its frequency back |
| DiagnosticAgent.CompileEvidence | agents/diagnostic/agent.py:702-735 | one entry per pattern, anomaly and correlation, in that order, each with its description and fields |
| DiagnosticAgent.AnalyzeIncident | agents/diagnostic/agent.py:152-218 | the result combines an analysis of the logs with the root cause, recommendations and evidence chosen for it |
| Pipeline.DiagnosisAlwaysEscalates | agents/orchestrator/agent.py:418-434 | a diagnostic result event always escalates, with confidence 0.0 |
| Pipeline.FullConfidenceEscalates | agents/diagnostic/agent.py:737-754 | even confidence 1.0 escalates; with the corrected event it does not |
| Pipeline.CorrectedDiagnosisRouting | agents/orchestrator/agent.py:418-434 | with the confidence at the top level, ≥0.8 forwards to resolution and below escalates with that confidence |
| Pipeline.CorrectedAnalysisForwarded | agents/diagnostic/agent.py:624-660 | with the corrected event a diagnosis is forwarded iff the model is confident or a pattern is critical |
| Pipeline.ResolutionOutcome | agents/resolution/agent.py:823-841 | a resolution event resolves on success and escalates otherwise, appending its actions |
| Base.FailureTextDeterminesError | agents/resolution/agent.py:626-630 | the failure text determines the caught error |
| Base.ContainsIffOccurs | agents/resolution/agent.py:212 | Python's `sub in s` holds iff `sub` occurs at some position |
| Base.ParseNatToString | agents/communication/agent.py:575 | printed counts read back as the same number |
| Base.ToUpperIdempotent | agents/communication/agent.py:786 | upper-casing twice is upper-casing once |

## Findings

| source | as written | input that shows it | evidently intended | confidence | as-written member | corrected member |
|---|---|---|---|---|---|---|
| agents/diagnostic/agent.py:740-754 | the diagnostic result event carries `confidence` only inside `diagnosis`, while the orchestrator reads it at the top level (agents/orchestrator/agent.py:422), defaulting to 0.0 | any diagnosis, e.g. confidence 1.0: the orchestrator escalates with "low confidence 0.0" | the orchestrator acts on the diagnosis' confidence: ≥0.8 forwards to resolution | not executed | Pipeline.DiagnosisAlwaysEscalates, Pipeline.FullConfidenceEscalates | Pipeline.FromDiagnosticCorrected, Pipeline.CorrectedDiagnosisRouting, Pipeline.CorrectedAnalysisForwarded |

The orchestrator and the diagnostic agent are modelled as written. The corrected event is used only in the `Pipeline` lemmas that show the intended routing.

Two further mismatches between the agents are noted here without a corrected model, since each agent is modelled as written:

- The orchestrator asks the communication agent with event types "diagnosis_complete" and "incident_resolved" (agents/orchestrator/agent.py:431, 483), but the communication agent maps only "diagnostic_result" and "resolution_result" (agents/communication/agent.py:378-390), so `HandleNotificationRequest` sends nothing for them.
- `IncidentSeverity` is a plain `Enum` (agents/orchestrator/agent.py:21) serialised with `json.dumps(default=str)`, so the severity other agents read from the orchestrator's events is text such as "IncidentSeverity.CRITICAL", never "critical". The high/critical routing of `TargetStakeholders` and the critical-approval rule of `AssessRisk` then never fire on events that come from the orchestrator.

## Left out

- Python floats are modelled as exact reals: the anomaly bands (`Deviations`, `ClassifyAnomalySeverity`), the metric thresholds and the confidence thresholds compare exact values, so at a band edge (a deviation of exactly 3, 2.5 or 2 standard deviations, or a rounded confidence) the model and the float computation can classify differently.
- Azure I/O is represented by recorded events and parameters: Event Hub sends and the Teams, e-mail, SMS and webhook calls become recorded events. Whether a send raises is a parameter for every Event Hub send of the orchestrator (`process_alert`'s analysis request and escalation notice, the handlers' forwards and notices), for the resolution agent's sends and for the communication agent's approval publish; so is whether the first Cosmos DB write raises. Client construction and Cosmos reads are left out.
- DiagnosticAgent.AnalyzeIncident: the send of the result at its end (`_send_diagnostic_result`) is taken to succeed; when it raises, `analyze_incident` raises instead of returning the result, which the model does not show.
- CommunicationAgent.PhoenixCommunicationAgent.SendNotifications: each channel call (Teams, e-mail, SMS, webhook) catches and logs its own exceptions; the model records every routed delivery as made, whether or not the call failed.
- OrchestratorAgent.PhoenixOrchestrator.EscalateIncident: the Cosmos DB write at its end, and the one at the end of `_handle_resolution_response`, may raise after the incident was updated in memory; the model shows the update and not the propagating exception.
- The language-model calls are parameters: their answer, or their absence.
- `asyncio` tasks, sleeps, the progress monitor's polling and `datetime.utcnow` are left out. Times are whole seconds passed in.
- The executors' simulated work is reduced to success or a caught exception's text. Durations are whole seconds.
- ResolutionAgent.PhoenixResolutionAgent.ExecuteResolution: of the exceptions reaching the outer handler only those of the Event Hub sends are modelled; `_create_resolution_plan` and `_execute_plan` raise nothing in the model.
- An exception raised inside a rollback is not modelled.
- `execution_timeout` and the other safety limits that the code never reads are left out.
- Template rendering with `str.format` is left out, along with its missing-key failures. ISO timestamp parsing in `_calculate_time_elapsed` is also left out: the model takes the creation time and the clock as whole seconds, with an absent or unparsable creation time as no value, and computes the whole minutes itself.
- `get_stakeholder_preferences` is left out: it only copies a record.
- CommunicationAgent.PhoenixCommunicationAgent.HandleApprovalResponse: the answer is upper-cased with ASCII case mapping only; Python's `str.upper()` also maps other letters (the dotless "ı" becomes "I"), so an answer such as "modıfy", accepted and published as "MODIFY" by the source, is refused by the model.
- Per-channel send preconditions are left out: a Teams id, e-mail address or phone number may be missing.
- CommunicationAgent.PhoenixCommunicationAgent.SendNotifications: the order of notifications over the stakeholder set is unspecified in the source. The model states which notifications are sent, not their order.
- DiagnosticAgent.AnalyzeLogPatterns: the regular-expression search (case-insensitive) is a given predicate on pattern and message. The pattern table is a parameter, with `KnownPatterns` as its value.
- Log timestamps are whole seconds and always present. A missing or `None` timestamp, which would make `min` fail, is not modelled.
- The per-occurrence severity that the tally stores but never reads is left out.
- The `expected_range` text of an anomaly is left out.
- The anomaly detectors (numpy mean and standard deviation, DBSCAN clustering) and the sample-metric generator are left out. So is event correlation (floating-point library code and random data). Their outputs are inputs of the model: the anomaly list and the correlation records.
- A language-model answer without `root_cause` raises in the source. The model always has one.
- `high_cpu`'s threshold of 80 counts matching log lines, not a percentage. It is kept as written.
- `_send_diagnostic_result` leaves out the event's timestamp and source agent.
