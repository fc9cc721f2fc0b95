/** The resolution agent: builds a resolution plan from a diagnosis (a
    first-match dispatch on the root cause text), rates its risk, estimates
    its duration, and executes its actions one after another, recording each
    executed action. The executors are the simulated ones of the source; the
    clock and any exception raised while executing an action are
    parameters. */
module ResolutionAgent {
  import opened Base

  datatype ActionStatus = Pending | Executing | Completed | Failed | RolledBack

  /** The action parameters that the executors read. */
  datatype Params = Params(
    targetInstances: Option<int>,
    serviceName: Option<string>,
    newSku: Option<string>,
    cacheType: Option<string>,
    targetVersion: Option<string>)

  const NoParams := Params(None, None, None, None, None)

  /** The `result` dictionary of an executor (its `details` are not kept). */
  datatype ExecResult = ExecResult(success: bool, message: ExecMessage)

  datatype ResolutionAction = ResolutionAction(
    id: string,
    kind: ActionType,
    description: string,
    params: Params,
    status: ActionStatus,
    startedAt: Option<int>,
    completedAt: Option<int>,
    result: Option<ExecResult>,
    rollback: Option<ResolutionAction>)

  datatype RiskLevel = LowRisk | MediumRisk | HighRisk

  function RiskValue(r: RiskLevel): string {
    match r
    case LowRisk => "low"
    case MediumRisk => "medium"
    case HighRisk => "high"
  }

  datatype ResolutionPlan = ResolutionPlan(
    incidentId: Option<string>,
    actions: seq<ResolutionAction>,
    estimatedDuration: int,
    riskLevel: RiskLevel,
    requiresApproval: bool,
    createdAt: int)

  /** The incident dictionary as this agent reads it. */
  datatype IncidentData = IncidentData(
    id: Option<string>,
    severity: Option<string>,
    metrics: Option<map<string, real>>)

  /** The configuration keys this agent reads. */
  datatype AgentConfig = AgentConfig(
    resourceGroup: Option<string>,
    appServiceName: Option<string>,
    rollbackEnabled: bool)

  /** `safety_limits["max_scale_instances"]`. */
  const MaxScaleInstances := 20

  function MetricOf(incident: IncidentData, key: string): real {
    var m := incident.metrics.GetOr(map[]);
    if key in m then m[key] else 0.0
  }

  // ---------------------------------------------------------------------
  // Root-cause dispatch

  datatype Branch = CpuBranch | MemoryBranch | DatabaseBranch | PerformanceBranch | ErrorBranch | NoBranch

  /** The first-match dispatch of `_create_resolution_plan` on the lower-cased
      root cause: cpu, memory, database, timeout/response, error/exception. */
  function SelectBranch(rootCause: string): Branch {
    var lc := ToLower(rootCause);
    if Contains(lc, "high_cpu") || Contains(lc, "cpu") then CpuBranch
    else if Contains(lc, "memory") then MemoryBranch
    else if Contains(lc, "database") then DatabaseBranch
    else if Contains(lc, "timeout") || Contains(lc, "response") then PerformanceBranch
    else if Contains(lc, "error") || Contains(lc, "exception") then ErrorBranch
    else NoBranch
  }

  /** Which branch is taken: the first keyword group, in the source's order,
      that occurs in the lower-cased root cause ("high_cpu" adds nothing to
      "cpu"); none at all gives the generic plan. */
  lemma SelectBranchFirstMatch(rootCause: string)
    ensures var b := SelectBranch(rootCause); var lc := ToLower(rootCause);
      && (b.CpuBranch? <==> Contains(lc, "cpu"))
      && (b.MemoryBranch? <==> !Contains(lc, "cpu") && Contains(lc, "memory"))
      && (b.DatabaseBranch? <==> !Contains(lc, "cpu") && !Contains(lc, "memory") && Contains(lc, "database"))
      && (b.PerformanceBranch? <==>
            !Contains(lc, "cpu") && !Contains(lc, "memory") && !Contains(lc, "database")
            && (Contains(lc, "timeout") || Contains(lc, "response")))
      && (b.ErrorBranch? <==>
            !Contains(lc, "cpu") && !Contains(lc, "memory") && !Contains(lc, "database")
            && !Contains(lc, "timeout") && !Contains(lc, "response")
            && (Contains(lc, "error") || Contains(lc, "exception")))
      && (b.NoBranch? <==>
            !Contains(lc, "cpu") && !Contains(lc, "memory") && !Contains(lc, "database")
            && !Contains(lc, "timeout") && !Contains(lc, "response")
            && !Contains(lc, "error") && !Contains(lc, "exception"))
  {
    HighCpuMentionsCpu(ToLower(rootCause));
  }

  /** The "high_cpu" test of the source is subsumed by its "cpu" test. */
  lemma HighCpuMentionsCpu(s: string)
    ensures Contains(s, "high_cpu") ==> Contains(s, "cpu")
  {
    if Contains(s, "high_cpu") {
      var i := ContainsWitness(s, "high_cpu");
      assert s[i..i + 8] == "high_cpu";
      assert s[i + 5..i + 8] == s[i..i + 8][5..8];
      ContainsAt(s, "cpu", i + 5);
    }
  }

  // ---------------------------------------------------------------------
  // The plan builders; `newId(k)` is the k-th generated uuid

  /** A freshly planned action: pending, never started, without a rollback
      action, and scaling out (if at all) to at most 5 instances. */
  predicate Fresh(a: ResolutionAction) {
    && a.status == Pending && a.startedAt.None? && a.completedAt.None? && a.result.None? && a.rollback.None?
    && a.params.targetInstances.GetOr(3) <= 5
  }

  function Action(id: string, kind: ActionType, description: string, params: Params): ResolutionAction {
    ResolutionAction(id, kind, description, params, Pending, None, None, None, None)
  }

  /** `_plan_cpu_resolution`. */
  function PlanCpu(incident: IncidentData, config: AgentConfig, newId: nat -> string): (actions: seq<ResolutionAction>)
    ensures forall i :: 0 <= i < |actions| ==> Fresh(actions[i])
    ensures |actions| >= 1 && actions[0].kind == ScaleOut && actions[0].params.targetInstances == Some(5)
    ensures |actions| == 2 <==> MetricOf(incident, "cpu_percentage") > 90.0
    ensures |actions| == 2 ==> actions[1].kind == UpdateConfig
    ensures |actions| <= 2
  {
    var scale := Action(newId(0), ScaleOut, "Scale out application instances to distribute CPU load",
                        NoParams.(targetInstances := Some(5)));
    if MetricOf(incident, "cpu_percentage") > 90.0 then
      [scale, Action(newId(1), UpdateConfig, "Optimize application configuration for CPU usage", NoParams)]
    else [scale]
  }

  /** `_plan_memory_resolution`. */
  function PlanMemory(incident: IncidentData, config: AgentConfig, newId: nat -> string): (actions: seq<ResolutionAction>)
    ensures forall i :: 0 <= i < |actions| ==> Fresh(actions[i])
    ensures |actions| >= 1 && actions[0].kind == RestartService
    ensures |actions| == 2 <==> MetricOf(incident, "memory_percentage") > 85.0
    ensures |actions| == 2 ==> actions[1].kind == ScaleUp
    ensures |actions| <= 2
  {
    var restart := Action(newId(0), RestartService, "Restart service to clear memory leaks",
                          NoParams.(serviceName := config.appServiceName));
    if MetricOf(incident, "memory_percentage") > 85.0 then
      [restart, Action(newId(1), ScaleUp, "Scale up instance size for more memory", NoParams.(newSku := Some("P2v3")))]
    else [restart]
  }

  /** `_plan_database_resolution`. */
  function PlanDatabase(newId: nat -> string): (actions: seq<ResolutionAction>)
    ensures forall i :: 0 <= i < |actions| ==> Fresh(actions[i])
    ensures |actions| == 2 && actions[0].kind == OptimizeDatabase && actions[1].kind == ClearCache
  {
    [Action(newId(0), OptimizeDatabase, "Optimize database connection settings", NoParams),
     Action(newId(1), ClearCache, "Clear database query cache", NoParams.(cacheType := Some("query_cache")))]
  }

  /** `_plan_performance_resolution`. */
  function PlanPerformance(config: AgentConfig, newId: nat -> string): (actions: seq<ResolutionAction>)
    ensures forall i :: 0 <= i < |actions| ==> Fresh(actions[i])
    ensures |actions| == 2 && actions[0].kind == CircuitBreaker && actions[1].kind == ScaleOut
    ensures actions[1].params.targetInstances == Some(3)
  {
    [Action(newId(0), CircuitBreaker, "Enable circuit breaker for failing services", NoParams),
     Action(newId(1), ScaleOut, "Scale out to improve response times", NoParams.(targetInstances := Some(3)))]
  }

  datatype Deployment = Deployment(id: string, previousVersion: string)

  /** `_check_recent_deployment` is a placeholder that always reports the
      same deployment. */
  function CheckRecentDeployment(): (d: Option<Deployment>)
    ensures d.Some?
  {
    Some(Deployment("deploy-123", "v1.2.3"))
  }

  /** `_plan_error_resolution`, given what the deployment check returned:
      rollback to the previous version after a recent deployment, else a
      restart. */
  function PlanError(config: AgentConfig, newId: nat -> string, recent: Option<Deployment>): (actions: seq<ResolutionAction>)
    ensures forall i :: 0 <= i < |actions| ==> Fresh(actions[i])
    ensures |actions| == 1
    ensures recent.Some? ==>
      actions[0].kind == RollbackDeployment && actions[0].params.targetVersion == Some(recent.value.previousVersion)
    ensures recent.None? ==> actions[0].kind == RestartService
  {
    match recent
    case Some(d) =>
      [Action(newId(0), RollbackDeployment, "Rollback to previous stable deployment",
              NoParams.(targetVersion := Some(d.previousVersion)))]
    case None =>
      [Action(newId(0), RestartService, "Restart service to resolve temporary errors",
              NoParams.(serviceName := config.appServiceName))]
  }

  /** `_plan_generic_resolution`: clear the cache, then scale out to 2. */
  function PlanGeneric(config: AgentConfig, newId: nat -> string): (actions: seq<ResolutionAction>)
    ensures forall i :: 0 <= i < |actions| ==> Fresh(actions[i])
    ensures |actions| == 2 && actions[0].kind == ClearCache && actions[1].kind == ScaleOut
    ensures actions[1].params.targetInstances == Some(2)
  {
    [Action(newId(0), ClearCache, "Clear application cache", NoParams.(cacheType := Some("application_cache"))),
     Action(newId(1), ScaleOut, "Scale out instances as precautionary measure", NoParams.(targetInstances := Some(2)))]
  }

  /** The branch's actions, falling back to the generic plan when the branch
      produced none. */
  function PlanActions(b: Branch, incident: IncidentData, config: AgentConfig, newId: nat -> string): (actions: seq<ResolutionAction>)
    ensures |actions| > 0
    ensures b.NoBranch? ==> actions == PlanGeneric(config, newId)
    ensures forall i :: 0 <= i < |actions| ==> Fresh(actions[i])
  {
    var specific :=
      match b
      case CpuBranch => PlanCpu(incident, config, newId)
      case MemoryBranch => PlanMemory(incident, config, newId)
      case DatabaseBranch => PlanDatabase(newId)
      case PerformanceBranch => PlanPerformance(config, newId)
      case ErrorBranch => PlanError(config, newId, CheckRecentDeployment())
      case NoBranch => [];
    if specific == [] then PlanGeneric(config, newId) else specific
  }

  // ---------------------------------------------------------------------
  // Risk, approval and duration

  /** An action that disrupts service: a rollback or a restart. */
  predicate Disruptive(a: ResolutionAction) {
    a.kind == RollbackDeployment || a.kind == RestartService
  }

  /** The risk rules: low confidence is high risk and needs approval; a
      disruptive action is medium risk and needs approval only for critical
      incidents; anything else is low risk without approval. */
  function AssessRisk(confidence: real, actions: seq<ResolutionAction>, severity: Option<string>): (r: (RiskLevel, bool))
    ensures confidence < 0.7 ==> r == (HighRisk, true)
    ensures confidence >= 0.7 && (exists i :: 0 <= i < |actions| && Disruptive(actions[i])) ==>
      r == (MediumRisk, severity == Some("critical"))
    ensures confidence >= 0.7 && (forall i :: 0 <= i < |actions| ==> !Disruptive(actions[i])) ==>
      r == (LowRisk, false)
    ensures r.1 ==> r.0 != LowRisk
  {
    if confidence < 0.7 then (HighRisk, true)
    else if exists i :: 0 <= i < |actions| && Disruptive(actions[i]) then (MediumRisk, severity == Some("critical"))
    else (LowRisk, false)
  }

  /** `_estimate_action_duration`, in seconds. Every action type has an entry,
      so the table's default of 60 is never used. */
  function DurationOf(t: ActionType): (d: int)
    ensures 15 <= d <= 300
  {
    match t
    case ScaleOut => 120
    case ScaleUp => 180
    case RestartService => 60
    case ClearCache => 30
    case OptimizeDatabase => 45
    case UpdateConfig => 30
    case RollbackDeployment => 300
    case CircuitBreaker => 15
  }

  /** The plan's `estimated_duration`: the table values summed over its actions. */
  function EstimatedDuration(actions: seq<ResolutionAction>): int {
    if actions == [] then 0 else DurationOf(actions[0].kind) + EstimatedDuration(actions[1..])
  }

  /** The estimate is additive over concatenated action lists. */
  lemma {:induction false} EstimatedDurationAppend(a: seq<ResolutionAction>, b: seq<ResolutionAction>)
    ensures EstimatedDuration(a + b) == EstimatedDuration(a) + EstimatedDuration(b)
    decreases |a|
  {
    if a != [] {
      assert (a + b)[0] == a[0];
      assert (a + b)[1..] == a[1..] + b;
      EstimatedDurationAppend(a[1..], b);
    } else {
      assert a + b == b;
    }
  }

  /** Each action adds between 15 s (a circuit breaker) and 300 s (a rollback). */
  lemma {:induction false} EstimatedDurationBounds(actions: seq<ResolutionAction>)
    ensures 15 * |actions| <= EstimatedDuration(actions) <= 300 * |actions|
    decreases |actions|
  {
    if actions != [] {
      EstimatedDurationBounds(actions[1..]);
    }
  }

  /** `_create_resolution_plan`: the actions of the branch the root cause
      selects, their summed estimate, and the risk and approval the rules
      assign them. */
  function CreatePlan(incident: IncidentData, diagnosis: Diagnosis, config: AgentConfig, newId: nat -> string, now: int): (plan: ResolutionPlan)
    ensures plan.incidentId == incident.id && plan.createdAt == now
    ensures plan.actions == PlanActions(SelectBranch(diagnosis.rootCause.GetOr("")), incident, config, newId)
    ensures plan.estimatedDuration == EstimatedDuration(plan.actions)
    ensures (plan.riskLevel, plan.requiresApproval) == AssessRisk(diagnosis.confidence.GetOr(0.0), plan.actions, incident.severity)
    ensures |plan.actions| > 0
    ensures forall i :: 0 <= i < |plan.actions| ==> Fresh(plan.actions[i])
    ensures 15 * |plan.actions| <= plan.estimatedDuration <= 300 * |plan.actions|
    ensures plan.requiresApproval ==> plan.riskLevel != LowRisk
  {
    var actions := PlanActions(SelectBranch(diagnosis.rootCause.GetOr("")), incident, config, newId);
    var risk := AssessRisk(diagnosis.confidence.GetOr(0.0), actions, incident.severity);
    EstimatedDurationBounds(actions);
    ResolutionPlan(incident.id, actions, EstimatedDuration(actions), risk.0, risk.1, now)
  }

  /** With no recognised root cause the plan is the generic one. */
  lemma UnrecognisedCauseUsesGenericPlan(incident: IncidentData, diagnosis: Diagnosis, config: AgentConfig, newId: nat -> string, now: int)
    requires SelectBranch(diagnosis.rootCause.GetOr("")).NoBranch?
    ensures var plan := CreatePlan(incident, diagnosis, config, newId, now);
      && |plan.actions| == 2
      && plan.actions[0].kind == ClearCache
      && plan.actions[1].kind == ScaleOut && plan.actions[1].params.targetInstances == Some(2)
      && plan.estimatedDuration == 150
      && (diagnosis.confidence.GetOr(0.0) >= 0.7 ==> plan.riskLevel == LowRisk && !plan.requiresApproval)
  {
    var plan := CreatePlan(incident, diagnosis, config, newId, now);
    assert plan.actions[1..][1..] == [];
    assert EstimatedDuration(plan.actions[1..]) == 120;
    assert !Disruptive(plan.actions[0]) && !Disruptive(plan.actions[1]);
  }

  /** Because the deployment check always finds a deployment, an error or
      exception root cause always plans a rollback, which is medium risk when
      the diagnosis is confident. */
  lemma ErrorCauseAlwaysRollsBack(incident: IncidentData, diagnosis: Diagnosis, config: AgentConfig, newId: nat -> string, now: int)
    requires SelectBranch(diagnosis.rootCause.GetOr("")).ErrorBranch?
    requires diagnosis.confidence.GetOr(0.0) >= 0.7
    ensures var plan := CreatePlan(incident, diagnosis, config, newId, now);
      && |plan.actions| == 1 && plan.actions[0].kind == RollbackDeployment
      && plan.riskLevel == MediumRisk
      && plan.requiresApproval == (incident.severity == Some("critical"))
      && plan.estimatedDuration == 300
  {
    var plan := CreatePlan(incident, diagnosis, config, newId, now);
    assert Disruptive(plan.actions[0]);
    assert plan.actions[1..] == [];
    assert EstimatedDuration(plan.actions[1..]) == 0;
  }

  // ---------------------------------------------------------------------
  // Executors; `fault` is the text of an exception raised inside one

  /** `_execute_scale_out`: refused above the safety limit, before any work. */
  function ExecuteScaleOut(a: ResolutionAction, fault: Option<string>): (r: ExecResult)
    ensures r.success <==> a.params.targetInstances.GetOr(3) <= MaxScaleInstances && fault.None?
  {
    var target := a.params.targetInstances.GetOr(3);
    if target > MaxScaleInstances then ExecResult(false, LimitExceeded(target))
    else if fault.Some? then ExecResult(false, ExecutorFailed(ScaleOut, fault.value))
    else ExecResult(true, ScaledOut(target))
  }

  /** `_execute_action`: dispatch on the action type to the simulated
      executors. An action fails exactly when it is a scale-out beyond the
      safety limit or its executor raised; then the message says which. */
  function ExecuteAction(a: ResolutionAction, fault: Option<string>): (r: ExecResult)
    ensures !r.success <==> fault.Some? || (a.kind == ScaleOut && a.params.targetInstances.GetOr(3) > MaxScaleInstances)
    ensures a.kind == ScaleOut && a.params.targetInstances.GetOr(3) > MaxScaleInstances ==>
      r.message == LimitExceeded(a.params.targetInstances.GetOr(3))
    ensures fault.Some? && !(a.kind == ScaleOut && a.params.targetInstances.GetOr(3) > MaxScaleInstances) ==>
      r.message == ExecutorFailed(a.kind, fault.value)
  {
    if a.kind == ScaleOut then ExecuteScaleOut(a, fault)
    else if fault.Some? then ExecResult(false, ExecutorFailed(a.kind, fault.value))
    else
      match a.kind
      case ScaleOut => ExecuteScaleOut(a, None)
      case ScaleUp => ExecResult(true, ScaledUp(a.params.newSku.GetOr("P2v3")))
      case RestartService => ExecResult(true, ServiceRestarted(a.params.serviceName))
      case ClearCache => ExecResult(true, CacheCleared(a.params.cacheType.GetOr("application_cache")))
      case OptimizeDatabase => ExecResult(true, DatabaseOptimized)
      case UpdateConfig => ExecResult(true, ConfigUpdated)
      case RollbackDeployment => ExecResult(true, RolledBackTo(a.params.targetVersion))
      case CircuitBreaker => ExecResult(true, BreakerEnabled)
  }

  /** `_execute_rollback`: the action becomes ROLLED_BACK only when its
      rollback action exists and succeeds. */
  function Rollback(a: ResolutionAction): (r: ResolutionAction)
    ensures r == a || (r == a.(status := RolledBack) && a.rollback.Some? && ExecuteAction(a.rollback.value, None).success)
    ensures a.rollback.Some? && ExecuteAction(a.rollback.value, None).success ==> r.status == RolledBack
  {
    match a.rollback
    case None => a
    case Some(back) => if ExecuteAction(back, None).success then a.(status := RolledBack) else a
  }

  /** What executing one action produces: the action's final state (also
      what `executed_actions` holds for it) and the entry appended to the
      results. */
  datatype StepOutcome = StepOutcome(action: ResolutionAction, entry: ActionResult)

  /** One iteration of `_execute_plan`, with the clock readings `start` and
      `finish` around the executor. */
  function Step(a: ResolutionAction, fault: Option<string>, start: int, finish: int, rollbackEnabled: bool): StepOutcome
  {
    var res := ExecuteAction(a, fault);
    var done := a.(status := if res.success then Completed else Failed,
                   startedAt := Some(start), completedAt := Some(finish), result := Some(res));
    var final := if !res.success && rollbackEnabled && done.rollback.Some? then Rollback(done) else done;
    StepOutcome(final, ActionResult(a.id, TypeValue(a.kind), a.description, res.success, res.message, finish - start))
  }

  /** What one iteration leaves behind: the action keeps its identity and
      carries the clock readings and the executor's result; the entry's
      success is the executor's; a successful action is COMPLETED, a failed
      one FAILED, or ROLLED_BACK exactly when rollback is enabled and its
      rollback action succeeds. */
  lemma StepFacts(a: ResolutionAction, fault: Option<string>, start: int, finish: int, rollbackEnabled: bool)
    ensures var o := Step(a, fault, start, finish, rollbackEnabled); var res := ExecuteAction(a, fault);
      && o.action.id == a.id && o.action.kind == a.kind && o.entry.actionId == a.id
      && o.action.startedAt == Some(start) && o.action.completedAt == Some(finish)
      && o.action.result == Some(res)
      && o.entry.duration == finish - start
      && o.entry.success == res.success && o.entry.message == res.message
      && (o.entry.success ==> o.action.status == Completed)
      && (!o.entry.success ==> o.action.status in {Failed, RolledBack})
      && (o.action.status == RolledBack <==>
            !o.entry.success && rollbackEnabled && a.rollback.Some? && ExecuteAction(a.rollback.value, None).success)
  {
  }

  /** The outcome of every action of a plan, in plan order; the `i`-th
      action sees the `i`-th fault and clock readings. */
  function Outcomes(actions: seq<ResolutionAction>, raises: nat -> Option<string>, started: nat -> int,
                    completed: nat -> int, rollbackEnabled: bool): (outs: seq<StepOutcome>)
    ensures |outs| == |actions|
    decreases |actions|
  {
    if actions == [] then []
    else
      var n := |actions| - 1;
      Outcomes(actions[..n], raises, started, completed, rollbackEnabled)
        + [Step(actions[n], raises(n), started(n), completed(n), rollbackEnabled)]
  }

  /** The `i`-th outcome is the `i`-th action's step. */
  lemma {:induction false} OutcomeAt(actions: seq<ResolutionAction>, raises: nat -> Option<string>, started: nat -> int,
                                     completed: nat -> int, rollbackEnabled: bool, i: nat)
    requires i < |actions|
    ensures Outcomes(actions, raises, started, completed, rollbackEnabled)[i]
         == Step(actions[i], raises(i), started(i), completed(i), rollbackEnabled)
    decreases |actions|
  {
    var n := |actions| - 1;
    var prefix := Outcomes(actions[..n], raises, started, completed, rollbackEnabled);
    var last := Step(actions[n], raises(n), started(n), completed(n), rollbackEnabled);
    assert Outcomes(actions, raises, started, completed, rollbackEnabled) == prefix + [last];
    if i < n {
      OutcomeAt(actions[..n], raises, started, completed, rollbackEnabled, i);
      assert actions[..n][i] == actions[i];
      assert (prefix + [last])[i] == prefix[i];
    } else {
      assert (prefix + [last])[i] == last;
    }
  }

  /** The `results` list: the entries of the outcomes, in plan order. */
  function Entries(outs: seq<StepOutcome>): (entries: seq<ActionResult>)
    ensures |entries| == |outs|
    ensures forall i :: 0 <= i < |outs| ==> entries[i] == outs[i].entry
    decreases |outs|
  {
    if outs == [] then [] else Entries(outs[..|outs| - 1]) + [outs[|outs| - 1].entry]
  }

  /** The final states of the actions, in plan order. */
  function Finals(outs: seq<StepOutcome>): (actions: seq<ResolutionAction>)
    ensures |actions| == |outs|
    ensures forall i :: 0 <= i < |outs| ==> actions[i] == outs[i].action
    decreases |outs|
  {
    if outs == [] then [] else Finals(outs[..|outs| - 1]) + [outs[|outs| - 1].action]
  }

  /** One more outcome extends the results, the final states and the
      record by that outcome. */
  lemma AppendOutcome(outs: seq<StepOutcome>, o: StepOutcome, m: map<string, ResolutionAction>)
    ensures Entries(outs + [o]) == Entries(outs) + [o.entry]
    ensures Finals(outs + [o]) == Finals(outs) + [o.action]
    ensures RecordAll(m, outs + [o]) == RecordAll(m, outs)[o.action.id := o.action]
  {
    assert (outs + [o])[..|outs|] == outs;
  }

  /** Outcomes are determined position by position. */
  lemma OutcomesFromSteps(actions: seq<ResolutionAction>, raises: nat -> Option<string>, started: nat -> int,
                          completed: nat -> int, rollbackEnabled: bool, outs: seq<StepOutcome>)
    requires |outs| == |actions|
    requires forall k :: 0 <= k < |outs| ==> outs[k] == Step(actions[k], raises(k), started(k), completed(k), rollbackEnabled)
    ensures outs == Outcomes(actions, raises, started, completed, rollbackEnabled)
  {
    forall k | 0 <= k < |outs|
      ensures outs[k] == Outcomes(actions, raises, started, completed, rollbackEnabled)[k]
    {
      OutcomeAt(actions, raises, started, completed, rollbackEnabled, k);
    }
  }

  /** Overwriting the element after a prefix. */
  lemma UpdateAfterPrefix<T>(done: seq<T>, rest: seq<T>, x: T)
    requires |rest| > 0
    ensures (done + rest)[|done| := x] == done + [x] + rest[1..]
  {
  }

  /** `executed_actions` after the outcomes are recorded in order. */
  function RecordAll(m: map<string, ResolutionAction>, outs: seq<StepOutcome>): map<string, ResolutionAction>
    decreases |outs|
  {
    if outs == [] then m
    else
      var before := RecordAll(m, outs[..|outs| - 1]);
      var last := outs[|outs| - 1];
      before[last.action.id := last.action]
  }

  /** With distinct action ids, every executed action is in
      `executed_actions` under its id with its final state. */
  lemma {:induction false} RecordAllExact(m: map<string, ResolutionAction>, outs: seq<StepOutcome>, k: nat)
    requires k < |outs|
    requires forall i, j :: 0 <= i < j < |outs| ==> outs[i].action.id != outs[j].action.id
    ensures var r := RecordAll(m, outs);
      outs[k].action.id in r && r[outs[k].action.id] == outs[k].action
    decreases |outs|
  {
    var init := outs[..|outs| - 1];
    if k < |outs| - 1 {
      RecordAllExact(m, init, k);
    }
  }

  /** Entries under ids that no outcome carries are left as they were. */
  lemma {:induction false} RecordAllNotIn(m: map<string, ResolutionAction>, outs: seq<StepOutcome>, id: string)
    requires forall i :: 0 <= i < |outs| ==> outs[i].action.id != id
    ensures id in RecordAll(m, outs) <==> id in m
    ensures id in m ==> RecordAll(m, outs)[id] == m[id]
    decreases |outs|
  {
    if outs != [] {
      RecordAllNotIn(m, outs[..|outs| - 1], id);
    }
  }

  predicate AllSucceeded(entries: seq<ActionResult>) {
    forall i :: 0 <= i < |entries| ==> entries[i].success
  }

  function TotalDuration(entries: seq<ActionResult>): int {
    if entries == [] then 0 else entries[0].duration + TotalDuration(entries[1..])
  }

  /** The answer of `execute_resolution`; `Raised` is the exception it
      re-raises. */
  datatype ResolutionResponse =
    | AwaitingApproval(message: string, plan: ResolutionPlan)
    | Executed(success: bool, actionsTaken: seq<ActionResult>, executionTime: int)
    | Raised(error: string)

  /** The `resolution_result` event sent to the orchestrator. */
  datatype ResultEvent = ResultEvent(incidentId: Option<string>, success: bool, actionsTaken: seq<ActionResult>)

  /** The exception handler of `execute_resolution` reports `(False, [])`
      to the orchestrator; `sendFaults(1)` is the error that send raises, if
      any. */
  function FailureReports(incidentId: Option<string>, sendFaults: nat -> Option<string>): seq<ResultEvent> {
    if sendFaults(1).None? then [ResultEvent(incidentId, false, [])] else []
  }

  /** The exception leaving `execute_resolution` after the send of
      `sendFaults(0)` raised `first`: the handler's own send error when that
      raises too, otherwise `first`. */
  function Reraised(first: string, sendFaults: nat -> Option<string>): string {
    if sendFaults(1).Some? then sendFaults(1).value else first
  }

  /** Every action the planner produces passes the safety limit, so only an
      exception can make a planned action fail. */
  lemma {:induction false} PlannedActionsSucceed(incident: IncidentData, diagnosis: Diagnosis, config: AgentConfig, newId: nat -> string, now: int)
    ensures var plan := CreatePlan(incident, diagnosis, config, newId, now);
      forall i :: 0 <= i < |plan.actions| ==> ExecuteAction(plan.actions[i], None).success
  {
    var plan := CreatePlan(incident, diagnosis, config, newId, now);
    forall i | 0 <= i < |plan.actions|
      ensures ExecuteAction(plan.actions[i], None).success
    {
      assert Fresh(plan.actions[i]);
    }
  }

  /** A plan whose executors raise nothing succeeds as a whole. */
  lemma {:induction false} FaultFreePlanSucceeds(incident: IncidentData, diagnosis: Diagnosis, config: AgentConfig,
                                                   newId: nat -> string, now: int, started: nat -> int, completed: nat -> int)
    ensures var plan := CreatePlan(incident, diagnosis, config, newId, now);
      AllSucceeded(Entries(Outcomes(plan.actions, _ => None, started, completed, config.rollbackEnabled)))
  {
    var plan := CreatePlan(incident, diagnosis, config, newId, now);
    PlannedActionsSucceed(incident, diagnosis, config, newId, now);
    var outs := Outcomes(plan.actions, _ => None, started, completed, config.rollbackEnabled);
    forall i | 0 <= i < |outs| ensures Entries(outs)[i].success {
      OutcomeAt(plan.actions, _ => None, started, completed, config.rollbackEnabled, i);
      StepFacts(plan.actions[i], None, started(i), completed(i), config.rollbackEnabled);
    }
  }

  // ---------------------------------------------------------------------
  // The agent object

  class PhoenixResolutionAgent {
    const config: AgentConfig
    /** `executed_actions`, keyed by action id. */
    var executedActions: map<string, ResolutionAction>
    /** Plans sent out for human approval, oldest first. */
    var approvalRequests: seq<ResolutionPlan>
    /** `resolution_result` events sent to the orchestrator, oldest first. */
    var sentResults: seq<ResultEvent>

    constructor (config: AgentConfig)
      ensures this.config == config
      ensures executedActions == map[] && approvalRequests == [] && sentResults == []
    {
      this.config := config;
      executedActions := map[];
      approvalRequests := [];
      sentResults := [];
    }

    /** The body of the loop of `_execute_plan` for one action: mark it
        executing at `start`, run its executor, complete it at `finish`,
        build its result entry, and roll it back when it failed and has a
        rollback action. */
    method ExecuteOne(a: ResolutionAction, fault: Option<string>, start: int, finish: int)
      returns (action: ResolutionAction, entry: ActionResult)
      ensures StepOutcome(action, entry) == Step(a, fault, start, finish, config.rollbackEnabled)
    {
      action := a.(status := Executing, startedAt := Some(start));
      var res := ExecuteAction(action, fault);
      action := action.(status := if res.success then Completed else Failed,
                        completedAt := Some(finish), result := Some(res));
      entry := ActionResult(action.id, TypeValue(action.kind), action.description, res.success,
                            res.message, finish - start);
      if !res.success && config.rollbackEnabled && action.rollback.Some? {
        // the source records the action object before this rollback; being
        // the same object, the recorded entry ends in the final state
        action := Rollback(action);
      }
    }

    /** `_execute_plan`: executes the actions in order, updating each in place,
        and returns one result per action, in plan order. */
    method ExecutePlan(actions: array<ResolutionAction>, raises: nat -> Option<string>,
                       started: nat -> int, completed: nat -> int)
      returns (results: seq<ActionResult>)
      modifies this`executedActions, actions
      ensures var outs := Outcomes(old(actions[..]), raises, started, completed, config.rollbackEnabled);
        && results == Entries(outs)
        && actions[..] == Finals(outs)
        && executedActions == RecordAll(old(executedActions), outs)
    {
      ghost var init := actions[..];
      ghost var before := executedActions;
      ghost var done: seq<StepOutcome> := [];
      results := [];
      var i := 0;
      while i < actions.Length
        invariant 0 <= i <= actions.Length
        invariant |done| == i
        invariant forall k :: 0 <= k < i ==> done[k] == Step(init[k], raises(k), started(k), completed(k), config.rollbackEnabled)
        invariant results == Entries(done)
        invariant actions[..] == Finals(done) + init[i..]
        invariant executedActions == RecordAll(before, done)
      {
        ghost var pre := actions[..];
        assert actions[i] == init[i];
        var action, entry := ExecuteOne(actions[i], raises(i), started(i), completed(i));
        AppendOutcome(done, StepOutcome(action, entry), before);
        UpdateAfterPrefix(Finals(done), init[i..], action);
        results := results + [entry];
        actions[i] := action;
        assert actions[..] == pre[i := action];
        executedActions := executedActions[action.id := action];
        done := done + [StepOutcome(action, entry)];
        assert init[i..][1..] == init[i + 1..];
        i := i + 1;
      }
      OutcomesFromSteps(init, raises, started, completed, config.rollbackEnabled, done);
    }

    /** `execute_resolution`: the plan created for the incident and its
        diagnosis, handled as `ResolvePlan` says. */
    method ExecuteResolution(incident: IncidentData, diagnosis: Diagnosis, newId: nat -> string, now: int,
                             raises: nat -> Option<string>, started: nat -> int, completed: nat -> int,
                             sendFaults: nat -> Option<string>)
      returns (response: ResolutionResponse, plan: ResolutionPlan)
      modifies this`executedActions, this`approvalRequests, this`sentResults
      ensures plan == CreatePlan(incident, diagnosis, config, newId, now)
      ensures plan.requiresApproval ==>
          && executedActions == old(executedActions)
          && (sendFaults(0).None? ==>
                && response == AwaitingApproval("Resolution requires human approval", plan)
                && approvalRequests == old(approvalRequests) + [plan]
                && sentResults == old(sentResults))
          && (sendFaults(0).Some? ==>
                && response == Raised(Reraised(sendFaults(0).value, sendFaults))
                && approvalRequests == old(approvalRequests)
                && sentResults == old(sentResults) + FailureReports(incident.id, sendFaults))
      ensures !plan.requiresApproval ==>
          var outs := Outcomes(plan.actions, raises, started, completed, config.rollbackEnabled);
          && executedActions == RecordAll(old(executedActions), outs)
          && approvalRequests == old(approvalRequests)
          && (sendFaults(0).None? ==>
                && response == Executed(AllSucceeded(Entries(outs)), Entries(outs), TotalDuration(Entries(outs)))
                && sentResults == old(sentResults) + [ResultEvent(incident.id, AllSucceeded(Entries(outs)), Entries(outs))])
          && (sendFaults(0).Some? ==>
                && response == Raised(Reraised(sendFaults(0).value, sendFaults))
                && sentResults == old(sentResults) + FailureReports(incident.id, sendFaults))
    {
      plan := CreatePlan(incident, diagnosis, config, newId, now);
      response := ResolvePlan(incident.id, plan, raises, started, completed, sendFaults);
    }

    /** `execute_resolution` once the plan exists: a plan that needs approval
        is sent for approval and nothing is executed; otherwise the plan is
        executed, the overall success is that of every action and the
        execution time is the sum of the durations. `sendFaults(k)` is the
        error raised by the k-th Event Hub send of the call, if any: the
        approval request or the result first, then the failure report of
        the exception handler, after which the exception is re-raised. */
    method ResolvePlan(incidentId: Option<string>, plan: ResolutionPlan,
                       raises: nat -> Option<string>, started: nat -> int, completed: nat -> int,
                       sendFaults: nat -> Option<string>)
      returns (response: ResolutionResponse)
      modifies this`executedActions, this`approvalRequests, this`sentResults
      ensures plan.requiresApproval ==>
          && executedActions == old(executedActions)
          && (sendFaults(0).None? ==>
                && response == AwaitingApproval("Resolution requires human approval", plan)
                && approvalRequests == old(approvalRequests) + [plan]
                && sentResults == old(sentResults))
          && (sendFaults(0).Some? ==>
                && response == Raised(Reraised(sendFaults(0).value, sendFaults))
                && approvalRequests == old(approvalRequests)
                && sentResults == old(sentResults) + FailureReports(incidentId, sendFaults))
      ensures !plan.requiresApproval ==>
          var outs := Outcomes(plan.actions, raises, started, completed, config.rollbackEnabled);
          && executedActions == RecordAll(old(executedActions), outs)
          && approvalRequests == old(approvalRequests)
          && (sendFaults(0).None? ==>
                && response == Executed(AllSucceeded(Entries(outs)), Entries(outs), TotalDuration(Entries(outs)))
                && sentResults == old(sentResults) + [ResultEvent(incidentId, AllSucceeded(Entries(outs)), Entries(outs))])
          && (sendFaults(0).Some? ==>
                && response == Raised(Reraised(sendFaults(0).value, sendFaults))
                && sentResults == old(sentResults) + FailureReports(incidentId, sendFaults))
    {
      response := HandlePlan(incidentId, plan, raises, started, completed, sendFaults(0));
      if response.Raised? {
        if sendFaults(1).None? {
          sentResults := sentResults + [ResultEvent(incidentId, false, [])];
        }
        response := Raised(Reraised(response.error, sendFaults));
      }
    }

    /** The approval check of `execute_resolution` on a created plan;
        `sendFault` is the error the approval request or the result send
        raises, if any. */
    method HandlePlan(incidentId: Option<string>, plan: ResolutionPlan,
                      raises: nat -> Option<string>, started: nat -> int, completed: nat -> int,
                      sendFault: Option<string>)
      returns (response: ResolutionResponse)
      modifies this`executedActions, this`approvalRequests, this`sentResults
      ensures plan.requiresApproval ==>
          && executedActions == old(executedActions)
          && sentResults == old(sentResults)
          && (sendFault.None? ==>
                && response == AwaitingApproval("Resolution requires human approval", plan)
                && approvalRequests == old(approvalRequests) + [plan])
          && (sendFault.Some? ==> response == Raised(sendFault.value) && approvalRequests == old(approvalRequests))
      ensures !plan.requiresApproval ==>
          var outs := Outcomes(plan.actions, raises, started, completed, config.rollbackEnabled);
          && executedActions == RecordAll(old(executedActions), outs)
          && approvalRequests == old(approvalRequests)
          && (sendFault.None? ==>
                && response == Executed(AllSucceeded(Entries(outs)), Entries(outs), TotalDuration(Entries(outs)))
                && sentResults == old(sentResults) + [ResultEvent(incidentId, AllSucceeded(Entries(outs)), Entries(outs))])
          && (sendFault.Some? ==> response == Raised(sendFault.value) && sentResults == old(sentResults))
    {
      if plan.requiresApproval {
        if sendFault.Some? {
          return Raised(sendFault.value);
        }
        approvalRequests := approvalRequests + [plan];
        return AwaitingApproval("Resolution requires human approval", plan);
      }
      response := RunPlan(incidentId, plan.actions, raises, started, completed, sendFault);
    }

    /** The part of `execute_resolution` after the approval check: execute
        the plan's actions, report to the orchestrator and answer; a report
        that raises `sendFault` is not sent and the error propagates. */
    method RunPlan(incidentId: Option<string>, planned: seq<ResolutionAction>,
                   raises: nat -> Option<string>, started: nat -> int, completed: nat -> int,
                   sendFault: Option<string>)
      returns (response: ResolutionResponse)
      modifies this`executedActions, this`sentResults
      ensures var outs := Outcomes(planned, raises, started, completed, config.rollbackEnabled);
        && executedActions == RecordAll(old(executedActions), outs)
        && (sendFault.None? ==>
              && response == Executed(AllSucceeded(Entries(outs)), Entries(outs), TotalDuration(Entries(outs)))
              && sentResults == old(sentResults) + [ResultEvent(incidentId, AllSucceeded(Entries(outs)), Entries(outs))])
        && (sendFault.Some? ==> response == Raised(sendFault.value) && sentResults == old(sentResults))
    {
      var actions := new ResolutionAction[|planned|](i requires 0 <= i < |planned| => planned[i]);
      assert actions[..] == planned;
      var results := ExecutePlan(actions, raises, started, completed);
      var success := AllResultsSucceeded(results);
      if sendFault.Some? {
        return Raised(sendFault.value);
      }
      sentResults := sentResults + [ResultEvent(incidentId, success, results)];
      var total := SumDurations(results);
      response := Executed(success, results, total);
    }
  }

  /** `all(result.get("success", False) for result in results)`. */
  method AllResultsSucceeded(results: seq<ActionResult>) returns (ok: bool)
    ensures ok <==> AllSucceeded(results)
  {
    ok := true;
    var i := 0;
    while i < |results|
      invariant 0 <= i <= |results|
      invariant ok <==> forall k :: 0 <= k < i ==> results[k].success
    {
      ok := ok && results[i].success;
      i := i + 1;
    }
  }

  /** `sum(r.get("duration", 0) for r in results)`. */
  method SumDurations(results: seq<ActionResult>) returns (total: int)
    ensures total == TotalDuration(results)
  {
    total := 0;
    var i := |results|;
    while i > 0
      invariant 0 <= i <= |results|
      invariant total == TotalDuration(results[i..])
    {
      i := i - 1;
      total := total + results[i].duration;
    }
    assert results[0..] == results;
  }
}
