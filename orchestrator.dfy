/** The orchestrator agent: turns monitoring alerts into incidents, classifies
    their severity, assigns the specialised agents, and moves each incident
    through DETECTED -> ANALYZING -> RESOLVED or ESCALATED as the diagnostic
    and resolution agents answer. Events sent to other agents are recorded as
    values in `events`. Of the Cosmos DB writes only the outcome of the first,
    in `process_alert`, is modelled. */
module OrchestratorAgent {
  import opened Base

  datatype Severity = Low | Medium | High | Critical
  datatype Status = Detected | Analyzing | Resolving | Resolved | Escalated

  function SeverityValue(s: Severity): string {
    match s
    case Low => "low"
    case Medium => "medium"
    case High => "high"
    case Critical => "critical"
  }

  function StatusValue(s: Status): string {
    match s
    case Detected => "detected"
    case Analyzing => "analyzing"
    case Resolving => "resolving"
    case Resolved => "resolved"
    case Escalated => "escalated"
  }

  /** Position of a severity in the order LOW < MEDIUM < HIGH < CRITICAL. */
  function Rank(s: Severity): nat {
    match s
    case Low => 0
    case Medium => 1
    case High => 2
    case Critical => 3
  }

  /** The specialised agents an incident can be assigned to; `RoleName` is
      the name the source uses for each. */
  datatype AgentRole = DiagnosticRole | ResolutionRole | CommunicationRole

  function RoleName(r: AgentRole): string {
    match r
    case DiagnosticRole => "diagnostic"
    case ResolutionRole => "resolution"
    case CommunicationRole => "communication"
  }

  type Metrics = map<string, real>

  /** The alert dictionary: each key may be absent. */
  datatype Alert = Alert(
    title: Option<string>,
    description: Option<string>,
    source: Option<string>,
    metrics: Option<Metrics>)

  datatype Incident = Incident(
    id: string,
    title: string,
    description: string,
    severity: Severity,
    status: Status,
    source: string,
    metrics: Metrics,
    createdAt: int,
    updatedAt: int,
    assignedAgents: seq<AgentRole>,
    resolutionActions: seq<ActionResult>,
    estimatedResolutionTime: Option<int>,
    actualResolutionTime: Option<int>)

  /** Why an incident was escalated (the source formats these as text). */
  datatype EscalationReason =
    | CoordinationFailed
    | ResponseTimeoutExceeded
    | LowDiagnosticConfidence(confidence: real)
    | AutomaticResolutionFailed

  /** Events the orchestrator publishes to the other agents. */
  datatype Event =
    | AnalysisRequest(incidentId: string)
    | EscalationNotice(incidentId: string, reason: EscalationReason)
    | ResolutionRequest(incidentId: string, diagnosis: Diagnosis)
    | CommunicationRequest(incidentId: string, eventType: string)

  /** The response dictionary an agent sends back: each key may be absent. */
  datatype AgentResponse = AgentResponse(
    incidentId: Option<string>,
    agentType: Option<string>,
    confidence: Option<real>,
    diagnosis: Option<Diagnosis>,
    success: Option<bool>,
    actionsTaken: Option<seq<ActionResult>>)

  /** What `get_incident_status` reports. */
  datatype StatusView = StatusView(
    id: string,
    status: string,
    severity: string,
    createdAt: int,
    updatedAt: int,
    assignedAgents: seq<AgentRole>,
    resolutionActions: seq<ActionResult>)

  // ---------------------------------------------------------------------
  // Severity classification

  /** `metrics.get(key, 0)`. */
  function Metric(m: Metrics, key: string): real {
    if key in m then m[key] else 0.0
  }

  /** The rule-based classifier's first-match thresholds on CPU %, memory %
      and error rate. */
  function ClassifyByMetrics(cpu: real, mem: real, err: real): (s: Severity)
    ensures Rank(s) >= 3 <==> cpu > 90.0 || mem > 95.0 || err > 50.0
    ensures Rank(s) >= 2 <==> cpu > 80.0 || mem > 85.0 || err > 20.0
    ensures Rank(s) >= 1 <==> cpu > 70.0 || mem > 75.0 || err > 10.0
  {
    if cpu > 90.0 || mem > 95.0 || err > 50.0 then Critical
    else if cpu > 80.0 || mem > 85.0 || err > 20.0 then High
    else if cpu > 70.0 || mem > 75.0 || err > 10.0 then Medium
    else Low
  }

  /** `_fallback_severity_classification`: absent metrics count as 0;
      `avg_response_time` is read by the source but never used. */
  function FallbackSeverity(alert: Alert): (s: Severity)
    ensures var m := alert.metrics.GetOr(map[]);
      Rank(s) >= 3 <==>
        Metric(m, "cpu_percentage") > 90.0 || Metric(m, "memory_percentage") > 95.0 || Metric(m, "error_rate") > 50.0
    ensures var m := alert.metrics.GetOr(map[]);
      Rank(s) >= 2 <==>
        Metric(m, "cpu_percentage") > 80.0 || Metric(m, "memory_percentage") > 85.0 || Metric(m, "error_rate") > 20.0
    ensures var m := alert.metrics.GetOr(map[]);
      Rank(s) >= 1 <==>
        Metric(m, "cpu_percentage") > 70.0 || Metric(m, "memory_percentage") > 75.0 || Metric(m, "error_rate") > 10.0
  {
    var m := alert.metrics.GetOr(map[]);
    ClassifyByMetrics(Metric(m, "cpu_percentage"), Metric(m, "memory_percentage"), Metric(m, "error_rate"))
  }

  /** `_classify_severity`: the AI answer when it produced a valid severity,
      otherwise the rule-based fallback. */
  function ClassifySeverity(alert: Alert, aiAnswer: Option<Severity>): (s: Severity)
    ensures aiAnswer.Some? ==> s == aiAnswer.value
    ensures aiAnswer.None? ==> s == FallbackSeverity(alert)
  {
    aiAnswer.GetOr(FallbackSeverity(alert))
  }

  /** Raising any metric never lowers the fallback severity. */
  lemma FallbackMonotone(cpu: real, mem: real, err: real, cpu': real, mem': real, err': real)
    requires cpu <= cpu' && mem <= mem' && err <= err'
    ensures Rank(ClassifyByMetrics(cpu, mem, err)) <= Rank(ClassifyByMetrics(cpu', mem', err'))
  {
  }

  /** An alert without metrics is classified LOW. */
  lemma NoMetricsIsLow(alert: Alert)
    requires alert.metrics.None? || alert.metrics == Some(map[])
    ensures FallbackSeverity(alert) == Low
  {
  }

  // ---------------------------------------------------------------------
  // Agent assignment

  /** `_determine_required_agents`. */
  function RequiredAgents(s: Severity): (agents: seq<AgentRole>)
    ensures |agents| > 0 && agents[0] == DiagnosticRole
    ensures ResolutionRole in agents <==> s == High || s == Critical
    ensures CommunicationRole in agents <==> s != Low
    ensures s == Low ==> agents == [DiagnosticRole]
    ensures forall i, j :: 0 <= i < j < |agents| ==> agents[i] != agents[j]
  {
    match s
    case High | Critical => [DiagnosticRole, ResolutionRole, CommunicationRole]
    case Medium => [DiagnosticRole, CommunicationRole]
    case Low => [DiagnosticRole]
  }

  // ---------------------------------------------------------------------
  // Incident lifecycle, as functions on incident values

  /** `_create_incident_from_alert`, with the generated id, the clock reading
      and the classified severity as parameters. */
  function NewIncident(alert: Alert, id: string, severity: Severity, now: int): (inc: Incident)
    ensures inc.id == id && inc.severity == severity
    ensures inc.status == Detected
    ensures inc.assignedAgents == [] && inc.resolutionActions == []
    ensures inc.createdAt == now && inc.updatedAt == now
    ensures inc.title == alert.title.GetOr("Unknown Incident")
    ensures inc.source == alert.source.GetOr("monitoring")
    ensures inc.actualResolutionTime.None?
  {
    Incident(id, alert.title.GetOr("Unknown Incident"), alert.description.GetOr(""), severity,
             Detected, alert.source.GetOr("monitoring"), alert.metrics.GetOr(map[]), now, now,
             [], [], None, None)
  }

  /** The status part of `_coordinate_response`. */
  function Coordinate(inc: Incident, now: int): (r: Incident)
    ensures r.status == Analyzing && r.updatedAt == now
    ensures r.assignedAgents == RequiredAgents(inc.severity)
    ensures r == inc.(status := Analyzing, updatedAt := now, assignedAgents := RequiredAgents(inc.severity))
  {
    inc.(status := Analyzing, updatedAt := now, assignedAgents := RequiredAgents(inc.severity))
  }

  /** `_escalate_incident`: always ESCALATED; a notice is published only when
      the communication agent is assigned. */
  function Escalate(inc: Incident, reason: EscalationReason, now: int): (r: (Incident, seq<Event>))
    ensures r.0 == inc.(status := Escalated, updatedAt := now)
    ensures r.1 == if CommunicationRole in inc.assignedAgents then [EscalationNotice(inc.id, reason)] else []
  {
    (inc.(status := Escalated, updatedAt := now),
     if CommunicationRole in inc.assignedAgents then [EscalationNotice(inc.id, reason)] else [])
  }

  /** `_handle_diagnostic_response`. The confidence is read from the top level
      of the response (default 0.0), not from inside the diagnosis. */
  function OnDiagnostic(inc: Incident, resp: AgentResponse, now: int): (r: (Incident, seq<Event>))
    ensures var c := resp.confidence.GetOr(0.0);
      && (c < 0.8 ==> r == Escalate(inc, LowDiagnosticConfidence(c), now) && r.0.status == Escalated)
      && (c >= 0.8 ==> r.0 == inc)
      && (c >= 0.8 && ResolutionRole in inc.assignedAgents ==>
            r.1 == [ResolutionRequest(inc.id, resp.diagnosis.GetOr(EmptyDiagnosis))])
      && (c >= 0.8 && ResolutionRole !in inc.assignedAgents ==>
            r.1 == if CommunicationRole in inc.assignedAgents then [CommunicationRequest(inc.id, "diagnosis_complete")] else [])
  {
    var diagnosis := resp.diagnosis.GetOr(EmptyDiagnosis);
    var confidence := resp.confidence.GetOr(0.0);
    if confidence >= 0.8 then
      if ResolutionRole in inc.assignedAgents then (inc, [ResolutionRequest(inc.id, diagnosis)])
      else if CommunicationRole in inc.assignedAgents then (inc, [CommunicationRequest(inc.id, "diagnosis_complete")])
      else (inc, [])
    else
      Escalate(inc, LowDiagnosticConfidence(confidence), now)
  }

  /** `_handle_resolution_response`: the reported actions are appended; success
      resolves the incident and records how long it took, failure escalates. */
  function OnResolution(inc: Incident, resp: AgentResponse, now: int): (r: (Incident, seq<Event>))
    ensures r.0.resolutionActions == inc.resolutionActions + resp.actionsTaken.GetOr([])
    ensures resp.success.GetOr(false) ==>
      r.0.status == Resolved && r.0.actualResolutionTime == Some(now - inc.createdAt)
    ensures resp.success.GetOr(false) ==>
      r.1 == if CommunicationRole in inc.assignedAgents then [CommunicationRequest(inc.id, "incident_resolved")] else []
    ensures !resp.success.GetOr(false) ==>
      r.0.status == Escalated && r.0.actualResolutionTime == inc.actualResolutionTime
    ensures !resp.success.GetOr(false) ==>
      r == Escalate(inc.(resolutionActions := inc.resolutionActions + resp.actionsTaken.GetOr([])), AutomaticResolutionFailed, now)
    ensures r.0.id == inc.id && r.0.severity == inc.severity && r.0.createdAt == inc.createdAt
    ensures r.0.assignedAgents == inc.assignedAgents
  {
    var updated := inc.(resolutionActions := inc.resolutionActions + resp.actionsTaken.GetOr([]));
    if resp.success.GetOr(false) then
      (updated.(status := Resolved, actualResolutionTime := Some(now - inc.createdAt)),
       if CommunicationRole in inc.assignedAgents then [CommunicationRequest(inc.id, "incident_resolved")] else [])
    else
      Escalate(updated, AutomaticResolutionFailed, now)
  }

  /** The dispatch on `agent_type` in `handle_agent_response`, for an incident
      that is known. A communication response and an unrecognised agent type
      change nothing. */
  function OnResponse(inc: Incident, resp: AgentResponse, now: int): (r: (Incident, seq<Event>))
    ensures resp.agentType != Some("diagnostic") && resp.agentType != Some("resolution") ==> r == (inc, [])
    ensures r.0.id == inc.id && r.0.severity == inc.severity && r.0.createdAt == inc.createdAt
    ensures r.0.assignedAgents == inc.assignedAgents
    ensures inc.resolutionActions <= r.0.resolutionActions
    ensures r.0.status == inc.status || r.0.status == Resolved || r.0.status == Escalated
  {
    if resp.agentType == Some("diagnostic") then OnDiagnostic(inc, resp, now)
    else if resp.agentType == Some("resolution") then OnResolution(inc, resp, now)
    else (inc, [])
  }

  /** The incident after a sequence of responses, all handled at time `now`. */
  function Replay(inc: Incident, resps: seq<AgentResponse>, now: int): Incident
    decreases |resps|
  {
    if resps == [] then inc else Replay(OnResponse(inc, resps[0], now).0, resps[1..], now)
  }

  /** Whatever the agents answer, an incident keeps its identity, severity
      and assigned agents, `resolution_actions` only grows at the end, and a
      coordinated incident never returns to DETECTED or RESOLVING. */
  lemma {:induction false} ReplayPreserves(inc: Incident, resps: seq<AgentResponse>, now: int)
    ensures var r := Replay(inc, resps, now);
      && r.id == inc.id && r.severity == inc.severity && r.createdAt == inc.createdAt
      && r.assignedAgents == inc.assignedAgents
      && inc.resolutionActions <= r.resolutionActions
      && (inc.status in {Analyzing, Resolved, Escalated} ==> r.status in {Analyzing, Resolved, Escalated})
    decreases |resps|
  {
    if resps != [] {
      var next := OnResponse(inc, resps[0], now).0;
      ReplayPreserves(next, resps[1..], now);
    }
  }

  /** Invariant of every coordinated incident the orchestrator holds. */
  ghost predicate Settled(inc: Incident) {
    && inc.status in {Analyzing, Resolved, Escalated}
    && inc.assignedAgents == RequiredAgents(inc.severity)
  }

  /** An incident registered by `process_alert` whose persistence failed: it
      was never coordinated, so no agent is assigned; responses can still
      resolve or escalate it. */
  ghost predicate Uncoordinated(inc: Incident) {
    && inc.status in {Detected, Resolved, Escalated}
    && inc.assignedAgents == []
  }

  // ---------------------------------------------------------------------
  // The orchestrator object

  class PhoenixOrchestrator {
    /** `active_incidents`, keyed by incident id. */
    var activeIncidents: map<string, Incident>
    /** Every event published so far, oldest first. */
    var events: seq<Event>

    ghost predicate Valid()
      reads this
    {
      forall k :: k in activeIncidents ==> activeIncidents[k].id == k && (Settled(activeIncidents[k]) || Uncoordinated(activeIncidents[k]))
    }

    constructor ()
      ensures Valid()
      ensures activeIncidents == map[] && events == []
    {
      activeIncidents := map[];
      events := [];
    }

    /** `process_alert`: create, register, persist and coordinate an
        incident. The severity AI answer, the new id, the clock, whether
        the Cosmos DB write succeeded, whether publishing the analysis
        request succeeded and whether publishing the escalation notice
        succeeded are parameters. A failed write propagates out of
        `process_alert` (the result `None`) and leaves the incident
        registered as created; a failed publish escalates it, and a failed
        notice in that escalation propagates too. */
    method ProcessAlert(alert: Alert, newId: string, now: int, aiAnswer: Option<Severity>,
                        persistOk: bool, dispatchOk: bool, noticeOk: bool)
      returns (incidentId: Option<string>)
      requires Valid()
      modifies this
      ensures Valid()
      ensures var severity := ClassifySeverity(alert, aiAnswer);
        incidentId.Some? <==>
          persistOk && (dispatchOk || noticeOk || CommunicationRole !in RequiredAgents(severity))
      ensures incidentId.Some? ==> incidentId.value == newId
      ensures var created := NewIncident(alert, newId, ClassifySeverity(alert, aiAnswer), now);
        !persistOk ==> activeIncidents == old(activeIncidents)[newId := created] && events == old(events)
      ensures var inc := Coordinate(NewIncident(alert, newId, ClassifySeverity(alert, aiAnswer), now), now);
        persistOk && dispatchOk ==>
          activeIncidents == old(activeIncidents)[newId := inc] && events == old(events) + [AnalysisRequest(newId)]
      ensures var inc := Coordinate(NewIncident(alert, newId, ClassifySeverity(alert, aiAnswer), now), now);
        persistOk && !dispatchOk ==>
          && activeIncidents == old(activeIncidents)[newId := Escalate(inc, CoordinationFailed, now).0]
          && events == old(events) + (if noticeOk then Escalate(inc, CoordinationFailed, now).1 else [])
    {
      var severity := ClassifySeverity(alert, aiAnswer);
      var incident := NewIncident(alert, newId, severity, now);
      activeIncidents := activeIncidents[incident.id := incident];
      if !persistOk {
        return None;
      }
      var coordinated := CoordinateResponse(incident.id, now, dispatchOk, noticeOk);
      if !coordinated {
        return None;
      }
      incidentId := Some(incident.id);
    }

    /** `_coordinate_response` on a registered incident: it is set ANALYZING
        with the agents its severity requires and the analysis request is
        published; when that publish fails the incident is escalated.
        `ok` is false when the escalation's own notice failed, the one
        exception that leaves `_coordinate_response`. */
    method CoordinateResponse(id: string, now: int, dispatchOk: bool, noticeOk: bool)
      returns (ok: bool)
      requires Valid() && id in activeIncidents
      modifies this
      ensures Valid()
      ensures var inc := Coordinate(old(activeIncidents)[id], now);
        dispatchOk ==>
          activeIncidents == old(activeIncidents)[id := inc] && events == old(events) + [AnalysisRequest(id)]
      ensures var inc := Coordinate(old(activeIncidents)[id], now);
        !dispatchOk ==>
          && activeIncidents == old(activeIncidents)[id := Escalate(inc, CoordinationFailed, now).0]
          && events == old(events) + (if noticeOk then Escalate(inc, CoordinationFailed, now).1 else [])
      ensures ok <==> dispatchOk || noticeOk || CommunicationRole !in RequiredAgents(old(activeIncidents)[id].severity)
    {
      var incident := activeIncidents[id];
      incident := incident.(status := Analyzing, updatedAt := now);
      incident := incident.(assignedAgents := RequiredAgents(incident.severity));
      // the source coordinates the registered incident object itself, so the
      // registered entry is the coordinated incident
      activeIncidents := activeIncidents[id := incident];
      if dispatchOk {
        events := events + [AnalysisRequest(id)];
        ok := true;
      } else {
        ok := EscalateIncident(id, CoordinationFailed, now, noticeOk);
      }
    }

    /** `_escalate_incident` on a registered incident. Whether publishing
        the notice succeeds is a parameter; `ok` is false when that publish
        raised, after the incident was escalated in memory. */
    method EscalateIncident(id: string, reason: EscalationReason, now: int, sendOk: bool)
      returns (ok: bool)
      requires Valid() && id in activeIncidents
      modifies this
      ensures Valid()
      ensures activeIncidents == old(activeIncidents)[id := Escalate(old(activeIncidents)[id], reason, now).0]
      ensures events == old(events) + (if sendOk then Escalate(old(activeIncidents)[id], reason, now).1 else [])
      ensures !ok <==> !sendOk && CommunicationRole in old(activeIncidents)[id].assignedAgents
    {
      var incident := activeIncidents[id];
      incident := incident.(status := Escalated, updatedAt := now);
      activeIncidents := activeIncidents[id := incident];
      ok := true;
      if CommunicationRole in incident.assignedAgents {
        if sendOk {
          events := events + [EscalationNotice(incident.id, reason)];
        } else {
          ok := false;
        }
      }
    }

    /** `handle_agent_response`: a response for an unknown incident changes
        nothing; otherwise the incident is updated as `OnResponse` says.
        Whether publishing the handler's event succeeds is a parameter: a
        raising publish is caught and logged here, after the in-memory
        update, so the event is then simply not published. */
    method HandleAgentResponse(resp: AgentResponse, now: int, sendOk: bool)
      requires Valid()
      modifies this
      ensures Valid()
      ensures resp.incidentId.None? || resp.incidentId.value !in old(activeIncidents) ==>
        activeIncidents == old(activeIncidents) && events == old(events)
      ensures resp.incidentId.Some? && resp.incidentId.value in old(activeIncidents) ==>
        var id := resp.incidentId.value;
        var r := OnResponse(old(activeIncidents)[id], resp, now);
        activeIncidents == old(activeIncidents)[id := r.0] && events == old(events) + (if sendOk then r.1 else [])
    {
      if resp.incidentId.None? || resp.incidentId.value !in activeIncidents {
        return;
      }
      var id := resp.incidentId.value;
      if resp.agentType == Some("diagnostic") {
        HandleDiagnosticResponse(id, resp, now, sendOk);
      } else if resp.agentType == Some("resolution") {
        HandleResolutionResponse(id, resp, now, sendOk);
      }
    }

    /** `_handle_diagnostic_response`. */
    method HandleDiagnosticResponse(id: string, resp: AgentResponse, now: int, sendOk: bool)
      requires Valid() && id in activeIncidents
      modifies this
      ensures Valid()
      ensures var r := OnDiagnostic(old(activeIncidents)[id], resp, now);
        activeIncidents == old(activeIncidents)[id := r.0] && events == old(events) + (if sendOk then r.1 else [])
    {
      var incident := activeIncidents[id];
      var diagnosis := resp.diagnosis.GetOr(EmptyDiagnosis);
      var confidence := resp.confidence.GetOr(0.0);
      if confidence >= 0.8 {
        if sendOk && ResolutionRole in incident.assignedAgents {
          events := events + [ResolutionRequest(incident.id, diagnosis)];
        } else if sendOk && CommunicationRole in incident.assignedAgents {
          events := events + [CommunicationRequest(incident.id, "diagnosis_complete")];
        }
        activeIncidents := activeIncidents[id := incident];
      } else {
        var _ := EscalateIncident(id, LowDiagnosticConfidence(confidence), now, sendOk);
      }
    }

    /** `_handle_resolution_response`. */
    method HandleResolutionResponse(id: string, resp: AgentResponse, now: int, sendOk: bool)
      requires Valid() && id in activeIncidents
      modifies this
      ensures Valid()
      ensures var r := OnResolution(old(activeIncidents)[id], resp, now);
        activeIncidents == old(activeIncidents)[id := r.0] && events == old(events) + (if sendOk then r.1 else [])
    {
      ghost var r := OnResolution(activeIncidents[id], resp, now);
      var incident := activeIncidents[id];
      incident := incident.(resolutionActions := incident.resolutionActions + resp.actionsTaken.GetOr([]));
      activeIncidents := activeIncidents[id := incident];
      if resp.success.GetOr(false) {
        incident := incident.(status := Resolved, actualResolutionTime := Some(now - incident.createdAt));
        assert incident == r.0;
        activeIncidents := activeIncidents[id := incident];
        if sendOk && CommunicationRole in incident.assignedAgents {
          events := events + [CommunicationRequest(incident.id, "incident_resolved")];
        }
      } else {
        assert r == Escalate(incident, AutomaticResolutionFailed, now);
        var _ := EscalateIncident(id, AutomaticResolutionFailed, now, sendOk);
      }
    }

    /** `get_incident_status`: nothing for an unknown id. */
    function GetIncidentStatus(id: string): (r: Option<StatusView>)
      reads this
      ensures r.None? <==> id !in activeIncidents
      ensures r.Some? ==>
        && r.value.id == activeIncidents[id].id
        && r.value.status == StatusValue(activeIncidents[id].status)
        && r.value.severity == SeverityValue(activeIncidents[id].severity)
        && r.value.createdAt == activeIncidents[id].createdAt
        && r.value.updatedAt == activeIncidents[id].updatedAt
        && r.value.assignedAgents == activeIncidents[id].assignedAgents
        && r.value.resolutionActions == activeIncidents[id].resolutionActions
    {
      if id in activeIncidents then
        var inc := activeIncidents[id];
        Some(StatusView(inc.id, StatusValue(inc.status), SeverityValue(inc.severity), inc.createdAt,
                        inc.updatedAt, inc.assignedAgents, inc.resolutionActions))
      else None
    }
  }
}
