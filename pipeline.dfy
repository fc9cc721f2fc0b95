/** How the result events of the diagnostic and resolution agents read once
    they reach the orchestrator's `handle_agent_response`, which looks up
    `incident_id`, `agent_type`, `confidence`, `diagnosis`, `success` and
    `actions_taken` at the top level of the event. */
module Pipeline {
  import opened Base
  import O = OrchestratorAgent
  import D = DiagnosticAgent
  import R = ResolutionAgent

  /** The diagnostic result event as the orchestrator reads it: it has no
      top-level `confidence`; the confidence sits inside `diagnosis`. */
  function FromDiagnostic(e: D.ResultEvent): O.AgentResponse {
    O.AgentResponse(e.incidentId, Some(e.agentType), None,
                    Some(Diagnosis(Some(e.diagnosis.rootCause), Some(e.diagnosis.confidence))),
                    None, None)
  }

  /** The resolution result event as the orchestrator reads it. */
  function FromResolution(e: R.ResultEvent): O.AgentResponse {
    O.AgentResponse(e.incidentId, Some("resolution"), None, None, Some(e.success), Some(e.actionsTaken))
  }

  /** As the two agents are written, every diagnosis escalates its incident,
      however confident: the orchestrator finds no top-level confidence and
      takes 0.0. */
  lemma DiagnosisAlwaysEscalates(inc: O.Incident, r: D.DiagnosticResult, now: int)
    ensures O.OnResponse(inc, FromDiagnostic(D.ResultEventOf(r)), now)
      == O.Escalate(inc, O.LowDiagnosticConfidence(0.0), now)
    ensures O.OnResponse(inc, FromDiagnostic(D.ResultEventOf(r)), now).0.status == O.Escalated
  {
    var resp := FromDiagnostic(D.ResultEventOf(r));
    assert resp.agentType == Some("diagnostic");
    assert resp.confidence.GetOr(0.0) == 0.0;
  }

  /** A diagnosis of full confidence: escalated as written, left in place
      (and handed on) once the confidence is where the orchestrator reads
      it. */
  lemma FullConfidenceEscalates(inc: O.Incident, r: D.DiagnosticResult, now: int)
    requires r.confidence == 1.0
    ensures O.OnResponse(inc, FromDiagnostic(D.ResultEventOf(r)), now).0.status == O.Escalated
    ensures O.OnResponse(inc, FromDiagnosticCorrected(D.ResultEventOf(r)), now).0 == inc
  {
    DiagnosisAlwaysEscalates(inc, r, now);
    CorrectedDiagnosisRouting(inc, r, now);
  }

  /** The evidently intended event: the confidence is also given at the top
      level, where the orchestrator reads it. */
  function FromDiagnosticCorrected(e: D.ResultEvent): O.AgentResponse {
    FromDiagnostic(e).(confidence := Some(e.diagnosis.confidence))
  }

  /** With the confidence where the orchestrator reads it, a diagnosis of
      0.8 or more leaves the incident as it is and hands the diagnosis to
      the resolution agent when one is assigned; a lower one escalates with
      the diagnosis' own confidence. */
  lemma CorrectedDiagnosisRouting(inc: O.Incident, r: D.DiagnosticResult, now: int)
    ensures var out := O.OnResponse(inc, FromDiagnosticCorrected(D.ResultEventOf(r)), now);
      && (r.confidence >= 0.8 ==> out.0 == inc)
      && (r.confidence >= 0.8 && O.ResolutionRole in inc.assignedAgents ==>
            out.1 == [O.ResolutionRequest(inc.id, Diagnosis(Some(r.rootCause), Some(r.confidence)))])
      && (r.confidence < 0.8 ==> out == O.Escalate(inc, O.LowDiagnosticConfidence(r.confidence), now))
  {
    var resp := FromDiagnosticCorrected(D.ResultEventOf(r));
    assert resp.agentType == Some("diagnostic");
    assert resp.confidence.GetOr(0.0) == r.confidence;
  }

  /** With the corrected event, the analysis of an incident is passed on to
      the resolution agent exactly when its confidence reaches 0.8: when the
      model's answer does, or, without a usable model answer, when a log
      pattern is critical. */
  lemma CorrectedAnalysisForwarded(inc: O.Incident, r: D.DiagnosticResult, now: int,
                                   patterns: seq<D.LogPattern>, ai: D.AiAnalysis)
    requires D.RootCauseChosen(patterns, r.anomalies, ai, r.rootCause, r.confidence)
    requires O.ResolutionRole in inc.assignedAgents
    ensures var out := O.OnResponse(inc, FromDiagnosticCorrected(D.ResultEventOf(r)), now);
      (out.0 == inc && out.1 == [O.ResolutionRequest(inc.id, Diagnosis(Some(r.rootCause), Some(r.confidence)))])
      <==>
      (ai.confidence.GetOr(0.0) >= 0.8
       || (ai.confidence.GetOr(0.0) < 0.7 && exists k :: 0 <= k < |patterns| && patterns[k].severity == D.Critical))
  {
    D.ConfidentDiagnosis(patterns, r.anomalies, ai, r.rootCause, r.confidence);
    CorrectedDiagnosisRouting(inc, r, now);
  }

  /** A resolution result resolves the incident when every action succeeded
      and escalates it otherwise; either way the actions are appended to the
      incident's record. */
  lemma ResolutionOutcome(inc: O.Incident, e: R.ResultEvent, now: int)
    ensures var out := O.OnResponse(inc, FromResolution(e), now);
      && out.0.resolutionActions == inc.resolutionActions + e.actionsTaken
      && (e.success ==> out.0.status == O.Resolved && out.0.actualResolutionTime == Some(now - inc.createdAt))
      && (!e.success ==> out.0.status == O.Escalated)
  {
    assert FromResolution(e).agentType == Some("resolution");
  }
}
