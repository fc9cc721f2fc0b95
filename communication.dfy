/** The communication agent: maps incoming events to message types, picks
    the stakeholders to notify from the severity and the message type, routes
    each notification to the stakeholder's preferred channels that are also
    configured and have a template, and keeps a per-incident notification
    history. The bounded text formatters used in the notifications and the
    validation of approval responses are modelled as functions. Sending
    (Teams, e-mail, SMS, webhooks, Event Hub) is recorded as values. */
module CommunicationAgent {
  import opened Base

  datatype MessageType =
    | IncidentDetected | DiagnosisComplete | ResolutionInProgress | IncidentResolved
    | IncidentEscalated | ApprovalRequest | StatusUpdate

  datatype Channel = Teams | Email | Slack | Sms | Webhook

  function ChannelValue(c: Channel): string {
    match c
    case Teams => "teams"
    case Email => "email"
    case Slack => "slack"
    case Sms => "sms"
    case Webhook => "webhook"
  }

  datatype Priority = LowPriority | MediumPriority | HighPriority | CriticalPriority

  /** The four stakeholders the agent knows: `ops_team`, `dev_team`,
      `management` and `on_call`. */
  datatype StakeholderId = OpsTeam | DevTeam | Management | OnCall

  datatype Stakeholder = Stakeholder(
    id: StakeholderId,
    name: string,
    email: string,
    role: string,
    teamsId: Option<string>,
    phone: Option<string>,
    preferences: seq<Channel>,
    escalationLevel: int)

  // ---------------------------------------------------------------------
  // Event types and message types

  /** `_map_event_to_message_type`: six event types are recognised. */
  function MessageTypeOf(eventType: Option<string>): Option<MessageType> {
    match eventType
    case None => None
    case Some(e) =>
      if e == "incident_analysis_request" then Some(IncidentDetected)
      else if e == "diagnostic_result" then Some(DiagnosisComplete)
      else if e == "resolution_request" then Some(ResolutionInProgress)
      else if e == "resolution_result" then Some(IncidentResolved)
      else if e == "incident_escalation" then Some(IncidentEscalated)
      else if e == "approval_request" then Some(ApprovalRequest)
      else None
  }

  /** The event type that announces each message type; a status update is
      produced only by the agent itself and has none. */
  function EventTypeOf(m: MessageType): Option<string> {
    match m
    case IncidentDetected => Some("incident_analysis_request")
    case DiagnosisComplete => Some("diagnostic_result")
    case ResolutionInProgress => Some("resolution_request")
    case IncidentResolved => Some("resolution_result")
    case IncidentEscalated => Some("incident_escalation")
    case ApprovalRequest => Some("approval_request")
    case StatusUpdate => None
  }

  /** The mapping is one-to-one on the six recognised event types: a
      recognised event type comes from exactly one message type, and every
      message type except STATUS_UPDATE is reached. */
  lemma MessageTypeMapping(eventType: Option<string>, m: MessageType)
    ensures MessageTypeOf(eventType) == Some(m) <==> EventTypeOf(m).Some? && eventType == EventTypeOf(m)
    ensures MessageTypeOf(eventType) != Some(StatusUpdate)
  {
  }

  // ---------------------------------------------------------------------
  // Stakeholders and templates

  /** `_determine_target_stakeholders`; the source deduplicates through a
      set, so the result is a set. */
  function TargetStakeholders(severity: string, m: MessageType): (targets: set<StakeholderId>)
    ensures OpsTeam in targets
    ensures DevTeam in targets <==> severity == "high" || severity == "critical"
    ensures OnCall in targets <==> severity == "high" || severity == "critical"
    ensures Management in targets <==> severity == "critical" || m == IncidentEscalated || m == ApprovalRequest
  {
    var bySeverity :=
      if severity == "critical" then {DevTeam, OnCall, Management}
      else if severity == "high" then {DevTeam, OnCall}
      else {};
    {OpsTeam} + bySeverity + (if m == IncidentEscalated || m == ApprovalRequest then {Management} else {})
  }

  /** No channel is listed twice in any stakeholder's preferences. */
  predicate DistinctPreferences(directory: map<StakeholderId, Stakeholder>) {
    forall s, i, j :: s in directory && 0 <= i < j < |directory[s].preferences| ==>
      directory[s].preferences[i] != directory[s].preferences[j]
  }

  /** `_load_stakeholders`. */
  function LoadStakeholders(): (directory: map<StakeholderId, Stakeholder>)
    ensures directory.Keys == {OpsTeam, DevTeam, Management, OnCall}
    ensures forall s :: s in directory ==> directory[s].id == s
    ensures DistinctPreferences(directory)
  {
    map[
      OpsTeam := Stakeholder(OpsTeam, "Operations Team", "ops@company.com", "operations",
                             Some("ops-team-channel"), None, [Teams, Email], 1),
      DevTeam := Stakeholder(DevTeam, "Development Team", "dev@company.com", "development",
                             Some("dev-team-channel"), None, [Teams], 2),
      Management := Stakeholder(Management, "Management", "management@company.com", "management",
                                Some("management-channel"), None, [Email, Sms], 3),
      OnCall := Stakeholder(OnCall, "On-Call Engineer", "oncall@company.com", "on_call",
                            None, Some("+1234567890"), [Sms, Teams], 1)
    ]
  }

  /** `_load_notification_templates`, keyed by message type and channel: the
      priority of the template, or None when there is no template. Every
      template is for Teams except the e-mail one for a detected incident. */
  function TemplatePriority(m: MessageType, c: Channel): (p: Option<Priority>)
    ensures p.Some? ==> c == Teams || (c == Email && m == IncidentDetected)
    ensures c == Teams ==> (p.Some? <==> m != StatusUpdate)
  {
    match (m, c)
    case (IncidentDetected, Teams) => Some(HighPriority)
    case (IncidentDetected, Email) => Some(HighPriority)
    case (DiagnosisComplete, Teams) => Some(MediumPriority)
    case (ResolutionInProgress, Teams) => Some(MediumPriority)
    case (IncidentResolved, Teams) => Some(LowPriority)
    case (IncidentEscalated, Teams) => Some(CriticalPriority)
    case (ApprovalRequest, Teams) => Some(HighPriority)
    case _ => None
  }

  predicate HasTemplate(m: MessageType, c: Channel) {
    TemplatePriority(m, c).Some?
  }

  /** One notification handed to a channel: who, on which channel, about what. */
  datatype Delivery = Delivery(stakeholder: StakeholderId, channel: Channel, messageType: MessageType)

  /** Whether `_send_notification` is reached for `c` and gets past the
      template lookup: the channel is configured and has a template. */
  predicate Routable(channels: seq<string>, m: MessageType, c: Channel) {
    ChannelValue(c) in channels && HasTemplate(m, c)
  }

  /** No delivery occurs twice. */
  predicate NoRepeats(ds: seq<Delivery>) {
    forall i, j :: 0 <= i < j < |ds| ==> ds[i] != ds[j]
  }

  lemma AppendNoRepeats(ds: seq<Delivery>, d: Delivery)
    requires NoRepeats(ds) && d !in ds
    ensures NoRepeats(ds + [d])
  {
  }

  /** One channel of the inner loop of `_send_notifications`: the deliveries
      sent so far go from the routes of `done` and of `id` on the first `j`
      preferences to those on the first `j + 1`, and stay without repeats. */
  lemma ChannelStep(directory: map<StakeholderId, Stakeholder>, channels: seq<string>, m: MessageType,
                    done: set<StakeholderId>, id: StakeholderId, j: nat, ds: seq<Delivery>, ds': seq<Delivery>)
    requires id in directory && id !in done && j < |directory[id].preferences|
    requires forall d :: d in ds <==>
      IsRoute(directory, channels, m, done, d)
      || (d.stakeholder == id && d.channel in directory[id].preferences[..j] && IsRoute(directory, channels, m, {id}, d))
    requires DistinctPreferences(directory) ==> NoRepeats(ds)
    requires ds' == if Routable(channels, m, directory[id].preferences[j])
      then ds + [Delivery(id, directory[id].preferences[j], m)] else ds
    ensures forall d :: d in ds' <==>
      IsRoute(directory, channels, m, done, d)
      || (d.stakeholder == id && d.channel in directory[id].preferences[..j + 1] && IsRoute(directory, channels, m, {id}, d))
    ensures DistinctPreferences(directory) ==> NoRepeats(ds')
  {
    var prefs := directory[id].preferences;
    assert prefs[..j + 1] == prefs[..j] + [prefs[j]];
    if Routable(channels, m, prefs[j]) && DistinctPreferences(directory) {
      assert prefs[j] !in prefs[..j];
      AppendNoRepeats(ds, Delivery(id, prefs[j], m));
    }
  }

  /** `d` is one of the notifications sent for message type `m` to the
      stakeholders `targets`: its stakeholder is a target found in the
      directory, and its channel is one the stakeholder prefers that is
      routable. */
  predicate IsRoute(directory: map<StakeholderId, Stakeholder>, channels: seq<string>, m: MessageType,
                    targets: set<StakeholderId>, d: Delivery)
  {
    && d.messageType == m
    && d.stakeholder in targets && d.stakeholder in directory
    && d.channel in directory[d.stakeholder].preferences
    && Routable(channels, m, d.channel)
  }

  /** A status update has no template, so it is never sent anywhere. */
  lemma StatusUpdatesAreNotSent(directory: map<StakeholderId, Stakeholder>, channels: seq<string>,
                                targets: set<StakeholderId>, d: Delivery)
    ensures !IsRoute(directory, channels, StatusUpdate, targets, d)
  {
  }

  /** With the configured default channels (Teams and e-mail) nothing goes
      out by SMS, Slack or webhook, whatever the stakeholders prefer. */
  lemma DefaultChannelsOnly(directory: map<StakeholderId, Stakeholder>, m: MessageType,
                            targets: set<StakeholderId>, d: Delivery)
    requires IsRoute(directory, DefaultChannels, m, targets, d)
    ensures d.channel == Teams || d.channel == Email
  {
  }

  /** `config.get("notification_channels", ["teams", "email"])`. */
  const DefaultChannels: seq<string> := ["teams", "email"]

  /** With the stakeholders the agent loads and the default channels, a
      critical incident's detection reaches the operations team on Teams and
      by e-mail, the development team and the on-call engineer on Teams, and
      management by e-mail. */
  lemma CriticalDetectionRouting(d: Delivery)
    ensures IsRoute(LoadStakeholders(), DefaultChannels, IncidentDetected,
                    TargetStakeholders("critical", IncidentDetected), d)
        <==> d in {Delivery(OpsTeam, Teams, IncidentDetected), Delivery(OpsTeam, Email, IncidentDetected),
                   Delivery(DevTeam, Teams, IncidentDetected), Delivery(OnCall, Teams, IncidentDetected),
                   Delivery(Management, Email, IncidentDetected)}
  {
  }

  // ---------------------------------------------------------------------
  // Text formatters

  /** `f"- ... and {len(evidence) - 3} more items"`. */
  function MoreItemsLine(hidden: nat): string {
    "- ... and " + NatToString(hidden) + " more items"
  }

  /** The lines of `_format_evidence`: a bullet with the description
      ("Unknown evidence" when absent) of each of the first three items,
      then one line counting the items not shown. */
  function EvidenceLines(evidence: seq<Option<string>>): (lines: seq<string>)
    ensures |lines| == Min(|evidence|, 3) + (if |evidence| > 3 then 1 else 0)
    ensures forall i :: 0 <= i < Min(|evidence|, 3) ==> lines[i] == "- " + evidence[i].GetOr("Unknown evidence")
    ensures |evidence| > 3 ==> lines[3] == MoreItemsLine(|evidence| - 3)
  {
    var shown := evidence[..Min(|evidence|, 3)];
    var bullets := seq(|shown|, i requires 0 <= i < |shown| => "- " + shown[i].GetOr("Unknown evidence"));
    if |evidence| > 3 then bullets + [MoreItemsLine(|evidence| - 3)] else bullets
  }

  /** The count in the last line is what is needed to account for every item:
      reading it back and adding the three shown gives the number of items. */
  lemma EvidenceLinesAccountForAll(evidence: seq<Option<string>>)
    requires |evidence| > 3
    ensures var line := EvidenceLines(evidence)[3];
      |line| >= 21 && 3 + ParseNat(line[10..|line| - 11]) == |evidence|
  {
    var digits := NatToString(|evidence| - 3);
    var line := MoreItemsLine(|evidence| - 3);
    assert line[10..|line| - 11] == digits;
    ParseNatToString(|evidence| - 3);
  }

  /** `_format_evidence`: the placeholder stands exactly for an empty list;
      otherwise the text opens with the first item's bullet. */
  function FormatEvidence(evidence: seq<Option<string>>): (text: string)
    ensures text == "No evidence collected" <==> evidence == []
    ensures evidence != [] ==> "- " + evidence[0].GetOr("Unknown evidence") <= text
  {
    if evidence == [] then "No evidence collected"
    else
      JoinStartsWith(EvidenceLines(evidence), "\n");
      PrefixFirstChar(EvidenceLines(evidence)[0], Join(EvidenceLines(evidence), "\n"));
      Join(EvidenceLines(evidence), "\n")
  }

  /** The lines of `_format_recommendations`: at most the first five. */
  function RecommendationLines(recommendations: seq<string>): (lines: seq<string>)
    ensures |lines| == Min(|recommendations|, 5)
    ensures forall i :: 0 <= i < |lines| ==> lines[i] == "- " + recommendations[i]
  {
    var shown := recommendations[..Min(|recommendations|, 5)];
    seq(|shown|, i requires 0 <= i < |shown| => "- " + shown[i])
  }

  /** `_format_recommendations`: the placeholder stands exactly for an empty
      list; otherwise the text opens with the first recommendation's bullet. */
  function FormatRecommendations(recommendations: seq<string>): (text: string)
    ensures text == "No recommendations available" <==> recommendations == []
    ensures recommendations != [] ==> "- " + recommendations[0] <= text
  {
    if recommendations == [] then "No recommendations available"
    else
      JoinStartsWith(RecommendationLines(recommendations), "\n");
      PrefixFirstChar(RecommendationLines(recommendations)[0], Join(RecommendationLines(recommendations), "\n"));
      Join(RecommendationLines(recommendations), "\n")
  }

  function StatusMark(success: bool): string {
    if success then "\U{2705}" else "\U{274C}"
  }

  /** The lines of `_format_actions`: a check or cross mark and the
      description of each of the first three actions, then one line counting
      the actions not shown. */
  function ActionLines(actions: seq<ActionResult>): (lines: seq<string>)
    ensures |lines| == Min(|actions|, 3) + (if |actions| > 3 then 1 else 0)
    ensures forall i :: 0 <= i < Min(|actions|, 3) ==>
      lines[i] == StatusMark(actions[i].success) + " " + actions[i].description
    ensures |actions| > 3 ==> lines[3] == "... and " + NatToString(|actions| - 3) + " more actions"
  {
    var shown := actions[..Min(|actions|, 3)];
    var marked := seq(|shown|, i requires 0 <= i < |shown| => StatusMark(shown[i].success) + " " + shown[i].description);
    if |actions| > 3 then marked + ["... and " + NatToString(|actions| - 3) + " more actions"] else marked
  }

  /** `_format_actions`: the placeholder stands exactly for an empty list;
      otherwise the text opens with the first action's mark and
      description. */
  function FormatActions(actions: seq<ActionResult>): (text: string)
    ensures text == "No actions taken" <==> actions == []
    ensures actions != [] ==> StatusMark(actions[0].success) + " " + actions[0].description <= text
  {
    if actions == [] then "No actions taken"
    else
      JoinStartsWith(ActionLines(actions), "\n");
      PrefixFirstChar(ActionLines(actions)[0], Join(ActionLines(actions), "\n"));
      Join(ActionLines(actions), "\n")
  }

  /** Number of successful actions. */
  function SuccessCount(actions: seq<ActionResult>): (k: nat)
    ensures k <= |actions|
  {
    if actions == [] then 0 else (if actions[0].success then 1 else 0) + SuccessCount(actions[1..])
  }

  /** Every action is counted exactly when every action succeeded. */
  lemma {:induction false} SuccessCountAll(actions: seq<ActionResult>)
    ensures SuccessCount(actions) == |actions| <==> forall i :: 0 <= i < |actions| ==> actions[i].success
  {
    if actions != [] {
      SuccessCountAll(actions[1..]);
      assert forall i :: 1 <= i < |actions| ==> actions[i] == actions[1..][i - 1];
    }
  }

  /** `_format_resolution_summary`: "k/n actions completed successfully". */
  function ResolutionSummary(actions: seq<ActionResult>): string {
    NatToString(SuccessCount(actions)) + "/" + NatToString(|actions|) + " actions completed successfully"
  }

  /** The summary reads "n/n" exactly when every action succeeded. */
  lemma ResolutionSummaryFull(actions: seq<ActionResult>)
    ensures var n := NatToString(|actions|);
      ResolutionSummary(actions) == n + "/" + n + " actions completed successfully" <==>
        forall i :: 0 <= i < |actions| ==> actions[i].success
  {
    SummaryCountsDiffer(SuccessCount(actions), |actions|);
    SuccessCountAll(actions);
  }

  /** "k/n ..." and "n/n ..." agree only when k is n. */
  lemma SummaryCountsDiffer(k: nat, n: nat)
    ensures (NatToString(k) + "/" + NatToString(n) + " actions completed successfully"
             == NatToString(n) + "/" + NatToString(n) + " actions completed successfully") ==> k == n
  {
    var a, b := NatToString(k), NatToString(n);
    var rest := "/" + b + " actions completed successfully";
    assert a + "/" + b + " actions completed successfully" == a + rest;
    assert b + "/" + b + " actions completed successfully" == b + rest;
    if a + rest == b + rest {
      DigitsPrefixUnique(a, rest, b, rest);
      NatToStringInjective(k, n);
    }
  }

  /** The lines of `_format_proposed_actions`: every action, unbounded. */
  function ProposedActionLines(descriptions: seq<Option<string>>): (lines: seq<string>)
    ensures |lines| == |descriptions|
    ensures forall i :: 0 <= i < |lines| ==> lines[i] == "- " + descriptions[i].GetOr("Unknown action")
  {
    seq(|descriptions|, i requires 0 <= i < |descriptions| => "- " + descriptions[i].GetOr("Unknown action"))
  }

  /** `_format_proposed_actions`: the placeholder stands exactly for an
      empty list; otherwise the text opens with the first action's bullet. */
  function FormatProposedActions(descriptions: seq<Option<string>>): (text: string)
    ensures text == "No actions proposed" <==> descriptions == []
    ensures descriptions != [] ==> "- " + descriptions[0].GetOr("Unknown action") <= text
  {
    if descriptions == [] then "No actions proposed"
    else
      JoinStartsWith(ProposedActionLines(descriptions), "\n");
      PrefixFirstChar(ProposedActionLines(descriptions)[0], Join(ProposedActionLines(descriptions), "\n"));
      Join(ProposedActionLines(descriptions), "\n")
  }

  /** The lines of `_format_metrics`: one "- key: value" bullet per metric,
      in the dictionary's order. */
  function MetricLines(metrics: seq<(string, string)>): (lines: seq<string>)
    ensures |lines| == |metrics|
    ensures forall i :: 0 <= i < |lines| ==> lines[i] == "- " + metrics[i].0 + ": " + metrics[i].1
  {
    seq(|metrics|, i requires 0 <= i < |metrics| => "- " + metrics[i].0 + ": " + metrics[i].1)
  }

  /** `_format_metrics`, with each value already printed as text: the
      placeholder stands exactly for no metrics; otherwise the text opens
      with the first metric's bullet. */
  function FormatMetrics(metrics: seq<(string, string)>): (text: string)
    ensures text == "No metrics available" <==> metrics == []
    ensures metrics != [] ==> "- " + metrics[0].0 + ": " + metrics[0].1 <= text
  {
    if metrics == [] then "No metrics available"
    else
      JoinStartsWith(MetricLines(metrics), "\n");
      PrefixFirstChar(MetricLines(metrics)[0], Join(MetricLines(metrics), "\n"));
      Join(MetricLines(metrics), "\n")
  }

  /** `_calculate_time_elapsed`, with the creation time and the clock in
      seconds; whole minutes are truncated toward zero as `int()` does.
      Stated on the seconds elapsed: under an hour it is the whole
      minutes, from an hour on the whole hours and the minutes past them. */
  function ElapsedText(createdAt: Option<int>, now: int): (text: string)
    ensures createdAt.None? ==> text == "Unknown"
    ensures createdAt.Some? && 0 <= now - createdAt.value < 3600 ==>
      text == NatToString((now - createdAt.value) / 60) + " minutes"
    ensures createdAt.Some? && -60 < now - createdAt.value < 0 ==> text == "0 minutes"
    ensures createdAt.Some? && now - createdAt.value <= -60 ==>
      text == "-" + NatToString((createdAt.value - now) / 60) + " minutes"
    ensures createdAt.Some? && now - createdAt.value >= 3600 ==>
      var e := now - createdAt.value;
      text == NatToString(e / 3600) + "h " + NatToString(e % 3600 / 60) + "m"
  {
    match createdAt
    case None => "Unknown"
    case Some(t) =>
      var e := now - t;
      if e >= 3600 then
        ElapsedHours(e);
        MinutesText(TruncDiv(e, 60))
      else if e > -60 then
        assert e < 0 ==> TruncDiv(e, 60) == 0 && NatToString(0) == "0";
        MinutesText(TruncDiv(e, 60))
      else
        assert TruncDiv(e, 60) == -((t - now) / 60) < 0;
        MinutesText(TruncDiv(e, 60))
  }

  /** From an hour on, the minutes text of `e` seconds is the whole hours
      and the whole minutes past them. */
  lemma ElapsedHours(e: int)
    requires e >= 3600
    ensures MinutesText(TruncDiv(e, 60)) == NatToString(e / 3600) + "h " + NatToString(e % 3600 / 60) + "m"
  {
    var q, r := e / 3600, e % 3600;
    DivideBy60(e, 60 * q + r / 60, r % 60);
    DivideBy60(e / 60, q, r / 60);
  }

  /** Euclidean division by 60 is the unique split into a quotient and a
      remainder below 60. */
  lemma DivideBy60(a: int, q: int, r: int)
    requires a == 60 * q + r && 0 <= r < 60
    ensures a / 60 == q && a % 60 == r
  {
  }

  /** How a number of minutes is printed: "m minutes" below an hour, else
      "Hh Mm" for the hours and the minutes left over. */
  function MinutesText(minutes: int): (text: string)
    ensures 0 <= minutes < 60 ==> text == NatToString(minutes) + " minutes"
    ensures minutes < 0 ==> text == "-" + NatToString(-minutes) + " minutes"
  {
    if minutes < 60 then IntToString(minutes) + " minutes"
    else NatToString(minutes / 60) + "h " + NatToString(minutes % 60) + "m"
  }

  lemma RegroupHours(a: string, b: string)
    ensures a + "h " + b + "m" == a + ("h " + b + "m")
  {
  }

  /** "Hh Mm" determines both digit strings. */
  lemma HoursTextSplits(a1: string, b1: string, a2: string, b2: string)
    requires IsDigits(a1) && IsDigits(b1) && IsDigits(a2) && IsDigits(b2)
    requires a1 + "h " + b1 + "m" == a2 + "h " + b2 + "m"
    ensures a1 == a2 && b1 == b2
  {
    RegroupHours(a1, b1);
    RegroupHours(a2, b2);
    DigitsPrefixUnique(a1, "h " + b1 + "m", a2, "h " + b2 + "m");
    assert b1 + "m" == ("h " + b1 + "m")[2..];
    assert b2 + "m" == ("h " + b2 + "m")[2..];
    DigitsPrefixUnique(b1, "m", b2, "m");
  }

  /** From an hour on, the printed text determines the number of minutes:
      different minute counts never print alike. */
  lemma MinutesTextInjective(m1: int, m2: int)
    requires m1 >= 60 && m2 >= 60
    requires MinutesText(m1) == MinutesText(m2)
    ensures m1 == m2
  {
    HoursTextSplits(NatToString(m1 / 60), NatToString(m1 % 60), NatToString(m2 / 60), NatToString(m2 % 60));
    NatToStringInjective(m1 / 60, m2 / 60);
    NatToStringInjective(m1 % 60, m2 % 60);
  }

  /** The SMS text: more than 160 characters are cut to 160 and "..." is
      appended. */
  function SmsText(message: string): (sms: string)
    ensures |message| <= 160 ==> sms == message
    ensures |message| > 160 ==> |sms| == 163 && sms[..160] == message[..160] && sms[160..] == "..."
  {
    if |message| > 160 then message[..160] + "..." else message
  }

  /** Shortening an SMS text again changes nothing. */
  lemma SmsTextIdempotent(message: string)
    ensures SmsText(SmsText(message)) == SmsText(message)
  {
    if |message| > 160 {
      var sms := SmsText(message);
      assert sms[..160] + "..." == sms;
    }
  }

  /** `_get_theme_color`: the first marker found in the subject decides. */
  function ThemeColor(subject: string): (color: string)
    ensures color in {"FF0000", "00FF00", "FFA500", "0078D4"}
  {
    if Contains(subject, "\U{1F6A8}") || Contains(subject, "ESCALATION") then "FF0000"
    else if Contains(subject, "\U{2705}") || Contains(subject, "Resolved") then "00FF00"
    else if Contains(subject, "\U{26A0}\U{FE0F}") || Contains(subject, "Approval") then "FFA500"
    else "0078D4"
  }

  /** A subject opening with the siren mark (the detection and escalation
      subjects) is shown red, whatever follows it. */
  lemma SirenSubjectsAreRed(rest: string)
    ensures ThemeColor("\U{1F6A8}" + rest) == "FF0000"
  {
    var s := "\U{1F6A8}" + rest;
    assert s[0..1] == "\U{1F6A8}";
    ContainsAt(s, "\U{1F6A8}", 0);
  }

  /** The resolution subject is shown green unless its title itself carries
      an escalation marker. */
  lemma ResolvedSubjectIsGreen(title: string)
    requires !Contains(title, "\U{1F6A8}") && !Contains(title, "ESCALATION")
    ensures ThemeColor("\U{2705} Incident Resolved: " + title) == "00FF00"
  {
    var prefix := "\U{2705} Incident Resolved: ";
    var s := prefix + title;
    ContainsAfterPrefix(prefix, title, "\U{1F6A8}");
    ContainsAfterPrefix(prefix, title, "ESCALATION");
    assert s[0..1] == "\U{2705}";
    ContainsAt(s, "\U{2705}", 0);
  }

  /** A subject opening with the warning mark (the approval subject) is
      shown orange when the rest carries no escalation or resolution
      marker. */
  lemma WarningSubjectsAreOrange(rest: string)
    requires !Contains(rest, "\U{1F6A8}") && !Contains(rest, "ESCALATION")
    requires !Contains(rest, "\U{2705}") && !Contains(rest, "Resolved")
    ensures ThemeColor("\U{26A0}\U{FE0F}" + rest) == "FFA500"
  {
    var prefix := "\U{26A0}\U{FE0F}";
    var s := prefix + rest;
    ContainsAfterPrefix(prefix, rest, "\U{1F6A8}");
    ContainsAfterPrefix(prefix, rest, "ESCALATION");
    ContainsAfterPrefix(prefix, rest, "\U{2705}");
    ContainsAfterPrefix(prefix, rest, "Resolved");
    assert s[0..2] == prefix;
    ContainsAt(s, prefix, 0);
  }

  /** A subject opening with the magnifier mark (the diagnosis subject)
      carries no marker of its own: it is shown in the default blue when the
      rest carries none either. */
  lemma MagnifierSubjectsAreBlue(rest: string)
    requires !Contains(rest, "\U{1F6A8}") && !Contains(rest, "ESCALATION")
    requires !Contains(rest, "\U{2705}") && !Contains(rest, "Resolved")
    requires !Contains(rest, "\U{26A0}\U{FE0F}") && !Contains(rest, "Approval")
    ensures ThemeColor("\U{1F50D}" + rest) == "0078D4"
  {
    var prefix := "\U{1F50D}";
    ContainsAfterPrefix(prefix, rest, "\U{1F6A8}");
    ContainsAfterPrefix(prefix, rest, "ESCALATION");
    ContainsAfterPrefix(prefix, rest, "\U{2705}");
    ContainsAfterPrefix(prefix, rest, "Resolved");
    ContainsAfterPrefix(prefix, rest, "\U{26A0}\U{FE0F}");
    ContainsAfterPrefix(prefix, rest, "Approval");
  }

  /** `_determine_next_action`. */
  function NextAction(eventType: Option<string>, success: Option<bool>): string {
    var e := eventType.GetOr("");
    if e == "incident_analysis_request" then "Diagnostic analysis in progress"
    else if e == "diagnostic_result" then "Resolution planning initiated"
    else if e == "resolution_request" then "Executing corrective actions"
    else if e == "resolution_result" then (if success.GetOr(false) then "Incident resolved" else "Resolution failed - escalating")
    else if e == "incident_escalation" then "Manual intervention required"
    else if e == "approval_request" then "Awaiting approval for high-risk actions"
    else "Status update"
  }

  /** The next action is the generic "Status update" exactly for the event
      types that have no message type, and a resolution result reads
      "Incident resolved" exactly when it reports success. */
  lemma NextActionAgreesWithMessageType(eventType: Option<string>, success: Option<bool>)
    ensures NextAction(eventType, success) == "Status update" <==> MessageTypeOf(eventType).None?
    ensures MessageTypeOf(eventType) == Some(IncidentResolved) ==>
      (NextAction(eventType, success) == "Incident resolved" <==> success == Some(true))
  {
  }

  // ---------------------------------------------------------------------
  // Approval responses

  const ValidResponses: seq<string> := ["APPROVE", "DENY", "MODIFY"]

  /** The validation of `handle_approval_response`: case-insensitive. */
  predicate ValidApprovalResponse(response: string) {
    ToUpper(response) in ValidResponses
  }

  /** The upper-cased response forwarded to the orchestrator is itself one
      of the three words, and valid again. */
  lemma ForwardedResponseValid(response: string)
    requires ValidApprovalResponse(response)
    ensures ToUpper(response) in ValidResponses && ValidApprovalResponse(ToUpper(response))
  {
    ToUpperIdempotent(response);
  }

  /** The refusal of an invalid response lists the three words in order. */
  lemma RefusalListsResponses()
    ensures "Invalid response. Use: " + Join(ValidResponses, ", ") == "Invalid response. Use: APPROVE, DENY, MODIFY"
  {
    var tail := ["DENY", "MODIFY"];
    assert ValidResponses[1..] == tail && tail[1..] == ["MODIFY"];
    assert Join(tail, ", ") == "DENY" + ", " + "MODIFY";
  }

  // ---------------------------------------------------------------------
  // The agent object

  /** The part of an event that `_send_notifications` reads: its type, the
      incident id and the severity inside `incident_data`. */
  datatype NotificationRequest = NotificationRequest(
    eventType: Option<string>,
    incidentId: Option<string>,
    severity: Option<string>)

  /** An entry of `notification_history`. */
  datatype HistoryEntry = HistoryEntry(messageType: MessageType, stakeholders: set<StakeholderId>, timestamp: int)

  /** The `approval_response` event published to the orchestrator. */
  datatype ApprovalEvent = ApprovalEvent(incidentId: string, response: string, responder: string, timestamp: int)

  /** What `handle_approval_response` returns. */
  datatype ApprovalReply = ApprovalReply(success: bool, message: string)

  /** `history.get(id, [])`. */
  function HistoryOf(history: map<Option<string>, seq<HistoryEntry>>, id: Option<string>): seq<HistoryEntry> {
    if id in history then history[id] else []
  }

  class PhoenixCommunicationAgent {
    /** `notification_channels` of the configuration. */
    const channels: seq<string>
    /** The stakeholder directory, keyed by id. */
    const stakeholders: map<StakeholderId, Stakeholder>
    /** `notification_history`, keyed by incident id (possibly absent). */
    var history: map<Option<string>, seq<HistoryEntry>>
    /** Every notification handed to a channel so far, oldest first. */
    var sent: seq<Delivery>
    /** Every approval response published so far, oldest first. */
    var published: seq<ApprovalEvent>

    constructor (configuredChannels: Option<seq<string>>)
      ensures channels == configuredChannels.GetOr(DefaultChannels)
      ensures stakeholders == LoadStakeholders()
      ensures history == map[] && sent == [] && published == []
    {
      channels := configuredChannels.GetOr(DefaultChannels);
      stakeholders := LoadStakeholders();
      history := map[];
      sent := [];
      published := [];
    }

    /** `_send_notifications`: for every target stakeholder found in the
        directory, a notification on every preferred channel that is
        configured and has a template; then one history entry is appended
        for the incident. The source iterates over a set, so the order of
        the stakeholders is unspecified and only which notifications are
        sent is stated; with a directory whose preferences repeat no channel
        (as `LoadStakeholders` gives), each is sent once. */
    method SendNotifications(m: MessageType, request: NotificationRequest, now: int)
      modifies this`history, this`sent
      ensures var targets := TargetStakeholders(request.severity.GetOr("medium"), m);
        && old(sent) <= sent
        && (forall d :: d in sent[|old(sent)|..] <==> IsRoute(stakeholders, channels, m, targets, d))
        && (DistinctPreferences(stakeholders) ==> NoRepeats(sent[|old(sent)|..]))
        && history == old(history)[request.incidentId := HistoryOf(old(history), request.incidentId) + [HistoryEntry(m, targets, now)]]
    {
      var targets := TargetStakeholders(request.severity.GetOr("medium"), m);
      var remaining := targets;
      while remaining != {}
        invariant remaining <= targets
        invariant old(sent) <= sent && history == old(history)
        invariant forall d :: d in sent[|old(sent)|..] <==> IsRoute(stakeholders, channels, m, targets - remaining, d)
        invariant DistinctPreferences(stakeholders) ==> NoRepeats(sent[|old(sent)|..])
        decreases remaining
      {
        var id :| id in remaining;
        ghost var done := targets - remaining;
        NotifyStakeholder(m, id, |old(sent)|, done);
        remaining := remaining - {id};
        assert targets - remaining == done + {id};
        forall d
          ensures IsRoute(stakeholders, channels, m, done + {id}, d)
              <==> IsRoute(stakeholders, channels, m, done, d) || (d.stakeholder == id && IsRoute(stakeholders, channels, m, {id}, d))
        {
        }
      }
      assert targets - remaining == targets;
      history := history[request.incidentId := HistoryOf(history, request.incidentId) + [HistoryEntry(m, targets, now)]];
    }

    /** The body of the loop of `_send_notifications` for one stakeholder:
        a notification on every preferred channel that is configured and
        has a template, nothing for an id missing from the directory. The
        deliveries sent since `start` go from those routed to `done` to
        those routed to `done` and `id`. */
    method NotifyStakeholder(m: MessageType, id: StakeholderId, ghost start: nat, ghost done: set<StakeholderId>)
      requires start <= |sent| && id !in done
      requires forall d :: d in sent[start..] <==> IsRoute(stakeholders, channels, m, done, d)
      requires DistinctPreferences(stakeholders) ==> NoRepeats(sent[start..])
      modifies this`sent
      ensures old(sent) <= sent
      ensures forall d :: d in sent[start..] <==>
        IsRoute(stakeholders, channels, m, done, d) || (d.stakeholder == id && IsRoute(stakeholders, channels, m, {id}, d))
      ensures DistinctPreferences(stakeholders) ==> NoRepeats(sent[start..])
    {
      if id !in stakeholders {
        return;
      }
      var prefs := stakeholders[id].preferences;
      var j := 0;
      while j < |prefs|
        invariant 0 <= j <= |prefs|
        invariant old(sent) <= sent
        invariant forall d :: d in sent[start..] <==>
          IsRoute(stakeholders, channels, m, done, d) || (d.stakeholder == id && d.channel in prefs[..j] && IsRoute(stakeholders, channels, m, {id}, d))
        invariant DistinctPreferences(stakeholders) ==> NoRepeats(sent[start..])
      {
        ghost var before := sent;
        if ChannelValue(prefs[j]) in channels && HasTemplate(m, prefs[j]) {
          sent := sent + [Delivery(id, prefs[j], m)];
          assert sent[start..] == before[start..] + [Delivery(id, prefs[j], m)];
        }
        ChannelStep(stakeholders, channels, m, done, id, j, before[start..], sent[start..]);
        j := j + 1;
      }
      assert prefs[..j] == prefs;
    }

    /** `handle_notification_request`: an event type without a message type
        sends nothing and records nothing. */
    method HandleNotificationRequest(request: NotificationRequest, now: int)
      modifies this`history, this`sent
      ensures MessageTypeOf(request.eventType).None? ==> history == old(history) && sent == old(sent)
      ensures MessageTypeOf(request.eventType).Some? ==>
        var m := MessageTypeOf(request.eventType).value;
        var targets := TargetStakeholders(request.severity.GetOr("medium"), m);
        && old(sent) <= sent
        && (forall d :: d in sent[|old(sent)|..] <==> IsRoute(stakeholders, channels, m, targets, d))
        && (DistinctPreferences(stakeholders) ==> NoRepeats(sent[|old(sent)|..]))
        && history == old(history)[request.incidentId := HistoryOf(old(history), request.incidentId) + [HistoryEntry(m, targets, now)]]
    {
      var m := MessageTypeOf(request.eventType);
      if m.Some? {
        SendNotifications(m.value, request, now);
      }
    }

    /** `handle_approval_response`, with `publishFault` the text of the
        exception raised by the Event Hub send, if any. An invalid response
        is refused before anything happens; a valid one is published
        upper-cased and then announced as a status update, which reaches no
        channel but is recorded in the incident's history. */
    method HandleApprovalResponse(incidentId: string, response: string, responder: string, now: int,
                                  publishFault: Option<string>)
      returns (reply: ApprovalReply)
      modifies this`history, this`sent, this`published
      ensures !ValidApprovalResponse(response) ==>
        && reply == ApprovalReply(false, "Invalid response. Use: APPROVE, DENY, MODIFY")
        && history == old(history) && sent == old(sent) && published == old(published)
      ensures ValidApprovalResponse(response) && publishFault.Some? ==>
        && reply == ApprovalReply(false, "Failed to process approval: " + publishFault.value)
        && history == old(history) && sent == old(sent) && published == old(published)
      ensures ValidApprovalResponse(response) && publishFault.None? ==>
        && reply == ApprovalReply(true, "Approval response '" + response + "' recorded")
        && published == old(published) + [ApprovalEvent(incidentId, ToUpper(response), responder, now)]
        && sent == old(sent)
        && history == old(history)[Some(incidentId) := HistoryOf(old(history), Some(incidentId))
                                      + [HistoryEntry(StatusUpdate, TargetStakeholders("medium", StatusUpdate), now)]]
    {
      if ToUpper(response) !in ValidResponses {
        RefusalListsResponses();
        return ApprovalReply(false, "Invalid response. Use: " + Join(ValidResponses, ", "));
      }
      if publishFault.Some? {
        return ApprovalReply(false, "Failed to process approval: " + publishFault.value);
      }
      published := published + [ApprovalEvent(incidentId, ToUpper(response), responder, now)];
      SendNotifications(StatusUpdate, NotificationRequest(Some("status_update"), Some(incidentId), None), now);
      ghost var added := sent[|old(sent)|..];
      if added != [] {
        StatusUpdatesAreNotSent(stakeholders, channels, TargetStakeholders("medium", StatusUpdate), added[0]);
        assert false;
      }
      assert sent == old(sent) + added;
      reply := ApprovalReply(true, "Approval response '" + response + "' recorded");
    }

    /** `get_notification_history`: an unknown incident has an empty history. */
    function NotificationHistory(incidentId: Option<string>): (entries: seq<HistoryEntry>)
      reads this
      ensures incidentId !in history ==> entries == []
      ensures incidentId in history ==> entries == history[incidentId]
    {
      HistoryOf(history, incidentId)
    }
  }
}
