/** The incident record and the policy-enforced state machine that moves it. */
module StateMachine {
  import opened Prelude
  import opened Domain
  import opened Planner
  import opened Replay
  import opened Integrity

  /** What `reconciliation["replay_result"]` holds: the placeholder written by validation, or the
      result of the last executed replay. */
  datatype ReplayRecord = Placeholder(done: bool, status: string) | Executed(result: ReplayResult)
  {
    predicate Complete() { if Placeholder? then done else result.Complete() }
  }

  /** The reconciliation dictionary. Absent keys are `None` or `false`. */
  datatype Record = Record(
    plan: Plan, replay: ReplayRecord, status: string, validationTimestamp: Option<Time>,
    repairRequired: bool, repairComplete: bool)

  datatype Counts = Counts(expected: int, recovered: int, lost: int, unexpected: int)

  /** The incident fields that no transition reads or writes: identifiers and evidence provenance. */
  datatype Provenance = Provenance(
    incidentId: string, runId: string, scenarioId: string, affectedRegion: Option<string>,
    evidenceScope: string, timestampSources: map<string, string>,
    clockSkewMs: Option<real>, clockSkewLimitMs: real, runtimeEvidence: map<string, Json>)

  /** The value of every incident field at one moment. */
  datatype Snapshot = Snapshot(
    provenance: Provenance,
    scenario: Scenario, state: RecoveryState, declaredAt: Time, failureAt: Time,
    recoveryStartedAt: Option<Time>, infrastructureReadyAt: Option<Time>, restoreCompletedAt: Option<Time>,
    recoveryPoint: Option<Time>,
    validationStartedAt: Option<Time>, validationCompletedAt: Option<Time>,
    promotionAt: Option<Time>, failbackCompletedAt: Option<Time>, rtoEndAt: Option<Time>,
    approvalStatus: string, approver: Option<string>, approvalReference: Option<string>,
    validation: Option<ValidationResult>, recordCounts: Option<Counts>,
    reconciliation: Option<Record>, restoreConfiguration: Option<map<string, Json>>,
    eventLog: seq<Event>)

  class Incident {
    const scenario: Scenario
    const declaredAt: Time
    const failureAt: Time
    var provenance: Provenance
    var state: RecoveryState
    var recoveryStartedAt: Option<Time>
    var infrastructureReadyAt: Option<Time>
    var restoreCompletedAt: Option<Time>
    var recoveryPoint: Option<Time>
    var validationStartedAt: Option<Time>
    var validationCompletedAt: Option<Time>
    var promotionAt: Option<Time>
    var failbackCompletedAt: Option<Time>
    var rtoEndAt: Option<Time>
    var approvalStatus: string
    var approver: Option<string>
    var approvalReference: Option<string>
    var validation: Option<ValidationResult>
    var recordCounts: Option<Counts>
    var reconciliation: Option<Record>
    var restoreConfiguration: Option<map<string, Json>>
    var eventLog: seq<Event>

    function View(): Snapshot
      reads this
    {
      Snapshot(
        provenance, scenario, state, declaredAt, failureAt,
        recoveryStartedAt, infrastructureReadyAt, restoreCompletedAt, recoveryPoint,
        validationStartedAt, validationCompletedAt, promotionAt, failbackCompletedAt, rtoEndAt,
        approvalStatus, approver, approvalReference, validation, recordCounts, reconciliation,
        restoreConfiguration, eventLog)
    }

    constructor (provenance: Provenance, scenario: Scenario, declaredAt: Time, failureAt: Time)
      ensures View() == Blank(provenance, scenario, declaredAt, failureAt)
    {
      this.provenance := provenance;
      this.scenario, this.declaredAt, this.failureAt, this.state := scenario, declaredAt, failureAt, Healthy;
      this.recoveryStartedAt, this.infrastructureReadyAt, this.restoreCompletedAt := None, None, None;
      this.recoveryPoint, this.validationStartedAt, this.validationCompletedAt := None, None, None;
      this.promotionAt, this.failbackCompletedAt, this.rtoEndAt := None, None, None;
      this.approvalStatus, this.approver, this.approvalReference := "NOT_REQUESTED", None, None;
      this.validation, this.recordCounts, this.reconciliation := None, None, None;
      this.restoreConfiguration, this.eventLog := None, [];
    }

    /** An incident read back from the store, field by field. */
    constructor Load(s: Snapshot)
      ensures View() == s
    {
      provenance, scenario, state, declaredAt, failureAt := s.provenance, s.scenario, s.state, s.declaredAt,
          s.failureAt;
      recoveryStartedAt, infrastructureReadyAt := s.recoveryStartedAt, s.infrastructureReadyAt;
      restoreCompletedAt, recoveryPoint := s.restoreCompletedAt, s.recoveryPoint;
      validationStartedAt, validationCompletedAt := s.validationStartedAt, s.validationCompletedAt;
      promotionAt, failbackCompletedAt, rtoEndAt := s.promotionAt, s.failbackCompletedAt, s.rtoEndAt;
      approvalStatus, approver, approvalReference := s.approvalStatus, s.approver, s.approvalReference;
      validation, recordCounts, reconciliation := s.validation, s.recordCounts, s.reconciliation;
      restoreConfiguration, eventLog := s.restoreConfiguration, s.eventLog;
    }
  }

  const LOCAL_SOURCES: map<string, string> := map[
    "incident_declaration" := "CONTROLLER_UTC_WALL_CLOCK",
    "failure_or_corruption" := "OPERATOR_OR_FAULT_INJECTOR",
    "validation" := "CONTROLLER_UTC_WALL_CLOCK",
    "recovered_transaction" := "SYNTHETIC_TRANSACTION_FIELD"]

  /** Provenance as `declare` fills it in; the identifiers come from outside. */
  function LocalProvenance(incidentId: string, runId: string, scenarioId: string, region: Option<string>): Provenance {
    Provenance(incidentId, runId, scenarioId, region, "LOCAL_SIMULATION", LOCAL_SOURCES, None, 1000.0, map[])
  }

  /** A new incident before its first transition. */
  function Blank(provenance: Provenance, scenario: Scenario, declaredAt: Time, failureAt: Time): Snapshot {
    Snapshot(
      provenance, scenario, Healthy, declaredAt, failureAt,
      None, None, None, None, None, None, None, None, None,
      "NOT_REQUESTED", None, None, None, None, None, None, [])
  }

  // ------------------------------------------------------------- policy

  datatype Failure = InvalidTransition | ValidationFailed | ApprovalRequired | ReplayRefused(cause: ReplayError)

  function Allowed(source: RecoveryState): set<RecoveryState> {
    match source
    case Healthy => {IncidentDeclared}
    case IncidentDeclared => {RecoveryInProgress}
    case RecoveryInProgress => {Validating}
    case Validating => {RecoveryInProgress, AwaitingApproval}
    case AwaitingApproval => {RecoveryActive}
    case RecoveryActive => {FailbackInProgress}
    case FailbackInProgress => {RecoveryActive, Healthy}
  }

  predicate NeedsApproval(source: RecoveryState, target: RecoveryState) {
    || (source == AwaitingApproval && target == RecoveryActive)
    || (source == RecoveryActive && target == FailbackInProgress)
    || (source == FailbackInProgress && target == Healthy)
  }

  function StateName(s: RecoveryState): string {
    match s
    case Healthy => "HEALTHY"
    case IncidentDeclared => "INCIDENT_DECLARED"
    case RecoveryInProgress => "RECOVERY_IN_PROGRESS"
    case Validating => "VALIDATING"
    case AwaitingApproval => "AWAITING_APPROVAL"
    case RecoveryActive => "RECOVERY_ACTIVE"
    case FailbackInProgress => "FAILBACK_IN_PROGRESS"
  }

  function EventBody(source: RecoveryState, target: RecoveryState, at: Time, actor: string, reason: string,
                     approved: bool): Event
  {
    map["from" := JStr(StateName(source)), "to" := JStr(StateName(target)), "at" := JTime(at),
        "actor" := JStr(actor), "reason" := JStr(reason), "approved" := JBool(approved)]
  }

  /** One requested move: the keyword arguments of `transition`. */
  datatype Move = Move(target: RecoveryState, approved: bool, actor: string, reason: string)

  function Logged(h: Hasher, log: seq<Event>, source: RecoveryState, m: Move, now: Time): seq<Event> {
    log + [ChainedEvent(h, EventBody(source, m.target, now, m.actor, m.reason, m.approved), HeadHash(log), |log| + 1)]
  }

  function Denial(s: Snapshot, m: Move): Option<Failure> {
    if m.target !in Allowed(s.state) then Some(InvalidTransition)
    else if m.target == AwaitingApproval && (s.validation.None? || !s.validation.value.Passed()) then
      Some(ValidationFailed)
    else if NeedsApproval(s.state, m.target) && !m.approved then Some(ApprovalRequired)
    else None
  }

  /** The timestamps and statuses a completed move records. */
  function Stamped(s: Snapshot, now: Time): Snapshot {
    match s.state
    case RecoveryInProgress =>
      if s.recoveryStartedAt.None? then s.(recoveryStartedAt := Some(now)) else s
    case Validating => s.(validationStartedAt := Some(now))
    case AwaitingApproval =>
      s.(validationCompletedAt := Some(now), approvalStatus := "PENDING",
         rtoEndAt := if s.scenario == RegionalOutage then Some(now) else s.rtoEndAt)
    case RecoveryActive =>
      s.(promotionAt := Some(now), rtoEndAt := Some(now), approvalStatus := "APPROVED")
    case Healthy => s.(failbackCompletedAt := Some(now))
    case _ => s
  }

  datatype Stepped = Stepped(inc: Snapshot, error: Option<Failure>)

  function TransitionOf(h: Hasher, s: Snapshot, m: Move, now: Time): Stepped {
    if Denial(s, m).Some? then Stepped(s, Denial(s, m))
    else Stepped(Stamped(s.(state := m.target, eventLog := Logged(h, s.eventLog, s.state, m, now)), now), None)
  }

  class RecoveryStateMachine {
    const h: Hasher

    constructor (h: Hasher)
      ensures this.h == h
    {
      this.h := h;
    }

    method Transition(incident: Incident, m: Move, now: Time) returns (error: Option<Failure>)
      modifies incident
      ensures Stepped(incident.View(), error) == TransitionOf(h, old(incident.View()), m, now)
    {
      hide ChainedEvent, EventBody, StateName, HeadHash;
      var source := incident.state;
      if m.target !in Allowed(source) { return Some(InvalidTransition); }
      if m.target == AwaitingApproval && (incident.validation.None? || !incident.validation.value.Passed()) {
        return Some(ValidationFailed);
      }
      if NeedsApproval(source, m.target) && !m.approved { return Some(ApprovalRequired); }
      incident.state := m.target;
      var previous := HeadHash(incident.eventLog);
      incident.eventLog := incident.eventLog + [ChainedEvent(
        h, EventBody(source, m.target, now, m.actor, m.reason, m.approved), previous, |incident.eventLog| + 1)];
      assert incident.View() == old(incident.View()).(
        state := m.target, eventLog := Logged(h, old(incident.eventLog), source, m, now));
      hide Logged;
      Stamp(incident, now);
      error := None;
    }

    /** The timestamp fields a completed move sets. */
    method Stamp(incident: Incident, now: Time)
      modifies incident
      ensures incident.View() == Stamped(old(incident.View()), now)
    {
      ghost var s := incident.View();
      match incident.state {
        case RecoveryInProgress =>
          if incident.recoveryStartedAt.None? { incident.recoveryStartedAt := Some(now); }
        case Validating =>
          incident.validationStartedAt := Some(now);
        case AwaitingApproval =>
          incident.validationCompletedAt := Some(now);
          incident.approvalStatus := "PENDING";
          assert incident.View() == s.(validationCompletedAt := Some(now), approvalStatus := "PENDING");
          if incident.scenario == RegionalOutage { incident.rtoEndAt := Some(now); }
        case RecoveryActive =>
          incident.promotionAt := Some(now);
          incident.rtoEndAt := Some(now);
          incident.approvalStatus := "APPROVED";
        case Healthy =>
          incident.failbackCompletedAt := Some(now);
        case _ =>
      }
    }
  }
}
