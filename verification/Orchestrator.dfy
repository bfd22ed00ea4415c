/** Recovery orchestration: every operation on one incident, with the field writes that happen
    before it can raise. Clock readings and identifiers are arguments. */
module Orchestrator {
  import opened Prelude
  import opened Domain
  import opened Datasets
  import opened Planner
  import opened Replay
  import opened Integrity
  import opened StateMachine

  const REQUIRED_FLAGS: set<string> := {
    "table_active", "encryption_verified", "pitr_enabled", "tags_verified", "ttl_verified",
    "stream_verified", "no_replicas", "deletion_protection", "billing_mode_verified",
    "ready_for_validation"}

  /** All ten restore facts are literally true. */
  predicate Proven(config: map<string, Json>) {
    forall key | key in REQUIRED_FLAGS :: Get(config, key) == JBool(true)
  }

  datatype SuppliedGates = SuppliedGates(
    apiHealth: bool, readWrite: bool, freshness: bool, s3Versions: bool,
    crossRegionConsistency: bool, syntheticTransaction: bool)

  datatype ConsistencyProof = ConsistencyProof(
    checkedAt: Time, exactKeyMatch: bool, exactChecksumMatch: bool, noPendingReplay: bool,
    lagSeconds: real, maximumLagSeconds: real)
  {
    predicate Passed() {
      exactKeyMatch && exactChecksumMatch && noPendingReplay && 0.0 <= lagSeconds <= maximumLagSeconds
    }
  }

  datatype Ask = Ask(
    plan: Plan, candidates: seq<Transaction>, approved: bool, dryRun: bool,
    approver: Option<string>, reference: Option<string>, turns: seq<Turn>)

  /** One orchestrator call after `declare`. */
  datatype Call =
    | StartRecovery(point: Option<Time>)
    | BeginValidation(readyAt: Time, config: Option<map<string, Json>>)
    | RecordValidation(comparison: Comparison, gates: SuppliedGates, plan: Option<Plan>)
    | Reconcile(ask: Ask)
    | Promote(approved: bool, approver: string, reference: string)
    | StartFailback(approved: bool, approver: string, reference: string,
                    original: RegionHealth, survivor: RegionHealth, proof: ConsistencyProof)
    | CompleteFailback(approved: bool, approver: string, reference: string, bothValidated: bool)

  // ------------------------------------------------------- specification

  /** `declare`: the clock is read once for `declared_at` and once by the transition. */
  function Declared(h: Hasher, provenance: Provenance, scenario: Scenario, failureAt: Time,
                    declaredAt: Time, movedAt: Time): Snapshot
  {
    TransitionOf(h, Blank(provenance, scenario, declaredAt, failureAt),
                 Move(IncidentDeclared, false, "operator", "declared"), movedAt).inc
  }

  function StartRecoveryOf(h: Hasher, s: Snapshot, point: Option<Time>, now: Time): Stepped {
    if s.scenario == LogicalCorruption && (point.None? || point.value >= s.failureAt) then
      Stepped(s, Some(ValidationFailed))
    else
      TransitionOf(h, s.(recoveryPoint := point),
                   Move(RecoveryInProgress, false, "drctl", "isolated restore started"), now)
  }

  function BeginValidationOf(h: Hasher, s: Snapshot, readyAt: Time, config: Option<map<string, Json>>, now: Time)
    : Stepped
  {
    if s.scenario == LogicalCorruption && (config.None? || !Proven(config.value)) then
      Stepped(s, Some(ValidationFailed))
    else
      var s1 := if s.scenario == LogicalCorruption then s.(restoreConfiguration := config) else s;
      TransitionOf(h, s1.(infrastructureReadyAt := Some(readyAt), restoreCompletedAt := Some(readyAt)),
                   Move(Validating, false, "drctl", ""), now)
  }

  function ValidationFor(s: Snapshot, c: Comparison, g: SuppliedGates): ValidationResult {
    ValidationResult(
      g.apiHealth, g.readWrite, c.sourceCount == c.recoveredCount,
      c.missingKeys == [] && c.unexpectedKeys == [], c.sourceChecksum == c.recoveredChecksum,
      g.freshness, g.s3Versions, g.crossRegionConsistency, g.syntheticTransaction,
      ValidationDetails(c.sourceChecksum, c.recoveredChecksum, c.missingKeys, c.unexpectedKeys,
                        c.newestRecovered, s.provenance.evidenceScope))
  }

  lemma ValidationReads(s: Snapshot, s': Snapshot, c: Comparison, g: SuppliedGates)
    requires s.provenance == s'.provenance
    ensures ValidationFor(s, c, g) == ValidationFor(s', c, g)
  {}

  function FreshRecord(p: Plan): Record {
    Record(
      p,
      Placeholder(p.replayIds == [], if p.replayIds == [] then "NOT_REQUIRED" else "AWAITING_APPROVAL"),
      if p.SafeToPromote() then "AWAITING_APPROVAL" else "BLOCKED",
      None, false, false)
  }

  /** The writes `record_validation` has made by the time it may first raise. */
  function Recorded(s: Snapshot, c: Comparison, g: SuppliedGates, plan: Option<Plan>): Snapshot {
    var s1 := s.(recordCounts := Some(Counts(c.sourceCount, c.recoveredCount, |c.missingKeys|, |c.unexpectedKeys|)),
                 validation := Some(ValidationFor(s, c, g)));
    if s.scenario == LogicalCorruption && plan.Some? then s1.(reconciliation := Some(FreshRecord(plan.value))) else s1
  }

  function RecordValidationOf(h: Hasher, s: Snapshot, c: Comparison, g: SuppliedGates, plan: Option<Plan>, now: Time)
    : Stepped
  {
    var s1 := Recorded(s, c, g, plan);
    if s.scenario == LogicalCorruption && (plan.None? || !plan.value.SafeToPromote()) then
      Stepped(s1, Some(ValidationFailed))
    else if !s1.validation.value.Passed() then Stepped(s1, Some(ValidationFailed))
    else
      var r := TransitionOf(h, s1, Move(AwaitingApproval, false, "drctl", ""), now);
      if r.error.Some? || r.inc.reconciliation.None? then r
      else
        var stamped := r.inc.reconciliation.value.(validationTimestamp := r.inc.validationCompletedAt);
        Stepped(r.inc.(reconciliation := Some(stamped)), None)
  }

  function PromoteBlock(s: Snapshot, approved: bool, approver: string, reference: string): Option<Failure> {
    if !approved || approver == "" || reference == "" then Some(ApprovalRequired)
    else if s.scenario != LogicalCorruption then None
    else if s.reconciliation.None? || !s.reconciliation.value.plan.SafeToPromote() then Some(ValidationFailed)
    else
      var rec := s.reconciliation.value;
      if !rec.replay.Complete() || (rec.repairRequired && !rec.repairComplete)
         || rec.validationTimestamp != s.validationCompletedAt
      then Some(ValidationFailed)
      else None
  }

  function PromoteOf(h: Hasher, s: Snapshot, approved: bool, approver: string, reference: string, now: Time): Stepped {
    if PromoteBlock(s, approved, approver, reference).Some? then
      Stepped(s, PromoteBlock(s, approved, approver, reference))
    else
      var s1 := if s.scenario == LogicalCorruption
                then s.(reconciliation := Some(s.reconciliation.value.(status := "PROMOTION_APPROVED"))) else s;
      TransitionOf(h, s1.(approver := Some(approver), approvalReference := Some(reference)),
                   Move(RecoveryActive, true, approver, reference), now)
  }

  predicate FailbackSafe(original: RegionHealth, survivor: RegionHealth, consistent: bool) {
    original.Healthy() && survivor.Healthy() && consistent
  }

  predicate FreshProof(s: Snapshot, proof: ConsistencyProof) {
    s.promotionAt.Some? && proof.checkedAt >= s.promotionAt.value
  }

  function StartFailbackOf(h: Hasher, s: Snapshot, approved: bool, approver: string, reference: string,
                           original: RegionHealth, survivor: RegionHealth, proof: ConsistencyProof, now: Time): Stepped
  {
    if !FailbackSafe(original, survivor, proof.Passed() && FreshProof(s, proof)) then Stepped(s, Some(ValidationFailed))
    else if !approved || reference == "" then Stepped(s, Some(ApprovalRequired))
    else TransitionOf(h, s, Move(FailbackInProgress, true, approver, reference), now)
  }

  function CompleteFailbackOf(h: Hasher, s: Snapshot, approved: bool, approver: string, reference: string,
                              bothValidated: bool, now: Time): Stepped
  {
    if !bothValidated then Stepped(s, Some(ValidationFailed))
    else TransitionOf(h, s, Move(Healthy, approved, approver, reference), now)
  }

  /** Incident and replay target together: what a call may change. */
  datatype World = World(inc: Snapshot, target: Table)

  datatype Outcome = Outcome(world: World, error: Option<Failure>)

  function RequestFor(ask: Ask, validatedAt: Time, now: Time): Request {
    Request(ask.plan, ask.candidates, validatedAt, now, ask.approved, ask.approver, ask.reference,
            ask.dryRun, 25, ask.turns)
  }

  function ReconcileBlock(s: Snapshot, ask: Ask): Option<Failure> {
    if s.state != AwaitingApproval || s.reconciliation.None? then Some(ValidationFailed)
    else if s.validationCompletedAt.None? || s.reconciliation.value.validationTimestamp != s.validationCompletedAt then
      Some(ValidationFailed)
    else if !ask.dryRun && !ask.approved then Some(ApprovalRequired)
    else None
  }

  function WithResult(rec: Record, r: ReplayResult, dryRun: bool): Record {
    rec.(replay := Executed(r),
         status := if r.Complete() then "REPLAY_COMPLETE" else if dryRun then "DRY_RUN" else "BLOCKED")
  }

  function ReconcileOf(w: World, ask: Ask, now: Time): Outcome {
    if ReconcileBlock(w.inc, ask).Some? then Outcome(w, ReconcileBlock(w.inc, ask))
    else
      var out := ReplayOutcome(RequestFor(ask, w.inc.validationCompletedAt.value, now), w.target);
      if out.result.Err? then Outcome(World(w.inc, out.table), Some(ReplayRefused(out.result.error)))
      else
        var rec := WithResult(w.inc.reconciliation.value, out.result.value, ask.dryRun);
        Outcome(World(w.inc.(reconciliation := Some(rec)), out.table), None)
  }

  function Lift(w: World, r: Stepped): Outcome { Outcome(World(r.inc, w.target), r.error) }

  /** The effect of any call, raising or not. */
  function Step(h: Hasher, w: World, call: Call, now: Time): Outcome {
    match call
    case StartRecovery(point) => Lift(w, StartRecoveryOf(h, w.inc, point, now))
    case BeginValidation(readyAt, config) => Lift(w, BeginValidationOf(h, w.inc, readyAt, config, now))
    case RecordValidation(c, g, plan) => Lift(w, RecordValidationOf(h, w.inc, c, g, plan, now))
    case Reconcile(ask) => ReconcileOf(w, ask, now)
    case Promote(approved, approver, reference) => Lift(w, PromoteOf(h, w.inc, approved, approver, reference, now))
    case StartFailback(approved, approver, reference, original, survivor, proof) =>
      Lift(w, StartFailbackOf(h, w.inc, approved, approver, reference, original, survivor, proof, now))
    case CompleteFailback(approved, approver, reference, both) =>
      Lift(w, CompleteFailbackOf(h, w.inc, approved, approver, reference, both, now))
  }

  // -------------------------------------------------------- the operations

  class RecoveryOrchestrator {
    const machine: RecoveryStateMachine

    constructor (h: Hasher)
      ensures machine.h == h
    {
      machine := new RecoveryStateMachine(h);
    }

    method Declare(scenario: Scenario, failureAt: Time, region: Option<string>, declaredAt: Time, movedAt: Time,
                   incidentId: string, runId: string, scenarioId: string) returns (incident: Incident)
      ensures fresh(incident)
      ensures incident.View() == Declared(machine.h, LocalProvenance(incidentId, runId, scenarioId, region),
                                          scenario, failureAt, declaredAt, movedAt)
    {
      incident := new Incident(LocalProvenance(incidentId, runId, scenarioId, region), scenario, declaredAt, failureAt);
      var _ := machine.Transition(incident, Move(IncidentDeclared, false, "operator", "declared"), movedAt);
    }

    method StartRecovery(incident: Incident, point: Option<Time>, now: Time) returns (error: Option<Failure>)
      modifies incident
      ensures Stepped(incident.View(), error) == StartRecoveryOf(machine.h, old(incident.View()), point, now)
    {
      if incident.scenario == LogicalCorruption && (point.None? || point.value >= incident.failureAt) {
        return Some(ValidationFailed);
      }
      incident.recoveryPoint := point;
      error := machine.Transition(incident, Move(RecoveryInProgress, false, "drctl", "isolated restore started"), now);
    }

    method BeginValidation(incident: Incident, readyAt: Time, config: Option<map<string, Json>>, now: Time)
      returns (error: Option<Failure>)
      modifies incident
      ensures Stepped(incident.View(), error) ==
                BeginValidationOf(machine.h, old(incident.View()), readyAt, config, now)
    {
      hide TransitionOf, Proven;
      if incident.scenario == LogicalCorruption {
        if config.None? || !Proven(config.value) { return Some(ValidationFailed); }
        incident.restoreConfiguration := config;
      }
      incident.infrastructureReadyAt := Some(readyAt);
      incident.restoreCompletedAt := Some(readyAt);
      ghost var s := old(incident.View());
      ghost var s1 := if s.scenario == LogicalCorruption then s.(restoreConfiguration := config) else s;
      assert incident.View() == s1.(infrastructureReadyAt := Some(readyAt), restoreCompletedAt := Some(readyAt));
      error := machine.Transition(incident, Move(Validating, false, "drctl", ""), now);
    }

    method RecordValidation(incident: Incident, c: Comparison, g: SuppliedGates, plan: Option<Plan>, now: Time)
      returns (error: Option<Failure>)
      modifies incident
      ensures Stepped(incident.View(), error) == RecordValidationOf(machine.h, old(incident.View()), c, g, plan, now)
    {
      hide TransitionOf, ValidationFor, FreshRecord;
      ghost var s := incident.View();
      incident.recordCounts :=
        Some(Counts(c.sourceCount, c.recoveredCount, |c.missingKeys|, |c.unexpectedKeys|));
      ValidationReads(incident.View(), s, c, g);
      incident.validation := Some(ValidationFor(incident.View(), c, g));
      if incident.scenario == LogicalCorruption {
        if plan.None? { return Some(ValidationFailed); }
        incident.reconciliation := Some(FreshRecord(plan.value));
        if !plan.value.SafeToPromote() { return Some(ValidationFailed); }
      }
      assert incident.View() == Recorded(s, c, g, plan);
      if !incident.validation.value.Passed() { return Some(ValidationFailed); }
      error := machine.Transition(incident, Move(AwaitingApproval, false, "drctl", ""), now);
      if error.None? && incident.reconciliation.Some? {
        incident.reconciliation :=
          Some(incident.reconciliation.value.(validationTimestamp := incident.validationCompletedAt));
      }
    }

    method Reconcile(incident: Incident, ask: Ask, target: ConditionalTarget, now: Time)
      returns (error: Option<Failure>)
      modifies incident, target
      ensures Outcome(World(incident.View(), target.items), error)
           == ReconcileOf(old(World(incident.View(), target.items)), ask, now)
    {
      if incident.state != AwaitingApproval || incident.reconciliation.None? { return Some(ValidationFailed); }
      var validatedAt := incident.validationCompletedAt;
      if validatedAt.None? || incident.reconciliation.value.validationTimestamp != validatedAt {
        return Some(ValidationFailed);
      }
      if !ask.dryRun && !ask.approved { return Some(ApprovalRequired); }
      var result := ExecuteReplay(RequestFor(ask, validatedAt.value, now), target);
      if result.Err? { return Some(ReplayRefused(result.error)); }
      incident.reconciliation := Some(WithResult(incident.reconciliation.value, result.value, ask.dryRun));
      error := None;
    }

    method Promote(incident: Incident, approved: bool, approver: string, reference: string, now: Time)
      returns (error: Option<Failure>)
      modifies incident
      ensures Stepped(incident.View(), error) ==
                PromoteOf(machine.h, old(incident.View()), approved, approver, reference, now)
    {
      hide TransitionOf, ReplayRecord.Complete, Plan.SafeToPromote;
      ghost var s := incident.View();
      if !approved || approver == "" || reference == "" { return Some(ApprovalRequired); }
      if incident.scenario == LogicalCorruption {
        if incident.reconciliation.None? || !incident.reconciliation.value.plan.SafeToPromote() {
          return Some(ValidationFailed);
        }
        var rec := incident.reconciliation.value;
        if !rec.replay.Complete() { return Some(ValidationFailed); }
        if rec.repairRequired && !rec.repairComplete { return Some(ValidationFailed); }
        if rec.validationTimestamp != incident.validationCompletedAt { return Some(ValidationFailed); }
        incident.reconciliation := Some(rec.(status := "PROMOTION_APPROVED"));
        assert incident.View() == s.(reconciliation := Some(rec.(status := "PROMOTION_APPROVED")));
      }
      assert PromoteBlock(s, approved, approver, reference).None?;
      incident.approver := Some(approver);
      incident.approvalReference := Some(reference);
      error := machine.Transition(incident, Move(RecoveryActive, true, approver, reference), now);
    }

    method StartFailback(incident: Incident, approved: bool, approver: string, reference: string,
                         original: RegionHealth, survivor: RegionHealth, proof: ConsistencyProof, now: Time)
      returns (error: Option<Failure>)
      modifies incident
      ensures Stepped(incident.View(), error)
           == StartFailbackOf(machine.h, old(incident.View()), approved, approver, reference, original, survivor,
                              proof, now)
    {
      var isFresh := incident.promotionAt.Some? && proof.checkedAt >= incident.promotionAt.value;
      if !FailbackSafe(original, survivor, proof.Passed() && isFresh) { return Some(ValidationFailed); }
      if !approved || reference == "" { return Some(ApprovalRequired); }
      error := machine.Transition(incident, Move(FailbackInProgress, true, approver, reference), now);
    }

    method CompleteFailback(incident: Incident, approved: bool, approver: string, reference: string,
                            bothValidated: bool, now: Time)
      returns (error: Option<Failure>)
      modifies incident
      ensures Stepped(incident.View(), error)
           == CompleteFailbackOf(machine.h, old(incident.View()), approved, approver, reference, bothValidated, now)
    {
      if !bothValidated { return Some(ValidationFailed); }
      error := machine.Transition(incident, Move(Healthy, approved, approver, reference), now);
    }
  }
}
