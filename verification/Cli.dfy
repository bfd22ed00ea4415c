/** The command line: every command loads the stored incident, drives it, and stores it only if nothing
    raised. Its local drill runs on a fixture from which each command recomputes the plan. */
module Cli {
  import opened Prelude
  import opened Domain
  import opened Ordering
  import opened Datasets
  import opened Planner
  import opened Replay
  import opened ReplayRuns
  import opened Integrity
  import opened StateMachine
  import opened Orchestrator
  import Gates
  import Acceptance
  import R = Runs

  function SyntheticTransactions(now: Time): seq<Transaction> {
    [Transaction("txn-001", now - 2_000_000, "region-a", 100, "order-1"),
     Transaction("txn-002", now - 1_000_000, "region-a", 200, "order-2"),
     Transaction("txn-003", now, "region-a", 300, "order-3")]
  }

  /** `[item for item in live if item.timestamp <= recovery_point]` */
  function UpTo(point: Time, rows: seq<Transaction>): (r: seq<Transaction>)
    ensures forall x :: x in r <==> x in rows && x.timestamp <= point
  {
    if rows == [] then []
    else
      assert rows == [rows[0]] + rows[1..];
      (if rows[0].timestamp <= point then [rows[0]] else []) + UpTo(point, rows[1..])
  }

  /** The planner's arguments, the same for validation and for every later reconcile: they depend on
      the failure time and the recovery point alone. */
  function DrillInputs(failureAt: Time, point: Time): Inputs {
    var live := SyntheticTransactions(failureAt);
    Inputs(UpTo(point, live), live, point, failureAt, {})
  }

  lemma {:induction false} UpToUnique(point: Time, rows: seq<Transaction>)
    requires UniqueIds(rows)
    ensures UniqueIds(UpTo(point, rows))
  {
    if rows != [] {
      UpToUnique(point, rows[1..]);
      var r := UpTo(point, rows[1..]);
      forall i | 0 <= i < |r| ensures r[i].id != rows[0].id { assert r[i] in rows[1..]; }
    }
  }

  lemma DrillValid(failureAt: Time, point: Time)
    requires point <= failureAt
    ensures DrillInputs(failureAt, point).Valid()
  {
    var rows := SyntheticTransactions(failureAt);
    assert rows[0].id[6] == '1' && rows[1].id[6] == '2' && rows[2].id[6] == '3';
    assert UniqueIds(rows);
    UpToUnique(point, rows);
  }

  /** A restore that is the live table up to the point. */
  ghost predicate RestoreOfLive(q: Inputs) {
    && (forall k :: k in q.Base() <==> k in q.Live() && q.Live()[k].timestamp <= q.point)
    && (forall k | k in q.Base() :: q.Base()[k] == q.Live()[k])
    && (forall k | k in q.Live() :: q.Live()[k].timestamp <= q.cutoff)
  }

  lemma DrillRestores(failureAt: Time, point: Time)
    requires point <= failureAt
    ensures RestoreOfLive(DrillInputs(failureAt, point))
  {
    var q := DrillInputs(failureAt, point);
    var base, live := q.Base(), q.Live();
    DrillValid(failureAt, point);
    ByIdUnique(q.restored);
    ByIdUnique(q.live);
    forall k | k in live ensures live[k].timestamp <= failureAt { assert live[k] in q.live; }
    hide ById, UpTo, SyntheticTransactions;
    forall k | k in base ensures k in live && live[k] == base[k] && base[k].timestamp <= point {
      assert base[k] in q.restored;
    }
    forall k | k in live && live[k].timestamp <= point ensures k in base {
      assert live[k] in q.restored;
    }
  }

  /** Then nothing conflicts and the authoritative table is the live one. */
  lemma RestoreReconciles(q: Inputs)
    requires RestoreOfLive(q) && q.corrupt == {}
    ensures Reconcilable(q.Base(), q.Live(), q.point, q.cutoff, q.corrupt) && Authoritative(q) == q.Live()
  {
    hide ById;
    forall k ensures k in q.Live() <==> k in q.Base() || Replayable(q, k) {}
    assert Authoritative(q) == q.Live();
  }

  /** The fixture's authoritative table is the live one, and its newest row carries the failure time. */
  lemma DrillPlan(d: Digest, failureAt: Time, point: Time)
    requires point <= failureAt
    ensures var q := DrillInputs(failureAt, point);
            && q.Valid() && PlanOf(d, q).SafeToPromote() && Authoritative(q) == q.Live()
            && PlanOf(d, q).newest == Some(failureAt) && |PlanOf(d, q).replayIds| <= 25
  {
    hide PlanOf, Authoritative, ById, UpTo;
    var q := DrillInputs(failureAt, point);
    DrillValid(failureAt, point);
    DrillRestores(failureAt, point);
    RestoreReconciles(q);
    ReconcilableIsSafe(d, q);
    FixtureFits(d, failureAt, point);
    PlanChecksum(d, q, q.live);
    FixtureNewest(failureAt);
  }

  lemma FixtureNewest(failureAt: Time)
    ensures Newest(SyntheticTransactions(failureAt)) == Some(failureAt)
  {
    var rows := SyntheticTransactions(failureAt);
    assert rows[2] in rows && rows[2].timestamp == failureAt;
    assert forall x | x in rows :: x.timestamp <= failureAt;
    hide Newest, SyntheticTransactions;
  }

  /** An approved local reconcile always completes, against a target rebuilt from the restore, and
      leaves exactly the fixture; so it never depends on earlier reconciles. */
  lemma LocalReconcileCompletes(d: Digest, failureAt: Time, point: Time, validatedAt: Time, now: Time,
                                approver: string, reference: string)
    requires point <= failureAt && validatedAt <= now && approver != "" && reference != ""
    ensures var q := DrillInputs(failureAt, point);
            var ask := AskFor(d, q, false, true, Some(approver), Some(reference));
            var out := ReplayOutcome(RequestFor(ask, validatedAt, now), q.Base());
            out.result.Ok? && out.result.value.Complete() && out.table == q.Live()
  {
    hide PlanOf, Authoritative, ById, ReplayOutcome, DrillInputs;
    var q := DrillInputs(failureAt, point);
    var ask := AskFor(d, q, false, true, Some(approver), Some(reference));
    var req := RequestFor(ask, validatedAt, now);
    DrillPlan(d, failureAt, point);
    forall k | k in req.plan.replayIds ensures k in req.Candidates() { ReplayMembers(d, q, k); }
    ReplayWithin(q);
    FullAttemptCompletes(d, q, req, q.Base());
    CompleteReachesAuthoritative(d, q, req, q.Base());
  }

  lemma {:induction false} LaneShorter(q: Inputs, lane: Lane, rows: seq<Transaction>)
    ensures |InLane(q, lane, rows)| <= |rows|
  {
    if rows != [] { LaneShorter(q, lane, rows[..|rows| - 1]); }
  }

  lemma FixtureFits(d: Digest, failureAt: Time, point: Time)
    ensures |PlanOf(d, DrillInputs(failureAt, point)).replayIds| <= 25
  {
    var q := DrillInputs(failureAt, point);
    LaneShorter(q, Replay, q.live);
    SortElements(StrLt, LaneIds(q, Replay));
    hide InLane, Sort;
  }

  // ------------------------------------------------------------- commands

  /** The state-changing commands and their arguments. */
  datatype Command =
    | Declare(scenario: Scenario, failureAt: Time, region: Option<string>)
    | RecoverData(point: Option<Time>)
    | ValidateRecovery
    | ReconcileData(dryRun: bool, approve: bool, owner: Option<string>, ticket: Option<string>)
    | PromoteRecovery(approve: bool, approver: string, reference: string)
    | Failback(complete: bool, approve: bool, approver: string, reference: string, healthy: bool, consistent: bool)

  /** What one command reads from outside: up to three clock readings, new identifiers, and whether the
      local application, its read-back and the object fixture pass. */
  datatype Outside = Outside(
    first: Time, second: Time, third: Time, incidentId: string, runId: string, scenarioId: string,
    apiHealthy: bool, readBack: bool, objectValid: bool, created: bool)

  datatype CliError = NoIncident | PointRequired | PlanRefused | NewestAfterFailure | Refused(cause: Failure)

  function RestoreProof(): map<string, Json> {
    map["table_active" := JBool(true), "encryption_verified" := JBool(true), "pitr_enabled" := JBool(true),
        "tags_verified" := JBool(true), "ttl_verified" := JBool(true), "stream_verified" := JBool(true),
        "no_replicas" := JBool(true), "deletion_protection" := JBool(true), "billing_mode_verified" := JBool(true),
        "ready_for_validation" := JBool(true)]
  }

  /** What a command leaves in the store, and whether it raised. */
  datatype Persisted = Persisted(stored: Option<Snapshot>, error: Option<CliError>)

  /** Store the driven incident, unless driving it raised. */
  function Keep(before: Snapshot, r: Stepped): Persisted {
    if r.error.Some? then Persisted(Some(before), Some(Refused(r.error.value))) else Persisted(Some(r.inc), None)
  }

  function AskFor(d: Digest, q: Inputs, dryRun: bool, approve: bool, approver: Option<string>,
                  reference: Option<string>): Ask
  {
    Ask(PlanOf(d, q), q.live, approve, dryRun, approver, reference, [])
  }

  /** The newest authoritative transaction is at most a minute older than the failure. */
  predicate IsFresh(failureAt: Time, newest: Option<Time>) {
    newest.Some? && failureAt - newest.value <= 60_000_000
  }

  function LocalGates(d: Digest, q: Inputs, o: Outside): SuppliedGates {
    SuppliedGates(o.apiHealthy, o.readBack, IsFresh(q.cutoff, PlanOf(d, q).newest), o.objectValid,
                  CompareDatasets(d, q.restored, q.restored).ExactMatch(), o.created)
  }

  function ValidateRecoveryOf(h: Hasher, d: Digest, s: Snapshot, o: Outside): Persisted {
    var begun := if s.state == RecoveryInProgress then BeginValidationOf(h, s, o.first, Some(RestoreProof()), o.second)
                 else Stepped(s, None);
    if begun.error.Some? then Persisted(Some(s), Some(Refused(begun.error.value)))
    else if s.recoveryPoint.None? then Persisted(Some(s), Some(PointRequired))
    else
      var q := DrillInputs(s.failureAt, s.recoveryPoint.value);
      if q.cutoff < q.point then Persisted(Some(s), Some(PlanRefused))
      else
        var plan := PlanOf(d, q);
        if plan.newest.Some? && MeasuredRpo(q.cutoff, plan.newest.value).Err? then
          Persisted(Some(s), Some(NewestAfterFailure))
        else
          Keep(s, RecordValidationOf(h, begun.inc, CompareDatasets(d, q.restored, q.restored), LocalGates(d, q, o),
                                     Some(plan), o.third))
  }

  /** Each reconcile works on a target rebuilt from the restore. */
  function ReconcileDataOf(d: Digest, s: Snapshot, dryRun: bool, approve: bool, approver: Option<string>,
                           reference: Option<string>, now: Time): Persisted
  {
    if s.recoveryPoint.None? then Persisted(Some(s), Some(PointRequired))
    else
      var q := DrillInputs(s.failureAt, s.recoveryPoint.value);
      if q.cutoff < q.point then Persisted(Some(s), Some(PlanRefused))
      else
        var out := ReconcileOf(World(s, q.Base()), AskFor(d, q, dryRun, approve, approver, reference), now);
        Keep(s, Stepped(out.world.inc, out.error))
  }

  function BothRegions(healthy: bool, at: Time): RegionHealth {
    RegionHealth("both-regions", healthy, healthy, healthy, at, "operator-supplied local simulation evidence")
  }

  function ClaimedProof(consistent: bool, at: Time): ConsistencyProof {
    ConsistencyProof(at, consistent, consistent, consistent, 0.0, 5.0)
  }

  function FailbackOf(h: Hasher, s: Snapshot, c: Command, o: Outside): Stepped
    requires c.Failback?
  {
    if c.complete then CompleteFailbackOf(h, s, c.approve, c.approver, c.reference, c.healthy && c.consistent, o.third)
    else
      StartFailbackOf(h, s, c.approve, c.approver, c.reference, BothRegions(c.healthy, o.first),
                      BothRegions(c.healthy, o.first), ClaimedProof(c.consistent, o.second), o.third)
  }

  /** The effect of any command on the store, raising or not. */
  function CommandOf(h: Hasher, d: Digest, stored: Option<Snapshot>, c: Command, o: Outside): Persisted {
    if c.Declare? then
      var provenance := LocalProvenance(o.incidentId, o.runId, o.scenarioId, c.region);
      Persisted(Some(Declared(h, provenance, c.scenario, c.failureAt, o.first, o.second)), None)
    else if stored.None? then Persisted(None, Some(NoIncident))
    else
      var s := stored.value;
      match c
      case RecoverData(point) => Keep(s, StartRecoveryOf(h, s, point, o.third))
      case ValidateRecovery => ValidateRecoveryOf(h, d, s, o)
      case ReconcileData(dryRun, approve, owner, ticket) =>
        ReconcileDataOf(d, s, dryRun, approve, owner, ticket, o.third)
      case PromoteRecovery(approve, approver, reference) =>
        Keep(s, PromoteOf(h, s, approve, approver, reference, o.third))
      case Failback(_, _, _, _, _, _) => Keep(s, FailbackOf(h, s, c, o))
  }

  lemma BeginKeepsPoint(h: Hasher, s: Snapshot, readyAt: Time, config: Option<map<string, Json>>, now: Time)
    ensures var s' := BeginValidationOf(h, s, readyAt, config, now).inc;
            s'.recoveryPoint == s.recoveryPoint && s'.failureAt == s.failureAt && s'.scenario == s.scenario
  {
    hide Logged, Proven;
  }

  /** The store and the controller that commands share. */
  class CommandLine {
    const orchestrator: RecoveryOrchestrator
    const digest: Digest
    var stored: Option<Snapshot>

    constructor (h: Hasher, digest: Digest)
      ensures stored == None && orchestrator.machine.h == h && this.digest == digest
    {
      orchestrator := new RecoveryOrchestrator(h);
      this.digest := digest;
      stored := None;
    }

    method Save(incident: Incident, failure: Option<Failure>) returns (error: Option<CliError>)
      requires stored.Some?
      modifies this
      ensures Persisted(stored, error) == Keep(old(stored).value, Stepped(incident.View(), failure))
    {
      if failure.Some? { return Some(Refused(failure.value)); }
      stored := Some(incident.View());
      error := None;
    }

    method ValidateStored(incident: Incident, o: Outside) returns (error: Option<CliError>)
      requires stored == Some(incident.View())
      modifies this, incident
      ensures Persisted(stored, error) == ValidateRecoveryOf(orchestrator.machine.h, digest, old(stored).value, o)
    {
      hide BeginValidationOf, RecordValidationOf, PlanOf, DrillInputs, LocalGates, CompareDatasets, Keep, MeasuredRpo;
      var failure: Option<Failure> := None;
      if incident.state == RecoveryInProgress {
        failure := orchestrator.BeginValidation(incident, o.first, Some(RestoreProof()), o.second);
        if failure.Some? { return Some(Refused(failure.value)); }
      }
      BeginKeepsPoint(orchestrator.machine.h, old(incident.View()), o.first, Some(RestoreProof()), o.second);
      if incident.recoveryPoint.None? { return Some(PointRequired); }
      var q := DrillInputs(incident.failureAt, incident.recoveryPoint.value);
      var planned := PlanReconciliation(digest, q);
      if planned.Err? { return Some(PlanRefused); }
      var plan := planned.value;
      if plan.newest.Some? {
        var rpo := MeasuredRpo(q.cutoff, plan.newest.value);
        if rpo.Err? { return Some(NewestAfterFailure); }
      }
      failure := orchestrator.RecordValidation(
        incident, CompareDatasets(digest, q.restored, q.restored), LocalGates(digest, q, o), Some(plan), o.third);
      error := Save(incident, failure);
    }

    method ReconcileStored(incident: Incident, c: Command, o: Outside) returns (error: Option<CliError>)
      requires stored == Some(incident.View()) && c.ReconcileData?
      modifies this, incident
      ensures Persisted(stored, error) ==
                ReconcileDataOf(digest, old(stored).value, c.dryRun, c.approve, c.owner, c.ticket, o.third)
    {
      hide ReconcileOf, PlanOf, DrillInputs, Keep, ById;
      if incident.recoveryPoint.None? { return Some(PointRequired); }
      var q := DrillInputs(incident.failureAt, incident.recoveryPoint.value);
      var planned := PlanReconciliation(digest, q);
      if planned.Err? { return Some(PlanRefused); }
      var target := new ConditionalTarget(q.restored);
      var ask := Ask(planned.value, q.live, c.approve, c.dryRun, c.owner, c.ticket, []);
      var failure := orchestrator.Reconcile(incident, ask, target, o.third);
      error := Save(incident, failure);
    }

    method Execute(c: Command, o: Outside) returns (error: Option<CliError>)
      modifies this
      ensures Persisted(stored, error) == CommandOf(orchestrator.machine.h, digest, old(stored), c, o)
    {
      hide Declared, StartRecoveryOf, ValidateRecoveryOf, ReconcileDataOf, PromoteOf, StartFailbackOf,
           CompleteFailbackOf,
           Keep, LocalProvenance;
      if c.Declare? {
        var declared := orchestrator.Declare(
          c.scenario, c.failureAt, c.region, o.first, o.second, o.incidentId, o.runId, o.scenarioId);
        stored := Some(declared.View());
        return None;
      }
      if stored.None? { return Some(NoIncident); }
      var incident := new Incident.Load(stored.value);
      var failure: Option<Failure>;
      match c {
        case ValidateRecovery => error := ValidateStored(incident, o); return;
        case ReconcileData(_, _, _, _) => error := ReconcileStored(incident, c, o); return;
        case RecoverData(point) => failure := orchestrator.StartRecovery(incident, point, o.third);
        case PromoteRecovery(approve, approver, reference) =>
          failure := orchestrator.Promote(incident, approve, approver, reference, o.third);
        case Failback(complete, approve, approver, reference, healthy, consistent) =>
          if complete {
            failure := orchestrator.CompleteFailback(incident, approve, approver, reference, healthy && consistent,
                                                     o.third);
          } else {
            var health := BothRegions(healthy, o.first);
            failure := orchestrator.StartFailback(
              incident, approve, approver, reference, health, health, ClaimedProof(consistent, o.second), o.third);
          }
      }
      error := Save(incident, failure);
    }
  }

  // -------------------------------------------- what the store can hold

  datatype Invocation = Invocation(command: Command, outside: Outside)

  /** The store after a sequence of commands, starting without an incident. */
  function StoredAfter(h: Hasher, d: Digest, commands: seq<Invocation>): Option<Snapshot> {
    if commands == [] then None
    else
      var last := commands[|commands| - 1];
      CommandOf(h, d, StoredAfter(h, d, commands[..|commands| - 1]), last.command, last.outside).stored
  }

  function PlanFor(d: Digest, s: Snapshot): Plan
    requires s.recoveryPoint.Some?
  {
    PlanOf(d, DrillInputs(s.failureAt, s.recoveryPoint.value))
  }

  ghost predicate Validated(d: Digest, s: Snapshot) {
    && s.validation.Some? && s.validation.value.Passed()
    && (s.scenario == LogicalCorruption ==>
          && s.recoveryPoint.Some? && s.recoveryPoint.value < s.failureAt
          && Gates.StampedRecord(s) && s.reconciliation.value.validationTimestamp == s.validationCompletedAt
          && s.reconciliation.value.plan == PlanFor(d, s) && !s.reconciliation.value.repairRequired)
  }

  /** What a stored incident satisfies. */
  ghost predicate Sound(d: Digest, s: Snapshot) {
    && Gates.Evidence(s) && s.state != Validating
    && (R.Stage(s.state) >= 3 ==> Validated(d, s))
    && (R.Stage(s.state) >= 4 && s.scenario == LogicalCorruption ==>
          s.reconciliation.Some? && s.reconciliation.value.replay.Complete())
  }

  lemma DeclaredSound(h: Hasher, d: Digest, p: Provenance, scenario: Scenario, failureAt: Time, declaredAt: Time,
                      movedAt: Time)
    ensures Sound(d, Declared(h, p, scenario, failureAt, declaredAt, movedAt))
  {
    var b := R.Birth(p, scenario, failureAt, declaredAt, movedAt, map[]);
    R.StartsBlank(h, b);
    Gates.RunKeepsEvidence(h, b, []);
    assert R.Run(h, R.Start(h, b), []) == R.Start(h, b);
    hide Declared, Gates.Evidence, R.Run;
  }

  lemma RestartSound(h: Hasher, d: Digest, s: Snapshot, point: Option<Time>, now: Time)
    requires Sound(d, s) && StartRecoveryOf(h, s, point, now).error.None?
    ensures Sound(d, StartRecoveryOf(h, s, point, now).inc)
  {
    hide Gates.Evidence, Validated, StartRecoveryOf, Logged;
    var w, call := World(s, map[]), Orchestrator.StartRecovery(point);
    StepIs(h, w, call, now, StartRecoveryOf(h, s, point, now));
    hide Step;
    Gates.StepKeepsEvidence(h, w, call, now);
    R.StepShape(h, w, call, now);
  }

  lemma StepIs(h: Hasher, w: World, call: Call, now: Time, r: Stepped)
    requires match call
             case StartRecovery(point) => r == StartRecoveryOf(h, w.inc, point, now)
             case Promote(approved, approver, reference) => r == PromoteOf(h, w.inc, approved, approver, reference, now)
             case StartFailback(approved, approver, reference, original, survivor, proof) =>
               r == StartFailbackOf(h, w.inc, approved, approver, reference, original, survivor, proof, now)
             case CompleteFailback(approved, approver, reference, both) =>
               r == CompleteFailbackOf(h, w.inc, approved, approver, reference, both, now)
             case _ => false
    ensures Step(h, w, call, now) == Lift(w, r)
  {
    hide StartRecoveryOf, PromoteOf, StartFailbackOf, CompleteFailbackOf;
  }

  /** The record `s'` holds is the one of `s`, up to its status and replay. */
  ghost predicate Carries(s: Snapshot, s': Snapshot) {
    && s'.validation == s.validation && s'.validationCompletedAt == s.validationCompletedAt
    && s'.recoveryPoint == s.recoveryPoint && s'.failureAt == s.failureAt && s'.scenario == s.scenario
    && (s.reconciliation.Some? ==>
          && s'.reconciliation.Some? && s'.reconciliation.value.plan == s.reconciliation.value.plan
          && s'.reconciliation.value.validationTimestamp == s.reconciliation.value.validationTimestamp
          && s'.reconciliation.value.repairRequired == s.reconciliation.value.repairRequired)
  }

  lemma CarriedSound(d: Digest, s: Snapshot, s': Snapshot)
    requires Sound(d, s) && Carries(s, s') && Gates.Evidence(s') && R.Stage(s.state) >= 3 && R.Stage(s'.state) >= 3
    requires R.Stage(s'.state) >= 4 && s'.scenario == LogicalCorruption ==>
               s'.reconciliation.Some? && s'.reconciliation.value.replay.Complete()
    ensures Sound(d, s')
  {
    hide PlanOf, DrillInputs, Gates.Evidence, ReplayRecord.Complete, ValidationResult.Passed;
  }

  lemma PromoteCarries(h: Hasher, s: Snapshot, approve: bool, approver: string, reference: string, now: Time)
    requires PromoteOf(h, s, approve, approver, reference, now).error.None?
    ensures var s' := PromoteOf(h, s, approve, approver, reference, now).inc;
            && Carries(s, s') && s'.state == RecoveryActive && s.state in {AwaitingApproval, FailbackInProgress}
            && (s.scenario == LogicalCorruption ==>
                  s'.reconciliation.Some? && s'.reconciliation.value.replay.Complete())
  {
    hide Logged, ReplayRecord.Complete;
  }

  lemma PromoteSound(h: Hasher, d: Digest, s: Snapshot, approve: bool, approver: string, reference: string, now: Time)
    requires Sound(d, s) && PromoteOf(h, s, approve, approver, reference, now).error.None?
    ensures Sound(d, PromoteOf(h, s, approve, approver, reference, now).inc)
  {
    var s' := PromoteOf(h, s, approve, approver, reference, now).inc;
    hide PromoteOf, Gates.Evidence, Carries, Validated, ReplayRecord.Complete;
    PromoteCarries(h, s, approve, approver, reference, now);
    Gates.PromoteKeepsEvidence(h, s, approve, approver, reference, now);
    CarriedScenario(s, s');
    CarriedSound(d, s, s');
  }

  lemma CarriedScenario(s: Snapshot, s': Snapshot)
    requires Carries(s, s')
    ensures s'.scenario == s.scenario
  {}

  lemma FailbackSound(h: Hasher, d: Digest, s: Snapshot, c: Command, o: Outside)
    requires Sound(d, s) && c.Failback? && FailbackOf(h, s, c, o).error.None?
    ensures Sound(d, FailbackOf(h, s, c, o).inc)
  {
    hide Logged, PlanOf, DrillInputs, ReplayRecord.Complete, Proven, BothRegions, ClaimedProof, ValidationResult.Passed;
  }

  lemma ReconcileSound(d: Digest, s: Snapshot, q: Inputs, ask: Ask, now: Time)
    requires Sound(d, s) && ReconcileOf(World(s, q.Base()), ask, now).error.None?
    ensures Sound(d, ReconcileOf(World(s, q.Base()), ask, now).world.inc)
  {
    hide PlanOf, DrillInputs, ReplayOutcome, ReplayResult.Complete, Proven, ValidationResult.Passed, ById;
  }

  lemma RecordedSound(h: Hasher, d: Digest, s: Snapshot, c: Comparison, g: SuppliedGates, plan: Plan, now: Time)
    requires Gates.Evidence(s) && R.Stage(s.state) < 3 && s.recoveryPoint.Some? && plan == PlanFor(d, s)
    requires RecordValidationOf(h, s, c, g, Some(plan), now).error.None?
    ensures Sound(d, RecordValidationOf(h, s, c, g, Some(plan), now).inc)
  {
    hide PlanOf, DrillInputs, ValidationFor, Logged, Proven;
    Gates.RecordValidationKeepsEvidence(h, s, c, g, Some(plan), now);
  }

  lemma ValidateSound(h: Hasher, d: Digest, s: Snapshot, o: Outside)
    requires Sound(d, s)
    ensures ValidateRecoveryOf(h, d, s, o).stored.Some? && Sound(d, ValidateRecoveryOf(h, d, s, o).stored.value)
  {
    hide BeginValidationOf, RecordValidationOf, PlanOf, DrillInputs, LocalGates, CompareDatasets, Gates.Evidence,
         Validated;
    var begun := if s.state == RecoveryInProgress then BeginValidationOf(h, s, o.first, Some(RestoreProof()), o.second)
                 else Stepped(s, None);
    BeginKeepsPoint(h, s, o.first, Some(RestoreProof()), o.second);
    BegunEvidence(h, s, o.first, Some(RestoreProof()), o.second);
    if ValidateRecoveryOf(h, d, s, o).error.None? {
      var q := DrillInputs(s.failureAt, s.recoveryPoint.value);
      var c, g := CompareDatasets(d, q.restored, q.restored), LocalGates(d, q, o);
      RecordedOnlyWhileValidating(h, begun.inc, c, g, PlanOf(d, q), o.third);
      RecordedSound(h, d, begun.inc, c, g, PlanOf(d, q), o.third);
    }
  }

  lemma BegunEvidence(h: Hasher, s: Snapshot, readyAt: Time, config: Option<map<string, Json>>, now: Time)
    requires Gates.Evidence(s)
    ensures Gates.Evidence(BeginValidationOf(h, s, readyAt, config, now).inc)
  {
    Gates.StepKeepsEvidence(h, World(s, map[]), BeginValidation(readyAt, config), now);
    hide BeginValidationOf, Gates.Evidence;
  }

  lemma RecordedOnlyWhileValidating(h: Hasher, s: Snapshot, c: Comparison, g: SuppliedGates, plan: Plan, now: Time)
    ensures RecordValidationOf(h, s, c, g, Some(plan), now).error.None? ==> s.state == Validating
  {
    hide ValidationFor, Logged;
  }

  lemma CommandSound(h: Hasher, d: Digest, stored: Option<Snapshot>, c: Command, o: Outside)
    requires stored.Some? ==> Sound(d, stored.value)
    ensures var next := CommandOf(h, d, stored, c, o).stored; next.Some? ==> Sound(d, next.value)
  {
    hide Declared, StartRecoveryOf, ValidateRecoveryOf, ReconcileOf, PromoteOf, FailbackOf, Sound, LocalProvenance,
         PlanOf, DrillInputs, AskFor;
    if c.Declare? {
      DeclaredSound(h, d, LocalProvenance(o.incidentId, o.runId, o.scenarioId, c.region), c.scenario, c.failureAt,
                    o.first, o.second);
    } else if stored.Some? {
      var s := stored.value;
      match c
      case RecoverData(point) =>
        if StartRecoveryOf(h, s, point, o.third).error.None? { RestartSound(h, d, s, point, o.third); }
      case ValidateRecovery => ValidateSound(h, d, s, o);
      case ReconcileData(dryRun, approve, owner, ticket) =>
        if s.recoveryPoint.Some? {
          var q := DrillInputs(s.failureAt, s.recoveryPoint.value);
          var ask := AskFor(d, q, dryRun, approve, owner, ticket);
          if ReconcileOf(World(s, q.Base()), ask, o.third).error.None? { ReconcileSound(d, s, q, ask, o.third); }
        }
      case PromoteRecovery(approve, approver, reference) =>
        if PromoteOf(h, s, approve, approver, reference, o.third).error.None? {
          PromoteSound(h, d, s, approve, approver, reference, o.third);
        }
      case Failback(_, _, _, _, _, _) =>
        if FailbackOf(h, s, c, o).error.None? { FailbackSound(h, d, s, c, o); }
    }
  }

  lemma {:induction false} StoreSound(h: Hasher, d: Digest, commands: seq<Invocation>)
    ensures StoredAfter(h, d, commands).Some? ==> Sound(d, StoredAfter(h, d, commands).value)
  {
    if commands != [] {
      hide CommandOf, Sound;
      var k := |commands| - 1;
      StoreSound(h, d, commands[..k]);
      CommandSound(h, d, StoredAfter(h, d, commands[..k]), commands[k].command, commands[k].outside);
    }
  }

  /** Over every sequence of commands, raising or not: from AWAITING_APPROVAL on the stored validation has
      passed, and for a logical incident the recorded plan is the one recomputed from the stored failure
      time and recovery point, so every reconcile command passes the recorded plan and the point is still
      the plan's; and a half-done validation is never stored. */
  lemma CommandsPassRecordedPlan(h: Hasher, d: Digest, commands: seq<Invocation>, c: Command)
    ensures var stored := StoredAfter(h, d, commands);
            stored.Some? ==>
              && var s := stored.value;
              && s.state != Validating
              && (R.Stage(s.state) >= 3 ==> s.validation.Some? && s.validation.value.Passed())
              && (R.Stage(s.state) >= 3 && s.scenario == LogicalCorruption ==>
                    && s.recoveryPoint.Some? && s.reconciliation.Some?
                    && s.reconciliation.value.plan.recoveryPoint == s.recoveryPoint.value
                    && (c.ReconcileData? ==>
                          AskOf(d, s, c).plan == s.reconciliation.value.plan
                          && RunOfPlan(RequestFor(AskOf(d, s, c), 0, 0), d,
                                       DrillInputs(s.failureAt, s.recoveryPoint.value))))
  {
    hide StoredAfter, ValidationResult.Passed, Gates.Evidence;
    StoreSound(h, d, commands);
    var stored := StoredAfter(h, d, commands);
    if stored.Some? && R.Stage(stored.value.state) >= 3 && stored.value.scenario == LogicalCorruption {
      var s := stored.value;
      DrillArguments(s.failureAt, s.recoveryPoint.value);
      DrillPlan(d, s.failureAt, s.recoveryPoint.value);
      PlanListsOrdered(d, DrillInputs(s.failureAt, s.recoveryPoint.value));
      hide PlanOf, DrillInputs;
    }
  }

  /** The reconcile that a command makes of the stored incident. */
  function AskOf(d: Digest, s: Snapshot, c: Command): Ask
    requires c.ReconcileData? && s.recoveryPoint.Some?
  {
    AskFor(d, DrillInputs(s.failureAt, s.recoveryPoint.value), c.dryRun, c.approve, c.owner, c.ticket)
  }

  // ------------------------------------------------- the drill gets through

  predicate OutsidePasses(o: Outside) { o.apiHealthy && o.readBack && o.objectValid && o.created }

  lemma LocalGatesPass(d: Digest, s: Snapshot, failureAt: Time, point: Time, o: Outside)
    requires point <= failureAt
    ensures var q := DrillInputs(failureAt, point);
            ValidationFor(s, CompareDatasets(d, q.restored, q.restored), LocalGates(d, q, o)).Passed() <==>
              OutsidePasses(o)
  {
    var q := DrillInputs(failureAt, point);
    DrillPlan(d, failureAt, point);
    assert IsFresh(q.cutoff, PlanOf(d, q).newest);
    hide PlanOf, CompareDatasets, ValidationResult.Passed;
    ExactMatchMeansEqual(d, q.restored, q.restored);
    Gates.GatesAreNine(s, CompareDatasets(d, q.restored, q.restored), LocalGates(d, q, o));
  }

  lemma BeginSucceeds(h: Hasher, s: Snapshot, readyAt: Time, now: Time)
    requires s.state == RecoveryInProgress
    ensures var r := BeginValidationOf(h, s, readyAt, Some(RestoreProof()), now);
            r.error.None? && r.inc.state == Validating
  {
    hide Logged;
    assert Proven(RestoreProof());
    hide Proven, RestoreProof;
  }

  lemma RecordSucceedsExactlyWhen(h: Hasher, s: Snapshot, c: Comparison, g: SuppliedGates, plan: Plan, now: Time)
    requires s.state == Validating && plan.SafeToPromote()
    ensures var r := RecordValidationOf(h, s, c, g, Some(plan), now);
            && (r.error.None? <==> ValidationFor(s, c, g).Passed())
            && (r.error.None? ==>
                  && r.inc.state == AwaitingApproval && r.inc.validationCompletedAt == Some(now)
                  && r.inc.scenario == s.scenario)
  {
    hide Logged, ValidationFor;
  }

  lemma SoundPoint(d: Digest, s: Snapshot)
    requires Sound(d, s) && s.scenario == LogicalCorruption && R.Stage(s.state) >= 1
    ensures s.recoveryPoint.Some? && s.recoveryPoint.value < s.failureAt
    ensures s.state == AwaitingApproval ==> Validated(d, s) && s.validationCompletedAt.Some?
  {
    hide Proven, Validated;
  }

  /** Validating an incident in recovery, with a point not after the failure, succeeds exactly when the four
      outside facts hold: the fixture itself never fails a gate. */
  lemma ValidateExactlyWhen(h: Hasher, d: Digest, s: Snapshot, o: Outside)
    requires s.state == RecoveryInProgress && s.recoveryPoint.Some? && s.recoveryPoint.value <= s.failureAt
    ensures var out := ValidateRecoveryOf(h, d, s, o);
            && (out.error.None? <==> OutsidePasses(o))
            && (out.error.None? ==>
                  && out.stored.Some? && out.stored.value.state == AwaitingApproval
                  && out.stored.value.scenario == s.scenario
                  && out.stored.value.validationCompletedAt == Some(o.third))
  {
    hide BeginValidationOf, RecordValidationOf, PlanOf, LocalGates, CompareDatasets, ValidationFor,
         DrillInputs, OutsidePasses, Authoritative, Inputs.Valid, ValidationResult.Passed, Plan.SafeToPromote;
    var begun, point := BeginValidationOf(h, s, o.first, Some(RestoreProof()), o.second), s.recoveryPoint.value;
    var q := DrillInputs(s.failureAt, point);
    DrillArguments(s.failureAt, point);
    BeginSucceeds(h, s, o.first, o.second);
    BeginKeepsPoint(h, s, o.first, Some(RestoreProof()), o.second);
    DrillPlan(d, s.failureAt, point);
    LocalGatesPass(d, begun.inc, s.failureAt, point, o);
    RecordSucceedsExactlyWhen(h, begun.inc, CompareDatasets(d, q.restored, q.restored), LocalGates(d, q, o),
                              PlanOf(d, q), o.third);
    hide RestoreProof;
  }

  /** Whatever commands came before, validate-recovery succeeds exactly on an incident in recovery whose point is
      not after its failure, when the four outside facts hold. */
  lemma ValidateCommandExactly(h: Hasher, d: Digest, commands: seq<Invocation>, o: Outside)
    ensures var stored := StoredAfter(h, d, commands);
            CommandOf(h, d, stored, ValidateRecovery, o).error.None? <==>
              && stored.Some? && stored.value.state == RecoveryInProgress && stored.value.recoveryPoint.Some?
              && stored.value.recoveryPoint.value <= stored.value.failureAt && OutsidePasses(o)
  {
    hide StoredAfter, ValidateRecoveryOf, OutsidePasses;
    var stored := StoredAfter(h, d, commands);
    StoreSound(h, d, commands);
    if stored.Some? {
      NotValidating(d, stored.value);
      if ValidateRecoveryOf(h, d, stored.value, o).error.None? { ValidateNeeds(h, d, stored.value, o); }
      if stored.value.state == RecoveryInProgress && stored.value.recoveryPoint.Some?
         && stored.value.recoveryPoint.value <= stored.value.failureAt
      {
        ValidateExactlyWhen(h, d, stored.value, o);
      }
    }
  }

  lemma NotValidating(d: Digest, s: Snapshot)
    requires Sound(d, s)
    ensures s.state != Validating
  {}

  lemma ValidateNeeds(h: Hasher, d: Digest, s: Snapshot, o: Outside)
    requires s.state != Validating && ValidateRecoveryOf(h, d, s, o).error.None?
    ensures s.state == RecoveryInProgress && s.recoveryPoint.Some? && s.recoveryPoint.value <= s.failureAt
  {
    hide BeginValidationOf, RecordValidationOf, PlanOf, LocalGates, CompareDatasets, DrillInputs;
    BeginKeepsPoint(h, s, o.first, Some(RestoreProof()), o.second);
    if s.recoveryPoint.Some? {
      DrillArguments(s.failureAt, s.recoveryPoint.value);
      var q := DrillInputs(s.failureAt, s.recoveryPoint.value);
      RecordedOnlyWhileValidating(h, s, CompareDatasets(d, q.restored, q.restored), LocalGates(d, q, o), PlanOf(d, q),
                                  o.third);
    }
  }

  lemma DrillArguments(failureAt: Time, point: Time)
    ensures var q := DrillInputs(failureAt, point); q.point == point && q.cutoff == failureAt
  {}

  /** Nothing but an approval stands between a stored incident and its promotion. */
  ghost predicate ReadyToPromote(s: Snapshot) {
    && s.state == AwaitingApproval && s.scenario == LogicalCorruption && s.reconciliation.Some?
    && var rec := s.reconciliation.value;
       && rec.plan.SafeToPromote() && rec.replay.Complete() && !rec.repairRequired
       && rec.validationTimestamp == s.validationCompletedAt
  }

  lemma ApprovedReconcile(s: Snapshot, ask: Ask, base: Table, now: Time)
    requires s.state == AwaitingApproval && s.scenario == LogicalCorruption && s.validationCompletedAt.Some?
    requires Gates.StampedRecord(s) && s.reconciliation.value.validationTimestamp == s.validationCompletedAt
    requires s.reconciliation.value.plan.SafeToPromote() && !s.reconciliation.value.repairRequired && ask.approved
    requires var out := ReplayOutcome(RequestFor(ask, s.validationCompletedAt.value, now), base).result;
             out.Ok? && out.value.Complete()
    ensures var out := ReconcileOf(World(s, base), ask, now); out.error.None? && ReadyToPromote(out.world.inc)
  {
    hide ReplayOutcome, ReplayResult.Complete, Plan.SafeToPromote;
  }

  lemma ApprovedReconcileCompletes(d: Digest, s: Snapshot, owner: string, ticket: string, now: Time)
    requires Sound(d, s) && s.state == AwaitingApproval && s.scenario == LogicalCorruption
    requires s.validationCompletedAt.Some? ==> s.validationCompletedAt.value <= now
    requires owner != "" && ticket != ""
    ensures var out := ReconcileDataOf(d, s, false, true, Some(owner), Some(ticket), now);
            && out.error.None? && out.stored.Some? && ReadyToPromote(out.stored.value)
  {
    hide Sound, PlanOf, DrillInputs, ReplayOutcome, ReconcileOf, ReplayResult.Complete, Authoritative, ById,
         Inputs.Valid,
         ValidationResult.Passed, Plan.SafeToPromote, ReadyToPromote, RequestFor;
    SoundPoint(d, s);
    var q := DrillInputs(s.failureAt, s.recoveryPoint.value);
    DrillArguments(s.failureAt, s.recoveryPoint.value);
    DrillPlan(d, s.failureAt, s.recoveryPoint.value);
    LocalReconcileCompletes(d, s.failureAt, s.recoveryPoint.value, s.validationCompletedAt.value, now, owner, ticket);
    ApprovedReconcile(s, AskFor(d, q, false, true, Some(owner), Some(ticket)), q.Base(), now);
  }

  lemma ReadyPromoted(h: Hasher, s: Snapshot, owner: string, ticket: string, now: Time)
    requires ReadyToPromote(s) && owner != "" && ticket != ""
    ensures var out := PromoteOf(h, s, true, owner, ticket, now); out.error.None? && out.inc.state == RecoveryActive
  {
    hide Logged, ReplayRecord.Complete;
  }

  /** The local drill gets through: a stored logical incident in recovery, whatever commands brought it
      there, is promoted by validate, approved reconcile and promote, once the outside facts hold and the
      reconcile is not clocked before the validation. */
  lemma LocalDrillPromotes(h: Hasher, d: Digest, commands: seq<Invocation>, one: Outside, two: Outside, three: Outside,
                           owner: string, ticket: string)
    requires owner != "" && ticket != "" && OutsidePasses(one) && one.third <= two.third
    ensures var stored := StoredAfter(h, d, commands);
            stored.Some? && stored.value.state == RecoveryInProgress && stored.value.scenario == LogicalCorruption ==>
              var a := CommandOf(h, d, stored, ValidateRecovery, one);
              var b := CommandOf(h, d, a.stored, ReconcileData(false, true, Some(owner), Some(ticket)), two);
              var c := CommandOf(h, d, b.stored, PromoteRecovery(true, owner, ticket), three);
              && a.error.None? && b.error.None? && c.error.None?
              && c.stored.Some? && c.stored.value.state == RecoveryActive
  {
    hide StoredAfter, Sound, ValidateRecoveryOf, ReconcileDataOf, PromoteOf, ReadyToPromote, OutsidePasses;
    var stored := StoredAfter(h, d, commands);
    StoreSound(h, d, commands);
    if stored.Some? && stored.value.state == RecoveryInProgress && stored.value.scenario == LogicalCorruption {
      SoundPoint(d, stored.value);
      ValidateExactlyWhen(h, d, stored.value, one);
      ValidateSound(h, d, stored.value, one);
      var validated := ValidateRecoveryOf(h, d, stored.value, one).stored.value;
      ApprovedReconcileCompletes(d, validated, owner, ticket, two.third);
      var reconciled := ReconcileDataOf(d, validated, false, true, Some(owner), Some(ticket), two.third).stored.value;
      ReadyPromoted(h, reconciled, owner, ticket, three.third);
    }
  }

  // --------------------------------------------- when a command succeeds

  /** A command that raises leaves the store as it was; one that does not leaves an incident. */
  lemma StoredUnlessRaised(h: Hasher, d: Digest, stored: Option<Snapshot>, c: Command, o: Outside)
    ensures var out := CommandOf(h, d, stored, c, o);
            && (out.error.Some? ==> out.stored == stored) && (out.error.None? ==> out.stored.Some?)
            && (out.error == Some(NoIncident) <==> !c.Declare? && stored.None?)
  {
    hide Declared, StartRecoveryOf, BeginValidationOf, RecordValidationOf, ReconcileOf, PromoteOf, FailbackOf,
         LocalProvenance, PlanOf, DrillInputs, LocalGates, CompareDatasets;
  }

  /** A new incident is declared under local simulation, with no skew observed and no trusted source. */
  lemma DeclareStores(h: Hasher, d: Digest, stored: Option<Snapshot>, c: Command, o: Outside)
    requires c.Declare?
    ensures var out := CommandOf(h, d, stored, c, o);
            && out.error.None? && out.stored.Some?
            && var s := out.stored.value;
               && s.state == IncidentDeclared && s.scenario == c.scenario && s.failureAt == c.failureAt
               && s.declaredAt == o.first && |s.eventLog| == 1
               && s.provenance.evidenceScope == "LOCAL_SIMULATION" && s.provenance.clockSkewMs == None
               && s.provenance.incidentId == o.incidentId && s.provenance.runId == o.runId
               && s.provenance.scenarioId == o.scenarioId && s.provenance.affectedRegion == c.region
               && (forall k | k in s.provenance.timestampSources ::
                     s.provenance.timestampSources[k] in
                       {"CONTROLLER_UTC_WALL_CLOCK", "OPERATOR_OR_FAULT_INJECTOR", "SYNTHETIC_TRANSACTION_FIELD"})
  {
    Acceptance.DeclareExactly(h, LocalProvenance(o.incidentId, o.runId, o.scenarioId, c.region), c.scenario,
                              c.failureAt, o.first, o.second);
    hide Declared, Acceptance.Records;
  }

  lemma RestartCommandExactly(h: Hasher, d: Digest, s: Snapshot, point: Option<Time>, o: Outside)
    ensures var out := CommandOf(h, d, Some(s), RecoverData(point), o);
            && (out.error.None? <==>
                  && (s.scenario == LogicalCorruption ==> point.Some? && point.value < s.failureAt)
                  && s.state in {IncidentDeclared, Validating})
            && (out.error.None? ==>
                  && out.stored.Some?
                  && Acceptance.MadeMove(h, s.(recoveryPoint := point), out.stored.value,
                                         Move(RecoveryInProgress, false, "drctl", "isolated restore started"), o.third))
  {
    var w := World(s, map[]);
    StepIs(h, w, StartRecovery(point), o.third, StartRecoveryOf(h, s, point, o.third));
    Acceptance.StartRecoveryExactly(h, w, point, o.third);
    hide Step, StartRecoveryOf, Acceptance.MadeMove;
  }

  /** Promoting succeeds as the orchestrator's promotion does, and stores the names it was given. */
  lemma PromoteCommandExactly(h: Hasher, d: Digest, s: Snapshot, approve: bool, approver: string, reference: string,
                              o: Outside)
    ensures var out := CommandOf(h, d, Some(s), PromoteRecovery(approve, approver, reference), o);
            && (out.error.None? <==>
                  && approve && approver != "" && reference != "" && Acceptance.RecordOk(s)
                  && s.state in {AwaitingApproval, FailbackInProgress})
            && (out.error.None? ==>
                  && out.stored.Some?
                  && Acceptance.MadeMove(h, Acceptance.Signed(s, approver, reference), out.stored.value,
                                         Move(RecoveryActive, true, approver, reference), o.third))
  {
    var w := World(s, map[]);
    StepIs(h, w, Promote(approve, approver, reference), o.third,
           PromoteOf(h, s, approve, approver, reference, o.third));
    Acceptance.PromoteExactly(h, w, approve, approver, reference, o.third);
    hide Step, PromoteOf, Acceptance.MadeMove, Acceptance.RecordOk, Acceptance.Signed;
  }

  /** What a failback command does when it succeeds. */
  ghost predicate FailedBack(h: Hasher, s: Snapshot, s': Snapshot, c: Command, now: Time)
    requires c.Failback?
  {
    var target := if c.complete then Healthy else FailbackInProgress;
    Acceptance.MadeMove(h, s, s', Move(target, true, c.approver, c.reference), now)
  }

  /** Failing back needs the operator's word that both regions are healthy and the data consistent, an approval
      and, to start, a reference and a clock not before the promotion. */
  lemma FailbackCommandExactly(h: Hasher, d: Digest, s: Snapshot, c: Command, o: Outside)
    requires c.Failback?
    ensures var out := CommandOf(h, d, Some(s), c, o);
            && (out.error.None? <==>
                  && c.approve && c.healthy && c.consistent
                  && if c.complete then s.state == FailbackInProgress
                     else
                       && c.reference != "" && s.state == RecoveryActive
                       && s.promotionAt.Some? && s.promotionAt.value <= o.second)
            && (out.error.None? ==> out.stored.Some? && FailedBack(h, s, out.stored.value, c, o.third))
  {
    hide FailbackOf, FailedBack;
    if c.complete { FailbackCompletes(h, s, c, o); } else { FailbackStarts(h, s, c, o); }
  }

  lemma FailbackCompletes(h: Hasher, s: Snapshot, c: Command, o: Outside)
    requires c.Failback? && c.complete
    ensures FailbackOf(h, s, c, o).error.None? <==>
              c.approve && c.healthy && c.consistent && s.state == FailbackInProgress
    ensures FailbackOf(h, s, c, o).error.None? ==> FailedBack(h, s, FailbackOf(h, s, c, o).inc, c, o.third)
  {
    hide Step, CompleteFailbackOf, StartFailbackOf, Acceptance.MadeMove;
    var w, both := World(s, map[]), c.healthy && c.consistent;
    StepIs(h, w, CompleteFailback(c.approve, c.approver, c.reference, both), o.third,
           CompleteFailbackOf(h, s, c.approve, c.approver, c.reference, both, o.third));
    Acceptance.CompleteFailbackExactly(h, w, c.approve, c.approver, c.reference, both, o.third);
  }

  lemma FailbackStarts(h: Hasher, s: Snapshot, c: Command, o: Outside)
    requires c.Failback? && !c.complete
    ensures FailbackOf(h, s, c, o).error.None? <==>
              && c.approve && c.healthy && c.consistent && c.reference != "" && s.state == RecoveryActive
              && s.promotionAt.Some? && s.promotionAt.value <= o.second
    ensures FailbackOf(h, s, c, o).error.None? ==> FailedBack(h, s, FailbackOf(h, s, c, o).inc, c, o.third)
  {
    hide Step, CompleteFailbackOf, StartFailbackOf, Acceptance.MadeMove;
    var w := World(s, map[]);
    var health, proof := BothRegions(c.healthy, o.first), ClaimedProof(c.consistent, o.second);
    StepIs(h, w, StartFailback(c.approve, c.approver, c.reference, health, health, proof), o.third,
           StartFailbackOf(h, s, c.approve, c.approver, c.reference, health, health, proof, o.third));
    Acceptance.StartFailbackExactly(h, w, c.approve, c.approver, c.reference, health, health, proof, o.third);
  }

  /** A reconcile needs a point not after the failure, a stamped record awaiting approval, approval unless dry,
      both names if approved, and a clock not before the validation. */
  lemma ReconcileCommandExactly(h: Hasher, d: Digest, s: Snapshot, c: Command, o: Outside)
    requires c.ReconcileData?
    ensures CommandOf(h, d, Some(s), c, o).error.None? <==>
              && s.recoveryPoint.Some? && s.recoveryPoint.value <= s.failureAt && Acceptance.ReadyToReplay(s)
              && (c.dryRun || c.approve) && (c.approve ==> Named(c.owner) && Named(c.ticket))
              && s.validationCompletedAt.value <= o.third
  {
    ReconcileIs(h, d, s, c, o);
    hide CommandOf, Acceptance.ReadyToReplay, Named;
    if s.recoveryPoint.Some? {
      DrillArguments(s.failureAt, s.recoveryPoint.value);
      var q := DrillInputs(s.failureAt, s.recoveryPoint.value);
      CalmReconcileAccepted(h, s, q.Base(), AskFor(d, q, c.dryRun, c.approve, c.owner, c.ticket), o.third);
      hide DrillInputs, PlanOf, ById, ReconcileOf;
    }
  }

  /** What an accepted reconcile stores: a result of the recomputed plan under the names given, between the
      validation and the clock, complete exactly when it was not dry. */
  lemma ReconcileCommandStores(h: Hasher, d: Digest, s: Snapshot, c: Command, o: Outside)
    requires c.ReconcileData? && CommandOf(h, d, Some(s), c, o).error.None?
    ensures var stored := CommandOf(h, d, Some(s), c, o).stored;
            && s.recoveryPoint.Some? && s.validationCompletedAt.Some? && s.reconciliation.Some?
            && stored.Some? && stored.value.reconciliation.Some? && stored.value.reconciliation.value.replay.Executed?
            && var rec := stored.value.reconciliation.value;
               var r := rec.replay.result;
            && stored.value ==
                 s.(reconciliation := Some(s.reconciliation.value.(replay := rec.replay, status := rec.status)))
            && r.planChecksum == PlanFor(d, s).checksum && r.requestedIds == PlanFor(d, s).replayIds
            && r.approver == c.owner && r.approvalReference == c.ticket
            && r.dryRun == c.dryRun && r.approved == c.approve
            && r.validationTimestamp == s.validationCompletedAt.value && r.executedAt == o.third
            && (r.Complete() <==> !c.dryRun)
            && rec.status == (if c.dryRun then "DRY_RUN" else "REPLAY_COMPLETE")
  {
    hide CommandOf, ReplayResult.Complete, DrillInputs, PlanOf, ById, ReplayOutcome, ReconcileOf, Named;
    ReconcileCommandExactly(h, d, s, c, o);
    ReconcileIs(h, d, s, c, o);
    DrillArguments(s.failureAt, s.recoveryPoint.value);
    var q := DrillInputs(s.failureAt, s.recoveryPoint.value);
    var ask := AskFor(d, q, c.dryRun, c.approve, c.owner, c.ticket);
    RanTells(d, s.failureAt, s.recoveryPoint.value, ask, s.validationCompletedAt.value, o.third);
    ReconcileRan(s, q.Base(), ask, o.third);
  }

  lemma ReconcileRan(s: Snapshot, base: Table, ask: Ask, now: Time)
    requires Acceptance.ReadyToReplay(s) && (ask.dryRun || ask.approved)
    requires ReplayOutcome(Acceptance.ReplayFor(ask, s.validationCompletedAt.value, now), base).result.Ok?
    ensures var r := ReplayOutcome(Acceptance.ReplayFor(ask, s.validationCompletedAt.value, now), base).result.value;
            ReconcileOf(World(s, base), ask, now).world.inc ==
              s.(reconciliation := Some(s.reconciliation.value.(
                   replay := Executed(r),
                   status := if r.Complete() then "REPLAY_COMPLETE" else if ask.dryRun then "DRY_RUN" else "BLOCKED")))
  {
    hide ReplayOutcome, ReplayResult.Complete;
  }

  lemma RanTells(d: Digest, failureAt: Time, point: Time, ask: Ask, validatedAt: Time, now: Time)
    requires var q := DrillInputs(failureAt, point);
             ask == AskFor(d, q, ask.dryRun, ask.approved, ask.approver, ask.reference)
    requires point <= failureAt && validatedAt <= now && (ask.dryRun || ask.approved)
    requires ask.approved ==> Named(ask.approver) && Named(ask.reference)
    ensures var out := ReplayOutcome(Acceptance.ReplayFor(ask, validatedAt, now), DrillInputs(failureAt, point).Base());
            && out.result.Ok?
            && var r := out.result.value;
            && r.planChecksum == ask.plan.checksum && r.requestedIds == ask.plan.replayIds
            && r.approver == ask.approver && r.approvalReference == ask.reference
            && r.dryRun == ask.dryRun && r.approved == ask.approved
            && r.validationTimestamp == validatedAt && r.executedAt == now
            && (r.Complete() <==> !ask.dryRun)
  {
    hide PlanOf, DrillInputs, ById, ReplayOutcome, ReplayResult.Complete;
    var q := DrillInputs(failureAt, point);
    var req := Acceptance.ReplayFor(ask, validatedAt, now);
    CalmReplayAccepted(ask, validatedAt, now, q.Base());
    DrillValid(failureAt, point);
    ReplayIdsAscending(d, q);
    ResultTells(req, q.Base());
    var r := ReplayOutcome(req, q.Base()).result.value;
    Acceptance.ReplayedExactly(Executed(r));
    if !ask.dryRun {
      LocalReconcileCompletes(d, failureAt, point, validatedAt, now, ask.approver.value, ask.reference.value);
    }
  }

  lemma ReconcileIs(h: Hasher, d: Digest, s: Snapshot, c: Command, o: Outside)
    requires c.ReconcileData?
    ensures CommandOf(h, d, Some(s), c, o) == ReconcileDataOf(d, s, c.dryRun, c.approve, c.owner, c.ticket, o.third)
  {
    hide ReconcileDataOf;
  }

  lemma CalmReconcileAccepted(h: Hasher, s: Snapshot, base: Table, ask: Ask, now: Time)
    requires ask.turns == []
    ensures ReconcileOf(World(s, base), ask, now).error.None? <==>
              && Acceptance.ReadyToReplay(s) && (ask.dryRun || ask.approved)
              && (ask.approved ==> Named(ask.approver) && Named(ask.reference))
              && s.validationCompletedAt.value <= now
  {
    Acceptance.ReconcileExactly(h, World(s, base), ask, now);
    if s.validationCompletedAt.Some? { CalmReplayAccepted(ask, s.validationCompletedAt.value, now, base); }
    hide ReplayOutcome, ReconcileOf, Named;
  }

  lemma CalmReplayAccepted(ask: Ask, validatedAt: Time, now: Time, t: Table)
    requires ask.turns == []
    ensures ReplayOutcome(Acceptance.ReplayFor(ask, validatedAt, now), t).result.Ok? <==>
              validatedAt <= now && (ask.approved ==> Named(ask.approver) && Named(ask.reference))
  {
    var req := Acceptance.ReplayFor(ask, validatedAt, now);
    RefusedExactlyWhen(req, t);
    AbortsExactlyWhen(req, 0, t);
    hide Drive, ResultOf;
  }
}
