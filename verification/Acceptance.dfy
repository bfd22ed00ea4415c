/** When each operation is accepted and what it writes, stated on the incident's fields and the arguments
    alone; and, over whole runs, what every promoted or closed incident was let through by. */
module Acceptance {
  import opened Prelude
  import opened Domain
  import opened Datasets
  import opened Planner
  import opened Replay
  import opened ReplayRuns
  import opened Integrity
  import opened StateMachine
  import opened Orchestrator
  import R = Runs

  // ------------------------------------------------------------- moves

  /** The eight edges between states. */
  ghost predicate Edge(a: RecoveryState, b: RecoveryState) {
    || (a == Healthy && b == IncidentDeclared) || (a == IncidentDeclared && b == RecoveryInProgress)
    || (a == RecoveryInProgress && b == Validating) || (a == Validating && b == RecoveryInProgress)
    || (a == Validating && b == AwaitingApproval) || (a == AwaitingApproval && b == RecoveryActive)
    || (a == RecoveryActive && b == FailbackInProgress)
    || (a == FailbackInProgress && (b == RecoveryActive || b == Healthy))
  }

  /** The edges that an owner must approve. Returning from failback to the active recovery is not one. */
  ghost predicate OwnerEdge(a: RecoveryState, b: RecoveryState) {
    || (a == AwaitingApproval && b == RecoveryActive) || (a == RecoveryActive && b == FailbackInProgress)
    || (a == FailbackInProgress && b == Healthy)
  }

  ghost predicate GatesMet(s: Snapshot, target: RecoveryState) {
    target == AwaitingApproval ==> s.validation.Some? && AllGates(s.validation.value)
  }

  /** A move is made exactly along an edge, into approval only past all nine gates, and along an owner's edge
      only when approved; the three refusals are told apart in this order, and change nothing. */
  lemma MoveAcceptedExactlyWhen(h: Hasher, s: Snapshot, m: Move, now: Time)
    ensures var r := TransitionOf(h, s, m, now);
            && (r.error == Some(InvalidTransition) <==> !Edge(s.state, m.target))
            && (r.error == Some(ValidationFailed) <==> Edge(s.state, m.target) && !GatesMet(s, m.target))
            && (r.error == Some(ApprovalRequired) <==>
                  Edge(s.state, m.target) && GatesMet(s, m.target) && OwnerEdge(s.state, m.target) && !m.approved)
            && (r.error.None? <==>
                  Edge(s.state, m.target) && GatesMet(s, m.target) && (OwnerEdge(s.state, m.target) ==> m.approved))
            && (r.error.Some? ==> r.inc == s)
  {
    hide Logged, Stamped, AllGates, ValidationResult.Passed;
    if s.validation.Some? { PassedExactly(s.validation.value); }
  }

  function Name(s: RecoveryState): string {
    match s
    case Healthy => "HEALTHY"
    case IncidentDeclared => "INCIDENT_DECLARED"
    case RecoveryInProgress => "RECOVERY_IN_PROGRESS"
    case Validating => "VALIDATING"
    case AwaitingApproval => "AWAITING_APPROVAL"
    case RecoveryActive => "RECOVERY_ACTIVE"
    case FailbackInProgress => "FAILBACK_IN_PROGRESS"
  }

  /** The one event a move adds: who moved what, why, when, under which approval, chained to the log. */
  ghost predicate Records(h: Hasher, log: seq<Event>, e: Event, source: RecoveryState, m: Move, now: Time) {
    && e.Keys == {"from", "to", "at", "actor", "reason", "approved", "sequence", "previous_hash", "event_hash"}
    && e["from"] == JStr(Name(source)) && e["to"] == JStr(Name(m.target)) && e["at"] == JTime(now)
    && e["actor"] == JStr(m.actor) && e["reason"] == JStr(m.reason) && e["approved"] == JBool(m.approved)
    && e["sequence"] == JInt(|log| + 1)
    && (log == [] ==> IsGenesis(e["previous_hash"]))
    && (log != [] && Get(log[|log| - 1], "event_hash").JStr? ==>
          e["previous_hash"] == Get(log[|log| - 1], "event_hash"))
    && e["event_hash"] == JStr(h(JObj(e - {"event_hash"})))
  }

  lemma LoggedRecords(h: Hasher, log: seq<Event>, source: RecoveryState, m: Move, now: Time)
    ensures var next := Logged(h, log, source, m, now);
            |next| == |log| + 1 && next[..|log|] == log && Records(h, log, next[|log|], source, m, now)
  {
    hide Records, ChainedEvent, EventBody, HeadHash;
    EventRecords(h, log, source, m, now);
  }

  lemma EventRecords(h: Hasher, log: seq<Event>, source: RecoveryState, m: Move, now: Time)
    ensures var body := EventBody(source, m.target, now, m.actor, m.reason, m.approved);
            Records(h, log, ChainedEvent(h, body, HeadHash(log), |log| + 1), source, m, now)
  {
    hide EventBody, StateName, Name, ChainedEvent, IsGenesis, HeadHash;
    var body := EventBody(source, m.target, now, m.actor, m.reason, m.approved);
    BodyTells(source, m, now);
    ChainedEventTells(h, body, HeadHash(log), |log| + 1);
    assert {"from", "to", "at", "actor", "reason", "approved"} + {"sequence", "previous_hash", "event_hash"}
        == {"from", "to", "at", "actor", "reason", "approved", "sequence", "previous_hash", "event_hash"};
    HeadTells(log);
  }

  lemma HeadTells(log: seq<Event>)
    ensures log == [] ==> IsGenesis(JStr(HeadHash(log)))
    ensures log != [] && Get(log[|log| - 1], "event_hash").JStr? ==>
              Get(log[|log| - 1], "event_hash") == JStr(HeadHash(log))
  {
    GenesisOnly(JStr(Genesis()));
  }

  lemma BodyTells(source: RecoveryState, m: Move, now: Time)
    ensures var e := EventBody(source, m.target, now, m.actor, m.reason, m.approved);
            && e.Keys == {"from", "to", "at", "actor", "reason", "approved"}
            && e["from"] == JStr(Name(source)) && e["to"] == JStr(Name(m.target)) && e["at"] == JTime(now)
            && e["actor"] == JStr(m.actor) && e["reason"] == JStr(m.reason) && e["approved"] == JBool(m.approved)
  {
    assert StateName(source) == Name(source) && StateName(m.target) == Name(m.target);
    hide StateName, Name;
  }

  /** `s'` is `s` after the move: the state, one event, and the instants and statuses of its target. */
  ghost predicate MadeMove(h: Hasher, s: Snapshot, s': Snapshot, m: Move, now: Time) {
    && |s'.eventLog| == |s.eventLog| + 1 && s'.eventLog[..|s.eventLog|] == s.eventLog
    && Records(h, s.eventLog, s'.eventLog[|s.eventLog|], s.state, m, now)
    && s' == s.(
         state := m.target, eventLog := s'.eventLog,
         recoveryStartedAt :=
           if m.target == RecoveryInProgress && s.recoveryStartedAt.None? then Some(now) else s.recoveryStartedAt,
         validationStartedAt := if m.target == Validating then Some(now) else s.validationStartedAt,
         validationCompletedAt := if m.target == AwaitingApproval then Some(now) else s.validationCompletedAt,
         promotionAt := if m.target == RecoveryActive then Some(now) else s.promotionAt,
         failbackCompletedAt := if m.target == Healthy then Some(now) else s.failbackCompletedAt,
         rtoEndAt :=
           if m.target == RecoveryActive || (m.target == AwaitingApproval && s.scenario == RegionalOutage)
           then Some(now) else s.rtoEndAt,
         approvalStatus :=
           if m.target == AwaitingApproval then "PENDING"
           else if m.target == RecoveryActive then "APPROVED" else s.approvalStatus)
  }

  /** A move that is made writes exactly that. */
  lemma MoveWrites(h: Hasher, s: Snapshot, m: Move, now: Time)
    requires TransitionOf(h, s, m, now).error.None?
    ensures MadeMove(h, s, TransitionOf(h, s, m, now).inc, m, now)
  {
    LoggedRecords(h, s.eventLog, s.state, m, now);
    hide Logged, Records, Denial;
  }

  // ------------------------------------------------------ the operations

  /** `declare` logs the first move of a blank incident with local provenance. */
  lemma DeclareExactly(h: Hasher, p: Provenance, scenario: Scenario, failureAt: Time, declaredAt: Time, movedAt: Time)
    ensures MadeMove(h, Snapshot(p, scenario, Healthy, declaredAt, failureAt, None, None, None, None, None, None, None,
                                 None, None, "NOT_REQUESTED", None, None, None, None, None, None, []),
                     Declared(h, p, scenario, failureAt, declaredAt, movedAt),
                     Move(IncidentDeclared, false, "operator", "declared"), movedAt)
  {
    var m := Move(IncidentDeclared, false, "operator", "declared");
    var blank := Blank(p, scenario, declaredAt, failureAt);
    MoveAcceptedExactlyWhen(h, blank, m, movedAt);
    MoveWrites(h, blank, m, movedAt);
    hide TransitionOf, MadeMove;
  }

  ghost predicate PointOk(s: Snapshot, point: Option<Time>) {
    s.scenario == LogicalCorruption ==> point.Some? && point.value < s.failureAt
  }

  /** A restart needs, for logical corruption, a point before the failure; past that the point is written
      even when the state then refuses. */
  lemma StartRecoveryExactly(h: Hasher, w: World, point: Option<Time>, now: Time)
    ensures var out := Step(h, w, StartRecovery(point), now);
            var s := w.inc.(recoveryPoint := point);
            && out.world.target == w.target
            && (out.error == Some(ValidationFailed) <==> !PointOk(w.inc, point))
            && (out.error.None? <==> PointOk(w.inc, point) && w.inc.state in {IncidentDeclared, Validating})
            && (out.error.Some? ==> out.world.inc == if PointOk(w.inc, point) then s else w.inc)
            && (out.error.None? ==>
                  MadeMove(h, s, out.world.inc,
                           Move(RecoveryInProgress, false, "drctl", "isolated restore started"), now))
  {
    var s, m := w.inc.(recoveryPoint := point), Move(RecoveryInProgress, false, "drctl", "isolated restore started");
    MoveAcceptedExactlyWhen(h, s, m, now);
    if TransitionOf(h, s, m, now).error.None? { MoveWrites(h, s, m, now); }
    hide TransitionOf, MadeMove;
  }

  /** The ten restore facts. */
  ghost predicate RestoreProven(config: map<string, Json>) {
    && Get(config, "table_active") == JBool(true) && Get(config, "encryption_verified") == JBool(true)
    && Get(config, "pitr_enabled") == JBool(true) && Get(config, "tags_verified") == JBool(true)
    && Get(config, "ttl_verified") == JBool(true) && Get(config, "stream_verified") == JBool(true)
    && Get(config, "no_replicas") == JBool(true) && Get(config, "deletion_protection") == JBool(true)
    && Get(config, "billing_mode_verified") == JBool(true) && Get(config, "ready_for_validation") == JBool(true)
  }

  lemma ProvenExactly(config: map<string, Json>)
    ensures Proven(config) <==> RestoreProven(config)
  {
    hide Get;
    assert "table_active" in REQUIRED_FLAGS && "encryption_verified" in REQUIRED_FLAGS
        && "pitr_enabled" in REQUIRED_FLAGS && "tags_verified" in REQUIRED_FLAGS && "ttl_verified" in REQUIRED_FLAGS
        && "stream_verified" in REQUIRED_FLAGS && "no_replicas" in REQUIRED_FLAGS
        && "deletion_protection" in REQUIRED_FLAGS && "billing_mode_verified" in REQUIRED_FLAGS
        && "ready_for_validation" in REQUIRED_FLAGS;
  }

  ghost predicate RestoreOk(s: Snapshot, config: Option<map<string, Json>>) {
    s.scenario == LogicalCorruption ==> config.Some? && RestoreProven(config.value)
  }

  /** Validation begins from recovery, for logical corruption with all ten facts proven; past that the restore
      fields are written even when the state then refuses. */
  lemma BeginValidationExactly(h: Hasher, w: World, readyAt: Time, config: Option<map<string, Json>>, now: Time)
    ensures var out := Step(h, w, BeginValidation(readyAt, config), now);
            var s := w.inc.(
              restoreConfiguration :=
                if w.inc.scenario == LogicalCorruption then config else w.inc.restoreConfiguration,
              infrastructureReadyAt := Some(readyAt), restoreCompletedAt := Some(readyAt));
            && out.world.target == w.target
            && (out.error == Some(ValidationFailed) <==> !RestoreOk(w.inc, config))
            && (out.error.None? <==> RestoreOk(w.inc, config) && w.inc.state == RecoveryInProgress)
            && (out.error.Some? ==> out.world.inc == if RestoreOk(w.inc, config) then s else w.inc)
            && (out.error.None? ==> MadeMove(h, s, out.world.inc, Move(Validating, false, "drctl", ""), now))
  {
    hide Proven, RestoreProven;
    if config.Some? { ProvenExactly(config.value); }
    var s := w.inc.(
      restoreConfiguration :=
        if w.inc.scenario == LogicalCorruption then config else w.inc.restoreConfiguration,
      infrastructureReadyAt := Some(readyAt), restoreCompletedAt := Some(readyAt));
    var m := Move(Validating, false, "drctl", "");
    MoveAcceptedExactlyWhen(h, s, m, now);
    if TransitionOf(h, s, m, now).error.None? { MoveWrites(h, s, m, now); }
    hide TransitionOf, MadeMove;
  }

  /** What a validation call brings passes: six supplied gates, equal counts, no key lost or unexpected, equal
      checksums. */
  ghost predicate Passes(c: Comparison, g: SuppliedGates) {
    && g.apiHealth && g.readWrite && g.freshness && g.s3Versions && g.crossRegionConsistency && g.syntheticTransaction
    && c.sourceCount == c.recoveredCount && c.missingKeys == [] && c.unexpectedKeys == []
    && c.sourceChecksum == c.recoveredChecksum
  }

  ghost predicate SafePlan(p: Plan) {
    p.conflictIds == [] && p.prePointMissingIds == [] && p.restoredAfterIds == [] && p.postFailureIds == []
  }

  ghost predicate PlanOk(s: Snapshot, plan: Option<Plan>) {
    s.scenario == LogicalCorruption ==> plan.Some? && SafePlan(plan.value)
  }

  /** What a validation call has written before it can raise: counts, result and, with a plan for logical
      corruption, a new record that carries no stamp and is replayed only if it asks for nothing. */
  function AfterValidation(s: Snapshot, c: Comparison, g: SuppliedGates, plan: Option<Plan>): Snapshot {
    s.(recordCounts := Some(Counts(c.sourceCount, c.recoveredCount, |c.missingKeys|, |c.unexpectedKeys|)),
       validation := Some(ValidationResult(
         g.apiHealth, g.readWrite, c.sourceCount == c.recoveredCount, c.missingKeys == [] && c.unexpectedKeys == [],
         c.sourceChecksum == c.recoveredChecksum, g.freshness, g.s3Versions, g.crossRegionConsistency,
         g.syntheticTransaction,
         ValidationDetails(c.sourceChecksum, c.recoveredChecksum, c.missingKeys, c.unexpectedKeys, c.newestRecovered,
                           s.provenance.evidenceScope))),
       reconciliation :=
         if s.scenario != LogicalCorruption || plan.None? then s.reconciliation
         else
           var p := plan.value;
           Some(Record(
             p,
             if p.replayIds == [] then Placeholder(true, "NOT_REQUIRED") else Placeholder(false, "AWAITING_APPROVAL"),
             if p.conflictIds + p.prePointMissingIds + p.restoredAfterIds + p.postFailureIds == []
             then "AWAITING_APPROVAL" else "BLOCKED",
             None, false, false)))
  }

  lemma AfterIsRecorded(s: Snapshot, c: Comparison, g: SuppliedGates, plan: Option<Plan>)
    ensures AfterValidation(s, c, g, plan) == Recorded(s, c, g, plan)
    ensures AfterValidation(s, c, g, plan).validation.value.Passed() <==> Passes(c, g)
    ensures AfterValidation(s, c, g, plan).state == s.state && AfterValidation(s, c, g, plan).scenario == s.scenario
  {
    PassedExactly(AfterValidation(s, c, g, plan).validation.value);
    hide ValidationResult.Passed;
  }

  /** A validation is accepted exactly in VALIDATING, passing, and for logical corruption with a safe plan;
      what it has written by then stays when it raises, and acceptance stamps the record. */
  lemma RecordValidationExactly(h: Hasher, w: World, c: Comparison, g: SuppliedGates, plan: Option<Plan>, now: Time)
    ensures var out, s := Step(h, w, RecordValidation(c, g, plan), now), AfterValidation(w.inc, c, g, plan);
            && out.world.target == w.target
            && (out.error == Some(ValidationFailed) <==> !(PlanOk(w.inc, plan) && Passes(c, g)))
            && (out.error.None? <==> PlanOk(w.inc, plan) && Passes(c, g) && w.inc.state == Validating)
            && (out.error.Some? ==> out.world.inc == s)
            && (out.error.None? ==>
                  && MadeMove(h, s, out.world.inc.(reconciliation := s.reconciliation),
                              Move(AwaitingApproval, false, "drctl", ""), now)
                  && out.world.inc.reconciliation ==
                       if s.reconciliation.None? then None
                       else Some(s.reconciliation.value.(validationTimestamp := Some(now))))
  {
    hide RecordValidationOf, MadeMove, AfterValidation, Passes, PlanOk;
    ValidationRecorded(h, w.inc, c, g, plan, now);
  }

  lemma ValidationRecorded(h: Hasher, s0: Snapshot, c: Comparison, g: SuppliedGates, plan: Option<Plan>, now: Time)
    ensures var r, s := RecordValidationOf(h, s0, c, g, plan, now), AfterValidation(s0, c, g, plan);
            && (r.error == Some(ValidationFailed) <==> !(PlanOk(s0, plan) && Passes(c, g)))
            && (r.error.None? <==> PlanOk(s0, plan) && Passes(c, g) && s0.state == Validating)
            && (r.error.Some? ==> r.inc == s)
            && (r.error.None? ==>
                  && MadeMove(h, s, r.inc.(reconciliation := s.reconciliation),
                              Move(AwaitingApproval, false, "drctl", ""), now)
                  && r.inc.reconciliation ==
                       if s.reconciliation.None? then None
                       else Some(s.reconciliation.value.(validationTimestamp := Some(now))))
  {
    AfterIsRecorded(s0, c, g, plan);
    ValidationMove(h, AfterValidation(s0, c, g, plan), now);
    hide TransitionOf, MadeMove, AfterValidation, Recorded, Passes, ValidationResult.Passed;
  }

  lemma ValidationMove(h: Hasher, s: Snapshot, now: Time)
    requires s.validation.Some?
    ensures var r := TransitionOf(h, s, Move(AwaitingApproval, false, "drctl", ""), now);
            && (s.validation.value.Passed() ==>
                  (r.error.None? <==> s.state == Validating) && (r.error.Some? ==> r.error == Some(InvalidTransition)))
            && (r.error.Some? ==> r.inc == s)
            && (r.error.None? ==>
                  && MadeMove(h, s, r.inc, Move(AwaitingApproval, false, "drctl", ""), now)
                  && r.inc.validationCompletedAt == Some(now) && r.inc.reconciliation == s.reconciliation)
  {
    var m := Move(AwaitingApproval, false, "drctl", "");
    PassedExactly(s.validation.value);
    MoveAcceptedExactlyWhen(h, s, m, now);
    if TransitionOf(h, s, m, now).error.None? { MoveWrites(h, s, m, now); }
    hide TransitionOf, ValidationResult.Passed, AllGates, Records;
  }

  /** A reconcile may run: awaiting approval, with a record stamped by the validation. */
  ghost predicate ReadyToReplay(s: Snapshot) {
    && s.state == AwaitingApproval && s.reconciliation.Some? && s.validationCompletedAt.Some?
    && s.reconciliation.value.validationTimestamp == s.validationCompletedAt
  }

  /** The replay a reconcile asks for: at most 25 ids, between the validation instant and the clock. */
  function ReplayFor(ask: Ask, validatedAt: Time, now: Time): Request {
    Request(ask.plan, ask.candidates, validatedAt, now, ask.approved, ask.approver, ask.reference, ask.dryRun, 25,
            ask.turns)
  }

  /** A reconcile is blocked without a stamped record or, unless dry, without approval; otherwise it runs, and
      keeps its result and status exactly when the replay was neither refused nor aborted. */
  lemma ReconcileExactly(h: Hasher, w: World, ask: Ask, now: Time)
    ensures var out := Step(h, w, Reconcile(ask), now);
            && (out.error == Some(ValidationFailed) <==> !ReadyToReplay(w.inc))
            && (out.error == Some(ApprovalRequired) <==> ReadyToReplay(w.inc) && !ask.dryRun && !ask.approved)
            && (out.error in {Some(ValidationFailed), Some(ApprovalRequired)} ==> out.world == w)
            && (ReadyToReplay(w.inc) && (ask.dryRun || ask.approved) ==>
                  var run := ReplayOutcome(ReplayFor(ask, w.inc.validationCompletedAt.value, now), w.target);
                  && out.world.target == run.table
                  && (if run.result.Err? then
                        out.error == Some(ReplayRefused(run.result.error)) && out.world.inc == w.inc
                      else
                        out.error.None? && out.world.inc == w.inc.(reconciliation :=
                          Some(w.inc.reconciliation.value.(
                            replay := Executed(run.result.value),
                            status := if run.result.value.Complete() then "REPLAY_COMPLETE"
                                      else if ask.dryRun then "DRY_RUN" else "BLOCKED")))))
  {
    hide ReplayOutcome, ReplayResult.Complete;
  }

  /** What the record's replay must show: nothing was asked for, or an approved run that was not dry met no
      conflict and no failure and accounted for every id. */
  ghost predicate Replayed(r: ReplayRecord) {
    match r
    case Placeholder(done, _) => done
    case Executed(x) =>
      && !x.dryRun && x.approved && x.conflictIds == [] && x.failedIds == []
      && forall k :: k in x.requestedIds <==> k in x.appliedIds || k in x.idempotentIds
  }

  lemma ReplayedExactly(r: ReplayRecord)
    ensures r.Complete() <==> Replayed(r)
  {
    if r.Executed? {
      var x := r.result;
      var asked, done := set k | k in x.requestedIds, set k | k in x.appliedIds + x.idempotentIds;
      assert asked == done <==> forall k :: k in asked <==> k in done;
      assert forall k :: k in asked <==> k in x.requestedIds;
      assert forall k :: k in done <==> k in x.appliedIds || k in x.idempotentIds;
    }
  }

  /** What a promotion of a logical incident needs of its record. */
  ghost predicate RecordOk(s: Snapshot) {
    s.scenario == LogicalCorruption ==>
      && s.reconciliation.Some?
      && var rec := s.reconciliation.value;
         && SafePlan(rec.plan) && Replayed(rec.replay) && (rec.repairRequired ==> rec.repairComplete)
         && rec.validationTimestamp == s.validationCompletedAt
  }

  /** An incident under a promotion that only its state can still refuse. */
  function Signed(s: Snapshot, approver: string, reference: string): Snapshot {
    s.(approver := Some(approver), approvalReference := Some(reference),
       reconciliation :=
         if s.scenario == LogicalCorruption && s.reconciliation.Some?
         then Some(s.reconciliation.value.(status := "PROMOTION_APPROVED")) else s.reconciliation)
  }

  lemma SignedTells(s: Snapshot, approver: string, reference: string)
    ensures var s' := Signed(s, approver, reference);
            s'.approver == Some(approver) && s'.approvalReference == Some(reference) && s'.state == s.state
  {}

  /** A promotion is accepted exactly when approved, named by owner and reference, from AWAITING_APPROVAL or a
      failback, and for logical corruption with its record in order. Names and status are written once the
      state alone can refuse. */
  lemma PromoteExactly(h: Hasher, w: World, approved: bool, approver: string, reference: string, now: Time)
    ensures var out := Step(h, w, Promote(approved, approver, reference), now);
            var named := approved && approver != "" && reference != "";
            var s := Signed(w.inc, approver, reference);
            && out.world.target == w.target
            && (out.error == Some(ApprovalRequired) <==> !named)
            && (out.error == Some(ValidationFailed) <==> named && !RecordOk(w.inc))
            && (out.error.None? <==>
                  named && RecordOk(w.inc) && w.inc.state in {AwaitingApproval, FailbackInProgress})
            && (out.error.Some? ==> out.world.inc == if named && RecordOk(w.inc) then s else w.inc)
            && (out.error.None? ==>
                  MadeMove(h, s, out.world.inc, Move(RecoveryActive, true, approver, reference), now))
  {
    var s := Signed(w.inc, approver, reference);
    PromotionBlocked(w.inc, approved, approver, reference);
    PromotionMove(h, s, approver, reference, now);
    hide TransitionOf, MadeMove, PromoteBlock, RecordOk;
  }

  lemma PromotionMove(h: Hasher, s: Snapshot, approver: string, reference: string, now: Time)
    ensures var m := Move(RecoveryActive, true, approver, reference);
            var r := TransitionOf(h, s, m, now);
            && (r.error.None? <==> s.state in {AwaitingApproval, FailbackInProgress})
            && (r.error.Some? ==> r.error == Some(InvalidTransition) && r.inc == s)
            && (r.error.None? ==> MadeMove(h, s, r.inc, m, now))
  {
    var m := Move(RecoveryActive, true, approver, reference);
    MoveAcceptedExactlyWhen(h, s, m, now);
    if TransitionOf(h, s, m, now).error.None? { MoveWrites(h, s, m, now); }
    hide TransitionOf, MadeMove;
  }

  lemma PromotionBlocked(s: Snapshot, approved: bool, approver: string, reference: string)
    ensures var block := PromoteBlock(s, approved, approver, reference);
            var named := approved && approver != "" && reference != "";
            && (block == Some(ApprovalRequired) <==> !named)
            && (block == Some(ValidationFailed) <==> named && !RecordOk(s))
            && (block.None? <==> named && RecordOk(s))
            && (block.None? && s.scenario == LogicalCorruption ==> s.reconciliation.Some?)
  {
    if s.reconciliation.Some? { ReplayedExactly(s.reconciliation.value.replay); }
    hide ReplayRecord.Complete, Replayed;
  }

  ghost predicate Up(r: RegionHealth) { r.apiHealthy && r.readOk && r.writeOk }

  /** The proof of consistent regions holds and is no older than the promotion. */
  ghost predicate ProofOk(s: Snapshot, proof: ConsistencyProof) {
    && proof.exactKeyMatch && proof.exactChecksumMatch && proof.noPendingReplay
    && 0.0 <= proof.lagSeconds && proof.lagSeconds <= proof.maximumLagSeconds
    && s.promotionAt.Some? && proof.checkedAt >= s.promotionAt.value
  }

  /** A failback starts exactly from RECOVERY_ACTIVE, both regions up, consistent as of the promotion, approved
      and referenced; a refusal changes nothing. */
  lemma StartFailbackExactly(h: Hasher, w: World, approved: bool, approver: string, reference: string,
                             original: RegionHealth, survivor: RegionHealth, proof: ConsistencyProof, now: Time)
    ensures var out := Step(h, w, StartFailback(approved, approver, reference, original, survivor, proof), now);
            var safe := Up(original) && Up(survivor) && ProofOk(w.inc, proof);
            && out.world.target == w.target
            && (out.error == Some(ValidationFailed) <==> !safe)
            && (out.error == Some(ApprovalRequired) <==> safe && !(approved && reference != ""))
            && (out.error.None? <==> safe && approved && reference != "" && w.inc.state == RecoveryActive)
            && (out.error.Some? ==> out.world == w)
            && (out.error.None? ==>
                  MadeMove(h, w.inc, out.world.inc, Move(FailbackInProgress, true, approver, reference), now))
  {
    var m := Move(FailbackInProgress, true, approver, reference);
    MoveAcceptedExactlyWhen(h, w.inc, m, now);
    if TransitionOf(h, w.inc, m, now).error.None? { MoveWrites(h, w.inc, m, now); }
    hide TransitionOf, MadeMove;
  }

  /** A failback completes exactly from FAILBACK_IN_PROGRESS, both regions validated and approved; a refusal
      changes nothing. */
  lemma CompleteFailbackExactly(h: Hasher, w: World, approved: bool, approver: string, reference: string, both: bool,
                                now: Time)
    ensures var out := Step(h, w, CompleteFailback(approved, approver, reference, both), now);
            && out.world.target == w.target
            && (out.error == Some(ValidationFailed) <==> !both)
            && (out.error == Some(ApprovalRequired) <==> both && w.inc.state == FailbackInProgress && !approved)
            && (out.error.None? <==> both && w.inc.state == FailbackInProgress && approved)
            && (out.error.Some? ==> out.world == w)
            && (out.error.None? ==>
                  MadeMove(h, w.inc, out.world.inc, Move(Healthy, approved, approver, reference), now))
  {
    var m := Move(Healthy, approved, approver, reference);
    MoveAcceptedExactlyWhen(h, w.inc, m, now);
    if TransitionOf(h, w.inc, m, now).error.None? { MoveWrites(h, w.inc, m, now); }
    hide TransitionOf, MadeMove;
  }

  // ------------------------------------------------------ over whole runs

  /** Call `i` of the run takes the incident from one state to another. */
  ghost predicate Takes(h: Hasher, w0: World, calls: seq<R.Timed>, i: nat, from: RecoveryState, to: RecoveryState) {
    i < |calls| && R.Run(h, w0, calls[..i]).inc.state == from && R.Run(h, w0, calls[..i + 1]).inc.state == to
  }

  /** The call that makes a move has the move's target: which call that is for the three owner's targets. */
  lemma WhoMoves(h: Hasher, w: World, call: Call, now: Time)
    ensures var s, s' := w.inc, Step(h, w, call, now).world.inc;
            && (s'.state != s.state ==>
                  && (s'.state == RecoveryActive ==> call.Promote?)
                  && (s'.state == FailbackInProgress ==> call.StartFailback?)
                  && (s'.state == Healthy ==> call.CompleteFailback?)
                  && Step(h, w, call, now).error.None?)
            && (s'.state == Healthy && s.state != Healthy ==> s.state == FailbackInProgress)
            && (R.Stage(s'.state) >= 4 && R.Stage(s.state) < 4 ==> s'.state == RecoveryActive)
            && (R.Stage(s'.state) >= 5 && R.Stage(s.state) < 5 ==> s'.state == FailbackInProgress)
            && (R.Stage(s.state) >= 4 ==> R.Stage(s'.state) >= 4)
  {
    hide Step, Logged;
    R.StepShape(h, w, call, now);
  }

  /** Every incident at or beyond RECOVERY_ACTIVE, in any scenario, was taken there from AWAITING_APPROVAL by
      a promotion that was approved and named, with its record in order. */
  lemma {:induction false} PromotedByOwner(h: Hasher, b: R.Birth, calls: seq<R.Timed>) returns (i: nat)
    requires R.Stage(R.Run(h, R.Start(h, b), calls).inc.state) >= 4
    ensures Takes(h, R.Start(h, b), calls, i, AwaitingApproval, RecoveryActive)
    ensures var c := calls[i].call;
            && c.Promote? && c.approved && c.approver != "" && c.reference != ""
            && RecordOk(R.Run(h, R.Start(h, b), calls[..i]).inc)
  {
    hide Step, R.Start, RecordOk;
    var w0 := R.Start(h, b);
    R.StartsBlank(h, b);
    var k := |calls| - 1;
    var w := R.Run(h, w0, calls[..k]);
    assert calls[..k + 1] == calls;
    if R.Stage(w.inc.state) >= 4 {
      i := PromotedByOwner(h, b, calls[..k]);
      assert calls[..k][..i] == calls[..i] && calls[..k][..i + 1] == calls[..i + 1];
    } else {
      i := k;
      WhoMoves(h, w, calls[k].call, calls[k].now);
      var c := calls[k].call;
      PromoteExactly(h, w, c.approved, c.approver, c.reference, calls[k].now);
    }
  }

  /** Every incident that went into failback was taken there from RECOVERY_ACTIVE by an approved, referenced
      call with both regions up and consistent as of the promotion. */
  lemma {:induction false} FailedBackByOwner(h: Hasher, b: R.Birth, calls: seq<R.Timed>) returns (i: nat)
    requires R.Run(h, R.Start(h, b), calls).inc.state in {FailbackInProgress, Healthy}
    ensures Takes(h, R.Start(h, b), calls, i, RecoveryActive, FailbackInProgress)
    ensures var c := calls[i].call;
            && c.StartFailback? && c.approved && c.reference != "" && Up(c.original) && Up(c.survivor)
            && ProofOk(R.Run(h, R.Start(h, b), calls[..i]).inc, c.proof)
  {
    hide Step, R.Start, ProofOk;
    var w0 := R.Start(h, b);
    R.StartsBlank(h, b);
    var k := |calls| - 1;
    var w := R.Run(h, w0, calls[..k]);
    assert calls[..k + 1] == calls;
    WhoMoves(h, w, calls[k].call, calls[k].now);
    if w.inc.state in {FailbackInProgress, Healthy} {
      i := FailedBackByOwner(h, b, calls[..k]);
      assert calls[..k][..i] == calls[..i] && calls[..k][..i + 1] == calls[..i + 1];
    } else {
      i := k;
      var c := calls[k].call;
      StartFailbackExactly(h, w, c.approved, c.approver, c.reference, c.original, c.survivor, c.proof, calls[k].now);
    }
  }

  /** Every HEALTHY incident was closed from failback by an approved call with both regions validated. */
  lemma {:induction false} ClosedByOwner(h: Hasher, b: R.Birth, calls: seq<R.Timed>) returns (i: nat)
    requires R.Run(h, R.Start(h, b), calls).inc.state == Healthy
    ensures Takes(h, R.Start(h, b), calls, i, FailbackInProgress, Healthy)
    ensures calls[i].call.CompleteFailback? && calls[i].call.approved && calls[i].call.bothValidated
  {
    hide Step, R.Start;
    var w0 := R.Start(h, b);
    R.StartsBlank(h, b);
    var k := |calls| - 1;
    var w := R.Run(h, w0, calls[..k]);
    assert calls[..k + 1] == calls;
    WhoMoves(h, w, calls[k].call, calls[k].now);
    if w.inc.state == Healthy {
      i := ClosedByOwner(h, b, calls[..k]);
      assert calls[..k][..i] == calls[..i] && calls[..k][..i + 1] == calls[..i + 1];
    } else {
      i := k;
      var c := calls[k].call;
      CompleteFailbackExactly(h, w, c.approved, c.approver, c.reference, c.bothValidated, calls[k].now);
    }
  }

  /** A reconcile that cannot store: approved without both names, or, undisturbed, without approval or dry. */
  ghost predicate CannotStore(call: Call) {
    call.Reconcile? ==>
      || (call.ask.approved && !(Named(call.ask.approver) && Named(call.ask.reference)))
      || ((call.ask.dryRun || !call.ask.approved) && call.ask.turns == [])
  }

  lemma NothingStored(h: Hasher, w: World, call: Call, now: Time)
    requires CannotStore(call)
    ensures Step(h, w, call, now).world.target == w.target
  {
    if call.Reconcile? {
      ReconcileExactly(h, w, call.ask, now);
      if ReadyToReplay(w.inc) && (call.ask.dryRun || call.ask.approved) {
        var req := ReplayFor(call.ask, w.inc.validationCompletedAt.value, now);
        RefusedExactlyWhen(req, w.target);
        if Refusal(req).None? { StoresNothing(req, w.target); }
      }
      hide Step, ReplayOutcome;
    } else {
      hide Step;
      R.StepShape(h, w, call, now);
    }
  }

  lemma StoresNothing(req: Request, t: Table)
    requires Refusal(req).None? && (req.dryRun || !req.approved) && req.turns == []
    ensures ReplayOutcome(req, t).table == t
  {
    hide Drive;
    OnlyOthersWrite(req, 0, t, t);
    DriveKeepsEntries(req, 0, t);
    var now := Drive(req, 0, t).table;
    assert forall k :: k in now <==> k in t;
  }

  /** No sequence of calls whose reconciles cannot store ever changes the target. */
  lemma {:induction false} UnapprovedNeverStores(h: Hasher, w: World, calls: seq<R.Timed>)
    requires forall e | e in calls :: CannotStore(e.call)
    ensures R.Run(h, w, calls).target == w.target
  {
    if calls != [] {
      hide Step, CannotStore;
      var k := |calls| - 1;
      assert calls[k] in calls;
      UnapprovedNeverStores(h, w, calls[..k]);
      NothingStored(h, R.Run(h, w, calls[..k]), calls[k].call, calls[k].now);
    }
  }

  /** Right after a logical validation is accepted a promotion is accepted exactly when the plan asks for
      nothing: otherwise a replay must come first. */
  lemma PromotableUnreplayedExactlyWhen(h: Hasher, w: World, c: Comparison, g: SuppliedGates, plan: Plan, now: Time,
                                        approver: string, reference: string, at: Time)
    requires w.inc.scenario == LogicalCorruption && approver != "" && reference != ""
    ensures var out := Step(h, w, RecordValidation(c, g, Some(plan)), now);
            out.error.None? ==>
              (Step(h, out.world, Promote(true, approver, reference), at).error.None? <==> plan.replayIds == [])
  {
    var out := Step(h, w, RecordValidation(c, g, Some(plan)), now);
    RecordValidationExactly(h, w, c, g, Some(plan), now);
    PromoteExactly(h, out.world, true, approver, reference, at);
    hide Step, Records, Passes;
  }

  /** Owner and reference of the last promotion that only the state could still refuse. */
  ghost function LastOwner(h: Hasher, b: R.Birth, calls: seq<R.Timed>): Option<(string, string)> {
    if calls == [] then None
    else
      var front, c := calls[..|calls| - 1], calls[|calls| - 1].call;
      if c.Promote? && c.approved && c.approver != "" && c.reference != ""
         && RecordOk(R.Run(h, R.Start(h, b), front).inc)
      then Some((c.approver, c.reference))
      else LastOwner(h, b, front)
  }

  lemma StepKeepsOwner(h: Hasher, w: World, call: Call, now: Time)
    requires !call.Promote?
    ensures var s, s' := w.inc, Step(h, w, call, now).world.inc;
            s'.approver == s.approver && s'.approvalReference == s.approvalReference
  {
    hide Proven, Logged, Denial, ValidationFor, FreshRecord, ReplayOutcome, WithResult;
  }

  /** The recorded owner is that of the last such promotion, refused by the state or not: so it is the one who
      approved exactly when no later promotion came that far. */
  lemma {:induction false} StoredOwnerIsLast(h: Hasher, b: R.Birth, calls: seq<R.Timed>)
    ensures var s, last := R.Run(h, R.Start(h, b), calls).inc, LastOwner(h, b, calls);
            && s.approver == (if last.None? then None else Some(last.value.0))
            && s.approvalReference == (if last.None? then None else Some(last.value.1))
  {
    if calls == [] {
      hide Logged;
    } else {
      hide Step, R.Start, RecordOk;
      var k := |calls| - 1;
      var w, c := R.Run(h, R.Start(h, b), calls[..k]), calls[k].call;
      StoredOwnerIsLast(h, b, calls[..k]);
      if c.Promote? {
        PromoteKeepsOrNames(h, w, c, calls[k].now);
      } else {
        StepKeepsOwner(h, w, c, calls[k].now);
      }
    }
  }

  lemma PromoteKeepsOrNames(h: Hasher, w: World, c: Call, now: Time)
    requires c.Promote?
    ensures var s' := Step(h, w, c, now).world.inc;
            if c.approved && c.approver != "" && c.reference != "" && RecordOk(w.inc)
            then s'.approver == Some(c.approver) && s'.approvalReference == Some(c.reference)
            else s'.approver == w.inc.approver && s'.approvalReference == w.inc.approvalReference
  {
    PromoteExactly(h, w, c.approved, c.approver, c.reference, now);
    hide Step, RecordOk, Records;
  }
}
