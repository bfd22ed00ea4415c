/** Which recorded plans can be promoted while reconcile calls pass them, and what a promotion says of the
    target when reconcile calls pass something else. */
module Recovery {
  import opened Prelude
  import opened Domain
  import opened Datasets
  import opened Planner
  import opened Replay
  import opened ReplayRuns
  import opened Integrity
  import opened StateMachine
  import opened Orchestrator
  import opened Gates
  import Acceptance
  import R = Runs

  const ALL_GATES := SuppliedGates(true, true, true, true, true, true)

  lemma ExactComparisonPasses(d: Digest, expected: seq<Transaction>, recovered: seq<Transaction>, s: Snapshot)
    requires UniqueIds(expected) && UniqueIds(recovered) && ById(expected) == ById(recovered)
    ensures ValidationFor(s, CompareDatasets(d, expected, recovered), ALL_GATES).Passed()
  {
    hide CompareDatasets, ById;
    ExactMatchMeansEqual(d, expected, recovered);
    var v := ValidationFor(s, CompareDatasets(d, expected, recovered), ALL_GATES);
    assert v.Gates() == [true, true, true, true, true, true, true, true, true];
  }

  /** An approved, undisturbed reconcile. */
  function ApprovedAsk(plan: Plan, candidates: seq<Transaction>): Ask {
    Ask(plan, candidates, true, false, Some("owner"), Some("reference"), [])
  }

  /** The approved reconcile of the planned rows. */
  function FullAsk(d: Digest, q: Inputs): Ask { ApprovedAsk(PlanOf(d, q), q.live) }

  /** Recovery up to promotion, at one clock reading: restore, validate with the plan of `q`, reconcile
      with whatever `ask` passes, promote. */
  function CallsWith(ask: Ask, d: Digest, q: Inputs, expected: seq<Transaction>, config: map<string, Json>, t: Time)
    : seq<R.Timed>
  {
    [R.Timed(StartRecovery(Some(q.point)), t),
     R.Timed(BeginValidation(t, Some(config)), t),
     R.Timed(RecordValidation(CompareDatasets(d, expected, q.restored), ALL_GATES, Some(PlanOf(d, q))), t),
     R.Timed(Reconcile(ask), t),
     R.Timed(Promote(true, "owner", "reference"), t)]
  }

  function RecoveryCalls(d: Digest, q: Inputs, expected: seq<Transaction>, config: map<string, Json>, t: Time)
    : seq<R.Timed>
  {
    CallsWith(FullAsk(d, q), d, q, expected, config, t)
  }

  lemma RunNext(h: Hasher, w: World, calls: seq<R.Timed>, k: nat)
    requires k < |calls|
    ensures R.Run(h, w, calls[..k + 1]) == Step(h, R.Run(h, w, calls[..k]), calls[k].call, calls[k].now).world
  {
    hide Step;
    assert calls[..k + 1][..k] == calls[..k];
  }

  /** A logical incident ready for validation: restored, and nothing recorded yet. */
  ghost predicate Restoring(s: Snapshot, b: R.Birth, state: RecoveryState) {
    && s.state == state && s.scenario == LogicalCorruption && s.failureAt == b.failureAt && s.reconciliation.None?
  }

  lemma FirstCalls(h: Hasher, b: R.Birth, point: Time, config: map<string, Json>, t: Time)
    requires b.scenario == LogicalCorruption && point < b.failureAt && Proven(config)
    ensures var w1 := Step(h, R.Start(h, b), StartRecovery(Some(point)), t).world;
            var w2 := Step(h, w1, BeginValidation(t, Some(config)), t).world;
            Restoring(w2.inc, b, Validating) && w2.target == b.target
  {
    hide Logged, Proven;
    var w1 := Step(h, R.Start(h, b), StartRecovery(Some(point)), t).world;
    assert Restoring(w1.inc, b, RecoveryInProgress);
  }

  lemma ValidationCall(h: Hasher, b: R.Birth, w: World, c: Comparison, plan: Plan, t: Time)
    requires Restoring(w.inc, b, Validating) && plan.SafeToPromote()
    requires ValidationFor(w.inc, c, ALL_GATES).Passed()
    ensures var out := Step(h, w, RecordValidation(c, ALL_GATES, Some(plan)), t);
            && out.error.None? && out.world.target == w.target && Promotable(out.world.inc, plan)
            && out.world.inc.validationCompletedAt == Some(t)
  {
    hide Logged, ValidationFor;
  }

  /** Awaiting approval of `plan`, which is safe, recorded, stamped, and waits for no repair. */
  ghost predicate Promotable(s: Snapshot, plan: Plan) {
    && s.state == AwaitingApproval && s.scenario == LogicalCorruption && StampedRecord(s)
    && s.reconciliation.value.validationTimestamp == s.validationCompletedAt
    && s.reconciliation.value.plan == plan && plan.SafeToPromote()
    && (s.reconciliation.value.repairRequired ==> s.reconciliation.value.repairComplete)
  }

  ghost predicate ReplayComplete(s: Snapshot) {
    s.reconciliation.Some? && s.reconciliation.value.replay.Complete()
  }

  lemma ReconcileCall(h: Hasher, w: World, ask: Ask, plan: Plan, now: Time)
    requires Promotable(w.inc, plan)
    ensures var out, replayed := Step(h, w, Reconcile(ask), now),
                                 ReplayOutcome(RequestFor(ask, w.inc.validationCompletedAt.value, now), w.target);
            && (!ask.dryRun && !ask.approved ==> out.error.Some?)
            && (ask.dryRun || ask.approved ==>
                  && (out.error.None? <==> replayed.result.Ok?)
                  && out.world.target == replayed.table
                  && (out.error.None? ==>
                        && Promotable(out.world.inc, plan)
                        && (ReplayComplete(out.world.inc) <==> replayed.result.value.Complete())))
  {
    hide ReplayOutcome, ReplayResult.Complete;
  }

  lemma PromoteCall(h: Hasher, w: World, plan: Plan, now: Time)
    requires Promotable(w.inc, plan) && ReplayComplete(w.inc)
    ensures var out := Step(h, w, Promote(true, "owner", "reference"), now);
            && out.error.None? && out.world.inc.state == RecoveryActive && out.world.target == w.target
            && out.world.inc.reconciliation.Some? && out.world.inc.reconciliation.value.plan == plan
            && Acceptance.RecordOk(out.world.inc)
  {
    Acceptance.ReplayedExactly(w.inc.reconciliation.value.replay);
    hide Logged, ReplayRecord.Complete, Acceptance.Replayed;
  }

  lemma FullAskCompletes(d: Digest, q: Inputs, validatedAt: Time, now: Time)
    requires q.Valid() && |PlanOf(d, q).replayIds| <= 25 && validatedAt <= now
    ensures var out := ReplayOutcome(RequestFor(FullAsk(d, q), validatedAt, now), q.Base());
            out.result.Ok? && out.result.value.Complete() && out.table == Authoritative(q)
  {
    hide PlanOf, Authoritative, ById, ReplayOutcome;
    var req := RequestFor(FullAsk(d, q), validatedAt, now);
    forall k | k in req.plan.replayIds ensures k in req.Candidates() { ReplayMembers(d, q, k); }
    ReplayWithin(q);
    FullAttemptCompletes(d, q, req, q.Base());
    CompleteReachesAuthoritative(d, q, req, q.Base());
  }

  /** The first three calls, from a declared logical incident whose target is the restore. */
  lemma ValidatedRun(h: Hasher, d: Digest, q: Inputs, b: R.Birth, expected: seq<Transaction>,
                     config: map<string, Json>, ask: Ask)
    requires q.Valid() && PlanOf(d, q).SafeToPromote()
    requires b.scenario == LogicalCorruption && q.point < b.failureAt && b.target == q.Base() && Proven(config)
    requires UniqueIds(expected) && ById(expected) == q.Base()
    ensures var w := R.Run(h, R.Start(h, b), CallsWith(ask, d, q, expected, config, b.movedAt)[..3]);
            Promotable(w.inc, PlanOf(d, q)) && w.target == q.Base() && w.inc.validationCompletedAt == Some(b.movedAt)
  {
    hide PlanOf, CompareDatasets, ById, Step, R.Run, R.Start, Proven, ValidationFor, Promotable;
    var t, w0 := b.movedAt, R.Start(h, b);
    var calls := CallsWith(ask, d, q, expected, config, t);
    EmptyRun(h, w0, calls);
    RunNext(h, w0, calls, 0);
    RunNext(h, w0, calls, 1);
    RunNext(h, w0, calls, 2);
    FirstCalls(h, b, q.point, config, t);
    var w2 := R.Run(h, w0, calls[..2]);
    ExactComparisonPasses(d, expected, q.restored, w2.inc);
    ValidationCall(h, b, w2, CompareDatasets(d, expected, q.restored), PlanOf(d, q), t);
  }

  /** The last two calls: an approved reconcile that completes, and the promotion. */
  lemma PromotedRun(h: Hasher, w: World, ask: Ask, plan: Plan, now: Time, at: Time)
    requires Promotable(w.inc, plan) && ask.approved
    ensures var replayed := ReplayOutcome(RequestFor(ask, w.inc.validationCompletedAt.value, now), w.target);
            replayed.result.Ok? && replayed.result.value.Complete() ==>
              var end := Step(h, Step(h, w, Reconcile(ask), now).world, Promote(true, "owner", "reference"), at);
              && end.error.None? && end.world.inc.state == RecoveryActive && end.world.target == replayed.table
              && end.world.inc.reconciliation.Some? && end.world.inc.reconciliation.value.plan == plan
              && Acceptance.RecordOk(end.world.inc)
  {
    hide Step, ReplayOutcome, Promotable, ReplayComplete, ReplayResult.Complete, Acceptance.RecordOk;
    var replayed := ReplayOutcome(RequestFor(ask, StampOf(w.inc, plan), now), w.target);
    ReconcileCall(h, w, ask, plan, now);
    if replayed.result.Ok? && replayed.result.value.Complete() {
      PromoteCall(h, Step(h, w, Reconcile(ask), now).world, plan, at);
    }
  }

  ghost function StampOf(s: Snapshot, plan: Plan): Time
    requires Promotable(s, plan)
    ensures s.validationCompletedAt == Some(StampOf(s, plan))
  {
    s.validationCompletedAt.value
  }

  /** A whole run whose one reconcile passes `ask`: if that reconcile completes, the incident is promoted
      with the plan of `q` still recorded, on whatever target the reconcile left. */
  lemma RunWith(h: Hasher, d: Digest, q: Inputs, b: R.Birth, expected: seq<Transaction>,
                config: map<string, Json>, ask: Ask)
    requires q.Valid() && PlanOf(d, q).SafeToPromote() && ask.approved
    requires b.scenario == LogicalCorruption && q.point < b.failureAt && b.target == q.Base() && Proven(config)
    requires UniqueIds(expected) && ById(expected) == q.Base()
    ensures var replayed := ReplayOutcome(RequestFor(ask, b.movedAt, b.movedAt), q.Base());
            var end := R.Run(h, R.Start(h, b), CallsWith(ask, d, q, expected, config, b.movedAt));
            replayed.result.Ok? && replayed.result.value.Complete() ==>
              && end.inc.state == RecoveryActive && end.target == replayed.table
              && end.inc.reconciliation.Some? && end.inc.reconciliation.value.plan == PlanOf(d, q)
              && Acceptance.RecordOk(end.inc)
  {
    hide PlanOf, ById, Step, R.Run, R.Start, Proven, ReplayOutcome, Promotable, CompareDatasets, Acceptance.RecordOk;
    var t, w0 := b.movedAt, R.Start(h, b);
    var calls := CallsWith(ask, d, q, expected, config, t);
    ValidatedRun(h, d, q, b, expected, config, ask);
    PromotedRun(h, R.Run(h, w0, calls[..3]), ask, PlanOf(d, q), t, t);
    RunNext(h, w0, calls, 3);
    RunNext(h, w0, calls, 4);
    assert calls[..5] == calls;
  }

  /** Every safe plan of at most 25 replay ids can be promoted: five calls take a declared
      logical-corruption incident, with the target at the restore, to RECOVERY_ACTIVE with the target
      at the authoritative table. */
  lemma SafePlanCanBePromoted(h: Hasher, d: Digest, q: Inputs, b: R.Birth, expected: seq<Transaction>,
                              config: map<string, Json>)
    requires q.Valid() && PlanOf(d, q).SafeToPromote() && |PlanOf(d, q).replayIds| <= 25
    requires b.scenario == LogicalCorruption && q.point < b.failureAt && b.target == q.Base() && Proven(config)
    requires UniqueIds(expected) && ById(expected) == q.Base()
    ensures var end := R.Run(h, R.Start(h, b), RecoveryCalls(d, q, expected, config, b.movedAt));
            && end.inc.state == RecoveryActive && end.target == Authoritative(q)
            && end.inc.reconciliation.Some? && end.inc.reconciliation.value.plan == PlanOf(d, q)
            && Acceptance.RecordOk(end.inc)
  {
    hide PlanOf, Authoritative, ById, R.Run, R.Start, Proven, ReplayOutcome, CallsWith, Acceptance.RecordOk;
    FullAskCompletes(d, q, b.movedAt, b.movedAt);
    RunWith(h, d, q, b, expected, config, FullAsk(d, q));
  }

  // ------------------------------------- reconciling with another plan

  lemma NothingAsked(req: Request, t: Table)
    requires req.plan.replayIds == [] && req.turns == [] && req.approved && !req.dryRun && Refusal(req).None?
    ensures var out := ReplayOutcome(req, t); out.result.Ok? && out.result.value.Complete() && out.table == t
  {}

  /** Any safe plan, however large, can be promoted without replaying a row of it: a reconcile that passes
      a plan asking for nothing completes, the promotion is accepted, the recorded plan still stands, and
      the target is the bare restore. */
  lemma EmptyAskPromotesAnyPlan(h: Hasher, d: Digest, q: Inputs, b: R.Birth, expected: seq<Transaction>,
                                config: map<string, Json>, other: Plan)
    requires q.Valid() && PlanOf(d, q).SafeToPromote() && other.replayIds == []
    requires b.scenario == LogicalCorruption && q.point < b.failureAt && b.target == q.Base() && Proven(config)
    requires UniqueIds(expected) && ById(expected) == q.Base()
    ensures var end := R.Run(h, R.Start(h, b), CallsWith(ApprovedAsk(other, []), d, q, expected, config, b.movedAt));
            && end.inc.state == RecoveryActive && end.target == q.Base()
            && end.inc.reconciliation.Some? && end.inc.reconciliation.value.plan == PlanOf(d, q)
  {
    hide PlanOf, ById, R.Run, R.Start, Proven, ReplayOutcome, CallsWith;
    var ask := ApprovedAsk(other, []);
    NothingAsked(RequestFor(ask, b.movedAt, b.movedAt), q.Base());
    RunWith(h, d, q, b, expected, config, ask);
  }

  /** What a completed reconcile and the promotion after it say about the target, whatever the target held
      and whatever plan and candidates the caller passed: the recorded plan's authoritative table is
      reached exactly when the target held nothing else and the ids and candidates passed cover what was
      missing. */
  lemma PromotedTargetExactlyWhen(h: Hasher, d: Digest, q: Inputs, w: World, ask: Ask, now: Time, at: Time)
    requires Promotable(w.inc, PlanOf(d, q)) && ask.approved && ask.turns == []
    ensures var out := Step(h, w, Reconcile(ask), now);
            var end := Step(h, out.world, Promote(true, "owner", "reference"), at);
            out.error.None? && ReplayComplete(out.world.inc) ==>
              && end.error.None? && end.world.inc.state == RecoveryActive
              && end.world.inc.reconciliation.Some? && end.world.inc.reconciliation.value.plan == PlanOf(d, q)
              && (end.world.target == Authoritative(q) <==>
                    Covers(q, ask.plan.replayIds, ById(ask.candidates), w.target))
  {
    hide PlanOf, Step, Authoritative, ById, ReplayOutcome, Promotable, ReplayComplete, ReplayResult.Complete, Covers;
    var req := RequestFor(ask, StampOf(w.inc, PlanOf(d, q)), now);
    ReconcileCall(h, w, ask, PlanOf(d, q), now);
    PromotedRun(h, w, ask, PlanOf(d, q), now, at);
    var out := Step(h, w, Reconcile(ask), now);
    if out.error.None? && ReplayComplete(out.world.inc) { CalmRunReachesExactlyWhen(q, req, w.target); }
  }

  // ------------------------------------------------ plans beyond one batch

  lemma EmptyRun(h: Hasher, w: World, calls: seq<R.Timed>)
    ensures R.Run(h, w, calls[..0]) == w
  {}

  /** Awaiting approval of `plan`, which is too large for one batch and has not been replayed. */
  ghost predicate Oversize(s: Snapshot, plan: Plan) {
    && s.state == AwaitingApproval && s.scenario == LogicalCorruption && s.validationCompletedAt.Some?
    && |plan.replayIds| > 25
    && (StampedRecord(s) ==> s.reconciliation.value.plan == plan && !s.reconciliation.value.replay.Complete())
  }

  lemma OversizeReconcile(w: World, ask: Ask, plan: Plan, now: Time)
    requires Oversize(w.inc, plan) && ask.plan == plan
    ensures Oversize(ReconcileOf(w, ask, now).world.inc, plan)
  {
    hide ReplayOutcome;
    if ReconcileBlock(w.inc, ask).None? {
      var req := RequestFor(ask, w.inc.validationCompletedAt.value, now);
      if ReplayOutcome(req, w.target).result.Ok? { ReplayAccounting(req, w.target); }
    }
  }

  lemma StepKeepsOversize(h: Hasher, w: World, call: Call, plan: Plan, now: Time)
    requires Oversize(w.inc, plan) && (call.Reconcile? ==> call.ask.plan == plan)
    ensures Oversize(Step(h, w, call, now).world.inc, plan)
  {
    if call.Reconcile? {
      hide ReconcileOf, Oversize;
      OversizeReconcile(w, call.ask, plan, now);
    } else if call.RecordValidation? {
      LateValidationRaises(h, w.inc, call.comparison, call.gates, call.plan, now);
      hide RecordValidationOf, ValidationFor, ReplayRecord.Complete;
    } else {
      hide Proven, Logged, ReplayRecord.Complete;
    }
  }

  lemma {:induction false} OversizeForever(h: Hasher, w: World, plan: Plan, later: seq<R.Timed>)
    requires Oversize(w.inc, plan)
    requires forall e | e in later :: e.call.Reconcile? ==> e.call.ask.plan == plan
    ensures Oversize(R.Run(h, w, later).inc, plan)
  {
    if later != [] {
      hide Step, Oversize;
      var k := |later| - 1;
      assert later[k] in later;
      OversizeForever(h, w, plan, later[..k]);
      StepKeepsOversize(h, R.Run(h, w, later[..k]), later[k].call, plan, later[k].now);
    }
  }

  /** A validated plan of more than 25 replay ids is never promoted while reconcile calls pass it: one
      run cannot complete it, and completion does not add up over runs. */
  lemma OversizePlanNeverPromoted(h: Hasher, w: World, c: Comparison, g: SuppliedGates, plan: Plan, now: Time,
                                  later: seq<R.Timed>)
    requires w.inc.scenario == LogicalCorruption && |plan.replayIds| > 25
    requires forall e | e in later :: e.call.Reconcile? ==> e.call.ask.plan == plan
    ensures var out := Step(h, w, RecordValidation(c, g, Some(plan)), now);
            out.error.None? ==> R.Run(h, out.world, later).inc.state == AwaitingApproval
  {
    var out := Step(h, w, RecordValidation(c, g, Some(plan)), now);
    if out.error.None? {
      OversizeEntry(h, w, c, g, plan, now);
      hide Step, R.Run;
      OversizeForever(h, out.world, plan, later);
    }
  }

  lemma OversizeEntry(h: Hasher, w: World, c: Comparison, g: SuppliedGates, plan: Plan, now: Time)
    requires w.inc.scenario == LogicalCorruption && |plan.replayIds| > 25
    requires Step(h, w, RecordValidation(c, g, Some(plan)), now).error.None?
    ensures Oversize(Step(h, w, RecordValidation(c, g, Some(plan)), now).world.inc, plan)
  {
    hide Step;
    SuccessfulValidation(h, w, c, g, plan, now);
  }

  /** Reconcile calls among `later` pass this plan. */
  ghost predicate Pass(later: seq<R.Timed>, plan: Plan) {
    forall e | e in later :: e.call.Reconcile? ==> e.call.ask.plan == plan
  }

  ghost predicate PromotedAfter(h: Hasher, w: World, later: seq<R.Timed>) {
    R.Run(h, w, later).inc.state == RecoveryActive
  }

  /** A validated safe plan over a target at the restore can be promoted by calls that reconcile with it
      exactly when it fits one batch of 25. */
  lemma PromotableExactlyWhen(h: Hasher, d: Digest, q: Inputs, w: World, c: Comparison, g: SuppliedGates, now: Time)
    requires q.Valid() && w.inc.scenario == LogicalCorruption && w.target == q.Base()
    requires Step(h, w, RecordValidation(c, g, Some(PlanOf(d, q))), now).error.None?
    ensures var out := Step(h, w, RecordValidation(c, g, Some(PlanOf(d, q))), now).world;
            (exists later :: Pass(later, PlanOf(d, q)) && PromotedAfter(h, out, later)) <==>
              |PlanOf(d, q).replayIds| <= 25
  {
    hide PlanOf, Step, R.Run, ById;
    var plan := PlanOf(d, q);
    var out := Step(h, w, RecordValidation(c, g, Some(plan)), now).world;
    if |plan.replayIds| > 25 {
      forall later | Pass(later, plan) ensures !PromotedAfter(h, out, later) {
        OversizePlanNeverPromoted(h, w, c, g, plan, now, later);
      }
    } else {
      SmallPlanPromoted(h, d, q, w, c, g, now);
    }
  }

  lemma SmallPlanPromoted(h: Hasher, d: Digest, q: Inputs, w: World, c: Comparison, g: SuppliedGates, now: Time)
    requires q.Valid() && w.inc.scenario == LogicalCorruption && w.target == q.Base()
    requires |PlanOf(d, q).replayIds| <= 25
    requires Step(h, w, RecordValidation(c, g, Some(PlanOf(d, q))), now).error.None?
    ensures var out := Step(h, w, RecordValidation(c, g, Some(PlanOf(d, q))), now).world;
            exists later :: Pass(later, PlanOf(d, q)) && PromotedAfter(h, out, later)
  {
    hide PlanOf, Step, R.Run, ById, ReplayOutcome;
    var plan := PlanOf(d, q);
    var out := Step(h, w, RecordValidation(c, g, Some(plan)), now).world;
    SuccessfulValidation(h, w, c, g, plan, now);
    SuccessMeansSafe(h, w, c, g, plan, now);
    FullAskCompletes(d, q, now, now);
    PromotedRun(h, out, FullAsk(d, q), plan, now, now);
    var later := [R.Timed(Reconcile(FullAsk(d, q)), now), R.Timed(Promote(true, "owner", "reference"), now)];
    EmptyRun(h, out, later);
    RunNext(h, out, later, 0);
    RunNext(h, out, later, 1);
    assert later[..2] == later;
    assert Pass(later, plan) && PromotedAfter(h, out, later);
  }

  lemma SuccessMeansSafe(h: Hasher, w: World, c: Comparison, g: SuppliedGates, plan: Plan, now: Time)
    requires w.inc.scenario == LogicalCorruption
    ensures Step(h, w, RecordValidation(c, g, Some(plan)), now).error.None? ==> plan.SafeToPromote()
  {
    hide Logged, ValidationFor;
  }

  // --------------------------------------------------- ways out of approval

  ghost predicate Leaves(h: Hasher, w: World, later: seq<R.Timed>) {
    R.Run(h, w, later).inc.state != AwaitingApproval
  }

  /** Some sequence of calls takes the incident out of approval. */
  ghost predicate WayOut(h: Hasher, w: World) { exists later :: Leaves(h, w, later) }

  ghost predicate RepairSettled(s: Snapshot) {
    s.reconciliation.Some? && (s.reconciliation.value.repairRequired ==> s.reconciliation.value.repairComplete)
  }

  lemma StampedIsPromotable(s: Snapshot)
    requires Evidence(s) && s.state == AwaitingApproval && s.scenario == LogicalCorruption
    ensures StampedRecord(s) && RepairSettled(s) ==> Promotable(s, s.reconciliation.value.plan)
    ensures !(StampedRecord(s) && RepairSettled(s)) ==> Unstamped(s) || RepairPending(s)
  {
    hide Proven;
  }

  lemma PromotableLeaves(h: Hasher, w: World, plan: Plan)
    requires Promotable(w.inc, plan)
    ensures WayOut(h, w)
  {
    var now := StampOf(w.inc, plan);
    var ask := ApprovedAsk(plan.(replayIds := []), []);
    var later := [R.Timed(Reconcile(ask), now), R.Timed(Promote(true, "owner", "reference"), now)];
    NothingAsked(RequestFor(ask, now, now), w.target);
    hide Step, R.Run, ReplayOutcome, Promotable;
    PromotedRun(h, w, ask, plan, now, now);
    EmptyRun(h, w, later);
    RunNext(h, w, later, 0);
    RunNext(h, w, later, 1);
    assert later[..2] == later;
    assert Leaves(h, w, later);
  }

  /** An incident awaiting approval can still leave it exactly when its record is stamped and no required
      repair is outstanding; whether rows were replayed does not matter. */
  lemma WayOutExactlyWhen(h: Hasher, w: World)
    requires Evidence(w.inc) && w.inc.state == AwaitingApproval && w.inc.scenario == LogicalCorruption
    ensures WayOut(h, w) <==> StampedRecord(w.inc) && RepairSettled(w.inc)
  {
    hide Evidence, R.Run, Promotable, StampedRecord, RepairSettled, Unstamped, RepairPending;
    StampedIsPromotable(w.inc);
    if StampedRecord(w.inc) && RepairSettled(w.inc) {
      RecordOfStamped(w.inc);
      PromotableLeaves(h, w, w.inc.reconciliation.value.plan);
    } else {
      forall later ensures !Leaves(h, w, later) { RepairGateHolds(h, w, later); }
    }
  }

  lemma RecordOfStamped(s: Snapshot)
    ensures StampedRecord(s) ==> s.reconciliation.Some?
  {}

  /** Revalidating an incident that can still leave approval raises, and closes every way out exactly when
      it brings a plan, whatever the plan and the gates say; without one the incident can still leave even
      though the stored validation may then have failed. */
  lemma RevalidationFatalExactlyWithPlan(h: Hasher, w: World, c: Comparison, g: SuppliedGates, plan: Option<Plan>,
                                         now: Time)
    requires Evidence(w.inc) && w.inc.state == AwaitingApproval && w.inc.scenario == LogicalCorruption
    requires WayOut(h, w)
    ensures var out := Step(h, w, RecordValidation(c, g, plan), now);
            out.error.Some? && out.world.inc.state == AwaitingApproval && (WayOut(h, out.world) <==> plan.None?)
  {
    hide Step, Evidence, WayOut, ValidationFor;
    var out := Step(h, w, RecordValidation(c, g, plan), now);
    StepKeepsEvidence(h, w, RecordValidation(c, g, plan), now);
    RevalidationRecord(h, w, c, g, plan, now);
    WayOutExactlyWhen(h, w);
    WayOutExactlyWhen(h, out.world);
  }

  lemma RevalidationRecord(h: Hasher, w: World, c: Comparison, g: SuppliedGates, plan: Option<Plan>, now: Time)
    requires w.inc.state == AwaitingApproval && w.inc.scenario == LogicalCorruption
    ensures var out := Step(h, w, RecordValidation(c, g, plan), now);
            && out.error.Some? && out.world.inc.state == AwaitingApproval && out.world.inc.scenario == LogicalCorruption
            && (plan.Some? ==> !StampedRecord(out.world.inc))
            && (plan.None? ==> out.world.inc.reconciliation == w.inc.reconciliation)
  {
    LateValidationRaises(h, w.inc, c, g, plan, now);
    hide RecordValidationOf, ValidationFor;
  }
}
