/** What a promoted incident must have been through, when it can no longer be promoted, and what a
    promotion says about the replay target. */
module Gates {
  import opened Prelude
  import opened Domain
  import opened Ordering
  import opened Datasets
  import opened Planner
  import opened Replay
  import opened ReplayRuns
  import opened Integrity
  import opened StateMachine
  import opened Orchestrator
  import R = Runs

  // ------------------------------------------------- evidence invariant

  /** A reconciliation record stamped with a validation time. */
  ghost predicate StampedRecord(s: Snapshot) {
    s.reconciliation.Some? && s.reconciliation.value.validationTimestamp.Some?
  }

  ghost predicate Evidence(s: Snapshot) {
    var k := R.Stage(s.state);
    && (s.validationCompletedAt.Some? <==> k >= 3)
    && s.approvalStatus == (if k < 3 then "NOT_REQUESTED" else if k == 3 then "PENDING" else "APPROVED")
    && (k >= 4 ==> s.approver.Some? && s.approvalReference.Some?)
    && (s.scenario != LogicalCorruption ==> s.reconciliation.None?)
    && (s.scenario == LogicalCorruption ==>
          && (s.recoveryPoint.Some? ==> s.recoveryPoint.value < s.failureAt)
          && (k >= 1 ==> s.recoveryPoint.Some?)
          && (s.restoreConfiguration.Some? ==> Proven(s.restoreConfiguration.value))
          && (k >= 2 ==> s.restoreConfiguration.Some?)
          && (StampedRecord(s) ==>
                && k >= 3 && s.reconciliation.value.validationTimestamp == s.validationCompletedAt
                && s.reconciliation.value.plan.SafeToPromote()))
  }

  lemma RecordedKeepsEvidence(s: Snapshot, c: Comparison, g: SuppliedGates, plan: Option<Plan>)
    requires Evidence(s)
    ensures Evidence(Recorded(s, c, g, plan))
  {
    hide Proven, ValidationFor;
  }

  lemma ApprovalKeepsEvidence(h: Hasher, s: Snapshot, now: Time)
    requires Evidence(s)
    requires s.scenario == LogicalCorruption ==>
               s.reconciliation.Some? && s.reconciliation.value.plan.SafeToPromote()
               && s.reconciliation.value.validationTimestamp.None?
    ensures var r := TransitionOf(h, s, Move(AwaitingApproval, false, "drctl", ""), now);
            && Evidence(r.inc)
            && (r.error.None? && r.inc.reconciliation.Some? ==>
                  var stamped := r.inc.reconciliation.value.(validationTimestamp := r.inc.validationCompletedAt);
                  Evidence(r.inc.(reconciliation := Some(stamped))))
  {
    hide Proven, Logged;
  }

  lemma RecordValidationKeepsEvidence(h: Hasher, s: Snapshot, c: Comparison, g: SuppliedGates, plan: Option<Plan>,
                                      now: Time)
    requires Evidence(s)
    ensures Evidence(RecordValidationOf(h, s, c, g, plan, now).inc)
  {
    RecordedKeepsEvidence(s, c, g, plan);
    if s.scenario != LogicalCorruption || (plan.Some? && plan.value.SafeToPromote()) {
      ApprovalKeepsEvidence(h, Recorded(s, c, g, plan), now);
    }
    hide Evidence, TransitionOf, ValidationFor;
  }

  lemma PromoteKeepsEvidence(h: Hasher, s: Snapshot, approved: bool, approver: string, reference: string, now: Time)
    requires Evidence(s)
    ensures Evidence(PromoteOf(h, s, approved, approver, reference, now).inc)
  {
    hide Proven, Logged;
  }

  lemma StepKeepsEvidence(h: Hasher, w: World, call: Call, now: Time)
    requires Evidence(w.inc)
    ensures Evidence(Step(h, w, call, now).world.inc)
  {
    hide Proven, Logged, ReplayOutcome, RecordValidationOf, PromoteOf;
    if call.RecordValidation? {
      hide Evidence;
      RecordValidationKeepsEvidence(h, w.inc, call.comparison, call.gates, call.plan, now);
    } else if call.Promote? {
      hide Evidence;
      PromoteKeepsEvidence(h, w.inc, call.approved, call.approver, call.reference, now);
    } else {
      hide Step;
      OthersKeepEvidence(h, w, call, now);
    }
  }

  lemma OthersKeepEvidence(h: Hasher, w: World, call: Call, now: Time)
    requires Evidence(w.inc) && !call.RecordValidation? && !call.Promote?
    ensures Evidence(Step(h, w, call, now).world.inc)
  {
    hide Proven, Logged, ReplayOutcome, Plan.SafeToPromote, FailbackSafe;
  }

  lemma {:induction false} RunKeepsEvidence(h: Hasher, b: R.Birth, calls: seq<R.Timed>)
    ensures Evidence(R.Run(h, R.Start(h, b), calls).inc)
  {
    if calls != [] {
      hide Step, Evidence;
      var k := |calls| - 1;
      RunKeepsEvidence(h, b, calls[..k]);
      StepKeepsEvidence(h, R.Run(h, R.Start(h, b), calls[..k]), calls[k].call, calls[k].now);
    }
  }

  /** What a passed validation says about the data, and what the recorded counts conserve. The nine
      gates of a validation made from `compare_datasets` pass exactly when the six supplied ones do and
      the datasets are equal, up to a digest collision; and the rows not lost are the rows not
      unexpected. */
  lemma PassedMeansEqualData(d: Digest, s: Snapshot, expected: seq<Transaction>, recovered: seq<Transaction>,
                             g: SuppliedGates, plan: Option<Plan>)
    requires UniqueIds(expected) && UniqueIds(recovered)
    ensures var c := CompareDatasets(d, expected, recovered);
            var r := Recorded(s, c, g, plan);
            var supplied := g.apiHealth && g.readWrite && g.freshness && g.s3Versions
                            && g.crossRegionConsistency && g.syntheticTransaction;
            && r.validation.Some? && r.recordCounts.Some?
            && (r.validation.value.Passed() ==>
                  && supplied
                  && (ById(expected) == ById(recovered) || Collision(d, Canonical(expected), Canonical(recovered))))
            && (supplied && ById(expected) == ById(recovered) ==> r.validation.value.Passed())
            && r.recordCounts.value.expected == |expected| && r.recordCounts.value.recovered == |recovered|
            && r.recordCounts.value.expected - r.recordCounts.value.lost
            == r.recordCounts.value.recovered - r.recordCounts.value.unexpected
  {
    hide ById, Canonical, FreshRecord;
    var c := CompareDatasets(d, expected, recovered);
    ExactMatchMeansEqual(d, expected, recovered);
    LossConserved(expected, recovered);
    GatesAreNine(s, c, g);
    hide CompareDatasets, ValidationFor;
  }

  lemma GatesAreNine(s: Snapshot, c: Comparison, g: SuppliedGates)
    ensures ValidationFor(s, c, g).Passed() <==>
              && g.apiHealth && g.readWrite && g.freshness && g.s3Versions
              && g.crossRegionConsistency && g.syntheticTransaction
              && c.sourceCount == c.recoveredCount && c.ExactMatch()
  {
    PassedExactly(ValidationFor(s, c, g));
    hide ValidationResult.Passed;
  }

  lemma LossConserved(xs: seq<Transaction>, ys: seq<Transaction>)
    requires UniqueIds(xs) && UniqueIds(ys)
    ensures |xs| - |SortedSet(Without(IdsOf(xs), IdsOf(ys)))| == |ys| - |SortedSet(Without(IdsOf(ys), IdsOf(xs)))|
  {
    var a, b := IdsOf(xs), IdsOf(ys);
    IdsOfMembers(xs);
    IdsOfMembers(ys);
    DistinctCount(a);
    DistinctCount(b);
    SortedSetCount(Without(a, b));
    SortedSetCount(Without(b, a));
    WithoutSet(a, b);
    WithoutSet(b, a);
    hide SortedSet, Without, IdsOf;
    SharedCount(set k | k in a, set k | k in b);
  }

  lemma WithoutSet(a: seq<Id>, b: seq<Id>)
    ensures (set k | k in Without(a, b)) == (set k | k in a) - (set k | k in b)
  {
    hide Without;
  }

  lemma SharedCount(A: set<Id>, B: set<Id>)
    ensures |A| - |A - B| == |B| - |B - A|
  {
    assert A == (A - B) + (A * B) && B == (B - A) + (A * B);
  }

  // --------------------------------------------------- the approval gate

  /** Call `i` is the validation that let the incident into AWAITING_APPROVAL: at that instant every
      gate had passed and, for logical corruption, its plan was safe and was recorded and stamped. */
  ghost predicate EntersApproval(h: Hasher, w0: World, calls: seq<R.Timed>, i: nat) {
    && i < |calls| && calls[i].call.RecordValidation?
    && var call, pre, post := calls[i].call, R.Run(h, w0, calls[..i]).inc, R.Run(h, w0, calls[..i + 1]).inc;
    && pre.state == Validating && post.state == AwaitingApproval
    && post.validationCompletedAt == Some(calls[i].now)
    && post.validation == Some(ValidationFor(pre, call.comparison, call.gates)) && post.validation.value.Passed()
    && (post.scenario == LogicalCorruption ==>
          && call.plan.Some? && call.plan.value.SafeToPromote()
          && post.reconciliation.Some? && post.reconciliation.value.plan == call.plan.value
          && post.reconciliation.value.validationTimestamp == Some(calls[i].now))
  }

  /** `s` still carries the verdict reached by call `i`. */
  ghost predicate CarriesVerdict(s: Snapshot, entry: R.Timed) {
    && s.validationCompletedAt == Some(entry.now)
    && (s.scenario == LogicalCorruption && StampedRecord(s) ==>
          entry.call.RecordValidation? && entry.call.plan == Some(s.reconciliation.value.plan))
  }

  lemma StepIntoApproval(h: Hasher, w: World, entry: R.Timed)
    requires Evidence(w.inc) && R.Stage(w.inc.state) < 3
    requires var post := Step(h, w, entry.call, entry.now).world.inc; R.Stage(post.state) >= 3
    ensures var call, post := entry.call, Step(h, w, entry.call, entry.now).world.inc;
            && call.RecordValidation? && w.inc.state == Validating && post.state == AwaitingApproval
            && post.validation == Some(ValidationFor(w.inc, call.comparison, call.gates))
            && post.validation.value.Passed()
            && CarriesVerdict(post, entry)
            && (post.scenario == LogicalCorruption ==>
                  && call.plan.Some? && call.plan.value.SafeToPromote() && StampedRecord(post)
                  && post.reconciliation.value.validationTimestamp == Some(entry.now))
  {
    hide Proven, Logged, ReplayOutcome, ValidationFor;
    R.StepShape(h, w, entry.call, entry.now);
  }

  /** From approval on, no call other than a reconcile forges a stamp: a stamped record was there
      before with the same plan and replay, and approval is left only with its replay complete. */
  ghost predicate RecordDescends(s: Snapshot, s': Snapshot) {
    && s'.validationCompletedAt == s.validationCompletedAt && s'.scenario == s.scenario
    && R.Stage(s'.state) >= 3 && (s'.state == AwaitingApproval ==> s.state == AwaitingApproval)
    && (StampedRecord(s') ==>
          && StampedRecord(s)
          && s'.reconciliation.value.plan == s.reconciliation.value.plan
          && s'.reconciliation.value.replay == s.reconciliation.value.replay)
    && (s.scenario == LogicalCorruption && s.state == AwaitingApproval && s'.state != AwaitingApproval ==>
          && StampedRecord(s)
          && s.reconciliation.value.replay.Complete())
  }

  /** Past validation the call always raises, after writing. */
  lemma LateValidationRaises(h: Hasher, s: Snapshot, c: Comparison, g: SuppliedGates, plan: Option<Plan>, now: Time)
    requires R.Stage(s.state) >= 3
    ensures var r := RecordValidationOf(h, s, c, g, plan, now);
            r.error.Some? && r.inc == Recorded(s, c, g, plan)
  {
    hide Logged, Stamped, ValidationFor, FreshRecord;
    DeniedAfterValidation(h, Recorded(s, c, g, plan), now);
    hide TransitionOf;
  }

  lemma DeniedAfterValidation(h: Hasher, s: Snapshot, now: Time)
    requires R.Stage(s.state) >= 3
    ensures var r := TransitionOf(h, s, Move(AwaitingApproval, false, "drctl", ""), now); r.error.Some? && r.inc == s
  {
    hide Logged, Stamped;
  }

  lemma RecordValidationDescends(h: Hasher, s: Snapshot, c: Comparison, g: SuppliedGates, plan: Option<Plan>, now: Time)
    requires Evidence(s) && R.Stage(s.state) >= 3
    ensures RecordDescends(s, RecordValidationOf(h, s, c, g, plan, now).inc)
  {
    LateValidationRaises(h, s, c, g, plan, now);
    hide Proven, ValidationFor, RecordValidationOf;
  }

  lemma PromoteDescends(h: Hasher, s: Snapshot, approved: bool, approver: string, reference: string, now: Time)
    requires Evidence(s) && R.Stage(s.state) >= 3
    ensures RecordDescends(s, PromoteOf(h, s, approved, approver, reference, now).inc)
  {
    hide Proven, Logged;
  }

  lemma StepDescends(h: Hasher, w: World, call: Call, now: Time)
    requires Evidence(w.inc) && R.Stage(w.inc.state) >= 3 && !call.Reconcile?
    ensures RecordDescends(w.inc, Step(h, w, call, now).world.inc)
  {
    if call.RecordValidation? {
      hide RecordValidationOf, RecordDescends;
      RecordValidationDescends(h, w.inc, call.comparison, call.gates, call.plan, now);
    } else if call.Promote? {
      hide PromoteOf, RecordDescends;
      PromoteDescends(h, w.inc, call.approved, call.approver, call.reference, now);
    } else {
      hide Step;
      OthersDescend(h, w, call, now);
    }
  }

  lemma OthersDescend(h: Hasher, w: World, call: Call, now: Time)
    requires Evidence(w.inc) && R.Stage(w.inc.state) >= 3
    requires !call.Reconcile? && !call.RecordValidation? && !call.Promote?
    ensures RecordDescends(w.inc, Step(h, w, call, now).world.inc)
  {
    hide Step, Logged;
    R.StepShape(h, w, call, now);
    OthersKeepRecord(h, w, call, now);
  }

  lemma OthersKeepRecord(h: Hasher, w: World, call: Call, now: Time)
    requires !call.Reconcile? && !call.RecordValidation? && !call.Promote?
    ensures Step(h, w, call, now).world.inc.reconciliation == w.inc.reconciliation
  {
    hide Proven, Logged, Denial;
  }

  lemma StepKeepsVerdict(h: Hasher, w: World, call: Call, now: Time, entry: R.Timed)
    requires Evidence(w.inc) && R.Stage(w.inc.state) >= 3 && CarriesVerdict(w.inc, entry)
    ensures CarriesVerdict(Step(h, w, call, now).world.inc, entry)
    ensures R.Stage(Step(h, w, call, now).world.inc.state) >= 3
  {
    if call.Reconcile? {
      hide ReplayOutcome;
    } else {
      hide Step;
      StepDescends(h, w, call, now);
    }
  }

  lemma EntryInPrefix(h: Hasher, w0: World, calls: seq<R.Timed>, k: nat, i: nat)
    requires k <= |calls| && i < k && EntersApproval(h, w0, calls[..k], i)
    ensures EntersApproval(h, w0, calls, i)
  {
    assert calls[..k][..i] == calls[..i] && calls[..k][..i + 1] == calls[..i + 1];
  }

  /** Any incident at or beyond AWAITING_APPROVAL was let in by one validation call whose verdict it
      still carries. */
  lemma {:induction false} ApprovalHistory(h: Hasher, b: R.Birth, calls: seq<R.Timed>) returns (i: nat)
    requires R.Stage(R.Run(h, R.Start(h, b), calls).inc.state) >= 3
    ensures EntersApproval(h, R.Start(h, b), calls, i)
    ensures CarriesVerdict(R.Run(h, R.Start(h, b), calls).inc, calls[i])
  {
    hide Step, Evidence, R.Start, CarriesVerdict;
    var w0 := R.Start(h, b);
    if calls == [] {
      R.StartsBlank(h, b);
      assert false;
    } else {
      var k := |calls| - 1;
      var w := R.Run(h, w0, calls[..k]);
      RunKeepsEvidence(h, b, calls[..k]);
      if R.Stage(w.inc.state) >= 3 {
        i := ApprovalHistory(h, b, calls[..k]);
        EntryInPrefix(h, w0, calls, k, i);
        hide EntersApproval;
        StepKeepsVerdict(h, w, calls[k].call, calls[k].now, calls[i]);
      } else {
        i := k;
        StepIntoApproval(h, w, calls[k]);
        VerdictStamp(R.Run(h, w0, calls).inc, calls[k]);
        assert calls[..k + 1] == calls;
      }
    }
  }

  lemma VerdictStamp(s: Snapshot, entry: R.Timed)
    requires CarriesVerdict(s, entry)
    ensures s.validationCompletedAt == Some(entry.now)
    ensures s.scenario == LogicalCorruption && StampedRecord(s) ==>
              entry.call.RecordValidation? && entry.call.plan == Some(s.reconciliation.value.plan)
  {}

  /** A logical-corruption incident that reaches RECOVERY_ACTIVE has a recovery point strictly before
      the failure, all ten restore flags proven, a safe plan whose replay is complete and whose record
      is stamped with the validation instant, and that plan is the one supplied by the validation call
      which, at that very instant, passed all nine gates. */
  lemma PromotionGate(h: Hasher, b: R.Birth, calls: seq<R.Timed>, call: Call, now: Time)
    requires b.scenario == LogicalCorruption
    ensures var w := R.Run(h, R.Start(h, b), calls);
            var s := Step(h, w, call, now).world.inc;
            w.inc.state != RecoveryActive && s.state == RecoveryActive ==>
              && call.Promote? && call.approved && s.approver == Some(call.approver)
              && s.recoveryPoint.Some? && s.recoveryPoint.value < s.failureAt
              && s.restoreConfiguration.Some? && Proven(s.restoreConfiguration.value)
              && StampedRecord(s) && s.reconciliation.value.plan.SafeToPromote()
              && s.reconciliation.value.replay.Complete()
              && s.reconciliation.value.validationTimestamp == s.validationCompletedAt
              && exists i: nat ::
                   && EntersApproval(h, R.Start(h, b), calls, i)
                   && s.validationCompletedAt == Some(calls[i].now)
                   && calls[i].call.plan == Some(s.reconciliation.value.plan)
  {
    hide R.Run, R.Start, EntersApproval, Proven, Step;
    var w := R.Run(h, R.Start(h, b), calls);
    if w.inc.state != RecoveryActive && Step(h, w, call, now).world.inc.state == RecoveryActive {
      R.IdentityKept(h, b, calls);
      RunKeepsEvidence(h, b, calls);
      StepIntoActive(h, w, call, now);
      var i := ApprovalHistory(h, b, calls);
    }
  }

  lemma StepIntoActive(h: Hasher, w: World, call: Call, now: Time)
    requires Evidence(w.inc) && w.inc.scenario == LogicalCorruption
    requires w.inc.state != RecoveryActive && Step(h, w, call, now).world.inc.state == RecoveryActive
    ensures var s := Step(h, w, call, now).world.inc;
            && R.Stage(w.inc.state) >= 3
            && call.Promote? && call.approved && s.approver == Some(call.approver)
            && s.recoveryPoint == w.inc.recoveryPoint && s.restoreConfiguration == w.inc.restoreConfiguration
            && s.failureAt == w.inc.failureAt && s.validationCompletedAt == w.inc.validationCompletedAt
            && StampedRecord(s) && StampedRecord(w.inc)
            && s.reconciliation.value.plan == w.inc.reconciliation.value.plan
            && s.reconciliation.value.plan.SafeToPromote() && s.reconciliation.value.replay.Complete()
            && s.reconciliation.value.validationTimestamp == s.validationCompletedAt
  {
    hide Step, Logged;
    R.StepShape(h, w, call, now);
    assert call.Promote?;
    StepOfPromote(h, w, call, now);
    PromoteEffect(h, w.inc, call.approved, call.approver, call.reference, now);
  }

  lemma StepOfPromote(h: Hasher, w: World, call: Call, now: Time)
    requires call.Promote?
    ensures Step(h, w, call, now) == Lift(w, PromoteOf(h, w.inc, call.approved, call.approver, call.reference, now))
  {
    hide PromoteOf;
  }

  lemma PromoteEffect(h: Hasher, s: Snapshot, approved: bool, approver: string, reference: string, now: Time)
    requires Evidence(s) && s.scenario == LogicalCorruption && s.state != RecoveryActive
    requires PromoteOf(h, s, approved, approver, reference, now).inc.state == RecoveryActive
    ensures var s' := PromoteOf(h, s, approved, approver, reference, now).inc;
            && R.Stage(s.state) >= 3 && approved && s'.approver == Some(approver)
            && s'.recoveryPoint == s.recoveryPoint && s'.restoreConfiguration == s.restoreConfiguration
            && s'.failureAt == s.failureAt && s'.validationCompletedAt == s.validationCompletedAt
            && StampedRecord(s') && StampedRecord(s)
            && s'.reconciliation.value.plan == s.reconciliation.value.plan
            && s'.reconciliation.value.plan.SafeToPromote() && s'.reconciliation.value.replay.Complete()
            && s'.reconciliation.value.validationTimestamp == s'.validationCompletedAt
  {
    hide Proven, Logged;
  }

  // ------------------------------------------------- failing closed forever

  /** Awaiting approval with a record that does not carry the validation instant. */
  ghost predicate Unstamped(s: Snapshot) {
    && s.state == AwaitingApproval && s.scenario == LogicalCorruption && s.validationCompletedAt.Some?
    && (s.reconciliation.None? || s.reconciliation.value.validationTimestamp != s.validationCompletedAt)
  }

  /** Awaiting approval with a required production repair that is not complete. */
  ghost predicate RepairPending(s: Snapshot) {
    && s.state == AwaitingApproval && s.scenario == LogicalCorruption && s.validationCompletedAt.Some?
    && s.reconciliation.Some? && s.reconciliation.value.repairRequired && !s.reconciliation.value.repairComplete
  }

  lemma StepKeepsUnstamped(h: Hasher, w: World, call: Call, now: Time)
    requires Unstamped(w.inc)
    ensures var out := Step(h, w, call, now);
            Unstamped(out.world.inc) && out.error.Some? && out.world.target == w.target
  {
    hide Proven, Logged, ReplayOutcome, ValidationFor;
  }

  lemma {:induction false} UnstampedForever(h: Hasher, w: World, later: seq<R.Timed>)
    requires Unstamped(w.inc)
    ensures var end := R.Run(h, w, later); Unstamped(end.inc) && end.target == w.target
  {
    if later != [] {
      hide Step, Unstamped;
      var k := |later| - 1;
      UnstampedForever(h, w, later[..k]);
      StepKeepsUnstamped(h, R.Run(h, w, later[..k]), later[k].call, later[k].now);
    }
  }

  lemma RevalidationUnstamps(h: Hasher, w: World, c: Comparison, g: SuppliedGates, plan: Plan, now: Time)
    requires w.inc.state == AwaitingApproval && w.inc.scenario == LogicalCorruption && Evidence(w.inc)
    ensures var out := Step(h, w, RecordValidation(c, g, Some(plan)), now);
            && out.error.Some? && Unstamped(out.world.inc) && out.world.target == w.target
            && out.world.inc.reconciliation.Some?
            && out.world.inc.reconciliation.value.validationTimestamp.None?
  {
    hide Proven, Logged, ValidationFor;
  }

  /** Recording a validation with any plan while a logical incident awaits approval is final: the call
      raises, and from then on every call raises, nothing is replayed and the state never changes. */
  lemma StaleEvidenceFailsClosed(h: Hasher, b: R.Birth, calls: seq<R.Timed>, c: Comparison, g: SuppliedGates,
                                 plan: Plan, now: Time, later: seq<R.Timed>, call: Call, at: Time)
    requires b.scenario == LogicalCorruption
    ensures var w := R.Run(h, R.Start(h, b), calls);
            var first := Step(h, w, RecordValidation(c, g, Some(plan)), now);
            var out := Step(h, R.Run(h, first.world, later), call, at);
            w.inc.state == AwaitingApproval ==>
              && first.error.Some? && first.world.inc.reconciliation.Some?
              && first.world.inc.reconciliation.value.validationTimestamp.None?
              && out.error.Some? && out.world.inc.state == AwaitingApproval && out.world.target == w.target
  {
    hide Step, R.Run, R.Start, Evidence;
    var w := R.Run(h, R.Start(h, b), calls);
    R.IdentityKept(h, b, calls);
    RunKeepsEvidence(h, b, calls);
    if w.inc.state == AwaitingApproval {
      RevalidationUnstamps(h, w, c, g, plan, now);
      var first := Step(h, w, RecordValidation(c, g, Some(plan)), now);
      UnstampedForever(h, first.world, later);
      StepKeepsUnstamped(h, R.Run(h, first.world, later), call, at);
    }
  }

  /** A restart request after validation is refused, yet it has already replaced the recovery point
      whenever the new one precedes the failure. Promotion does not notice: the point of a promoted
      incident precedes the failure but need not be the one its plan was computed for. */
  lemma RefusedRestartMovesPoint(h: Hasher, w: World, point: Option<Time>, now: Time)
    requires w.inc.scenario == LogicalCorruption && R.Stage(w.inc.state) >= 3
    ensures var out, s := Step(h, w, StartRecovery(point), now), w.inc;
            && out.error.Some? && out.world.target == w.target
            && out.world.inc ==
                 s.(recoveryPoint := if point.Some? && point.value < s.failureAt then point else s.recoveryPoint)
            && (forall approver, reference ::
                  PromoteBlock(out.world.inc, true, approver, reference) == PromoteBlock(s, true, approver, reference))
  {
    hide Logged;
  }

  lemma StepKeepsBlocked(h: Hasher, w: World, call: Call, now: Time)
    requires Unstamped(w.inc) || RepairPending(w.inc)
    ensures var s := Step(h, w, call, now).world.inc; Unstamped(s) || RepairPending(s)
  {
    hide Proven, Logged, ReplayOutcome, ValidationFor;
  }

  /** While a required production repair is outstanding, no sequence of calls leaves approval. */
  lemma {:induction false} RepairGateHolds(h: Hasher, w: World, later: seq<R.Timed>)
    requires Unstamped(w.inc) || RepairPending(w.inc)
    ensures var s := R.Run(h, w, later).inc; (Unstamped(s) || RepairPending(s)) && s.state == AwaitingApproval
  {
    if later != [] {
      hide Step;
      var k := |later| - 1;
      RepairGateHolds(h, w, later[..k]);
      StepKeepsBlocked(h, R.Run(h, w, later[..k]), later[k].call, later[k].now);
    }
  }

  // --------------------------------------------- promotion and the target

  /** A reconcile call that passes the recorded plan, with candidates and neighbours that only know
      planned rows; any other call is unrestricted. */
  ghost predicate Faithful(call: Call, d: Digest, q: Inputs) {
    call.Reconcile? ==> RunOfPlan(RequestFor(call.ask, 0, 0), d, q)
  }

  /** Where the target stands relative to the plan, by state. */
  ghost predicate OnPlan(d: Digest, q: Inputs, w: World) {
    && Evidence(w.inc) && w.inc.scenario == LogicalCorruption && R.Stage(w.inc.state) >= 3
    && Between(q, w.target)
    && (StampedRecord(w.inc) ==> w.inc.reconciliation.value.plan == PlanOf(d, q))
    && (w.inc.state == AwaitingApproval && StampedRecord(w.inc) && w.inc.reconciliation.value.replay.Complete() ==>
          w.target == Authoritative(q))
    && (w.inc.state != AwaitingApproval ==> w.target == Authoritative(q))
  }

  lemma ReconcileOnPlan(d: Digest, q: Inputs, w: World, ask: Ask, now: Time)
    requires q.Valid() && OnPlan(d, q, w) && Faithful(Reconcile(ask), d, q)
    ensures OnPlan(d, q, ReconcileOf(w, ask, now).world)
  {
    hide PlanOf, Authoritative, ReplayOutcome, Between, Proven;
    if ReconcileBlock(w.inc, ask).None? {
      var req := RequestFor(ask, w.inc.validationCompletedAt.value, now);
      assert RunOfPlan(req, d, q);
      RunStaysBetween(d, q, req, w.target);
      var out := ReplayOutcome(req, w.target);
      if out.result.Ok? && out.result.value.Complete() { CompleteReachesAuthoritative(d, q, req, w.target); }
      if out.result.Err? { FailedRunKeepsAuthoritative(d, q, req, w.target); }
    }
  }

  lemma FailedRunKeepsAuthoritative(d: Digest, q: Inputs, req: Request, t: Table)
    requires q.Valid() && RunOfPlan(req, d, q) && Between(q, t)
    ensures t == Authoritative(q) ==> ReplayOutcome(req, t).table == t
  {
    hide PlanOf, Authoritative, Drive;
    RunStaysBetween(d, q, req, t);
    EntriesNeverChange([req], t);
    assert [req][..0] == [];
    assert After([], t) == t;
    assert After([req], t) == ReplayOutcome(req, t).table;
    if t == Authoritative(q) {
      var now := ReplayOutcome(req, t).table;
      assert forall k :: k in now <==> k in t;
    }
  }

  lemma StepOnPlan(h: Hasher, d: Digest, q: Inputs, w: World, call: Call, now: Time)
    requires q.Valid() && OnPlan(d, q, w) && Faithful(call, d, q)
    ensures OnPlan(d, q, Step(h, w, call, now).world)
  {
    hide PlanOf, Authoritative, Between, Evidence, Faithful, ReconcileOf;
    if call.Reconcile? {
      ReconcileOnPlan(d, q, w, call.ask, now);
    } else {
      StepKeepsEvidence(h, w, call, now);
      StepDescends(h, w, call, now);
      R.StepShape(h, w, call, now);
      hide Step;
    }
  }

  lemma {:induction false} RunOnPlan(h: Hasher, d: Digest, q: Inputs, w: World, calls: seq<R.Timed>)
    requires q.Valid() && OnPlan(d, q, w) && forall c | c in calls :: Faithful(c.call, d, q)
    ensures OnPlan(d, q, R.Run(h, w, calls))
  {
    if calls != [] {
      hide Step, OnPlan, Faithful;
      var k := |calls| - 1;
      assert calls[k] in calls;
      RunOnPlan(h, d, q, w, calls[..k]);
      StepOnPlan(h, d, q, R.Run(h, w, calls[..k]), calls[k].call, calls[k].now);
    }
  }

  /** The control plane's promise, from any run into AWAITING_APPROVAL on: if the validation call
      recorded the plan of `q`, the target then was the restore, and reconcile calls pass that plan,
      then whenever the incident is beyond approval, through any number of failed, dry, partial or
      repeated reconciles, raising calls and failback rounds, the target is exactly the authoritative
      table and every scan of it has the recorded checksum. */
  lemma PromotionImpliesAuthoritativeTarget(
      h: Hasher, d: Digest, q: Inputs, b: R.Birth, before: seq<R.Timed>, c: Comparison, g: SuppliedGates, now: Time,
      calls: seq<R.Timed>, rows: seq<Transaction>)
    requires q.Valid() && b.scenario == LogicalCorruption
    requires R.Run(h, R.Start(h, b), before).target == q.Base()
    requires var w := Step(h, R.Run(h, R.Start(h, b), before), RecordValidation(c, g, Some(PlanOf(d, q))), now);
             && w.error.None? && (forall e | e in calls :: Faithful(e.call, d, q))
             && R.Stage(R.Run(h, w.world, calls).inc.state) >= 4
             && Scans(rows, R.Run(h, w.world, calls).target)
    ensures var w := Step(h, R.Run(h, R.Start(h, b), before), RecordValidation(c, g, Some(PlanOf(d, q))), now).world;
            && R.Run(h, w, calls).target == Authoritative(q)
            && DatasetChecksum(d, rows) == PlanOf(d, q).checksum
  {
    hide R.Run, R.Start, PlanOf, Authoritative, Faithful, Step, OnPlan;
    var w0 := R.Run(h, R.Start(h, b), before);
    var w := Step(h, w0, RecordValidation(c, g, Some(PlanOf(d, q))), now).world;
    R.IdentityKept(h, b, before);
    RunKeepsEvidence(h, b, before);
    EntryOnPlan(h, d, q, w0, c, g, now);
    RunOnPlan(h, d, q, w, calls);
    BeyondApproval(d, q, R.Run(h, w, calls));
    PlanChecksum(d, q, rows);
  }

  lemma BeyondApproval(d: Digest, q: Inputs, w: World)
    requires OnPlan(d, q, w) && R.Stage(w.inc.state) >= 4
    ensures w.target == Authoritative(q)
  {}

  /** What a successful logical validation call leaves behind. */
  lemma SuccessfulValidation(h: Hasher, w: World, c: Comparison, g: SuppliedGates, plan: Plan, now: Time)
    requires w.inc.scenario == LogicalCorruption
    ensures var out := Step(h, w, RecordValidation(c, g, Some(plan)), now);
            out.error.None? ==>
              && out.world.target == w.target && out.world.inc.state == AwaitingApproval
              && out.world.inc.scenario == LogicalCorruption && out.world.inc.validationCompletedAt == Some(now)
              && out.world.inc.reconciliation == Some(FreshRecord(plan).(validationTimestamp := Some(now)))
  {
    hide Logged, ValidationFor, FreshRecord, Proven;
  }

  lemma EntryOnPlan(h: Hasher, d: Digest, q: Inputs, w0: World, c: Comparison, g: SuppliedGates, now: Time)
    requires q.Valid() && Evidence(w0.inc) && w0.inc.scenario == LogicalCorruption && w0.target == q.Base()
    requires Step(h, w0, RecordValidation(c, g, Some(PlanOf(d, q))), now).error.None?
    ensures OnPlan(d, q, Step(h, w0, RecordValidation(c, g, Some(PlanOf(d, q))), now).world)
  {
    hide PlanOf, Authoritative, Step, Evidence;
    ReplayWithin(q);
    if PlanOf(d, q).replayIds == [] { EmptyPlanNothing(d, q); }
    SuccessfulValidation(h, w0, c, g, PlanOf(d, q), now);
    StepKeepsEvidence(h, w0, RecordValidation(c, g, Some(PlanOf(d, q))), now);
  }

  lemma EmptyPlanNothing(d: Digest, q: Inputs)
    requires q.Valid() && PlanOf(d, q).replayIds == []
    ensures Authoritative(q) == q.Base()
  {
    hide PlanOf;
    forall k | k in ReplayTable(q) ensures false { ReplayMembers(d, q, k); }
  }
}
