/** Concrete inputs for the promises that do not hold of the code: a checkpoint that resuming cannot finish
    or repeat, a safe plan larger than a batch, promotions over a target with a row missing or a row too
    many, and a promoted incident whose stored validation failed; and a drill that goes through. */
module Witnesses {
  import opened Prelude
  import opened Domain
  import opened Datasets
  import opened Planner
  import opened Replay
  import opened ReplayRuns
  import opened Integrity
  import opened StateMachine
  import opened Orchestrator
  import opened Drill
  import opened Repair
  import opened LastWriter
  import opened Recovery
  import Acceptance
  import R = Runs

  /** Ids told apart by their length. */
  function Tag(n: nat): (id: Id)
    ensures |id| == n
  {
    seq(n, i => 'x')
  }

  const MARKER := "synthetic-corruption:1"

  function Deleted(): Transaction { Transaction(Tag(1), 0, "region-a", 100, "order") }

  function Corrupted(): Transaction { Transaction(Tag(2), 0, "region-a", 100, "order") }

  /** Two rows at the recovery point. */
  function Snapshotted(): seq<Transaction> { [Deleted(), Corrupted()] }

  function Row(n: nat): Transaction { Transaction(Tag(n + 3), 1, "region-a", 100, "order") }

  /** The corrupted row as the failed run left it, and `n` rows written after the point. */
  function LiveRows(n: nat): seq<Transaction> {
    [Corrupted().(payload := MARKER)] + seq(n, i requires 0 <= i => Row(i))
  }

  /** Two rows at instant 0, one then deleted and one overwritten; `n` rows at instant 1; cutoff 2. */
  function Burst(n: nat): Inputs { Inputs(Snapshotted(), LiveRows(n), 0, 2, {Deleted().id, Corrupted().id}) }

  lemma LiveAt(n: nat, i: nat)
    requires i < |LiveRows(n)|
    ensures var x := LiveRows(n)[i];
            && |x.id| == i + 2 && x.timestamp == (if i == 0 then 0 else 1)
            && (i == 0 ==> x == Corrupted().(payload := MARKER))
  {}

  lemma RowsApart(n: nat)
    ensures UniqueIds(LiveRows(n)) && UniqueIds(Snapshotted())
  {
    forall i, j | 0 <= i < j < |LiveRows(n)| ensures LiveRows(n)[i].id != LiveRows(n)[j].id {
      LiveAt(n, i);
      LiveAt(n, j);
    }
    assert |Deleted().id| != |Corrupted().id|;
  }

  lemma OneMoreRow(n: nat)
    ensures LiveRows(n + 1) == LiveRows(n) + [Row(n)] && |LiveRows(n)| == n + 1
  {}

  lemma NewerGrows(rows: seq<Transaction>, x: Transaction)
    ensures NewerThan(0, rows + [x]) == NewerThan(0, rows) + (if x.timestamp > 0 then [x] else [])
  {
    assert (rows + [x])[..|rows|] == rows;
  }

  lemma {:induction false} AllNewer(n: nat)
    ensures |NewerThan(0, LiveRows(n))| == n
  {
    if n == 0 {
      assert LiveRows(0) == [] + [Corrupted().(payload := MARKER)];
      NewerGrows([], Corrupted().(payload := MARKER));
      assert NewerThan(0, []) == [];
    } else {
      AllNewer(n - 1);
      OneMoreRow(n - 1);
      hide LiveRows, NewerThan;
      NewerGrows(LiveRows(n - 1), Row(n - 1));
    }
  }

  /** What a scan of the live table holds under each id. */
  lemma LiveRow(n: nat, k: Id)
    requires k in ById(LiveRows(n))
    ensures var x := ById(LiveRows(n))[k];
            x.id == k && 2 <= |k| < n + 3 && (x.timestamp == if |k| == 2 then 0 else 1)
  {
    hide ById;
    RowsApart(n);
    ByIdUnique(LiveRows(n));
    var i :| 0 <= i < |LiveRows(n)| && LiveRows(n)[i] == ById(LiveRows(n))[k];
    LiveAt(n, i);
  }

  lemma RestoredRow(k: Id)
    requires k in ById(Snapshotted())
    ensures ById(Snapshotted())[k].timestamp == 0 && 1 <= |k| <= 2
  {
    ByIdKeyed(Snapshotted());
  }

  /** An id of length 2 here is the corrupted one. */
  lemma NotCorrupted(n: nat, k: Id)
    requires k in ById(LiveRows(n)) && |k| == 2
    ensures k == Corrupted().id
  {
    hide ById;
    RowsApart(n);
    ByIdUnique(LiveRows(n));
    var i :| 0 <= i < |LiveRows(n)| && LiveRows(n)[i] == ById(LiveRows(n))[k];
    LiveAt(n, i);
  }

  lemma BurstSafe(d: Digest, n: nat)
    ensures Burst(n).Valid() && PlanOf(d, Burst(n)).SafeToPromote()
  {
    hide ById, PlanOf, Snapshotted, LiveRows;
    var q := Burst(n);
    RowsApart(n);
    forall k | k in q.Base() ensures q.Base()[k].timestamp <= 0 && |k| <= 2 { RestoredRow(k); }
    forall k | k in q.Live() && k !in q.corrupt ensures q.Live()[k].timestamp == 1 && |k| > 2 {
      LiveRow(n, k);
      if |k| == 2 { NotCorrupted(n, k); }
    }
    ReconcilableIsSafe(d, q);
  }

  lemma BurstGrows(n: nat)
    ensures ResumedFrom(Burst(n + 1), LiveRows(n), Row(n))
  {
    var q := Burst(n + 1);
    RowsApart(n);
    OneMoreRow(n);
    assert LiveRows(n + 1)[..|LiveRows(n)|] == LiveRows(n);
    assert q.Live() == ById(LiveRows(n))[Row(n).id := Row(n)];
    hide ById, LiveRows;
    if Row(n).id in ById(LiveRows(n)) { LiveRow(n, Row(n).id); assert false; }
    forall k | k in q.corrupt && k in q.Live() ensures q.Live()[k].timestamp <= 0 { LiveRow(n + 1, k); }
  }

  /** The checkpoint's fault check accepts the burst. */
  lemma BurstFaults(n: nat)
    ensures ClassifyFaults(Snapshotted(), ById(LiveRows(n)), MARKER) == Ok(Faults(Deleted(), Corrupted()))
  {
    var R, live := ById(Snapshotted()), ById(LiveRows(n));
    RowsApart(n);
    ByIdUnique(Snapshotted());
    ByIdUnique(LiveRows(n));
    assert Deleted() in Snapshotted() && Corrupted() in Snapshotted();
    assert LiveRows(n)[0] in LiveRows(n);
    hide ById, ClassifyFaults;
    if Deleted().id in live { LiveRow(n, Deleted().id); assert false; }
    forall k | k in R ensures k == Deleted().id || k == Corrupted().id { assert R[k] in Snapshotted(); }
    FaultCheckExact(Snapshotted(), live, MARKER, Faults(Deleted(), Corrupted()));
  }

  lemma BurstSize(d: Digest, n: nat)
    ensures |PlanOf(d, Burst(n + 1)).replayIds| == n + 1
  {
    hide PlanOf;
    BurstSafe(d, n + 1);
    BurstGrows(n);
    OneMoreThanCounted(d, Burst(n + 1), LiveRows(n), Row(n));
    AllNewer(n);
  }

  /** The full attempt of the drill for a burst. */
  function BurstAttempt(d: Digest, n: nat): Request { RequestFor(FullAsk(d, Burst(n)), 2, 2) }

  lemma BurstAttempted(d: Digest, n: nat)
    ensures DrillAttempt(BurstAttempt(d, n), d, Burst(n)) && Between(Burst(n), Burst(n).Base())
  {
    hide PlanOf, ById;
    BurstSafe(d, n);
    forall k | k in PlanOf(d, Burst(n)).replayIds ensures k in Burst(n).Live() { ReplayMembers(d, Burst(n), k); }
  }

  /** A checkpoint that counts 25 concurrent rows passes its own checks and cannot be finished: the resumed
      plan is safe, asks for 26 ids, and its failure-free full attempt ends incomplete. */
  lemma FullCheckpointNeverCompletes(d: Digest)
    ensures ClassifyFaults(Snapshotted(), ById(LiveRows(25)), MARKER).Ok?
    ensures 2 <= |NewerThan(0, LiveRows(25))| <= 25 && ResumedFrom(Burst(26), LiveRows(25), Row(25))
    ensures PlanOf(d, Burst(26)).SafeToPromote() && |PlanOf(d, Burst(26)).replayIds| == 26
    ensures DrillAttempt(BurstAttempt(d, 26), d, Burst(26))
    ensures var out := ReplayOutcome(BurstAttempt(d, 26), Burst(26).Base()).result; out.Ok? && !out.value.Complete()
  {
    hide PlanOf, ReplayOutcome, DrillAttempt, ById, LiveRows, ClassifyFaults, NewerThan, ResumedFrom;
    BurstFaults(25);
    AllNewer(25);
    BurstSafe(d, 26);
    BurstSize(d, 25);
    BurstGrows(25);
    BurstAttempted(d, 26);
    ResumeFitsBatch(d, Burst(26), LiveRows(25), Row(25), BurstAttempt(d, 26), Burst(26).Base());
  }

  function RestoreFacts(): map<string, Json> { map key | key in REQUIRED_FLAGS :: JBool(true) }

  lemma RestoreProven()
    ensures Proven(RestoreFacts())
  {}

  /** Declared at 3 for a failure at 3, with the restore in the target. */
  function CorruptionAt3(provenance: Provenance): R.Birth {
    R.Birth(provenance, LogicalCorruption, 3, 3, 3, ById(Snapshotted()))
  }

  /** A plan that asks for nothing, for the restore and no live rows. */
  function EmptyPlan(d: Digest): Plan { PlanOf(d, Inputs([], [], 0, 2, {})) }

  lemma NothingInEmptyPlan(d: Digest)
    ensures EmptyPlan(d).replayIds == []
  {
    var q := Inputs([], [], 0, 2, {});
    assert ReplayTable(q) == map[];
    NothingToReplay(d, q);
  }

  /** Recovery of a 26-row burst whose one reconcile passes an empty plan. */
  function BareCalls(d: Digest): (calls: seq<R.Timed>)
    ensures |calls| == 5
  {
    CallsWith(ApprovedAsk(EmptyPlan(d), []), d, Burst(26), Snapshotted(), RestoreFacts(), 3)
  }

  /** A safe plan of 26 ids is validated, no reconcile that passes it ever promotes it, and yet a reconcile
      that passes an empty plan does: the incident is promoted with the 26-id plan on record and a target
      that holds none of its rows. */
  lemma PromotedOverBareRestore(h: Hasher, d: Digest, provenance: Provenance)
    ensures var q, b := Burst(26), CorruptionAt3(provenance);
            var validated, end := R.Run(h, R.Start(h, b), BareCalls(d)[..3]), R.Run(h, R.Start(h, b), BareCalls(d));
            && Promotable(validated.inc, PlanOf(d, q)) && |PlanOf(d, q).replayIds| == 26
            && end.inc.state == RecoveryActive && end.inc.reconciliation.Some?
            && end.inc.reconciliation.value.plan == PlanOf(d, q)
            && end.target == q.Base() != Authoritative(q)
  {
    hide PlanOf, R.Run, R.Start, Proven, CallsWith, Promotable, RestoreFacts, Authoritative, ById, LiveRows,
         Snapshotted,
         EmptyPlan;
    var q, b := Burst(26), CorruptionAt3(provenance);
    BurstSafe(d, 26);
    BurstSize(d, 25);
    RestoreProven();
    NothingInEmptyPlan(d);
    ValidatedRun(h, d, q, b, Snapshotted(), RestoreFacts(), ApprovedAsk(EmptyPlan(d), []));
    EmptyAskPromotesAnyPlan(h, d, q, b, Snapshotted(), RestoreFacts(), EmptyPlan(d));
    MoreThanBase(d, q);
  }

  lemma MoreThanBase(d: Digest, q: Inputs)
    requires q.Valid() && PlanOf(d, q).replayIds != []
    ensures Authoritative(q) != q.Base()
  {
    hide PlanOf, ById;
    var k := PlanOf(d, q).replayIds[0];
    assert k in PlanOf(d, q).replayIds;
    ReplayMembers(d, q, k);
    InReplayTable(q, k);
    assert k in Authoritative(q);
  }

  // ------------------------------------------- a reconcile of another plan

  /** Recovery of a one-row burst in which a reconcile of a two-row burst comes before the right one. */
  function StrayCalls(d: Digest): (calls: seq<R.Timed>)
    ensures |calls| == 6
  {
    CallsWith(FullAsk(d, Burst(2)), d, Burst(1), Snapshotted(), RestoreFacts(), 3)[..4]
    + [R.Timed(Reconcile(FullAsk(d, Burst(1))), 3), R.Timed(Promote(true, "owner", "reference"), 3)]
  }

  lemma BurstNested(n: nat, k: Id)
    requires k in ReplayTable(Burst(n))
    ensures k in ReplayTable(Burst(n + 1)) && ReplayTable(Burst(n + 1))[k] == ReplayTable(Burst(n))[k]
  {
    BurstGrows(n);
    LiveRow(n, k);
    hide ById, LiveRows;
    assert |Row(n).id| == n + 3;
  }

  /** The one row more is in the larger burst's table only. */
  lemma BurstDiffers(d: Digest, n: nat)
    ensures Authoritative(Burst(n + 1)) != Authoritative(Burst(n))
  {
    var k, big, small := Row(n).id, Burst(n + 1), Burst(n);
    BurstGrows(n);
    assert |k| == n + 3;
    hide ById, LiveRows;
    assert k in big.Live() && big.Live()[k] == Row(n);
    if k in big.Base() { RestoredRow(k); assert false; }
    InReplayTable(big, k);
    assert k in Authoritative(big);
    if k in small.Live() { LiveRow(n, k); assert false; }
    assert k !in Authoritative(small);
  }

  /** A full ask for the smaller burst over the larger one's table completes and stores nothing. */
  lemma SmallAskOverLarge(d: Digest)
    ensures var req := RequestFor(FullAsk(d, Burst(1)), 3, 3);
            var out := ReplayOutcome(req, Authoritative(Burst(2)));
            out.result.Ok? && out.result.value.Complete() && out.table == Authoritative(Burst(2))
  {
    hide PlanOf, ById, LiveRows, Snapshotted, ReplayOutcome, Authoritative, ReplayTable, Replayable;
    var q, t := Burst(1), Authoritative(Burst(2));
    var req := RequestFor(FullAsk(d, q), 3, 3);
    BurstSafe(d, 1);
    BurstSize(d, 0);
    forall k | k in req.plan.replayIds ensures Settleable(req, k, t) && k in t { SmallRowStored(d, k); }
    CompletesExactlyWhen(req, t);
    CalmCompleteTable(req, t);
    NothingMissing(req, t);
  }

  lemma SmallRowStored(d: Digest, k: Id)
    requires k in PlanOf(d, Burst(1)).replayIds
    ensures var c, t := ById(FullAsk(d, Burst(1)).candidates), Authoritative(Burst(2)); k in c && k in t && t[k] == c[k]
  {
    hide PlanOf, ById, LiveRows, Snapshotted;
    BurstSafe(d, 1);
    ReplayMembers(d, Burst(1), k);
    InReplayTable(Burst(1), k);
    BurstNested(1, k);
  }

  lemma NothingMissing(req: Request, t: Table)
    requires forall k | k in req.plan.replayIds :: k in t
    ensures t + MissingRows(req, t) == t
  {
    hide ById;
  }

  lemma StrayShape(d: Digest)
    ensures var calls := StrayCalls(d);
            && calls[..3] == CallsWith(FullAsk(d, Burst(2)), d, Burst(1), Snapshotted(), RestoreFacts(), 3)[..3]
            && calls[3] == R.Timed(Reconcile(FullAsk(d, Burst(2))), 3)
            && calls[4] == R.Timed(Reconcile(FullAsk(d, Burst(1))), 3)
            && calls[5] == R.Timed(Promote(true, "owner", "reference"), 3)
  {
    hide FullAsk, Burst, RestoreFacts, Snapshotted, PlanOf, CompareDatasets;
  }

  lemma LastThree(h: Hasher, w0: World, calls: seq<R.Timed>)
    requires |calls| == 6
    ensures var w4 := Step(h, R.Run(h, w0, calls[..3]), calls[3].call, calls[3].now).world;
            var w5 := Step(h, w4, calls[4].call, calls[4].now).world;
            R.Run(h, w0, calls) == Step(h, w5, calls[5].call, calls[5].now).world
  {
    hide Step, R.Run;
    RunNext(h, w0, calls, 3);
    RunNext(h, w0, calls, 4);
    RunNext(h, w0, calls, 5);
    assert calls[..6] == calls;
  }

  /** Passing the recorded plan last is not enough: a two-row reconcile stores a row that the recorded one-row
      plan does not know, the right reconcile then completes, and the incident is promoted with a target
      that is not its plan's authoritative table. */
  lemma PromotedOverStrayRow(h: Hasher, d: Digest, provenance: Provenance)
    ensures var end := R.Run(h, R.Start(h, CorruptionAt3(provenance)), StrayCalls(d));
            && end.inc.state == RecoveryActive && end.inc.reconciliation.Some?
            && end.inc.reconciliation.value.plan == PlanOf(d, Burst(1))
            && end.target == Authoritative(Burst(2)) != Authoritative(Burst(1))
  {
    hide *;
    var b, w0 := CorruptionAt3(provenance), R.Start(h, CorruptionAt3(provenance));
    var plan, first, second := PlanOf(d, Burst(1)), FullAsk(d, Burst(2)), FullAsk(d, Burst(1));
    BurstSafe(d, 1);
    BurstSafe(d, 2);
    BurstSize(d, 1);
    BurstBirth(provenance, 1);
    BurstBirth(provenance, 2);
    RestoreProven();
    ValidatedRun(h, d, Burst(1), b, Snapshotted(), RestoreFacts(), first);
    StrayShape(d);
    LastThree(h, w0, StrayCalls(d));
    var w3 := R.Run(h, w0, StrayCalls(d)[..3]);
    FullAskCompletes(d, Burst(2), 3, 3);
    SmallAskOverLarge(d);
    AskApproved(d, Burst(2));
    StrayReconcile(h, w3, first, plan);
    var w4 := Step(h, w3, Reconcile(first), 3).world;
    AskApproved(d, Burst(1));
    PromotedRun(h, w4, second, plan, 3, 3);
    BurstDiffers(d, 1);
  }

  lemma AskApproved(d: Digest, q: Inputs)
    ensures FullAsk(d, q).approved
  {}

  lemma StrayReconcile(h: Hasher, w: World, ask: Ask, plan: Plan)
    requires Promotable(w.inc, plan) && w.inc.validationCompletedAt == Some(3) && ask.approved
    requires ReplayOutcome(RequestFor(ask, 3, 3), w.target).result.Ok?
    ensures var out := Step(h, w, Reconcile(ask), 3).world;
            && Promotable(out.inc, plan) && out.inc.validationCompletedAt == Some(3)
            && out.target == ReplayOutcome(RequestFor(ask, 3, 3), w.target).table
  {
    hide *;
    ReconcileCall(h, w, ask, plan, 3);
    ReconcileKeepsInstant(h, w, ask, 3);
  }

  lemma ReconcileKeepsInstant(h: Hasher, w: World, ask: Ask, now: Time)
    ensures Step(h, w, Reconcile(ask), now).world.inc.validationCompletedAt == w.inc.validationCompletedAt
  {
    hide ReplayOutcome;
  }

  // --------------------------------------------------- drills that go on

  /** Resuming after the one row of a burst was replayed: the comparison with the snapshot fails on every
      pair of scans, whatever the digest. */
  lemma ResumedTwiceRefused(d: Digest, expected: seq<Transaction>, rows: seq<Transaction>)
    requires Scans(expected, Burst(1).Base()) && Scans(rows, After([BurstAttempt(d, 1)], Burst(1).Base()))
    ensures !CompareDatasets(d, expected, rows).ExactMatch()
  {
    hide PlanOf, ById, LiveRows, Snapshotted, ReplayOutcome, CompareDatasets, Authoritative, DrillAttempt;
    var q, runs := Burst(1), [BurstAttempt(d, 1)];
    BurstSafe(d, 1);
    BurstSize(d, 0);
    BurstAttempted(d, 1);
    FullAskCompletes(d, q, 2, 2);
    MoreThanBase(d, q);
    OneRun(BurstAttempt(d, 1), q.Base());
    AttemptOfPlan(BurstAttempt(d, 1), d, q);
    RunsStayBetween(d, q, runs, q.Base());
    NothingStoredYet(d, q, After(runs, q.Base()));
    assert runs + [] == runs;
    assert After([], After(runs, q.Base())) == After(runs, q.Base());
    ResumeAgainExactlyWhile(d, q, expected, runs, rows, [], rows);
  }

  lemma OneRun(req: Request, t: Table)
    ensures After([req], t) == ReplayOutcome(req, t).table
  {
    hide ReplayOutcome;
    assert [req][..0] == [] && After([], t) == t;
  }

  lemma AttemptOfPlan(req: Request, d: Digest, q: Inputs)
    requires DrillAttempt(req, d, q)
    ensures RunOfPlan(req, d, q)
  {}

  /** The whole drill on a burst of up to 25 rows and a quiet table, after any failed repairs: it goes
      through, and the final test passes on every pair of scans. */
  lemma BurstDrillSucceeds(d: Digest, n: nat, failed: seq<RepairFaults>, items: seq<Transaction>,
                           authoritative: seq<Transaction>)
    requires n < 25
    requires var attempts := QuietAttempts(failed) + [Attempt(NO_FAULTS, NOBODY)];
             Scans(items, AfterAttempts(Faults(Deleted(), Corrupted()), MARKER, attempts, Burst(n + 1).Live()))
    requires Scans(authoritative, ReplayOutcome(BurstAttempt(d, n + 1), Burst(n + 1).Base()).table)
    ensures Returned(Faults(Deleted(), Corrupted()), MARKER, QuietAttempts(failed) + [Attempt(NO_FAULTS, NOBODY)],
                     Burst(n + 1).Live())
    ensures CountAndChecksum(d, items, authoritative)
  {
    hide PlanOf, ById, LiveRows, Snapshotted, ReplayOutcome, DrillAttempt, ClassifyFaults, Undisturbed, AfterAttempts,
         CountAndChecksum, Returned, RunOfPlan;
    var q, f := Burst(n + 1), Faults(Deleted(), Corrupted());
    BurstSafe(d, n + 1);
    BurstSize(d, n);
    BurstFaults(n + 1);
    BurstAttempted(d, n + 1);
    AttemptOfPlan(BurstAttempt(d, n + 1), d, q);
    FullAskCompletes(d, q, 2, 2);
    QuietIsUndisturbed(f, MARKER, failed + [NO_FAULTS], q.Live());
    assert QuietAttempts(failed + [NO_FAULTS]) == QuietAttempts(failed) + [Attempt(NO_FAULTS, NOBODY)];
    DeletedGone(n + 1);
    assert After([], q.Base()) == q.Base();
    WithinItself(q.Live());
    DrillSucceeds(d, q, q.Live(), f, MARKER, [], BurstAttempt(d, n + 1), QuietAttempts(failed), NOBODY, items,
                  authoritative);
  }

  lemma DeletedGone(n: nat)
    ensures Deleted().id !in Burst(n).Live()
  {
    hide ById, LiveRows;
    if Deleted().id in Burst(n).Live() { LiveRow(n, Deleted().id); assert false; }
  }

  // ------------------------------------------------------- late calls

  /** After the promotion of a one-row burst: a validation that fails a gate, and a refused restart. */
  function LateCalls(): seq<R.Timed> {
    [R.Timed(RecordValidation(Comparison(0, 0, [], [], "", "", None),
                              SuppliedGates(false, true, true, true, true, true), None), 4),
     R.Timed(StartRecovery(Some(-1)), 4)]
  }

  lemma LateCallsStayActive(h: Hasher, w: World)
    requires w.inc.state == RecoveryActive && w.inc.scenario == LogicalCorruption && w.inc.reconciliation.Some?
    ensures var one := Step(h, w, LateCalls()[0].call, 4);
            var two := Step(h, one.world, LateCalls()[1].call, 4);
            && one.error.Some? && two.error.Some? && two.world.inc.state == RecoveryActive
            && two.world.inc.reconciliation == w.inc.reconciliation
  {
    hide Logged, ValidationFor;
  }

  /** A promoted incident whose stored validation failed, and whose recovery point is not the one its
      recorded plan was computed for: two calls after promotion raise and change both. */
  lemma PromotedWithFailedValidation(h: Hasher, d: Digest, provenance: Provenance)
    ensures var b := CorruptionAt3(provenance);
            var calls := RecoveryCalls(d, Burst(1), Snapshotted(), RestoreFacts(), 3) + LateCalls();
            var s := R.Run(h, R.Start(h, b), calls).inc;
            && s.state == RecoveryActive && s.validation.Some? && !s.validation.value.Passed()
            && s.reconciliation.Some? && s.recoveryPoint == Some(-1)
            && s.reconciliation.value.plan.recoveryPoint == 0
  {
    hide PlanOf, R.Run, R.Start, RecoveryCalls, Step, LastValidation, LastPoint, LateCalls, RestoreFacts, LiveRows,
         Snapshotted;
    var b, first := CorruptionAt3(provenance), RecoveryCalls(d, Burst(1), Snapshotted(), RestoreFacts(), 3);
    LastOfAll(b, first);
    BurstPromoted(h, d, provenance, 0);
    R.IdentityKept(h, b, first);
    LateCallsStayActive(h, R.Run(h, R.Start(h, b), first));
    LateRun(h, R.Start(h, b), first);
    hide ValidationResult.Passed;
    StoredValidationExactlyWhen(h, b, first + LateCalls());
    StoredPointIsLast(h, b, first + LateCalls());
  }

  lemma BurstPoint(d: Digest, n: nat)
    ensures PlanOf(d, Burst(n)).recoveryPoint == 0
  {}

  lemma BurstBirth(provenance: Provenance, n: nat)
    ensures var b, q := CorruptionAt3(provenance), Burst(n);
            && b.scenario == LogicalCorruption && q.point < b.failureAt && b.target == q.Base() && b.movedAt == 3
            && UniqueIds(Snapshotted()) && ById(Snapshotted()) == q.Base()
  {
    hide ById, LiveRows;
    RowsApart(n);
  }

  lemma BurstPromoted(h: Hasher, d: Digest, provenance: Provenance, n: nat)
    requires n < 25
    ensures var b, first := CorruptionAt3(provenance), RecoveryCalls(d, Burst(n + 1), Snapshotted(), RestoreFacts(), 3);
            var s := R.Run(h, R.Start(h, b), first).inc;
            && s.state == RecoveryActive && Acceptance.RecordOk(s)
            && s.reconciliation.Some? && s.reconciliation.value.plan.recoveryPoint == 0
  {
    hide *;
    BurstSafe(d, n + 1);
    BurstSize(d, n);
    BurstPoint(d, n + 1);
    BurstBirth(provenance, n + 1);
    RestoreProven();
    SafePlanCanBePromoted(h, d, Burst(n + 1), CorruptionAt3(provenance), Snapshotted(), RestoreFacts());
  }

  lemma LateRun(h: Hasher, w: World, first: seq<R.Timed>)
    ensures var one := Step(h, R.Run(h, w, first), LateCalls()[0].call, 4).world;
            R.Run(h, w, first + LateCalls()) == Step(h, one, LateCalls()[1].call, 4).world
  {
    hide Step;
    var n, calls := |first|, first + LateCalls();
    RunNext(h, w, calls, n);
    RunNext(h, w, calls, n + 1);
    assert calls[..n] == first && calls[..n + 2] == calls;
  }

  lemma LastOfAll(b: R.Birth, first: seq<R.Timed>)
    requires b.scenario == LogicalCorruption && b.failureAt == 3
    ensures var calls := first + LateCalls();
            && LastValidation(calls).Some? && !BringsPass(LastValidation(calls).value)
            && LastPoint(b, calls) == Some(-1)
  {
    var calls := first + LateCalls();
    var front := calls[..|calls| - 1];
    assert front == first + [LateCalls()[0]] && front[|front| - 1] == LateCalls()[0];
    assert calls[|calls| - 1] == LateCalls()[1];
  }

  /** A promoted incident recorded under somebody who did not approve it: a second promotion, refused because
      the incident is already active, has replaced the owner and the reference. */
  lemma RenamedByRefusedPromotion(h: Hasher, d: Digest, provenance: Provenance)
    ensures var b, first := CorruptionAt3(provenance), RecoveryCalls(d, Burst(1), Snapshotted(), RestoreFacts(), 3);
            var w := R.Run(h, R.Start(h, b), first);
            var out := Step(h, w, Promote(true, "other", "later"), 4);
            && w.inc.state == RecoveryActive && w.inc.approver == Some("owner")
            && out.error.Some? && out.world.inc.state == RecoveryActive
            && out.world.inc.approver == Some("other") && out.world.inc.approvalReference == Some("later")
  {
    hide *;
    var b, first := CorruptionAt3(provenance), RecoveryCalls(d, Burst(1), Snapshotted(), RestoreFacts(), 3);
    BurstPromoted(h, d, provenance, 0);
    var w := R.Run(h, R.Start(h, b), first);
    Acceptance.PromoteExactly(h, w, true, "other", "later", 4);
    Acceptance.SignedTells(w.inc, "other", "later");
    OwnerApproved(h, d, provenance);
  }

  lemma OwnerApproved(h: Hasher, d: Digest, provenance: Provenance)
    ensures var b, first := CorruptionAt3(provenance), RecoveryCalls(d, Burst(1), Snapshotted(), RestoreFacts(), 3);
            R.Run(h, R.Start(h, b), first).inc.approver == Some("owner")
  {
    OnlyOwnerCalls(d);
    hide *;
    BurstPromoted(h, d, provenance, 0);
    OnlyOwner(h, CorruptionAt3(provenance), RecoveryCalls(d, Burst(1), Snapshotted(), RestoreFacts(), 3));
  }

  /** A run of five calls that ends active and whose only promotion is the owner's is recorded under him. */
  lemma OnlyOwner(h: Hasher, b: R.Birth, first: seq<R.Timed>)
    requires |first| == 5 && first[4].call == Promote(true, "owner", "reference")
    requires forall j | 0 <= j < 4 :: !first[j].call.Promote?
    requires R.Run(h, R.Start(h, b), first).inc.state == RecoveryActive
    ensures R.Run(h, R.Start(h, b), first).inc.approver == Some("owner")
  {
    StageOfActive();
    hide R.Run, R.Start, Acceptance.RecordOk, Acceptance.LastOwner, R.Stage;
    var i := Acceptance.PromotedByOwner(h, b, first);
    OwnerOfFive(h, b, first, i);
    Acceptance.StoredOwnerIsLast(h, b, first);
  }

  lemma StageOfActive()
    ensures R.Stage(RecoveryActive) >= 4
  {}

  lemma OnlyOwnerCalls(d: Digest)
    ensures var first := RecoveryCalls(d, Burst(1), Snapshotted(), RestoreFacts(), 3);
            |first| == 5 && first[4].call == Promote(true, "owner", "reference")
            && forall j | 0 <= j < 4 :: !first[j].call.Promote?
  {
    hide PlanOf, CompareDatasets, Burst, Snapshotted, RestoreFacts;
  }

  lemma OwnerOfFive(h: Hasher, b: R.Birth, first: seq<R.Timed>, i: nat)
    requires |first| == 5 && first[4].call == Promote(true, "owner", "reference")
    requires forall j | 0 <= j < 4 :: !first[j].call.Promote?
    requires i < |first| && first[i].call.Promote? && Acceptance.RecordOk(R.Run(h, R.Start(h, b), first[..i]).inc)
    ensures Acceptance.LastOwner(h, b, first) == Some(("owner", "reference"))
  {
    hide R.Run, R.Start, Acceptance.RecordOk;
  }
}
