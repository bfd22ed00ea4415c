/** The corruption drill end to end: replay and repair make live data equal the reconciled target, and
    what resuming from the checkpoint can and cannot do. */
module Drill {
  import opened Prelude
  import opened Domain
  import opened Ordering
  import opened Datasets
  import opened Planner
  import opened Replay
  import opened ReplayRuns
  import opened Repair

  // ----------------------------------------------------- end to end

  /** The plan's scope when the corrupt set is the two classified keys, both in the restore. */
  ghost predicate RepairScope(h: Digest, q: Inputs, f: Faults) {
    && q.Valid() && q.corrupt == {f.deleted.id, f.corrupted.id} && f.deleted.id != f.corrupted.id
    && f.deleted.id in q.Base() && q.Base()[f.deleted.id] == f.deleted
    && f.corrupted.id in q.Base() && q.Base()[f.corrupted.id] == f.corrupted
    && PlanOf(h, q).SafeToPromote()
  }

  /** Live rows after repair equal the authoritative target exactly when every other restored id
      was still live: the repair cannot bring back a third missing row. */
  lemma RepairedEqualsTargetIff(h: Digest, q: Inputs, f: Faults)
    requires RepairScope(h, q, f)
    ensures Restored(q.Live(), f) == Authoritative(q) <==>
              forall k | k in q.Base() && k !in q.corrupt :: k in q.Live()
  {
    hide PlanOf;
    SafeIsReconcilable(h, q);
    var T, L := Authoritative(q), Restored(q.Live(), f);
    RepairedWithinTarget(h, q, f);
    if forall k | k in q.Base() && k !in q.corrupt :: k in q.Live() {
      forall k ensures k in L <==> k in T {
        assert k in T <==> k in q.Base() || k in ReplayTable(q);
        assert k in ReplayTable(q) ==> k in q.Live();
      }
    }
    if L == T {
      forall k | k in q.Base() && k !in q.corrupt ensures k in q.Live() { assert k in T; }
    }
  }

  lemma RepairedWithinTarget(h: Digest, q: Inputs, f: Faults)
    requires RepairScope(h, q, f)
    ensures Within(Restored(q.Live(), f), Authoritative(q))
  {
    hide PlanOf;
    SafeIsReconcilable(h, q);
    var T, L := Authoritative(q), Restored(q.Live(), f);
    forall k | k in L ensures k in T && T[k] == L[k] {
      if k in q.corrupt {
        assert k !in ReplayTable(q);
      } else {
        assert k in q.Live() && L[k] == q.Live()[k];
        assert k in q.Base() || Replayable(q, k);
      }
    }
  }

  /** Nobody else wrote either key during the attempts, and what others did to other keys came to nothing
      in the end: in particular, a quiet table. */
  ghost predicate Undisturbed(f: Faults, marker: string, attempts: seq<Attempt>, live: Table) {
    && (forall a | a in attempts :: LeaveAlone(a.others, f))
    && Background(f, marker, attempts, live) == live
  }

  lemma QuietIsUndisturbed(f: Faults, marker: string, envs: seq<RepairFaults>, live: Table)
    ensures Undisturbed(f, marker, QuietAttempts(envs), live)
  {
    QuietBackground(f, marker, envs, live);
  }

  /** The last attempt returned. */
  ghost predicate Returned(f: Faults, marker: string, attempts: seq<Attempt>, live: Table) {
    && attempts != []
    && var k := |attempts| - 1;
       RepairOutcome(f, marker, attempts[k].env, attempts[k].others,
                     AfterAttempts(f, marker, attempts[..k], live)).result.Ok?
  }

  lemma ReturnedLeavesRestored(f: Faults, marker: string, attempts: seq<Attempt>, live: Table)
    requires f.deleted.id != f.corrupted.id
    requires Undisturbed(f, marker, attempts, live) && Returned(f, marker, attempts, live)
    ensures AfterAttempts(f, marker, attempts, live) == Restored(live, f)
  {
    hide RepairOutcome, AfterAttempts, Background, LeaveAlone, Restored;
    RetriedRepairRestores(f, marker, attempts, live);
  }

  /** Agreement of the whole recovery: replay runs against the restore end in a complete result, and
      repair attempts against live rows end in one that returns. */
  lemma EndToEndAgreement(h: Digest, q: Inputs, f: Faults, marker: string,
                          replays: seq<Request>, last: Request, attempts: seq<Attempt>)
    requires RepairScope(h, q, f) && Undisturbed(f, marker, attempts, q.Live())
    requires RunOfPlan(last, h, q) && forall req | req in replays :: RunOfPlan(req, h, q)
    ensures var replayed := ReplayOutcome(last, After(replays, q.Base()));
            replayed.result.Ok? && replayed.result.value.Complete() && Returned(f, marker, attempts, q.Live()) ==>
              (AfterAttempts(f, marker, attempts, q.Live()) == replayed.table <==>
                 forall k | k in q.Base() && k !in q.corrupt :: k in q.Live())
  {
    hide PlanOf, ReplayOutcome, AfterAttempts, After, Authoritative, Undisturbed, Returned, RunOfPlan, ById, Restored;
    var replayed := ReplayOutcome(last, After(replays, q.Base()));
    if replayed.result.Ok? && replayed.result.value.Complete() && Returned(f, marker, attempts, q.Live()) {
      ReplayWithin(q);
      RunsStayBetween(h, q, replays, q.Base());
      CompleteReachesAuthoritative(h, q, last, After(replays, q.Base()));
      ReturnedLeavesRestored(f, marker, attempts, q.Live());
      RepairedEqualsTargetIff(h, q, f);
    }
  }

  /** The drill's final test over one scan of each table. */
  predicate CountAndChecksum(h: Digest, items: seq<Transaction>, authoritative: seq<Transaction>) {
    |items| == |authoritative| && DatasetChecksum(h, items) == DatasetChecksum(h, authoritative)
  }

  /** From checkpoint to final test: the failed-run check passed on `checkpoint`, and until the planning
      scan live rows were only added. Then a fault-free repair returns after any failed ones, and the
      count-and-checksum test succeeds on every pair of scans. */
  lemma DrillSucceeds(h: Digest, q: Inputs, checkpoint: Table, f: Faults, marker: string,
                      replays: seq<Request>, last: Request, failed: seq<Attempt>, o: Others,
                      items: seq<Transaction>, authoritative: seq<Transaction>)
    requires ClassifyFaults(q.restored, checkpoint, marker) == Ok(f)
    requires q.Valid() && Within(checkpoint, q.Live()) && f.deleted.id !in q.Live()
    requires q.corrupt == {f.deleted.id, f.corrupted.id} && PlanOf(h, q).SafeToPromote()
    requires RunOfPlan(last, h, q) && forall req | req in replays :: RunOfPlan(req, h, q)
    requires var out := ReplayOutcome(last, After(replays, q.Base())); out.result.Ok? && out.result.value.Complete()
    requires Undisturbed(f, marker, failed + [Attempt(NO_FAULTS, o)], q.Live())
    requires Scans(items, AfterAttempts(f, marker, failed + [Attempt(NO_FAULTS, o)], q.Live()))
    requires Scans(authoritative, ReplayOutcome(last, After(replays, q.Base())).table)
    ensures Returned(f, marker, failed + [Attempt(NO_FAULTS, o)], q.Live())
    ensures ById(items) == ById(authoritative) && CountAndChecksum(h, items, authoritative)
  {
    hide PlanOf, ReplayOutcome, AfterAttempts, After, Authoritative, ClassifyFaults, Returned, RunOfPlan, ById;
    FaultCheckExact(q.restored, checkpoint, marker, f);
    LastReturns(f, marker, failed, o, q.Live());
    EndToEndAgreement(h, q, f, marker, replays, last, failed + [Attempt(NO_FAULTS, o)]);
    CanonicalForm(items, authoritative);
    SameTableSameCount(items, authoritative);
  }

  lemma LastReturns(f: Faults, marker: string, failed: seq<Attempt>, o: Others, live: Table)
    requires f.deleted.id != f.corrupted.id && Undisturbed(f, marker, failed + [Attempt(NO_FAULTS, o)], live)
    requires f.deleted.id !in live && f.corrupted.id in live && live[f.corrupted.id].payload == marker
    ensures Returned(f, marker, failed + [Attempt(NO_FAULTS, o)], live)
  {
    hide RepairOutcome, AfterAttempts, Background, LeaveAlone;
    var all := failed + [Attempt(NO_FAULTS, o)];
    assert all[..|all| - 1] == failed && all[|all| - 1] in all;
    assert forall a | a in failed :: a in all;
    RepairReturnsExactlyWhen(f, marker, failed, o, live);
  }

  /** Conversely the test cannot pass on different tables without a digest collision. */
  lemma FinalTestMeansEqual(h: Digest, items: seq<Transaction>, authoritative: seq<Transaction>)
    requires UniqueIds(items) && UniqueIds(authoritative) && CountAndChecksum(h, items, authoritative)
    ensures |items| == |authoritative|
    ensures ById(items) == ById(authoritative) || Collision(h, Canonical(items), Canonical(authoritative))
  {
    ChecksumDecides(h, items, authoritative);
  }

  // ------------------------------------------------- does the drill fit one batch?

  ghost function PostPoint(t: Table, point: Time): set<Id> { set k | k in t && t[k].timestamp > point }

  lemma ConcurrentCount(live: seq<Transaction>, point: Time)
    requires UniqueIds(live)
    ensures |NewerThan(point, live)| == |PostPoint(ById(live), point)|
  {
    var rows := NewerThan(point, live);
    NewerThanUnique(point, live);
    ByIdUnique(live);
    IdsOfMembers(rows);
    DistinctCount(IdsOf(rows));
    assert (set k | k in IdsOf(rows)) == PostPoint(ById(live), point);
  }

  /** The live table is the checkpoint's plus the one row that resuming writes before it plans; declared
      corrupt rows are not newer than the point. */
  ghost predicate ResumedFrom(q: Inputs, checkpoint: seq<Transaction>, validation: Transaction) {
    && UniqueIds(checkpoint)
    && validation.id !in ById(checkpoint) && validation.id !in q.corrupt && q.point < validation.timestamp
    && q.Live() == ById(checkpoint)[validation.id := validation]
    && forall k | k in q.corrupt && k in q.Live() :: q.Live()[k].timestamp <= q.point
  }

  lemma OneMoreThanCounted(h: Digest, q: Inputs, checkpoint: seq<Transaction>, validation: Transaction)
    requires q.Valid() && PlanOf(h, q).SafeToPromote() && ResumedFrom(q, checkpoint, validation)
    ensures |PlanOf(h, q).replayIds| == |NewerThan(q.point, checkpoint)| + 1
  {
    hide PlanOf, NewerThan, ById;
    var ids := PlanOf(h, q).replayIds;
    ReplayIdsAscending(h, q);
    DistinctCount(ids);
    SafePlanCharacterised(h, q);
    assert (set k | k in ids) == PostPoint(q.Live(), q.point);
    assert PostPoint(q.Live(), q.point) == PostPoint(ById(checkpoint), q.point) + {validation.id};
    ConcurrentCount(checkpoint, q.point);
  }

  /** The drill's one full attempt: approved, in one batch of 25, with every candidate, failing nowhere. */
  ghost predicate DrillAttempt(req: Request, h: Digest, q: Inputs) {
    && RunOfPlan(req, h, q) && Refusal(req).None? && !req.dryRun && req.approved && FaultFree(req.turns)
    && req.batchSize == 25 && forall k | k in req.plan.replayIds :: k in req.Candidates()
  }

  /** The checkpoint admits up to 25 concurrent rows, but resuming first writes one more row. The
      plan then asks for one id more than the checkpoint counted, so a full attempt in one batch of
      25 completes exactly when the checkpoint counted at most 24. */
  lemma ResumeFitsBatch(h: Digest, q: Inputs, checkpoint: seq<Transaction>, validation: Transaction,
                        req: Request, t: Table)
    requires q.Valid() && PlanOf(h, q).SafeToPromote() && ResumedFrom(q, checkpoint, validation)
    requires DrillAttempt(req, h, q) && Between(q, t)
    ensures var out := ReplayOutcome(req, t).result;
            out.Ok? && (out.value.Complete() <==> |NewerThan(q.point, checkpoint)| <= 24)
  {
    hide PlanOf, ReplayOutcome, NewerThan, Settleable, ResumedFrom, Between, ById;
    OneMoreThanCounted(h, q, checkpoint, validation);
    ReplaySettleable(h, q, req, t);
    BenignAgrees(h, q, req);
    CompletesExactlyWhen(req, t);
  }

  // --------------------------------------------------- resuming again

  lemma NothingStoredYet(h: Digest, q: Inputs, now: Table)
    requires q.Valid() && Between(q, now)
    ensures (forall k | k in PlanOf(h, q).replayIds :: k !in now) <==> now == q.Base()
  {
    hide PlanOf, ById, Replayable;
    forall k ensures k in PlanOf(h, q).replayIds <==> k in ReplayTable(q) {
      ReplayMembers(h, q, k);
      InReplayTable(q, k);
    }
    forall k | k in ReplayTable(q) ensures k !in q.Base() { InReplayTable(q, k); }
    SameUnlessMore(q, now);
    hide ReplayTable;
    assert forall k | k in now :: k in q.Base() || k in ReplayTable(q);
  }

  lemma InReplayTable(q: Inputs, k: Id)
    ensures Replayable(q, k) <==> k in ReplayTable(q)
    ensures k in ReplayTable(q) ==> k !in q.Base()
  {}

  /** A row more shows as an unexpected key, whatever the digest. */
  lemma ExtraRowShows(h: Digest, expected: seq<Transaction>, rows: seq<Transaction>, k: Id)
    requires k in ById(rows) && k !in ById(expected)
    ensures !CompareDatasets(h, expected, rows).ExactMatch()
  {
    hide ById, SortedSet, Sort, StrLt, Canonical, Newest;
    IdsOfTable(rows, k);
    IdsOfTable(expected, k);
    var extra := Without(IdsOf(rows), IdsOf(expected));
    assert k in extra;
    SortedSetElements(extra);
  }

  lemma IdsOfTable(rows: seq<Transaction>, k: Id)
    ensures k in IdsOf(rows) <==> k in ById(rows)
  {
    hide ById;
    ByIdKeyed(rows);
    IdsOfMembers(rows);
  }

  lemma SameUnlessMore(q: Inputs, now: Table)
    requires Between(q, now)
    ensures now == q.Base() <==> forall k | k in now :: k in q.Base()
  {
    hide ById, ReplayTable;
    if forall k | k in now :: k in q.Base() {
      forall k ensures k in now <==> k in q.Base() {}
    }
  }

  lemma Stored(q: Inputs, now: Table) returns (k: Id)
    requires Between(q, now) && now != q.Base()
    ensures k in now && k !in q.Base()
  {
    hide ById;
    SameUnlessMore(q, now);
    k :| k in now && k !in q.Base();
  }

  /** Resuming first compares the target with the checkpoint's snapshot of the restore. After any replay
      runs of an earlier resume, however they ended, that check passes exactly while no planned row has
      been stored; so a resume that stopped after storing one can never be run again. */
  lemma ResumeAgainExactlyWhile(h: Digest, q: Inputs, expected: seq<Transaction>, runs: seq<Request>,
                                rows: seq<Transaction>, more: seq<Request>, later: seq<Transaction>)
    requires q.Valid() && Scans(expected, q.Base()) && forall req | req in runs + more :: RunOfPlan(req, h, q)
    requires Scans(rows, After(runs, q.Base())) && Scans(later, After(more, After(runs, q.Base())))
    ensures CompareDatasets(h, expected, rows).ExactMatch() <==>
              forall k | k in PlanOf(h, q).replayIds :: k !in After(runs, q.Base())
    ensures CompareDatasets(h, expected, later).ExactMatch() ==> CompareDatasets(h, expected, rows).ExactMatch()
  {
    hide PlanOf, ById, After, RunOfPlan, CompareDatasets;
    assert forall req | req in runs :: req in runs + more;
    assert forall req | req in more :: req in runs + more;
    ReplayWithin(q);
    RunsStayBetween(h, q, runs, q.Base());
    var now := After(runs, q.Base());
    NothingStoredYet(h, q, now);
    if now == q.Base() {
      ExactMatchMeansEqual(h, expected, rows);
    } else {
      var k := Stored(q, now);
      ExtraRowShows(h, expected, rows, k);
      EntriesNeverChange(more, now);
      ExtraRowShows(h, expected, later, k);
    }
  }
}
