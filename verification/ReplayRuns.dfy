/** What replay guarantees over whole sequences of runs, whatever fails and is retried. */
module ReplayRuns {
  import opened Prelude
  import opened Domain
  import opened Ordering
  import opened Datasets
  import opened Planner
  import opened Replay

  /** The target after a finite sequence of runs; refused and aborted runs are runs too. */
  function After(reqs: seq<Request>, t: Table): Table
    decreases |reqs|
  {
    if reqs == [] then t
    else ReplayOutcome(reqs[|reqs| - 1], After(reqs[..|reqs| - 1], t)).table
  }

  // ------------------------------------------------------- accounting

  function Rank(v: Verdict): nat {
    match v
    case Applied => 0
    case Idempotent => 1
    case Conflicting => 2
    case Failed => 3
    case Unlisted => 4
    case Aborted => 5
  }

  /** Occurrences of `k` among the ids whose verdict ranks below `n`. */
  function Tally(ids: seq<Id>, verdicts: seq<Verdict>, n: nat, k: Id): nat
    requires |verdicts| <= |ids|
    decreases |verdicts|
  {
    if verdicts == [] then 0
    else
      var m := |verdicts| - 1;
      Tally(ids, verdicts[..m], n, k) + if Rank(verdicts[m]) < n && ids[m] == k then 1 else 0
  }

  lemma {:induction false} TallySplits(ids: seq<Id>, verdicts: seq<Verdict>, v: Verdict, k: Id)
    requires |verdicts| <= |ids|
    ensures Tally(ids, verdicts, Rank(v) + 1, k) ==
              Tally(ids, verdicts, Rank(v), k) + multiset(Pick(ids, verdicts, v))[k]
    decreases |verdicts|
  {
    if verdicts != [] { TallySplits(ids, verdicts[..|verdicts| - 1], v, k); }
  }

  lemma {:induction false} TallyOfAll(ids: seq<Id>, verdicts: seq<Verdict>, n: nat, k: Id)
    requires |verdicts| <= |ids| && forall v | v in verdicts :: Rank(v) < n
    ensures Tally(ids, verdicts, n, k) == multiset(ids[..|verdicts|])[k]
    decreases |verdicts|
  {
    if verdicts != [] {
      var m := |verdicts| - 1;
      assert ids[..m + 1] == ids[..m] + [ids[m]];
      assert verdicts[m] in verdicts;
      TallyOfAll(ids, verdicts[..m], n, k);
    }
  }

  lemma {:induction false} TallyOfNone(ids: seq<Id>, verdicts: seq<Verdict>, k: Id)
    requires |verdicts| <= |ids|
    ensures Tally(ids, verdicts, 0, k) == 0
    decreases |verdicts|
  {
    if verdicts != [] { TallyOfNone(ids, verdicts[..|verdicts| - 1], k); }
  }

  lemma PickPartition(ids: seq<Id>, verdicts: seq<Verdict>, k: Id)
    requires |verdicts| <= |ids| && Unlisted !in verdicts && Aborted !in verdicts
    ensures multiset(ids[..|verdicts|])[k] ==
              multiset(Pick(ids, verdicts, Applied))[k] + multiset(Pick(ids, verdicts, Idempotent))[k] +
              multiset(Pick(ids, verdicts, Conflicting))[k] + multiset(Pick(ids, verdicts, Failed))[k]
  {
    hide Pick, Tally;
    TallyOfNone(ids, verdicts, k);
    TallySplits(ids, verdicts, Applied, k);
    TallySplits(ids, verdicts, Idempotent, k);
    TallySplits(ids, verdicts, Conflicting, k);
    TallySplits(ids, verdicts, Failed, k);
    TallyOfAll(ids, verdicts, 4, k);
  }

  lemma {:induction false} PickMembers(ids: seq<Id>, verdicts: seq<Verdict>, v: Verdict, k: Id)
    requires |verdicts| <= |ids|
    ensures k in Pick(ids, verdicts, v) <==> exists j :: 0 <= j < |verdicts| && verdicts[j] == v && ids[j] == k
  {
    if verdicts != [] {
      var n := |verdicts| - 1;
      PickMembers(ids, verdicts[..n], v, k);
      if k in Pick(ids, verdicts[..n], v) {
        var j :| 0 <= j < n && verdicts[..n][j] == v && ids[j] == k;
        assert verdicts[j] == v;
      }
      forall j | 0 <= j < n && verdicts[j] == v && ids[j] == k ensures k in Pick(ids, verdicts[..n], v) {
        assert verdicts[..n][j] == v;
      }
    }
  }

  lemma PickNone(ids: seq<Id>, verdicts: seq<Verdict>, v: Verdict)
    requires |verdicts| <= |ids|
    ensures Pick(ids, verdicts, v) == [] <==> v !in verdicts
  {}

  lemma VisitVerdict(req: Request, id: Id, turn: Turn, t: Table)
    ensures !req.dryRun ==> Visit(req, id, turn, t).verdict != Unlisted
    ensures req.dryRun || !req.approved ==> Visit(req, id, turn, t).verdict != Applied
  {
    hide ById;
  }

  lemma {:induction false} DriveVerdicts(req: Request, i: nat, t: Table)
    requires i <= req.Limit()
    ensures !req.dryRun ==> Unlisted !in Drive(req, i, t).verdicts
    ensures req.dryRun || !req.approved ==> Applied !in Drive(req, i, t).verdicts
    decreases req.Limit() - i
  {
    if i < req.Limit() {
      var v := Visit(req, req.Wanted()[i], TurnAt(req.turns, i), t);
      VisitVerdict(req, req.Wanted()[i], TurnAt(req.turns, i), t);
      hide Visit, ById;
      if v.verdict != Aborted { DriveVerdicts(req, i + 1, v.table); }
    }
  }

  lemma ListedTimes(req: Request, t: Table, k: Id)
    requires ReplayOutcome(req, t).result.Ok? && !req.dryRun
    ensures var r := ReplayOutcome(req, t).result.value;
            multiset(r.requestedIds)[k] ==
              multiset(r.appliedIds)[k] + multiset(r.idempotentIds)[k] +
              multiset(r.conflictIds)[k] + multiset(r.failedIds)[k]
  {
    hide Pick, Drive, Sort;
    var ids, p := req.Wanted(), Drive(req, 0, t);
    DriveVerdicts(req, 0, t);
    PickPartition(ids, p.verdicts, k);
    assert ids == ids[..req.Limit()] + ids[req.Limit()..];
  }

  lemma ListsSplitRequest(req: Request, t: Table)
    requires ReplayOutcome(req, t).result.Ok? && !req.dryRun
    ensures var r := ReplayOutcome(req, t).result.value;
            multiset(r.requestedIds) == multiset(r.appliedIds) + multiset(r.idempotentIds) +
                                        multiset(r.conflictIds) + multiset(r.failedIds)
  {
    hide Pick, Drive, Sort, StrLt;
    forall k { ListedTimes(req, t, k); }
  }

  lemma NoneFailedFits(req: Request, t: Table)
    requires ReplayOutcome(req, t).result.Ok? && ReplayOutcome(req, t).result.value.failedIds == []
    ensures |req.plan.replayIds| <= req.batchSize
  {
    SortElements(StrLt, Pick(req.Wanted(), Drive(req, 0, t).verdicts, Failed) + req.Wanted()[req.Limit()..]);
  }

  /** A non-dry run splits the requested ids, with multiplicity, among its four lists; so the
      set comparison in `complete` adds nothing, and a plan beyond the batch never completes. */
  lemma ReplayAccounting(req: Request, t: Table)
    requires ReplayOutcome(req, t).result.Ok?
    ensures var r := ReplayOutcome(req, t).result.value;
            && (!req.dryRun ==>
                  multiset(r.requestedIds) == multiset(r.appliedIds) + multiset(r.idempotentIds) +
                                              multiset(r.conflictIds) + multiset(r.failedIds))
            && (r.Complete() <==> !req.dryRun && req.approved && r.conflictIds == [] && r.failedIds == [])
            && (r.Complete() ==> |req.plan.replayIds| <= req.batchSize)
  {
    var r := ReplayOutcome(req, t).result.value;
    if !req.dryRun {
      ListsSplitRequest(req, t);
      if r.conflictIds == [] && r.failedIds == [] {
        SameMultisetSameSet(r.requestedIds, r.appliedIds + r.idempotentIds);
      }
    }
    if r.failedIds == [] { NoneFailedFits(req, t); }
  }

  lemma SameMultisetSameSet(xs: seq<Id>, ys: seq<Id>)
    requires multiset(xs) == multiset(ys)
    ensures (set k | k in xs) == (set k | k in ys)
  {
    assert forall k :: k in xs <==> k in multiset(xs);
    assert forall k :: k in ys <==> k in multiset(ys);
  }

  // ------------------------------------------------- refusals and faults

  predicate Named(name: Option<string>) { name.Some? && name.value != "" }

  /** A run is refused, with the target untouched, exactly for a batch size outside 1 to 25, a clock before
      the validation, or an approval without both names; any other error is a read that raised. */
  lemma RefusedExactlyWhen(req: Request, t: Table)
    ensures var out := ReplayOutcome(req, t);
            && (out.result.Err? && out.result.error != TargetFailed <==>
                  || req.batchSize < 1 || req.batchSize > 25 || req.executedAt < req.validationTimestamp
                  || (req.approved && !(Named(req.approver) && Named(req.approvalReference))))
            && (out.result.Err? && out.result.error != TargetFailed ==> out.table == t)
  {
    hide Drive, ResultOf;
  }

  /** A run that is not refused aborts exactly when the read of a visited id with a candidate raises. */
  lemma {:induction false} AbortsExactlyWhen(req: Request, i: nat, t: Table)
    requires i <= req.Limit()
    ensures Drive(req, i, t).aborted <==>
              exists j :: i <= j < req.Limit() && req.Wanted()[j] in req.Candidates() && TurnAt(req.turns, j).getRaises
    decreases req.Limit() - i
  {
    if i < req.Limit() {
      hide ById;
      var v := Visit(req, req.Wanted()[i], TurnAt(req.turns, i), t);
      if v.verdict != Aborted { AbortsExactlyWhen(req, i + 1, v.table); }
    }
  }

  lemma TargetFailedExactlyWhen(req: Request, t: Table)
    ensures ReplayOutcome(req, t).result == Err(TargetFailed) <==>
              && 1 <= req.batchSize <= 25 && req.validationTimestamp <= req.executedAt
              && (req.approved ==> Named(req.approver) && Named(req.approvalReference))
              && exists j :: && 0 <= j < req.Limit() && req.Wanted()[j] in req.Candidates()
                             && TurnAt(req.turns, j).getRaises
  {
    hide Drive, ResultOf;
    AbortsExactlyWhen(req, 0, t);
  }

  /** A put that raises, before or after its effect, and a confirming read that raises are reported failed. */
  lemma FaultReportedFailed(req: Request, id: Id, turn: Turn, t: Table)
    requires !req.dryRun && req.approved && id in req.Candidates() && !turn.getRaises
    requires id !in t && id !in turn.beforeGet
    requires turn.put != Smooth || (id in turn.beforePut && turn.regetRaises)
    ensures var v := Visit(req, id, turn, t);
            && v.verdict == Failed
            && (id in v.table <==> id in turn.beforePut || turn.put == RaiseAfterEffect)
  {
    hide ById;
  }

  /** A run without approval, or a dry one, stores nothing of its own: the target stays within whatever
      bounds it and the other writers. */
  lemma {:induction false} OnlyOthersWrite(req: Request, i: nat, t: Table, bound: Table)
    requires i <= req.Limit() && (req.dryRun || !req.approved)
    requires Within(t, bound) && Benign(req.turns, bound)
    ensures Within(Drive(req, i, t).table, bound)
    decreases req.Limit() - i
  {
    if i < req.Limit() {
      var v := Visit(req, req.Wanted()[i], TurnAt(req.turns, i), t);
      assert i < |req.turns| ==> req.turns[i] in req.turns;
      AbsorbBounded(t, TurnAt(req.turns, i).beforeGet, bound);
      hide Within, Absorb, ById;
      WithinEmpty(bound);
      if v.verdict != Aborted { OnlyOthersWrite(req, i + 1, v.table, bound); }
    }
  }

  lemma WithinEmpty(bound: Table)
    ensures Within(map[], bound)
  {}

  lemma {:induction false} PickDistinct(ids: seq<Id>, verdicts: seq<Verdict>, v: Verdict)
    requires |verdicts| <= |ids| && Distinct(ids)
    ensures Distinct(Pick(ids, verdicts, v))
    ensures forall k | k in Pick(ids, verdicts, v) :: exists j :: 0 <= j < |verdicts| && ids[j] == k
  {
    if verdicts != [] {
      var n := |verdicts| - 1;
      PickDistinct(ids, verdicts[..n], v);
      var front := Pick(ids, verdicts[..n], v);
      forall i | 0 <= i < |front| ensures front[i] != ids[n] { assert front[i] in front; }
      forall k | k in Pick(ids, verdicts, v) ensures exists j :: 0 <= j < |verdicts| && ids[j] == k {
        PickMembers(ids, verdicts, v, k);
      }
    }
  }

  /** The four lists of a result go upwards when the plan's ids are distinct, and the result carries the
      request's plan checksum, ids, instants, mode and names. */
  lemma ResultTells(req: Request, t: Table)
    requires ReplayOutcome(req, t).result.Ok? && Distinct(req.plan.replayIds)
    ensures var r := ReplayOutcome(req, t).result.value;
            && Upwards(r.appliedIds) && Upwards(r.idempotentIds) && Upwards(r.conflictIds) && Upwards(r.failedIds)
            && r.planChecksum == req.plan.checksum && r.requestedIds == req.plan.replayIds
            && r.validationTimestamp == req.validationTimestamp && r.executedAt == req.executedAt
            && r.dryRun == req.dryRun && r.approved == req.approved
            && r.approver == req.approver && r.approvalReference == req.approvalReference
  {
    hide Pick, Drive, Sort, StrLt, Upwards;
    var ids, verdicts := req.Wanted(), Drive(req, 0, t).verdicts;
    PickSorted(ids, verdicts, Applied);
    PickSorted(ids, verdicts, Idempotent);
    PickSorted(ids, verdicts, Conflicting);
    FailedDistinct(ids, verdicts, req.Limit());
    SortedDistinct(Pick(ids, verdicts, Failed) + ids[req.Limit()..]);
  }

  lemma PickSorted(ids: seq<Id>, verdicts: seq<Verdict>, v: Verdict)
    requires |verdicts| <= |ids| && Distinct(ids)
    ensures Upwards(Sort(StrLt, Pick(ids, verdicts, v)))
  {
    hide Pick, Distinct;
    PickDistinct(ids, verdicts, v);
    SortedDistinct(Pick(ids, verdicts, v));
  }

  lemma FailedDistinct(ids: seq<Id>, verdicts: seq<Verdict>, limit: nat)
    requires |verdicts| == limit <= |ids| && Distinct(ids)
    ensures Distinct(Pick(ids, verdicts, Failed) + ids[limit..])
  {
    hide Pick;
    PickDistinct(ids, verdicts, Failed);
    var front, rest := Pick(ids, verdicts, Failed), ids[limit..];
    forall i, j | 0 <= i < |front| && 0 <= j < |rest| ensures front[i] != rest[j] {
      assert front[i] in front;
      var k :| 0 <= k < |verdicts| && ids[k] == front[i];
      assert rest[j] == ids[limit + j];
    }
  }

  // --------------------------------------------------- dry-run forecast

  function Forecast(v: Verdict): Verdict { if v == Unlisted then Applied else v }

  lemma VisitForecast(dry: Request, go: Request, id: Id, t: Table, u: Table)
    requires dry.dryRun && !go.dryRun && go.approved && dry.candidates == go.candidates
    requires SameUnder(t, u, id)
    ensures var d, g := Visit(dry, id, CALM, t), Visit(go, id, CALM, u);
            && d.table == t && d.verdict != Aborted && g.verdict == Forecast(d.verdict)
            && SameElsewhere(t, d.table, id) && SameElsewhere(u, g.table, id)
  {
    hide ById;
    assert Absorb(t, map[]) == t && Absorb(u, map[]) == u;
  }

  /** Two tables hold the same under `k`. */
  ghost predicate SameUnder(t: Table, u: Table, k: Id) { (k in t <==> k in u) && (k in t ==> t[k] == u[k]) }

  ghost predicate SameElsewhere(t: Table, u: Table, id: Id) { forall k | k != id :: SameUnder(t, u, k) }

  ghost predicate AgreeFrom(ids: seq<Id>, i: nat, t: Table, u: Table) {
    forall j | i <= j < |ids| :: SameUnder(t, u, ids[j])
  }

  lemma AgreeOnwards(ids: seq<Id>, i: nat, t: Table, u: Table, t': Table, u': Table)
    requires Distinct(ids) && i < |ids| && AgreeFrom(ids, i, t, u)
    requires SameElsewhere(t, t', ids[i]) && SameElsewhere(u, u', ids[i])
    ensures AgreeFrom(ids, i + 1, t', u')
  {
    forall j | i + 1 <= j < |ids| ensures SameUnder(t', u', ids[j]) {
      assert SameUnder(t, u, ids[j]) && ids[j] != ids[i];
      assert SameUnder(t, t', ids[j]) && SameUnder(u, u', ids[j]);
    }
  }

  /** The loop on an undisturbed position. */
  lemma DriveStep(req: Request, i: nat, t: Table)
    requires i < req.Limit() && req.turns == [] && Visit(req, req.Wanted()[i], CALM, t).verdict != Aborted
    ensures var v := Visit(req, req.Wanted()[i], CALM, t);
            var rest := Drive(req, i + 1, v.table);
            Drive(req, i, t) == Progress(rest.table, [v.verdict] + rest.verdicts, rest.aborted)
  {
    hide Visit;
  }

  /** With distinct ids and no interference, the dry verdicts are the approved ones with
      "unlisted" in place of "applied", and the dry run leaves its table alone. */
  lemma {:induction false} DriveForecast(dry: Request, go: Request, i: nat, t: Table, u: Table)
    requires dry.dryRun && !go.dryRun && go.approved && dry.turns == go.turns == []
    requires dry.plan == go.plan && dry.candidates == go.candidates && dry.batchSize == go.batchSize
    requires Distinct(dry.plan.replayIds) && i <= dry.Limit()
    requires AgreeFrom(dry.Wanted(), i, t, u)
    ensures var d, g := Drive(dry, i, t), Drive(go, i, u);
            && !d.aborted && !g.aborted && d.table == t && |d.verdicts| == |g.verdicts|
            && forall j | 0 <= j < |d.verdicts| :: g.verdicts[j] == Forecast(d.verdicts[j])
    decreases dry.Limit() - i
  {
    if i < dry.Limit() {
      var id := dry.Wanted()[i];
      hide Visit, ById, Forecast, Drive;
      VisitForecast(dry, go, id, t, u);
      var vd, vg := Visit(dry, id, CALM, t), Visit(go, id, CALM, u);
      AgreeOnwards(dry.Wanted(), i, t, u, vd.table, vg.table);
      hide AgreeFrom, Distinct, SameUnder, SameElsewhere;
      DriveForecast(dry, go, i + 1, vd.table, vg.table);
      DriveStep(dry, i, t);
      DriveStep(go, i, u);
    }
  }

  lemma {:induction false} PickForecast(ids: seq<Id>, ds: seq<Verdict>, gs: seq<Verdict>)
    requires |ds| == |gs| <= |ids| && Applied !in ds
    requires forall j | 0 <= j < |ds| :: gs[j] == Forecast(ds[j])
    ensures Pick(ids, gs, Applied) == Pick(ids, ds, Unlisted)
    ensures Pick(ids, gs, Idempotent) == Pick(ids, ds, Idempotent)
    ensures Pick(ids, gs, Conflicting) == Pick(ids, ds, Conflicting)
    ensures Pick(ids, gs, Failed) == Pick(ids, ds, Failed)
  {
    if ds != [] {
      var n := |ds| - 1;
      assert ds[n] in ds;
      PickForecast(ids, ds[..n], gs[..n]);
    }
  }

  /** A dry run changes nothing; its lists are exactly those of the undisturbed approved run, and
      the ids it leaves out of every list are exactly the ones that run then applies. */
  lemma DryRunForecast(dry: Request, go: Request, t: Table)
    requires dry.dryRun && !go.dryRun && go.approved && dry.turns == go.turns == []
    requires dry.plan == go.plan && dry.candidates == go.candidates && dry.batchSize == go.batchSize
    requires Distinct(dry.plan.replayIds) && Refusal(dry).None? && Refusal(go).None?
    ensures var d, g := ReplayOutcome(dry, t), ReplayOutcome(go, t);
            && d.result.Ok? && g.result.Ok? && d.table == t
            && g.result.value.idempotentIds == d.result.value.idempotentIds
            && g.result.value.conflictIds == d.result.value.conflictIds
            && g.result.value.failedIds == d.result.value.failedIds
            && d.result.value.appliedIds == []
            && multiset(g.result.value.appliedIds) ==
                 multiset(dry.plan.replayIds) - multiset(d.result.value.idempotentIds)
                 - multiset(d.result.value.conflictIds) - multiset(d.result.value.failedIds)
  {
    hide Pick, Drive, Sort, StrLt;
    var ids, d, g := dry.Wanted(), Drive(dry, 0, t), Drive(go, 0, t);
    DriveForecast(dry, go, 0, t, t);
    DriveVerdicts(dry, 0, t);
    PickForecast(ids, d.verdicts, g.verdicts);
    PickNone(ids, d.verdicts, Applied);
    ListsSplitRequest(go, t);
    var r := ReplayOutcome(go, t).result.value;
    Leftover(multiset(r.requestedIds), multiset(r.appliedIds), multiset(r.idempotentIds),
             multiset(r.conflictIds), multiset(r.failedIds));
  }

  lemma Leftover(all: multiset<Id>, a: multiset<Id>, b: multiset<Id>, c: multiset<Id>, d: multiset<Id>)
    requires all == a + b + c + d
    ensures a == all - b - c - d
  {}

  /** The fate of one id when nobody interferes, read off the target before the run. */
  function CalmVerdict(req: Request, t: Table, id: Id): Verdict {
    if id !in req.Candidates() then Failed
    else if id !in t then Applied
    else if t[id] == req.Candidates()[id] then Idempotent
    else Conflicting
  }

  lemma VisitCalm(req: Request, id: Id, t: Table, u: Table)
    requires !req.dryRun && req.approved && SameUnder(t, u, id)
    ensures var v := Visit(req, id, CALM, u);
            && v.verdict == CalmVerdict(req, t, id) && v.verdict != Aborted
            && SameElsewhere(t, t, id) && SameElsewhere(u, v.table, id)
  {
    hide ById;
    assert Absorb(u, map[]) == u;
  }

  lemma CalmShift(req: Request, i: nat, t: Table, v: Verdict, rest: seq<Verdict>)
    requires i + 1 + |rest| <= |req.Wanted()| && v == CalmVerdict(req, t, req.Wanted()[i])
    requires forall j | 0 <= j < |rest| :: rest[j] == CalmVerdict(req, t, req.Wanted()[i + 1 + j])
    ensures forall j | 0 <= j < |[v] + rest| :: ([v] + rest)[j] == CalmVerdict(req, t, req.Wanted()[i + j])
  {
    hide CalmVerdict;
    forall j | 0 < j < |[v] + rest| ensures ([v] + rest)[j] == CalmVerdict(req, t, req.Wanted()[i + j]) {
      assert rest[j - 1] == CalmVerdict(req, t, req.Wanted()[i + 1 + (j - 1)]);
    }
  }

  lemma {:induction false} CalmDrive(req: Request, i: nat, t: Table, u: Table)
    requires !req.dryRun && req.approved && req.turns == [] && Distinct(req.plan.replayIds) && i <= req.Limit()
    requires AgreeFrom(req.Wanted(), i, t, u)
    ensures var p := Drive(req, i, u);
            !p.aborted && forall j | 0 <= j < |p.verdicts| :: p.verdicts[j] == CalmVerdict(req, t, req.Wanted()[i + j])
    decreases req.Limit() - i
  {
    if i < req.Limit() {
      var id := req.Wanted()[i];
      VisitCalm(req, id, t, u);
      hide Visit, CalmVerdict, ById;
      var v := Visit(req, id, CALM, u);
      AgreeOnwards(req.Wanted(), i, t, u, t, v.table);
      hide AgreeFrom, Distinct, SameUnder, SameElsewhere, Drive;
      DriveStep(req, i, u);
      CalmDrive(req, i + 1, t, v.table);
      CalmShift(req, i, t, v.verdict, Drive(req, i + 1, v.table).verdicts);
    }
  }

  lemma CalmPicked(req: Request, t: Table, v: Verdict, j: nat)
    requires !req.dryRun && req.approved && req.turns == [] && Distinct(req.plan.replayIds)
    requires j < |req.plan.replayIds|
    ensures var p := Drive(req, 0, t);
            && !p.aborted
            && (req.Wanted()[j] in Pick(req.Wanted(), p.verdicts, v) <==>
                  j < req.Limit() && CalmVerdict(req, t, req.Wanted()[j]) == v)
  {
    CalmDrive(req, 0, t, t);
    hide Pick, Drive, CalmVerdict;
    PickedAt(req.Wanted(), Drive(req, 0, t).verdicts, v, j);
  }

  lemma ListMembers(req: Request, verdicts: seq<Verdict>, j: nat)
    requires |verdicts| == req.Limit() && Distinct(req.plan.replayIds) && j < |req.plan.replayIds|
    ensures var r, ids := ResultOf(req, verdicts), req.Wanted();
            && (ids[j] in r.appliedIds <==> ids[j] in Pick(ids, verdicts, Applied))
            && (ids[j] in r.idempotentIds <==> ids[j] in Pick(ids, verdicts, Idempotent))
            && (ids[j] in r.conflictIds <==> ids[j] in Pick(ids, verdicts, Conflicting))
            && (ids[j] in r.failedIds <==> ids[j] in Pick(ids, verdicts, Failed) || j >= req.Limit())
  {
    hide Pick, Sort, StrLt;
    var ids, rest := req.Wanted(), req.Wanted()[req.Limit()..];
    SortElements(StrLt, Pick(ids, verdicts, Applied));
    SortElements(StrLt, Pick(ids, verdicts, Idempotent));
    SortElements(StrLt, Pick(ids, verdicts, Conflicting));
    SortElements(StrLt, Pick(ids, verdicts, Failed) + rest);
    if j >= req.Limit() { assert rest[j - req.Limit()] == ids[j]; }
  }

  /** An undisturbed approved run reports each requested id in exactly the list its candidate and the
      target call for: applied if the key was free, idempotent or conflicting by its content, failed
      without a candidate or beyond the batch. */
  lemma UndisturbedRunExactly(req: Request, t: Table, j: nat)
    requires !req.dryRun && req.approved && req.turns == [] && Distinct(req.plan.replayIds)
    requires Refusal(req).None? && j < |req.plan.replayIds|
    ensures var out, id := ReplayOutcome(req, t).result, req.plan.replayIds[j];
            var v := CalmVerdict(req, t, id);
            && out.Ok?
            && (id in out.value.appliedIds <==> j < req.batchSize && v == Applied)
            && (id in out.value.idempotentIds <==> j < req.batchSize && v == Idempotent)
            && (id in out.value.conflictIds <==> j < req.batchSize && v == Conflicting)
            && (id in out.value.failedIds <==> j >= req.batchSize || v == Failed)
  {
    hide Pick, Drive, ResultOf, CalmVerdict;
    CalmPicked(req, t, Applied, j);
    CalmPicked(req, t, Idempotent, j);
    CalmPicked(req, t, Conflicting, j);
    CalmPicked(req, t, Failed, j);
    ListMembers(req, Drive(req, 0, t).verdicts, j);
  }

  lemma PickedAt(ids: seq<Id>, verdicts: seq<Verdict>, v: Verdict, j: nat)
    requires |verdicts| <= |ids| && Distinct(ids) && j < |ids|
    ensures ids[j] in Pick(ids, verdicts, v) <==> j < |verdicts| && verdicts[j] == v
  {
    PickMembers(ids, verdicts, v, ids[j]);
  }

  // ------------------------------------------------ adversarial safety

  lemma {:induction false} DriveKeepsEntries(req: Request, i: nat, t: Table)
    requires i <= req.Limit()
    ensures Within(t, Drive(req, i, t).table)
    decreases req.Limit() - i
  {
    if i < req.Limit() {
      var v := Visit(req, req.Wanted()[i], TurnAt(req.turns, i), t);
      assert Within(t, v.table);
      if v.verdict != Aborted { DriveKeepsEntries(req, i + 1, v.table); }
    }
  }

  /** No run, in any environment of conditional writers, changes an entry already in the target. */
  lemma {:induction false} EntriesNeverChange(reqs: seq<Request>, t: Table)
    ensures Within(t, After(reqs, t))
    decreases |reqs|
  {
    if reqs != [] {
      var front, last := reqs[..|reqs| - 1], reqs[|reqs| - 1];
      EntriesNeverChange(front, t);
      if Refusal(last).None? { DriveKeepsEntries(last, 0, After(front, t)); }
    }
  }

  /** Table content that a verdict for `k` certifies. */
  ghost predicate Certified(req: Request, v: Verdict, k: Id, t: Table) {
    && (v == Applied || v == Idempotent ==> k in req.Candidates() && k in t && t[k] == req.Candidates()[k])
    && (v == Conflicting ==> k in req.Candidates() && k in t && t[k] != req.Candidates()[k])
  }

  lemma {:induction false} VerdictsCertified(req: Request, i: nat, t: Table, j: nat)
    requires i <= j < req.Limit() && j - i < |Drive(req, i, t).verdicts|
    ensures Certified(req, Drive(req, i, t).verdicts[j - i], req.Wanted()[j], Drive(req, i, t).table)
    decreases req.Limit() - i
  {
    hide ById;
    var v := Visit(req, req.Wanted()[i], TurnAt(req.turns, i), t);
    assert Certified(req, v.verdict, req.Wanted()[i], v.table);
    if j == i {
      DriveKeepsEntries(req, i + 1, v.table);
    } else {
      VerdictsCertified(req, i + 1, v.table, j);
    }
  }

  lemma PickedCertified(req: Request, t: Table, v: Verdict, k: Id)
    requires !Drive(req, 0, t).aborted && k in Pick(req.Wanted(), Drive(req, 0, t).verdicts, v)
    ensures Certified(req, v, k, Drive(req, 0, t).table)
  {
    var ids, verdicts := req.Wanted(), Drive(req, 0, t).verdicts;
    PickMembers(ids, verdicts, v, k);
    var j :| 0 <= j < |verdicts| && verdicts[j] == v && ids[j] == k;
    VerdictsCertified(req, 0, t, j);
  }

  /** What a run reports about an id stays true of the target forever. */
  lemma ReportsAreForever(req: Request, t: Table, later: seq<Request>, k: Id)
    requires ReplayOutcome(req, t).result.Ok?
    ensures var r, now := ReplayOutcome(req, t).result.value, After(later, ReplayOutcome(req, t).table);
            && (k in r.appliedIds + r.idempotentIds ==>
                  k in req.Candidates() && k in now && now[k] == req.Candidates()[k])
            && (k in r.conflictIds ==> k in req.Candidates() && k in now && now[k] != req.Candidates()[k])
  {
    var p := Drive(req, 0, t);
    var r := ReplayOutcome(req, t).result.value;
    EntriesNeverChange(later, p.table);
    SortElements(StrLt, Pick(req.Wanted(), p.verdicts, Applied));
    SortElements(StrLt, Pick(req.Wanted(), p.verdicts, Idempotent));
    SortElements(StrLt, Pick(req.Wanted(), p.verdicts, Conflicting));
    if k in r.appliedIds { PickedCertified(req, t, Applied, k); }
    if k in r.idempotentIds { PickedCertified(req, t, Idempotent, k); }
    if k in r.conflictIds { PickedCertified(req, t, Conflicting, k); }
  }

  /** A complete run leaves every requested id in the target with the candidate's content. */
  lemma CompleteMeansStored(req: Request, t: Table, k: Id)
    requires ReplayOutcome(req, t).result.Ok? && ReplayOutcome(req, t).result.value.Complete()
    requires k in req.plan.replayIds
    ensures var now := ReplayOutcome(req, t).table;
            k in req.Candidates() && k in now && now[k] == req.Candidates()[k]
  {
    var r := ReplayOutcome(req, t).result.value;
    ReplayAccounting(req, t);
    assert k in multiset(r.requestedIds);
    assert k in r.appliedIds || k in r.idempotentIds;
    ReportsAreForever(req, t, [], k);
  }

  /** The candidates of the requested ids that are missing from `t`. */
  function MissingRows(req: Request, t: Table): Table {
    map k | k in req.Candidates() && k in req.plan.replayIds && k !in t :: req.Candidates()[k]
  }

  lemma CalmStaysWithin(req: Request, t: Table)
    requires req.turns == []
    requires forall k | k in req.plan.replayIds && k in req.Candidates() && k in t :: t[k] == req.Candidates()[k]
    ensures Within(ReplayOutcome(req, t).table, t + MissingRows(req, t))
  {
    hide ById, Drive;
    if Refusal(req).None? { DriveStaysBounded(req, 0, t, t + MissingRows(req, t)); }
  }

  lemma OutcomeKeepsEntries(req: Request, t: Table)
    ensures Within(t, ReplayOutcome(req, t).table)
  {
    hide Drive, Within;
    WithinItself(t);
    if Refusal(req).None? { DriveKeepsEntries(req, 0, t); }
  }

  lemma WithinItself(t: Table)
    ensures Within(t, t)
  {}

  lemma Squeezed(req: Request, t: Table, now: Table)
    requires Within(t, now) && Within(now, t + MissingRows(req, t))
    requires forall k | k in req.plan.replayIds :: k in req.Candidates() && k in now
    ensures now == t + MissingRows(req, t)
  {
    hide ById;
    forall k ensures k in now <==> k in t + MissingRows(req, t) {}
  }

  /** An undisturbed run that completes has added exactly the candidates of the requested ids that were
      missing. */
  lemma CalmCompleteTable(req: Request, t: Table)
    requires req.turns == []
    requires ReplayOutcome(req, t).result.Ok? && ReplayOutcome(req, t).result.value.Complete()
    ensures forall k | k in req.plan.replayIds :: k in req.Candidates()
    ensures ReplayOutcome(req, t).table == t + MissingRows(req, t)
  {
    hide *;
    var now, c := ReplayOutcome(req, t).table, req.Candidates();
    forall k | k in req.plan.replayIds ensures k in c && k in now && now[k] == c[k] { CompleteMeansStored(req, t, k); }
    OutcomeKeepsEntries(req, t);
    forall k | k in req.plan.replayIds && k in c && k in t ensures t[k] == c[k] { KeptAt(t, now, k); }
    CalmStaysWithin(req, t);
    Squeezed(req, t, now);
  }

  lemma KeptAt(t: Table, now: Table, k: Id)
    requires Within(t, now) && k in t
    ensures k in now && now[k] == t[k]
  {}

  /** One reported conflict: no later run of the same plan and candidates can be complete. */
  lemma ConflictIsFinal(req: Request, t: Table, between: seq<Request>, again: Request, k: Id)
    requires again.plan == req.plan && again.Candidates() == req.Candidates()
    ensures var first := ReplayOutcome(req, t);
            var last := ReplayOutcome(again, After(between, first.table)).result;
            first.result.Ok? && k in first.result.value.conflictIds && last.Ok? ==> !last.value.Complete()
  {
    var first := ReplayOutcome(req, t);
    if first.result.Ok? && k in first.result.value.conflictIds {
      var now := After(between, first.table);
      var last := ReplayOutcome(again, now).result;
      ReportsAreForever(req, t, between, k);
      if last.Ok? && last.value.Complete() {
        ConflictIsRequested(req, t, k);
        CompleteMeansStored(again, now, k);
        DriveKeepsEntries(again, 0, now);
      }
    }
  }

  lemma ConflictIsRequested(req: Request, t: Table, k: Id)
    requires ReplayOutcome(req, t).result.Ok? && k in ReplayOutcome(req, t).result.value.conflictIds
    ensures k in req.plan.replayIds
  {
    var p := Drive(req, 0, t);
    SortElements(StrLt, Pick(req.Wanted(), p.verdicts, Conflicting));
    PickMembers(req.Wanted(), p.verdicts, Conflicting, k);
  }

  // -------------------------------------------------- refinement of the plan

  /** Foreign writers only store rows the plan replays, with the planned content: for example
      concurrent runs of the same plan. */
  ghost predicate Benign(turns: seq<Turn>, allowed: Table) {
    forall turn | turn in turns ::
      Within(turn.beforeGet, allowed) && Within(turn.beforePut, allowed) && Within(turn.beforeReget, allowed)
  }

  /** A run of this plan whose candidates, where present, are the planned live rows. */
  ghost predicate RunOfPlan(req: Request, h: Digest, q: Inputs) {
    && req.plan == PlanOf(h, q)
    && (forall k | k in req.plan.replayIds && k in req.Candidates() && k in q.Live() ::
          req.Candidates()[k] == q.Live()[k])
    && Benign(req.turns, ReplayTable(q))
  }

  /** Everything this run or its environment could store is already written in `bound`. */
  ghost predicate Bounded(req: Request, bound: Table) {
    && Benign(req.turns, bound)
    && forall k | k in req.plan.replayIds && k in req.Candidates() ::
         k in bound && bound[k] == req.Candidates()[k]
  }

  lemma VisitStaysBounded(req: Request, i: nat, t: Table, bound: Table)
    requires i < |req.Wanted()| && Bounded(req, bound) && Within(t, bound)
    ensures Within(Visit(req, req.Wanted()[i], TurnAt(req.turns, i), t).table, bound)
  {
    hide ById, Absorb;
    var id, turn := req.Wanted()[i], TurnAt(req.turns, i);
    assert id in req.plan.replayIds;
    assert i < |req.turns| ==> req.turns[i] in req.turns;
    var t1 := Absorb(t, turn.beforeGet);
    AbsorbBounded(t, turn.beforeGet, bound);
    var t2 := Absorb(t1, turn.beforePut);
    AbsorbBounded(t1, turn.beforePut, bound);
    AbsorbBounded(t2, turn.beforeReget, bound);
  }

  lemma AbsorbBounded(t: Table, writes: Table, bound: Table)
    requires Within(t, bound) && Within(writes, bound)
    ensures Within(Absorb(t, writes), bound)
  {}

  lemma {:induction false} DriveStaysBounded(req: Request, i: nat, t: Table, bound: Table)
    requires i <= req.Limit() && Bounded(req, bound) && Within(t, bound)
    ensures Within(Drive(req, i, t).table, bound)
    decreases req.Limit() - i
  {
    if i < req.Limit() {
      var v := Visit(req, req.Wanted()[i], TurnAt(req.turns, i), t);
      VisitStaysBounded(req, i, t, bound);
      if v.verdict != Aborted { DriveStaysBounded(req, i + 1, v.table, bound); }
    }
  }

  lemma RunIsBounded(h: Digest, q: Inputs, req: Request)
    requires q.Valid() && RunOfPlan(req, h, q)
    ensures Bounded(req, Authoritative(q))
  {
    hide PlanOf;
    ReplayWithin(q);
    forall k | k in req.plan.replayIds && k in req.Candidates()
      ensures k in Authoritative(q) && Authoritative(q)[k] == req.Candidates()[k]
    {
      ReplayMembers(h, q, k);
      assert k in ReplayTable(q);
    }
  }

  lemma ReplayWithin(q: Inputs)
    ensures Within(ReplayTable(q), Authoritative(q)) && Within(q.Base(), Authoritative(q))
  {}

  /** Between runs the target lies between the restore and the authoritative table. */
  ghost predicate Between(q: Inputs, t: Table) {
    Within(q.Base(), t) && Within(t, Authoritative(q))
  }

  lemma RunStaysBetween(h: Digest, q: Inputs, req: Request, t: Table)
    requires q.Valid() && RunOfPlan(req, h, q) && Between(q, t)
    ensures Between(q, ReplayOutcome(req, t).table)
  {
    if Refusal(req).None? {
      RunIsBounded(h, q, req);
      DriveStaysBounded(req, 0, t, Authoritative(q));
      DriveKeepsEntries(req, 0, t);
    }
  }

  lemma {:induction false} RunsStayBetween(h: Digest, q: Inputs, reqs: seq<Request>, t: Table)
    requires q.Valid() && Between(q, t) && forall req | req in reqs :: RunOfPlan(req, h, q)
    ensures Between(q, After(reqs, t))
    decreases |reqs|
  {
    if reqs != [] {
      var front := reqs[..|reqs| - 1];
      RunsStayBetween(h, q, front, t);
      RunStaysBetween(h, q, reqs[|reqs| - 1], After(front, t));
    }
  }

  lemma CompleteStoresReplayed(h: Digest, q: Inputs, req: Request, t: Table, k: Id)
    requires q.Valid() && RunOfPlan(req, h, q) && k in ReplayTable(q)
    requires ReplayOutcome(req, t).result.Ok? && ReplayOutcome(req, t).result.value.Complete()
    ensures var now := ReplayOutcome(req, t).table; k in now && now[k] == ReplayTable(q)[k]
  {
    hide PlanOf, ReplayOutcome;
    ReplayMembers(h, q, k);
    CompleteMeansStored(req, t, k);
  }

  /** What a reconcile needs to reach the authoritative table of `q` from `t`: nothing in `t` that does not
      belong there, ids that cover every row still missing, and for missing ids nothing but planned content. */
  ghost predicate Covers(q: Inputs, ids: seq<Id>, candidates: Table, t: Table) {
    var T := Authoritative(q);
    && Within(t, T)
    && (forall k | k in T :: k in t || k in ids)
    && (forall k | k in ids && k !in t :: k in T && k in candidates && candidates[k] == T[k])
  }

  /** Whatever plan and candidates an undisturbed run is given, and whatever the target holds: if it
      completes, the target is then the authoritative table of `q` exactly when they cover it. */
  lemma CalmRunReachesExactlyWhen(q: Inputs, req: Request, t: Table)
    requires req.turns == []
    requires ReplayOutcome(req, t).result.Ok? && ReplayOutcome(req, t).result.value.Complete()
    ensures ReplayOutcome(req, t).table == Authoritative(q) <==> Covers(q, req.plan.replayIds, req.Candidates(), t)
  {
    hide ReplayOutcome, ById, Authoritative;
    CalmCompleteTable(req, t);
    var now, T := ReplayOutcome(req, t).table, Authoritative(q);
    assert forall k | k in req.plan.replayIds :: k in now;
    if Covers(q, req.plan.replayIds, req.Candidates(), t) {
      forall k ensures k in now <==> k in T {}
    }
  }

  lemma CompleteReachesAuthoritative(h: Digest, q: Inputs, req: Request, t: Table)
    requires q.Valid() && RunOfPlan(req, h, q) && Between(q, t)
    requires ReplayOutcome(req, t).result.Ok? && ReplayOutcome(req, t).result.value.Complete()
    ensures ReplayOutcome(req, t).table == Authoritative(q)
  {
    hide PlanOf, ReplayOutcome, Replayable;
    var now := ReplayOutcome(req, t).table;
    RunStaysBetween(h, q, req, t);
    forall k | k in ReplayTable(q) ensures k in now && now[k] == ReplayTable(q)[k] {
      CompleteStoresReplayed(h, q, req, t, k);
    }
    assert forall k :: k in now <==> k in q.Base() + ReplayTable(q);
  }

  /** Replay refines the plan. The target starts as the restore; any finite sequence of failing,
      partial, dry, refused, aborted, concurrent and retried runs follows; if the last result is
      complete then the target is exactly restore plus replay rows, and every scan of it has the
      checksum that both the plan and the result carry. */
  lemma ReplayRefinesPlan(h: Digest, q: Inputs, earlier: seq<Request>, last: Request, rows: seq<Transaction>)
    requires q.Valid() && RunOfPlan(last, h, q) && forall req | req in earlier :: RunOfPlan(req, h, q)
    requires var out := ReplayOutcome(last, After(earlier, q.Base()));
             out.result.Ok? && out.result.value.Complete() && Scans(rows, out.table)
    ensures var out := ReplayOutcome(last, After(earlier, q.Base()));
            && out.table == Authoritative(q)
            && DatasetChecksum(h, rows) == PlanOf(h, q).checksum == out.result.value.planChecksum
  {
    ReplayWithin(q);
    RunsStayBetween(h, q, earlier, q.Base());
    CompleteReachesAuthoritative(h, q, last, After(earlier, q.Base()));
    PlanChecksum(h, q, rows);
  }

  // ------------------------------------------------------ convergence

  ghost predicate FaultFree(turns: seq<Turn>) {
    forall turn | turn in turns :: !turn.getRaises && turn.put == Smooth && !turn.regetRaises
  }

  /** Nothing foreign contradicts a candidate. */
  ghost predicate Agrees(writes: Table, candidates: Table) {
    forall k | k in writes && k in candidates :: writes[k] == candidates[k]
  }

  ghost predicate AllAgree(turns: seq<Turn>, candidates: Table) {
    forall turn | turn in turns ::
      && Agrees(turn.beforeGet, candidates) && Agrees(turn.beforePut, candidates)
      && Agrees(turn.beforeReget, candidates)
  }

  /** `id` can be settled: it has a candidate and the target does not hold something else. */
  ghost predicate Settleable(req: Request, id: Id, t: Table) {
    id in req.Candidates() && (id in t ==> t[id] == req.Candidates()[id])
  }

  ghost predicate Good(v: Verdict) { v == Applied || v == Idempotent }

  ghost predicate AllGood(verdicts: seq<Verdict>) { forall v | v in verdicts :: Good(v) }

  lemma VisitSettles(req: Request, i: nat, t: Table)
    requires i < |req.Wanted()| && !req.dryRun && req.approved
    requires FaultFree(req.turns) && AllAgree(req.turns, req.Candidates())
    ensures var v := Visit(req, req.Wanted()[i], TurnAt(req.turns, i), t);
            && v.verdict != Aborted
            && (Good(v.verdict) <==> Settleable(req, req.Wanted()[i], t))
            && (forall id :: Settleable(req, id, t) <==> Settleable(req, id, v.table))
            && (v.verdict == Applied ==> req.Wanted()[i] !in t)
  {
    assert i < |req.turns| ==> req.turns[i] in req.turns;
    ByIdKeyed(req.candidates);
  }

  lemma AllGoodSplits(v: Verdict, rest: seq<Verdict>)
    ensures AllGood([v] + rest) <==> Good(v) && AllGood(rest)
  {
    hide Good;
    assert v in [v] + rest;
    assert forall x | x in rest :: x in [v] + rest;
  }

  lemma {:induction false} DriveSettles(req: Request, i: nat, t: Table)
    requires i <= req.Limit() && !req.dryRun && req.approved
    requires FaultFree(req.turns) && AllAgree(req.turns, req.Candidates())
    ensures var p := Drive(req, i, t);
            && !p.aborted
            && (AllGood(p.verdicts) <==>
                (forall j | i <= j < req.Limit() :: Settleable(req, req.Wanted()[j], t)))
    decreases req.Limit() - i
  {
    if i < req.Limit() {
      hide Visit, Settleable, Good, FaultFree, AllAgree;
      var v := Visit(req, req.Wanted()[i], TurnAt(req.turns, i), t);
      VisitSettles(req, i, t);
      DriveSettles(req, i + 1, v.table);
      AllGoodSplits(v.verdict, Drive(req, i + 1, v.table).verdicts);
      assert forall j | i < j < req.Limit() ::
               Settleable(req, req.Wanted()[j], t) <==> Settleable(req, req.Wanted()[j], v.table);
      hide AllGood;
    }
  }

  /** A failure-free approved run among agreeing writers completes exactly when the plan fits the
      batch and every requested id has a candidate that the target does not contradict. */
  lemma CompletesExactlyWhen(req: Request, t: Table)
    requires Refusal(req).None? && !req.dryRun && req.approved
    requires FaultFree(req.turns) && AllAgree(req.turns, req.Candidates())
    ensures var out := ReplayOutcome(req, t).result;
            && out.Ok?
            && (out.value.Complete() <==>
                  && |req.plan.replayIds| <= req.batchSize
                  && forall j | 0 <= j < |req.plan.replayIds| :: Settleable(req, req.plan.replayIds[j], t))
  {
    hide Pick, Drive, Sort;
    DriveSettles(req, 0, t);
    ReplayAccounting(req, t);
    var ids, p := req.Wanted(), Drive(req, 0, t);
    DriveVerdicts(req, 0, t);
    PickNone(ids, p.verdicts, Conflicting);
    PickNone(ids, p.verdicts, Failed);
    SortElements(StrLt, Pick(ids, p.verdicts, Conflicting));
    SortElements(StrLt, Pick(ids, p.verdicts, Failed) + ids[req.Limit()..]);
    assert AllGood(p.verdicts) <==> Conflicting !in p.verdicts && Failed !in p.verdicts;
  }

  lemma {:induction false} NothingLeftToApply(req: Request, i: nat, t: Table)
    requires i <= req.Limit() && forall j | i <= j < req.Limit() :: req.Wanted()[j] in t
    ensures Applied !in Drive(req, i, t).verdicts
    decreases req.Limit() - i
  {
    if i < req.Limit() {
      var v := Visit(req, req.Wanted()[i], TurnAt(req.turns, i), t);
      assert Within(t, v.table);
      if v.verdict != Aborted { NothingLeftToApply(req, i + 1, v.table); }
    }
  }

  /** A run that may still fail but asks for everything: approved, in one batch, all candidates. */
  ghost predicate FullAttempt(req: Request, h: Digest, q: Inputs) {
    && RunOfPlan(req, h, q) && Refusal(req).None? && !req.dryRun && req.approved && FaultFree(req.turns)
    && |req.plan.replayIds| <= req.batchSize
    && forall k | k in req.plan.replayIds :: k in req.Candidates()
  }

  lemma FullAttemptCompletes(h: Digest, q: Inputs, req: Request, t: Table)
    requires q.Valid() && FullAttempt(req, h, q) && Between(q, t)
    ensures ReplayOutcome(req, t).result.Ok? && ReplayOutcome(req, t).result.value.Complete()
  {
    ReplaySettleable(h, q, req, t);
    BenignAgrees(h, q, req);
    CompletesExactlyWhen(req, t);
  }

  lemma ReplaySettleable(h: Digest, q: Inputs, req: Request, t: Table)
    requires q.Valid() && RunOfPlan(req, h, q) && Between(q, t)
    requires forall k | k in req.plan.replayIds :: k in req.Candidates()
    ensures forall j | 0 <= j < |req.plan.replayIds| :: Settleable(req, req.plan.replayIds[j], t)
  {
    forall j | 0 <= j < |req.plan.replayIds| ensures Settleable(req, req.plan.replayIds[j], t) {
      ReplayMembers(h, q, req.plan.replayIds[j]);
    }
  }

  lemma BenignAgrees(h: Digest, q: Inputs, req: Request)
    requires q.Valid() && RunOfPlan(req, h, q)
    ensures AllAgree(req.turns, req.Candidates())
  {
    forall writes: Table | Within(writes, ReplayTable(q)) ensures Agrees(writes, req.Candidates()) {
      forall k | k in writes && k in req.Candidates() ensures writes[k] == req.Candidates()[k] {
        assert k in ReplayTable(q);
        ReplayMembers(h, q, k);
      }
    }
  }

  /** Retries converge: after any history of runs of this plan, the next failure-free full attempt
      completes, and so does every later one, applying nothing. */
  lemma RetriesConverge(h: Digest, q: Inputs, earlier: seq<Request>, next: Request,
                        later: seq<Request>, again: Request)
    requires q.Valid() && (forall req | req in earlier + later :: RunOfPlan(req, h, q))
    requires FullAttempt(next, h, q) && FullAttempt(again, h, q)
    ensures var first := ReplayOutcome(next, After(earlier, q.Base()));
            var second := ReplayOutcome(again, After(later, first.table));
            && first.result.Ok? && first.result.value.Complete()
            && second.result.Ok? && second.result.value.Complete() && second.result.value.appliedIds == []
            && first.table == second.table == Authoritative(q)
  {
    ReplayWithin(q);
    assert forall req | req in earlier :: req in earlier + later;
    assert forall req | req in later :: req in earlier + later;
    var t := After(earlier, q.Base());
    RunsStayBetween(h, q, earlier, q.Base());
    FullAttemptCompletes(h, q, next, t);
    CompleteReachesAuthoritative(h, q, next, t);
    var u := ReplayOutcome(next, t).table;
    RunsStayBetween(h, q, later, u);
    FullAttemptCompletes(h, q, again, After(later, u));
    CompleteReachesAuthoritative(h, q, again, After(later, u));
    EntriesNeverChange(later, u);
    AppliesNothing(h, q, again, After(later, u));
  }

  lemma AppliesNothing(h: Digest, q: Inputs, req: Request, t: Table)
    requires q.Valid() && req.plan == PlanOf(h, q) && Within(ReplayTable(q), t)
    requires ReplayOutcome(req, t).result.Ok?
    ensures ReplayOutcome(req, t).result.value.appliedIds == []
  {
    forall j | 0 <= j < req.Limit() ensures req.Wanted()[j] in t {
      ReplayMembers(h, q, req.Wanted()[j]);
      assert req.Wanted()[j] in ReplayTable(q);
    }
    NothingLeftToApply(req, 0, t);
    PickNone(req.Wanted(), Drive(req, 0, t).verdicts, Applied);
  }
}
