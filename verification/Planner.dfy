/** The reconciliation planner: classify live rows against an isolated point-in-time restore. */
module Planner {
  import opened Prelude
  import opened Domain
  import opened Ordering
  import opened Datasets

  datatype Plan = Plan(
    recoveryPoint: Time,
    policy: string,
    replayIds: seq<Id>,
    ignoredCorruptIds: seq<Id>,
    conflictIds: seq<Id>,
    prePointMissingIds: seq<Id>,
    restoredAfterIds: seq<Id>,
    postFailureIds: seq<Id>,
    checksum: string,
    newest: Option<Time>)
  {
    predicate SafeToPromote() {
      conflictIds == [] && prePointMissingIds == [] && restoredAfterIds == [] && postFailureIds == []
    }
  }

  datatype PlanError = CutoffBeforePoint

  const POLICY := "PITR_BASE_PLUS_APPROVED_UNIQUE_POST_POINT_WRITES"

  /** The planner's five arguments, and the two tables its lists are scans of. */
  datatype Inputs = Inputs(
    restored: seq<Transaction>, live: seq<Transaction>, point: Time, cutoff: Time, corrupt: set<Id>)
  {
    function Base(): Table { ById(restored) }

    function Live(): Table { ById(live) }

    /** Ids are hash keys of the two tables, and the cutoff is one the planner accepts. */
    ghost predicate Valid() {
      UniqueIds(restored) && UniqueIds(live) && point <= cutoff
    }
  }

  datatype Lane = Corrupt | PostFailure | Replay | Conflict | PrePointMissing | Identical

  /** The branch the planner's loop takes for one live row. */
  function LaneOf(q: Inputs, x: Transaction): Lane {
    if x.id in q.corrupt then Corrupt
    else if x.timestamp > q.cutoff then PostFailure
    else if x.timestamp > q.point then
      if x.id !in q.Base() then Replay
      else if q.Base()[x.id] != x then Conflict
      else Identical
    else if x.id !in q.Base() then PrePointMissing
    else if q.Base()[x.id] != x then Conflict
    else Identical
  }

  /** The rows of one lane, in scan order. */
  function InLane(q: Inputs, lane: Lane, rows: seq<Transaction>): (r: seq<Transaction>)
    ensures forall x :: x in r <==> x in rows && LaneOf(q, x) == lane
  {
    if rows == [] then []
    else
      var last := rows[|rows| - 1];
      assert rows == rows[..|rows| - 1] + [last];
      InLane(q, lane, rows[..|rows| - 1]) + (if LaneOf(q, last) == lane then [last] else [])
  }

  function NewerThan(point: Time, rows: seq<Transaction>): (r: seq<Transaction>)
    ensures forall x :: x in r <==> x in rows && x.timestamp > point
  {
    if rows == [] then []
    else
      var last := rows[|rows| - 1];
      assert rows == rows[..|rows| - 1] + [last];
      NewerThan(point, rows[..|rows| - 1]) + (if last.timestamp > point then [last] else [])
  }

  function LaneIds(q: Inputs, lane: Lane): seq<Id> { IdsOf(InLane(q, lane, q.live)) }

  /** The list the checksum and the newest time are taken over. */
  function AuthoritativeRows(q: Inputs): seq<Transaction> { q.restored + InLane(q, Replay, q.live) }

  function PlanOf(h: Digest, q: Inputs): Plan {
    Plan(
      q.point, POLICY,
      Sort(StrLt, LaneIds(q, Replay)),
      SortedSet(LaneIds(q, Corrupt)),
      SortedSet(LaneIds(q, Conflict)),
      SortedSet(LaneIds(q, PrePointMissing)),
      Sort(StrLt, IdsOf(NewerThan(q.point, q.restored))),
      SortedSet(LaneIds(q, PostFailure)),
      DatasetChecksum(h, AuthoritativeRows(q)),
      Newest(AuthoritativeRows(q)))
  }

  lemma LaneGrows(q: Inputs, lane: Lane, rows: seq<Transaction>, i: nat)
    requires i < |rows|
    ensures var before, after := InLane(q, lane, rows[..i]), InLane(q, lane, rows[..i + 1]);
            && after == before + (if LaneOf(q, rows[i]) == lane then [rows[i]] else [])
            && IdsOf(after) == IdsOf(before) + (if LaneOf(q, rows[i]) == lane then [rows[i].id] else [])
  {
    assert rows[..i + 1][..i] == rows[..i];
  }

  lemma LanesStart(q: Inputs)
    ensures q.live[..0] == []
    ensures forall lane :: InLane(q, lane, []) == [] && IdsOf(InLane(q, lane, [])) == []
  {}

  method PlanReconciliation(h: Digest, q: Inputs) returns (r: Result<Plan, PlanError>)
    ensures q.cutoff < q.point <==> r == Err(CutoffBeforePoint)
    ensures q.cutoff >= q.point ==> r == Ok(PlanOf(h, q))
  {
    hide InLane, IdsOf, ById, Sort, SortedSet, StrLt, DatasetChecksum, Newest, NewerThan;
    if q.cutoff < q.point {
      return Err(CutoffBeforePoint);
    }
    LanesStart(q);
    var base := ById(q.restored);
    var replay: seq<Transaction> := [];
    var conflicts, missing, late, ignored := [], [], [], [];
    var i := 0;
    while i < |q.live|
      invariant 0 <= i <= |q.live|
      invariant replay == InLane(q, Replay, q.live[..i])
      invariant conflicts == IdsOf(InLane(q, Conflict, q.live[..i]))
      invariant missing == IdsOf(InLane(q, PrePointMissing, q.live[..i]))
      invariant late == IdsOf(InLane(q, PostFailure, q.live[..i]))
      invariant ignored == IdsOf(InLane(q, Corrupt, q.live[..i]))
    {
      LaneGrows(q, Replay, q.live, i);
      LaneGrows(q, Conflict, q.live, i);
      LaneGrows(q, PrePointMissing, q.live, i);
      LaneGrows(q, PostFailure, q.live, i);
      LaneGrows(q, Corrupt, q.live, i);
      var x := q.live[i];
      if x.id in q.corrupt {
        ignored := ignored + [x.id];
      } else if x.timestamp > q.cutoff {
        late := late + [x.id];
      } else if x.timestamp > q.point {
        if x.id !in base {
          replay := replay + [x];
        } else if base[x.id] != x {
          conflicts := conflicts + [x.id];
        }
      } else if x.id !in base {
        missing := missing + [x.id];
      } else if base[x.id] != x {
        conflicts := conflicts + [x.id];
      }
      i := i + 1;
    }
    assert q.live[..i] == q.live;
    var authoritative := q.restored + replay;
    r := Ok(Plan(
      q.point, POLICY, Sort(StrLt, IdsOf(replay)), SortedSet(ignored), SortedSet(conflicts),
      SortedSet(missing), Sort(StrLt, IdsOf(NewerThan(q.point, q.restored))), SortedSet(late),
      DatasetChecksum(h, authoritative), Newest(authoritative)));
  }

  // -------------------------------------------------- what the plan means

  /** The replay lane stated on tables. */
  ghost predicate Replayable(q: Inputs, k: Id) {
    k in q.Live() && k !in q.corrupt && k !in q.Base() && q.point < q.Live()[k].timestamp <= q.cutoff
  }

  ghost function ReplayTable(q: Inputs): Table {
    map k | k in q.Live() && Replayable(q, k) :: q.Live()[k]
  }

  /** Restore plus replayed writes: the state the platform declares authoritative. */
  ghost function Authoritative(q: Inputs): Table { q.Base() + ReplayTable(q) }

  lemma IdsOfMembers(rows: seq<Transaction>)
    ensures forall k :: k in IdsOf(rows) <==> exists x :: x in rows && x.id == k
    ensures UniqueIds(rows) ==> Distinct(IdsOf(rows))
  {
    IdsOfRows(rows);
  }

  lemma {:induction false} InLaneUnique(q: Inputs, lane: Lane, rows: seq<Transaction>)
    requires UniqueIds(rows)
    ensures UniqueIds(InLane(q, lane, rows))
  {
    if rows != [] {
      var front := rows[..|rows| - 1];
      InLaneUnique(q, lane, front);
      var r := InLane(q, lane, front);
      forall i | 0 <= i < |r| ensures r[i].id != rows[|rows| - 1].id { assert r[i] in front; }
    }
  }

  lemma {:induction false} NewerThanUnique(point: Time, rows: seq<Transaction>)
    requires UniqueIds(rows)
    ensures UniqueIds(NewerThan(point, rows))
  {
    if rows != [] {
      var front := rows[..|rows| - 1];
      NewerThanUnique(point, front);
      var r := NewerThan(point, front);
      forall i | 0 <= i < |r| ensures r[i].id != rows[|rows| - 1].id { assert r[i] in front; }
    }
  }

  /** Ids of the rows of one lane, read off the live table. */
  lemma LaneMembers(q: Inputs, lane: Lane, k: Id)
    requires UniqueIds(q.live)
    ensures k in LaneIds(q, lane) <==> k in q.Live() && LaneOf(q, q.Live()[k]) == lane
    ensures k in SortedSet(LaneIds(q, lane)) <==> k in LaneIds(q, lane)
    ensures k in Sort(StrLt, LaneIds(q, lane)) <==> k in LaneIds(q, lane)
  {
    var rows := InLane(q, lane, q.live);
    ByIdUnique(q.live);
    IdsOfMembers(rows);
    if k in q.Live() && LaneOf(q, q.Live()[k]) == lane { assert q.Live()[k] in rows; }
    SortedSetElements(LaneIds(q, lane));
    SortElements(StrLt, LaneIds(q, lane));
  }

  lemma NewerMembers(q: Inputs, k: Id)
    requires UniqueIds(q.restored)
    ensures k in Sort(StrLt, IdsOf(NewerThan(q.point, q.restored))) <==>
              k in q.Base() && q.point < q.Base()[k].timestamp
  {
    var rows := NewerThan(q.point, q.restored);
    ByIdUnique(q.restored);
    IdsOfMembers(rows);
    SortElements(StrLt, IdsOf(rows));
    if k in q.Base() && q.point < q.Base()[k].timestamp { assert q.Base()[k] in rows; }
  }

  lemma ReplayMembers(h: Digest, q: Inputs, k: Id)
    requires q.Valid()
    ensures k in PlanOf(h, q).replayIds <==> Replayable(q, k)
  {
    hide LaneIds, ById, SortedSet, Sort, StrLt, DatasetChecksum, Newest, AuthoritativeRows, NewerThan;
    ByIdUnique(q.live);
    LaneMembers(q, Replay, k);
  }

  /** Membership in each list of the plan, stated on the two tables. For a live row not declared
      corrupt, exactly one holds: late, replay, conflict, pre-point missing, or none of these
      because the restore holds the same row. */
  lemma PlannerClassification(h: Digest, q: Inputs, k: Id)
    requires q.Valid()
    ensures var p, R, L := PlanOf(h, q), q.Base(), q.Live();
            && (k in p.postFailureIds <==> k in L && k !in q.corrupt && q.cutoff < L[k].timestamp)
            && (k in p.replayIds <==> Replayable(q, k))
            && (k in p.conflictIds <==>
                  k in L && k !in q.corrupt && k in R && L[k].timestamp <= q.cutoff && L[k] != R[k])
            && (k in p.prePointMissingIds <==>
                  k in L && k !in q.corrupt && k !in R && L[k].timestamp <= q.point)
            && (k in p.ignoredCorruptIds <==> k in L && k in q.corrupt)
            && (k in p.restoredAfterIds <==> k in R && q.point < R[k].timestamp)
  {
    hide LaneIds, ById, SortedSet, Sort, StrLt, DatasetChecksum, Newest, AuthoritativeRows, NewerThan;
    ByIdUnique(q.live);
    LaneMembers(q, PostFailure, k);
    LaneMembers(q, Replay, k);
    LaneMembers(q, Conflict, k);
    LaneMembers(q, PrePointMissing, k);
    LaneMembers(q, Corrupt, k);
    NewerMembers(q, k);
  }

  lemma LaneOrdered(q: Inputs, lane: Lane)
    requires q.Valid()
    ensures Upwards(SortedSet(LaneIds(q, lane))) && Upwards(Sort(StrLt, LaneIds(q, lane)))
    ensures Distinct(Sort(StrLt, LaneIds(q, lane)))
  {
    var ids := LaneIds(q, lane);
    LaneIdsDistinct(q, lane);
    hide LaneIds, SortedSet;
    SortedSetElements(ids);
    AscendingIsUpwards(SortedSet(ids));
    SortedDistinct(ids);
  }

  lemma NewerOrdered(q: Inputs)
    requires q.Valid()
    ensures Upwards(Sort(StrLt, IdsOf(NewerThan(q.point, q.restored))))
  {
    NewerThanUnique(q.point, q.restored);
    IdsOfMembers(NewerThan(q.point, q.restored));
    SortedDistinct(IdsOf(NewerThan(q.point, q.restored)));
  }

  /** The replay ids go upwards, so the batch takes the first of them and none is asked for twice. */
  lemma ReplayIdsAscending(h: Digest, q: Inputs)
    requires q.Valid()
    ensures Upwards(PlanOf(h, q).replayIds) && Distinct(PlanOf(h, q).replayIds)
  {
    hide LaneIds, Sort, SortedSet, StrLt, Upwards, Distinct;
    LaneOrdered(q, Replay);
  }

  /** So do the plan's other lists; and it names its recovery point and the policy. */
  lemma PlanListsOrdered(h: Digest, q: Inputs)
    requires q.Valid()
    ensures var p := PlanOf(h, q);
            && Upwards(p.ignoredCorruptIds) && Upwards(p.conflictIds) && Upwards(p.prePointMissingIds)
            && Upwards(p.restoredAfterIds) && Upwards(p.postFailureIds)
            && p.recoveryPoint == q.point && p.policy == "PITR_BASE_PLUS_APPROVED_UNIQUE_POST_POINT_WRITES"
  {
    hide LaneIds, Sort, SortedSet, StrLt, Upwards, Distinct;
    LaneOrdered(q, Corrupt);
    LaneOrdered(q, Conflict);
    LaneOrdered(q, PrePointMissing);
    LaneOrdered(q, PostFailure);
    NewerOrdered(q);
  }

  /** What the owner approves when a plan is safe: exactly these facts about the two tables. */
  ghost predicate Reconcilable(R: Table, L: Table, point: Time, cutoff: Time, corrupt: set<Id>) {
    && (forall k | k in R :: R[k].timestamp <= point)
    && (forall k | k in L && k !in corrupt ::
          && L[k].timestamp <= cutoff
          && (L[k].timestamp <= point ==> k in R)
          && (k in R ==> L[k] == R[k]))
  }

  lemma ReconcilableIsSafe(h: Digest, q: Inputs)
    requires q.Valid() && Reconcilable(q.Base(), q.Live(), q.point, q.cutoff, q.corrupt)
    ensures PlanOf(h, q).SafeToPromote()
  {
    var p := PlanOf(h, q);
    assert p.conflictIds == [] || p.conflictIds[0] in p.conflictIds;
    assert p.prePointMissingIds == [] || p.prePointMissingIds[0] in p.prePointMissingIds;
    assert p.restoredAfterIds == [] || p.restoredAfterIds[0] in p.restoredAfterIds;
    assert p.postFailureIds == [] || p.postFailureIds[0] in p.postFailureIds;
    forall k
      ensures k !in p.conflictIds && k !in p.prePointMissingIds && k !in p.restoredAfterIds && k !in p.postFailureIds
    {
      PlannerClassification(h, q, k);
    }
  }

  lemma SafeIsReconcilable(h: Digest, q: Inputs)
    requires q.Valid() && PlanOf(h, q).SafeToPromote()
    ensures Reconcilable(q.Base(), q.Live(), q.point, q.cutoff, q.corrupt)
  {
    var R, L := q.Base(), q.Live();
    forall k | k in R ensures R[k].timestamp <= q.point {
      PlannerClassification(h, q, k);
    }
    forall k | k in L && k !in q.corrupt
      ensures L[k].timestamp <= q.cutoff && (L[k].timestamp <= q.point ==> k in R) && (k in R ==> L[k] == R[k])
    {
      PlannerClassification(h, q, k);
    }
  }

  /** Safe exactly when the tables reconcile; then the replay set is exactly the uncorrupted live
      rows after the point. Safe or not, no replay id is in the restore. */
  lemma SafePlanCharacterised(h: Digest, q: Inputs)
    requires q.Valid()
    ensures var p, L := PlanOf(h, q), q.Live();
            && (p.SafeToPromote() <==> Reconcilable(q.Base(), L, q.point, q.cutoff, q.corrupt))
            && (p.SafeToPromote() ==>
                  forall k :: k in p.replayIds <==> k in L && k !in q.corrupt && q.point < L[k].timestamp)
            && (forall k | k in p.replayIds :: k !in q.Base())
  {
    hide PlanOf, ById, Plan.SafeToPromote;
    var p := PlanOf(h, q);
    forall k ensures k in p.replayIds <==> Replayable(q, k) { ReplayMembers(h, q, k); }
    if p.SafeToPromote() { SafeIsReconcilable(h, q); }
    if Reconcilable(q.Base(), q.Live(), q.point, q.cutoff, q.corrupt) { ReconcilableIsSafe(h, q); }
  }

  lemma {:induction false} ByIdConcat(xs: seq<Transaction>, ys: seq<Transaction>)
    ensures ById(xs + ys) == ById(xs) + ById(ys)
  {
    if ys == [] {
      assert xs + ys == xs;
    } else {
      var front := ys[..|ys| - 1];
      ByIdConcat(xs, front);
      assert (xs + ys)[..|xs + ys| - 1] == xs + front;
    }
  }

  lemma ReplayLane(q: Inputs, x: Transaction)
    requires x.id in q.Live() && q.Live()[x.id] == x
    ensures LaneOf(q, x) == Replay <==> Replayable(q, x.id)
  {}

  lemma ReplayRowsTable(q: Inputs)
    requires UniqueIds(q.live)
    ensures ById(InLane(q, Replay, q.live)) == ReplayTable(q)
  {
    hide ById, InLane, LaneOf;
    var rows := InLane(q, Replay, q.live);
    InLaneUnique(q, Replay, q.live);
    ByIdUnique(q.live);
    ByIdUnique(rows);
    forall x | x in q.live ensures x in rows <==> Replayable(q, x.id) { ReplayLane(q, x); }
    forall k ensures k in ById(rows) <==> k in ReplayTable(q) {
      if k in ById(rows) { assert ById(rows)[k] in q.live; }
      if k in ReplayTable(q) { assert q.Live()[k] in rows; }
    }
    forall k | k in ById(rows) ensures ById(rows)[k] == q.Live()[k] {
      assert ById(rows)[k] in q.live;
    }
  }

  /** The list the plan's checksum is taken over is a scan of the authoritative table. */
  lemma AuthoritativeScan(q: Inputs)
    requires q.Valid()
    ensures Scans(AuthoritativeRows(q), Authoritative(q))
  {
    var replay := InLane(q, Replay, q.live);
    InLaneUnique(q, Replay, q.live);
    ReplayRowsTable(q);
    ByIdConcat(q.restored, replay);
    ByIdUnique(q.restored);
    hide ById, InLane, LaneOf;
    var rows := AuthoritativeRows(q);
    forall i, j | 0 <= i < j < |rows| ensures rows[i].id != rows[j].id {
      if i < |q.restored| <= j {
        assert rows[i] in q.restored && rows[j] in replay;
      }
    }
  }

  /** Any scan of the authoritative table has the checksum and newest time the plan promised. */
  lemma PlanChecksum(h: Digest, q: Inputs, rows: seq<Transaction>)
    requires q.Valid() && Scans(rows, Authoritative(q))
    ensures DatasetChecksum(h, rows) == PlanOf(h, q).checksum
    ensures Newest(rows) == PlanOf(h, q).newest
  {
    AuthoritativeScan(q);
    CanonicalForm(AuthoritativeRows(q), rows);
    SameTableSameCount(AuthoritativeRows(q), rows);
  }

  ghost predicate SameTables(q: Inputs, q': Inputs) {
    && q.Base() == q'.Base() && q.Live() == q'.Live()
    && q.point == q'.point && q.cutoff == q'.cutoff && q.corrupt == q'.corrupt
  }

  lemma LaneOfSame(q: Inputs, q': Inputs, x: Transaction)
    requires SameTables(q, q')
    ensures LaneOf(q, x) == LaneOf(q', x)
  {}

  lemma LaneMembersSame(q: Inputs, q': Inputs, lane: Lane, k: Id)
    requires q.Valid() && q'.Valid() && SameTables(q, q')
    ensures k in LaneIds(q, lane) <==> k in LaneIds(q', lane)
  {
    LaneMembers(q, lane, k);
    LaneMembers(q', lane, k);
    if k in q.Live() { LaneOfSame(q, q', q.Live()[k]); }
  }

  lemma LaneIdsSame(q: Inputs, q': Inputs, lane: Lane)
    requires q.Valid() && q'.Valid() && SameTables(q, q')
    ensures SameElements(LaneIds(q, lane), LaneIds(q', lane))
  {
    forall k ensures k in LaneIds(q, lane) <==> k in LaneIds(q', lane) { LaneMembersSame(q, q', lane, k); }
  }

  lemma LaneIdsAgree(q: Inputs, q': Inputs, lane: Lane)
    requires q.Valid() && q'.Valid() && SameTables(q, q')
    ensures SortedSet(LaneIds(q, lane)) == SortedSet(LaneIds(q', lane))
    ensures Sort(StrLt, LaneIds(q, lane)) == Sort(StrLt, LaneIds(q', lane))
  {
    LaneIdsSame(q, q', lane);
    LaneIdsDistinct(q, lane);
    LaneIdsDistinct(q', lane);
    SortedSetCanonical(LaneIds(q, lane), LaneIds(q', lane));
    SortIdsCanonical(LaneIds(q, lane), LaneIds(q', lane));
  }

  lemma LaneIdsDistinct(q: Inputs, lane: Lane)
    requires q.Valid()
    ensures Distinct(LaneIds(q, lane))
  {
    InLaneUnique(q, lane, q.live);
    IdsOfMembers(InLane(q, lane, q.live));
  }

  lemma NewerIdsAgree(q: Inputs, q': Inputs)
    requires q.Valid() && q'.Valid() && SameTables(q, q')
    ensures PlanOfNewer(q) == PlanOfNewer(q')
  {
    SameTableSameRows(q.restored, q'.restored);
    var xs, ys := NewerThan(q.point, q.restored), NewerThan(q.point, q'.restored);
    NewerThanUnique(q.point, q.restored);
    NewerThanUnique(q.point, q'.restored);
    IdsOfMembers(xs);
    IdsOfMembers(ys);
    SortIdsCanonical(IdsOf(xs), IdsOf(ys));
  }

  ghost function PlanOfNewer(q: Inputs): seq<Id> { Sort(StrLt, IdsOf(NewerThan(q.point, q.restored))) }

  lemma SameAuthoritative(h: Digest, q: Inputs, q': Inputs)
    requires q.Valid() && q'.Valid() && SameTables(q, q')
    ensures PlanOf(h, q).checksum == PlanOf(h, q').checksum && PlanOf(h, q).newest == PlanOf(h, q').newest
  {
    AuthoritativeScan(q');
    assert ReplayTable(q) == ReplayTable(q');
    PlanChecksum(h, q, AuthoritativeRows(q'));
    PlanTakesRows(h, q');
    hide PlanOf, AuthoritativeRows, ReplayTable, ById;
  }

  lemma PlanTakesRows(h: Digest, q: Inputs)
    ensures PlanOf(h, q).checksum == DatasetChecksum(h, AuthoritativeRows(q))
    ensures PlanOf(h, q).newest == Newest(AuthoritativeRows(q))
  {
    hide AuthoritativeRows, LaneIds, NewerThan, DatasetChecksum, Newest, Sort, SortedSet, StrLt;
  }

  /** Scan order is irrelevant: the plan is a function of the two tables. */
  lemma PlanIgnoresScanOrder(h: Digest, q: Inputs, q': Inputs)
    requires q.Valid() && q'.Valid() && SameTables(q, q')
    ensures PlanOf(h, q) == PlanOf(h, q')
  {
    LaneIdsAgree(q, q', Replay);
    LaneIdsAgree(q, q', Corrupt);
    LaneIdsAgree(q, q', Conflict);
    LaneIdsAgree(q, q', PrePointMissing);
    LaneIdsAgree(q, q', PostFailure);
    NewerIdsAgree(q, q');
    SameAuthoritative(h, q, q');
  }

  lemma AuthoritativeReconciles(q: Inputs, q': Inputs)
    requires Reconcilable(q.Base(), q.Live(), q.point, q.cutoff, q.corrupt) && q.point <= q.cutoff
    requires q'.Base() == Authoritative(q) && q'.live == q.live && q'.corrupt == q.corrupt
    requires q'.point == q'.cutoff == q.cutoff
    ensures Reconcilable(q'.Base(), q'.Live(), q'.point, q'.cutoff, q'.corrupt)
    ensures ReplayTable(q') == map[]
  {
    var T, L := q'.Base(), q'.Live();
    forall k | k in T ensures T[k].timestamp <= q.cutoff {
      assert k in q.Base() || k in ReplayTable(q);
    }
    forall k | k in L && k !in q.corrupt ensures L[k].timestamp <= q.cutoff && k in T && L[k] == T[k] {
      assert k in q.Base() || k in ReplayTable(q);
    }
  }

  /** Planning again over the reconciled target, at the old cutoff, asks for nothing more. */
  lemma ReplanFixpoint(h: Digest, q: Inputs, target: seq<Transaction>)
    requires q.Valid() && PlanOf(h, q).SafeToPromote()
    requires Scans(target, Authoritative(q))
    ensures var again := PlanOf(h, Inputs(target, q.live, q.cutoff, q.cutoff, q.corrupt));
            again.SafeToPromote() && again.replayIds == [] && again.checksum == PlanOf(h, q).checksum
  {
    var q' := Inputs(target, q.live, q.cutoff, q.cutoff, q.corrupt);
    SafeIsReconcilable(h, q);
    AuthoritativeReconciles(q, q');
    ReconcilableIsSafe(h, q');
    NothingToReplay(h, q');
    PlanChecksum(h, q', target);
    PlanChecksum(h, q, target);
  }

  lemma NothingToReplay(h: Digest, q: Inputs)
    requires q.Valid() && ReplayTable(q) == map[]
    ensures PlanOf(h, q).replayIds == [] && Authoritative(q) == q.Base()
  {
    hide PlanOf, ById;
    var ids := PlanOf(h, q).replayIds;
    assert ids == [] || ids[0] in ids;
    forall k ensures k !in ids {
      ReplayMembers(h, q, k);
      assert Replayable(q, k) ==> k in ReplayTable(q);
    }
  }
}
