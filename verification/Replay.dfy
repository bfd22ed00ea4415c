/** Bounded conditional replay against a target shared with other conditional writers.

    Each visit to an id is accompanied by a `Turn`: what the environment does around it. Other
    writers may insert rows at any moment (conditional writes never overwrite), a read may raise,
    and a put may raise before or after its effect. Missing turns are calm. */
module Replay {
  import opened Prelude
  import opened Domain
  import opened Ordering
  import opened Planner

  datatype PutFault = Smooth | RaiseBeforeEffect | RaiseAfterEffect

  datatype Turn = Turn(
    beforeGet: Table, getRaises: bool,
    beforePut: Table, put: PutFault,
    beforeReget: Table, regetRaises: bool)

  const CALM := Turn(map[], false, map[], Smooth, map[], false)

  function TurnAt(turns: seq<Turn>, i: nat): Turn { if i < |turns| then turns[i] else CALM }

  /** Other conditional writers insert `writes`; entries already present keep their content. */
  function Absorb(table: Table, writes: Table): Table { writes + table }

  datatype TargetError = TargetRaised

  /** The conditional target: `get` and `put_if_absent` on a dictionary, with the environment's
      part of each call passed in. With no foreign writes and no fault it is the local target. */
  class ConditionalTarget {
    var items: Table

    constructor (rows: seq<Transaction>)
      ensures items == ById(rows)
    {
      items := ById(rows);
    }

    method Get(k: Id, others: Table, raises: bool) returns (r: Result<Option<Transaction>, TargetError>)
      modifies this
      ensures items == Absorb(old(items), others)
      ensures r == if raises then Err(TargetRaised)
                   else Ok(if k in items then Some(items[k]) else None)
    {
      items := Absorb(items, others);
      if raises { return Err(TargetRaised); }
      r := Ok(if k in items then Some(items[k]) else None);
    }

    method PutIfAbsent(x: Transaction, others: Table, fault: PutFault) returns (r: Result<bool, TargetError>)
      modifies this
      ensures var seen := Absorb(old(items), others);
              && items == (if fault == RaiseBeforeEffect || x.id in seen then seen else seen[x.id := x])
              && r == (if fault == Smooth then Ok(x.id !in seen) else Err(TargetRaised))
    {
      items := Absorb(items, others);
      if fault == RaiseBeforeEffect { return Err(TargetRaised); }
      var absent := x.id !in items;
      if absent { items := items[x.id := x]; }
      r := if fault == Smooth then Ok(absent) else Err(TargetRaised);
    }
  }

  datatype ReplayResult = ReplayResult(
    planChecksum: string, validationTimestamp: Time, executedAt: Time,
    requestedIds: seq<Id>, appliedIds: seq<Id>, idempotentIds: seq<Id>,
    conflictIds: seq<Id>, failedIds: seq<Id>,
    dryRun: bool, approved: bool, approver: Option<string>, approvalReference: Option<string>)
  {
    predicate Complete() {
      && !dryRun && approved && conflictIds == [] && failedIds == []
      && (set k | k in requestedIds) == (set k | k in appliedIds + idempotentIds)
    }
  }

  datatype ReplayError = BadBatchSize | ReplayBeforeValidation | ApprovalIncomplete | TargetFailed

  datatype Request = Request(
    plan: Plan, candidates: seq<Transaction>, validationTimestamp: Time, executedAt: Time,
    approved: bool, approver: Option<string>, approvalReference: Option<string>,
    dryRun: bool, batchSize: int, turns: seq<Turn>)
  {
    function Wanted(): seq<Id> { plan.replayIds }

    function Candidates(): Table { ById(candidates) }

    /** How many ids this run visits: `wanted[:batch_size]`. */
    function Limit(): nat
      ensures Limit() <= |Wanted()|
    {
      if batchSize < 0 then 0 else if batchSize < |Wanted()| then batchSize else |Wanted()|
    }
  }

  function Unset(s: Option<string>): bool { s.None? || s.value == "" }

  function Refusal(req: Request): Option<ReplayError> {
    if req.batchSize < 1 || req.batchSize > 25 then Some(BadBatchSize)
    else if req.executedAt < req.validationTimestamp then Some(ReplayBeforeValidation)
    else if req.approved && (Unset(req.approver) || Unset(req.approvalReference)) then Some(ApprovalIncomplete)
    else None
  }

  datatype Verdict = Applied | Idempotent | Conflicting | Failed | Unlisted | Aborted

  datatype Visited = Visited(table: Table, verdict: Verdict)

  /** One pass of the loop body for `id`. */
  function Visit(req: Request, id: Id, turn: Turn, t: Table): Visited {
    if id !in req.Candidates() then Visited(t, Failed)
    else
      var c := req.Candidates()[id];
      var t1 := Absorb(t, turn.beforeGet);
      if turn.getRaises then Visited(t1, Aborted)
      else if id in t1 then Visited(t1, if t1[id] == c then Idempotent else Conflicting)
      else if req.dryRun then Visited(t1, Unlisted)
      else if !req.approved then Visited(t1, Failed)
      else
        var t2 := Absorb(t1, turn.beforePut);
        match turn.put
        case RaiseBeforeEffect => Visited(t2, Failed)
        case RaiseAfterEffect => Visited(if id in t2 then t2 else t2[id := c], Failed)
        case Smooth =>
          if id !in t2 then Visited(t2[id := c], Applied)
          else
            var t3 := Absorb(t2, turn.beforeReget);
            if turn.regetRaises then Visited(t3, Failed)
            else Visited(t3, if t3[id] == c then Idempotent else Conflicting)
  }

  datatype Progress = Progress(table: Table, verdicts: seq<Verdict>, aborted: bool)

  /** The loop from position `i` on; a raising read outside the try block ends the run. */
  function Drive(req: Request, i: nat, t: Table): (p: Progress)
    requires i <= req.Limit()
    ensures !p.aborted ==> |p.verdicts| == req.Limit() - i
    ensures Aborted !in p.verdicts
    decreases req.Limit() - i
  {
    if i == req.Limit() then Progress(t, [], false)
    else
      var v := Visit(req, req.Wanted()[i], TurnAt(req.turns, i), t);
      if v.verdict == Aborted then Progress(v.table, [], true)
      else
        var rest := Drive(req, i + 1, v.table);
        Progress(rest.table, [v.verdict] + rest.verdicts, rest.aborted)
  }

  /** Ids whose verdict is `v`, in visiting order. */
  function Pick(ids: seq<Id>, verdicts: seq<Verdict>, v: Verdict): seq<Id>
    requires |verdicts| <= |ids|
    decreases |verdicts|
  {
    if verdicts == [] then []
    else
      var n := |verdicts| - 1;
      Pick(ids, verdicts[..n], v) + (if verdicts[n] == v then [ids[n]] else [])
  }

  function ResultOf(req: Request, verdicts: seq<Verdict>): ReplayResult
    requires |verdicts| == req.Limit()
  {
    var ids := req.Wanted();
    ReplayResult(
      req.plan.checksum, req.validationTimestamp, req.executedAt, ids,
      Sort(StrLt, Pick(ids, verdicts, Applied)),
      Sort(StrLt, Pick(ids, verdicts, Idempotent)),
      Sort(StrLt, Pick(ids, verdicts, Conflicting)),
      Sort(StrLt, Pick(ids, verdicts, Failed) + ids[req.Limit()..]),
      req.dryRun, req.approved, req.approver, req.approvalReference)
  }

  datatype Settled = Settled(table: Table, result: Result<ReplayResult, ReplayError>)

  /** The whole call: the target afterwards and what the caller sees. */
  function ReplayOutcome(req: Request, t: Table): Settled {
    if Refusal(req).Some? then Settled(t, Err(Refusal(req).value))
    else
      var p := Drive(req, 0, t);
      Settled(p.table, if p.aborted then Err(TargetFailed) else Ok(ResultOf(req, p.verdicts)))
  }

  method VisitTarget(req: Request, id: Id, turn: Turn, target: ConditionalTarget) returns (v: Verdict)
    modifies target
    ensures Visited(target.items, v) == Visit(req, id, turn, old(target.items))
  {
    var byId := req.Candidates();
    if id !in byId { return Failed; }
    ByIdKeyed(req.candidates);
    var c := byId[id];
    var existing := target.Get(id, turn.beforeGet, turn.getRaises);
    if existing.Err? { return Aborted; }
    if existing.value.Some? {
      return if existing.value.value == c then Idempotent else Conflicting;
    }
    if req.dryRun { return Unlisted; }
    if !req.approved { return Failed; }
    var put := target.PutIfAbsent(c, turn.beforePut, turn.put);
    if put.Err? { return Failed; }
    if put.value { return Applied; }
    var concurrent := target.Get(id, turn.beforeReget, turn.regetRaises);
    if concurrent.Err? { return Failed; }
    v := if concurrent.value == Some(c) then Idempotent else Conflicting;
  }

  lemma PickNothing(ids: seq<Id>)
    ensures forall v :: Pick(ids, [], v) == []
  {}

  lemma PickGrows(ids: seq<Id>, verdicts: seq<Verdict>, v: Verdict)
    requires |verdicts| < |ids|
    ensures forall w ::
              Pick(ids, verdicts + [v], w) == Pick(ids, verdicts, w) + (if v == w then [ids[|verdicts|]] else [])
  {
    assert (verdicts + [v])[..|verdicts|] == verdicts;
  }

  /** From position `i` and `table` on, the loop completes the run that started at `t` and has reached `verdicts`. */
  ghost predicate OnCourse(req: Request, t: Table, i: nat, table: Table, verdicts: seq<Verdict>)
    requires i <= req.Limit()
  {
    var rest := Drive(req, i, table);
    Drive(req, 0, t) == Progress(rest.table, verdicts + rest.verdicts, rest.aborted)
  }

  lemma CourseStarts(req: Request, t: Table)
    ensures OnCourse(req, t, 0, t, [])
  {
    hide Drive;
    assert [] + Drive(req, 0, t).verdicts == Drive(req, 0, t).verdicts;
  }

  lemma CourseGoesOn(req: Request, t: Table, i: nat, table: Table, verdicts: seq<Verdict>)
    requires i < req.Limit() && OnCourse(req, t, i, table, verdicts)
    ensures var v := Visit(req, req.Wanted()[i], TurnAt(req.turns, i), table);
            if v.verdict == Aborted then Drive(req, 0, t).aborted && Drive(req, 0, t).table == v.table
            else OnCourse(req, t, i + 1, v.table, verdicts + [v.verdict])
  {
    hide Visit;
    var v := Visit(req, req.Wanted()[i], TurnAt(req.turns, i), table);
    if v.verdict != Aborted {
      var rest := Drive(req, i + 1, v.table);
      assert verdicts + ([v.verdict] + rest.verdicts) == verdicts + [v.verdict] + rest.verdicts;
    }
  }

  lemma CourseEnds(req: Request, t: Table, table: Table, verdicts: seq<Verdict>)
    requires OnCourse(req, t, req.Limit(), table, verdicts)
    ensures Drive(req, 0, t) == Progress(table, verdicts, false)
  {
    assert verdicts + [] == verdicts;
  }

  method ExecuteReplay(req: Request, target: ConditionalTarget) returns (r: Result<ReplayResult, ReplayError>)
    modifies target
    ensures Settled(target.items, r) == ReplayOutcome(req, old(target.items))
  {
    hide Visit, Sort, StrLt, ById, Pick, Drive, OnCourse;
    CourseStarts(req, target.items);
    if Refusal(req).Some? { return Err(Refusal(req).value); }
    var ids, limit := req.Wanted(), req.Limit();
    var applied, idempotent, conflicts, failed: seq<Id> := [], [], [], [];
    ghost var verdicts: seq<Verdict> := [];
    PickNothing(ids);
    var i := 0;
    while i < limit
      invariant 0 <= i <= limit == req.Limit() && |verdicts| == i
      invariant OnCourse(req, old(target.items), i, target.items, verdicts)
      invariant applied == Pick(ids, verdicts, Applied)
      invariant idempotent == Pick(ids, verdicts, Idempotent)
      invariant conflicts == Pick(ids, verdicts, Conflicting)
      invariant failed == Pick(ids, verdicts, Failed)
    {
      ghost var before := target.items;
      var v := VisitTarget(req, ids[i], TurnAt(req.turns, i), target);
      CourseGoesOn(req, old(target.items), i, before, verdicts);
      if v == Aborted { return Err(TargetFailed); }
      PickGrows(ids, verdicts, v);
      match v {
        case Applied => applied := applied + [ids[i]];
        case Idempotent => idempotent := idempotent + [ids[i]];
        case Conflicting => conflicts := conflicts + [ids[i]];
        case Failed => failed := failed + [ids[i]];
        case Unlisted =>
      }
      verdicts := verdicts + [v];
      i := i + 1;
    }
    CourseEnds(req, old(target.items), target.items, verdicts);
    r := Ok(ReplayResult(
      req.plan.checksum, req.validationTimestamp, req.executedAt, ids,
      Sort(StrLt, applied), Sort(StrLt, idempotent), Sort(StrLt, conflicts),
      Sort(StrLt, failed + ids[limit..]),
      req.dryRun, req.approved, req.approver, req.approvalReference));
  }
}
