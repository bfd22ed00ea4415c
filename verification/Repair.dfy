/** Production repair in the corruption drill: classify the injected faults and write the two
    known-bad keys back conditionally, beside other writers of the production table. */
module Repair {
  import opened Prelude
  import opened Domain
  import opened Ordering
  import opened Replay

  // -------------------------------------------------- fault classification

  datatype FaultError = NotOneAndOne | WrongMarker

  /** The checkpoint's verdict: which original rows were deleted and overwritten. */
  datatype Faults = Faults(deleted: Transaction, corrupted: Transaction)

  function Missing(restored: seq<Transaction>, live: Table): (r: seq<Transaction>)
    ensures forall x :: x in r <==> x in restored && x.id !in live
  {
    if restored == [] then []
    else
      assert restored == [restored[0]] + restored[1..];
      (if restored[0].id !in live then [restored[0]] else []) + Missing(restored[1..], live)
  }

  function Modified(restored: seq<Transaction>, live: Table): (r: seq<Transaction>)
    ensures forall x :: x in r <==> x in restored && x.id in live && live[x.id] != x
  {
    if restored == [] then []
    else
      assert restored == [restored[0]] + restored[1..];
      (if restored[0].id in live && live[restored[0].id] != restored[0] then [restored[0]] else [])
      + Modified(restored[1..], live)
  }

  function ClassifyFaults(restored: seq<Transaction>, live: Table, marker: string): Result<Faults, FaultError> {
    var missing, modified := Missing(restored, live), Modified(restored, live);
    if |missing| != 1 || |modified| != 1 then Err(NotOneAndOne)
    else if live[modified[0].id].payload != marker then Err(WrongMarker)
    else Ok(Faults(missing[0], modified[0]))
  }

  /** The live table differs from the restore by one deletion and one marked overwrite only. */
  ghost predicate OneDeletionOneMutation(R: Table, live: Table, f: Faults, marker: string) {
    && f.deleted.id in R && R[f.deleted.id] == f.deleted && f.deleted.id !in live
    && f.corrupted.id in R && R[f.corrupted.id] == f.corrupted
    && f.corrupted.id in live && live[f.corrupted.id] != f.corrupted && live[f.corrupted.id].payload == marker
    && forall k | k in R && k != f.deleted.id && k != f.corrupted.id :: k in live && live[k] == R[k]
  }

  lemma {:induction false} MissingUnique(restored: seq<Transaction>, live: Table)
    requires UniqueIds(restored)
    ensures UniqueIds(Missing(restored, live)) && UniqueIds(Modified(restored, live))
  {
    if restored != [] {
      var x, rest := restored[0], restored[1..];
      MissingUnique(rest, live);
      HeadUnique(x, rest, Missing(rest, live));
      HeadUnique(x, rest, Modified(rest, live));
      assert restored == [x] + rest;
      hide UniqueIds;
      KeepsHead(x, rest, live);
      hide Missing, Modified;
    }
  }

  lemma KeepsHead(x: Transaction, rest: seq<Transaction>, live: Table)
    ensures Missing([x] + rest, live) in {Missing(rest, live), [x] + Missing(rest, live)}
    ensures Modified([x] + rest, live) in {Modified(rest, live), [x] + Modified(rest, live)}
  {
    assert ([x] + rest)[1..] == rest;
    assert [] + Missing(rest, live) == Missing(rest, live) && [] + Modified(rest, live) == Modified(rest, live);
  }

  lemma HeadUnique(x: Transaction, rest: seq<Transaction>, kept: seq<Transaction>)
    requires forall y | y in rest :: y.id != x.id
    requires UniqueIds(kept) && forall y | y in kept :: y in rest
    ensures UniqueIds([x] + kept)
  {
    forall i | 0 <= i < |kept| ensures kept[i].id != x.id { assert kept[i] in rest; }
  }

  /** The "exactly one missing, exactly one modified" check accepts precisely those tables. */
  lemma FaultCheckExact(restored: seq<Transaction>, live: Table, marker: string, f: Faults)
    requires UniqueIds(restored)
    ensures ClassifyFaults(restored, live, marker) == Ok(f) <==>
              OneDeletionOneMutation(ById(restored), live, f, marker)
  {
    hide Missing, Modified, ById;
    var missing, modified := Missing(restored, live), Modified(restored, live);
    var R := ById(restored);
    ByIdUnique(restored);
    if ClassifyFaults(restored, live, marker) == Ok(f) {
      assert missing[0] in missing && modified[0] in modified;
      forall k | k in R && k != f.deleted.id && k != f.corrupted.id ensures k in live && live[k] == R[k] {
        assert R[k] in restored && R[k].id == k;
        assert R[k] != missing[0] && R[k] != modified[0];
        assert R[k] !in missing && R[k] !in modified;
      }
    }
    if OneDeletionOneMutation(R, live, f, marker) {
      MissingUnique(restored, live);
      forall x | x in missing ensures x == f.deleted { assert R[x.id] == x; }
      forall x | x in modified ensures x == f.corrupted { assert R[x.id] == x; }
      Singleton(missing, f.deleted);
      Singleton(modified, f.corrupted);
    }
  }

  lemma Singleton(xs: seq<Transaction>, x: Transaction)
    requires UniqueIds(xs) && x in xs && forall y | y in xs :: y == x
    ensures xs == [x]
  {
    assert |xs| > 1 ==> xs[0].id != xs[1].id;
    forall i | 0 <= i < |xs| ensures xs[i] == x { assert xs[i] in xs; }
    assert |xs| == 1;
  }

  // ------------------------------------------------------------ repair

  /** What other writers do to the production table in one moment: any deletions, then any writes. */
  datatype Edit = Edit(deletes: set<Id>, puts: Table)

  const STILL := Edit({}, map[])

  function Edited(t: Table, e: Edit): Table { (t - e.deletes) + e.puts }

  /** What other writers do around the two puts of one repair call: before each, and between it and
      whatever the call does next. */
  datatype Others = Others(beforeFirst: Edit, afterFirst: Edit, beforeSecond: Edit, afterSecond: Edit)

  const NOBODY := Others(STILL, STILL, STILL, STILL)

  /** How each put ends, and whether the read after a failed condition raises. */
  datatype RepairFaults = RepairFaults(
    first: PutFault, firstGetRaises: bool, second: PutFault, secondGetRaises: bool)

  const NO_FAULTS := RepairFaults(Smooth, false, Smooth, false)

  datatype RepairError = DeletedConflict | CorruptConflict | RequestRaised

  datatype RepairReport = RepairReport(
    boundedIds: seq<Id>, appliedIds: seq<Id>, idempotentIds: seq<Id>, complete: bool)

  datatype Condition = IfAbsent | IfPayload(marker: string)

  predicate Holds(c: Condition, t: Table, k: Id) {
    match c
    case IfAbsent => k !in t
    case IfPayload(marker) => k in t && t[k].payload == marker
  }

  datatype Wrote = Stored | AlreadyThere | Refused | Broke

  datatype Written = Written(table: Table, wrote: Wrote)

  /** The table just after the put of `x`. */
  function Put(t: Table, x: Transaction, c: Condition, fault: PutFault): Table {
    if Holds(c, t, x.id) && fault != RaiseBeforeEffect then t[x.id := x] else t
  }

  /** One conditional write of `x`, then what others do, then a confirming read if the condition failed. */
  function ConditionalWrite(t: Table, x: Transaction, c: Condition, fault: PutFault, after: Edit, getRaises: bool)
    : Written
  {
    var t' := Edited(Put(t, x, c, fault), after);
    Written(t',
            if fault != Smooth then Broke
            else if Holds(c, t, x.id) then Stored
            else if getRaises then Broke
            else if x.id in t' && t'[x.id] == x then AlreadyThere
            else Refused)
  }

  datatype Repaired = Repaired(table: Table, result: Result<RepairReport, RepairError>)

  /** Ids of the writes that ended as `w`, in order. */
  function Ended(f: Faults, first: Wrote, second: Wrote, w: Wrote): seq<Id> {
    if first == w && second == w then [f.deleted.id, f.corrupted.id]
    else if first == w then [f.deleted.id]
    else if second == w then [f.corrupted.id]
    else []
  }

  function ReportOf(f: Faults, first: Wrote, second: Wrote): RepairReport {
    var applied, idempotent := Ended(f, first, second, Stored), Ended(f, first, second, AlreadyThere);
    RepairReport(
      Sort(StrLt, [f.deleted.id, f.corrupted.id]), Sort(StrLt, applied), Sort(StrLt, idempotent),
      |applied| + |idempotent| == 2)
  }

  function WriteDeleted(f: Faults, env: RepairFaults, o: Others, t: Table): Written {
    ConditionalWrite(Edited(t, o.beforeFirst), f.deleted, IfAbsent, env.first, o.afterFirst, env.firstGetRaises)
  }

  function WriteCorrupted(f: Faults, marker: string, env: RepairFaults, o: Others, t: Table): Written {
    ConditionalWrite(Edited(t, o.beforeSecond), f.corrupted, IfPayload(marker), env.second, o.afterSecond,
                     env.secondGetRaises)
  }

  function RepairOutcome(f: Faults, marker: string, env: RepairFaults, o: Others, t: Table): Repaired {
    var one := WriteDeleted(f, env, o, t);
    if one.wrote == Broke then Repaired(one.table, Err(RequestRaised))
    else if one.wrote == Refused then Repaired(one.table, Err(DeletedConflict))
    else
      var two := WriteCorrupted(f, marker, env, o, one.table);
      if two.wrote == Broke then Repaired(two.table, Err(RequestRaised))
      else if two.wrote == Refused then Repaired(two.table, Err(CorruptConflict))
      else Repaired(two.table, Ok(ReportOf(f, one.wrote, two.wrote)))
  }

  class ProductionTable {
    var rows: Table

    /** Other writers act. */
    method Disturb(e: Edit)
      modifies this
      ensures rows == Edited(old(rows), e)
    {
      rows := (rows - e.deletes) + e.puts;
    }

    method Write(x: Transaction, c: Condition, fault: PutFault, after: Edit, getRaises: bool) returns (w: Wrote)
      modifies this
      ensures Written(rows, w) == ConditionalWrite(old(rows), x, c, fault, after, getRaises)
    {
      hide Edited;
      var holds := Holds(c, rows, x.id);
      if holds && fault != RaiseBeforeEffect { rows := rows[x.id := x]; }
      Disturb(after);
      if fault != Smooth { return Broke; }
      if holds { return Stored; }
      if getRaises { return Broke; }
      w := if x.id in rows && rows[x.id] == x then AlreadyThere else Refused;
    }

    method RepairProduction(f: Faults, marker: string, env: RepairFaults, o: Others)
      returns (r: Result<RepairReport, RepairError>)
      modifies this
      ensures Repaired(rows, r) == RepairOutcome(f, marker, env, o, old(rows))
    {
      hide Sort, StrLt, ConditionalWrite, Holds, Ended, Edited;
      Disturb(o.beforeFirst);
      var first := Write(f.deleted, IfAbsent, env.first, o.afterFirst, env.firstGetRaises);
      ghost var one := WriteDeleted(f, env, o, old(rows));
      assert one == Written(rows, first);
      if first == Broke { return Err(RequestRaised); }
      if first == Refused { return Err(DeletedConflict); }
      Disturb(o.beforeSecond);
      var second := Write(f.corrupted, IfPayload(marker), env.second, o.afterSecond, env.secondGetRaises);
      assert WriteCorrupted(f, marker, env, o, one.table) == Written(rows, second);
      if second == Broke { return Err(RequestRaised); }
      if second == Refused { return Err(CorruptConflict); }
      var applied, idempotent := Ended(f, first, second, Stored), Ended(f, first, second, AlreadyThere);
      r := Ok(RepairReport(
        Sort(StrLt, [f.deleted.id, f.corrupted.id]), Sort(StrLt, applied), Sort(StrLt, idempotent),
        |applied| + |idempotent| == 2));
    }
  }

  lemma NobodyEdits()
    ensures forall t: Table :: Edited(t, STILL) == t
  {
    forall t: Table ensures Edited(t, STILL) == t { assert t - {} == t; }
  }

  // ----------------------------------------------- beside other writers

  ghost predicate SameAt(a: Table, b: Table, k: Id) { (k in a <==> k in b) && (k in a ==> a[k] == b[k]) }

  ghost predicate Has(t: Table, x: Transaction) { x.id in t && t[x.id] == x }

  /** The first write ends the call. */
  predicate StopsEarly(f: Faults, env: RepairFaults, o: Others, t: Table) {
    WriteDeleted(f, env, o, t).wrote in {Broke, Refused}
  }

  /** What the other writers alone make of `t` during a call, or during one that stops early. */
  function OthersOnly(t: Table, o: Others, stopped: bool): Table {
    var one := Edited(Edited(t, o.beforeFirst), o.afterFirst);
    if stopped then one else Edited(Edited(one, o.beforeSecond), o.afterSecond)
  }

  /** The table the other writers alone would have left when the call ends. */
  function WithoutRepair(f: Faults, env: RepairFaults, o: Others, t: Table): Table {
    OthersOnly(t, o, StopsEarly(f, env, o, t))
  }

  /** Every table the production store passes through during one repair call. */
  function Instants(f: Faults, marker: string, env: RepairFaults, o: Others, t: Table): seq<Table> {
    var seen := Edited(t, o.beforeFirst);
    var one := WriteDeleted(f, env, o, t);
    [t, seen, Put(seen, f.deleted, IfAbsent, env.first), one.table]
    + (if StopsEarly(f, env, o, t) then []
       else
         var again := Edited(one.table, o.beforeSecond);
         [again, Put(again, f.corrupted, IfPayload(marker), env.second),
          WriteCorrupted(f, marker, env, o, one.table).table])
  }

  /** The first write: nothing, or the deleted row stored while its key is absent. */
  ghost predicate DeletedStep(f: Faults, a: Table, b: Table) {
    b == a || (f.deleted.id !in a && b == a[f.deleted.id := f.deleted])
  }

  /** The second write: nothing, or the corrupted key overwritten while it carries the marker. */
  ghost predicate CorruptedStep(f: Faults, marker: string, a: Table, b: Table) {
    || b == a
    || (f.corrupted.id in a && a[f.corrupted.id].payload == marker && b == a[f.corrupted.id := f.corrupted])
  }

  /** The instants in order: others edit, the first write, others edit; then, unless the first write ended
      the call, others edit, the second write, others edit. */
  ghost predicate StepByStep(f: Faults, marker: string, env: RepairFaults, o: Others, at: seq<Table>) {
    && at != [] && |at| == (if StopsEarly(f, env, o, at[0]) then 4 else 7)
    && at[1] == Edited(at[0], o.beforeFirst) && DeletedStep(f, at[1], at[2]) && at[3] == Edited(at[2], o.afterFirst)
    && (|at| == 7 ==>
          && at[4] == Edited(at[3], o.beforeSecond) && CorruptedStep(f, marker, at[4], at[5])
          && at[6] == Edited(at[5], o.afterSecond))
  }

  /** Whatever others do to any key at any moment: every change to the table is one of their edits in its
      place or a permitted conditional write, a key other than the two ends as they alone would have left
      it, and when the call returns each key has held its original at some instant. */
  lemma RepairUnderInterference(f: Faults, marker: string, env: RepairFaults, o: Others, t: Table)
    ensures var out, at := RepairOutcome(f, marker, env, o, t), Instants(f, marker, env, o, t);
            && at[0] == t && at[|at| - 1] == out.table && StepByStep(f, marker, env, o, at)
            && (forall k | k != f.deleted.id && k != f.corrupted.id ::
                  SameAt(out.table, WithoutRepair(f, env, o, t), k))
            && (out.result.Ok? ==>
                  && (exists i | 0 <= i < |at| :: Has(at[i], f.deleted))
                  && (exists i | 0 <= i < |at| :: Has(at[i], f.corrupted)))
  {
    hide Edited, Put, DeletedStep, CorruptedStep, SameAt, Has, ReportOf;
    PutSteps(f, marker, env, o, t);
    OtherKeysUntouched(f, marker, env, o, t);
    OriginalsHeld(f, marker, env, o, t);
  }

  lemma PutSteps(f: Faults, marker: string, env: RepairFaults, o: Others, t: Table)
    ensures var at := Instants(f, marker, env, o, t);
            DeletedStep(f, at[1], at[2]) && (|at| == 7 ==> CorruptedStep(f, marker, at[4], at[5]))
  {
    hide Edited;
  }

  lemma PutElsewhere(t: Table, u: Table, x: Transaction, c: Condition, fault: PutFault, k: Id)
    requires SameAt(t, u, k) && k != x.id
    ensures SameAt(Put(t, x, c, fault), u, k)
  {}

  lemma EditSame(t: Table, u: Table, e: Edit, k: Id)
    requires SameAt(t, u, k)
    ensures SameAt(Edited(t, e), Edited(u, e), k)
  {}

  lemma OtherKeysUntouched(f: Faults, marker: string, env: RepairFaults, o: Others, t: Table)
    ensures forall k | k != f.deleted.id && k != f.corrupted.id ::
              SameAt(RepairOutcome(f, marker, env, o, t).table, WithoutRepair(f, env, o, t), k)
  {
    hide Edited, SameAt, Put, ReportOf;
    var seen := Edited(t, o.beforeFirst);
    var mid := Edited(seen, o.afterFirst);
    var one := WriteDeleted(f, env, o, t).table;
    forall k | k != f.deleted.id && k != f.corrupted.id
      ensures SameAt(RepairOutcome(f, marker, env, o, t).table, WithoutRepair(f, env, o, t), k)
    {
      SameAtItself(seen, k);
      PutElsewhere(seen, seen, f.deleted, IfAbsent, env.first, k);
      EditSame(Put(seen, f.deleted, IfAbsent, env.first), seen, o.afterFirst, k);
      EditSame(one, mid, o.beforeSecond, k);
      PutElsewhere(Edited(one, o.beforeSecond), Edited(mid, o.beforeSecond), f.corrupted, IfPayload(marker),
                   env.second, k);
      EditSame(Put(Edited(one, o.beforeSecond), f.corrupted, IfPayload(marker), env.second),
               Edited(mid, o.beforeSecond),
               o.afterSecond, k);
    }
  }

  lemma SameAtItself(t: Table, k: Id)
    ensures SameAt(t, t, k)
  {}

  lemma OriginalsHeld(f: Faults, marker: string, env: RepairFaults, o: Others, t: Table)
    ensures var at := Instants(f, marker, env, o, t);
            RepairOutcome(f, marker, env, o, t).result.Ok? ==>
              (exists i | 0 <= i < |at| :: Has(at[i], f.deleted))
              && (exists i | 0 <= i < |at| :: Has(at[i], f.corrupted))
  {
    hide Edited, ReportOf;
    var at := Instants(f, marker, env, o, t);
    if RepairOutcome(f, marker, env, o, t).result.Ok? {
      assert Has(at[2], f.deleted) || Has(at[3], f.deleted);
      assert Has(at[5], f.corrupted) || Has(at[6], f.corrupted);
    }
  }

  /** Nobody else writes either key. */
  ghost predicate LeaveAlone(o: Others, f: Faults) {
    forall e | e in [o.beforeFirst, o.afterFirst, o.beforeSecond, o.afterSecond] ::
      Spares(e, f.deleted.id) && Spares(e, f.corrupted.id)
  }

  ghost predicate Spares(e: Edit, k: Id) { k !in e.deletes && k !in e.puts }

  /** Two tables that agree on the two keys. */
  ghost predicate Agree(a: Table, b: Table, f: Faults) { SameAt(a, b, f.deleted.id) && SameAt(a, b, f.corrupted.id) }

  lemma EditAgrees(a: Table, b: Table, f: Faults, e: Edit)
    requires Agree(a, b, f) && Spares(e, f.deleted.id) && Spares(e, f.corrupted.id)
    ensures Agree(Edited(a, e), b, f)
  {}

  lemma WriteAgrees(a: Table, b: Table, f: Faults, x: Transaction, c: Condition, fault: PutFault, e: Edit, raises: bool)
    requires Agree(a, b, f) && Spares(e, f.deleted.id) && Spares(e, f.corrupted.id) && x in [f.deleted, f.corrupted]
    ensures var p, q := ConditionalWrite(a, x, c, fault, e, raises), ConditionalWrite(b, x, c, fault, STILL, raises);
            p.wrote == q.wrote && Agree(p.table, q.table, f)
  {
    NobodyEdits();
    var u, v := Put(a, x, c, fault), Put(b, x, c, fault);
    assert Agree(u, v, f);
    EditAgrees(u, v, f, e);
    hide Edited, Put;
  }

  /** If others spare the two keys, the repair sees the same as on a quiet table: the same result, the
      same content under both keys. */
  lemma RepairIgnoresOthers(f: Faults, marker: string, env: RepairFaults, o: Others, t: Table, quiet: Table)
    requires LeaveAlone(o, f) && Agree(t, quiet, f)
    ensures var out, calm := RepairOutcome(f, marker, env, o, t), RepairOutcome(f, marker, env, NOBODY, quiet);
            out.result == calm.result && Agree(out.table, calm.table, f)
  {
    hide Edited, Agree, ConditionalWrite, ReportOf, Spares;
    NobodyEdits();
    EditAgrees(t, quiet, f, o.beforeFirst);
    WriteAgrees(Edited(t, o.beforeFirst), quiet, f, f.deleted, IfAbsent, env.first, o.afterFirst, env.firstGetRaises);
    var one, calm := WriteDeleted(f, env, o, t), WriteDeleted(f, env, NOBODY, quiet);
    EditAgrees(one.table, calm.table, f, o.beforeSecond);
    WriteAgrees(Edited(one.table, o.beforeSecond), calm.table, f, f.corrupted, IfPayload(marker), env.second,
                o.afterSecond, env.secondGetRaises);
  }

  /** One attempt and what others do during it. */
  datatype Attempt = Attempt(env: RepairFaults, others: Others)

  function AfterAttempts(f: Faults, marker: string, attempts: seq<Attempt>, t: Table): Table
    decreases |attempts|
  {
    if attempts == [] then t
    else
      var last := attempts[|attempts| - 1];
      RepairOutcome(f, marker, last.env, last.others, AfterAttempts(f, marker, attempts[..|attempts| - 1], t)).table
  }

  /** Attempts on a quiet table. */
  function QuietAttempts(envs: seq<RepairFaults>): seq<Attempt> {
    seq(|envs|, i requires 0 <= i < |envs| => Attempt(envs[i], NOBODY))
  }

  /** What the other writers alone would have left after the attempts. */
  function Background(f: Faults, marker: string, attempts: seq<Attempt>, t: Table): Table
    decreases |attempts|
  {
    if attempts == [] then t
    else
      var front, last := attempts[..|attempts| - 1], attempts[|attempts| - 1];
      OthersOnly(Background(f, marker, front, t), last.others,
                 StopsEarly(f, last.env, last.others, AfterAttempts(f, marker, front, t)))
  }

  lemma QuietBackground(f: Faults, marker: string, envs: seq<RepairFaults>, t: Table)
    ensures (forall a | a in QuietAttempts(envs) :: LeaveAlone(a.others, f))
    ensures Background(f, marker, QuietAttempts(envs), t) == t
    decreases |envs|
  {
    hide AfterAttempts, WriteDeleted, Edited;
    NobodyEdits();
    if envs != [] {
      var k := |envs| - 1;
      QuietBackground(f, marker, envs[..k], t);
      assert QuietAttempts(envs)[..k] == QuietAttempts(envs[..k]);
    }
  }

  /** The state repair aims for: both originals back, nothing else touched. */
  function Restored(t: Table, f: Faults): Table { t[f.deleted.id := f.deleted][f.corrupted.id := f.corrupted] }

  // -------------------------------------------------- a call that returns

  lemma TwoIds(a: Id, b: Id)
    ensures multiset([a, b]) == multiset([a]) + multiset([b])
  {
    assert [a, b] == [a] + [b];
  }

  lemma EndedAccounts(f: Faults, first: Wrote, second: Wrote)
    requires first == Stored || first == AlreadyThere
    requires second == Stored || second == AlreadyThere
    ensures var applied, idempotent := Ended(f, first, second, Stored), Ended(f, first, second, AlreadyThere);
            && |applied| + |idempotent| == 2
            && multiset([f.deleted.id, f.corrupted.id]) == multiset(applied) + multiset(idempotent)
  {
    TwoIds(f.deleted.id, f.corrupted.id);
  }

  lemma ReportAccounts(f: Faults, first: Wrote, second: Wrote)
    requires first == Stored || first == AlreadyThere
    requires second == Stored || second == AlreadyThere
    ensures var r := ReportOf(f, first, second);
            r.complete && multiset(r.boundedIds) == multiset(r.appliedIds) + multiset(r.idempotentIds)
  {
    hide Sort, StrLt, Ended;
    EndedAccounts(f, first, second);
  }

  /** The report's three lists go upwards. */
  lemma ReportOrdered(f: Faults, first: Wrote, second: Wrote)
    requires f.deleted.id != f.corrupted.id
    ensures var r := ReportOf(f, first, second);
            Upwards(r.boundedIds) && Upwards(r.appliedIds) && Upwards(r.idempotentIds)
  {
    hide Upwards, Sort, StrLt, Ended;
    SortedDistinct([f.deleted.id, f.corrupted.id]);
    EndedDistinct(f, first, second, Stored);
    EndedDistinct(f, first, second, AlreadyThere);
    SortedDistinct(Ended(f, first, second, Stored));
    SortedDistinct(Ended(f, first, second, AlreadyThere));
  }

  lemma EndedDistinct(f: Faults, first: Wrote, second: Wrote, w: Wrote)
    requires f.deleted.id != f.corrupted.id
    ensures Distinct(Ended(f, first, second, w))
  {}

  lemma AppliedExactly(f: Faults, first: Wrote, second: Wrote)
    requires f.deleted.id != f.corrupted.id
    ensures f.deleted.id in ReportOf(f, first, second).appliedIds <==> first == Stored
    ensures f.corrupted.id in ReportOf(f, first, second).appliedIds <==> second == Stored
  {
    hide Sort;
    SortElements(StrLt, Ended(f, first, second, Stored));
  }

  lemma QuietReturn(f: Faults, marker: string, env: RepairFaults, t: Table)
    requires f.deleted.id != f.corrupted.id && RepairOutcome(f, marker, env, NOBODY, t).result.Ok?
    ensures var out := RepairOutcome(f, marker, env, NOBODY, t);
            && out.table == Restored(t, f)
            && (f.deleted.id in out.result.value.appliedIds <==> f.deleted.id !in t)
            && (f.corrupted.id in out.result.value.appliedIds <==> Holds(IfPayload(marker), t, f.corrupted.id))
  {
    hide ReportOf, Edited;
    NobodyEdits();
    var one := WriteDeleted(f, env, NOBODY, t);
    assert one.table == t[f.deleted.id := f.deleted];
    var two := WriteCorrupted(f, marker, env, NOBODY, one.table);
    assert two.table == one.table[f.corrupted.id := f.corrupted];
    AppliedExactly(f, one.wrote, two.wrote);
  }

  lemma AgreeEverywhere(a: Table, b: Table, f: Faults)
    requires Agree(a, b, f) && forall k | k != f.deleted.id && k != f.corrupted.id :: SameAt(a, b, k)
    ensures a == b
  {
    forall k ensures (k in a <==> k in b) && (k in a ==> a[k] == b[k]) { assert SameAt(a, b, k); }
  }

  lemma RestoredOver(now: Table, t: Table, background: Table, f: Faults)
    requires Agree(now, Restored(t, f), f)
    requires forall k | k != f.deleted.id && k != f.corrupted.id :: SameAt(now, background, k)
    ensures now == Restored(background, f)
  {
    var b := Restored(background, f);
    forall k | k != f.deleted.id && k != f.corrupted.id ensures SameAt(now, b, k) { assert SameAt(now, background, k); }
    AgreeEverywhere(now, b, f);
  }

  /** While others spare the two keys, a repair that returns has put both originals in place and left
      everything else as others alone would have; its complete report accounts for both keys, listing
      as applied exactly a deleted key that was absent and a corrupted key that carried the marker. */
  lemma ReturnedRepairRestores(f: Faults, marker: string, env: RepairFaults, o: Others, t: Table)
    requires f.deleted.id != f.corrupted.id && LeaveAlone(o, f)
    requires RepairOutcome(f, marker, env, o, t).result.Ok?
    ensures var out := RepairOutcome(f, marker, env, o, t);
            && out.table == Restored(WithoutRepair(f, env, o, t), f) && out.result.value.complete
            && multiset(out.result.value.boundedIds) ==
                 multiset(out.result.value.appliedIds) + multiset(out.result.value.idempotentIds)
            && Upwards(out.result.value.boundedIds) && Upwards(out.result.value.appliedIds)
            && Upwards(out.result.value.idempotentIds)
            && (f.deleted.id in out.result.value.appliedIds <==> f.deleted.id !in t)
            && (f.corrupted.id in out.result.value.appliedIds <==>
                  f.corrupted.id in t && t[f.corrupted.id].payload == marker)
  {
    hide RepairOutcome, WithoutRepair, LeaveAlone, Upwards;
    var out := RepairOutcome(f, marker, env, o, t);
    SameAtItself(t, f.deleted.id);
    SameAtItself(t, f.corrupted.id);
    RepairIgnoresOthers(f, marker, env, o, t, t);
    QuietReturn(f, marker, env, t);
    OtherKeysUntouched(f, marker, env, o, t);
    ReturnedAccounts(f, marker, env, o, t);
    RestoredOver(out.table, t, WithoutRepair(f, env, o, t), f);
  }

  lemma ReturnedAccounts(f: Faults, marker: string, env: RepairFaults, o: Others, t: Table)
    requires RepairOutcome(f, marker, env, o, t).result.Ok?
    ensures var r := RepairOutcome(f, marker, env, o, t).result.value;
            && r.complete && multiset(r.boundedIds) == multiset(r.appliedIds) + multiset(r.idempotentIds)
            && (f.deleted.id != f.corrupted.id ==>
                  Upwards(r.boundedIds) && Upwards(r.appliedIds) && Upwards(r.idempotentIds))
  {
    hide ReportOf, ConditionalWrite, Upwards;
    var one := WriteDeleted(f, env, o, t);
    var two := WriteCorrupted(f, marker, env, o, one.table);
    ReportAccounts(f, one.wrote, two.wrote);
    if f.deleted.id != f.corrupted.id { ReportOrdered(f, one.wrote, two.wrote); }
  }

  // ------------------------------------------------------------- retries

  /** Live rows some failed repairs after `t`: only the two keys may have moved, to their originals. */
  ghost predicate PartlyRepaired(t: Table, f: Faults, now: Table) {
    && (forall k | k != f.deleted.id && k != f.corrupted.id :: SameAt(now, t, k))
    && (Has(now, f.deleted) || SameAt(now, t, f.deleted.id))
    && (Has(now, f.corrupted) || SameAt(now, t, f.corrupted.id))
  }

  lemma QuietRunRestoresOrKeeps(f: Faults, marker: string, env: RepairFaults, t: Table)
    requires f.deleted.id != f.corrupted.id
    ensures var now := RepairOutcome(f, marker, env, NOBODY, t).table;
            && (Has(now, f.deleted) || SameAt(now, t, f.deleted.id))
            && (Has(now, f.corrupted) || SameAt(now, t, f.corrupted.id))
  {
    hide ReportOf, Edited;
    NobodyEdits();
  }

  lemma OthersSpare(f: Faults, marker: string, env: RepairFaults, o: Others, t: Table, u: Table)
    requires LeaveAlone(o, f)
    ensures Agree(OthersOnly(u, o, false), u, f) && Agree(OthersOnly(u, o, true), u, f)
  {
    hide Edited, Spares, Agree;
    SameAtItself(u, f.deleted.id);
    SameAtItself(u, f.corrupted.id);
    AgreeItself(u, f);
    var a := Edited(u, o.beforeFirst);
    var b := Edited(a, o.afterFirst);
    EditAgrees(u, u, f, o.beforeFirst);
    EditAgrees(a, u, f, o.afterFirst);
    EditAgrees(b, u, f, o.beforeSecond);
    EditAgrees(Edited(b, o.beforeSecond), u, f, o.afterSecond);
  }

  lemma AgreeItself(t: Table, f: Faults)
    ensures Agree(t, t, f)
  {}

  lemma OthersSame(o: Others, stopped: bool, a: Table, b: Table, k: Id)
    requires SameAt(a, b, k)
    ensures SameAt(OthersOnly(a, o, stopped), OthersOnly(b, o, stopped), k)
  {
    hide Edited, SameAt;
    EditSame(a, b, o.beforeFirst, k);
    var a1, b1 := Edited(a, o.beforeFirst), Edited(b, o.beforeFirst);
    EditSame(a1, b1, o.afterFirst, k);
    var a2, b2 := Edited(a1, o.afterFirst), Edited(b1, o.afterFirst);
    EditSame(a2, b2, o.beforeSecond, k);
    EditSame(Edited(a2, o.beforeSecond), Edited(b2, o.beforeSecond), o.afterSecond, k);
  }

  lemma AttemptStaysPartial(f: Faults, marker: string, a: Attempt, background: Table, now: Table)
    requires f.deleted.id != f.corrupted.id && LeaveAlone(a.others, f) && PartlyRepaired(background, f, now)
    ensures PartlyRepaired(OthersOnly(background, a.others, StopsEarly(f, a.env, a.others, now)), f,
                           RepairOutcome(f, marker, a.env, a.others, now).table)
  {
    var stopped := StopsEarly(f, a.env, a.others, now);
    var next, out := OthersOnly(background, a.others, stopped), RepairOutcome(f, marker, a.env, a.others, now).table;
    hide RepairOutcome, OthersOnly, StopsEarly;
    OtherKeysUntouched(f, marker, a.env, a.others, now);
    forall k | k != f.deleted.id && k != f.corrupted.id ensures SameAt(out, next, k) {
      assert SameAt(now, background, k);
      OthersSame(a.others, stopped, now, background, k);
      var alone := WithoutRepair(f, a.env, a.others, now);
      assert SameAt(out, alone, k) && SameAt(alone, next, k);
    }
    AgreeItself(now, f);
    RepairIgnoresOthers(f, marker, a.env, a.others, now, now);
    QuietRunRestoresOrKeeps(f, marker, a.env, now);
    OthersSpare(f, marker, a.env, a.others, now, background);
  }

  lemma {:induction false} AttemptsStayPartial(f: Faults, marker: string, attempts: seq<Attempt>, t: Table)
    requires f.deleted.id != f.corrupted.id && forall a | a in attempts :: LeaveAlone(a.others, f)
    ensures PartlyRepaired(Background(f, marker, attempts, t), f, AfterAttempts(f, marker, attempts, t))
    decreases |attempts|
  {
    hide LeaveAlone, RepairOutcome, OthersOnly, StopsEarly;
    if attempts != [] {
      var k := |attempts| - 1;
      AttemptsStayPartial(f, marker, attempts[..k], t);
      AttemptStaysPartial(f, marker, attempts[k], Background(f, marker, attempts[..k], t),
                          AfterAttempts(f, marker, attempts[..k], t));
    }
  }

  lemma PartlyThenRestored(background: Table, f: Faults, now: Table)
    requires PartlyRepaired(background, f, now)
    ensures Restored(now, f) == Restored(background, f)
  {
    var a, b := Restored(now, f), Restored(background, f);
    forall k | k != f.deleted.id && k != f.corrupted.id ensures SameAt(a, b, k) { assert SameAt(now, background, k); }
    AgreeEverywhere(a, b, f);
  }

  /** However many attempts failed half-way, and whatever others did to other keys meanwhile, the
      attempt that returns leaves both originals over what others alone would have left. */
  lemma RetriedRepairRestores(f: Faults, marker: string, attempts: seq<Attempt>, t: Table)
    requires f.deleted.id != f.corrupted.id && attempts != []
    requires forall a | a in attempts :: LeaveAlone(a.others, f)
    ensures var last := attempts[|attempts| - 1];
            var before := AfterAttempts(f, marker, attempts[..|attempts| - 1], t);
            RepairOutcome(f, marker, last.env, last.others, before).result.Ok? ==>
              AfterAttempts(f, marker, attempts, t) == Restored(Background(f, marker, attempts, t), f)
  {
    hide RepairOutcome, LeaveAlone, Restored, Background;
    var last := attempts[|attempts| - 1];
    var before := AfterAttempts(f, marker, attempts[..|attempts| - 1], t);
    if RepairOutcome(f, marker, last.env, last.others, before).result.Ok? {
      AttemptsStayPartial(f, marker, attempts, t);
      var now := AfterAttempts(f, marker, attempts, t);
      assert last in attempts;
      ReturnedRepairRestores(f, marker, last.env, last.others, before);
      RestoredTwice(WithoutRepair(f, last.env, last.others, before), f);
      PartlyThenRestored(Background(f, marker, attempts, t), f, now);
    }
  }

  lemma RestoredTwice(t: Table, f: Faults)
    ensures Restored(Restored(t, f), f) == Restored(t, f)
  {}

  ghost predicate Repairable(t: Table, f: Faults, marker: string) {
    && (f.deleted.id in t ==> t[f.deleted.id] == f.deleted)
    && f.corrupted.id in t && (t[f.corrupted.id].payload == marker || t[f.corrupted.id] == f.corrupted)
  }

  lemma QuietReturnsWhen(f: Faults, marker: string, t: Table)
    requires f.deleted.id != f.corrupted.id
    ensures RepairOutcome(f, marker, NO_FAULTS, NOBODY, t).result.Ok? <==> Repairable(t, f, marker)
  {
    hide ReportOf, Edited;
    NobodyEdits();
  }

  /** On a quiet table the error of a repair names the first write that did not come through: a request that
      raised, or a key that holds neither what the write expected nor the original. */
  lemma QuietErrorExactly(f: Faults, marker: string, env: RepairFaults, t: Table)
    requires f.deleted.id != f.corrupted.id
    ensures var error := RepairOutcome(f, marker, env, NOBODY, t).result;
            var through := env.first == Smooth &&
                           (f.deleted.id !in t || (!env.firstGetRaises && t[f.deleted.id] == f.deleted));
            var marked := f.corrupted.id in t && t[f.corrupted.id].payload == marker;
            && (error == Err(DeletedConflict) <==>
                  env.first == Smooth && f.deleted.id in t && !env.firstGetRaises && t[f.deleted.id] != f.deleted)
            && (error == Err(CorruptConflict) <==>
                  through && env.second == Smooth && !marked && !env.secondGetRaises && !Has(t, f.corrupted))
            && (error == Err(RequestRaised) <==>
                  || env.first != Smooth || (f.deleted.id in t && env.firstGetRaises)
                  || (through && (env.second != Smooth || (!marked && env.secondGetRaises))))
  {
    hide ReportOf, Edited;
    NobodyEdits();
  }

  lemma AttemptKeepsRepairable(f: Faults, marker: string, env: RepairFaults, t: Table)
    requires f.deleted.id != f.corrupted.id
    ensures Repairable(RepairOutcome(f, marker, env, NOBODY, t).table, f, marker) <==> Repairable(t, f, marker)
  {
    hide ReportOf, Edited;
    NobodyEdits();
  }

  lemma {:induction false} AttemptsKeepRepairable(f: Faults, marker: string, attempts: seq<Attempt>, t: Table)
    requires f.deleted.id != f.corrupted.id && forall a | a in attempts :: LeaveAlone(a.others, f)
    ensures Repairable(AfterAttempts(f, marker, attempts, t), f, marker) <==> Repairable(t, f, marker)
    decreases |attempts|
  {
    hide LeaveAlone, RepairOutcome;
    if attempts != [] {
      var k := |attempts| - 1;
      var now := AfterAttempts(f, marker, attempts[..k], t);
      AttemptsKeepRepairable(f, marker, attempts[..k], t);
      AttemptKeepsRepairable(f, marker, attempts[k].env, now);
      AgreeItself(now, f);
      RepairIgnoresOthers(f, marker, attempts[k].env, attempts[k].others, now, now);
    }
  }

  /** While others spare the two keys, a fault-free attempt after any failed ones returns exactly when
      the deleted key was absent or already right and the corrupted key carried the marker or was
      already right. */
  lemma RepairReturnsExactlyWhen(f: Faults, marker: string, attempts: seq<Attempt>, o: Others, t: Table)
    requires f.deleted.id != f.corrupted.id && LeaveAlone(o, f)
    requires forall a | a in attempts :: LeaveAlone(a.others, f)
    ensures RepairOutcome(f, marker, NO_FAULTS, o, AfterAttempts(f, marker, attempts, t)).result.Ok? <==>
              && (f.deleted.id in t ==> t[f.deleted.id] == f.deleted)
              && f.corrupted.id in t && (t[f.corrupted.id].payload == marker || t[f.corrupted.id] == f.corrupted)
  {
    hide RepairOutcome, LeaveAlone, AfterAttempts;
    var now := AfterAttempts(f, marker, attempts, t);
    AttemptsKeepRepairable(f, marker, attempts, t);
    AgreeItself(now, f);
    RepairIgnoresOthers(f, marker, NO_FAULTS, o, now, now);
    QuietReturnsWhen(f, marker, now);
  }
}
