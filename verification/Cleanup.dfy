/** The dependency-aware teardown plan. */
module Cleanup {
  import opened Prelude
  import opened Domain
  import opened Ordering

  const STAGES: seq<string> := [
    "temporary-recovery", "regional-runtime", "replication-relationships", "dynamodb",
    "s3-data", "kms", "cloudwatch", "evidence-archive"]

  datatype Resource = Resource(
    identifier: Id, stage: string, region: string, shared: bool,
    lockedUntil: Option<Time>, protectsEvidence: bool, replicated: bool)

  datatype Decision = Decision(delete: seq<Id>, retain: seq<Id>)

  datatype CleanupError = DuplicateResource | UnknownStage | RegionNotApproved | SharedResource | NoDetachStage

  /** `STAGES.index(stage)`; one past the end for a stage that is not listed. */
  function StageIndex(stage: string, i: nat := 0): (r: nat)
    requires i <= |STAGES|
    ensures i <= r <= |STAGES| && (r < |STAGES| ==> STAGES[r] == stage)
    decreases |STAGES| - i
  {
    if i == |STAGES| || STAGES[i] == stage then i else StageIndex(stage, i + 1)
  }

  /** Teardown order: stage first, then identifier. */
  predicate Sooner(a: Resource, b: Resource) {
    var i, j := StageIndex(a.stage), StageIndex(b.stage);
    i < j || (i == j && StrLt(a.identifier, b.identifier))
  }

  predicate Kept(r: Resource, now: Time) {
    || r.stage == "evidence-archive" || r.protectsEvidence
    || (r.lockedUntil.Some? && r.lockedUntil.value > now)
  }

  /** What is wrong with `r`, coming after `earlier`; the checks in their order. */
  function Fault(earlier: seq<Resource>, r: Resource, regions: set<string>): Option<CleanupError> {
    if exists e :: e in earlier && e.identifier == r.identifier then Some(DuplicateResource)
    else if r.stage !in STAGES then Some(UnknownStage)
    else if r.region !in regions then Some(RegionNotApproved)
    else if r.shared then Some(SharedResource)
    else None
  }

  function FirstFault(rs: seq<Resource>, regions: set<string>): Option<CleanupError> {
    if rs == [] then None
    else
      var n := |rs| - 1;
      if FirstFault(rs[..n], regions).Some? then FirstFault(rs[..n], regions)
      else Fault(rs[..n], rs[n], regions)
  }

  predicate LacksDetach(rs: seq<Resource>) {
    && (exists r :: r in rs && r.replicated)
    && !(exists r :: r in rs && r.stage == "replication-relationships")
  }

  function Names(rs: seq<Resource>, keep: bool, now: Time): (ids: seq<Id>)
  {
    if rs == [] then []
    else
      var n := |rs| - 1;
      Names(rs[..n], keep, now) + (if Kept(rs[n], now) == keep then [rs[n].identifier] else [])
  }

  function Ruling(rs: seq<Resource>, regions: set<string>, now: Time): Result<Decision, CleanupError> {
    if FirstFault(rs, regions).Some? then Err(FirstFault(rs, regions).value)
    else if LacksDetach(rs) then Err(NoDetachStage)
    else
      var ordered := Sort(Sooner, rs);
      Ok(Decision(Names(ordered, false, now), Names(ordered, true, now)))
  }

  lemma {:induction false} FaultsPersist(rs: seq<Resource>, regions: set<string>, i: nat)
    requires i <= |rs| && FirstFault(rs[..i], regions).Some?
    ensures FirstFault(rs, regions) == FirstFault(rs[..i], regions)
  {
    if i == |rs| {
      assert rs[..i] == rs;
    } else {
      hide FirstFault;
      var n := |rs| - 1;
      assert rs[..n][..i] == rs[..i];
      FaultsPersist(rs[..n], regions, i);
      FaultThenRest(rs, regions);
    }
  }

  lemma FaultThenRest(rs: seq<Resource>, regions: set<string>)
    requires rs != []
    ensures var n := |rs| - 1;
            FirstFault(rs, regions) == if FirstFault(rs[..n], regions).Some? then FirstFault(rs[..n], regions)
                                       else Fault(rs[..n], rs[n], regions)
  {
    hide Fault;
  }

  /** The next resource decides, when nothing was wrong so far. */
  lemma FaultNext(rs: seq<Resource>, regions: set<string>, i: nat)
    requires i < |rs| && FirstFault(rs[..i], regions).None?
    ensures FirstFault(rs[..i + 1], regions) == Fault(rs[..i], rs[i], regions)
    ensures Fault(rs[..i], rs[i], regions).Some? ==> FirstFault(rs, regions) == Fault(rs[..i], rs[i], regions)
  {
    hide Fault, FirstFault;
    assert rs[..i + 1][..i] == rs[..i];
    FaultThenRest(rs[..i + 1], regions);
    if Fault(rs[..i], rs[i], regions).Some? { FaultsPersist(rs, regions, i + 1); }
  }

  lemma NothingWrong(regions: set<string>)
    ensures FirstFault([], regions) == None
  {}

  method CleanupPlan(rs: seq<Resource>, regions: set<string>, now: Time) returns (r: Result<Decision, CleanupError>)
    ensures r == Ruling(rs, regions, now)
  {
    hide Sort, Sooner, StrLt, FirstFault, STAGES;
    NothingWrong(regions);
    var seen: set<Id> := {};
    var i := 0;
    while i < |rs|
      invariant 0 <= i <= |rs| && FirstFault(rs[..i], regions).None?
      invariant forall k :: k in seen <==> exists e :: e in rs[..i] && e.identifier == k
    {
      var x := rs[i];
      assert rs[..i + 1] == rs[..i] + [x];
      FaultNext(rs, regions, i);
      if x.identifier in seen { return Err(DuplicateResource); }
      seen := seen + {x.identifier};
      if x.stage !in STAGES { return Err(UnknownStage); }
      if x.region !in regions { return Err(RegionNotApproved); }
      if x.shared { return Err(SharedResource); }
      i := i + 1;
    }
    assert rs[..i] == rs;
    if LacksDetach(rs) { return Err(NoDetachStage); }
    var ordered := Sort(Sooner, rs);
    var delete, retain := [], [];
    i := 0;
    while i < |ordered|
      invariant 0 <= i <= |ordered|
      invariant delete == Names(ordered[..i], false, now) && retain == Names(ordered[..i], true, now)
    {
      assert ordered[..i + 1][..i] == ordered[..i];
      if Kept(ordered[i], now) {
        retain := retain + [ordered[i].identifier];
      } else {
        delete := delete + [ordered[i].identifier];
      }
      i := i + 1;
    }
    assert ordered[..i] == ordered;
    r := Ok(Decision(delete, retain));
  }

  // ----------------------------------------------------------- meaning

  ghost predicate DistinctNames(rs: seq<Resource>) {
    forall i, j | 0 <= i < j < |rs| :: rs[i].identifier != rs[j].identifier
  }

  /** The number of a stage in teardown; 8 for a stage that is not known. */
  function StageNumber(stage: string): nat {
    if stage == "temporary-recovery" then 0
    else if stage == "regional-runtime" then 1
    else if stage == "replication-relationships" then 2
    else if stage == "dynamodb" then 3
    else if stage == "s3-data" then 4
    else if stage == "kms" then 5
    else if stage == "cloudwatch" then 6
    else if stage == "evidence-archive" then 7
    else 8
  }

  lemma StageExactly(stage: string)
    ensures StageIndex(stage) == StageNumber(stage) && (stage in STAGES <==> StageNumber(stage) < 8)
  {
    StageFrom(stage, 0);
  }

  lemma {:induction false} StageFrom(stage: string, i: nat)
    requires i <= |STAGES| && forall j | 0 <= j < i :: STAGES[j] != stage
    ensures StageIndex(stage, i) == StageNumber(stage) && (stage in STAGES <==> StageNumber(stage) < 8)
    decreases |STAGES| - i
  {
    if i == |STAGES| {
      assert STAGES[0] != stage && STAGES[1] != stage && STAGES[2] != stage && STAGES[3] != stage
          && STAGES[4] != stage && STAGES[5] != stage && STAGES[6] != stage && STAGES[7] != stage;
    } else if STAGES[i] != stage {
      StageFrom(stage, i + 1);
    } else {
      NumberAt(i);
    }
  }

  lemma NumberAt(i: nat)
    requires i < |STAGES|
    ensures StageNumber(STAGES[i]) == i
  {
    assert "evidence-archive"[0] != "regional-runtime"[0];
    if i == 0 {} else if i == 1 {} else if i == 2 {} else if i == 3 {} else if i == 4 {} else if i == 5 {}
    else if i == 6 {} else { assert i == 7; }
  }

  /** One resource before another: the earlier stage, then the name that comes first. */
  ghost predicate TornDownBefore(a: Resource, b: Resource) {
    || StageNumber(a.stage) < StageNumber(b.stage)
    || (StageNumber(a.stage) == StageNumber(b.stage) && Precedes(a.identifier, b.identifier))
  }

  lemma SoonerExactly(a: Resource, b: Resource)
    ensures Sooner(a, b) <==> TornDownBefore(a, b)
  {
    StageExactly(a.stage);
    StageExactly(b.stage);
    StrLtExactly(a.identifier, b.identifier);
    hide StageIndex, StageNumber, STAGES, StrLt, Precedes;
  }

  /** What a caller must bring: stated without any order of checks. */
  ghost predicate Acceptable(rs: seq<Resource>, regions: set<string>) {
    && DistinctNames(rs)
    && AllFit(rs, regions)
    && ((exists r :: r in rs && r.replicated) ==> exists r :: r in rs && r.stage == "replication-relationships")
  }

  ghost predicate AllFit(rs: seq<Resource>, regions: set<string>) {
    forall r | r in rs :: StageNumber(r.stage) < 8 && r.region in regions && !r.shared
  }

  /** What must stay: the evidence archive, whatever protects evidence, and whatever is still locked. */
  ghost predicate MustStay(r: Resource, now: Time) {
    r.stage == "evidence-archive" || r.protectsEvidence || (r.lockedUntil.Some? && now < r.lockedUntil.value)
  }

  lemma LastFits(rs: seq<Resource>, regions: set<string>)
    requires rs != []
    ensures var n := |rs| - 1;
            && (DistinctNames(rs) <==>
                  DistinctNames(rs[..n]) && forall e | e in rs[..n] :: e.identifier != rs[n].identifier)
            && (AllFit(rs, regions) <==>
                  AllFit(rs[..n], regions) && rs[n].stage in STAGES && rs[n].region in regions && !rs[n].shared)
  {
    StageExactly(rs[|rs| - 1].stage);
    hide STAGES, StageNumber, StageIndex;
    var n := |rs| - 1;
    assert rs == rs[..n] + [rs[n]];
    assert forall i | 0 <= i < n :: rs[i] in rs[..n];
  }

  lemma {:induction false} NoFaultExactlyWhen(rs: seq<Resource>, regions: set<string>)
    ensures FirstFault(rs, regions).None? <==> DistinctNames(rs) && AllFit(rs, regions)
  {
    if rs != [] {
      NoFaultExactlyWhen(rs[..|rs| - 1], regions);
      LastFits(rs, regions);
      hide DistinctNames, AllFit, STAGES;
    }
  }

  lemma SoonerIsStrict()
    ensures StrictOrder(Sooner)
  {
    hide StrLt, StageIndex;
    StrLtIsStrictOrder();
  }

  lemma NamesSeparate(rs: seq<Resource>)
    requires DistinctNames(rs)
    ensures Separated(Sooner, rs)
  {
    hide StageIndex, StrLt;
    forall i, j | 0 <= i < j < |rs| ensures Sooner(rs[i], rs[j]) || Sooner(rs[j], rs[i]) {
      StrLtTotal(rs[i].identifier, rs[j].identifier);
    }
  }

  lemma {:induction false} NamesMembers(rs: seq<Resource>, keep: bool, now: Time)
    ensures forall k :: k in Names(rs, keep, now) <==> exists r :: r in rs && r.identifier == k && Kept(r, now) == keep
  {
    if rs != [] {
      var n := |rs| - 1;
      NamesMembers(rs[..n], keep, now);
      assert rs == rs[..n] + [rs[n]];
    }
  }

  lemma {:induction false} NamesPartition(rs: seq<Resource>, now: Time)
    ensures multiset(Names(rs, false, now)) + multiset(Names(rs, true, now)) == multiset(AllNames(rs))
  {
    if rs != [] {
      var n := |rs| - 1;
      NamesPartition(rs[..n], now);
      assert AllNames(rs) == AllNames(rs[..n]) + [rs[n].identifier];
    }
  }

  function AllNames(rs: seq<Resource>): (ids: seq<Id>) {
    seq(|rs|, i requires 0 <= i < |rs| => rs[i].identifier)
  }

  /** Names appear in teardown order: of two names in one list, the earlier belongs to the sooner resource. */
  ghost predicate InTeardownOrder(ids: seq<Id>, rs: seq<Resource>) {
    forall i, j, a, b | 0 <= i < j < |ids| && a in rs && b in rs && ids[i] == a.identifier && ids[j] == b.identifier ::
      TornDownBefore(a, b)
  }

  lemma {:induction false} NamesInOrder(rs: seq<Resource>, keep: bool, now: Time)
    requires Ascending(Sooner, rs) && DistinctNames(rs)
    ensures InTeardownOrder(Names(rs, keep, now), rs)
  {
    hide Sooner, Kept, TornDownBefore;
    if rs != [] {
      var n := |rs| - 1;
      var front := rs[..n];
      NamesInOrder(front, keep, now);
      NamesMembers(front, keep, now);
      var ids, shorter := Names(rs, keep, now), Names(front, keep, now);
      forall i, j, a, b | 0 <= i < j < |ids| && a in rs && b in rs && ids[i] == a.identifier && ids[j] == b.identifier
        ensures TornDownBefore(a, b)
      {
        SoonerExactly(a, b);
        assert shorter[i] in shorter;
        var x :| x in front && x.identifier == ids[i];
        SameName(rs, a, x);
        if j < |shorter| {
          assert shorter[j] in shorter;
          var y :| y in front && y.identifier == ids[j];
          SameName(rs, b, y);
        } else {
          SameName(rs, b, rs[n]);
          var k :| 0 <= k < n && front[k] == a;
          assert Sooner(rs[k], rs[n]);
        }
      }
    }
  }

  lemma SameName(rs: seq<Resource>, a: Resource, b: Resource)
    requires DistinctNames(rs) && a in rs && b in rs && a.identifier == b.identifier
    ensures a == b
  {}

  /** Accepted exactly for acceptable input; then delete and retain split the identifiers, exactly
      the evidence-stage, evidence-protecting or still-locked resources are retained, and both lists
      are in teardown order. */
  lemma CleanupMeaning(rs: seq<Resource>, regions: set<string>, now: Time)
    ensures Ruling(rs, regions, now).Ok? <==> Acceptable(rs, regions)
    ensures Ruling(rs, regions, now).Ok? ==>
              var d := Ruling(rs, regions, now).value;
              && multiset(d.delete) + multiset(d.retain) == multiset(AllNames(rs))
              && (forall r | r in rs :: (r.identifier in d.retain <==> MustStay(r, now))
                                     && (r.identifier in d.delete <==> !MustStay(r, now)))
              && InTeardownOrder(d.delete, rs) && InTeardownOrder(d.retain, rs)
  {
    NoFaultExactlyWhen(rs, regions);
    assert forall r | r in rs :: Kept(r, now) <==> MustStay(r, now);
    hide MustStay, InTeardownOrder;
    if Acceptable(rs, regions) {
      var ordered := Sort(Sooner, rs);
      hide Sort, Sooner, Kept, LacksDetach, FirstFault, Names;
      SoonerIsStrict();
      NamesSeparate(rs);
      SortAscending(Sooner, rs);
      SortElements(Sooner, rs);
      OrderedDistinct(ordered);
      NamesMembers(ordered, false, now);
      NamesMembers(ordered, true, now);
      NamesInOrder(ordered, false, now);
      NamesInOrder(ordered, true, now);
      NamesPartition(ordered, now);
      SameNamesMultiset(ordered, rs);
      forall r | r in rs
        ensures (r.identifier in Names(ordered, true, now) <==> Kept(r, now))
             && (r.identifier in Names(ordered, false, now) <==> !Kept(r, now))
      {
        forall x | x in ordered && x.identifier == r.identifier ensures x == r { SameName(rs, x, r); }
      }
    }
  }

  lemma OrderedDistinct(rs: seq<Resource>)
    requires StrictOrder(Sooner) && Ascending(Sooner, rs) && UniqueByName(rs)
    ensures DistinctNames(rs)
  {}

  ghost predicate UniqueByName(rs: seq<Resource>) {
    forall a, b | a in rs && b in rs && a.identifier == b.identifier :: a == b
  }

  lemma {:induction false} SameNamesMultiset(xs: seq<Resource>, ys: seq<Resource>)
    requires multiset(xs) == multiset(ys)
    ensures multiset(AllNames(xs)) == multiset(AllNames(ys))
    decreases |xs|
  {
    hide AllNames;
    if xs == [] {
      assert |multiset(ys)| == 0;
    } else {
      var front, x := xs[..|xs| - 1], xs[|xs| - 1];
      assert xs == front + [x];
      var left, right := SplitAt(xs, ys, x);
      RemoveMiddle(front, x, left, right);
      SameNamesMultiset(front, left + right);
      NamesLast(front, x);
      NamesMiddle(left, x, right);
    }
  }

  lemma SplitAt(xs: seq<Resource>, ys: seq<Resource>, x: Resource) returns (left: seq<Resource>, right: seq<Resource>)
    requires multiset(xs) == multiset(ys) && x in xs
    ensures ys == left + ([x] + right)
  {
    assert x in multiset(ys);
    var j :| 0 <= j < |ys| && ys[j] == x;
    left, right := ys[..j], ys[j + 1..];
  }

  lemma NamesLast(front: seq<Resource>, x: Resource)
    ensures multiset(AllNames(front + [x])) == multiset(AllNames(front)) + multiset{x.identifier}
  {
    NamesConcat(front, [x]);
    assert AllNames([x]) == [x.identifier];
    hide AllNames;
  }

  lemma NamesMiddle(left: seq<Resource>, x: Resource, right: seq<Resource>)
    ensures multiset(AllNames(left + ([x] + right))) == multiset(AllNames(left + right)) + multiset{x.identifier}
  {
    NamesConcat(left, [x] + right);
    NamesConcat([x], right);
    NamesConcat(left, right);
    assert AllNames([x]) == [x.identifier];
    hide AllNames;
  }

  lemma RemoveMiddle(front: seq<Resource>, x: Resource, left: seq<Resource>, right: seq<Resource>)
    requires multiset(front + [x]) == multiset(left + ([x] + right))
    ensures multiset(front) == multiset(left + right)
  {
    Joined(front, [x]);
    Joined([x], right);
    Joined(left, [x] + right);
    Joined(left, right);
    CancelOne(multiset(front), multiset(left + right), x);
  }

  lemma Joined(xs: seq<Resource>, ys: seq<Resource>)
    ensures multiset(xs + ys) == multiset(xs) + multiset(ys)
  {}

  lemma CancelOne(a: multiset<Resource>, b: multiset<Resource>, x: Resource)
    requires a + multiset{x} == b + multiset{x}
    ensures a == b
  {
    assert a == (a + multiset{x}) - multiset{x};
  }

  lemma NamesConcat(xs: seq<Resource>, ys: seq<Resource>)
    ensures AllNames(xs + ys) == AllNames(xs) + AllNames(ys)
  {}

  lemma {:induction false} DistinctCounts(ids: seq<Id>)
    ensures Distinct(ids) <==> forall k :: multiset(ids)[k] <= 1
  {
    if ids != [] {
      var n := |ids| - 1;
      var front, last := ids[..n], ids[n];
      assert ids == front + [last];
      DistinctCounts(front);
      assert Distinct(ids) <==> Distinct(front) && last !in front;
      assert last in front <==> multiset(front)[last] >= 1;
      assert forall k :: multiset(ids)[k] == multiset(front)[k] + if k == last then 1 else 0;
      if multiset(ids)[last] <= 1 { assert last !in front; }
    }
  }

  lemma AcceptableIgnoresOrder(rs: seq<Resource>, rs': seq<Resource>, regions: set<string>)
    requires multiset(rs) == multiset(rs') && Acceptable(rs, regions)
    ensures Acceptable(rs', regions) && SameElements(rs, rs')
  {
    assert forall r :: r in rs <==> r in multiset(rs);
    assert forall r :: r in rs' <==> r in multiset(rs');
    SameNamesMultiset(rs, rs');
    assert Distinct(AllNames(rs));
    DistinctCounts(AllNames(rs));
    DistinctCounts(AllNames(rs'));
    var ids := AllNames(rs');
    forall i, j | 0 <= i < j < |rs'| ensures rs'[i].identifier != rs'[j].identifier {
      assert ids[i] != ids[j];
    }
  }

  /** The result does not depend on the order of the input. */
  lemma CleanupIgnoresOrder(rs: seq<Resource>, rs': seq<Resource>, regions: set<string>, now: Time)
    requires multiset(rs) == multiset(rs')
    ensures Ruling(rs, regions, now).Ok? <==> Ruling(rs', regions, now).Ok?
    ensures Ruling(rs, regions, now).Ok? ==> Ruling(rs, regions, now) == Ruling(rs', regions, now)
  {
    hide Sort, Sooner, Kept, LacksDetach, FirstFault, Names;
    CleanupMeaning(rs, regions, now);
    CleanupMeaning(rs', regions, now);
    if Acceptable(rs, regions) {
      AcceptableIgnoresOrder(rs, rs', regions);
      SoonerIsStrict();
      NamesSeparate(rs);
      NamesSeparate(rs');
      SortCanonical(Sooner, rs, rs');
    } else if Acceptable(rs', regions) {
      AcceptableIgnoresOrder(rs', rs, regions);
    }
  }

  /** Resource `i` fits: its name is new, its stage known, its region approved, and it is not shared. */
  ghost predicate FitsAt(rs: seq<Resource>, regions: set<string>, i: nat)
    requires i < |rs|
  {
    && (forall j | 0 <= j < i :: rs[j].identifier != rs[i].identifier)
    && StageNumber(rs[i].stage) < 8 && rs[i].region in regions && !rs[i].shared
  }

  /** The error names what is wrong with the first resource that does not fit, checked in this order; the
      missing detach stage is reported only when all fit. */
  lemma FirstErrorExactly(rs: seq<Resource>, regions: set<string>, now: Time, i: nat)
    requires i < |rs| && (forall j | 0 <= j < i :: FitsAt(rs, regions, j)) && !FitsAt(rs, regions, i)
    ensures Ruling(rs, regions, now) ==
              Err(if exists j :: 0 <= j < i && rs[j].identifier == rs[i].identifier then DuplicateResource
                  else if StageNumber(rs[i].stage) == 8 then UnknownStage
                  else if rs[i].region !in regions then RegionNotApproved
                  else SharedResource)
  {
    hide Names, Sort, STAGES, StageIndex, StageNumber;
    FaultlessPrefix(rs, regions, i);
    hide FirstFault;
    FaultNext(rs, regions, i);
    StageExactly(rs[i].stage);
    StageLimit(rs[i].stage);
    NamedEarlier(rs, i);
  }

  lemma StageLimit(stage: string)
    ensures StageNumber(stage) <= 8
  {}

  lemma NamedEarlier(rs: seq<Resource>, i: nat)
    requires i < |rs|
    ensures (exists e :: e in rs[..i] && e.identifier == rs[i].identifier) <==>
            exists j :: 0 <= j < i && rs[j].identifier == rs[i].identifier
  {
    forall j | 0 <= j < i ensures rs[j] in rs[..i] { assert rs[..i][j] == rs[j]; }
  }

  lemma {:induction false} FaultlessPrefix(rs: seq<Resource>, regions: set<string>, i: nat)
    requires i <= |rs| && forall j | 0 <= j < i :: FitsAt(rs, regions, j)
    ensures FirstFault(rs[..i], regions).None?
  {
    if i > 0 {
      hide STAGES, StageIndex, StageNumber;
      FaultlessPrefix(rs, regions, i - 1);
      assert rs[..i][..i - 1] == rs[..i - 1];
      assert FitsAt(rs, regions, i - 1);
      StageExactly(rs[i - 1].stage);
      NamedEarlier(rs, i - 1);
    }
  }

  lemma NoDetachExactly(rs: seq<Resource>, regions: set<string>, now: Time)
    ensures Ruling(rs, regions, now) == Err(NoDetachStage) <==>
              && DistinctNames(rs) && AllFit(rs, regions)
              && (exists r :: r in rs && r.replicated) && forall r | r in rs :: r.stage != "replication-relationships"
  {
    hide Names, Sort, AllFit, DistinctNames;
    NoFaultExactlyWhen(rs, regions);
    FaultKinds(rs, regions);
    hide FirstFault;
  }

  lemma {:induction false} FaultKinds(rs: seq<Resource>, regions: set<string>)
    ensures FirstFault(rs, regions) != Some(NoDetachStage)
  {
    if rs != [] { FaultKinds(rs[..|rs| - 1], regions); }
  }
}
