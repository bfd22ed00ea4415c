/** Whole runs of orchestrator calls on one incident, including calls that raise. */
module Runs {
  import opened Prelude
  import opened Domain
  import opened Datasets
  import opened Planner
  import opened Replay
  import opened Integrity
  import opened StateMachine
  import opened Orchestrator

  /** A call and the clock reading it would make. */
  datatype Timed = Timed(call: Call, now: Time)

  function Run(h: Hasher, w: World, calls: seq<Timed>): World {
    if calls == [] then w
    else
      var last := calls[|calls| - 1];
      Step(h, Run(h, w, calls[..|calls| - 1]), last.call, last.now).world
  }

  /** The parameters of one `declare`, and the target table beside it. The provenance is arbitrary: the
      drill scripts replace the local one directly after declaring. */
  datatype Birth = Birth(provenance: Provenance, scenario: Scenario, failureAt: Time, declaredAt: Time,
                         movedAt: Time, target: Table)

  function Start(h: Hasher, b: Birth): World {
    World(Declared(h, b.provenance, b.scenario, b.failureAt, b.declaredAt, b.movedAt), b.target)
  }

  // ------------------------------------------------- the shape of a step

  datatype Stamps = Stamps(
    recovery: Option<Time>, validation: Option<Time>, validated: Option<Time>,
    promoted: Option<Time>, failedBack: Option<Time>, rtoEnd: Option<Time>)

  function StampsOf(s: Snapshot): Stamps {
    Stamps(s.recoveryStartedAt, s.validationStartedAt, s.validationCompletedAt,
           s.promotionAt, s.failbackCompletedAt, s.rtoEndAt)
  }

  function NextStamps(t: Stamps, scenario: Scenario, target: RecoveryState, now: Time): Stamps {
    match target
    case RecoveryInProgress => if t.recovery.None? then t.(recovery := Some(now)) else t
    case Validating => t.(validation := Some(now))
    case AwaitingApproval =>
      t.(validated := Some(now), rtoEnd := if scenario == RegionalOutage then Some(now) else t.rtoEnd)
    case RecoveryActive => t.(promoted := Some(now), rtoEnd := Some(now))
    case Healthy => t.(failedBack := Some(now))
    case _ => t
  }

  ghost predicate SameIdentity(s: Snapshot, s': Snapshot) {
    s'.scenario == s.scenario && s'.declaredAt == s.declaredAt && s'.failureAt == s.failureAt
    && s'.provenance == s.provenance
  }

  /** Nothing the state machine owns has changed. */
  ghost predicate Quiet(s: Snapshot, s': Snapshot) {
    && SameIdentity(s, s') && s'.state == s.state && s'.eventLog == s.eventLog && StampsOf(s') == StampsOf(s)
  }

  ghost predicate Moved(h: Hasher, s: Snapshot, s': Snapshot, m: Move, now: Time) {
    && SameIdentity(s, s') && m.target in Allowed(s.state) && (NeedsApproval(s.state, m.target) ==> m.approved)
    && s'.state == m.target && s'.eventLog == Logged(h, s.eventLog, s.state, m, now)
    && StampsOf(s') == NextStamps(StampsOf(s), s.scenario, m.target, now)
  }

  function MoveOf(call: Call): Move {
    match call
    case StartRecovery(_) => Move(RecoveryInProgress, false, "drctl", "isolated restore started")
    case BeginValidation(_, _) => Move(Validating, false, "drctl", "")
    case RecordValidation(_, _, _) => Move(AwaitingApproval, false, "drctl", "")
    case Reconcile(_) => Move(AwaitingApproval, false, "", "")
    case Promote(_, approver, reference) => Move(RecoveryActive, true, approver, reference)
    case StartFailback(_, approver, reference, _, _, _) => Move(FailbackInProgress, true, approver, reference)
    case CompleteFailback(approved, approver, reference, _) => Move(Healthy, approved, approver, reference)
  }

  lemma TransitionShape(h: Hasher, s0: Snapshot, s: Snapshot, m: Move, now: Time)
    requires Quiet(s0, s)
    ensures var r := TransitionOf(h, s, m, now);
            if r.error.Some? then r.inc == s else Moved(h, s0, r.inc, m, now)
  {
    hide Logged;
  }

  /** A call either raises and leaves everything the state machine owns alone, or performs exactly
      its one move; a reconcile call never moves. */
  lemma StepShape(h: Hasher, w: World, call: Call, now: Time)
    ensures var out := Step(h, w, call, now);
            && (out.error.Some? || call.Reconcile? ==> Quiet(w.inc, out.world.inc))
            && (out.error.None? && !call.Reconcile? ==> Moved(h, w.inc, out.world.inc, MoveOf(call), now))
            && (!call.Reconcile? ==> out.world.target == w.target)
  {
    hide TransitionOf, Logged, Moved, Proven, ValidationFor, FreshRecord, ReplayOutcome;
    var s := w.inc;
    match call
    case StartRecovery(point) => TransitionShape(h, s, s.(recoveryPoint := point), MoveOf(call), now);
    case BeginValidation(readyAt, config) =>
      var s1 := if s.scenario == LogicalCorruption then s.(restoreConfiguration := config) else s;
      TransitionShape(h, s, s1.(infrastructureReadyAt := Some(readyAt), restoreCompletedAt := Some(readyAt)),
                      MoveOf(call), now);
    case RecordValidation(c, g, plan) => RecordValidationShape(h, s, c, g, plan, now);
    case Reconcile(_) =>
    case Promote(approved, approver, reference) => PromoteShape(h, s, approved, approver, reference, now);
    case StartFailback(_, _, _, _, _, _) => TransitionShape(h, s, s, MoveOf(call), now);
    case CompleteFailback(_, _, _, _) => TransitionShape(h, s, s, MoveOf(call), now);
  }

  lemma RecordValidationShape(h: Hasher, s: Snapshot, c: Comparison, g: SuppliedGates, plan: Option<Plan>, now: Time)
    ensures var r := RecordValidationOf(h, s, c, g, plan, now);
            if r.error.Some? then Quiet(s, r.inc)
            else Moved(h, s, r.inc, Move(AwaitingApproval, false, "drctl", ""), now)
  {
    hide TransitionOf, Logged, ValidationFor, FreshRecord;
    TransitionShape(h, s, Recorded(s, c, g, plan), Move(AwaitingApproval, false, "drctl", ""), now);
  }

  lemma PromoteShape(h: Hasher, s: Snapshot, approved: bool, approver: string, reference: string, now: Time)
    ensures var r := PromoteOf(h, s, approved, approver, reference, now);
            if r.error.Some? then Quiet(s, r.inc)
            else Moved(h, s, r.inc, Move(RecoveryActive, true, approver, reference), now)
  {
    hide TransitionOf, Logged;
    if PromoteBlock(s, approved, approver, reference).None? {
      var s1 := if s.scenario == LogicalCorruption
                then s.(reconciliation := Some(s.reconciliation.value.(status := "PROMOTION_APPROVED"))) else s;
      TransitionShape(h, s, s1.(approver := Some(approver), approvalReference := Some(reference)),
                      Move(RecoveryActive, true, approver, reference), now);
    }
  }

  lemma StartsBlank(h: Hasher, b: Birth)
    ensures var s := Start(h, b).inc;
            && s.state == IncidentDeclared && s.scenario == b.scenario && s.failureAt == b.failureAt
            && s.declaredAt == b.declaredAt && s.provenance == b.provenance
            && s.validation == None && s.recoveryPoint == None && s.reconciliation == None && s.recordCounts == None
  {
    hide Logged;
  }

  /** No call changes what `declare` fixed. */
  lemma {:induction false} IdentityKept(h: Hasher, b: Birth, calls: seq<Timed>)
    ensures var s := Run(h, Start(h, b), calls).inc;
            && s.scenario == b.scenario && s.failureAt == b.failureAt
            && s.declaredAt == b.declaredAt && s.provenance == b.provenance
  {
    hide Step, Start, Moved, Quiet;
    StartsBlank(h, b);
    if calls != [] {
      var k := |calls| - 1;
      var w := Run(h, Start(h, b), calls[..k]);
      IdentityKept(h, b, calls[..k]);
      StepKeepsIdentity(h, w, calls[k].call, calls[k].now);
    }
  }

  lemma StepKeepsIdentity(h: Hasher, w: World, call: Call, now: Time)
    ensures SameIdentity(w.inc, Step(h, w, call, now).world.inc)
  {
    hide Step, Logged;
    StepShape(h, w, call, now);
  }

  // ------------------------------------------------------ run language

  function Cycles(n: nat): seq<RecoveryState> {
    if n == 0 then [] else Cycles(n - 1) + [RecoveryInProgress, Validating]
  }

  function Loops(m: nat): seq<RecoveryState> {
    if m == 0 then [] else Loops(m - 1) + [FailbackInProgress, RecoveryActive]
  }

  /** DECLARED (RECOVERY VALIDATING)^n AWAITING ACTIVE (FAILBACK ACTIVE)^m FAILBACK HEALTHY */
  function Word(n: nat, m: nat): seq<RecoveryState> {
    [IncidentDeclared] + Cycles(n) + [AwaitingApproval, RecoveryActive] + Loops(m) + [FailbackInProgress, Healthy]
  }

  /** The states entered so far by an incident in `state`, after n recovery rounds, m failback rounds. */
  function PathTo(state: RecoveryState, n: nat, m: nat): seq<RecoveryState> {
    match state
    case IncidentDeclared => [IncidentDeclared]
    case RecoveryInProgress => [IncidentDeclared] + Cycles(n) + [RecoveryInProgress]
    case Validating => [IncidentDeclared] + Cycles(n)
    case AwaitingApproval => [IncidentDeclared] + Cycles(n) + [AwaitingApproval]
    case RecoveryActive => [IncidentDeclared] + Cycles(n) + [AwaitingApproval, RecoveryActive] + Loops(m)
    case FailbackInProgress =>
      [IncidentDeclared] + Cycles(n) + [AwaitingApproval, RecoveryActive] + Loops(m) + [FailbackInProgress]
    case Healthy => Word(n, m)
  }

  function Source(path: seq<RecoveryState>, i: nat): RecoveryState
    requires i < |path|
  {
    if i == 0 then Healthy else path[i - 1]
  }

  /** `e` logs the move `from` to `to`, as approved whenever that edge needs approval. */
  ghost predicate Logs(e: Event, from: RecoveryState, to: RecoveryState) {
    && Get(e, "from") == JStr(StateName(from)) && Get(e, "to") == JStr(StateName(to))
    && (NeedsApproval(from, to) ==> Get(e, "approved") == JBool(true))
  }

  /** The log records exactly the moves along `path`. */
  ghost predicate LogShows(log: seq<Event>, path: seq<RecoveryState>) {
    |log| == |path| && forall i | 0 <= i < |path| :: Logs(log[i], Source(path, i), path[i])
  }

  ghost predicate OnPath(s: Snapshot, n: nat, m: nat) {
    && (s.state == IncidentDeclared || s.state == RecoveryInProgress || n >= 1)
    && LogShows(s.eventLog, PathTo(s.state, n, m))
  }

  lemma ChainedLogs(h: Hasher, source: RecoveryState, m: Move, now: Time, previous: string, k: nat)
    requires NeedsApproval(source, m.target) ==> m.approved
    ensures Logs(ChainedEvent(h, EventBody(source, m.target, now, m.actor, m.reason, m.approved), previous, k),
                 source, m.target)
  {
    hide StateName;
  }

  lemma AppendShows(h: Hasher, log: seq<Event>, path: seq<RecoveryState>, m: Move, now: Time)
    requires LogShows(log, path) && path != []
    requires var source := path[|path| - 1]; NeedsApproval(source, m.target) ==> m.approved
    ensures LogShows(Logged(h, log, path[|path| - 1], m, now), path + [m.target])
  {
    hide ChainedEvent, EventBody, Logs;
    ChainedLogs(h, path[|path| - 1], m, now, HeadHash(log), |log| + 1);
  }

  lemma PathEnds(state: RecoveryState, n: nat, m: nat)
    requires state == IncidentDeclared || state == RecoveryInProgress || n >= 1
    ensures var path := PathTo(state, n, m); path != [] && path[|path| - 1] == state
  {}

  /** Each allowed edge extends the path, possibly opening a new round. */
  lemma PathExtends(source: RecoveryState, target: RecoveryState, n: nat, m: nat) returns (n': nat, m': nat)
    requires source == IncidentDeclared || source == RecoveryInProgress || n >= 1
    requires target in Allowed(source) && target != IncidentDeclared
    ensures target == IncidentDeclared || target == RecoveryInProgress || n' >= 1
    ensures PathTo(target, n', m') == PathTo(source, n, m) + [target]
  {
    n' := if source == IncidentDeclared then 0 else if source == RecoveryInProgress then n + 1 else n;
    m' := if source == AwaitingApproval then 0
          else if source == FailbackInProgress && target == RecoveryActive then m + 1
          else m;
  }

  lemma StepOnPath(h: Hasher, w: World, call: Call, now: Time, n: nat, m: nat) returns (n': nat, m': nat)
    requires OnPath(w.inc, n, m)
    ensures OnPath(Step(h, w, call, now).world.inc, n', m')
  {
    hide Step, PathTo, LogShows, Logged;
    StepShape(h, w, call, now);
    n', m' := n, m;
    var s' := Step(h, w, call, now).world.inc;
    if Moved(h, w.inc, s', MoveOf(call), now) && !Quiet(w.inc, s') {
      PathEnds(w.inc.state, n, m);
      n', m' := PathExtends(w.inc.state, MoveOf(call).target, n, m);
      AppendShows(h, w.inc.eventLog, PathTo(w.inc.state, n, m), MoveOf(call), now);
    }
  }

  lemma StartOnPath(h: Hasher, b: Birth)
    ensures OnPath(Start(h, b).inc, 0, 0)
  {
    ChainedLogs(h, Healthy, Move(IncidentDeclared, false, "operator", "declared"), b.movedAt, Genesis(), 1);
    hide ChainedEvent, EventBody;
  }

  lemma {:induction false} RunOnPath(h: Hasher, b: Birth, calls: seq<Timed>) returns (n: nat, m: nat)
    ensures OnPath(Run(h, Start(h, b), calls).inc, n, m)
  {
    if calls == [] {
      StartOnPath(h, b);
      n, m := 0, 0;
    } else {
      hide OnPath, Step, Start;
      var k := |calls| - 1;
      n, m := RunOnPath(h, b, calls[..k]);
      n, m := StepOnPath(h, Run(h, Start(h, b), calls[..k]), calls[k].call, calls[k].now, n, m);
    }
  }

  lemma PathIsPrefix(state: RecoveryState, n: nat, m: nat)
    requires state == IncidentDeclared || state == RecoveryInProgress || n >= 1
    ensures PathTo(state, n, m) <=
              Word(if state == IncidentDeclared || state == RecoveryInProgress then n + 1 else n, m)
  {
    assert Cycles(n + 1) == Cycles(n) + [RecoveryInProgress, Validating];
    hide Cycles, Loops;
    var tail := [AwaitingApproval, RecoveryActive] + Loops(m) + [FailbackInProgress, Healthy];
    assert Word(n, m) == [IncidentDeclared] + Cycles(n) + tail;
    assert Word(n + 1, m) == [IncidentDeclared] + Cycles(n) + [RecoveryInProgress] + ([Validating] + tail);
  }

  /** Every run, raising calls included, logs a prefix of the recovery language, and the last logged
      state is the current one. */
  lemma RunLanguage(h: Hasher, b: Birth, calls: seq<Timed>)
    ensures var s := Run(h, Start(h, b), calls).inc;
            exists n: nat, m: nat, path: seq<RecoveryState> ::
              n >= 1 && path != [] && path <= Word(n, m) && LogShows(s.eventLog, path) && path[|path| - 1] == s.state
  {
    hide Run, Start, Word, PathTo, LogShows;
    var n, m := RunOnPath(h, b, calls);
    var s := Run(h, Start(h, b), calls).inc;
    var path := PathTo(s.state, n, m);
    PathEnds(s.state, n, m);
    PathIsPrefix(s.state, n, m);
    var n' := if s.state == IncidentDeclared || s.state == RecoveryInProgress then n + 1 else n;
    assert n' >= 1 && path != [] && path <= Word(n', m) && LogShows(s.eventLog, path) && path[|path| - 1] == s.state;
  }

  lemma {:induction false} NoApprovalInRounds(n: nat)
    ensures |Cycles(n)| == 2 * n && |Loops(n)| == 2 * n
    ensures AwaitingApproval !in Cycles(n) && AwaitingApproval !in Loops(n)
  {
    if n > 0 { NoApprovalInRounds(n - 1); }
  }

  lemma ApprovalPosition(n: nat, m: nat, i: nat)
    requires i < |Word(n, m)|
    ensures Word(n, m)[i] == AwaitingApproval ==> i == 1 + 2 * n
  {
    NoApprovalInRounds(n);
    NoApprovalInRounds(m);
    var cycles, loops := Cycles(n), Loops(m);
    if 1 <= i < 1 + 2 * n {
      assert Word(n, m)[i] == cycles[i - 1] && cycles[i - 1] in cycles;
    } else if 3 + 2 * n <= i < 3 + 2 * n + 2 * m {
      assert Word(n, m)[i] == loops[i - 3 - 2 * n] && loops[i - 3 - 2 * n] in loops;
    }
  }

  lemma NamesDistinct(a: RecoveryState, b: RecoveryState)
    ensures StateName(a) == StateName(b) ==> a == b
  {
    if StateName(a) == StateName(b) {
      assert |StateName(a)| == |StateName(b)|;
      assert StateName(a)[0] == StateName(b)[0];
    }
  }

  /** The log never shows two entries into AWAITING_APPROVAL. */
  lemma ApprovalEnteredOnce(h: Hasher, b: Birth, calls: seq<Timed>)
    ensures var log := Run(h, Start(h, b), calls).inc.eventLog;
            forall i, j | 0 <= i < |log| && 0 <= j < |log| ::
              Get(log[i], "to") == Get(log[j], "to") == JStr(StateName(AwaitingApproval)) ==> i == j
  {
    hide Run, Start, Word, Get, StateName;
    RunLanguage(h, b, calls);
    var s := Run(h, Start(h, b), calls).inc;
    var n: nat, m: nat, path: seq<RecoveryState> :| n >= 1 && path != [] && path <= Word(n, m)
      && LogShows(s.eventLog, path) && path[|path| - 1] == s.state;
    var log := s.eventLog;
    forall i, j | 0 <= i < |log| && 0 <= j < |log|
                  && Get(log[i], "to") == Get(log[j], "to") == JStr(StateName(AwaitingApproval))
      ensures i == j
    {
      assert Logs(log[i], Source(path, i), path[i]) && Logs(log[j], Source(path, j), path[j]);
      NamesDistinct(path[i], AwaitingApproval);
      NamesDistinct(path[j], AwaitingApproval);
      ApprovalPosition(n, m, i);
      ApprovalPosition(n, m, j);
    }
  }

  // -------------------------------------------------------- event chain

  lemma LoggedValid(h: Hasher, log: seq<Event>, source: RecoveryState, m: Move, now: Time)
    requires ValidChain(h, log)
    ensures ValidChain(h, Logged(h, log, source, m, now))
  {
    var body := EventBody(source, m.target, now, m.actor, m.reason, m.approved);
    assert "event_hash" !in body;
    AppendValid(h, log, body);
  }

  /** Every reachable log verifies. */
  lemma {:induction false} ReachableLogVerifies(h: Hasher, b: Birth, calls: seq<Timed>)
    ensures ValidChain(h, Run(h, Start(h, b), calls).inc.eventLog)
  {
    if calls == [] {
      LoggedValid(h, [], Healthy, Move(IncidentDeclared, false, "operator", "declared"), b.movedAt);
    } else {
      hide Step, Start, Logged, ValidChain;
      var k := |calls| - 1;
      var w := Run(h, Start(h, b), calls[..k]);
      ReachableLogVerifies(h, b, calls[..k]);
      StepShape(h, w, calls[k].call, calls[k].now);
      LoggedValid(h, w.inc.eventLog, w.inc.state, MoveOf(calls[k].call), calls[k].now);
    }
  }

  /** So the head hash of a reachable log pins the incident's whole history. */
  lemma ReachableHeadHash(h: Hasher, b: Birth, calls: seq<Timed>, b': Birth, calls': seq<Timed>)
    ensures var log, log' := Run(h, Start(h, b), calls).inc.eventLog, Run(h, Start(h, b'), calls').inc.eventLog;
            HeadHash(log) == HeadHash(log') ==> log == log' || PayloadCollision(h, log, log')
  {
    hide Run, Start, HeadHash, ValidChain, PathTo;
    ReachableLogVerifies(h, b, calls);
    ReachableLogVerifies(h, b', calls');
    var n, m := RunOnPath(h, b, calls);
    PathEnds(Run(h, Start(h, b), calls).inc.state, n, m);
    n, m := RunOnPath(h, b', calls');
    PathEnds(Run(h, Start(h, b'), calls').inc.state, n, m);
    var log, log' := Run(h, Start(h, b), calls).inc.eventLog, Run(h, Start(h, b'), calls').inc.eventLog;
    if HeadHash(log) == HeadHash(log') { HeadHashDeterminesLog(h, log, log'); }
  }

  // ---------------------------------------------------------- time order

  ghost predicate NonDecreasing(first: Time, calls: seq<Timed>) {
    && (forall i | 0 <= i < |calls| :: first <= calls[i].now)
    && (forall i, j | 0 <= i < j < |calls| :: calls[i].now <= calls[j].now)
  }

  function LastReading(first: Time, calls: seq<Timed>): Time {
    if calls == [] then first else calls[|calls| - 1].now
  }

  ghost predicate InWindow(lo: Time, t: Option<Time>, hi: Time) { t.Some? ==> lo <= t.value <= hi }

  ghost predicate Before(a: Option<Time>, b: Option<Time>) { a.Some? && b.Some? ==> a.value <= b.value }

  function Stage(s: RecoveryState): nat {
    match s
    case IncidentDeclared => 0
    case RecoveryInProgress => 1
    case Validating => 2
    case AwaitingApproval => 3
    case RecoveryActive => 4
    case FailbackInProgress => 5
    case Healthy => 6
  }

  /** Which instants are set in which state. */
  ghost predicate InstantsSet(s: Snapshot) {
    var t, k := StampsOf(s), Stage(s.state);
    && (t.recovery.Some? <==> k >= 1) && (k >= 2 ==> t.validation.Some?) && (t.validation.Some? ==> k >= 1)
    && (t.validated.Some? <==> k >= 3) && (t.promoted.Some? <==> k >= 4) && (t.failedBack.Some? <==> k == 6)
    && (k >= 4 ==> t.rtoEnd == t.promoted)
  }

  lemma StepInstantsSet(h: Hasher, w: World, call: Call, now: Time)
    requires InstantsSet(w.inc)
    ensures InstantsSet(Step(h, w, call, now).world.inc)
  {
    hide Step, Logged;
    StepShape(h, w, call, now);
  }

  /** Whatever the clock does, the state says which instants are set. */
  lemma {:induction false} RunInstantsSet(h: Hasher, b: Birth, calls: seq<Timed>)
    ensures InstantsSet(Run(h, Start(h, b), calls).inc)
  {
    hide Logged;
    if calls != [] {
      hide Step, InstantsSet, Start;
      var k := |calls| - 1;
      RunInstantsSet(h, b, calls[..k]);
      StepInstantsSet(h, Run(h, Start(h, b), calls[..k]), calls[k].call, calls[k].now);
    }
  }

  /** The instants that are set are ordered up to `last`. */
  ghost predicate TimeOrdered(s: Snapshot, last: Time) {
    var t := StampsOf(s);
    && s.declaredAt <= last
    && InWindow(s.declaredAt, t.recovery, last) && InWindow(s.declaredAt, t.validation, last)
    && InWindow(s.declaredAt, t.validated, last) && InWindow(s.declaredAt, t.promoted, last)
    && InWindow(s.declaredAt, t.failedBack, last) && InWindow(s.declaredAt, t.rtoEnd, last)
    && Before(t.recovery, t.validation) && Before(t.validation, t.validated)
    && Before(t.validated, t.promoted) && Before(t.promoted, t.failedBack)
  }

  lemma StepTimeOrdered(h: Hasher, w: World, call: Call, now: Time, last: Time)
    requires InstantsSet(w.inc) && TimeOrdered(w.inc, last) && last <= now
    ensures TimeOrdered(Step(h, w, call, now).world.inc, now)
  {
    hide Step, Logged;
    StepShape(h, w, call, now);
  }

  /** Under a clock that never goes back: declared, recovery started, validation started, validation
      completed, promoted and failed back are in that order wherever they are set. */
  lemma {:induction false} RunTimeOrdered(h: Hasher, b: Birth, calls: seq<Timed>)
    requires b.declaredAt <= b.movedAt && NonDecreasing(b.movedAt, calls)
    ensures TimeOrdered(Run(h, Start(h, b), calls).inc, LastReading(b.movedAt, calls))
  {
    hide Logged;
    if calls != [] {
      hide Step, TimeOrdered;
      var k := |calls| - 1;
      RunInstantsSet(h, b, calls[..k]);
      RunTimeOrdered(h, b, calls[..k]);
      StepTimeOrdered(h, Run(h, Start(h, b), calls[..k]), calls[k].call, calls[k].now,
                      LastReading(b.movedAt, calls[..k]));
    }
  }

  /** So the measured RTO from declaration is always defined and non-negative, and a replay is never
      refused for preceding its validation. */
  lemma ClockNeverRefuses(h: Hasher, b: Birth, calls: seq<Timed>, ask: Ask, now: Time)
    requires b.declaredAt <= b.movedAt && NonDecreasing(b.movedAt, calls) && LastReading(b.movedAt, calls) <= now
    ensures var w := Run(h, Start(h, b), calls);
            && (w.inc.rtoEndAt.Some? ==> MeasuredRto(w.inc.declaredAt, w.inc.rtoEndAt.value).Ok?)
            && Step(h, w, Reconcile(ask), now).error != Some(ReplayRefused(ReplayBeforeValidation))
  {
    hide Run, Start, Drive;
    RunTimeOrdered(h, b, calls);
  }

  // ------------------------------------------------------- failback proofs

  /** Failback starts exactly from RECOVERY_ACTIVE, approved and referenced, with both regions
      healthy and a passing proof no older than the promotion. */
  lemma FailbackAcceptedExactlyWhen(h: Hasher, w: World, call: Call, now: Time)
    requires call.StartFailback?
    ensures Step(h, w, call, now).error.None? <==>
              && w.inc.state == RecoveryActive && call.approved && call.reference != ""
              && call.original.Healthy() && call.survivor.Healthy() && call.proof.Passed()
              && w.inc.promotionAt.Some? && call.proof.checkedAt >= w.inc.promotionAt.value
  {
    hide Logged;
  }

  /** After an aborted failback the renewed promotion resets the clock: whatever happens next up to
      another promotion, a proof older than it is refused. */
  lemma AbortedFailbackNeedsFreshProof(h: Hasher, w: World, promote: Call, now: Time, later: seq<Timed>, call: Call,
                                       at: Time)
    requires w.inc.state == FailbackInProgress && promote.Promote? && Step(h, w, promote, now).error.None?
    requires forall c | c in later :: !c.call.Promote?
    requires call.StartFailback? && call.proof.checkedAt < now
    ensures Step(h, Run(h, Step(h, w, promote, now).world, later), call, at).error.Some?
  {
    hide Step, Run, Logged;
    StepShape(h, w, promote, now);
    PromotionInstantKept(h, Step(h, w, promote, now).world, later);
    FailbackAcceptedExactlyWhen(h, Run(h, Step(h, w, promote, now).world, later), call, at);
  }

  lemma PromotionInstantStep(h: Hasher, w: World, call: Call, now: Time)
    requires !call.Promote?
    ensures Step(h, w, call, now).world.inc.promotionAt == w.inc.promotionAt
  {
    hide Step, Logged;
    StepShape(h, w, call, now);
  }

  lemma {:induction false} PromotionInstantKept(h: Hasher, w: World, later: seq<Timed>)
    requires forall c | c in later :: !c.call.Promote?
    ensures Run(h, w, later).inc.promotionAt == w.inc.promotionAt
  {
    if later != [] {
      hide Step;
      var k := |later| - 1;
      assert later[k] in later;
      PromotionInstantKept(h, w, later[..k]);
      PromotionInstantStep(h, Run(h, w, later[..k]), later[k].call, later[k].now);
    }
  }
}
