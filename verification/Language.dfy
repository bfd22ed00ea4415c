/** The run language is exact: every prefix of every word is the log of some run. */
module Language {
  import opened Prelude
  import opened Domain
  import opened Datasets
  import opened Integrity
  import opened StateMachine
  import opened Orchestrator
  import opened Runs

  const GOOD := RegionHealth("region", true, true, true, 0, "")

  /** A call that moves an outage incident to `target` when that edge is allowed. */
  function CallFor(target: RecoveryState, t: Time): Call {
    match target
    case RecoveryInProgress => StartRecovery(None)
    case Validating => BeginValidation(t, None)
    case AwaitingApproval =>
      RecordValidation(Comparison(0, 0, [], [], "", "", None), SuppliedGates(true, true, true, true, true, true), None)
    case RecoveryActive => Promote(true, "owner", "reference")
    case FailbackInProgress =>
      StartFailback(true, "owner", "reference", GOOD, GOOD, ConsistencyProof(t, true, true, true, 0.0, 0.0))
    case _ => CompleteFailback(true, "owner", "reference", true)
  }

  /** The calls that walk the states of `word` after its first. */
  function Script(word: seq<RecoveryState>, t: Time): seq<Timed> {
    if |word| <= 1 then []
    else Script(word[..|word| - 1], t) + [Timed(CallFor(word[|word| - 1], t), t)]
  }

  lemma CallForWorks(h: Hasher, w: World, target: RecoveryState, t: Time)
    requires target in Allowed(w.inc.state) && target != IncidentDeclared
    requires w.inc.scenario == RegionalOutage && InstantsSet(w.inc) && TimeOrdered(w.inc, t)
    ensures Step(h, w, CallFor(target, t), t).error.None?
    ensures !CallFor(target, t).Reconcile? && MoveOf(CallFor(target, t)).target == target
  {
    hide Logged, Proven, ValidationFor;
    if target == AwaitingApproval {
      var c := CallFor(target, t);
      GoodComparisonPasses(w.inc, c.comparison, c.gates);
    }
  }

  lemma GoodComparisonPasses(s: Snapshot, c: Comparison, g: SuppliedGates)
    requires c == Comparison(0, 0, [], [], "", "", None) && g == SuppliedGates(true, true, true, true, true, true)
    ensures ValidationFor(s, c, g).Passed()
  {
    var v := ValidationFor(s, c, g);
    assert v.Gates() == [true, true, true, true, true, true, true, true, true];
  }

  lemma {:induction false} RoundsShape(n: nat)
    ensures |Cycles(n)| == |Loops(n)| == 2 * n
    ensures forall i | 0 <= i < 2 * n ::
              && Cycles(n)[i] == (if i % 2 == 0 then RecoveryInProgress else Validating)
              && Loops(n)[i] == (if i % 2 == 0 then FailbackInProgress else RecoveryActive)
  {
    if n > 0 { RoundsShape(n - 1); }
  }

  /** State number `k` of a word, by position. */
  lemma WordAt(n: nat, m: nat, k: nat)
    requires k < |Word(n, m)|
    ensures Word(n, m)[k] ==
              if k == 0 then IncidentDeclared
              else if k <= 2 * n then if k % 2 == 1 then RecoveryInProgress else Validating
              else if k == 2 * n + 1 then AwaitingApproval
              else if k == 2 * n + 2 + 2 * m + 2 then Healthy
              else if k % 2 == 0 then RecoveryActive else FailbackInProgress
  {
    RoundsShape(n);
    RoundsShape(m);
    var cycles, loops := Cycles(n), Loops(m);
    hide Cycles, Loops;
    if 1 <= k <= 2 * n {
      assert Word(n, m)[k] == cycles[k - 1];
    } else if 2 * n + 3 <= k < 2 * n + 3 + 2 * m {
      assert Word(n, m)[k] == loops[k - 2 * n - 3];
    }
  }

  /** Consecutive states of a word are allowed edges, none of them back to the declaration. */
  lemma WordAllowed(n: nat, m: nat, k: nat)
    requires n >= 1 && 1 <= k < |Word(n, m)|
    ensures Word(n, m)[k] in Allowed(Word(n, m)[k - 1]) && Word(n, m)[k] != IncidentDeclared
  {
    hide Word;
    WordAt(n, m, k - 1);
    WordAt(n, m, k);
    WordLength(n, m);
  }

  lemma WordLength(n: nat, m: nat)
    ensures |Word(n, m)| == 2 * n + 2 * m + 5
  {
    RoundsShape(n);
    RoundsShape(m);
  }

  lemma {:induction false} ScriptNonDecreasing(word: seq<RecoveryState>, t: Time)
    ensures forall i | 0 <= i < |Script(word, t)| :: Script(word, t)[i].now == t
  {
    if |word| > 1 { ScriptNonDecreasing(word[..|word| - 1], t); }
  }

  /** Running the script of `word` logs exactly `word` and ends in its last state. */
  ghost predicate Walked(h: Hasher, b: Birth, word: seq<RecoveryState>) {
    var s := Run(h, Start(h, b), Script(word, b.movedAt)).inc;
    word != [] && LogShows(s.eventLog, word) && s.state == word[|word| - 1] && s.scenario == RegionalOutage
  }

  lemma WalkedOne(h: Hasher, b: Birth)
    requires b.scenario == RegionalOutage
    ensures Walked(h, b, [IncidentDeclared])
  {
    hide LogShows, Logged;
    StartOnPath(h, b);
    var s := Start(h, b).inc;
    assert s.state == IncidentDeclared && PathTo(IncidentDeclared, 0, 0) == [IncidentDeclared];
    assert Run(h, Start(h, b), Script([IncidentDeclared], b.movedAt)).inc == s;
  }

  lemma WalkedNext(h: Hasher, b: Birth, shorter: seq<RecoveryState>, target: RecoveryState)
    requires Walked(h, b, shorter) && b.declaredAt <= b.movedAt
    requires target in Allowed(shorter[|shorter| - 1]) && target != IncidentDeclared
    ensures Walked(h, b, shorter + [target])
  {
    hide Run, Start, Step, Logged, LogShows, TimeOrdered, InstantsSet, CallFor, Script;
    var t, word := b.movedAt, shorter + [target];
    var w := Run(h, Start(h, b), Script(shorter, t));
    assert word[..|word| - 1] == shorter && word[|word| - 1] == target;
    ScriptRun(h, b, word, t);
    TimeOrderedScript(h, b, shorter, t);
    CallForWorks(h, w, target, t);
    StepShape(h, w, CallFor(target, t), t);
    AppendShows(h, w.inc.eventLog, shorter, MoveOf(CallFor(target, t)), t);
  }

  /** Running the script of a non-empty prefix of a word logs exactly that prefix. */
  lemma {:induction false} EveryPrefixHappens(h: Hasher, b: Birth, n: nat, m: nat, k: nat)
    requires n >= 1 && 1 <= k <= |Word(n, m)| && b.scenario == RegionalOutage && b.declaredAt <= b.movedAt
    ensures LogShows(Run(h, Start(h, b), Script(Word(n, m)[..k], b.movedAt)).inc.eventLog, Word(n, m)[..k])
    ensures Walked(h, b, Word(n, m)[..k])
    decreases k
  {
    hide Run, Start, Script, Word, LogShows;
    WordAt(n, m, 0);
    if k == 1 {
      assert Word(n, m)[..k] == [IncidentDeclared];
      WalkedOne(h, b);
    } else {
      EveryPrefixHappens(h, b, n, m, k - 1);
      WordAllowed(n, m, k - 1);
      WalkedNext(h, b, Word(n, m)[..k - 1], Word(n, m)[k - 1]);
      assert Word(n, m)[..k] == Word(n, m)[..k - 1] + [Word(n, m)[k - 1]];
    }
  }

  lemma ScriptRun(h: Hasher, b: Birth, word: seq<RecoveryState>, t: Time)
    requires |word| > 1
    ensures Run(h, Start(h, b), Script(word, t)) ==
              Step(h, Run(h, Start(h, b), Script(word[..|word| - 1], t)), CallFor(word[|word| - 1], t), t).world
  {
    hide Step, Start, CallFor;
    var shorter := Script(word[..|word| - 1], t);
    assert Script(word, t)[..|shorter|] == shorter;
  }

  lemma TimeOrderedScript(h: Hasher, b: Birth, word: seq<RecoveryState>, t: Time)
    requires t == b.movedAt && b.declaredAt <= b.movedAt
    ensures InstantsSet(Run(h, Start(h, b), Script(word, t)).inc)
    ensures TimeOrdered(Run(h, Start(h, b), Script(word, t)).inc, t)
  {
    hide Run, Start, TimeOrdered, InstantsSet;
    ScriptNonDecreasing(word, t);
    RunInstantsSet(h, b, Script(word, t));
    RunTimeOrdered(h, b, Script(word, t));
  }
}
