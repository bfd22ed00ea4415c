/** Incident fields that a call overwrites even when it raises: over any run they hold what the last
    such call brought, whatever the calls before and after it did. */
module LastWriter {
  import opened Prelude
  import opened Domain
  import opened Datasets
  import opened Replay
  import opened Integrity
  import opened StateMachine
  import opened Orchestrator
  import Gates
  import R = Runs

  /** The last validation call of a run, raising or not. */
  function LastValidation(calls: seq<R.Timed>): (r: Option<Call>)
    ensures r.Some? ==> r.value.RecordValidation?
  {
    if calls == [] then None
    else
      var last := calls[|calls| - 1].call;
      if last.RecordValidation? then Some(last) else LastValidation(calls[..|calls| - 1])
  }

  /** The gates a validation call brings all hold. */
  predicate BringsPass(call: Call)
    requires call.RecordValidation?
  {
    var g, c := call.gates, call.comparison;
    && g.apiHealth && g.readWrite && g.freshness && g.s3Versions && g.crossRegionConsistency && g.syntheticTransaction
    && c.sourceCount == c.recoveredCount && c.ExactMatch()
  }

  /** Rows expected, recovered, lost and unexpected, as a comparison has them. */
  function CountsOf(c: Comparison): Counts {
    Counts(c.sourceCount, c.recoveredCount, |c.missingKeys|, |c.unexpectedKeys|)
  }

  /** The last restart request that the guard on recovery points let through. */
  function LastPoint(b: R.Birth, calls: seq<R.Timed>): Option<Time> {
    if calls == [] then None
    else
      var last := calls[|calls| - 1].call;
      if last.StartRecovery?
         && (b.scenario != LogicalCorruption || (last.point.Some? && last.point.value < b.failureAt))
      then last.point
      else LastPoint(b, calls[..|calls| - 1])
  }

  lemma StepStores(h: Hasher, w: World, call: Call, now: Time)
    ensures var s := Step(h, w, call, now).world.inc;
            && (call.RecordValidation? ==>
                  && s.validation == Some(ValidationFor(w.inc, call.comparison, call.gates))
                  && s.recordCounts == Some(CountsOf(call.comparison)))
            && (!call.RecordValidation? ==> s.validation == w.inc.validation && s.recordCounts == w.inc.recordCounts)
  {
    hide Proven, Logged, Denial, ValidationFor, FreshRecord, ReplayOutcome, WithResult;
  }

  lemma StepStoresPoint(h: Hasher, w: World, call: Call, now: Time)
    ensures Step(h, w, call, now).world.inc.recoveryPoint ==
              if call.StartRecovery?
                 && (w.inc.scenario != LogicalCorruption || (call.point.Some? && call.point.value < w.inc.failureAt))
              then call.point else w.inc.recoveryPoint
  {
    hide Proven, Logged, Denial, ValidationFor, FreshRecord, ReplayOutcome, WithResult;
  }

  lemma {:induction false} StoredIsLast(h: Hasher, b: R.Birth, calls: seq<R.Timed>)
    ensures var s, last := R.Run(h, R.Start(h, b), calls).inc, LastValidation(calls);
            s.validation == if last.None? then None
                            else Some(ValidationFor(R.Start(h, b).inc, last.value.comparison, last.value.gates))
  {
    hide Step, R.Start, ValidationFor;
    R.StartsBlank(h, b);
    if calls != [] {
      var k := |calls| - 1;
      var w := R.Run(h, R.Start(h, b), calls[..k]);
      StoredIsLast(h, b, calls[..k]);
      R.IdentityKept(h, b, calls[..k]);
      StepStores(h, w, calls[k].call, calls[k].now);
      if calls[k].call.RecordValidation? {
        ValidationReads(w.inc, R.Start(h, b).inc, calls[k].call.comparison, calls[k].call.gates);
      }
    }
  }

  /** Over every run the stored validation passed exactly when the last validation call, raising or not,
      brought six true gates, equal counts and an exact match; and the newest recovered time is the one
      that call brought. */
  lemma StoredValidationExactlyWhen(h: Hasher, b: R.Birth, calls: seq<R.Timed>)
    ensures var s, last := R.Run(h, R.Start(h, b), calls).inc, LastValidation(calls);
            && (s.validation.Some? <==> last.Some?)
            && (last.Some? ==>
                  && (s.validation.value.Passed() <==> BringsPass(last.value))
                  && s.validation.value.details.newestRecovered == last.value.comparison.newestRecovered)
  {
    hide R.Run, R.Start;
    var last := LastValidation(calls);
    StoredIsLast(h, b, calls);
    if last.Some? {
      Gates.GatesAreNine(R.Start(h, b).inc, last.value.comparison, last.value.gates);
      hide ValidationResult.Passed, BringsPass;
    }
  }

  /** So are the stored counts those of the last validation call. */
  lemma {:induction false} StoredCountsAreLast(h: Hasher, b: R.Birth, calls: seq<R.Timed>)
    ensures var s, last := R.Run(h, R.Start(h, b), calls).inc, LastValidation(calls);
            s.recordCounts == if last.None? then None else Some(CountsOf(last.value.comparison))
  {
    hide Step, R.Start;
    R.StartsBlank(h, b);
    if calls != [] {
      var k := |calls| - 1;
      StoredCountsAreLast(h, b, calls[..k]);
      StepStores(h, R.Run(h, R.Start(h, b), calls[..k]), calls[k].call, calls[k].now);
    }
  }

  /** The recovery point is the one of the last restart request past the guard, refused or not. So a
      promoted incident's point is the one its plan was computed for exactly when that request named it. */
  lemma {:induction false} StoredPointIsLast(h: Hasher, b: R.Birth, calls: seq<R.Timed>)
    ensures R.Run(h, R.Start(h, b), calls).inc.recoveryPoint == LastPoint(b, calls)
  {
    hide Step, R.Start;
    R.StartsBlank(h, b);
    if calls != [] {
      var k := |calls| - 1;
      StoredPointIsLast(h, b, calls[..k]);
      R.IdentityKept(h, b, calls[..k]);
      StepStoresPoint(h, R.Run(h, R.Start(h, b), calls[..k]), calls[k].call, calls[k].now);
    }
  }
}
