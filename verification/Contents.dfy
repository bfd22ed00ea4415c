/** What a built report tells: its status fields, measured values, sections and identifiers, each tied to the
    run it was built after. Nothing of it is lost to redaction, because no key on the way is sensitive. */
module Contents {
  import opened Prelude
  import opened Domain
  import opened Datasets
  import opened Planner
  import opened Integrity
  import opened StateMachine
  import opened Orchestrator
  import opened Redaction
  import opened LastWriter
  import opened Report
  import Acceptance
  import Gates
  import R = Runs

  // --------------------------------------------------- keys that are kept

  lemma PlainState()
    ensures Ordinary("state")
  {}

  lemma PlainPointStart()
    ensures Ordinary("data_") && "data_"[4] == '_'
  {}

  lemma PlainPointEnd()
    ensures Ordinary("recovery_point")
  {}

  lemma PlainPoint()
    ensures Ordinary("data_recovery_point")
  {
    hide Ordinary;
    PlainPointStart();
    PlainPointEnd();
    OrdinaryJoined("data_", "recovery_point");
    assert "data_" + "recovery_point" == "data_recovery_point";
  }

  lemma PlainScope()
    ensures Ordinary("evidence_scope")
  {}

  lemma PlainIncident()
    ensures Ordinary("run_id") && Ordinary("incident_id")
  {}

  lemma PlainScenario()
    ensures Ordinary("scenario_id") && Ordinary("scenario")
  {}

  lemma PlainMeasurements()
    ensures Ordinary("measurements") && Ordinary("rto") && Ordinary("rpo")
  {}

  lemma PlainDerived()
    ensures Ordinary("derived_seconds")
  {}

  lemma PlainRecordCounts()
    ensures Ordinary("record_counts")
  {}

  lemma PlainCounts()
    ensures Ordinary("expected") && Ordinary("recovered")
  {}

  lemma PlainLosses()
    ensures Ordinary("lost") && Ordinary("unexpected")
  {}

  lemma PlainTimestamps()
    ensures Ordinary("timestamps") && Ordinary("promotion")
  {}

  lemma PlainDeclared()
    ensures Ordinary("incident_declared")
  {}

  lemma PlainFailureStart()
    ensures Ordinary("failure_or_") && "failure_or_"[10] == '_'
  {}

  lemma PlainFailureEnd()
    ensures Ordinary("corruption")
  {}

  lemma PlainFailure()
    ensures Ordinary("failure_or_corruption")
  {
    hide Ordinary;
    PlainFailureStart();
    PlainFailureEnd();
    OrdinaryJoined("failure_or_", "corruption");
    assert "failure_or_" + "corruption" == "failure_or_corruption";
  }

  lemma PlainStartedStart()
    ensures Ordinary("recovery_") && "recovery_"[8] == '_'
  {}

  lemma PlainStartedEnd()
    ensures Ordinary("started")
  {}

  lemma PlainStarted()
    ensures Ordinary("recovery_started")
  {
    hide Ordinary;
    PlainStartedStart();
    PlainStartedEnd();
    OrdinaryJoined("recovery_", "started");
    assert "recovery_" + "started" == "recovery_started";
  }

  lemma PlainRestoredStart()
    ensures Ordinary("restore_") && "restore_"[7] == '_'
  {}

  lemma PlainRestoredEnd()
    ensures Ordinary("completed")
  {}

  lemma PlainRestored()
    ensures Ordinary("restore_completed")
  {
    hide Ordinary;
    PlainRestoredStart();
    PlainRestoredEnd();
    OrdinaryJoined("restore_", "completed");
    assert "restore_" + "completed" == "restore_completed";
  }

  lemma PlainValidating()
    ensures Ordinary("validation_started")
  {}

  lemma PlainValidatedStart()
    ensures Ordinary("validation_") && "validation_"[10] == '_'
  {}

  lemma PlainValidatedEnd()
    ensures Ordinary("completed")
  {}

  lemma PlainValidated()
    ensures Ordinary("validation_completed")
  {
    hide Ordinary;
    PlainValidatedStart();
    PlainValidatedEnd();
    OrdinaryJoined("validation_", "completed");
    assert "validation_" + "completed" == "validation_completed";
  }

  lemma PlainReady()
    ensures Ordinary("service_ready")
  {}

  lemma PlainFailback()
    ensures Ordinary("failback_completed")
  {}

  lemma PlainApproval()
    ensures Ordinary("approval") && Ordinary("status")
  {}

  lemma PlainOwner()
    ensures Ordinary("approver") && Ordinary("reference")
  {}

  lemma PlainResult()
    ensures Ordinary("validation_result")
  {}

  lemma PlainPromotionStatus()
    ensures Ordinary("promotion_status")
  {}

  lemma PlainFailbackStatus()
    ensures Ordinary("failback_status")
  {}

  lemma StatusFields(s: Snapshot, measurements: Json)
    ensures var raw := RawBody(s, measurements);
            && "validation_result" in raw && "promotion_status" in raw && "failback_status" in raw
            && (raw["validation_result"] == JStr("PASS") <==> s.validation.Some? && s.validation.value.Passed())
            && (raw["promotion_status"] == JStr("COMPLETE") <==> s.promotionAt.Some?)
            && (raw["failback_status"] == JStr("COMPLETE") <==> s.failbackCompletedAt.Some?)
            && raw["validation_result"].JStr? && raw["promotion_status"].JStr? && raw["failback_status"].JStr?
  {
    hide ValidationJson, RecordJson, SourcesJson, StateName, ScenarioName, EventsJson;
  }

  /** The built report of a reachable incident does not manufacture success: it says PASS exactly when the
      last validation call, raising or not, brought passing gates; promotion COMPLETE exactly from
      RECOVERY_ACTIVE on; and failback COMPLETE exactly when the incident is HEALTHY again. */
  lemma ReportTruthful(h: Hasher, b: R.Birth, calls: seq<R.Timed>, signer: Option<Signer>)
    ensures var s, last := R.Run(h, R.Start(h, b), calls).inc, LastValidation(calls);
            var built := BuildReport(h, s, signer);
            built.Ok? ==>
              && (Get(built.value, "validation_result") == JStr("PASS") <==> last.Some? && BringsPass(last.value))
              && (Get(built.value, "promotion_status") == JStr("COMPLETE") <==> R.Stage(s.state) >= 4)
              && (Get(built.value, "failback_status") == JStr("COMPLETE") <==> s.state == Healthy)
  {
    hide R.Run, R.Start, RawBody, RedactBody, Seal, Signature, MeasurementInputs, Sensitive, Ordinary, ValidChain,
         LastValidation, BringsPass, ValidationResult.Passed;
    var s := R.Run(h, R.Start(h, b), calls).inc;
    R.RunInstantsSet(h, b, calls);
    StoredValidationExactlyWhen(h, b, calls);
    if BuildReport(h, s, signer).Ok? {
      var raw := RawBody(s, MeasurementInputs(s).value);
      StatusFields(s, MeasurementInputs(s).value);
      PlainResult();
      PlainPromotionStatus();
      PlainFailbackStatus();
      OrdinaryPlain("validation_result");
      OrdinaryPlain("promotion_status");
      OrdinaryPlain("failback_status");
      RedactedKey(raw, "validation_result");
      RedactedKey(raw, "promotion_status");
      RedactedKey(raw, "failback_status");
    }
  }

  // ----------------------------------------------- what a report tells

  /** What stands in one section of a report. */
  function At(report: map<string, Json>, section: string, key: string): Json {
    var j := Get(report, section);
    if j.JObj? then Get(j.fields, key) else JNull
  }

  lemma RawStateAndPoint(s: Snapshot, measurements: Json)
    ensures var raw := RawBody(s, measurements);
            Get(raw, "state") == JStr(StateName(s.state)) && Get(raw, "data_recovery_point") == Iso(s.recoveryPoint)
  {
    hide ValidationJson, RecordJson, SourcesJson, StateName, ScenarioName, EventsJson, TimestampsJson, ApprovalJson,
         Iso;
  }

  lemma RawMeasurements(s: Snapshot, measurements: Json)
    ensures Get(RawBody(s, measurements), "measurements") == measurements
  {
    hide ValidationJson, RecordJson, SourcesJson, StateName, ScenarioName, EventsJson, TimestampsJson, ApprovalJson,
         Iso;
  }

  lemma RawSections(s: Snapshot, measurements: Json)
    ensures var raw := RawBody(s, measurements);
            Get(raw, "timestamps") == TimestampsJson(s) && Get(raw, "approval") == ApprovalJson(s)
  {
    hide ValidationJson, RecordJson, SourcesJson, StateName, ScenarioName, EventsJson, TimestampsJson, ApprovalJson,
         Iso;
  }

  lemma ApprovalTells(s: Snapshot)
    ensures var a := ApprovalJson(s);
            && a.JObj? && Get(a.fields, "status") == JStr(s.approvalStatus)
            && Get(a.fields, "approver") == Text(s.approver) && Get(a.fields, "reference") == Text(s.approvalReference)
  {
    hide Text;
  }

  lemma TimestampsTell(s: Snapshot)
    ensures TimestampsJson(s).JObj? && HasTimes(TimestampsJson(s).fields, s)
  {
    hide SourcesJson;
  }

  /** The nine instants of an incident. */
  ghost predicate HasTimes(t: map<string, Json>, s: Snapshot) {
    && Get(t, "incident_declared") == JTime(s.declaredAt) && Get(t, "failure_or_corruption") == JTime(s.failureAt)
    && Get(t, "recovery_started") == InstantOrNull(s.recoveryStartedAt)
    && Get(t, "restore_completed") == InstantOrNull(s.restoreCompletedAt)
    && Get(t, "validation_started") == InstantOrNull(s.validationStartedAt)
    && Get(t, "validation_completed") == InstantOrNull(s.validationCompletedAt)
    && Get(t, "service_ready") == InstantOrNull(s.rtoEndAt) && Get(t, "promotion") == InstantOrNull(s.promotionAt)
    && Get(t, "failback_completed") == InstantOrNull(s.failbackCompletedAt)
  }

  lemma TimesKept(t: map<string, Json>, s: Snapshot)
    requires HasTimes(t, s)
    ensures HasTimes(RedactBody(t), s)
  {
    hide Sensitive, Ordinary, RedactBody;
    PlainTimestamps();
    PlainDeclared();
    PlainFailure();
    PlainStarted();
    PlainRestored();
    PlainValidating();
    PlainValidated();
    PlainReady();
    PlainFailback();
    EntryKept(t, "incident_declared");
    EntryKept(t, "failure_or_corruption");
    EntryKept(t, "recovery_started");
    EntryKept(t, "restore_completed");
    EntryKept(t, "validation_started");
    EntryKept(t, "validation_completed");
    EntryKept(t, "service_ready");
    EntryKept(t, "promotion");
    EntryKept(t, "failback_completed");
  }

  lemma MeasurementSections(s: Snapshot)
    requires MeasurementInputs(s).Ok?
    ensures RtoStartOf(s).Ok? && RtoOf(RtoStartOf(s).value.at, s).Ok? && RpoOf(s).Ok?
    ensures var m, start := MeasurementInputs(s).value, RtoStartOf(s).value;
            && m.JObj? && Get(m.fields, "clock") == ClockJson(s.provenance)
            && Get(m.fields, "rto") == RtoJson(s, start, RtoOf(start.at, s).value)
            && Get(m.fields, "rpo") == RpoJson(s, RpoOf(s).value)
  {
    hide RtoStartOf, RtoOf, RpoOf, ClockJson, RtoJson, RpoJson;
  }

  lemma SecondsTold(s: Snapshot, start: RtoStart, seconds: Json)
    ensures RtoJson(s, start, seconds).JObj? && Get(RtoJson(s, start, seconds).fields, "derived_seconds") == seconds
    ensures RpoJson(s, seconds).JObj? && Get(RpoJson(s, seconds).fields, "derived_seconds") == seconds
  {
    hide Iso, SourceOf, NewestRecovered;
  }

  /** The two measured values: service restored less outage start, failure less newest recovered transaction;
      null where one of the two is missing. */
  lemma MeasuredValues(b: R.Birth, s: Snapshot)
    requires MeasurementInputs(s).Ok? && s.failureAt == b.failureAt
    requires RtoStartOf(s).Ok? ==> RtoStartOf(s).value.at == OutageStart(b)
    ensures var m := MeasurementInputs(s).value;
            && m.JObj? && Get(m.fields, "rto").JObj? && Get(m.fields, "rpo").JObj?
            && At(m.fields, "rto", "derived_seconds")
               == (if s.rtoEndAt.None? then JNull else JInt(s.rtoEndAt.value - OutageStart(b)))
            && At(m.fields, "rpo", "derived_seconds")
               == (if NewestRecovered(s).None? then JNull else JInt(b.failureAt - NewestRecovered(s).value))
  {
    MeasurementSections(s);
    SecondsTold(s, RtoStartOf(s).value, RtoOf(RtoStartOf(s).value.at, s).value);
    SecondsTold(s, RtoStartOf(s).value, RpoOf(s).value);
    hide MeasurementInputs, RtoStartOf, OutageStart, NewestRecovered, RtoJson, RpoJson, ClockJson;
  }

  lemma TopKept(h: Hasher, raw: map<string, Json>, signer: Option<Signer>, key: string)
    requires Ordinary(key) && Scalar(Get(raw, key)) && key != "integrity"
    ensures Get(Assemble(h, RedactBody(raw), signer), key) == Get(raw, key)
  {
    hide Sensitive, RedactBody, Seal, Signature, Ordinary;
    OrdinaryPlain(key);
    RedactedKey(raw, key);
  }

  lemma SectionKept(h: Hasher, raw: map<string, Json>, signer: Option<Signer>, key: string)
    requires Ordinary(key) && Get(raw, key).JObj? && key != "integrity"
    ensures Get(Assemble(h, RedactBody(raw), signer), key) == JObj(RedactBody(Get(raw, key).fields))
  {
    hide Sensitive, Seal, Signature, Ordinary;
    OrdinaryPlain(key);
    RedactedKey(raw, key);
    RedactedObject(Get(raw, key).fields);
    hide RedactBody;
  }

  lemma RedactedObject(m: map<string, Json>)
    ensures Redact(JObj(m)) == JObj(RedactBody(m))
  {
    hide Sensitive, Ordinary;
  }

  lemma EntryKept(m: map<string, Json>, key: string)
    requires Ordinary(key) && Scalar(Get(m, key))
    ensures Get(RedactBody(m), key) == Get(m, key)
  {
    hide Sensitive, RedactBody, Ordinary;
    OrdinaryPlain(key);
    RedactedKey(m, key);
  }

  lemma NestedKept(m: map<string, Json>, section: string, key: string)
    requires Ordinary(section) && Ordinary(key) && Get(m, section).JObj? && Scalar(At(m, section, key))
    ensures At(RedactBody(m), section, key) == At(m, section, key)
  {
    hide Sensitive, RedactBody, Ordinary;
    OrdinaryPlain(section);
    RedactedKey(m, section);
    RedactedObject(Get(m, section).fields);
    EntryKept(Get(m, section).fields, key);
  }

  ghost function InstantOrNull(t: Option<Time>): Json { if t.None? then JNull else JTime(t.value) }

  ghost function TextOrNull(t: Option<string>): Json { if t.None? then JNull else JStr(t.value) }

  lemma ValuesKept(h: Hasher, raw: map<string, Json>, signer: Option<Signer>)
    requires Get(raw, "measurements").JObj?
    requires var m := Get(raw, "measurements").fields;
             && Get(m, "rto").JObj? && Get(m, "rpo").JObj?
             && Scalar(At(m, "rto", "derived_seconds")) && Scalar(At(m, "rpo", "derived_seconds"))
    ensures var kept := Get(Assemble(h, RedactBody(raw), signer), "measurements");
            var m := Get(raw, "measurements").fields;
            && kept.JObj? && At(kept.fields, "rto", "derived_seconds") == At(m, "rto", "derived_seconds")
            && At(kept.fields, "rpo", "derived_seconds") == At(m, "rpo", "derived_seconds")
  {
    hide Sensitive, Ordinary, RedactBody, Assemble, At;
    PlainMeasurements();
    PlainDerived();
    SectionKept(h, raw, signer, "measurements");
    NestedKept(Get(raw, "measurements").fields, "rto", "derived_seconds");
    NestedKept(Get(raw, "measurements").fields, "rpo", "derived_seconds");
  }

  /** A report's measured objectives. For a reachable incident they are service restored less outage start,
      and failure less the newest recovered time that the last validation brought, in microseconds. */
  lemma ReportMeasures(h: Hasher, b: R.Birth, calls: seq<R.Timed>, signer: Option<Signer>)
    ensures var s, last := R.Run(h, R.Start(h, b), calls).inc, LastValidation(calls);
            var built := BuildReport(h, s, signer);
            built.Ok? ==>
              && Get(built.value, "measurements").JObj?
              && var m := Get(built.value, "measurements").fields;
                 && At(m, "rto", "derived_seconds")
                    == (if s.rtoEndAt.None? then JNull else JInt(s.rtoEndAt.value - OutageStart(b)))
                 && At(m, "rpo", "derived_seconds")
                    == (if last.None? || last.value.comparison.newestRecovered.None? then JNull
                        else JInt(b.failureAt - last.value.comparison.newestRecovered.value))
  {
    hide R.Run, R.Start, RawBody, RedactBody, Assemble, MeasurementInputs, Sensitive, Ordinary, ValidChain,
         LastValidation, RtoStartOf, BoundUsable, OutageStart, RuntimeFault, At;
    var s := R.Run(h, R.Start(h, b), calls).inc;
    R.IdentityKept(h, b, calls);
    StoredValidationExactlyWhen(h, b, calls);
    StartExactlyWhen(b, s);
    if BuildReport(h, s, signer).Ok? {
      RawMeasurements(s, MeasurementInputs(s).value);
      MeasuredValues(b, s);
      ValuesKept(h, RawBody(s, MeasurementInputs(s).value), signer);
    }
  }

  lemma RawCounts(s: Snapshot, measurements: Json)
    ensures var counts := Get(RawBody(s, measurements), "record_counts");
            && counts.JObj?
            && (s.recordCounts.None? ==> counts.fields == map[])
            && (s.recordCounts.Some? ==>
                  && Get(counts.fields, "expected") == JInt(s.recordCounts.value.expected)
                  && Get(counts.fields, "recovered") == JInt(s.recordCounts.value.recovered)
                  && Get(counts.fields, "lost") == JInt(s.recordCounts.value.lost)
                  && Get(counts.fields, "unexpected") == JInt(s.recordCounts.value.unexpected))
  {
    hide ValidationJson, RecordJson, SourcesJson, StateName, ScenarioName, EventsJson, TimestampsJson, ApprovalJson,
         Iso;
  }

  /** A report's counts are those of the last validation call, raising or not; empty without one. */
  lemma ReportCounts(h: Hasher, b: R.Birth, calls: seq<R.Timed>, signer: Option<Signer>)
    ensures var s, last := R.Run(h, R.Start(h, b), calls).inc, LastValidation(calls);
            var built := BuildReport(h, s, signer);
            built.Ok? ==>
              if last.None? then Get(built.value, "record_counts") == JObj(map[])
              else
                var c := last.value.comparison;
                && At(built.value, "record_counts", "expected") == JInt(c.sourceCount)
                && At(built.value, "record_counts", "recovered") == JInt(c.recoveredCount)
                && At(built.value, "record_counts", "lost") == JInt(|c.missingKeys|)
                && At(built.value, "record_counts", "unexpected") == JInt(|c.unexpectedKeys|)
  {
    hide R.Run, R.Start, RawBody, RedactBody, Assemble, MeasurementInputs, Sensitive, Ordinary, ValidChain,
         LastValidation, RuntimeFault;
    var s, last := R.Run(h, R.Start(h, b), calls).inc, LastValidation(calls);
    StoredCountsAreLast(h, b, calls);
    if BuildReport(h, s, signer).Ok? {
      var raw := RawBody(s, MeasurementInputs(s).value);
      RawCounts(s, MeasurementInputs(s).value);
      PlainRecordCounts();
      SectionKept(h, raw, signer, "record_counts");
      var counts := Get(raw, "record_counts").fields;
      if last.Some? {
        PlainCounts();
        PlainLosses();
        EntryKept(counts, "expected");
        EntryKept(counts, "recovered");
        EntryKept(counts, "lost");
        EntryKept(counts, "unexpected");
      } else {
        NothingRedacted();
      }
    }
  }

  lemma NothingRedacted()
    ensures RedactBody(map[]) == map[]
  {}

  /** What a built report of a reachable incident tells of its run: the state it ended in, the point of the
      last restart past the guard, and the approval that is recorded. */
  lemma ReportTells(h: Hasher, b: R.Birth, calls: seq<R.Timed>, signer: Option<Signer>)
    ensures var s := R.Run(h, R.Start(h, b), calls).inc;
            var built := BuildReport(h, s, signer);
            built.Ok? ==>
              && Get(built.value, "state") == JStr(Acceptance.Name(s.state))
              && Get(built.value, "data_recovery_point") == InstantOrNull(LastPoint(b, calls))
              && At(built.value, "approval", "status") == JStr(s.approvalStatus)
              && At(built.value, "approval", "approver") == TextOrNull(s.approver)
              && At(built.value, "approval", "reference") == TextOrNull(s.approvalReference)
  {
    hide R.Run, R.Start, RawBody, RedactBody, Assemble, MeasurementInputs, Sensitive, Ordinary, ValidChain, LastPoint,
         RuntimeFault, Acceptance.Name, StateName, TimestampsJson, ApprovalJson;
    var s := R.Run(h, R.Start(h, b), calls).inc;
    StoredPointIsLast(h, b, calls);
    NamesAgree(s.state);
    if BuildReport(h, s, signer).Ok? {
      var raw := RawBody(s, MeasurementInputs(s).value);
      RawStateAndPoint(s, MeasurementInputs(s).value);
      RawSections(s, MeasurementInputs(s).value);
      ApprovalTells(s);
      PlainState();
      PlainPoint();
      PlainApproval();
      PlainOwner();
      TopKept(h, raw, signer, "state");
      TopKept(h, raw, signer, "data_recovery_point");
      SectionKept(h, raw, signer, "approval");
      EntryKept(ApprovalJson(s).fields, "status");
      EntryKept(ApprovalJson(s).fields, "approver");
      EntryKept(ApprovalJson(s).fields, "reference");
    }
  }

  /** Its nine instants are the incident's, whichever incident it is built for. */
  lemma ReportTimes(h: Hasher, s: Snapshot, signer: Option<Signer>)
    ensures var built := BuildReport(h, s, signer);
            built.Ok? ==>
              Get(built.value, "timestamps").JObj? && HasTimes(Get(built.value, "timestamps").fields, s)
  {
    hide RawBody, RedactBody, Assemble, MeasurementInputs, Sensitive, Ordinary, ValidChain, RuntimeFault,
         TimestampsJson, HasTimes;
    if BuildReport(h, s, signer).Ok? {
      RawSections(s, MeasurementInputs(s).value);
      TimestampsTell(s);
      PlainTimestamps();
      SectionKept(h, RawBody(s, MeasurementInputs(s).value), signer, "timestamps");
      TimesKept(TimestampsJson(s).fields, s);
    }
  }

  function NameOf(s: Scenario): string {
    match s
    case RegionalOutage => "regional-outage"
    case LogicalCorruption => "logical-data-corruption"
    case S3Recovery => "s3-object-recovery"
  }

  lemma RawIdentity(s: Snapshot, measurements: Json)
    ensures var raw := RawBody(s, measurements);
            Get(raw, "run_id") == JStr(s.provenance.runId) && Get(raw, "scenario_id") == JStr(s.provenance.scenarioId)
  {
    hide ValidationJson, RecordJson, SourcesJson, StateName, ScenarioName, EventsJson, TimestampsJson, ApprovalJson,
         Iso;
  }

  lemma RawIncident(s: Snapshot, measurements: Json)
    ensures Get(RawBody(s, measurements), "incident_id") == JStr(s.provenance.incidentId)
  {
    hide ValidationJson, RecordJson, SourcesJson, StateName, ScenarioName, EventsJson, TimestampsJson, ApprovalJson,
         Iso;
  }

  lemma RawScope(s: Snapshot, measurements: Json)
    ensures var raw := RawBody(s, measurements);
            && Get(raw, "evidence_scope") == JStr(s.provenance.evidenceScope)
            && Get(raw, "scenario") == JStr(ScenarioName(s.scenario))
  {
    hide ValidationJson, RecordJson, SourcesJson, StateName, ScenarioName, EventsJson, TimestampsJson, ApprovalJson,
         Iso;
  }

  /** Identifiers, scope and scenario are those of the declaration. */
  lemma ReportIdentity(h: Hasher, b: R.Birth, calls: seq<R.Timed>, signer: Option<Signer>)
    ensures var built := BuildReport(h, R.Run(h, R.Start(h, b), calls).inc, signer);
            built.Ok? ==>
              && Get(built.value, "run_id") == JStr(b.provenance.runId)
              && Get(built.value, "scenario_id") == JStr(b.provenance.scenarioId)
              && Get(built.value, "incident_id") == JStr(b.provenance.incidentId)
              && Get(built.value, "evidence_scope") == JStr(b.provenance.evidenceScope)
              && Get(built.value, "scenario") == JStr(NameOf(b.scenario))
  {
    hide R.Run, R.Start, RawBody, RedactBody, Assemble, MeasurementInputs, Sensitive, Ordinary, ValidChain,
         RuntimeFault, ScenarioName, NameOf;
    var s := R.Run(h, R.Start(h, b), calls).inc;
    R.IdentityKept(h, b, calls);
    ScenarioNamesAgree(s.scenario);
    if BuildReport(h, s, signer).Ok? {
      var raw := RawBody(s, MeasurementInputs(s).value);
      RawIdentity(s, MeasurementInputs(s).value);
      RawIncident(s, MeasurementInputs(s).value);
      RawScope(s, MeasurementInputs(s).value);
      PlainIncident();
      PlainScenario();
      PlainScope();
      TopKept(h, raw, signer, "run_id");
      TopKept(h, raw, signer, "scenario_id");
      TopKept(h, raw, signer, "incident_id");
      TopKept(h, raw, signer, "evidence_scope");
      TopKept(h, raw, signer, "scenario");
    }
  }

  lemma ScenarioNamesAgree(s: Scenario)
    ensures ScenarioName(s) == NameOf(s)
  {}

  lemma NamesAgree(state: RecoveryState)
    ensures StateName(state) == Acceptance.Name(state)
  {}

  // ------------------------------------------------- the measurements

  lemma PlainClock()
    ensures Ordinary("clock") && Ordinary("classification")
  {}

  lemma PlainClockResultStart()
    ensures Ordinary("production_") && "production_"[10] == '_'
  {}

  lemma PlainClockResultEnd()
    ensures Ordinary("clock_validation")
  {}

  lemma PlainClockResult()
    ensures Ordinary("production_clock_validation")
  {
    hide Ordinary;
    PlainClockResultStart();
    PlainClockResultEnd();
    OrdinaryJoined("production_", "clock_validation");
    assert "production_" + "clock_validation" == "production_clock_validation";
  }

  lemma PlainEnds()
    ensures Ordinary("start") && Ordinary("end") && Ordinary("end_source")
  {}

  lemma PlainStartSource()
    ensures Ordinary("start_source")
  {}

  lemma PlainReferenceSource()
    ensures Ordinary("reference_source")
  {}

  lemma PlainRecovered()
    ensures Ordinary("recovered_point")
  {}

  lemma PlainRecoveredSourceStart()
    ensures Ordinary("recovered_point_") && "recovered_point_"[15] == '_'
  {}

  lemma PlainRecoveredSourceEnd()
    ensures Ordinary("source")
  {}

  lemma PlainRecoveredSource()
    ensures Ordinary("recovered_point_source")
  {
    hide Ordinary;
    PlainRecoveredSourceStart();
    PlainRecoveredSourceEnd();
    OrdinaryJoined("recovered_point_", "source");
    assert "recovered_point_" + "source" == "recovered_point_source";
  }

  ghost function SourceOrNull(sources: map<string, string>, name: string): Json {
    if name in sources then JStr(sources[name]) else JNull
  }

  /** The clock counts as proven exactly within its limit. */
  ghost predicate TellsClock(m: map<string, Json>, s: Snapshot) {
    && Get(m, "clock").JObj?
    && At(m, "clock", "production_clock_validation")
       == JStr(if s.provenance.clockSkewMs.Some? && s.provenance.clockSkewMs.value <= s.provenance.clockSkewLimitMs
               then "PASS" else "NOT_PROVEN")
  }

  /** The start is a lower bound exactly when the incident carries a bound that counts; each instant stands
      beside the source it is attributed to. */
  ghost predicate TellsRto(m: map<string, Json>, s: Snapshot) {
    var b := BirthOf(s);
    && Get(m, "rto").JObj?
    && At(m, "rto", "start") == JTime(OutageStart(b))
    && At(m, "rto", "classification") == JStr(if HasBound(b) then "LOWER_BOUND" else "OBSERVED")
    && At(m, "rto", "start_source") == (if HasBound(b) then JStr("GITHUB_ACTIONS_LOG_UTC_UPPER_BOUND")
                                        else SourceOrNull(s.provenance.timestampSources, "incident_declaration"))
    && At(m, "rto", "end") == InstantOrNull(s.rtoEndAt)
    && At(m, "rto", "end_source") == SourceOrNull(s.provenance.timestampSources, "validation")
  }

  ghost predicate TellsRpo(m: map<string, Json>, s: Snapshot) {
    && Get(m, "rpo").JObj?
    && At(m, "rpo", "reference") == JTime(s.failureAt)
    && At(m, "rpo", "reference_source") == SourceOrNull(s.provenance.timestampSources, "failure_or_corruption")
    && At(m, "rpo", "recovered_point")
       == (if s.validation.None? then JNull else InstantOrNull(s.validation.value.details.newestRecovered))
    && At(m, "rpo", "recovered_point_source") == SourceOrNull(s.provenance.timestampSources, "recovered_transaction")
  }

  lemma StartTells(s: Snapshot)
    requires RtoStartOf(s).Ok?
    ensures var start, b := RtoStartOf(s).value, BirthOf(s);
            && start.at == OutageStart(b)
            && start.classification == (if HasBound(b) then "LOWER_BOUND" else "OBSERVED")
            && start.source == (if HasBound(b) then JStr("GITHUB_ACTIONS_LOG_UTC_UPPER_BOUND")
                                else SourceOrNull(s.provenance.timestampSources, "incident_declaration"))
  {}

  lemma ClockTells(s: Snapshot)
    requires MeasurementInputs(s).Ok?
    ensures MeasurementInputs(s).value.JObj? && TellsClock(MeasurementInputs(s).value.fields, s)
  {
    MeasurementSections(s);
    hide MeasurementInputs, RtoJson, RpoJson, RtoStartOf, RtoOf, RpoOf;
  }

  lemma RtoTells(s: Snapshot)
    requires MeasurementInputs(s).Ok?
    ensures MeasurementInputs(s).value.JObj? && TellsRto(MeasurementInputs(s).value.fields, s)
  {
    MeasurementSections(s);
    StartTells(s);
    RtoEntries(s, RtoStartOf(s).value, RtoOf(RtoStartOf(s).value.at, s).value);
    hide MeasurementInputs, RtoJson, RpoJson, ClockJson, RtoStartOf, OutageStart, HasBound, RtoOf, RpoOf, BirthOf;
  }

  lemma RtoEntries(s: Snapshot, start: RtoStart, seconds: Json)
    ensures RtoJson(s, start, seconds).JObj?
    ensures var m := RtoJson(s, start, seconds).fields;
            && Get(m, "start") == JTime(start.at) && Get(m, "classification") == JStr(start.classification)
            && Get(m, "start_source") == start.source && Get(m, "end") == Iso(s.rtoEndAt)
            && Get(m, "end_source") == SourceOf(s, "validation")
  {
    hide Iso, SourceOf;
  }

  lemma RpoEntries(s: Snapshot, seconds: Json)
    ensures RpoJson(s, seconds).JObj?
    ensures var m := RpoJson(s, seconds).fields;
            && Get(m, "reference") == JTime(s.failureAt) && Get(m, "recovered_point") == Iso(NewestRecovered(s))
            && Get(m, "reference_source") == SourceOf(s, "failure_or_corruption")
            && Get(m, "recovered_point_source") == SourceOf(s, "recovered_transaction")
  {
    hide SourceOf, NewestRecovered, Iso;
  }

  lemma RpoTells(s: Snapshot)
    requires MeasurementInputs(s).Ok?
    ensures MeasurementInputs(s).value.JObj? && TellsRpo(MeasurementInputs(s).value.fields, s)
  {
    MeasurementSections(s);
    RpoEntries(s, RpoOf(s).value);
    hide MeasurementInputs, RpoJson, RtoJson, ClockJson, RtoStartOf, RtoOf, RpoOf;
  }

  lemma ClockKept(m: map<string, Json>, s: Snapshot)
    requires TellsClock(m, s)
    ensures TellsClock(RedactBody(m), s)
  {
    hide Sensitive, Ordinary, RedactBody;
    PlainClock();
    PlainClockResult();
    NestedKept(m, "clock", "production_clock_validation");
    ObjectKept(m, "clock");
  }

  lemma RtoKept(m: map<string, Json>, s: Snapshot)
    requires TellsRto(m, s)
    ensures TellsRto(RedactBody(m), s)
  {
    hide Sensitive, Ordinary, RedactBody, OutageStart, HasBound;
    PlainMeasurements();
    PlainClock();
    PlainEnds();
    PlainStartSource();
    NestedKept(m, "rto", "start");
    NestedKept(m, "rto", "classification");
    NestedKept(m, "rto", "start_source");
    NestedKept(m, "rto", "end");
    NestedKept(m, "rto", "end_source");
    ObjectKept(m, "rto");
  }

  lemma RpoKept(m: map<string, Json>, s: Snapshot)
    requires TellsRpo(m, s)
    ensures TellsRpo(RedactBody(m), s)
  {
    hide Sensitive, Ordinary, RedactBody;
    PlainMeasurements();
    PlainReferenceSource();
    PlainRecovered();
    PlainRecoveredSource();
    PlainOwner();
    NestedKept(m, "rpo", "reference");
    NestedKept(m, "rpo", "reference_source");
    NestedKept(m, "rpo", "recovered_point");
    NestedKept(m, "rpo", "recovered_point_source");
    ObjectKept(m, "rpo");
  }

  lemma ObjectKept(m: map<string, Json>, section: string)
    requires Ordinary(section) && Get(m, section).JObj?
    ensures Get(RedactBody(m), section).JObj?
  {
    hide Sensitive, Ordinary, RedactBody;
    OrdinaryPlain(section);
    RedactedKey(m, section);
  }

  /** The measurement section of any built report. */
  lemma ReportMeasurements(h: Hasher, s: Snapshot, signer: Option<Signer>)
    ensures var built := BuildReport(h, s, signer);
            built.Ok? ==>
              && Get(built.value, "measurements").JObj?
              && var m := Get(built.value, "measurements").fields;
                 TellsClock(m, s) && TellsRto(m, s) && TellsRpo(m, s)
  {
    hide RawBody, RedactBody, Assemble, MeasurementInputs, Sensitive, Ordinary, ValidChain, RuntimeFault,
         TellsClock, TellsRto, TellsRpo;
    if BuildReport(h, s, signer).Ok? {
      RawMeasurements(s, MeasurementInputs(s).value);
      ClockTells(s);
      RtoTells(s);
      RpoTells(s);
      PlainMeasurements();
      SectionKept(h, RawBody(s, MeasurementInputs(s).value), signer, "measurements");
      var m := MeasurementInputs(s).value.fields;
      ClockKept(m, s);
      RtoKept(m, s);
      RpoKept(m, s);
    }
  }

  // -------------------------------------------- the validation section

  lemma PlainHealth()
    ensures Ordinary("api_health")
  {}

  lemma PlainSum()
    ensures Ordinary("checksum")
  {}

  lemma PlainValidation()
    ensures Ordinary("validation")
  {}

  lemma PlainPassed()
    ensures Ordinary("passed")
  {}

  lemma PlainCount()
    ensures Ordinary("record_count")
  {}

  lemma PlainFreshness()
    ensures Ordinary("freshness")
  {}

  lemma PlainTransaction()
    ensures Ordinary("synthetic_transaction")
  {}

  lemma Folded(key: string)
    requires forall i | 0 <= i < |key| :: Fold(key[i]) == key[i]
    ensures FoldText(key) == key
  {}

  lemma PlainVersions()
    ensures !Sensitive("s3_versions")
  {
    var key := "s3_versions";
    Folded(key);
    hide Fold, Contains, FoldText, Sensitive;
    MissingLetter(key, "secret", 't');
    MissingLetter(key, "token", 't');
    MissingLetter(key, "password", 'w');
    MissingLetter(key, "authorization", 'z');
    MissingLetter(key, "credential", 'd');
    NoneOccurs(key);
  }

  lemma FoldedConsistency()
    ensures FoldText("cross_region_consistency") == "cross_region_consistency"
  {
    Folded("cross_region_consistency");
  }

  lemma PlainConsistency()
    ensures !Sensitive("cross_region_consistency")
  {
    hide Fold, Contains, FoldText, Sensitive;
    FoldedConsistency();
    ConsistencyPair();
    ConsistencyLetters();
    MoreConsistencyLetters();
    NoneOccurs("cross_region_consistency");
  }

  lemma ConsistencyPair()
    ensures !Contains("cross_region_consistency", "secret")
  {
    hide Contains;
    MissingPair("cross_region_consistency", "secret", 4);
  }

  lemma ConsistencyLetters()
    ensures var key := "cross_region_consistency"; !Contains(key, "token") && !Contains(key, "password")
  {
    hide Contains;
    MissingLetter("cross_region_consistency", "token", 'k');
    MissingLetter("cross_region_consistency", "password", 'w');
  }

  lemma MoreConsistencyLetters()
    ensures var key := "cross_region_consistency"; !Contains(key, "authorization") && !Contains(key, "credential")
  {
    hide Contains;
    MissingLetter("cross_region_consistency", "authorization", 'z');
    MissingLetter("cross_region_consistency", "credential", 'd');
  }

  lemma PlainReadWrite()
    ensures !Sensitive("read_write")
  {
    var key := "read_write";
    Folded(key);
    hide Fold, Contains, FoldText, Sensitive;
    MissingLetter(key, "secret", 's');
    MissingLetter(key, "token", 'k');
    MissingLetter(key, "password", 'p');
    MissingLetter(key, "authorization", 'z');
    MissingLetter(key, "credential", 'c');
    NoneOccurs(key);
  }

  lemma PlainExpectedKeys()
    ensures !Sensitive("expected_keys")
  {
    var key := "expected_keys";
    Folded(key);
    hide Fold, Contains, FoldText, Sensitive;
    MissingLetter(key, "secret", 'r');
    MissingLetter(key, "token", 'o');
    MissingLetter(key, "password", 'w');
    MissingLetter(key, "authorization", 'z');
    MissingLetter(key, "credential", 'r');
    NoneOccurs(key);
  }

  /** The nine gates of a validation call, and whether all of them hold. */
  ghost predicate TellsGates(v: map<string, Json>, call: Call)
    requires call.RecordValidation?
  {
    TellsSupplied(v, call.gates) && TellsCompared(v, call.comparison) && Get(v, "passed") == JBool(BringsPass(call))
  }

  ghost predicate TellsSupplied(v: map<string, Json>, g: SuppliedGates) {
    && Get(v, "api_health") == JBool(g.apiHealth) && Get(v, "read_write") == JBool(g.readWrite)
    && Get(v, "freshness") == JBool(g.freshness) && Get(v, "s3_versions") == JBool(g.s3Versions)
    && Get(v, "cross_region_consistency") == JBool(g.crossRegionConsistency)
    && Get(v, "synthetic_transaction") == JBool(g.syntheticTransaction)
  }

  ghost predicate TellsCompared(v: map<string, Json>, c: Comparison) {
    && Get(v, "record_count") == JBool(c.sourceCount == c.recoveredCount)
    && Get(v, "expected_keys") == JBool(c.missingKeys == [] && c.unexpectedKeys == [])
    && Get(v, "checksum") == JBool(c.sourceChecksum == c.recoveredChecksum)
  }

  lemma SuppliedTells(s: Snapshot, c: Comparison, g: SuppliedGates)
    ensures ValidationJson(ValidationFor(s, c, g)).JObj?
    ensures TellsSupplied(ValidationJson(ValidationFor(s, c, g)).fields, g)
  {
    hide ValidationResult.Passed, ValidationJson;
    LocalGatesTell(ValidationFor(s, c, g));
    DataGatesTell(ValidationFor(s, c, g));
  }

  lemma LocalGatesTell(v: ValidationResult)
    ensures ValidationJson(v).JObj?
    ensures var m := ValidationJson(v).fields;
            && Get(m, "api_health") == JBool(v.apiHealth) && Get(m, "read_write") == JBool(v.readWrite)
            && Get(m, "synthetic_transaction") == JBool(v.syntheticTransaction)
  {
    hide ValidationResult.Passed, DetailsJson;
  }

  lemma DataGatesTell(v: ValidationResult)
    ensures ValidationJson(v).JObj?
    ensures var m := ValidationJson(v).fields;
            && Get(m, "freshness") == JBool(v.freshness) && Get(m, "s3_versions") == JBool(v.s3Versions)
            && Get(m, "cross_region_consistency") == JBool(v.crossRegionConsistency)
  {
    hide ValidationResult.Passed, DetailsJson;
  }

  lemma ComparedTells(s: Snapshot, c: Comparison, g: SuppliedGates)
    ensures ValidationJson(ValidationFor(s, c, g)).JObj?
    ensures TellsCompared(ValidationJson(ValidationFor(s, c, g)).fields, c)
  {
    hide ValidationResult.Passed, DetailsJson;
  }

  lemma PassedTells(v: ValidationResult)
    ensures ValidationJson(v).JObj? && Get(ValidationJson(v).fields, "passed") == JBool(v.Passed())
  {
    hide ValidationResult.Passed, DetailsJson;
  }

  lemma ValidationTells(s: Snapshot, call: Call)
    requires call.RecordValidation?
    ensures var j := ValidationJson(ValidationFor(s, call.comparison, call.gates));
            j.JObj? && TellsGates(j.fields, call)
  {
    Gates.GatesAreNine(s, call.comparison, call.gates);
    hide ValidationResult.Passed, ValidationJson, TellsSupplied, TellsCompared, ValidationFor;
    SuppliedTells(s, call.comparison, call.gates);
    ComparedTells(s, call.comparison, call.gates);
    PassedTells(ValidationFor(s, call.comparison, call.gates));
  }

  lemma PlainKept(m: map<string, Json>, key: string)
    requires !Sensitive(key) && Scalar(Get(m, key))
    ensures Get(RedactBody(m), key) == Get(m, key)
  {
    hide Sensitive, RedactBody;
    RedactedKey(m, key);
  }

  lemma GatesKept(v: map<string, Json>, call: Call)
    requires call.RecordValidation? && TellsGates(v, call)
    ensures TellsGates(RedactBody(v), call)
  {
    hide Sensitive, Ordinary, RedactBody, BringsPass;
    PlainHealth();
    PlainSum();
    PlainPassed();
    PlainCount();
    PlainFreshness();
    PlainTransaction();
    PlainVersions();
    PlainConsistency();
    PlainReadWrite();
    PlainExpectedKeys();
    EntryKept(v, "api_health");
    PlainKept(v, "read_write");
    EntryKept(v, "record_count");
    PlainKept(v, "expected_keys");
    EntryKept(v, "checksum");
    EntryKept(v, "freshness");
    PlainKept(v, "s3_versions");
    PlainKept(v, "cross_region_consistency");
    EntryKept(v, "synthetic_transaction");
    EntryKept(v, "passed");
  }

  lemma RawValidation(s: Snapshot, measurements: Json)
    ensures Get(RawBody(s, measurements), "validation")
         == if s.validation.None? then JNull else ValidationJson(s.validation.value)
  {
    hide ValidationJson, RecordJson, SourcesJson, StateName, ScenarioName, EventsJson, TimestampsJson, ApprovalJson,
         Iso;
  }

  /** For reachable incidents the validation section shows the nine gates of the last validation call, raising
      or not; null without one. */
  lemma ReportValidation(h: Hasher, b: R.Birth, calls: seq<R.Timed>, signer: Option<Signer>)
    ensures var s, last := R.Run(h, R.Start(h, b), calls).inc, LastValidation(calls);
            var built := BuildReport(h, s, signer);
            built.Ok? ==>
              if last.None? then Get(built.value, "validation") == JNull
              else
                Get(built.value, "validation").JObj? && TellsGates(Get(built.value, "validation").fields, last.value)
  {
    hide R.Run, R.Start, RawBody, RedactBody, Assemble, MeasurementInputs, Sensitive, Ordinary, ValidChain,
         LastValidation, RuntimeFault, TellsGates, ValidationJson, ValidationFor;
    var s, last := R.Run(h, R.Start(h, b), calls).inc, LastValidation(calls);
    StoredIsLast(h, b, calls);
    if BuildReport(h, s, signer).Ok? {
      var raw := RawBody(s, MeasurementInputs(s).value);
      RawValidation(s, MeasurementInputs(s).value);
      PlainValidation();
      if last.Some? {
        ValidationTells(R.Start(h, b).inc, last.value);
        SectionKept(h, raw, signer, "validation");
        GatesKept(Get(raw, "validation").fields, last.value);
      } else {
        TopKept(h, raw, signer, "validation");
      }
    }
  }

  lemma PlainMissingKeys()
    ensures !Sensitive("missing_keys")
  {
    var key := "missing_keys";
    Folded(key);
    hide Fold, Contains, FoldText, Sensitive;
    MissingLetter(key, "secret", 'c');
    MissingLetter(key, "token", 't');
    MissingLetter(key, "password", 'w');
    MissingLetter(key, "authorization", 'z');
    MissingLetter(key, "credential", 'c');
    NoneOccurs(key);
  }

  lemma PlainUnexpectedKeys()
    ensures !Sensitive("unexpected_keys")
  {
    var key := "unexpected_keys";
    Folded(key);
    hide Fold, Contains, FoldText, Sensitive;
    MissingLetter(key, "secret", 'r');
    MissingLetter(key, "token", 'o');
    MissingLetter(key, "password", 'w');
    MissingLetter(key, "authorization", 'z');
    MissingLetter(key, "credential", 'r');
    NoneOccurs(key);
  }

  lemma PlainSourceSum()
    ensures Ordinary("source_checksum")
  {}

  lemma PlainDetails()
    ensures Ordinary("details")
  {}

  lemma PlainRecoveredSum()
    ensures Ordinary("recovered_checksum")
  {}

  /** What a comparison found: both digests, and the ids each side lacks. */
  ghost predicate TellsDetails(m: map<string, Json>, c: Comparison) {
    && Get(m, "source_checksum") == JStr(c.sourceChecksum) && Get(m, "recovered_checksum") == JStr(c.recoveredChecksum)
    && Get(m, "missing_keys") == Ids(c.missingKeys) && Get(m, "unexpected_keys") == Ids(c.unexpectedKeys)
  }

  function DetailsOf(j: Json): Json { if j.JObj? then Get(j.fields, "details") else JNull }

  lemma DetailsTell(s: Snapshot, c: Comparison, g: SuppliedGates)
    ensures var d := DetailsOf(ValidationJson(ValidationFor(s, c, g)));
            d.JObj? && TellsDetails(d.fields, c)
  {
    DetailsEntry(ValidationFor(s, c, g));
    hide ValidationJson, Ids, Iso;
  }

  lemma DetailsEntry(v: ValidationResult)
    ensures DetailsOf(ValidationJson(v)) == DetailsJson(v.details)
  {
    hide ValidationResult.Passed, DetailsJson;
  }

  lemma PlainIdsKept(m: map<string, Json>, key: string, ids: seq<Id>)
    requires !Sensitive(key) && Get(m, key) == Ids(ids)
    ensures Get(RedactBody(m), key) == Ids(ids)
  {
    hide Sensitive, RedactBody;
    RedactedKey(m, key);
    assert Redact(Ids(ids)).items == Ids(ids).items;
  }

  lemma DetailsKept(m: map<string, Json>, c: Comparison)
    requires TellsDetails(m, c)
    ensures TellsDetails(RedactBody(m), c)
  {
    hide Sensitive, Ordinary, RedactBody, Ids;
    PlainSourceSum();
    PlainRecoveredSum();
    PlainMissingKeys();
    PlainUnexpectedKeys();
    EntryKept(m, "source_checksum");
    EntryKept(m, "recovered_checksum");
    PlainIdsKept(m, "missing_keys", c.missingKeys);
    PlainIdsKept(m, "unexpected_keys", c.unexpectedKeys);
  }

  lemma DetailsSectionKept(v: map<string, Json>)
    requires Get(v, "details").JObj?
    ensures Get(RedactBody(v), "details") == JObj(RedactBody(Get(v, "details").fields))
  {
    hide Sensitive, Ordinary, RedactBody;
    PlainDetails();
    OrdinaryPlain("details");
    RedactedKey(v, "details");
    RedactedObject(Get(v, "details").fields);
  }

  /** And the digests and ids that it compared. */
  lemma ReportDetails(h: Hasher, b: R.Birth, calls: seq<R.Timed>, signer: Option<Signer>)
    ensures var s, last := R.Run(h, R.Start(h, b), calls).inc, LastValidation(calls);
            var built := BuildReport(h, s, signer);
            built.Ok? && last.Some? ==>
              && var d := DetailsOf(Get(built.value, "validation"));
                 d.JObj? && TellsDetails(d.fields, last.value.comparison)
  {
    hide R.Run, R.Start, RawBody, RedactBody, Assemble, MeasurementInputs, Sensitive, Ordinary, ValidChain,
         LastValidation, RuntimeFault, TellsDetails, ValidationJson, ValidationFor;
    var s, last := R.Run(h, R.Start(h, b), calls).inc, LastValidation(calls);
    StoredIsLast(h, b, calls);
    if BuildReport(h, s, signer).Ok? && last.Some? {
      var raw := RawBody(s, MeasurementInputs(s).value);
      RawValidation(s, MeasurementInputs(s).value);
      PlainValidation();
      DetailsTell(R.Start(h, b).inc, last.value.comparison, last.value.gates);
      SectionKept(h, raw, signer, "validation");
      var v := Get(raw, "validation").fields;
      DetailsSectionKept(v);
      DetailsKept(Get(v, "details").fields, last.value.comparison);
    }
  }

  // ---------------------------------------- the reconciliation section

  lemma PlainReconciliation()
    ensures Ordinary("reconciliation") && Ordinary("complete")
  {}

  lemma PlainSafe()
    ensures Ordinary("safe_to_promote")
  {}

  lemma PlainReplay()
    ensures Ordinary("replay_result")
  {}

  lemma PlainRecoveryPoint()
    ensures Ordinary("recovery_point")
  {}

  lemma PlainReplayIdsStart()
    ensures Ordinary("replay_transaction_") && "replay_transaction_"[18] == '_'
  {}

  lemma PlainReplayIdsEnd()
    ensures Ordinary("ids")
  {}

  lemma PlainReplayIds()
    ensures Ordinary("replay_transaction_ids")
  {
    hide Ordinary;
    PlainReplayIdsStart();
    PlainReplayIdsEnd();
    OrdinaryJoined("replay_transaction_", "ids");
    assert "replay_transaction_" + "ids" == "replay_transaction_ids";
  }

  lemma PlainChecksumStart()
    ensures Ordinary("authoritative_") && "authoritative_"[13] == '_'
  {}

  lemma PlainChecksumEnd()
    ensures Ordinary("checksum")
  {}

  lemma PlainChecksum()
    ensures Ordinary("authoritative_checksum")
  {
    hide Ordinary;
    PlainChecksumStart();
    PlainChecksumEnd();
    OrdinaryJoined("authoritative_", "checksum");
    assert "authoritative_" + "checksum" == "authoritative_checksum";
  }

  /** Of a record: its plan's point, replay ids and checksum, whether that plan is safe, whether the replay is
      complete, and the record's status. */
  ghost predicate TellsRecord(m: map<string, Json>, r: Record) {
    && Get(m, "recovery_point") == JTime(r.plan.recoveryPoint)
    && Get(m, "replay_transaction_ids") == Ids(r.plan.replayIds)
    && Get(m, "authoritative_checksum") == JStr(r.plan.checksum)
    && Get(m, "safe_to_promote") == JBool(Acceptance.SafePlan(r.plan))
    && Get(m, "status") == JStr(r.status)
    && Get(m, "replay_result").JObj? && At(m, "replay_result", "complete") == JBool(Acceptance.Replayed(r.replay))
  }

  lemma PlanEntry(r: Record, key: string)
    requires key != "status" && key != "replay_result" && key != "validation_timestamp"
    requires key != "production_repair_required" && key != "production_repair"
    ensures RecordJson(r).JObj? && Get(RecordJson(r).fields, key) == Get(PlanJson(r.plan), key)
  {
    hide ReplayJson, PlanJson, Iso;
  }

  lemma RecordEntries(r: Record)
    ensures RecordJson(r).JObj? && Get(RecordJson(r).fields, "status") == JStr(r.status)
    ensures Get(RecordJson(r).fields, "replay_result") == ReplayJson(r.replay)
  {
    hide ReplayJson, PlanJson, Iso;
  }

  lemma PlanTells(p: Plan)
    ensures var m := PlanJson(p);
            && Get(m, "recovery_point") == JTime(p.recoveryPoint)
            && Get(m, "replay_transaction_ids") == Ids(p.replayIds)
            && Get(m, "authoritative_checksum") == JStr(p.checksum)
            && Get(m, "safe_to_promote") == JBool(Acceptance.SafePlan(p))
  {
    hide Ids, Iso;
  }

  lemma RecordTells(r: Record)
    ensures RecordJson(r).JObj? && TellsRecord(RecordJson(r).fields, r)
  {
    hide ReplayJson, RecordJson, PlanJson, Ids, Acceptance.Replayed, Acceptance.SafePlan;
    PlanTells(r.plan);
    PlanEntry(r, "recovery_point");
    PlanEntry(r, "replay_transaction_ids");
    PlanEntry(r, "authoritative_checksum");
    PlanEntry(r, "safe_to_promote");
    RecordEntries(r);
    ReplayTells(r.replay);
  }

  lemma ReplayTells(r: ReplayRecord)
    ensures ReplayJson(r).JObj? && Get(ReplayJson(r).fields, "complete") == JBool(Acceptance.Replayed(r))
  {
    Acceptance.ReplayedExactly(r);
    hide Acceptance.Replayed, Ids, Text;
  }

  lemma IdsKept(m: map<string, Json>, key: string, ids: seq<Id>)
    requires Ordinary(key) && Get(m, key) == Ids(ids)
    ensures Get(RedactBody(m), key) == Ids(ids)
  {
    hide Sensitive, Ordinary;
    OrdinaryPlain(key);
    PlainIdsKept(m, key, ids);
  }

  lemma RecordKept(m: map<string, Json>, r: Record)
    requires TellsRecord(m, r)
    ensures TellsRecord(RedactBody(m), r)
  {
    hide Sensitive, Ordinary, RedactBody, Ids, Acceptance.Replayed, Acceptance.SafePlan;
    PlainReconciliation();
    PlainSafe();
    PlainReplay();
    PlainRecoveryPoint();
    PlainReplayIds();
    PlainChecksum();
    PlainApproval();
    EntryKept(m, "recovery_point");
    IdsKept(m, "replay_transaction_ids", r.plan.replayIds);
    EntryKept(m, "authoritative_checksum");
    EntryKept(m, "safe_to_promote");
    EntryKept(m, "status");
    NestedKept(m, "replay_result", "complete");
    ObjectKept(m, "replay_result");
  }

  lemma RawRecord(s: Snapshot, measurements: Json)
    ensures Get(RawBody(s, measurements), "reconciliation")
         == if s.reconciliation.None? then JNull else RecordJson(s.reconciliation.value)
  {
    hide ValidationJson, RecordJson, SourcesJson, StateName, ScenarioName, EventsJson, TimestampsJson, ApprovalJson,
         Iso;
  }

  /** The reconciliation section of any built report calls a plan safe and a replay complete exactly when they
      are; null without a record. */
  lemma ReportReconciliation(h: Hasher, s: Snapshot, signer: Option<Signer>)
    ensures var built := BuildReport(h, s, signer);
            built.Ok? ==>
              if s.reconciliation.None? then Get(built.value, "reconciliation") == JNull
              else
                && Get(built.value, "reconciliation").JObj?
                && TellsRecord(Get(built.value, "reconciliation").fields, s.reconciliation.value)
  {
    hide RawBody, RedactBody, Assemble, MeasurementInputs, Sensitive, Ordinary, ValidChain, RuntimeFault, RecordJson,
         TellsRecord;
    if BuildReport(h, s, signer).Ok? {
      var raw := RawBody(s, MeasurementInputs(s).value);
      RawRecord(s, MeasurementInputs(s).value);
      PlainReconciliation();
      if s.reconciliation.Some? {
        RecordTells(s.reconciliation.value);
        SectionKept(h, raw, signer, "reconciliation");
        RecordKept(Get(raw, "reconciliation").fields, s.reconciliation.value);
      } else {
        TopKept(h, raw, signer, "reconciliation");
      }
    }
  }
}
