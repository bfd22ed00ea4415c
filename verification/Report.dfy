/** Recovery reports: measurement inputs, building and verification. */
module Report {
  import opened Prelude
  import opened Domain
  import opened Datasets
  import opened Planner
  import opened Integrity
  import opened StateMachine
  import opened Orchestrator
  import opened Redaction
  import opened LastWriter
  import R = Runs

  datatype ReportError =
    | MalformedBound | UntrustedBound | InconsistentBound
    | NegativeRto | NegativeRpo
    | SkewUnproven | UntrustedSource | SignerRequired | MissingIdentity | BrokenChain

  function Iso(t: Option<Time>): Json { if t.None? then JNull else JTime(t.value) }

  function Text(t: Option<string>): Json { if t.None? then JNull else JStr(t.value) }

  function Flag(b: bool): Json { JBool(b) }

  function Ids(ids: seq<Id>): Json { JArr(seq(|ids|, i requires 0 <= i < |ids| => JStr(ids[i]))) }

  function Sources(s: Snapshot): map<string, string> { s.provenance.timestampSources }

  function SourceOf(s: Snapshot, name: string): Json {
    if name in Sources(s) then JStr(Sources(s)[name]) else JNull
  }

  const BOUND_SOURCE := "GITHUB_ACTIONS_LOG_UTC_UPPER_BOUND"

  /** `runtime_evidence.get("measurement_bounds", {}).get("rto_start")` */
  function RtoBound(s: Snapshot): Result<Json, ReportError> {
    var evidence := s.provenance.runtimeEvidence;
    if "measurement_bounds" !in evidence then Ok(JNull)
    else if evidence["measurement_bounds"].JObj? then Ok(Get(evidence["measurement_bounds"].fields, "rto_start"))
    else Err(MalformedBound)
  }

  datatype RtoStart = RtoStart(at: Time, source: Json, classification: string)

  function RtoStartOf(s: Snapshot): Result<RtoStart, ReportError> {
    if RtoBound(s).Err? then Err(RtoBound(s).error)
    else
      var bound := RtoBound(s).value;
      if s.provenance.evidenceScope != "AWS_RUNTIME" || !bound.JObj? then
        Ok(RtoStart(s.declaredAt, SourceOf(s, "incident_declaration"), "OBSERVED"))
      else if Get(bound.fields, "source") != JStr(BOUND_SOURCE) then Err(UntrustedBound)
      else if !Get(bound.fields, "timestamp").JTime? then Err(MalformedBound)
      else
        var at := Get(bound.fields, "timestamp").instant;
        if at != s.failureAt || at > s.declaredAt then Err(InconsistentBound)
        else Ok(RtoStart(at, JStr(BOUND_SOURCE), "LOWER_BOUND"))
  }

  function NewestRecovered(s: Snapshot): Option<Time> {
    if s.validation.None? then None else s.validation.value.details.newestRecovered
  }

  /** Seconds-valued results are kept in microseconds. */
  function RtoOf(start: Time, s: Snapshot): Result<Json, ReportError> {
    if s.rtoEndAt.None? then Ok(JNull)
    else
      var r := MeasuredRto(start, s.rtoEndAt.value);
      if r.Ok? then Ok(JInt(r.value)) else Err(NegativeRto)
  }

  function RpoOf(s: Snapshot): Result<Json, ReportError> {
    if NewestRecovered(s).None? then Ok(JNull)
    else
      var r := MeasuredRpo(s.failureAt, NewestRecovered(s).value);
      if r.Ok? then Ok(JInt(r.value)) else Err(NegativeRpo)
  }

  function ClockJson(p: Provenance): Json {
    JObj(map[
      "observed_skew_ms" := if p.clockSkewMs.Some? then JReal(p.clockSkewMs.value) else JNull,
      "maximum_allowed_skew_ms" := JReal(p.clockSkewLimitMs),
      "production_clock_validation" :=
        JStr(if p.clockSkewMs.Some? && p.clockSkewMs.value <= p.clockSkewLimitMs then "PASS" else "NOT_PROVEN")])
  }

  function RtoJson(s: Snapshot, start: RtoStart, seconds: Json): Json {
    JObj(map[
      "start" := JTime(start.at), "start_source" := start.source, "classification" := JStr(start.classification),
      "end" := Iso(s.rtoEndAt), "end_source" := SourceOf(s, "validation"),
      "definition" := JStr("validated recovered service ready for intended traffic"), "derived_seconds" := seconds])
  }

  function RpoJson(s: Snapshot, seconds: Json): Json {
    JObj(map[
      "reference" := JTime(s.failureAt), "reference_source" := SourceOf(s, "failure_or_corruption"),
      "recovered_point" := Iso(NewestRecovered(s)),
      "recovered_point_source" := SourceOf(s, "recovered_transaction"),
      "definition" := JStr("failure point minus newest validated business transaction"),
      "derived_seconds" := seconds])
  }

  function MeasurementInputs(s: Snapshot): Result<Json, ReportError> {
    if RtoStartOf(s).Err? then Err(RtoStartOf(s).error)
    else
      var start := RtoStartOf(s).value;
      if RtoOf(start.at, s).Err? then Err(RtoOf(start.at, s).error)
      else if RpoOf(s).Err? then Err(RpoOf(s).error)
      else
        Ok(JObj(map["clock" := ClockJson(s.provenance), "rto" := RtoJson(s, start, RtoOf(start.at, s).value),
                    "rpo" := RpoJson(s, RpoOf(s).value)]))
  }

  predicate TrustedSource(s: Snapshot, name: string, allowed: set<string>) {
    name in Sources(s) && Sources(s)[name] in allowed
  }

  predicate TrustedSources(s: Snapshot) {
    && TrustedSource(s, "incident_declaration", {"CONTROLLER_UTC_SYNCED", "AWS_EVENT_TIMESTAMP"})
    && TrustedSource(s, "failure_or_corruption",
                     {"FAULT_INJECTOR_UTC_SYNCED", "AWS_CLOUDTRAIL_EVENT", BOUND_SOURCE})
    && TrustedSource(s, "validation", {"CONTROLLER_UTC_SYNCED"})
    && TrustedSource(s, "recovered_transaction",
                     {"DYNAMODB_TRANSACTION_UTC_VALIDATED", "DYNAMODB_PITR_READBACK_UTC_VALIDATED"})
  }

  predicate SkewPasses(s: Snapshot) {
    s.provenance.clockSkewMs.Some? && s.provenance.clockSkewMs.value <= s.provenance.clockSkewLimitMs
  }

  function RuntimeFault(s: Snapshot): Option<ReportError> {
    if s.provenance.evidenceScope != "AWS_RUNTIME" then None
    else if !SkewPasses(s) then Some(SkewUnproven)
    else if !TrustedSources(s) then Some(UntrustedSource)
    else None
  }

  function ScenarioName(s: Scenario): string {
    match s
    case RegionalOutage => "regional-outage"
    case LogicalCorruption => "logical-data-corruption"
    case S3Recovery => "s3-object-recovery"
  }

  function DetailsJson(d: ValidationDetails): Json {
    JObj(map[
      "source_checksum" := JStr(d.sourceChecksum), "recovered_checksum" := JStr(d.recoveredChecksum),
      "missing_keys" := Ids(d.missingKeys), "unexpected_keys" := Ids(d.unexpectedKeys),
      "newest_recovered_transaction" := Iso(d.newestRecovered), "evidence_scope" := JStr(d.evidenceScope)])
  }

  function ValidationJson(v: ValidationResult): Json {
    JObj(map[
      "api_health" := Flag(v.apiHealth), "read_write" := Flag(v.readWrite), "record_count" := Flag(v.recordCount),
      "expected_keys" := Flag(v.expectedKeys), "checksum" := Flag(v.checksum), "freshness" := Flag(v.freshness),
      "s3_versions" := Flag(v.s3Versions), "cross_region_consistency" := Flag(v.crossRegionConsistency),
      "synthetic_transaction" := Flag(v.syntheticTransaction), "passed" := Flag(v.Passed()),
      "details" := DetailsJson(v.details)])
  }

  function ReplayJson(r: ReplayRecord): Json {
    match r
    case Placeholder(done, status) => JObj(map["complete" := Flag(done), "status" := JStr(status)])
    case Executed(x) => JObj(map[
      "plan_checksum" := JStr(x.planChecksum), "validation_timestamp" := JTime(x.validationTimestamp),
      "executed_at" := JTime(x.executedAt), "requested_ids" := Ids(x.requestedIds),
      "applied_ids" := Ids(x.appliedIds), "idempotent_ids" := Ids(x.idempotentIds),
      "conflict_ids" := Ids(x.conflictIds), "failed_ids" := Ids(x.failedIds),
      "dry_run" := Flag(x.dryRun), "approved" := Flag(x.approved), "approver" := Text(x.approver),
      "approval_reference" := Text(x.approvalReference), "complete" := Flag(x.Complete())])
  }

  function PlanJson(p: Plan): map<string, Json> {
    map["recovery_point" := JTime(p.recoveryPoint), "authoritative_policy" := JStr(p.policy),
        "replay_transaction_ids" := Ids(p.replayIds),
        "ignored_corrupt_transaction_ids" := Ids(p.ignoredCorruptIds),
        "conflicting_transaction_ids" := Ids(p.conflictIds),
        "pre_point_missing_transaction_ids" := Ids(p.prePointMissingIds),
        "restored_after_point_transaction_ids" := Ids(p.restoredAfterIds),
        "post_failure_transaction_ids" := Ids(p.postFailureIds),
        "authoritative_checksum" := JStr(p.checksum), "newest_authoritative_transaction" := Iso(p.newest),
        "safe_to_promote" := Flag(p.SafeToPromote())]
  }

  function RecordJson(r: Record): Json {
    JObj(PlanJson(r.plan)
         + map["status" := JStr(r.status), "replay_result" := ReplayJson(r.replay)]
         + (if r.validationTimestamp.Some? then map["validation_timestamp" := Iso(r.validationTimestamp)] else map[])
         + (if r.repairRequired then map["production_repair_required" := Flag(true)] else map[])
         + (if r.repairComplete then map["production_repair" := JObj(map["complete" := Flag(true)])] else map[]))
  }

  function SourcesJson(m: map<string, string>): Json { JObj(map k | k in m :: JStr(m[k])) }

  function EventsJson(log: seq<Event>): Json { JArr(seq(|log|, i requires 0 <= i < |log| => JObj(log[i]))) }

  function TimestampsJson(s: Snapshot): Json {
    JObj(map[
      "incident_declared" := JTime(s.declaredAt), "failure_or_corruption" := JTime(s.failureAt),
      "recovery_started" := Iso(s.recoveryStartedAt), "restore_completed" := Iso(s.restoreCompletedAt),
      "validation_started" := Iso(s.validationStartedAt), "validation_completed" := Iso(s.validationCompletedAt),
      "service_ready" := Iso(s.rtoEndAt), "promotion" := Iso(s.promotionAt),
      "failback_completed" := Iso(s.failbackCompletedAt), "sources" := SourcesJson(Sources(s))])
  }

  function ApprovalJson(s: Snapshot): Json {
    JObj(map[
      "status" := JStr(s.approvalStatus), "approver" := Text(s.approver), "reference" := Text(s.approvalReference)])
  }

  /** The report body before redaction. */
  function RawBody(s: Snapshot, measurements: Json): map<string, Json> {
    map[
      "schema" := JObj(map["id" := JStr("com.portfolio.dr.recovery-report"), "version" := JStr("2.1.0")]),
      "evidence_source" := JStr("generated-by-drctl"), "evidence_scope" := JStr(s.provenance.evidenceScope),
      "run_id" := JStr(s.provenance.runId), "scenario_id" := JStr(s.provenance.scenarioId),
      "incident_id" := JStr(s.provenance.incidentId),
      "scenario" := JStr(ScenarioName(s.scenario)), "state" := JStr(StateName(s.state)),
      "timestamps" := TimestampsJson(s),
      "data_recovery_point" := Iso(s.recoveryPoint),
      "measurements" := measurements,
      "record_counts" := (if s.recordCounts.None? then JObj(map[]) else JObj(map[
        "expected" := JInt(s.recordCounts.value.expected), "recovered" := JInt(s.recordCounts.value.recovered),
        "lost" := JInt(s.recordCounts.value.lost), "unexpected" := JInt(s.recordCounts.value.unexpected)])),
      "restore_configuration" := (if s.restoreConfiguration.None? then JNull else JObj(s.restoreConfiguration.value)),
      "reconciliation" := (if s.reconciliation.None? then JNull else RecordJson(s.reconciliation.value)),
      "runtime_evidence" := JObj(s.provenance.runtimeEvidence),
      "validation" := (if s.validation.None? then JNull else ValidationJson(s.validation.value)),
      "validation_result" := JStr(if s.validation.Some? && s.validation.value.Passed() then "PASS" else "NOT_PASSED"),
      "approval" := ApprovalJson(s),
      "promotion_status" := JStr(if s.promotionAt.Some? then "COMPLETE" else "NOT_COMPLETE"),
      "failback_status" := JStr(if s.failbackCompletedAt.Some? then "COMPLETE" else "NOT_COMPLETE")]
    + map["events" := EventsJson(s.eventLog)]
  }

  /** Redaction of the top-level dictionary. */
  function RedactBody(m: map<string, Json>): map<string, Json> { Redact(JObj(m)).fields }

  type Signer = string -> map<string, string>
  type Verifier = (string, map<string, Json>) -> bool

  function Signature(signer: Option<Signer>, digest: string): map<string, Json> {
    if signer.None? then map["status" := JStr("UNSIGNED")]
    else
      var extra := signer.value(digest);
      map["status" := JStr("SIGNED")] + (map k | k in extra :: JStr(extra[k]))
  }

  function Seal(digest: string, signature: map<string, Json>): map<string, Json> {
    map["canonicalization" := JStr("SORTED_KEYS_COMPACT_JSON"), "hash_algorithm" := JStr("SHA-256"),
        "report_sha256" := JStr(digest), "event_chain_verified" := JBool(true),
        "immutability" := JStr("NOT_PROVIDED_BY_LOCAL_FILE"), "signature" := JObj(signature)]
  }

  function Assemble(h: Hasher, body: map<string, Json>, signer: Option<Signer>): map<string, Json> {
    var digest := h(JObj(body));
    body + map["integrity" := JObj(Seal(digest, Signature(signer, digest)))]
  }

  function BuildReport(h: Hasher, s: Snapshot, signer: Option<Signer>): Result<map<string, Json>, ReportError> {
    if RuntimeFault(s).Some? then Err(RuntimeFault(s).value)
    else if s.provenance.evidenceScope == "AWS_RUNTIME" && signer.None? then Err(SignerRequired)
    else if s.provenance.runId == "" || s.provenance.scenarioId == "" then Err(MissingIdentity)
    else if !ValidChain(h, s.eventLog) then Err(BrokenChain)
    else if MeasurementInputs(s).Err? then Err(MeasurementInputs(s).error)
    else Ok(Assemble(h, RedactBody(RawBody(s, MeasurementInputs(s).value)), signer))
  }

  function AsEvents(j: Json): Option<seq<Event>> {
    match j
    case JNull => Some([])
    case JArr(xs) =>
      if forall x | x in xs :: x.JObj? then Some(seq(|xs|, i requires 0 <= i < |xs| => xs[i].fields)) else None
    case _ => None
  }

  /** `verify_report`; a report whose parts have the wrong JSON shape makes the code raise, and is
      not accepted here. */
  predicate VerifyReport(h: Hasher, report: map<string, Json>, verifier: Option<Verifier>) {
    var body := report - {"integrity"};
    var part := Get(report, "integrity");
    part.JObj? &&
    var integrity := part.fields;
    && Get(integrity, "report_sha256") == JStr(h(JObj(body)))
    && Get(integrity, "event_chain_verified") == JBool(true)
    && AsEvents(Get(body, "events")).Some? && ValidChain(h, AsEvents(Get(body, "events")).value)
    && Get(integrity, "signature").JObj?
    && var signature := Get(integrity, "signature").fields;
       if Get(signature, "status") == JStr("SIGNED") then
         verifier.Some? && verifier.value(h(JObj(body)), signature)
       else Get(signature, "status") == JStr("UNSIGNED")
  }

  // --------------------------------------------------------- round trip

  lemma BodyHasEvents(s: Snapshot, measurements: Json)
    ensures Get(RawBody(s, measurements), "events") == EventsJson(s.eventLog)
  {
    hide ValidationJson, RecordJson, SourcesJson, StateName, ScenarioName, EventsJson;
  }

  lemma BodyLacksIntegrity(s: Snapshot, measurements: Json)
    ensures "integrity" !in RawBody(s, measurements)
  {
    hide ValidationJson, RecordJson, SourcesJson, StateName, ScenarioName, EventsJson;
  }

  lemma LoggedPlain(h: Hasher, log: seq<Event>, source: RecoveryState, m: Move, now: Time)
    requires forall e | e in log :: PlainEvent(e)
    ensures forall e | e in Logged(h, log, source, m, now) :: PlainEvent(e)
  {
    hide ChainedEvent, EventBody, HeadHash, PlainEvent;
    ChainedPlain(h, source, m, now, HeadHash(log), |log| + 1);
  }

  lemma ChainedPlain(h: Hasher, source: RecoveryState, m: Move, now: Time, previous: string, n: nat)
    ensures PlainEvent(ChainedEvent(h, EventBody(source, m.target, now, m.actor, m.reason, m.approved), previous, n))
  {
    hide StateName;
  }

  lemma {:induction false} ReachableEventsPlain(h: Hasher, b: R.Birth, calls: seq<R.Timed>)
    ensures forall e | e in R.Run(h, R.Start(h, b), calls).inc.eventLog :: PlainEvent(e)
  {
    hide PlainEvent, Logged;
    if calls == [] {
      LoggedPlain(h, [], Healthy, Move(IncidentDeclared, false, "operator", "declared"), b.movedAt);
    } else {
      hide Step, R.Start;
      var k := |calls| - 1;
      var w := R.Run(h, R.Start(h, b), calls[..k]);
      ReachableEventsPlain(h, b, calls[..k]);
      R.StepShape(h, w, calls[k].call, calls[k].now);
      LoggedPlain(h, w.inc.eventLog, w.inc.state, R.MoveOf(calls[k].call), calls[k].now);
    }
  }

  lemma EventsSurvive(log: seq<Event>)
    requires forall e | e in log :: PlainEvent(e)
    ensures Redact(EventsJson(log)) == EventsJson(log) && AsEvents(EventsJson(log)) == Some(log)
  {
    hide PlainEvent, Sensitive;
    forall i | 0 <= i < |log| ensures Redact(JObj(log[i])) == JObj(log[i]) { PlainEventClean(log[i]); }
    assert Redact(EventsJson(log)).items == EventsJson(log).items;
    var back := AsEvents(EventsJson(log));
    assert forall x | x in EventsJson(log).items :: x.JObj?;
    assert back.value == log;
  }

  lemma RedactedKey(m: map<string, Json>, key: string)
    ensures key in RedactBody(m) <==> key in m
    ensures key in m && !Sensitive(key) ==> Get(RedactBody(m), key) == Redact(Get(m, key))
  {
    hide Sensitive;
  }

  lemma BodyAfterRedaction(s: Snapshot, measurements: Json)
    requires forall e | e in s.eventLog :: PlainEvent(e)
    ensures var body := RedactBody(RawBody(s, measurements));
            && "integrity" !in body && Clean(JObj(body))
            && AsEvents(Get(body, "events")) == Some(s.eventLog)
  {
    hide RawBody, PlainEvent, Sensitive, RedactBody, EventsJson, AsEvents;
    var raw := RawBody(s, measurements);
    BodyHasEvents(s, measurements);
    BodyLacksIntegrity(s, measurements);
    EventsInBody(s, measurements);
    EventKeyPlain("events");
    RedactedKey(raw, "events");
    RedactedKey(raw, "integrity");
    EventsSurvive(s.eventLog);
    BodyClean(raw);
  }

  lemma EventsInBody(s: Snapshot, measurements: Json)
    ensures "events" in RawBody(s, measurements)
  {
    hide ValidationJson, RecordJson, SourcesJson, StateName, ScenarioName, EventsJson;
  }

  lemma BodyClean(raw: map<string, Json>)
    ensures Clean(JObj(RedactBody(raw)))
  {
    hide Sensitive;
    RedactIsClean(JObj(raw));
  }

  lemma SealFields(digest: string, signature: map<string, Json>)
    ensures Get(Seal(digest, signature), "report_sha256") == JStr(digest)
    ensures Get(Seal(digest, signature), "event_chain_verified") == JBool(true)
    ensures Get(Seal(digest, signature), "signature") == JObj(signature)
  {}

  lemma AssembleSplits(h: Hasher, body: map<string, Json>, signer: Option<Signer>)
    requires "integrity" !in body
    ensures var r, digest := Assemble(h, body, signer), h(JObj(body));
            r - {"integrity"} == body && Get(r, "integrity") == JObj(Seal(digest, Signature(signer, digest)))
  {
    hide Seal, Signature;
    assert Assemble(h, body, signer) - {"integrity"} == body;
  }

  /** How a signature section is judged. */
  predicate SignatureAccepted(signature: map<string, Json>, digest: string, verifier: Option<Verifier>) {
    if Get(signature, "status") == JStr("SIGNED") then verifier.Some? && verifier.value(digest, signature)
    else Get(signature, "status") == JStr("UNSIGNED")
  }

  lemma BuiltReportJudged(h: Hasher, s: Snapshot, signer: Option<Signer>, verifier: Option<Verifier>)
    requires (forall e | e in s.eventLog :: PlainEvent(e)) && BuildReport(h, s, signer).Ok?
    ensures var report := BuildReport(h, s, signer).value;
            var digest := h(JObj(report - {"integrity"}));
            && Clean(JObj(report - {"integrity"}))
            && (VerifyReport(h, report, verifier) <==> SignatureAccepted(Signature(signer, digest), digest, verifier))
  {
    hide RawBody, RedactBody, PlainEvent, AsEvents, Seal, Signature, Assemble, Clean, Sensitive, MeasurementInputs;
    var body := RedactBody(RawBody(s, MeasurementInputs(s).value));
    BodyAfterRedaction(s, MeasurementInputs(s).value);
    AssembleSplits(h, body, signer);
    SealFields(h(JObj(body)), Signature(signer, h(JObj(body))));
  }

  /** A signer normally leaves `status` to the report builder; one that returns its own overrides it. */
  lemma SignatureJudged(signer: Signer, digest: string, verifier: Option<Verifier>)
    ensures var extra, signature := signer(digest), Signature(Some(signer), digest);
            SignatureAccepted(signature, digest, verifier) <==>
              if "status" !in extra || extra["status"] == "SIGNED" then
                verifier.Some? && verifier.value(digest, signature)
              else extra["status"] == "UNSIGNED"
  {
    var extra, signature := signer(digest), Signature(Some(signer), digest);
    assert Get(signature, "status") == JStr(if "status" in extra then extra["status"] else "SIGNED");
  }

  /** Report round trip. For every reachable incident, whatever calls raised on the way: a report that
      builds carries no unredacted sensitive value; unsigned it is accepted by any verifier; signed, it
      is accepted exactly by a verifier that accepts its signature, unless the signer overrides the
      status, when anybody accepts "UNSIGNED" and nobody any other text. */
  lemma ReportRoundTrip(h: Hasher, b: R.Birth, calls: seq<R.Timed>, signer: Option<Signer>, verifier: Option<Verifier>)
    ensures var built := BuildReport(h, R.Run(h, R.Start(h, b), calls).inc, signer);
            built.Ok? ==>
              var digest := h(JObj(built.value - {"integrity"}));
              && Clean(JObj(built.value - {"integrity"}))
              && (VerifyReport(h, built.value, verifier) <==>
                    || signer.None?
                    || (var extra := signer.value(digest);
                        if "status" !in extra || extra["status"] == "SIGNED" then
                          verifier.Some? && verifier.value(digest, Signature(signer, digest))
                        else extra["status"] == "UNSIGNED"))
  {
    hide R.Run, R.Start, BuildReport, VerifyReport, Clean, PlainEvent, SignatureAccepted;
    var s := R.Run(h, R.Start(h, b), calls).inc;
    ReachableEventsPlain(h, b, calls);
    if BuildReport(h, s, signer).Ok? {
      BuiltReportJudged(h, s, signer, verifier);
      var digest := h(JObj(BuildReport(h, s, signer).value - {"integrity"}));
      if signer.Some? { SignatureJudged(signer.value, digest, verifier); } else { UnsignedAccepted(digest, verifier); }
    }
  }

  lemma UnsignedAccepted(digest: string, verifier: Option<Verifier>)
    ensures SignatureAccepted(Signature(None, digest), digest, verifier)
  {}

  /** Whether the incident carries a lower bound on the outage start that counts. */
  ghost predicate HasBound(b: R.Birth) {
    && b.provenance.evidenceScope == "AWS_RUNTIME" && "measurement_bounds" in b.provenance.runtimeEvidence
    && b.provenance.runtimeEvidence["measurement_bounds"].JObj?
    && Get(b.provenance.runtimeEvidence["measurement_bounds"].fields, "rto_start").JObj?
  }

  /** The bounds, where present, are an object; a bound that counts names the trusted source and exactly
      the failure time, and the incident was not declared before the failure. */
  ghost predicate BoundUsable(b: R.Birth) {
    var evidence := b.provenance.runtimeEvidence;
    && ("measurement_bounds" in evidence ==> evidence["measurement_bounds"].JObj?)
    && (HasBound(b) ==>
          var bound := Get(evidence["measurement_bounds"].fields, "rto_start").fields;
          && Get(bound, "source") == JStr(BOUND_SOURCE) && Get(bound, "timestamp") == JTime(b.failureAt)
          && b.failureAt <= b.declaredAt)
  }

  ghost function OutageStart(b: R.Birth): Time { if HasBound(b) then b.failureAt else b.declaredAt }

  lemma StartExactlyWhen(b: R.Birth, s: Snapshot)
    requires s.provenance == b.provenance && s.declaredAt == b.declaredAt && s.failureAt == b.failureAt
    ensures RtoStartOf(s).Ok? <==> BoundUsable(b)
    ensures RtoStartOf(s).Ok? ==> RtoStartOf(s).value.at == OutageStart(b)
  {}

  ghost predicate From(sources: map<string, string>, name: string, authorities: set<string>) {
    name in sources && sources[name] in authorities
  }

  /** What claiming the cloud as its scope demands of an incident: a clock skew observed within its limit, and
      every timestamp from an authority that is trusted for it. */
  ghost predicate AwsEvidence(p: Provenance) {
    && p.clockSkewMs.Some? && p.clockSkewMs.value <= p.clockSkewLimitMs
    && From(p.timestampSources, "incident_declaration", {"CONTROLLER_UTC_SYNCED", "AWS_EVENT_TIMESTAMP"})
    && From(p.timestampSources, "failure_or_corruption",
            {"FAULT_INJECTOR_UTC_SYNCED", "AWS_CLOUDTRAIL_EVENT", "GITHUB_ACTIONS_LOG_UTC_UPPER_BOUND"})
    && From(p.timestampSources, "validation", {"CONTROLLER_UTC_SYNCED"})
    && From(p.timestampSources, "recovered_transaction",
            {"DYNAMODB_TRANSACTION_UTC_VALIDATED", "DYNAMODB_PITR_READBACK_UTC_VALIDATED"})
  }

  lemma RuntimeFaultExactly(s: Snapshot)
    ensures RuntimeFault(s).None? <==> (s.provenance.evidenceScope == "AWS_RUNTIME" ==> AwsEvidence(s.provenance))
  {}

  /** What a report demands beyond the order of the clock: identifiers, the evidence its scope needs, a
      usable bound, and a last validation whose newest transaction is not newer than the failure. */
  ghost predicate Ready(b: R.Birth, calls: seq<R.Timed>, signer: Option<Signer>) {
    && b.provenance.runId != "" && b.provenance.scenarioId != "" && BoundUsable(b)
    && (b.provenance.evidenceScope == "AWS_RUNTIME" ==> AwsEvidence(b.provenance) && signer.Some?)
    && var last := LastValidation(calls);
       last.Some? && last.value.comparison.newestRecovered.Some? ==>
         last.value.comparison.newestRecovered.value <= b.failureAt
  }

  /** When a report of a reachable incident builds. Its chain always verifies, so what is left is that it
      is ready and that service was not restored before the outage started; and under a clock that never
      goes back that last condition always holds. */
  lemma ReportBuildsExactlyWhen(h: Hasher, b: R.Birth, calls: seq<R.Timed>, signer: Option<Signer>)
    ensures var s := R.Run(h, R.Start(h, b), calls).inc;
            && (BuildReport(h, s, signer).Ok? <==>
                  Ready(b, calls, signer) && (s.rtoEndAt.Some? ==> OutageStart(b) <= s.rtoEndAt.value))
            && (b.declaredAt <= b.movedAt && R.NonDecreasing(b.movedAt, calls) ==>
                  (BuildReport(h, s, signer).Ok? <==> Ready(b, calls, signer)))
  {
    hide R.Run, R.Start, Assemble, RawBody, RedactBody, RuntimeFault, AwsEvidence, BoundUsable,
         LastValidation, BringsPass, ValidChain, MeasurementInputs, OutageStart, R.TimeOrdered, R.NonDecreasing;
    var s := R.Run(h, R.Start(h, b), calls).inc;
    R.ReachableLogVerifies(h, b, calls);
    R.IdentityKept(h, b, calls);
    StoredValidationExactlyWhen(h, b, calls);
    StartExactlyWhen(b, s);
    MeasuredExactlyWhen(b, s);
    RuntimeFaultExactly(s);
    if b.declaredAt <= b.movedAt && R.NonDecreasing(b.movedAt, calls) && BoundUsable(b) {
      R.RunTimeOrdered(h, b, calls);
      EndAfterDeclaration(s, R.LastReading(b.movedAt, calls));
      StartBeforeDeclaration(b);
    }
  }

  lemma MeasuredExactlyWhen(b: R.Birth, s: Snapshot)
    requires s.failureAt == b.failureAt
    requires RtoStartOf(s).Ok? <==> BoundUsable(b)
    requires RtoStartOf(s).Ok? ==> RtoStartOf(s).value.at == OutageStart(b)
    ensures MeasurementInputs(s).Ok? <==>
              && BoundUsable(b) && (s.rtoEndAt.Some? ==> OutageStart(b) <= s.rtoEndAt.value)
              && (NewestRecovered(s).Some? ==> NewestRecovered(s).value <= b.failureAt)
  {
    hide RtoStartOf, BoundUsable, OutageStart, ClockJson, RtoJson, RpoJson;
  }

  lemma StartBeforeDeclaration(b: R.Birth)
    requires BoundUsable(b)
    ensures OutageStart(b) <= b.declaredAt
  {}

  lemma EndAfterDeclaration(s: Snapshot, last: Time)
    requires R.TimeOrdered(s, last)
    ensures s.rtoEndAt.Some? ==> s.declaredAt <= s.rtoEndAt.value
  {}

  /** The arguments that a `declare` would have had. */
  ghost function BirthOf(s: Snapshot): R.Birth {
    R.Birth(s.provenance, s.scenario, s.failureAt, s.declaredAt, s.declaredAt, map[])
  }

  /** When a report of any incident builds, reachable or not: never over a broken event log. */
  lemma AnyReportBuildsExactlyWhen(h: Hasher, s: Snapshot, signer: Option<Signer>)
    ensures BuildReport(h, s, signer).Ok? <==>
              && s.provenance.runId != "" && s.provenance.scenarioId != ""
              && (s.provenance.evidenceScope == "AWS_RUNTIME" ==> AwsEvidence(s.provenance) && signer.Some?)
              && (forall i | 0 <= i < |s.eventLog| :: InPlace(h, s.eventLog, i))
              && BoundUsable(BirthOf(s)) && (s.rtoEndAt.Some? ==> OutageStart(BirthOf(s)) <= s.rtoEndAt.value)
              && (s.validation.Some? && s.validation.value.details.newestRecovered.Some? ==>
                    s.validation.value.details.newestRecovered.value <= s.failureAt)
  {
    hide ValidChain, InPlace, AwsEvidence, RuntimeFault, MeasurementInputs, BoundUsable, OutageStart, Assemble, RawBody,
         RedactBody, RtoStartOf;
    ValidChainExactly(h, s.eventLog);
    StartExactlyWhen(BirthOf(s), s);
    MeasuredExactlyWhen(BirthOf(s), s);
    RuntimeFaultExactly(s);
  }

  /** Every built report carries the digest of the rest of it, a verified chain and a signature section: the
      bare status without a signer, otherwise "SIGNED" and what the signer returned for that digest, which
      wins where it names a status itself. */
  lemma ReportSealed(h: Hasher, s: Snapshot, signer: Option<Signer>)
    ensures var built := BuildReport(h, s, signer);
            built.Ok? ==>
              && Get(built.value, "integrity").JObj?
              && var seal := Get(built.value, "integrity").fields;
                 var digest := h(JObj(Body(built.value)));
              && Get(seal, "report_sha256") == JStr(digest) && Get(seal, "event_chain_verified") == JBool(true)
              && Get(seal, "signature").JObj?
              && var signature := Get(seal, "signature").fields;
                 if signer.None? then signature == map["status" := JStr("UNSIGNED")]
                 else
                   && signature.Keys == signer.value(digest).Keys + {"status"}
                   && (forall k | k in signer.value(digest) :: signature[k] == JStr(signer.value(digest)[k]))
                   && ("status" !in signer.value(digest) ==> signature["status"] == JStr("SIGNED"))
  {
    if BuildReport(h, s, signer).Ok? {
      var raw := RawBody(s, MeasurementInputs(s).value);
      BodyLacksIntegrity(s, MeasurementInputs(s).value);
      RedactedKey(raw, "integrity");
      hide RawBody, RedactBody, MeasurementInputs, Seal, Signature, RuntimeFault, ValidChain, Assemble;
      AssembleSplits(h, RedactBody(raw), signer);
      SealFields(h(JObj(RedactBody(raw))), Signature(signer, h(JObj(RedactBody(raw)))));
      SignatureTells(signer, h(JObj(RedactBody(raw))));
    }
  }

  lemma SignatureTells(signer: Option<Signer>, digest: string)
    ensures var signature := Signature(signer, digest);
            if signer.None? then signature == map["status" := JStr("UNSIGNED")]
            else
              && signature.Keys == signer.value(digest).Keys + {"status"}
              && (forall k | k in signer.value(digest) :: signature[k] == JStr(signer.value(digest)[k]))
              && ("status" !in signer.value(digest) ==> signature["status"] == JStr("SIGNED"))
  {}

  // ------------------------------------------------------ any report

  /** The part of a report that its digest covers. */
  function Body(report: map<string, Json>): map<string, Json> { report - {"integrity"} }

  /** A report is accepted exactly when its integrity section records the digest of the rest and a verified
      chain, every listed event stands in its place, and the signature section is "UNSIGNED", or "SIGNED"
      and accepted by the verifier given. A forged log is refused however the report was sealed. */
  lemma AcceptedExactlyWhen(h: Hasher, report: map<string, Json>, verifier: Option<Verifier>)
    ensures VerifyReport(h, report, verifier) <==>
              && var body := Body(report);
              && Get(report, "integrity").JObj?
              && var seal := Get(report, "integrity").fields;
              && Get(seal, "report_sha256") == JStr(h(JObj(body))) && Get(seal, "event_chain_verified") == JBool(true)
              && ListsEvents(body)
              && (forall i | 0 <= i < |EventsOf(body)| :: InPlace(h, EventsOf(body), i))
              && Get(seal, "signature").JObj?
              && var signature := Get(seal, "signature").fields;
                 || Get(signature, "status") == JStr("UNSIGNED")
                 || (Get(signature, "status") == JStr("SIGNED") && verifier.Some?
                     && verifier.value(h(JObj(body)), signature))
  {
    hide ValidChain, InPlace;
    if ListsEvents(Body(report)) { ValidChainExactly(h, EventsOf(Body(report))); }
  }

  /** The body lists JSON objects as its events, or none. */
  predicate ListsEvents(body: map<string, Json>) {
    var j := Get(body, "events");
    j == JNull || (j.JArr? && forall i | 0 <= i < |j.items| :: j.items[i].JObj?)
  }

  function EventsOf(body: map<string, Json>): seq<Event>
    requires ListsEvents(body)
  {
    var j := Get(body, "events");
    if j == JNull then [] else seq(|j.items|, i requires 0 <= i < |j.items| => j.items[i].fields)
  }

  /** Tamper evidence for accepted reports, whatever their digests and signatures: if their last events carry
      one hash, they list the same events, or the hash collides on two of their payloads. */
  lemma AcceptedLogsAgree(h: Hasher, r: map<string, Json>, r': map<string, Json>, v: Option<Verifier>,
                          v': Option<Verifier>)
    requires VerifyReport(h, r, v) && VerifyReport(h, r', v')
    ensures ListsEvents(Body(r)) && ListsEvents(Body(r'))
    ensures var es, fs := EventsOf(Body(r)), EventsOf(Body(r'));
            es != [] && fs != [] && Get(es[|es| - 1], "event_hash") == Get(fs[|fs| - 1], "event_hash") ==>
              es == fs || PayloadCollision(h, es, fs)
  {
    hide InPlace, PayloadCollision;
    AcceptedExactlyWhen(h, r, v);
    AcceptedExactlyWhen(h, r', v');
    hide VerifyReport;
    var es, fs := EventsOf(Body(r)), EventsOf(Body(r'));
    ValidChainExactly(h, es);
    ValidChainExactly(h, fs);
    if es != [] && fs != [] && Get(es[|es| - 1], "event_hash") == Get(fs[|fs| - 1], "event_hash") {
      hide ValidChain;
      HeadHashDeterminesLog(h, es, fs);
    }
  }

  /** Two accepted reports with one recorded digest have the same body, event log included, or the
      hash collides on their bodies. */
  lemma DigestDeterminesBody(h: Hasher, r: map<string, Json>, r': map<string, Json>,
                             v: Option<Verifier>, v': Option<Verifier>)
    requires VerifyReport(h, r, v) && VerifyReport(h, r', v')
    requires Get(Get(r, "integrity").fields, "report_sha256") == Get(Get(r', "integrity").fields, "report_sha256")
    ensures r - {"integrity"} == r' - {"integrity"} || Collision(h, JObj(r - {"integrity"}), JObj(r' - {"integrity"}))
  {
    hide ValidChain, AsEvents;
  }

  /** Two reports built for reachable incidents, with one recorded digest, tell of one history: the same
      event log, or the hash collides on the two bodies. */
  lemma ReportDigestPinsHistory(h: Hasher, b: R.Birth, calls: seq<R.Timed>, signer: Option<Signer>,
                                b': R.Birth, calls': seq<R.Timed>, signer': Option<Signer>)
    ensures var s, s' := R.Run(h, R.Start(h, b), calls).inc, R.Run(h, R.Start(h, b'), calls').inc;
            var built, built' := BuildReport(h, s, signer), BuildReport(h, s', signer');
            built.Ok? && built'.Ok? && Get(built.value, "integrity").JObj? && Get(built'.value, "integrity").JObj?
            && Get(Get(built.value, "integrity").fields, "report_sha256")
               == Get(Get(built'.value, "integrity").fields, "report_sha256") ==>
              || s.eventLog == s'.eventLog
              || Collision(h, JObj(built.value - {"integrity"}), JObj(built'.value - {"integrity"}))
  {
    hide R.Run, R.Start, BuildReport, PlainEvent, AsEvents;
    var s, s' := R.Run(h, R.Start(h, b), calls).inc, R.Run(h, R.Start(h, b'), calls').inc;
    ReachableEventsPlain(h, b, calls);
    ReachableEventsPlain(h, b', calls');
    if BuildReport(h, s, signer).Ok? && BuildReport(h, s', signer').Ok? {
      BuiltTells(h, s, signer);
      BuiltTells(h, s', signer');
    }
  }

  /** What a built report records of its own body. */
  lemma BuiltTells(h: Hasher, s: Snapshot, signer: Option<Signer>)
    requires (forall e | e in s.eventLog :: PlainEvent(e)) && BuildReport(h, s, signer).Ok?
    ensures var report := BuildReport(h, s, signer).value;
            && Get(report, "integrity").JObj?
            && Get(Get(report, "integrity").fields, "report_sha256") == JStr(h(JObj(report - {"integrity"})))
            && AsEvents(Get(report - {"integrity"}, "events")) == Some(s.eventLog)
  {
    hide RawBody, RedactBody, PlainEvent, AsEvents, Seal, Signature, Assemble, Clean, Sensitive, Ordinary,
         MeasurementInputs;
    var body := RedactBody(RawBody(s, MeasurementInputs(s).value));
    BodyAfterRedaction(s, MeasurementInputs(s).value);
    AssembleSplits(h, body, signer);
    SealFields(h(JObj(body)), Signature(signer, h(JObj(body))));
  }
}
