# Recovery control plane: a verified model

`dr_platform` recovers a transaction table after corruption: it plans a reconciliation between an
isolated point-in-time restore and live data, replays a bounded batch of missing writes with
conditional puts, repairs two known-bad production keys, and moves an incident through an approved
state machine whose event log is hash-chained and reported. This project models that control plane
and proves what it keeps over every run, including runs in which calls raise half-way.

| file | models |
|---|---|
| `Ordering.dfy`, `Domain.dfy`, `Datasets.dfy` | string order and sorting, shared types, dataset checksums and comparison |
| `Planner.dfy` | the reconciliation planner |
| `Replay.dfy`, `ReplayRuns.dfy` | conditional replay against an adversarial target, and theorems over sequences of runs |
| `Repair.dfy`, `Drill.dfy` | fault classification and production repair beside other writers; the drill end to end |
| `Integrity.dfy` | the hash-chained event log |
| `StateMachine.dfy`, `Orchestrator.dfy` | the incident, its state machine and the orchestrator's operations |
| `Acceptance.dfy` | when each operation is accepted and what it writes; who let an incident through, over whole runs |
| `Runs.dfy`, `Language.dfy`, `Gates.dfy` | theorems over sequences of orchestrator calls |
| `LastWriter.dfy` | fields that raising calls overwrite, over whole runs |
| `Recovery.dfy` | which recorded plans can be promoted, and what a promotion says of the target |
| `Witnesses.dfy` | concrete inputs for the promises that do not hold, and a drill that goes through |
| `Redaction.dfy`, `Report.dfy`, `Contents.dfy` | redaction; report building and verification; what a built report tells |
| `Convergence.dfy` | the polling loop |
| `Cleanup.dfy`, `Cli.dfy` | teardown order; the command line, its store and its local drill |

Representation:

- Instants and durations are whole microseconds in UTC; the text form of an instant is taken to
  determine it. Clock readings, generated identifiers and environment faults are arguments.
- A hash, over JSON values or over id-sorted transaction lists, is an arbitrary function passed as a
  parameter. No injectivity is assumed: a claim that needs it says "or here are two distinct values
  with one hash" (`Prelude.Collision`).
- Tables are maps from id to transaction; a list read from a table has unique ids, as its hash key
  guarantees.
- Around each visit of the replay loop a `Turn` says what the environment does: foreign conditional
  inserts at any point, a read that raises, a put that raises before or after its effect. A missing
  turn is calm.
- Around the two writes of the production repair `Others` are arbitrary edits of the table, deletions
  included.
- Every orchestrator operation is a method on a mutable incident proved equal to a function of its
  old state; `Orchestrator.Step` joins these functions, and runs are sequences of steps.

Where code and intention part:

- `reconcile` does not compare its plan with the recorded one. A promotion leaves the target at the
  recorded plan's authoritative table whenever reconcile calls pass that plan
  (`Gates.PromotionImpliesAuthoritativeTarget`). After an undisturbed reconcile with any plan it does so
  exactly when the target held no other row and the ids and candidates passed cover what was missing
  (`Recovery.PromotedTargetExactlyWhen`). `Witnesses.PromotedOverBareRestore` is a run where a row is
  missing, `Witnesses.PromotedOverStrayRow` one where a row is too many. Commands always pass the recorded
  plan (`Cli.CommandsPassRecordedPlan`).
- The stored validation of a promoted incident need not have passed: a later `record_validation` overwrites
  it before raising (`Witnesses.PromotedWithFailedValidation`). It passed exactly when the last such call
  brought passing gates (`LastWriter.StoredValidationExactlyWhen`); what always holds is stated about the
  instant of entry (`Gates.ApprovalHistory`), and `Recovery.RevalidationFatalExactlyWithPlan` says which
  overwrites close the way out of approval.
- A refused restart still moves the recovery point, so a promoted incident's point is its plan's exactly
  when the last restart request past the guard named it (`LastWriter.StoredPointIsLast`, with the same
  witness).
- The owner recorded on a promoted incident need not be who approved it: a promotion that only the state
  refuses has already replaced the names (`Acceptance.StoredOwnerIsLast`,
  `Witnesses.RenamedByRefusedPromotion`). Who let the incident through is in the log, and
  `Acceptance.PromotedByOwner` says that somebody did.
- A safe plan of more than 25 replay ids can pass every gate but is never promoted while reconcile calls
  pass it; every smaller one can be (`Recovery.PromotableExactlyWhen`).
- The retry checkpoint admits one concurrent row more than one replay batch can take on resumption
  (`Drill.ResumeFitsBatch`, `Witnesses.FullCheckpointNeverCompletes`).
- A resume that stopped after storing one planned row cannot be run again (`Drill.ResumeAgainExactlyWhile`,
  `Witnesses.ResumedTwiceRefused`).

## Model

| member | source | states |
|---|---|---|
| `Datasets.CanonicalForm` | src/dr_platform/data_validation.py:33-39 | for unique ids, two lists have the same id-sorted canonical list exactly when they are the same table |
| `Datasets.ChecksumDecides` | src/dr_platform/data_validation.py:33-39 | equal tables have equal checksums, and equal checksums mean equal tables or exhibit two distinct canonical lists with one digest |
| `Datasets.CanonicalSorted` | src/dr_platform/data_validation.py:33-39 | the list a digest is taken over holds the same rows and, for unique ids, goes upwards by id as code points compare |
| `Datasets.ComparisonExactly` | src/dr_platform/data_validation.py:42-58 | for any two lists: both counts, the ids each side lacks in upward order, the digest of each side's id-sorted list, and the newest recovered time |
| `Datasets.ExactMatchMeansEqual` | src/dr_platform/data_validation.py:14-58 | `exact_match` holds for equal datasets, with equal counts and newest time; it holds otherwise only with a digest collision |
| `Datasets.Newest` | src/dr_platform/data_validation.py:49 | the largest timestamp present, absent exactly for an empty list |
| `Datasets.ChooseRecoveryPoint` | src/dr_platform/data_validation.py:61-74 | refuses exactly when the margin is negative or no point keeps it; otherwise the latest point that keeps it |
| `Planner.PlanReconciliation` | src/dr_platform/reconciliation.py:184-235 | the loop refuses exactly a cutoff before the point and otherwise computes the specified plan |
| `Planner.PlannerClassification` | src/dr_platform/reconciliation.py:197-219 | membership of an id in each list of the plan, stated on the restored and live tables alone; the conditions exclude one another |
| `Ordering.StrLtExactly` | src/dr_platform/reconciliation.py:225 | the order of ids: at the first place where they differ the smaller code point comes first, and a proper prefix comes before what extends it |
| `Planner.ReplayIdsAscending` | src/dr_platform/reconciliation.py:225 | the replay ids go upwards in that order, stated on their letters, so no id is asked for twice |
| `Planner.PlanListsOrdered` | src/dr_platform/reconciliation.py:221-234 | so do the plan's five other lists; it names its recovery point and the policy |
| `Planner.SafePlanCharacterised` | src/dr_platform/reconciliation.py:26-33 | safe exactly when restored times are at most the point and uncorrupted live rows are at most the cutoff, not missing before the point, and equal to any restored copy; then the replay set is exactly the uncorrupted live rows after the point; it never meets the restore |
| `Planner.AuthoritativeScan` | src/dr_platform/reconciliation.py:220 | the checksummed list is a duplicate-free scan of restore plus replay rows |
| `Planner.PlanChecksum` | src/dr_platform/reconciliation.py:231-234 | every scan of the authoritative table, in any order, has the checksum and newest time the plan carries |
| `Planner.PlanIgnoresScanOrder` | src/dr_platform/reconciliation.py:195-235 | the whole plan is unchanged by any reordering of both scans |
| `Planner.ReplanFixpoint` | src/dr_platform/reconciliation.py:184-235 | planning again over the reconciled target at the old cutoff is safe, replays nothing and has the same checksum |
| `Replay.ConditionalTarget.PutIfAbsent` | src/dr_platform/cli.py:97-101 | an absent key is stored and reported, a present key is never changed, under foreign inserts and faults before or after the effect |
| `Replay.ConditionalTarget.Get` | src/dr_platform/cli.py:94-95 | reads the current entry, under foreign inserts and faults |
| `Replay.ConditionalTarget.constructor` | src/dr_platform/cli.py:91-92 | the target starts as the table of the given rows |
| `Replay.VisitTarget` | src/dr_platform/reconciliation.py:139-165 | one pass of the loop body leaves the target and verdict of the specified visit |
| `Replay.ExecuteReplay` | src/dr_platform/reconciliation.py:106-181 | refusals, the target after the loop and the four sorted lists are those of the specified run, also when a read aborts it half-way |
| `ReplayRuns.RefusedExactlyWhen` | src/dr_platform/reconciliation.py:117-132 | refused, with the target untouched, exactly for a batch size outside 1 to 25, a clock before the validation, or an approval without both names |
| `ReplayRuns.TargetFailedExactlyWhen` | src/dr_platform/reconciliation.py:139-143 | a run that is not refused raises exactly when the read of a visited id with a candidate raises |
| `ReplayRuns.FaultReportedFailed` | src/dr_platform/reconciliation.py:153-165 | a put that raises, before or after its effect, and a confirming read that raises put the id among the failed ones; the row is stored exactly if another writer or the effect did |
| `ReplayRuns.OnlyOthersWrite` | src/dr_platform/reconciliation.py:148-152 | a run without approval, or a dry one, leaves a target within whatever bounds it and the other writers |
| `ReplayRuns.ResultTells` | src/dr_platform/reconciliation.py:168-181 | the four lists go upwards and the result carries the request's checksum, ids, instants, mode and names |
| `ReplayRuns.ReplayAccounting` | src/dr_platform/reconciliation.py:87-95 | a non-dry run splits the requested ids, with multiplicity, among its four lists; the set comparison in `complete` is implied; a plan beyond the batch never completes |
| `ReplayRuns.DryRunForecast` | src/dr_platform/reconciliation.py:150-151 | a dry run leaves the target alone, has the idempotent, conflict and failed lists of the undisturbed approved run, and the ids it leaves out are exactly those that run applies |
| `ReplayRuns.UndisturbedRunExactly` | src/dr_platform/reconciliation.py:139-176 | an undisturbed approved run lists each requested id exactly where its candidate, the prior target and the batch limit call for |
| `ReplayRuns.EntriesNeverChange` | src/dr_platform/reconciliation.py:139-167 | no sequence of runs, in any environment of conditional writers and faults, changes an entry of the target |
| `ReplayRuns.ReportsAreForever` | src/dr_platform/reconciliation.py:144-163 | an id reported applied or idempotent holds the candidate's content after all later runs, an id reported conflicting holds something else |
| `ReplayRuns.ConflictIsFinal` | src/dr_platform/reconciliation.py:87-95 | after one reported conflict no later run of the same plan and candidates is complete |
| `ReplayRuns.ReplayRefinesPlan` | src/dr_platform/reconciliation.py:106-181 | from the restore, after any sequence of failing, partial, dry, aborted, concurrent and retried runs that ends complete, the target is exactly restore plus replay rows and every scan has the plan's checksum |
| `ReplayRuns.CompletesExactlyWhen` | src/dr_platform/reconciliation.py:139-181 | a failure-free approved run completes exactly when the plan fits the batch and each id has a candidate the target does not contradict |
| `ReplayRuns.CalmRunReachesExactlyWhen` | src/dr_platform/reconciliation.py:138-181 | an undisturbed run of any plan and candidates, from any target, that completes leaves the authoritative table exactly when the target held nothing else, its ids cover the rows still missing, and missing ids bring planned content |
| `ReplayRuns.RetriesConverge` | scripts/aws-runtime-scenario-b.py:983-1008 | after any history the next failure-free full attempt completes, and every later one completes applying nothing |
| `Repair.FaultCheckExact` | scripts/aws-runtime-scenario-b.py:524-537 | the one-missing, one-modified check accepts exactly the live tables that differ from the restore by one deletion and one marked overwrite |
| `Repair.ProductionTable.Write` | scripts/aws-runtime-scenario-b.py:766-778 | one conditional write with its confirming read, with other writers before the read and faults before or after the effect |
| `Repair.ProductionTable.RepairProduction` | scripts/aws-runtime-scenario-b.py:758-799 | the two ordered conditional writes, with other writers at every moment, leave the specified table and report or error |
| `Repair.RepairUnderInterference` | scripts/aws-runtime-scenario-b.py:764-792 | whatever others write: every change is one of their edits in its place or a permitted conditional write, so the corrupted key is overwritten only while marked; other keys end as others alone would have left them; when the repair returns, each key has held its original at some instant |
| `Repair.RepairIgnoresOthers` | scripts/aws-runtime-scenario-b.py:764-792 | if others spare the two keys, result and content under both keys are those of a quiet table |
| `Repair.ReturnedRepairRestores` | scripts/aws-runtime-scenario-b.py:758-799 | while others spare the two keys, a repair that returns has put both originals over what others alone would have left; its complete report accounts for both keys in upward lists, each applied exactly when it was absent or carried the marker |
| `Repair.RetriedRepairRestores` | scripts/aws-runtime-scenario-b.py:758-799 | however many attempts failed half-way, the attempt that returns leaves both originals over what others alone would have left |
| `Repair.RepairReturnsExactlyWhen` | scripts/aws-runtime-scenario-b.py:766-792 | after any failed attempts a fault-free repair returns exactly when the deleted key was absent or right and the corrupted key marked or right |
| `Repair.QuietErrorExactly` | scripts/aws-runtime-scenario-b.py:764-792 | on a quiet table which of the three errors is raised: a raised request, or the first key that holds neither what the write expected nor the original |
| `Drill.RepairedEqualsTargetIff` | scripts/aws-runtime-scenario-b.py:926-936 | repaired live rows equal the authoritative table exactly when every other restored id was still live |
| `Drill.EndToEndAgreement` | scripts/aws-runtime-scenario-b.py:925-1031 | after completed replay runs and a returned repair, live equals target exactly when every other restored id was still live |
| `Drill.DrillSucceeds` | scripts/aws-runtime-scenario-b.py:802-813 | after the checkpoint's check, while others spare the two keys and leave no net change, a fault-free repair returns and the count-and-checksum test succeeds on every pair of scans |
| `Witnesses.BurstDrillSucceeds` | scripts/aws-runtime-scenario-b.py:802-813 | concrete drills of one to 25 rows, on a quiet table and after any failed repairs, go through and pass the final test |
| `Drill.FinalTestMeansEqual` | scripts/aws-runtime-scenario-b.py:809 | the count-and-checksum test passes on different tables only with a digest collision, and only on equal counts |
| `Drill.ResumeFitsBatch` | scripts/aws-runtime-scenario-b.py:520-523 | the checkpoint admits 25 concurrent rows, resuming adds one more, so the full attempt completes exactly when it counted at most 24 |
| `Witnesses.FullCheckpointNeverCompletes` | scripts/aws-runtime-scenario-b.py:520-537 | a concrete checkpoint of 25 rows passes its checks; resumed, its plan is safe, asks for 26 ids, and its failure-free attempt is incomplete |
| `Drill.ResumeAgainExactlyWhile` | scripts/aws-runtime-scenario-b.py:916-919 | after any replay runs of an earlier resume, the comparison that resuming starts with passes exactly while no planned row has been stored, and once it fails it fails for good |
| `Witnesses.ResumedTwiceRefused` | scripts/aws-runtime-scenario-b.py:916-919 | concrete: after the one row of a drill was replayed, the opening comparison of another resume fails on every pair of scans, whatever the digest |
| `Integrity.VerifyEventChain` | src/dr_platform/integrity.py:25-36 | the loop returns true exactly for logs in which each event links to the hash before it, its sequence compared as Python compares numbers |
| `Integrity.ValidChainExactly` | src/dr_platform/integrity.py:25-36 | a log verifies exactly when each event carries its number, the hash of the event before it (64 zeros for the first) and the hash of its own other fields |
| `Integrity.ChainedEventTells` | src/dr_platform/integrity.py:20-22 | what chaining adds to an event: number, previous hash, and the hash of all the rest; every other field stays |
| `Integrity.AppendValid` | src/dr_platform/integrity.py:20-22 | appending a chained event keeps a valid log valid exactly when the event brought no hash field of its own, or the hash collides on it with and without that field |
| `Integrity.HeadHashDeterminesLog` | src/dr_platform/integrity.py:20-36 | two non-empty valid logs with one head hash are the same list, or two of their payloads collide |
| `StateMachine.RecoveryStateMachine.Transition` | src/dr_platform/state_machine.py:39-92 | denied moves change nothing; an allowed move sets state, log and timestamps as specified |
| `StateMachine.Incident.constructor` | src/dr_platform/types.py:107-138 | a new incident has the declared defaults |
| `Orchestrator.RecoveryOrchestrator.Declare` | src/dr_platform/orchestrator.py:38-68 | a fresh incident, declared, with its first event logged |
| `Orchestrator.RecoveryOrchestrator.StartRecovery` | src/dr_platform/orchestrator.py:70-83 | the incident after the call, also when it raises after the recovery point was written |
| `Orchestrator.RecoveryOrchestrator.BeginValidation` | src/dr_platform/orchestrator.py:85-114 | the incident after the call, also when it raises after the restore fields were written |
| `Orchestrator.RecoveryOrchestrator.RecordValidation` | src/dr_platform/orchestrator.py:116-175 | the incident after the call, also when it raises after validation and record were replaced |
| `Orchestrator.RecoveryOrchestrator.Reconcile` | src/dr_platform/orchestrator.py:177-212 | the incident and the target after the call, also when the replay is refused or aborts |
| `Orchestrator.RecoveryOrchestrator.Promote` | src/dr_platform/orchestrator.py:214-244 | the incident after the call, also when it raises after the approval was written |
| `Orchestrator.RecoveryOrchestrator.StartFailback` | src/dr_platform/orchestrator.py:246-270 | the incident after the call; blocked calls change nothing |
| `Orchestrator.RecoveryOrchestrator.CompleteFailback` | src/dr_platform/orchestrator.py:272-291 | the incident after the call; blocked calls change nothing |
| `Acceptance.MoveAcceptedExactlyWhen` | src/dr_platform/state_machine.py:14-56 | a move is made exactly along one of eight edges, into approval only past all nine gates, along an owner's edge only when approved; the three refusals are told apart and change nothing |
| `Acceptance.MoveWrites` | src/dr_platform/state_machine.py:58-92 | a move writes the state, one event telling from, to, actor, reason, approval and time, chained to the log, and the instants and statuses of its target; nothing else |
| `Acceptance.DeclareExactly` | src/dr_platform/orchestrator.py:38-68 | a declared incident is a blank one after its first move |
| `Acceptance.StartRecoveryExactly` | src/dr_platform/orchestrator.py:70-83 | accepted exactly from INCIDENT_DECLARED or VALIDATING, for corruption with a point before the failure; past that guard the point is written even when the state refuses |
| `Acceptance.BeginValidationExactly` | src/dr_platform/orchestrator.py:85-114 | accepted exactly from RECOVERY_IN_PROGRESS, for corruption with each of the ten restore facts true; past that guard the restore fields are written even when the state refuses |
| `Domain.PassedExactly` | src/dr_platform/types.py:88-101 | a validation passes exactly when its nine gates are true |
| `Acceptance.RecordValidationExactly` | src/dr_platform/orchestrator.py:116-175 | accepted exactly from VALIDATING with six true gates, equal counts, keys and checksums, and for corruption a plan with four empty lists; otherwise the counts, the result and, with a plan, a new unstamped record are written all the same |
| `Acceptance.ReconcileExactly` | src/dr_platform/orchestrator.py:177-212 | which of four errors is raised, or none, on the record's stamp, the two flags and the replay's own outcome; the record's replay and status, and the target, after it |
| `Acceptance.PromoteExactly` | src/dr_platform/orchestrator.py:214-244 | in every scenario accepted exactly from AWAITING_APPROVAL or FAILBACK_IN_PROGRESS, approved, with both names, and for corruption with a safe, replayed, repaired and freshly stamped record; only the state refuses after the names were written |
| `Acceptance.StartFailbackExactly` | src/dr_platform/orchestrator.py:246-270 | accepted exactly from RECOVERY_ACTIVE, approved, referenced, both regions up, with a proof that holds on its five fields and is no older than the promotion; a refusal changes nothing |
| `Acceptance.CompleteFailbackExactly` | src/dr_platform/orchestrator.py:272-291 | accepted exactly from FAILBACK_IN_PROGRESS, approved, with both regions validated; a refusal changes nothing |
| `Acceptance.PromotedByOwner` | src/dr_platform/orchestrator.py:214-244 | over every run, in every scenario: an incident at or beyond RECOVERY_ACTIVE was taken there from AWAITING_APPROVAL by an approved and named promotion with its record in order |
| `Acceptance.FailedBackByOwner` | src/dr_platform/orchestrator.py:246-270 | over every run: an incident in or past failback was taken there from RECOVERY_ACTIVE by an approved, referenced call with both regions up and a passing proof |
| `Acceptance.ClosedByOwner` | src/dr_platform/orchestrator.py:272-291 | over every run: a HEALTHY incident was closed from failback by an approved call with both regions validated |
| `Acceptance.UnapprovedNeverStores` | src/dr_platform/reconciliation.py:127-152 | no sequence of calls whose reconciles are approved without both names, or undisturbed and dry or unapproved, ever changes the target |
| `Acceptance.PromotableUnreplayedExactlyWhen` | src/dr_platform/orchestrator.py:154-175 | right after a corruption's validation is accepted a promotion is accepted exactly when the plan asks for nothing |
| `Acceptance.StoredOwnerIsLast` | src/dr_platform/orchestrator.py:233-244 | over every run the recorded owner and reference are those of the last promotion that only the state could refuse |
| `Witnesses.RenamedByRefusedPromotion` | src/dr_platform/orchestrator.py:233-244 | a concrete run: a second promotion, refused by the state, replaces the owner of a promoted incident |
| `Runs.StepShape` | src/dr_platform/orchestrator.py:66-291 | every call either raises and leaves state, log and timestamps alone or performs exactly its one move; reconcile never moves |
| `Runs.RunLanguage` | src/dr_platform/state_machine.py:14-26 | over all runs, raising calls included, the log shows a prefix of DECLARED (RECOVERY VALIDATING)+ AWAITING ACTIVE (FAILBACK ACTIVE)* FAILBACK HEALTHY ending in the current state, every approval edge logged as approved |
| `Language.EveryPrefixHappens` | src/dr_platform/state_machine.py:14-26 | conversely every prefix of every such word is the log of a run |
| `Runs.ApprovalEnteredOnce` | src/dr_platform/state_machine.py:81-85 | no log shows two entries into AWAITING_APPROVAL |
| `Runs.ReachableLogVerifies` | src/dr_platform/state_machine.py:60-76 | every reachable log verifies |
| `Runs.ReachableHeadHash` | src/dr_platform/integrity.py:25-36 | two reachable incidents with one head hash have the same log or exhibit a payload collision |
| `Runs.RunInstantsSet` | src/dr_platform/state_machine.py:77-91 | whatever the clock does, the state says which instants are set, and beyond approval the RTO ends at the promotion |
| `Runs.RunTimeOrdered` | src/dr_platform/state_machine.py:58-91 | under a clock that never goes back the six instants are ordered wherever set |
| `Runs.ClockNeverRefuses` | src/dr_platform/data_validation.py:77-81 | then the RTO from declaration is never negative and no replay is refused for preceding its validation |
| `Runs.FailbackAcceptedExactlyWhen` | src/dr_platform/orchestrator.py:257-270 | supporting fact: failback starts exactly from RECOVERY_ACTIVE, approved, referenced, healthy, with a passing proof no older than the promotion |
| `Runs.AbortedFailbackNeedsFreshProof` | src/dr_platform/orchestrator.py:257-261 | after a promotion that aborts failback, any older proof is refused until another promotion |
| `Gates.ApprovalHistory` | src/dr_platform/orchestrator.py:116-175 | any incident at or beyond approval was let in by one validation call that passed all gates at the stored instant and whose plan a stamped record still names |
| `Gates.PromotionGate` | src/dr_platform/orchestrator.py:214-244 | a logical incident reaching RECOVERY_ACTIVE was promoted by an approved call and has its point before the failure, ten proven flags, a safe, replayed and stamped record, and that plan is the one whose validation passed all gates at that instant |
| `Gates.StaleEvidenceFailsClosed` | src/dr_platform/orchestrator.py:154-175 | recording a validation with a plan while awaiting approval raises, and afterwards every call raises, nothing is replayed and the state never changes |
| `Recovery.WayOutExactlyWhen` | src/dr_platform/orchestrator.py:177-244 | an incident awaiting approval can still leave it exactly when its record is stamped and no required repair is outstanding |
| `Recovery.RevalidationFatalExactlyWithPlan` | src/dr_platform/orchestrator.py:154-175 | revalidating an incident that can still leave approval raises, and closes every way out exactly when it brings a plan |
| `Gates.RepairGateHolds` | src/dr_platform/orchestrator.py:227-231 | while a required production repair is incomplete no sequence of calls leaves AWAITING_APPROVAL |
| `Gates.RefusedRestartMovesPoint` | src/dr_platform/orchestrator.py:70-83 | supporting fact: a restart refused after validation has already replaced the recovery point with any earlier-than-failure one, and promotion is unaffected |
| `LastWriter.StoredValidationExactlyWhen` | src/dr_platform/orchestrator.py:129-153 | over every run the stored validation passed exactly when the last validation call, raising or not, brought six true gates, equal counts and an exact match |
| `LastWriter.StoredCountsAreLast` | src/dr_platform/orchestrator.py:129-153 | over every run the stored counts are those of the last validation call, raising or not |
| `LastWriter.StoredPointIsLast` | src/dr_platform/orchestrator.py:76-83 | over every run the recovery point is that of the last restart request past the guard, refused or not |
| `Witnesses.PromotedWithFailedValidation` | src/dr_platform/orchestrator.py:80-170 | a concrete run at RECOVERY_ACTIVE whose stored validation failed and whose recovery point is not its plan's |
| `Gates.PromotionImpliesAuthoritativeTarget` | src/dr_platform/orchestrator.py:177-244 | whenever an incident is beyond approval, and reconcile calls passed the recorded plan, the target is exactly the authoritative table and has the recorded checksum |
| `Gates.PassedMeansEqualData` | src/dr_platform/orchestrator.py:129-153 | a validation made from a comparison passes exactly when the six supplied gates do and the datasets are equal, up to a digest collision; expected less lost equals recovered less unexpected |
| `Recovery.SafePlanCanBePromoted` | src/dr_platform/orchestrator.py:70-244 | every safe plan of at most 25 replay ids can be carried by five calls from declaration to RECOVERY_ACTIVE with the target at the authoritative table |
| `Recovery.PromotableExactlyWhen` | src/dr_platform/orchestrator.py:177-244 | a validated safe plan can be promoted by calls whose reconciles pass it exactly when it has at most 25 ids |
| `Recovery.PromotedTargetExactlyWhen` | src/dr_platform/orchestrator.py:177-244 | after a completed undisturbed reconcile with any plan and candidates, over any target, the promotion is accepted with the recorded plan intact, and the target is that plan's authoritative table exactly when it held nothing else and ids and candidates cover what was missing |
| `Recovery.EmptyAskPromotesAnyPlan` | src/dr_platform/orchestrator.py:177-244 | a reconcile that passes a plan asking for nothing lets any safe recorded plan, however large, be promoted over the bare restore |
| `Witnesses.PromotedOverBareRestore` | src/dr_platform/orchestrator.py:177-244 | a concrete run: a validated safe plan of 26 ids, promoted with none of its rows in the target |
| `Witnesses.PromotedOverStrayRow` | src/dr_platform/orchestrator.py:177-244 | a concrete run: a reconcile of a larger plan, then one that passes the recorded plan and completes, then a promotion over a target with a row the plan does not know |
| `Recovery.OversizePlanNeverPromoted` | src/dr_platform/reconciliation.py:117-167 | a validated plan of more than 25 ids is never promoted by any later calls that reconcile with it |
| `Redaction.RedactExactly` | src/dr_platform/evidence.py:41-49 | redaction leaves nothing but the placeholder under sensitive keys, changes exactly the values that need it, and is idempotent |
| `Redaction.SensitiveExactly` | src/dr_platform/evidence.py:17 | a key is sensitive exactly when, whatever the case, it spells one of the five words somewhere |
| `Redaction.RedactKeepsPlain` | src/dr_platform/evidence.py:41-49 | along any path without sensitive keys redaction keeps every scalar, every key and every length |
| `Redaction.RedactHides` | src/dr_platform/evidence.py:41-49 | under a sensitive key at the end of any such path stands the placeholder |
| `Redaction.EventKeyPlain` | src/dr_platform/evidence.py:17 | no key of a logged event, nor `events`, is sensitive |
| `Report.ReportRoundTrip` | src/dr_platform/evidence.py:118-207 | a report built for any reachable incident is redacted, accepted unsigned, and when signed accepted exactly by a verifier that accepts the signature, or exactly as the status the signer itself returned demands |
| `Report.AcceptedExactlyWhen` | src/dr_platform/evidence.py:193-207 | any report is accepted exactly when it records the digest of its body and a verified chain, every listed event stands in its place, and its signature section is UNSIGNED, or SIGNED and accepted by the verifier; a forged log is refused however it was resealed |
| `Report.AcceptedLogsAgree` | src/dr_platform/evidence.py:193-207 | tamper evidence: two accepted reports whose last events carry one hash list the same events, or two payloads collide, whatever their digests and signatures |
| `Report.AnyReportBuildsExactlyWhen` | src/dr_platform/evidence.py:52-142 | for any incident, reachable or not, a report builds exactly when identifiers, scope evidence, signer and outage bound are in order, every event stands in its place, and neither measured value is negative |
| `Report.ReportSealed` | src/dr_platform/evidence.py:178-190 | every built report records the digest of the rest of it, a verified chain, and a signature section in which what the signer returned wins |
| `Report.ReportBuildsExactlyWhen` | src/dr_platform/evidence.py:52-142 | for reachable incidents the chain never refuses: a report builds exactly when identifiers, scope evidence and outage bound are in order, the last validation brought nothing newer than the failure, and service was not restored before the outage; a clock that never goes back gives the last |
| `Contents.ReportTruthful` | src/dr_platform/evidence.py:163-174 | in a report of a reachable incident the validation reads PASS exactly when the last validation call brought passing gates, promotion COMPLETE exactly from RECOVERY_ACTIVE on, failback COMPLETE exactly in HEALTHY |
| `Contents.ReportMeasures` | src/dr_platform/evidence.py:52-100 | for reachable incidents the measured values are service restored less outage start, and failure less the newest recovered time of the last validation call; null where one is missing |
| `Contents.ReportMeasurements` | src/dr_platform/evidence.py:52-100 | the clock reads PASS exactly when a skew was observed within its limit, the start is a LOWER_BOUND exactly when a bound counts, and every instant stands beside its source |
| `Contents.ReportValidation` | src/dr_platform/evidence.py:127-162 | for reachable incidents the section shows the nine gates of the last validation call, raising or not, and passed exactly when all hold; null without one |
| `Contents.ReportDetails` | src/dr_platform/evidence.py:127-162 | and its details show that call's digests and the ids each side lacks |
| `Contents.ReportReconciliation` | src/dr_platform/evidence.py:160 | the section calls a plan safe and a replay complete exactly when they are, and carries the plan's point, replay ids and checksum |
| `Contents.ReportCounts` | src/dr_platform/evidence.py:158 | for reachable incidents the counts are those of the last validation call, raising or not, and empty without one |
| `Contents.ReportTells` | src/dr_platform/evidence.py:143-170 | for reachable incidents the report names the final state, the point of the last restart past the guard, and the recorded approval |
| `Contents.ReportTimes` | src/dr_platform/evidence.py:144-155 | the nine instants stand under their names after redaction |
| `Contents.ReportIdentity` | src/dr_platform/evidence.py:138-142 | for reachable incidents identifiers, scope and scenario are those of the declaration |
| `Report.DigestDeterminesBody` | src/dr_platform/evidence.py:193-207 | supporting fact: two accepted reports with one digest have equal bodies or exhibit a hash collision |
| `Report.ReportDigestPinsHistory` | src/dr_platform/evidence.py:118-207 | two reports of reachable incidents with one recorded digest carry the same event log, or their bodies collide |
| `Convergence.MeasureConvergence` | src/dr_platform/replication.py:42-69 | terminates; every probe and wait is where the clock puts it, waits follow the schedule, no probe and no end of a wait is past the deadline; it ends when a probe succeeds, and reports the reading after it, when the next wait would pass the deadline, or when the deadline has passed; a marker visible from T with the longest backoff and two readings to spare is measured with less than that backoff and three readings of excess; one hidden before T is never measured earlier than T |
| `Convergence.StillClockNeverEnds` | src/dr_platform/replication.py:58-68 | with no initial backoff, a still clock and a hidden marker the loop goes on after any number of missed probes, so the time condition on the poller is needed |
| `Convergence.BackoffClosedForm` | src/dr_platform/replication.py:68 | wait k is the initial backoff doubled k times, capped |
| `Convergence.AttemptsBounded` | src/dr_platform/replication.py:58-69 | attempts after the first, times the shortest backoff, fit before the deadline |
| `Cleanup.CleanupPlan` | src/dr_platform/cleanup.py:39-70 | the two loops return the specified decision or first error |
| `Cleanup.CleanupMeaning` | src/dr_platform/cleanup.py:39-70 | accepted exactly for acceptable input; delete and retain split the ids, retained are exactly the evidence-stage, evidence-protecting or still locked resources, both lists by the numbers of the eight stages and then by id |
| `Cleanup.FirstErrorExactly` | src/dr_platform/cleanup.py:39-60 | the error says what is wrong with the first resource that does not fit, in the order duplicate, stage, region, shared |
| `Cleanup.NoDetachExactly` | src/dr_platform/cleanup.py:39-60 | a missing detach stage is reported exactly when all resources fit, one is replicated and none is of that stage |
| `Cleanup.CleanupIgnoresOrder` | src/dr_platform/cleanup.py:54 | acceptance and decision do not depend on input order |
| `Cli.CommandLine.Execute` | src/dr_platform/cli.py:158-259 | each command loads the incident, drives it and stores it only if nothing raised: the store and the error are the specified ones |
| `Cli.CommandsPassRecordedPlan` | src/dr_platform/cli.py:158-259 | over every sequence of commands, from AWAITING_APPROVAL on, the stored validation has passed, the recorded plan is the one each reconcile recomputes and passes, and the point is the plan's; VALIDATING is never stored |
| `Cli.StoredUnlessRaised` | src/dr_platform/cli.py:158-259 | a command that raises leaves the store as it was |
| `Cli.DeclareStores` | src/dr_platform/cli.py:161-166 | a declared incident has local scope, no observed skew and no source that counts as synchronised |
| `Cli.RestartCommandExactly` | src/dr_platform/cli.py:172-173 | recover-data succeeds exactly from INCIDENT_DECLARED or VALIDATING, for corruption with a point before the failure, and stores the point and that one move |
| `Cli.ValidateExactlyWhen` | src/dr_platform/cli.py:104-195 | validating an incident in recovery with a point not after the failure succeeds exactly when the outside facts hold; the fixture never fails a gate |
| `Cli.ValidateCommandExactly` | src/dr_platform/cli.py:174-195 | whatever commands came before, validate-recovery succeeds exactly on an incident in recovery with a point not after its failure, when the outside facts hold |
| `Cli.ReconcileCommandExactly` | src/dr_platform/cli.py:196-213 | reconcile succeeds exactly with a point not after the failure, a stamped record awaiting approval, an approval unless dry, both names if approved and a clock not before the validation |
| `Cli.ReconcileCommandStores` | src/dr_platform/cli.py:196-213 | what it then stores: a result of the recomputed plan under the names given, complete exactly when it was not dry, and nothing else |
| `Cli.PromoteCommandExactly` | src/dr_platform/cli.py:214-220 | promote succeeds exactly as the orchestrator's promotion does on the stored fields, and stores that one move under the names given |
| `Cli.FailbackCommandExactly` | src/dr_platform/cli.py:221-255 | failing back needs the word that both regions are healthy and the data consistent, an approval and the right state, and to start a reference and a clock not before the promotion; it stores that one move |
| `Cli.LocalReconcileCompletes` | src/dr_platform/cli.py:196-213 | an approved reconcile over a target rebuilt from the restore always completes and leaves exactly the fixture |
| `Cli.LocalDrillPromotes` | src/dr_platform/cli.py:158-259 | from any stored logical incident in recovery, validate, approved reconcile and promote reach RECOVERY_ACTIVE |

## Left out

- Convergence.MeasureConvergence: requires positive backoffs or readings that take time, because with a zero backoff and a clock that stands still the polling loop need not terminate (`Convergence.StillClockNeverEnds`).
- Replay.ConditionalTarget.Get: does not model deletions or overwrites by foreign writers, because every writer of the target uses the conditional put.
- Report.ReportRoundTrip: a report whose parts have the wrong JSON shape is not accepted, where the code raises.
- Drill.DrillSucceeds: assumes others make no net change between the planning scan and the final test, because the script compares the tables as they are then.
- Naive timestamps and their rejection: every instant here is already in UTC.
- JSON encoding, SHA-256, ECDSA and KMS internals, and timestamp text formatting: library code; the incident store is taken to read back what it wrote.
- DynamoDB, S3, CloudWatch and HTTP calls, Terraform, shell scripts, workflows and IAM policy text: foreign services; only the conditional-put contract and the repair conditions are kept.
- The scenario script's direct edits of the reconciliation dictionary: the step relation is about orchestrator calls; the repair flags they set are fields of the record, and `Gates.RepairGateHolds` starts from them.
- The script's repeated scans until the final test passes, and its concurrent writer threads: the test itself is `Drill.CountAndChecksum`, and other writers are arbitrary edits.
- Event logs whose `event_hash` is not a string: unreachable by transitions.
- The commands that only print (`status`, `validate`, `report`), and argument parsing: they store nothing.
- The Lambda handlers, metric building, routing decisions and the IAM contract file: outside the recovery control plane.
