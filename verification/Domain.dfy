/** The value types shared by the recovery controller. Every instant is a whole number of
    microseconds in UTC, so normalisation to UTC is the identity here. */
module Domain {
  import opened Prelude

  type Time = int
  type Id = string

  /** Two transactions have equal canonical forms exactly when all five fields agree. */
  datatype Transaction = Transaction(
    id: Id, timestamp: Time, region: string, amountCents: int, payload: string)

  /** A table or replay target: its hash key makes ids unique. */
  type Table = map<Id, Transaction>

  datatype RecoveryState =
    | Healthy
    | IncidentDeclared
    | RecoveryInProgress
    | Validating
    | AwaitingApproval
    | RecoveryActive
    | FailbackInProgress

  datatype Scenario = RegionalOutage | LogicalCorruption | S3Recovery

  datatype RegionHealth = RegionHealth(
    region: string, apiHealthy: bool, readOk: bool, writeOk: bool, checkedAt: Time, details: string)
  {
    predicate Healthy() { apiHealthy && readOk && writeOk }
  }

  datatype ValidationDetails = ValidationDetails(
    sourceChecksum: string, recoveredChecksum: string,
    missingKeys: seq<Id>, unexpectedKeys: seq<Id>,
    newestRecovered: Option<Time>, evidenceScope: string)

  datatype ValidationResult = ValidationResult(
    apiHealth: bool, readWrite: bool, recordCount: bool, expectedKeys: bool, checksum: bool,
    freshness: bool, s3Versions: bool, crossRegionConsistency: bool, syntheticTransaction: bool,
    details: ValidationDetails)
  {
    function Gates(): seq<bool> {
      [apiHealth, readWrite, recordCount, expectedKeys, checksum,
       freshness, s3Versions, crossRegionConsistency, syntheticTransaction]
    }

    /** `all(checks)` over the nine gates. */
    predicate Passed() { forall gate | gate in Gates() :: gate }
  }

  /** The nine gates. */
  predicate AllGates(v: ValidationResult) {
    && v.apiHealth && v.readWrite && v.recordCount && v.expectedKeys && v.checksum
    && v.freshness && v.s3Versions && v.crossRegionConsistency && v.syntheticTransaction
  }

  lemma PassedExactly(v: ValidationResult)
    ensures v.Passed() <==> AllGates(v)
  {
    var gates := v.Gates();
    assert gates[0] in gates && gates[1] in gates && gates[2] in gates && gates[3] in gates && gates[4] in gates
        && gates[5] in gates && gates[6] in gates && gates[7] in gates && gates[8] in gates;
  }

  /** Later rows win, as in a Python dictionary comprehension. */
  function ById(rows: seq<Transaction>): Table {
    if rows == [] then map[]
    else
      var last := rows[|rows| - 1];
      ById(rows[..|rows| - 1])[last.id := last]
  }

  ghost predicate UniqueIds(rows: seq<Transaction>) {
    forall i, j | 0 <= i < j < |rows| :: rows[i].id != rows[j].id
  }

  /** `rows` is one scan of `table`: every entry once, in whatever order the store returns it. */
  ghost predicate Scans(rows: seq<Transaction>, table: Table) {
    UniqueIds(rows) && ById(rows) == table
  }

  /** `small` survives inside `large` with unchanged content. */
  ghost predicate Within(small: Table, large: Table) {
    forall k | k in small :: k in large && large[k] == small[k]
  }

  ghost predicate Keyed(table: Table) {
    forall k | k in table :: table[k].id == k
  }

  lemma {:induction false} ByIdKeyed(rows: seq<Transaction>)
    ensures Keyed(ById(rows))
    ensures forall k | k in ById(rows) :: ById(rows)[k] in rows
    ensures forall x | x in rows :: x.id in ById(rows)
  {
    if rows != [] {
      var front := rows[..|rows| - 1];
      ByIdKeyed(front);
      assert rows == front + [rows[|rows| - 1]];
    }
  }

  lemma {:induction false} ByIdUnique(rows: seq<Transaction>)
    requires UniqueIds(rows)
    ensures Keyed(ById(rows))
    ensures forall k | k in ById(rows) :: ById(rows)[k] in rows
    ensures forall x | x in rows :: x.id in ById(rows) && ById(rows)[x.id] == x
  {
    ByIdKeyed(rows);
    forall x | x in rows ensures ById(rows)[x.id] == x {
      var y := ById(rows)[x.id];
      assert y in rows && y.id == x.id;
    }
  }
}
