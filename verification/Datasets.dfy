/** Deterministic comparison of recovered data, and the measured recovery objectives. */
module Datasets {
  import opened Prelude
  import opened Domain
  import opened Ordering

  /** SHA-256 of the compact JSON of an id-sorted list, seen only as some function of that list. */
  type Digest = seq<Transaction> -> string

  predicate TxLt(a: Transaction, b: Transaction) { StrLt(a.id, b.id) }

  function Canonical(rows: seq<Transaction>): seq<Transaction> { Sort(TxLt, rows) }

  function DatasetChecksum(h: Digest, rows: seq<Transaction>): string { h(Canonical(rows)) }

  function IdsOf(rows: seq<Transaction>): (ids: seq<Id>)
    ensures |ids| == |rows|
    ensures forall i | 0 <= i < |rows| :: ids[i] == rows[i].id
  {
    seq(|rows|, i requires 0 <= i < |rows| => rows[i].id)
  }

  function Without(ids: seq<Id>, known: seq<Id>): (r: seq<Id>)
    ensures forall k :: k in r <==> k in ids && k !in known
  {
    if ids == [] then []
    else
      assert ids == [ids[0]] + ids[1..];
      (if ids[0] in known then [] else [ids[0]]) + Without(ids[1..], known)
  }

  function Later(a: Option<Time>, b: Time): Option<Time> {
    if a.Some? && a.value >= b then a else Some(b)
  }

  /** `max(..., default=None)` over timestamps. */
  function Newest(rows: seq<Transaction>): (r: Option<Time>)
    ensures r.None? <==> rows == []
    ensures r.Some? ==> exists x :: x in rows && x.timestamp == r.value
    ensures forall x | x in rows :: r.Some? && x.timestamp <= r.value
  {
    if rows == [] then None
    else
      var last := rows[|rows| - 1];
      assert rows == rows[..|rows| - 1] + [last];
      Later(Newest(rows[..|rows| - 1]), last.timestamp)
  }

  datatype Comparison = Comparison(
    sourceCount: int, recoveredCount: int, missingKeys: seq<Id>, unexpectedKeys: seq<Id>,
    sourceChecksum: string, recoveredChecksum: string, newestRecovered: Option<Time>)
  {
    predicate ExactMatch() {
      missingKeys == [] && unexpectedKeys == [] && sourceChecksum == recoveredChecksum
    }
  }

  function CompareDatasets(h: Digest, expected: seq<Transaction>, recovered: seq<Transaction>): Comparison {
    Comparison(
      |expected|, |recovered|,
      SortedSet(Without(IdsOf(expected), IdsOf(recovered))),
      SortedSet(Without(IdsOf(recovered), IdsOf(expected))),
      DatasetChecksum(h, expected), DatasetChecksum(h, recovered), Newest(recovered))
  }

  /** What a comparison reports of any two lists, equal or not: both counts, the ids each side lacks in
      upward order, the digest of each side's id-sorted list, and the newest recovered time. */
  lemma ComparisonExactly(h: Digest, expected: seq<Transaction>, recovered: seq<Transaction>)
    ensures var c := CompareDatasets(h, expected, recovered);
            && c.sourceCount == |expected| && c.recoveredCount == |recovered|
            && (forall k :: k in c.missingKeys <==>
                  (exists x :: x in expected && x.id == k) && forall y | y in recovered :: y.id != k)
            && (forall k :: k in c.unexpectedKeys <==>
                  (exists y :: y in recovered && y.id == k) && forall x | x in expected :: x.id != k)
            && Upwards(c.missingKeys) && Upwards(c.unexpectedKeys)
            && c.sourceChecksum == h(Canonical(expected)) && c.recoveredChecksum == h(Canonical(recovered))
            && (c.newestRecovered.None? <==> recovered == [])
            && (c.newestRecovered.Some? ==>
                  && (exists y :: y in recovered && y.timestamp == c.newestRecovered.value)
                  && forall y | y in recovered :: y.timestamp <= c.newestRecovered.value)
  {
    var lost, extra := Without(IdsOf(expected), IdsOf(recovered)), Without(IdsOf(recovered), IdsOf(expected));
    hide SortedSet, Without, Canonical, StrLt, Newest;
    SortedSetElements(lost);
    SortedSetElements(extra);
    AscendingIsUpwards(SortedSet(lost));
    AscendingIsUpwards(SortedSet(extra));
    IdsOfRows(expected);
    IdsOfRows(recovered);
  }

  lemma IdsOfRows(rows: seq<Transaction>)
    ensures forall k :: k in IdsOf(rows) <==> exists x :: x in rows && x.id == k
  {
    forall k | k in IdsOf(rows) ensures exists x :: x in rows && x.id == k {
      var i :| 0 <= i < |rows| && IdsOf(rows)[i] == k;
      assert rows[i] in rows;
    }
    forall x | x in rows ensures x.id in IdsOf(rows) {
      var i :| 0 <= i < |rows| && rows[i] == x;
      assert IdsOf(rows)[i] == x.id;
    }
  }

  /** The list a digest is taken over holds the same rows, with multiplicity, and for unique ids it goes
      upwards by id. */
  lemma CanonicalSorted(rows: seq<Transaction>)
    ensures multiset(Canonical(rows)) == multiset(rows)
    ensures UniqueIds(rows) ==>
              forall i, j | 0 <= i < j < |Canonical(rows)| :: Precedes(Canonical(rows)[i].id, Canonical(rows)[j].id)
  {
    if UniqueIds(rows) {
      TxLtStrict();
      UniqueSeparated(rows);
      SortAscending(TxLt, rows);
      var sorted := Canonical(rows);
      forall i, j | 0 <= i < j < |sorted| ensures Precedes(sorted[i].id, sorted[j].id) {
        assert TxLt(sorted[i], sorted[j]);
        StrLtExactly(sorted[i].id, sorted[j].id);
      }
    }
  }

  // ------------------------------------------------------- canonical form

  lemma TxLtStrict()
    ensures StrictOrder(TxLt)
  {
    StrLtIsStrictOrder();
    forall a: Transaction, b: Transaction, c: Transaction | TxLt(a, b) && TxLt(b, c) ensures TxLt(a, c) {
      assert StrLt(a.id, b.id) && StrLt(b.id, c.id);
    }
  }

  lemma UniqueSeparated(rows: seq<Transaction>)
    requires UniqueIds(rows)
    ensures Separated(TxLt, rows)
  {
    forall i, j | 0 <= i < j < |rows| ensures TxLt(rows[i], rows[j]) || TxLt(rows[j], rows[i]) {
      StrLtTotal(rows[i].id, rows[j].id);
    }
  }

  lemma SameTableSameRows(xs: seq<Transaction>, ys: seq<Transaction>)
    requires UniqueIds(xs) && UniqueIds(ys)
    ensures ById(xs) == ById(ys) <==> SameElements(xs, ys)
  {
    ByIdUnique(xs);
    ByIdUnique(ys);
    if SameElements(xs, ys) {
      forall k ensures k in ById(xs) <==> k in ById(ys) {
        if k in ById(xs) { assert ById(xs)[k] in ys; }
        if k in ById(ys) { assert ById(ys)[k] in xs; }
      }
      forall k | k in ById(xs) ensures ById(xs)[k] == ById(ys)[k] {
        assert ById(xs)[k] in ys;
      }
    }
  }

  /** The id-sorted list is equal for two uniquely keyed lists exactly when they are the same table. */
  lemma CanonicalForm(xs: seq<Transaction>, ys: seq<Transaction>)
    requires UniqueIds(xs) && UniqueIds(ys)
    ensures Canonical(xs) == Canonical(ys) <==> ById(xs) == ById(ys)
  {
    SameTableSameRows(xs, ys);
    SortElements(TxLt, xs);
    SortElements(TxLt, ys);
    if SameElements(xs, ys) {
      TxLtStrict();
      UniqueSeparated(xs);
      UniqueSeparated(ys);
      SortCanonical(TxLt, xs, ys);
    }
  }

  /** Equal checksums mean equal tables, unless the digest collides on two concrete inputs. */
  lemma ChecksumDecides(h: Digest, xs: seq<Transaction>, ys: seq<Transaction>)
    requires UniqueIds(xs) && UniqueIds(ys)
    ensures ById(xs) == ById(ys) ==> DatasetChecksum(h, xs) == DatasetChecksum(h, ys)
    ensures DatasetChecksum(h, xs) == DatasetChecksum(h, ys) ==>
              ById(xs) == ById(ys) || Collision(h, Canonical(xs), Canonical(ys))
  {
    CanonicalForm(xs, ys);
  }

  lemma SameRowsSameNewest(xs: seq<Transaction>, ys: seq<Transaction>)
    requires SameElements(xs, ys)
    ensures Newest(xs) == Newest(ys)
  {
    hide Newest;
    NewestGrows(xs, ys);
    NewestGrows(ys, xs);
  }

  lemma NewestGrows(xs: seq<Transaction>, ys: seq<Transaction>)
    requires forall x | x in xs :: x in ys
    ensures xs != [] ==> ys != [] && Newest(xs).value <= Newest(ys).value
  {
    if xs != [] {
      assert xs[0] in xs && xs[0] in ys;
      var newest := Newest(xs);
      assert exists x :: x in xs && x.timestamp == newest.value;
      var a :| a in xs && a.timestamp == newest.value;
      assert a in ys;
    }
  }

  lemma SameTableSameCount(xs: seq<Transaction>, ys: seq<Transaction>)
    requires UniqueIds(xs) && UniqueIds(ys) && ById(xs) == ById(ys)
    ensures |xs| == |ys| && Newest(xs) == Newest(ys)
  {
    CanonicalForm(xs, ys);
    SortElements(TxLt, xs);
    SortElements(TxLt, ys);
    SameTableSameRows(xs, ys);
    SameRowsSameNewest(xs, ys);
  }

  /** `exact_match` holds exactly for equal datasets, and then counts and newest time agree too;
      the only other way it can hold is a digest collision on the two canonical lists. */
  lemma ExactMatchMeansEqual(h: Digest, expected: seq<Transaction>, recovered: seq<Transaction>)
    requires UniqueIds(expected) && UniqueIds(recovered)
    ensures var c := CompareDatasets(h, expected, recovered);
            && (ById(expected) == ById(recovered) ==>
                  && c.ExactMatch() && c.sourceCount == c.recoveredCount
                  && c.newestRecovered == Newest(expected))
            && (c.ExactMatch() ==>
                  || ById(expected) == ById(recovered)
                  || Collision(h, Canonical(expected), Canonical(recovered)))
  {
    ChecksumDecides(h, expected, recovered);
    if ById(expected) == ById(recovered) {
      SameTableSameCount(expected, recovered);
      SameTableSameRows(expected, recovered);
      SameKeysNothingMissing(expected, recovered);
      SameKeysNothingMissing(recovered, expected);
    }
  }

  lemma SameKeysNothingMissing(xs: seq<Transaction>, ys: seq<Transaction>)
    requires SameElements(xs, ys)
    ensures SortedSet(Without(IdsOf(xs), IdsOf(ys))) == []
  {
    var gone := Without(IdsOf(xs), IdsOf(ys));
    assert gone == [] || gone[0] in gone;
    forall k | k in IdsOf(xs) ensures k in IdsOf(ys) {
      var i :| 0 <= i < |xs| && xs[i].id == k;
      assert xs[i] in ys;
      var j :| 0 <= j < |ys| && ys[j] == xs[i];
      assert IdsOf(ys)[j] == k;
    }
    SortedSetElements(gone);
  }

  // ------------------------------------------------------------ objectives

  datatype MeasureError = NegativeMargin | NoSafePoint | RecoveryBeforeDeclaration | RecoveredAfterFailure

  function SafePoints(points: seq<Time>, corruption: Time, marginSeconds: int): (r: seq<Time>)
    ensures forall p :: p in r <==> p in points && corruption - p >= marginSeconds * 1_000_000
  {
    if points == [] then []
    else
      var last := points[|points| - 1];
      assert points == points[..|points| - 1] + [last];
      SafePoints(points[..|points| - 1], corruption, marginSeconds)
      + (if corruption - last >= marginSeconds * 1_000_000 then [last] else [])
  }

  function MaxTime(points: seq<Time>): (r: Time)
    requires points != []
    ensures r in points && forall p | p in points :: p <= r
  {
    var last := points[|points| - 1];
    assert points == points[..|points| - 1] + [last];
    if |points| == 1 then last
    else
      var best := MaxTime(points[..|points| - 1]);
      if best >= last then best else last
  }

  /** The result is the latest point that keeps the margin; there is none exactly when it refuses. */
  function ChooseRecoveryPoint(points: seq<Time>, corruption: Time, marginSeconds: int := 1)
    : (r: Result<Time, MeasureError>)
    ensures r.Ok? <==>
              marginSeconds >= 0 && exists p :: p in points && corruption - p >= marginSeconds * 1_000_000
    ensures r.Ok? ==>
              && r.value in points && corruption - r.value >= marginSeconds * 1_000_000
              && forall p | p in points && r.value < p :: corruption - p < marginSeconds * 1_000_000
  {
    if marginSeconds < 0 then Err(NegativeMargin)
    else
      var eligible := SafePoints(points, corruption, marginSeconds);
      if eligible == [] then
        assert forall p | p in points && corruption - p >= marginSeconds * 1_000_000 :: p in eligible;
        Err(NoSafePoint)
      else
        var best := MaxTime(eligible);
        assert best in eligible;
        assert forall p | p in points && corruption - p >= marginSeconds * 1_000_000 :: p in eligible;
        Ok(best)
  }

  /** Microseconds from declaration to service recovery. */
  function MeasuredRto(incident: Time, recovered: Time): Result<int, MeasureError> {
    if recovered - incident < 0 then Err(RecoveryBeforeDeclaration) else Ok(recovered - incident)
  }

  /** Microseconds from the newest recovered transaction to the failure. */
  function MeasuredRpo(failure: Time, newest: Time): Result<int, MeasureError> {
    if failure - newest < 0 then Err(RecoveredAfterFailure) else Ok(failure - newest)
  }
}
