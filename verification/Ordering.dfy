/** Strict orders, insertion sort over them, and the fact the whole model leans on:
    a strictly ascending sequence is determined by the set of its elements. */
module Ordering {

  ghost predicate StrictOrder<T(!new)>(lt: (T, T) -> bool) {
    && (forall x :: !lt(x, x))
    && (forall x, y, z :: lt(x, y) && lt(y, z) ==> lt(x, z))
  }

  ghost predicate Ascending<T>(lt: (T, T) -> bool, xs: seq<T>) {
    forall i, j | 0 <= i < j < |xs| :: lt(xs[i], xs[j])
  }

  /** Any two positions hold elements that the order tells apart. */
  ghost predicate Separated<T>(lt: (T, T) -> bool, xs: seq<T>) {
    forall i, j | 0 <= i < j < |xs| :: lt(xs[i], xs[j]) || lt(xs[j], xs[i])
  }

  ghost predicate SameElements<T(!new)>(xs: seq<T>, ys: seq<T>) {
    forall x :: x in xs <==> x in ys
  }

  /** Stable: `x` goes before the first element that is not strictly smaller. */
  function Insert<T>(lt: (T, T) -> bool, x: T, ys: seq<T>): (r: seq<T>)
    ensures multiset(r) == multiset(ys) + multiset{x}
  {
    if ys == [] then [x]
    else if lt(ys[0], x) then
      assert ys == [ys[0]] + ys[1..];
      [ys[0]] + Insert(lt, x, ys[1..])
    else [x] + ys
  }

  function Sort<T>(lt: (T, T) -> bool, xs: seq<T>): (r: seq<T>)
    ensures multiset(r) == multiset(xs)
  {
    if xs == [] then []
    else
      assert xs == [xs[0]] + xs[1..];
      Insert(lt, xs[0], Sort(lt, xs[1..]))
  }

  lemma SortElements<T>(lt: (T, T) -> bool, xs: seq<T>)
    ensures forall x :: x in Sort(lt, xs) <==> x in xs
    ensures |Sort(lt, xs)| == |xs|
  {
    assert forall x :: x in Sort(lt, xs) <==> x in multiset(Sort(lt, xs));
    assert forall x :: x in xs <==> x in multiset(xs);
    assert |multiset(Sort(lt, xs))| == |multiset(xs)|;
  }

  lemma {:induction false} InsertAscending<T(!new)>(lt: (T, T) -> bool, x: T, ys: seq<T>)
    requires StrictOrder(lt) && Ascending(lt, ys)
    requires forall y | y in ys :: lt(x, y) || lt(y, x)
    ensures Ascending(lt, Insert(lt, x, ys))
  {
    if ys != [] && lt(ys[0], x) {
      InsertAscending(lt, x, ys[1..]);
      var r := Insert(lt, x, ys[1..]);
      forall y | y in r ensures lt(ys[0], y) {
        assert y in multiset(r);
        if y != x { assert y in ys[1..]; }
      }
    } else if ys != [] {
      forall y | y in ys ensures lt(x, y) {
        if y != ys[0] { assert lt(ys[0], y) && lt(x, ys[0]); }
      }
    }
  }

  lemma {:induction false} SortAscending<T(!new)>(lt: (T, T) -> bool, xs: seq<T>)
    requires StrictOrder(lt) && Separated(lt, xs)
    ensures Ascending(lt, Sort(lt, xs))
  {
    if xs != [] {
      SortAscending(lt, xs[1..]);
      SortElements(lt, xs[1..]);
      InsertAscending(lt, xs[0], Sort(lt, xs[1..]));
    }
  }

  lemma {:induction false} AscendingDetermined<T(!new)>(lt: (T, T) -> bool, xs: seq<T>, ys: seq<T>)
    requires StrictOrder(lt) && Ascending(lt, xs) && Ascending(lt, ys) && SameElements(xs, ys)
    ensures xs == ys
  {
    assert forall k | 0 <= k < |ys| :: ys[k] in xs;
    assert forall k | 0 <= k < |xs| :: xs[k] in ys;
    if xs == [] {
      assert |ys| == 0;
    } else {
      assert xs[0] == ys[0];
      forall x ensures x in xs[1..] <==> x in ys[1..] {
        assert x in xs <==> x in ys;
        assert x in xs <==> x == xs[0] || x in xs[1..];
        assert x in ys <==> x == ys[0] || x in ys[1..];
      }
      AscendingDetermined(lt, xs[1..], ys[1..]);
      assert xs == [xs[0]] + xs[1..];
      assert ys == [ys[0]] + ys[1..];
    }
  }

  /** Sorting forgets the input order: separated inputs with the same elements sort alike. */
  lemma SortCanonical<T(!new)>(lt: (T, T) -> bool, xs: seq<T>, ys: seq<T>)
    requires StrictOrder(lt) && Separated(lt, xs) && Separated(lt, ys) && SameElements(xs, ys)
    ensures Sort(lt, xs) == Sort(lt, ys)
  {
    SortAscending(lt, xs);
    SortAscending(lt, ys);
    SortElements(lt, xs);
    SortElements(lt, ys);
    AscendingDetermined(lt, Sort(lt, xs), Sort(lt, ys));
  }

  // ---------------------------------------------------------------- strings

  /** Code-point lexicographic order, as Python compares `str`. */
  predicate StrLt(a: string, b: string) {
    |b| > 0 && (|a| == 0 || a[0] < b[0] || (a[0] == b[0] && StrLt(a[1..], b[1..])))
  }

  /** `a` comes before `b`: it is a proper prefix of `b`, or has the smaller character where they first
      differ. */
  ghost predicate Precedes(a: string, b: string) {
    exists i ::
      0 <= i <= |a| && i < |b| && a[..i] == b[..i] && (i == |a| || a[i] < b[i])
  }

  /** The recursive comparison decides exactly this. */
  lemma {:induction false} StrLtExactly(a: string, b: string)
    ensures StrLt(a, b) <==> Precedes(a, b)
  {
    if |a| > 0 && |b| > 0 && a[0] == b[0] {
      var x, y := a[1..], b[1..];
      StrLtExactly(x, y);
      if Precedes(x, y) {
        var i :| 0 <= i <= |x| && i < |y| && x[..i] == y[..i] && (i == |x| || x[i] < y[i]);
        assert a[..i + 1] == [a[0]] + x[..i] && b[..i + 1] == [b[0]] + y[..i];
      }
      if Precedes(a, b) {
        var i :| 0 <= i <= |a| && i < |b| && a[..i] == b[..i] && (i == |a| || a[i] < b[i]);
        assert i > 0;
        assert x[..i - 1] == a[..i][1..] && y[..i - 1] == b[..i][1..];
      }
    } else {
      assert a[..0] == b[..0];
      forall i | 0 < i <= |a| && i < |b| ensures a[..i] != b[..i] {
        assert a[..i][0] == a[0] && b[..i][0] == b[0];
      }
    }
  }

  /** The list goes upwards, without repetition. */
  ghost predicate Upwards(ids: seq<string>) {
    forall i, j | 0 <= i < j < |ids| :: Precedes(ids[i], ids[j])
  }

  lemma AscendingIsUpwards(ids: seq<string>)
    ensures Ascending(StrLt, ids) <==> Upwards(ids)
  {
    forall i, j | 0 <= i < j < |ids| ensures StrLt(ids[i], ids[j]) <==> Precedes(ids[i], ids[j]) {
      StrLtExactly(ids[i], ids[j]);
    }
  }

  lemma StrLtIrreflexive(a: string)
    ensures !StrLt(a, a)
  {}

  lemma {:induction false} StrLtTransitive(a: string, b: string, c: string)
    requires StrLt(a, b) && StrLt(b, c)
    ensures StrLt(a, c)
  {
    if |a| > 0 && a[0] == b[0] && b[0] == c[0] {
      StrLtTransitive(a[1..], b[1..], c[1..]);
    }
  }

  lemma {:induction false} StrLtTotal(a: string, b: string)
    ensures StrLt(a, b) || StrLt(b, a) || a == b
  {
    if |a| > 0 && |b| > 0 && a[0] == b[0] {
      StrLtTotal(a[1..], b[1..]);
      assert a == [a[0]] + a[1..];
      assert b == [b[0]] + b[1..];
    }
  }

  lemma StrLtIsStrictOrder()
    ensures StrictOrder(StrLt)
  {
    forall a ensures !StrLt(a, a) { StrLtIrreflexive(a); }
    forall a, b, c | StrLt(a, b) && StrLt(b, c) ensures StrLt(a, c) { StrLtTransitive(a, b, c); }
  }

  ghost predicate Distinct<T>(xs: seq<T>) {
    forall i, j | 0 <= i < j < |xs| :: xs[i] != xs[j]
  }

  lemma DistinctSeparated(xs: seq<string>)
    requires Distinct(xs)
    ensures Separated(StrLt, xs)
  {
    forall i, j | 0 <= i < j < |xs| ensures StrLt(xs[i], xs[j]) || StrLt(xs[j], xs[i]) {
      StrLtTotal(xs[i], xs[j]);
    }
  }

  // ------------------------------------------------- sorted(set(...)) of ids

  function Dedup(xs: seq<string>): (r: seq<string>)
    ensures Distinct(r)
    ensures forall x :: x in r <==> x in xs
  {
    if xs == [] then []
    else
      var rest := Dedup(xs[..|xs| - 1]);
      var last := xs[|xs| - 1];
      assert xs == xs[..|xs| - 1] + [last];
      if last in rest then rest else rest + [last]
  }

  function SortedSet(xs: seq<string>): seq<string> {
    Sort(StrLt, Dedup(xs))
  }

  lemma SortedSetElements(xs: seq<string>)
    ensures forall x :: x in SortedSet(xs) <==> x in xs
    ensures SortedSet(xs) == [] <==> xs == []
    ensures Ascending(StrLt, SortedSet(xs))
  {
    SortElements(StrLt, Dedup(xs));
    StrLtIsStrictOrder();
    DistinctSeparated(Dedup(xs));
    SortAscending(StrLt, Dedup(xs));
    if xs != [] { assert xs[0] in SortedSet(xs); }
    if SortedSet(xs) != [] { assert SortedSet(xs)[0] in xs; }
  }

  lemma {:induction false} DistinctCount(ids: seq<string>)
    requires Distinct(ids)
    ensures |set k | k in ids| == |ids|
  {
    if ids != [] {
      var front := ids[..|ids| - 1];
      DistinctCount(front);
      assert ids == front + [ids[|ids| - 1]];
      assert (set k | k in ids) == (set k | k in front) + {ids[|ids| - 1]};
    }
  }

  lemma SortedSetCount(xs: seq<string>)
    ensures |SortedSet(xs)| == |set k | k in xs|
  {
    SortElements(StrLt, Dedup(xs));
    DistinctCount(Dedup(xs));
    assert (set k | k in Dedup(xs)) == (set k | k in xs);
  }

  lemma SortedSetCanonical(xs: seq<string>, ys: seq<string>)
    requires SameElements(xs, ys)
    ensures SortedSet(xs) == SortedSet(ys)
  {
    StrLtIsStrictOrder();
    DistinctSeparated(Dedup(xs));
    DistinctSeparated(Dedup(ys));
    SortCanonical(StrLt, Dedup(xs), Dedup(ys));
  }

  lemma SortIdsCanonical(xs: seq<string>, ys: seq<string>)
    requires Distinct(xs) && Distinct(ys) && SameElements(xs, ys)
    ensures Sort(StrLt, xs) == Sort(StrLt, ys)
  {
    StrLtIsStrictOrder();
    DistinctSeparated(xs);
    DistinctSeparated(ys);
    SortCanonical(StrLt, xs, ys);
  }

  lemma SortedDistinct(ids: seq<string>)
    requires Distinct(ids)
    ensures Upwards(Sort(StrLt, ids)) && Distinct(Sort(StrLt, ids))
  {
    StrLtIsStrictOrder();
    DistinctSeparated(ids);
    SortAscending(StrLt, ids);
    AscendingIsUpwards(Sort(StrLt, ids));
    var sorted := Sort(StrLt, ids);
    forall i, j | 0 <= i < j < |sorted| ensures sorted[i] != sorted[j] { assert StrLt(sorted[i], sorted[j]); }
  }
}
