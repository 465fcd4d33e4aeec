/**
  Sequence vocabulary: filtering, duplicate-freedom and the stable sort behind Python's
  `sorted(...)` and SQL's `ORDER BY`.
 */
module Sequences {

  ghost predicate NoDuplicates<T(!new)>(s: seq<T>) {
    forall i, j :: 0 <= i < j < |s| ==> s[i] != s[j]
  }

  function Filter<T(!new)>(s: seq<T>, keep: T -> bool): (r: seq<T>)
    ensures forall x :: x in r <==> x in s && keep(x)
  {
    if s == [] then []
    else if keep(s[0]) then [s[0]] + Filter(s[1..], keep)
    else Filter(s[1..], keep)
  }

  lemma {:induction false} FilterNoDuplicates<T(!new)>(s: seq<T>, keep: T -> bool)
    requires NoDuplicates(s)
    ensures NoDuplicates(Filter(s, keep))
  {
    if s != [] {
      FilterNoDuplicates(s[1..], keep);
      var rest := Filter(s[1..], keep);
      assert s[0] !in rest;
      if keep(s[0]) {
        var r := Filter(s, keep);
        forall i, j | 0 <= i < j < |r| ensures r[i] != r[j] {
          assert r[j] == rest[j - 1];
          if i > 0 { assert r[i] == rest[i - 1]; }
        }
      }
    }
  }

  lemma {:induction false} FilterConcat<T(!new)>(a: seq<T>, b: seq<T>, keep: T -> bool)
    ensures Filter(a + b, keep) == Filter(a, keep) + Filter(b, keep)
  {
    if a == [] {
      assert a + b == b;
    } else {
      FilterConcat(a[1..], b, keep);
      assert (a + b)[1..] == a[1..] + b;
    }
  }

  /** `le` never fails on either side and chains: what Python's sort needs of a key. */
  ghost predicate TotalPreorder<T(!new)>(le: (T, T) -> bool) {
    && (forall a, b :: le(a, b) || le(b, a))
    && (forall a, b, c :: le(a, b) && le(b, c) ==> le(a, c))
  }

  ghost predicate SortedBy<T(!new)>(s: seq<T>, le: (T, T) -> bool) {
    forall i, j :: 0 <= i < j < |s| ==> le(s[i], s[j])
  }

  function Insert<T(!new)>(x: T, s: seq<T>, le: (T, T) -> bool): (r: seq<T>)
    ensures multiset(r) == multiset{x} + multiset(s)
    ensures |r| == |s| + 1
    ensures forall y :: y in r <==> y == x || y in s
  {
    if s == [] || le(x, s[0]) then [x] + s
    else
      var r := [s[0]] + Insert(x, s[1..], le);
      assert s == [s[0]] + s[1..];
      r
  }

  /** Insertion from the right end: equal keys keep their original order. */
  function StableSort<T(!new)>(s: seq<T>, le: (T, T) -> bool): (r: seq<T>)
    ensures multiset(r) == multiset(s)
    ensures |r| == |s|
    ensures forall y :: y in r <==> y in s
  {
    if s == [] then []
    else
      assert s == [s[0]] + s[1..];
      Insert(s[0], StableSort(s[1..], le), le)
  }

  lemma {:induction false} InsertSorted<T(!new)>(x: T, s: seq<T>, le: (T, T) -> bool)
    requires TotalPreorder(le) && SortedBy(s, le)
    ensures SortedBy(Insert(x, s, le), le)
  {
    if s != [] && !le(x, s[0]) {
      InsertSorted(x, s[1..], le);
      var rest := Insert(x, s[1..], le);
      forall y | y in rest ensures le(s[0], y) {
        if y != x {
          var k :| 0 <= k < |s[1..]| && s[1..][k] == y;
          assert s[k + 1] == y;
        }
      }
    }
  }

  lemma {:induction false} StableSortSorted<T(!new)>(s: seq<T>, le: (T, T) -> bool)
    requires TotalPreorder(le)
    ensures SortedBy(StableSort(s, le), le)
  {
    if s != [] {
      StableSortSorted(s[1..], le);
      InsertSorted(s[0], StableSort(s[1..], le), le);
    }
  }

  lemma {:induction false} InsertKeepsTies<T(!new)>(x: T, s: seq<T>, le: (T, T) -> bool, tie: T -> bool)
    requires TotalPreorder(le) && SortedBy(s, le)
    requires forall a, b :: tie(a) && tie(b) ==> le(a, b)
    ensures Filter(Insert(x, s, le), tie) == Filter([x] + s, tie)
  {
    if s != [] && !le(x, s[0]) {
      InsertKeepsTies(x, s[1..], le, tie);
      var tail := Insert(x, s[1..], le);
      assert Insert(x, s, le)[1..] == tail;
      assert ([x] + s[1..])[1..] == s[1..] && ([x] + s)[1..] == s;
      if tie(x) { assert !tie(s[0]); }
    }
  }

  /** Stability: the elements of one tie class come out in the order they went in. */
  lemma {:induction false} StableSortKeepsTies<T(!new)>(s: seq<T>, le: (T, T) -> bool, tie: T -> bool)
    requires TotalPreorder(le)
    requires forall a, b :: tie(a) && tie(b) ==> le(a, b)
    ensures Filter(StableSort(s, le), tie) == Filter(s, tie)
  {
    if s != [] {
      StableSortKeepsTies(s[1..], le, tie);
      StableSortSorted(s[1..], le);
      var t := StableSort(s[1..], le);
      InsertKeepsTies(s[0], t, le, tie);
      assert ([s[0]] + t)[1..] == t;
    }
  }

  /** A sequence already in order is left exactly as it is. */
  lemma {:induction false} StableSortOfSorted<T(!new)>(s: seq<T>, le: (T, T) -> bool)
    requires SortedBy(s, le)
    ensures StableSort(s, le) == s
  {
    if s != [] {
      StableSortOfSorted(s[1..], le);
      assert s == [s[0]] + s[1..];
      if |s| > 1 { assert le(s[0], s[1]); }
    }
  }

  lemma {:induction false} SameMultisetNoDuplicates<T(!new)>(a: seq<T>, b: seq<T>)
    requires NoDuplicates(a) && multiset(a) == multiset(b)
    ensures NoDuplicates(b)
  {
    forall i, j | 0 <= i < j < |b| ensures b[i] != b[j] {
      if b[i] == b[j] {
        assert b == b[..i] + [b[i]] + b[i + 1..j] + [b[j]] + b[j + 1..];
        assert multiset(b)[b[i]] >= 2;
        MultiplicityAtMostOne(a, b[i]);
      }
    }
  }

  lemma {:induction false} MultiplicityAtMostOne<T(!new)>(a: seq<T>, x: T)
    requires NoDuplicates(a)
    ensures multiset(a)[x] <= 1
  {
    if a != [] {
      assert a == [a[0]] + a[1..];
      MultiplicityAtMostOne(a[1..], x);
      if x == a[0] { assert x !in a[1..]; }
    }
  }

  /** Each element once, at its first occurrence: a pass with a seen-set. */
  function Distinct<T(==,!new)>(s: seq<T>): seq<T> {
    if s == [] then []
    else
      var front := s[..|s| - 1];
      if s[|s| - 1] in front then Distinct(front) else Distinct(front) + [s[|s| - 1]]
  }

  lemma {:induction false} DistinctMembers<T(!new)>(s: seq<T>)
    ensures NoDuplicates(Distinct(s))
    ensures forall x :: x in Distinct(s) <==> x in s
  {
    if s != [] {
      var front := s[..|s| - 1];
      DistinctMembers(front);
      assert s == front + [s[|s| - 1]];
    }
  }

  /** Whoever is listed earlier appeared earlier: before `Distinct(s)[j]` first occurs, `Distinct(s)[i]` already has. */
  lemma {:induction false} DistinctKeepsFirstOccurrences<T(!new)>(s: seq<T>, i: nat, j: nat)
    requires i < j < |Distinct(s)|
    ensures exists n :: 0 < n < |s| && s[n] == Distinct(s)[j] && s[n] !in s[..n] && Distinct(s)[i] in s[..n]
  {
    var front := s[..|s| - 1];
    if j < |Distinct(front)| {
      DistinctKeepsFirstOccurrences(front, i, j);
      var n :| 0 < n < |front| && front[n] == Distinct(front)[j] && front[n] !in front[..n] &&
        Distinct(front)[i] in front[..n];
      assert front[..n] == s[..n] && s[n] == front[n];
    } else {
      DistinctMembers(front);
      var n := |s| - 1;
      assert s[n] == Distinct(s)[j] && Distinct(s)[i] in front;
    }
  }
}
