/**
 * Stable sorting as the dashboard pages use it: `Array.prototype.sort` with a
 * comparator, followed by slicing. A comparator is modelled by the relation
 * `le(a, b)` = "a may stay in front of b", i.e. the JavaScript comparator
 * returns a value <= 0 for (a, b). ECMAScript requires the sort to be stable,
 * so for a consistent comparator the result is exactly the stable insertion
 * sort `SortBy` below.
 */
module Sorting {

  import opened Seqs

  /** `le` is total and transitive: what a consistent comparator gives. */
  ghost predicate TotalPreorder<T(!new)>(le: (T, T) -> bool) {
    && (forall x, y :: le(x, y) || le(y, x))
    && (forall x, y, z :: le(x, y) && le(y, z) ==> le(x, z))
  }

  /** Every element may stay in front of every later one. */
  ghost predicate Sorted<T>(s: seq<T>, le: (T, T) -> bool) {
    forall i, j :: 0 <= i < j < |s| ==> le(s[i], s[j])
  }

  /**
   * Inserts `x`, which came after every element of `r` in the input, into the
   * sorted `r`: it moves left past every element that may not stay in front of it.
   */
  function Insert<T>(r: seq<T>, x: T, le: (T, T) -> bool): seq<T>
    decreases |r|
  {
    if r == [] then [x]
    else if le(r[|r| - 1], x) then r + [x]
    else Insert(r[..|r| - 1], x, le) + [r[|r| - 1]]
  }

  /** Stable insertion sort of `s` under `le`. */
  function SortBy<T>(s: seq<T>, le: (T, T) -> bool): seq<T>
    decreases |s|
  {
    if s == [] then [] else Insert(SortBy(s[..|s| - 1], le), s[|s| - 1], le)
  }

  lemma {:induction false} InsertPermutes<T>(r: seq<T>, x: T, le: (T, T) -> bool)
    ensures multiset(Insert(r, x, le)) == multiset(r) + multiset{x}
    ensures |Insert(r, x, le)| == |r| + 1
    decreases |r|
  {
    if r != [] && !le(r[|r| - 1], x) {
      var p := r[..|r| - 1];
      InsertPermutes(p, x, le);
      assert r == p + [r[|r| - 1]];
    }
  }

  /** Sorting neither adds nor loses elements. */
  lemma {:induction false} SortByPermutes<T>(s: seq<T>, le: (T, T) -> bool)
    ensures multiset(SortBy(s, le)) == multiset(s)
    ensures |SortBy(s, le)| == |s|
    decreases |s|
  {
    if s != [] {
      var p := s[..|s| - 1];
      SortByPermutes(p, le);
      InsertPermutes(SortBy(p, le), s[|s| - 1], le);
      assert s == p + [s[|s| - 1]];
    }
  }

  /** Everything `Insert` places comes from `r` or is `x`. */
  lemma InsertedFrom<T>(r: seq<T>, x: T, le: (T, T) -> bool, k: nat)
    requires k < |Insert(r, x, le)|
    ensures Insert(r, x, le)[k] == x || Insert(r, x, le)[k] in r
  {
    InsertPermutes(r, x, le);
    var q := Insert(r, x, le);
    assert q[k] in multiset(q);
  }

  lemma {:induction false} InsertSorted<T(!new)>(r: seq<T>, x: T, le: (T, T) -> bool)
    requires TotalPreorder(le) && Sorted(r, le)
    ensures Sorted(Insert(r, x, le), le)
    decreases |r|
  {
    if r != [] {
      var last := r[|r| - 1];
      if !le(last, x) {
        var p := r[..|r| - 1];
        InsertSorted(p, x, le);
        var q := Insert(p, x, le);
        forall k | 0 <= k < |q| ensures le(q[k], last) {
          InsertedFrom(p, x, le, k);
        }
      }
    }
  }

  /** With a consistent comparator, the result is in comparator order. */
  lemma {:induction false} SortBySorted<T(!new)>(s: seq<T>, le: (T, T) -> bool)
    requires TotalPreorder(le)
    ensures Sorted(SortBy(s, le), le)
    decreases |s|
  {
    if s != [] {
      SortBySorted(s[..|s| - 1], le);
      InsertSorted(SortBy(s[..|s| - 1], le), s[|s| - 1], le);
    }
  }

  /** A prefix of a sorted sequence is sorted, and it holds the greatest elements. */
  lemma TakeOfSorted<T>(s: seq<T>, n: nat, le: (T, T) -> bool)
    requires Sorted(s, le)
    ensures Sorted(Take(s, n), le)
    ensures forall i, j :: 0 <= i < |Take(s, n)| <= j < |s| ==> le(s[i], s[j])
  {
  }

  /**
   * `s.filter(p).sort(cmp).slice(0, n)`: the sorted list holds each element
   * satisfying `p` as often as `s` does and nothing else; its first `n`
   * elements are in order and may stay in front of every later one.
   */
  lemma FilterSortTake<T(!new)>(s: seq<T>, p: T -> bool, le: (T, T) -> bool, n: nat)
    requires TotalPreorder(le)
    ensures var sorted := SortBy(Filter(s, p), le);
      && (forall x :: multiset(sorted)[x] == if p(x) then multiset(s)[x] else 0)
      && (forall i :: 0 <= i < |sorted| ==> p(sorted[i]))
      && Sorted(Take(sorted, n), le)
      && (forall i, j :: 0 <= i < |Take(sorted, n)| <= j < |sorted| ==> le(sorted[i], sorted[j]))
  {
    var filtered := Filter(s, p);
    var sorted := SortBy(filtered, le);
    SortByPermutes(filtered, le);
    SortBySorted(filtered, le);
    TakeOfSorted(sorted, n, le);
    forall x ensures multiset(sorted)[x] == if p(x) then multiset(s)[x] else 0 {
      FilterCounts(s, p, x);
    }
    forall i | 0 <= i < |sorted| ensures p(sorted[i]) {
      assert sorted[i] in multiset(filtered);
    }
  }

  /** One step of `Insert`: moving left past an element that may not stay in front. */
  lemma InsertStep<T>(r: seq<T>, x: T, j: nat, le: (T, T) -> bool)
    requires 0 < j <= |r| && !le(r[j - 1], x)
    ensures Insert(r[..j], x, le) + r[j..] == Insert(r[..j - 1], x, le) + r[j - 1..]
  {
    assert r[..j][..j - 1] == r[..j - 1];
    assert r[j - 1..] == [r[j - 1]] + r[j..];
  }

  /** Swapping `x` with the element before it moves it one place left. */
  lemma ShiftStep<T>(s: seq<T>, r: seq<T>, x: T, rest: seq<T>, j: nat)
    requires 0 < j <= |r| && s == r[..j] + [x] + r[j..] + rest
    ensures s[j - 1 := x][j := s[j - 1]] == r[..j - 1] + [x] + r[j - 1..] + rest
  {
    assert r[j - 1..] == [r[j - 1]] + r[j..];
  }

  /** Where `Insert` stops, `x` sits between the two parts. */
  lemma InsertStop<T>(r: seq<T>, x: T, j: nat, le: (T, T) -> bool)
    requires j <= |r| && (j > 0 ==> le(r[j - 1], x))
    ensures Insert(r[..j], x, le) == r[..j] + [x]
  {
    if j > 0 {
      assert r[..j] != [];
    }
  }

  /** Moves `a[i]` left into the sorted prefix `a[..i]`, as one pass of insertion sort. */
  method InsertInPlace<T>(a: array<T>, i: nat, le: (T, T) -> bool)
    requires i < a.Length
    modifies a
    ensures a[..i + 1] == Insert(old(a[..i]), old(a[i]), le)
    ensures a[i + 1..] == old(a[i + 1..])
  {
    ghost var r := a[..i];
    ghost var rest := a[i + 1..];
    var x := a[i];
    var j := i;
    assert r[..j] == r && r[j..] == [];
    assert a[..] == r[..j] + [x] + r[j..] + rest;
    while j > 0 && !le(a[j - 1], x)
      invariant 0 <= j <= i
      invariant a[..] == r[..j] + [x] + r[j..] + rest
      invariant Insert(r, x, le) == Insert(r[..j], x, le) + r[j..]
    {
      InsertStep(r, x, j, le);
      ShiftStep(a[..], r, x, rest, j);
      a[j - 1], a[j] := x, a[j - 1];
      j := j - 1;
    }
    InsertStop(r, x, j, le);
  }

  /** In-place counterpart of `SortBy`, as `Array.prototype.sort` does it. */
  method SortInPlace<T>(a: array<T>, le: (T, T) -> bool)
    modifies a
    ensures a[..] == SortBy(old(a[..]), le)
  {
    ghost var input := a[..];
    var i := 0;
    while i < a.Length
      invariant 0 <= i <= a.Length
      invariant a[..i] == SortBy(input[..i], le)
      invariant a[i..] == input[i..]
    {
      assert input[..i + 1][..i] == input[..i];
      assert a[i] == input[i];
      InsertInPlace(a, i, le);
      i := i + 1;
    }
    assert input[..a.Length] == input;
  }

  /** `[...s].sort(cmp)`: sorts a fresh array holding `s` and reads it back. */
  method SortSeq<T>(s: seq<T>, le: (T, T) -> bool) returns (r: seq<T>)
    ensures r == SortBy(s, le)
  {
    var a := new T[|s|](i requires 0 <= i < |s| => s[i]);
    assert a[..] == s;
    SortInPlace(a, le);
    r := a[..];
  }
}
