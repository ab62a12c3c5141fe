/** Newest-first ordering of fetched submissions: the comparator both
    dashboards pass to `Array.prototype.sort`, and a stable in-place sort
    that uses it. */
module Ordering {
  import opened Common
  import opened Store

  predicate IsDated(s: Submission) {
    s.doc.createdAt.Some?
  }

  /** The creation time, or 0 for an undated submission. */
  function Time(s: Submission): int {
    if s.doc.createdAt.Some? then s.doc.createdAt.value else 0
  }

  /** `(a, b) => dateA && dateB ? dateB.getTime() - dateA.getTime() : 0` */
  function Compare(a: Submission, b: Submission): (r: int)
    ensures !IsDated(a) || !IsDated(b) ==> r == 0
    ensures IsDated(a) && IsDated(b) ==> (r > 0 <==> Time(b) > Time(a))
    ensures IsDated(a) && IsDated(b) ==> (r == 0 <==> Time(b) == Time(a))
  {
    match (a.doc.createdAt, b.doc.createdAt)
    case (Some(ta), Some(tb)) => tb - ta
    case _ => 0
  }

  /** The comparator is antisymmetric, as `sort` expects of it. */
  lemma CompareAntisymmetric(a: Submission, b: Submission)
    ensures Compare(a, b) == -Compare(b, a)
  {
  }

  predicate AllDated(s: seq<Submission>) {
    forall i :: 0 <= i < |s| ==> IsDated(s[i])
  }

  /** Newest first: creation times never increase along the list. */
  predicate NewestFirst(s: seq<Submission>) {
    forall i, j :: 0 <= i < j < |s| ==> Time(s[i]) >= Time(s[j])
  }

  /** The first `n` elements are newest first. */
  ghost predicate SortedPrefix(a: array<Submission>, n: int)
    reads a
  {
    forall p, q :: 0 <= p < q < n && q < a.Length ==> Time(a[p]) >= Time(a[q])
  }

  ghost predicate Dated(a: array<Submission>)
    reads a
  {
    forall k :: 0 <= k < a.Length ==> IsDated(a[k])
  }

  /** `userSubmissions.sort(Compare)`, stable as `Array.prototype.sort` is:
      an insertion sort that moves each element left past every element it is
      strictly newer than. The order is only claimed when every submission
      is dated; with undated ones the comparator is not a consistent order. */
  method SortNewestFirst(a: array<Submission>)
    modifies a
    ensures multiset(a[..]) == multiset(old(a[..]))
    ensures AllDated(old(a[..])) ==> AllDated(a[..]) && NewestFirst(a[..])
  {
    ghost var dated := AllDated(a[..]);
    assert dated ==> Dated(a) by {
      if dated {
        forall k | 0 <= k < a.Length ensures IsDated(a[k]) { assert a[..][k] == a[k]; }
      }
    }
    for i := 0 to a.Length
      invariant multiset(a[..]) == multiset(old(a[..]))
      invariant dated ==> Dated(a) && SortedPrefix(a, i)
    {
      Insert(a, i, dated);
    }
    if dated {
      forall k | 0 <= k < a.Length ensures IsDated(a[..][k]) { assert a[..][k] == a[k]; }
      forall p, q | 0 <= p < q < a.Length ensures Time(a[..][p]) >= Time(a[..][q]) {
        assert a[..][p] == a[p] && a[..][q] == a[q];
      }
    }
  }

  /** One round of the insertion sort: moves `a[i]` left into the sorted
      prefix `a[..i]`. */
  method Insert(a: array<Submission>, i: int, ghost dated: bool)
    requires 0 <= i < a.Length
    requires dated ==> Dated(a) && SortedPrefix(a, i)
    modifies a
    ensures multiset(a[..]) == multiset(old(a[..]))
    ensures dated ==> Dated(a) && SortedPrefix(a, i + 1)
  {
    var j := i;
    while j > 0 && Compare(a[j - 1], a[j]) > 0
      invariant 0 <= j <= i
      invariant multiset(a[..]) == multiset(old(a[..]))
      invariant dated ==> Dated(a)
      invariant dated ==> forall p, q :: 0 <= p < q <= i && p != j && q != j ==> Time(a[p]) >= Time(a[q])
      invariant dated ==> forall q :: j < q <= i ==> Time(a[j]) > Time(a[q])
    {
      SwapDown(a, j);
      j := j - 1;
    }
    if dated && j > 0 {
      assert Time(a[j - 1]) >= Time(a[j]);
    }
  }

  /** Exchanges `a[j - 1]` and `a[j]`. */
  method SwapDown(a: array<Submission>, j: int)
    requires 0 < j < a.Length
    modifies a
    ensures a[j - 1] == old(a[j]) && a[j] == old(a[j - 1])
    ensures forall k :: 0 <= k < a.Length && k != j - 1 && k != j ==> a[k] == old(a[k])
    ensures multiset(a[..]) == multiset(old(a[..]))
  {
    a[j - 1], a[j] := a[j], a[j - 1];
  }

  /** The fetched documents mapped into a fresh array and sorted with
      `Compare`: the list both dashboards store. */
  method SortedCopy(s: seq<Submission>) returns (r: seq<Submission>)
    ensures multiset(r) == multiset(s)
    ensures AllDated(s) ==> AllDated(r) && NewestFirst(r)
  {
    var a := new Submission[|s|](i requires 0 <= i < |s| => s[i]);
    assert a[..] == s;
    SortNewestFirst(a);
    r := a[..];
  }
}
