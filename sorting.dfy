/** The three orders sort.Slice is asked for on TV rows, and an in-place sort.
    sort.Slice is not stable, so all that is promised of a sort is that the
    result is ordered and a permutation of the input: the order among rows
    with equal keys is left open. */
module Sorting {
  import opened Text
  import opened TVRows

  datatype Order = ByName | BySeriesId | ByIndex

  /** The less-than each sort.Slice call is given. */
  predicate Less(o: Order, x: TVShowData, y: TVShowData)
  {
    match o
    case ByName => LexLess(x.name, y.name)
    case BySeriesId => LexLess(x.seriesID, y.seriesID)
    case ByIndex => x.sortIndex < y.sortIndex
  }

  /** No row is less than a row before it. */
  predicate Sorted(s: seq<TVShowData>, o: Order)
  {
    forall i, j :: 0 <= i < j < |s| ==> !Less(o, s[j], s[i])
  }

  predicate SortedPermutation(r: seq<TVShowData>, s: seq<TVShowData>, o: Order)
  {
    Sorted(r, o) && multiset(r) == multiset(s)
  }

  lemma LessAsymmetric(o: Order, x: TVShowData, y: TVShowData)
    ensures Less(o, x, y) ==> !Less(o, y, x)
  {
    LexLessAsymmetric(x.name, y.name);
    LexLessAsymmetric(x.seriesID, y.seriesID);
  }

  lemma NotLessTransitive(o: Order, x: TVShowData, y: TVShowData, z: TVShowData)
    ensures !Less(o, y, x) && !Less(o, z, y) ==> !Less(o, z, x)
  {
    LexNotLessTransitive(x.name, y.name, z.name);
    LexNotLessTransitive(x.seriesID, y.seriesID, z.seriesID);
  }

  /** A sorted permutation of one row is that row. */
  lemma SortedSingle(r: seq<TVShowData>, x: TVShowData, o: Order)
    requires SortedPermutation(r, [x], o)
    ensures r == [x]
  {
    assert |r| == |multiset(r)| == 1;
    assert r[0] in multiset(r);
  }

  /** Two rows with different keys have only one sorted order. */
  lemma SortedPair(r: seq<TVShowData>, x: TVShowData, y: TVShowData, o: Order)
    requires multiset(r) == multiset([x, y]) && Sorted(r, o) && Less(o, x, y)
    ensures r == [x, y]
  {
    LessAsymmetric(o, x, y);
    assert |r| == |multiset(r)| == 2;
    assert r[0] in multiset(r) && r[1] in multiset(r);
    assert x != y;
    assert !Less(o, r[1], r[0]);
    assert multiset([r[0], r[1]]) == multiset(r) by {
      assert r == [r[0], r[1]];
    }
  }

  /** sort.Slice: sorts the array in place, by insertion. */
  method SortRows(a: array<TVShowData>, o: Order)
    modifies a
    ensures Sorted(a[..], o)
    ensures multiset(a[..]) == multiset(old(a[..]))
  {
    if a.Length == 0 {
      return;
    }
    var i := 1;
    while i < a.Length
      invariant 1 <= i <= a.Length
      invariant Sorted(a[..i], o)
      invariant multiset(a[..]) == multiset(old(a[..]))
    {
      InsertAt(a, o, i);
      i := i + 1;
    }
    assert a[..i] == a[..];
  }

  /** Moves a[i] down into the sorted prefix a[..i], by adjacent swaps. */
  method InsertAt(a: array<TVShowData>, o: Order, i: nat)
    requires i < a.Length
    requires Sorted(a[..i], o)
    modifies a
    ensures Sorted(a[..i + 1], o)
    ensures multiset(a[..]) == multiset(old(a[..]))
  {
    var j := i;
    while j > 0 && Less(o, a[j], a[j - 1])
      invariant 0 <= j <= i
      invariant SortedExcept(a[..], o, i, j) && BelowFollowing(a[..], o, i, j)
      invariant multiset(a[..]) == multiset(old(a[..]))
    {
      SwapDown(a[..], o, i, j);
      Swap(a, j - 1, j);
      j := j - 1;
    }
    InsertDone(a[..], o, i, j);
  }

  /** a[..i + 1] is sorted once a[j] is left out. */
  predicate SortedExcept(s: seq<TVShowData>, o: Order, i: nat, j: nat)
    requires i < |s|
  {
    forall k, l :: 0 <= k < l <= i && k != j && l != j ==> !Less(o, s[l], s[k])
  }

  /** No row after a[j], up to a[i], is less than a[j]. */
  predicate BelowFollowing(s: seq<TVShowData>, o: Order, i: nat, j: nat)
    requires j <= i < |s|
  {
    forall l :: j < l <= i ==> !Less(o, s[l], s[j])
  }

  lemma SwapDown(s: seq<TVShowData>, o: Order, i: nat, j: nat)
    requires 0 < j <= i < |s|
    requires SortedExcept(s, o, i, j) && BelowFollowing(s, o, i, j) && Less(o, s[j], s[j - 1])
    ensures var t := s[j - 1 := s[j]][j := s[j - 1]];
            SortedExcept(t, o, i, j - 1) && BelowFollowing(t, o, i, j - 1)
  {
    LessAsymmetric(o, s[j], s[j - 1]);
  }

  lemma InsertDone(s: seq<TVShowData>, o: Order, i: nat, j: nat)
    requires j <= i < |s|
    requires SortedExcept(s, o, i, j) && BelowFollowing(s, o, i, j)
    requires j == 0 || !Less(o, s[j], s[j - 1])
    ensures Sorted(s[..i + 1], o)
  {
    forall k | 0 <= k < j
      ensures !Less(o, s[j], s[k])
    {
      NotLessTransitive(o, s[k], s[j - 1], s[j]);
    }
  }

  method Swap(a: array<TVShowData>, i: nat, j: nat)
    requires i < a.Length && j < a.Length
    modifies a
    ensures a[..] == old(a[..])[i := old(a[j])][j := old(a[i])]
    ensures multiset(a[..]) == multiset(old(a[..]))
  {
    a[i], a[j] := a[j], a[i];
  }

  /** A sorted copy of `s`: the slice is copied into an array and sorted there. */
  method SortedCopy(s: seq<TVShowData>, o: Order) returns (r: seq<TVShowData>)
    ensures SortedPermutation(r, s, o)
  {
    var a := new TVShowData[|s|](i requires 0 <= i < |s| => s[i]);
    assert a[..] == s;
    SortRows(a, o);
    r := a[..];
  }
}
