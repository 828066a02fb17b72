/** Ordering a batch by timestamp before it is sent (`sort.Slice` in
    `sendToCloudWatch`). `sort.Slice` is not stable: all it promises is that
    the result is ordered and is a permutation of the batch. The sort the
    dispatcher uses is therefore any function with those two properties
    (`TimestampSort`); the insertion sort below is one of them, and it keeps
    arrival order among ties, which `sort.Slice` need not do. */
module Sorting {

  import opened Records
  import opened Seqs

  /** Timestamps never decrease along `s`. */
  predicate SortedByTimestamp(s: seq<Record>)
  {
    forall i, j :: 0 <= i < j < |s| ==> s[i].timestampNs <= s[j].timestampNs
  }

  /** The nanosecond timestamps of `s`, position by position. */
  function Timestamps(s: seq<Record>): seq<int>
  {
    Map((r: Record) => r.timestampNs as int, s)
  }

  /** Places `r` into the sorted sequence `s`. */
  function Insert(r: Record, s: seq<Record>): (t: seq<Record>)
    requires SortedByTimestamp(s)
    ensures |t| == |s| + 1
    ensures SortedByTimestamp(t)
    ensures multiset(t) == multiset(s) + multiset{r}
    ensures t[0] == r || (|s| > 0 && t[0] == s[0])
  {
    if s == [] || r.timestampNs <= s[0].timestampNs then
      [r] + s
    else
      assert s == [s[0]] + s[1..];
      [s[0]] + Insert(r, s[1..])
  }

  /** A reference sort: the batch in non-decreasing timestamp order, with
      equal timestamps left in arrival order. */
  function SortByTimestamp(batch: seq<Record>): (sorted: seq<Record>)
    ensures |sorted| == |batch|
    ensures SortedByTimestamp(sorted)
    ensures multiset(sorted) == multiset(batch)
  {
    if batch == [] then
      []
    else
      assert batch == [batch[0]] + batch[1..];
      Insert(batch[0], SortByTimestamp(batch[1..]))
  }

  /** Every function that `sort.Slice` with the comparator
      `buffer[i].timestamp.Before(buffer[j].timestamp)` may stand for: it
      returns a timestamp-sorted permutation of its input, in any tie order. */
  type TimestampSort = sort: seq<Record> -> seq<Record> |
    forall batch {:trigger sort(batch)} :: SortedByTimestamp(sort(batch)) && multiset(sort(batch)) == multiset(batch)
    witness SortByTimestamp

  /** Whatever order an unstable sort picks among equal timestamps, the
      sequence of timestamps it produces is the same: two sorted permutations
      of one batch agree on the timestamp at every position. */
  lemma SortedPermutationsShareTimestamps(p: seq<Record>, q: seq<Record>)
    requires SortedByTimestamp(p) && SortedByTimestamp(q)
    requires multiset(p) == multiset(q)
    ensures |p| == |q|
    ensures forall i :: 0 <= i < |p| ==> p[i].timestampNs == q[i].timestampNs
  {
    assert |p| == |multiset(p)| == |multiset(q)| == |q|;
    MapPermutation((r: Record) => r.timestampNs as int, p, q);
    SortedWithSameElementsAreEqual(Timestamps(p), Timestamps(q));
    assert forall i :: 0 <= i < |p| ==> Timestamps(p)[i] == p[i].timestampNs;
    assert forall i :: 0 <= i < |q| ==> Timestamps(q)[i] == q[i].timestampNs;
  }

  /** With no two records sharing a timestamp there is nothing for an
      unstable sort to choose: the only sorted permutation is the batch in
      strictly increasing timestamp order. */
  lemma StrictlySortedPermutationIsUnique(p: seq<Record>, q: seq<Record>)
    requires SortedByTimestamp(p) && multiset(p) == multiset(q)
    requires forall i, j :: 0 <= i < j < |q| ==> q[i].timestampNs < q[j].timestampNs
    ensures p == q
  {
    SortedPermutationsShareTimestamps(p, q);
    forall i | 0 <= i < |p|
      ensures p[i] == q[i]
    {
      assert p[i] in multiset(q);
      var k :| 0 <= k < |q| && q[k] == p[i];
      assert q[k].timestampNs == q[i].timestampNs;
    }
  }
}
