/** Generic facts about sequences: element-wise mapping and sorted integer sequences. */
module Seqs {

  /** Applies `f` to every element of `s`, keeping positions. */
  function Map<A, B>(f: A -> B, s: seq<A>): seq<B>
  {
    seq(|s|, i requires 0 <= i < |s| => f(s[i]))
  }

  /** True when the integers of `a` never decrease from left to right. */
  predicate NonDecreasing(a: seq<int>)
  {
    forall i, j :: 0 <= i < j < |a| ==> a[i] <= a[j]
  }

  /** Mapping distributes over concatenation. */
  lemma MapConcat<A, B>(f: A -> B, a: seq<A>, b: seq<A>)
    ensures Map(f, a + b) == Map(f, a) + Map(f, b)
  {
  }

  /** Mapping two permutations of each other yields two permutations of each other. */
  lemma {:induction false} MapPermutation<A, B>(f: A -> B, s: seq<A>, t: seq<A>)
    requires multiset(s) == multiset(t)
    ensures multiset(Map(f, s)) == multiset(Map(f, t))
    decreases |s|
  {
    if s == [] {
      assert |t| == |multiset(t)| == 0;
      assert t == [];
    } else {
      var x := s[0];
      assert x in multiset(t);
      var j :| 0 <= j < |t| && t[j] == x;
      var rest := t[..j] + t[j+1..];
      assert t == t[..j] + [x] + t[j+1..];
      assert multiset(t) == multiset(rest) + multiset{x};
      assert s == [x] + s[1..];
      assert multiset(s) == multiset{x} + multiset(s[1..]);
      assert multiset(s[1..]) == multiset(s) - multiset{x};
      assert multiset(rest) == multiset(t) - multiset{x};
      MapPermutation(f, s[1..], rest);
      MapConcat(f, [x], s[1..]);
      MapConcat(f, t[..j] + [x], t[j+1..]);
      MapConcat(f, t[..j], [x]);
      MapConcat(f, t[..j], t[j+1..]);
      assert Map(f, [x]) == [f(x)];
    }
  }

  /** A non-decreasing sequence of integers is determined by its multiset of elements. */
  lemma {:induction false} SortedWithSameElementsAreEqual(a: seq<int>, b: seq<int>)
    requires NonDecreasing(a) && NonDecreasing(b)
    requires multiset(a) == multiset(b)
    ensures a == b
    decreases |a|
  {
    assert |a| == |multiset(a)| == |multiset(b)| == |b|;
    if a != [] {
      assert a[0] in multiset(b);
      var j :| 0 <= j < |b| && b[j] == a[0];
      assert b[0] <= a[0];
      assert b[0] in multiset(a);
      var k :| 0 <= k < |a| && a[k] == b[0];
      assert a[0] <= b[0];
      assert a == [a[0]] + a[1..];
      assert b == [b[0]] + b[1..];
      assert multiset(a) == multiset{a[0]} + multiset(a[1..]);
      assert multiset(b) == multiset{b[0]} + multiset(b[1..]);
      assert multiset(a[1..]) == multiset(a) - multiset{a[0]};
      assert multiset(b[1..]) == multiset(b) - multiset{b[0]};
      SortedWithSameElementsAreEqual(a[1..], b[1..]);
    }
  }
}
