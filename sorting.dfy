/**
 * Sorting the per-workload deltas in descending order and summing the
 * largest few: a reference definition on sequences, the in-place sort the
 * aggregator runs on its slices, and the facts that tie them together.
 */
module Sorting {

  ghost predicate SortedDesc(s: seq<int>) {
    forall i, j :: 0 <= i < j < |s| ==> s[i] >= s[j]
  }

  function Min(a: int, b: int): int {
    if a <= b then a else b
  }

  function SumInts(s: seq<int>): int {
    if s == [] then 0 else s[0] + SumInts(s[1..])
  }

  /** Inserting into a descending sequence, in front of the first element not larger. */
  function Insert(x: int, s: seq<int>): (r: seq<int>)
    ensures |r| == |s| + 1
    ensures multiset(r) == multiset(s) + multiset{x}
  {
    if s == [] || x >= s[0] then
      [x] + s
    else
      assert s == [s[0]] + s[1..];
      [s[0]] + Insert(x, s[1..])
  }

  /** The reference sort: insertion sort, descending. */
  function SortDesc(s: seq<int>): (r: seq<int>)
    ensures |r| == |s|
    ensures multiset(r) == multiset(s)
  {
    if s == [] then
      []
    else
      assert s == [s[0]] + s[1..];
      Insert(s[0], SortDesc(s[1..]))
  }

  /** The sum of the k largest elements (all of them when there are fewer than k). */
  function TopSum(s: seq<int>, k: nat): int {
    SumInts(SortDesc(s)[..Min(k, |s|)])
  }

  /** An element of a descending sequence is at most its head. */
  lemma HeadIsMax(s: seq<int>, y: int)
    requires SortedDesc(s) && y in multiset(s)
    ensures s != [] && y <= s[0]
  {
    var i :| 0 <= i < |s| && s[i] == y;
  }

  lemma MultisetRemoveAt(t: seq<int>, k: nat)
    requires k < |t|
    ensures multiset(t[..k] + t[k + 1..]) == multiset(t) - multiset{t[k]}
  {
    assert t == t[..k] + [t[k]] + t[k + 1..];
    assert multiset(t) == multiset(t[..k]) + multiset{t[k]} + multiset(t[k + 1..]);
  }

  lemma MultisetHeadTail(s: seq<int>)
    requires s != []
    ensures multiset(s) == multiset{s[0]} + multiset(s[1..])
  {
    assert s == [s[0]] + s[1..];
  }

  /** Prepending an element at least as large as all others keeps a sequence descending. */
  lemma PrependSorted(x: int, r: seq<int>)
    requires SortedDesc(r)
    requires forall e | e in multiset(r) :: x >= e
    ensures SortedDesc([x] + r)
  {
    var s := [x] + r;
    forall i, j | 0 <= i < j < |s| ensures s[i] >= s[j] {
      assert s[j] == r[j - 1];
      assert r[j - 1] in multiset(r);
      if i > 0 {
        assert s[i] == r[i - 1];
      }
    }
  }

  lemma {:induction false} InsertSorted(x: int, s: seq<int>)
    requires SortedDesc(s)
    ensures SortedDesc(Insert(x, s))
  {
    if s == [] || x >= s[0] {
      forall e | e in multiset(s) ensures x >= e {
        HeadIsMax(s, e);
      }
      PrependSorted(x, s);
    } else {
      var t := s[1..];
      assert SortedDesc(t);
      InsertSorted(x, t);
      MultisetHeadTail(s);
      forall e | e in multiset(Insert(x, t)) ensures s[0] >= e {
        if e != x {
          assert e in multiset(s);
          HeadIsMax(s, e);
        }
      }
      PrependSorted(s[0], Insert(x, t));
    }
  }

  lemma {:induction false} SortDescSorted(s: seq<int>)
    ensures SortedDesc(SortDesc(s))
  {
    if s != [] {
      SortDescSorted(s[1..]);
      InsertSorted(s[0], SortDesc(s[1..]));
    }
  }

  /** Dropping the head keeps a sequence descending. */
  lemma {:induction false} SortedTail(s: seq<int>)
    requires SortedDesc(s) && s != []
    ensures SortedDesc(s[1..])
  {
    forall i, j | 0 <= i < j < |s| - 1 ensures s[1..][i] >= s[1..][j] {
      assert s[1..][i] == s[i + 1] && s[1..][j] == s[j + 1];
    }
  }

  /** Two descending sequences with the same elements start with the same one, and the rests agree too. */
  lemma {:induction false} SortedHeadsEqual(a: seq<int>, b: seq<int>)
    requires SortedDesc(a) && SortedDesc(b) && a != []
    requires multiset(a) == multiset(b)
    ensures b != [] && a[0] == b[0]
    ensures multiset(a[1..]) == multiset(b[1..])
  {
    assert |b| == |multiset(b)| == |a|;
    assert a[0] in multiset(a) && b[0] in multiset(b);
    HeadIsMax(a, b[0]);
    HeadIsMax(b, a[0]);
    assert a[0] == b[0];
    MultisetHeadTail(a);
    MultisetHeadTail(b);
    assert multiset(a[1..]) == multiset(a) - multiset{a[0]};
  }

  /** A descending sequence is determined by its elements. */
  lemma {:induction false} SortedUnique(a: seq<int>, b: seq<int>)
    requires SortedDesc(a) && SortedDesc(b)
    requires multiset(a) == multiset(b)
    ensures a == b
  {
    if a == [] {
      assert |b| == |multiset(b)| == 0;
    } else {
      SortedHeadsEqual(a, b);
      SortedTail(a);
      SortedTail(b);
      SortedUnique(a[1..], b[1..]);
      assert a == [a[0]] + a[1..] && b == [b[0]] + b[1..];
    }
  }

  lemma {:induction false} SumIntsConcat(a: seq<int>, b: seq<int>)
    ensures SumInts(a + b) == SumInts(a) + SumInts(b)
  {
    if a == [] {
      assert a + b == b;
    } else {
      assert (a + b)[1..] == a[1..] + b;
      SumIntsConcat(a[1..], b);
    }
  }

  /** Taking one element out of a sequence takes exactly its value off the sum. */
  lemma {:induction false} SumIntsRemoveAt(s: seq<int>, k: nat)
    requires k < |s|
    ensures SumInts(s) == s[k] + SumInts(s[..k] + s[k + 1..])
  {
    assert s == s[..k] + ([s[k]] + s[k + 1..]);
    SumIntsConcat(s[..k], [s[k]] + s[k + 1..]);
    SumIntsConcat(s[..k], s[k + 1..]);
  }

  /** Extending a prefix by one element adds that element to its sum. */
  lemma {:induction false} SumIntsPrefixStep(s: seq<int>, i: nat)
    requires i < |s|
    ensures SumInts(s[..i + 1]) == SumInts(s[..i]) + s[i]
  {
    assert s[..i + 1] == s[..i] + [s[i]];
    SumIntsConcat(s[..i], [s[i]]);
  }

  /** The sum does not depend on the order of the elements. */
  lemma {:induction false} SumIntsPermutation(a: seq<int>, b: seq<int>)
    requires multiset(a) == multiset(b)
    ensures SumInts(a) == SumInts(b)
  {
    if a == [] {
      assert |b| == |multiset(b)| == 0;
    } else {
      assert a[0] in multiset(b);
      var k :| 0 <= k < |b| && b[k] == a[0];
      var b' := b[..k] + b[k + 1..];
      MultisetRemoveAt(b, k);
      MultisetHeadTail(a);
      assert multiset(a[1..]) == multiset(b');
      SumIntsPermutation(a[1..], b');
      SumIntsRemoveAt(b, k);
    }
  }

  /** Nothing is added when no rollout is allowed. */
  lemma TopSumZero(s: seq<int>)
    ensures TopSum(s, 0) == 0
  {
  }

  /** With room for every element, the top sum is the sum of all of them. */
  lemma TopSumAll(s: seq<int>, k: nat)
    requires k >= |s|
    ensures TopSum(s, k) == SumInts(s)
  {
    assert SortDesc(s)[..|s|] == SortDesc(s);
    SumIntsPermutation(SortDesc(s), s);
  }

  /** Elements drawn from a sequence that do not include its head are drawn from its tail. */
  lemma {:induction false} DrawnWithoutHead(srt: seq<int>, t: seq<int>)
    requires srt != [] && multiset(t) <= multiset(srt) && srt[0] !in multiset(t)
    ensures multiset(t) <= multiset(srt[1..])
  {
    MultisetHeadTail(srt);
    forall e ensures multiset(t)[e] <= multiset(srt[1..])[e] {
      if e != srt[0] {
        assert multiset(srt)[e] == multiset(srt[1..])[e];
      }
    }
  }

  /**
   * In a descending sequence, no m elements drawn from it sum to more than
   * its first m.
   */
  lemma {:induction false} PrefixIsLargest(srt: seq<int>, t: seq<int>)
    requires SortedDesc(srt)
    requires multiset(t) <= multiset(srt)
    requires |t| <= |srt|
    ensures SumInts(t) <= SumInts(srt[..|t|])
    decreases |t|, 1
  {
    if t != [] {
      if srt[0] in multiset(t) {
        PrefixIsLargestWithHead(srt, t);
      } else {
        PrefixIsLargestWithoutHead(srt, t);
      }
    }
  }

  /** The first n elements sum to the head plus the first n - 1 of the tail. */
  lemma {:induction false} SumIntsPrefixHead(srt: seq<int>, n: nat)
    requires 0 < n <= |srt|
    ensures SumInts(srt[..n]) == srt[0] + SumInts(srt[1..][..n - 1])
  {
    assert srt[..n][1..] == srt[1..][..n - 1];
  }

  /** Removing the sorted head from both sides keeps the drawn elements drawn from the tail. */
  lemma {:induction false} DrawnWithHead(srt: seq<int>, t: seq<int>, k: nat)
    requires srt != [] && k < |t| && t[k] == srt[0]
    requires multiset(t) <= multiset(srt)
    ensures multiset(t[..k] + t[k + 1..]) <= multiset(srt[1..])
  {
    MultisetRemoveAt(t, k);
    MultisetHeadTail(srt);
  }

  /** If the sorted head was not drawn, the first drawn element is at most it and the rest comes from the tail. */
  lemma {:induction false} FirstDrawnBelowHead(srt: seq<int>, t: seq<int>)
    requires SortedDesc(srt) && srt != [] && t != [] && srt[0] !in multiset(t)
    requires multiset(t) <= multiset(srt)
    ensures t[0] <= srt[0]
    ensures multiset(t[1..]) <= multiset(srt[1..])
  {
    assert t[0] in multiset(t);
    HeadIsMax(srt, t[0]);
    DrawnWithoutHead(srt, t);
    MultisetHeadTail(t);
  }

  /** The head of the sorted sequence was drawn: it pairs with itself and the rest is smaller. */
  lemma {:induction false} PrefixIsLargestWithHead(srt: seq<int>, t: seq<int>)
    requires SortedDesc(srt) && 0 < |t| <= |srt| && srt[0] in multiset(t)
    requires multiset(t) <= multiset(srt)
    ensures SumInts(t) <= SumInts(srt[..|t|])
    decreases |t|, 0
  {
    var k :| 0 <= k < |t| && t[k] == srt[0];
    var t' := t[..k] + t[k + 1..];
    SortedTail(srt);
    DrawnWithHead(srt, t, k);
    PrefixIsLargest(srt[1..], t');
    SumIntsRemoveAt(t, k);
    SumIntsPrefixHead(srt, |t|);
  }

  /** The head of the sorted sequence was not drawn: the first drawn element is at most that head. */
  lemma {:induction false} PrefixIsLargestWithoutHead(srt: seq<int>, t: seq<int>)
    requires SortedDesc(srt) && 0 < |t| <= |srt| && srt[0] !in multiset(t)
    requires multiset(t) <= multiset(srt)
    ensures SumInts(t) <= SumInts(srt[..|t|])
    decreases |t|, 0
  {
    SortedTail(srt);
    FirstDrawnBelowHead(srt, t);
    PrefixIsLargest(srt[1..], t[1..]);
    SumIntsPrefixHead(srt, |t|);
  }

  /** The top sum is at least the sum of any other choice of as many elements. */
  lemma TopSumIsLargest(s: seq<int>, k: nat, t: seq<int>)
    requires multiset(t) <= multiset(s)
    requires |t| == Min(k, |s|)
    ensures SumInts(t) <= TopSum(s, k)
  {
    SortDescSorted(s);
    PrefixIsLargest(SortDesc(s), t);
  }

  method Swap(a: array<int>, i: nat, j: nat)
    requires i < a.Length && j < a.Length
    modifies a
    ensures a[i] == old(a[j]) && a[j] == old(a[i])
    ensures forall m :: 0 <= m < a.Length && m != i && m != j ==> a[m] == old(a[m])
    ensures multiset(a[..]) == multiset(old(a[..]))
  {
    a[i], a[j] := a[j], a[i];
  }

  /** The in-place descending sort the aggregator applies to each slice of deltas. */
  method SortDescending(a: array<int>)
    modifies a
    ensures SortedDesc(a[..])
    ensures multiset(a[..]) == multiset(old(a[..]))
  {
    var i := 0;
    while i < a.Length
      invariant 0 <= i <= a.Length
      invariant forall p, q :: 0 <= p < q < i ==> a[p] >= a[q]
      invariant multiset(a[..]) == multiset(old(a[..]))
    {
      var j := i;
      while j > 0 && a[j - 1] < a[j]
        invariant 0 <= j <= i
        invariant forall p, q :: 0 <= p < q <= i && p != j && q != j ==> a[p] >= a[q]
        invariant forall q :: j < q <= i ==> a[j] >= a[q]
        invariant multiset(a[..]) == multiset(old(a[..]))
      {
        Swap(a, j - 1, j);
        j := j - 1;
      }
      i := i + 1;
    }
  }

  /** After the in-place sort the array holds the reference sort of what it held before. */
  lemma SortedIsReference(sorted: seq<int>, original: seq<int>)
    requires SortedDesc(sorted) && multiset(sorted) == multiset(original)
    ensures sorted == SortDesc(original)
  {
    SortDescSorted(original);
    SortedUnique(sorted, SortDesc(original));
  }
}
