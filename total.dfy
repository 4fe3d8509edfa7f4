/**
 * The total over all workloads. Without a limit every workload is assumed to
 * roll out at once; with a limit of k, the steady-state figures are summed and,
 * in each dimension on its own, the k largest rollout-minus-normal deltas added.
 */
module Total {
  import opened Quantity
  import opened Usage
  import opened Sorting

  function SumRollout(usage: seq<ResourceUsage>): Resources {
    if usage == [] then Zero else Add(SumRollout(usage[..|usage| - 1]), usage[|usage| - 1].rolloutResources)
  }

  function SumNormal(usage: seq<ResourceUsage>): Resources {
    if usage == [] then Zero else Add(SumNormal(usage[..|usage| - 1]), usage[|usage| - 1].normalResources)
  }

  /** The per-workload deltas of one dimension, in list order. */
  function Deltas(usage: seq<ResourceUsage>, d: Dimension): (r: seq<int>)
    ensures |r| == |usage|
    ensures forall i :: 0 <= i < |usage| ==>
              r[i] == Get(usage[i].rolloutResources, d) - Get(usage[i].normalResources, d)
  {
    seq(|usage|, i requires 0 <= i < |usage| =>
      DiffQuantities(Get(usage[i].rolloutResources, d), Get(usage[i].normalResources, d)))
  }

  /** One dimension of the limited total. */
  function LimitedDim(maxRollout: nat, usage: seq<ResourceUsage>, d: Dimension): int {
    Get(SumNormal(usage), d) + TopSum(Deltas(usage, d), maxRollout)
  }

  /** The reference total: a negative limit means unlimited. */
  function TotalOf(maxRollout: int, usage: seq<ResourceUsage>): Resources
  {
    if maxRollout <= -1 then
      SumRollout(usage)
    else
      Resources(LimitedDim(maxRollout, usage, CPUMin), LimitedDim(maxRollout, usage, CPUMax),
                LimitedDim(maxRollout, usage, MemoryMin), LimitedDim(maxRollout, usage, MemoryMax))
  }

  /** Adds the first min(maxRollout, Length) entries of a slice to a running sum. */
  method AddFirst(acc: int, diffs: array<int>, maxRollout: int) returns (r: int)
    requires maxRollout >= 0
    ensures r == acc + SumInts(diffs[..Min(maxRollout, diffs.Length)])
  {
    r := acc;
    var i := 0;
    while i < diffs.Length && i < maxRollout
      invariant 0 <= i <= Min(maxRollout, diffs.Length)
      invariant r == acc + SumInts(diffs[..i])
    {
      SumIntsPrefixStep(diffs[..], i);
      assert diffs[..i + 1] == diffs[..][..i + 1] && diffs[..i] == diffs[..][..i];
      r := r + diffs[i];
      i := i + 1;
    }
  }

  /** Sorts one slice of deltas and adds its largest maxRollout entries to a running sum. */
  method AddTopDeltas(acc: int, diffs: array<int>, maxRollout: int, ghost deltas: seq<int>) returns (r: int)
    requires maxRollout >= 0
    requires diffs[..] == deltas
    modifies diffs
    ensures diffs[..] == SortDesc(deltas)
    ensures r == acc + TopSum(deltas, maxRollout)
  {
    SortDescending(diffs);
    SortedIsReference(diffs[..], deltas);
    r := AddFirst(acc, diffs, maxRollout);
  }

  /** The loop over the list that sums every rollout figure. */
  method SumRolloutLoop(usage: seq<ResourceUsage>) returns (r: Resources)
    ensures r == SumRollout(usage)
  {
    var cpuMinUsage, cpuMaxUsage, memoryMinUsage, memoryMaxUsage := 0, 0, 0, 0;
    for i := 0 to |usage|
      invariant Resources(cpuMinUsage, cpuMaxUsage, memoryMinUsage, memoryMaxUsage) == SumRollout(usage[..i])
    {
      assert usage[..i + 1][..i] == usage[..i];
      var u := usage[i];
      cpuMinUsage := cpuMinUsage + u.rolloutResources.cpuMin;
      cpuMaxUsage := cpuMaxUsage + u.rolloutResources.cpuMax;
      memoryMinUsage := memoryMinUsage + u.rolloutResources.memoryMin;
      memoryMaxUsage := memoryMaxUsage + u.rolloutResources.memoryMax;
    }
    assert usage[..|usage|] == usage;
    r := Resources(cpuMinUsage, cpuMaxUsage, memoryMinUsage, memoryMaxUsage);
  }

  /** The loop over the list that sums every steady-state figure. */
  method SumNormalLoop(usage: seq<ResourceUsage>) returns (r: Resources)
    ensures r == SumNormal(usage)
  {
    var cpuMinUsage, cpuMaxUsage, memoryMinUsage, memoryMaxUsage := 0, 0, 0, 0;
    for i := 0 to |usage|
      invariant Resources(cpuMinUsage, cpuMaxUsage, memoryMinUsage, memoryMaxUsage) == SumNormal(usage[..i])
    {
      assert usage[..i + 1][..i] == usage[..i];
      var u := usage[i];
      cpuMinUsage := cpuMinUsage + u.normalResources.cpuMin;
      cpuMaxUsage := cpuMaxUsage + u.normalResources.cpuMax;
      memoryMinUsage := memoryMinUsage + u.normalResources.memoryMin;
      memoryMaxUsage := memoryMaxUsage + u.normalResources.memoryMax;
    }
    assert usage[..|usage|] == usage;
    r := Resources(cpuMinUsage, cpuMaxUsage, memoryMinUsage, memoryMaxUsage);
  }

  /** The slice of one dimension's deltas, appended workload by workload. */
  method CollectDeltas(usage: seq<ResourceUsage>, d: Dimension) returns (diffs: array<int>)
    ensures fresh(diffs)
    ensures diffs[..] == Deltas(usage, d)
  {
    diffs := new int[|usage|];
    for i := 0 to |usage|
      invariant forall j :: 0 <= j < i ==> diffs[j] == Deltas(usage, d)[j]
    {
      var u := usage[i];
      diffs[i] := DiffQuantities(Get(u.rolloutResources, d), Get(u.normalResources, d));
    }
  }

  /** `Total`: the unlimited sum, or the normal sum plus the top deltas of each dimension. */
  method CalcTotal(maxRollout: int, usage: seq<ResourceUsage>) returns (r: Resources)
    ensures r == TotalOf(maxRollout, usage)
  {
    if maxRollout <= -1 {
      r := SumRolloutLoop(usage);
    } else {
      var normal := SumNormalLoop(usage);

      var cpuMinDiffs := CollectDeltas(usage, CPUMin);
      var cpuMinUsage := AddTopDeltas(normal.cpuMin, cpuMinDiffs, maxRollout, Deltas(usage, CPUMin));
      var cpuMaxDiffs := CollectDeltas(usage, CPUMax);
      var cpuMaxUsage := AddTopDeltas(normal.cpuMax, cpuMaxDiffs, maxRollout, Deltas(usage, CPUMax));
      var memoryMinDiffs := CollectDeltas(usage, MemoryMin);
      var memoryMinUsage := AddTopDeltas(normal.memoryMin, memoryMinDiffs, maxRollout, Deltas(usage, MemoryMin));
      var memoryMaxDiffs := CollectDeltas(usage, MemoryMax);
      var memoryMaxUsage := AddTopDeltas(normal.memoryMax, memoryMaxDiffs, maxRollout, Deltas(usage, MemoryMax));

      r := Resources(cpuMinUsage, cpuMaxUsage, memoryMinUsage, memoryMaxUsage);
    }
  }

  /** Unlimited: the total is the sum of every rollout figure; an empty list needs nothing. */
  lemma UnlimitedIsRolloutSum(maxRollout: int, usage: seq<ResourceUsage>)
    requires maxRollout <= -1
    ensures TotalOf(maxRollout, usage) == SumRollout(usage)
    ensures usage == [] ==> TotalOf(maxRollout, usage) == Zero
  {
  }

  /** A limit of zero: only the steady-state figures count. */
  lemma {:induction false} ZeroLimitIsNormalSum(usage: seq<ResourceUsage>)
    ensures TotalOf(0, usage) == SumNormal(usage)
  {
    TopSumZero(Deltas(usage, CPUMin));
    TopSumZero(Deltas(usage, CPUMax));
    TopSumZero(Deltas(usage, MemoryMin));
    TopSumZero(Deltas(usage, MemoryMax));
  }

  /** Summed over the list, the deltas of a dimension are rollout sum minus normal sum. */
  lemma {:induction false} DeltasSum(usage: seq<ResourceUsage>, d: Dimension)
    ensures SumInts(Deltas(usage, d)) == Get(SumRollout(usage), d) - Get(SumNormal(usage), d)
  {
    if usage != [] {
      var n := |usage| - 1;
      var front := usage[..n];
      assert Deltas(usage, d) == Deltas(front, d) + [Deltas(usage, d)[n]];
      SumIntsConcat(Deltas(front, d), [Deltas(usage, d)[n]]);
      DeltasSum(front, d);
    }
  }

  /** A limit that covers every workload gives the unlimited total. */
  lemma LimitCoveringAllIsRolloutSum(maxRollout: nat, usage: seq<ResourceUsage>)
    requires maxRollout >= |usage|
    ensures TotalOf(maxRollout, usage) == SumRollout(usage)
  {
    forall d ensures LimitedDim(maxRollout, usage, d) == Get(SumRollout(usage), d) {
      TopSumAll(Deltas(usage, d), maxRollout);
      DeltasSum(usage, d);
    }
    assert LimitedDim(maxRollout, usage, CPUMin) == Get(SumRollout(usage), CPUMin);
    assert LimitedDim(maxRollout, usage, CPUMax) == Get(SumRollout(usage), CPUMax);
    assert LimitedDim(maxRollout, usage, MemoryMin) == Get(SumRollout(usage), MemoryMin);
    assert LimitedDim(maxRollout, usage, MemoryMax) == Get(SumRollout(usage), MemoryMax);
  }

  /**
   * With a limit of k, each dimension adds at least as much as any other
   * choice of min(k, n) workloads' deltas would.
   */
  lemma LimitedAddsLargestDeltas(maxRollout: nat, usage: seq<ResourceUsage>, d: Dimension, chosen: seq<int>)
    requires multiset(chosen) <= multiset(Deltas(usage, d))
    requires |chosen| == Min(maxRollout, |usage|)
    ensures Get(TotalOf(maxRollout, usage), d) >= Get(SumNormal(usage), d) + SumInts(chosen)
  {
    TopSumIsLargest(Deltas(usage, d), maxRollout, chosen);
  }

  /**
   * Two workloads, one rollout allowed: CPU requests take the larger delta
   * (B's 500m over A's 100m), while memory limits, where A's delta is larger,
   * take A's: each dimension chooses on its own.
   */
  lemma TwoWorkloadsOneRollout(a: ResourceUsage, b: ResourceUsage)
    requires Get(a.rolloutResources, CPUMin) - Get(a.normalResources, CPUMin) == 100
    requires Get(b.rolloutResources, CPUMin) - Get(b.normalResources, CPUMin) == 500
    requires Get(a.rolloutResources, MemoryMax) - Get(a.normalResources, MemoryMax)
             > Get(b.rolloutResources, MemoryMax) - Get(b.normalResources, MemoryMax)
    ensures TotalOf(1, [a, b]).cpuMin == SumNormal([a, b]).cpuMin + 500
    ensures TotalOf(1, [a, b]).memoryMax
            == SumNormal([a, b]).memoryMax + (a.rolloutResources.memoryMax - a.normalResources.memoryMax)
  {
    TopOfTwo(Deltas([a, b], CPUMin));
    TopOfTwo(Deltas([a, b], MemoryMax));
  }

  /** With two deltas and one rollout, the larger delta is the one added. */
  lemma TopOfTwo(s: seq<int>)
    requires |s| == 2
    ensures TopSum(s, 1) == MaxQuantity(s[0], s[1])
  {
    assert s[1..][1..] == [];
    assert SortDesc(s[1..]) == [s[1]];
    assert SortDesc(s) == Insert(s[0], [s[1]]);
    var top := if s[0] >= s[1] then s[0] else s[1];
    assert SortDesc(s)[0] == top;
    assert SortDesc(s)[..1] == [top];
    assert SumInts([top]) == top + SumInts([]);
  }
}
