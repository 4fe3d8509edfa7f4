/**
 * The pod resource aggregator: the per-dimension sums over a pod template's
 * ordinary containers and, separately, its init containers, and their
 * per-dimension maximum (init containers run to completion before the
 * ordinary ones start, so the larger group is the pod's peak).
 */
module Aggregate {
  import opened Wrappers
  import opened Quantity

  /** A resource list; an absent entry is read as a zero quantity. */
  datatype ResourceList = ResourceList(cpu: Option<int>, memory: Option<int>)

  datatype ResourceRequirements = ResourceRequirements(requests: ResourceList, limits: ResourceList)

  datatype Container = Container(name: string, resources: ResourceRequirements)

  datatype PodSpec = PodSpec(initContainers: seq<Container>, containers: seq<Container>)

  datatype PodResources = PodResources(containers: Resources, initContainers: Resources, maxResources: Resources)

  function OrZero(q: Option<int>): int {
    if q.Some? then q.value else 0
  }

  /** `ConvertToResources`: requests give the Min fields, limits the Max fields. */
  function ConvertToResources(req: ResourceRequirements): (r: Resources)
    ensures r.cpuMin == OrZero(req.requests.cpu) && r.memoryMin == OrZero(req.requests.memory)
    ensures r.cpuMax == OrZero(req.limits.cpu) && r.memoryMax == OrZero(req.limits.memory)
  {
    Resources(OrZero(req.requests.cpu), OrZero(req.limits.cpu),
              OrZero(req.requests.memory), OrZero(req.limits.memory))
  }

  /** The sum of the containers' resources. */
  function Sum(cs: seq<Container>): Resources
  {
    if cs == [] then Zero else Add(ConvertToResources(cs[0].resources), Sum(cs[1..]))
  }

  /** The aggregate the calculators read: both sums and their per-dimension maximum. */
  function PodResourcesOf(spec: PodSpec): PodResources
  {
    var c := Sum(spec.containers);
    var i := Sum(spec.initContainers);
    PodResources(c, i, MaxResources(c, i))
  }

  /** One of `calcPodResources`'s two accumulation loops: each container's resources added in list order. */
  method AccumulateResources(cs: seq<Container>) returns (total: Resources)
    ensures total == Sum(cs)
  {
    total := Zero;
    for i := 0 to |cs|
      invariant total == Sum(cs[..i])
    {
      var c := cs[i];
      assert cs[..i + 1] == cs[..i] + [c];
      SumAppend(cs[..i], c);
      total := Add(total, ConvertToResources(c.resources));
    }
    assert cs[..|cs|] == cs;
  }

  /** `calcPodResources`: the ordinary and the init containers accumulated separately, then the maxima. */
  method CalcPodResources(spec: PodSpec) returns (r: PodResources)
    ensures r.containers == Sum(spec.containers)
    ensures r.initContainers == Sum(spec.initContainers)
    ensures forall d :: Get(r.maxResources, d) == MaxQuantity(Get(r.containers, d), Get(r.initContainers, d))
    ensures r == PodResourcesOf(spec)
  {
    var containers := AccumulateResources(spec.containers);
    var initContainers := AccumulateResources(spec.initContainers);
    var maxResources := Resources(
      MaxQuantity(containers.cpuMin, initContainers.cpuMin),
      MaxQuantity(containers.cpuMax, initContainers.cpuMax),
      MaxQuantity(containers.memoryMin, initContainers.memoryMin),
      MaxQuantity(containers.memoryMax, initContainers.memoryMax));
    r := PodResources(containers, initContainers, maxResources);
  }

  /** Summing a concatenation sums the parts. */
  lemma {:induction false} SumConcat(a: seq<Container>, b: seq<Container>)
    ensures Sum(a + b) == Add(Sum(a), Sum(b))
  {
    if a == [] {
      assert a + b == b;
      AddZero(Sum(b));
    } else {
      assert (a + b)[0] == a[0];
      assert (a + b)[1..] == a[1..] + b;
      SumConcat(a[1..], b);
      AddAssociative(ConvertToResources(a[0].resources), Sum(a[1..]), Sum(b));
    }
  }

  lemma SumSingleton(c: Container)
    ensures Sum([c]) == ConvertToResources(c.resources)
  {
    assert [c][1..] == [];
    AddZero(ConvertToResources(c.resources));
  }

  /** Appending one container adds its resources to the running total, as each loop step does. */
  lemma SumAppend(cs: seq<Container>, c: Container)
    ensures Sum(cs + [c]) == Add(Sum(cs), ConvertToResources(c.resources))
  {
    SumConcat(cs, [c]);
    SumSingleton(c);
  }

  /** Removing one container from the list takes exactly its resources off the sum. */
  lemma {:induction false} SumRemoveAt(cs: seq<Container>, k: nat)
    requires k < |cs|
    ensures Sum(cs) == Add(Sum(cs[..k] + cs[k + 1..]), ConvertToResources(cs[k].resources))
  {
    var p, x, q := cs[..k], cs[k], cs[k + 1..];
    assert cs == (p + [x]) + q;
    SumConcat(p + [x], q);
    SumConcat(p, [x]);
    SumSingleton(x);
    SumConcat(p, q);
    AddRearrange(Sum(p), ConvertToResources(x.resources), Sum(q));
  }

  lemma AddRearrange(a: Resources, b: Resources, c: Resources)
    ensures Add(Add(a, b), c) == Add(Add(a, c), b)
  {
  }

  /** The sums do not depend on the order in which the containers are listed. */
  lemma {:induction false} SumOrderIndependent(a: seq<Container>, b: seq<Container>)
    requires multiset(a) == multiset(b)
    ensures Sum(a) == Sum(b)
  {
    if a != [] {
      var x := a[0];
      var a' := a[1..];
      assert a == [x] + a';
      assert x in multiset(b);
      var k :| 0 <= k < |b| && b[k] == x;
      var b' := b[..k] + b[k + 1..];
      assert b == b[..k] + [x] + b[k + 1..];
      assert multiset(b') == multiset(b) - multiset{x};
      assert multiset(a') == multiset(a) - multiset{x};
      SumOrderIndependent(a', b');
      SumRemoveAt(b, k);
      AddCommutative(ConvertToResources(x.resources), Sum(a'));
    } else {
      assert b == [];
    }
  }

  /** An empty pod requires nothing. */
  lemma EmptyPodIsZero(spec: PodSpec)
    requires spec.containers == [] && spec.initContainers == []
    ensures PodResourcesOf(spec) == PodResources(Zero, Zero, Zero)
  {
  }

  predicate NonNegativeContainers(cs: seq<Container>) {
    forall i :: 0 <= i < |cs| ==> NonNegative(ConvertToResources(cs[i].resources))
  }

  lemma {:induction false} SumNonNegative(cs: seq<Container>)
    requires NonNegativeContainers(cs)
    ensures NonNegative(Sum(cs))
  {
    if cs != [] {
      var tail := cs[1..];
      assert NonNegativeContainers(tail) by {
        forall i | 0 <= i < |tail| ensures NonNegative(ConvertToResources(tail[i].resources)) {
          assert tail[i] == cs[i + 1];
        }
      }
      SumNonNegative(tail);
      assert NonNegative(ConvertToResources(cs[0].resources));
    }
  }

  /** Without init containers, and with no negative declaration, the peak is the ordinary sum. */
  lemma NoInitContainersMaxIsContainers(spec: PodSpec)
    requires spec.initContainers == []
    requires NonNegativeContainers(spec.containers)
    ensures PodResourcesOf(spec).maxResources == PodResourcesOf(spec).containers
  {
    SumNonNegative(spec.containers);
    var c := Sum(spec.containers);
    assert Get(c, CPUMin) >= 0 && Get(c, CPUMax) >= 0 && Get(c, MemoryMin) >= 0 && Get(c, MemoryMax) >= 0;
  }

  /** The peak is at least the ordinary sum in every dimension. */
  lemma MaxCoversContainers(spec: PodSpec, d: Dimension)
    ensures Get(PodResourcesOf(spec).maxResources, d) >= Get(PodResourcesOf(spec).containers, d)
    ensures Get(PodResourcesOf(spec).maxResources, d) >= Get(PodResourcesOf(spec).initContainers, d)
  {
  }
}
