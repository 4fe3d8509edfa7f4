/** The Pod calculator: the pod's own spec, as for a Job. */
module Pod {
  import opened Quantity
  import opened Aggregate
  import opened Usage

  datatype Pod = Pod(meta: ObjectMeta, spec: PodSpec)

  /** `pod`: normal is the ordinary sum, rollout its maximum with the init sum; no replicas. */
  function PodUsage(p: Pod): (r: ResourceUsage)
    ensures r.normalResources == Sum(p.spec.containers)
    ensures forall d :: Get(r.rolloutResources, d)
                        == MaxQuantity(Get(Sum(p.spec.containers), d), Get(Sum(p.spec.initContainers), d))
    ensures forall d :: Get(r.rolloutResources, d) >= Get(r.normalResources, d)
    ensures r.details == Details(p.meta.apiVersion, p.meta.kind, p.meta.name, "", 0, 0)
  {
    var podResources := PodResourcesOf(p.spec);
    ResourceUsage(podResources.containers, podResources.maxResources, MetaDetails(p.meta, "", 0, 0))
  }

  /** Init containers that need more in every dimension decide all four peak values. */
  lemma BigInitContainerDecides(p: Pod)
    requires forall d :: Get(Sum(p.spec.initContainers), d) > Get(Sum(p.spec.containers), d)
    ensures PodUsage(p).rolloutResources == Sum(p.spec.initContainers)
  {
    MaxResourcesOfLarger(Sum(p.spec.containers), Sum(p.spec.initContainers));
  }

  /** The maximum is taken per dimension, so the peak can mix init and ordinary values. */
  lemma PeakMixesDimensions(p: Pod)
    requires Get(Sum(p.spec.initContainers), CPUMax) > Get(Sum(p.spec.containers), CPUMax)
    requires Get(Sum(p.spec.initContainers), CPUMin) < Get(Sum(p.spec.containers), CPUMin)
    ensures PodUsage(p).rolloutResources.cpuMax == Sum(p.spec.initContainers).cpuMax
    ensures PodUsage(p).rolloutResources.cpuMin == Sum(p.spec.containers).cpuMin
  {
    var r := PodUsage(p).rolloutResources;
    assert Get(r, CPUMax) == Get(Sum(p.spec.initContainers), CPUMax);
    assert Get(r, CPUMin) == Get(Sum(p.spec.containers), CPUMin);
  }
}
