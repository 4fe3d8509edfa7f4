/** The DaemonSet calculator: one pod, counted once, replaced with its init phase at the peak. */
module DaemonSet {
  import opened Quantity
  import opened Aggregate
  import opened Usage

  datatype DaemonSet = DaemonSet(meta: ObjectMeta, template: PodSpec)

  /** `daemonSet`: normal is the ordinary sum, rollout its maximum with the init sum; one replica. */
  function DaemonSetUsage(ds: DaemonSet): (r: ResourceUsage)
    ensures r.normalResources == Sum(ds.template.containers)
    ensures forall d :: Get(r.rolloutResources, d)
                        == MaxQuantity(Get(Sum(ds.template.containers), d), Get(Sum(ds.template.initContainers), d))
    ensures forall d :: Get(r.rolloutResources, d) >= Get(r.normalResources, d)
    ensures r.details == Details(ds.meta.apiVersion, ds.meta.kind, ds.meta.name, "", 1, 1)
  {
    var podResources := PodResourcesOf(ds.template);
    ResourceUsage(podResources.containers, podResources.maxResources, MetaDetails(ds.meta, "", 1, 1))
  }
}
