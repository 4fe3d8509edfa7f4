/** The Job calculator: a single pod run to completion, its init phase included at the peak. */
module Job {
  import opened Quantity
  import opened Aggregate
  import opened Usage

  datatype JobSpec = JobSpec(template: PodSpec)

  datatype Job = Job(meta: ObjectMeta, spec: JobSpec)

  /** `job`: normal is the ordinary sum, rollout its maximum with the init sum; no replicas. */
  function JobUsage(j: Job): (r: ResourceUsage)
    ensures r.normalResources == Sum(j.spec.template.containers)
    ensures forall d :: Get(r.rolloutResources, d)
                        == MaxQuantity(Get(Sum(j.spec.template.containers), d), Get(Sum(j.spec.template.initContainers), d))
    ensures forall d :: Get(r.rolloutResources, d) >= Get(r.normalResources, d)
    ensures r.details == Details(j.meta.apiVersion, j.meta.kind, j.meta.name, "", 0, 0)
  {
    var podResources := PodResourcesOf(j.spec.template);
    ResourceUsage(podResources.containers, podResources.maxResources, MetaDetails(j.meta, "", 0, 0))
  }
}
