/** The CronJob calculator: the pod of the job template, as for a Job. */
module CronJob {
  import opened Quantity
  import opened Aggregate
  import opened Usage
  import Job

  /** A CronJob's only pod spec is the one inside its job template. */
  datatype CronJob = CronJob(meta: ObjectMeta, jobTemplate: Job.JobSpec)

  /** `cronjob`: the job template's pod, no replicas, no strategy. */
  function CronJobUsage(c: CronJob): (r: ResourceUsage)
    ensures r.normalResources == Sum(c.jobTemplate.template.containers)
    ensures forall d :: Get(r.rolloutResources, d)
                        == MaxQuantity(Get(Sum(c.jobTemplate.template.containers), d),
                                       Get(Sum(c.jobTemplate.template.initContainers), d))
    ensures forall d :: Get(r.rolloutResources, d) >= Get(r.normalResources, d)
    ensures r.details == Details(c.meta.apiVersion, c.meta.kind, c.meta.name, "", 0, 0)
  {
    var podResources := PodResourcesOf(c.jobTemplate.template);
    ResourceUsage(podResources.containers, podResources.maxResources, MetaDetails(c.meta, "", 0, 0))
  }

  /** The figures are those of a Job with the same template. */
  lemma SameAsJob(c: CronJob)
    ensures CronJobUsage(c).normalResources == Job.JobUsage(Job.Job(c.meta, c.jobTemplate)).normalResources
    ensures CronJobUsage(c).rolloutResources == Job.JobUsage(Job.Job(c.meta, c.jobTemplate)).rolloutResources
  {
  }
}
