/**
 * The kind dispatch: one decoded object goes to the calculator of its kind;
 * calculator errors are tagged with the decoded version and kind, and an
 * object of no supported kind is reported as not supported.
 */
module Dispatch {
  import opened Wrappers
  import opened Usage
  import Deployment
  import DeploymentConfig
  import StatefulSet
  import DaemonSet
  import Job
  import CronJob
  import Pod

  /** A decoded object, by kind; `Unsupported` is any other kind, or one the decoder does not know. */
  datatype Object =
    | DeploymentConfigObject(deploymentConfig: DeploymentConfig.DeploymentConfig)
    | DeploymentObject(deployment: Deployment.Deployment)
    | StatefulSetObject(statefulSet: StatefulSet.StatefulSet)
    | DaemonSetObject(daemonSet: DaemonSet.DaemonSet)
    | JobObject(job: Job.Job)
    | CronJobObject(cronJob: CronJob.CronJob)
    | PodObject(pod: Pod.Pod)
    | Unsupported

  /** A calculator's outcome, its error tagged with the version and kind. */
  function Tagged(version: string, kind: string, r: Result<ResourceUsage, CalcError>): (t: Result<ResourceUsage, CalculationError>)
    ensures r.Ok? <==> t.Ok?
    ensures r.Ok? ==> t.value == r.value
    ensures r.Err? ==> t.error.Unwrap() == r.error && t.error.version == version && t.error.kind == kind
  {
    match r
    case Ok(u) => Ok(u)
    case Err(e) => Err(CalculationError(version, kind, e))
  }

  /**
   * The type switch of `ResourceQuotaFromYaml`, after decoding: `version` and
   * `kind` are what the decoder reported for the document.
   */
  method ResourceQuota(version: string, kind: string, obj: Object) returns (r: Result<ResourceUsage, CalculationError>)
    ensures obj.DeploymentConfigObject? ==>
              r == Tagged(version, kind, DeploymentConfig.DeploymentConfigUsage(obj.deploymentConfig))
    ensures obj.DeploymentObject? ==> r == Tagged(version, kind, Deployment.DeploymentUsage(obj.deployment))
    ensures obj.StatefulSetObject? ==> r == Tagged(version, kind, StatefulSet.StatefulSetUsage(obj.statefulSet))
    ensures obj.DaemonSetObject? ==> r == Ok(DaemonSet.DaemonSetUsage(obj.daemonSet))
    ensures obj.JobObject? ==> r == Ok(Job.JobUsage(obj.job))
    ensures obj.CronJobObject? ==> r == Ok(CronJob.CronJobUsage(obj.cronJob))
    ensures obj.PodObject? ==> r == Ok(Pod.PodUsage(obj.pod))
    ensures obj.Unsupported? ==> r == Err(CalculationError(version, kind, ResourceNotSupported))
    ensures obj.Unsupported? <==> r.Err? && r.error.Unwrap() == ResourceNotSupported
    ensures r.Err? ==> r.error.version == version && r.error.kind == kind
  {
    match obj
    case DeploymentConfigObject(dc) =>
      var usage := DeploymentConfig.CalcDeploymentConfig(dc);
      if usage.Err? {
        return Err(CalculationError(version, kind, usage.error));
      }
      return Ok(usage.value);
    case DeploymentObject(d) =>
      var usage := Deployment.CalcDeployment(d);
      if usage.Err? {
        return Err(CalculationError(version, kind, usage.error));
      }
      return Ok(usage.value);
    case StatefulSetObject(s) =>
      var usage := StatefulSet.CalcStatefulSet(s);
      if usage.Err? {
        return Err(CalculationError(version, kind, usage.error));
      }
      return Ok(usage.value);
    case DaemonSetObject(ds) =>
      return Ok(DaemonSet.DaemonSetUsage(ds));
    case JobObject(j) =>
      return Ok(Job.JobUsage(j));
    case CronJobObject(c) =>
      return Ok(CronJob.CronJobUsage(c));
    case PodObject(p) =>
      return Ok(Pod.PodUsage(p));
    case Unsupported =>
      return Err(CalculationError(version, kind, ResourceNotSupported));
  }
}
