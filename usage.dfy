/**
 * What every per-kind calculator produces, the errors it can report, and
 * the rollout formula the replicated kinds share.
 */
module Usage {
  import opened Ints
  import opened Wrappers
  import opened Quantity
  import opened IntStr
  import opened Aggregate

  /** The object's own API version, kind and name, copied into the report. */
  datatype ObjectMeta = ObjectMeta(apiVersion: string, kind: string, name: string)

  datatype Details = Details(version: string, kind: string, name: string, strategy: string,
                             replicas: int32, maxReplicas: int32)

  /** Steady-state usage, peak usage during a rollout, and the descriptive details. */
  datatype ResourceUsage = ResourceUsage(normalResources: Resources, rolloutResources: Resources, details: Details)

  datatype Field = MaxUnavailableField | MaxSurgeField

  /** The errors a calculator or the kind dispatch reports. */
  datatype CalcError =
    | Scaling(cause: ScaleError)                       // the strategy value could not be scaled
    | OutOfInt32Bounds(field: Field)                   // the scaled value does not fit an int32
    | UnknownStrategy(calculator: string, name: string, strategyType: string)
    | ResourceNotSupported                             // the object is of no supported kind

  /** An error tagged with the version and kind of the object it concerns. */
  datatype CalculationError = CalculationError(version: string, kind: string, err: CalcError) {
    /** `CalculationError.Unwrap`: the wrapped cause. */
    function Unwrap(): CalcError {
      err
    }
  }

  function MetaDetails(meta: ObjectMeta, strategy: string, replicas: int32, maxReplicas: int32): Details {
    Details(meta.apiVersion, meta.kind, meta.name, strategy, replicas, maxReplicas)
  }

  /**
   * A strategy value scaled against `total` replicas and checked to fit an int32,
   * the step the StatefulSet, Deployment and DeploymentConfig calculators repeat.
   */
  function ScaleToInt32(v: IntOrPercent, total: int, roundUp: bool, field: Field): (r: Result<int32, CalcError>)
    ensures ScaledValue(v, total, roundUp).Err? ==> r == Err(Scaling(ScaledValue(v, total, roundUp).error))
    ensures ScaledValue(v, total, roundUp).Ok? ==>
              if InInt32(ScaledValue(v, total, roundUp).value)
              then r == Ok(ScaledValue(v, total, roundUp).value)
              else r == Err(OutOfInt32Bounds(field))
  {
    match ScaledValue(v, total, roundUp)
    case Err(e) => Err(Scaling(e))
    case Ok(x) => if x < MinInt32 || x > MaxInt32 then Err(OutOfInt32Bounds(field)) else Ok(x)
  }

  /**
   * Pods still running the ordinary containers weigh `Containers`; pods that may
   * be in their init phase weigh the pod's peak `MaxResources`.
   */
  function Rollout(pod: PodResources, ready: int32, nonReady: int32): Resources {
    Add(MulInt32(pod.containers, ready), MulInt32(pod.maxResources, nonReady))
  }

  /** The closing lines the replica-based calculators share: the pod's aggregate, then the rollout peak. */
  method CalcRollout(template: PodSpec, ready: int32, nonReady: int32) returns (r: Resources)
    ensures r == Rollout(PodResourcesOf(template), ready, nonReady)
  {
    var pod := CalcPodResources(template);
    r := Add(MulInt32(pod.containers, ready), MulInt32(pod.maxResources, nonReady));
  }

  /** When the peak is the ordinary sum, the rollout is just that sum times all counted pods. */
  lemma RolloutUniformPod(pod: PodResources, ready: int32, nonReady: int32)
    requires pod.maxResources == pod.containers
    requires InInt32(ready + nonReady)
    ensures Rollout(pod, ready, nonReady) == MulInt32(pod.containers, ready + nonReady)
  {
    MulInt32Distributes(pod.containers, ready, nonReady);
  }
}
