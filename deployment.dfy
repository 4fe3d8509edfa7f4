/**
 * The Deployment calculator: the replica count and the strategy's
 * maxUnavailable/maxSurge decide how many pods run ordinary containers and
 * how many may be in their init phase at the peak of a rollout.
 */
module Deployment {
  import opened Ints
  import opened Wrappers
  import opened Quantity
  import opened IntStr
  import opened Aggregate
  import opened Usage

  const Recreate: string := "Recreate"
  const RollingUpdate: string := "RollingUpdate"

  datatype RollingUpdateDeployment = RollingUpdateDeployment(maxUnavailable: IntOrPercent, maxSurge: IntOrPercent)

  datatype DeploymentStrategy = DeploymentStrategy(strategyType: string, rollingUpdate: Option<RollingUpdateDeployment>)

  datatype Deployment = Deployment(meta: ObjectMeta, replicas: int32, strategy: DeploymentStrategy, template: PodSpec)

  /** The documented defaults: 25% may be unavailable and 25% may surge. */
  const Defaults: RollingUpdateDeployment := RollingUpdateDeployment(Percent(25), Percent(25))

  /** What a strategy allows during a rollout, and the strategy name reported. */
  datatype Bounds = Bounds(maxUnavailable: int32, maxSurge: int32, strategy: string)

  /** The values the rolling branch reads: the defaults for an empty type or an absent block. */
  function RollingValues(s: DeploymentStrategy): RollingUpdateDeployment {
    if s.strategyType == "" || s.rollingUpdate.None? then Defaults else s.rollingUpdate.value
  }

  /**
   * The strategy switch: Recreate takes every pod down and adds none; an empty
   * type is the RollingUpdate default; RollingUpdate scales maxUnavailable
   * rounding down and maxSurge rounding up; any other type is an error.
   */
  function StrategyBounds(s: DeploymentStrategy, replicas: int32, name: string): Result<Bounds, CalcError>
  {
    if s.strategyType == Recreate then
      Ok(Bounds(replicas, 0, Recreate))
    else if s.strategyType == "" || s.strategyType == RollingUpdate then
      var values := RollingValues(s);
      var u :- ScaleToInt32(values.maxUnavailable, replicas, false, MaxUnavailableField);
      var x :- ScaleToInt32(values.maxSurge, replicas, true, MaxSurgeField);
      Ok(Bounds(u, x, RollingUpdate))
    else
      Err(UnknownStrategy("deployment", name, s.strategyType))
  }

  /**
   * The report once the strategy switch has produced `b`, for a template whose
   * aggregate is `pod`. The single figure the calculator computes is the
   * rollout peak; no steady-state figure is computed, so that field is zero.
   */
  function SwitchedUsage(pod: PodResources, meta: ObjectMeta, replicas: int32, b: Bounds): ResourceUsage {
    ResourceUsage(
      Zero,
      Rollout(pod, Wrap32(replicas - b.maxUnavailable), Wrap32(b.maxSurge + b.maxUnavailable)),
      MetaDetails(meta, b.strategy, replicas, Wrap32(replicas + b.maxSurge)))
  }

  /** The usage of a Deployment: nothing for zero replicas, else the switch and the report built on it. */
  function DeploymentUsage(d: Deployment): (r: Result<ResourceUsage, CalcError>)
    ensures r.Ok? ==> r.value.normalResources == Zero
    ensures r.Ok? ==> r.value.details.replicas == d.replicas
    ensures r.Ok? ==> (r.value.details.version, r.value.details.kind, r.value.details.name)
                      == (d.meta.apiVersion, d.meta.kind, d.meta.name)
    ensures r.Err? ==> d.replicas != 0 && StrategyBounds(d.strategy, d.replicas, d.meta.name).Err?
  {
    if d.replicas == 0 then
      Ok(ResourceUsage(Zero, Zero, MetaDetails(d.meta, d.strategy.strategyType, 0, 0)))
    else
      match StrategyBounds(d.strategy, d.replicas, d.meta.name)
      case Err(e) => Err(e)
      case Ok(b) => Ok(SwitchedUsage(PodResourcesOf(d.template), d.meta, d.replicas, b))
  }

  /** The strategy switch of `deployment`, with its early error returns; the empty type is rewritten first. */
  method RolloutBounds(strategy: DeploymentStrategy, replicas: int32, name: string) returns (r: Result<Bounds, CalcError>)
    ensures r == StrategyBounds(strategy, replicas, name)
  {
    var maxUnavailable: int32 := 0;
    var maxSurge: int32 := 0;
    var strategy := strategy;
    if strategy.strategyType == Recreate {
      maxUnavailable := replicas;
      maxSurge := 0;
    } else if strategy.strategyType == "" || strategy.strategyType == RollingUpdate {
      if strategy.strategyType == "" {
        strategy := DeploymentStrategy(RollingUpdate, Some(Defaults));
      }
      var maxUnavailableValue, maxSurgeValue;
      if strategy.rollingUpdate.None? {
        maxUnavailableValue, maxSurgeValue := Percent(25), Percent(25);
      } else {
        maxUnavailableValue := strategy.rollingUpdate.value.maxUnavailable;
        maxSurgeValue := strategy.rollingUpdate.value.maxSurge;
      }

      var maxUnavailableInt := ScaledValue(maxUnavailableValue, replicas, false);
      if maxUnavailableInt.Err? {
        return Err(Scaling(maxUnavailableInt.error));
      }
      if maxUnavailableInt.value < MinInt32 || maxUnavailableInt.value > MaxInt32 {
        return Err(OutOfInt32Bounds(MaxUnavailableField));
      }
      maxUnavailable := maxUnavailableInt.value;

      var maxSurgeInt := ScaledValue(maxSurgeValue, replicas, true);
      if maxSurgeInt.Err? {
        return Err(Scaling(maxSurgeInt.error));
      }
      if maxSurgeInt.value < MinInt32 || maxSurgeInt.value > MaxInt32 {
        return Err(OutOfInt32Bounds(MaxSurgeField));
      }
      maxSurge := maxSurgeInt.value;
    } else {
      return Err(UnknownStrategy("deployment", name, strategy.strategyType));
    }
    r := Ok(Bounds(maxUnavailable, maxSurge, strategy.strategyType));
  }

  /** The usage of a Deployment with replicas once the strategy switch is decided. */
  lemma UsageAfterSwitch(d: Deployment)
    requires d.replicas != 0
    ensures var switch := StrategyBounds(d.strategy, d.replicas, d.meta.name);
            && (switch.Err? ==> DeploymentUsage(d) == Err(switch.error))
            && (switch.Ok? ==> DeploymentUsage(d) == Ok(SwitchedUsage(PodResourcesOf(d.template), d.meta, d.replicas, switch.value)))
  {
  }

  /**
   * `deployment`: zero replicas return at once; otherwise the strategy switch,
   * then the pods not ready (for Recreate every replica, since maxSurge is
   * zero) and the rollout peak.
   */
  method CalcDeployment(d: Deployment) returns (r: Result<ResourceUsage, CalcError>)
    ensures r == DeploymentUsage(d)
  {
    var replicas := d.replicas;
    if replicas == 0 {
      return Ok(ResourceUsage(Zero, Zero, MetaDetails(d.meta, d.strategy.strategyType, replicas, replicas)));
    }

    var bounds := RolloutBounds(d.strategy, replicas, d.meta.name);
    UsageAfterSwitch(d);
    if bounds.Err? {
      return Err(bounds.error);
    }
    var maxUnavailable: int, maxSurge: int := bounds.value.maxUnavailable, bounds.value.maxSurge;
    var maxNonReadyPodCount := Wrap32(maxSurge + maxUnavailable);

    var newResources := CalcRollout(d.template, Wrap32(replicas - maxUnavailable), maxNonReadyPodCount);
    r := Ok(ResourceUsage(Zero, newResources,
                          MetaDetails(d.meta, bounds.value.strategy, replicas, Wrap32(replicas + maxSurge))));
  }

  /** Zero replicas: nothing is used and the strategy is never looked at, so no type is an error. */
  lemma ZeroReplicas(d: Deployment)
    requires d.replicas == 0
    ensures DeploymentUsage(d).Ok?
    ensures DeploymentUsage(d).value.rolloutResources == Zero
    ensures DeploymentUsage(d).value.details.maxReplicas == 0
    ensures DeploymentUsage(d).value.details.strategy == d.strategy.strategyType
  {
  }

  /** Recreate: every pod may be in its init phase at once, and none is added. */
  lemma RecreateRollout(d: Deployment)
    requires d.replicas != 0 && d.strategy.strategyType == Recreate
    ensures DeploymentUsage(d).Ok?
    ensures DeploymentUsage(d).value.rolloutResources == MulInt32(PodResourcesOf(d.template).maxResources, d.replicas)
    ensures DeploymentUsage(d).value.details.maxReplicas == d.replicas
    ensures DeploymentUsage(d).value.details.strategy == Recreate
  {
    var pod := PodResourcesOf(d.template);
    MulInt32Zero(pod.containers);
    AddZero(MulInt32(pod.maxResources, d.replicas));
  }

  /** An empty type is RollingUpdate with 25%/25%, whatever block was given, and is reported so. */
  lemma EmptyTypeIsDefaultRollingUpdate(d: Deployment)
    requires d.strategy.strategyType == ""
    ensures var d' := d.(strategy := DeploymentStrategy(RollingUpdate, Some(Defaults)));
            d.replicas != 0 ==> DeploymentUsage(d) == DeploymentUsage(d')
    ensures d.replicas != 0 && DeploymentUsage(d).Ok? ==> DeploymentUsage(d).value.details.strategy == RollingUpdate
  {
    var d' := d.(strategy := DeploymentStrategy(RollingUpdate, Some(Defaults)));
    if d.replicas != 0 {
      assert RollingValues(d'.strategy) == RollingValues(d.strategy) == Defaults;
      var switch := StrategyBounds(d.strategy, d.replicas, d.meta.name);
      assert StrategyBounds(d'.strategy, d.replicas, d.meta.name) == switch;
      assert switch.Ok? ==> switch.value.strategy == RollingUpdate;
      UsageAfterSwitch(d);
      UsageAfterSwitch(d');
    }
  }

  /** The switch on an empty or RollingUpdate type, once both strategy values scale to int32: rolling bounds. */
  lemma RollingBounds(s: DeploymentStrategy, replicas: int32, name: string, u: int32, x: int32)
    requires s.strategyType in {"", RollingUpdate}
    requires ScaledValue(RollingValues(s).maxUnavailable, replicas, false) == Ok(u)
    requires ScaledValue(RollingValues(s).maxSurge, replicas, true) == Ok(x)
    ensures StrategyBounds(s, replicas, name) == Ok(Bounds(u, x, RollingUpdate))
  {
    assert ScaleToInt32(RollingValues(s).maxUnavailable, replicas, false, MaxUnavailableField) == Ok(u);
    assert ScaleToInt32(RollingValues(s).maxSurge, replicas, true, MaxSurgeField) == Ok(x);
  }

  /**
   * RollingUpdate: the peak counts replicas - maxUnavailable ordinary pods and
   * maxSurge + maxUnavailable pods in their init phase, with maxUnavailable the
   * rounded-down and maxSurge the rounded-up scaled value.
   */
  lemma RollingUpdateRollout(d: Deployment, u: int32, x: int32)
    requires d.replicas != 0 && d.strategy.strategyType in {"", RollingUpdate}
    requires ScaledValue(RollingValues(d.strategy).maxUnavailable, d.replicas, false) == Ok(u)
    requires ScaledValue(RollingValues(d.strategy).maxSurge, d.replicas, true) == Ok(x)
    ensures DeploymentUsage(d).Ok?
    ensures DeploymentUsage(d).value.rolloutResources
            == Rollout(PodResourcesOf(d.template), Wrap32(d.replicas - u), Wrap32(x + u))
    ensures DeploymentUsage(d).value.details.maxReplicas == Wrap32(d.replicas + x)
    ensures DeploymentUsage(d).value.details.strategy == RollingUpdate
  {
    RollingBounds(d.strategy, d.replicas, d.meta.name, u, x);
    UsageAfterSwitch(d);
    assert DeploymentUsage(d) == Ok(SwitchedUsage(PodResourcesOf(d.template), d.meta, d.replicas, Bounds(u, x, RollingUpdate)));
  }

  /** A scaling failure or a scaled value beyond int32 is an error and yields no usage. */
  lemma RollingUpdateErrors(d: Deployment)
    requires d.replicas != 0 && d.strategy.strategyType in {"", RollingUpdate}
    ensures var u := ScaledValue(RollingValues(d.strategy).maxUnavailable, d.replicas, false);
            var x := ScaledValue(RollingValues(d.strategy).maxSurge, d.replicas, true);
            && (u.Err? ==> DeploymentUsage(d) == Err(Scaling(u.error)))
            && (u.Ok? && !InInt32(u.value) ==> DeploymentUsage(d) == Err(OutOfInt32Bounds(MaxUnavailableField)))
            && (u.Ok? && InInt32(u.value) && x.Err? ==> DeploymentUsage(d) == Err(Scaling(x.error)))
            && (u.Ok? && InInt32(u.value) && x.Ok? && !InInt32(x.value) ==>
                  DeploymentUsage(d) == Err(OutOfInt32Bounds(MaxSurgeField)))
  {
  }

  /** Any type other than Recreate, RollingUpdate or empty is an error naming the deployment and the type. */
  lemma UnknownStrategyIsError(d: Deployment)
    requires d.replicas != 0 && d.strategy.strategyType !in {"", Recreate, RollingUpdate}
    ensures DeploymentUsage(d) == Err(UnknownStrategy("deployment", d.meta.name, d.strategy.strategyType))
  {
  }

  /**
   * For a pod whose peak is its ordinary sum, the peak is that sum times
   * replicas + maxSurge whenever none of the three int32 operations wraps;
   * maxUnavailable is not clamped to the replica count.
   */
  lemma UniformPodSwitchedUsage(pod: PodResources, meta: ObjectMeta, replicas: int32, b: Bounds)
    requires pod.maxResources == pod.containers
    requires InInt32(replicas - b.maxUnavailable) && InInt32(b.maxSurge + b.maxUnavailable)
    requires InInt32(replicas + b.maxSurge)
    ensures SwitchedUsage(pod, meta, replicas, b).rolloutResources == MulInt32(pod.containers, replicas + b.maxSurge)
    ensures SwitchedUsage(pod, meta, replicas, b).details.maxReplicas == replicas + b.maxSurge
  {
    var ready, nonReady := replicas - b.maxUnavailable, b.maxSurge + b.maxUnavailable;
    assert Wrap32(replicas - b.maxUnavailable) == ready && Wrap32(b.maxSurge + b.maxUnavailable) == nonReady;
    RolloutUniformPod(pod, ready, nonReady);
  }

  /**
   * A rolling update of a pod without init containers: the peak is the pod's
   * ordinary resources times replicas + maxSurge pods, and MaxReplicas is that
   * count, for literal or percentage bounds and whenever no int32 operation wraps.
   */
  lemma NoInitContainersRollout(d: Deployment, u: int32, x: int32)
    requires d.replicas != 0 && d.strategy.strategyType in {"", RollingUpdate}
    requires ScaledValue(RollingValues(d.strategy).maxUnavailable, d.replicas, false) == Ok(u)
    requires ScaledValue(RollingValues(d.strategy).maxSurge, d.replicas, true) == Ok(x)
    requires InInt32(d.replicas - u) && InInt32(x + u) && InInt32(d.replicas + x)
    requires d.template.initContainers == [] && NonNegativeContainers(d.template.containers)
    ensures DeploymentUsage(d).Ok?
    ensures DeploymentUsage(d).value.rolloutResources == MulInt32(PodResourcesOf(d.template).containers, d.replicas + x)
    ensures DeploymentUsage(d).value.details.maxReplicas == d.replicas + x
  {
    RollingBounds(d.strategy, d.replicas, d.meta.name, u, x);
    UsageAfterSwitch(d);
    NoInitContainersMaxIsContainers(d.template);
    UniformPodSwitchedUsage(PodResourcesOf(d.template), d.meta, d.replicas, Bounds(u, x, RollingUpdate));
  }

  /** Ten replicas under the default strategy: two may be unavailable and three may surge, so 13 at most. */
  lemma DefaultOnTenReplicas(d: Deployment)
    requires d.replicas == 10 && d.strategy.strategyType == ""
    ensures DeploymentUsage(d).Ok?
    ensures DeploymentUsage(d).value.rolloutResources == Rollout(PodResourcesOf(d.template), 8, 5)
    ensures DeploymentUsage(d).value.details.maxReplicas == 13
  {
    DefaultsOnTenReplicas();
    RollingUpdateRollout(d, 2, 3);
  }
}
