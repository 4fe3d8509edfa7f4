/**
 * The OpenShift DeploymentConfig calculator: the Deployment computation with
 * the strategy names Recreate/Rolling, plus the resources of the deployer
 * process declared on the strategy, added once.
 */
module DeploymentConfig {
  import opened Ints
  import opened Wrappers
  import opened Quantity
  import opened IntStr
  import opened Aggregate
  import opened Usage

  const Recreate: string := "Recreate"
  const Rolling: string := "Rolling"

  datatype RollingParams = RollingParams(maxUnavailable: IntOrPercent, maxSurge: IntOrPercent)

  /** `resources` are the requests and limits of the deployer process itself. */
  datatype DeploymentConfigStrategy =
    DeploymentConfigStrategy(strategyType: string, rollingParams: Option<RollingParams>, resources: ResourceRequirements)

  datatype DeploymentConfig =
    DeploymentConfig(meta: ObjectMeta, replicas: int32, strategy: DeploymentConfigStrategy, template: PodSpec)

  const Defaults: RollingParams := RollingParams(Percent(25), Percent(25))

  const NoResources: ResourceRequirements := ResourceRequirements(ResourceList(None, None), ResourceList(None, None))

  datatype Bounds = Bounds(maxUnavailable: int32, maxSurge: int32, strategy: string)

  function RollingValues(s: DeploymentConfigStrategy): RollingParams {
    if s.strategyType == "" || s.rollingParams.None? then Defaults else s.rollingParams.value
  }

  /** The strategy switch, as for a Deployment but with the type name Rolling. */
  function StrategyBounds(s: DeploymentConfigStrategy, replicas: int32, name: string): Result<Bounds, CalcError>
  {
    if s.strategyType == Recreate then
      Ok(Bounds(replicas, 0, Recreate))
    else if s.strategyType == "" || s.strategyType == Rolling then
      var values := RollingValues(s);
      var u :- ScaleToInt32(values.maxUnavailable, replicas, false, MaxUnavailableField);
      var x :- ScaleToInt32(values.maxSurge, replicas, true, MaxSurgeField);
      Ok(Bounds(u, x, Rolling))
    else
      Err(UnknownStrategy("deploymentConfig", name, s.strategyType))
  }

  /**
   * The report once the strategy switch has produced `b`, for a template whose
   * aggregate is `pod`: the Deployment rollout peak plus the strategy's own
   * resources, read from the object as given. As for a Deployment, the
   * steady-state figure is not computed and is zero.
   */
  function SwitchedUsage(pod: PodResources, meta: ObjectMeta, replicas: int32, deployer: ResourceRequirements,
                         b: Bounds): ResourceUsage {
    ResourceUsage(
      Zero,
      Add(Rollout(pod, Wrap32(replicas - b.maxUnavailable), Wrap32(b.maxSurge + b.maxUnavailable)),
          ConvertToResources(deployer)),
      MetaDetails(meta, b.strategy, replicas, Wrap32(replicas + b.maxSurge)))
  }

  /** The usage of a DeploymentConfig: nothing for zero replicas, else the switch and the report built on it. */
  function DeploymentConfigUsage(d: DeploymentConfig): (r: Result<ResourceUsage, CalcError>)
    ensures r.Ok? ==> r.value.normalResources == Zero
    ensures r.Ok? ==> r.value.details.replicas == d.replicas
    ensures r.Ok? ==> (r.value.details.version, r.value.details.kind, r.value.details.name)
                      == (d.meta.apiVersion, d.meta.kind, d.meta.name)
    ensures r.Err? ==> d.replicas != 0 && StrategyBounds(d.strategy, d.replicas, d.meta.name).Err?
  {
    if d.replicas == 0 then
      Ok(ResourceUsage(Zero, Zero, MetaDetails(d.meta, d.strategy.strategyType, 0, 0)))
    else
      match StrategyBounds(d.strategy, d.replicas, d.meta.name)
      case Err(e) => Err(e)
      case Ok(b) => Ok(SwitchedUsage(PodResourcesOf(d.template), d.meta, d.replicas, d.strategy.resources, b))
  }

  /**
   * The strategy switch of `deploymentConfig`, with its early error returns; an
   * empty type is first rewritten to the Rolling defaults, a strategy that
   * carries no resources of its own.
   */
  method RolloutBounds(strategy: DeploymentConfigStrategy, replicas: int32, name: string) returns (r: Result<Bounds, CalcError>)
    ensures r == StrategyBounds(strategy, replicas, name)
  {
    var maxUnavailable: int32 := 0;
    var maxSurge: int32 := 0;
    var strategy := strategy;
    if strategy.strategyType == Recreate {
      maxUnavailable := replicas;
      maxSurge := 0;
    } else if strategy.strategyType == "" || strategy.strategyType == Rolling {
      if strategy.strategyType == "" {
        strategy := DeploymentConfigStrategy(Rolling, Some(Defaults), NoResources);
      }
      var maxUnavailableValue, maxSurgeValue;
      if strategy.rollingParams.None? {
        maxUnavailableValue, maxSurgeValue := Percent(25), Percent(25);
      } else {
        maxUnavailableValue := strategy.rollingParams.value.maxUnavailable;
        maxSurgeValue := strategy.rollingParams.value.maxSurge;
      }

      var maxUnavailableInt := ScaledValue(maxUnavailableValue, replicas, false);
      if maxUnavailableInt.Err? {
        return Err(Scaling(maxUnavailableInt.error));
      }
      if maxUnavailableInt.value < MinInt32 || maxUnavailableInt.value > MaxInt32 {
        return Err(OutOfInt32Bounds(MaxUnavailableField));
      }
      maxUnavailable := maxUnavailableInt.value;

      var maxSurgeInt := ScaledValue(maxSurgeValue, replicas, true);
      if maxSurgeInt.Err? {
        return Err(Scaling(maxSurgeInt.error));
      }
      if maxSurgeInt.value < MinInt32 || maxSurgeInt.value > MaxInt32 {
        return Err(OutOfInt32Bounds(MaxSurgeField));
      }
      maxSurge := maxSurgeInt.value;
    } else {
      return Err(UnknownStrategy("deploymentConfig", name, strategy.strategyType));
    }
    r := Ok(Bounds(maxUnavailable, maxSurge, strategy.strategyType));
  }

  /** The usage of a DeploymentConfig with replicas once the strategy switch is decided. */
  lemma UsageAfterSwitch(d: DeploymentConfig)
    requires d.replicas != 0
    ensures var switch := StrategyBounds(d.strategy, d.replicas, d.meta.name);
            && (switch.Err? ==> DeploymentConfigUsage(d) == Err(switch.error))
            && (switch.Ok? ==> DeploymentConfigUsage(d) == Ok(SwitchedUsage(PodResourcesOf(d.template), d.meta, d.replicas, d.strategy.resources, switch.value)))
  {
  }

  /**
   * `deploymentConfig`: zero replicas return at once; otherwise the strategy
   * switch, the rollout peak, and the resources the object's strategy declares.
   */
  method CalcDeploymentConfig(d: DeploymentConfig) returns (r: Result<ResourceUsage, CalcError>)
    ensures r == DeploymentConfigUsage(d)
  {
    var replicas := d.replicas;
    if replicas == 0 {
      return Ok(ResourceUsage(Zero, Zero, MetaDetails(d.meta, d.strategy.strategyType, replicas, replicas)));
    }

    var bounds := RolloutBounds(d.strategy, replicas, d.meta.name);
    UsageAfterSwitch(d);
    if bounds.Err? {
      return Err(bounds.error);
    }
    var maxUnavailable: int, maxSurge: int := bounds.value.maxUnavailable, bounds.value.maxSurge;
    var maxNonReadyPodCount := Wrap32(maxSurge + maxUnavailable);

    var podRollout := CalcRollout(d.template, Wrap32(replicas - maxUnavailable), maxNonReadyPodCount);
    var strategyResources := ConvertToResources(d.strategy.resources);
    var newResources := Add(podRollout, strategyResources);
    r := Ok(ResourceUsage(Zero, newResources,
                          MetaDetails(d.meta, bounds.value.strategy, replicas, Wrap32(replicas + maxSurge))));
  }

  /** Zero replicas: nothing is used, the strategy resources included, and the strategy is never looked at. */
  lemma ZeroReplicas(d: DeploymentConfig)
    requires d.replicas == 0
    ensures DeploymentConfigUsage(d).Ok?
    ensures DeploymentConfigUsage(d).value.rolloutResources == Zero
    ensures DeploymentConfigUsage(d).value.details.maxReplicas == 0
    ensures DeploymentConfigUsage(d).value.details.strategy == d.strategy.strategyType
  {
  }

  /** Recreate: every pod may be in its init phase at once and none is added; the deployer runs besides. */
  lemma RecreateRollout(d: DeploymentConfig)
    requires d.replicas != 0 && d.strategy.strategyType == Recreate
    ensures DeploymentConfigUsage(d).Ok?
    ensures DeploymentConfigUsage(d).value.rolloutResources
            == Add(MulInt32(PodResourcesOf(d.template).maxResources, d.replicas), ConvertToResources(d.strategy.resources))
    ensures DeploymentConfigUsage(d).value.details.maxReplicas == d.replicas
  {
    var pod := PodResourcesOf(d.template);
    MulInt32Zero(pod.containers);
    AddZero(MulInt32(pod.maxResources, d.replicas));
  }

  /** An empty type is Rolling with 25%/25%, is reported so, and keeps the strategy resources of the object. */
  lemma EmptyTypeIsDefaultRolling(d: DeploymentConfig)
    requires d.strategy.strategyType == ""
    ensures var d' := d.(strategy := DeploymentConfigStrategy(Rolling, Some(Defaults), d.strategy.resources));
            d.replicas != 0 ==> DeploymentConfigUsage(d) == DeploymentConfigUsage(d')
    ensures d.replicas != 0 && DeploymentConfigUsage(d).Ok? ==> DeploymentConfigUsage(d).value.details.strategy == Rolling
  {
    var d' := d.(strategy := DeploymentConfigStrategy(Rolling, Some(Defaults), d.strategy.resources));
    if d.replicas != 0 {
      assert RollingValues(d'.strategy) == RollingValues(d.strategy) == Defaults;
      var switch := StrategyBounds(d.strategy, d.replicas, d.meta.name);
      assert StrategyBounds(d'.strategy, d.replicas, d.meta.name) == switch;
      assert switch.Ok? ==> switch.value.strategy == Rolling;
      UsageAfterSwitch(d);
      UsageAfterSwitch(d');
    }
  }

  /** The switch on an empty or Rolling type, once both strategy values scale to int32: Rolling bounds. */
  lemma RollingBounds(s: DeploymentConfigStrategy, replicas: int32, name: string, u: int32, x: int32)
    requires s.strategyType in {"", Rolling}
    requires ScaledValue(RollingValues(s).maxUnavailable, replicas, false) == Ok(u)
    requires ScaledValue(RollingValues(s).maxSurge, replicas, true) == Ok(x)
    ensures StrategyBounds(s, replicas, name) == Ok(Bounds(u, x, Rolling))
  {
    assert ScaleToInt32(RollingValues(s).maxUnavailable, replicas, false, MaxUnavailableField) == Ok(u);
    assert ScaleToInt32(RollingValues(s).maxSurge, replicas, true, MaxSurgeField) == Ok(x);
  }

  /** Rolling: unavailable pods rounded down, surge pods rounded up, MaxReplicas = replicas + maxSurge. */
  lemma RollingRollout(d: DeploymentConfig, u: int32, x: int32)
    requires d.replicas != 0 && d.strategy.strategyType in {"", Rolling}
    requires ScaledValue(RollingValues(d.strategy).maxUnavailable, d.replicas, false) == Ok(u)
    requires ScaledValue(RollingValues(d.strategy).maxSurge, d.replicas, true) == Ok(x)
    ensures DeploymentConfigUsage(d).Ok?
    ensures DeploymentConfigUsage(d).value.rolloutResources
            == Add(Rollout(PodResourcesOf(d.template), Wrap32(d.replicas - u), Wrap32(x + u)),
                   ConvertToResources(d.strategy.resources))
    ensures DeploymentConfigUsage(d).value.details.maxReplicas == Wrap32(d.replicas + x)
    ensures DeploymentConfigUsage(d).value.details.strategy == Rolling
  {
    RollingBounds(d.strategy, d.replicas, d.meta.name, u, x);
    UsageAfterSwitch(d);
    var b := Bounds(u, x, Rolling);
    assert DeploymentConfigUsage(d)
           == Ok(SwitchedUsage(PodResourcesOf(d.template), d.meta, d.replicas, d.strategy.resources, b));
  }

  /** A scaling failure or a scaled value beyond int32 is an error and yields no usage. */
  lemma RollingErrors(d: DeploymentConfig)
    requires d.replicas != 0 && d.strategy.strategyType in {"", Rolling}
    ensures var u := ScaledValue(RollingValues(d.strategy).maxUnavailable, d.replicas, false);
            var x := ScaledValue(RollingValues(d.strategy).maxSurge, d.replicas, true);
            && (u.Err? ==> DeploymentConfigUsage(d) == Err(Scaling(u.error)))
            && (u.Ok? && !InInt32(u.value) ==> DeploymentConfigUsage(d) == Err(OutOfInt32Bounds(MaxUnavailableField)))
            && (u.Ok? && InInt32(u.value) && x.Err? ==> DeploymentConfigUsage(d) == Err(Scaling(x.error)))
            && (u.Ok? && InInt32(u.value) && x.Ok? && !InInt32(x.value) ==>
                  DeploymentConfigUsage(d) == Err(OutOfInt32Bounds(MaxSurgeField)))
  {
  }

  lemma UnknownStrategyIsError(d: DeploymentConfig)
    requires d.replicas != 0 && d.strategy.strategyType !in {"", Recreate, Rolling}
    ensures DeploymentConfigUsage(d) == Err(UnknownStrategy("deploymentConfig", d.meta.name, d.strategy.strategyType))
  {
  }

  /** The strategy switch does not read the deployer's resources. */
  lemma BoundsIgnoreResources(s: DeploymentConfigStrategy, res: ResourceRequirements, replicas: int32, name: string)
    ensures StrategyBounds(s.(resources := res), replicas, name) == StrategyBounds(s, replicas, name)
  {
    assert RollingValues(s.(resources := res)) == RollingValues(s);
  }

  /** For any pod aggregate, the report differs from the one without deployer resources by exactly those. */
  lemma DeployerResourcesAddedOnce(pod: PodResources, meta: ObjectMeta, replicas: int32,
                                   deployer: ResourceRequirements, b: Bounds)
    ensures SwitchedUsage(pod, meta, replicas, deployer, b).rolloutResources
            == Add(SwitchedUsage(pod, meta, replicas, NoResources, b).rolloutResources, ConvertToResources(deployer))
  {
    var peak := Rollout(pod, Wrap32(replicas - b.maxUnavailable), Wrap32(b.maxSurge + b.maxUnavailable));
    assert ConvertToResources(NoResources) == Zero;
    AddZero(peak);
  }

  /** The strategy resources are added exactly once, not scaled by the replica count. */
  lemma StrategyResourcesAddedOnce(d: DeploymentConfig)
    requires d.replicas != 0 && DeploymentConfigUsage(d).Ok?
    ensures var bare := d.(strategy := d.strategy.(resources := NoResources));
            && DeploymentConfigUsage(bare).Ok?
            && DeploymentConfigUsage(d).value.rolloutResources
               == Add(DeploymentConfigUsage(bare).value.rolloutResources, ConvertToResources(d.strategy.resources))
  {
    var bare := d.(strategy := d.strategy.(resources := NoResources));
    BoundsIgnoreResources(d.strategy, NoResources, d.replicas, d.meta.name);
    UsageAfterSwitch(d);
    UsageAfterSwitch(bare);
    var b := StrategyBounds(d.strategy, d.replicas, d.meta.name).value;
    DeployerResourcesAddedOnce(PodResourcesOf(d.template), d.meta, d.replicas, d.strategy.resources, b);
  }
}
