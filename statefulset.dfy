/**
 * The StatefulSet calculator: pods are replaced in place, never added, so
 * only maxUnavailable matters; it is rounded up when given as a percentage.
 */
module StatefulSet {
  import opened Ints
  import opened Wrappers
  import opened Quantity
  import opened IntStr
  import opened Aggregate
  import opened Usage

  const OnDelete: string := "OnDelete"
  const RollingUpdate: string := "RollingUpdate"

  datatype RollingUpdateStatefulSetStrategy = RollingUpdateStatefulSetStrategy(maxUnavailable: IntOrPercent)

  datatype StatefulSetUpdateStrategy =
    StatefulSetUpdateStrategy(strategyType: string, rollingUpdate: Option<RollingUpdateStatefulSetStrategy>)

  /** `replicas` may be absent. */
  datatype StatefulSet =
    StatefulSet(meta: ObjectMeta, replicas: Option<int32>, updateStrategy: StatefulSetUpdateStrategy, template: PodSpec)

  /** The replica count, one when absent. */
  function Replicas(s: StatefulSet): (r: int32)
    ensures s.replicas.None? ==> r == 1
    ensures s.replicas.Some? ==> r == s.replicas.value
  {
    if s.replicas.Some? then s.replicas.value else 1
  }

  /** The value the rolling branch reads: one pod unless a block is given. */
  function RollingValue(s: StatefulSetUpdateStrategy): IntOrPercent {
    if s.strategyType == "" || s.rollingUpdate.None? then Int(1) else s.rollingUpdate.value.maxUnavailable
  }

  /**
   * maxUnavailable and the reported strategy name: OnDelete takes every pod,
   * an empty type is the RollingUpdate default, RollingUpdate scales rounding
   * up, and any other type has no branch: nothing unavailable, no error.
   */
  function UnavailableAndType(s: StatefulSetUpdateStrategy, replicas: int32): (r: Result<(int32, string), CalcError>)
    ensures s.strategyType == OnDelete ==> r == Ok((replicas, OnDelete))
    ensures s.strategyType in {"", RollingUpdate} ==>
              var u := ScaleToInt32(RollingValue(s), replicas, true, MaxUnavailableField);
              && (u.Err? ==> r == Err(u.error))
              && (u.Ok? ==> r == Ok((u.value, RollingUpdate)))
    ensures s.strategyType !in {"", OnDelete, RollingUpdate} ==> r == Ok((0, s.strategyType))
  {
    if s.strategyType == OnDelete then
      Ok((replicas, OnDelete))
    else if s.strategyType == "" || s.strategyType == RollingUpdate then
      var u :- ScaleToInt32(RollingValue(s), replicas, true, MaxUnavailableField);
      Ok((u, RollingUpdate))
    else
      Ok((0, s.strategyType))
  }

  /** The usage of a StatefulSet: replicas ordinary pods normally, uncounted pods in init phase at the peak. */
  function StatefulSetUsage(s: StatefulSet): (r: Result<ResourceUsage, CalcError>)
    ensures r.Ok? ==> r.value.normalResources == MulInt32(PodResourcesOf(s.template).containers, Replicas(s))
    ensures r.Ok? ==> r.value.details.replicas == r.value.details.maxReplicas == Replicas(s)
    ensures r.Ok? ==> (r.value.details.version, r.value.details.kind, r.value.details.name)
                      == (s.meta.apiVersion, s.meta.kind, s.meta.name)
    ensures r.Err? ==> s.updateStrategy.strategyType in {"", RollingUpdate}
  {
    var replicas := Replicas(s);
    var (u, strategy) :- UnavailableAndType(s.updateStrategy, replicas);
    var pod := PodResourcesOf(s.template);
    Ok(ResourceUsage(
      MulInt32(pod.containers, replicas),
      Rollout(pod, Wrap32(replicas - u), u),
      MetaDetails(s.meta, strategy, replicas, replicas)))
  }

  /** The strategy switch of `statefulSet`: maxUnavailable assigned across the branches, the empty type rewritten. */
  method MaxUnavailable(strategy: StatefulSetUpdateStrategy, replicas: int32) returns (r: Result<(int32, string), CalcError>)
    ensures r == UnavailableAndType(strategy, replicas)
  {
    var maxUnavailable: int32 := 0;
    var strategy := strategy;
    if strategy.strategyType == OnDelete {
      maxUnavailable := replicas;
    } else if strategy.strategyType == "" || strategy.strategyType == RollingUpdate {
      if strategy.strategyType == "" {
        strategy := StatefulSetUpdateStrategy(RollingUpdate, Some(RollingUpdateStatefulSetStrategy(Int(1))));
      }
      var maxUnavailableValue;
      if strategy.rollingUpdate.None? {
        maxUnavailableValue := Int(1);
      } else {
        maxUnavailableValue := strategy.rollingUpdate.value.maxUnavailable;
      }

      var maxUnavailableInt := ScaledValue(maxUnavailableValue, replicas, true);
      if maxUnavailableInt.Err? {
        return Err(Scaling(maxUnavailableInt.error));
      }
      if maxUnavailableInt.value < MinInt32 || maxUnavailableInt.value > MaxInt32 {
        return Err(OutOfInt32Bounds(MaxUnavailableField));
      }
      maxUnavailable := maxUnavailableInt.value;
    }
    r := Ok((maxUnavailable, strategy.strategyType));
  }

  /** `statefulSet`: replicas chosen in an if/else, then the strategy switch, then the two figures. */
  method CalcStatefulSet(s: StatefulSet) returns (r: Result<ResourceUsage, CalcError>)
    ensures r == StatefulSetUsage(s)
  {
    var replicas: int32;
    if s.replicas.Some? {
      replicas := s.replicas.value;
    } else {
      replicas := 1;
    }
    assert replicas == Replicas(s);

    var unavailable := MaxUnavailable(s.updateStrategy, replicas);
    UsageAfterSwitch(s);
    if unavailable.Err? {
      return Err(unavailable.error);
    }
    var (maxUnavailable, strategyType) := unavailable.value;

    var podResources := CalcPodResources(s.template);
    var rolloutResources := Add(MulInt32(podResources.containers, Wrap32(replicas - maxUnavailable)),
                                MulInt32(podResources.maxResources, maxUnavailable));
    var normalResources := MulInt32(podResources.containers, replicas);
    r := Ok(ResourceUsage(normalResources, rolloutResources,
                          MetaDetails(s.meta, strategyType, replicas, replicas)));
  }

  /** The usage once the strategy switch is decided: its error, or its unavailable pods and reported name. */
  lemma UsageAfterSwitch(s: StatefulSet)
    ensures var switch := UnavailableAndType(s.updateStrategy, Replicas(s));
            && (switch.Err? ==> StatefulSetUsage(s) == Err(switch.error))
            && (switch.Ok? ==>
                  var pod := PodResourcesOf(s.template);
                  var (u, strategy) := switch.value;
                  StatefulSetUsage(s) == Ok(ResourceUsage(
                    MulInt32(pod.containers, Replicas(s)),
                    Rollout(pod, Wrap32(Replicas(s) - u), u),
                    MetaDetails(s.meta, strategy, Replicas(s), Replicas(s)))))
  {
  }

  /** Without replicas, one pod is assumed; with the default strategy it is replaced on its own. */
  lemma AbsentReplicasDefault(s: StatefulSet)
    requires s.replicas.None? && s.updateStrategy.strategyType == ""
    ensures StatefulSetUsage(s).Ok?
    ensures StatefulSetUsage(s).value.details.replicas == 1 && StatefulSetUsage(s).value.details.maxReplicas == 1
    ensures StatefulSetUsage(s).value.details.strategy == RollingUpdate
    ensures StatefulSetUsage(s).value.rolloutResources == PodResourcesOf(s.template).maxResources
    ensures StatefulSetUsage(s).value.normalResources == PodResourcesOf(s.template).containers
  {
    var pod := PodResourcesOf(s.template);
    assert RollingValue(s.updateStrategy) == Int(1);
    assert ScaleToInt32(Int(1), 1, true, MaxUnavailableField) == Ok(1);
    assert UnavailableAndType(s.updateStrategy, Replicas(s)) == Ok((1, RollingUpdate));
    UsageAfterSwitch(s);
    assert Wrap32(1 - 1) == 0;
    MulInt32Zero(pod.containers);
    MulInt32One(pod.maxResources);
    MulInt32One(pod.containers);
    AddZero(pod.maxResources);
  }

  /** OnDelete: every pod may be deleted at once, so the peak is the pod's maximum times replicas. */
  lemma OnDeleteRollout(s: StatefulSet)
    requires s.updateStrategy.strategyType == OnDelete
    ensures StatefulSetUsage(s).Ok?
    ensures StatefulSetUsage(s).value.rolloutResources == MulInt32(PodResourcesOf(s.template).maxResources, Replicas(s))
  {
    var pod := PodResourcesOf(s.template);
    UsageAfterSwitch(s);
    assert Wrap32(Replicas(s) - Replicas(s)) == 0;
    MulInt32Zero(pod.containers);
    AddZero(MulInt32(pod.maxResources, Replicas(s)));
  }

  /** An empty type is RollingUpdate with one unavailable pod, and is reported so. */
  lemma EmptyTypeIsDefaultRollingUpdate(s: StatefulSet)
    requires s.updateStrategy.strategyType == ""
    ensures var s' := s.(updateStrategy := StatefulSetUpdateStrategy(RollingUpdate, Some(RollingUpdateStatefulSetStrategy(Int(1)))));
            StatefulSetUsage(s) == StatefulSetUsage(s')
    ensures StatefulSetUsage(s).Ok? && StatefulSetUsage(s).value.details.strategy == RollingUpdate
  {
  }

  /** RollingUpdate: maxUnavailable is the rounded-up scaled value; failures and overflows are errors. */
  lemma RollingUpdateRollout(s: StatefulSet)
    requires s.updateStrategy.strategyType in {"", RollingUpdate}
    ensures var u := ScaledValue(RollingValue(s.updateStrategy), Replicas(s), true);
            && (u.Err? ==> StatefulSetUsage(s) == Err(Scaling(u.error)))
            && (u.Ok? && !InInt32(u.value) ==> StatefulSetUsage(s) == Err(OutOfInt32Bounds(MaxUnavailableField)))
            && (u.Ok? && InInt32(u.value) ==>
                  && StatefulSetUsage(s).Ok?
                  && StatefulSetUsage(s).value.rolloutResources
                     == Rollout(PodResourcesOf(s.template), Wrap32(Replicas(s) - u.value), u.value))
  {
  }

  /** An unrecognised type is no error: nothing is counted unavailable, so the peak is the normal figure. */
  lemma UnknownTypeRolloutIsNormal(s: StatefulSet)
    requires s.updateStrategy.strategyType !in {"", OnDelete, RollingUpdate}
    ensures StatefulSetUsage(s).Ok?
    ensures StatefulSetUsage(s).value.rolloutResources == StatefulSetUsage(s).value.normalResources
    ensures StatefulSetUsage(s).value.details.strategy == s.updateStrategy.strategyType
  {
    var pod := PodResourcesOf(s.template);
    UsageAfterSwitch(s);
    assert Wrap32(Replicas(s) - 0) == Replicas(s);
    MulInt32Zero(pod.maxResources);
    AddZero(MulInt32(pod.containers, Replicas(s)));
  }

  /** Without init containers the peak equals the normal figure, whatever the strategy. */
  lemma NoInitContainersRolloutIsNormal(s: StatefulSet)
    requires s.template.initContainers == [] && NonNegativeContainers(s.template.containers)
    requires StatefulSetUsage(s).Ok?
    requires var u := UnavailableAndType(s.updateStrategy, Replicas(s)).value.0; InInt32(Replicas(s) - u)
    ensures StatefulSetUsage(s).value.rolloutResources == StatefulSetUsage(s).value.normalResources
  {
    var pod := PodResourcesOf(s.template);
    var replicas := Replicas(s);
    var u := UnavailableAndType(s.updateStrategy, replicas).value.0;
    NoInitContainersMaxIsContainers(s.template);
    assert StatefulSetUsage(s).value.rolloutResources == Rollout(pod, replicas - u, u);
    RolloutUniformPod(pod, replicas - u, u);
  }

  /** Three replicas replaced on deletion, 250m per pod and no init container: 750m at the peak. */
  lemma OnDeleteThreeReplicas(s: StatefulSet)
    requires s.replicas == Some(3) && s.updateStrategy.strategyType == OnDelete
    requires s.template.initContainers == [] && NonNegativeContainers(s.template.containers)
    requires PodResourcesOf(s.template).containers.cpuMin == 250
    ensures StatefulSetUsage(s).Ok? && StatefulSetUsage(s).value.rolloutResources.cpuMin == 750
  {
    OnDeleteRollout(s);
    NoInitContainersMaxIsContainers(s.template);
  }
}
