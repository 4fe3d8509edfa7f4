# kuota-calc calculator core in Dafny

kuota-calc estimates the CPU and memory a set of Kubernetes and OpenShift
workloads needs, both in steady state and at the peak of a rollout. This
project models its calculator package, `internal/calc`, and proves
properties of that model:

- **Quantities.** The four-field `Resources` record holds a CPU request, a
  CPU limit, a memory request and a memory limit. Each is an integer
  milli-value. The model covers `Add`, the integer multiplication
  `MulInt32`, `maxQuantity` and `diffQuantities` (module `Quantity`).
- **Pod aggregation.** `calcPodResources` sums the ordinary containers and,
  separately, the init containers. It then takes their per-dimension maximum,
  because init containers finish before the ordinary ones start (module
  `Aggregate`).
- **Per-kind calculators.** Deployment, OpenShift DeploymentConfig and
  StatefulSet each have a strategy switch, a rollout formula and error
  returns. DaemonSet, Job, CronJob and Pod are single-pod calculators. Each
  kind has its own module. The rollout formula they share and the error
  type are in `Usage`.
- **Kind dispatch.** This is the type switch of `ResourceQuotaFromYaml`,
  which runs after decoding. Calculator errors are wrapped in a
  `CalculationError` carrying the decoded version and kind (module
  `Dispatch`).
- **Total.** `Total` sums every rollout figure when there is no limit. With a
  limit `maxRollout`, it sums the steady-state figures and then adds, for
  each dimension on its own, the `maxRollout` largest rollout-minus-normal
  deltas (module `Total`). The modules are:
  - `Total` holds the imperative model: the accumulation loops, the four
    delta arrays, an in-place descending sort and the bounded addition
    loops.
  - `Sorting` holds the reference sort, the top-k sum and the proof that the
    top-k sum is the largest possible.

The model follows the form of the source:

- The Go functions that assign local variables across switch branches
  (`deployment`, `deploymentConfig`, `statefulSet`) are methods with early
  error returns.
- `calcPodResources` and `Total` are methods with loops over sequences and
  arrays.
- The single-pod calculators and the quantity helpers are functions.

Each calculator method, the pod aggregation and `Total` are proved equal
to a specification function (`DeploymentUsage`, `StatefulSetUsage`,
`PodResourcesOf`, `TotalOf`, ...). The lemmas state the source's promises
about those functions. The sorting methods are specified by properties
instead:
- `Sorting.Swap` exchanges two entries.
- `Sorting.SortDescending` leaves the array descending and a permutation of
  its contents.
- `Total.AddTopDeltas` leaves the array holding the reference sort and adds
  the top-k sum.

Integers are unbounded. Go `int32` is the subset type `Ints.int32`. The
three `int32` additions and subtractions in the calculators wrap around, and
`Ints.Wrap32` writes that out:

- `replicas - maxUnavailable`;
- `maxSurge + maxUnavailable`;
- `replicas + maxSurge`.

Three places in the code need a reading. The model follows the code in each:

- **Deployment and DeploymentConfig.** `deployment.go:26-38,109-119` and
  `deploymentConfig.go:26-38,110-120` store their single computed value in a
  field `Resources`. `ResourceUsage` (calc.go:48-52) declares no such field;
  it declares `NormalResources` and `RolloutResources`. The model reads the
  value as `RolloutResources`. No steady-state figure is computed for these
  two kinds, so `NormalResources` is the zero record.
- **Pod and CronJob.** `pod.go:6` and `cronjob.go:6` call a four-result
  helper `podResources`. None of the files this model draws on (`calc.go`
  and the calculator files) defines it; of the pod helpers, only
  `calcPodResources` (calc.go:119-146) is defined there. These two files also fill `CpuMin`-style fields that
  `ResourceUsage` (calc.go:48-52) does not declare. The model computes them
  the way `job.go:5-22` does: normal is the ordinary containers' sum, and
  rollout is the per-dimension maximum with the init containers.
- **StatefulSet strategy types.** The switch at `statefulset.go:28-66` has
  no default branch. A strategy type other than empty, `OnDelete` or
  `RollingUpdate` matches no case and is not an error. `maxUnavailable`
  stays 0, so rollout equals normal (statefulset.go:69-70), and the type is
  reported as given (statefulset.go:80).

## Model

| member | source | states |
|---|---|---|
| Ints.Wrap32 | internal/calc/deployment.go:106-117 | the int32 result is congruent to the exact value modulo 2^32, and equals it when it fits |
| Aggregate.Sum | internal/calc/calc.go:122-138 | reference definition: the sum of the converted resources of a container list (properties in the Sum* lemmas) |
| Aggregate.PodResourcesOf | internal/calc/calc.go:119-146 | reference definition: the two sums and their per-dimension maximum (`CalcPodResources` is proved equal to it) |
| Usage.Rollout | internal/calc/deployment.go:106-107 | reference definition: `Containers × ready + MaxResources × nonReady` (`CalcRollout`, `RolloutUniformPod`) |
| Usage.CalculationError.Unwrap | internal/calc/calc.go:42-45 | reference definition: the wrapped cause (`Dispatch.Tagged` states that it returns the calculator's error) |
| Deployment.StrategyBounds | internal/calc/deployment.go:40-104 | reference definition: the strategy switch (`RolloutBounds` is proved equal to it; its branches are stated by `RecreateRollout`, `RollingBounds`, `RollingUpdateErrors`, `UnknownStrategyIsError`) |
| DeploymentConfig.StrategyBounds | internal/calc/deploymentConfig.go:40-104 | reference definition: the strategy switch (`RolloutBounds` is proved equal to it; its branches are stated by `RecreateRollout`, `RollingBounds`, `RollingErrors`, `UnknownStrategyIsError`) |
| Total.TotalOf | internal/calc/calc.go:166-237 | reference definition: the rollout sum without a limit, else per dimension the normal sum plus the top-k deltas (`CalcTotal` is proved equal to it) |
| Quantity.Add | internal/calc/calc.go:93-101 | each of the four quantities of the sum is the sum of the operands' quantities |
| Quantity.AddCommutative | internal/calc/calc.go:94-101 | `Add` is commutative |
| Quantity.AddAssociative | internal/calc/calc.go:94-101 | `Add` is associative |
| Quantity.AddZero | internal/calc/calc.go:94-101 | the zero record is a left and right identity of `Add` |
| Quantity.MulInt32 | internal/calc/calc.go:103-117 | each quantity of the result is the milli-value times the integer multiplier, exactly |
| Quantity.MulInt32Zero | internal/calc/calc.go:103-117 | multiplying by 0 gives the zero record |
| Quantity.MulInt32One | internal/calc/calc.go:103-117 | multiplying by 1 is the identity |
| Quantity.MulInt32Distributes | internal/calc/calc.go:103-117 | `MulInt32(a).Add(MulInt32(b)) == MulInt32(a + b)` whenever `a + b` fits an int32 |
| Quantity.MaxQuantity | internal/calc/calc.go:148-154 | the result is at least both arguments and equal to one of them |
| Quantity.MaxResources | internal/calc/calc.go:140-143 | per dimension, the peak is at least both sums and equal to one of them |
| Quantity.MaxResourcesCommutative | internal/calc/calc.go:140-154 | the per-dimension maximum does not depend on the argument order |
| Quantity.MaxResourcesIdempotent | internal/calc/calc.go:140-154 | the maximum of a record with itself is that record |
| Quantity.MaxResourcesOfLarger | internal/calc/calc.go:140-154 | a record that is larger in every dimension is the maximum |
| Quantity.DiffQuantities | internal/calc/calc.go:156-162 | `lower + result == higher`, so the difference may be negative; the inputs are values and stay unchanged |
| Aggregate.ConvertToResources | internal/calc/calc.go:83-91 | requests give the Min quantities and limits give the Max quantities; an absent entry reads as zero |
| Aggregate.AccumulateResources | internal/calc/calc.go:122-129 | the accumulation loop ends with the sum of every container's resources |
| Aggregate.CalcPodResources | internal/calc/calc.go:119-146 | `Containers` and `InitContainers` are the two sums; `MaxResources` is their per-dimension `maxQuantity`; the record equals `PodResourcesOf` |
| Aggregate.SumConcat | internal/calc/calc.go:122-138 | the sum over a concatenation is the sum of the two sums |
| Aggregate.SumSingleton | internal/calc/calc.go:122-129 | the sum over one container is its converted resources |
| Aggregate.SumAppend | internal/calc/calc.go:122-129 | one more container adds exactly its resources, as one loop step does |
| Aggregate.SumRemoveAt | internal/calc/calc.go:122-138 | removing one container takes exactly its resources off the sum |
| Aggregate.SumOrderIndependent | internal/calc/calc.go:122-138 | two container lists with the same elements have the same sum |
| Aggregate.EmptyPodIsZero | internal/calc/calc.go:119-146 | a pod without containers requires the zero record in all three figures |
| Aggregate.SumNonNegative | internal/calc/calc.go:122-138 | containers that declare no negative quantity sum to a non-negative record |
| Aggregate.NoInitContainersMaxIsContainers | internal/calc/calc.go:140-154 | with no init containers and no negative declaration, `MaxResources == Containers` |
| Aggregate.MaxCoversContainers | internal/calc/calc.go:140-143 | the peak is at least the ordinary sum and at least the init sum in every dimension |
| IntStr.ScaledValue | internal/calc/deployment.go:76-98 | a literal int passes unchanged; a non-percent string is an error; a percentage always scales |
| IntStr.PercentRounding | internal/calc/deployment.go:76-98 | a percentage scales to the floor of p*total/100 when rounding down and to its ceiling when rounding up |
| IntStr.FloorPercentAtMostTotal | internal/calc/deployment.go:76-86 | for 0..100%, the rounded-down value lies between 0 and the replica count |
| IntStr.CeilAtMostOneAboveFloor | internal/calc/deployment.go:76-98 | rounding up gives at least rounding down, and at most one more |
| IntStr.DefaultsOnTenReplicas | internal/calc/deployment.go:49-98 | 25% of ten replicas is 2 rounded down and 3 rounded up |
| Usage.ScaleToInt32 | internal/calc/deployment.go:77-86 | a scaling error becomes `Scaling`; a scaled value outside int32 becomes `OutOfInt32Bounds` for the field; otherwise the value |
| Usage.CalcRollout | internal/calc/deployment.go:106-107 | the rollout of the template's aggregate: `Containers × ready + MaxResources × nonReady` |
| Usage.RolloutUniformPod | internal/calc/deployment.go:106-107 | when the peak is the ordinary sum, the rollout is that sum times all counted pods |
| Deployment.SwitchedUsage | internal/calc/deployment.go:106-119 | the report after the switch: zero normal, `Containers × (replicas − maxUnavailable) + MaxResources × (maxSurge + maxUnavailable)`, `MaxReplicas = replicas + maxSurge` |
| Deployment.DeploymentUsage | internal/calc/deployment.go:14-122 | the steady-state figure is zero; replicas, version, kind and name are copied; an error occurs only with replicas and a failing strategy switch |
| Deployment.RolloutBounds | internal/calc/deployment.go:40-104 | the switch with its empty-type rewrite and early error returns yields exactly `StrategyBounds` |
| Deployment.UsageAfterSwitch | internal/calc/deployment.go:40-119 | with replicas, the usage is the switch's error or the report built on its bounds |
| Deployment.CalcDeployment | internal/calc/deployment.go:14-122 | the calculator returns exactly `DeploymentUsage` |
| Deployment.ZeroReplicas | internal/calc/deployment.go:26-38 | zero replicas give zero rollout and `MaxReplicas` 0, with the type reported as given and never an error |
| Deployment.RecreateRollout | internal/calc/deployment.go:41-45 | Recreate: rollout = MaxResources × replicas, `MaxReplicas = replicas`, reported as Recreate |
| Deployment.EmptyTypeIsDefaultRollingUpdate | internal/calc/deployment.go:46-58 | an empty type behaves as RollingUpdate with 25%/25%, whatever block was given, and is reported as RollingUpdate |
| Deployment.RollingBounds | internal/calc/deployment.go:59-101 | values that scale into int32 give bounds (floor of maxUnavailable, ceiling of maxSurge, RollingUpdate) |
| Deployment.RollingUpdateRollout | internal/calc/deployment.go:76-117 | RollingUpdate: rollout = Containers × (replicas − u) + MaxResources × (x + u) with u rounded down and x rounded up; `MaxReplicas = replicas + x` |
| Deployment.RollingUpdateErrors | internal/calc/deployment.go:77-96 | each scaling error and each out-of-int32 value, in the code's order, is the calculator's error |
| Deployment.UnknownStrategyIsError | internal/calc/deployment.go:102-103 | any other type is an error that names the deployment and the type |
| Deployment.UniformPodSwitchedUsage | internal/calc/deployment.go:106-117 | for a pod whose peak is its ordinary sum, rollout = Containers × (replicas + maxSurge) whenever none of the three int32 operations wraps; maxUnavailable is not clamped, so it may exceed replicas |
| Deployment.NoInitContainersRollout | internal/calc/deployment.go:59-117 | a rolling update (empty type included) with any scaled bounds u, x and no init container: rollout = Containers × (replicas + x) pods and `MaxReplicas = replicas + x`, whenever no int32 operation wraps; u above replicas is allowed |
| Deployment.DefaultOnTenReplicas | internal/calc/deployment.go:46-117 | ten replicas and the default strategy: 8 ordinary and 5 init-phase pods, `MaxReplicas` 13 |
| DeploymentConfig.SwitchedUsage | internal/calc/deploymentConfig.go:106-120 | the report after the switch: the Deployment formula plus the deployer resources, `MaxReplicas = replicas + maxSurge` |
| DeploymentConfig.DeploymentConfigUsage | internal/calc/deploymentConfig.go:14-122 | the steady-state figure is zero; replicas, version, kind and name are copied; an error occurs only with replicas and a failing strategy switch |
| DeploymentConfig.RolloutBounds | internal/calc/deploymentConfig.go:40-104 | the switch with its empty-type rewrite and early error returns yields exactly `StrategyBounds` |
| DeploymentConfig.UsageAfterSwitch | internal/calc/deploymentConfig.go:40-120 | with replicas, the usage is the switch's error or the report built on its bounds |
| DeploymentConfig.CalcDeploymentConfig | internal/calc/deploymentConfig.go:14-122 | the calculator returns exactly `DeploymentConfigUsage` |
| DeploymentConfig.ZeroReplicas | internal/calc/deploymentConfig.go:26-38 | zero replicas give zero rollout, so no deployer resources are counted, and `MaxReplicas` 0 |
| DeploymentConfig.RecreateRollout | internal/calc/deploymentConfig.go:41-45 | Recreate: rollout = MaxResources × replicas + deployer resources, `MaxReplicas = replicas` |
| DeploymentConfig.EmptyTypeIsDefaultRolling | internal/calc/deploymentConfig.go:46-58 | an empty type behaves as Rolling with 25%/25% and the object's own deployer resources, and is reported as Rolling |
| DeploymentConfig.RollingBounds | internal/calc/deploymentConfig.go:59-101 | values that scale into int32 give bounds (floor of maxUnavailable, ceiling of maxSurge, Rolling) |
| DeploymentConfig.RollingRollout | internal/calc/deploymentConfig.go:76-118 | Rolling: the Deployment formula with u rounded down and x rounded up, plus deployer resources; `MaxReplicas = replicas + x` |
| DeploymentConfig.RollingErrors | internal/calc/deploymentConfig.go:77-96 | each scaling error and each out-of-int32 value, in the code's order, is the calculator's error |
| DeploymentConfig.UnknownStrategyIsError | internal/calc/deploymentConfig.go:102-103 | any other type is an error that names the object and the type |
| DeploymentConfig.BoundsIgnoreResources | internal/calc/deploymentConfig.go:40-104 | the strategy switch does not read the deployer resources |
| DeploymentConfig.DeployerResourcesAddedOnce | internal/calc/deploymentConfig.go:106-108 | for any pod aggregate, the report exceeds the one without deployer resources by exactly those resources |
| DeploymentConfig.StrategyResourcesAddedOnce | internal/calc/deploymentConfig.go:106-108 | the deployer resources are added once, unscaled by replicas: usage = usage without them + them |
| StatefulSet.Replicas | internal/calc/statefulset.go:21-25 | absent replicas are 1; present ones are taken as given |
| StatefulSet.UnavailableAndType | internal/calc/statefulset.go:28-66 | OnDelete: all replicas; empty or RollingUpdate: the rounded-up scaled value or its error; any other type: 0 and no error |
| StatefulSet.StatefulSetUsage | internal/calc/statefulset.go:12-86 | normal = Containers × replicas; `Replicas == MaxReplicas`; metadata copied; errors only on the rolling branch |
| StatefulSet.MaxUnavailable | internal/calc/statefulset.go:28-66 | the switch with its empty-type rewrite and early error returns yields exactly `UnavailableAndType` |
| StatefulSet.CalcStatefulSet | internal/calc/statefulset.go:12-86 | the calculator returns exactly `StatefulSetUsage` |
| StatefulSet.UsageAfterSwitch | internal/calc/statefulset.go:68-83 | the usage is the switch's error or, for u unavailable pods, normal = Containers × replicas and rollout = Containers × (replicas − u) + MaxResources × u |
| StatefulSet.AbsentReplicasDefault | internal/calc/statefulset.go:21-43 | no replicas and the default strategy: one replica, `MaxReplicas` 1, rollout = MaxResources, normal = Containers |
| StatefulSet.OnDeleteRollout | internal/calc/statefulset.go:29-32 | OnDelete: rollout = MaxResources × replicas |
| StatefulSet.EmptyTypeIsDefaultRollingUpdate | internal/calc/statefulset.go:33-43 | an empty type behaves as RollingUpdate with maxUnavailable 1, never fails, and is reported as RollingUpdate |
| StatefulSet.RollingUpdateRollout | internal/calc/statefulset.go:44-70 | RollingUpdate: the rounded-up value, its scaling error or its int32 overflow decides the outcome |
| StatefulSet.UnknownTypeRolloutIsNormal | internal/calc/statefulset.go:28-70 | an unrecognised type is no error, rollout equals normal, and the type is reported as given |
| StatefulSet.NoInitContainersRolloutIsNormal | internal/calc/statefulset.go:68-70 | without init containers, rollout equals normal for every strategy |
| StatefulSet.OnDeleteThreeReplicas | internal/calc/statefulset.go:29-70 | three OnDelete replicas at 250m each, no init container: 750m at the peak |
| DaemonSet.DaemonSetUsage | internal/calc/daemonset.go:7-24 | normal = the ordinary sum, rollout = its per-dimension maximum with the init sum and so at least normal; metadata copied, strategy "", replicas 1 and 1 |
| Job.JobUsage | internal/calc/job.go:5-22 | normal = the ordinary sum, rollout = its per-dimension maximum with the init sum and so at least normal; metadata copied, strategy "", replicas 0 and 0 |
| CronJob.CronJobUsage | internal/calc/cronjob.go:5-24 | the job template's pod: normal = ordinary sum, rollout = per-dimension maximum; metadata copied, strategy "", replicas 0 and 0 |
| CronJob.SameAsJob | internal/calc/cronjob.go:5-8 | the figures are those of a Job with the same template |
| Pod.PodUsage | internal/calc/pod.go:5-24 | the pod's own spec: normal = ordinary sum, rollout = per-dimension maximum; metadata copied, strategy "", replicas 0 and 0 |
| Pod.BigInitContainerDecides | internal/calc/pod_test.go:47-54 | init containers larger in every dimension decide all four rollout values |
| Pod.PeakMixesDimensions | internal/calc/pod_test.go:55-63 | the maximum is per dimension, so the peak can take one value from the init sum and another from the ordinary sum |
| Dispatch.Tagged | internal/calc/calc.go:282-314 | a calculator error is wrapped with version and kind, and `Unwrap` gives the original error back; a success passes unchanged |
| Dispatch.ResourceQuota | internal/calc/calc.go:281-329 | each kind goes to its calculator; errors carry version and kind; the result is the not-supported error exactly for an unsupported object |
| Sorting.Insert | internal/calc/calc.go:205-212 | insertion adds one element and keeps the multiset otherwise unchanged |
| Sorting.SortDesc | internal/calc/calc.go:205-212 | the reference sort is a permutation of its input |
| Sorting.SortDescSorted | internal/calc/calc.go:205-212 | the reference sort is descending |
| Sorting.SortedUnique | internal/calc/calc.go:205-212 | two descending sequences with the same elements are equal |
| Sorting.SortDescending | internal/calc/calc.go:205-212 | the in-place sort leaves the array descending and a permutation of what it held |
| Sorting.SortedIsReference | internal/calc/calc.go:205-212 | the sorted array is exactly the reference sort of its former contents |
| Sorting.SumIntsPermutation | internal/calc/calc.go:214-228 | the sum of integers does not depend on their order |
| Sorting.TopSumZero | internal/calc/calc.go:214-228 | with no rollout allowed, nothing is added |
| Sorting.TopSumAll | internal/calc/calc.go:214-228 | with room for every delta, the added amount is the sum of all deltas |
| Sorting.PrefixIsLargest | internal/calc/calc.go:214-228 | in a descending sequence, no m elements drawn from it sum to more than its first m |
| Sorting.TopSumIsLargest | internal/calc/calc.go:214-228 | the top-k sum is at least the sum of any other choice of as many deltas |
| Total.Deltas | internal/calc/calc.go:195-203 | one delta per workload, in list order: rollout minus normal in that dimension |
| Total.SumRolloutLoop | internal/calc/calc.go:174-181 | the unlimited loop ends with the sum of every rollout figure |
| Total.SumNormalLoop | internal/calc/calc.go:186-191 | the first limited loop ends with the sum of every steady-state figure |
| Total.CollectDeltas | internal/calc/calc.go:193-203 | a fresh array holding exactly `Deltas` for the dimension |
| Total.AddFirst | internal/calc/calc.go:214-228 | a bounded loop adds the first min(maxRollout, length) entries |
| Total.AddTopDeltas | internal/calc/calc.go:205-228 | the array is left holding the reference descending sort of the deltas, and the loop adds the sum of the maxRollout largest of them |
| Total.CalcTotal | internal/calc/calc.go:166-237 | `Total` returns exactly `TotalOf` |
| Total.UnlimitedIsRolloutSum | internal/calc/calc.go:174-181 | a negative limit gives the sum of the rollout figures; an empty list gives zero |
| Total.ZeroLimitIsNormalSum | internal/calc/calc.go:182-228 | a limit of 0 gives the sum of the steady-state figures |
| Total.DeltasSum | internal/calc/calc.go:186-203 | the deltas of a dimension sum to rollout sum minus normal sum |
| Total.LimitCoveringAllIsRolloutSum | internal/calc/calc.go:182-228 | a limit of at least the list length gives the unlimited total |
| Total.LimitedAddsLargestDeltas | internal/calc/calc.go:182-228 | each dimension of a limited total is at least the normal sum plus any other choice of min(k, n) deltas |
| Total.TopOfTwo | internal/calc/calc.go:209-216 | with two deltas and one rollout, the larger delta is added |
| Total.TwoWorkloadsOneRollout | internal/calc/calc.go:182-228 | with two workloads and one rollout, CPU requests take B's 500m delta while memory limits, independently, take A's larger delta |

## Left out

- Quantity.MulInt32: the Go code multiplies through `float64` and truncates to `int64`. The model multiplies exactly, so it does not capture precision loss above 2^53 or the implementation-dependent result of an out-of-range `float64`→`int64` conversion. Its result is the exact product for every input, with no precondition.
- Quantity.MaxQuantity: on ties Go returns its second argument. As milli-values the two are equal, and the model does not keep the formatting a `resource.Quantity` carries.
- IntStr.ScaledValue: `intstr.GetScaledValueFromIntOrPercent` is a library call. Parsing `"25%"` is folded into the `Percent`/`Malformed` constructors (a number outside the int64 range, which `strconv.Atoi` rejects, is `Malformed`, and `Percent` carries an int64), and the library's error text is not modelled.
- Aggregate.ConvertToResources: it reads integer milli-values. Parsing quantities such as `250m` or `2Gi`, their scale and their `String()` formatting come from apimachinery and are left out.
- Decoding in `ResourceQuotaFromYaml` (scheme registration, the deserializer, the not-registered fallback and its log line) is left out. `Dispatch.ResourceQuota` takes the decoded object and the version and kind the decoder reported. The decode-failure error path is left out with it.
- Error messages are left out. Calculator errors are datatype values: `UnknownStrategy` carries the calculator, the object name and the type, and `OutOfInt32Bounds` names the field. `CalculationError.Error` formatting is left out too.
- Go nil pointers are left out. A Deployment's `replicas` pointer, and `MaxSurge`/`MaxUnavailable` inside a present rolling block, make the Go code panic when nil. The model makes these fields required.
- The single-value Deployment and DeploymentConfig results are left out as described above. The model fills `RolloutResources` with the computed figure and sets `NormalResources` to zero.
- The slice handling in `Total` is restructured. The model fills each dimension's deltas with its own loop (`Total.CollectDeltas`) instead of appending to four slices in one pass. It sorts with an in-place insertion sort instead of `slices.SortFunc`; both produce the same descending order of integers.
- `cmd/kuota-calc.go` is not part of this model: CLI flags, stream reading and table output are I/O.
