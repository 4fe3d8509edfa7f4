/**
 * Arithmetic on the four resource quantities of a workload
 * (CPU request, CPU limit, memory request, memory limit).
 * Every quantity is held as its integer milli-value, which is what the
 * comparisons and the integer multiplication act on.
 */
module Quantity {
  import opened Ints

  /** CPUMin/CPUMax are CPU request/limit, MemoryMin/MemoryMax memory request/limit, in milli-units. */
  datatype Resources = Resources(cpuMin: int, cpuMax: int, memoryMin: int, memoryMax: int)

  /** The four dimensions, so that a per-dimension statement can be made once. */
  datatype Dimension = CPUMin | CPUMax | MemoryMin | MemoryMax

  function Get(r: Resources, d: Dimension): int {
    match d
    case CPUMin => r.cpuMin
    case CPUMax => r.cpuMax
    case MemoryMin => r.memoryMin
    case MemoryMax => r.memoryMax
  }

  /** The zero value of the Go struct: every quantity is zero. */
  const Zero: Resources := Resources(0, 0, 0, 0)

  predicate NonNegative(r: Resources) {
    forall d :: Get(r, d) >= 0
  }

  /** `Resources.Add`: the sum, quantity by quantity. */
  function Add(x: Resources, y: Resources): (r: Resources)
    ensures forall d :: Get(r, d) == Get(x, d) + Get(y, d)
  {
    Resources(x.cpuMin + y.cpuMin, x.cpuMax + y.cpuMax, x.memoryMin + y.memoryMin, x.memoryMax + y.memoryMax)
  }

  /** `Resources.MulInt32`: every milli-value scaled by the integer n. */
  function MulInt32(x: Resources, n: int32): (r: Resources)
    ensures forall d :: Get(r, d) == Get(x, d) * n
  {
    Resources(x.cpuMin * n, x.cpuMax * n, x.memoryMin * n, x.memoryMax * n)
  }

  /** `maxQuantity`: the first argument only when it is strictly larger. */
  function MaxQuantity(q1: int, q2: int): (r: int)
    ensures r >= q1 && r >= q2
    ensures r == q1 || r == q2
  {
    if q1 > q2 then q1 else q2
  }

  /** `diffQuantities`: higher minus lower, possibly negative. */
  function DiffQuantities(higher: int, lower: int): (r: int)
    ensures lower + r == higher
  {
    higher - lower
  }

  /** The per-dimension maximum of two records. */
  function MaxResources(x: Resources, y: Resources): (r: Resources)
    ensures forall d :: Get(r, d) >= Get(x, d) && Get(r, d) >= Get(y, d)
    ensures forall d :: Get(r, d) == Get(x, d) || Get(r, d) == Get(y, d)
  {
    Resources(MaxQuantity(x.cpuMin, y.cpuMin), MaxQuantity(x.cpuMax, y.cpuMax),
              MaxQuantity(x.memoryMin, y.memoryMin), MaxQuantity(x.memoryMax, y.memoryMax))
  }

  lemma AddCommutative(x: Resources, y: Resources)
    ensures Add(x, y) == Add(y, x)
  {
  }

  lemma AddAssociative(x: Resources, y: Resources, z: Resources)
    ensures Add(Add(x, y), z) == Add(x, Add(y, z))
  {
  }

  lemma AddZero(x: Resources)
    ensures Add(x, Zero) == x && Add(Zero, x) == x
  {
  }

  lemma MulInt32Zero(x: Resources)
    ensures MulInt32(x, 0) == Zero
  {
  }

  lemma MulInt32One(x: Resources)
    ensures MulInt32(x, 1) == x
  {
  }

  /** Scaling by an integer distributes over integer addition. */
  lemma MulInt32Distributes(x: Resources, a: int32, b: int32)
    requires InInt32(a + b)
    ensures Add(MulInt32(x, a), MulInt32(x, b)) == MulInt32(x, a + b)
  {
    assert x.cpuMin * a + x.cpuMin * b == x.cpuMin * (a + b);
    assert x.cpuMax * a + x.cpuMax * b == x.cpuMax * (a + b);
    assert x.memoryMin * a + x.memoryMin * b == x.memoryMin * (a + b);
    assert x.memoryMax * a + x.memoryMax * b == x.memoryMax * (a + b);
  }

  lemma MaxResourcesCommutative(x: Resources, y: Resources)
    ensures MaxResources(x, y) == MaxResources(y, x)
  {
  }

  lemma MaxResourcesIdempotent(x: Resources)
    ensures MaxResources(x, x) == x
  {
  }

  /** A record larger in every dimension is the per-dimension maximum. */
  lemma MaxResourcesOfLarger(x: Resources, y: Resources)
    requires forall d :: Get(y, d) > Get(x, d)
    ensures MaxResources(x, y) == y
  {
    assert Get(y, CPUMin) > Get(x, CPUMin) && Get(y, CPUMax) > Get(x, CPUMax);
    assert Get(y, MemoryMin) > Get(x, MemoryMin) && Get(y, MemoryMax) > Get(x, MemoryMax);
  }
}
