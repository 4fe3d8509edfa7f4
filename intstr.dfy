/**
 * A strategy field that is either a literal integer or a percentage of the
 * replica count, and its conversion to an absolute number of pods.
 */
module IntStr {
  import opened Ints
  import opened Wrappers

  /**
   * `Int(n)` is a literal int; `Percent(p)` is a string "p%" whose number
   * parsed as a Go `int`; `Malformed(s)` is any other string (no trailing '%',
   * no number before it, or a number outside the int64 range).
   */
  datatype IntOrPercent = Int(n: int32) | Percent(p: int64) | Malformed(s: string)

  /** The scaling failure: a string value that is not a percentage. */
  datatype ScaleError = NotAPercentage(s: string)

  /**
   * Absolute value of a strategy field for `total` replicas: a literal passes
   * unchanged, a percentage is p*total/100 rounded down, or up when roundUp.
   */
  function ScaledValue(v: IntOrPercent, total: int, roundUp: bool): (r: Result<int, ScaleError>)
    ensures v.Int? ==> r == Ok(v.n)
    ensures v.Malformed? ==> r == Err(NotAPercentage(v.s))
    ensures v.Percent? ==> r.Ok?
  {
    match v
    case Int(n) => Ok(n)
    case Percent(p) => Ok(if roundUp then -((-(p * total)) / 100) else (p * total) / 100)
    case Malformed(s) => Err(NotAPercentage(s))
  }

  /** A percentage scales to the floor of p*total/100, or to its ceiling when rounding up. */
  lemma PercentRounding(p: int64, total: int)
    ensures var lo := ScaledValue(Percent(p), total, false).value;
            lo * 100 <= p * total < (lo + 1) * 100
    ensures var hi := ScaledValue(Percent(p), total, true).value;
            (hi - 1) * 100 < p * total <= hi * 100
  {
  }

  /** The scaled value of a percentage never exceeds the total when rounding down, for 0..100%. */
  lemma FloorPercentAtMostTotal(p: int, total: nat)
    requires 0 <= p <= 100
    ensures 0 <= ScaledValue(Percent(p), total, false).value <= total
  {
    PercentRounding(p, total);
    assert p * total <= 100 * total;
  }

  /** The 25% default on ten replicas: two may be unavailable, three may surge. */
  lemma DefaultsOnTenReplicas()
    ensures ScaledValue(Percent(25), 10, false) == Ok(2)
    ensures ScaledValue(Percent(25), 10, true) == Ok(3)
  {
  }

  /** Rounding up gives at least rounding down, and at most one more. */
  lemma CeilAtMostOneAboveFloor(p: int64, total: int)
    ensures var lo := ScaledValue(Percent(p), total, false).value;
            var hi := ScaledValue(Percent(p), total, true).value;
            lo <= hi <= lo + 1
  {
    PercentRounding(p, total);
  }
}
