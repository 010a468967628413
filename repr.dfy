/**
  Scalar representation types shared by the whole model: the totally ordered
  `mz_repr::Timestamp` (an unsigned 64-bit number) and collection identifiers.
*/
module Repr {
  import opened Wrappers

  /** `Timestamp::MAX`: the largest value of the underlying `u64`. */
  const TIMESTAMP_MAX: int := 0xFFFF_FFFF_FFFF_FFFF

  type Timestamp = t: int | 0 <= t <= TIMESTAMP_MAX

  /** `Timestamp::minimum()` and `Timestamp::maximum()`. */
  const MINIMUM: Timestamp := 0
  const MAXIMUM: Timestamp := TIMESTAMP_MAX

  /** Identifier of a storage or compute collection (`GlobalId`), kept opaque. */
  type GlobalId = nat

  /** Identifier of a compute instance (`ComputeInstanceId`), kept opaque. */
  type ComputeInstanceId = nat

  /** Lattice join of two timestamps: the later one. */
  function Join(a: Timestamp, b: Timestamp): (r: Timestamp)
    ensures a <= r && b <= r
    ensures r == a || r == b
  {
    if a <= b then b else a
  }

  /** Lattice meet of two timestamps (`std::cmp::min` on a total order). */
  function Meet(a: Timestamp, b: Timestamp): (r: Timestamp)
    ensures r <= a && r <= b
    ensures r == a || r == b
  {
    if a <= b then a else b
  }

  /** `step_back`: the immediate predecessor, absent at the minimum (`checked_sub(1)`). */
  function StepBack(t: Timestamp): (r: Option<Timestamp>)
    ensures r.None? <==> t == MINIMUM
    ensures r.Some? ==> r.value + 1 == t
  {
    if t == 0 then None else Some(t - 1)
  }
}
