/** Vocabulary shared by every part of the model. */
module Common {

  datatype Option<+T> = None | Some(value: T)

  /** Points in time and durations, in seconds. Rounding to microseconds is not modelled. */
  type Time = real

  /** Identifiers. Fresh uuids are ids that were never issued before; their order is the
      lexicographic order the SQL sorts by. */
  type RequestId = nat
  type BudgetId = nat
  type CacheKey = nat
  type Owner = nat

  /** An arXiv id: a version family and, unless it is the bare base id, a version. */
  datatype PaperId = PaperId(family: nat, version: Option<nat>)

  function MaxReal(x: real, y: real): (m: real)
    ensures m >= x && m >= y && (m == x || m == y)
  {
    if x >= y then x else y
  }

  function MinReal(x: real, y: real): (m: real)
    ensures m <= x && m <= y && (m == x || m == y)
  {
    if x <= y then x else y
  }
}
