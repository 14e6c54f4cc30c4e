/**
  The admission gate of the limiter: a single signed counter of slots that
  may still be handed out. Each of the three ways the counter changes
  (a request asking to start, a request finishing, the sampler publishing a
  new capacity) is one atomic step, modelled as a pure transition.
 */
module Gate {

  /** Number of logical CPUs the runtime may use; the runtime never reports fewer than one. */
  type Procs = p: int | p >= 1 witness 1

  /** Multiplier applied to every capacity of the default and of the policy table. */
  const DefaultMultiplier: int := 300

  /** Scales a per-CPU count by the parallelism of the host. */
  function MulPerCpu(one: int, procs: Procs): (r: int)
    ensures one >= 0 ==> r >= one
    ensures r > 0 <==> one > 0
  {
    one * procs
  }

  /** Scaling by the host's parallelism keeps the order of the multipliers. */
  lemma MulPerCpuMonotone(a: int, b: int, procs: Procs)
    requires a <= b
    ensures MulPerCpu(a, procs) <= MulPerCpu(b, procs)
    ensures a < b ==> MulPerCpu(a, procs) < MulPerCpu(b, procs)
  {
  }

  /** The smaller of two integers (Go's built-in `min`). */
  function Min(a: int, b: int): (r: int)
    ensures r <= a && r <= b
    ensures r == a || r == b
  {
    if a <= b then a else b
  }

  /** The larger of two integers. */
  function Max(a: int, b: int): (r: int)
    ensures r >= a && r >= b
    ensures r == a || r == b
  {
    if a >= b then a else b
  }

  /** The limiter's whole state: the number of requests that may still start. */
  datatype Limit = Limit(token: int)

  /** What an admission attempt answers, together with the state it leaves. */
  datatype Decision = Decision(allowed: bool, limit: Limit)

  /** A fresh limiter: the default capacity, before the sampler has run. */
  function NewLimit(procs: Procs): (l: Limit)
    ensures l.token > 0
    ensures l.token == MulPerCpu(DefaultMultiplier, procs)
  {
    Limit(MulPerCpu(DefaultMultiplier, procs))
  }

  /**
    One admission attempt. A counter that is not positive rejects without
    any change; a positive counter admits and gives up exactly one slot.
   */
  function Allow(l: Limit): (r: Decision)
    ensures r.allowed <==> l.token > 0
    ensures r.allowed ==> r.limit.token == l.token - 1
    ensures !r.allowed ==> r.limit == l
    ensures r.limit.token >= 0 || r.limit == l
  {
    if l.token <= 0 then Decision(false, l)
    else Decision(true, Limit(l.token - 1))
  }

  /** A request finished: one slot is given back, whatever the counter held. */
  function End(l: Limit): (r: Limit)
    ensures r.token - l.token == 1
  {
    Limit(l.token + 1)
  }

  /** The sampler publishes a capacity: a blind overwrite, not a delta. */
  function Store(l: Limit, capacity: int): (r: Limit)
    ensures r.token == capacity
  {
    Limit(capacity)
  }

  /** A granted admission followed by its release restores the counter exactly. */
  lemma AllowThenEndRestores(l: Limit)
    requires Allow(l).allowed
    ensures End(Allow(l).limit) == l
  {
  }

  /** A rejected admission is not balanced by a release: a spurious End inflates the counter. */
  lemma RejectedAllowThenEndInflates(l: Limit)
    requires !Allow(l).allowed
    ensures End(Allow(l).limit).token == l.token + 1
  {
  }

  /**
    A release immediately followed by an admission succeeds exactly when the
    counter was not negative, and then leaves the counter where it was.
   */
  lemma EndThenAllow(l: Limit)
    ensures Allow(End(l)).allowed <==> l.token >= 0
    ensures Allow(End(l)).allowed ==> Allow(End(l)).limit == l
  {
  }

  /** An overwrite discards the whole history of the counter. */
  lemma StoreForgetsHistory(a: Limit, b: Limit, capacity: int)
    ensures Store(a, capacity) == Store(b, capacity)
    ensures Allow(Store(a, capacity)).allowed <==> capacity > 0
  {
  }

  /** Neither Allow nor End can take a non-negative counter below zero. */
  lemma RequestStepsKeepNonNegative(l: Limit)
    requires l.token >= 0
    ensures Allow(l).limit.token >= 0
    ensures End(l).token >= 0
  {
  }
}
