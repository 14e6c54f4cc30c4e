/**
  One tick of the background sampler: read the two host probes (substituting
  their neutral fallbacks when a probe fails), evaluate the capacity policy
  and overwrite the gate's counter with the result.
 */
module Sampler {
  import opened Gate
  import opened Policy
  import opened Trace

  /** What the CPU probe returned: an error, or the combined usage percentage, as a slice. */
  datatype CpuReading = CpuFailed | CpuPercents(percent: seq<real>)

  /** What the memory probe returned: an error, or the available bytes. */
  datatype MemReading = MemFailed | MemProbed(bytes: nat)

  /** The largest signed 64-bit integer, reported as available memory when the probe fails. */
  const MaxInt64: int := 0x7FFF_FFFF_FFFF_FFFF

  /** MaxInt64 converted to a 64-bit float: the nearest double is 2^63. */
  const MaxInt64AsFloat: real := 9223372036854775808.0

  /**
    CPU usage in percent. A failed probe, or one that returned no
    measurement, reads as 1%, which no CPU band reacts to.
   */
  function CpuUsage(reading: CpuReading): (u: real)
    ensures reading.CpuPercents? && |reading.percent| > 0 ==> u == reading.percent[0]
    ensures reading.CpuFailed? || |reading.percent| == 0 ==> u == 1.0
    ensures reading.CpuFailed? || |reading.percent| == 0 ==> CpuMultiplier(u) == DefaultMultiplier
  {
    match reading
    case CpuFailed => 1.0
    case CpuPercents(percent) => if |percent| == 0 then 1.0 else percent[0]
  }

  /**
    Available memory in bytes. A failed probe reads as the largest 64-bit
    integer, which no memory band reacts to.
   */
  function MemoryAvailable(reading: MemReading): (a: real)
    ensures reading.MemProbed? ==> a == reading.bytes as real
    ensures reading.MemFailed? ==> a == MaxInt64AsFloat && a == (MaxInt64 + 1) as real
    ensures reading.MemFailed? ==> MemMultiplier(a) == DefaultMultiplier
  {
    match reading
    case MemFailed => MaxInt64AsFloat
    case MemProbed(bytes) => bytes as real
  }

  /**
    The capacity one sampler iteration publishes: the policy evaluated on
    the probe readings, with the parallelism read as recorded in `par`. It is
    always positive, bounded by the frozen default or the mildest CPU band,
    and at a steady parallelism between 10 and 300 times the CPU count.
   */
  function TickCapacity(par: ProcsReads, cpu: CpuReading, mem: MemReading): (c: int)
    ensures c > 0
    ensures c <= Max(MulPerCpu(DefaultMultiplier, par.atStart), MulPerCpu(64, par.cpuBand))
    ensures par.Steady() ==>
              MulPerCpu(10, par.atStart) <= c <= MulPerCpu(DefaultMultiplier, par.atStart)
  {
    AdjustStep(CpuUsage(cpu), MemoryAvailable(mem), par)
  }

  /**
    One sampler iteration: the capacity chosen from the probes overwrites
    the counter. Since that capacity is positive, whatever the counter held,
    even after saturation, the next admission attempt is granted.
   */
  function Tick(l: Limit, par: ProcsReads, cpu: CpuReading, mem: MemReading): (r: Limit)
    ensures r.token == TickCapacity(par, cpu, mem)
    ensures Allow(r).allowed
  {
    Store(l, TickCapacity(par, cpu, mem))
  }

  /** A tick discards the counter it overwrites: in-flight accounting does not carry over. */
  lemma TickForgetsCounter(a: Limit, b: Limit, par: ProcsReads, cpu: CpuReading, mem: MemReading)
    ensures Tick(a, par, cpu, mem) == Tick(b, par, cpu, mem)
  {
  }

  /**
    With both probes failing the sampler publishes its frozen default, the
    capacity a fresh limiter starts with at the same parallelism.
   */
  lemma BothProbesFailGivesDefault(par: ProcsReads)
    ensures TickCapacity(par, CpuFailed, MemFailed) == NewLimit(par.atStart).token
  {
  }

  /**
    A failed CPU probe leaves the decision to the memory bands alone, capped
    by the frozen default; at a steady parallelism it is the memory
    candidate.
   */
  lemma CpuProbeFailureDefersToMemory(par: ProcsReads, mem: MemReading)
    ensures var a := MemoryAvailable(mem);
            TickCapacity(par, CpuFailed, mem)
              == if MemMultiplier(a) == DefaultMultiplier then MulPerCpu(DefaultMultiplier, par.atStart)
                 else Min(MulPerCpu(DefaultMultiplier, par.atStart), MemCandidate(a, par.memBand))
    ensures par.Steady() ==>
              TickCapacity(par, CpuFailed, mem) == MemCandidate(MemoryAvailable(mem), par.memBand)
  {
  }

  /**
    A failed memory probe leaves the decision to the CPU bands alone: their
    candidate, or the frozen default when no band applies.
   */
  lemma MemProbeFailureDefersToCpu(par: ProcsReads, cpu: CpuReading)
    ensures var u := CpuUsage(cpu);
            TickCapacity(par, cpu, MemFailed)
              == if CpuMultiplier(u) == DefaultMultiplier then MulPerCpu(DefaultMultiplier, par.atStart)
                 else CpuCandidate(u, par.cpuBand)
    ensures par.Steady() ==>
              TickCapacity(par, cpu, MemFailed) == CpuCandidate(CpuUsage(cpu), par.cpuBand)
  {
  }

  /** The two probe scenarios at a steady parallelism: 90% CPU with 10 GB free, and 40% CPU with 40 MB free. */
  lemma ProbeScenarios(procs: Procs)
    ensures TickCapacity(SteadyReads(procs), CpuPercents([90.0]), MemProbed(10_000_000_000))
            == MulPerCpu(10, procs)
    ensures TickCapacity(SteadyReads(procs), CpuPercents([40.0]), MemProbed(40_000_000))
            == MulPerCpu(10, procs)
  {
  }

  /** What happens to the counter: a request starts or finishes, or the sampler ticks. */
  datatype Event =
    | Attempt
    | Release
    | Sample(par: ProcsReads, cpu: CpuReading, mem: MemReading)

  /** The atomic step an event performs on the counter. */
  function EventOp(e: Event): (op: Op)
    ensures op.StoreOp? ==> op.capacity > 0
    ensures op == AllowOp <==> e == Attempt
    ensures op == EndOp <==> e == Release
  {
    match e
    case Attempt => AllowOp
    case Release => EndOp
    case Sample(par, cpu, mem) => StoreOp(TickCapacity(par, cpu, mem))
  }

  /** The steps a sequence of events performs, in order. */
  function EventOps(events: seq<Event>): (ops: seq<Op>)
    ensures |ops| == |events|
    ensures forall i :: 0 <= i < |events| ==> ops[i] == EventOp(events[i])
    ensures PositiveStores(ops)
  {
    seq(|events|, i requires 0 <= i < |events| => EventOp(events[i]))
  }

  /**
    Every counter a limiter can reach is non-negative: from a fresh limiter,
    whatever requests start and finish and whatever the sampler publishes,
    the counter never goes below zero.
   */
  lemma ReachableCounterNonNegative(procs: Procs, events: seq<Event>)
    ensures Run(NewLimit(procs), EventOps(events)).limit.token >= 0
  {
    NeverNegative(NewLimit(procs), EventOps(events));
  }
}
