/**
  The capacity policy of the sampler: from the CPU usage (percent), the
  available memory (bytes) and the host's parallelism, the number of
  requests that may be in flight at once. Inputs are real numbers, an
  idealisation of the 64-bit floats they are in the program.
 */
module Policy {
  import opened Gate

  /** One row of a threshold table: the band's edge and its per-CPU capacity. */
  datatype Band = Band(threshold: real, multiplier: int)

  /** Bytes in one gibibyte: the unit the memory thresholds are expressed in. */
  const Gib: real := 1073741824.0

  /** CPU bands, most severe first: usage strictly above the threshold selects the band. */
  const CpuBands: seq<Band> := [Band(85.0, 10), Band(75.0, 32), Band(65.0, 64)]

  /** Memory bands, most severe first: available GiB strictly below the threshold selects the band. */
  const MemBands: seq<Band> := [Band(0.05, 10), Band(0.10, 32), Band(0.15, 64)]

  /**
    A table whose capacities never decrease from the most severe band on,
    and never exceed the capacity used when no band applies.
   */
  predicate Escalating(bands: seq<Band>, fallback: int) {
    (forall i, j :: 0 <= i < j < |bands| ==> bands[i].multiplier <= bands[j].multiplier)
    && (forall i :: 0 <= i < |bands| ==> bands[i].multiplier <= fallback)
  }

  /**
    The capacity of the first band whose threshold `x` strictly exceeds,
    or `fallback` when `x` exceeds none.
   */
  function FirstAbove(bands: seq<Band>, x: real, fallback: int): (m: int)
    decreases |bands|
  {
    if |bands| == 0 then fallback
    else if x > bands[0].threshold then bands[0].multiplier
    else FirstAbove(bands[1..], x, fallback)
  }

  /**
    The capacity of the first band whose threshold `x` is strictly below,
    or `fallback` when `x` is below none.
   */
  function FirstBelow(bands: seq<Band>, x: real, fallback: int): (m: int)
    decreases |bands|
  {
    if |bands| == 0 then fallback
    else if x < bands[0].threshold then bands[0].multiplier
    else FirstBelow(bands[1..], x, fallback)
  }

  /** The "above" lookup selects the first band whose threshold the reading exceeds. */
  lemma {:induction false} FirstAboveSelectsFirstMatch(bands: seq<Band>, x: real, fallback: int, i: int)
    requires 0 <= i < |bands| && x > bands[i].threshold
    requires forall j :: 0 <= j < i ==> x <= bands[j].threshold
    ensures FirstAbove(bands, x, fallback) == bands[i].multiplier
    decreases |bands|
  {
    if i > 0 {
      assert x <= bands[0].threshold;
      FirstAboveSelectsFirstMatch(bands[1..], x, fallback, i - 1);
    }
  }

  /** The "above" lookup falls back when no band's threshold is exceeded. */
  lemma {:induction false} FirstAboveFallsBack(bands: seq<Band>, x: real, fallback: int)
    requires forall j :: 0 <= j < |bands| ==> x <= bands[j].threshold
    ensures FirstAbove(bands, x, fallback) == fallback
    decreases |bands|
  {
    if |bands| > 0 {
      assert x <= bands[0].threshold;
      FirstAboveFallsBack(bands[1..], x, fallback);
    }
  }

  /** The "below" lookup selects the first band whose threshold the reading is under. */
  lemma {:induction false} FirstBelowSelectsFirstMatch(bands: seq<Band>, x: real, fallback: int, i: int)
    requires 0 <= i < |bands| && x < bands[i].threshold
    requires forall j :: 0 <= j < i ==> x >= bands[j].threshold
    ensures FirstBelow(bands, x, fallback) == bands[i].multiplier
    decreases |bands|
  {
    if i > 0 {
      assert x >= bands[0].threshold;
      FirstBelowSelectsFirstMatch(bands[1..], x, fallback, i - 1);
    }
  }

  /** The "below" lookup falls back when the reading is under no band's threshold. */
  lemma {:induction false} FirstBelowFallsBack(bands: seq<Band>, x: real, fallback: int)
    requires forall j :: 0 <= j < |bands| ==> x >= bands[j].threshold
    ensures FirstBelow(bands, x, fallback) == fallback
    decreases |bands|
  {
    if |bands| > 0 {
      assert x >= bands[0].threshold;
      FirstBelowFallsBack(bands[1..], x, fallback);
    }
  }

  /** In an escalating table every selectable capacity is at least the first band's. */
  lemma {:induction false} FirstAboveAtLeastHead(bands: seq<Band>, x: real, fallback: int)
    requires Escalating(bands, fallback) && |bands| > 0
    ensures FirstAbove(bands, x, fallback) >= bands[0].multiplier
    decreases |bands|
  {
    if x <= bands[0].threshold && |bands| > 1 {
      FirstAboveAtLeastHead(bands[1..], x, fallback);
    }
  }

  /** In an escalating table every selectable capacity is at least the first band's. */
  lemma {:induction false} FirstBelowAtLeastHead(bands: seq<Band>, x: real, fallback: int)
    requires Escalating(bands, fallback) && |bands| > 0
    ensures FirstBelow(bands, x, fallback) >= bands[0].multiplier
    decreases |bands|
  {
    if x >= bands[0].threshold && |bands| > 1 {
      FirstBelowAtLeastHead(bands[1..], x, fallback);
    }
  }

  /** A higher reading never selects a larger capacity from an escalating "above" table. */
  lemma {:induction false} FirstAboveMonotone(bands: seq<Band>, x1: real, x2: real, fallback: int)
    requires Escalating(bands, fallback) && x1 <= x2
    ensures FirstAbove(bands, x2, fallback) <= FirstAbove(bands, x1, fallback)
    decreases |bands|
  {
    if |bands| > 0 {
      if x2 > bands[0].threshold {
        FirstAboveAtLeastHead(bands, x1, fallback);
      } else {
        FirstAboveMonotone(bands[1..], x1, x2, fallback);
      }
    }
  }

  /** A lower reading never selects a larger capacity from an escalating "below" table. */
  lemma {:induction false} FirstBelowMonotone(bands: seq<Band>, x1: real, x2: real, fallback: int)
    requires Escalating(bands, fallback) && x1 <= x2
    ensures FirstBelow(bands, x1, fallback) <= FirstBelow(bands, x2, fallback)
    decreases |bands|
  {
    if |bands| > 0 {
      if x1 < bands[0].threshold {
        FirstBelowAtLeastHead(bands, x2, fallback);
      } else {
        FirstBelowMonotone(bands[1..], x1, x2, fallback);
      }
    }
  }

  /** Both tables of the program escalate: a milder band never allows less than a severer one. */
  lemma TablesEscalate()
    ensures Escalating(CpuBands, DefaultMultiplier)
    ensures Escalating(MemBands, DefaultMultiplier)
  {
  }

  /** The CPU table read by first match gives the program's chain of strict `>` tests. */
  lemma CpuTableLookup(cpu: real)
    ensures FirstAbove(CpuBands, cpu, DefaultMultiplier)
            == if cpu > 85.0 then 10
               else if cpu > 75.0 then 32
               else if cpu > 65.0 then 64
               else DefaultMultiplier
  {
    if cpu > 85.0 {
      FirstAboveSelectsFirstMatch(CpuBands, cpu, DefaultMultiplier, 0);
    } else if cpu > 75.0 {
      FirstAboveSelectsFirstMatch(CpuBands, cpu, DefaultMultiplier, 1);
    } else if cpu > 65.0 {
      FirstAboveSelectsFirstMatch(CpuBands, cpu, DefaultMultiplier, 2);
    } else {
      FirstAboveFallsBack(CpuBands, cpu, DefaultMultiplier);
    }
  }

  /** The memory table read by first match gives the program's chain of strict `<` tests. */
  lemma MemTableLookup(fraction: real)
    ensures FirstBelow(MemBands, fraction, DefaultMultiplier)
            == if fraction < 0.05 then 10
               else if fraction < 0.10 then 32
               else if fraction < 0.15 then 64
               else DefaultMultiplier
  {
    if fraction < 0.05 {
      FirstBelowSelectsFirstMatch(MemBands, fraction, DefaultMultiplier, 0);
    } else if fraction < 0.10 {
      FirstBelowSelectsFirstMatch(MemBands, fraction, DefaultMultiplier, 1);
    } else if fraction < 0.15 {
      FirstBelowSelectsFirstMatch(MemBands, fraction, DefaultMultiplier, 2);
    } else {
      FirstBelowFallsBack(MemBands, fraction, DefaultMultiplier);
    }
  }

  /** The per-CPU capacity the CPU usage alone would allow, read from the CPU table. */
  function CpuMultiplier(cpu: real): (m: int)
    ensures m == 10 <==> cpu > 85.0
    ensures m == 32 <==> 75.0 < cpu <= 85.0
    ensures m == 64 <==> 65.0 < cpu <= 75.0
    ensures m == DefaultMultiplier <==> cpu <= 65.0
  {
    CpuTableLookup(cpu);
    FirstAbove(CpuBands, cpu, DefaultMultiplier)
  }

  /** The per-CPU capacity the available memory alone would allow, read from the memory table. */
  function MemMultiplier(ava: real): (m: int)
    ensures m == 10 <==> ava / Gib < 0.05
    ensures m == 32 <==> 0.05 <= ava / Gib < 0.10
    ensures m == 64 <==> 0.10 <= ava / Gib < 0.15
    ensures m == DefaultMultiplier <==> ava / Gib >= 0.15
  {
    MemTableLookup(ava / Gib);
    FirstBelow(MemBands, ava / Gib, DefaultMultiplier)
  }

  /** Higher CPU usage never selects a larger per-CPU capacity. */
  lemma CpuMultiplierMonotone(cpu1: real, cpu2: real)
    requires cpu1 <= cpu2
    ensures CpuMultiplier(cpu2) <= CpuMultiplier(cpu1)
  {
    TablesEscalate();
    FirstAboveMonotone(CpuBands, cpu1, cpu2, DefaultMultiplier);
  }

  /** Less available memory never selects a larger per-CPU capacity. */
  lemma MemMultiplierMonotone(ava1: real, ava2: real)
    requires ava1 <= ava2
    ensures MemMultiplier(ava1) <= MemMultiplier(ava2)
  {
    TablesEscalate();
    FirstBelowMonotone(MemBands, ava1 / Gib, ava2 / Gib, DefaultMultiplier);
  }

  /** The candidate capacity the CPU usage alone would allow. */
  function CpuCandidate(cpu: real, procs: Procs): int {
    MulPerCpu(CpuMultiplier(cpu), procs)
  }

  /** The candidate capacity the available memory alone would allow. */
  function MemCandidate(ava: real, procs: Procs): int {
    MulPerCpu(MemMultiplier(ava), procs)
  }

  /**
    The values of `GOMAXPROCS` one sampler iteration depends on. The default
    was scaled once, when the sampler started; each tick then reads the
    parallelism again for the one CPU band it selects and again for the one
    memory band it selects.
   */
  datatype ProcsReads = ProcsReads(atStart: Procs, cpuBand: Procs, memBand: Procs) {
    /** The parallelism has not changed since the sampler started. */
    predicate Steady() {
      atStart == cpuBand && cpuBand == memBand
    }
  }

  /** The reads of a host whose parallelism never changes. */
  function SteadyReads(procs: Procs): (par: ProcsReads)
    ensures par.Steady() && par.atStart == procs
  {
    ProcsReads(procs, procs, procs)
  }

  /**
    One evaluation of the policy, branch for branch as the sampler computes
    it: start from the default, let the CPU bands replace it, then let the
    memory bands lower it. Each scaling uses the parallelism read for it.
   */
  function AdjustStep(cpu: real, ava: real, par: ProcsReads): (r: int)
    ensures r in {MulPerCpu(10, par.cpuBand), MulPerCpu(32, par.cpuBand),
                  MulPerCpu(64, par.cpuBand),
                  MulPerCpu(10, par.memBand), MulPerCpu(32, par.memBand),
                  MulPerCpu(64, par.memBand),
                  MulPerCpu(DefaultMultiplier, par.atStart)}
    ensures r > 0
    ensures r <= Max(MulPerCpu(DefaultMultiplier, par.atStart), MulPerCpu(64, par.cpuBand))
    ensures var cpuPart := if CpuMultiplier(cpu) == DefaultMultiplier
                           then MulPerCpu(DefaultMultiplier, par.atStart)
                           else CpuCandidate(cpu, par.cpuBand);
            r == if MemMultiplier(ava) == DefaultMultiplier then cpuPart
                 else Min(cpuPart, MemCandidate(ava, par.memBand))
  {
    var defaultLimit := MulPerCpu(DefaultMultiplier, par.atStart);
    var next2 :=
      if cpu > 85.0 then MulPerCpu(10, par.cpuBand)
      else if cpu > 75.0 then MulPerCpu(32, par.cpuBand)
      else if cpu > 65.0 then MulPerCpu(64, par.cpuBand)
      else defaultLimit;
    if ava / Gib < 0.05 then Min(next2, MulPerCpu(10, par.memBand))
    else if ava / Gib < 0.10 then Min(next2, MulPerCpu(32, par.memBand))
    else if ava / Gib < 0.15 then Min(next2, MulPerCpu(64, par.memBand))
    else next2
  }

  /** Lowering the available memory never raises the capacity, whatever the parallelism does. */
  lemma AdjustStepMonotoneInMemory(cpu: real, ava1: real, ava2: real, par: ProcsReads)
    requires ava1 <= ava2
    ensures AdjustStep(cpu, ava1, par) <= AdjustStep(cpu, ava2, par)
  {
    MemMultiplierMonotone(ava1, ava2);
    MulPerCpuMonotone(MemMultiplier(ava1), MemMultiplier(ava2), par.memBand);
  }

  /**
    Raising CPU usage never raises the capacity as long as the frozen
    default is at least the mildest CPU band at the parallelism read for it.
   */
  lemma AdjustStepMonotoneInCpu(cpu1: real, cpu2: real, ava: real, par: ProcsReads)
    requires cpu1 <= cpu2
    requires MulPerCpu(64, par.cpuBand) <= MulPerCpu(DefaultMultiplier, par.atStart)
    ensures AdjustStep(cpu2, ava, par) <= AdjustStep(cpu1, ava, par)
  {
    CpuMultiplierMonotone(cpu1, cpu2);
    MulPerCpuMonotone(CpuMultiplier(cpu2), CpuMultiplier(cpu1), par.cpuBand);
  }

  /**
    The converse: when the frozen default is below the mildest CPU band, a
    loaded host gets more capacity than an idle one, so CPU monotonicity
    holds exactly when the default is at least that band.
   */
  lemma AdjustStepCpuMonotoneOnlyIf(par: ProcsReads)
    requires MulPerCpu(DefaultMultiplier, par.atStart) < MulPerCpu(64, par.cpuBand)
    ensures AdjustStep(70.0, Gib, par) > AdjustStep(60.0, Gib, par)
  {
  }

  /**
    When the parallelism has grown since the sampler started, a loaded host
    can get more capacity than an idle one: starting with 1 CPU and now
    having 8, 70% usage publishes 512 while 60% publishes the frozen 300.
   */
  lemma FrozenDefaultCanBeExceeded()
    ensures AdjustStep(70.0, Gib, ProcsReads(1, 8, 8)) == 512
    ensures AdjustStep(60.0, Gib, ProcsReads(1, 8, 8)) == 300
  {
  }

  /**
    When the parallelism changes between the CPU and the memory band of one
    tick, the sampler can publish a capacity that neither parallelism alone
    would publish: CPU bands at 8, memory bands at 1, 90% usage and 0.12 GiB
    free publish 64, while a steady 8 gives 80 and a steady 1 gives 10.
   */
  lemma BandsReadDifferentParallelism()
    ensures AdjustStep(90.0, 0.12 * Gib, ProcsReads(8, 8, 1)) == 64
    ensures Capacity(90.0, 0.12 * Gib, 8) == 80
    ensures Capacity(90.0, 0.12 * Gib, 1) == 10
  {
  }

  /**
    The policy while the parallelism stays what it was when the sampler
    started: the more restrictive of the two table candidates.
   */
  function Capacity(cpu: real, ava: real, procs: Procs): (r: int)
    ensures r == Min(CpuCandidate(cpu, procs), MemCandidate(ava, procs))
    ensures r in {MulPerCpu(10, procs), MulPerCpu(32, procs), MulPerCpu(64, procs),
                  MulPerCpu(DefaultMultiplier, procs)}
    ensures MulPerCpu(10, procs) <= r <= MulPerCpu(DefaultMultiplier, procs)
  {
    AdjustStep(cpu, ava, SteadyReads(procs))
  }

  /** With a constant parallelism, raising CPU usage never raises the capacity. */
  lemma CapacityMonotoneInCpu(cpu1: real, cpu2: real, ava: real, procs: Procs)
    requires cpu1 <= cpu2
    ensures Capacity(cpu2, ava, procs) <= Capacity(cpu1, ava, procs)
  {
    MulPerCpuMonotone(64, DefaultMultiplier, procs);
    AdjustStepMonotoneInCpu(cpu1, cpu2, ava, SteadyReads(procs));
  }

  /** With a constant parallelism, lowering the available memory never raises the capacity. */
  lemma CapacityMonotoneInMemory(cpu: real, ava1: real, ava2: real, procs: Procs)
    requires ava1 <= ava2
    ensures Capacity(cpu, ava1, procs) <= Capacity(cpu, ava2, procs)
  {
    AdjustStepMonotoneInMemory(cpu, ava1, ava2, SteadyReads(procs));
  }

  /** Band edges are strict: a reading exactly on an edge stays in the milder band. */
  lemma BandEdgesAreStrict(procs: Procs)
    ensures Capacity(85.0, Gib, procs) == MulPerCpu(32, procs)
    ensures Capacity(75.0, Gib, procs) == MulPerCpu(64, procs)
    ensures Capacity(65.0, Gib, procs) == MulPerCpu(DefaultMultiplier, procs)
    ensures Capacity(1.0, 0.05 * Gib, procs) == MulPerCpu(32, procs)
    ensures Capacity(1.0, 0.10 * Gib, procs) == MulPerCpu(64, procs)
    ensures Capacity(1.0, 0.15 * Gib, procs) == MulPerCpu(DefaultMultiplier, procs)
  {
  }

  /** The more restrictive signal wins, whichever of the two it is. */
  lemma MostRestrictiveSignalWins(procs: Procs)
    ensures Capacity(90.0, 10.0 * Gib, procs) == MulPerCpu(10, procs)
    ensures Capacity(40.0, 40.0 * 1048576.0, procs) == MulPerCpu(10, procs)
  {
  }
}
