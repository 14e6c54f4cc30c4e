# Adaptive admission limiter — Dafny model

This project models `limit`, a Go package that caps how many requests a server
handles at once. The cap adapts to how busy the host is. A `Limit` holds one
atomic signed counter, `token`. `Allow` takes a slot when the counter is
positive and rejects otherwise. `End` gives a slot back. A background sampler
checks CPU usage and available memory about once a second. It picks a capacity
from a fixed threshold table scaled by `GOMAXPROCS`, and it **overwrites** the
counter with that capacity.

The model has four modules:

- `Gate` (`gate.dfy`) holds the counter as the datatype `Limit`. `Allow`, `End`
  and `Store` are pure transitions, each one atomic step. The module also has
  `NewLimit`'s starting value and `mulPerCpu`.
- `Trace` (`trace.dfy`) models runs, which are sequences of those steps. It counts
  how many admissions a run grants. Its lemmas cover:
  - exact grant counts for consecutive attempts;
  - conservation of the counter and no over-admission;
  - what an overwrite followed by releases leaves behind;
  - the counter staying non-negative while only positive capacities are published.
- `Policy` (`policy.dfy`) models the capacity choice of one sampler iteration.
  `AdjustStep` follows the program's branches one for one. `mulPerCpu` reads
  `GOMAXPROCS` on every call, so the step depends on three reads, recorded in
  `ProcsReads`:
  - the default, scaled once when the sampler started, because `adjust`
    computes `default_limit` before its loop;
  - the one CPU band the tick selects;
  - the one memory band the tick selects.

  `Capacity` is the same step with a steady parallelism. It is proved equal to
  the minimum of two lookups in the documented threshold tables. One table is for
  CPU, with strict `>` bands; the other is for memory, with strict `<` bands on
  available GiB. The lookups are generic "first matching band" functions, and the
  monotonicity of the real tables is derived from the generic monotonicity lemmas.
- `Sampler` (`sampler.dfy`) models the probe fallbacks (1% CPU, `MaxInt64` bytes
  of memory, which becomes 2^63 as a float) and one tick: probe, evaluate the
  policy, store. A tick always
  publishes a positive capacity. So from `NewLimit`, whatever requests start and
  finish and whatever the sampler publishes, the counter never goes negative.

The blind overwrite loses in-flight accounting in the other direction. Suppose
`m` requests are running when the sampler stores `n`. Their `m` releases raise
the counter to `n + m`, so more requests can be admitted than the capacity just
published (`Trace.OverwriteThenReleases`).

If `GOMAXPROCS` grows while the program runs, the frozen default can sit below
a CPU band's capacity. Then a loaded host gets more capacity than an idle one.
For example, with 1 CPU at start and 8 now, 70% usage publishes 512 while 60%
publishes 300 (`Policy.FrozenDefaultCanBeExceeded`). CPU monotonicity holds
exactly when the frozen default is at least the mildest CPU band's capacity.
`Policy.AdjustStepMonotoneInCpu` proves the "if" direction and
`Policy.AdjustStepCpuMonotoneOnlyIf` the "only if" direction. A change between
the CPU read and the memory read of one tick can publish a capacity that
neither parallelism alone would publish (`Policy.BandsReadDifferentParallelism`).

CPU usage and available memory are Dafny `real`s, an idealisation of `float64`.
`runtime.GOMAXPROCS(0)` is a parameter of subset type `Procs` (at least 1).

The package's doc comment gives the memory cut-offs as 50/100/150 MB. The code
compares `available / 2^30` against 0.05/0.10/0.15, which is about
53.7/107.4/161.1 MB. The model follows the code.

## Model

| member | source | states |
|---|---|---|
| Gate.MulPerCpu | limit.go:104-107 | scaling a positive per-CPU count gives a positive capacity at least as large; zero and negatives stay non-positive |
| Gate.MulPerCpuMonotone | limit.go:105-107 | scaling by the CPU count keeps the order of the multipliers, strictly for distinct ones |
| Gate.NewLimit | limit.go:49-54 | a fresh limiter starts open, with the default capacity 300 × CPUs |
| Gate.Allow | limit.go:57-67 | an attempt is granted exactly when the counter is positive; a grant consumes exactly one slot; a rejection (zero or negative counter) changes nothing |
| Gate.End | limit.go:70-72 | a release adds exactly one slot, unconditionally |
| Gate.Store | limit.go:96 | the sampler's publication sets the counter to the new capacity |
| Gate.AllowThenEndRestores | limit.go:57-72 | a granted admission followed by its release restores the counter exactly |
| Gate.RejectedAllowThenEndInflates | limit.go:57-72 | a release after a rejected attempt is unbalanced and inflates the counter by one |
| Gate.EndThenAllow | limit.go:57-72 | a release then an attempt succeeds exactly when the counter was non-negative, and then restores it |
| Gate.StoreForgetsHistory | limit.go:96 | an overwrite makes the previous counter irrelevant; afterwards an attempt succeeds exactly when the stored capacity is positive |
| Gate.RequestStepsKeepNonNegative | limit.go:57-72 | Allow and End never take a non-negative counter below zero |
| Trace.Step | limit.go:57-72 | one step grants at most once, and only when it is an attempt on a positive counter |
| Trace.Run | limit.go:57-72 | a run never grants more admissions than it has attempts |
| Trace.ConsecutiveAllows | limit.go:57-67 | from counter c, k consecutive attempts grant exactly min(k, max(c, 0)); a non-positive counter stays untouched, a positive one drops by the grants |
| Trace.NextAllowAfterConsecutive | limit.go:57-67 | after k consecutive attempts the next one is granted exactly when k < c: the first max(c, 0) succeed, every later one fails |
| Trace.DefaultBudgetScenario | limit_test.go:15-32 | a fresh limiter grants 300 × CPUs attempts in a row, leaves the counter at zero, and grants none of any further attempts |
| Trace.Conservation | limit.go:57-72 | without overwrites the final counter equals the start minus grants plus releases |
| Trace.FloorPreserved | limit.go:57-72 | without overwrites the counter never ends below min(start, 0) |
| Trace.NoOverAdmission | limit.go:57-72 | without overwrites a run grants at most max(start, 0) plus the number of releases |
| Trace.EndsOnly | limit.go:70-72 | a run of k releases grants nothing and raises the counter by exactly k |
| Trace.OverwriteThenReleases | limit.go:57-72 | after the sampler stores a capacity n and k releases follow, the counter is exactly n + k and the next attempt is granted exactly when n + k > 0: releases of requests admitted before the overwrite add to the new capacity |
| Trace.NeverNegative | limit.go:57-96 | from a non-negative counter, a run whose overwrites all publish positive capacities never leaves the counter negative |
| Policy.FirstAboveSelectsFirstMatch | limit.go:81-87 | the CPU-style lookup returns the capacity of the first band whose threshold the reading strictly exceeds |
| Policy.FirstAboveFallsBack | limit.go:79-87 | the CPU-style lookup returns the default when the reading exceeds no threshold |
| Policy.FirstBelowSelectsFirstMatch | limit.go:89-95 | the memory-style lookup returns the capacity of the first band whose threshold the reading is strictly below |
| Policy.FirstBelowFallsBack | limit.go:88-95 | the memory-style lookup keeps the default when the reading is under no threshold |
| Policy.FirstAboveMonotone | limit.go:81-87 | in any table whose capacities escalate from the most severe band on, a higher reading never selects a larger capacity |
| Policy.FirstBelowMonotone | limit.go:89-95 | in any escalating table, a lower reading never selects a larger capacity |
| Policy.TablesEscalate | limit.go:81-95 | both tables of the program escalate: each milder band allows at least as much as each severer one, and the default at least as much as any band |
| Policy.CpuTableLookup | limit.go:81-87 | a first-match lookup in the CPU table gives the program's chain of strict `>` tests: 10 above 85, else 32 above 75, else 64 above 65, else the default |
| Policy.MemTableLookup | limit.go:88-95 | a first-match lookup in the memory table gives the program's chain of strict `<` tests on available GiB: 10 below 0.05, else 32 below 0.10, else 64 below 0.15, else the default |
| Policy.CpuMultiplierMonotone | limit.go:81-87 | higher CPU usage never selects a larger per-CPU capacity (derived from the generic table lemma) |
| Policy.MemMultiplierMonotone | limit.go:88-95 | less available memory never selects a larger per-CPU capacity (derived from the generic table lemma) |
| Policy.CpuMultiplier | limit.go:81-87 | the CPU table gives 10 exactly above 85%, 32 exactly in (75, 85], 64 exactly in (65, 75], and the default 300 exactly at or below 65% |
| Policy.MemMultiplier | limit.go:88-95 | the memory table gives 10 exactly below 0.05 GiB, 32 exactly in [0.05, 0.10), 64 exactly in [0.10, 0.15), and 300 exactly at or above 0.15 GiB |
| Policy.AdjustStep | limit.go:76-95 | with the default frozen at the start-up parallelism, and the CPU and memory bands each scaled by the parallelism read for them: the result is positive; it is one of 10, 32 or 64 × the CPU-band read or the memory-band read, or the frozen default; it is at most the larger of the frozen default and 64 × the CPU-band read; and it is the CPU part (band candidate, or the frozen default when no band applies), lowered to the memory candidate only when a memory band applies |
| Policy.AdjustStepMonotoneInMemory | limit.go:88-95 | less available memory never raises the capacity, whatever the parallelism does |
| Policy.AdjustStepMonotoneInCpu | limit.go:76-95 | higher CPU usage never raises the capacity provided the frozen default is at least 64 × the CPU-band read |
| Policy.AdjustStepCpuMonotoneOnlyIf | limit.go:76-95 | conversely, whenever the frozen default is below 64 × the CPU-band read, 70% usage publishes more than 60% usage, so CPU monotonicity fails |
| Policy.FrozenDefaultCanBeExceeded | limit.go:76-95 | with 1 CPU at start and 8 now, 70% usage gives 512 and 60% gives 300: a loaded host can get more capacity than the frozen default |
| Policy.BandsReadDifferentParallelism | limit.go:81-95 | with CPU bands read at 8 CPUs and memory bands at 1, 90% usage and 0.12 GiB free publish 64, the memory read's 64× band, while a steady 8 CPUs would publish 80 and a steady 1 CPU 10: a capacity neither parallelism alone would publish |
| Policy.Capacity | limit.go:76-95 | while the parallelism stays steady, the sampler's branch sequence equals the minimum of the CPU and memory candidates, so the more restrictive signal wins; the result is one of 10, 32, 64 or 300 × CPUs and lies between 10 × CPUs and the default |
| Policy.CapacityMonotoneInCpu | limit.go:81-95 | at a steady parallelism, raising CPU usage never raises the capacity |
| Policy.CapacityMonotoneInMemory | limit.go:88-95 | at a steady parallelism, lowering available memory never raises the capacity |
| Policy.BandEdgesAreStrict | limit.go:81-95 | a reading exactly on an edge falls in the milder band: 85% gives 32 ×, 75% gives 64 ×, 65% gives 300 ×; 0.05, 0.10 and 0.15 GiB give 32, 64 and 300 × |
| Policy.MostRestrictiveSignalWins | limit.go:79-95 | 90% CPU with 10 GiB free gives 10 × CPUs (CPU dominates); 40% CPU with 40 MiB free gives 10 × CPUs (memory dominates) |
| Sampler.CpuUsage | limit.go:112-123 | a successful probe yields its first percentage; a failed or empty probe yields exactly 1%, which selects no CPU band |
| Sampler.MemoryAvailable | limit.go:127-134 | a successful probe yields the available bytes; a failed probe yields exactly `float64(math.MaxInt64)`, which is 2^63, and that selects no memory band |
| Sampler.TickCapacity | limit.go:79-95 | the capacity a sampler iteration publishes is positive and at most the larger of the frozen default and 64 × the CPU-band read; at a steady parallelism it lies between 10 and 300 × CPUs |
| Sampler.Tick | limit.go:96 | an iteration stores that capacity, so the next attempt is granted even after saturation (as limit_test.go:51-54 expects) |
| Sampler.TickForgetsCounter | limit.go:96 | the published capacity does not depend on the counter it overwrites |
| Sampler.BothProbesFailGivesDefault | limit.go:112-134 | when both probes fail the sampler publishes its frozen default, the capacity a fresh limiter starts with at the start-up parallelism |
| Sampler.CpuProbeFailureDefersToMemory | limit.go:112-123 | with a failed CPU probe the published capacity is the frozen default, lowered to the memory candidate when a memory band applies; at a steady parallelism it is the memory candidate alone |
| Sampler.MemProbeFailureDefersToCpu | limit.go:127-134 | with a failed memory probe the published capacity is the CPU band candidate, or the frozen default when no CPU band applies; at a steady parallelism it is the CPU candidate alone |
| Sampler.ProbeScenarios | limit.go:79-96 | at a steady parallelism, probes reading 90% CPU and 10 GB free, or 40% CPU and 40 MB free, both publish 10 × CPUs |
| Sampler.EventOp | limit.go:57-96 | a request start is an Allow, a request end an End, and a sampler tick an overwrite with a positive capacity |
| Sampler.ReachableCounterNonNegative | limit.go:49-96 | from a fresh limiter, any sequence of request starts, request ends and sampler ticks leaves the counter non-negative |

## Left out

- Concurrency: `Allow`, `End` and `Store` are each one atomic step. The compare-and-swap retry loop in `Allow` collapses to that step. Interleavings, lost-update freedom and the race part of limit_test.go:33-49 are not modelled.
- The goroutine started by `NewLimit` and the endless loop in `adjust`: only one loop iteration is modelled (`Sampler.Tick`). The loop variable `next` exists only for logging, so it is left out too.
- The `slog` messages on a capacity change or a probe error: observability only.
- The host probes `cpu.Percent` and `mem.VirtualMemory`: foreign I/O. Their results are inputs (`CpuReading`, `MemReading`), and only the fallback handling is modelled.
- Policy.Capacity: assumes the parallelism stays the same as when the sampler started. `Policy.AdjustStep` and `Sampler.TickCapacity` model the general case. There the default stays frozen at the start-up value, and the CPU band and the memory band each use their own read of `GOMAXPROCS`.
- Sampler.BothProbesFailGivesDefault: assumes `NewLimit` (limit.go:51) and the start of `adjust` (limit.go:76) read the same `GOMAXPROCS`.
- Gate.MulPerCpu: does not model `int`/`int64` overflow of `one * GOMAXPROCS` or of the counter; values are unbounded integers.
- Policy.Capacity: uses exact real arithmetic. It does not model IEEE-754 rounding of `ava/gb1` or of the thresholds 0.05/0.10/0.15.
- Timing: the one-second sampling window, the two-second sleep in the test, and the benchmarks.
