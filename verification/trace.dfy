/**
  Runs of the gate: sequences of its atomic steps as the hot path and the
  sampler issue them, with the number of admissions each run grants.
 */
module Trace {
  import opened Gate

  /** One atomic step on the counter. */
  datatype Op = AllowOp | EndOp | StoreOp(capacity: int)

  /** What a run produced: the admissions it granted and the state it left. */
  datatype Outcome = Outcome(grants: nat, limit: Limit)

  /** Every step of the run is `op`. */
  predicate AllAre(ops: seq<Op>, op: Op) {
    forall i :: 0 <= i < |ops| ==> ops[i] == op
  }

  /** The run has no capacity overwrite: only requests starting and finishing. */
  predicate StoreFree(ops: seq<Op>) {
    forall i :: 0 <= i < |ops| ==> !ops[i].StoreOp?
  }

  /** The sampler only publishes positive capacities in this run. */
  predicate PositiveStores(ops: seq<Op>) {
    forall i :: 0 <= i < |ops| && ops[i].StoreOp? ==> ops[i].capacity > 0
  }

  /** A run whose steps are all `op` still is after its first step. */
  lemma AllAreTail(ops: seq<Op>, op: Op)
    requires |ops| > 0 && AllAre(ops, op)
    ensures AllAre(ops[1..], op)
  {
  }

  /** A run without overwrites still is after its first step. */
  lemma StoreFreeTail(ops: seq<Op>)
    requires |ops| > 0 && StoreFree(ops)
    ensures StoreFree(ops[1..])
  {
  }

  /** A run publishing only positive capacities still does after its first step. */
  lemma PositiveStoresTail(ops: seq<Op>)
    requires |ops| > 0 && PositiveStores(ops)
    ensures PositiveStores(ops[1..])
  {
  }

  /** Number of admission attempts in a run. */
  function Allows(ops: seq<Op>): (r: nat)
    ensures r <= |ops|
    decreases |ops|
  {
    if |ops| == 0 then 0 else (if ops[0] == AllowOp then 1 else 0) + Allows(ops[1..])
  }

  /** Number of releases in a run. */
  function Ends(ops: seq<Op>): (r: nat)
    ensures r <= |ops|
    decreases |ops|
  {
    if |ops| == 0 then 0 else (if ops[0] == EndOp then 1 else 0) + Ends(ops[1..])
  }

  /** One step: only an admission attempt can grant, and it grants at most once. */
  function Step(l: Limit, op: Op): (r: Outcome)
    ensures r.grants <= 1
    ensures r.grants == 1 <==> op == AllowOp && l.token > 0
  {
    match op
    case AllowOp =>
      var d := Allow(l);
      Outcome(if d.allowed then 1 else 0, d.limit)
    case EndOp => Outcome(0, End(l))
    case StoreOp(c) => Outcome(0, Store(l, c))
  }

  /** The steps of a run, applied one after the other from `l`. */
  function Run(l: Limit, ops: seq<Op>): (r: Outcome)
    ensures r.grants <= Allows(ops)
    decreases |ops|
  {
    if |ops| == 0 then Outcome(0, l)
    else
      var first := Step(l, ops[0]);
      var rest := Run(first.limit, ops[1..]);
      Outcome(first.grants + rest.grants, rest.limit)
  }

  /**
    From a counter `c`, a run of consecutive admission attempts grants
    exactly `min(k, max(c, 0))` of them, and a non-positive counter is left
    untouched.
   */
  lemma {:induction false} ConsecutiveAllows(l: Limit, ops: seq<Op>)
    requires AllAre(ops, AllowOp)
    ensures Run(l, ops).grants == Min(|ops|, Max(l.token, 0))
    ensures Run(l, ops).limit.token
              == if l.token <= 0 then l.token else l.token - Min(|ops|, l.token)
    decreases |ops|
  {
    if |ops| > 0 {
      AllAreTail(ops, AllowOp);
      ConsecutiveAllows(Allow(l).limit, ops[1..]);
    }
  }

  /**
    After `k` consecutive attempts from a counter `c`, the next attempt is
    granted exactly when `k < c`: the first `max(c, 0)` attempts succeed and
    every later one fails.
   */
  lemma NextAllowAfterConsecutive(l: Limit, ops: seq<Op>)
    requires AllAre(ops, AllowOp)
    ensures Allow(Run(l, ops).limit).allowed <==> |ops| < l.token
  {
    ConsecutiveAllows(l, ops);
  }

  /**
    A fresh limiter grants `300 * procs` attempts in a row, rejects the next
    one, and keeps rejecting however many more attempts follow.
   */
  lemma DefaultBudgetScenario(procs: Procs, ops: seq<Op>, more: seq<Op>)
    requires AllAre(ops, AllowOp) && AllAre(more, AllowOp)
    requires |ops| == MulPerCpu(DefaultMultiplier, procs)
    ensures Run(NewLimit(procs), ops).grants == |ops|
    ensures Run(NewLimit(procs), ops).limit.token == 0
    ensures Run(Run(NewLimit(procs), ops).limit, more).grants == 0
  {
    ConsecutiveAllows(NewLimit(procs), ops);
    ConsecutiveAllows(Run(NewLimit(procs), ops).limit, more);
  }

  /**
    Without overwrites the counter is conserved: it ends at its start, minus
    the admissions granted, plus the releases.
   */
  lemma {:induction false} Conservation(l: Limit, ops: seq<Op>)
    requires StoreFree(ops)
    ensures Run(l, ops).limit.token == l.token - Run(l, ops).grants + Ends(ops)
    decreases |ops|
  {
    if |ops| > 0 {
      StoreFreeTail(ops);
      Conservation(Step(l, ops[0]).limit, ops[1..]);
    }
  }

  /** Without overwrites the counter never drops below `min(c, 0)`. */
  lemma {:induction false} FloorPreserved(l: Limit, ops: seq<Op>)
    requires StoreFree(ops)
    ensures Run(l, ops).limit.token >= Min(l.token, 0)
    decreases |ops|
  {
    if |ops| > 0 {
      StoreFreeTail(ops);
      FloorPreserved(Step(l, ops[0]).limit, ops[1..]);
    }
  }

  /**
    No over-admission: without overwrites, a run never grants more than the
    starting budget plus the slots given back by releases.
   */
  lemma NoOverAdmission(l: Limit, ops: seq<Op>)
    requires StoreFree(ops)
    ensures Run(l, ops).grants <= Max(l.token, 0) + Ends(ops)
  {
    Conservation(l, ops);
    FloorPreserved(l, ops);
  }

  /** A run of releases only grants nothing and adds one slot per release. */
  lemma {:induction false} EndsOnly(l: Limit, ops: seq<Op>)
    requires AllAre(ops, EndOp)
    ensures Run(l, ops) == Outcome(0, Limit(l.token + |ops|))
    decreases |ops|
  {
    if |ops| > 0 {
      AllAreTail(ops, EndOp);
      EndsOnly(End(l), ops[1..]);
    }
  }

  /**
    An overwrite followed by releases: after the sampler stores `capacity`
    and `k` requests finish, the counter is exactly `capacity + k`, and the
    next attempt is granted exactly when that is positive. Releases of
    requests admitted before the overwrite add to the new capacity, so up to
    `capacity + k` further requests can start although `capacity` was
    published.
   */
  lemma OverwriteThenReleases(l: Limit, capacity: int, ends: seq<Op>)
    requires AllAre(ends, EndOp)
    ensures Run(l, [StoreOp(capacity)] + ends).limit.token == capacity + |ends|
    ensures Allow(Run(l, [StoreOp(capacity)] + ends).limit).allowed <==> capacity + |ends| > 0
  {
    var ops := [StoreOp(capacity)] + ends;
    assert ops[1..] == ends;
    EndsOnly(Store(l, capacity), ends);
  }

  /**
    The counter never goes negative: from a non-negative counter, a run whose
    overwrites all publish positive capacities keeps it non-negative.
   */
  lemma {:induction false} NeverNegative(l: Limit, ops: seq<Op>)
    requires l.token >= 0 && PositiveStores(ops)
    ensures Run(l, ops).limit.token >= 0
    decreases |ops|
  {
    if |ops| > 0 {
      PositiveStoresTail(ops);
      NeverNegative(Step(l, ops[0]).limit, ops[1..]);
    }
  }
}
