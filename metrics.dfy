/**
 * The in-process metrics collector: five counters and the time of the last
 * reset.  Every increment touches its own counter only; the active-story
 * counter never goes below zero.
 */
module Metrics {

  /** What `getMetrics` hands out: a copy, so changing it cannot reach the collector. */
  datatype Snapshot = Snapshot(
    totalStories: nat, activeStories: nat, totalRounds: nat, apiCalls: nat, errors: nat, lastReset: int)

  class MetricsCollector {
    var totalStories: nat
    var activeStories: nat
    var totalRounds: nat
    var apiCalls: nat
    var errors: nat
    var lastReset: int

    /** The collector's state as a value. */
    function Current(): Snapshot
      reads this
    {
      Snapshot(totalStories, activeStories, totalRounds, apiCalls, errors, lastReset)
    }

    /** A new collector: every counter zero, the reset time the clock reading `now`. */
    constructor (now: int)
      ensures Current() == Snapshot(0, 0, 0, 0, 0, now)
    {
      totalStories, activeStories, totalRounds, apiCalls, errors := 0, 0, 0, 0, 0;
      lastReset := now;
    }

    method IncrementStories()
      modifies this
      ensures Current() == old(Current()).(totalStories := old(totalStories) + 1)
    {
      totalStories := totalStories + 1;
    }

    method IncrementActiveStories()
      modifies this
      ensures Current() == old(Current()).(activeStories := old(activeStories) + 1)
    {
      activeStories := activeStories + 1;
    }

    /** `Math.max(0, activeStories - 1)`: one less, but never below zero. */
    method DecrementActiveStories()
      modifies this
      ensures activeStories == if old(activeStories) == 0 then 0 else old(activeStories) - 1
      ensures Current() == old(Current()).(activeStories := activeStories)
    {
      var lowered := activeStories - 1;
      activeStories := if 0 > lowered then 0 else lowered;
    }

    method IncrementRounds()
      modifies this
      ensures Current() == old(Current()).(totalRounds := old(totalRounds) + 1)
    {
      totalRounds := totalRounds + 1;
    }

    method IncrementApiCalls()
      modifies this
      ensures Current() == old(Current()).(apiCalls := old(apiCalls) + 1)
    {
      apiCalls := apiCalls + 1;
    }

    method IncrementErrors()
      modifies this
      ensures Current() == old(Current()).(errors := old(errors) + 1)
    {
      errors := errors + 1;
    }

    /** `getMetrics`: the current values, as a value the caller owns. */
    method GetMetrics() returns (s: Snapshot)
      ensures s == Current()
    {
      s := Snapshot(totalStories, activeStories, totalRounds, apiCalls, errors, lastReset);
    }

    /** `reset`: every counter back to zero and the reset time moved to `now`. */
    method Reset(now: int)
      modifies this
      ensures Current() == Snapshot(0, 0, 0, 0, 0, now)
    {
      totalStories, activeStories, totalRounds, apiCalls, errors := 0, 0, 0, 0, 0;
      lastReset := now;
    }
  }

  /** A snapshot is detached: later increments change the collector but not a snapshot taken before. */
  method SnapshotIsCopy(m: MetricsCollector) returns (before: Snapshot, after: Snapshot)
    modifies m
    ensures before == old(m.Current()) && after == m.Current()
    ensures after.totalStories == before.totalStories + 1
  {
    before := m.GetMetrics();
    m.IncrementStories();
    after := m.GetMetrics();
  }
}
