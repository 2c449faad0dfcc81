/** What the placement targets of a policy mean, read off the task map itself: they follow the
    queued, running and recent tasks of the profile, within the policy's bounds. */
module Targets {
  import opened Base
  import opened Model
  import opened Demand

  const MINUTE: int := 60_000_000_000

  // ---------- tasks, as sets ----------

  /** The queued and running tasks of the profile. */
  function WorkFor(tasks: map<Id, Task>, pid: Id): set<Id> {
    set k | k in tasks && tasks[k].profileId == pid && (tasks[k].status == Queued || tasks[k].status == Running)
  }

  /** The profile's tasks created in the last ten minutes. */
  function CreatedLately(tasks: map<Id, Task>, pid: Id, now: Time): set<Id> {
    set k | k in tasks && tasks[k].profileId == pid && tasks[k].createdAt != 0
            && 0 <= now - tasks[k].createdAt < 10 * MINUTE
  }

  /** The two-minute stretches of the last ten minutes in which some task was created. */
  function BusyStretches(tasks: map<Id, Task>, pid: Id, now: Time): set<int> {
    set b | 0 <= b < 5 && InStretch(tasks, pid, now, b)
  }

  predicate InStretch(tasks: map<Id, Task>, pid: Id, now: Time, b: int) {
    exists k :: k in tasks && tasks[k].profileId == pid && tasks[k].createdAt != 0
                && 2 * b * MINUTE <= now - tasks[k].createdAt < 2 * (b + 1) * MINUTE
  }

  /** The profile's tasks that ended within the cooldown and were created before the last ten minutes. */
  function EndedLately(tasks: map<Id, Task>, pid: Id, now: Time, cooldown: int): set<Id> {
    set k | k in tasks && tasks[k].profileId == pid
            && (tasks[k].status == Completed || tasks[k].status == Failed || tasks[k].status == Cancelled)
            && tasks[k].createdAt <= now - 10 * MINUTE
            && now - cooldown < (if tasks[k].completedAt.Some? then tasks[k].completedAt.value else tasks[k].updatedAt)
               <= now
  }

  /** Recent tasks times the stretches they spread over. */
  function Weighted(tasks: map<Id, Task>, pid: Id, now: Time): int {
    |CreatedLately(tasks, pid, now)| * |BusyStretches(tasks, pid, now)|
  }

  /** A twentieth of the weighted recent tasks, rounded up, is `s`. */
  predicate SmoothedDemandOf(tasks: map<Id, Task>, pid: Id, now: Time, s: int) {
    20 * (s - 1) < Weighted(tasks, pid, now) <= 20 * s
  }

  /** It is at least `s`. */
  predicate SmoothedReaches(tasks: map<Id, Task>, pid: Id, now: Time, s: int) {
    20 * (s - 1) < Weighted(tasks, pid, now)
  }

  // ---------- the counts are those of the sets ----------

  lemma WorkIsCounted(tasks: map<Id, Task>, pid: Id)
    ensures Count(tasks, QueuedFor(pid)) + Count(tasks, RunningFor(pid)) == |WorkFor(tasks, pid)|
  {
    var q, r := Select(tasks, tasks.Keys, QueuedFor(pid)), Select(tasks, tasks.Keys, RunningFor(pid));
    assert q !! r;
    assert WorkFor(tasks, pid) == q + r;
  }

  lemma RecentIsCounted(tasks: map<Id, Task>, pid: Id, now: Time)
    ensures Count(tasks, RecentFor(pid, now)) == |CreatedLately(tasks, pid, now)|
  {
    assert Select(tasks, tasks.Keys, RecentFor(pid, now)) == CreatedLately(tasks, pid, now);
  }

  lemma EndedIsCounted(tasks: map<Id, Task>, pid: Id, now: Time, cooldown: int)
    ensures Count(tasks, FinishedFor(pid, now, cooldown)) == |EndedLately(tasks, pid, now, cooldown)|
  {
    assert Select(tasks, tasks.Keys, FinishedFor(pid, now, cooldown)) == EndedLately(tasks, pid, now, cooldown);
  }

  function Positive(counts: seq<int>): set<int> {
    set b | 0 <= b < |counts| && counts[b] > 0
  }

  lemma {:induction false} ActiveIsCounted(counts: seq<int>)
    ensures ActiveBuckets(counts) == |Positive(counts)|
  {
    if counts != [] {
      var n, before := |counts| - 1, counts[..|counts| - 1];
      ActiveIsCounted(before);
      if counts[n] > 0 {
        assert Positive(counts) == Positive(before) + {n};
      } else {
        assert Positive(counts) == Positive(before);
      }
    } else {
      assert Positive(counts) == {};
    }
  }

  lemma BucketIsStretch(t: Task, now: Time, b: int)
    requires 0 <= b < 5
    ensures DemandBucket(t.createdAt, now) == Some(b) <==>
            t.createdAt != 0 && 2 * b * MINUTE <= now - t.createdAt < 2 * (b + 1) * MINUTE
  {
  }

  lemma StretchIsPositive(tasks: map<Id, Task>, pid: Id, now: Time, b: int)
    requires 0 <= b < 5
    ensures Count(tasks, BucketFor(pid, now, b)) > 0 <==> InStretch(tasks, pid, now, b)
  {
    var chosen := Select(tasks, tasks.Keys, BucketFor(pid, now, b));
    forall k | k in tasks
      ensures k in chosen <==>
              tasks[k].profileId == pid && tasks[k].createdAt != 0
              && 2 * b * MINUTE <= now - tasks[k].createdAt < 2 * (b + 1) * MINUTE
    {
      BucketIsStretch(tasks[k], now, b);
    }
    if chosen != {} {
      var k :| k in chosen;
    }
  }

  lemma StretchesAreActive(tasks: map<Id, Task>, pid: Id, now: Time)
    ensures ActiveBuckets(BucketCounts(tasks, pid, now)) == |BusyStretches(tasks, pid, now)|
  {
    var counts := BucketCounts(tasks, pid, now);
    ActiveIsCounted(counts);
    forall b | 0 <= b < 5 ensures counts[b] > 0 <==> InStretch(tasks, pid, now, b) {
      StretchIsPositive(tasks, pid, now, b);
    }
    assert Positive(counts) == BusyStretches(tasks, pid, now);
  }

  lemma CreatedInStretch(tasks: map<Id, Task>, pid: Id, now: Time)
    ensures CreatedLately(tasks, pid, now) != {} ==> BusyStretches(tasks, pid, now) != {}
  {
    if CreatedLately(tasks, pid, now) != {} {
      var k :| k in CreatedLately(tasks, pid, now);
      var b := (now - tasks[k].createdAt) / (2 * MINUTE);
      assert 0 <= b < 5 && 2 * b * MINUTE <= now - tasks[k].createdAt < 2 * (b + 1) * MINUTE;
      assert InStretch(tasks, pid, now, b);
      assert b in BusyStretches(tasks, pid, now);
    }
  }

  lemma SizeZero<T>(s: set<T>)
    ensures |s| == 0 <==> s == {}
  {
  }

  lemma RoundedUp(n: int)
    requires n >= 0
    ensures 20 * (CeilDiv(n, 4 * DEMAND_BUCKETS) - 1) < n <= 20 * CeilDiv(n, 4 * DEMAND_BUCKETS)
  {
  }

  /** Smoothed demand is a twentieth, rounded up, of the tasks created in the last ten minutes
      times the two-minute stretches they fall into. */
  lemma SmoothedIs(tasks: map<Id, Task>, pid: Id, now: Time)
    ensures SmoothedDemandOf(tasks, pid, now, SmoothedAt(tasks, pid, now))
  {
    var recent, busy := |CreatedLately(tasks, pid, now)|, |BusyStretches(tasks, pid, now)|;
    RecentIsCounted(tasks, pid, now);
    StretchesAreActive(tasks, pid, now);
    CreatedInStretch(tasks, pid, now);
    SizeZero(BusyStretches(tasks, pid, now));
    SizeZero(CreatedLately(tasks, pid, now));
    if recent > 0 {
      assert busy >= 1;
      MulMonotone(0, recent, 0, busy);
      RoundedUp(recent * busy);
    }
  }

  // ---------- the warm target ----------

  /** An auto-balancing policy keeps a warm copy for every queued and running task of its profile,
      up to a positive maximum. */
  lemma WarmCoversWork(tasks: map<Id, Task>, policy: Policy, now: Time, cooldown: int)
    requires policy.autoBalance
    ensures var work, warm := |WorkFor(tasks, policy.profileId)|, EffectiveCapacity(tasks, policy, now, cooldown).warm;
            if policy.maxWarmCount > 0 then warm >= Min(work, policy.maxWarmCount) else warm >= work
  {
    WorkIsCounted(tasks, policy.profileId);
    SmoothedBounds(tasks, policy.profileId, now);
  }

  /** Beyond its minimum it keeps only as many as present work and smoothed demand ask for, or what
      finished within the cooldown, or the smoothed demand of a cooldown ago. */
  lemma WarmIsAskedFor(tasks: map<Id, Task>, policy: Policy, now: Time, cooldown: int)
    requires policy.autoBalance
    ensures var pid, c := policy.profileId, EffectiveCapacity(tasks, policy, now, cooldown);
            && SmoothedDemandOf(tasks, pid, now, c.demandSmoothed)
            && (c.warm > c.minWarm ==>
                  || c.warm <= |WorkFor(tasks, pid)| + c.demandSmoothed
                  || (cooldown > 0 && c.warm <= |EndedLately(tasks, pid, now, cooldown)|)
                  || (cooldown > 0 && SmoothedReaches(tasks, pid, now - cooldown, c.warm)))
  {
    var pid := policy.profileId;
    WorkIsCounted(tasks, pid);
    SmoothedBounds(tasks, pid, now);
    SmoothedIs(tasks, pid, now);
    SmoothedIs(tasks, pid, now - cooldown);
    EndedIsCounted(tasks, pid, now, cooldown);
  }

  /** Within the cooldown the target does not drop below what just finished, nor below the
      smoothed demand of a cooldown ago, unless the maximum says so. */
  lemma CooldownHoldsWarm(tasks: map<Id, Task>, policy: Policy, now: Time, cooldown: int, s: int)
    requires policy.autoBalance && cooldown > 0
    requires SmoothedDemandOf(tasks, policy.profileId, now - cooldown, s)
    ensures var c := EffectiveCapacity(tasks, policy, now, cooldown);
            || (policy.maxWarmCount > 0 && c.warm >= policy.maxWarmCount)
            || (c.warm >= |EndedLately(tasks, policy.profileId, now, cooldown)| && c.warm >= s)
  {
    EndedIsCounted(tasks, policy.profileId, now, cooldown);
    SmoothedIs(tasks, policy.profileId, now - cooldown);
  }

  /** While the target is present demand and below the maximum, one more queued task raises it. */
  lemma QueueingRaisesWarm(tasks: map<Id, Task>, k: Id, t: Task, policy: Policy, now: Time, cooldown: int)
    requires policy.autoBalance && k !in tasks && t.status == Queued && t.profileId == policy.profileId
    requires var c := EffectiveCapacity(tasks, policy, now, cooldown);
             && c.warm == |WorkFor(tasks, policy.profileId)| + c.demandSmoothed
             && (policy.maxWarmCount > 0 ==> c.warm < policy.maxWarmCount)
    ensures EffectiveCapacity(tasks[k := t], policy, now, cooldown).warm
         >= EffectiveCapacity(tasks, policy, now, cooldown).warm + 1
  {
    var pid := policy.profileId;
    WorkIsCounted(tasks, pid);
    WorkIsCounted(tasks[k := t], pid);
    CountInsert(tasks, k, t, QueuedFor(pid));
    CountInsert(tasks, k, t, RunningFor(pid));
    InsertRaisesSmoothed(tasks, k, t, pid, now);
  }

  // ---------- the other targets ----------

  /** The minimum is the policy's own, or its plain count when it states none. */
  lemma MinimumWarmIs(tasks: map<Id, Task>, policy: Policy, now: Time, cooldown: int)
    ensures var c := EffectiveCapacity(tasks, policy, now, cooldown);
            if !policy.autoBalance then c.minWarm == c.warm && c.minCached == c.cached
            else c.minWarm == if policy.minWarmCount != 0 || policy.warmCount <= 0 then policy.minWarmCount
                              else policy.warmCount
  {
  }

  /** Without auto-balancing the targets are the policy's counts: no task moves them, both are at
      least zero, and a warm copy is a cached one. */
  lemma FixedTargets(tasks: map<Id, Task>, policy: Policy, now: Time, cooldown: int)
    requires !policy.autoBalance
    ensures var c := EffectiveCapacity(tasks, policy, now, cooldown);
            && c.warm >= 0 && c.warm >= policy.warmCount && (c.warm == 0 || c.warm == policy.warmCount)
            && c.cached >= c.warm && c.cached >= policy.cachedCount
            && (c.cached == c.warm || c.cached == policy.cachedCount)
  {
  }

  /** The cached target covers the warm one and the minimum, as far as a positive maximum lets it,
      and asks for no more than they do. */
  lemma CachedTarget(tasks: map<Id, Task>, policy: Policy, now: Time, cooldown: int)
    requires policy.autoBalance
    ensures var c := EffectiveCapacity(tasks, policy, now, cooldown);
            && c.minCached >= policy.minCachedCount && c.minCached >= c.minWarm
            && (c.minCached == policy.minCachedCount || c.minCached == c.minWarm
                || (c.minCached == policy.cachedCount && policy.minCachedCount <= 0 && c.minWarm <= 0))
            && c.cached >= c.warm && (c.cached == c.warm || c.cached <= c.minCached)
            && (policy.maxCachedCount <= 0 ==> c.cached >= c.minCached)
            && (policy.maxCachedCount > 0 ==>
                  c.cached >= Min(c.minCached, policy.maxCachedCount) && c.cached <= Max(c.warm, policy.maxCachedCount))
  {
  }
}
