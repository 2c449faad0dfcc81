/** Demand counting and the effective capacity of a placement policy
    (internal/comrad/placement_capacity.go and internal/comrad/placement_cooldown.go). */
module Demand {
  import opened Base
  import opened Model

  const DEMAND_WINDOW: int := 600_000_000_000
  const DEMAND_BUCKETS: int := 5

  datatype Capacity = Capacity(
    cached: int, warm: int, minCached: int, minWarm: int,
    demandQueued: int, demandRunning: int, demandRecent: int, demandSmoothed: int)

  // ---------- counting tasks, whatever order the map is walked in ----------

  function Select(tasks: map<Id, Task>, ids: set<Id>, f: Task -> bool): set<Id> {
    set k | k in ids && k in tasks && f(tasks[k])
  }

  function Count(tasks: map<Id, Task>, f: Task -> bool): nat {
    |Select(tasks, tasks.Keys, f)|
  }

  lemma SelectAdd(tasks: map<Id, Task>, ids: set<Id>, k: Id, f: Task -> bool)
    requires k in tasks && k !in ids
    ensures |Select(tasks, ids + {k}, f)| == |Select(tasks, ids, f)| + if f(tasks[k]) then 1 else 0
  {
    var before := Select(tasks, ids, f);
    if f(tasks[k]) {
      assert Select(tasks, ids + {k}, f) == before + {k};
    } else {
      assert Select(tasks, ids + {k}, f) == before;
    }
  }

  lemma CountInsert(tasks: map<Id, Task>, k: Id, t: Task, f: Task -> bool)
    requires k !in tasks
    ensures Count(tasks[k := t], f) == Count(tasks, f) + if f(t) then 1 else 0
  {
    var tasks' := tasks[k := t];
    SelectAdd(tasks', tasks.Keys, k, f);
    assert tasks'.Keys == tasks.Keys + {k};
    assert Select(tasks', tasks.Keys, f) == Select(tasks, tasks.Keys, f);
  }

  lemma CountReplace(tasks: map<Id, Task>, k: Id, t: Task, f: Task -> bool)
    requires k in tasks && f(tasks[k]) == f(t)
    ensures Count(tasks[k := t], f) == Count(tasks, f)
  {
    assert Select(tasks[k := t], tasks[k := t].Keys, f) == Select(tasks, tasks.Keys, f);
  }

  function DemandBucket(createdAt: Time, now: Time): (b: Option<int>)
    ensures b.Some? ==> 0 <= b.value < DEMAND_BUCKETS
    ensures b.Some? <==> createdAt != 0 && 0 <= now - createdAt < DEMAND_WINDOW
  {
    if createdAt == 0 || createdAt > now then None
    else
      var age := now - createdAt;
      if age >= DEMAND_WINDOW then None else Some(age / (DEMAND_WINDOW / DEMAND_BUCKETS))
  }

  function QueuedFor(pid: Id): Task -> bool {
    (t: Task) => t.profileId == pid && t.status == Queued
  }

  function RunningFor(pid: Id): Task -> bool {
    (t: Task) => t.profileId == pid && t.status == Running
  }

  function RecentFor(pid: Id, now: Time): Task -> bool {
    (t: Task) => t.profileId == pid && DemandBucket(t.createdAt, now).Some?
  }

  function BucketFor(pid: Id, now: Time, b: int): Task -> bool {
    (t: Task) => t.profileId == pid && DemandBucket(t.createdAt, now) == Some(b)
  }

  function FinishedAt(t: Task): Time {
    if t.completedAt.Some? then t.completedAt.value else t.updatedAt
  }

  predicate Terminal(s: TaskStatus) {
    s == Completed || s == Failed || s == Cancelled
  }

  function FinishedFor(pid: Id, now: Time, cooldown: int): Task -> bool {
    (t: Task) =>
      && t.profileId == pid && Terminal(t.status)
      && t.createdAt <= now - DEMAND_WINDOW
      && now - cooldown < FinishedAt(t) <= now
  }

  function CeilDiv(value: int, divisor: int): int {
    if value <= 0 || divisor <= 0 then 0 else (value + divisor - 1) / divisor
  }

  function ActiveBuckets(counts: seq<int>): nat {
    if counts == [] then 0
    else (if counts[|counts| - 1] > 0 then 1 else 0) + ActiveBuckets(counts[..|counts| - 1])
  }

  function Smoothed(recent: int, counts: seq<int>): int {
    if recent == 0 then 0 else CeilDiv(recent * Max(1, ActiveBuckets(counts)), 4 * DEMAND_BUCKETS)
  }

  function BucketCounts(tasks: map<Id, Task>, pid: Id, now: Time): (c: seq<int>)
    ensures |c| == DEMAND_BUCKETS
  {
    seq(DEMAND_BUCKETS, b => Count(tasks, BucketFor(pid, now, b)))
  }

  function SmoothedAt(tasks: map<Id, Task>, pid: Id, now: Time): int {
    Smoothed(Count(tasks, RecentFor(pid, now)), BucketCounts(tasks, pid, now))
  }

  function CooldownDemand(tasks: map<Id, Task>, pid: Id, now: Time, cooldown: int): int {
    if cooldown <= 0 then 0
    else Max(SmoothedAt(tasks, pid, now - cooldown), Count(tasks, FinishedFor(pid, now, cooldown)))
  }

  function ClampCount(value: int, minValue: int, maxValue: int): int {
    var v := if value < minValue then minValue else value;
    if maxValue > 0 && v > maxValue then maxValue else v
  }

  function MinimumWarm(policy: Policy): int {
    if policy.minWarmCount == 0 && policy.warmCount > 0 then policy.warmCount else policy.minWarmCount
  }

  function MinimumCached(policy: Policy): int {
    var m := Max(policy.minCachedCount, MinimumWarm(policy));
    if m == 0 && policy.cachedCount > 0 then policy.cachedCount else m
  }

  function CapacityFor(policy: Policy, queued: int, running: int, recent: int, smoothed: int, cooldown: int): Capacity {
    var minWarm, minCached := MinimumWarm(policy), MinimumCached(policy);
    var demand := Max(queued + running + smoothed, cooldown);
    var warm := ClampCount(demand, minWarm, policy.maxWarmCount);
    var cached := Max(ClampCount(Max(warm, minCached), minCached, policy.maxCachedCount), warm);
    Capacity(cached, warm, minCached, minWarm, queued, running, recent, smoothed)
  }

  function EffectiveCapacity(tasks: map<Id, Task>, policy: Policy, now: Time, cooldown: int): Capacity {
    if !policy.autoBalance then
      var warm := Max(0, policy.warmCount);
      var cached := Max(warm, policy.cachedCount);
      Capacity(cached, warm, cached, warm, 0, 0, 0, 0)
    else
      CapacityFor(policy,
        Count(tasks, QueuedFor(policy.profileId)), Count(tasks, RunningFor(policy.profileId)),
        Count(tasks, RecentFor(policy.profileId, now)), SmoothedAt(tasks, policy.profileId, now),
        CooldownDemand(tasks, policy.profileId, now, cooldown))
  }

  // ---------- the loops ----------

  method SmoothedDemand(recent: int, buckets: seq<int>) returns (r: int)
    ensures r == Smoothed(recent, buckets)
  {
    if recent == 0 {
      return 0;
    }
    var active := 0;
    for i := 0 to |buckets|
      invariant active == ActiveBuckets(buckets[..i])
    {
      assert buckets[..i + 1][..i] == buckets[..i];
      if buckets[i] > 0 {
        active := active + 1;
      }
    }
    assert buckets[..|buckets|] == buckets;
    active := Max(1, active);
    r := CeilDiv(recent * active, 4 * DEMAND_BUCKETS);
  }

  /** The four counts over the tasks already walked. */
  ghost predicate Tallied(tasks: map<Id, Task>, seen: set<Id>, pid: Id, now: Time,
                          queued: int, running: int, recent: int, buckets: seq<int>) {
    && queued == |Select(tasks, seen, QueuedFor(pid))|
    && running == |Select(tasks, seen, RunningFor(pid))|
    && recent == |Select(tasks, seen, RecentFor(pid, now))|
    && |buckets| == DEMAND_BUCKETS
    && forall b :: 0 <= b < DEMAND_BUCKETS ==> buckets[b] == |Select(tasks, seen, BucketFor(pid, now, b))|
  }

  function Bump(buckets: seq<int>, b: Option<int>): seq<int>
    requires b.Some? ==> 0 <= b.value < |buckets|
  {
    if b.Some? then buckets[b.value := buckets[b.value] + 1] else buckets
  }

  lemma TallyOne(tasks: map<Id, Task>, seen: set<Id>, k: Id, pid: Id, now: Time,
                 queued: int, running: int, recent: int, buckets: seq<int>)
    requires k in tasks && k !in seen && Tallied(tasks, seen, pid, now, queued, running, recent, buckets)
    ensures var t := tasks[k];
            var b := DemandBucket(t.createdAt, now);
            if t.profileId != pid then Tallied(tasks, seen + {k}, pid, now, queued, running, recent, buckets)
            else Tallied(tasks, seen + {k}, pid, now,
                         queued + (if t.status == Queued then 1 else 0),
                         running + (if t.status == Running then 1 else 0),
                         recent + (if b.Some? then 1 else 0), Bump(buckets, b))
  {
    var t := tasks[k];
    var b := DemandBucket(t.createdAt, now);
    SelectAdd(tasks, seen, k, QueuedFor(pid));
    SelectAdd(tasks, seen, k, RunningFor(pid));
    SelectAdd(tasks, seen, k, RecentFor(pid, now));
    forall i | 0 <= i < DEMAND_BUCKETS
      ensures |Select(tasks, seen + {k}, BucketFor(pid, now, i))|
           == buckets[i] + if t.profileId == pid && b == Some(i) then 1 else 0
    {
      SelectAdd(tasks, seen, k, BucketFor(pid, now, i));
    }
  }

  lemma TallyNone(tasks: map<Id, Task>, pid: Id, now: Time)
    ensures Tallied(tasks, {}, pid, now, 0, 0, 0, [0, 0, 0, 0, 0])
  {
    forall f: Task -> bool ensures Select(tasks, {}, f) == {} {
    }
  }

  /** Walks the task map in an arbitrary order; the counts do not depend on it. */
  method ProfileDemand(tasks: map<Id, Task>, pid: Id, now: Time)
    returns (queued: int, running: int, recent: int, smoothed: int)
    ensures queued == Count(tasks, QueuedFor(pid))
    ensures running == Count(tasks, RunningFor(pid))
    ensures recent == Count(tasks, RecentFor(pid, now))
    ensures smoothed == SmoothedAt(tasks, pid, now)
  {
    var buckets;
    queued, running, recent, buckets := TallyTasks(tasks, pid, now);
    assert buckets == BucketCounts(tasks, pid, now);
    smoothed := SmoothedDemand(recent, buckets);
  }

  method TallyTasks(tasks: map<Id, Task>, pid: Id, now: Time)
    returns (queued: int, running: int, recent: int, buckets: seq<int>)
    ensures Tallied(tasks, tasks.Keys, pid, now, queued, running, recent, buckets)
  {
    queued, running, recent, buckets := 0, 0, 0, [0, 0, 0, 0, 0];
    var todo := tasks.Keys;
    ghost var seen: set<Id> := {};
    TallyNone(tasks, pid, now);
    while todo != {}
      invariant todo <= tasks.Keys && seen == tasks.Keys - todo
      invariant Tallied(tasks, seen, pid, now, queued, running, recent, buckets)
      decreases |todo|
    {
      var k :| k in todo;
      var task := tasks[k];
      TallyOne(tasks, seen, k, pid, now, queued, running, recent, buckets);
      assert tasks.Keys - (todo - {k}) == (tasks.Keys - todo) + {k};
      todo := todo - {k};
      seen := seen + {k};
      if task.profileId == pid {
        queued, running, recent, buckets := TallyTask(task, now, queued, running, recent, buckets);
      }
    }
    assert seen == tasks.Keys;
  }

  method TallyTask(task: Task, now: Time, queued: int, running: int, recent: int, buckets: seq<int>)
    returns (queued': int, running': int, recent': int, buckets': seq<int>)
    requires |buckets| == DEMAND_BUCKETS
    ensures queued' == queued + if task.status == Queued then 1 else 0
    ensures running' == running + if task.status == Running then 1 else 0
    ensures recent' == recent + if DemandBucket(task.createdAt, now).Some? then 1 else 0
    ensures buckets' == Bump(buckets, DemandBucket(task.createdAt, now))
  {
    queued', running', recent', buckets' := queued, running, recent, buckets;
    if task.status == Queued {
      queued' := queued + 1;
    }
    if task.status == Running {
      running' := running + 1;
    }
    var bucket := DemandBucket(task.createdAt, now);
    if bucket.Some? {
      recent' := recent + 1;
      buckets' := buckets[bucket.value := buckets[bucket.value] + 1];
    }
  }

  ghost predicate FinishedTallied(tasks: map<Id, Task>, seen: set<Id>, pid: Id, now: Time, cooldown: int, count: int) {
    count == |Select(tasks, seen, FinishedFor(pid, now, cooldown))|
  }

  method RecentlyFinishedDemand(tasks: map<Id, Task>, pid: Id, now: Time, cooldown: int) returns (count: int)
    ensures count == Count(tasks, FinishedFor(pid, now, cooldown))
  {
    count := 0;
    var cutoff, recentCutoff := now - cooldown, now - DEMAND_WINDOW;
    var todo := tasks.Keys;
    ghost var seen: set<Id> := {};
    while todo != {}
      invariant todo <= tasks.Keys && seen == tasks.Keys - todo
      invariant FinishedTallied(tasks, seen, pid, now, cooldown, count)
      decreases |todo|
    {
      var k :| k in todo;
      var task := tasks[k];
      SelectAdd(tasks, seen, k, FinishedFor(pid, now, cooldown));
      assert tasks.Keys - (todo - {k}) == (tasks.Keys - todo) + {k};
      todo := todo - {k};
      seen := seen + {k};
      if task.profileId != pid || !Terminal(task.status) || task.createdAt > recentCutoff {
        continue;
      }
      if FinishedAt(task) > cutoff && !(FinishedAt(task) > now) {
        count := count + 1;
      }
    }
    assert seen == tasks.Keys;
  }

  // ---------- what the arithmetic promises ----------

  lemma CeilDivMonotone(a: int, b: int)
    requires a <= b
    ensures CeilDiv(a, 4 * DEMAND_BUCKETS) <= CeilDiv(b, 4 * DEMAND_BUCKETS)
  {
    assert 4 * DEMAND_BUCKETS == 20;
  }

  lemma MulMonotone(r: int, r': int, a: int, a': int)
    requires 0 <= r <= r' && 0 <= a <= a'
    ensures r * a <= r' * a'
  {
    assert r * a <= r * a';
    assert r * a' <= r' * a';
  }

  lemma {:induction false} ActiveBucketsMonotone(c: seq<int>, c': seq<int>)
    requires |c| == |c'| && forall i :: 0 <= i < |c| ==> c[i] <= c'[i]
    ensures ActiveBuckets(c) <= ActiveBuckets(c') <= |c'|
  {
    if c != [] {
      ActiveBucketsMonotone(c[..|c| - 1], c'[..|c'| - 1]);
    }
  }

  lemma SmoothedMonotone(recent: int, recent': int, c: seq<int>, c': seq<int>)
    requires 0 <= recent <= recent'
    requires |c| == |c'| && forall i :: 0 <= i < |c| ==> c[i] <= c'[i]
    ensures Smoothed(recent, c) <= Smoothed(recent', c')
  {
    ActiveBucketsMonotone(c, c');
    var a, a' := Max(1, ActiveBuckets(c)), Max(1, ActiveBuckets(c'));
    MulMonotone(recent, recent', a, a');
    CeilDivMonotone(recent * a, recent' * a');
  }

  /** With recent demand, the smoothed demand lies between 1 and a quarter of it, rounded up. */
  lemma SmoothedBounds(tasks: map<Id, Task>, pid: Id, now: Time)
    ensures var recent := Count(tasks, RecentFor(pid, now));
            if recent == 0 then SmoothedAt(tasks, pid, now) == 0
            else 1 <= SmoothedAt(tasks, pid, now) <= CeilDiv(recent, 4)
  {
    var recent, c := Count(tasks, RecentFor(pid, now)), BucketCounts(tasks, pid, now);
    ActiveBucketsMonotone(c, c);
    var a := Max(1, ActiveBuckets(c));
    if recent > 0 {
      MulMonotone(recent, recent, 1, a);
      MulMonotone(recent, recent, a, DEMAND_BUCKETS);
      CeilDivMonotone(1, recent * a);
      CeilDivMonotone(recent * a, recent * DEMAND_BUCKETS);
      assert CeilDiv(recent * 5, 20) == CeilDiv(recent, 4);
    }
  }

  lemma CapacityMonotone(policy: Policy, q: int, q': int, r: int, n: int, n': int, s: int, s': int, c: int, c': int)
    requires q <= q' && s <= s' && c <= c'
    ensures CapacityFor(policy, q, r, n, s, c).warm <= CapacityFor(policy, q', r, n', s', c').warm
    ensures CapacityFor(policy, q, r, n, s, c).cached <= CapacityFor(policy, q', r, n', s', c').cached
  {
  }

  lemma InsertRaisesSmoothed(tasks: map<Id, Task>, k: Id, t: Task, pid: Id, now: Time)
    requires k !in tasks
    ensures SmoothedAt(tasks, pid, now) <= SmoothedAt(tasks[k := t], pid, now)
  {
    CountInsert(tasks, k, t, RecentFor(pid, now));
    forall b | 0 <= b < DEMAND_BUCKETS
      ensures BucketCounts(tasks, pid, now)[b] <= BucketCounts(tasks[k := t], pid, now)[b]
    {
      CountInsert(tasks, k, t, BucketFor(pid, now, b));
    }
    SmoothedMonotone(Count(tasks, RecentFor(pid, now)), Count(tasks[k := t], RecentFor(pid, now)),
                     BucketCounts(tasks, pid, now), BucketCounts(tasks[k := t], pid, now));
  }

  /** Queueing one more task never lowers the warm or cached target of any policy. */
  lemma QueueingNeverLowersCapacity(tasks: map<Id, Task>, k: Id, t: Task, policy: Policy, now: Time, cooldown: int)
    requires k !in tasks && t.status == Queued
    ensures EffectiveCapacity(tasks, policy, now, cooldown).warm
         <= EffectiveCapacity(tasks[k := t], policy, now, cooldown).warm
    ensures EffectiveCapacity(tasks, policy, now, cooldown).cached
         <= EffectiveCapacity(tasks[k := t], policy, now, cooldown).cached
  {
    if policy.autoBalance {
      var pid, tasks' := policy.profileId, tasks[k := t];
      CountInsert(tasks, k, t, QueuedFor(pid));
      CountInsert(tasks, k, t, RunningFor(pid));
      CountInsert(tasks, k, t, FinishedFor(pid, now, cooldown));
      InsertRaisesSmoothed(tasks, k, t, pid, now);
      InsertRaisesSmoothed(tasks, k, t, pid, now - cooldown);
      CapacityMonotone(policy,
        Count(tasks, QueuedFor(pid)), Count(tasks', QueuedFor(pid)), Count(tasks, RunningFor(pid)),
        Count(tasks, RecentFor(pid, now)), Count(tasks', RecentFor(pid, now)),
        SmoothedAt(tasks, pid, now), SmoothedAt(tasks', pid, now),
        CooldownDemand(tasks, pid, now, cooldown), CooldownDemand(tasks', pid, now, cooldown));
    }
  }

  lemma ReplaceKeepsSmoothed(tasks: map<Id, Task>, k: Id, t: Task, pid: Id, now: Time)
    requires k in tasks && t.profileId == tasks[k].profileId && t.createdAt == tasks[k].createdAt
    ensures SmoothedAt(tasks, pid, now) == SmoothedAt(tasks[k := t], pid, now)
  {
    CountReplace(tasks, k, t, RecentFor(pid, now));
    forall b | 0 <= b < DEMAND_BUCKETS
      ensures Count(tasks, BucketFor(pid, now, b)) == Count(tasks[k := t], BucketFor(pid, now, b))
    {
      CountReplace(tasks, k, t, BucketFor(pid, now, b));
    }
    assert BucketCounts(tasks, pid, now) == BucketCounts(tasks[k := t], pid, now);
  }

  lemma RemoveThenInsert(tasks: map<Id, Task>, k: Id, t: Task, f: Task -> bool)
    requires k in tasks
    ensures Count(tasks[k := t], f)
         == Count(tasks, f) - (if f(tasks[k]) then 1 else 0) + if f(t) then 1 else 0
  {
    var rest := tasks - {k};
    CountInsert(rest, k, tasks[k], f);
    CountInsert(rest, k, t, f);
    assert rest[k := tasks[k]] == tasks && rest[k := t] == tasks[k := t];
  }

  /** Reserving a queued task (queued becomes running) leaves both targets of every policy unchanged. */
  lemma ReservingKeepsCapacity(tasks: map<Id, Task>, k: Id, t: Task, policy: Policy, now: Time, cooldown: int)
    requires k in tasks && tasks[k].status == Queued && t.status == Running
    requires t.profileId == tasks[k].profileId && t.createdAt == tasks[k].createdAt
    ensures EffectiveCapacity(tasks, policy, now, cooldown).warm
         == EffectiveCapacity(tasks[k := t], policy, now, cooldown).warm
    ensures EffectiveCapacity(tasks, policy, now, cooldown).cached
         == EffectiveCapacity(tasks[k := t], policy, now, cooldown).cached
  {
    if policy.autoBalance {
      var pid := policy.profileId;
      RemoveThenInsert(tasks, k, t, QueuedFor(pid));
      RemoveThenInsert(tasks, k, t, RunningFor(pid));
      CountReplace(tasks, k, t, FinishedFor(pid, now, cooldown));
      ReplaceKeepsSmoothed(tasks, k, t, pid, now);
      ReplaceKeepsSmoothed(tasks, k, t, pid, now - cooldown);
    }
  }

  /** The cached target covers the warm one, and a positive maximum caps the warm one.
      The warm target reaches the policy's minimum exactly when the maximum allows it. */
  lemma CapacityBounds(tasks: map<Id, Task>, policy: Policy, now: Time, cooldown: int)
    ensures var c := EffectiveCapacity(tasks, policy, now, cooldown);
            && c.warm <= c.cached
            && (policy.autoBalance && policy.maxWarmCount > 0 ==> c.warm <= policy.maxWarmCount)
            && (c.minWarm <= c.warm <==>
                !policy.autoBalance || policy.maxWarmCount <= 0 || MinimumWarm(policy) <= policy.maxWarmCount)
  {
    if policy.autoBalance {
      var pid := policy.profileId;
      var d := Max(Count(tasks, QueuedFor(pid)) + Count(tasks, RunningFor(pid)) + SmoothedAt(tasks, pid, now),
                   CooldownDemand(tasks, pid, now, cooldown));
      var warm := ClampCount(d, MinimumWarm(policy), policy.maxWarmCount);
      assert EffectiveCapacity(tasks, policy, now, cooldown).warm == warm;
    }
  }

  /** `validatePlacementPolicy`. */
  predicate ValidPolicy(p: Policy) {
    && 0 <= p.cachedCount && 0 <= p.warmCount && 0 <= p.minCachedCount && 0 <= p.maxCachedCount
    && 0 <= p.minWarmCount && 0 <= p.maxWarmCount
    && 0 <= p.maxCachedProfilesPerNode && 0 <= p.maxWarmProfilesPerNode
    && (p.maxWarmCount > 0 ==> p.minWarmCount <= p.maxWarmCount)
    && (p.maxCachedCount > 0 ==> p.minCachedCount <= p.maxCachedCount)
  }

  /** A policy that passes validation may still plan fewer warm copies than its own
      minimum: the minimum falls back to the plain warm count, which validation does
      not compare with the maximum. */
  lemma ValidPolicyBelowMinimum(tasks: map<Id, Task>, now: Time)
    ensures var p := Policy("pol", "p", 0, 3, true, 0, 0, 0, 2, 0, 0, [], [], [], []);
            ValidPolicy(p)
            && EffectiveCapacity(tasks, p, now, 0).warm == 2
            && EffectiveCapacity(tasks, p, now, 0).minWarm == 3
  {
    var p := Policy("pol", "p", 0, 3, true, 0, 0, 0, 2, 0, 0, [], [], [], []);
    CapacityBounds(tasks, p, now, 0);
    assert MinimumWarm(p) == 3;
  }
}
