/** How many copies a finished plan holds: the counting loops meet their targets exactly,
    and a copy is missing only when no candidate was left. */
module PlanCounts {
  import opened Base
  import opened Traces
  import opened Model
  import opened Placement
  import opened Candidates
  import PlanTrace
  import opened Booking
  import opened PlanTerms
  import opened PlanTheorems

  // ---------- loops that raise a counter to a target ----------

  ghost predicate Peak<X>(m: int, start: int, xs: seq<X>, value: X -> Option<int>) {
    && m >= start
    && (forall x :: x in xs && value(x).Some? ==> m >= value(x).value)
    && (m == start || exists x :: x in xs && value(x) == Some(m))
  }

  /** A loop whose every round raises the counter to that round's target ends at the highest of them. */
  lemma {:induction false} FoldPeak<S(!new), X(!new)>(
      f: (S, X) -> S, s: S, xs: seq<X>, count: S -> int, value: X -> Option<int>)
    requires forall z, x :: count(f(z, x)) == if value(x).Some? then Max(count(z), value(x).value) else count(z)
    ensures Peak(count(Fold(f, s, xs)), count(s), xs, value)
    decreases |xs|
  {
    if xs != [] {
      FoldPeak(f, f(s, xs[0]), xs[1..], count, value);
      var m := count(Fold(f, s, xs));
      assert xs == [xs[0]] + xs[1..];
      assert count(f(s, xs[0])) == if value(xs[0]).Some? then Max(count(s), value(xs[0]).value) else count(s);
      if m != count(f(s, xs[0])) {
        var x :| x in xs[1..] && value(x) == Some(m);
        assert x in xs;
      } else if m != count(s) {
        assert value(xs[0]) == Some(m);
      }
    }
  }

  /** A loop that never lowers the counter and meets each round's target ends above all of them. */
  lemma {:induction false} FoldAbove<S(!new), X(!new)>(
      f: (S, X) -> S, s: S, xs: seq<X>, count: S -> int, value: X -> Option<int>)
    requires forall z, x :: count(f(z, x)) >= count(z) && (value(x).Some? ==> count(f(z, x)) >= value(x).value)
    ensures count(Fold(f, s, xs)) >= count(s)
    ensures forall x :: x in xs && value(x).Some? ==> count(Fold(f, s, xs)) >= value(x).value
    decreases |xs|
  {
    if xs != [] {
      FoldAbove(f, f(s, xs[0]), xs[1..], count, value);
      assert xs == [xs[0]] + xs[1..];
    }
  }

  // ---------- the warm counter ----------

  lemma WarmUntilCount(env: Env, st: PlanState, item: Item, target: int, pid: Id)
    ensures Get(PlaceWarmUntil(env, st, item, target).warmBy, pid)
         == if item.profile.id == pid then Max(Get(st.warmBy, pid), target) else Get(st.warmBy, pid)
  {
    WarmBodyCounts(env, item);
    if item.profile.id != pid {
      var k := Get(st.warmBy, pid);
      var inv := (z: PlanState) => Get(z.warmBy, pid) == k;
      forall z | inv(z) ensures inv(WarmBody(env, item)(z)) {
        OneWarmCounts(env, z, item);
      }
      UntilKeeps(WarmCount(item.profile.id), WarmBody(env, item), target, st, inv);
    }
  }

  lemma BookCacheKeepsWarm(db: Database, st: PlanState, pid: Id, c: Candidate, a: Assignment)
    ensures BookCache(db, st, pid, c, a).warmBy == st.warmBy
  {
  }

  lemma OneCacheKeepsWarm(env: Env, st: PlanState, item: Item)
    ensures PlaceOneCache(env, st, item).warmBy == st.warmBy
  {
    var next := NextCache(env, st, item);
    if next.Some? {
      BookCacheKeepsWarm(env.db, st, item.profile.id, next.value,
                         CacheAssignment(item.profile.id, next.value, env.now));
    }
  }

  lemma CacheUntilKeepsWarm(env: Env, st: PlanState, item: Item, target: int)
    ensures PlaceCacheUntil(env, st, item, target).warmBy == st.warmBy
  {
    CacheBodyCounts(env, item);
    var inv := (z: PlanState) => z.warmBy == st.warmBy;
    forall z | inv(z) ensures inv(CacheBody(env, item)(z)) {
      OneCacheKeepsWarm(env, z, item);
    }
    UntilKeeps(CacheCount(item.profile.id), CacheBody(env, item), target, st, inv);
  }

  ghost function WarmValue(pid: Id, round: Round): Item -> Option<int> {
    (it: Item) => if it.profile.id == pid then Some(WarmTarget(it, round)) else None
  }

  ghost function NoValue(): Item -> Option<int> {
    (it: Item) => None
  }

  lemma AllWarmCount(env: Env, st: PlanState, todo: seq<Item>, round: Round, pid: Id)
    ensures Peak(Get(PlaceAllWarm(env, st, todo, round).warmBy, pid), Get(st.warmBy, pid), todo, WarmValue(pid, round))
  {
    var f, count, value := AllWarmBody(env, round), WarmCount(pid), WarmValue(pid, round);
    forall z, it ensures count(f(z, it)) == if value(it).Some? then Max(count(z), value(it).value) else count(z) {
      WarmUntilCount(env, z, it, WarmTarget(it, round), pid);
    }
    FoldPeak(f, st, todo, count, value);
  }

  lemma AllCacheKeepsWarm(env: Env, st: PlanState, todo: seq<Item>, round: Round, pid: Id)
    ensures Get(PlaceAllCache(env, st, todo, round).warmBy, pid) == Get(st.warmBy, pid)
  {
    var f, count := AllCacheBody(env, round), WarmCount(pid);
    forall z, it ensures count(f(z, it)) == count(z) {
      CacheUntilKeepsWarm(env, z, it, CacheTarget(it, round));
    }
    FoldPeak(f, st, todo, count, NoValue());
  }

  /** The number `m` is the highest of `fixed` and the profile's minimum and full warm targets. */
  ghost predicate HighestWarm(m: int, fixed: int, items: seq<Item>, pid: Id) {
    && m >= fixed
    && (forall it :: it in items && it.profile.id == pid ==> m >= it.capacity.minWarm && m >= it.capacity.warm)
    && (m == fixed
        || exists it :: it in items && it.profile.id == pid && (m == it.capacity.minWarm || m == it.capacity.warm))
  }

  lemma PeaksCombine(fixed: int, mid: int, m: int, items: seq<Item>, byNeed: seq<Item>, byDemand: seq<Item>, pid: Id)
    requires forall it :: it in byNeed <==> it in items
    requires forall it :: it in byDemand <==> it in items
    requires Peak(mid, fixed, byNeed, WarmValue(pid, Minimum)) && Peak(m, mid, byDemand, WarmValue(pid, Full))
    ensures HighestWarm(m, fixed, items, pid)
  {
    forall it | it in items && it.profile.id == pid ensures m >= it.capacity.minWarm && m >= it.capacity.warm {
      assert it in byNeed && WarmValue(pid, Minimum)(it) == Some(it.capacity.minWarm);
      assert it in byDemand && WarmValue(pid, Full)(it) == Some(it.capacity.warm);
    }
    if m != mid {
      var it :| it in byDemand && WarmValue(pid, Full)(it) == Some(m);
      assert it in items && it.profile.id == pid && m == it.capacity.warm;
    } else if mid != fixed {
      var it :| it in byNeed && WarmValue(pid, Minimum)(it) == Some(mid);
      assert it in items && it.profile.id == pid && mid == it.capacity.minWarm;
    }
  }

  lemma WarmCounter(env: Env, items: seq<Item>, pid: Id)
    ensures HighestWarm(Get(Placed(env, items).warmBy, pid), Get(Fixed(env, items).warmBy, pid), items, pid)
  {
    var byNeed := ByNeed(items);
    var byDemand := ByDemand(items);
    PlanTrace.SortedItemsIn(items);
    var s0 := Fixed(env, items);
    var s1 := PlaceAllWarm(env, s0, byNeed, Minimum);
    var s2 := PlaceAllCache(env, s1, byNeed, Minimum);
    var s3 := PlaceAllWarm(env, s2, byDemand, Full);
    AllWarmCount(env, s0, byNeed, Minimum, pid);
    AllCacheKeepsWarm(env, s1, byNeed, Minimum, pid);
    AllWarmCount(env, s2, byDemand, Full, pid);
    AllCacheKeepsWarm(env, s3, byDemand, Full, pid);
    PeaksCombine(Get(s0.warmBy, pid), Get(s2.warmBy, pid), Get(s3.warmBy, pid), items, byNeed, byDemand, pid);
  }

  // ---------- the cache counter ----------

  lemma BookWarmGrowsCache(db: Database, st: PlanState, pid: Id, c: Candidate, a: Assignment, protect: bool, other: Id)
    ensures Get(BookWarm(db, st, pid, c, a, protect).cacheBy, other) >= Get(st.cacheBy, other)
  {
    BookWarmEffect(db, st, pid, c, a, protect);
  }

  lemma OneWarmGrowsCache(env: Env, st: PlanState, item: Item, other: Id)
    ensures Get(PlaceOneWarm(env, st, item).cacheBy, other) >= Get(st.cacheBy, other)
  {
    var next := NextWarm(env, st, item);
    if next.Some? {
      var c := next.value;
      BookWarmGrowsCache(env.db, st, item.profile.id, c,
                         WarmAssignment(item.profile.id, c.effective, c.slot, c.fit, env.now), false, other);
    }
  }

  lemma WarmUntilGrowsCache(env: Env, st: PlanState, item: Item, target: int, pid: Id)
    ensures Get(PlaceWarmUntil(env, st, item, target).cacheBy, pid) >= Get(st.cacheBy, pid)
  {
    WarmBodyCounts(env, item);
    var k := Get(st.cacheBy, pid);
    var inv := (z: PlanState) => Get(z.cacheBy, pid) >= k;
    forall z | inv(z) ensures inv(WarmBody(env, item)(z)) {
      OneWarmGrowsCache(env, z, item, pid);
    }
    UntilKeeps(WarmCount(item.profile.id), WarmBody(env, item), target, st, inv);
  }

  lemma CacheUntilCount(env: Env, st: PlanState, item: Item, target: int, pid: Id)
    ensures var after := Get(PlaceCacheUntil(env, st, item, target).cacheBy, pid);
            after >= Get(st.cacheBy, pid) && (item.profile.id == pid ==> after >= target)
  {
    CacheBodyCounts(env, item);
    var k := Get(st.cacheBy, pid);
    var inv := (z: PlanState) => Get(z.cacheBy, pid) >= k;
    forall z | inv(z) ensures inv(CacheBody(env, item)(z)) {
      OneCacheCounts(env, z, item);
    }
    UntilKeeps(CacheCount(item.profile.id), CacheBody(env, item), target, st, inv);
  }

  ghost function CacheValue(pid: Id, round: Round): Item -> Option<int> {
    (it: Item) => if it.profile.id == pid then Some(CacheTarget(it, round)) else None
  }

  lemma AllWarmGrowsCache(env: Env, st: PlanState, todo: seq<Item>, round: Round, pid: Id)
    ensures Get(PlaceAllWarm(env, st, todo, round).cacheBy, pid) >= Get(st.cacheBy, pid)
  {
    var f, count := AllWarmBody(env, round), CacheCount(pid);
    forall z, it ensures count(f(z, it)) >= count(z) {
      WarmUntilGrowsCache(env, z, it, WarmTarget(it, round), pid);
    }
    FoldAbove(f, st, todo, count, NoValue());
  }

  lemma AllCacheCount(env: Env, st: PlanState, todo: seq<Item>, round: Round, pid: Id)
    ensures var after := Get(PlaceAllCache(env, st, todo, round).cacheBy, pid);
            && after >= Get(st.cacheBy, pid)
            && (forall it :: it in todo && it.profile.id == pid ==> after >= CacheTarget(it, round))
  {
    var f, count, value := AllCacheBody(env, round), CacheCount(pid), CacheValue(pid, round);
    forall z, it ensures count(f(z, it)) >= count(z) && (value(it).Some? ==> count(f(z, it)) >= value(it).value) {
      CacheUntilCount(env, z, it, CacheTarget(it, round), pid);
    }
    FoldAbove(f, st, todo, count, value);
    forall it | it in todo && it.profile.id == pid ensures count(Fold(f, st, todo)) >= CacheTarget(it, round) {
      assert value(it).Some?;
    }
  }

  lemma CacheCounter(env: Env, items: seq<Item>, it: Item)
    requires it in items
    ensures Get(Placed(env, items).cacheBy, it.profile.id) >= Max(it.capacity.minCached, it.capacity.cached)
  {
    var pid, byNeed := it.profile.id, ByNeed(items);
    var byDemand := ByDemand(items);
    PlanTrace.SortedItemsIn(items);
    var s1 := PlaceAllWarm(env, Fixed(env, items), byNeed, Minimum);
    var s2 := PlaceAllCache(env, s1, byNeed, Minimum);
    var s3 := PlaceAllWarm(env, s2, byDemand, Full);
    AllCacheCount(env, s1, byNeed, Minimum, pid);
    AllWarmGrowsCache(env, s2, byDemand, Full, pid);
    AllCacheCount(env, s3, byDemand, Full, pid);
  }

  // ---------- the theorems ----------

  lemma FixedPath(env: Env, items: seq<Item>)
    requires WellKeyed(env.db)
    ensures Path(Move(PlainTerms(env.db, PlanTrace.Rules(false, true, false))), EMPTY_STATE, Fixed(env, items))
  {
    var rules := PlanTrace.Rules(false, true, false);
    PlainSuits(env, items, rules);
    PlanTrace.FixedLeads(env, items, false);
    LeadsPath(PlainTerms(env.db, rules), env, items, rules, EMPTY_STATE, Fixed(env, items));
  }

  lemma RoundsPath(t: Terms, env: Env, items: seq<Item>)
    requires WellKeyed(env.db) && Suits(t, env, items, PlanTrace.ROUNDS)
    ensures Path(Move(t), Fixed(env, items), Placed(env, items))
  {
    PlanTrace.RoundsLead(env, items);
    LeadsPath(t, env, items, PlanTrace.ROUNDS, Fixed(env, items), Placed(env, items));
  }

  lemma WarmStart(pid: Id)
    ensures WarmCountsCopies(pid)(EMPTY_STATE) && CacheCountsNodes(pid)(EMPTY_STATE)
  {
    var st := EMPTY_STATE;
    assert Sum(st.assignments, CopyOf(pid)) == 0 && CachedNodes(st.assignments, pid) == {};
    assert forall n :: GetSet(st.nodeCache, n) == {};
  }

  lemma FixedCounts(env: Env, items: seq<Item>, pid: Id)
    requires WellKeyed(env.db)
    ensures WarmCountsCopies(pid)(Fixed(env, items)) && CacheCountsNodes(pid)(Fixed(env, items))
  {
    var t := PlainTerms(env.db, PlanTrace.Rules(false, true, false));
    FixedPath(env, items);
    WarmStart(pid);
    WarmCopiesKept(t, EMPTY_STATE, Fixed(env, items), pid);
    CacheNodesKept(t, EMPTY_STATE, Fixed(env, items), pid);
  }

  /** Blocked warm assignments of the profile that the placement rounds added: the missing copies. */
  ghost function MissingWarm(plan: seq<Assignment>, fixed: seq<Assignment>, pid: Id): int {
    Sum(plan, BlockedWarmOf(pid)) - Sum(fixed, BlockedWarmOf(pid))
  }

  ghost function MissingCached(plan: seq<Assignment>, fixed: seq<Assignment>, pid: Id): int {
    Sum(plan, BlockedOf(pid)) - Sum(fixed, BlockedOf(pid))
  }

  lemma WarmOfPath(t: Terms, fixed: PlanState, placed: PlanState, items: seq<Item>, pid: Id)
    requires !t.blocks && Path(Move(t), fixed, placed) && WarmCountsCopies(pid)(fixed)
    ensures var plan := Finish(placed, items);
            Get(placed.warmBy, pid) == Sum(plan, CopyOf(pid)) + MissingWarm(plan, fixed.assignments, pid)
  {
    WarmAccountKept(t, fixed, placed, pid, Sum(fixed.assignments, BlockedWarmOf(pid)));
    FinishSum(placed, items, CopyOf(pid));
    FinishSum(placed, items, BlockedWarmOf(pid));
  }

  lemma CacheOfPath(t: Terms, fixed: PlanState, placed: PlanState, items: seq<Item>, pid: Id)
    requires !t.blocks && Path(Move(t), fixed, placed) && CacheCountsNodes(pid)(fixed)
    ensures var plan := Finish(placed, items);
            Get(placed.cacheBy, pid) == |CachedNodes(plan, pid)| + MissingCached(plan, fixed.assignments, pid)
  {
    CacheAccountKept(t, fixed, placed, pid, Sum(fixed.assignments, BlockedOf(pid)));
    FinishSum(placed, items, BlockedOf(pid));
    FinishSame(placed, items);
    SameSets(Finish(placed, items), placed.assignments, "", pid);
  }

  lemma PlainRounds(env: Env, items: seq<Item>)
    requires WellKeyed(env.db)
    ensures Path(Move(PlainTerms(env.db, PlanTrace.ROUNDS)), Fixed(env, items), Placed(env, items))
  {
    PlainSuits(env, items, PlanTrace.ROUNDS);
    RoundsPath(PlainTerms(env.db, PlanTrace.ROUNDS), env, items);
  }

  lemma PlannedWarm(env: Env, items: seq<Item>, pid: Id)
    requires WellKeyed(env.db)
    ensures var plan, fixed := Finish(Placed(env, items), items), Fixed(env, items).assignments;
            HighestWarm(Sum(plan, CopyOf(pid)) + MissingWarm(plan, fixed, pid), Sum(fixed, CopyOf(pid)), items, pid)
  {
    FixedCounts(env, items, pid);
    PlainRounds(env, items);
    WarmOfPath(PlainTerms(env.db, PlanTrace.ROUNDS), Fixed(env, items), Placed(env, items), items, pid);
    WarmCounter(env, items, pid);
  }

  /** Exact copy accounting: unblocked warm assignments plus the missing ones the rounds
      added are the highest of the pinned and preserved copies and the policies' targets. */
  lemma WarmCopyAccounting(db: Database, now: Time, cooldown: int, explain: bool, pid: Id)
    requires WellKeyed(db)
    ensures var items, plan := PolicyItems(db, now, cooldown), PlanPlacement(db, now, cooldown, explain);
            var fixed := Fixed(Env(db, now, explain), items).assignments;
            HighestWarm(Sum(plan, CopyOf(pid)) + MissingWarm(plan, fixed, pid), Sum(fixed, CopyOf(pid)), items, pid)
  {
    PlannedWarm(Env(db, now, explain), PolicyItems(db, now, cooldown), pid);
  }

  lemma PlannedCache(env: Env, items: seq<Item>, it: Item)
    requires WellKeyed(env.db) && it in items
    ensures var plan, fixed := Finish(Placed(env, items), items), Fixed(env, items).assignments;
            |CachedNodes(plan, it.profile.id)| + MissingCached(plan, fixed, it.profile.id)
            >= Max(it.capacity.minCached, it.capacity.cached)
  {
    FixedCounts(env, items, it.profile.id);
    PlainRounds(env, items);
    CacheOfPath(PlainTerms(env.db, PlanTrace.ROUNDS), Fixed(env, items), Placed(env, items), items, it.profile.id);
    CacheCounter(env, items, it);
  }

  /** Nodes with a cached copy plus the missing copies the rounds added reach both cached targets. */
  lemma CacheCopyAccounting(db: Database, now: Time, cooldown: int, explain: bool, it: Item)
    requires WellKeyed(db) && it in PolicyItems(db, now, cooldown)
    ensures var plan, fixed := PlanPlacement(db, now, cooldown, explain),
                               Fixed(Env(db, now, explain), PolicyItems(db, now, cooldown)).assignments;
            |CachedNodes(plan, it.profile.id)| + MissingCached(plan, fixed, it.profile.id)
            >= Max(it.capacity.minCached, it.capacity.cached)
  {
    PlannedCache(Env(db, now, explain), PolicyItems(db, now, cooldown), it);
  }

  // ---------- missing copies ----------

  /** The plan reports a missing warm copy of the item, or holds fewer copies than one of its targets. */
  ghost predicate ShortOf(plan: seq<Assignment>, fixed: seq<Assignment>, it: Item) {
    || MissingWarm(plan, fixed, it.profile.id) != 0
    || Sum(plan, CopyOf(it.profile.id)) < it.capacity.minWarm
    || Sum(plan, CopyOf(it.profile.id)) < it.capacity.warm
  }

  lemma SpentPath(t: Terms, fixed: PlanState, placed: PlanState, items: seq<Item>, it: Item)
    requires t.limited && t.growing && !t.blocks && SpentPersists(t, it.profile.id)
    requires Path(Move(t), fixed, placed) && WarmCountsCopies(it.profile.id)(fixed)
    requires Get(placed.warmBy, it.profile.id) >= it.capacity.minWarm
    requires Get(placed.warmBy, it.profile.id) >= it.capacity.warm
    ensures ShortOf(Finish(placed, items), fixed.assignments, it) ==> t.spent(placed, it.profile.id)
  {
    var pid := it.profile.id;
    assert MissingInv(t, pid)(fixed);
    MissingKept(t, fixed, placed, pid);
    WarmOfPath(t, fixed, placed, items, pid);
    FinishSum(placed, items, CopyOf(pid));
  }

  lemma PolicyRounds(env: Env, items: seq<Item>, it: Item)
    requires WellKeyed(env.db) && OnePolicyPerProfile(items) && NonNegativeSizes(env.db, items) && it in items
    ensures Path(Move(PolicyTerms(env, items, PlanTrace.ROUNDS)), Fixed(env, items), Placed(env, items))
    ensures SpentPersists(PolicyTerms(env, items, PlanTrace.ROUNDS), it.profile.id)
  {
    PolicySuits(env, items, PlanTrace.ROUNDS);
    RoundsPath(PolicyTerms(env, items, PlanTrace.ROUNDS), env, items);
    ExhaustionPersists(env, items, PlanTrace.ROUNDS, it);
  }

  lemma SpentIsExhausted(env: Env, items: seq<Item>, st: PlanState, it: Item)
    requires OnePolicyPerProfile(items) && it in items
    requires PolicyTerms(env, items, PlanTrace.ROUNDS).spent(st, it.profile.id)
    ensures Exhausted(env, st, it)
  {
    OwnItem(items, it);
  }

  lemma PlannedJustified(env: Env, items: seq<Item>, it: Item)
    requires WellKeyed(env.db) && OnePolicyPerProfile(items) && NonNegativeSizes(env.db, items) && it in items
    requires ShortOf(Finish(Placed(env, items), items), Fixed(env, items).assignments, it)
    ensures Exhausted(env, Placed(env, items), it)
  {
    var t := PolicyTerms(env, items, PlanTrace.ROUNDS);
    FixedCounts(env, items, it.profile.id);
    WarmCounter(env, items, it.profile.id);
    PolicyRounds(env, items, it);
    SpentPath(t, Fixed(env, items), Placed(env, items), items, it);
    SpentIsExhausted(env, items, Placed(env, items), it);
  }

  /** Missing copies are justified: when the plan falls short of a profile, no slot and
      variant for it passes the checks in the final planner state. */
  lemma MissingIsJustified(db: Database, now: Time, cooldown: int, explain: bool, it: Item)
    requires WellKeyed(db) && PolicyPerProfile(db) && it in PolicyItems(db, now, cooldown)
    requires NonNegativeSizes(db, PolicyItems(db, now, cooldown))
    requires ShortOf(PlanPlacement(db, now, cooldown, explain),
                     Fixed(Env(db, now, explain), PolicyItems(db, now, cooldown)).assignments, it)
    ensures Exhausted(Env(db, now, explain), Placed(Env(db, now, explain), PolicyItems(db, now, cooldown)), it)
  {
    ItemsPerProfile(db, now, cooldown);
    PlannedJustified(Env(db, now, explain), PolicyItems(db, now, cooldown), it);
  }
}
