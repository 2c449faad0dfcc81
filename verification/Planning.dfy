/** What a caller of the planner may rely on, read off the plan it returns and the
    database it was given. */
module Planning {
  import opened Base
  import opened Model
  import opened Fit
  import opened Demand
  import opened Placement
  import opened PlanTrace
  import opened Booking
  import opened PlanTerms
  import opened PlanTheorems
  import opened PlanCounts
  import opened Drain
  import Explain
  import Lockstep
  import PlannerLoops

  // ---------- hard pins on distinct slots, said of the policies ----------

  /** No slot is pinned twice, in one policy or in two. */
  ghost predicate PinsDistinct(db: Database) {
    && (forall k, i, j :: k in db.policies && 0 <= i < j < |db.policies[k].hardPinnedSlots| ==>
          db.policies[k].hardPinnedSlots[i] != db.policies[k].hardPinnedSlots[j])
    && (forall j, k, s :: j in db.policies && k in db.policies && j != k && s in db.policies[j].hardPinnedSlots ==>
          s !in db.policies[k].hardPinnedSlots)
  }

  ghost function OtherSlot(): ((Item, Id), (Item, Id)) -> bool {
    (p: (Item, Id), q: (Item, Id)) => p.1 != q.1
  }

  ghost function OtherPins(): (Item, Item) -> bool {
    (x: Item, y: Item) => forall s :: s in x.policy.hardPinnedSlots ==> s !in y.policy.hardPinnedSlots
  }

  lemma ItemPinsDiffer(it: Item)
    requires forall i, j :: 0 <= i < j < |it.policy.hardPinnedSlots| ==>
              it.policy.hardPinnedSlots[i] != it.policy.hardPinnedSlots[j]
    ensures Explain.Pairwise(PinsOf()(it), OtherSlot())
  {
    var pins := PinsOf()(it);
    forall i, j | 0 <= i < j < |pins| ensures OtherSlot()(pins[i], pins[j]) {
      assert pins[i].1 == it.policy.hardPinnedSlots[i] && pins[j].1 == it.policy.hardPinnedSlots[j];
    }
    Explain.PairwiseFrom(pins, OtherSlot());
  }

  lemma ItemPinMember(it: Item, p: (Item, Id))
    requires p in PinsOf()(it)
    ensures p.1 in it.policy.hardPinnedSlots
  {
    var pins := PinsOf()(it);
    var i :| 0 <= i < |pins| && pins[i] == p;
    assert p.1 == it.policy.hardPinnedSlots[i];
  }

  lemma ItemsDiffer(db: Database, now: Time, cooldown: int)
    requires PinsDistinct(db)
    ensures Explain.Pairwise(PolicyItems(db, now, cooldown), OtherPins())
  {
    var keys, f := SortedKeys(db.policies.Keys), ItemOf(db, now, cooldown);
    forall k | k in keys ensures Explain.Pairwise(f(k), OtherPins()) {
      KeyItems(db, now, cooldown, k);
    }
    forall i, j, y, z | 0 <= i < j < |keys| && y in f(keys[i]) && z in f(keys[j]) ensures OtherPins()(y, z) {
      assert keys[i] in keys && keys[j] in keys && LexLess(keys[i], keys[j]);
      LexIrreflexive(keys[i]);
      KeyItems(db, now, cooldown, keys[i]);
      KeyItems(db, now, cooldown, keys[j]);
    }
    Explain.PairwiseFlatMap(keys, f, OtherPins());
  }

  lemma KeyItems(db: Database, now: Time, cooldown: int, k: Id)
    requires k in db.policies
    ensures forall it :: it in ItemOf(db, now, cooldown)(k) ==> it.policy == db.policies[k]
    ensures Explain.Pairwise(ItemOf(db, now, cooldown)(k), OtherPins())
  {
    var items := ItemOf(db, now, cooldown)(k);
    if items != [] {
      assert items[1..] == [];
    }
  }

  lemma ItemsApart(items: seq<Item>)
    requires Explain.Pairwise(items, OtherPins()) && forall it :: it in items ==>
              Explain.Pairwise(PinsOf()(it), OtherSlot())
    ensures DistinctSlots(AllPins(items))
  {
    forall i, j, p, q | 0 <= i < j < |items| && p in PinsOf()(items[i]) && q in PinsOf()(items[j])
      ensures OtherSlot()(p, q)
    {
      Explain.PairwiseAt(items, OtherPins(), i, j);
      ItemPinMember(items[i], p);
      ItemPinMember(items[j], q);
    }
    Explain.PairwiseFlatMap(items, PinsOf(), OtherSlot());
    var pins := AllPins(items);
    forall i, j | 0 <= i < j < |pins| ensures pins[i].1 != pins[j].1 {
      Explain.PairwiseAt(pins, OtherSlot(), i, j);
    }
  }

  /** Policies that pin distinct slots give the planner distinct pins. */
  lemma DistinctPins(db: Database, now: Time, cooldown: int)
    requires PinsDistinct(db)
    ensures DistinctSlots(AllPins(PolicyItems(db, now, cooldown)))
  {
    ItemsDiffer(db, now, cooldown);
    forall it | it in PolicyItems(db, now, cooldown) ensures Explain.Pairwise(PinsOf()(it), OtherSlot()) {
      PolicyItemsMember(db, now, cooldown, it);
      ItemPinsDiffer(it);
    }
    ItemsApart(PolicyItems(db, now, cooldown));
  }

  // ---------- what the plan promises ----------

  /** Warm memory on every node with a positive budget is within it. */
  ghost predicate MemoryWithin(db: Database, plan: seq<Assignment>) {
    forall n :: n in db.nodes && MemoryBudget(db.nodes[n]) > 0 ==>
      Sum(plan, MemoryOn(MemoryOf(db), n)) <= MemoryBudget(db.nodes[n])
  }

  /** In some order of the plan, draining marks aside, disk counted once per node and profile at
      the first variant of that order is within every positive budget. */
  ghost predicate DiskWithin(db: Database, plan: seq<Assignment>) {
    exists order: seq<Assignment> :: multiset(order) == multiset(Map(plan, Undrained())) && DiskFits(db, order)
  }

  ghost predicate DiskFits(db: Database, order: seq<Assignment>) {
    forall n :: n in db.nodes && db.nodes[n].budgets.disk > 0 ==>
      DiskOn(DiskOf(db), order, n) <= db.nodes[n].budgets.disk
  }

  /** No slot has two unblocked warm assignments. */
  ghost predicate SlotsExclusive(plan: seq<Assignment>) {
    forall s :: Sum(plan, OnSlot(s)) <= 1
  }

  ghost predicate LimitsRespected(plan: seq<Assignment>, warm: int, cached: int) {
    forall n :: |WarmProfilesOn(plan, n)| <= warm && |ProfilesOn(plan, n)| <= cached
  }

  function CapacityOf(db: Database, k: Id, now: Time, cooldown: int): Capacity
    requires k in db.policies
  {
    EffectiveCapacity(db.tasks, db.policies[k], now, cooldown)
  }

  /** Unblocked and reported copies together reach both warm targets of every policy. */
  ghost predicate TargetsCovered(db: Database, plan: seq<Assignment>, now: Time, cooldown: int) {
    forall k :: k in db.policies && db.policies[k].profileId in db.profiles ==>
      var copies := Sum(plan, CopyOf(db.policies[k].profileId)) + Sum(plan, BlockedWarmOf(db.policies[k].profileId));
      copies >= CapacityOf(db, k, now, cooldown).warm && copies >= CapacityOf(db, k, now, cooldown).minWarm
  }

  /** Draining leaves every profile at its Warm target, or with all its copies if it has fewer. */
  ghost predicate DrainsToTarget(db: Database, plan: seq<Assignment>, now: Time, cooldown: int) {
    forall k :: k in db.policies && db.policies[k].profileId in db.profiles ==>
      var copies := Sum(plan, CopyOf(db.policies[k].profileId));
      copies - Sum(plan, DrainingOf(db.policies[k].profileId)) >= Min(copies, CapacityOf(db, k, now, cooldown).warm)
  }

  lemma BlockedCount(plan: seq<Assignment>, pid: Id)
    ensures Sum(plan, BlockedWarmOf(pid)) >= 0
  {
    SumNonNegative(plan, BlockedWarmOf(pid));
  }

  lemma PreservedCount(plan: seq<Assignment>, kept: set<Id>, pid: Id)
    ensures Sum(plan, PreservedOf(kept, pid)) >= 0
  {
    SumNonNegative(plan, PreservedOf(kept, pid));
  }

  lemma PolicyTargets(db: Database, now: Time, cooldown: int, explain: bool, k: Id, plan: seq<Assignment>)
    requires WellKeyed(db) && k in db.policies && db.policies[k].profileId in db.profiles
    requires plan == PlanPlacement(db, now, cooldown, explain)
    ensures var pid, capacity := db.policies[k].profileId, CapacityOf(db, k, now, cooldown);
            var copies := Sum(plan, CopyOf(pid)) + Sum(plan, BlockedWarmOf(pid));
            copies >= capacity.warm && copies >= capacity.minWarm
  {
    var it := PolicyItem(db, db.policies[k], now, cooldown);
    PolicyItemsMember(db, now, cooldown, it);
    WarmCopyAccounting(db, now, cooldown, explain, it.profile.id);
    BlockedCount(Fixed(Env(db, now, explain), PolicyItems(db, now, cooldown)).assignments, it.profile.id);
  }

  lemma PolicyDrains(db: Database, now: Time, cooldown: int, explain: bool, k: Id, plan: seq<Assignment>)
    requires WellKeyed(db) && PolicyPerProfile(db) && k in db.policies && db.policies[k].profileId in db.profiles
    requires plan == PlanPlacement(db, now, cooldown, explain)
    ensures var pid := db.policies[k].profileId;
            Sum(plan, CopyOf(pid)) - Sum(plan, DrainingOf(pid))
            >= Min(Sum(plan, CopyOf(pid)), CapacityOf(db, k, now, cooldown).warm)
  {
    var it := PolicyItem(db, db.policies[k], now, cooldown);
    var pid, kept := it.profile.id, Placed(Env(db, now, explain), PolicyItems(db, now, cooldown)).protectedIds;
    PolicyItemsMember(db, now, cooldown, it);
    DrainingIsExact(db, now, cooldown, explain, it);
    PreservedCount(plan, kept, pid);
    DrainingStopsAtTarget(Sum(plan, DrainingOf(pid)), Sum(plan, PreservedOf(kept, pid)), Sum(plan, CopyOf(pid)),
                          it.capacity.warm);
  }

  /** Plans, and what the plan promises: memory budgets, exclusive slots, per-node limits,
      targets met or reported short, and no draining below a target. */
  method PlanWithGuarantees(db: Database, now: Time, cooldown: int, explain: bool) returns (plan: seq<Assignment>)
    requires WellKeyed(db)
    ensures VariantIdsUnique(db) ==> MemoryWithin(db, plan) && DiskWithin(db, plan)
    ensures PinsDistinct(db) ==> SlotsExclusive(plan)
    ensures forall warm, cached :: warm > 0 && cached > 0 && PolicyLimits(db, warm, cached) ==>
              LimitsRespected(plan, warm, cached)
    ensures TargetsCovered(db, plan, now, cooldown)
    ensures PolicyPerProfile(db) ==> DrainsToTarget(db, plan, now, cooldown)
  {
    plan := PlannerLoops.Plan(db, now, cooldown, explain);
    PlanMeets(db, now, cooldown, explain, plan);
  }

  lemma MeetsMemory(db: Database, now: Time, cooldown: int, explain: bool, plan: seq<Assignment>)
    requires WellKeyed(db) && plan == PlanPlacement(db, now, cooldown, explain) && VariantIdsUnique(db)
    ensures MemoryWithin(db, plan)
  {
    forall n | n in db.nodes && MemoryBudget(db.nodes[n]) > 0
      ensures Sum(plan, MemoryOn(MemoryOf(db), n)) <= MemoryBudget(db.nodes[n])
    {
      NoMemoryOvercommit(db, now, cooldown, explain, n);
    }
  }

  lemma DiskOfPlaced(db: Database, now: Time, cooldown: int, explain: bool, placed: seq<Assignment>)
    requires WellKeyed(db) && VariantIdsUnique(db)
    requires placed == Placed(Env(db, now, explain), PolicyItems(db, now, cooldown)).assignments
    ensures DiskFits(db, placed)
  {
    forall n | n in db.nodes && db.nodes[n].budgets.disk > 0
      ensures DiskOn(DiskOf(db), placed, n) <= db.nodes[n].budgets.disk
    {
      NoDiskOvercommit(db, now, cooldown, explain, n);
    }
  }

  /** The order of placement is an order of the plan in which disk fits. */
  lemma MeetsDisk(db: Database, now: Time, cooldown: int, explain: bool, plan: seq<Assignment>)
    requires WellKeyed(db) && plan == PlanPlacement(db, now, cooldown, explain) && VariantIdsUnique(db)
    ensures DiskWithin(db, plan)
  {
    var env, items := Env(db, now, explain), PolicyItems(db, now, cooldown);
    var placed := Placed(env, items).assignments;
    PlacedUndrained(env, items);
    FinishPermutes(Placed(env, items), items);
    DiskOfPlaced(db, now, cooldown, explain, placed);
  }

  lemma MeetsSlots(db: Database, now: Time, cooldown: int, explain: bool, plan: seq<Assignment>)
    requires WellKeyed(db) && plan == PlanPlacement(db, now, cooldown, explain) && PinsDistinct(db)
    ensures SlotsExclusive(plan)
  {
    DistinctPins(db, now, cooldown);
    forall s ensures Sum(plan, OnSlot(s)) <= 1 {
      SlotExclusive(db, now, cooldown, explain, s);
    }
  }

  lemma MeetsLimits(
      db: Database, now: Time, cooldown: int, explain: bool, plan: seq<Assignment>, warm: int, cached: int)
    requires WellKeyed(db) && plan == PlanPlacement(db, now, cooldown, explain)
    requires warm > 0 && cached > 0 && PolicyLimits(db, warm, cached)
    ensures LimitsRespected(plan, warm, cached)
  {
    forall n ensures |WarmProfilesOn(plan, n)| <= warm && |ProfilesOn(plan, n)| <= cached {
      PerNodeLimits(db, now, cooldown, explain, n, warm, cached);
    }
  }

  lemma MeetsTargets(db: Database, now: Time, cooldown: int, explain: bool, plan: seq<Assignment>)
    requires WellKeyed(db) && plan == PlanPlacement(db, now, cooldown, explain)
    ensures TargetsCovered(db, plan, now, cooldown)
  {
    forall k | k in db.policies && db.policies[k].profileId in db.profiles
      ensures var pid := db.policies[k].profileId;
              var copies := Sum(plan, CopyOf(pid)) + Sum(plan, BlockedWarmOf(pid));
              copies >= CapacityOf(db, k, now, cooldown).warm && copies >= CapacityOf(db, k, now, cooldown).minWarm
    {
      PolicyTargets(db, now, cooldown, explain, k, plan);
    }
  }

  lemma MeetsDraining(db: Database, now: Time, cooldown: int, explain: bool, plan: seq<Assignment>)
    requires WellKeyed(db) && plan == PlanPlacement(db, now, cooldown, explain) && PolicyPerProfile(db)
    ensures DrainsToTarget(db, plan, now, cooldown)
  {
    forall k | k in db.policies && db.policies[k].profileId in db.profiles
      ensures var copies := Sum(plan, CopyOf(db.policies[k].profileId));
              copies - Sum(plan, DrainingOf(db.policies[k].profileId))
              >= Min(copies, CapacityOf(db, k, now, cooldown).warm)
    {
      PolicyDrains(db, now, cooldown, explain, k, plan);
    }
  }

  lemma PlanMeets(db: Database, now: Time, cooldown: int, explain: bool, plan: seq<Assignment>)
    requires WellKeyed(db) && plan == PlanPlacement(db, now, cooldown, explain)
    ensures VariantIdsUnique(db) ==> MemoryWithin(db, plan) && DiskWithin(db, plan)
    ensures PinsDistinct(db) ==> SlotsExclusive(plan)
    ensures forall warm, cached :: warm > 0 && cached > 0 && PolicyLimits(db, warm, cached) ==>
              LimitsRespected(plan, warm, cached)
    ensures TargetsCovered(db, plan, now, cooldown)
    ensures PolicyPerProfile(db) ==> DrainsToTarget(db, plan, now, cooldown)
  {
    if VariantIdsUnique(db) {
      MeetsMemory(db, now, cooldown, explain, plan);
      MeetsDisk(db, now, cooldown, explain, plan);
    }
    if PinsDistinct(db) {
      MeetsSlots(db, now, cooldown, explain, plan);
    }
    forall warm, cached | warm > 0 && cached > 0 && PolicyLimits(db, warm, cached)
      ensures LimitsRespected(plan, warm, cached)
    {
      MeetsLimits(db, now, cooldown, explain, plan, warm, cached);
    }
    MeetsTargets(db, now, cooldown, explain, plan);
    if PolicyPerProfile(db) {
      MeetsDraining(db, now, cooldown, explain, plan);
    }
  }

  /** Plans twice, as `ExplainPlacement` and the dispatcher do on the same snapshot: the explained
      plan is the plan exactly when no choice is shadowed, and always when every profile lists its
      variants in order of their IDs. */
  method PlanAndExplain(
      db: Database, now: Time, cooldown: int) returns (plan: seq<Assignment>, explained: seq<Assignment>)
    requires WellKeyed(db)
    ensures explained == plan <==> Lockstep.NeverShadowed(db, now, PolicyItems(db, now, cooldown))
    ensures (forall k :: k in db.profiles ==> Explain.VariantsInOrder(db.profiles[k])) ==> explained == plan
  {
    plan := PlannerLoops.Plan(db, now, cooldown, false);
    explained := PlannerLoops.Plan(db, now, cooldown, true);
    Lockstep.PlansAgree(db, now, cooldown);
    if forall k :: k in db.profiles ==> Explain.VariantsInOrder(db.profiles[k]) {
      Explain.ExplainRefinesOrderedPlan(db, now, cooldown);
    }
  }
}
