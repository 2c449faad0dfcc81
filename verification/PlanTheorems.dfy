/** What a finished plan guarantees: budgets, slot exclusivity, per-node limits, exact
    copy counts, and that a missing copy could not have been placed. All results hold
    with and without an explainer. */
module PlanTheorems {
  import opened Base
  import opened Traces
  import opened Model
  import opened Fit
  import opened Demand
  import opened Placement
  import opened Candidates
  import opened PlanTrace
  import opened Booking
  import opened PlanTerms

  // ---------- the items of a database ----------

  /** One item for each policy whose profile exists. */
  lemma PolicyItemsMember(db: Database, now: Time, cooldown: int, it: Item)
    ensures it in PolicyItems(db, now, cooldown) <==>
            exists k :: k in db.policies && db.policies[k].profileId in db.profiles
                        && it == PolicyItem(db, db.policies[k], now, cooldown)
  {
    FlatMapMember(SortedKeys(db.policies.Keys), ItemOf(db, now, cooldown), it);
  }

  lemma ItemsStored(db: Database, now: Time, cooldown: int)
    requires WellKeyed(db)
    ensures Stored(db, PolicyItems(db, now, cooldown))
  {
    forall it | it in PolicyItems(db, now, cooldown)
      ensures it.profile.id != "" && it.profile.id in db.profiles && db.profiles[it.profile.id] == it.profile
    {
      PolicyItemsMember(db, now, cooldown, it);
    }
  }

  ghost predicate VariantIdsUnique(db: Database) {
    forall k :: k in db.profiles ==> UniqueVariantIds(db.profiles[k])
  }

  lemma ItemsUnique(db: Database, now: Time, cooldown: int)
    requires WellKeyed(db) && VariantIdsUnique(db)
    ensures UniqueIds(PolicyItems(db, now, cooldown))
  {
    ItemsStored(db, now, cooldown);
  }

  /** No two policies name the same profile. */
  ghost predicate PolicyPerProfile(db: Database) {
    forall j, k :: j in db.policies && k in db.policies && db.policies[j].profileId == db.policies[k].profileId ==>
          j == k
  }

  lemma ItemsPerProfile(db: Database, now: Time, cooldown: int)
    requires WellKeyed(db) && PolicyPerProfile(db)
    ensures OnePolicyPerProfile(PolicyItems(db, now, cooldown))
  {
    var items := PolicyItems(db, now, cooldown);
    forall x, y | x in items && y in items && x.profile.id == y.profile.id ensures x == y {
      PolicyItemsMember(db, now, cooldown, x);
      PolicyItemsMember(db, now, cooldown, y);
    }
  }

  // ---------- from paths of moves to finished plans ----------

  lemma EmptyStart(t: Terms, n: Id)
    ensures MemoryInv(t, n)(EMPTY_STATE) && DiskInv(t, n)(EMPTY_STATE)
  {
    var st := EMPTY_STATE;
    assert Get(st.memoryUsed, n) == 0 && Get(st.diskUsed, n) == 0 && GetSet(st.nodeCache, n) == {};
    assert Sum(st.assignments, MemoryOn(t.memory, n)) == 0;
    assert DiskOn(t.disk, st.assignments, n) == 0;
    assert ProfilesOn(st.assignments, n) == {};
  }

  lemma MemoryOfPath(t: Terms, st: PlanState, items: seq<Item>, n: Id)
    requires t.exact && Path(Move(t), EMPTY_STATE, st) && t.memoryBudget(n) > 0
    requires forall a: Assignment :: t.memory(a.(draining := true)) == t.memory(a)
    ensures Sum(Finish(st, items), MemoryOn(t.memory, n)) <= t.memoryBudget(n)
  {
    EmptyStart(t, n);
    MemoryKept(t, EMPTY_STATE, st, n);
    FinishSum(st, items, MemoryOn(t.memory, n));
  }

  lemma DiskOfPath(t: Terms, st: PlanState, n: Id)
    requires t.exact && Path(Move(t), EMPTY_STATE, st) && t.diskBudget(n) > 0
    ensures DiskOn(t.disk, st.assignments, n) <= t.diskBudget(n)
  {
    EmptyStart(t, n);
    DiskKept(t, EMPTY_STATE, st, n);
  }

  lemma SlotOfPath(t: Terms, st: PlanState, items: seq<Item>, s: Id)
    requires t.exclusive && Path(Move(t), EMPTY_STATE, st)
    ensures Sum(Finish(st, items), OnSlot(s)) <= 1
  {
    SlotKept(t, EMPTY_STATE, st, s);
    FinishSum(st, items, OnSlot(s));
  }

  lemma LimitsOfPath(t: Terms, st: PlanState, items: seq<Item>, n: Id, warm: int, cached: int)
    requires t.limited && warm > 0 && cached > 0 && Path(Move(t), EMPTY_STATE, st)
    requires forall pid :: t.warmLimit(pid) == warm && t.cacheLimit(pid) == cached
    ensures |WarmProfilesOn(Finish(st, items), n)| <= warm && |ProfilesOn(Finish(st, items), n)| <= cached
  {
    LimitsKept(t, EMPTY_STATE, st, n, warm, cached);
    FinishSame(st, items);
    SameSets(Finish(st, items), st.assignments, n, "");
  }

  lemma PlacedPath(t: Terms, env: Env, items: seq<Item>, exclusive: bool)
    requires WellKeyed(env.db) && (exclusive ==> DistinctSlots(AllPins(items)))
    requires Suits(t, env, items, Rules(exclusive, true, true))
    ensures Path(Move(t), EMPTY_STATE, Placed(env, items))
  {
    PlacedLeads(env, items, exclusive);
    LeadsPath(t, env, items, Rules(exclusive, true, true), EMPTY_STATE, Placed(env, items));
  }

  // ---------- the theorems ----------

  lemma ExactPath(db: Database, now: Time, cooldown: int, explain: bool)
    requires WellKeyed(db) && VariantIdsUnique(db)
    ensures Path(Move(ExactTerms(db, Rules(false, true, true))), EMPTY_STATE,
                 Placed(Env(db, now, explain), PolicyItems(db, now, cooldown)))
  {
    var env, items, rules := Env(db, now, explain), PolicyItems(db, now, cooldown), Rules(false, true, true);
    ItemsStored(db, now, cooldown);
    ItemsUnique(db, now, cooldown);
    ExactSuits(env, items, rules);
    PlacedPath(ExactTerms(db, rules), env, items, false);
  }

  lemma ExactTermsBlind(db: Database, rules: Rules)
    ensures forall a: Assignment ::
              ExactTerms(db, rules).memory(a.(draining := true)) == ExactTerms(db, rules).memory(a)
  {
  }

  /** The memory of the unblocked warm assignments on a node, looked up again from the
      plan, stays within the node's budget, hard pins included. */
  lemma NoMemoryOvercommit(db: Database, now: Time, cooldown: int, explain: bool, n: Id)
    requires WellKeyed(db) && VariantIdsUnique(db)
    requires n in db.nodes && MemoryBudget(db.nodes[n]) > 0
    ensures Sum(PlanPlacement(db, now, cooldown, explain), MemoryOn(MemoryOf(db), n)) <= MemoryBudget(db.nodes[n])
  {
    var items, t := PolicyItems(db, now, cooldown), ExactTerms(db, Rules(false, true, true));
    ExactPath(db, now, cooldown, explain);
    ExactTermsBlind(db, Rules(false, true, true));
    MemoryOfPath(t, Placed(Env(db, now, explain), items), items, n);
  }

  /** Disk, counted once per node and profile at the first variant placed, in the order of placement. */
  lemma NoDiskOvercommit(db: Database, now: Time, cooldown: int, explain: bool, n: Id)
    requires WellKeyed(db) && VariantIdsUnique(db)
    requires n in db.nodes && db.nodes[n].budgets.disk > 0
    ensures DiskOn(DiskOf(db), Placed(Env(db, now, explain), PolicyItems(db, now, cooldown)).assignments, n)
         <= db.nodes[n].budgets.disk
  {
    ExactPath(db, now, cooldown, explain);
    DiskOfPath(ExactTerms(db, Rules(false, true, true)),
               Placed(Env(db, now, explain), PolicyItems(db, now, cooldown)), n);
  }

  lemma ExclusivePath(env: Env, items: seq<Item>)
    requires WellKeyed(env.db) && DistinctSlots(AllPins(items))
    ensures Path(Move(PlainTerms(env.db, Rules(true, true, true))), EMPTY_STATE, Placed(env, items))
  {
    PlainSuits(env, items, Rules(true, true, true));
    PlacedPath(PlainTerms(env.db, Rules(true, true, true)), env, items, true);
  }

  /** With hard pins on distinct slots, no two unblocked warm assignments share a slot. */
  lemma SlotExclusive(db: Database, now: Time, cooldown: int, explain: bool, s: Id)
    requires WellKeyed(db) && DistinctSlots(AllPins(PolicyItems(db, now, cooldown)))
    ensures Sum(PlanPlacement(db, now, cooldown, explain), OnSlot(s)) <= 1
  {
    var env, items := Env(db, now, explain), PolicyItems(db, now, cooldown);
    ExclusivePath(env, items);
    SlotOfPath(PlainTerms(db, Rules(true, true, true)), Placed(env, items), items, s);
  }

  lemma UniformPath(env: Env, items: seq<Item>, warm: int, cached: int)
    requires WellKeyed(env.db) && UniformLimits(items, warm, cached)
    ensures Path(Move(UniformTerms(env.db, Rules(false, true, true), warm, cached)), EMPTY_STATE, Placed(env, items))
  {
    UniformSuits(env, items, Rules(false, true, true), warm, cached);
    PlacedPath(UniformTerms(env.db, Rules(false, true, true), warm, cached), env, items, false);
  }

  ghost predicate PolicyLimits(db: Database, warm: int, cached: int) {
    forall k :: k in db.policies ==>
      db.policies[k].maxWarmProfilesPerNode == warm && db.policies[k].maxCachedProfilesPerNode == cached
  }

  lemma ItemLimits(db: Database, now: Time, cooldown: int, warm: int, cached: int)
    requires PolicyLimits(db, warm, cached)
    ensures UniformLimits(PolicyItems(db, now, cooldown), warm, cached)
  {
    forall it | it in PolicyItems(db, now, cooldown)
      ensures it.policy.maxWarmProfilesPerNode == warm && it.policy.maxCachedProfilesPerNode == cached
    {
      PolicyItemsMember(db, now, cooldown, it);
    }
  }

  /** With the same positive limits in all policies, no node holds more distinct warm or cached profiles. */
  lemma PerNodeLimits(db: Database, now: Time, cooldown: int, explain: bool, n: Id, warm: int, cached: int)
    requires WellKeyed(db) && warm > 0 && cached > 0 && PolicyLimits(db, warm, cached)
    ensures |WarmProfilesOn(PlanPlacement(db, now, cooldown, explain), n)| <= warm
    ensures |ProfilesOn(PlanPlacement(db, now, cooldown, explain), n)| <= cached
  {
    var env, items := Env(db, now, explain), PolicyItems(db, now, cooldown);
    ItemLimits(db, now, cooldown, warm, cached);
    UniformPath(env, items, warm, cached);
    LimitsOfPath(UniformTerms(db, Rules(false, true, true), warm, cached), Placed(env, items), items, n, warm, cached);
  }
}
