/** When the plan is short of a copy, every slot or node that could hold one is taken, closed, or full,
    as read off the finished plan and the database. */
module Shortage {
  import opened Base
  import opened Traces
  import opened Model
  import opened Fit
  import opened Demand
  import opened Placement
  import opened Candidates
  import PlanTrace
  import opened Booking
  import opened PlanTerms
  import opened PlanTheorems
  import opened PlanCounts
  import opened Preference
  import opened Grounds

  // ---------- closed and full ----------

  /** The slot takes no warm copy: it has a task, is unavailable or broken, or serves something else. */
  predicate ClosedFor(slot: Slot, pid: Id, p: Profile) {
    || slot.activeTaskId != "" || slot.state == Unavailable || slot.state == SlotError
    || (slot.state == Serving && !HoldsVariant(slot, pid, p))
  }

  /** The node already holds as many profiles as a positive limit allows, and this is not one of them. */
  predicate Crowded(limit: int, held: set<Id>, pid: Id) {
    limit > 0 && pid !in held && |held| >= limit
  }

  /** Unified memory where stated, or else RAM: the profile's does not fit next to what is used. */
  predicate MemoryFull(node: Node, p: Profile, used: int) {
    var need :=
      if p.requirements.None? then 0
      else if p.requirements.value.unified > 0 then p.requirements.value.unified
      else p.requirements.value.ram;
    var budget := if node.budgets.unified > 0 then node.budgets.unified else node.budgets.ram;
    budget > 0 && need > 0 && used + need > budget
  }

  /** The sizes of the stored ones among these artifacts. */
  function SizesOfAll(db: Database, ids: seq<Id>): int {
    if ids == [] then 0
    else (if ids[0] in db.artifacts then db.artifacts[ids[0]].sizeBytes else 0) + SizesOfAll(db, ids[1..])
  }

  /** The stated disk requirement, or else the size of the artifacts, does not fit next to what is used. */
  predicate DiskFull(db: Database, node: Node, p: Profile, used: int) {
    var need :=
      if p.requirements.Some? && p.requirements.value.disk > 0 then p.requirements.value.disk
      else SizesOfAll(db, p.artifacts);
    node.budgets.disk > 0 && used + need > node.budgets.disk
  }

  lemma {:induction false} SizesAreSum(db: Database, ids: seq<Id>)
    ensures SizesOfAll(db, ids) == Sum(ids, ArtifactSize(db))
  {
    if ids != [] {
      SizesAreSum(db, ids[1..]);
      assert ids == [ids[0]] + ids[1..];
      SumConcat([ids[0]], ids[1..], ArtifactSize(db));
      assert [ids[0]][..0] == [];
      assert Sum([ids[0]], ArtifactSize(db)) == ArtifactSize(db)(ids[0]);
    }
  }

  lemma FullExactly(db: Database, st: PlanState, node: Node, p: Profile)
    ensures WithinMemory(st, node, p) <==> !MemoryFull(node, p, Get(st.memoryUsed, node.id))
    ensures WithinDisk(db, st, node, p) <==> !DiskFull(db, node, p, Get(st.diskUsed, node.id))
  {
    SizesAreSum(db, p.artifacts);
  }

  /** A warm copy is refused for a flapping node, a limit, or a full disk or memory, and for nothing else. */
  lemma UsableExactly(env: Env, st: PlanState, item: Item, c: Candidate)
    ensures CanUse(env, st, item, c, true) <==>
            && !Flapping(c.node, env.now)
            && !Crowded(item.policy.maxWarmProfilesPerNode, GetSet(st.nodeWarm, c.node.id), item.profile.id)
            && !Crowded(item.policy.maxCachedProfilesPerNode, GetSet(st.nodeCache, c.node.id), item.profile.id)
            && !DiskFull(env.db, c.node, c.effective, Get(st.diskUsed, c.node.id))
            && !MemoryFull(c.node, c.effective, Get(st.memoryUsed, c.node.id))
    ensures CanUse(env, st, item, c, false) <==>
            && !Crowded(item.policy.maxCachedProfilesPerNode, GetSet(st.nodeCache, c.node.id), item.profile.id)
            && !DiskFull(env.db, c.node, c.effective, Get(st.diskUsed, c.node.id))
  {
    FullExactly(env.db, st, c.node, c.effective);
  }

  lemma ClosedExactly(slot: Slot, pid: Id, p: Profile)
    ensures SlotAvailableForWarm(slot, pid, p) <==> !ClosedFor(slot, pid, p)
  {
    VariantIsCurrent(slot, pid, p);
  }

  // ---------- the books can be read off the finished plan ----------

  ghost function WarmSetInv(n: Id): PlanState -> bool {
    (st: PlanState) => GetSet(st.nodeWarm, n) == WarmProfilesOn(st.assignments, n)
  }

  lemma WarmSetsFollow(t: Terms, st: PlanState, n: Id)
    requires Path(Move(t), EMPTY_STATE, st)
    ensures WarmSetInv(n)(st)
  {
    forall x, y | WarmSetInv(n)(x) && Move(t)(x, y) ensures WarmSetInv(n)(y) {
      var a, m, d :| MovesBy(t, x, y, a, m, d);
      WarmSetsAgree(t, x, y, a, m, d, n);
    }
    PathKeeps(WarmSetInv(n), Move(t), EMPTY_STATE, st);
  }

  /** What the planner has booked on a node is what its plan says. */
  ghost predicate BooksMatch(db: Database, plan: seq<Assignment>, st: PlanState, n: Id) {
    && GetSet(st.nodeWarm, n) == WarmProfilesOn(plan, n) && GetSet(st.nodeCache, n) == ProfilesOn(plan, n)
    && Get(st.memoryUsed, n) == Sum(plan, MemoryOn(MemoryOf(db), n))
    && Get(st.diskUsed, n) == DiskOn(DiskOf(db), st.assignments, n)
  }

  lemma BooksOfPath(db: Database, t: Terms, st: PlanState, items: seq<Item>, n: Id)
    requires t.exact && Path(Move(t), EMPTY_STATE, st) && t.memory == MemoryOf(db) && t.disk == DiskOf(db)
    requires forall a: Assignment :: t.memory(a.(draining := true)) == t.memory(a)
    ensures BooksMatch(db, Finish(st, items), st, n)
  {
    EmptyStart(t, n);
    MemoryKept(t, EMPTY_STATE, st, n);
    DiskKept(t, EMPTY_STATE, st, n);
    WarmSetsFollow(t, st, n);
    FinishSum(st, items, MemoryOn(t.memory, n));
    FinishSame(st, items);
    SameSets(Finish(st, items), st.assignments, n, "");
  }

  lemma PlannedBooks(db: Database, now: Time, cooldown: int, explain: bool, n: Id)
    requires WellKeyed(db) && VariantIdsUnique(db)
    ensures BooksMatch(db, PlanPlacement(db, now, cooldown, explain),
                       Placed(Env(db, now, explain), PolicyItems(db, now, cooldown)), n)
  {
    var rules := PlanTrace.Rules(false, true, true);
    ExactPath(db, now, cooldown, explain);
    ExactTermsBlind(db, rules);
    BooksOfPath(db, ExactTerms(db, rules), Placed(Env(db, now, explain), PolicyItems(db, now, cooldown)),
                PolicyItems(db, now, cooldown), n);
  }

  // ---------- warm copies ----------

  /** Slot `s` could hold variant `v`: the policy admits its node, and the slot suits the variant. */
  predicate CouldHold(db: Database, item: Item, s: Id, v: Variant) {
    && s in db.slots && db.slots[s].nodeId in db.nodes && Open(db.nodes[db.slots[s].nodeId], item.policy)
    && v in ProfileRuntimeVariants(item.profile)
    && SuitsSlot(EffectiveProfileForVariant(item.profile, v), db.nodes[db.slots[s].nodeId], db.slots[s])
  }

  lemma CouldHoldIsPlaceable(db: Database, item: Item, s: Id, v: Variant)
    requires WellKeyed(db) && CouldHold(db, item, s, v)
    ensures Placeable(db, item, VariantCandidate(item.profile, db.nodes[db.slots[s].nodeId], db.slots[s], v))
  {
    var node := db.nodes[db.slots[s].nodeId];
    OpenIsUsable(node, item.policy);
    FitsExactly(EffectiveProfileForVariant(item.profile, v), node, db.slots[s]);
  }

  /** On the finished plan: the node is flapping, or its limits, its disk or its memory are exhausted. Disk is
      counted in the order of placement. */
  ghost predicate NodeFull(
      db: Database, now: Time, plan: seq<Assignment>, placed: seq<Assignment>, item: Item, node: Node, p: Profile) {
    || Flapping(node, now)
    || Crowded(item.policy.maxWarmProfilesPerNode, WarmProfilesOn(plan, node.id), item.profile.id)
    || Crowded(item.policy.maxCachedProfilesPerNode, ProfilesOn(plan, node.id), item.profile.id)
    || DiskFull(db, node, p, DiskOn(DiskOf(db), placed, node.id))
    || MemoryFull(node, p, Sum(plan, MemoryOn(MemoryOf(db), node.id)))
  }

  lemma RefusedIsFull(env: Env, plan: seq<Assignment>, st: PlanState, item: Item, c: Candidate)
    requires BooksMatch(env.db, plan, st, c.node.id) && !CanUse(env, st, item, c, true)
    ensures NodeFull(env.db, env.now, plan, st.assignments, item, c.node, c.effective)
  {
    UsableExactly(env, st, item, c);
  }

  /** A plan that is short of warm copies of a profile has no slot left for one: each slot that could hold a
      variant has a warm copy, is closed, or is on a full node. */
  lemma WarmShortageIsReal(db: Database, now: Time, cooldown: int, explain: bool, it: Item, s: Id, v: Variant)
    requires WellKeyed(db) && PolicyPerProfile(db) && VariantIdsUnique(db) && it in PolicyItems(db, now, cooldown)
    requires NonNegativeSizes(db, PolicyItems(db, now, cooldown))
    requires ShortOf(PlanPlacement(db, now, cooldown, explain),
                     Fixed(Env(db, now, explain), PolicyItems(db, now, cooldown)).assignments, it)
    requires CouldHold(db, it, s, v)
    ensures var plan := PlanPlacement(db, now, cooldown, explain);
            var placed := Placed(Env(db, now, explain), PolicyItems(db, now, cooldown)).assignments;
            var p := EffectiveProfileForVariant(it.profile, v);
            || HasWarmCopy(plan, s) || ClosedFor(db.slots[s], it.profile.id, p)
            || NodeFull(db, now, plan, placed, it, db.nodes[db.slots[s].nodeId], p)
  {
    var env, items := Env(db, now, explain), PolicyItems(db, now, cooldown);
    var c := VariantCandidate(it.profile, db.nodes[db.slots[s].nodeId], db.slots[s], v);
    CouldHoldIsPlaceable(db, it, s, v);
    MissingIsJustified(db, now, cooldown, explain, it);
    RefusedSlot(env, items, it, c);
    if !CanUse(env, Placed(env, items), it, c, true) {
      PlannedBooks(db, now, cooldown, explain, c.node.id);
      RefusedIsFull(env, PlanPlacement(db, now, cooldown, explain), Placed(env, items), it, c);
    }
  }

  lemma RefusedSlot(env: Env, items: seq<Item>, item: Item, c: Candidate)
    requires WellKeyed(env.db) && Exhausted(env, Placed(env, items), item) && Placeable(env.db, item, c)
    ensures || HasWarmCopy(Finish(Placed(env, items), items), c.slot.id)
            || ClosedFor(c.slot, item.profile.id, c.effective) || !CanUse(env, Placed(env, items), item, c, true)
  {
    ClosedExactly(c.slot, item.profile.id, c.effective);
    if c.slot.id in Placed(env, items).slotUsed {
      UsedSlotsHaveCopies(env, items, c.slot.id);
      FinishSame(Placed(env, items), items);
      CopiesKeepSlot(Finish(Placed(env, items), items), Placed(env, items), c.slot.id);
    }
  }

  // ---------- cached copies ----------

  predicate MissingCached(a: Assignment, pid: Id) {
    a.profileId == pid && !a.desiredWarm && !Unblocked(a)
  }

  /** The state admits to a missing cached copy only when there is nowhere to put one. */
  ghost function HonestMissing(env: Env, item: Item): PlanState -> bool {
    (st: PlanState) =>
      (exists a :: a in st.assignments && MissingCached(a, item.profile.id)) ==> NowhereToCache(env, st, item)
  }

  lemma CacheRefusalPersists(
      t: Terms, env: Env, st: PlanState, st': PlanState, a: Assignment, m: int, d: int, item: Item, x: Candidate)
    requires t.limited && t.growing && MovesBy(t, st, st', a, m, d)
    requires t.cacheLimit(item.profile.id) == item.policy.maxCachedProfilesPerNode
    requires !CanUse(env, st, item, x, false) && item.profile.id !in GetSet(st'.nodeCache, x.node.id)
    ensures !CanUse(env, st', item, x, false)
  {
    var limit, held := t.cacheLimit(item.profile.id), GetSet(st.nodeCache, x.node.id);
    UsableExactly(env, st, item, x);
    UsableExactly(env, st', item, x);
    MoveUses(t, st, st', a, m, d);
    CacheSetAfter(t, st, st', a, m, d, x.node.id);
    SubsetSize(held, GetSet(st'.nodeCache, x.node.id));
  }

  lemma NowherePersists(
      t: Terms, env: Env, st: PlanState, st': PlanState, a: Assignment, m: int, d: int, item: Item)
    requires t.limited && t.growing && MovesBy(t, st, st', a, m, d)
    requires t.cacheLimit(item.profile.id) == item.policy.maxCachedProfilesPerNode
    requires NowhereToCache(env, st, item)
    ensures NowhereToCache(env, st', item)
  {
    forall c | Placeable(env.db, item, c) ensures NodeRefuses(env, st', item, c.node.id) {
      var n := c.node.id;
      CacheSetAfter(t, st, st', a, m, d, n);
      if item.profile.id !in GetSet(st'.nodeCache, n) {
        var x :| Placeable(env.db, item, x) && x.node.id == n && !CanUse(env, st, item, x, false);
        CacheRefusalPersists(t, env, st, st', a, m, d, item, x);
      }
    }
  }

  lemma MoveHonest(t: Terms, env: Env, st: PlanState, st': PlanState, a: Assignment, m: int, d: int, item: Item)
    requires t.limited && t.growing && MovesBy(t, st, st', a, m, d)
    requires t.cacheLimit(item.profile.id) == item.policy.maxCachedProfilesPerNode
    requires HonestMissing(env, item)(st) && (MissingCached(a, item.profile.id) ==> NowhereToCache(env, st, item))
    ensures HonestMissing(env, item)(st')
  {
    if NowhereToCache(env, st, item) {
      NowherePersists(t, env, st, st', a, m, d, item);
    }
  }

  lemma StepHonest(env: Env, items: seq<Item>, rules: PlanTrace.Rules, st: PlanState, step: PlanTrace.Step, item: Item)
    requires OnePolicyPerProfile(items) && NonNegativeSizes(env.db, items) && item in items
    requires PlanTrace.Enabled(env, items, rules, st, step) && HonestMissing(env, item)(st)
    ensures HonestMissing(env, item)(PlanTrace.Apply(env, st, step))
  {
    var t, st' := PolicyTerms(env, items, rules), PlanTrace.Apply(env, st, step);
    PolicySuits(env, items, rules);
    StepMoves(t, env, items, rules, st, step);
    OwnItem(items, item);
    var m, d :| MovesBy(t, st, st', step.a, m, d);
    if MissingCached(step.a, item.profile.id) {
      MissingStepIs(env, items, rules, st, step, item);
    }
    MoveHonest(t, env, st, st', step.a, m, d, item);
  }

  lemma MissingStepIs(
      env: Env, items: seq<Item>, rules: PlanTrace.Rules, st: PlanState, step: PlanTrace.Step, item: Item)
    requires OnePolicyPerProfile(items) && item in items
    requires PlanTrace.Enabled(env, items, rules, st, step) && MissingCached(step.a, item.profile.id)
    ensures NowhereToCache(env, st, item)
  {
  }

  lemma PlacedHonest(env: Env, items: seq<Item>, item: Item)
    requires WellKeyed(env.db) && OnePolicyPerProfile(items) && NonNegativeSizes(env.db, items) && item in items
    ensures HonestMissing(env, item)(Placed(env, items))
  {
    var rules := PlanTrace.Rules(false, true, true);
    PlanTrace.PlacedLeads(env, items, false);
    forall st, step | HonestMissing(env, item)(st) && PlanTrace.Guard(env, items, rules)(st, step)
      ensures HonestMissing(env, item)(PlanTrace.Next(env)(st, step))
    {
      StepHonest(env, items, rules, st, step, item);
    }
    ReachesKeep(HonestMissing(env, item), PlanTrace.Guard(env, items, rules), PlanTrace.Next(env),
                EMPTY_STATE, Placed(env, items));
  }

  /** Some slot of the node could hold a variant of the profile that its limit or its disk refuses. */
  ghost predicate CacheFull(db: Database, plan: seq<Assignment>, placed: seq<Assignment>, item: Item, node: Node) {
    exists s, v :: CouldHold(db, item, s, v) && db.slots[s].nodeId == node.id
      && (|| Crowded(item.policy.maxCachedProfilesPerNode, ProfilesOn(plan, node.id), item.profile.id)
          || DiskFull(db, node, EffectiveProfileForVariant(item.profile, v), DiskOn(DiskOf(db), placed, node.id)))
  }

  lemma RefusedIsCacheFull(env: Env, plan: seq<Assignment>, st: PlanState, item: Item, x: Candidate)
    requires WellKeyed(env.db) && Placeable(env.db, item, x) && BooksMatch(env.db, plan, st, x.node.id)
    requires !CanUse(env, st, item, x, false)
    ensures CacheFull(env.db, plan, st.assignments, item, x.node)
  {
    UsableExactly(env, st, item, x);
    var v :| v in ProfileRuntimeVariants(item.profile) && x.effective == EffectiveProfileForVariant(item.profile, v);
    OpenIsUsable(x.node, item.policy);
    FitsExactly(x.effective, x.node, x.slot);
    assert CouldHold(env.db, item, x.slot.id, v);
  }

  lemma NowhereIsFull(env: Env, plan: seq<Assignment>, st: PlanState, item: Item, c: Candidate)
    requires WellKeyed(env.db) && NowhereToCache(env, st, item) && Placeable(env.db, item, c)
    requires BooksMatch(env.db, plan, st, c.node.id)
    ensures item.profile.id in ProfilesOn(plan, c.node.id) || CacheFull(env.db, plan, st.assignments, item, c.node)
  {
    if item.profile.id !in GetSet(st.nodeCache, c.node.id) {
      var x :| Placeable(env.db, item, x) && x.node.id == c.node.id && !CanUse(env, st, item, x, false);
      RefusedIsCacheFull(env, plan, st, item, x);
    }
  }

  lemma MissingIsPlaced(plan: seq<Assignment>, st: PlanState, a: Assignment, pid: Id)
    requires SameCopies(plan, st.assignments) && a in plan && MissingCached(a, pid)
    ensures exists b :: b in st.assignments && MissingCached(b, pid)
  {
    var b :| b in st.assignments && (a == b || a == b.(draining := true));
    assert MissingCached(b, pid);
  }

  /** A plan that reports a missing cached copy has no node left for one: each node with a slot that could hold a
      variant has the profile cached, or refuses a variant for its limit or its disk. */
  lemma CacheShortageIsReal(
      db: Database, now: Time, cooldown: int, explain: bool, it: Item, a: Assignment, s: Id, v: Variant)
    requires WellKeyed(db) && PolicyPerProfile(db) && VariantIdsUnique(db) && it in PolicyItems(db, now, cooldown)
    requires NonNegativeSizes(db, PolicyItems(db, now, cooldown))
    requires a in PlanPlacement(db, now, cooldown, explain) && MissingCached(a, it.profile.id)
    requires CouldHold(db, it, s, v)
    ensures var plan := PlanPlacement(db, now, cooldown, explain);
            var placed := Placed(Env(db, now, explain), PolicyItems(db, now, cooldown)).assignments;
            var node := db.nodes[db.slots[s].nodeId];
            it.profile.id in ProfilesOn(plan, node.id) || CacheFull(db, plan, placed, it, node)
  {
    var env, items := Env(db, now, explain), PolicyItems(db, now, cooldown);
    var c := VariantCandidate(it.profile, db.nodes[db.slots[s].nodeId], db.slots[s], v);
    CouldHoldIsPlaceable(db, it, s, v);
    ItemsPerProfile(db, now, cooldown);
    PlacedHonest(env, items, it);
    FinishSame(Placed(env, items), items);
    MissingIsPlaced(PlanPlacement(db, now, cooldown, explain), Placed(env, items), a, it.profile.id);
    PlannedBooks(db, now, cooldown, explain, c.node.id);
    NowhereIsFull(env, PlanPlacement(db, now, cooldown, explain), Placed(env, items), it, c);
  }

  // ---------- running copies ----------

  /** A busy slot that runs a variant its policy asks for, on a node the policy admits, keeps a warm copy in the
      plan, unless the finished plan fills the node. */
  lemma BusyCopiesKept(db: Database, now: Time, cooldown: int, explain: bool, item: Item, s: Id, i: nat)
    requires WellKeyed(db) && PolicyPerProfile(db) && VariantIdsUnique(db) && item in PolicyItems(db, now, cooldown)
    requires NonNegativeSizes(db, PolicyItems(db, now, cooldown))
    requires s in db.slots && Busy(db.slots[s]) && db.slots[s].nodeId in db.nodes
    requires Open(db.nodes[db.slots[s].nodeId], item.policy)
    requires RunsHere(item, db.nodes[db.slots[s].nodeId], db.slots[s], i)
    ensures var plan := PlanPlacement(db, now, cooldown, explain);
            var placed := Placed(Env(db, now, explain), PolicyItems(db, now, cooldown)).assignments;
            || HasWarmCopy(plan, s)
            || NodeFull(db, now, plan, placed, item, db.nodes[db.slots[s].nodeId],
                        EffectiveProfileForVariant(item.profile, ProfileRuntimeVariants(item.profile)[i]))
  {
    var env, items, node := Env(db, now, explain), PolicyItems(db, now, cooldown), db.nodes[db.slots[s].nodeId];
    var c := RunningCopy(item, node, db.slots[s], i);
    RunningCopiesKept(db, now, cooldown, explain, item, s, i);
    if !CanUse(env, Placed(env, items), item, c, true) {
      PlannedBooks(db, now, cooldown, explain, node.id);
      RefusedIsFull(env, PlanPlacement(db, now, cooldown, explain), Placed(env, items), item, c);
    }
  }
}
