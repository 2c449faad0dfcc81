/** Draining: how many preserved copies of a profile are drained, and which slots accept
    new tasks afterwards (internal/comrad/placement_plan.go and internal/comrad/placement_drain.go). */
module Drain {
  import opened Base
  import opened Traces
  import opened Model
  import opened Store
  import opened Placement
  import PlanTrace
  import opened Booking
  import opened PlanTerms
  import opened PlanTheorems

  // ---------- the number of drained copies ----------

  function DrainingOf(pid: Id): Assignment -> int {
    (a: Assignment) => if a.draining && a.profileId == pid then 1 else 0
  }

  /** Unblocked warm copies of the profile that were preserved rather than newly placed. */
  function PreservedOf(protectedIds: set<Id>, pid: Id): Assignment -> int {
    (a: Assignment) => if UnblockedWarm(a) && a.id in protectedIds && a.profileId == pid then 1 else 0
  }

  lemma {:induction false} SumNonNegative<T>(s: seq<T>, f: T -> int)
    requires forall x :: x in s ==> f(x) >= 0
    ensures Sum(s, f) >= 0
  {
    if s != [] {
      SumNonNegative(s[..|s| - 1], f);
      assert s[|s| - 1] in s;
    }
  }

  lemma SumCons<T>(x: T, s: seq<T>, f: T -> int)
    ensures Sum([x] + s, f) == f(x) + Sum(s, f)
  {
    SumConcat([x], s, f);
  }

  lemma DrainUnfolds(plan: seq<Assignment>, protectedIds: set<Id>, targets: map<Id, int>, counts: map<Id, int>)
    requires plan != []
    ensures var a := plan[0];
            Drain(plan, protectedIds, targets, counts)
            == [if Surplus(a, protectedIds, targets, counts) then a.(draining := true) else a]
               + Drain(plan[1..], protectedIds, targets, Released(a, protectedIds, targets, counts))
  {
  }

  lemma DrainOne(
      a: Assignment, head: Assignment, protectedIds: set<Id>, targets: map<Id, int>, counts: map<Id, int>, pid: Id,
      rest: int)
    requires !a.draining && rest >= 0
    requires head == if Surplus(a, protectedIds, targets, counts) then a.(draining := true) else a
    ensures DrainingOf(pid)(head)
            + Min(rest, Max(0, Get(Released(a, protectedIds, targets, counts), pid) - Get(targets, pid)))
         == Min(PreservedOf(protectedIds, pid)(a) + rest, Max(0, Get(counts, pid) - Get(targets, pid)))
  {
  }

  /** Draining takes preserved copies until the surplus or the preserved copies run out. */
  lemma {:induction false} DrainCount(
      plan: seq<Assignment>, protectedIds: set<Id>, targets: map<Id, int>, counts: map<Id, int>, pid: Id)
    requires forall a :: a in plan ==> !a.draining
    ensures Sum(Drain(plan, protectedIds, targets, counts), DrainingOf(pid))
         == Min(Sum(plan, PreservedOf(protectedIds, pid)), Max(0, Get(counts, pid) - Get(targets, pid)))
    decreases |plan|
  {
    if plan != [] {
      var a, rest := plan[0], plan[1..];
      var counts' := Released(a, protectedIds, targets, counts);
      var head := if Surplus(a, protectedIds, targets, counts) then a.(draining := true) else a;
      assert a in plan && plan == [a] + rest;
      DrainCount(rest, protectedIds, targets, counts', pid);
      SumCons(a, rest, PreservedOf(protectedIds, pid));
      SumCons(head, Drain(rest, protectedIds, targets, counts'), DrainingOf(pid));
      DrainUnfolds(plan, protectedIds, targets, counts);
      SumNonNegative(rest, PreservedOf(protectedIds, pid));
      DrainOne(a, head, protectedIds, targets, counts, pid, Sum(rest, PreservedOf(protectedIds, pid)));
    }
  }

  lemma {:induction false} WarmCountsAt(plan: seq<Assignment>, pid: Id)
    ensures Get(WarmCounts(plan), pid) == Sum(plan, CopyOf(pid))
  {
    if plan != [] {
      WarmCountsAt(plan[..|plan| - 1], pid);
    }
  }

  lemma {:induction false} WarmTargetsAt(items: seq<Item>, it: Item)
    requires it in items && OnePolicyPerProfile(items)
    ensures Get(WarmTargets(items), it.profile.id) == it.capacity.warm
  {
    var last, rest := items[|items| - 1], items[..|items| - 1];
    assert items == rest + [last];
    if last.profile.id != it.profile.id {
      WarmTargetsAt(rest, it);
    }
  }

  lemma PlacedUndrained(env: Env, items: seq<Item>)
    requires WellKeyed(env.db)
    ensures forall a :: a in Placed(env, items).assignments ==> !a.draining
  {
    var rules := PlanTrace.Rules(false, true, true);
    PlainSuits(env, items, rules);
    PlacedPath(PlainTerms(env.db, rules), env, items, false);
    assert NoneDraining()(EMPTY_STATE);
    DrainingKept(PlainTerms(env.db, rules), EMPTY_STATE, Placed(env, items));
  }

  lemma SortedTarget(items: seq<Item>, it: Item)
    requires OnePolicyPerProfile(items) && it in items
    ensures Get(WarmTargets(ByDemand(items)), it.profile.id) == it.capacity.warm
  {
    PlanTrace.SortedItemsIn(items);
    WarmTargetsAt(ByDemand(items), it);
  }

  /** The draining assignments of the profile are exactly the smaller of its preserved copies
      and its surplus over the target. */
  ghost predicate DrainsExactly(draining: int, preserved: int, copies: int, target: int) {
    draining == Min(preserved, Max(0, copies - target))
  }

  ghost predicate PlanDrainsExactly(plan: seq<Assignment>, kept: set<Id>, pid: Id, target: int) {
    DrainsExactly(Sum(plan, DrainingOf(pid)), Sum(plan, PreservedOf(kept, pid)), Sum(plan, CopyOf(pid)), target)
  }

  lemma FinishDrains(st: PlanState, items: seq<Item>, pid: Id)
    requires forall a :: a in st.assignments ==> !a.draining
    ensures PlanDrainsExactly(Finish(st, items), st.protectedIds, pid, Get(WarmTargets(ByDemand(items)), pid))
  {
    var targets, counts := WarmTargets(ByDemand(items)), WarmCounts(st.assignments);
    SumStableSort(MarkDraining(st, ByDemand(items)).assignments, AssignmentOrder(), DrainingOf(pid));
    DrainCount(st.assignments, st.protectedIds, targets, counts, pid);
    WarmCountsAt(st.assignments, pid);
    FinishSum(st, items, CopyOf(pid));
    FinishSum(st, items, PreservedOf(st.protectedIds, pid));
  }

  lemma PlannedDraining(env: Env, items: seq<Item>, it: Item)
    requires WellKeyed(env.db) && OnePolicyPerProfile(items) && it in items
    ensures PlanDrainsExactly(Finish(Placed(env, items), items), Placed(env, items).protectedIds, it.profile.id,
                              it.capacity.warm)
  {
    PlacedUndrained(env, items);
    SortedTarget(items, it);
    FinishDrains(Placed(env, items), items, it.profile.id);
  }

  /** Draining is exact: it takes preserved copies, and only as many as exceed the Warm target. */
  lemma DrainingIsExact(db: Database, now: Time, cooldown: int, explain: bool, it: Item)
    requires WellKeyed(db) && PolicyPerProfile(db) && it in PolicyItems(db, now, cooldown)
    ensures var kept := Placed(Env(db, now, explain), PolicyItems(db, now, cooldown)).protectedIds;
            PlanDrainsExactly(PlanPlacement(db, now, cooldown, explain), kept, it.profile.id, it.capacity.warm)
  {
    ItemsPerProfile(db, now, cooldown);
    PlannedDraining(Env(db, now, explain), PolicyItems(db, now, cooldown), it);
  }

  /** Exact draining never goes below the target. */
  lemma DrainingStopsAtTarget(draining: int, preserved: int, copies: int, target: int)
    requires DrainsExactly(draining, preserved, copies, target) && preserved >= 0
    ensures copies - draining >= Min(copies, target)
    ensures draining < copies - target ==> draining == preserved
  {
  }

  // ---------- slots that accept new tasks ----------

  const PLACEMENT_DRAINING := "placement_draining"

  predicate SlotDrainable(slot: Slot) {
    slot.profileId != "" && slot.state == Ready && slot.activeTaskId == "" && !slot.quarantined
  }

  predicate HasPolicy(db: Database, pid: Id) {
    exists k :: k in db.policies && db.policies[k].profileId == pid
  }

  /** The slot has an unblocked warm assignment, and none of them is draining. */
  ghost predicate Wanted(db: Database, id: Id) {
    && (exists k :: k in db.assignments && WarmsSlot(db.assignments[k], id))
    && (forall k :: k in db.assignments && WarmsSlot(db.assignments[k], id) ==> !db.assignments[k].draining)
  }

  predicate WarmsSlot(a: Assignment, id: Id) {
    a.slotId != "" && a.slotId == id && UnblockedWarm(a)
  }

  predicate DrainsSlot(a: Assignment, id: Id) {
    WarmsSlot(a, id) && a.draining
  }

  /** The two sets of slots that `warmSlotIntent` collects, whatever order the map is read in. */
  method WarmSlotIntent(db: Database) returns (desired: set<Id>, draining: set<Id>)
    ensures forall id :: id in desired && id !in draining <==> Wanted(db, id)
  {
    desired, draining := {}, {};
    var todo := db.assignments.Keys;
    while todo != {}
      invariant todo <= db.assignments.Keys
      invariant forall id :: id in desired <==>
                  exists k :: k in db.assignments && k !in todo && WarmsSlot(db.assignments[k], id)
      invariant forall id :: id in draining <==>
                  exists k :: k in db.assignments && k !in todo && DrainsSlot(db.assignments[k], id)
    {
      var k :| k in todo;
      var a := db.assignments[k];
      todo := todo - {k};
      if a.slotId != "" && a.desiredWarm && a.mismatchReason == "" {
        desired := desired + {a.slotId};
        if a.draining {
          draining := draining + {a.slotId};
        }
      }
    }
  }

  /** What draining may change on a slot: whether it accepts tasks and the draining remark. */
  predicate DrainedTo(slot: Slot, slot': Slot, wanted: bool) {
    slot' == slot.(
      acceptsNew := wanted,
      mismatchReason :=
        if wanted then (if slot.mismatchReason == PLACEMENT_DRAINING then "" else slot.mismatchReason)
        else (if slot.mismatchReason == "" then PLACEMENT_DRAINING else slot.mismatchReason))
  }

  /** Every idle, ready, unquarantined slot whose profile has a policy accepts new tasks exactly
      when it has an unblocked warm assignment and none of them drains; nothing else changes. */
  method ApplyPlacementDrainState(store: Store)
    modifies store
    ensures store.db == old(store.db).(slots := store.db.slots) && store.db.slots.Keys == old(store.db.slots.Keys)
    ensures forall id :: id in store.db.slots ==>
              var slot, slot' := old(store.db).slots[id], store.db.slots[id];
              if SlotDrainable(slot) && HasPolicy(old(store.db), slot.profileId)
              then (slot'.acceptsNew <==> Wanted(old(store.db), id)) && DrainedTo(slot, slot', slot'.acceptsNew)
              else slot' == slot
  {
    ghost var before := store.db;
    var desired, draining := WarmSlotIntent(store.db);
    var todo := store.db.slots.Keys;
    while todo != {}
      invariant store.db == before.(slots := store.db.slots) && store.db.slots.Keys == before.slots.Keys
      invariant todo <= store.db.slots.Keys
      invariant forall id :: id in todo ==> store.db.slots[id] == before.slots[id]
      invariant forall id :: id in store.db.slots && id !in todo ==>
                  var slot, slot' := before.slots[id], store.db.slots[id];
                  if SlotDrainable(slot) && HasPolicy(before, slot.profileId)
                  then DrainedTo(slot, slot', id in desired && id !in draining)
                  else slot' == slot
    {
      var id :| id in todo;
      var slot := store.db.slots[id];
      todo := todo - {id};
      if SlotDrainable(slot) && HasPolicy(store.db, slot.profileId) {
        if id in desired && id !in draining {
          slot := slot.(acceptsNew := true);
          if slot.mismatchReason == PLACEMENT_DRAINING {
            slot := slot.(mismatchReason := "");
          }
        } else {
          slot := slot.(acceptsNew := false);
          if slot.mismatchReason == "" {
            slot := slot.(mismatchReason := PLACEMENT_DRAINING);
          }
        }
        store.db := store.db.(slots := store.db.slots[id := slot]);
      }
    }
  }
}
