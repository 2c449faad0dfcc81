/** The placement planner as it runs: mutable counters, nested loops over items, pins,
    slots, variants and candidates. Every method is proved to compute the corresponding
    function of module Placement on the planner's whole state. */
module PlannerLoops {
  import opened Base
  import opened Model
  import opened Fit
  import opened Demand
  import opened Placement

  // ---------- candidate lists ----------

  /** The variants that fit one slot, in profile order. */
  method FittingVariants(profile: Profile, node: Node, slot: Slot) returns (out: seq<Candidate>)
    ensures out == Filter(VariantCandidates(profile, node, slot), Fits())
  {
    var variants := ProfileRuntimeVariants(profile);
    ghost var all := VariantCandidates(profile, node, slot);
    out := [];
    for i := 0 to |variants|
      invariant out + Filter(all[i..], Fits()) == Filter(all, Fits())
    {
      var c := VariantCandidate(profile, node, slot, variants[i]);
      FilterStep(all, Fits(), i, out);
      if c.fit.fits {
        out := out + [c];
      }
    }
  }

  method UsableSlotCandidates(db: Database, profile: Profile, policy: Policy, slot: Slot) returns (out: seq<Candidate>)
    ensures out == SlotCandidates(db, profile, policy)(slot)
  {
    if slot.nodeId !in db.nodes || !NodeUsable(db.nodes[slot.nodeId], policy) {
      return [];
    }
    out := FittingVariants(profile, db.nodes[slot.nodeId], slot);
  }

  method CollectCandidates(db: Database, profile: Profile, policy: Policy) returns (out: seq<Candidate>)
    ensures out == RawCandidates(db, profile, policy)
  {
    var slots := SortedSlots(db);
    ghost var f := SlotCandidates(db, profile, policy);
    out := [];
    for i := 0 to |slots|
      invariant out + FlatMap(slots[i..], f) == FlatMap(slots, f)
    {
      FlatMapStep(slots, f, i, out);
      var ofSlot := UsableSlotCandidates(db, profile, policy, slots[i]);
      out := out + ofSlot;
    }
  }

  method ListCandidates(db: Database, profile: Profile, policy: Policy) returns (out: seq<Candidate>)
    ensures out == PlacementCandidates(db, profile, policy)
  {
    var raw := CollectCandidates(db, profile, policy);
    out := StableSort(raw, CandidateOrder(profile.id, policy));
  }

  method ExplainSlot(db: Database, profile: Profile, slot: Slot) returns (out: seq<Candidate>)
    ensures out == SlotExplainCandidates(db, profile)(slot)
  {
    var variants := ProfileRuntimeVariants(profile);
    ghost var all := SlotExplainCandidates(db, profile)(slot);
    out := [];
    for j := 0 to |variants|
      invariant out == all[..j]
    {
      out := out + [ExplainCandidate(profile, NodeAt(db, slot.nodeId), slot.nodeId in db.nodes, slot, variants[j])];
    }
  }

  method CollectExplainCandidates(db: Database, profile: Profile) returns (out: seq<Candidate>)
    ensures out == AllCandidates(db, profile)
  {
    var slots := SortedSlots(db);
    ghost var f := SlotExplainCandidates(db, profile);
    out := [];
    for i := 0 to |slots|
      invariant out + FlatMap(slots[i..], f) == FlatMap(slots, f)
    {
      FlatMapStep(slots, f, i, out);
      var ofSlot := ExplainSlot(db, profile, slots[i]);
      out := out + ofSlot;
    }
  }

  method ListExplainCandidates(db: Database, profile: Profile, policy: Policy) returns (out: seq<Candidate>)
    ensures out == ExplainCandidates(db, profile, policy)
  {
    var all := CollectExplainCandidates(db, profile);
    out := StableSort(all, ExplainOrder(profile.id, policy));
  }

  lemma FirstStep(cands: seq<Candidate>, ok: Candidate -> bool, i: nat)
    requires i < |cands|
    ensures First(cands[i..], ok) == if ok(cands[i]) then Some(cands[i]) else First(cands[i + 1..], ok)
  {
    assert cands[i..][1..] == cands[i + 1..];
  }

  lemma FirstNodeStep(cands: seq<Candidate>, held: Id -> bool, ok: Candidate -> bool, seen: set<Id>, i: nat)
    requires i < |cands|
    ensures var c := cands[i];
            FirstNode(cands[i..], held, ok, seen)
            == if c.node.id in seen || held(c.node.id) then FirstNode(cands[i + 1..], held, ok, seen)
               else if ok(c) then Some(c) else FirstNode(cands[i + 1..], held, ok, seen + {c.node.id})
  {
    assert cands[i..][1..] == cands[i + 1..];
  }

  lemma FirstAdmittedStep(
      cands: seq<Candidate>, base: Candidate -> bool, held: Id -> bool, ok: Candidate -> bool, seen: set<Id>, i: nat)
    requires i < |cands|
    ensures var c := cands[i];
            FirstAdmittedNode(cands[i..], base, held, ok, seen)
            == if !base(c) || c.node.id in seen || held(c.node.id)
               then FirstAdmittedNode(cands[i + 1..], base, held, ok, seen)
               else if ok(c) then Some(c) else FirstAdmittedNode(cands[i + 1..], base, held, ok, seen + {c.node.id})
  {
    assert cands[i..][1..] == cands[i + 1..];
  }

  lemma FirstIndexStep<T>(s: seq<T>, p: T -> bool, k: nat)
    requires k < |s|
    ensures FirstIndex(s[k..], p) == if p(s[k]) then 0 else 1 + FirstIndex(s[k + 1..], p)
  {
    assert s[k..][1..] == s[k + 1..];
  }

  // ---------- the planner ----------

  class Planner {
    const env: Env
    var assignments: seq<Assignment>
    var protectedIds: set<Id>
    var warmBy: map<Id, int>
    var cacheBy: map<Id, int>
    var slotUsed: set<Id>
    var memoryUsed: map<Id, int>
    var diskUsed: map<Id, int>
    var nodeWarm: map<Id, set<Id>>
    var nodeCache: map<Id, set<Id>>
    var missing: map<Id, int>

    function State(): PlanState
      reads this
    {
      PlanState(assignments, protectedIds, warmBy, cacheBy, slotUsed, memoryUsed, diskUsed, nodeWarm, nodeCache,
                missing)
    }

    constructor (db: Database, now: Time, explain: bool)
      ensures env == Env(db, now, explain) && State() == EMPTY_STATE
    {
      env := Env(db, now, explain);
      assignments, protectedIds, slotUsed := [], {}, {};
      warmBy, cacheBy, memoryUsed, diskUsed, missing := map[], map[], map[], map[], map[];
      nodeWarm, nodeCache := map[], map[];
    }

    method MarkCache(pid: Id, c: Candidate)
      modifies this
      ensures State() == Placement.MarkCache(env.db, old(State()), pid, c)
    {
      var n := c.node.id;
      if pid in GetSet(nodeCache, n) {
        return;
      }
      diskUsed, nodeCache, cacheBy :=
        diskUsed[n := Get(diskUsed, n) + DiskBytes(env.db, c.effective)],
        nodeCache[n := GetSet(nodeCache, n) + {pid}],
        cacheBy[pid := Get(cacheBy, pid) + 1];
    }

    method MarkWarm(pid: Id, c: Candidate)
      modifies this
      ensures State() == Placement.MarkWarm(env.db, old(State()), pid, c)
    {
      TakeWarmSlot(pid, c);
      MarkCache(pid, c);
    }

    method TakeWarmSlot(pid: Id, c: Candidate)
      modifies this
      ensures State() == TakeSlot(old(State()), pid, c)
    {
      var n := c.node.id;
      slotUsed, memoryUsed, nodeWarm, warmBy :=
        slotUsed + {c.slot.id},
        memoryUsed[n := Get(memoryUsed, n) + MemoryBytes(c.effective)],
        nodeWarm[n := GetSet(nodeWarm, n) + {pid}],
        warmBy[pid := Get(warmBy, pid) + 1];
    }

    method AddMissing(pid: Id, warm: bool)
      modifies this
      ensures State() == Placement.AddMissing(env, old(State()), pid, warm)
    {
      var n := Get(missing, pid);
      missing := missing[pid := n + 1];
      assignments := assignments + [MissingAssignment(pid, n, warm, env.now)];
      cacheBy := cacheBy[pid := Get(cacheBy, pid) + 1];
      if warm {
        warmBy := warmBy[pid := Get(warmBy, pid) + 1];
      }
    }

    method Accept(item: Item, c: Candidate, protect: bool)
      modifies this
      ensures State() == AcceptWarm(env, old(State()), item, c, protect)
    {
      var a := WarmAssignment(item.profile.id, c.effective, c.slot, c.fit, env.now);
      assignments := assignments + [a];
      if protect {
        protectedIds := protectedIds + {a.id};
      }
      MarkWarm(item.profile.id, c);
    }

    // ---------- hard pins ----------

    method PlacePin(item: Item, pin: Id)
      modifies this
      ensures State() == PlaceHardPin(env, old(State()), item, pin)
    {
      var pid := item.profile.id;
      if pin !in env.db.slots {
        var n := Get(missing, pid);
        missing := missing[pid := n + 1];
        assignments := assignments + [MissingAssignment(pid, n, true, env.now)];
        return;
      }
      PlaceOnPin(item, PinCandidate(env.db, item, env.db.slots[pin]));
    }

    method PlaceOnPin(item: Item, c: Candidate)
      modifies this
      ensures State() == PlacePinned(env, old(State()), item, c)
    {
      var a := WarmAssignment(item.profile.id, c.effective, c.slot, c.fit, env.now);
      if WarmSuppressed(c.node, env.now) {
        assignments := assignments + [a.(mismatchReason := FAILURE_WORKER_FLAPPING)];
      } else if HardPinRejectionReasons(env, State(), item, c) != [] {
        var reason := FirstNonEmpty(a.mismatchReason, "resource_exhausted_node_budget");
        assignments := assignments + [a.(mismatchReason := reason)];
      } else {
        Accept(item, c, false);
      }
    }

    method PlaceItemPins(item: Item)
      modifies this
      ensures State() == Fold(PinBody(env), old(State()), PinsOf()(item))
    {
      ghost var pins, f := PinsOf()(item), PinBody(env);
      for j := 0 to |item.policy.hardPinnedSlots|
        invariant Fold(f, State(), pins[j..]) == Fold(f, old(State()), pins)
      {
        assert pins[j..][0] == (item, item.policy.hardPinnedSlots[j]) && pins[j..][1..] == pins[j + 1..];
        PlacePin(item, item.policy.hardPinnedSlots[j]);
      }
    }

    method PlacePins(items: seq<Item>)
      modifies this
      ensures State() == PlaceHardPins(env, old(State()), items)
    {
      ghost var goal, f := PlaceHardPins(env, State(), items), PinBody(env);
      for i := 0 to |items|
        invariant Fold(f, State(), FlatMap(items[i..], PinsOf())) == goal
      {
        var item := items[i];
        ghost var pins := PinsOf()(item);
        assert items[i..][1..] == items[i + 1..];
        FoldConcat(f, State(), pins, FlatMap(items[i + 1..], PinsOf()));
        PlaceItemPins(item);
      }
    }

    // ---------- running copies ----------

    /** The first variant that is current on the slot. */
    method CurrentVariant(item: Item, slot: Slot) returns (k: nat)
      ensures k == FirstIndex(ProfileRuntimeVariants(item.profile), CurrentOn(item.profile, slot))
    {
      var variants := ProfileRuntimeVariants(item.profile);
      ghost var current := CurrentOn(item.profile, slot);
      k := 0;
      while k < |variants|
        invariant k <= |variants| && FirstIndex(variants, current) == k + FirstIndex(variants[k..], current)
      {
        FirstIndexStep(variants, current, k);
        if SlotProfileCurrent(slot, item.profile.id, EffectiveProfileForVariant(item.profile, variants[k])) {
          break;
        }
        k := k + 1;
      }
    }

    method FindProtected(item: Item, slot: Slot) returns (r: Option<Candidate>)
      ensures r == ProtectedCandidate(env, item, slot)
    {
      if slot.nodeId !in env.db.nodes || !NodeUsable(env.db.nodes[slot.nodeId], item.policy) {
        return None;
      }
      var variants := ProfileRuntimeVariants(item.profile);
      var k := CurrentVariant(item, slot);
      if k == |variants| {
        return None;
      }
      var c := VariantCandidate(item.profile, env.db.nodes[slot.nodeId], slot, variants[k]);
      r := if c.fit.fits then Some(c) else None;
    }

    method Preserve(items: seq<Item>, slot: Slot)
      modifies this
      ensures State() == PreserveSlot(env, old(State()), items, slot)
    {
      if !RuntimeCopyProtected(slot) || slot.id in slotUsed {
        return;
      }
      var item := ItemFor(items, slot.profileId);
      if item == None {
        return;
      }
      var c := FindProtected(item.value, slot);
      if c == None || !CanUse(env, State(), item.value, c.value, true) {
        return;
      }
      Accept(item.value, c.value, true);
    }

    method PreserveAll(items: seq<Item>)
      modifies this
      ensures State() == PreserveRuntimeCopies(env, old(State()), items)
    {
      var slots := SortedSlots(env.db);
      ghost var goal := PreserveRuntimeCopies(env, State(), items);
      for i := 0 to |slots|
        invariant Fold(PreserveBody(env, items), State(), slots[i..]) == goal
      {
        assert slots[i..][0] == slots[i] && slots[i..][1..] == slots[i + 1..];
        Preserve(items, slots[i]);
      }
    }

    // ---------- the next candidate ----------

    method FindWarm(item: Item) returns (r: Option<Candidate>)
      ensures r == NextWarm(env, State(), item)
    {
      if env.explain {
        var cands := ListExplainCandidates(env.db, item.profile, item.policy);
        r := ScanWarmExplain(item, cands);
      } else {
        var cands := ListCandidates(env.db, item.profile, item.policy);
        r := ScanWarm(item, cands);
      }
    }

    method ScanWarm(item: Item, cands: seq<Candidate>) returns (r: Option<Candidate>)
      ensures r == First(cands, WarmChoice(env, State(), item))
    {
      var st := State();
      ghost var ok := WarmChoice(env, st, item);
      for i := 0 to |cands|
        invariant First(cands[i..], ok) == First(cands, ok)
      {
        FirstStep(cands, ok, i);
        var c := cands[i];
        if c.slot.id in slotUsed || !SlotAvailableForWarm(c.slot, item.profile.id, c.effective) {
          continue;
        }
        if CanUse(env, st, item, c, true) {
          return Some(c);
        }
      }
      return None;
    }

    /** The explaining search goes on after its first find, to explain the rest. */
    method ScanWarmExplain(item: Item, cands: seq<Candidate>) returns (r: Option<Candidate>)
      ensures r == First(cands, WarmAdmission(env, State(), item))
    {
      var st := State();
      ghost var ok := WarmAdmission(env, st, item);
      r := None;
      for i := 0 to |cands|
        invariant First(cands, ok) == if r.Some? then r else First(cands[i..], ok)
      {
        FirstStep(cands, ok, i);
        if WarmRejectionReasons(env, st, item, cands[i]) != [] {
          continue;
        }
        if r.Some? {
          continue;
        }
        r := Some(cands[i]);
      }
    }

    method FindCache(item: Item) returns (r: Option<Candidate>)
      ensures r == NextCache(env, State(), item)
    {
      if env.explain {
        var cands := ListExplainCandidates(env.db, item.profile, item.policy);
        r := ScanCacheExplain(item, cands);
      } else {
        var cands := ListCandidates(env.db, item.profile, item.policy);
        r := ScanCache(item, cands);
      }
    }

    method ScanCache(item: Item, cands: seq<Candidate>) returns (r: Option<Candidate>)
      ensures r == FirstNode(cands, Holds(State(), item.profile.id), CacheChoice(env, State(), item), {})
    {
      var st := State();
      ghost var ok, held := CacheChoice(env, st, item), Holds(st, item.profile.id);
      var seen: set<Id> := {};
      for i := 0 to |cands|
        invariant FirstNode(cands[i..], held, ok, seen) == FirstNode(cands, held, ok, {})
      {
        FirstNodeStep(cands, held, ok, seen, i);
        var c := cands[i];
        if c.node.id in seen || item.profile.id in GetSet(nodeCache, c.node.id) {
          continue;
        }
        seen := seen + {c.node.id};
        if CanUse(env, st, item, c, false) {
          return Some(c);
        }
      }
      return None;
    }

    method ScanCacheExplain(item: Item, cands: seq<Candidate>) returns (r: Option<Candidate>)
      ensures r == FirstAdmittedNode(cands, Admitted(item), Holds(State(), item.profile.id),
                                     CacheAdmission(env, State(), item), {})
    {
      var st := State();
      ghost var ok, base, held := CacheAdmission(env, st, item), Admitted(item), Holds(st, item.profile.id);
      var seen: set<Id> := {};
      r := None;
      for i := 0 to |cands|
        invariant FirstAdmittedNode(cands, base, held, ok, {})
               == if r.Some? then r else FirstAdmittedNode(cands[i..], base, held, ok, seen)
      {
        FirstAdmittedStep(cands, base, held, ok, seen, i);
        var c := cands[i];
        if BaseRejectionReasons(item, c) != [] {
          continue;
        }
        if c.node.id in seen || item.profile.id in GetSet(nodeCache, c.node.id) {
          continue;
        }
        seen := seen + {c.node.id};
        if CacheRejectionReasons(env, st, item, c) != [] {
          continue;
        }
        if r.Some? {
          continue;
        }
        r := Some(c);
      }
    }

    // ---------- counting loops ----------

    method PlaceWarm(item: Item, target: int)
      modifies this
      ensures State() == PlaceWarmUntil(env, old(State()), item, target)
    {
      ghost var goal := PlaceWarmUntil(env, State(), item, target);
      while Get(warmBy, item.profile.id) < target
        invariant PlaceWarmUntil(env, State(), item, target) == goal
        decreases target - Get(warmBy, item.profile.id)
      {
        ghost var before := State();
        var c := FindWarm(item);
        if c == None {
          AddMissing(item.profile.id, true);
        } else {
          Accept(item, c.value, false);
        }
        assert State() == PlaceOneWarm(env, before, item);
        OneWarmCounts(env, before, item);
        WarmUnfold(env, before, item, target);
      }
    }

    method PlaceCache(item: Item, target: int)
      modifies this
      ensures State() == PlaceCacheUntil(env, old(State()), item, target)
    {
      ghost var goal := PlaceCacheUntil(env, State(), item, target);
      while Get(cacheBy, item.profile.id) < target
        invariant PlaceCacheUntil(env, State(), item, target) == goal
        decreases target - Get(cacheBy, item.profile.id)
      {
        ghost var before := State();
        var c := FindCache(item);
        if c == None {
          AddMissing(item.profile.id, false);
        } else {
          assignments := assignments + [CacheAssignment(item.profile.id, c.value, env.now)];
          MarkCache(item.profile.id, c.value);
        }
        assert State() == PlaceOneCache(env, before, item);
        OneCacheCounts(env, before, item);
        CacheUnfold(env, before, item, target);
      }
    }

    method PlaceWarmRound(items: seq<Item>, round: Round)
      modifies this
      ensures State() == PlaceAllWarm(env, old(State()), items, round)
    {
      ghost var goal := PlaceAllWarm(env, State(), items, round);
      for i := 0 to |items|
        invariant Fold(AllWarmBody(env, round), State(), items[i..]) == goal
      {
        assert items[i..][0] == items[i] && items[i..][1..] == items[i + 1..];
        PlaceWarm(items[i], WarmTarget(items[i], round));
      }
    }

    method PlaceCacheRound(items: seq<Item>, round: Round)
      modifies this
      ensures State() == PlaceAllCache(env, old(State()), items, round)
    {
      ghost var goal := PlaceAllCache(env, State(), items, round);
      for i := 0 to |items|
        invariant Fold(AllCacheBody(env, round), State(), items[i..]) == goal
      {
        assert items[i..][0] == items[i] && items[i..][1..] == items[i + 1..];
        PlaceCache(items[i], CacheTarget(items[i], round));
      }
    }

    // ---------- the phases in order ----------

    method PlaceFixed(items: seq<Item>)
      requires State() == EMPTY_STATE
      modifies this
      ensures State() == Fixed(env, items)
    {
      PlacePins(items);
      PreserveAll(items);
    }

    method PlaceRounds(items: seq<Item>)
      requires State() == Fixed(env, items)
      modifies this
      ensures State() == Placed(env, items)
    {
      var todo := StableSort(items, ItemOrder(false));
      PlaceWarmRound(todo, Minimum);
      PlaceCacheRound(todo, Minimum);
      todo := StableSort(todo, ItemOrder(true));
      PlaceWarmRound(todo, Full);
      PlaceCacheRound(todo, Full);
    }

    method MarkDrainingAssignments(items: seq<Item>)
      modifies this
      ensures State() == MarkDraining(old(State()), items)
    {
      var targets := WarmTargetsByProfile(items);
      var counts := DesiredWarmCounts(assignments);
      ghost var before, goal := assignments, Drain(assignments, protectedIds, targets, counts);
      for i := 0 to |assignments|
        invariant |assignments| == |before| && assignments[i..] == before[i..]
        invariant State() == old(State()).(assignments := assignments)
        invariant goal == assignments[..i] + Drain(before[i..], protectedIds, targets, counts)
      {
        var a := assignments[i];
        DrainStep(goal, assignments, before, protectedIds, targets, counts, i);
        if a.id !in protectedIds || !a.desiredWarm || a.mismatchReason != "" {
          assert assignments[i := a] == assignments;
          continue;
        }
        if Get(counts, a.profileId) <= Get(targets, a.profileId) {
          assert assignments[i := a] == assignments;
          continue;
        }
        assignments := assignments[i := a.(draining := true)];
        counts := counts[a.profileId := Get(counts, a.profileId) - 1];
      }
      assert assignments[..|before|] == assignments;
    }
  }

  // ---------- the whole plan ----------

  method WarmTargetsByProfile(items: seq<Item>) returns (out: map<Id, int>)
    ensures out == WarmTargets(items)
  {
    out := map[];
    for i := 0 to |items|
      invariant out == WarmTargets(items[..i])
    {
      assert items[..i + 1][..i] == items[..i];
      out := out[items[i].profile.id := items[i].capacity.warm];
    }
    assert items[..|items|] == items;
  }

  method DesiredWarmCounts(assignments: seq<Assignment>) returns (out: map<Id, int>)
    ensures out == WarmCounts(assignments)
  {
    out := map[];
    for i := 0 to |assignments|
      invariant out == WarmCounts(assignments[..i])
    {
      assert assignments[..i + 1][..i] == assignments[..i];
      if assignments[i].desiredWarm && assignments[i].mismatchReason == "" {
        out := out[assignments[i].profileId := Get(out, assignments[i].profileId) + 1];
      }
    }
    assert assignments[..|assignments|] == assignments;
  }

  /** One round of the draining loop: what is done so far, and the rest still to drain, make up the goal. */
  lemma DrainStep(
      goal: seq<Assignment>, now: seq<Assignment>, before: seq<Assignment>, protectedIds: set<Id>,
      targets: map<Id, int>, counts: map<Id, int>, i: nat)
    requires i < |now| == |before| && now[i..] == before[i..]
    requires goal == now[..i] + Drain(before[i..], protectedIds, targets, counts)
    ensures var a := now[i];
            var next := now[i := if Surplus(a, protectedIds, targets, counts) then a.(draining := true) else a];
            && next[i + 1..] == before[i + 1..]
            && goal == next[..i + 1] + Drain(before[i + 1..], protectedIds, targets,
                                             Released(a, protectedIds, targets, counts))
  {
    var a := now[i];
    var head := if Surplus(a, protectedIds, targets, counts) then a.(draining := true) else a;
    assert a == before[i];
    assert now[i..][1..] == now[i + 1..] && before[i..][1..] == before[i + 1..];
    assert now[i := head][..i + 1] == now[..i] + [head];
  }

  method ItemsForKey(db: Database, key: Id, now: Time, cooldown: int) returns (items: seq<Item>)
    requires key in db.policies
    ensures items == ItemOf(db, now, cooldown)(key)
  {
    var policy := db.policies[key];
    if policy.profileId !in db.profiles {
      return [];
    }
    items := [PolicyItem(db, policy, now, cooldown)];
  }

  method CollectItems(db: Database, now: Time, cooldown: int) returns (items: seq<Item>)
    ensures items == PolicyItems(db, now, cooldown)
  {
    var keys := SortedKeys(db.policies.Keys);
    ghost var f := ItemOf(db, now, cooldown);
    items := [];
    for i := 0 to |keys|
      invariant items + FlatMap(keys[i..], f) == FlatMap(keys, f)
    {
      assert keys[i] in keys;
      FlatMapStep(keys, f, i, items);
      var ofKey := ItemsForKey(db, keys[i], now, cooldown);
      items := items + ofKey;
    }
  }

  /** The planner's answer, computed by the loops, is the plan the theorems speak of. */
  method Plan(db: Database, now: Time, cooldown: int, explain: bool) returns (plan: seq<Assignment>)
    ensures plan == PlanPlacement(db, now, cooldown, explain)
  {
    var planner := new Planner(db, now, explain);
    var items := CollectItems(db, now, cooldown);
    planner.PlaceFixed(items);
    planner.PlaceRounds(items);
    planner.MarkDrainingAssignments(ByDemand(items));
    plan := StableSort(planner.assignments, AssignmentOrder());
  }

  lemma WarmUnfold(env: Env, st: PlanState, item: Item, target: int)
    requires Get(st.warmBy, item.profile.id) < target
    ensures PlaceWarmUntil(env, st, item, target) == PlaceWarmUntil(env, PlaceOneWarm(env, st, item), item, target)
  {
    WarmBodyCounts(env, item);
  }

  lemma CacheUnfold(env: Env, st: PlanState, item: Item, target: int)
    requires Get(st.cacheBy, item.profile.id) < target
    ensures PlaceCacheUntil(env, st, item, target) == PlaceCacheUntil(env, PlaceOneCache(env, st, item), item, target)
  {
    CacheBodyCounts(env, item);
  }
}
