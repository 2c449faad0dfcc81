/** Which candidates the planner considers, and that the reasons it gives for refusing
    one are complete: there are none exactly when every check passes. */
module Candidates {
  import opened Base
  import opened Model
  import opened Fit
  import opened Placement

  /** A stored slot on its stored node with one of the profile's variants that fits it. */
  ghost predicate RealCandidate(db: Database, item: Item, c: Candidate) {
    && c.slot.id in db.slots && db.slots[c.slot.id] == c.slot
    && c.slot.nodeId in db.nodes && db.nodes[c.slot.nodeId] == c.node && c.node.id == c.slot.nodeId
    && (exists v :: v in ProfileRuntimeVariants(item.profile)
                    && c.effective == EffectiveProfileForVariant(item.profile, v))
    && c.fit == FitProfileToSlot(c.effective, c.node, c.slot) && c.fit.fits
  }

  /** A real candidate on a node the policy admits. */
  ghost predicate Placeable(db: Database, item: Item, c: Candidate) {
    RealCandidate(db, item, c) && NodeUsable(c.node, item.policy)
  }

  /** No warm copy of the item can be placed anywhere. */
  ghost predicate Exhausted(env: Env, st: PlanState, item: Item) {
    forall c :: Placeable(env.db, item, c) ==> !WarmOk(env, st, item, c)
  }

  /** Every node with a candidate holds the profile or refuses one of its candidates. */
  ghost predicate NowhereToCache(env: Env, st: PlanState, item: Item) {
    forall c :: Placeable(env.db, item, c) ==> NodeRefuses(env, st, item, c.node.id)
  }

  ghost predicate NodeRefuses(env: Env, st: PlanState, item: Item, n: Id) {
    || item.profile.id in GetSet(st.nodeCache, n)
    || exists x :: Placeable(env.db, item, x) && x.node.id == n && !CanUse(env, st, item, x, false)
  }

  // ---------- the candidate list is exactly the placeable candidates ----------

  lemma VariantMember(profile: Profile, node: Node, slot: Slot, c: Candidate)
    ensures c in VariantCandidates(profile, node, slot) <==>
            exists v :: v in ProfileRuntimeVariants(profile) && c == VariantCandidate(profile, node, slot, v)
  {
    MapMember(ProfileRuntimeVariants(profile), (v: Variant) => VariantCandidate(profile, node, slot, v), c);
  }

  lemma SlotMember(db: Database, item: Item, slot: Slot, c: Candidate)
    requires WellKeyed(db) && slot.id in db.slots && db.slots[slot.id] == slot
    ensures c in SlotCandidates(db, item.profile, item.policy)(slot) <==> Placeable(db, item, c) && c.slot == slot
  {
    if slot.nodeId in db.nodes && NodeUsable(db.nodes[slot.nodeId], item.policy) {
      var node := db.nodes[slot.nodeId];
      VariantMember(item.profile, node, slot, c);
      FilterMember(VariantCandidates(item.profile, node, slot), Fits(), c);
    }
  }

  lemma SortedSlotsMember(db: Database, s: Slot)
    requires WellKeyed(db)
    ensures s in SortedSlots(db) <==> s.id in db.slots && db.slots[s.id] == s
  {
    var keys, slots := SortedKeys(db.slots.Keys), SortedSlots(db);
    if s.id in db.slots && db.slots[s.id] == s {
      assert s.id in keys;
      var i :| 0 <= i < |keys| && keys[i] == s.id;
      assert slots[i] == s;
    }
    if s in slots {
      var i :| 0 <= i < |slots| && slots[i] == s;
      assert keys[i] in keys;
    }
  }

  /** The sorted candidate list holds every placeable candidate and nothing else. */
  lemma CandidatesComplete(db: Database, item: Item, c: Candidate)
    requires WellKeyed(db)
    ensures c in PlacementCandidates(db, item.profile, item.policy) <==> Placeable(db, item, c)
  {
    var slots, f := SortedSlots(db), SlotCandidates(db, item.profile, item.policy);
    FlatMapMember(slots, f, c);
    forall s | s in slots ensures c in f(s) <==> Placeable(db, item, c) && c.slot == s {
      SortedSlotsMember(db, s);
      SlotMember(db, item, s, c);
    }
    SortedSlotsMember(db, c.slot);
    StableSortMember(RawCandidates(db, item.profile, item.policy), CandidateOrder(item.profile.id, item.policy), c);
  }

  // ---------- reasons are complete: none exactly when every check passes ----------

  lemma UniqueSortedEmpty(items: seq<string>)
    requires "" !in items
    ensures UniqueSorted(items) == [] <==> items == []
    ensures "" !in UniqueSorted(items)
  {
    var r := UniqueSorted(items);
    if items != [] {
      assert items[0] in items;
      assert items[0] in r;
    }
    if r != [] {
      assert r[0] in r;
    }
  }

  lemma NoBudgetReasons(env: Env, st: PlanState, item: Item, c: Candidate, warm: bool)
    ensures BudgetRejectionReasons(env, st, item, c, warm) == [] <==> CanUse(env, st, item, c, warm)
    ensures "" !in BudgetRejectionReasons(env, st, item, c, warm)
  {
  }

  /** The verdict and its reasons agree, and a disabled node never fits. */
  ghost predicate HonestFit(c: Candidate) {
    && (c.fit.fits <==> c.fit.reasons == [])
    && "" !in c.fit.reasons
    && (c.node.mode == "disabled" ==> !c.fit.fits)
  }

  lemma DisabledNeverFits(p: Profile, node: Node, slot: Slot)
    requires node.mode == "disabled"
    ensures FitReasons(p, node, slot) != []
  {
    if p.requirements.Some? {
      assert NodeAdmissionReasons(node, slot, p.requirements.value)[0] == "node_disabled";
    }
  }

  lemma FitIsHonest(c: Candidate)
    requires c.fit == FitProfileToSlot(c.effective, c.node, c.slot)
    ensures HonestFit(c)
  {
    UnfitHasReasons(c.effective, c.node, c.slot);
    if c.node.mode == "disabled" {
      DisabledNeverFits(c.effective, c.node, c.slot);
    }
  }

  lemma NoNodeReasons(node: Node, policy: Policy)
    ensures NodeRejectionReasons(node, policy) == [] <==>
            node.id != "" && node.mode != "disabled" && NodeUsable(node, policy)
    ensures "" !in NodeRejectionReasons(node, policy)
  {
  }

  /** An identified, usable node with a fitting variant draws no base reason, and only such a node. */
  lemma NoBaseReasons(item: Item, c: Candidate)
    requires HonestFit(c)
    ensures BaseRejectionReasons(item, c) == [] <==> c.node.id != "" && NodeUsable(c.node, item.policy) && c.fit.fits
    ensures "" !in BaseRejectionReasons(item, c)
  {
    NoNodeReasons(c.node, item.policy);
    UniqueSortedEmpty(NodeRejectionReasons(c.node, item.policy) + if c.fit.fits then [] else c.fit.reasons);
  }

  lemma PinHonest(db: Database, item: Item, slot: Slot)
    ensures HonestFit(PinCandidate(db, item, slot))
    ensures var c := PinCandidate(db, item, slot);
            c.fit.fits ==>
              && c.fit == FitProfileToSlot(c.effective, c.node, c.slot)
              && exists v :: v in ProfileRuntimeVariants(item.profile)
                             && c.effective == EffectiveProfileForVariant(item.profile, v)
  {
    var c := PinCandidate(db, item, slot);
    var vs := ProfileRuntimeVariants(item.profile);
    var k := FirstFit(item.profile, vs, c.node, slot);
    if k < |vs| {
      assert vs[k] in vs;
      FitIsHonest(c);
    } else {
      MissHasReasons(item.profile, vs, c.node, slot);
    }
  }

  lemma {:induction false} NoEmptyFitReason(p: Profile, variants: seq<Variant>, node: Node, slot: Slot)
    ensures "" !in AllFitReasons(p, variants, node, slot)
  {
    if variants != [] {
      UnfitHasReasons(EffectiveProfileForVariant(p, variants[0]), node, slot);
      NoEmptyFitReason(p, variants[1..], node, slot);
    }
  }

  /** When no variant fits, the collected reasons are not empty. */
  lemma MissHasReasons(p: Profile, variants: seq<Variant>, node: Node, slot: Slot)
    requires variants != [] && FirstFit(p, variants, node, slot) == |variants|
    ensures UniqueSorted(AllFitReasons(p, variants, node, slot)) != []
    ensures "" !in UniqueSorted(AllFitReasons(p, variants, node, slot))
  {
    UnfitHasReasons(EffectiveProfileForVariant(p, variants[0]), node, slot);
    NoEmptyFitReason(p, variants, node, slot);
    UniqueSortedEmpty(AllFitReasons(p, variants, node, slot));
  }

  lemma NoPinReasons(env: Env, st: PlanState, item: Item, c: Candidate)
    requires HonestFit(c)
    ensures HardPinRejectionReasons(env, st, item, c) == [] <==>
            c.node.id != "" && NodeUsable(c.node, item.policy) && c.fit.fits && CanUse(env, st, item, c, true)
  {
    NoBaseReasons(item, c);
    NoBudgetReasons(env, st, item, c, true);
    UniqueSortedEmpty(BaseRejectionReasons(item, c) + BudgetRejectionReasons(env, st, item, c, true));
  }

  lemma PinReal(env: Env, st: PlanState, item: Item, slot: Slot)
    requires WellKeyed(env.db) && slot.id in env.db.slots && env.db.slots[slot.id] == slot
    requires HardPinRejectionReasons(env, st, item, PinCandidate(env.db, item, slot)) == []
    ensures var c := PinCandidate(env.db, item, slot);
            Placeable(env.db, item, c) && CanUse(env, st, item, c, true)
  {
    PinHonest(env.db, item, slot);
    NoPinReasons(env, st, item, PinCandidate(env.db, item, slot));
  }

  // ---------- the explaining planner's list ----------

  /** Candidate `c` is a variant of the profile on `slot`, whether or not the slot's node exists. */
  ghost predicate VariantOn(db: Database, profile: Profile, slot: Slot, c: Candidate) {
    exists v :: v in ProfileRuntimeVariants(profile)
                && c == ExplainCandidate(profile, NodeAt(db, slot.nodeId), slot.nodeId in db.nodes, slot, v)
  }

  lemma SlotExplainMember(db: Database, profile: Profile, slot: Slot, c: Candidate)
    ensures c in SlotExplainCandidates(db, profile)(slot) <==> VariantOn(db, profile, slot, c)
    ensures VariantOn(db, profile, slot, c) ==> c.slot == slot
  {
    MapMember(ProfileRuntimeVariants(profile), (v: Variant) =>
      ExplainCandidate(profile, NodeAt(db, slot.nodeId), slot.nodeId in db.nodes, slot, v), c);
  }

  ghost predicate Explained(db: Database, profile: Profile, c: Candidate) {
    c.slot.id in db.slots && db.slots[c.slot.id] == c.slot && VariantOn(db, profile, c.slot, c)
  }

  lemma AllCandidatesMember(db: Database, profile: Profile, slots: seq<Slot>, c: Candidate)
    ensures c in FlatMap(slots, SlotExplainCandidates(db, profile)) <==>
              c.slot in slots && VariantOn(db, profile, c.slot, c)
  {
    var f := SlotExplainCandidates(db, profile);
    FlatMapMember(slots, f, c);
    forall s | s in slots ensures c in f(s) <==> VariantOn(db, profile, s, c) && c.slot == s {
      SlotExplainMember(db, profile, s, c);
    }
  }

  lemma ExplainComplete(db: Database, profile: Profile, policy: Policy, c: Candidate)
    requires WellKeyed(db)
    ensures c in ExplainCandidates(db, profile, policy) <==> Explained(db, profile, c)
  {
    AllCandidatesMember(db, profile, SortedSlots(db), c);
    SortedSlotsMember(db, c.slot);
    StableSortMember(AllCandidates(db, profile), ExplainOrder(profile.id, policy), c);
  }

  lemma ExplainedHonest(db: Database, profile: Profile, c: Candidate)
    requires Explained(db, profile, c)
    ensures HonestFit(c)
  {
    if c.slot.nodeId in db.nodes {
      FitIsHonest(c);
    }
  }

  lemma ExplainedBase(db: Database, item: Item, c: Candidate)
    requires WellKeyed(db)
    ensures Placeable(db, item, c) <==> Explained(db, item.profile, c) && BaseRejectionReasons(item, c) == []
  {
    if Explained(db, item.profile, c) {
      ExplainedHonest(db, item.profile, c);
      NoBaseReasons(item, c);
    }
    if Placeable(db, item, c) {
      FitIsHonest(c);
      NoBaseReasons(item, c);
    }
  }

  lemma NoUnavailableReasons(slot: Slot, profileId: Id, effective: Profile)
    requires !SlotAvailableForWarm(slot, profileId, effective)
    ensures UnavailableReasons(slot, profileId, effective) != []
    ensures "" !in UnavailableReasons(slot, profileId, effective)
  {
  }

  /** No reason against a warm copy exactly when the planner without an explainer would take the candidate. */
  lemma NoWarmReasons(env: Env, st: PlanState, item: Item, c: Candidate)
    requires HonestFit(c)
    ensures WarmRejectionReasons(env, st, item, c) == [] <==>
              BaseRejectionReasons(item, c) == [] && WarmOk(env, st, item, c)
  {
    NoBaseReasons(item, c);
    NoBudgetReasons(env, st, item, c, true);
    var available := SlotAvailableForWarm(c.slot, item.profile.id, c.effective);
    if !available {
      NoUnavailableReasons(c.slot, item.profile.id, c.effective);
    }
    UniqueSortedEmpty(
      BaseRejectionReasons(item, c) + If(c.slot.id in st.slotUsed, "slot_already_reserved")
      + (if !available then UnavailableReasons(c.slot, item.profile.id, c.effective) else [])
      + BudgetRejectionReasons(env, st, item, c, true));
  }

  lemma NoCacheReasons(env: Env, st: PlanState, item: Item, c: Candidate)
    requires HonestFit(c)
    ensures CacheRejectionReasons(env, st, item, c) == [] <==>
            BaseRejectionReasons(item, c) == [] && CanUse(env, st, item, c, false)
  {
    NoBaseReasons(item, c);
    NoBudgetReasons(env, st, item, c, false);
    UniqueSortedEmpty(BaseRejectionReasons(item, c) + BudgetRejectionReasons(env, st, item, c, false));
  }

  // ---------- the next candidate, with or without an explainer ----------

  lemma NextWarmSome(env: Env, st: PlanState, item: Item)
    requires WellKeyed(env.db) && NextWarm(env, st, item).Some?
    ensures var c := NextWarm(env, st, item).value; Placeable(env.db, item, c) && WarmOk(env, st, item, c)
  {
    var c := NextWarm(env, st, item).value;
    if env.explain {
      ExplainComplete(env.db, item.profile, item.policy, c);
      ExplainedHonest(env.db, item.profile, c);
      NoWarmReasons(env, st, item, c);
      ExplainedBase(env.db, item, c);
    } else {
      CandidatesComplete(env.db, item, c);
    }
  }

  lemma NextWarmNone(env: Env, st: PlanState, item: Item)
    requires WellKeyed(env.db) && NextWarm(env, st, item).None?
    ensures Exhausted(env, st, item)
  {
    forall c | Placeable(env.db, item, c) ensures !WarmOk(env, st, item, c) {
      if env.explain {
        ExplainedBase(env.db, item, c);
        ExplainComplete(env.db, item.profile, item.policy, c);
        ExplainedHonest(env.db, item.profile, c);
        NoWarmReasons(env, st, item, c);
      } else {
        CandidatesComplete(env.db, item, c);
      }
    }
  }

  lemma NextCacheSome(env: Env, st: PlanState, item: Item)
    requires WellKeyed(env.db) && NextCache(env, st, item).Some?
    ensures var c := NextCache(env, st, item).value;
            && Placeable(env.db, item, c) && CanUse(env, st, item, c, false)
            && item.profile.id !in GetSet(st.nodeCache, c.node.id)
  {
    var c := NextCache(env, st, item).value;
    if env.explain {
      ExplainComplete(env.db, item.profile, item.policy, c);
      ExplainedHonest(env.db, item.profile, c);
      NoCacheReasons(env, st, item, c);
      ExplainedBase(env.db, item, c);
    } else {
      CandidatesComplete(env.db, item, c);
    }
  }

  lemma {:induction false} FirstNodeNone(
      cands: seq<Candidate>, held: Id -> bool, ok: Candidate -> bool, seen: set<Id>, c: Candidate)
    requires FirstNode(cands, held, ok, seen).None? && c in cands
    ensures c.node.id in seen || held(c.node.id) || exists x :: x in cands && x.node.id == c.node.id && !ok(x)
  {
    var first, rest := cands[0], cands[1..];
    assert cands == [first] + rest;
    if first.node.id in seen || held(first.node.id) {
      if c != first {
        FirstNodeNone(rest, held, ok, seen, c);
      }
    } else if c.node.id == first.node.id {
      assert first in cands && !ok(first);
    } else {
      FirstNodeNone(rest, held, ok, seen + {first.node.id}, c);
    }
  }

  lemma {:induction false} FirstAdmittedNone(
      cands: seq<Candidate>, admitted: Candidate -> bool, held: Id -> bool, ok: Candidate -> bool, seen: set<Id>,
      c: Candidate)
    requires FirstAdmittedNode(cands, admitted, held, ok, seen).None? && c in cands && admitted(c)
    ensures || c.node.id in seen || held(c.node.id)
            || exists x :: x in cands && admitted(x) && x.node.id == c.node.id && !ok(x)
  {
    var first, rest := cands[0], cands[1..];
    assert cands == [first] + rest;
    if !admitted(first) || first.node.id in seen || held(first.node.id) {
      if c != first {
        FirstAdmittedNone(rest, admitted, held, ok, seen, c);
      }
    } else if c.node.id == first.node.id {
      assert first in cands && admitted(first) && !ok(first);
    } else {
      FirstAdmittedNone(rest, admitted, held, ok, seen + {first.node.id}, c);
    }
  }

  lemma RefusedAdmission(env: Env, st: PlanState, item: Item, x: Candidate)
    requires WellKeyed(env.db) && Explained(env.db, item.profile, x) && BaseRejectionReasons(item, x) == []
    ensures Placeable(env.db, item, x)
    ensures CacheRejectionReasons(env, st, item, x) == [] <==> CanUse(env, st, item, x, false)
  {
    ExplainedBase(env.db, item, x);
    ExplainedHonest(env.db, item.profile, x);
    NoCacheReasons(env, st, item, x);
  }

  lemma ExplainedNoneRefuses(env: Env, st: PlanState, item: Item, c: Candidate)
    requires WellKeyed(env.db) && env.explain && NextCache(env, st, item).None? && Placeable(env.db, item, c)
    ensures NodeRefuses(env, st, item, c.node.id)
  {
    var cands, n := ExplainCandidates(env.db, item.profile, item.policy), c.node.id;
    ExplainedBase(env.db, item, c);
    ExplainComplete(env.db, item.profile, item.policy, c);
    FirstAdmittedNone(cands, Admitted(item), Holds(st, item.profile.id), CacheAdmission(env, st, item), {}, c);
    if item.profile.id !in GetSet(st.nodeCache, n) {
      var x :| x in cands && Admitted(item)(x) && x.node.id == n && !CacheAdmission(env, st, item)(x);
      ExplainComplete(env.db, item.profile, item.policy, x);
      RefusedAdmission(env, st, item, x);
    }
  }

  lemma NextCacheNone(env: Env, st: PlanState, item: Item)
    requires WellKeyed(env.db) && NextCache(env, st, item).None?
    ensures NowhereToCache(env, st, item)
  {
    forall c | Placeable(env.db, item, c) ensures NodeRefuses(env, st, item, c.node.id) {
      if env.explain {
        ExplainedNoneRefuses(env, st, item, c);
      } else {
        var cands := PlacementCandidates(env.db, item.profile, item.policy);
        CandidatesComplete(env.db, item, c);
        FirstNodeNone(cands, Holds(st, item.profile.id), CacheChoice(env, st, item), {}, c);
        if item.profile.id !in GetSet(st.nodeCache, c.node.id) {
          var x :| x in cands && x.node.id == c.node.id && !CacheChoice(env, st, item)(x);
          CandidatesComplete(env.db, item, x);
        }
      }
    }
  }
}
