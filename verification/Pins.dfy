/** Every hard pin shows in the plan: as a warm copy on its slot, or as a blocked assignment; and a pin
    that its slot could hold is blocked only when the finished plan fills its node. */
module Pins {
  import opened Base
  import opened Traces
  import opened Model
  import opened Fit
  import opened Placement
  import opened Candidates
  import PlanTrace
  import Lockstep
  import opened Booking
  import opened PlanTerms
  import opened PlanTheorems
  import opened Grounds
  import opened Shortage

  // ---------- what a pin leaves in the state ----------

  /** A warm assignment of the profile for this pin. */
  predicate ForPin(db: Database, a: Assignment, pid: Id, pin: Id) {
    a.profileId == pid && a.desiredWarm && (if pin in db.slots then a.slotId == pin else !Unblocked(a))
  }

  ghost function Reported(db: Database, pid: Id, pin: Id): PlanState -> bool {
    (st: PlanState) => exists a :: a in st.assignments && ForPin(db, a, pid, pin)
  }

  ghost function Pinned(pid: Id, pin: Id): PlanState -> bool {
    (st: PlanState) => exists a :: a in st.assignments && UnblockedWarm(a) && a.profileId == pid && a.slotId == pin
  }

  /** The pinned copy is in the plan, or cannot be used. */
  ghost function Honoured(env: Env, item: Item, c: Candidate): PlanState -> bool {
    (st: PlanState) => Pinned(item.profile.id, c.slot.id)(st) || !CanUse(env, st, item, c, true)
  }

  lemma PinAppends(env: Env, st: PlanState, item: Item, c: Candidate)
    ensures exists a :: PlacePinned(env, st, item, c).assignments == st.assignments + [a]
                        && a.profileId == item.profile.id && a.desiredWarm && a.slotId == c.slot.id
  {
    var a := WarmAssignment(item.profile.id, c.effective, c.slot, c.fit, env.now);
    if WarmSuppressed(c.node, env.now) {
      assert PlacePinned(env, st, item, c).assignments
          == st.assignments + [a.(mismatchReason := FAILURE_WORKER_FLAPPING)];
    } else if HardPinRejectionReasons(env, st, item, c) != [] {
      assert PlacePinned(env, st, item, c).assignments
          == st.assignments
             + [a.(mismatchReason := FirstNonEmpty(a.mismatchReason, "resource_exhausted_node_budget"))];
    } else {
      Lockstep.WarmAppends(env, st, item, c);
    }
  }

  lemma PinReports(env: Env, st: PlanState, item: Item, pin: Id)
    requires WellKeyed(env.db)
    ensures Reported(env.db, item.profile.id, pin)(PlaceHardPin(env, st, item, pin))
  {
    var st' := PlaceHardPin(env, st, item, pin);
    if pin in env.db.slots {
      var c := PinCandidate(env.db, item, env.db.slots[pin]);
      PinAppends(env, st, item, c);
      var a :| st'.assignments == st.assignments + [a] && a.profileId == item.profile.id && a.desiredWarm
               && a.slotId == c.slot.id;
      assert a in st'.assignments && ForPin(env.db, a, item.profile.id, pin);
    } else {
      var a := MissingAssignment(item.profile.id, Get(st.missing, item.profile.id), true, env.now);
      assert a in st'.assignments && ForPin(env.db, a, item.profile.id, pin);
    }
  }

  lemma PinAccepted(env: Env, st: PlanState, item: Item, c: Candidate)
    requires !WarmSuppressed(c.node, env.now) && HardPinRejectionReasons(env, st, item, c) == []
    ensures PlacePinned(env, st, item, c) == AcceptWarm(env, st, item, c, false)
  {
  }

  lemma AcceptedIsPinned(env: Env, st: PlanState, item: Item, c: Candidate)
    requires c.fit.fits
    ensures Pinned(item.profile.id, c.slot.id)(AcceptWarm(env, st, item, c, false))
  {
    var a := WarmAssignment(item.profile.id, c.effective, c.slot, c.fit, env.now);
    PlanTrace.AcceptedIsCopy(env, item, c);
    Lockstep.WarmAppends(env, st, item, c);
    assert a in AcceptWarm(env, st, item, c, false).assignments;
  }

  lemma UsableIsCalm(env: Env, st: PlanState, item: Item, c: Candidate)
    requires CanUse(env, st, item, c, true)
    ensures !WarmSuppressed(c.node, env.now)
  {
  }

  lemma PinUnrefused(env: Env, st: PlanState, item: Item, c: Candidate)
    requires c.node.id != "" && Placeable(env.db, item, c)
    ensures HardPinRejectionReasons(env, st, item, c) == [] <==> CanUse(env, st, item, c, true)
  {
    FitIsHonest(c);
    NoPinReasons(env, st, item, c);
  }

  /** A pin that could be held is placed, or cannot be used. */
  lemma PinHonours(env: Env, st: PlanState, item: Item, c: Candidate)
    requires c.node.id != "" && Placeable(env.db, item, c)
    ensures Honoured(env, item, c)(PlacePinned(env, st, item, c))
  {
    PinUnrefused(env, st, item, c);
    if CanUse(env, st, item, c, true) {
      UsableIsCalm(env, st, item, c);
      PinAccepted(env, st, item, c);
      AcceptedIsPinned(env, st, item, c);
    } else {
      PinRefused(env, st, item, c);
    }
  }

  lemma PinRefused(env: Env, st: PlanState, item: Item, c: Candidate)
    requires !CanUse(env, st, item, c, true)
    requires HardPinRejectionReasons(env, st, item, c) != []
    ensures !CanUse(env, PlacePinned(env, st, item, c), item, c, true)
  {
  }

  // ---------- every later step keeps it ----------

  lemma ReportedAlong(
      env: Env, items: seq<Item>, rules: PlanTrace.Rules, pid: Id, pin: Id, st: PlanState, st': PlanState)
    requires PlanTrace.Leads(env, items, rules, st, st') && Reported(env.db, pid, pin)(st)
    ensures Reported(env.db, pid, pin)(st')
  {
    var t := PlainTerms(env.db, rules);
    PlainSuits(env, items, rules);
    LeadsPath(t, env, items, rules, st, st');
    forall x, y | Reported(env.db, pid, pin)(x) && Move(t)(x, y) ensures Reported(env.db, pid, pin)(y) {
      var a, m, d :| MovesBy(t, x, y, a, m, d);
      var b :| b in x.assignments && ForPin(env.db, b, pid, pin);
      assert b in y.assignments;
    }
    PathKeeps(Reported(env.db, pid, pin), Move(t), st, st');
  }

  lemma MoveHonours(
      t: Terms, env: Env, st: PlanState, st': PlanState, a: Assignment, m: int, d: int, item: Item, c: Candidate)
    requires t.limited && t.growing && MovesBy(t, st, st', a, m, d)
    requires t.warmLimit(item.profile.id) == item.policy.maxWarmProfilesPerNode
    requires t.cacheLimit(item.profile.id) == item.policy.maxCachedProfilesPerNode
    requires Honoured(env, item, c)(st)
    ensures Honoured(env, item, c)(st')
  {
    if Pinned(item.profile.id, c.slot.id)(st) {
      var b :| b in st.assignments && UnblockedWarm(b) && b.profileId == item.profile.id && b.slotId == c.slot.id;
      assert b in st'.assignments;
    } else {
      MoveConsumes(t, st, st', a, m, d, item.profile.id);
      RefusalPersists(t, env, st, st', item, c);
    }
  }

  lemma RefusalPersists(t: Terms, env: Env, st: PlanState, st': PlanState, item: Item, c: Candidate)
    requires t.warmLimit(item.profile.id) == item.policy.maxWarmProfilesPerNode
    requires t.cacheLimit(item.profile.id) == item.policy.maxCachedProfilesPerNode
    requires Consumes(t, st, st', item.profile.id) && !CanUse(env, st, item, c, true)
    ensures !CanUse(env, st', item, c, true)
  {
    LimitReasonRefuses(t, st, item, c.node.id);
    LimitReasonRefuses(t, st', item, c.node.id);
    assert Get(st.memoryUsed, c.node.id) <= Get(st'.memoryUsed, c.node.id);
    assert Get(st.diskUsed, c.node.id) <= Get(st'.diskUsed, c.node.id);
  }

  lemma HonouredAlong(
      env: Env, items: seq<Item>, rules: PlanTrace.Rules, item: Item, c: Candidate, st: PlanState, st': PlanState)
    requires OnePolicyPerProfile(items) && NonNegativeSizes(env.db, items) && item in items
    requires PlanTrace.Leads(env, items, rules, st, st') && Honoured(env, item, c)(st)
    ensures Honoured(env, item, c)(st')
  {
    var t := PolicyTerms(env, items, rules);
    PolicySuits(env, items, rules);
    LeadsPath(t, env, items, rules, st, st');
    OwnItem(items, item);
    forall x, y | Honoured(env, item, c)(x) && Move(t)(x, y) ensures Honoured(env, item, c)(y) {
      var a, m, d :| MovesBy(t, x, y, a, m, d);
      MoveHonours(t, env, x, y, a, m, d, item, c);
    }
    PathKeeps(Honoured(env, item, c), Move(t), st, st');
  }

  // ---------- from the pin to the finished plan ----------

  lemma PinListLeads(env: Env, items: seq<Item>, st: PlanState, pins: seq<(Item, Id)>)
    requires WellKeyed(env.db) && forall p :: p in pins ==> p.0 in items
    ensures PlanTrace.Leads(env, items, PlanTrace.PINNING, st, Fold(PinBody(env), st, pins))
  {
    var ok := PlanTrace.Guard(env, items, PlanTrace.PINNING);
    var inv := (z: PlanState, zs: seq<(Item, Id)>) => forall p :: p in zs ==> p.0 in items;
    forall z: PlanState, zs: seq<(Item, Id)> | inv(z, zs) && zs != []
      ensures Reaches(ok, PlanTrace.Next(env), z, PinBody(env)(z, zs[0])) && inv(PinBody(env)(z, zs[0]), zs[1..])
    {
      assert zs[0] in zs;
      PlanTrace.HardPinLeads(env, items, false, z, zs[0].0, zs[0].1);
    }
    FoldReaches(ok, PlanTrace.Next(env), PinBody(env), inv, st, pins);
  }

  lemma PinsOfItems(items: seq<Item>, p: (Item, Id))
    ensures p in PlanTrace.AllPins(items) <==> p.0 in items && p.1 in p.0.policy.hardPinnedSlots
  {
    FlatMapMember(items, PinsOf(), p);
    forall x | x in items ensures p in PinsOf()(x) <==> p.0 == x && p.1 in x.policy.hardPinnedSlots {
      MapMember(x.policy.hardPinnedSlots, (pin: Id) => (x, pin), p);
    }
  }

  /** After a pin is placed, the rest of the placement is a run of steps. */
  lemma PinThenPlaced(env: Env, items: seq<Item>, item: Item, pin: Id) returns (before: PlanState)
    requires WellKeyed(env.db) && item in items && pin in item.policy.hardPinnedSlots
    ensures PlanTrace.Leads(env, items, PlanTrace.Rules(false, true, true), PlaceHardPin(env, before, item, pin),
                            Placed(env, items))
  {
    var pins, all := PlanTrace.AllPins(items), PlanTrace.Rules(false, true, true);
    PinsOfItems(items, (item, pin));
    var i :| 0 <= i < |pins| && pins[i] == (item, pin);
    before := Fold(PinBody(env), EMPTY_STATE, pins[..i]);
    var after, pinned := PlaceHardPin(env, before, item, pin), PlaceHardPins(env, EMPTY_STATE, items);
    FoldAt(PinBody(env), EMPTY_STATE, pins, i);
    forall p | p in pins[i + 1..] ensures p.0 in items {
      PinsOfItems(items, p);
    }
    PinListLeads(env, items, after, pins[i + 1..]);
    PlanTrace.PreserveLeads(env, items, pinned);
    PlanTrace.RoundsLead(env, items);
    PlanTrace.LeadsWeaken(env, items, PlanTrace.PINNING, all, after, pinned);
    PlanTrace.LeadsWeaken(env, items, PlanTrace.PRESERVING, all, pinned, Fixed(env, items));
    PlanTrace.LeadsWeaken(env, items, PlanTrace.ROUNDS, all, Fixed(env, items), Placed(env, items));
    PlanTrace.LeadsTrans(env, items, all, after, pinned, Fixed(env, items));
    PlanTrace.LeadsTrans(env, items, all, after, Fixed(env, items), Placed(env, items));
  }

  ghost predicate PlanReports(db: Database, plan: seq<Assignment>, pid: Id, pin: Id) {
    exists a :: a in plan && ForPin(db, a, pid, pin)
  }

  ghost predicate PlanPins(plan: seq<Assignment>, pid: Id, pin: Id) {
    exists a :: a in plan && UnblockedWarm(a) && a.profileId == pid && a.slotId == pin
  }

  lemma CopiesReport(db: Database, plan: seq<Assignment>, st: PlanState, pid: Id, pin: Id)
    requires SameCopies(plan, st.assignments)
    ensures Reported(db, pid, pin)(st) ==> PlanReports(db, plan, pid, pin)
    ensures Pinned(pid, pin)(st) ==> PlanPins(plan, pid, pin)
  {
    if Reported(db, pid, pin)(st) {
      var b :| b in st.assignments && ForPin(db, b, pid, pin);
      var a :| a in plan && (a == b || a == b.(draining := true));
      assert ForPin(db, a, pid, pin);
    }
    if Pinned(pid, pin)(st) {
      var b :| b in st.assignments && UnblockedWarm(b) && b.profileId == pid && b.slotId == pin;
      var a :| a in plan && (a == b || a == b.(draining := true));
      assert UnblockedWarm(a) && a.profileId == pid && a.slotId == pin;
    }
  }

  /** Every hard pin shows in the plan: a warm assignment of its profile on the slot, or, when there is no such
      slot, a blocked one. */
  lemma PinsReported(db: Database, now: Time, cooldown: int, explain: bool, item: Item, pin: Id)
    requires WellKeyed(db) && item in PolicyItems(db, now, cooldown) && pin in item.policy.hardPinnedSlots
    ensures PlanReports(db, PlanPlacement(db, now, cooldown, explain), item.profile.id, pin)
  {
    var env, items := Env(db, now, explain), PolicyItems(db, now, cooldown);
    var before := PinThenPlaced(env, items, item, pin);
    PinReports(env, before, item, pin);
    ReportedAlong(env, items, PlanTrace.Rules(false, true, true), item.profile.id, pin,
                  PlaceHardPin(env, before, item, pin), Placed(env, items));
    FinishSame(Placed(env, items), items);
    CopiesReport(db, PlanPlacement(db, now, cooldown, explain), Placed(env, items), item.profile.id, pin);
  }

  lemma PlacedHonours(env: Env, items: seq<Item>, item: Item, pin: Id, c: Candidate)
    requires WellKeyed(env.db) && OnePolicyPerProfile(items) && NonNegativeSizes(env.db, items) && item in items
    requires pin in item.policy.hardPinnedSlots && pin in env.db.slots
    requires c == PinCandidate(env.db, item, env.db.slots[pin]) && Placeable(env.db, item, c)
    ensures Honoured(env, item, c)(Placed(env, items))
  {
    var before := PinThenPlaced(env, items, item, pin);
    PinHonours(env, before, item, c);
    HonouredAlong(env, items, PlanTrace.Rules(false, true, true), item, c, PlaceHardPin(env, before, item, pin),
                  Placed(env, items));
  }

  lemma {:induction false} NoneIndexed<T>(s: seq<T>, p: T -> bool, x: T)
    requires FirstIndex(s, p) == |s| && x in s
    ensures !p(x)
  {
    assert s == [s[0]] + s[1..];
    if x != s[0] {
      NoneIndexed(s[1..], p, x);
    }
  }

  lemma SuitingFits(p: Profile, v: Variant, node: Node, slot: Slot)
    ensures FitsOn(p, node, slot)(v) <==> SuitsSlot(EffectiveProfileForVariant(p, v), node, slot)
  {
    FitsExactly(EffectiveProfileForVariant(p, v), node, slot);
  }

  lemma FirstFitSuits(p: Profile, node: Node, slot: Slot, v: Variant) returns (best: Variant)
    requires v in ProfileRuntimeVariants(p) && SuitsSlot(EffectiveProfileForVariant(p, v), node, slot)
    ensures best in ProfileRuntimeVariants(p) && SuitsSlot(EffectiveProfileForVariant(p, best), node, slot)
    ensures BestVariantForSlot(p, node, slot)
         == (EffectiveProfileForVariant(p, best), FitProfileToSlot(EffectiveProfileForVariant(p, best), node, slot))
  {
    var vs := ProfileRuntimeVariants(p);
    var k := FirstFit(p, vs, node, slot);
    SuitingFits(p, v, node, slot);
    if k == |vs| {
      NoneIndexed(vs, FitsOn(p, node, slot), v);
    }
    best := vs[k];
    SuitingFits(p, best, node, slot);
  }

  /** The first variant that suits the pinned slot is the one that is placed. */
  lemma FirstSuiting(db: Database, item: Item, pin: Id, v: Variant) returns (best: Variant)
    requires WellKeyed(db) && CouldHold(db, item, pin, v)
    ensures CouldHold(db, item, pin, best)
    ensures PinCandidate(db, item, db.slots[pin])
         == VariantCandidate(item.profile, db.nodes[db.slots[pin].nodeId], db.slots[pin], best)
  {
    best := FirstFitSuits(item.profile, db.nodes[db.slots[pin].nodeId], db.slots[pin], v);
  }

  lemma PinnedOrFull(env: Env, plan: seq<Assignment>, st: PlanState, item: Item, c: Candidate)
    requires SameCopies(plan, st.assignments) && Honoured(env, item, c)(st)
    requires BooksMatch(env.db, plan, st, c.node.id)
    ensures || PlanPins(plan, item.profile.id, c.slot.id)
            || NodeFull(env.db, env.now, plan, st.assignments, item, c.node, c.effective)
  {
    CopiesReport(env.db, plan, st, item.profile.id, c.slot.id);
    if !CanUse(env, st, item, c, true) {
      RefusedIsFull(env, plan, st, item, c);
    }
  }

  /** A pin whose slot could hold a variant of the profile is an unblocked warm copy in the plan, or the finished
      plan fills the node for the first such variant. */
  lemma PinsHonoured(db: Database, now: Time, cooldown: int, explain: bool, item: Item, pin: Id, v: Variant)
    returns (best: Variant)
    requires WellKeyed(db) && PolicyPerProfile(db) && VariantIdsUnique(db) && item in PolicyItems(db, now, cooldown)
    requires NonNegativeSizes(db, PolicyItems(db, now, cooldown))
    requires pin in item.policy.hardPinnedSlots && CouldHold(db, item, pin, v)
    ensures CouldHold(db, item, pin, best)
    ensures var plan := PlanPlacement(db, now, cooldown, explain);
            var placed := Placed(Env(db, now, explain), PolicyItems(db, now, cooldown)).assignments;
            || PlanPins(plan, item.profile.id, pin)
            || NodeFull(db, now, plan, placed, item, db.nodes[db.slots[pin].nodeId],
                        EffectiveProfileForVariant(item.profile, best))
  {
    var env, items := Env(db, now, explain), PolicyItems(db, now, cooldown);
    best := FirstSuiting(db, item, pin, v);
    var c := PinCandidate(db, item, db.slots[pin]);
    CouldHoldIsPlaceable(db, item, pin, best);
    ItemsPerProfile(db, now, cooldown);
    PlacedHonours(env, items, item, pin, c);
    FinishSame(Placed(env, items), items);
    PlannedBooks(db, now, cooldown, explain, c.node.id);
    PinnedOrFull(env, PlanPlacement(db, now, cooldown, explain), Placed(env, items), item, c);
  }
}
