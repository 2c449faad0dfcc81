/** Every planning phase is a sequence of four kinds of elementary steps. What a step
    keeps, the whole plan keeps, so each invariant is proved once per step. */
module PlanTrace {
  import opened Base
  import opened Traces
  import opened Model
  import opened Fit
  import opened Placement
  import opened Candidates

  datatype Step =
    | WarmStep(item: Item, c: Candidate, a: Assignment, protect: bool)
    | CacheStep(item: Item, c: Candidate, a: Assignment)
    | BlockStep(a: Assignment, missing: map<Id, int>)
    | MissingStep(item: Item, a: Assignment, warm: bool)

  /** Assignment `a` is an unblocked warm copy of `item` on `c`. */
  predicate WarmCopy(a: Assignment, item: Item, c: Candidate) {
    && a.profileId == item.profile.id && a.nodeId == c.slot.nodeId && a.slotId == c.slot.id
    && a.runtimeVariantId == c.effective.runtimeVariantId
    && a.desiredWarm && a.desiredCached && a.mismatchReason == "" && !a.draining
  }

  predicate CacheCopy(a: Assignment, item: Item, c: Candidate) {
    && a.profileId == item.profile.id && a.nodeId == c.node.id
    && a.runtimeVariantId == c.effective.runtimeVariantId
    && !a.desiredWarm && a.desiredCached && a.mismatchReason == "" && !a.draining
  }

  predicate MissingCopy(a: Assignment, item: Item, warm: bool) {
    a.profileId == item.profile.id && a.nodeId == "" && a.desiredWarm == warm && a.mismatchReason != "" && !a.draining
  }

  lemma AcceptedIsCopy(env: Env, item: Item, c: Candidate)
    requires c.fit.fits
    ensures WarmCopy(WarmAssignment(item.profile.id, c.effective, c.slot, c.fit, env.now), item, c)
    ensures CacheCopy(CacheAssignment(item.profile.id, c, env.now), item, c)
  {
  }

  lemma MissingIsCopy(env: Env, item: Item, n: int, warm: bool)
    ensures MissingCopy(MissingAssignment(item.profile.id, n, warm, env.now), item, warm)
  {
  }

  /** Which steps a phase may take, and whether warm copies must take unused slots. */
  datatype Rules = Rules(exclusive: bool, blocks: bool, missing: bool)

  ghost predicate Enabled(env: Env, items: seq<Item>, rules: Rules, st: PlanState, step: Step) {
    match step
    case WarmStep(item, c, a, _) =>
      && item in items && Placeable(env.db, item, c) && CanUse(env, st, item, c, true) && WarmCopy(a, item, c)
      && (rules.exclusive ==> c.slot.id !in st.slotUsed)
    case CacheStep(item, c, a) =>
      && item in items && Placeable(env.db, item, c) && CanUse(env, st, item, c, false) && CacheCopy(a, item, c)
      && item.profile.id !in GetSet(st.nodeCache, c.node.id)
    case BlockStep(a, _) => rules.blocks && a.desiredWarm && a.mismatchReason != "" && !a.draining
    case MissingStep(item, a, warm) =>
      && rules.missing && item in items && MissingCopy(a, item, warm)
      && (if warm then Exhausted(env, st, item) else NowhereToCache(env, st, item))
  }

  ghost function Apply(env: Env, st: PlanState, step: Step): PlanState {
    match step
    case WarmStep(item, c, a, protect) => BookWarm(env.db, st, item.profile.id, c, a, protect)
    case CacheStep(item, c, a) => BookCache(env.db, st, item.profile.id, c, a)
    case BlockStep(a, missing) => AddAssignment(st, a).(missing := missing)
    case MissingStep(item, a, warm) => BookMissing(st, item.profile.id, a, warm)
  }

  ghost function Guard(env: Env, items: seq<Item>, rules: Rules): (PlanState, Step) -> bool {
    (st: PlanState, step: Step) => Enabled(env, items, rules, st, step)
  }

  ghost function Next(env: Env): (PlanState, Step) -> PlanState {
    (st: PlanState, step: Step) => Apply(env, st, step)
  }

  ghost predicate Leads(env: Env, items: seq<Item>, rules: Rules, st: PlanState, st': PlanState) {
    Reaches(Guard(env, items, rules), Next(env), st, st')
  }

  lemma LeadsSelf(env: Env, items: seq<Item>, rules: Rules, st: PlanState)
    ensures Leads(env, items, rules, st, st)
  {
    ReachesSelf(Guard(env, items, rules), Next(env), st);
  }

  lemma LeadsTrans(env: Env, items: seq<Item>, rules: Rules, st: PlanState, mid: PlanState, st': PlanState)
    requires Leads(env, items, rules, st, mid) && Leads(env, items, rules, mid, st')
    ensures Leads(env, items, rules, st, st')
  {
    ReachesTrans(Guard(env, items, rules), Next(env), st, mid, st');
  }

  lemma LeadsStep(env: Env, items: seq<Item>, rules: Rules, st: PlanState, step: Step, st': PlanState)
    requires Enabled(env, items, rules, st, step) && Leads(env, items, rules, Apply(env, st, step), st')
    ensures Leads(env, items, rules, st, st')
  {
    ReachesStep(Guard(env, items, rules), Next(env), st, step, st');
  }

  ghost predicate Weaker(a: Rules, b: Rules) {
    (b.exclusive ==> a.exclusive) && (a.blocks ==> b.blocks) && (a.missing ==> b.missing)
  }

  lemma LeadsWeaken(env: Env, items: seq<Item>, a: Rules, b: Rules, st: PlanState, st': PlanState)
    requires Leads(env, items, a, st, st') && Weaker(a, b)
    ensures Leads(env, items, b, st, st')
  {
    forall x, t | Guard(env, items, a)(x, t) ensures Guard(env, items, b)(x, t) {
      assert Enabled(env, items, a, x, t);
    }
    ReachesWeaken(Guard(env, items, a), Guard(env, items, b), Next(env), st, st');
  }

  // ---------- phases are runs ----------

  const PINNING := Rules(false, true, false)

  lemma PinnedStep(env: Env, items: seq<Item>, st: PlanState, item: Item, c: Candidate) returns (step: Step)
    requires item in items
    requires HardPinRejectionReasons(env, st, item, c) == [] ==>
              Placeable(env.db, item, c) && CanUse(env, st, item, c, true)
    ensures Enabled(env, items, PINNING, st, step) && Apply(env, st, step) == PlacePinned(env, st, item, c)
    ensures step.BlockStep? || (step.WarmStep? && step.c == c)
  {
    var a := WarmAssignment(item.profile.id, c.effective, c.slot, c.fit, env.now);
    if WarmSuppressed(c.node, env.now) {
      step := BlockStep(a.(mismatchReason := FAILURE_WORKER_FLAPPING), st.missing);
    } else if HardPinRejectionReasons(env, st, item, c) != [] {
      step := BlockStep(a.(mismatchReason := FirstNonEmpty(a.mismatchReason, "resource_exhausted_node_budget")),
                        st.missing);
    } else {
      AcceptedIsCopy(env, item, c);
      step := WarmStep(item, c, a, false);
    }
  }

  lemma HardPinStep(env: Env, items: seq<Item>, st: PlanState, item: Item, pin: Id) returns (step: Step)
    requires WellKeyed(env.db) && item in items
    ensures Enabled(env, items, PINNING, st, step) && Apply(env, st, step) == PlaceHardPin(env, st, item, pin)
    ensures step.BlockStep? || (step.WarmStep? && step.c.slot.id == pin)
  {
    if pin !in env.db.slots {
      var a := MissingAssignment(item.profile.id, Get(st.missing, item.profile.id), true, env.now);
      step := BlockStep(a, st.missing[item.profile.id := Get(st.missing, item.profile.id) + 1]);
    } else {
      var c := PinCandidate(env.db, item, env.db.slots[pin]);
      if HardPinRejectionReasons(env, st, item, c) == [] {
        PinReal(env, st, item, env.db.slots[pin]);
      }
      step := PinnedStep(env, items, st, item, c);
    }
  }

  ghost predicate Untouched(st: PlanState, pins: seq<(Item, Id)>) {
    forall p :: p in pins ==> p.1 !in st.slotUsed
  }

  ghost predicate DistinctSlots(pins: seq<(Item, Id)>) {
    forall i, j :: 0 <= i < j < |pins| ==> pins[i].1 != pins[j].1
  }

  /** All hard pins, in the order they are placed. */
  function AllPins(items: seq<Item>): seq<(Item, Id)> {
    FlatMap(items, PinsOf())
  }

  lemma OneStep(env: Env, items: seq<Item>, rules: Rules, st: PlanState, step: Step, st': PlanState)
    requires Enabled(env, items, rules, st, step) && st' == Apply(env, st, step)
    ensures Leads(env, items, rules, st, st')
  {
    LeadsSelf(env, items, rules, st');
    LeadsStep(env, items, rules, st, step, st');
  }

  lemma BookWarmSlots(db: Database, st: PlanState, pid: Id, c: Candidate, a: Assignment, protect: bool)
    ensures BookWarm(db, st, pid, c, a, protect).slotUsed == st.slotUsed + {c.slot.id}
  {
  }

  lemma StepOnPin(env: Env, items: seq<Item>, exclusive: bool, st: PlanState, step: Step, pin: Id)
    requires Enabled(env, items, PINNING, st, step)
    requires step.BlockStep? || (step.WarmStep? && step.c.slot.id == pin)
    requires exclusive ==> pin !in st.slotUsed
    ensures Enabled(env, items, Rules(exclusive, true, false), st, step)
    ensures Apply(env, st, step).slotUsed <= st.slotUsed + {pin}
  {
    if step.WarmStep? {
      BookWarmSlots(env.db, st, step.item.profile.id, step.c, step.a, step.protect);
    }
  }

  lemma HardPinLeads(env: Env, items: seq<Item>, exclusive: bool, st: PlanState, item: Item, pin: Id)
    requires WellKeyed(env.db) && item in items && (exclusive ==> pin !in st.slotUsed)
    ensures Leads(env, items, Rules(exclusive, true, false), st, PlaceHardPin(env, st, item, pin))
    ensures PlaceHardPin(env, st, item, pin).slotUsed <= st.slotUsed + {pin}
  {
    var step := HardPinStep(env, items, st, item, pin);
    StepOnPin(env, items, exclusive, st, step, pin);
    OneStep(env, items, Rules(exclusive, true, false), st, step, PlaceHardPin(env, st, item, pin));
  }

  ghost function PinInv(items: seq<Item>, exclusive: bool): (PlanState, seq<(Item, Id)>) -> bool {
    (st: PlanState, pins: seq<(Item, Id)>) =>
      && (forall p :: p in pins ==> p.0 in items)
      && (exclusive ==> DistinctSlots(pins) && Untouched(st, pins))
  }

  lemma PinInvTail(items: seq<Item>, exclusive: bool, st: PlanState, st': PlanState, pins: seq<(Item, Id)>)
    requires PinInv(items, exclusive)(st, pins) && pins != [] && st'.slotUsed <= st.slotUsed + {pins[0].1}
    ensures PinInv(items, exclusive)(st', pins[1..])
  {
    var rest := pins[1..];
    assert forall p :: p in rest ==> p in pins;
    if exclusive {
      forall i, j | 0 <= i < j < |pins[1..]| ensures pins[1..][i].1 != pins[1..][j].1 {
        assert pins[1..][i] == pins[i + 1] && pins[1..][j] == pins[j + 1];
      }
      assert DistinctSlots(rest);
      forall p | p in rest ensures p.1 !in st'.slotUsed {
        var k :| 0 <= k < |rest| && rest[k] == p;
        assert pins[k + 1] == p && pins[0].1 != pins[k + 1].1;
      }
      assert Untouched(st', rest);
    }
  }

  lemma PinsOfItem(item: Item)
    ensures forall p :: p in PinsOf()(item) ==> p.0 == item
  {
  }

  lemma HardPinsLead(env: Env, items: seq<Item>, exclusive: bool)
    requires WellKeyed(env.db) && (exclusive ==> DistinctSlots(AllPins(items)))
    ensures Leads(env, items, Rules(exclusive, true, false), EMPTY_STATE, PlaceHardPins(env, EMPTY_STATE, items))
  {
    var inv, rules := PinInv(items, exclusive), Rules(exclusive, true, false);
    forall st: PlanState, pins: seq<(Item, Id)> | inv(st, pins) && pins != []
      ensures Reaches(Guard(env, items, rules), Next(env), st, PinBody(env)(st, pins[0]))
      ensures inv(PinBody(env)(st, pins[0]), pins[1..])
    {
      assert pins[0] in pins;
      HardPinLeads(env, items, exclusive, st, pins[0].0, pins[0].1);
      PinInvTail(items, exclusive, st, PlaceHardPin(env, st, pins[0].0, pins[0].1), pins);
    }
    forall p | p in AllPins(items) ensures p.0 in items {
      FlatMapMember(items, PinsOf(), p);
      var x :| x in items && p in PinsOf()(x);
      PinsOfItem(x);
    }
    FoldReaches(Guard(env, items, rules), Next(env), PinBody(env), inv, EMPTY_STATE, AllPins(items));
  }

  lemma ProtectedReal(env: Env, item: Item, slot: Slot)
    requires WellKeyed(env.db) && slot.id in env.db.slots && env.db.slots[slot.id] == slot
    requires ProtectedCandidate(env, item, slot).Some?
    ensures var c := ProtectedCandidate(env, item, slot).value; Placeable(env.db, item, c) && c.slot == slot
  {
    var vs := ProfileRuntimeVariants(item.profile);
    var k := FirstIndex(vs, CurrentOn(item.profile, slot));
    assert vs[k] in vs;
  }

  const PRESERVING := Rules(true, false, false)

  lemma PreserveSlotLeads(env: Env, items: seq<Item>, st: PlanState, slot: Slot)
    requires WellKeyed(env.db) && slot.id in env.db.slots && env.db.slots[slot.id] == slot
    ensures Leads(env, items, PRESERVING, st, PreserveSlot(env, st, items, slot))
  {
    var st' := PreserveSlot(env, st, items, slot);
    if st' == st {
      LeadsSelf(env, items, PRESERVING, st);
    } else {
      var item := ItemFor(items, slot.profileId).value;
      ProtectedReal(env, item, slot);
      AcceptedLeads(env, items, PRESERVING, st, item, ProtectedCandidate(env, item, slot).value, true);
    }
  }

  lemma AcceptedLeads(env: Env, items: seq<Item>, rules: Rules, st: PlanState, item: Item, c: Candidate, protect: bool)
    requires item in items && Placeable(env.db, item, c) && CanUse(env, st, item, c, true)
    requires c.slot.id !in st.slotUsed
    ensures Leads(env, items, rules, st, AcceptWarm(env, st, item, c, protect))
  {
    var a := WarmAssignment(item.profile.id, c.effective, c.slot, c.fit, env.now);
    AcceptedIsCopy(env, item, c);
    OneStep(env, items, rules, st, WarmStep(item, c, a, protect), AcceptWarm(env, st, item, c, protect));
  }

  lemma PreserveListLeads(env: Env, items: seq<Item>, st: PlanState, slots: seq<Slot>)
    requires WellKeyed(env.db) && forall s :: s in slots ==> s.id in env.db.slots && env.db.slots[s.id] == s
    ensures Leads(env, items, PRESERVING, st, Fold(PreserveBody(env, items), st, slots))
  {
    var ok := Guard(env, items, PRESERVING);
    var inv := (z: PlanState, zs: seq<Slot>) => forall s :: s in zs ==> s.id in env.db.slots && env.db.slots[s.id] == s;
    forall z: PlanState, zs: seq<Slot> | inv(z, zs) && zs != []
      ensures Reaches(ok, Next(env), z, PreserveBody(env, items)(z, zs[0]))
      ensures inv(PreserveBody(env, items)(z, zs[0]), zs[1..])
    {
      assert zs[0] in zs;
      PreserveSlotLeads(env, items, z, zs[0]);
    }
    FoldReaches(ok, Next(env), PreserveBody(env, items), inv, st, slots);
  }

  lemma PreserveLeads(env: Env, items: seq<Item>, st: PlanState)
    requires WellKeyed(env.db)
    ensures Leads(env, items, PRESERVING, st, PreserveRuntimeCopies(env, st, items))
  {
    forall s | s in SortedSlots(env.db) ensures s.id in env.db.slots && env.db.slots[s.id] == s {
      SortedSlotsMember(env.db, s);
    }
    PreserveListLeads(env, items, st, SortedSlots(env.db));
  }

  const ROUNDS := Rules(true, false, true)

  lemma OneWarmLeads(env: Env, items: seq<Item>, st: PlanState, item: Item)
    requires WellKeyed(env.db) && item in items
    ensures Leads(env, items, ROUNDS, st, PlaceOneWarm(env, st, item))
  {
    var next := NextWarm(env, st, item);
    if next.None? {
      var a := MissingAssignment(item.profile.id, Get(st.missing, item.profile.id), true, env.now);
      NextWarmNone(env, st, item);
      MissingIsCopy(env, item, Get(st.missing, item.profile.id), true);
      OneStep(env, items, ROUNDS, st, MissingStep(item, a, true), AddMissing(env, st, item.profile.id, true));
    } else {
      NextWarmSome(env, st, item);
      AcceptedLeads(env, items, ROUNDS, st, item, next.value, false);
    }
  }

  lemma OneCacheLeads(env: Env, items: seq<Item>, st: PlanState, item: Item)
    requires WellKeyed(env.db) && item in items
    ensures Leads(env, items, ROUNDS, st, PlaceOneCache(env, st, item))
  {
    var next := NextCache(env, st, item);
    if next.None? {
      var a := MissingAssignment(item.profile.id, Get(st.missing, item.profile.id), false, env.now);
      NextCacheNone(env, st, item);
      MissingIsCopy(env, item, Get(st.missing, item.profile.id), false);
      OneStep(env, items, ROUNDS, st, MissingStep(item, a, false), AddMissing(env, st, item.profile.id, false));
    } else {
      var a := CacheAssignment(item.profile.id, next.value, env.now);
      NextCacheSome(env, st, item);
      AcceptedIsCopy(env, item, next.value);
      OneStep(env, items, ROUNDS, st, CacheStep(item, next.value, a), AcceptCache(env, st, item, next.value));
    }
  }

  lemma WarmUntilLeads(env: Env, items: seq<Item>, st: PlanState, item: Item, target: int)
    requires WellKeyed(env.db) && item in items
    ensures Leads(env, items, ROUNDS, st, PlaceWarmUntil(env, st, item, target))
  {
    var ok := Guard(env, items, ROUNDS);
    forall z: PlanState ensures Reaches(ok, Next(env), z, WarmBody(env, item)(z)) {
      OneWarmLeads(env, items, z, item);
    }
    WarmBodyCounts(env, item);
    UntilReaches(ok, Next(env), WarmCount(item.profile.id), WarmBody(env, item), target, st);
  }

  lemma CacheUntilLeads(env: Env, items: seq<Item>, st: PlanState, item: Item, target: int)
    requires WellKeyed(env.db) && item in items
    ensures Leads(env, items, ROUNDS, st, PlaceCacheUntil(env, st, item, target))
  {
    var ok := Guard(env, items, ROUNDS);
    forall z: PlanState ensures Reaches(ok, Next(env), z, CacheBody(env, item)(z)) {
      OneCacheLeads(env, items, z, item);
    }
    CacheBodyCounts(env, item);
    UntilReaches(ok, Next(env), CacheCount(item.profile.id), CacheBody(env, item), target, st);
  }

  ghost function ItemInv(items: seq<Item>): (PlanState, seq<Item>) -> bool {
    (st: PlanState, todo: seq<Item>) => forall it :: it in todo ==> it in items
  }

  lemma AllWarmLeads(env: Env, items: seq<Item>, st: PlanState, todo: seq<Item>, round: Round)
    requires WellKeyed(env.db) && forall it :: it in todo ==> it in items
    ensures Leads(env, items, ROUNDS, st, PlaceAllWarm(env, st, todo, round))
  {
    var ok, inv := Guard(env, items, ROUNDS), ItemInv(items);
    forall z: PlanState, zs: seq<Item> | inv(z, zs) && zs != []
      ensures Reaches(ok, Next(env), z, AllWarmBody(env, round)(z, zs[0]))
      ensures inv(AllWarmBody(env, round)(z, zs[0]), zs[1..])
    {
      assert zs[0] in zs;
      WarmUntilLeads(env, items, z, zs[0], WarmTarget(zs[0], round));
    }
    FoldReaches(ok, Next(env), AllWarmBody(env, round), inv, st, todo);
  }

  lemma AllCacheLeads(env: Env, items: seq<Item>, st: PlanState, todo: seq<Item>, round: Round)
    requires WellKeyed(env.db) && forall it :: it in todo ==> it in items
    ensures Leads(env, items, ROUNDS, st, PlaceAllCache(env, st, todo, round))
  {
    var ok, inv := Guard(env, items, ROUNDS), ItemInv(items);
    forall z: PlanState, zs: seq<Item> | inv(z, zs) && zs != []
      ensures Reaches(ok, Next(env), z, AllCacheBody(env, round)(z, zs[0]))
      ensures inv(AllCacheBody(env, round)(z, zs[0]), zs[1..])
    {
      assert zs[0] in zs;
      CacheUntilLeads(env, items, z, zs[0], CacheTarget(zs[0], round));
    }
    FoldReaches(ok, Next(env), AllCacheBody(env, round), inv, st, todo);
  }

  /** Pins and preserved copies: no missing copy is counted. With hard pins on distinct
      slots every warm copy takes an unused slot. */
  lemma FixedLeads(env: Env, items: seq<Item>, exclusive: bool)
    requires WellKeyed(env.db) && (exclusive ==> DistinctSlots(AllPins(items)))
    ensures Leads(env, items, Rules(exclusive, true, false), EMPTY_STATE, Fixed(env, items))
  {
    var pinned := PlaceHardPins(env, EMPTY_STATE, items);
    HardPinsLead(env, items, exclusive);
    PreserveLeads(env, items, pinned);
    LeadsWeaken(env, items, PRESERVING, Rules(exclusive, true, false), pinned, Fixed(env, items));
    LeadsTrans(env, items, Rules(exclusive, true, false), EMPTY_STATE, pinned, Fixed(env, items));
  }

  lemma SortedItemsIn(items: seq<Item>)
    ensures forall it :: it in ByNeed(items) <==> it in items
    ensures forall it :: it in ByDemand(items) <==> it in items
  {
    var byNeed := ByNeed(items);
    forall it ensures it in byNeed <==> it in items {
      StableSortMember(items, ItemOrder(false), it);
    }
    forall it ensures it in StableSort(byNeed, ItemOrder(true)) <==> it in items {
      StableSortMember(byNeed, ItemOrder(true), it);
    }
  }

  /** The placement rounds: nothing is blocked, and every warm copy takes an unused slot. */
  lemma RoundsLead(env: Env, items: seq<Item>)
    requires WellKeyed(env.db)
    ensures Leads(env, items, ROUNDS, Fixed(env, items), Placed(env, items))
  {
    var byNeed := ByNeed(items);
    var byDemand := ByDemand(items);
    SortedItemsIn(items);
    var s0 := Fixed(env, items);
    var s1 := PlaceAllWarm(env, s0, byNeed, Minimum);
    var s2 := PlaceAllCache(env, s1, byNeed, Minimum);
    var s3 := PlaceAllWarm(env, s2, byDemand, Full);
    var s4 := PlaceAllCache(env, s3, byDemand, Full);
    AllWarmLeads(env, items, s0, byNeed, Minimum);
    AllCacheLeads(env, items, s1, byNeed, Minimum);
    AllWarmLeads(env, items, s2, byDemand, Full);
    AllCacheLeads(env, items, s3, byDemand, Full);
    LeadsTrans(env, items, ROUNDS, s0, s1, s2);
    LeadsTrans(env, items, ROUNDS, s0, s2, s3);
    LeadsTrans(env, items, ROUNDS, s0, s3, s4);
  }

  /** The whole placement as one run from the empty state. */
  lemma PlacedLeads(env: Env, items: seq<Item>, exclusive: bool)
    requires WellKeyed(env.db) && (exclusive ==> DistinctSlots(AllPins(items)))
    ensures Leads(env, items, Rules(exclusive, true, true), EMPTY_STATE, Placed(env, items))
  {
    var all := Rules(exclusive, true, true);
    FixedLeads(env, items, exclusive);
    LeadsWeaken(env, items, Rules(exclusive, true, false), all, EMPTY_STATE, Fixed(env, items));
    RoundsLead(env, items);
    LeadsWeaken(env, items, ROUNDS, all, Fixed(env, items), Placed(env, items));
    LeadsTrans(env, items, all, EMPTY_STATE, Fixed(env, items), Placed(env, items));
  }
}
