/** What every planned copy stands on: a usable node and a slot that suits its variant; and
    which running copies the plan keeps. */
module Grounds {
  import opened Base
  import opened Traces
  import opened Model
  import opened Fit
  import opened Placement
  import opened Candidates
  import PlanTrace
  import opened Booking
  import opened PlanTerms
  import opened PlanTheorems
  import opened Preference

  // ---------- every planned copy is grounded ----------

  /** The node takes work, and the policy admits it. */
  predicate Open(node: Node, policy: Policy) {
    && node.state == Online && node.approved && !node.quarantined
    && node.id !in policy.denyNodes && node.name !in policy.denyNodes
    && forall t :: t in policy.requireTags ==> t in node.tags
  }

  predicate Flapping(node: Node, now: Time) {
    node.suppressed && node.suppressionUntil.Some? && now < node.suppressionUntil.value
  }

  /** The slot is on the assignment's node and suits the profile; a warm copy is on its own slot, and its node
      is not flapping. */
  predicate Hosts(db: Database, now: Time, a: Assignment, s: Id, effective: Profile) {
    && s in db.slots && db.slots[s].nodeId == a.nodeId && a.nodeId in db.nodes
    && SuitsSlot(effective, db.nodes[a.nodeId], db.slots[s])
    && (a.desiredWarm ==> s == a.slotId && !Flapping(db.nodes[a.nodeId], now))
  }

  /** Policy `k` asks for the profile, `v` is the variant, and slot `s` hosts it. */
  predicate GroundedBy(db: Database, now: Time, a: Assignment, k: Id, v: Variant, s: Id) {
    && k in db.policies && db.policies[k].profileId == a.profileId && a.profileId in db.profiles
    && v in ProfileRuntimeVariants(db.profiles[a.profileId]) && a.runtimeVariantId == v.id
    && a.nodeId in db.nodes && Open(db.nodes[a.nodeId], db.policies[k])
    && Hosts(db, now, a, s, EffectiveProfileForVariant(db.profiles[a.profileId], v))
  }

  ghost predicate Grounded(db: Database, now: Time, a: Assignment) {
    exists k, v, s :: GroundedBy(db, now, a, k, v, s)
  }

  /** The item stands for a policy of its profile. */
  ghost predicate Asked(db: Database, item: Item) {
    && item.profile.id in db.profiles && db.profiles[item.profile.id] == item.profile && item.profile.id != ""
    && exists k :: k in db.policies && db.policies[k] == item.policy && item.policy.profileId == item.profile.id
  }

  lemma ItemsAsked(db: Database, now: Time, cooldown: int)
    requires WellKeyed(db)
    ensures forall it :: it in PolicyItems(db, now, cooldown) ==> Asked(db, it)
  {
    forall it | it in PolicyItems(db, now, cooldown) ensures Asked(db, it) {
      PolicyItemsMember(db, now, cooldown, it);
    }
  }

  lemma CandidateGrounds(env: Env, item: Item, c: Candidate, a: Assignment)
    requires Asked(env.db, item) && Placeable(env.db, item, c) && a.profileId == item.profile.id
    requires a.nodeId == c.node.id && a.runtimeVariantId == c.effective.runtimeVariantId
    requires a.desiredWarm ==> a.slotId == c.slot.id && !WarmSuppressed(c.node, env.now)
    ensures Grounded(env.db, env.now, a)
  {
    var k :| k in env.db.policies && env.db.policies[k] == item.policy && item.policy.profileId == item.profile.id;
    var v :| v in ProfileRuntimeVariants(item.profile) && c.effective == EffectiveProfileForVariant(item.profile, v);
    VariantIdKept(item.profile, v);
    FitsExactly(c.effective, c.node, c.slot);
    assert Hosts(env.db, env.now, a, c.slot.id, c.effective);
    assert GroundedBy(env.db, env.now, a, k, v, c.slot.id);
  }

  ghost function AllGrounded(db: Database, now: Time): PlanState -> bool {
    (st: PlanState) => forall a :: a in st.assignments && Unblocked(a) ==> Grounded(db, now, a)
  }

  lemma StepGrounds(env: Env, items: seq<Item>, rules: PlanTrace.Rules, st: PlanState, step: PlanTrace.Step)
    requires (forall it :: it in items ==> Asked(env.db, it)) && AllGrounded(env.db, env.now)(st)
    requires PlanTrace.Enabled(env, items, rules, st, step)
    ensures AllGrounded(env.db, env.now)(PlanTrace.Apply(env, st, step))
  {
    match step
    case WarmStep(item, c, a, protect) => CandidateGrounds(env, item, c, a);
    case CacheStep(item, c, a) => CandidateGrounds(env, item, c, a);
    case _ =>
  }

  lemma PlacedGrounded(env: Env, items: seq<Item>)
    requires WellKeyed(env.db) && forall it :: it in items ==> Asked(env.db, it)
    ensures AllGrounded(env.db, env.now)(Placed(env, items))
  {
    var rules := PlanTrace.Rules(false, true, true);
    PlanTrace.PlacedLeads(env, items, false);
    forall st, step | AllGrounded(env.db, env.now)(st) && PlanTrace.Guard(env, items, rules)(st, step)
      ensures AllGrounded(env.db, env.now)(PlanTrace.Next(env)(st, step))
    {
      StepGrounds(env, items, rules, st, step);
    }
    ReachesKeep(AllGrounded(env.db, env.now), PlanTrace.Guard(env, items, rules), PlanTrace.Next(env),
                EMPTY_STATE, Placed(env, items));
  }

  lemma DrainedGrounded(db: Database, now: Time, a: Assignment, b: Assignment)
    requires Grounded(db, now, b) && (a == b || a == b.(draining := true))
    ensures Grounded(db, now, a)
  {
    var k, v, s :| GroundedBy(db, now, b, k, v, s);
    assert GroundedBy(db, now, a, k, v, s);
  }

  lemma CopiesGrounded(db: Database, now: Time, plan: seq<Assignment>, st: PlanState, a: Assignment)
    requires SameCopies(plan, st.assignments) && AllGrounded(db, now)(st) && a in plan && Unblocked(a)
    ensures Grounded(db, now, a)
  {
    var b :| b in st.assignments && (a == b || a == b.(draining := true));
    DrainedGrounded(db, now, a, b);
  }

  /** Every unblocked assignment of the plan names a variant of a profile some policy asks for, on a node that is
      online, approved, not banned and not denied, with a slot that suits it; no warm one is on a flapping node. */
  lemma PlanGrounded(db: Database, now: Time, cooldown: int, explain: bool, a: Assignment)
    requires WellKeyed(db) && a in PlanPlacement(db, now, cooldown, explain) && Unblocked(a)
    ensures Grounded(db, now, a)
  {
    var env, items := Env(db, now, explain), PolicyItems(db, now, cooldown);
    ItemsAsked(db, now, cooldown);
    PlacedGrounded(env, items);
    FinishSame(Placed(env, items), items);
    CopiesGrounded(db, now, Finish(Placed(env, items), items), Placed(env, items), a);
  }

  // ---------- running copies are kept ----------

  /** The slot is taken in this plan, or what it runs cannot be kept there. */
  predicate Settled(env: Env, st: PlanState, item: Item, c: Candidate) {
    c.slot.id in st.slotUsed || !CanUse(env, st, item, c, true)
  }

  ghost function SettledAt(env: Env, item: Item, c: Candidate): PlanState -> bool {
    (st: PlanState) => Settled(env, st, item, c)
  }

  lemma SettledPersists(t: Terms, env: Env, st: PlanState, st': PlanState, item: Item, c: Candidate)
    requires t.warmLimit(item.profile.id) == item.policy.maxWarmProfilesPerNode
    requires t.cacheLimit(item.profile.id) == item.policy.maxCachedProfilesPerNode
    requires Consumes(t, st, st', item.profile.id) && Settled(env, st, item, c)
    ensures Settled(env, st', item, c)
  {
    LimitReasonRefuses(t, st, item, c.node.id);
    LimitReasonRefuses(t, st', item, c.node.id);
    assert Get(st.memoryUsed, c.node.id) <= Get(st'.memoryUsed, c.node.id);
    assert Get(st.diskUsed, c.node.id) <= Get(st'.diskUsed, c.node.id);
  }

  lemma SettledAlong(
      env: Env, items: seq<Item>, rules: PlanTrace.Rules, item: Item, c: Candidate, st: PlanState, st': PlanState)
    requires OnePolicyPerProfile(items) && NonNegativeSizes(env.db, items) && item in items
    requires PlanTrace.Leads(env, items, rules, st, st') && Settled(env, st, item, c)
    ensures Settled(env, st', item, c)
  {
    var t := PolicyTerms(env, items, rules);
    PolicySuits(env, items, rules);
    LeadsPath(t, env, items, rules, st, st');
    OwnItem(items, item);
    forall x, y | SettledAt(env, item, c)(x) && Move(t)(x, y) ensures SettledAt(env, item, c)(y) {
      var a, m, d :| MovesBy(t, x, y, a, m, d);
      MoveConsumes(t, x, y, a, m, d, item.profile.id);
      SettledPersists(t, env, x, y, item, c);
    }
    PathKeeps(SettledAt(env, item, c), Move(t), st, st');
  }

  /** The slot has a task, or is serving, loading or warming. */
  predicate Busy(slot: Slot) {
    slot.activeTaskId != "" || slot.state == Serving || slot.state == Loading || slot.state == Warming
  }

  /** `v` is the first variant of the profile that the slot runs, and the slot suits it. */
  predicate RunsHere(item: Item, node: Node, slot: Slot, i: nat) {
    var vs := ProfileRuntimeVariants(item.profile);
    && i < |vs| && HoldsVariant(slot, item.profile.id, EffectiveProfileForVariant(item.profile, vs[i]))
    && (forall j :: 0 <= j < i ==>
          !HoldsVariant(slot, item.profile.id, EffectiveProfileForVariant(item.profile, vs[j])))
    && SuitsSlot(EffectiveProfileForVariant(item.profile, vs[i]), node, slot)
  }

  /** The copy that slot `s` runs. */
  function RunningCopy(item: Item, node: Node, slot: Slot, i: nat): Candidate
    requires i < |ProfileRuntimeVariants(item.profile)|
  {
    VariantCandidate(item.profile, node, slot, ProfileRuntimeVariants(item.profile)[i])
  }

  lemma {:induction false} FirstIndexIs<T>(s: seq<T>, p: T -> bool, i: nat)
    requires i < |s| && p(s[i]) && forall j :: 0 <= j < i ==> !p(s[j])
    ensures FirstIndex(s, p) == i
  {
    if i > 0 {
      assert !p(s[0]);
      forall j | 0 <= j < i - 1 ensures !p(s[1..][j]) {
        assert s[1..][j] == s[j + 1];
      }
      FirstIndexIs(s[1..], p, i - 1);
    }
  }

  lemma FirstCurrent(item: Item, node: Node, slot: Slot, i: nat)
    requires RunsHere(item, node, slot, i)
    ensures FirstIndex(ProfileRuntimeVariants(item.profile), CurrentOn(item.profile, slot)) == i
  {
    var vs, current := ProfileRuntimeVariants(item.profile), CurrentOn(item.profile, slot);
    forall j | 0 <= j < |vs| ensures current(vs[j]) <==>
        HoldsVariant(slot, item.profile.id, EffectiveProfileForVariant(item.profile, vs[j]))
    {
      VariantIsCurrent(slot, item.profile.id, EffectiveProfileForVariant(item.profile, vs[j]));
    }
    FirstIndexIs(vs, current, i);
  }

  lemma OpenIsUsable(node: Node, policy: Policy)
    ensures Open(node, policy) <==> NodeUsable(node, policy)
  {
  }

  lemma RunningFits(item: Item, node: Node, slot: Slot, i: nat)
    requires RunsHere(item, node, slot, i)
    ensures RunningCopy(item, node, slot, i).fit.fits
  {
    FitsExactly(EffectiveProfileForVariant(item.profile, ProfileRuntimeVariants(item.profile)[i]), node, slot);
  }

  lemma RunningIsProtected(env: Env, item: Item, slot: Slot, i: nat)
    requires slot.nodeId in env.db.nodes && Open(env.db.nodes[slot.nodeId], item.policy)
    requires RunsHere(item, env.db.nodes[slot.nodeId], slot, i)
    ensures ProtectedCandidate(env, item, slot) == Some(RunningCopy(item, env.db.nodes[slot.nodeId], slot, i))
  {
    FirstCurrent(item, env.db.nodes[slot.nodeId], slot, i);
    OpenIsUsable(env.db.nodes[slot.nodeId], item.policy);
    RunningFits(item, env.db.nodes[slot.nodeId], slot, i);
  }

  lemma PreserveSettles(env: Env, items: seq<Item>, st: PlanState, item: Item, slot: Slot, c: Candidate)
    requires Busy(slot) && ItemFor(items, slot.profileId) == Some(item)
    requires ProtectedCandidate(env, item, slot) == Some(c) && c.slot == slot
    ensures Settled(env, PreserveSlot(env, st, items, slot), item, c)
  {
    var a := WarmAssignment(item.profile.id, c.effective, c.slot, c.fit, env.now);
    PlanTrace.BookWarmSlots(env.db, st, item.profile.id, c, a, true);
  }

  lemma FixedSettles(env: Env, items: seq<Item>, item: Item, slot: Slot, c: Candidate)
    requires WellKeyed(env.db) && OnePolicyPerProfile(items) && NonNegativeSizes(env.db, items) && item in items
    requires slot.id in env.db.slots && env.db.slots[slot.id] == slot && slot.profileId == item.profile.id
    requires Busy(slot) && ProtectedCandidate(env, item, slot) == Some(c) && c.slot == slot
    ensures Settled(env, Fixed(env, items), item, c)
  {
    var slots, body := SortedSlots(env.db), PreserveBody(env, items);
    SortedSlotsMember(env.db, slot);
    var i :| 0 <= i < |slots| && slots[i] == slot;
    var pinned := PlaceHardPins(env, EMPTY_STATE, items);
    var before := Fold(body, pinned, slots[..i]);
    var after := PreserveSlot(env, before, items, slot);
    OwnItem(items, item);
    PreserveSettles(env, items, before, item, slot, c);
    FoldAt(body, pinned, slots, i);
    forall s | s in slots[i + 1..] ensures s.id in env.db.slots && env.db.slots[s.id] == s {
      SortedSlotsMember(env.db, s);
    }
    PlanTrace.PreserveListLeads(env, items, after, slots[i + 1..]);
    SettledAlong(env, items, PlanTrace.PRESERVING, item, c, after, Fixed(env, items));
  }

  lemma FoldAt<S, X>(f: (S, X) -> S, s: S, xs: seq<X>, i: nat)
    requires i < |xs|
    ensures Fold(f, s, xs) == Fold(f, f(Fold(f, s, xs[..i]), xs[i]), xs[i + 1..])
  {
    assert xs == xs[..i] + xs[i..] && xs[i..][1..] == xs[i + 1..];
    FoldConcat(f, s, xs[..i], xs[i..]);
  }

  ghost function UsedHasCopy(s: Id): PlanState -> bool {
    (st: PlanState) => s in st.slotUsed ==> exists a :: a in st.assignments && UnblockedWarm(a) && a.slotId == s
  }

  lemma UsedSlotsHaveCopies(env: Env, items: seq<Item>, s: Id)
    requires WellKeyed(env.db)
    ensures UsedHasCopy(s)(Placed(env, items))
  {
    var t := PlainTerms(env.db, PlanTrace.Rules(false, true, true));
    PlainSuits(env, items, PlanTrace.Rules(false, true, true));
    PlacedPath(t, env, items, false);
    forall x, y | UsedHasCopy(s)(x) && Move(t)(x, y) ensures UsedHasCopy(s)(y) {
      var a, m, d :| MovesBy(t, x, y, a, m, d);
      assert a in y.assignments;
      if s in x.slotUsed {
        var b :| b in x.assignments && UnblockedWarm(b) && b.slotId == s;
        assert b in y.assignments;
      }
    }
    PathKeeps(UsedHasCopy(s), Move(t), EMPTY_STATE, Placed(env, items));
  }

  ghost predicate HasWarmCopy(plan: seq<Assignment>, s: Id) {
    exists a :: a in plan && UnblockedWarm(a) && a.slotId == s
  }

  lemma CopiesKeepSlot(plan: seq<Assignment>, st: PlanState, s: Id)
    requires SameCopies(plan, st.assignments) && UsedHasCopy(s)(st) && s in st.slotUsed
    ensures HasWarmCopy(plan, s)
  {
    var b :| b in st.assignments && UnblockedWarm(b) && b.slotId == s;
    var a :| a in plan && (a == b || a == b.(draining := true));
    assert UnblockedWarm(a) && a.slotId == s;
  }

  lemma PlacedKeeps(env: Env, items: seq<Item>, item: Item, slot: Slot, c: Candidate)
    requires WellKeyed(env.db) && OnePolicyPerProfile(items) && NonNegativeSizes(env.db, items) && item in items
    requires slot.id in env.db.slots && env.db.slots[slot.id] == slot && slot.profileId == item.profile.id
    requires Busy(slot) && ProtectedCandidate(env, item, slot) == Some(c) && c.slot == slot
    ensures HasWarmCopy(Finish(Placed(env, items), items), slot.id) || !CanUse(env, Placed(env, items), item, c, true)
  {
    FixedSettles(env, items, item, slot, c);
    PlanTrace.RoundsLead(env, items);
    SettledAlong(env, items, PlanTrace.ROUNDS, item, c, Fixed(env, items), Placed(env, items));
    UsedSlotsHaveCopies(env, items, slot.id);
    FinishSame(Placed(env, items), items);
    if slot.id in Placed(env, items).slotUsed {
      CopiesKeepSlot(Finish(Placed(env, items), items), Placed(env, items), slot.id);
    }
  }

  /** A busy slot that runs a variant its policy asks for, on a node the policy admits, keeps a warm copy in
      the plan, unless in the end its node is flapping or out of budget or limits for it. */
  lemma RunningCopiesKept(db: Database, now: Time, cooldown: int, explain: bool, item: Item, s: Id, i: nat)
    requires WellKeyed(db) && PolicyPerProfile(db) && item in PolicyItems(db, now, cooldown)
    requires NonNegativeSizes(db, PolicyItems(db, now, cooldown))
    requires s in db.slots && Busy(db.slots[s]) && db.slots[s].nodeId in db.nodes
    requires Open(db.nodes[db.slots[s].nodeId], item.policy)
    requires RunsHere(item, db.nodes[db.slots[s].nodeId], db.slots[s], i)
    ensures var env := Env(db, now, explain);
            || HasWarmCopy(PlanPlacement(db, now, cooldown, explain), s)
            || !CanUse(env, Placed(env, PolicyItems(db, now, cooldown)), item,
                       RunningCopy(item, db.nodes[db.slots[s].nodeId], db.slots[s], i), true)
  {
    var env, items, slot := Env(db, now, explain), PolicyItems(db, now, cooldown), db.slots[s];
    ItemsPerProfile(db, now, cooldown);
    RunningIsProtected(env, item, slot, i);
    PlacedKeeps(env, items, item, slot, RunningCopy(item, db.nodes[slot.nodeId], slot, i));
  }
}
