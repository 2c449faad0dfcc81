/** Cache eviction: which cached artifacts the manager calls stale
    (internal/comrad/manager_cache_eviction.go), and what a worker's eviction leaves
    behind (internal/comrad/worker_cache_evict.go). */
module Eviction {
  import opened Base
  import opened Model
  import opened Fit

  // ---------- what the manager may not evict ----------

  /** One of the IDs is `x` once normalised. */
  predicate Names(ids: seq<Id>, x: Id) {
    exists id :: id in ids && NormalizeSHA256(id) == x
  }

  predicate AssignmentWants(db: Database, a: Assignment, n: Id, x: Id) {
    && a.nodeId == n && a.desiredCached && a.profileId in db.profiles
    && Names(ProfileArtifactIds(EffectiveProfileForAssignment(db.profiles[a.profileId], a)), x)
  }

  predicate UpdateWants(db: Database, u: Update, n: Id, x: Id) {
    (if u.targetNodes != [] then n in u.targetNodes else n in db.nodes) && NormalizeSHA256(u.artifactId) == x
  }

  /** One of these assignments wants the artifact cached on the node. */
  ghost predicate ByAssignment(db: Database, keys: set<Id>, n: Id, x: Id) {
    n != "" && x != "" && exists k :: k in keys && k in db.assignments && AssignmentWants(db, db.assignments[k], n, x)
  }

  ghost predicate ByUpdate(db: Database, keys: set<Id>, n: Id, x: Id) {
    n != "" && x != "" && exists k :: k in keys && k in db.updates && UpdateWants(db, db.updates[k], n, x)
  }

  /** An assignment or an update wants the artifact cached on the node. */
  ghost predicate Desired(db: Database, n: Id, x: Id) {
    ByAssignment(db, db.assignments.Keys, n, x) || ByUpdate(db, db.updates.Keys, n, x)
  }

  predicate SlotBusy(slot: Slot) {
    slot.activeTaskId != "" || slot.state == Downloading || slot.state == Loading || slot.state == Warming
    || slot.state == Serving
  }

  predicate AttemptUses(db: Database, a: Attempt, n: Id, x: Id) {
    && a.status == Running && a.nodeId == n
    && ((a.profileId in db.profiles && Names(ProfileArtifactIds(db.profiles[a.profileId]), x))
        || NormalizeSHA256(SlotAt(db, a.slotId).modelArtifactId) == x)
  }

  predicate SlotUses(db: Database, slot: Slot, n: Id, x: Id) {
    && SlotBusy(slot) && slot.nodeId == n
    && (NormalizeSHA256(slot.modelArtifactId) == x
        || (slot.profileId in db.profiles && Names(ProfileArtifactIds(db.profiles[slot.profileId]), x)))
  }

  ghost predicate ByAttempt(db: Database, keys: set<Id>, n: Id, x: Id) {
    n != "" && x != "" && exists k :: k in keys && k in db.attempts && AttemptUses(db, db.attempts[k], n, x)
  }

  ghost predicate BySlot(db: Database, keys: set<Id>, n: Id, x: Id) {
    n != "" && x != "" && exists k :: k in keys && k in db.slots && SlotUses(db, db.slots[k], n, x)
  }

  ghost predicate ByServing(db: Database, keys: set<Id>, n: Id, x: Id) {
    n != "" && x != "" && exists k :: k in keys && k in db.slots && ServesModel(db.slots[k], n, x)
  }

  /** A running attempt or a busy slot on the node uses the artifact. */
  ghost predicate Busy(db: Database, n: Id, x: Id) {
    ByAttempt(db, db.attempts.Keys, n, x) || BySlot(db, db.slots.Keys, n, x)
  }

  function CacheIntentId(n: Id, x: Id): Id {
    FoldSeparators(n + "_" + NormalizeSHA256(x))
  }

  predicate MarkedKeep(db: Database, n: Id, x: Id) {
    CacheIntentId(n, x) in db.cacheIntents && db.cacheIntents[CacheIntentId(n, x)] == Keep
  }

  // ---------- the set-building loops ----------

  /** The map of sets holds artifact `x` for node `n`. */
  predicate Has(out: map<Id, set<Id>>, n: Id, x: Id) {
    x in GetSet(out, n)
  }

  method AddArtifact(out: map<Id, set<Id>>, nodeId: Id, artifactId: Id) returns (r: map<Id, set<Id>>)
    ensures forall n, x :: Has(r, n, x) <==>
              Has(out, n, x) || (n == nodeId && n != "" && x != "" && NormalizeSHA256(artifactId) == x)
  {
    var x := NormalizeSHA256(artifactId);
    if nodeId == "" || x == "" {
      return out;
    }
    r := out[nodeId := GetSet(out, nodeId) + {x}];
  }

  method AddArtifacts(out: map<Id, set<Id>>, nodeId: Id, ids: seq<Id>) returns (r: map<Id, set<Id>>)
    ensures forall n, x :: Has(r, n, x) <==> Has(out, n, x) || (n == nodeId && n != "" && x != "" && Names(ids, x))
  {
    r := out;
    for i := 0 to |ids|
      invariant forall n, x :: Has(r, n, x) <==>
                Has(out, n, x) || (n == nodeId && n != "" && x != "" && Names(ids[..i], x))
    {
      ghost var before := r;
      r := AddArtifact(r, nodeId, ids[i]);
      NamesNext(ids, i);
    }
    assert ids[..|ids|] == ids;
  }

  lemma NamesNext(ids: seq<Id>, i: nat)
    requires i < |ids|
    ensures forall x :: Names(ids[..i + 1], x) <==> Names(ids[..i], x) || NormalizeSHA256(ids[i]) == x
  {
    assert ids[..i + 1] == ids[..i] + [ids[i]];
  }

  method AddUpdateTargets(out: map<Id, set<Id>>, targets: set<Id>, artifactId: Id) returns (r: map<Id, set<Id>>)
    ensures forall n, x :: Has(r, n, x) <==>
              Has(out, n, x) || (n in targets && n != "" && x != "" && NormalizeSHA256(artifactId) == x)
  {
    r := out;
    var todo := targets;
    while todo != {}
      invariant todo <= targets
      invariant forall n, x :: Has(r, n, x) <==>
                  Has(out, n, x) || (n in targets - todo && n != "" && x != "" && NormalizeSHA256(artifactId) == x)
      decreases |todo|
    {
      var n :| n in todo;
      todo := todo - {n};
      r := AddArtifact(r, n, artifactId);
    }
  }

  method AddAssignment(db: Database, out: map<Id, set<Id>>, a: Assignment) returns (r: map<Id, set<Id>>)
    ensures forall n, x :: Has(r, n, x) <==> Has(out, n, x) || (n != "" && x != "" && AssignmentWants(db, a, n, x))
  {
    if a.nodeId == "" || !a.desiredCached || a.profileId !in db.profiles {
      return out;
    }
    r := AddArtifacts(out, a.nodeId, ProfileArtifactIds(EffectiveProfileForAssignment(db.profiles[a.profileId], a)));
  }

  method AddUpdate(db: Database, out: map<Id, set<Id>>, u: Update) returns (r: map<Id, set<Id>>)
    ensures forall n, x :: Has(r, n, x) <==> Has(out, n, x) || (n != "" && x != "" && UpdateWants(db, u, n, x))
  {
    var targets := if u.targetNodes != [] then (set n | n in u.targetNodes) else db.nodes.Keys;
    r := AddUpdateTargets(out, targets, u.artifactId);
  }

  method DesiredArtifactsByNode(db: Database) returns (out: map<Id, set<Id>>)
    ensures forall n, x :: Has(out, n, x) <==> Desired(db, n, x)
  {
    out := map[];
    var todo := db.assignments.Keys;
    while todo != {}
      invariant todo <= db.assignments.Keys
      invariant forall n, x :: Has(out, n, x) <==> ByAssignment(db, db.assignments.Keys - todo, n, x)
      decreases |todo|
    {
      var k :| k in todo;
      todo := todo - {k};
      out := AddAssignment(db, out, db.assignments[k]);
    }
    ghost var wanted := out;
    todo := db.updates.Keys;
    while todo != {}
      invariant todo <= db.updates.Keys
      invariant forall n, x :: Has(out, n, x) <==> Has(wanted, n, x) || ByUpdate(db, db.updates.Keys - todo, n, x)
      decreases |todo|
    {
      var k :| k in todo;
      todo := todo - {k};
      out := AddUpdate(db, out, db.updates[k]);
    }
  }

  method AddAttempt(db: Database, out: map<Id, set<Id>>, a: Attempt) returns (r: map<Id, set<Id>>)
    ensures forall n, x :: Has(r, n, x) <==> Has(out, n, x) || (n != "" && x != "" && AttemptUses(db, a, n, x))
  {
    if a.status != Running {
      return out;
    }
    r := out;
    if a.profileId in db.profiles {
      r := AddArtifacts(r, a.nodeId, ProfileArtifactIds(db.profiles[a.profileId]));
    }
    r := AddArtifact(r, a.nodeId, SlotAt(db, a.slotId).modelArtifactId);
  }

  method AddSlot(db: Database, out: map<Id, set<Id>>, slot: Slot) returns (r: map<Id, set<Id>>)
    ensures forall n, x :: Has(r, n, x) <==> Has(out, n, x) || (n != "" && x != "" && SlotUses(db, slot, n, x))
  {
    if !SlotBusy(slot) {
      return out;
    }
    r := AddArtifact(out, slot.nodeId, slot.modelArtifactId);
    if slot.profileId in db.profiles {
      r := AddArtifacts(r, slot.nodeId, ProfileArtifactIds(db.profiles[slot.profileId]));
    }
  }

  /** `activeArtifactsByNode`: running attempts, and the models of serving slots. */
  method ActiveArtifactsByNode(db: Database) returns (out: map<Id, set<Id>>)
    ensures forall n, x :: Has(out, n, x) <==>
              ByAttempt(db, db.attempts.Keys, n, x) || ByServing(db, db.slots.Keys, n, x)
  {
    out := map[];
    var todo := db.attempts.Keys;
    while todo != {}
      invariant todo <= db.attempts.Keys
      invariant forall n, x :: Has(out, n, x) <==> ByAttempt(db, db.attempts.Keys - todo, n, x)
      decreases |todo|
    {
      var k :| k in todo;
      todo := todo - {k};
      out := AddAttempt(db, out, db.attempts[k]);
    }
    ghost var attempted := out;
    todo := db.slots.Keys;
    while todo != {}
      invariant todo <= db.slots.Keys
      invariant forall n, x :: Has(out, n, x) <==> Has(attempted, n, x) || ByServing(db, db.slots.Keys - todo, n, x)
      decreases |todo|
    {
      var k :| k in todo;
      todo := todo - {k};
      if db.slots[k].state == Serving {
        out := AddArtifact(out, db.slots[k].nodeId, db.slots[k].modelArtifactId);
      }
    }
  }

  predicate ServesModel(slot: Slot, n: Id, x: Id) {
    slot.state == Serving && slot.nodeId == n && NormalizeSHA256(slot.modelArtifactId) == x
  }

  method EvictionBusyArtifactsByNode(db: Database) returns (out: map<Id, set<Id>>)
    ensures forall n, x :: Has(out, n, x) <==> Busy(db, n, x)
  {
    out := ActiveArtifactsByNode(db);
    ghost var active := out;
    var todo := db.slots.Keys;
    while todo != {}
      invariant todo <= db.slots.Keys
      invariant forall n, x :: Has(out, n, x) <==> Has(active, n, x) || BySlot(db, db.slots.Keys - todo, n, x)
      decreases |todo|
    {
      var k :| k in todo;
      todo := todo - {k};
      out := AddSlot(db, out, db.slots[k]);
    }
    forall k, n, x | k in db.slots && ServesModel(db.slots[k], n, x) ensures SlotUses(db, db.slots[k], n, x) {
    }
  }

  // ---------- stale artifacts ----------

  datatype Target = Target(nodeId: Id, artifactId: Id, reason: string)

  /** `staleEvictionReason`. */
  function StaleReason(db: Database, n: Id, x: Id): string {
    var id := CacheIntentId(n, x);
    if id in db.cacheIntents && db.cacheIntents[id] == EvictWhenIdle then "admin_requested_idle" else ""
  }

  /** Cached on a node with this ID, and neither desired, nor busy, nor marked keep there. */
  ghost predicate Stale(db: Database, t: Target) {
    && (exists k :: k in db.nodes && db.nodes[k].id == t.nodeId && Names(db.nodes[k].cachedArtifacts, t.artifactId))
    && t.artifactId != "" && !Desired(db, t.nodeId, t.artifactId) && !Busy(db, t.nodeId, t.artifactId)
    && !MarkedKeep(db, t.nodeId, t.artifactId)
    && t.reason == StaleReason(db, t.nodeId, t.artifactId)
  }

  /** An artifact of this list on this node that nothing speaks for. */
  predicate StaleOn(db: Database, allowed: map<Id, set<Id>>, busy: map<Id, set<Id>>, n: Id, ids: seq<Id>, t: Target) {
    && t.nodeId == n && Names(ids, t.artifactId) && t.artifactId != ""
    && !Has(allowed, n, t.artifactId) && !Has(busy, n, t.artifactId) && !MarkedKeep(db, n, t.artifactId)
    && t.reason == StaleReason(db, n, t.artifactId)
  }

  method StaleOnNode(db: Database, allowed: map<Id, set<Id>>, busy: map<Id, set<Id>>, node: Node, before: seq<Target>)
    returns (targets: seq<Target>)
    ensures forall t :: t in targets <==> t in before || StaleOn(db, allowed, busy, node.id, node.cachedArtifacts, t)
  {
    var ids := node.cachedArtifacts;
    targets := before;
    for i := 0 to |ids|
      invariant forall t :: t in targets <==> t in before || StaleOn(db, allowed, busy, node.id, ids[..i], t)
    {
      NamesNext(ids, i);
      var x := NormalizeSHA256(ids[i]);
      if x == "" || x in GetSet(allowed, node.id) || x in GetSet(busy, node.id) || MarkedKeep(db, node.id, x) {
        continue;
      }
      targets := targets + [Target(node.id, x, StaleReason(db, node.id, x))];
    }
    assert ids[..|ids|] == ids;
  }

  /** The manager's stale targets are exactly the cached artifacts nothing speaks for. */
  method StaleArtifactEvictions(db: Database) returns (targets: seq<Target>)
    ensures forall t :: t in targets <==> Stale(db, t)
  {
    var allowed := DesiredArtifactsByNode(db);
    var busy := EvictionBusyArtifactsByNode(db);
    targets := [];
    var todo := db.nodes.Keys;
    while todo != {}
      invariant todo <= db.nodes.Keys
      invariant forall t :: t in targets <==>
                  exists k :: k in db.nodes && k !in todo
                              && StaleOn(db, allowed, busy, db.nodes[k].id, db.nodes[k].cachedArtifacts, t)
      decreases |todo|
    {
      var k :| k in todo;
      todo := todo - {k};
      targets := StaleOnNode(db, allowed, busy, db.nodes[k], targets);
    }
    forall t ensures t in targets <==> Stale(db, t) {
      assert Has(allowed, t.nodeId, t.artifactId) <==> Desired(db, t.nodeId, t.artifactId);
      assert Has(busy, t.nodeId, t.artifactId) <==> Busy(db, t.nodeId, t.artifactId);
    }
  }

  /** The slot works: it has a task, or is downloading, loading, warming or serving. */
  predicate Works(slot: Slot) {
    || slot.activeTaskId != "" || slot.state == Downloading || slot.state == Loading || slot.state == Warming
    || slot.state == Serving
  }

  /** No eviction target is in use or wanted: not the model or a profile artifact of a working slot on the node,
      not an artifact of a running attempt's profile or its slot's model, not an artifact of a variant assigned to
      be cached there, not an update's for that node, and not one an administrator asked to keep. */
  lemma EvictionSpares(db: Database, t: Target)
    requires Stale(db, t) && t.nodeId != ""
    ensures forall k :: k in db.slots && Works(db.slots[k]) && db.slots[k].nodeId == t.nodeId ==>
              && NormalizeSHA256(db.slots[k].modelArtifactId) != t.artifactId
              && (db.slots[k].profileId in db.profiles ==>
                    !Names(ProfileArtifactIds(db.profiles[db.slots[k].profileId]), t.artifactId))
    ensures forall k :: k in db.attempts && db.attempts[k].status == Running && db.attempts[k].nodeId == t.nodeId ==>
              && NormalizeSHA256(SlotAt(db, db.attempts[k].slotId).modelArtifactId) != t.artifactId
              && (db.attempts[k].profileId in db.profiles ==>
                    !Names(ProfileArtifactIds(db.profiles[db.attempts[k].profileId]), t.artifactId))
    ensures forall k :: k in db.assignments && db.assignments[k].profileId in db.profiles ==>
              db.assignments[k].nodeId == t.nodeId && db.assignments[k].desiredCached ==>
              !Names(ProfileArtifactIds(EffectiveProfileForAssignment(
                       db.profiles[db.assignments[k].profileId], db.assignments[k])), t.artifactId)
    ensures forall k :: k in db.updates ==>
              t.nodeId in db.updates[k].targetNodes || (db.updates[k].targetNodes == [] && t.nodeId in db.nodes) ==>
              NormalizeSHA256(db.updates[k].artifactId) != t.artifactId
    ensures forall id :: id in db.cacheIntents && db.cacheIntents[id] == Keep ==>
              id != FoldSeparators(t.nodeId + "_" + NormalizeSHA256(t.artifactId))
  {
    forall k | k in db.slots && Works(db.slots[k]) && db.slots[k].nodeId == t.nodeId
      ensures !SlotUses(db, db.slots[k], t.nodeId, t.artifactId)
    {
    }
  }

  // ---------- the worker's half ----------

  /** `AssignmentPayload`: what the manager asked a worker to hold. */
  datatype Payload = Payload(profile: Profile, artifacts: seq<Id>)

  predicate ProfileUses(p: Profile, x: Id) {
    Names(ProfileArtifactIds(p), x)
  }

  predicate PayloadUses(p: Payload, x: Id) {
    ProfileUses(p.profile, x) || Names(p.artifacts, x)
  }

  predicate SlotNeeds(slot: Slot, assigns: map<Id, Payload>, warm: map<Id, Profile>, x: Id) {
    || NormalizeSHA256(slot.modelArtifactId) == x || NormalizeSHA256(slot.modelSha256) == x
    || (exists k :: k in assigns && assigns[k].profile.id == slot.profileId && PayloadUses(assigns[k], x))
    || (exists k :: k in warm && warm[k].id == slot.profileId && ProfileUses(warm[k], x))
  }

  function ClearedSlot(slot: Slot): Slot {
    slot.(state := Idle, profileId := "", profileVersion := 0, logicalModel := "", runtimeVariantId := "",
          modelArtifactId := "", modelSha256 := "", activeTaskId := "", acceptsNew := false,
          mismatchReason := "artifact_evicted", lastReady := 0)
  }

  /** What an eviction will change: the slots to clear and the keys of assignments and warm profiles to drop. */
  datatype Plan = Plan(slotIds: set<Id>, keys: set<Id>)

  class EvictingWorker {
    var cache: map<Id, string>
    var slots: map<Id, Slot>
    var assigns: map<Id, Payload>
    var warm: map<Id, Profile>
    var runtimes: set<Id>

    predicate Needs(k: Id, x: Id)
      reads this
    {
      k in slots && SlotNeeds(slots[k], assigns, warm, x)
    }

    /** The assignment or the warm profile under this key uses the artifact. */
    predicate KeyUses(k: Id, x: Id)
      reads this
    {
      (k in assigns && PayloadUses(assigns[k], x)) || (k in warm && ProfileUses(warm[k], x))
    }

    /** A slot that uses the artifact is serving or has a task. */
    ghost predicate InUse(x: Id)
      reads this
    {
      exists k :: Needs(k, x) && (slots[k].state == Serving || slots[k].activeTaskId != "")
    }

    /** `planArtifactEviction`. */
    method PlanEviction(x: Id) returns (ok: bool, plan: Plan)
      ensures ok <==> !InUse(x)
      ensures ok ==> forall k :: k in plan.slotIds <==> Needs(k, x)
      ensures ok ==> forall k :: k in plan.keys <==> KeyUses(k, x)
    {
      var slotIds, keys: set<Id> := {}, {};
      var todo := slots.Keys;
      while todo != {}
        invariant todo <= slots.Keys
        invariant forall k :: k in slotIds <==> Needs(k, x) && k !in todo
        invariant forall k :: Needs(k, x) && k !in todo ==> slots[k].state != Serving && slots[k].activeTaskId == ""
        decreases |todo|
      {
        var k :| k in todo;
        todo := todo - {k};
        if !SlotNeeds(slots[k], assigns, warm, x) {
          continue;
        }
        if slots[k].state == Serving || slots[k].activeTaskId != "" {
          assert Needs(k, x);
          return false, Plan({}, {});
        }
        slotIds := slotIds + {k};
      }
      keys := PlanKeys(x);
      return true, Plan(slotIds, keys);
    }

    method PlanKeys(x: Id) returns (keys: set<Id>)
      ensures forall k :: k in keys <==> KeyUses(k, x)
    {
      keys := {};
      var todo := assigns.Keys;
      while todo != {}
        invariant todo <= assigns.Keys
        invariant forall k :: k in keys <==> k in assigns && k !in todo && PayloadUses(assigns[k], x)
        decreases |todo|
      {
        var k :| k in todo;
        todo := todo - {k};
        if PayloadUses(assigns[k], x) {
          keys := keys + {k};
        }
      }
      todo := warm.Keys;
      while todo != {}
        invariant todo <= warm.Keys
        invariant forall k :: k in keys <==>
                    (k in assigns && PayloadUses(assigns[k], x)) || (k in warm && k !in todo && ProfileUses(warm[k], x))
        decreases |todo|
      {
        var k :| k in todo;
        todo := todo - {k};
        if ProfileUses(warm[k], x) && k !in keys {
          keys := keys + {k};
        }
      }
    }

    /** `applyArtifactEviction`. */
    method ApplyEviction(x: Id, plan: Plan)
      requires plan.slotIds <= slots.Keys
      modifies this
      ensures cache == old(cache) - {x} && assigns == old(assigns) - plan.keys && warm == old(warm) - plan.keys
      ensures runtimes == old(runtimes) - plan.slotIds && slots.Keys == old(slots.Keys)
      ensures forall k :: k in slots ==>
                slots[k] == if k in plan.slotIds then ClearedSlot(old(slots)[k]) else old(slots)[k]
    {
      cache := cache - {x};
      assigns, warm := assigns - plan.keys, warm - plan.keys;
      runtimes := runtimes - plan.slotIds;
      ClearSlots(plan.slotIds);
    }

    method ClearSlots(ids: set<Id>)
      requires ids <= slots.Keys
      modifies this`slots
      ensures slots.Keys == old(slots.Keys)
      ensures forall k :: k in slots ==> slots[k] == if k in ids then ClearedSlot(old(slots)[k]) else old(slots)[k]
    {
      ghost var before := slots;
      var todo := ids;
      while todo != {}
        invariant todo <= ids && slots.Keys == before.Keys
        invariant forall k :: k in slots ==>
                    slots[k] == if k in ids && k !in todo then ClearedSlot(before[k]) else before[k]
        decreases |todo|
      {
        var k :| k in todo;
        todo := todo - {k};
        slots := slots[k := ClearedSlot(slots[k])];
      }
    }

    /** Planning and applying as one critical section. It refuses exactly when a slot that uses
        the artifact is serving or has a task; otherwise nothing on the worker uses the artifact
        afterwards, and slots that did not use it are untouched. */
    method Evict(x: Id) returns (ok: bool)
      requires x != ""
      modifies this
      ensures ok <==> !old(InUse(x))
      ensures !ok ==>
                cache == old(cache) && slots == old(slots) && assigns == old(assigns) && warm == old(warm)
                && runtimes == old(runtimes)
      ensures ok ==> x !in cache && slots.Keys == old(slots.Keys)
      ensures ok ==> forall k :: k in slots ==> !Needs(k, x)
      ensures ok ==> forall k :: k in assigns ==> !PayloadUses(assigns[k], x)
      ensures ok ==> forall k :: k in warm ==> !ProfileUses(warm[k], x)
      ensures ok ==> forall k :: k in old(assigns) && !old(KeyUses(k, x)) ==>
                k in assigns && assigns[k] == old(assigns)[k]
      ensures ok ==> forall k :: k in old(warm) && !old(KeyUses(k, x)) ==> k in warm && warm[k] == old(warm)[k]
      ensures ok ==> forall k :: k in slots ==>
                slots[k] == if old(Needs(k, x)) then ClearedSlot(old(slots)[k]) else old(slots)[k]
    {
      var plan;
      ok, plan := PlanEviction(x);
      if !ok {
        return;
      }
      ghost var slots0, assigns0, warm0 := slots, assigns, warm;
      ApplyEviction(x, plan);
      forall k | k in slots ensures !Needs(k, x) {
        NothingNeeds(slots0[k], slots[k], assigns0, warm0, assigns, warm, x);
      }
    }
  }

  /** Once no assignment and no warm profile uses the artifact, neither a cleared slot nor one that
      did not use it does. */
  lemma NothingNeeds(slot: Slot, slot': Slot, assigns: map<Id, Payload>, warm: map<Id, Profile>,
                     assigns': map<Id, Payload>, warm': map<Id, Profile>, x: Id)
    requires x != "" && slot' == if SlotNeeds(slot, assigns, warm, x) then ClearedSlot(slot) else slot
    requires forall k :: k in assigns' ==> !PayloadUses(assigns'[k], x)
    requires forall k :: k in warm' ==> !ProfileUses(warm'[k], x)
    ensures !SlotNeeds(slot', assigns', warm', x)
  {
    assert NormalizeSHA256("") == "";
  }
}
