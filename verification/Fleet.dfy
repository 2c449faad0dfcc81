/** What nodes and slots look like after the steps that concern no task: expiry and lifting of
    quarantines, registration, slot messages, a node that goes down, a node that is deleted. */
module Fleet {
  import opened Base
  import opened Model
  import opened Handlers
  import opened Protocol
  import opened Reservations
  import opened Outcomes
  import opened Accounting

  // ---------- quarantines that end ----------

  /** The ban is lifted; a ready slot without a task takes work again, without a remark. */
  predicate Lifted(a: Slot, b: Slot) {
    && !b.quarantined && b.quarantineReason == "" && b.quarantineUntil == None
    && (if a.state == Ready && a.activeTaskId == "" then b.acceptsNew && b.mismatchReason == ""
        else b.acceptsNew == a.acceptsNew && b.mismatchReason == a.mismatchReason)
    && b.id == a.id && b.nodeId == a.nodeId && b.state == a.state && b.activeTaskId == a.activeTaskId
    && b.profileId == a.profileId && b.failureCount == a.failureCount && b.failureCounters == a.failureCounters
  }

  predicate LiftedNode(a: Node, b: Node) {
    b == a.(quarantined := false, quarantineReason := "", quarantineUntil := None)
  }

  /** A ban with an end that is now or past. */
  predicate Over(quarantined: bool, until: Option<Time>, now: Time) {
    quarantined && until.Some? && until.value <= now
  }

  predicate ExpiredTo(a: Slot, b: Slot, now: Time) {
    if Over(a.quarantined, a.quarantineUntil, now) then Lifted(a, b) else b == a
  }

  predicate NodeExpiredTo(a: Node, b: Node, now: Time) {
    if Over(a.quarantined, a.quarantineUntil, now) then LiftedNode(a, b) else b == a
  }

  lemma OneExpired(slot: Slot, node: Node, now: Time)
    ensures ExpiredTo(slot, ExpireSlot(now)(slot), now) && NodeExpiredTo(node, ExpireNode(now)(node), now)
  {
  }

  /** Exactly the bans that are over are lifted: afterwards none is, and all other slots and nodes are as before. */
  ghost predicate BansExpired(db: Database, db': Database, now: Time) {
    && db' == db.(nodes := db'.nodes, slots := db'.slots)
    && db'.slots.Keys == db.slots.Keys && db'.nodes.Keys == db.nodes.Keys
    && (forall k :: k in db.slots ==> ExpiredTo(db.slots[k], db'.slots[k], now))
    && (forall k :: k in db.nodes ==> NodeExpiredTo(db.nodes[k], db'.nodes[k], now))
  }

  lemma ExpiryIs(db: Database, now: Time)
    ensures BansExpired(db, ClearExpired(db, now), now)
  {
    forall k | k in db.slots ensures ExpiredTo(db.slots[k], ClearExpired(db, now).slots[k], now) {
      OneExpired(db.slots[k], ZERO_NODE, now);
    }
    forall k | k in db.nodes ensures NodeExpiredTo(db.nodes[k], ClearExpired(db, now).nodes[k], now) {
      OneExpired(ZERO_SLOT, db.nodes[k], now);
    }
  }

  lemma UnbanIs(db: Database, id: Id)
    requires id in db.slots && db.slots[id].id == id
    ensures var db' := UnbanSlot(db, id);
            SameBut(db.slots, db'.slots, id) && Lifted(db.slots[id], db'.slots[id]) && db' == db.(slots := db'.slots)
  {
  }

  // ---------- a node goes down ----------

  predicate Dark(a: Slot, b: Slot) {
    && b.state == Unavailable && !b.acceptsNew && b.mismatchReason == "worker_disconnected"
    && b.id == a.id && b.nodeId == a.nodeId && b.activeTaskId == a.activeTaskId && b.profileId == a.profileId
    && SameFailureState(a, b)
  }

  /** Exactly the node's own slots that are not serving go down with it, and the node is offline
      without a session. */
  ghost predicate WentDown(db: Database, db': Database, node: Node) {
    && db' == db.(nodes := db'.nodes, slots := db'.slots) && db'.slots.Keys == db.slots.Keys
    && SameBut(db.nodes, db'.nodes, node.id)
    && db'.nodes[node.id] == node.(state := Offline, connectedSession := "")
    && forall k :: k in db.slots ==>
         if db.slots[k].nodeId == node.id && db.slots[k].state != Serving then Dark(db.slots[k], db'.slots[k])
         else db'.slots[k] == db.slots[k]
  }

  lemma NodeDownIs(db: Database, node: Node)
    ensures WentDown(db, NodeDown(db, node), node)
  {
  }

  /** None of its slots can then be reserved. */
  lemma DownIsClosed(db: Database, node: Node, s: Id, t: Id, profileId: Id, variantId: Id)
    requires s in db.slots && db.slots[s].nodeId == node.id
    ensures !Reservable(NodeDown(db, node), t, profileId, variantId, s)
  {
    NodeDownIs(db, node);
  }

  // ---------- a node is deleted ----------

  /** With the node go its slots and its assignments, and nothing else. */
  lemma NodeDeleted(db: Database, id: Id)
    ensures var db' := DeleteNode(db, id);
            && db' == db.(nodes := db'.nodes, slots := db'.slots, assignments := db'.assignments)
            && (forall k :: k in db'.nodes <==> k in db.nodes && k != id)
            && (forall k :: k in db'.nodes ==> db'.nodes[k] == db.nodes[k])
            && (forall k :: k in db'.slots <==> k in db.slots && db.slots[k].nodeId != id)
            && (forall k :: k in db'.slots ==> db'.slots[k] == db.slots[k])
            && (forall k :: k in db'.assignments <==> k in db.assignments && db.assignments[k].nodeId != id)
            && (forall k :: k in db'.assignments ==> db'.assignments[k] == db.assignments[k])
  {
  }

  /** An online node is not deleted. */
  lemma OnlineNodeStays(db: Database, id: Id, now: Time)
    requires id in db.nodes && db.nodes[id].state == Online
    ensures AdminDb(db, RemoveNode(id), now) == db
  {
  }

  // ---------- messages about slots ----------

  /** A message about a slot that is not the sender's, or about an attempt that is not, changes nothing. */
  lemma ForeignMessagesChangeNothing(sys: Sys, nodeId: Id, m: Message, p: SlotReport, now: Time, cfg: Config)
    ensures AttemptAt(sys.db, MessageAttempt(m)).nodeId != nodeId ==>
              WorkerDb(sys, Deliver(nodeId, m), now, cfg) == sys.db
    ensures SlotAt(sys.db, p.slotId).nodeId != nodeId ==> WorkerDb(sys, SlotState(nodeId, p), now, cfg) == sys.db
  {
  }

  /** What the worker said of the slot, with the version, names and model of before where it said nothing. */
  predicate AsSaid(a: Slot, b: Slot, p: SlotReport, now: Time) {
    && b.id == a.id && b.nodeId == a.nodeId && b.state == p.state && b.profileId == p.profileId
    && b.activeTaskId == p.activeTaskId
    && b.profileVersion == (if p.profileVersion > 0 then p.profileVersion else a.profileVersion)
    && b.runtimeVariantId == (if p.runtimeVariantId != "" then p.runtimeVariantId else a.runtimeVariantId)
    && b.logicalModel == (if p.logicalModel != "" then p.logicalModel else a.logicalModel)
    && b.modelArtifactId == (if p.modelArtifactId != "" then p.modelArtifactId else a.modelArtifactId)
    && b.modelSha256 == (if p.modelSha256 != "" then p.modelSha256 else a.modelSha256)
    && (b.acceptsNew <==> p.state == Ready && !a.quarantined) && SameFailureState(a, b)
    && b.mismatchReason == (if a.quarantined then "quarantined: " + a.quarantineReason else p.mismatchReason)
    && (p.state == Ready ==> b.lastReady == now)
  }

  lemma SlotStateIs(sys: Sys, nodeId: Id, p: SlotReport, now: Time, cfg: Config)
    requires p.slotId in sys.db.slots && sys.db.slots[p.slotId].id == p.slotId && p.slotId != ""
    requires sys.db.slots[p.slotId].nodeId == nodeId
    ensures var db' := WorkerDb(sys, SlotState(nodeId, p), now, cfg);
            && SameBut(sys.db.slots, db'.slots, p.slotId)
            && AsSaid(sys.db.slots[p.slotId], db'.slots[p.slotId], p, now) && db' == sys.db.(slots := db'.slots)
  {
  }

  // ---------- registration ----------

  /** The slot as the worker registered it, on its node; failures and bans are those on record, less
      a ban that is over, and a banned slot takes no work. */
  predicate Registered(slot: Slot, node: Node, stored: Slot, b: Slot, now: Time) {
    && b.nodeId == node.id && b.failureCount == stored.failureCount && b.failureCounters == stored.failureCounters
    && b.state == (if slot.state == OtherSlotState("") then Idle else slot.state)
    && b.activeTaskId == slot.activeTaskId
    && b.profileId == (if slot.profileId != "" then slot.profileId else stored.profileId)
    && b.runtimeVariantId == (if slot.runtimeVariantId != "" then slot.runtimeVariantId else stored.runtimeVariantId)
    && (if Over(stored.quarantined, stored.quarantineUntil, now) then !b.quarantined
        else b.quarantined == stored.quarantined && b.quarantineUntil == stored.quarantineUntil
             && b.quarantineReason == stored.quarantineReason)
    && (b.acceptsNew <==> b.state == Ready && !b.quarantined)
  }

  function SlotIdOf(slot: Slot, node: Node): Id {
    if slot.id == "" then node.id + "/slot0" else slot.id
  }

  predicate Mentions(reported: seq<Slot>, node: Node, k: Id) {
    exists i :: 0 <= i < |reported| && SlotIdOf(reported[i], node) == k
  }

  lemma MergedIs(slot: Slot, node: Node, target: string, stored: Slot, now: Time)
    ensures var incoming := NormalizedSlot(slot, node, target);
            && incoming.id == SlotIdOf(slot, node) && MergedSlot(incoming, stored, now).id == incoming.id
            && Registered(slot, node, stored, MergedSlot(incoming, stored, now), now)
  {
  }

  lemma OneRegistered(slots: map<Id, Slot>, node: Node, target: string, slot: Slot, now: Time)
    ensures var slots', k := RegisterSlot(node, target, now)(slots, slot), SlotIdOf(slot, node);
            SameBut(slots, slots', k)
            && Registered(slot, node, if k in slots then slots[k] else ZERO_SLOT, slots'[k], now)
            && slots'[k].id == k
  {
    var k := SlotIdOf(slot, node);
    MergedIs(slot, node, target, if k in slots then slots[k] else ZERO_SLOT, now);
  }

  /** Slots the worker does not mention stay as they were; each one it mentions once is registered. */
  lemma {:induction false} RegistrationIs(
      slots: map<Id, Slot>, node: Node, target: string, reported: seq<Slot>, now: Time, k: Id)
    ensures var slots' := RegisterSlots(slots, node, target, reported, now);
            && (k in slots' <==> k in slots || Mentions(reported, node, k))
            && (k in slots && !Mentions(reported, node, k) ==> slots'[k] == slots[k])
    decreases |reported|
  {
    if reported != [] {
      var slot, rest := reported[0], reported[1..];
      assert reported == [slot] + rest;
      OneRegistered(slots, node, target, slot, now);
      RegistrationIs(RegisterSlot(node, target, now)(slots, slot), node, target, rest, now, k);
      MentionsTail(reported, node, k);
    }
  }

  lemma MentionsTail(reported: seq<Slot>, node: Node, k: Id)
    requires reported != []
    ensures Mentions(reported, node, k) <==> SlotIdOf(reported[0], node) == k || Mentions(reported[1..], node, k)
  {
    if SlotIdOf(reported[0], node) == k {
      assert Mentions(reported, node, k);
    }
    if Mentions(reported[1..], node, k) {
      var i :| 0 <= i < |reported[1..]| && SlotIdOf(reported[1..][i], node) == k;
      assert reported[i + 1] == reported[1..][i];
    }
    if Mentions(reported, node, k) {
      var i :| 0 <= i < |reported| && SlotIdOf(reported[i], node) == k;
      if i > 0 {
        assert reported[1..][i - 1] == reported[i];
      }
    }
  }

  lemma {:induction false} RegisteredOnce(
      slots: map<Id, Slot>, node: Node, target: string, reported: seq<Slot>, now: Time, i: nat)
    requires i < |reported|
    requires forall j :: 0 <= j < |reported| && j != i ==> SlotIdOf(reported[j], node) != SlotIdOf(reported[i], node)
    ensures var slots', k := RegisterSlots(slots, node, target, reported, now), SlotIdOf(reported[i], node);
            && k in slots' && slots'[k].id == k
            && Registered(reported[i], node, if k in slots then slots[k] else ZERO_SLOT, slots'[k], now)
    decreases |reported|
  {
    var slot, rest, k := reported[0], reported[1..], SlotIdOf(reported[i], node);
    OneRegistered(slots, node, target, slot, now);
    var next := RegisterSlot(node, target, now)(slots, slot);
    if i == 0 {
      forall j | 0 <= j < |rest| ensures SlotIdOf(rest[j], node) != k {
        assert rest[j] == reported[j + 1];
      }
      RegistrationIs(next, node, target, rest, now, k);
    } else {
      assert rest[i - 1] == reported[i];
      forall j | 0 <= j < |rest| && j != i - 1 ensures SlotIdOf(rest[j], node) != k {
        assert rest[j] == reported[j + 1];
      }
      RegisteredOnce(next, node, target, rest, now, i - 1);
    }
  }
}
