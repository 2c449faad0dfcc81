/** Quarantine over whole runs: a quarantined slot serves no reservation before its time,
    the time never moves earlier, and failure counts are the sum of their counters. */
module Quarantine {
  import opened Base
  import opened Traces
  import opened Totals
  import opened Model
  import opened Accounting
  import opened Handlers
  import Flap
  import opened Protocol

  // ---------- one slot ----------

  function Same(): int -> int {
    (n: int) => n
  }

  /** Counters add up, and no quarantine lasts longer than its duration from now. */
  ghost predicate Sound(slot: Slot, clock: Time, cfg: Config) {
    && slot.failureCount == Total(slot.failureCounters, Same())
    && (slot.quarantined ==> slot.quarantineUntil.Some? && slot.quarantineUntil.value <= clock + Duration(cfg))
  }

  predicate SameFailures(a: Slot, b: Slot) {
    && b.failureCount == a.failureCount && b.failureCounters == a.failureCounters
    && b.quarantined == a.quarantined && b.quarantineUntil == a.quarantineUntil
  }

  predicate Counts(a: Slot, b: Slot, why: string) {
    b.failureCount == a.failureCount + 1
    && b.failureCounters == a.failureCounters[why := Get(a.failureCounters, why) + 1]
  }

  ghost predicate Fails(a: Slot, b: Slot, now: Time, cfg: Config) {
    && (exists why :: Counts(a, b, why))
    && (if b.quarantined && b.quarantineUntil == Some(now + Duration(cfg)) then true
        else b.quarantined == a.quarantined && b.quarantineUntil == a.quarantineUntil)
  }

  predicate Freed(a: Slot, b: Slot) {
    b.failureCount == a.failureCount && b.failureCounters == a.failureCounters && !b.quarantined
  }

  /** What any step may do to a slot's failures and quarantine. */
  ghost predicate Evolves(a: Slot, b: Slot, now: Time, cfg: Config, unban: bool) {
    SameFailures(a, b) || Fails(a, b, now, cfg) || (Freed(a, b) && (unban || QuarantineExpired(a, now)))
  }

  lemma EvolvesSound(a: Slot, b: Slot, clock: Time, now: Time, cfg: Config, unban: bool)
    requires Sound(a, clock, cfg) && Evolves(a, b, now, cfg, unban) && clock <= now
    ensures Sound(b, now, cfg)
  {
    if Fails(a, b, now, cfg) {
      var why :| Counts(a, b, why);
      if why in a.failureCounters {
        TotalUpdate(a.failureCounters, why, a.failureCounters[why] + 1, Same());
      } else {
        TotalInsert(a.failureCounters, why, 1, Same());
      }
    }
  }

  /** Quarantined at least until `until`. */
  predicate Held(slot: Slot, until: Time) {
    slot.quarantined && slot.quarantineUntil.Some? && slot.quarantineUntil.value >= until
  }

  /** A quarantine is kept, or moved later, by everything but an unban and a step at its time. */
  lemma EvolvesHeld(a: Slot, b: Slot, clock: Time, now: Time, until: Time, cfg: Config)
    requires Sound(a, clock, cfg) && Evolves(a, b, now, cfg, false) && clock <= now < until && Held(a, until)
    ensures Held(b, until)
  {
  }

  lemma FailedSlotEvolves(a: Slot, x: Slot, reason: string, now: Time, cfg: Config)
    requires SameFailures(a, x)
    ensures Evolves(a, FailedSlot(x, reason, now, cfg), now, cfg, false) && FailedSlot(x, reason, now, cfg).id == x.id
  {
    assert Counts(a, FailedSlot(x, reason, now, cfg), FailureReason(reason));
  }

  lemma ReportedSlotEvolves(a: Slot, attempt: Attempt, r: Report, now: Time, cfg: Config)
    ensures Evolves(a, ReportedSlot(a, attempt, r, now, cfg), now, cfg, false)
    ensures ReportedSlot(a, attempt, r, now, cfg).id == a.id
  {
    var idle := a.(activeTaskId := "");
    var released :=
      if a.profileId != r.profileId then idle.(state := Idle, acceptsNew := false)
      else idle.(state := Ready, acceptsNew := true,
                 mismatchReason := if r.status == Completed then "" else r.failureReason);
    FailedSlotEvolves(a, released, r.failureReason, now, cfg);
  }

  lemma MergedSlotEvolves(slot: Slot, a: Slot, now: Time, cfg: Config)
    ensures Evolves(a, MergedSlot(slot, a, now), now, cfg, false) && MergedSlot(slot, a, now).id == slot.id
  {
  }

  // ---------- all slots ----------

  function Was(slots: map<Id, Slot>, k: Id): Slot {
    if k in slots then slots[k] else ZERO_SLOT
  }

  ghost predicate SlotsSound(slots: map<Id, Slot>, clock: Time, cfg: Config) {
    forall k :: k in slots ==> slots[k].id == k && Sound(slots[k], clock, cfg)
  }

  ghost predicate HeldAt(slots: map<Id, Slot>, s: Id, until: Time) {
    s in slots && Held(slots[s], until)
  }

  /** What a step keeps of the slots: soundness, and the watched quarantine unless the step lifts it. */
  ghost predicate Kept(
      slots: map<Id, Slot>, slots': map<Id, Slot>, now: Time, cfg: Config, s: Id, until: Time, lifts: bool) {
    && SlotsSound(slots', now, cfg)
    && (HeldAt(slots, s, until) && now < until && !lifts ==> HeldAt(slots', s, until))
  }

  lemma ZeroSound(clock: Time, cfg: Config)
    ensures Sound(ZERO_SLOT, clock, cfg)
  {
  }

  lemma Later(slots: map<Id, Slot>, clock: Time, now: Time, cfg: Config, s: Id, until: Time)
    requires SlotsSound(slots, clock, cfg) && clock <= now
    ensures Kept(slots, slots, now, cfg, s, until, false)
  {
  }

  /** One slot is written. A missing slot is read as the zero slot and written back under the empty ID. */
  lemma PutKept(
      slots: map<Id, Slot>, a: Slot, b: Slot, clock: Time, now: Time, cfg: Config, unban: bool, s: Id, until: Time)
    requires SlotsSound(slots, clock, cfg) && clock <= now && s != ""
    requires a == Was(slots, b.id) || (b.id == "" && a == ZERO_SLOT)
    requires Evolves(a, b, now, cfg, unban)
    ensures Kept(slots, slots[b.id := b], now, cfg, s, until, unban && b.id == s)
  {
    ZeroSound(clock, cfg);
    EvolvesSound(a, b, clock, now, cfg, unban);
    if HeldAt(slots, s, until) && now < until && b.id == s && !unban {
      EvolvesHeld(slots[s], b, clock, now, until, cfg);
    }
  }

  lemma MapKept(slots: map<Id, Slot>, f: Slot -> Slot, clock: Time, now: Time, cfg: Config, s: Id, until: Time)
    requires SlotsSound(slots, clock, cfg) && clock <= now
    requires forall x :: f(x).id == x.id && Evolves(x, f(x), now, cfg, false)
    ensures Kept(slots, MapValues(slots, f), now, cfg, s, until, false)
  {
    forall k | k in slots ensures Sound(f(slots[k]), now, cfg) {
      EvolvesSound(slots[k], f(slots[k]), clock, now, cfg, false);
    }
    if HeldAt(slots, s, until) && now < until {
      EvolvesHeld(slots[s], f(slots[s]), clock, now, until, cfg);
    }
  }

  lemma {:induction false} RegisterKept(
      slots: map<Id, Slot>, node: Node, target: string, todo: seq<Slot>, clock: Time, now: Time, cfg: Config,
      s: Id, until: Time)
    requires SlotsSound(slots, clock, cfg) && clock <= now && s != ""
    ensures Kept(slots, RegisterSlots(slots, node, target, todo, now), now, cfg, s, until, false)
    decreases |todo|
  {
    if todo == [] {
      Later(slots, clock, now, cfg, s, until);
    } else {
      var f := RegisterSlot(node, target, now);
      var incoming := NormalizedSlot(todo[0], node, target);
      MergedSlotEvolves(incoming, Was(slots, incoming.id), now, cfg);
      PutKept(slots, Was(slots, incoming.id), MergedSlot(incoming, Was(slots, incoming.id), now), clock, now, cfg,
              false, s, until);
      RegisterKept(f(slots, todo[0]), node, target, todo[1..], now, now, cfg, s, until);
    }
  }

  // ---------- every handler ----------

  /** Writing back a slot read by ID, with its failures evolved. */
  lemma PutReadKept(db: Database, id: Id, b: Slot, clock: Time, now: Time, cfg: Config, s: Id, until: Time)
    requires SlotsSound(db.slots, clock, cfg) && clock <= now && s != ""
    requires b.id == SlotAt(db, id).id && Evolves(SlotAt(db, id), b, now, cfg, false)
    ensures Kept(db.slots, db.slots[b.id := b], now, cfg, s, until, false)
  {
    PutKept(db.slots, SlotAt(db, id), b, clock, now, cfg, false, s, until);
  }

  lemma AttemptFailedKept(db: Database, f: Failure, clock: Time, now: Time, cfg: Config, s: Id, until: Time)
    requires SlotsSound(db.slots, clock, cfg) && clock <= now && s != ""
    ensures Kept(db.slots, AttemptFailed(db, f, now, cfg).slots, now, cfg, s, until, false)
  {
    var attempt := FailedAttempt(AttemptAt(db, f.attemptId), f, now);
    var a := SlotAt(db, attempt.slotId);
    FailedSlotEvolves(a, ReleasedByFailure(a, attempt.profileId), f.reason, now, cfg);
    PutReadKept(db, attempt.slotId, FailedSlot(ReleasedByFailure(a, attempt.profileId), f.reason, now, cfg), clock,
                now, cfg, s, until);
  }

  lemma DispatchFailedKept(db: Database, f: Failure, clock: Time, now: Time, cfg: Config, s: Id, until: Time)
    requires SlotsSound(db.slots, clock, cfg) && clock <= now && s != ""
    ensures Kept(db.slots, DispatchFailed(db, f, now, cfg).slots, now, cfg, s, until, false)
  {
    var id := AttemptAt(db, f.attemptId).slotId;
    var x := SlotAt(db, id).(state := Ready, activeTaskId := "");
    FailedSlotEvolves(SlotAt(db, id), x, f.reason, now, cfg);
    PutReadKept(db, id, FailedSlot(x, f.reason, now, cfg), clock, now, cfg, s, until);
  }

  lemma DroppedKept(db: Database, id: Id, clock: Time, now: Time, cfg: Config, s: Id, until: Time)
    requires SlotsSound(db.slots, clock, cfg) && clock <= now && s != ""
    ensures Kept(db.slots, Dropped(db, id, now, cfg).slots, now, cfg, s, until, false)
  {
    var slotId := AttemptAt(db, id).slotId;
    var x := SlotAt(db, slotId).(
      activeTaskId := "", acceptsNew := false, state := Unavailable, mismatchReason := FAILURE_WORKER_DISCONNECTED);
    FailedSlotEvolves(SlotAt(db, slotId), x, FAILURE_WORKER_DISCONNECTED, now, cfg);
    PutReadKept(db, slotId, FailedSlot(x, FAILURE_WORKER_DISCONNECTED, now, cfg), clock, now, cfg, s, until);
  }

  lemma ReportKept(db: Database, report: Report, clock: Time, now: Time, cfg: Config, s: Id, until: Time)
    requires SlotsSound(db.slots, clock, cfg) && clock <= now && s != ""
    ensures Kept(db.slots, ComputeReport(db, report, now, cfg).slots, now, cfg, s, until, false)
  {
    if report.id in db.reports {
      Later(db.slots, clock, now, cfg, s, until);
    } else {
      ReportedKept(db, AttemptAt(db, report.attemptId), StoredReport(db, report), clock, now, cfg, s, until);
    }
  }

  lemma ReportedKept(db: Database, attempt: Attempt, r: Report, clock: Time, now: Time, cfg: Config, s: Id, until: Time)
    requires SlotsSound(db.slots, clock, cfg) && clock <= now && s != ""
    ensures var slot := ReportedSlot(SlotAt(db, r.slotId), attempt, r, now, cfg);
            Kept(db.slots, db.slots[slot.id := slot], now, cfg, s, until, false)
  {
    ReportedSlotEvolves(SlotAt(db, r.slotId), attempt, r, now, cfg);
    PutReadKept(db, r.slotId, ReportedSlot(SlotAt(db, r.slotId), attempt, r, now, cfg), clock, now, cfg, s, until);
  }

  lemma DeliverKept(sys: Sys, m: Message, now: Time, cfg: Config, s: Id, until: Time)
    requires SlotsSound(sys.db.slots, sys.clock, cfg) && sys.clock <= now && s != ""
    ensures Kept(sys.db.slots, DeliverDb(sys, m, now, cfg).slots, now, cfg, s, until, false)
  {
    match m
    case AttemptFailure(f) => AttemptFailedKept(sys.db, f, sys.clock, now, cfg, s, until);
    case Reported(r) => ReportKept(sys.db, r, sys.clock, now, cfg, s, until);
    case _ => Later(sys.db.slots, sys.clock, now, cfg, s, until);
  }

  lemma WorkerKept(sys: Sys, e: WorkerEvent, now: Time, cfg: Config, s: Id, until: Time)
    requires SlotsSound(sys.db.slots, sys.clock, cfg) && sys.clock <= now && s != ""
    ensures Kept(sys.db.slots, WorkerDb(sys, e, now, cfg).slots, now, cfg, s, until, false)
  {
    var db := sys.db;
    Later(db.slots, sys.clock, now, cfg, s, until);
    match e
    case Deliver(nodeId, m) => DeliverKept(sys, m, now, cfg, s, until);
    case GoDown(n, kind) =>
      MapKept(db.slots, DownSlot(Flap.Recorded(NodeAt(db, n), kind, now, cfg.flap).id), sys.clock, now, cfg, s, until);
    case Drop(a) => DroppedKept(db, a, sys.clock, now, cfg, s, until);
    case SlotState(nodeId, p) =>
      PutReadKept(db, p.slotId, SlotReported(SlotAt(db, p.slotId), p, now), sys.clock, now, cfg, s, until);
    case Enrol(node, target, slots) => RegisterKept(db.slots, node, target, slots, sys.clock, now, cfg, s, until);
    case _ =>
  }

  lemma ReserveKept(db: Database, taskId: Id, profile: Profile, effective: Profile, slotId: Id, attempt: Attempt,
                    clock: Time, now: Time, cfg: Config, s: Id, until: Time)
    requires SlotsSound(db.slots, clock, cfg) && clock <= now && s != ""
    ensures Kept(db.slots, Reserve(db, taskId, profile, effective, slotId, attempt, now).slots, now, cfg, s, until,
                 false)
  {
    PutReadKept(db, slotId, ServingSlot(SlotAt(db, slotId), taskId, now), clock, now, cfg, s, until);
  }

  lemma ClientKept(sys: Sys, e: ClientEvent, now: Time, cfg: Config, s: Id, until: Time)
    requires SlotsSound(sys.db.slots, sys.clock, cfg) && sys.clock <= now && s != "" && ClientEnabled(sys, e, cfg)
    ensures Kept(sys.db.slots, ClientDb(sys, e, now, cfg).slots, now, cfg, s, until, false)
  {
    Later(sys.db.slots, sys.clock, now, cfg, s, until);
    match e
    case TryReserve(id, attemptId) =>
      var r := sys.requests[id];
      ReserveKept(sys.db, id, r.profile, r.phase.effective, r.phase.slot.id,
                  NewAttempt(attemptId, r.task, r.profile, r.phase.effective, r.phase.slot, now),
                  sys.clock, now, cfg, s, until);
    case DispatchFail(id) =>
      DispatchFailedKept(sys.db, DispatchFailure(sys.requests[id].phase.attemptId, id), sys.clock, now, cfg, s, until);
    case _ =>
  }

  lemma AdminKept(sys: Sys, e: AdminEvent, now: Time, cfg: Config, s: Id, until: Time)
    requires SlotsSound(sys.db.slots, sys.clock, cfg) && sys.clock <= now && s != "" && AdminEnabled(sys, e)
    ensures Kept(sys.db.slots, AdminDb(sys.db, e, now).slots, now, cfg, s, until, Lifts(sys.db, e, s))
  {
    var db := sys.db;
    Later(db.slots, sys.clock, now, cfg, s, until);
    match e
    case Expire => MapKept(db.slots, ExpireSlot(now), sys.clock, now, cfg, s, until);
    case Unban(id) =>
      if id in db.slots {
        PutKept(db.slots, db.slots[id], ClearSlotQuarantine(db.slots[id]), sys.clock, now, cfg, true, s, until);
      }
    case Replan(slots') => ReplanKept(db.slots, slots', sys.clock, now, cfg, s, until);
    case _ =>
  }

  lemma ReplanKept(slots: map<Id, Slot>, slots': map<Id, Slot>, clock: Time, now: Time, cfg: Config, s: Id, until: Time)
    requires SlotsSound(slots, clock, cfg) && clock <= now && Redrained(slots, slots')
    ensures Kept(slots, slots', now, cfg, s, until, false)
  {
    forall k | k in slots' ensures slots'[k].id == k && Sound(slots'[k], now, cfg) {
      EvolvesSound(slots[k], slots'[k], clock, now, cfg, false);
    }
  }

  /** The two admin actions that end a quarantine early: an unban, and deleting the slot's node. */
  predicate Lifts(db: Database, e: AdminEvent, s: Id) {
    match e
    case Unban(id) => id == s
    case RemoveNode(n) => s in db.slots && db.slots[s].nodeId == n
    case _ => false
  }

  predicate StepLifts(sys: Sys, step: Step, s: Id) {
    step.event.Admin? && Lifts(sys.db, step.event.admin, s)
  }

  lemma StepKept(sys: Sys, step: Step, cfg: Config, s: Id, until: Time)
    requires SlotsSound(sys.db.slots, sys.clock, cfg) && s != "" && Enabled(sys, step, cfg)
    ensures Kept(sys.db.slots, Apply(sys, step, cfg).db.slots, step.now, cfg, s, until, StepLifts(sys, step, s))
  {
    match step.event
    case Client(e) => ClientKept(sys, e, step.now, cfg, s, until);
    case OfWorker(e) => WorkerKept(sys, e, step.now, cfg, s, until);
    case Admin(e) => AdminKept(sys, e, step.now, cfg, s, until);
  }

  // ---------- over whole runs ----------

  /** In every reachable state each slot's failure count is the sum of its counters,
      re-registration included, and every quarantine ends within its duration. */
  lemma FailuresAddUp(cfg: Config, also: (Sys, Step) -> bool, sys: Sys, sys': Sys)
    requires SlotsSound(sys.db.slots, sys.clock, cfg) && Reachable(cfg, also, sys, sys')
    ensures SlotsSound(sys'.db.slots, sys'.clock, cfg)
  {
    var inv := (z: Sys) => SlotsSound(z.db.slots, z.clock, cfg);
    forall z: Sys, t: Step | inv(z) && Enabled(z, t, cfg) && also(z, t) ensures inv(Apply(z, t, cfg)) {
      StepKept(z, t, cfg, "slot", 0);
    }
    Preserved(inv, cfg, also, sys, sys');
  }

  /** Steps before `until` that neither unban slot `s` nor delete its node. */
  ghost function Undisturbed(s: Id, until: Time): (Sys, Step) -> bool {
    (sys: Sys, step: Step) => step.now < until && !StepLifts(sys, step, s)
  }

  predicate Picks(r: Request, s: Id) {
    r.phase.Picked? && r.phase.slot.id == s
  }

  /** Once a slot is quarantined until a time, then over every run of steps before that time,
      without an unban or the deletion of its node, it stays quarantined at least that long
      and no request that picked it gets a reservation. */
  lemma QuarantineHolds(cfg: Config, sys: Sys, sys': Sys, s: Id, until: Time)
    requires SlotsSound(sys.db.slots, sys.clock, cfg) && s != "" && HeldAt(sys.db.slots, s, until)
    requires Reachable(cfg, Undisturbed(s, until), sys, sys')
    ensures HeldAt(sys'.db.slots, s, until)
    ensures forall id :: id in sys'.requests && Picks(sys'.requests[id], s) ==> !ReservesNow(sys', id)
  {
    var inv := (z: Sys) => SlotsSound(z.db.slots, z.clock, cfg) && HeldAt(z.db.slots, s, until);
    forall z: Sys, t: Step | inv(z) && Enabled(z, t, cfg) && Undisturbed(s, until)(z, t) ensures inv(Apply(z, t, cfg)) {
      StepKept(z, t, cfg, s, until);
    }
    Preserved(inv, cfg, Undisturbed(s, until), sys, sys');
  }
}
