/** What a recorded failure does to a slot, and what failures of one kind do over a run: each
    counts once, and the one that reaches the threshold quarantines the slot. */
module SlotFailures {
  import opened Base
  import opened Traces
  import opened Model
  import opened Accounting
  import opened Handlers
  import opened Protocol
  import opened Quarantine
  import Flap

  // ---------- one failure ----------

  function Named(reason: string): string {
    if reason == "" then "unknown" else reason
  }

  /** How many failures of one kind a slot may have, and how long it then is banned. */
  predicate Limits(cfg: Config, needed: int, lasts: int) {
    && needed == (if cfg.threshold > 0 then cfg.threshold else 3)
    && lasts == (if cfg.duration > 0 then cfg.duration else 5 * 60 * 1_000_000_000)
  }

  /** One more failure, counted under its own reason and no other. */
  ghost predicate Counted(a: Slot, b: Slot, why: string, now: Time) {
    && b.failureCount == a.failureCount + 1 && b.lastFailure == why && b.lastFailureAt == Some(now)
    && Get(b.failureCounters, why) == Get(a.failureCounters, why) + 1
    && forall w :: w != why ==> Get(b.failureCounters, w) == Get(a.failureCounters, w)
  }

  predicate Banned(b: Slot, why: string, until: Time) {
    && b.quarantined && b.quarantineReason == why && b.quarantineUntil == Some(until)
    && !b.acceptsNew && b.mismatchReason == "quarantined: " + why
  }

  /** Whether the slot is banned, why, how long, and whether it takes work is as before. */
  predicate SameBan(a: Slot, b: Slot) {
    && b.quarantined == a.quarantined && b.quarantineReason == a.quarantineReason
    && b.quarantineUntil == a.quarantineUntil && b.acceptsNew == a.acceptsNew && b.mismatchReason == a.mismatchReason
  }

  predicate SamePlace(a: Slot, b: Slot) {
    && b.id == a.id && b.nodeId == a.nodeId && b.state == a.state && b.activeTaskId == a.activeTaskId
    && b.profileId == a.profileId && b.profileVersion == a.profileVersion && b.runtimeVariantId == a.runtimeVariantId
  }

  /** `b` is `a` after a failure: banned when its counter reaches what is needed, else as before. */
  ghost predicate FailureRecorded(a: Slot, b: Slot, reason: string, now: Time, cfg: Config) {
    exists needed, lasts :: Limits(cfg, needed, lasts)
      && Counted(a, b, Named(reason), now) && SamePlace(a, b)
      && if Get(b.failureCounters, Named(reason)) >= needed then Banned(b, Named(reason), now + lasts)
         else SameBan(a, b)
  }

  lemma FailedSlotRecords(a: Slot, reason: string, now: Time, cfg: Config)
    ensures FailureRecorded(a, FailedSlot(a, reason, now, cfg), reason, now, cfg)
  {
    assert Limits(cfg, Handlers.Threshold(cfg), Handlers.Duration(cfg));
  }

  // ---------- which steps record a failure ----------

  datatype Hit = Hit(slotId: Id, reason: string)

  /** A report fails its slot when it is new, failed, and its attempt has not failed before. */
  function ReportHit(db: Database, r: Report): Option<Hit> {
    if r.id !in db.reports && r.status == Failed && AttemptAt(db, r.attemptId).status != Failed
    then Some(Hit(AttemptAt(db, r.attemptId).slotId, r.failureReason)) else None
  }

  function MessageHit(db: Database, m: Message): Option<Hit> {
    match m
    case AttemptFailure(f) => Some(Hit(AttemptAt(db, f.attemptId).slotId, f.reason))
    case Reported(r) => ReportHit(db, r)
    case _ => None
  }

  function WorkerHit(db: Database, e: WorkerEvent): Option<Hit> {
    match e
    case Deliver(nodeId, m) => if Accepted(db, nodeId, m) then MessageHit(db, m) else None
    case Drop(a) => Some(Hit(AttemptAt(db, a).slotId, FAILURE_WORKER_DISCONNECTED))
    case _ => None
  }

  function ClientHit(sys: Sys, e: ClientEvent): Option<Hit> {
    if e.DispatchFail? && e.id in sys.requests && sys.requests[e.id].phase.Reserved?
    then Some(Hit(AttemptAt(sys.db, sys.requests[e.id].phase.attemptId).slotId, FAILURE_WORKER_DISCONNECTED)) else None
  }

  /** The slot on which the step records a failure, and the reason it gives. */
  function FailureOn(sys: Sys, step: Step): Option<Hit> {
    match step.event
    case Client(e) => ClientHit(sys, e)
    case OfWorker(e) => WorkerHit(sys.db, e)
    case Admin(_) => None
  }

  predicate FailsSlot(sys: Sys, step: Step, s: Id, why: string) {
    var hit := FailureOn(sys, step);
    hit.Some? && hit.value.slotId == s && Named(hit.value.reason) == why
  }

  /** Steps that leave the slot's node in place. */
  ghost function KeepsSlot(s: Id): (Sys, Step) -> bool {
    (sys: Sys, step: Step) =>
      !(step.event.Admin? && step.event.admin.RemoveNode? && s in sys.db.slots
        && sys.db.slots[s].nodeId == step.event.admin.nodeId)
  }

  // ---------- what a step does to the counters of a slot ----------

  ghost predicate Keyed(slots: map<Id, Slot>) {
    forall k :: k in slots ==> slots[k].id == k
  }

  /** The slot has the same counters, or the failure is recorded on a slot with these counters. */
  ghost predicate Tracked(
      slots: map<Id, Slot>, slots': map<Id, Slot>, s: Id, hit: Option<Hit>, now: Time, cfg: Config) {
    s in slots ==>
      (&& s in slots'
       && if hit.Some? && hit.value.slotId == s
          then RecordedFrom(slots[s].failureCounters, slots'[s], hit.value.reason, now, cfg)
          else slots'[s].failureCounters == slots[s].failureCounters)
  }

  ghost predicate RecordedFrom(counters: map<string, int>, b: Slot, reason: string, now: Time, cfg: Config) {
    exists a: Slot :: a.failureCounters == counters && FailureRecorded(a, b, reason, now, cfg)
  }

  /** Writing back a slot read by ID, with a failure recorded on it. */
  lemma PutFailed(db: Database, id: Id, x: Slot, reason: string, now: Time, cfg: Config, s: Id)
    requires Keyed(db.slots) && s != ""
    requires x.id == SlotAt(db, id).id && x.failureCounters == SlotAt(db, id).failureCounters
    ensures var b := FailedSlot(x, reason, now, cfg);
            Tracked(db.slots, db.slots[b.id := b], s, Some(Hit(id, reason)), now, cfg)
  {
    FailedSlotRecords(x, reason, now, cfg);
  }

  /** Writing back a slot read by ID with its counters. */
  lemma PutSame(db: Database, id: Id, b: Slot, now: Time, cfg: Config, s: Id)
    requires Keyed(db.slots) && s != ""
    requires b.id == SlotAt(db, id).id && b.failureCounters == SlotAt(db, id).failureCounters
    ensures Tracked(db.slots, db.slots[b.id := b], s, None, now, cfg)
  {
  }

  lemma AttemptFailedTracks(db: Database, f: Failure, now: Time, cfg: Config, s: Id)
    requires Keyed(db.slots) && s != ""
    ensures Tracked(db.slots, AttemptFailed(db, f, now, cfg).slots, s,
                    Some(Hit(AttemptAt(db, f.attemptId).slotId, f.reason)), now, cfg)
  {
    var attempt := AttemptAt(db, f.attemptId);
    PutFailed(db, attempt.slotId, ReleasedByFailure(SlotAt(db, attempt.slotId), attempt.profileId), f.reason, now, cfg,
              s);
  }

  lemma DispatchFailedTracks(db: Database, f: Failure, now: Time, cfg: Config, s: Id)
    requires Keyed(db.slots) && s != ""
    ensures Tracked(db.slots, DispatchFailed(db, f, now, cfg).slots, s,
                    Some(Hit(AttemptAt(db, f.attemptId).slotId, f.reason)), now, cfg)
  {
    var id := AttemptAt(db, f.attemptId).slotId;
    PutFailed(db, id, SlotAt(db, id).(state := Ready, activeTaskId := ""), f.reason, now, cfg, s);
  }

  lemma DroppedTracks(db: Database, id: Id, now: Time, cfg: Config, s: Id)
    requires Keyed(db.slots) && s != ""
    ensures Tracked(db.slots, Dropped(db, id, now, cfg).slots, s,
                    Some(Hit(AttemptAt(db, id).slotId, FAILURE_WORKER_DISCONNECTED)), now, cfg)
  {
    var slotId := AttemptAt(db, id).slotId;
    var down := SlotAt(db, slotId).(
      activeTaskId := "", acceptsNew := false, state := Unavailable, mismatchReason := FAILURE_WORKER_DISCONNECTED);
    PutFailed(db, slotId, down, FAILURE_WORKER_DISCONNECTED, now, cfg, s);
  }

  lemma ReportedSlotTracks(
      db: Database, attempt: Attempt, r: Report, now: Time, cfg: Config, s: Id)
    requires Keyed(db.slots) && s != ""
    ensures var slot := ReportedSlot(SlotAt(db, r.slotId), attempt, r, now, cfg);
            Tracked(db.slots, db.slots[slot.id := slot], s,
                    if RecordsFailure(attempt, r) then Some(Hit(r.slotId, r.failureReason)) else None, now, cfg)
  {
    var a := SlotAt(db, r.slotId);
    var idle := a.(activeTaskId := "");
    var released :=
      if a.profileId != r.profileId then idle.(state := Idle, acceptsNew := false)
      else idle.(state := Ready, acceptsNew := true,
                 mismatchReason := if r.status == Completed then "" else r.failureReason);
    PutFailed(db, r.slotId, released, r.failureReason, now, cfg, s);
    PutSame(db, r.slotId, released, now, cfg, s);
  }

  lemma StoredReportNames(db: Database, report: Report)
    ensures var r := StoredReport(db, report);
            && r.slotId == AttemptAt(db, report.attemptId).slotId && r.status == report.status
            && r.failureReason == report.failureReason
  {
  }

  lemma ReportTracks(db: Database, report: Report, now: Time, cfg: Config, s: Id)
    requires Keyed(db.slots) && s != ""
    ensures Tracked(db.slots, ComputeReport(db, report, now, cfg).slots, s, ReportHit(db, report), now, cfg)
  {
    if report.id !in db.reports {
      StoredReportNames(db, report);
      ReportedSlotTracks(db, AttemptAt(db, report.attemptId), StoredReport(db, report), now, cfg, s);
    }
  }

  lemma {:induction false} RegisterTracks(
      slots: map<Id, Slot>, node: Node, target: string, todo: seq<Slot>, now: Time, cfg: Config, s: Id)
    ensures Tracked(slots, RegisterSlots(slots, node, target, todo, now), s, None, now, cfg)
    decreases |todo|
  {
    if todo != [] {
      RegisterTracks(RegisterSlot(node, target, now)(slots, todo[0]), node, target, todo[1..], now, cfg, s);
    }
  }

  lemma NothingTracks(slots: map<Id, Slot>, now: Time, cfg: Config, s: Id)
    ensures Tracked(slots, slots, s, None, now, cfg)
  {
  }

  lemma MappedTracks(slots: map<Id, Slot>, f: Slot -> Slot, now: Time, cfg: Config, s: Id)
    requires forall x :: f(x).failureCounters == x.failureCounters
    ensures Tracked(slots, MapValues(slots, f), s, None, now, cfg)
  {
  }

  lemma MessageTracks(sys: Sys, m: Message, now: Time, cfg: Config, s: Id)
    requires Keyed(sys.db.slots) && s != ""
    ensures Tracked(sys.db.slots, DeliverDb(sys, m, now, cfg).slots, s, MessageHit(sys.db, m), now, cfg)
  {
    match m
    case AttemptFailure(f) => AttemptFailedTracks(sys.db, f, now, cfg, s);
    case Reported(r) => ReportTracks(sys.db, r, now, cfg, s);
    case _ => NothingTracks(sys.db.slots, now, cfg, s);
  }

  lemma WorkerTracks(sys: Sys, e: WorkerEvent, now: Time, cfg: Config, s: Id)
    requires Keyed(sys.db.slots) && s != ""
    ensures Tracked(sys.db.slots, WorkerDb(sys, e, now, cfg).slots, s, WorkerHit(sys.db, e), now, cfg)
  {
    var db := sys.db;
    NothingTracks(db.slots, now, cfg, s);
    match e
    case Deliver(nodeId, m) => MessageTracks(sys, m, now, cfg, s);
    case GoDown(n, kind) =>
      MappedTracks(db.slots, DownSlot(Flap.Recorded(NodeAt(db, n), kind, now, cfg.flap).id), now, cfg, s);
    case Drop(a) => DroppedTracks(db, a, now, cfg, s);
    case SlotState(nodeId, p) => PutSame(db, p.slotId, SlotReported(SlotAt(db, p.slotId), p, now), now, cfg, s);
    case Enrol(node, target, slots) => RegisterTracks(db.slots, node, target, slots, now, cfg, s);
    case _ =>
  }

  lemma ReserveTracks(db: Database, taskId: Id, profile: Profile, effective: Profile, slotId: Id, attempt: Attempt,
                      now: Time, cfg: Config, s: Id)
    requires Keyed(db.slots) && s != ""
    ensures Tracked(db.slots, Reserve(db, taskId, profile, effective, slotId, attempt, now).slots, s, None, now, cfg)
  {
    PutSame(db, slotId, ServingSlot(SlotAt(db, slotId), taskId, now), now, cfg, s);
  }

  lemma ClientTracks(sys: Sys, e: ClientEvent, now: Time, cfg: Config, s: Id)
    requires Keyed(sys.db.slots) && s != "" && ClientEnabled(sys, e, cfg)
    ensures Tracked(sys.db.slots, ClientDb(sys, e, now, cfg).slots, s, ClientHit(sys, e), now, cfg)
  {
    NothingTracks(sys.db.slots, now, cfg, s);
    match e
    case TryReserve(id, attemptId) =>
      var r := sys.requests[id];
      ReserveTracks(sys.db, id, r.profile, r.phase.effective, r.phase.slot.id,
                    NewAttempt(attemptId, r.task, r.profile, r.phase.effective, r.phase.slot, now), now, cfg, s);
    case DispatchFail(id) =>
      DispatchFailedTracks(sys.db, DispatchFailure(sys.requests[id].phase.attemptId, id), now, cfg, s);
    case _ =>
  }

  lemma AdminTracks(sys: Sys, e: AdminEvent, now: Time, cfg: Config, s: Id)
    requires Keyed(sys.db.slots) && s != "" && AdminEnabled(sys, e) && KeepsSlot(s)(sys, Step(now, Admin(e)))
    ensures Tracked(sys.db.slots, AdminDb(sys.db, e, now).slots, s, None, now, cfg)
  {
    var db := sys.db;
    NothingTracks(db.slots, now, cfg, s);
    match e
    case Expire => MappedTracks(db.slots, ExpireSlot(now), now, cfg, s);
    case Unban(id) =>
      if id in db.slots {
        PutSame(db, id, ClearSlotQuarantine(db.slots[id]), now, cfg, s);
      }
    case _ =>
  }

  /** Every step, with no exception but the deletion of the slot's node, counts exactly the failures it records. */
  lemma StepTracks(sys: Sys, step: Step, cfg: Config, s: Id)
    requires Keyed(sys.db.slots) && s != "" && Enabled(sys, step, cfg) && KeepsSlot(s)(sys, step)
    ensures Tracked(sys.db.slots, Apply(sys, step, cfg).db.slots, s, FailureOn(sys, step), step.now, cfg)
  {
    match step.event
    case Client(e) => ClientTracks(sys, e, step.now, cfg, s);
    case OfWorker(e) => WorkerTracks(sys, e, step.now, cfg, s);
    case Admin(e) => AdminTracks(sys, e, step.now, cfg, s);
  }

  // ---------- over a run ----------

  function CounterAt(sys: Sys, s: Id, why: string): int {
    Get(SlotAt(sys.db, s).failureCounters, why)
  }

  /** The failures of slot `s` for reason `why` along a run. */
  ghost function FailuresAlong(cfg: Config, sys: Sys, steps: seq<Step>, s: Id, why: string): nat
    decreases |steps|
  {
    if steps == [] then 0
    else (if FailsSlot(sys, steps[0], s, why) then 1 else 0)
         + FailuresAlong(cfg, Next(cfg)(sys, steps[0]), steps[1..], s, why)
  }

  lemma StepCounts(sys: Sys, step: Step, cfg: Config, s: Id, why: string)
    requires SlotsSound(sys.db.slots, sys.clock, cfg) && s != "" && s in sys.db.slots
    requires Enabled(sys, step, cfg) && KeepsSlot(s)(sys, step)
    ensures var sys' := Apply(sys, step, cfg);
            && SlotsSound(sys'.db.slots, sys'.clock, cfg) && s in sys'.db.slots
            && CounterAt(sys', s, why) == CounterAt(sys, s, why) + if FailsSlot(sys, step, s, why) then 1 else 0
  {
    StepKept(sys, step, cfg, s, 0);
    StepTracks(sys, step, cfg, s);
  }

  /** Along every run in which the slot's node is not deleted, its counter for a reason grows by
      exactly the failures recorded for that reason; nothing resets it. */
  lemma {:induction false} CountersFollowRun(cfg: Config, sys: Sys, steps: seq<Step>, sys': Sys, s: Id, why: string)
    requires SlotsSound(sys.db.slots, sys.clock, cfg) && s != "" && s in sys.db.slots
    requires Runs(Guard(cfg, KeepsSlot(s)), Next(cfg), sys, steps, sys')
    ensures SlotsSound(sys'.db.slots, sys'.clock, cfg) && s in sys'.db.slots
    ensures CounterAt(sys', s, why) == CounterAt(sys, s, why) + FailuresAlong(cfg, sys, steps, s, why)
    decreases |steps|
  {
    if steps != [] {
      StepCounts(sys, steps[0], cfg, s, why);
      CountersFollowRun(cfg, Next(cfg)(sys, steps[0]), steps[1..], sys', s, why);
    }
  }

  lemma RecordedBans(
      counters: map<string, int>, b: Slot, reason: string, now: Time, cfg: Config, needed: int, lasts: int)
    requires RecordedFrom(counters, b, reason, now, cfg) && Limits(cfg, needed, lasts)
    requires Get(counters, Named(reason)) + 1 >= needed
    ensures Banned(b, Named(reason), now + lasts)
  {
  }

  lemma TrackedBans(
      slots: map<Id, Slot>, slots': map<Id, Slot>, s: Id, why: string, hit: Option<Hit>, now: Time, cfg: Config,
      needed: int, lasts: int)
    requires s in slots && Tracked(slots, slots', s, hit, now, cfg) && Limits(cfg, needed, lasts)
    requires hit.Some? && hit.value.slotId == s && Named(hit.value.reason) == why
    requires Get(slots[s].failureCounters, why) + 1 >= needed
    ensures s in slots' && Banned(slots'[s], why, now + lasts)
  {
    RecordedBans(slots[s].failureCounters, slots'[s], hit.value.reason, now, cfg, needed, lasts);
  }

  /** The slot is banned, and its records are sound. */
  ghost predicate BannedIn(sys: Sys, s: Id, why: string, until: Time, cfg: Config) {
    s in sys.db.slots && Banned(sys.db.slots[s], why, until) && SlotsSound(sys.db.slots, sys.clock, cfg)
  }

  lemma FailsSlotIs(sys: Sys, step: Step, s: Id, why: string)
    requires FailsSlot(sys, step, s, why)
    ensures var hit := FailureOn(sys, step); hit.Some? && hit.value.slotId == s && Named(hit.value.reason) == why
    ensures !step.event.Admin?
  {
  }

  lemma CountsSlot(sys: Sys, step: Step, cfg: Config, s: Id)
    requires Keyed(sys.db.slots) && s != "" && Enabled(sys, step, cfg) && !step.event.Admin?
    ensures Tracked(sys.db.slots, Apply(sys, step, cfg).db.slots, s, FailureOn(sys, step), step.now, cfg)
  {
    StepTracks(sys, step, cfg, s);
  }

  lemma LastFailureBans(cfg: Config, mid: Sys, last: Step, s: Id, why: string, needed: int, lasts: int)
    requires Keyed(mid.db.slots) && s != "" && s in mid.db.slots && Limits(cfg, needed, lasts)
    requires Enabled(mid, last, cfg) && FailsSlot(mid, last, s, why)
    requires Get(mid.db.slots[s].failureCounters, why) + 1 >= needed
    ensures var slots := Apply(mid, last, cfg).db.slots; s in slots && Banned(slots[s], why, last.now + lasts)
  {
    var hit := FailureOn(mid, last);
    FailsSlotIs(mid, last, s, why);
    CountsSlot(mid, last, cfg, s);
    TrackedBans(mid.db.slots, Apply(mid, last, cfg).db.slots, s, why, hit, last.now, cfg, needed, lasts);
  }

  /** A ban lasts: no run of steps before its end, without an unban or the deletion of the slot's
      node, lets anyone reserve the slot. */
  lemma BanHolds(cfg: Config, after: Sys, later: Sys, s: Id, why: string, until: Time)
    requires s != "" && BannedIn(after, s, why, until, cfg) && Reachable(cfg, Undisturbed(s, until), after, later)
    ensures HeldAt(later.db.slots, s, until)
    ensures forall id :: id in later.requests && Picks(later.requests[id], s) ==> !ReservesNow(later, id)
  {
    QuarantineHolds(cfg, after, later, s, until);
  }

  /** The failure that makes a run's failures of one kind reach the threshold bans the slot, for
      that reason and the full duration. */
  lemma RepeatedFailuresBan(
      cfg: Config, sys: Sys, steps: seq<Step>, mid: Sys, last: Step, s: Id, why: string, needed: int, lasts: int)
    requires SlotsSound(sys.db.slots, sys.clock, cfg) && s != "" && s in sys.db.slots && Limits(cfg, needed, lasts)
    requires Runs(Guard(cfg, KeepsSlot(s)), Next(cfg), sys, steps, mid)
    requires Enabled(mid, last, cfg) && FailsSlot(mid, last, s, why)
    requires CounterAt(sys, s, why) + FailuresAlong(cfg, sys, steps, s, why) + 1 >= needed
    ensures BannedIn(Apply(mid, last, cfg), s, why, last.now + lasts, cfg)
  {
    CountersFollowRun(cfg, sys, steps, mid, s, why);
    LastFailureBans(cfg, mid, last, s, why, needed, lasts);
    StepKept(mid, last, cfg, s, 0);
  }
}
