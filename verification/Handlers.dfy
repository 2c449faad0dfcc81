/** What each handler of the task, attempt and slot protocol does to the database
    (internal/comrad/manager_chat.go, manager_scheduler.go, manager_client.go,
    manager_worker_messages.go, manager_ws.go, manager_worker_state.go, quarantine.go).
    Generated IDs, the clock and the configuration are parameters. */
module Handlers {
  import opened Base
  import opened Model
  import opened Fit
  import opened Accounting
  import Flap

  datatype Config = Config(threshold: int, duration: int, enforceBalance: bool, flap: Flap.FlapConfig)

  // ---------- slot failures and quarantine ----------

  function Threshold(cfg: Config): (r: int)
    ensures r > 0
  {
    if cfg.threshold <= 0 then 3 else cfg.threshold
  }

  function Duration(cfg: Config): (r: int)
    ensures r > 0
  {
    if cfg.duration <= 0 then 300_000_000_000 else cfg.duration
  }

  function FailureReason(reason: string): string {
    FirstNonEmpty(reason, "unknown")
  }

  const QUARANTINE_PREFIX := "quarantined: "

  /** `recordSlotFailure` on the slot. */
  function FailedSlot(slot: Slot, reason: string, now: Time, cfg: Config): Slot {
    var why := FailureReason(reason);
    var counters := slot.failureCounters[why := Get(slot.failureCounters, why) + 1];
    var counted := slot.(failureCount := slot.failureCount + 1, failureCounters := counters,
                         lastFailure := why, lastFailureAt := Some(now));
    if counters[why] >= Threshold(cfg) then
      counted.(quarantined := true, quarantineReason := why, quarantineUntil := Some(now + Duration(cfg)),
               acceptsNew := false, mismatchReason := QUARANTINE_PREFIX + why)
    else counted
  }

  /** `recordSlotFailure` on the slot's node. */
  function FailedNode(nodes: map<Id, Node>, nodeId: Id, reason: string, now: Time): map<Id, Node> {
    if nodeId !in nodes || nodes[nodeId].id == "" then nodes
    else nodes[nodes[nodeId].id := nodes[nodeId].(lastFailure := FailureReason(reason), lastFailureAt := Some(now))]
  }

  predicate QuarantineExpired(slot: Slot, now: Time) {
    slot.quarantined && slot.quarantineUntil.Some? && slot.quarantineUntil.value <= now
  }

  predicate NodeQuarantineExpired(node: Node, now: Time) {
    node.quarantined && node.quarantineUntil.Some? && node.quarantineUntil.value <= now
  }

  function ClearSlotQuarantine(slot: Slot): Slot {
    var cleared := slot.(quarantined := false, quarantineReason := "", quarantineUntil := None);
    if slot.state == Ready && slot.activeTaskId == ""
    then cleared.(acceptsNew := true, mismatchReason := "")
    else cleared
  }

  function ClearNodeQuarantine(node: Node): Node {
    node.(quarantined := false, quarantineReason := "", quarantineUntil := None)
  }

  function ExpireSlot(now: Time): Slot -> Slot {
    (slot: Slot) => if QuarantineExpired(slot, now) then ClearSlotQuarantine(slot) else slot
  }

  function ExpireNode(now: Time): Node -> Node {
    (node: Node) => if NodeQuarantineExpired(node, now) then ClearNodeQuarantine(node) else node
  }

  /** `clearExpiredQuarantines`. */
  function ClearExpired(db: Database, now: Time): Database {
    db.(nodes := MapValues(db.nodes, ExpireNode(now)), slots := MapValues(db.slots, ExpireSlot(now)))
  }

  function UnbanSlot(db: Database, id: Id): Database
    requires id in db.slots
  {
    var slot := ClearSlotQuarantine(db.slots[id]);
    db.(slots := db.slots[slot.id := slot])
  }

  function UnbanNode(db: Database, id: Id): Database
    requires id in db.nodes
  {
    var node := ClearNodeQuarantine(db.nodes[id]);
    db.(nodes := db.nodes[node.id := node])
  }

  // ---------- tasks ----------

  function NewTask(id: Id, userId: Id, profile: Profile, stream: bool, now: Time): Task {
    Task(id, userId, profile.id, ProfileVersion(profile), ProfileLogicalModel(profile), "", profile.computeCost, [],
         Queued, "", stream, now, now, None)
  }

  function StoreTask(db: Database, task: Task): Database {
    db.(tasks := db.tasks[task.id := task])
  }

  /** The task part of a failed attempt: the slot is never tried again, and the task is
      queued again or fails. */
  function RequeueOrFail(task: Task, reason: string, slotId: Id, requeue: bool, now: Time): Task {
    var failed := task.(failureReason := reason, updatedAt := now,
                        failedSlots := AppendUnique(task.failedSlots, slotId));
    if requeue then failed.(status := Queued, runtimeVariantId := "", completedAt := None)
    else failed.(status := Failed, completedAt := Some(now))
  }

  function Finished(task: Task, status: TaskStatus, reason: string, now: Time): Task {
    task.(status := status, failureReason := reason, updatedAt := now, completedAt := Some(now))
  }

  predicate Done(s: TaskStatus) {
    s == Completed || s == Failed || s == Cancelled
  }

  /** `failTask`: note that a task that does not exist is stored under its ID as a record without one. */
  function FailTask(db: Database, id: Id, reason: string, now: Time): Database {
    if Done(TaskAt(db, id).status) then db
    else db.(tasks := db.tasks[id := Finished(TaskAt(db, id), Failed, reason, now)])
  }

  function RequestCancel(db: Database, id: Id, reason: string, now: Time): Database {
    var task := TaskAt(db, id);
    if task.id == "" || Done(task.status) then db
    else db.(tasks := db.tasks[task.id := Finished(task, Cancelled, reason, now)])
  }

  // ---------- selecting and reserving a slot ----------

  /** `failedSlotsForTask`. */
  function FailedSlots(db: Database, taskId: Id): set<Id> {
    (set s | s in TaskAt(db, taskId).failedSlots)
    + (set k | k in db.attempts && db.attempts[k].taskId == taskId && db.attempts[k].status == Failed
         :: db.attempts[k].slotId)
  }

  predicate SlotReadyForProfile(slot: Slot, node: Node, profileId: Id, failed: set<Id>) {
    && slot.profileId == profileId && slot.state == Ready && slot.activeTaskId == "" && slot.acceptsNew
    && !slot.quarantined && slot.id !in failed
    && node.state == Online && node.approved && !node.quarantined
  }

  /** A candidate `selectReadySlot` may return, whatever order the map is read and sorted in. */
  ghost predicate Selectable(db: Database, profile: Profile, taskId: Id, slotId: Id, effective: Profile) {
    slotId in db.slots && (
    var slot := db.slots[slotId];
    var node := NodeAt(db, slot.nodeId);
    && SlotReadyForProfile(slot, node, profile.id, FailedSlots(db, taskId))
    && (exists v :: v in ProfileRuntimeVariants(profile) && effective == EffectiveProfileForVariant(profile, v))
    && (slot.runtimeVariantId != "" ==> slot.runtimeVariantId == effective.runtimeVariantId)
    && FitProfileToSlot(effective, node, slot).fits
    && SlotProfileCurrent(slot, profile.id, effective))
  }

  predicate Reservable(db: Database, taskId: Id, profileId: Id, variantId: Id, slotId: Id) {
    var slot := SlotAt(db, slotId);
    && TaskAt(db, taskId).status == Queued
    && slot.state == Ready && slot.activeTaskId == "" && slot.acceptsNew && !slot.quarantined
    && slot.profileId == profileId && slot.runtimeVariantId == variantId
  }

  function NewAttempt(id: Id, task: Task, profile: Profile, effective: Profile, slot: Slot, now: Time): Attempt {
    Attempt(id, task.id, task.userId, slot.nodeId, slot.id, profile.id, task.profileVersion,
            ProfileLogicalModel(effective),
            effective.runtimeVariantId, effective.adapter, task.computeCost, Running, "assigned", "",
            true, false, now, None)
  }

  function ServingSlot(slot: Slot, taskId: Id, now: Time): Slot {
    slot.(state := Serving, activeTaskId := taskId, lastTaskAt := now, acceptsNew := false)
  }

  function RunningTask(task: Task, profile: Profile, effective: Profile, now: Time): Task {
    task.(status := Running, profileId := profile.id, profileVersion := ProfileVersion(profile),
          logicalModel := ProfileLogicalModel(effective), runtimeVariantId := effective.runtimeVariantId,
          computeCost := profile.computeCost, updatedAt := now)
  }

  /** `reserveAttemptInDB` past its guards. */
  function Reserve(
      db: Database, taskId: Id, profile: Profile, effective: Profile, slotId: Id, attempt: Attempt, now: Time): Database
  {
    var slot := ServingSlot(SlotAt(db, slotId), taskId, now);
    var task := RunningTask(TaskAt(db, taskId), profile, effective, now);
    db.(slots := db.slots[slot.id := slot], tasks := db.tasks[task.id := task],
        attempts := db.attempts[attempt.id := attempt])
  }

  // ---------- worker messages ----------

  /** `requireWorkerAttempt`. */
  predicate WorkerAttempt(db: Database, nodeId: Id, attemptId: Id, taskId: Id) {
    && attemptId != "" && attemptId in db.attempts && db.attempts[attemptId].id != ""
    && db.attempts[attemptId].nodeId == nodeId
    && (taskId != "" ==> db.attempts[attemptId].taskId == taskId)
  }

  function PutAttempt(db: Database, attempt: Attempt): Database {
    db.(attempts := db.attempts[attempt.id := attempt])
  }

  function AttemptStarted(db: Database, attemptId: Id): Database {
    PutAttempt(db, AttemptAt(db, attemptId).(phase := "running", status := Running))
  }

  function FirstOutput(db: Database, attemptId: Id): Database {
    var attempt := AttemptAt(db, attemptId);
    if attempt.firstOutputSent then db else PutAttempt(db, attempt.(firstOutputSent := true, canRetry := false))
  }

  datatype Failure = Failure(
    attemptId: Id, taskId: Id, phase: string, reason: string, canRetry: bool, firstOutputSent: bool)

  function FailedAttempt(attempt: Attempt, f: Failure, now: Time): Attempt {
    attempt.(status := Failed, phase := f.phase, failureReason := f.reason, canRetry := f.canRetry,
             firstOutputSent := f.firstOutputSent, completedAt := Some(now))
  }

  /** Stores a settled attempt with its slot, its node's last failure and its task. */
  function Settle(db: Database, attempt: Attempt, slot: Slot, nodes: map<Id, Node>, task: Task): Database {
    db.(attempts := db.attempts[attempt.id := attempt], slots := db.slots[slot.id := slot],
        nodes := nodes, tasks := db.tasks[task.id := task])
  }

  predicate Requeues(f: Failure) {
    f.canRetry && !f.firstOutputSent
  }

  function ReleasedByFailure(slot: Slot, profileId: Id): Slot {
    var idle := slot.(activeTaskId := "");
    if slot.profileId == profileId then idle.(state := Ready, acceptsNew := true) else idle.(state := Idle)
  }

  /** `handleAttemptFailed` past its guard. */
  function AttemptFailed(db: Database, f: Failure, now: Time, cfg: Config): Database {
    var attempt := FailedAttempt(AttemptAt(db, f.attemptId), f, now);
    var slot := FailedSlot(ReleasedByFailure(SlotAt(db, attempt.slotId), attempt.profileId), f.reason, now, cfg);
    Settle(db, attempt, slot, FailedNode(db.nodes, slot.nodeId, f.reason, now),
           RequeueOrFail(TaskAt(db, attempt.taskId), f.reason, attempt.slotId, Requeues(f), now))
  }

  /** `markAttemptFailed`. */
  function DispatchFailed(db: Database, f: Failure, now: Time, cfg: Config): Database {
    var attempt := FailedAttempt(AttemptAt(db, f.attemptId), f, now);
    var slot := FailedSlot(SlotAt(db, attempt.slotId).(state := Ready, activeTaskId := ""), f.reason, now, cfg);
    Settle(db, attempt, slot, FailedNode(db.nodes, slot.nodeId, f.reason, now),
           RequeueOrFail(TaskAt(db, attempt.taskId), f.reason, attempt.slotId, Requeues(f), now))
  }

  // ---------- compute reports ----------

  function ReportedAttempt(attempt: Attempt, r: Report, now: Time): Attempt {
    attempt.(status := r.status, phase := r.phase, failureReason := r.failureReason, canRetry := r.canRetry,
             completedAt := Some(now))
  }

  predicate ReportRequeues(attempt: Attempt, r: Report) {
    r.status == Failed && r.canRetry && !attempt.firstOutputSent
  }

  function ReportedTask(task: Task, attempt: Attempt, r: Report, now: Time): Task {
    if ReportRequeues(attempt, r) then RequeueOrFail(task, r.failureReason, r.slotId, true, now)
    else task.(failureReason := r.failureReason, updatedAt := now, status := r.status, completedAt := Some(now))
  }

  function ReportedSlot(slot: Slot, attempt: Attempt, r: Report, now: Time, cfg: Config): Slot {
    var idle := slot.(activeTaskId := "");
    var released :=
      if slot.profileId != r.profileId then idle.(state := Idle, acceptsNew := false)
      else idle.(state := Ready, acceptsNew := true,
                 mismatchReason := if r.status == Completed then "" else r.failureReason);
    if RecordsFailure(attempt, r) then FailedSlot(released, r.failureReason, now, cfg) else released
  }

  predicate RecordsFailure(attempt: Attempt, r: Report) {
    r.status == Failed && attempt.status != Failed
  }

  /** The report as stored: the worker's payload with the stored facts written over it. */
  function StoredReport(db: Database, report: Report): Report {
    var attempt := AttemptAt(db, report.attemptId);
    Accounted(db, Authoritative(report, attempt, TaskAt(db, attempt.taskId)))
  }

  /** `handleComputeReport` past its guard, for a report ID not seen before. */
  function ReportStored(db: Database, report: Report, now: Time, cfg: Config): Database {
    var attempt, r := AttemptAt(db, report.attemptId), StoredReport(db, report);
    var billed := Bill(db, r, now);
    var slot := ReportedSlot(SlotAt(db, r.slotId), attempt, r, now, cfg);
    Settle(db.(users := billed.users, ledger := billed.ledger, reports := db.reports[r.id := r]),
           ReportedAttempt(attempt, r, now), slot,
           if RecordsFailure(attempt, r) then FailedNode(db.nodes, slot.nodeId, r.failureReason, now) else db.nodes,
           ReportedTask(TaskAt(db, r.taskId), attempt, r, now))
  }

  function ComputeReport(db: Database, report: Report, now: Time, cfg: Config): Database {
    if report.id in db.reports then db else ReportStored(db, report, now, cfg)
  }

  /** Replaying a report whose ID is known changes nothing. */
  lemma ReplayChangesNothing(db: Database, report: Report, again: Report, now: Time, later: Time, cfg: Config)
    requires again.id == report.id
    ensures var once := ComputeReport(db, report, now, cfg); ComputeReport(once, again, later, cfg) == once
  {
    var once := ComputeReport(db, report, now, cfg);
    assert report.id in once.reports;
  }

  // ---------- disconnects ----------

  function DownSlot(nodeId: Id): Slot -> Slot {
    (slot: Slot) =>
      if slot.nodeId == nodeId && slot.state != Serving
      then slot.(state := Unavailable, acceptsNew := false, mismatchReason := FAILURE_WORKER_DISCONNECTED) else slot
  }

  /** `markDisconnectedNode`, on the node with its flap event recorded. */
  function NodeDown(db: Database, node: Node): Database {
    db.(nodes := db.nodes[node.id := node.(state := Offline, connectedSession := "")],
        slots := MapValues(db.slots, DownSlot(node.id)))
  }

  function DisconnectFailure(attempt: Attempt): Failure {
    Failure(attempt.id, attempt.taskId, FAILURE_WORKER_DISCONNECTED, FAILURE_WORKER_DISCONNECTED,
            !attempt.firstOutputSent, attempt.firstOutputSent)
  }

  /** `failDisconnectedAttempt` on the attempt stored under `id`. */
  function Dropped(db: Database, id: Id, now: Time, cfg: Config): Database {
    var was := AttemptAt(db, id);
    var f := DisconnectFailure(was);
    var attempt := FailedAttempt(was, f, now);
    var down := SlotAt(db, attempt.slotId).(
      activeTaskId := "", acceptsNew := false, state := Unavailable, mismatchReason := FAILURE_WORKER_DISCONNECTED);
    var slot := FailedSlot(down, f.reason, now, cfg);
    Settle(db, attempt, slot, FailedNode(db.nodes, slot.nodeId, f.reason, now),
           RequeueOrFail(TaskAt(db, attempt.taskId), f.reason, attempt.slotId, Requeues(f), now)).(
      attempts := db.attempts[id := attempt])
  }

  // ---------- slot state and registration ----------

  datatype SlotReport = SlotReport(
    slotId: Id, state: SlotState, profileId: Id, profileVersion: int, logicalModel: string, runtimeVariantId: Id,
    modelArtifactId: Id, modelSha256: string, activeTaskId: Id, mismatchReason: string)

  /** `applySlotStatePayload`. */
  function SlotReported(slot: Slot, p: SlotReport, now: Time): Slot {
    slot.(state := p.state, profileId := p.profileId,
          profileVersion := if p.profileVersion > 0 then p.profileVersion else slot.profileVersion,
          logicalModel := FirstNonEmpty(p.logicalModel, slot.logicalModel),
          runtimeVariantId := FirstNonEmpty(p.runtimeVariantId, slot.runtimeVariantId),
          modelArtifactId := FirstNonEmpty(p.modelArtifactId, slot.modelArtifactId),
          modelSha256 := FirstNonEmpty(p.modelSha256, slot.modelSha256),
          activeTaskId := p.activeTaskId,
          mismatchReason := if slot.quarantined then QUARANTINE_PREFIX + slot.quarantineReason else p.mismatchReason,
          acceptsNew := p.state == Ready && !slot.quarantined,
          lastReady := if p.state == Ready then now else slot.lastReady)
  }

  function UpdateSlotState(db: Database, p: SlotReport, now: Time): Database {
    var slot := SlotReported(SlotAt(db, p.slotId), p, now);
    db.(slots := db.slots[slot.id := slot])
  }

  function NormalizedSlot(slot: Slot, node: Node, target: string): Slot {
    var state := if slot.state == OtherSlotState("") then Idle else slot.state;
    slot.(id := FirstNonEmpty(slot.id, node.id + "/slot0"), nodeId := node.id,
          target := FirstNonEmpty(slot.target, target),
          adapter := if slot.adapter == "" && node.adapters != [] then node.adapters[0] else slot.adapter,
          state := state, acceptsNew := state == Ready)
  }

  /** `mergeSlotProfileState` and `copySlotFailureState`: failures and quarantine come from the stored slot. */
  function WithStored(slot: Slot, stored: Slot): Slot {
    slot.(profileId := FirstNonEmpty(slot.profileId, stored.profileId),
          profileVersion := FirstNonZero(slot.profileVersion, stored.profileVersion),
          runtimeVariantId := FirstNonEmpty(slot.runtimeVariantId, stored.runtimeVariantId),
          logicalModel := FirstNonEmpty(slot.logicalModel, stored.logicalModel),
          modelArtifactId := FirstNonEmpty(slot.modelArtifactId, stored.modelArtifactId),
          modelSha256 := FirstNonEmpty(slot.modelSha256, stored.modelSha256),
          failureCount := stored.failureCount, failureCounters := stored.failureCounters,
          lastFailure := stored.lastFailure, lastFailureAt := stored.lastFailureAt,
          quarantined := stored.quarantined, quarantineReason := stored.quarantineReason,
          quarantineUntil := stored.quarantineUntil)
  }

  function MergedSlot(slot: Slot, stored: Slot, now: Time): Slot {
    var merged := ExpireSlot(now)(WithStored(slot, stored));
    if merged.quarantined
    then merged.(acceptsNew := false, mismatchReason := QUARANTINE_PREFIX + merged.quarantineReason) else merged
  }

  function RegisterSlot(node: Node, target: string, now: Time): (map<Id, Slot>, Slot) -> map<Id, Slot> {
    (slots: map<Id, Slot>, slot: Slot) =>
      var incoming := NormalizedSlot(slot, node, target);
      var stored := if incoming.id in slots then slots[incoming.id] else ZERO_SLOT;
      slots[incoming.id := MergedSlot(incoming, stored, now)]
  }

  /** `upsertWorkerSlots`. */
  function RegisterSlots(
      slots: map<Id, Slot>, node: Node, target: string, reported: seq<Slot>, now: Time): map<Id, Slot> {
    Fold(RegisterSlot(node, target, now), slots, reported)
  }

  function Register(db: Database, node: Node, target: string, reported: seq<Slot>, now: Time): Database {
    db.(nodes := db.nodes[node.id := node], slots := RegisterSlots(db.slots, node, target, reported, now))
  }

  // ---------- administration ----------

  function DeleteNode(db: Database, id: Id): Database {
    db.(nodes := db.nodes - {id},
        slots := map k | k in db.slots && db.slots[k].nodeId != id :: db.slots[k],
        assignments := map k | k in db.assignments && db.assignments[k].nodeId != id :: db.assignments[k])
  }

  function NewUser(id: Id, name: string): User {
    User(id, FirstNonEmpty(name, id), 0, false)
  }

  function StoreUser(db: Database, user: User): Database {
    db.(users := db.users[user.id := user])
  }

  /** `adminAdjustmentEntry` for a non-empty user and a non-zero amount. */
  function AdjustmentEntry(userId: Id, amount: int, reason: string, now: Time): LedgerEntry {
    LedgerEntry(AdminAdjustment, userId, "", "", "", "", "", "", 0, 0, if amount < 0 then -amount else amount,
                if amount < 0 then Debit else Credit, FirstNonEmpty(reason, "admin adjustment"), now)
  }
}
