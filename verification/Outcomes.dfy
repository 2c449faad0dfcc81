/** What each outcome of an attempt leaves behind: the stored attempt, its task and its slot,
    said of their fields, and that nothing else is touched. */
module Outcomes {
  import opened Base
  import opened Model
  import opened Accounting
  import opened Handlers
  import opened Protocol
  import opened SlotFailures
  import opened Reservations

  // ---------- the records an outcome concerns ----------

  /** The attempt is stored under its ID, and so are its task and its slot. */
  predicate Filed(db: Database, id: Id) {
    && id in db.attempts && db.attempts[id].id == id
    && db.attempts[id].taskId in db.tasks && db.tasks[db.attempts[id].taskId].id == db.attempts[id].taskId
    && db.attempts[id].slotId in db.slots && db.slots[db.attempts[id].slotId].id == db.attempts[id].slotId
  }

  /** Only this attempt, its task and its slot may differ, and what is noted on the slot's node. */
  ghost predicate OnlySettles(db: Database, db': Database, id: Id) {
    && Filed(db, id)
    && SameBut(db.attempts, db'.attempts, id) && SameBut(db.tasks, db'.tasks, db.attempts[id].taskId)
    && SameBut(db.slots, db'.slots, db.attempts[id].slotId)
    && db'.profiles == db.profiles && db'.policies == db.policies && db'.assignments == db.assignments
    && db'.artifacts == db.artifacts && db'.updates == db.updates && db'.cacheIntents == db.cacheIntents
    && db'.nodes.Keys >= db.nodes.Keys
  }

  predicate SameTaskWork(a: Task, b: Task) {
    && b.id == a.id && b.userId == a.userId && b.profileId == a.profileId && b.profileVersion == a.profileVersion
    && b.logicalModel == a.logicalModel && b.computeCost == a.computeCost && b.stream == a.stream
    && b.createdAt == a.createdAt
  }

  predicate SameAttemptWork(a: Attempt, b: Attempt) {
    && b.id == a.id && b.taskId == a.taskId && b.userId == a.userId && b.nodeId == a.nodeId && b.slotId == a.slotId
    && b.profileId == a.profileId && b.computeCost == a.computeCost && b.runtimeVariantId == a.runtimeVariantId
    && b.startedAt == a.startedAt
  }

  /** The failed slots of before, and this one unless it has no ID. */
  ghost predicate SlotListed(before: seq<Id>, after: seq<Id>, slotId: Id) {
    (forall s :: s in before ==> s in after) && (forall s :: s in after ==> s in before || s == slotId)
    && (slotId != "" ==> slotId in after)
  }

  /** Waiting for its next attempt: queued, on no variant, not finished, and never again on this slot. */
  ghost predicate Requeued(a: Task, b: Task, reason: string, slotId: Id, now: Time) {
    && SameTaskWork(a, b) && b.failureReason == reason && b.updatedAt == now
    && b.status == Queued && b.runtimeVariantId == "" && b.completedAt == None
    && SlotListed(a.failedSlots, b.failedSlots, slotId)
  }

  /** Over, with this status and reason. */
  predicate Closed(a: Task, b: Task, status: TaskStatus, reason: string, now: Time) {
    && SameTaskWork(a, b) && b.failureReason == reason && b.updatedAt == now
    && b.status == status && b.completedAt == Some(now) && b.runtimeVariantId == a.runtimeVariantId
  }

  /** Free again: ready and open for work where the slot still has the profile. */
  predicate FreeAgain(a: Slot, b: Slot) {
    && b.activeTaskId == "" && b.state == Ready && b.acceptsNew
    && b.id == a.id && b.nodeId == a.nodeId && b.profileId == a.profileId
  }

  /** The slot has moved on to another profile: idle. */
  predicate IdleAgain(a: Slot, b: Slot) {
    b.activeTaskId == "" && b.state == Idle && b.id == a.id && b.nodeId == a.nodeId && b.profileId == a.profileId
  }

  /** A worker that is gone: the slot has no task and takes none. */
  predicate LostSlot(a: Slot, b: Slot) {
    && b.activeTaskId == "" && b.state == Unavailable && !b.acceptsNew
    && b.id == a.id && b.nodeId == a.nodeId && b.profileId == a.profileId
  }

  predicate SameFailureState(a: Slot, b: Slot) {
    && b.failureCount == a.failureCount && b.failureCounters == a.failureCounters && b.quarantined == a.quarantined
    && b.quarantineReason == a.quarantineReason && b.quarantineUntil == a.quarantineUntil
  }

  // ---------- compute reports ----------

  /** A failed report may be tried again when it says so and the attempt sent no output. */
  predicate TriesAgain(attempt: Attempt, report: Report) {
    report.status == Failed && report.canRetry && !attempt.firstOutputSent
  }

  predicate ReportOnFile(db: Database, report: Report) {
    Filed(db, report.attemptId) && report.id !in db.reports
  }

  /** The profile the attempt ran: its own, or its task's when it names none. */
  function ProfileRun(db: Database, attempt: Attempt): Id {
    if attempt.profileId != "" then attempt.profileId else TaskAt(db, attempt.taskId).profileId
  }

  lemma ReportSettles(db: Database, report: Report, now: Time, cfg: Config)
    requires ReportOnFile(db, report)
    ensures OnlySettles(db, ComputeReport(db, report, now, cfg), report.attemptId)
    ensures ComputeReport(db, report, now, cfg).reports.Keys == db.reports.Keys + {report.id}
  {
    StoredReportNames(db, report);
    BilledFromStore(db, report);
    BillOnlyBooks(db, StoredReport(db, report), now);
    FailedSlotKeepsPlace(db, report, now, cfg);
  }

  lemma FailedSlotKeepsPlace(db: Database, report: Report, now: Time, cfg: Config)
    ensures ReportedSlot(SlotAt(db, StoredReport(db, report).slotId), AttemptAt(db, report.attemptId),
                         StoredReport(db, report), now, cfg).id
         == SlotAt(db, AttemptAt(db, report.attemptId).slotId).id
  {
    StoredReportNames(db, report);
  }

  /** The task and the attempt have the report's status and reason; only a retryable failure
      before any output queues the task again, away from this slot. */
  ghost predicate TaskAfterReport(db: Database, db': Database, report: Report, now: Time) {
    && OnlySettles(db, db', report.attemptId)
    && var a := db.attempts[report.attemptId];
       var t, a' := db.tasks[a.taskId], db'.attempts[report.attemptId];
       && SameAttemptWork(a, a') && a'.status == report.status && a'.failureReason == report.failureReason
       && a'.phase == report.phase && a'.canRetry == report.canRetry && a'.completedAt == Some(now)
       && a'.firstOutputSent == a.firstOutputSent
       && if TriesAgain(a, report) then Requeued(t, db'.tasks[a.taskId], report.failureReason, a.slotId, now)
          else Closed(t, db'.tasks[a.taskId], report.status, report.failureReason, now)
  }

  lemma ReportedTaskIs(db: Database, report: Report, now: Time, cfg: Config)
    requires ReportOnFile(db, report)
    ensures TaskAfterReport(db, ComputeReport(db, report, now, cfg), report, now)
  {
    ReportSettles(db, report, now, cfg);
    StoredReportNames(db, report);
    BilledFromStore(db, report);
  }

  /** The slot is free again, or idle when it has moved on; a completion clears its remark, and a
      failure not reported before is recorded on it. */
  ghost predicate SlotAfterReport(a: Slot, b: Slot, pid: Id, attempt: Attempt, report: Report, now: Time, cfg: Config) {
    exists x: Slot :: SameFailureState(a, x)
      && (if a.profileId == pid
          then FreeAgain(a, x) && x.mismatchReason == (if report.status == Completed then "" else report.failureReason)
          else IdleAgain(a, x) && !x.acceptsNew && x.mismatchReason == a.mismatchReason)
      && if report.status == Failed && attempt.status != Failed
         then FailureRecorded(x, b, report.failureReason, now, cfg) else b == x
  }

  lemma ReportedSlotIs(db: Database, report: Report, now: Time, cfg: Config)
    requires ReportOnFile(db, report)
    ensures var a, db' := db.attempts[report.attemptId], ComputeReport(db, report, now, cfg);
            && OnlySettles(db, db', report.attemptId)
            && SlotAfterReport(db.slots[a.slotId], db'.slots[a.slotId], ProfileRun(db, a), a, report, now, cfg)
  {
    var a := db.attempts[report.attemptId];
    ReportSettles(db, report, now, cfg);
    StoredReportNames(db, report);
    ReleasedIs(db.slots[a.slotId], ProfileRun(db, a), a, StoredReport(db, report), report, now, cfg);
  }

  /** A new report is stored; its task and attempt are closed or queued again, its slot is
      released, and nothing else but the books is touched. */
  ghost predicate AfterReport(db: Database, db': Database, report: Report, now: Time, cfg: Config) {
    && TaskAfterReport(db, db', report, now) && db'.reports.Keys == db.reports.Keys + {report.id}
    && var a := db.attempts[report.attemptId];
       SlotAfterReport(db.slots[a.slotId], db'.slots[a.slotId], ProfileRun(db, a), a, report, now, cfg)
  }

  lemma ReportIs(db: Database, report: Report, now: Time, cfg: Config)
    requires ReportOnFile(db, report)
    ensures AfterReport(db, ComputeReport(db, report, now, cfg), report, now, cfg)
  {
    ReportSettles(db, report, now, cfg);
    ReportedTaskIs(db, report, now, cfg);
    ReportedSlotIs(db, report, now, cfg);
  }

  lemma ReleasedIs(slot: Slot, pid: Id, a: Attempt, r: Report, report: Report, now: Time, cfg: Config)
    requires r.status == report.status && r.failureReason == report.failureReason && r.profileId == pid
    ensures SlotAfterReport(slot, ReportedSlot(slot, a, r, now, cfg), pid, a, report, now, cfg)
  {
    var idle := slot.(activeTaskId := "");
    var released :=
      if slot.profileId != r.profileId then idle.(state := Idle, acceptsNew := false)
      else idle.(state := Ready, acceptsNew := true,
                 mismatchReason := if r.status == Completed then "" else r.failureReason);
    assert SameFailureState(slot, released);
    FailedSlotRecords(released, r.failureReason, now, cfg);
  }

  // ---------- failures ----------

  /** The attempt failed, as the failure says. */
  predicate AttemptOver(a: Attempt, b: Attempt, f: Failure, now: Time) {
    && SameAttemptWork(a, b) && b.status == Failed && b.failureReason == f.reason && b.phase == f.phase
    && b.canRetry == f.canRetry && b.firstOutputSent == f.firstOutputSent && b.completedAt == Some(now)
  }

  ghost predicate TaskAfterFailure(a: Task, b: Task, f: Failure, slotId: Id, now: Time) {
    if f.canRetry && !f.firstOutputSent then Requeued(a, b, f.reason, slotId, now)
    else Closed(a, b, Failed, f.reason, now) && SlotListed(a.failedSlots, b.failedSlots, slotId)
  }

  /** The slot is released as `released` says, and then the failure is recorded on it. */
  ghost predicate SlotAfterFailure(a: Slot, b: Slot, released: Slot -> bool, reason: string, now: Time, cfg: Config) {
    exists x: Slot :: SameFailureState(a, x) && released(x) && FailureRecorded(x, b, reason, now, cfg)
  }

  lemma SettleOnly(db: Database, id: Id, attempt: Attempt, slot: Slot, nodes: map<Id, Node>, task: Task)
    requires Filed(db, id) && attempt.id == id && task.id == db.attempts[id].taskId
    requires slot.id == db.attempts[id].slotId && nodes.Keys >= db.nodes.Keys
    ensures var db' := Settle(db, attempt, slot, nodes, task);
            && OnlySettles(db, db', id) && db'.attempts[id] == attempt && db'.slots[db.attempts[id].slotId] == slot
            && db'.tasks[db.attempts[id].taskId] == task
  {
  }

  lemma TaskOutcomeIs(task: Task, f: Failure, slotId: Id, now: Time)
    ensures TaskAfterFailure(task, RequeueOrFail(task, f.reason, slotId, Requeues(f), now), f, slotId, now)
  {
  }

  lemma FailedFrom(a: Slot, x: Slot, released: Slot -> bool, reason: string, now: Time, cfg: Config)
    requires SameFailureState(a, x) && released(x)
    ensures SlotAfterFailure(a, FailedSlot(x, reason, now, cfg), released, reason, now, cfg)
    ensures FailedSlot(x, reason, now, cfg).id == x.id
  {
    FailedSlotRecords(x, reason, now, cfg);
  }

  lemma NodesKept(nodes: map<Id, Node>, nodeId: Id, reason: string, now: Time)
    ensures FailedNode(nodes, nodeId, reason, now).Keys >= nodes.Keys
  {
  }

  /** The attempt is over as `f` says, its task waits again or has failed, its slot is
      released and has the failure on record, and nothing else is touched. */
  ghost predicate AfterFailure(
      db: Database, db': Database, id: Id, f: Failure, released: Slot -> bool, now: Time, cfg: Config) {
    && OnlySettles(db, db', id)
    && var a := db.attempts[id];
       && AttemptOver(a, db'.attempts[id], f, now)
       && TaskAfterFailure(db.tasks[a.taskId], db'.tasks[a.taskId], f, a.slotId, now)
       && SlotAfterFailure(db.slots[a.slotId], db'.slots[a.slotId], released, f.reason, now, cfg)
  }

  lemma SettledIs(db: Database, id: Id, f: Failure, x: Slot, released: Slot -> bool, now: Time, cfg: Config)
    requires Filed(db, id)
    requires SameFailureState(db.slots[db.attempts[id].slotId], x) && released(x) && x.id == db.attempts[id].slotId
    ensures var attempt := FailedAttempt(db.attempts[id], f, now);
            var slot := FailedSlot(x, f.reason, now, cfg);
            AfterFailure(
              db,
              Settle(db, attempt, slot, FailedNode(db.nodes, slot.nodeId, f.reason, now),
                     RequeueOrFail(db.tasks[attempt.taskId], f.reason, attempt.slotId, Requeues(f), now)),
              id, f, released, now, cfg)
  {
    var a := db.attempts[id];
    var attempt, slot := FailedAttempt(a, f, now), FailedSlot(x, f.reason, now, cfg);
    FailedFrom(db.slots[a.slotId], x, released, f.reason, now, cfg);
    NodesKept(db.nodes, slot.nodeId, f.reason, now);
    TaskOutcomeIs(db.tasks[a.taskId], f, a.slotId, now);
    SettleOnly(db, id, attempt, slot, FailedNode(db.nodes, slot.nodeId, f.reason, now),
               RequeueOrFail(db.tasks[a.taskId], f.reason, a.slotId, Requeues(f), now));
  }

  /** A failure reported by the worker frees the slot, or leaves it idle when it has moved on. */
  function FreedFrom(a: Slot, pid: Id): Slot -> bool {
    (x: Slot) =>
      if a.profileId == pid then FreeAgain(a, x) else IdleAgain(a, x) && x.acceptsNew == a.acceptsNew
  }

  function FreedBy(db: Database, id: Id): Slot -> bool
    requires Filed(db, id)
  {
    FreedFrom(db.slots[db.attempts[id].slotId], db.attempts[id].profileId)
  }

  lemma FailureIs(db: Database, f: Failure, now: Time, cfg: Config)
    requires Filed(db, f.attemptId)
    ensures AfterFailure(db, AttemptFailed(db, f, now, cfg), f.attemptId, f, FreedBy(db, f.attemptId), now, cfg)
  {
    var a := db.attempts[f.attemptId];
    var x := ReleasedByFailure(db.slots[a.slotId], a.profileId);
    SettledIs(db, f.attemptId, f, x, FreedFrom(db.slots[a.slotId], a.profileId), now, cfg);
  }

  /** A dispatch that reached no worker leaves the slot ready and without a task, as open as it was. */
  function Undispatched(a: Slot): Slot -> bool {
    (x: Slot) =>
      && x.activeTaskId == "" && x.state == Ready && x.acceptsNew == a.acceptsNew
      && x.id == a.id && x.nodeId == a.nodeId && x.profileId == a.profileId
  }

  function UndispatchedBy(db: Database, id: Id): Slot -> bool
    requires Filed(db, id)
  {
    Undispatched(db.slots[db.attempts[id].slotId])
  }

  lemma DispatchFailureIs(db: Database, f: Failure, now: Time, cfg: Config)
    requires Filed(db, f.attemptId)
    ensures AfterFailure(db, DispatchFailed(db, f, now, cfg), f.attemptId, f, UndispatchedBy(db, f.attemptId), now, cfg)
  {
    var slot := db.slots[db.attempts[f.attemptId].slotId];
    SettledIs(db, f.attemptId, f, slot.(state := Ready, activeTaskId := ""), Undispatched(slot), now, cfg);
  }

  function Lost(a: Slot): Slot -> bool {
    (x: Slot) => LostSlot(a, x)
  }

  /** What a disconnect says of an attempt: it may be tried again exactly when it sent no output. */
  predicate SaysLost(a: Attempt, f: Failure) {
    && f.attemptId == a.id && f.taskId == a.taskId && f.reason == "worker_disconnected"
    && f.phase == "worker_disconnected" && f.canRetry == !a.firstOutputSent && f.firstOutputSent == a.firstOutputSent
  }

  lemma DropIs(db: Database, id: Id, now: Time, cfg: Config)
    requires Filed(db, id)
    ensures var a, f := db.attempts[id], DisconnectFailure(db.attempts[id]);
            && SaysLost(a, f)
            && AfterFailure(db, Dropped(db, id, now, cfg), id, f, Lost(db.slots[a.slotId]), now, cfg)
  {
    var f, slot := DisconnectFailure(db.attempts[id]), db.slots[db.attempts[id].slotId];
    var down := slot.(
      activeTaskId := "", acceptsNew := false, state := Unavailable, mismatchReason := FAILURE_WORKER_DISCONNECTED);
    SettledIs(db, id, f, down, Lost(slot), now, cfg);
    DropSettles(db, id, down, now, cfg);
  }

  lemma DropSettles(db: Database, id: Id, down: Slot, now: Time, cfg: Config)
    requires Filed(db, id)
    requires down == db.slots[db.attempts[id].slotId].(
               activeTaskId := "", acceptsNew := false, state := Unavailable,
               mismatchReason := FAILURE_WORKER_DISCONNECTED)
    ensures var f := DisconnectFailure(db.attempts[id]);
            var attempt, slot := FailedAttempt(db.attempts[id], f, now), FailedSlot(down, f.reason, now, cfg);
            Dropped(db, id, now, cfg) ==
            Settle(db, attempt, slot, FailedNode(db.nodes, slot.nodeId, f.reason, now),
                   RequeueOrFail(db.tasks[attempt.taskId], f.reason, attempt.slotId, Requeues(f), now))
  {
  }

  // ---------- an attempt under way ----------

  /** A started attempt runs; the first output is on record for good, and rules out another try. */
  lemma AttemptUnderWay(db: Database, id: Id)
    requires id in db.attempts && db.attempts[id].id == id
    ensures var a, started, sent := db.attempts[id], AttemptStarted(db, id), FirstOutput(db, id);
            && started == db.(attempts := started.attempts) && SameBut(db.attempts, started.attempts, id)
            && started.attempts[id] == a.(status := Running, phase := "running")
            && sent == db.(attempts := sent.attempts) && SameBut(db.attempts, sent.attempts, id)
            && sent.attempts[id].firstOutputSent && sent.attempts[id].status == a.status
            && (!a.firstOutputSent ==> !sent.attempts[id].canRetry)
            && (a.firstOutputSent ==> sent == db)
  {
  }

  // ---------- a task that ends without an attempt's outcome ----------

  predicate Ended(s: TaskStatus) {
    s == Completed || s == Failed || s == Cancelled
  }

  /** A stored task that has not ended is cancelled, or fails, with the reason; one that has ended
      stays as it is. */
  lemma TaskEndIs(db: Database, id: Id, reason: string, now: Time)
    requires id in db.tasks && db.tasks[id].id == id && id != ""
    ensures var t, cancelled, failed := db.tasks[id], RequestCancel(db, id, reason, now), FailTask(db, id, reason, now);
            if Ended(t.status) then cancelled == db && failed == db
            else
              && cancelled == db.(tasks := cancelled.tasks) && failed == db.(tasks := failed.tasks)
              && SameBut(db.tasks, cancelled.tasks, id) && Closed(t, cancelled.tasks[id], Cancelled, reason, now)
              && SameBut(db.tasks, failed.tasks, id) && Closed(t, failed.tasks[id], Failed, reason, now)
  {
  }

  // ---------- what a report costs ----------

  /** A ledger entry for this attempt's report: its task, its node and the cost. */
  predicate EntryFor(e: LedgerEntry, a: Attempt, report: Report, user: Id, cost: int, direction: Direction) {
    && e.reportId == report.id && e.attemptId == report.attemptId && e.taskId == a.taskId && e.nodeId == a.nodeId
    && e.userId == user && e.amount == cost && e.direction == direction
    && e.kind == (if direction == Debit then ConsumeCompute else ProduceCompute)
  }

  /** The bill is due: a completion that costs something and that no entry mentions yet. */
  predicate Due(db: Database, a: Attempt, report: Report) {
    report.status == Completed && a.computeCost > 0 && forall e :: e in db.ledger ==> e.reportId != report.id
  }

  function OwnerOf(db: Database, a: Attempt): Id {
    NodeAt(db, a.nodeId).ownerUserId
  }

  /** The entries a due bill adds: a debit for a known user, then a credit for a known owner. */
  ghost predicate Billed(before: seq<LedgerEntry>, after: seq<LedgerEntry>, db: Database, a: Attempt, report: Report) {
    var pays, earns := a.userId in db.users, OwnerOf(db, a) != "" && OwnerOf(db, a) in db.users;
    var n := |before|;
    && |after| == n + (if pays then 1 else 0) + (if earns then 1 else 0) && after[..n] == before
    && (pays ==> EntryFor(after[n], a, report, a.userId, a.computeCost, Debit))
    && (earns ==> EntryFor(after[|after| - 1], a, report, OwnerOf(db, a), a.computeCost, Credit))
  }

  lemma StoredBill(db: Database, report: Report)
    requires report.attemptId in db.attempts
    requires db.attempts[report.attemptId].userId != "" && db.attempts[report.attemptId].computeCost != 0
    ensures var a, r := db.attempts[report.attemptId], StoredReport(db, report);
            && r.userId == a.userId && r.computeCost == a.computeCost && r.taskId == a.taskId && r.nodeId == a.nodeId
            && r.id == report.id && r.status == report.status && r.attemptId == report.attemptId
  {
    BilledFromStore(db, report);
  }

  lemma Appends(db: Database, e: LedgerEntry)
    requires UsersKeyed(db.users)
    ensures AppendLedgerEntry(db, e).ledger == db.ledger + [e] && AppendLedgerEntry(db, e).nodes == db.nodes
    ensures AppendLedgerEntry(db, e).users.Keys == db.users.Keys
  {
  }

  lemma ConsumeKeyed(db: Database, r: Report, now: Time)
    requires UsersKeyed(db.users)
    ensures UsersKeyed(Consume(db, r, now).users)
  {
    if r.userId in db.users {
      AppendBalance(db, ConsumptionEntry(r, now), "");
    }
  }

  lemma BillAdds(db: Database, a: Attempt, report: Report, r: Report, now: Time)
    requires UsersKeyed(db.users)
    requires r.userId == a.userId && r.computeCost == a.computeCost && r.taskId == a.taskId && r.nodeId == a.nodeId
    requires r.id == report.id && r.status == report.status && r.attemptId == report.attemptId
    ensures if Due(db, a, report) then Billed(db.ledger, Bill(db, r, now).ledger, db, a, report)
            else Bill(db, r, now) == db
  {
    var owner, mid := OwnerOf(db, a), Consume(db, r, now);
    if r.userId in db.users {
      Appends(db, ConsumptionEntry(r, now));
    }
    if owner != "" && owner in db.users {
      ConsumeKeyed(db, r, now);
      Appends(mid, ProductionEntry(r, owner, now));
    }
  }

  lemma BooksAre(db: Database, report: Report, now: Time, cfg: Config)
    requires report.id !in db.reports
    ensures var db', billed := ComputeReport(db, report, now, cfg), Bill(db, StoredReport(db, report), now);
            db'.ledger == billed.ledger && db'.users == billed.users
  {
  }

  /** A new report for an attempt of a known cost is billed exactly when it is due: the debit and
      the credit it names, and the balances moved by them; otherwise books stay as they are. */
  lemma ReportBills(db: Database, report: Report, now: Time, cfg: Config, u: Id)
    requires ReportOnFile(db, report) && UsersKeyed(db.users)
    requires db.attempts[report.attemptId].userId != "" && db.attempts[report.attemptId].computeCost != 0
    ensures var a, db' := db.attempts[report.attemptId], ComputeReport(db, report, now, cfg);
            if Due(db, a, report)
            then Billed(db.ledger, db'.ledger, db, a, report)
                 && Balance(db'.users, u) == Balance(db.users, u)
                    - (if u in db.users && u == a.userId then a.computeCost else 0)
                    + (if u in db.users && u == OwnerOf(db, a) then a.computeCost else 0)
            else db'.ledger == db.ledger && db'.users == db.users
  {
    var a, r := db.attempts[report.attemptId], StoredReport(db, report);
    StoredBill(db, report);
    BooksAre(db, report, now, cfg);
    BillAdds(db, a, report, r, now);
    BillBalance(db, r, now, u);
  }

  /** An administrator's adjustment moves exactly that user's balance by exactly that amount. */
  lemma AdjustmentMoves(db: Database, id: Id, amount: int, reason: string, now: Time, u: Id)
    requires UsersKeyed(db.users)
    ensures var db' := AdminDb(db, Adjust(id, amount, reason), now);
            && Balance(db'.users, u) == Balance(db.users, u) + (if u == id && id in db.users then amount else 0)
            && |db'.ledger| == |db.ledger| + (if id in db.users && amount != 0 then 1 else 0)
            && db' == db.(users := db'.users, ledger := db'.ledger)
  {
    if id in db.users && amount != 0 {
      AppendBalance(db, AdjustmentEntry(id, amount, reason, now), u);
      AppendOnlyBooks(db, AdjustmentEntry(id, amount, reason, now));
    }
  }
}
