/** The handlers as they run: each updates the manager's store in place, and is proved to
    do what its function in module Handlers says. */
module ManagerStore {
  import opened Base
  import opened Traces
  import opened Model
  import opened Fit
  import opened Store
  import opened Accounting
  import opened Handlers
  import opened Protocol
  import opened SlotFailures
  import opened Reservations
  import opened Outcomes
  import opened Fleet
  import Flap

  // ---------- slot failures ----------

  method RecordSlotFailure(store: Store, slot: Slot, reason: string, now: Time, cfg: Config) returns (failed: Slot)
    modifies store
    ensures failed == FailedSlot(slot, reason, now, cfg) && FailureRecorded(slot, failed, reason, now, cfg)
    ensures store.db == old(store.db).(nodes := FailedNode(old(store.db).nodes, slot.nodeId, reason, now))
  {
    FailedSlotRecords(slot, reason, now, cfg);
    failed := CountFailure(slot, reason, now, cfg);
    NoteNodeFailure(store, slot.nodeId, reason, now);
  }

  method NoteNodeFailure(store: Store, nodeId: Id, reason: string, now: Time)
    modifies store
    ensures store.db == old(store.db).(nodes := FailedNode(old(store.db).nodes, nodeId, reason, now))
  {
    if nodeId in store.db.nodes && store.db.nodes[nodeId].id != "" {
      var node := store.db.nodes[nodeId].(lastFailure := FailureReason(reason), lastFailureAt := Some(now));
      store.db := store.db.(nodes := store.db.nodes[node.id := node]);
    }
  }

  method CountFailure(slot: Slot, reason: string, now: Time, cfg: Config) returns (failed: Slot)
    ensures failed == FailedSlot(slot, reason, now, cfg)
  {
    var why := FailureReason(reason);
    var counters := slot.failureCounters[why := Get(slot.failureCounters, why) + 1];
    failed := slot.(failureCount := slot.failureCount + 1, failureCounters := counters,
                    lastFailure := why, lastFailureAt := Some(now));
    if counters[why] >= Threshold(cfg) {
      failed := failed.(quarantined := true, quarantineReason := why, quarantineUntil := Some(now + Duration(cfg)),
                        acceptsNew := false, mismatchReason := QUARANTINE_PREFIX + why);
    }
  }

  method ClearExpiredQuarantines(store: Store, now: Time)
    modifies store
    ensures store.db == ClearExpired(old(store.db), now) && BansExpired(old(store.db), store.db, now)
  {
    ExpiryIs(store.db, now);
    ExpireNodes(store, now);
    ExpireSlots(store, now);
  }

  method ExpireNodes(store: Store, now: Time)
    modifies store
    ensures store.db == old(store.db).(nodes := MapValues(old(store.db).nodes, ExpireNode(now)))
  {
    ghost var before, expire := store.db, ExpireNode(now);
    var todo := store.db.nodes.Keys;
    while todo != {}
      invariant store.db == before.(nodes := store.db.nodes) && MappedSoFar(store.db.nodes, before.nodes, expire, todo)
      decreases |todo|
    {
      var id :| id in todo;
      MapNext(store.db.nodes, before.nodes, expire, todo, id);
      todo := todo - {id};
      if NodeQuarantineExpired(store.db.nodes[id], now) {
        store.db := store.db.(nodes := store.db.nodes[id := ClearNodeQuarantine(store.db.nodes[id])]);
      }
    }
    MapDone(store.db.nodes, before.nodes, expire);
  }

  method ExpireSlots(store: Store, now: Time)
    modifies store
    ensures store.db == old(store.db).(slots := MapValues(old(store.db).slots, ExpireSlot(now)))
  {
    ghost var before, expire := store.db, ExpireSlot(now);
    var todo := store.db.slots.Keys;
    while todo != {}
      invariant store.db == before.(slots := store.db.slots) && MappedSoFar(store.db.slots, before.slots, expire, todo)
      decreases |todo|
    {
      var id :| id in todo;
      MapNext(store.db.slots, before.slots, expire, todo, id);
      todo := todo - {id};
      if QuarantineExpired(store.db.slots[id], now) {
        store.db := store.db.(slots := store.db.slots[id := ClearSlotQuarantine(store.db.slots[id])]);
      }
    }
    MapDone(store.db.slots, before.slots, expire);
  }

  // ---------- requests ----------

  method StoreNewTask(store: Store, task: Task, enforce: bool) returns (ok: bool)
    modifies store
    ensures ok <==> Sufficient(old(store.db), task.userId, task.computeCost, enforce)
    ensures store.db == if ok then StoreTask(old(store.db), task) else old(store.db)
  {
    ok := EnsureSufficientAvailableBalance(store.db, task.userId, task.computeCost, enforce);
    if !ok {
      return;
    }
    store.db := store.db.(tasks := store.db.tasks[task.id := task]);
  }

  /** `failedSlotsForTask`: the task's list, and the slots of its failed attempts. */
  method FailedSlotsForTask(db: Database, taskId: Id) returns (failed: set<Id>)
    ensures failed == FailedSlots(db, taskId)
  {
    failed := {};
    var listed := TaskAt(db, taskId).failedSlots;
    for i := 0 to |listed|
      invariant failed == set s | s in listed[..i]
    {
      failed := failed + {listed[i]};
    }
    assert listed[..|listed|] == listed;
    var attempted := FailedAttemptSlots(db, taskId);
    failed := failed + attempted;
  }

  ghost predicate FailedFor(db: Database, taskId: Id, k: Id) {
    k in db.attempts && db.attempts[k].taskId == taskId && db.attempts[k].status == Failed
  }

  method FailedAttemptSlots(db: Database, taskId: Id) returns (failed: set<Id>)
    ensures failed == set k | k in db.attempts && db.attempts[k].taskId == taskId && db.attempts[k].status == Failed
                      :: db.attempts[k].slotId
  {
    failed := {};
    var todo := db.attempts.Keys;
    while todo != {}
      invariant todo <= db.attempts.Keys
      invariant forall s :: s in failed <==>
                exists k :: FailedFor(db, taskId, k) && k !in todo && db.attempts[k].slotId == s
      decreases |todo|
    {
      var k :| k in todo;
      todo := todo - {k};
      if db.attempts[k].taskId == taskId && db.attempts[k].status == Failed {
        failed := failed + {db.attempts[k].slotId};
      }
    }
  }

  datatype ReserveResult = ReserveOk | TaskCancelled | SlotUnavailable

  method ReserveAttemptInDB(
      store: Store, task: Task, profile: Profile, effective: Profile, slot: Slot, attempt: Attempt, now: Time)
    returns (r: ReserveResult)
    modifies store
    ensures r == TaskCancelled <==> TaskAt(old(store.db), task.id).status == Cancelled
    ensures r == ReserveOk <==> Reservable(old(store.db), task.id, profile.id, effective.runtimeVariantId, slot.id)
    ensures store.db
          == if r == ReserveOk then Reserve(old(store.db), task.id, profile, effective, slot.id, attempt, now)
                        else old(store.db)
    ensures r == ReserveOk && OnFile(old(store.db), task.id, slot.id) ==>
              && SlotTaken(old(store.db).slots, store.db.slots, slot.id, task.id, now)
              && TaskRuns(old(store.db).tasks, store.db.tasks, task.id, profile, effective)
              && AttemptAdded(old(store.db).attempts, store.db.attempts, attempt)
  {
    if OnFile(store.db, task.id, slot.id) {
      ReservedState(store.db, task.id, profile, effective, slot.id, attempt, now);
    }
    var stored := TaskAt(store.db, task.id);
    if stored.status == Cancelled {
      return TaskCancelled;
    }
    if stored.status != Queued {
      return SlotUnavailable;
    }
    var current := SlotAt(store.db, slot.id);
    if current.state != Ready || current.activeTaskId != "" || !current.acceptsNew || current.quarantined {
      return SlotUnavailable;
    }
    if current.profileId != profile.id || current.runtimeVariantId != effective.runtimeVariantId {
      return SlotUnavailable;
    }
    current := ServingSlot(current, task.id, now);
    store.db := store.db.(slots := store.db.slots[current.id := current]);
    stored := RunningTask(stored, profile, effective, now);
    store.db := store.db.(tasks := store.db.tasks[stored.id := stored]);
    store.db := store.db.(attempts := store.db.attempts[attempt.id := attempt]);
    return ReserveOk;
  }

  method FailStoredTask(store: Store, taskId: Id, reason: string, now: Time)
    modifies store
    ensures store.db == FailTask(old(store.db), taskId, reason, now)
  {
    var task := TaskAt(store.db, taskId);
    if task.status == Completed || task.status == Failed || task.status == Cancelled {
      return;
    }
    task := task.(status := Failed, failureReason := reason, updatedAt := now, completedAt := Some(now));
    store.db := store.db.(tasks := store.db.tasks[taskId := task]);
  }

  method MarkTaskCancelRequested(store: Store, taskId: Id, reason: string, now: Time)
    modifies store
    ensures store.db == RequestCancel(old(store.db), taskId, reason, now)
  {
    var task := TaskAt(store.db, taskId);
    if task.id == "" || task.status == Completed || task.status == Failed || task.status == Cancelled {
      return;
    }
    task := task.(status := Cancelled, failureReason := reason, updatedAt := now, completedAt := Some(now));
    store.db := store.db.(tasks := store.db.tasks[task.id := task]);
  }

  // ---------- outcomes of attempts ----------

  method PutTaskOutcome(store: Store, taskId: Id, reason: string, slotId: Id, requeue: bool, now: Time)
    modifies store
    ensures var task := RequeueOrFail(TaskAt(old(store.db), taskId), reason, slotId, requeue, now);
            store.db == old(store.db).(tasks := old(store.db).tasks[task.id := task])
  {
    var task := TaskAt(store.db, taskId);
    task := task.(failureReason := reason, updatedAt := now, failedSlots := AppendUnique(task.failedSlots, slotId));
    if requeue {
      task := task.(status := Queued, runtimeVariantId := "", completedAt := None);
    } else {
      task := task.(status := Failed, completedAt := Some(now));
    }
    store.db := store.db.(tasks := store.db.tasks[task.id := task]);
  }

  method PutFailedSlot(store: Store, slot: Slot, reason: string, now: Time, cfg: Config)
    modifies store
    ensures var failed := FailedSlot(slot, reason, now, cfg);
            store.db == old(store.db).(slots := old(store.db).slots[failed.id := failed],
                                       nodes := FailedNode(old(store.db).nodes, slot.nodeId, reason, now))
  {
    var failed := RecordSlotFailure(store, slot, reason, now, cfg);
    store.db := store.db.(slots := store.db.slots[failed.id := failed]);
  }

  method ReleaseSlot(slot: Slot, profileId: Id) returns (released: Slot)
    ensures released == ReleasedByFailure(slot, profileId)
  {
    released := slot.(activeTaskId := "");
    if slot.profileId == profileId {
      released := released.(state := Ready, acceptsNew := true);
    } else {
      released := released.(state := Idle);
    }
  }

  method HandleAttemptFailed(store: Store, nodeId: Id, f: Failure, now: Time, cfg: Config) returns (ok: bool)
    modifies store
    ensures ok <==> WorkerAttempt(old(store.db), nodeId, f.attemptId, f.taskId)
    ensures store.db == if ok then AttemptFailed(old(store.db), f, now, cfg) else old(store.db)
    ensures ok && Filed(old(store.db), f.attemptId) ==>
              AfterFailure(old(store.db), store.db, f.attemptId, f, FreedBy(old(store.db), f.attemptId), now, cfg)
  {
    if Filed(store.db, f.attemptId) {
      FailureIs(store.db, f, now, cfg);
    }
    ok := WorkerAttempt(store.db, nodeId, f.attemptId, f.taskId);
    if !ok {
      return;
    }
    FailWorkerAttempt(store, f, now, cfg);
  }

  /** The rest of an outcome: a failed attempt is stored with its slot and its task. */
  method StoreOutcome(store: Store, attempt: Attempt, slot: Slot, reason: string, requeue: bool, now: Time, cfg: Config)
    modifies store
    ensures store.db == Settle(
              old(store.db), attempt, FailedSlot(slot, reason, now, cfg),
              FailedNode(old(store.db).nodes, slot.nodeId, reason, now),
              RequeueOrFail(TaskAt(old(store.db), attempt.taskId), reason, attempt.slotId, requeue, now))
  {
    store.db := store.db.(attempts := store.db.attempts[attempt.id := attempt]);
    PutFailedSlot(store, slot, reason, now, cfg);
    PutTaskOutcome(store, attempt.taskId, reason, attempt.slotId, requeue, now);
  }

  method FailWorkerAttempt(store: Store, f: Failure, now: Time, cfg: Config)
    requires f.attemptId in store.db.attempts
    modifies store
    ensures store.db == AttemptFailed(old(store.db), f, now, cfg)
  {
    var attempt := FailedAttempt(store.db.attempts[f.attemptId], f, now);
    var slot := ReleaseSlot(SlotAt(store.db, attempt.slotId), attempt.profileId);
    StoreOutcome(store, attempt, slot, f.reason, f.canRetry && !f.firstOutputSent, now, cfg);
  }

  /** A dispatch failure, stored under the ID it names. */
  function FailedUnder(db: Database, f: Failure, now: Time, cfg: Config): Database {
    DispatchFailed(db, f, now, cfg).(
      attempts := db.attempts[f.attemptId := FailedAttempt(AttemptAt(db, f.attemptId), f, now)])
  }

  lemma FailedUnderIs(db: Database, f: Failure, now: Time, cfg: Config)
    ensures AttemptAt(db, f.attemptId).id == f.attemptId ==>
              FailedUnder(db, f, now, cfg) == DispatchFailed(db, f, now, cfg)
    ensures Filed(db, f.attemptId) ==>
              AfterFailure(db, FailedUnder(db, f, now, cfg), f.attemptId, f, UndispatchedBy(db, f.attemptId), now, cfg)
  {
    if Filed(db, f.attemptId) {
      DispatchFailureIs(db, f, now, cfg);
    }
  }

  /** `markAttemptFailed`. */
  method MarkAttemptFailed(store: Store, f: Failure, now: Time, cfg: Config)
    modifies store
    ensures AttemptAt(old(store.db), f.attemptId).id == f.attemptId ==>
              store.db == DispatchFailed(old(store.db), f, now, cfg)
    ensures store.db == FailedUnder(old(store.db), f, now, cfg)
    ensures Filed(old(store.db), f.attemptId) ==>
              AfterFailure(old(store.db), store.db, f.attemptId, f, UndispatchedBy(old(store.db), f.attemptId),
                           now, cfg)
  {
    FailedUnderIs(store.db, f, now, cfg);
    var attempt := FailedAttempt(AttemptAt(store.db, f.attemptId), f, now);
    store.db := store.db.(attempts := store.db.attempts[f.attemptId := attempt]);
    var slot := SlotAt(store.db, attempt.slotId).(state := Ready, activeTaskId := "");
    PutFailedSlot(store, slot, f.reason, now, cfg);
    PutTaskOutcome(store, attempt.taskId, f.reason, attempt.slotId, f.canRetry && !f.firstOutputSent, now);
  }

  method RecordFirstOutput(store: Store, nodeId: Id, attemptId: Id, taskId: Id) returns (ok: bool)
    modifies store
    ensures ok <==> WorkerAttempt(old(store.db), nodeId, attemptId, taskId)
    ensures store.db == if ok then FirstOutput(old(store.db), attemptId) else old(store.db)
  {
    ok := WorkerAttempt(store.db, nodeId, attemptId, taskId);
    if ok && !store.db.attempts[attemptId].firstOutputSent {
      var attempt := store.db.attempts[attemptId].(firstOutputSent := true, canRetry := false);
      store.db := store.db.(attempts := store.db.attempts[attempt.id := attempt]);
    }
  }

  // ---------- compute reports ----------

  method PutReportedSlot(store: Store, attempt: Attempt, r: Report, now: Time, cfg: Config)
    modifies store
    ensures var slot := ReportedSlot(SlotAt(old(store.db), r.slotId), attempt, r, now, cfg);
            store.db == old(store.db).(
              slots := old(store.db).slots[slot.id := slot],
              nodes := if RecordsFailure(attempt, r)
                       then FailedNode(old(store.db).nodes, slot.nodeId, r.failureReason, now)
                       else old(store.db).nodes)
  {
    var slot := SlotAt(store.db, r.slotId).(activeTaskId := "");
    if r.status == Completed && slot.profileId == r.profileId {
      slot := slot.(state := Ready, acceptsNew := true, mismatchReason := "");
    } else if slot.profileId == r.profileId {
      slot := slot.(state := Ready, acceptsNew := true, mismatchReason := r.failureReason);
    } else {
      slot := slot.(state := Idle, acceptsNew := false);
    }
    if r.status == Failed && attempt.status != Failed {
      slot := RecordSlotFailure(store, slot, r.failureReason, now, cfg);
    }
    store.db := store.db.(slots := store.db.slots[slot.id := slot]);
  }

  method PutReportedTask(store: Store, attempt: Attempt, r: Report, now: Time)
    modifies store
    ensures var task := ReportedTask(TaskAt(old(store.db), r.taskId), attempt, r, now);
            store.db == old(store.db).(tasks := old(store.db).tasks[task.id := task])
  {
    var task := TaskAt(store.db, r.taskId).(failureReason := r.failureReason, updatedAt := now);
    if r.status == Failed && r.canRetry && !attempt.firstOutputSent {
      task := task.(status := Queued, runtimeVariantId := "", completedAt := None,
                    failedSlots := AppendUnique(task.failedSlots, r.slotId));
    } else {
      task := task.(status := r.status, completedAt := Some(now));
    }
    store.db := store.db.(tasks := store.db.tasks[task.id := task]);
  }

  method HandleComputeReport(store: Store, nodeId: Id, report: Report, now: Time, cfg: Config) returns (ok: bool)
    modifies store
    ensures ok <==> WorkerAttempt(old(store.db), nodeId, report.attemptId, report.taskId)
    ensures store.db == if ok then ComputeReport(old(store.db), report, now, cfg) else old(store.db)
    ensures ok && ReportOnFile(old(store.db), report) ==> AfterReport(old(store.db), store.db, report, now, cfg)
  {
    if ReportOnFile(store.db, report) {
      ReportIs(store.db, report, now, cfg);
    }
    ok := WorkerAttempt(store.db, nodeId, report.attemptId, report.taskId);
    if !ok || report.id in store.db.reports {
      return;
    }
    var attempt := store.db.attempts[report.attemptId];
    var r := Authoritative(report, attempt, TaskAt(store.db, attempt.taskId));
    BillOnlyBooks(store.db, Accounted(store.db, r), now);
    r := ApplyReportAccounting(store, r, now);
    store.db := store.db.(reports := store.db.reports[r.id := r]);
    var reported := ReportedAttempt(attempt, r, now);
    store.db := store.db.(attempts := store.db.attempts[reported.id := reported]);
    PutReportedTask(store, attempt, r, now);
    PutReportedSlot(store, attempt, r, now, cfg);
  }

  // ---------- slot state and registration ----------

  /** A worker's message leaves quarantine and failure counts alone. */
  predicate SameQuarantine(was: Slot, now: Slot) {
    && now.quarantined == was.quarantined && now.quarantineUntil == was.quarantineUntil
    && now.quarantineReason == was.quarantineReason
    && now.failureCount == was.failureCount && now.failureCounters == was.failureCounters
  }

  /** Only the owner's slot is updated, and it accepts work exactly when it is ready and not quarantined. */
  method UpdateStoredSlotState(store: Store, nodeId: Id, p: SlotReport, now: Time) returns (ok: bool)
    modifies store
    ensures ok <==> SlotAt(old(store.db), p.slotId).id != "" && SlotAt(old(store.db), p.slotId).nodeId == nodeId
    ensures store.db == if ok then UpdateSlotState(old(store.db), p, now) else old(store.db)
    ensures ok ==>
              var was := old(store.db).slots[p.slotId];
              && was.id in store.db.slots && SameQuarantine(was, store.db.slots[was.id])
              && (store.db.slots[was.id].acceptsNew <==> p.state == Ready && !was.quarantined)
  {
    var slot := SlotAt(store.db, p.slotId);
    if slot.id == "" || slot.nodeId != nodeId {
      return false;
    }
    slot := SlotReported(slot, p, now);
    store.db := store.db.(slots := store.db.slots[slot.id := slot]);
    return true;
  }

  method UpsertWorkerSlots(store: Store, node: Node, target: string, reported: seq<Slot>, now: Time)
    modifies store
    ensures store.db == old(store.db).(slots := RegisterSlots(old(store.db).slots, node, target, reported, now))
  {
    ghost var before, register := store.db, RegisterSlot(node, target, now);
    for i := 0 to |reported|
      invariant store.db == before.(slots := store.db.slots)
      invariant Fold(register, store.db.slots, reported[i..]) == Fold(register, before.slots, reported)
    {
      assert reported[i..][0] == reported[i] && reported[i..][1..] == reported[i + 1..];
      var incoming := NormalizedSlot(reported[i], node, target);
      var stored := SlotAt(store.db, incoming.id);
      store.db := store.db.(slots := store.db.slots[incoming.id := MergedSlot(incoming, stored, now)]);
    }
  }

  // ---------- disconnects ----------

  method MarkDisconnectedNode(store: Store, node: Node)
    modifies store
    ensures store.db == NodeDown(old(store.db), node) && WentDown(old(store.db), store.db, node)
  {
    NodeDownIs(store.db, node);
    store.db := store.db.(nodes := store.db.nodes[node.id := node.(state := Offline, connectedSession := "")]);
    TakeSlotsDown(store, node.id);
  }

  method TakeSlotsDown(store: Store, nodeId: Id)
    modifies store
    ensures store.db == old(store.db).(slots := MapValues(old(store.db).slots, DownSlot(nodeId)))
  {
    ghost var before, down := store.db, DownSlot(nodeId);
    var todo := store.db.slots.Keys;
    while todo != {}
      invariant store.db == before.(slots := store.db.slots) && MappedSoFar(store.db.slots, before.slots, down, todo)
      decreases |todo|
    {
      var id :| id in todo;
      MapNext(store.db.slots, before.slots, down, todo, id);
      todo := todo - {id};
      var slot := store.db.slots[id];
      if slot.nodeId == nodeId && slot.state != Serving {
        slot := slot.(state := Unavailable, acceptsNew := false, mismatchReason := FAILURE_WORKER_DISCONNECTED);
        store.db := store.db.(slots := store.db.slots[id := slot]);
      }
    }
    MapDone(store.db.slots, before.slots, down);
  }

  method FailDisconnectedAttempt(store: Store, id: Id, now: Time, cfg: Config) returns (failed: Failure)
    requires id in store.db.attempts
    modifies store
    ensures failed == DisconnectFailure(old(store.db).attempts[id]) && store.db == Dropped(old(store.db), id, now, cfg)
  {
    failed := DisconnectFailure(store.db.attempts[id]);
    var attempt := FailedAttempt(store.db.attempts[id], failed, now);
    store.db := store.db.(attempts := store.db.attempts[id := attempt]);
    var slot := SlotAt(store.db, attempt.slotId).(
      activeTaskId := "", acceptsNew := false, state := Unavailable, mismatchReason := FAILURE_WORKER_DISCONNECTED);
    PutFailedSlot(store, slot, FAILURE_WORKER_DISCONNECTED, now, cfg);
    PutTaskOutcome(store, attempt.taskId, FAILURE_WORKER_DISCONNECTED, attempt.slotId, !attempt.firstOutputSent, now);
  }

  function DropBody(now: Time, cfg: Config): (Database, Id) -> Database {
    (db: Database, id: Id) => Dropped(db, id, now, cfg)
  }

  predicate RunsOn(db: Database, nodeId: Id, id: Id) {
    id in db.attempts && db.attempts[id].nodeId == nodeId && db.attempts[id].status == Running
  }

  /** The list holds exactly the running attempts of the node, each once. */
  ghost predicate Enumerates(order: seq<Id>, db: Database, nodeId: Id) {
    && (forall id :: id in order <==> RunsOn(db, nodeId, id))
    && (forall i, j :: 0 <= i < j < |order| ==> order[i] != order[j])
  }

  lemma FoldSnoc<S, X>(f: (S, X) -> S, s: S, xs: seq<X>, x: X)
    ensures Fold(f, s, xs + [x]) == f(Fold(f, s, xs), x)
  {
    FoldConcat(f, s, xs, [x]);
    assert [x][1..] == [];
  }

  /** What the loop over the attempts has done: dropped those in `order`, in that order, and nothing else. */
  ghost predicate DroppedSoFar(
      db: Database, start: Database, order: seq<Id>, todo: set<Id>, nodeId: Id, now: Time, cfg: Config) {
    && todo <= start.attempts.Keys
    && db == Fold(DropBody(now, cfg), start, order)
    && (forall id :: id in order <==> RunsOn(start, nodeId, id) && id !in todo)
    && (forall i, j :: 0 <= i < j < |order| ==> order[i] != order[j])
    && (forall id :: id in todo ==> id in db.attempts && db.attempts[id] == start.attempts[id])
  }

  lemma DropNext(
      db: Database, start: Database, order: seq<Id>, todo: set<Id>, nodeId: Id, now: Time, cfg: Config, id: Id)
    requires DroppedSoFar(db, start, order, todo, nodeId, now, cfg) && id in todo && RunsOn(start, nodeId, id)
    ensures DroppedSoFar(Dropped(db, id, now, cfg), start, order + [id], todo - {id}, nodeId, now, cfg)
  {
    FoldSnoc(DropBody(now, cfg), start, order, id);
    DroppedAttempts(db, id, now, cfg);
  }

  lemma DroppedAttempts(db: Database, id: Id, now: Time, cfg: Config)
    ensures Dropped(db, id, now, cfg).attempts
         == db.attempts[id := FailedAttempt(AttemptAt(db, id), DisconnectFailure(AttemptAt(db, id)), now)]
  {
  }

  lemma SkipNext(
      db: Database, start: Database, order: seq<Id>, todo: set<Id>, nodeId: Id, now: Time, cfg: Config, id: Id)
    requires DroppedSoFar(db, start, order, todo, nodeId, now, cfg) && id in todo && !RunsOn(start, nodeId, id)
    ensures DroppedSoFar(db, start, order, todo - {id}, nodeId, now, cfg)
  {
  }

  /** The failures to publish: one for each dropped attempt, retryable exactly when it had no output. */
  function Failures(db: Database, order: seq<Id>): seq<Failure> {
    Map(order, (id: Id) => DisconnectFailure(AttemptAt(db, id)))
  }

  lemma FailuresNext(db: Database, order: seq<Id>, id: Id)
    ensures Failures(db, order + [id]) == Failures(db, order) + [DisconnectFailure(AttemptAt(db, id))]
  {
  }

  /** The closing session still is the node's, so that the node goes down with it. */
  predicate TakesDown(db: Database, nodeId: Id, session: Id) {
    NodeAt(db, nodeId).connectedSession == session || NodeAt(db, nodeId).connectedSession == ""
  }

  /** The database a disconnect starts to drop attempts in. */
  function Disconnected(db: Database, nodeId: Id, session: Id, flapEvent: string, now: Time, cfg: Config): Database {
    if TakesDown(db, nodeId, session)
    then NodeDown(db, Flap.Recorded(NodeAt(db, nodeId), flapEvent, now, cfg.flap))
    else db
  }

  /** The disconnect step: the node goes down unless a newer session took over, and every
      running attempt of the node fails, in whatever order the map is walked. */
  method FailRunningAttempts(store: Store, nodeId: Id, session: Id, flapEvent: string, now: Time, cfg: Config)
    returns (failed: seq<Failure>, ghost order: seq<Id>)
    modifies store
    ensures var start := Disconnected(old(store.db), nodeId, session, flapEvent, now, cfg);
            && Enumerates(order, start, nodeId) && store.db == Fold(DropBody(now, cfg), start, order)
            && failed == Failures(start, order)
  {
    var node := NodeAt(store.db, nodeId);
    if node.connectedSession == session || node.connectedSession == "" {
      MarkDisconnectedNode(store, Flap.Recorded(node, flapEvent, now, cfg.flap));
    }
    failed, order := FailAllRunning(store, nodeId, now, cfg);
  }

  method FailAllRunning(
      store: Store, nodeId: Id, now: Time, cfg: Config) returns (failed: seq<Failure>, ghost order: seq<Id>)
    modifies store
    ensures Enumerates(order, old(store.db), nodeId) && store.db == Fold(DropBody(now, cfg), old(store.db), order)
    ensures failed == Failures(old(store.db), order)
  {
    ghost var start := store.db;
    failed, order := [], [];
    var todo := store.db.attempts.Keys;
    while todo != {}
      invariant DroppedSoFar(store.db, start, order, todo, nodeId, now, cfg)
      invariant failed == Failures(start, order)
      decreases |todo|
    {
      var id :| id in todo;
      var attempt := store.db.attempts[id];
      if attempt.nodeId != nodeId || attempt.status != Running {
        SkipNext(store.db, start, order, todo, nodeId, now, cfg, id);
        todo := todo - {id};
        continue;
      }
      DropNext(store.db, start, order, todo, nodeId, now, cfg, id);
      todo := todo - {id};
      FailuresNext(start, order, id);
      var failure := FailDisconnectedAttempt(store, id, now, cfg);
      failed := failed + [failure];
      order := order + [id];
    }
  }
}
