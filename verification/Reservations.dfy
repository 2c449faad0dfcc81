/** What a reservation takes, and that it takes it alone: a reserved slot serves its task, and
    along every run nobody reserves it again before a step that releases it. */
module Reservations {
  import opened Base
  import opened Traces
  import opened Totals
  import opened Model
  import opened Fit
  import opened Accounting
  import opened Handlers
  import opened Protocol
  import opened Solvency
  import opened Quarantine
  import Flap

  // ---------- one reservation ----------

  /** Everything but `k` is as before. */
  ghost predicate SameBut<V>(m: map<Id, V>, m': map<Id, V>, k: Id) {
    m'.Keys == m.Keys + {k} && forall j :: j in m && j != k ==> m'[j] == m[j]
  }

  /** The slot now serves the task and takes no other. */
  predicate Taken(a: Slot, b: Slot, taskId: Id, now: Time) {
    && b.state == Serving && b.activeTaskId == taskId && !b.acceptsNew && b.lastTaskAt == now
    && b.id == a.id && b.nodeId == a.nodeId && b.profileId == a.profileId && b.runtimeVariantId == a.runtimeVariantId
    && b.failureCount == a.failureCount && b.failureCounters == a.failureCounters
  }

  /** The task now runs the chosen variant of the profile at the profile's cost. */
  predicate Runs(a: Task, b: Task, profile: Profile, effective: Profile) {
    && b.status == Running && b.id == a.id && b.userId == a.userId && b.failedSlots == a.failedSlots
    && b.profileId == profile.id && b.computeCost == profile.computeCost
    && b.runtimeVariantId == effective.runtimeVariantId
  }

  /** Free for a task of this profile and variant. */
  predicate Free(slot: Slot, profileId: Id, variantId: Id) {
    && slot.state == Ready && slot.activeTaskId == "" && slot.acceptsNew && !slot.quarantined
    && slot.profileId == profileId && slot.runtimeVariantId == variantId
  }

  ghost predicate SlotTaken(slots: map<Id, Slot>, slots': map<Id, Slot>, id: Id, taskId: Id, now: Time) {
    id in slots && SameBut(slots, slots', id) && Taken(slots[id], slots'[id], taskId, now)
  }

  ghost predicate TaskRuns(
      tasks: map<Id, Task>, tasks': map<Id, Task>, id: Id, profile: Profile, effective: Profile) {
    id in tasks && SameBut(tasks, tasks', id) && Runs(tasks[id], tasks'[id], profile, effective)
  }

  ghost predicate AttemptAdded(attempts: map<Id, Attempt>, attempts': map<Id, Attempt>, attempt: Attempt) {
    SameBut(attempts, attempts', attempt.id) && attempts'[attempt.id] == attempt
  }

  /** The task and the slot are stored under their IDs. */
  predicate OnFile(db: Database, taskId: Id, slotId: Id) {
    taskId in db.tasks && db.tasks[taskId].id == taskId && slotId in db.slots && db.slots[slotId].id == slotId
  }

  /** A reservation is possible exactly for a queued task on a free slot. */
  lemma ReservableExactly(db: Database, taskId: Id, profileId: Id, variantId: Id, slotId: Id)
    requires taskId in db.tasks && slotId in db.slots
    ensures Reservable(db, taskId, profileId, variantId, slotId) <==>
            db.tasks[taskId].status == Queued && Free(db.slots[slotId], profileId, variantId)
  {
  }

  /** It takes the slot, starts the task and stores the attempt, and touches nothing else. */
  lemma ReservedState(
      db: Database, taskId: Id, profile: Profile, effective: Profile, slotId: Id, attempt: Attempt, now: Time)
    requires OnFile(db, taskId, slotId)
    ensures var db' := Reserve(db, taskId, profile, effective, slotId, attempt, now);
            && SlotTaken(db.slots, db'.slots, slotId, taskId, now)
            && TaskRuns(db.tasks, db'.tasks, taskId, profile, effective)
            && AttemptAdded(db.attempts, db'.attempts, attempt)
            && db' == db.(slots := db'.slots, tasks := db'.tasks, attempts := db'.attempts)
  {
  }

  /** A taken slot cannot be reserved by anyone. */
  lemma TakenIsClosed(db: Database, db': Database, slotId: Id, taskId: Id, now: Time, t: Id, profileId: Id, variant: Id)
    requires SlotTaken(db.slots, db'.slots, slotId, taskId, now)
    ensures !Reservable(db', t, profileId, variant, slotId)
  {
  }

  /** The attempt that a reservation stores runs the task on the slot, for the task's user and cost,
      may be tried again, and has sent nothing. */
  lemma ReservationStored(sys: Sys, id: Id, attemptId: Id, now: Time, cfg: Config)
    requires ClientEnabled(sys, TryReserve(id, attemptId), cfg) && ReservesNow(sys, id)
    ensures var r, db' := sys.requests[id], ClientDb(sys, TryReserve(id, attemptId), now, cfg);
            && SameBut(sys.db.attempts, db'.attempts, attemptId)
            && var a := db'.attempts[attemptId];
               && a.id == attemptId && a.taskId == r.task.id && a.userId == r.task.userId
               && a.computeCost == r.task.computeCost && a.slotId == r.phase.slot.id && a.nodeId == r.phase.slot.nodeId
               && a.profileId == r.profile.id && a.runtimeVariantId == r.phase.effective.runtimeVariantId
               && a.status == Running && !a.firstOutputSent && a.canRetry && a.startedAt == now
  {
  }

  /** A request only picks a slot that is ready, idle and open, not banned, and not one of the task's failed
      slots, on an online, approved, unbanned node, running a variant of its profile that fits there. */
  lemma SelectedSlot(sys: Sys, id: Id, slotId: Id, effective: Profile, now: Time, cfg: Config)
    requires Enabled(sys, Step(now, Client(Select(id, slotId, effective))), cfg)
    ensures var p, db := sys.requests[id].profile, sys.db;
            slotId in db.slots &&
            var slot, node := db.slots[slotId], NodeAt(db, db.slots[slotId].nodeId);
            && slot.state == Ready && slot.activeTaskId == "" && slot.acceptsNew && !slot.quarantined
            && slot.profileId == p.id && slot.profileVersion == ProfileVersion(effective)
            && slot.runtimeVariantId == effective.runtimeVariantId
            && node.state == Online && node.approved && !node.quarantined
            && slot.id !in TaskAt(db, id).failedSlots
            && (forall k :: k in db.attempts && db.attempts[k].taskId == id && db.attempts[k].status == Failed ==>
                  db.attempts[k].slotId != slot.id)
            && FitProfileToSlot(effective, node, slot).fits
  {
  }

  // ---------- admission ----------

  /** With enforcement, a task that costs something is admitted exactly when its user's balance
      would still cover all queued and running tasks; one that is refused is not stored. */
  lemma AdmittedExactly(sys: Sys, id: Id, userId: Id, profile: Profile, stream: bool, now: Time, cfg: Config)
    requires ClientEnabled(sys, Create(id, userId, profile, stream), cfg)
    requires cfg.enforceBalance && profile.computeCost > 0
    ensures var sys' := Sys(ClientDb(sys, Create(id, userId, profile, stream), now, cfg),
                            ClientRequests(sys, Create(id, userId, profile, stream), now, cfg), sys.workers, now);
            var fits := Slack(sys.db, userId) >= profile.computeCost;
            && (id in sys'.db.tasks <==> fits) && (id in sys'.requests <==> fits)
            && (fits ==> Slack(sys'.db, userId) == Slack(sys.db, userId) - profile.computeCost)
            && (!fits ==> sys'.db == sys.db && sys'.requests == sys.requests)
  {
    var task := Handlers.NewTask(id, userId, profile, stream, now);
    TaskAdded(sys.db, StoreTask(sys.db, task), task, userId);
  }

  /** An admitted task is queued for its user and profile at the profile's cost. */
  lemma AdmittedTask(sys: Sys, id: Id, userId: Id, profile: Profile, stream: bool, now: Time, cfg: Config)
    requires ClientEnabled(sys, Create(id, userId, profile, stream), cfg)
    ensures var db' := ClientDb(sys, Create(id, userId, profile, stream), now, cfg);
            (!cfg.enforceBalance || profile.computeCost <= 0 ==> id in db'.tasks) &&
            (id in db'.tasks ==>
               SameBut(sys.db.tasks, db'.tasks, id) &&
               var t := db'.tasks[id];
               && t.id == id && t.userId == userId && t.profileId == profile.id && t.computeCost == profile.computeCost
               && t.status == Queued && t.failedSlots == [] && t.completedAt == None && t.createdAt == now)
  {
  }

  // ---------- until it is released ----------

  /** The step may make slot `s` ready again: an outcome of an attempt on it other than a lost
      worker, a worker's message that it is ready, or a registration that says so. */
  predicate Releases(sys: Sys, step: Step, s: Id) {
    match step.event
    case Client(e) => ClientReleases(sys, e, s)
    case OfWorker(e) => WorkerReleases(sys.db, e, s)
    case Admin(_) => false
  }

  predicate ClientReleases(sys: Sys, e: ClientEvent, s: Id) {
    && e.DispatchFail? && e.id in sys.requests && sys.requests[e.id].phase.Reserved?
    && AttemptAt(sys.db, sys.requests[e.id].phase.attemptId).slotId == s
  }

  predicate WorkerReleases(db: Database, e: WorkerEvent, s: Id) {
    match e
    case Deliver(nodeId, m) => MessageReleases(db, nodeId, m, s)
    case SlotState(nodeId, p) => p.slotId == s && p.state == Ready
    case Enrol(node, _, slots) => exists i :: 0 <= i < |slots| && RegistersReady(slots[i], node, s)
    case _ => false
  }

  predicate MessageReleases(db: Database, nodeId: Id, m: Message, s: Id) {
    && (m.AttemptFailure? || m.Reported?) && Accepted(db, nodeId, m)
    && AttemptAt(db, MessageAttempt(m)).slotId == s
  }

  predicate RegistersReady(slot: Slot, node: Node, s: Id) {
    (if slot.id == "" then node.id + "/slot0" else slot.id) == s && slot.state == Ready
  }

  predicate Unready(slots: map<Id, Slot>, s: Id) {
    s in slots ==> slots[s].state != Ready
  }

  /** Writing back a slot read by ID. */
  lemma PutUnready(db: Database, id: Id, b: Slot, s: Id, clock: Time, cfg: Config)
    requires SlotsSound(db.slots, clock, cfg) && s != "" && Unready(db.slots, s)
    requires b.id == SlotAt(db, id).id && (id == s ==> b.state != Ready)
    ensures Unready(db.slots[b.id := b], s)
  {
  }

  lemma FailedSlotState(slot: Slot, reason: string, now: Time, cfg: Config)
    ensures FailedSlot(slot, reason, now, cfg).id == slot.id && FailedSlot(slot, reason, now, cfg).state == slot.state
  {
  }

  lemma AttemptFailedUnready(db: Database, f: Failure, clock: Time, now: Time, cfg: Config, s: Id)
    requires SlotsSound(db.slots, clock, cfg) && s != "" && Unready(db.slots, s)
    requires AttemptAt(db, f.attemptId).slotId != s
    ensures Unready(AttemptFailed(db, f, now, cfg).slots, s)
  {
    var attempt := AttemptAt(db, f.attemptId);
    var released := ReleasedByFailure(SlotAt(db, attempt.slotId), attempt.profileId);
    FailedSlotState(released, f.reason, now, cfg);
    PutUnready(db, attempt.slotId, FailedSlot(released, f.reason, now, cfg), s, clock, cfg);
  }

  lemma DispatchFailedUnready(db: Database, f: Failure, clock: Time, now: Time, cfg: Config, s: Id)
    requires SlotsSound(db.slots, clock, cfg) && s != "" && Unready(db.slots, s)
    requires AttemptAt(db, f.attemptId).slotId != s
    ensures Unready(DispatchFailed(db, f, now, cfg).slots, s)
  {
    var id := AttemptAt(db, f.attemptId).slotId;
    var x := SlotAt(db, id).(state := Ready, activeTaskId := "");
    FailedSlotState(x, f.reason, now, cfg);
    PutUnready(db, id, FailedSlot(x, f.reason, now, cfg), s, clock, cfg);
  }

  lemma DroppedUnready(db: Database, id: Id, clock: Time, now: Time, cfg: Config, s: Id)
    requires SlotsSound(db.slots, clock, cfg) && s != "" && Unready(db.slots, s)
    ensures Unready(Dropped(db, id, now, cfg).slots, s)
  {
    var slotId := AttemptAt(db, id).slotId;
    var x := SlotAt(db, slotId).(
      activeTaskId := "", acceptsNew := false, state := Unavailable, mismatchReason := FAILURE_WORKER_DISCONNECTED);
    FailedSlotState(x, FAILURE_WORKER_DISCONNECTED, now, cfg);
    PutUnready(db, slotId, FailedSlot(x, FAILURE_WORKER_DISCONNECTED, now, cfg), s, clock, cfg);
  }

  lemma ReportUnready(db: Database, report: Report, clock: Time, now: Time, cfg: Config, s: Id)
    requires SlotsSound(db.slots, clock, cfg) && s != "" && Unready(db.slots, s)
    requires AttemptAt(db, report.attemptId).slotId != s
    ensures Unready(ComputeReport(db, report, now, cfg).slots, s)
  {
    if report.id !in db.reports {
      var attempt, r := AttemptAt(db, report.attemptId), StoredReport(db, report);
      ReportedSlotEvolves(SlotAt(db, r.slotId), attempt, r, now, cfg);
      PutUnready(db, r.slotId, ReportedSlot(SlotAt(db, r.slotId), attempt, r, now, cfg), s, clock, cfg);
    }
  }

  lemma {:induction false} RegisterUnready(
      slots: map<Id, Slot>, node: Node, target: string, todo: seq<Slot>, now: Time, s: Id)
    requires Unready(slots, s) && forall i :: 0 <= i < |todo| ==> !RegistersReady(todo[i], node, s)
    ensures Unready(RegisterSlots(slots, node, target, todo, now), s)
    decreases |todo|
  {
    if todo != [] {
      var rest := todo[1..];
      assert !RegistersReady(todo[0], node, s);
      forall i | 0 <= i < |rest| ensures !RegistersReady(rest[i], node, s) {
        assert rest[i] == todo[i + 1];
      }
      RegisterUnready(RegisterSlot(node, target, now)(slots, todo[0]), node, target, rest, now, s);
    }
  }

  lemma MessageUnready(sys: Sys, nodeId: Id, m: Message, now: Time, cfg: Config, s: Id)
    requires SlotsSound(sys.db.slots, sys.clock, cfg) && s != "" && Unready(sys.db.slots, s)
    requires Accepted(sys.db, nodeId, m) && !MessageReleases(sys.db, nodeId, m, s)
    ensures Unready(DeliverDb(sys, m, now, cfg).slots, s)
  {
    match m
    case AttemptFailure(f) => AttemptFailedUnready(sys.db, f, sys.clock, now, cfg, s);
    case Reported(r) => ReportUnready(sys.db, r, sys.clock, now, cfg, s);
    case _ =>
  }

  lemma MappedUnready(slots: map<Id, Slot>, f: Slot -> Slot, s: Id)
    requires Unready(slots, s) && forall x :: f(x).state == x.state || f(x).state != Ready
    ensures Unready(MapValues(slots, f), s)
  {
  }

  lemma WorkerUnready(sys: Sys, e: WorkerEvent, now: Time, cfg: Config, s: Id)
    requires SlotsSound(sys.db.slots, sys.clock, cfg) && s != "" && Unready(sys.db.slots, s)
    requires !WorkerReleases(sys.db, e, s)
    ensures Unready(WorkerDb(sys, e, now, cfg).slots, s)
  {
    var db := sys.db;
    match e
    case Deliver(nodeId, m) =>
      if Accepted(db, nodeId, m) {
        MessageUnready(sys, nodeId, m, now, cfg, s);
      }
    case GoDown(n, kind) => MappedUnready(db.slots, DownSlot(Flap.Recorded(NodeAt(db, n), kind, now, cfg.flap).id), s);
    case Drop(a) => DroppedUnready(db, a, sys.clock, now, cfg, s);
    case SlotState(nodeId, p) =>
      PutUnready(db, p.slotId, SlotReported(SlotAt(db, p.slotId), p, now), s, sys.clock, cfg);
    case Enrol(node, target, slots) => RegisterUnready(db.slots, node, target, slots, now, s);
    case _ =>
  }

  lemma ReserveUnready(
      db: Database, taskId: Id, profile: Profile, effective: Profile, slotId: Id, attempt: Attempt, clock: Time,
      now: Time, cfg: Config, s: Id)
    requires SlotsSound(db.slots, clock, cfg) && s != "" && Unready(db.slots, s)
    ensures Unready(Reserve(db, taskId, profile, effective, slotId, attempt, now).slots, s)
  {
    PutUnready(db, slotId, ServingSlot(SlotAt(db, slotId), taskId, now), s, clock, cfg);
  }

  lemma ClientUnready(sys: Sys, e: ClientEvent, now: Time, cfg: Config, s: Id)
    requires SlotsSound(sys.db.slots, sys.clock, cfg) && s != "" && Unready(sys.db.slots, s)
    requires ClientEnabled(sys, e, cfg) && !ClientReleases(sys, e, s)
    ensures Unready(ClientDb(sys, e, now, cfg).slots, s)
  {
    match e
    case TryReserve(id, attemptId) =>
      var r := sys.requests[id];
      ReserveUnready(sys.db, id, r.profile, r.phase.effective, r.phase.slot.id,
                     NewAttempt(attemptId, r.task, r.profile, r.phase.effective, r.phase.slot, now),
                     sys.clock, now, cfg, s);
    case DispatchFail(id) =>
      DispatchFailedUnready(sys.db, DispatchFailure(sys.requests[id].phase.attemptId, id), sys.clock, now, cfg, s);
    case _ =>
  }

  lemma AdminUnready(sys: Sys, e: AdminEvent, now: Time, cfg: Config, s: Id)
    requires SlotsSound(sys.db.slots, sys.clock, cfg) && s != "" && Unready(sys.db.slots, s) && AdminEnabled(sys, e)
    ensures Unready(AdminDb(sys.db, e, now).slots, s)
  {
    var db := sys.db;
    match e
    case Expire => MappedUnready(db.slots, ExpireSlot(now), s);
    case Unban(id) =>
      if id in db.slots {
        PutUnready(db, id, ClearSlotQuarantine(db.slots[id]), s, sys.clock, cfg);
      }
    case _ =>
  }

  /** Only a releasing step makes a slot ready. */
  lemma StepUnready(sys: Sys, step: Step, cfg: Config, s: Id)
    requires SlotsSound(sys.db.slots, sys.clock, cfg) && s != "" && Unready(sys.db.slots, s)
    requires Enabled(sys, step, cfg) && !Releases(sys, step, s)
    ensures SlotsSound(Apply(sys, step, cfg).db.slots, step.now, cfg) && Unready(Apply(sys, step, cfg).db.slots, s)
  {
    StepKept(sys, step, cfg, s, 0);
    match step.event
    case Client(e) => ClientUnready(sys, e, step.now, cfg, s);
    case OfWorker(e) => WorkerUnready(sys, e, step.now, cfg, s);
    case Admin(e) => AdminUnready(sys, e, step.now, cfg, s);
  }

  ghost function NotReleasing(s: Id): (Sys, Step) -> bool {
    (sys: Sys, step: Step) => !Releases(sys, step, s)
  }

  /** Once a slot is reserved, then along every run without a step that releases it, no task can
      reserve it: between two reservations of a slot lies a release. */
  lemma ReservedOnce(cfg: Config, sys: Sys, step: Step, s: Id, sys': Sys)
    requires SlotsSound(sys.db.slots, sys.clock, cfg) && s != "" && Enabled(sys, step, cfg)
    requires step.event.Client? && step.event.client.TryReserve?
    requires ReservesNow(sys, step.event.client.id) && Picks(sys.requests[step.event.client.id], s)
    requires Reachable(cfg, NotReleasing(s), Apply(sys, step, cfg), sys')
    ensures var db := Apply(sys, step, cfg).db;
            s in db.slots && db.slots[s].state == Serving && db.slots[s].activeTaskId == step.event.client.id
    ensures forall t, p, v :: !Reservable(sys'.db, t, p, v, s)
    ensures forall id :: id in sys'.requests && Picks(sys'.requests[id], s) ==> !ReservesNow(sys', id)
  {
    var after := Apply(sys, step, cfg);
    var inv := (z: Sys) => SlotsSound(z.db.slots, z.clock, cfg) && Unready(z.db.slots, s);
    ReserveStepTakes(cfg, sys, step, s);
    forall z: Sys, t: Step | inv(z) && Enabled(z, t, cfg) && NotReleasing(s)(z, t) ensures inv(Apply(z, t, cfg)) {
      StepUnready(z, t, cfg, s);
    }
    Preserved(inv, cfg, NotReleasing(s), after, sys');
  }

  lemma ReserveStepTakes(cfg: Config, sys: Sys, step: Step, s: Id)
    requires SlotsSound(sys.db.slots, sys.clock, cfg) && s != "" && Enabled(sys, step, cfg)
    requires step.event.Client? && step.event.client.TryReserve?
    requires ReservesNow(sys, step.event.client.id) && Picks(sys.requests[step.event.client.id], s)
    ensures var after := Apply(sys, step, cfg);
            && SlotsSound(after.db.slots, after.clock, cfg) && s in after.db.slots
            && after.db.slots[s].state == Serving && after.db.slots[s].activeTaskId == step.event.client.id
  {
    StepKept(sys, step, cfg, s, 0);
  }
}
