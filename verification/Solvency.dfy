/** Overdraft safety: with enforcement on, a user's balance always covers the cost of their
    queued and running tasks. Each handler's exact effect on what is left is proved first;
    the run theorem follows for outcomes of tasks that are still live. */
module Solvency {
  import opened Base
  import opened Traces
  import opened Totals
  import opened Model
  import opened Accounting
  import opened Handlers
  import opened Protocol

  // ---------- records that belong together ----------

  ghost predicate TasksLinked(tasks: map<Id, Task>) {
    forall k :: k in tasks ==> tasks[k].id == k && tasks[k].computeCost >= 0
  }

  /** An attempt carries the user and cost of its stored task. */
  predicate Owned(tasks: map<Id, Task>, a: Attempt) {
    a.taskId in tasks && a.userId == tasks[a.taskId].userId && a.computeCost == tasks[a.taskId].computeCost
  }

  ghost predicate AttemptsLinked(tasks: map<Id, Task>, attempts: map<Id, Attempt>) {
    forall k :: k in attempts ==> attempts[k].id == k && Owned(tasks, attempts[k])
  }

  /** A request works on its stored task, at the cost of the profile it resolved. */
  predicate Faithful(tasks: map<Id, Task>, attempts: map<Id, Attempt>, t: Id, r: Request) {
    && r.task.id == t && t in tasks && r.task.userId == tasks[t].userId
    && r.task.computeCost == tasks[t].computeCost == r.profile.computeCost
    && (r.phase.Reserved? || r.phase.Waiting? ==>
          r.phase.attemptId in attempts && attempts[r.phase.attemptId].taskId == t)
  }

  ghost predicate Linked(sys: Sys) {
    && UsersKeyed(sys.db.users) && TasksLinked(sys.db.tasks) && AttemptsLinked(sys.db.tasks, sys.db.attempts)
    && forall t :: t in sys.requests ==> Faithful(sys.db.tasks, sys.db.attempts, t, sys.requests[t])
  }

  // ---------- what is left of a balance ----------

  function Slack(db: Database, u: Id): int {
    Balance(db.users, u) - Pending(db.tasks, u)
  }

  ghost predicate Solvent(db: Database) {
    forall u :: Slack(db, u) >= 0
  }

  function Held(t: Task, u: Id): int {
    if t.userId == u && Live(t.status) then t.computeCost else 0
  }

  lemma TaskWritten(db: Database, db': Database, t: Task, u: Id)
    requires db'.users == db.users && db'.tasks == db.tasks[t.id := t] && t.id in db.tasks
    ensures Slack(db', u) == Slack(db, u) + Held(db.tasks[t.id], u) - Held(t, u)
  {
    TotalUpdate(db.tasks, t.id, t, HeldBy(u));
  }

  lemma TaskAdded(db: Database, db': Database, t: Task, u: Id)
    requires db'.users == db.users && db'.tasks == db.tasks[t.id := t] && t.id !in db.tasks
    ensures Slack(db', u) == Slack(db, u) - Held(t, u)
  {
    TotalInsert(db.tasks, t.id, t, HeldBy(u));
  }

  // ---------- exact effects of the outcomes ----------

  /** The cost of the attempt's task, if it is the user's. */
  function CostOf(db: Database, attemptId: Id, u: Id): int {
    var t := TaskAt(db, TaskOf(db, attemptId));
    if t.userId == u then t.computeCost else 0
  }

  predicate LiveTask(db: Database, attemptId: Id) {
    Live(TaskAt(db, TaskOf(db, attemptId)).status)
  }

  /** A failed attempt frees what its task held, and holds it again when the task is queued again. */
  lemma FailureSlack(db: Database, f: Failure, now: Time, cfg: Config, u: Id)
    requires TasksLinked(db.tasks) && AttemptsLinked(db.tasks, db.attempts) && f.attemptId in db.attempts
    ensures Slack(AttemptFailed(db, f, now, cfg), u)
         == Slack(db, u) + (if LiveTask(db, f.attemptId) then CostOf(db, f.attemptId, u) else 0)
            - (if Requeues(f) then CostOf(db, f.attemptId, u) else 0)
  {
    var task := TaskAt(db, TaskOf(db, f.attemptId));
    TaskWritten(db, AttemptFailed(db, f, now, cfg),
                RequeueOrFail(task, f.reason, db.attempts[f.attemptId].slotId, Requeues(f), now), u);
  }

  lemma DispatchSlack(db: Database, f: Failure, now: Time, cfg: Config, u: Id)
    requires TasksLinked(db.tasks) && AttemptsLinked(db.tasks, db.attempts) && f.attemptId in db.attempts
    ensures Slack(DispatchFailed(db, f, now, cfg), u)
         == Slack(db, u) + (if LiveTask(db, f.attemptId) then CostOf(db, f.attemptId, u) else 0)
            - (if Requeues(f) then CostOf(db, f.attemptId, u) else 0)
  {
    var task := TaskAt(db, TaskOf(db, f.attemptId));
    TaskWritten(db, DispatchFailed(db, f, now, cfg),
                RequeueOrFail(task, f.reason, db.attempts[f.attemptId].slotId, Requeues(f), now), u);
  }

  /** A disconnect frees the task's cost, and holds it again exactly when no output was recorded. */
  lemma DropSlack(db: Database, id: Id, now: Time, cfg: Config, u: Id)
    requires TasksLinked(db.tasks) && AttemptsLinked(db.tasks, db.attempts) && id in db.attempts
    ensures Slack(Dropped(db, id, now, cfg), u)
         == Slack(db, u) + (if LiveTask(db, id) then CostOf(db, id, u) else 0)
            - (if db.attempts[id].firstOutputSent then 0 else CostOf(db, id, u))
  {
    var f := DisconnectFailure(db.attempts[id]);
    var task := TaskAt(db, TaskOf(db, id));
    TaskWritten(db, Dropped(db, id, now, cfg),
                RequeueOrFail(task, f.reason, db.attempts[id].slotId, Requeues(f), now), u);
  }

  lemma BilledReport(db: Database, report: Report)
    requires AttemptsLinked(db.tasks, db.attempts) && report.attemptId in db.attempts
    ensures var r, t := StoredReport(db, report), TaskAt(db, TaskOf(db, report.attemptId));
            && r.taskId == TaskOf(db, report.attemptId) && r.id == report.id && r.status == report.status
            && r.canRetry == report.canRetry && r.computeCost == t.computeCost
            && (t.userId != "" ==> r.userId == t.userId)
            && r.nodeId == db.attempts[report.attemptId].nodeId
  {
    BilledFromStore(db, report);
  }

  /** What the report leaves the task holding, before any bill. */
  lemma ReportTaskSlack(db: Database, report: Report, now: Time, cfg: Config, u: Id)
    requires TasksLinked(db.tasks) && AttemptsLinked(db.tasks, db.attempts) && report.attemptId in db.attempts
    requires report.id !in db.reports
    ensures Pending(ReportStored(db, report, now, cfg).tasks, u)
         == Pending(db.tasks, u) - (if LiveTask(db, report.attemptId) then CostOf(db, report.attemptId, u) else 0)
            + (if Live(report.status) || ReportRequeues(db.attempts[report.attemptId], report)
               then CostOf(db, report.attemptId, u) else 0)
  {
    var attempt, r := db.attempts[report.attemptId], StoredReport(db, report);
    BilledReport(db, report);
    var t := ReportedTask(TaskAt(db, r.taskId), attempt, r, now);
    TotalUpdate(db.tasks, t.id, t, HeldBy(u));
  }

  /** What the bill of a report takes from the user. */
  function ChargeOf(db: Database, report: Report, u: Id): int {
    var r := StoredReport(db, report);
    if Billable(db, r) && u in db.users && u == r.userId then r.computeCost else 0
  }

  /** What the bill of a report gives to the user, as the owner of the node. */
  function CreditOf(db: Database, report: Report, u: Id): int {
    var r := StoredReport(db, report);
    if Billable(db, r) && u in db.users && u == NodeAt(db, r.nodeId).ownerUserId then r.computeCost else 0
  }

  predicate ReportKeepsLive(db: Database, report: Report) {
    Live(report.status) || ReportRequeues(AttemptAt(db, report.attemptId), report)
  }

  /** Exact effect of a report: it frees the task's cost, holds it again if the task stays live,
      and its bill moves the cost from the task's user to the node's owner. */
  lemma ReportSlack(db: Database, report: Report, now: Time, cfg: Config, u: Id)
    requires UsersKeyed(db.users) && TasksLinked(db.tasks) && AttemptsLinked(db.tasks, db.attempts)
    requires report.attemptId in db.attempts && report.id !in db.reports
    ensures Slack(ReportStored(db, report, now, cfg), u)
         == Slack(db, u) + (if LiveTask(db, report.attemptId) then CostOf(db, report.attemptId, u) else 0)
            - (if ReportKeepsLive(db, report) then CostOf(db, report.attemptId, u) else 0)
            - ChargeOf(db, report, u) + CreditOf(db, report, u)
  {
    ReportTaskSlack(db, report, now, cfg, u);
    BillBalance(db, StoredReport(db, report), now, u);
  }

  /** A bill takes at most the cost of the task, from its user only, and when the report is a completion. */
  lemma ChargeBounds(db: Database, report: Report, u: Id)
    requires UsersKeyed(db.users) && TasksLinked(db.tasks) && AttemptsLinked(db.tasks, db.attempts)
    requires report.attemptId in db.attempts
    ensures 0 <= ChargeOf(db, report, u) <= if report.status == Completed then CostOf(db, report.attemptId, u) else 0
    ensures CreditOf(db, report, u) >= 0
  {
    BilledReport(db, report);
  }

  // ---------- records stay linked ----------

  predicate SameOwner(t: Task, t': Task) {
    t'.id == t.id && t'.userId == t.userId && t'.computeCost == t.computeCost
  }

  predicate SameTask(a: Attempt, a': Attempt) {
    a'.id == a.id && a'.taskId == a.taskId && a'.userId == a.userId && a'.computeCost == a.computeCost
  }

  /** Stored tasks and attempts keep their owner and cost; new ones are linked. */
  ghost predicate Records(db: Database, db': Database) {
    && TasksLinked(db'.tasks) && AttemptsLinked(db'.tasks, db'.attempts)
    && (forall k :: k in db.tasks ==> k in db'.tasks && SameOwner(db.tasks[k], db'.tasks[k]))
    && (forall k :: k in db.attempts ==> k in db'.attempts && db'.attempts[k].taskId == db.attempts[k].taskId)
  }

  ghost predicate DbLinked(db: Database) {
    UsersKeyed(db.users) && TasksLinked(db.tasks) && AttemptsLinked(db.tasks, db.attempts)
  }

  lemma SameRecords(db: Database, db': Database)
    requires DbLinked(db) && db'.tasks == db.tasks && db'.attempts == db.attempts
    ensures Records(db, db')
  {
  }

  lemma TaskRecords(db: Database, db': Database, t: Task)
    requires DbLinked(db) && t.id in db.tasks && SameOwner(db.tasks[t.id], t)
    requires db'.tasks == db.tasks[t.id := t] && db'.attempts == db.attempts
    ensures Records(db, db')
  {
  }

  lemma AttemptRecords(db: Database, db': Database, a: Attempt)
    requires DbLinked(db) && a.id in db.attempts && SameTask(db.attempts[a.id], a)
    requires db'.tasks == db.tasks && db'.attempts == db.attempts[a.id := a]
    ensures Records(db, db')
  {
  }

  lemma SettledRecords(db: Database, db': Database, a: Attempt, t: Task)
    requires DbLinked(db) && a.id in db.attempts && SameTask(db.attempts[a.id], a)
    requires t.id in db.tasks && SameOwner(db.tasks[t.id], t)
    requires db'.tasks == db.tasks[t.id := t] && db'.attempts == db.attempts[a.id := a]
    ensures Records(db, db')
  {
  }

  lemma FailureRecords(db: Database, f: Failure, now: Time, cfg: Config)
    requires DbLinked(db) && f.attemptId in db.attempts
    ensures Records(db, AttemptFailed(db, f, now, cfg))
  {
    var attempt := FailedAttempt(db.attempts[f.attemptId], f, now);
    SettledRecords(db, AttemptFailed(db, f, now, cfg), attempt,
                   RequeueOrFail(TaskAt(db, attempt.taskId), f.reason, attempt.slotId, Requeues(f), now));
  }

  lemma DispatchRecords(db: Database, f: Failure, now: Time, cfg: Config)
    requires DbLinked(db) && f.attemptId in db.attempts
    ensures Records(db, DispatchFailed(db, f, now, cfg))
  {
    var attempt := FailedAttempt(db.attempts[f.attemptId], f, now);
    SettledRecords(db, DispatchFailed(db, f, now, cfg), attempt,
                   RequeueOrFail(TaskAt(db, attempt.taskId), f.reason, attempt.slotId, Requeues(f), now));
  }

  lemma DropRecords(db: Database, id: Id, now: Time, cfg: Config)
    requires DbLinked(db) && id in db.attempts
    ensures Records(db, Dropped(db, id, now, cfg))
  {
    var f := DisconnectFailure(db.attempts[id]);
    var attempt := FailedAttempt(db.attempts[id], f, now);
    SettledRecords(db, Dropped(db, id, now, cfg), attempt,
                   RequeueOrFail(TaskAt(db, attempt.taskId), f.reason, attempt.slotId, Requeues(f), now));
  }

  lemma ReportRecords(db: Database, report: Report, now: Time, cfg: Config)
    requires DbLinked(db) && report.attemptId in db.attempts
    ensures Records(db, ComputeReport(db, report, now, cfg)) && UsersKeyed(ComputeReport(db, report, now, cfg).users)
  {
    if report.id in db.reports {
      SameRecords(db, db);
    } else {
      var attempt, r := db.attempts[report.attemptId], StoredReport(db, report);
      BilledReport(db, report);
      BillKeyed(db, r, now);
      SettledRecords(db, ReportStored(db, report, now, cfg), ReportedAttempt(attempt, r, now),
                     ReportedTask(TaskAt(db, r.taskId), attempt, r, now));
    }
  }

  lemma DeliverRecords(sys: Sys, nodeId: Id, m: Message, now: Time, cfg: Config)
    requires DbLinked(sys.db) && Accepted(sys.db, nodeId, m)
    ensures Records(sys.db, DeliverDb(sys, m, now, cfg)) && UsersKeyed(DeliverDb(sys, m, now, cfg).users)
  {
    var db := sys.db;
    match m
    case Started(a, _) =>
      AttemptRecords(db, AttemptStarted(db, a), db.attempts[a].(phase := "running", status := Running));
    case Token(a, t) =>
      SameRecords(db, db);
      if !db.attempts[a].firstOutputSent {
        AttemptRecords(db, FirstOutput(db, a), db.attempts[a].(firstOutputSent := true, canRetry := false));
      }
    case AttemptFailure(f) => FailureRecords(db, f, now, cfg);
    case Reported(r) => ReportRecords(db, r, now, cfg);
  }

  lemma WorkerRecords(sys: Sys, e: WorkerEvent, now: Time, cfg: Config)
    requires DbLinked(sys.db) && WorkerEnabled(sys, e)
    ensures Records(sys.db, WorkerDb(sys, e, now, cfg)) && UsersKeyed(WorkerDb(sys, e, now, cfg).users)
  {
    SameRecords(sys.db, sys.db);
    match e
    case Deliver(nodeId, m) =>
      if Accepted(sys.db, nodeId, m) {
        DeliverRecords(sys, nodeId, m, now, cfg);
      }
    case Drop(a) => DropRecords(sys.db, a, now, cfg);
    case _ => SameRecords(sys.db, WorkerDb(sys, e, now, cfg));
  }

  lemma FaithfulKept(db: Database, db': Database, t: Id, r: Request)
    requires Faithful(db.tasks, db.attempts, t, r) && Records(db, db')
    ensures Faithful(db'.tasks, db'.attempts, t, r)
  {
  }

  /** A request may move to another phase, as long as an awaited attempt is its own. */
  lemma WorkerRequestsFaithful(sys: Sys, e: WorkerEvent, t: Id)
    requires t in sys.requests && Faithful(sys.db.tasks, sys.db.attempts, t, sys.requests[t])
    ensures t in WorkerRequests(sys, e) && Faithful(sys.db.tasks, sys.db.attempts, t, WorkerRequests(sys, e)[t])
    ensures WorkerRequests(sys, e).Keys == sys.requests.Keys
  {
  }

  lemma WorkerLinked(sys: Sys, e: WorkerEvent, now: Time, cfg: Config)
    requires Linked(sys) && WorkerEnabled(sys, e)
    ensures Linked(Sys(WorkerDb(sys, e, now, cfg), WorkerRequests(sys, e), WorkerWorkers(sys, e), now))
  {
    var db', requests := WorkerDb(sys, e, now, cfg), WorkerRequests(sys, e);
    WorkerRecords(sys, e, now, cfg);
    forall t | t in requests ensures Faithful(db'.tasks, db'.attempts, t, requests[t]) {
      WorkerRequestsKeys(sys, e);
      WorkerRequestsFaithful(sys, e, t);
      FaithfulKept(sys.db, db', t, requests[t]);
    }
  }

  lemma WorkerRequestsKeys(sys: Sys, e: WorkerEvent)
    ensures WorkerRequests(sys, e).Keys == sys.requests.Keys
  {
  }

  lemma CreateRecords(db: Database, task: Task)
    requires DbLinked(db) && task.id !in db.tasks && task.computeCost >= 0
    ensures Records(db, StoreTask(db, task))
  {
  }

  lemma ReserveRecords(
      db: Database, taskId: Id, r: Request, slotId: Id, effective: Profile, attempt: Attempt, now: Time)
    requires DbLinked(db) && Faithful(db.tasks, db.attempts, taskId, r) && attempt.id !in db.attempts
    requires attempt.taskId == taskId && attempt.userId == r.task.userId && attempt.computeCost == r.task.computeCost
    ensures Records(db, Reserve(db, taskId, r.profile, effective, slotId, attempt, now))
    ensures attempt.id in Reserve(db, taskId, r.profile, effective, slotId, attempt, now).attempts
    ensures Reserve(db, taskId, r.profile, effective, slotId, attempt, now).attempts[attempt.id] == attempt
  {
    var db' := Reserve(db, taskId, r.profile, effective, slotId, attempt, now);
    var task := RunningTask(db.tasks[taskId], r.profile, effective, now);
    assert db'.tasks == db.tasks[taskId := task] && SameOwner(db.tasks[taskId], task);
  }

  lemma FinishRecords(db: Database, id: Id, reason: string, now: Time)
    requires DbLinked(db) && id in db.tasks
    ensures Records(db, FailTask(db, id, reason, now)) && Records(db, RequestCancel(db, id, reason, now))
  {
    SameRecords(db, db);
    TaskRecords(db, db.(tasks := db.tasks[id := Finished(db.tasks[id], Failed, reason, now)]),
                Finished(db.tasks[id], Failed, reason, now));
    TaskRecords(db, db.(tasks := db.tasks[id := Finished(db.tasks[id], Cancelled, reason, now)]),
                Finished(db.tasks[id], Cancelled, reason, now));
  }

  lemma ClientRecords(sys: Sys, e: ClientEvent, now: Time, cfg: Config)
    requires Linked(sys) && ClientEnabled(sys, e, cfg)
    ensures Records(sys.db, ClientDb(sys, e, now, cfg))
  {
    var db := sys.db;
    SameRecords(db, db);
    match e
    case Create(id, userId, profile, stream) => CreateRecords(db, Handlers.NewTask(id, userId, profile, stream, now));
    case TryReserve(id, attemptId) => TryReserveRecords(sys, id, attemptId, now, cfg);
    case DispatchFail(id) => DispatchRecords(db, DispatchFailure(sys.requests[id].phase.attemptId, id), now, cfg);
    case GiveUp(id) => FinishRecords(db, id, FAILURE_NO_CAPACITY, now);
    case Leave(id) => FinishRecords(db, id, FAILURE_CANCELLED_BY_CLIENT, now);
    case Cancel(id) =>
      if id in db.tasks {
        FinishRecords(db, id, FAILURE_CANCELLED_BY_CLIENT, now);
      }
    case _ =>
  }

  lemma ClientUsers(sys: Sys, e: ClientEvent, now: Time, cfg: Config)
    requires ClientEnabled(sys, e, cfg)
    ensures ClientDb(sys, e, now, cfg).users == sys.db.users
  {
  }

  lemma TryReserveRecords(sys: Sys, id: Id, attemptId: Id, now: Time, cfg: Config)
    requires Linked(sys) && ClientEnabled(sys, TryReserve(id, attemptId), cfg)
    ensures var db' := ClientDb(sys, TryReserve(id, attemptId), now, cfg);
            && Records(sys.db, db')
            && (ReservesNow(sys, id) ==> attemptId in db'.attempts && db'.attempts[attemptId].taskId == id)
  {
    SameRecords(sys.db, sys.db);
    if ReservesNow(sys, id) {
      var r := sys.requests[id];
      ReserveRecords(sys.db, id, r, r.phase.slot.id, r.phase.effective,
                     NewAttempt(attemptId, r.task, r.profile, r.phase.effective, r.phase.slot, now), now);
    }
  }

  lemma ClientRequestsFaithful(sys: Sys, e: ClientEvent, now: Time, cfg: Config, t: Id)
    requires Linked(sys) && ClientEnabled(sys, e, cfg) && t in ClientRequests(sys, e, now, cfg)
    ensures var db' := ClientDb(sys, e, now, cfg);
            Faithful(db'.tasks, db'.attempts, t, ClientRequests(sys, e, now, cfg)[t])
  {
    var db' := ClientDb(sys, e, now, cfg);
    ClientRecords(sys, e, now, cfg);
    if t in sys.requests {
      FaithfulKept(sys.db, db', t, sys.requests[t]);
    }
  }

  lemma ClientLinked(sys: Sys, e: ClientEvent, now: Time, cfg: Config)
    requires Linked(sys) && ClientEnabled(sys, e, cfg)
    ensures Linked(Sys(ClientDb(sys, e, now, cfg), ClientRequests(sys, e, now, cfg), ClientWorkers(sys, e, cfg), now))
  {
    ClientUsers(sys, e, now, cfg);
    ClientRecords(sys, e, now, cfg);
    forall t | t in ClientRequests(sys, e, now, cfg)
      ensures Faithful(ClientDb(sys, e, now, cfg).tasks, ClientDb(sys, e, now, cfg).attempts, t,
                       ClientRequests(sys, e, now, cfg)[t])
    {
      ClientRequestsFaithful(sys, e, now, cfg, t);
    }
  }

  lemma AdminKeyed(db: Database, e: AdminEvent, now: Time)
    requires UsersKeyed(db.users) && (e.AddUser? ==> e.id != "")
    ensures UsersKeyed(AdminDb(db, e, now).users)
  {
  }

  lemma AdminRecords(db: Database, e: AdminEvent, now: Time)
    requires DbLinked(db)
    ensures Records(db, AdminDb(db, e, now))
  {
    SameRecords(db, AdminDb(db, e, now));
  }

  lemma AdminLinked(sys: Sys, e: AdminEvent, now: Time)
    requires Linked(sys) && AdminEnabled(sys, e)
    ensures Linked(Sys(AdminDb(sys.db, e, now), sys.requests, sys.workers, now))
  {
    AdminKeyed(sys.db, e, now);
    AdminRecords(sys.db, e, now);
    RequestsKept(sys, AdminDb(sys.db, e, now), now);
  }

  lemma RequestsKept(sys: Sys, db': Database, now: Time)
    requires Linked(sys) && Records(sys.db, db') && UsersKeyed(db'.users)
    ensures Linked(Sys(db', sys.requests, sys.workers, now))
  {
    forall t | t in sys.requests ensures Faithful(db'.tasks, db'.attempts, t, sys.requests[t]) {
      FaithfulKept(sys.db, db', t, sys.requests[t]);
    }
  }

  lemma StepLinked(sys: Sys, step: Step, cfg: Config)
    requires Linked(sys) && Enabled(sys, step, cfg)
    ensures Linked(Apply(sys, step, cfg))
  {
    match step.event
    case Client(e) => ClientLinked(sys, e, step.now, cfg);
    case OfWorker(e) => WorkerLinked(sys, e, step.now, cfg);
    case Admin(e) => AdminLinked(sys, e, step.now);
  }

  // ---------- the run theorem ----------

  predicate SettlesDeadTask(db: Database, attemptId: Id) {
    attemptId in db.attempts && !LiveTask(db, attemptId)
  }

  /** An outcome of a task that is no longer queued or running. */
  predicate Posthumous(sys: Sys, step: Step) {
    match step.event
    case Client(DispatchFail(id)) =>
      id in sys.requests && sys.requests[id].phase.Reserved?
      && SettlesDeadTask(sys.db, sys.requests[id].phase.attemptId)
    case OfWorker(Drop(a)) => SettlesDeadTask(sys.db, a)
    case OfWorker(Deliver(_, AttemptFailure(f))) => SettlesDeadTask(sys.db, f.attemptId)
    case OfWorker(Deliver(_, Reported(r))) => r.id !in sys.db.reports && SettlesDeadTask(sys.db, r.attemptId)
    case _ => false
  }

  predicate AdminDebit(step: Step) {
    step.event.Admin? && step.event.admin.Adjust? && step.event.admin.amount < 0
  }

  /** Outcomes only for live tasks, and no admin debits. */
  ghost function Orderly(): (Sys, Step) -> bool {
    (sys: Sys, step: Step) => !Posthumous(sys, step) && !AdminDebit(step)
  }

  lemma CostNonNegative(db: Database, attemptId: Id, u: Id)
    requires TasksLinked(db.tasks)
    ensures CostOf(db, attemptId, u) >= 0
  {
  }

  /** A new task is admitted only when what is left covers it. */
  lemma CreateSlack(db: Database, task: Task, cfg: Config, u: Id)
    requires cfg.enforceBalance && Solvent(db) && task.id !in db.tasks && task.computeCost >= 0
    requires Sufficient(db, task.userId, task.computeCost, cfg.enforceBalance)
    ensures Slack(StoreTask(db, task), u) >= 0
  {
    TaskAdded(db, StoreTask(db, task), task, u);
    assert Slack(db, u) >= 0;
  }

  lemma ReserveSlack(
      db: Database, taskId: Id, r: Request, effective: Profile, slotId: Id, attempt: Attempt, now: Time, u: Id)
    requires TasksLinked(db.tasks) && Faithful(db.tasks, db.attempts, taskId, r) && db.tasks[taskId].status == Queued
    ensures Slack(Reserve(db, taskId, r.profile, effective, slotId, attempt, now), u) == Slack(db, u)
  {
    TaskWritten(db, Reserve(db, taskId, r.profile, effective, slotId, attempt, now),
                RunningTask(db.tasks[taskId], r.profile, effective, now), u);
  }

  lemma FinishSlack(db: Database, id: Id, reason: string, now: Time, u: Id)
    requires TasksLinked(db.tasks) && id in db.tasks
    ensures Slack(FailTask(db, id, reason, now), u) >= Slack(db, u)
    ensures Slack(RequestCancel(db, id, reason, now), u) >= Slack(db, u)
  {
    TaskWritten(db, db.(tasks := db.tasks[id := Finished(db.tasks[id], Failed, reason, now)]),
                Finished(db.tasks[id], Failed, reason, now), u);
    TaskWritten(db, db.(tasks := db.tasks[id := Finished(db.tasks[id], Cancelled, reason, now)]),
                Finished(db.tasks[id], Cancelled, reason, now), u);
  }

  lemma ClientSlack(sys: Sys, e: ClientEvent, now: Time, cfg: Config, u: Id)
    requires cfg.enforceBalance && Linked(sys) && Solvent(sys.db) && ClientEnabled(sys, e, cfg)
    requires !Posthumous(sys, Step(now, Client(e)))
    ensures Slack(ClientDb(sys, e, now, cfg), u) >= 0
  {
    var db := sys.db;
    assert Slack(db, u) >= 0;
    match e
    case Create(id, userId, profile, stream) =>
      if Sufficient(db, userId, profile.computeCost, cfg.enforceBalance) {
        CreateSlack(db, Handlers.NewTask(id, userId, profile, stream, now), cfg, u);
      }
    case TryReserve(id, attemptId) =>
      if ReservesNow(sys, id) {
        var r := sys.requests[id];
        ReserveSlack(db, id, r, r.phase.effective, r.phase.slot.id,
                     NewAttempt(attemptId, r.task, r.profile, r.phase.effective, r.phase.slot, now), now, u);
      }
    case DispatchFail(id) =>
      DispatchSlack(db, DispatchFailure(sys.requests[id].phase.attemptId, id), now, cfg, u);
      CostNonNegative(db, sys.requests[id].phase.attemptId, u);
    case GiveUp(id) => FinishSlack(db, id, FAILURE_NO_CAPACITY, now, u);
    case Leave(id) => FinishSlack(db, id, FAILURE_CANCELLED_BY_CLIENT, now, u);
    case Cancel(id) =>
      if id in db.tasks {
        FinishSlack(db, id, FAILURE_CANCELLED_BY_CLIENT, now, u);
      }
    case _ =>
  }

  lemma LiveReportSlack(db: Database, report: Report, now: Time, cfg: Config, u: Id)
    requires DbLinked(db) && report.attemptId in db.attempts && report.id !in db.reports
    requires LiveTask(db, report.attemptId)
    ensures Slack(ReportStored(db, report, now, cfg), u) >= Slack(db, u)
  {
    ReportSlack(db, report, now, cfg, u);
    ChargeBounds(db, report, u);
    CostNonNegative(db, report.attemptId, u);
  }

  lemma DeliverSlack(sys: Sys, nodeId: Id, m: Message, now: Time, cfg: Config, u: Id)
    requires Linked(sys) && Accepted(sys.db, nodeId, m)
    requires !Posthumous(sys, Step(now, OfWorker(Deliver(nodeId, m))))
    ensures Slack(DeliverDb(sys, m, now, cfg), u) >= Slack(sys.db, u)
  {
    match m
    case AttemptFailure(f) =>
      FailureSlack(sys.db, f, now, cfg, u);
      CostNonNegative(sys.db, f.attemptId, u);
    case Reported(r) =>
      if r.id !in sys.db.reports {
        LiveReportSlack(sys.db, r, now, cfg, u);
      }
    case _ =>
  }

  lemma WorkerSlack(sys: Sys, e: WorkerEvent, now: Time, cfg: Config, u: Id)
    requires Linked(sys) && WorkerEnabled(sys, e) && !Posthumous(sys, Step(now, OfWorker(e)))
    ensures Slack(WorkerDb(sys, e, now, cfg), u) >= Slack(sys.db, u)
  {
    match e
    case Deliver(nodeId, m) =>
      if Accepted(sys.db, nodeId, m) {
        DeliverSlack(sys, nodeId, m, now, cfg, u);
      }
    case Drop(a) =>
      DropSlack(sys.db, a, now, cfg, u);
      CostNonNegative(sys.db, a, u);
    case _ =>
  }

  lemma AdminSlack(db: Database, e: AdminEvent, now: Time, u: Id)
    requires UsersKeyed(db.users) && (e.Adjust? ==> e.amount >= 0)
    ensures Slack(AdminDb(db, e, now), u) >= Slack(db, u)
  {
    match e
    case Adjust(id, amount, reason) => AdjustSlack(db, id, amount, reason, now, u);
    case AddUser(id, name) => AddUserSlack(db, id, name, now, u);
    case _ =>
      OtherAdminKeeps(db, e, now);
      SameSlack(db, AdminDb(db, e, now), u);
  }

  lemma AdjustSlack(db: Database, id: Id, amount: int, reason: string, now: Time, u: Id)
    requires UsersKeyed(db.users)
    ensures Slack(AdminDb(db, Adjust(id, amount, reason), now), u)
         == Slack(db, u) + if u == id && u in db.users then amount else 0
  {
    if id in db.users && amount != 0 {
      AppendBalance(db, AdjustmentEntry(id, amount, reason, now), u);
    }
  }

  lemma AddUserSlack(db: Database, id: Id, name: string, now: Time, u: Id)
    ensures Slack(AdminDb(db, AddUser(id, name), now), u) == Slack(db, u)
  {
  }

  lemma OtherAdminKeeps(db: Database, e: AdminEvent, now: Time)
    requires !e.Adjust? && !e.AddUser?
    ensures AdminDb(db, e, now).users == db.users && AdminDb(db, e, now).tasks == db.tasks
  {
  }

  lemma SameSlack(db: Database, db': Database, u: Id)
    requires db'.users == db.users && db'.tasks == db.tasks
    ensures Slack(db', u) == Slack(db, u)
  {
  }

  lemma StepSolvent(sys: Sys, step: Step, cfg: Config)
    requires cfg.enforceBalance && Linked(sys) && Solvent(sys.db) && Enabled(sys, step, cfg) && Orderly()(sys, step)
    ensures Solvent(Apply(sys, step, cfg).db)
  {
    forall u ensures Slack(Apply(sys, step, cfg).db, u) >= 0 {
      assert Slack(sys.db, u) >= 0;
      match step.event
      case Client(e) => ClientSlack(sys, e, step.now, cfg, u);
      case OfWorker(e) => WorkerSlack(sys, e, step.now, cfg, u);
      case Admin(e) => AdminSlack(sys.db, e, step.now, u);
    }
  }

  /** Over every run with enforcement on, no admin debits, and worker outcomes applied to
      live tasks only, each balance covers the cost of the user's queued and running tasks. */
  lemma NoOverdraft(cfg: Config, sys: Sys, sys': Sys)
    requires cfg.enforceBalance && Linked(sys) && Solvent(sys.db) && Reachable(cfg, Orderly(), sys, sys')
    ensures Linked(sys') && Solvent(sys'.db)
  {
    var inv := (z: Sys) => Linked(z) && Solvent(z.db);
    forall z: Sys, t: Step | inv(z) && Enabled(z, t, cfg) && Orderly()(z, t) ensures inv(Apply(z, t, cfg)) {
      StepLinked(z, t, cfg);
      StepSolvent(z, t, cfg);
    }
    Preserved(inv, cfg, Orderly(), sys, sys');
  }

  /** Without the hypothesis it can fail: a disconnect requeues the task of any running
      attempt that sent no output, a cancelled one included. The balance then still covers
      the user's tasks exactly when it covered this one as well. */
  lemma DisconnectRevivesTask(db: Database, id: Id, now: Time, cfg: Config)
    requires DbLinked(db) && Solvent(db) && id in db.attempts && !LiveTask(db, id) && !db.attempts[id].firstOutputSent
    ensures var u, cost := db.tasks[TaskOf(db, id)].userId, db.tasks[TaskOf(db, id)].computeCost;
            && Dropped(db, id, now, cfg).tasks[TaskOf(db, id)].status == Queued
            && (Solvent(Dropped(db, id, now, cfg)) <==> Slack(db, u) >= cost)
  {
    var u := db.tasks[TaskOf(db, id)].userId;
    forall v ensures Slack(Dropped(db, id, now, cfg), v)
                  == Slack(db, v) - if v == u then db.tasks[TaskOf(db, id)].computeCost else 0 {
      DropSlack(db, id, now, cfg, v);
    }
    forall v ensures Slack(db, v) >= 0 {
    }
    assert Slack(Dropped(db, id, now, cfg), u) == Slack(db, u) - db.tasks[TaskOf(db, id)].computeCost;
  }

  /** What a late report asks of its task's user beyond what it gives: the cost again if the task
      becomes live again, and the bill. */
  function LateReportOwes(db: Database, report: Report, u: Id): int {
    (if ReportKeepsLive(db, report) then CostOf(db, report.attemptId, u) else 0)
    + ChargeOf(db, report, u) - CreditOf(db, report, u)
  }

  /** The other late outcome: a new report on a task that is no longer live. All balances stay
      covered exactly when what is left of its user's covers what the report asks. */
  lemma LateReport(db: Database, report: Report, now: Time, cfg: Config)
    requires DbLinked(db) && Solvent(db) && report.attemptId in db.attempts && report.id !in db.reports
    requires !LiveTask(db, report.attemptId)
    ensures var u := db.tasks[TaskOf(db, report.attemptId)].userId;
            Solvent(ReportStored(db, report, now, cfg)) <==> Slack(db, u) >= LateReportOwes(db, report, u)
  {
    var u := db.tasks[TaskOf(db, report.attemptId)].userId;
    var after := ReportStored(db, report, now, cfg);
    forall v ensures Slack(after, v) == Slack(db, v) - LateReportOwes(db, report, v)
             ensures v != u ==> LateReportOwes(db, report, v) <= 0
    {
      ReportSlack(db, report, now, cfg, v);
      ChargeBounds(db, report, v);
    }
    forall v ensures Slack(db, v) >= 0 {
    }
    assert Slack(after, u) == Slack(db, u) - LateReportOwes(db, report, u);
  }
}
