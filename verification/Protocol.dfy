/** The protocol as one transition system: the database, each client request's own loop,
    and each worker's execution with its queue of messages. Every handler, with the
    delivery of its event, is one atomic step; a disconnect is one step for the node and
    one for each attempt it fails, in any order. */
module Protocol {
  import opened Base
  import opened Traces
  import opened Model
  import opened Fit
  import opened Accounting
  import opened Handlers
  import Flap

  // ---------- the state ----------

  /** Where a request is in its loop of attempts. */
  datatype Phase =
    | Selecting
    | Picked(slot: Slot, effective: Profile)
    | Reserved(attemptId: Id)
    | Waiting(attemptId: Id, first: bool)
    | Over

  /** A client request: its task as created, its profile, and the attempt behind each token the client got. */
  datatype Request = Request(task: Task, profile: Profile, phase: Phase, output: seq<Id>)

  datatype Message =
    | Started(attemptId: Id, taskId: Id)
    | Token(attemptId: Id, taskId: Id)
    | AttemptFailure(failure: Failure)
    | Reported(report: Report)

  /** One execution on a worker: whether it sent output, whether it ended, and what it has still to deliver. */
  datatype Worker = Worker(first: bool, finished: bool, outbox: seq<Message>)

  datatype Sys = Sys(db: Database, requests: map<Id, Request>, workers: map<Id, Worker>, clock: Time)

  // ---------- events ----------

  datatype ClientEvent =
    | Create(id: Id, userId: Id, profile: Profile, stream: bool)
    | Select(id: Id, slotId: Id, effective: Profile)
    | TryReserve(id: Id, attemptId: Id)
    | Dispatch(id: Id)
    | DispatchFail(id: Id)
    | GiveUp(id: Id)
    | Leave(id: Id)
    | Cancel(id: Id)

  /** How an execution ends: refused at admission, failed at run time, cancelled, or completed. */
  datatype Ending = Refused | Broken | Aborted | Succeeded

  datatype WorkerEvent =
    | Begin(attemptId: Id, taskId: Id)
    | Emit(attemptId: Id, taskId: Id)
    | End(attemptId: Id, taskId: Id, ending: Ending, reason: string, reportId: Id)
    | Lose(attemptId: Id)
    | Deliver(nodeId: Id, message: Message)
    | GoDown(nodeId: Id, flapEvent: string)
    | Drop(attemptId: Id)
    | SlotState(nodeId: Id, state: SlotReport)
    | Enrol(node: Node, target: string, slots: seq<Slot>)

  datatype AdminEvent =
    | AddUser(id: Id, name: string)
    | Adjust(userId: Id, amount: int, reason: string)
    | Expire
    | Unban(slotId: Id)
    | UnbanWorker(nodeId: Id)
    | RemoveNode(nodeId: Id)
    | Replan(slots: map<Id, Slot>)

  datatype Event = Client(client: ClientEvent) | OfWorker(worker: WorkerEvent) | Admin(admin: AdminEvent)

  datatype Step = Step(now: Time, event: Event)

  // ---------- requests ----------

  function TaskOf(db: Database, attemptId: Id): Id {
    AttemptAt(db, attemptId).taskId
  }

  /** The request that listens to the attempt's stream. */
  predicate Listens(sys: Sys, attemptId: Id) {
    var t := TaskOf(sys.db, attemptId);
    t in sys.requests && sys.requests[t].phase.Waiting? && sys.requests[t].phase.attemptId == attemptId
  }

  /** What the request does with the end of an attempt: try again, or answer the client. A
      collected answer starts afresh; streamed tokens are out. */
  function Ended(r: Request, retry: bool): Request {
    if retry then r.(phase := Selecting, output := if r.task.stream then r.output else []) else r.(phase := Over)
  }

  predicate ReportRetries(r: Request, report: Report) {
    !r.task.stream && report.status == Failed && report.canRetry
  }

  // ---------- client steps ----------

  function ReservesNow(sys: Sys, id: Id): bool
    requires id in sys.requests && sys.requests[id].phase.Picked?
  {
    var r := sys.requests[id];
    Reservable(sys.db, id, r.profile.id, r.phase.effective.runtimeVariantId, r.phase.slot.id)
  }

  function DispatchFailure(attemptId: Id, taskId: Id): Failure {
    Failure(attemptId, taskId, "dispatch", FAILURE_WORKER_DISCONNECTED, true, false)
  }

  predicate ClientEnabled(sys: Sys, e: ClientEvent, cfg: Config) {
    match e
    case Create(id, _, profile, _) =>
      id != "" && id !in sys.db.tasks && id !in sys.requests && profile.id != "" && profile.computeCost >= 0
    case Cancel(_) => true
    case Select(id, _, _) => id in sys.requests && sys.requests[id].phase == Selecting
    case TryReserve(id, attemptId) =>
      id in sys.requests && sys.requests[id].phase.Picked?
      && attemptId != "" && attemptId !in sys.db.attempts && attemptId !in sys.workers
    case Dispatch(id) => id in sys.requests && sys.requests[id].phase.Reserved?
    case DispatchFail(id) => id in sys.requests && sys.requests[id].phase.Reserved?
    case GiveUp(id) => id in sys.requests && sys.requests[id].phase == Selecting
    case Leave(id) => id in sys.requests
  }

  /** A selection returns one of the ready candidates; whether the task was cancelled meanwhile
      shows at the reservation. */
  ghost predicate Selects(sys: Sys, e: ClientEvent) {
    e.Select? ==>
      && e.id in sys.requests
      && Selectable(sys.db, sys.requests[e.id].profile, e.id, e.slotId, e.effective)
  }

  function ClientDb(sys: Sys, e: ClientEvent, now: Time, cfg: Config): Database
    requires ClientEnabled(sys, e, cfg)
  {
    var db := sys.db;
    match e
    case Create(id, userId, profile, stream) =>
      if Sufficient(db, userId, profile.computeCost, cfg.enforceBalance)
      then StoreTask(db, Handlers.NewTask(id, userId, profile, stream, now)) else db
    case TryReserve(id, attemptId) =>
      var r := sys.requests[id];
      if ReservesNow(sys, id) then
        Reserve(db, id, r.profile, r.phase.effective, r.phase.slot.id,
                NewAttempt(attemptId, r.task, r.profile, r.phase.effective, r.phase.slot, now), now)
      else db
    case DispatchFail(id) => DispatchFailed(db, DispatchFailure(sys.requests[id].phase.attemptId, id), now, cfg)
    case GiveUp(id) => FailTask(db, id, FAILURE_NO_CAPACITY, now)
    case Leave(id) => RequestCancel(db, id, FAILURE_CANCELLED_BY_CLIENT, now)
    case Cancel(id) => RequestCancel(db, id, FAILURE_CANCELLED_BY_CLIENT, now)
    case Select(_, _, _) => db
    case Dispatch(_) => db
  }

  function ClientRequests(sys: Sys, e: ClientEvent, now: Time, cfg: Config): map<Id, Request>
    requires ClientEnabled(sys, e, cfg)
  {
    match e
    case Create(id, userId, profile, stream) =>
      if Sufficient(sys.db, userId, profile.computeCost, cfg.enforceBalance)
      then sys.requests[id := Request(Handlers.NewTask(id, userId, profile, stream, now), profile, Selecting, [])]
      else sys.requests
    case Select(id, slotId, effective) =>
      sys.requests[id := sys.requests[id].(phase := Picked(SlotAt(sys.db, slotId), effective))]
    case TryReserve(id, attemptId) =>
      sys.requests[id := sys.requests[id].(
        phase := if TaskAt(sys.db, id).status == Cancelled then Over
                 else if ReservesNow(sys, id) then Reserved(attemptId) else Selecting)]
    case Dispatch(id) =>
      sys.requests[id := sys.requests[id].(phase := Waiting(sys.requests[id].phase.attemptId, false))]
    case DispatchFail(id) => sys.requests[id := sys.requests[id].(phase := Over)]
    case GiveUp(id) => sys.requests[id := sys.requests[id].(phase := Over)]
    case Leave(id) => sys.requests[id := sys.requests[id].(phase := Over)]
    case Cancel(_) => sys.requests
  }

  function ClientWorkers(sys: Sys, e: ClientEvent, cfg: Config): map<Id, Worker>
    requires ClientEnabled(sys, e, cfg)
  {
    match e
    case Dispatch(id) => sys.workers[sys.requests[id].phase.attemptId := Worker(false, false, [])]
    case _ => sys.workers
  }

  // ---------- worker steps ----------

  predicate WorkerEnabled(sys: Sys, e: WorkerEvent) {
    match e
    case Begin(a, _) => a in sys.workers && !sys.workers[a].finished
    case Emit(a, _) => a in sys.workers && !sys.workers[a].finished
    case End(a, _, ending, _, _) =>
      a in sys.workers && !sys.workers[a].finished && (ending == Refused ==> !sys.workers[a].first)
    case Lose(a) => a in sys.workers && sys.workers[a].outbox != []
    case Deliver(_, _) => true
    case GoDown(_, _) => true
    case Drop(a) => a in sys.db.attempts && sys.db.attempts[a].status == Running
    case SlotState(_, _) => true
    case Enrol(node, _, _) => node.id != ""
  }

  /** The last messages of an execution, as `executeTask` sends them. */
  function LastMessages(e: WorkerEvent, first: bool): seq<Message>
    requires e.End?
  {
    var blank := Report(e.reportId, e.taskId, e.attemptId, "", "", "", "", 0, "", "", "", 0, Completed, "", "", false);
    match e.ending
    case Refused => FailureMessages(e, blank, "admission", e.reason, true, false)
    case Broken => FailureMessages(e, blank, "runtime", FAILURE_RUNTIME_ERROR, !first, first)
    case Aborted =>
      [Reported(blank.(status := Cancelled, phase := "execution", failureReason := FAILURE_CANCELLED_BY_CLIENT))]
    case Succeeded => [Reported(blank.(phase := "completed"))]
  }

  function FailureMessages(
      e: WorkerEvent, blank: Report, phase: string, reason: string, canRetry: bool, first: bool): seq<Message>
    requires e.End?
  {
    [AttemptFailure(Failure(e.attemptId, e.taskId, phase, reason, canRetry, first)),
     Reported(blank.(status := Failed, phase := phase, failureReason := reason, canRetry := canRetry))]
  }

  function MessageAttempt(m: Message): Id {
    match m
    case Started(a, _) => a
    case Token(a, _) => a
    case AttemptFailure(f) => f.attemptId
    case Reported(r) => r.attemptId
  }

  predicate Accepted(db: Database, nodeId: Id, m: Message) {
    match m
    case Started(a, t) => WorkerAttempt(db, nodeId, a, t)
    case Token(a, t) => WorkerAttempt(db, nodeId, a, t)
    case AttemptFailure(f) => WorkerAttempt(db, nodeId, f.attemptId, f.taskId)
    case Reported(r) => WorkerAttempt(db, nodeId, r.attemptId, r.taskId)
  }

  function DeliverDb(sys: Sys, m: Message, now: Time, cfg: Config): Database {
    var db := sys.db;
    match m
    case Started(a, _) => AttemptStarted(db, a)
    case Token(a, t) =>
      if Listens(sys, a) && t == TaskOf(db, a) && !sys.requests[t].phase.first then FirstOutput(db, a) else db
    case AttemptFailure(f) => AttemptFailed(db, f, now, cfg)
    case Reported(r) => ComputeReport(db, r, now, cfg)
  }

  function WorkerDb(sys: Sys, e: WorkerEvent, now: Time, cfg: Config): Database {
    var db := sys.db;
    match e
    case Deliver(nodeId, m) => if Accepted(db, nodeId, m) then DeliverDb(sys, m, now, cfg) else db
    case GoDown(n, kind) => NodeDown(db, Flap.Recorded(NodeAt(db, n), kind, now, cfg.flap))
    case Drop(a) => Dropped(db, a, now, cfg)
    case SlotState(nodeId, p) =>
      if SlotAt(db, p.slotId).id != "" && SlotAt(db, p.slotId).nodeId == nodeId then UpdateSlotState(db, p, now) else db
    case Enrol(node, target, slots) => Register(db, node, target, slots, now)
    case Begin(_, _) => db
    case Emit(_, _) => db
    case End(_, _, _, _, _) => db
    case Lose(_) => db
  }

  /** A listening request after a message for its attempt: a token goes out once the first
      output is on record; later tokens are not checked again. */
  function Heard(r: Request, db: Database, nodeId: Id, m: Message): Request
    requires r.phase.Waiting?
  {
    match m
    case Started(_, _) => r
    case Token(a, t) =>
      if t == TaskOf(db, a) && (r.phase.first || Accepted(db, nodeId, m))
      then r.(phase := Waiting(r.phase.attemptId, true), output := r.output + [a]) else r
    case AttemptFailure(f) => if Accepted(db, nodeId, m) then Ended(r, Requeues(f)) else r
    case Reported(report) => if Accepted(db, nodeId, m) then Ended(r, ReportRetries(r, report)) else r
  }

  function WorkerRequests(sys: Sys, e: WorkerEvent): map<Id, Request> {
    match e
    case Deliver(nodeId, m) =>
      var a := MessageAttempt(m);
      if Listens(sys, a)
      then sys.requests[TaskOf(sys.db, a) := Heard(sys.requests[TaskOf(sys.db, a)], sys.db, nodeId, m)]
      else sys.requests
    case Drop(a) =>
      if Listens(sys, a)
      then sys.requests[TaskOf(sys.db, a) :=
                          Ended(sys.requests[TaskOf(sys.db, a)], Requeues(DisconnectFailure(AttemptAt(sys.db, a))))]
      else sys.requests
    case _ => sys.requests
  }

  function WorkerWorkers(sys: Sys, e: WorkerEvent): map<Id, Worker>
    requires WorkerEnabled(sys, e)
  {
    match e
    case Begin(a, t) => sys.workers[a := sys.workers[a].(outbox := sys.workers[a].outbox + [Started(a, t)])]
    case Emit(a, t) =>
      sys.workers[a := sys.workers[a].(first := true, outbox := sys.workers[a].outbox + [Token(a, t)])]
    case End(a, _, _, _, _) =>
      sys.workers[a := sys.workers[a].(finished := true,
                                       outbox := sys.workers[a].outbox + LastMessages(e, sys.workers[a].first))]
    case Lose(a) => sys.workers[a := sys.workers[a].(outbox := sys.workers[a].outbox[1..])]
    case Deliver(_, m) =>
      var a := MessageAttempt(m);
      if a in sys.workers && sys.workers[a].outbox != [] && sys.workers[a].outbox[0] == m
      then sys.workers[a := sys.workers[a].(outbox := sys.workers[a].outbox[1..])] else sys.workers
    case _ => sys.workers
  }

  // ---------- admin steps ----------

  /** What a new plan may change on a slot: whether it accepts tasks, and its remark. */
  predicate Redrained(slots: map<Id, Slot>, slots': map<Id, Slot>) {
    slots'.Keys == slots.Keys
    && forall k :: k in slots ==>
         slots'[k] == slots[k].(acceptsNew := slots'[k].acceptsNew, mismatchReason := slots'[k].mismatchReason)
  }

  predicate AdminEnabled(sys: Sys, e: AdminEvent) {
    match e
    case AddUser(id, _) => id != ""
    case Replan(slots) => Redrained(sys.db.slots, slots)
    case _ => true
  }

  function AdminDb(db: Database, e: AdminEvent, now: Time): Database {
    match e
    case AddUser(id, name) => if id in db.users then db else StoreUser(db, NewUser(id, name))
    case Adjust(u, amount, reason) =>
      if u == "" || amount == 0 || u !in db.users
      then db
      else AppendLedgerEntry(db, AdjustmentEntry(u, amount, reason, now))
    case Expire => ClearExpired(db, now)
    case Unban(s) => if s in db.slots then UnbanSlot(db, s) else db
    case UnbanWorker(n) => if n in db.nodes then UnbanNode(db, n) else db
    case RemoveNode(n) => if n !in db.nodes || db.nodes[n].state == Online then db else DeleteNode(db, n)
    case Replan(slots) => db.(slots := slots)
  }

  // ---------- the transition system ----------

  ghost predicate Enabled(sys: Sys, step: Step, cfg: Config) {
    sys.clock <= step.now &&
    match step.event
    case Client(e) => ClientEnabled(sys, e, cfg) && Selects(sys, e)
    case OfWorker(e) => WorkerEnabled(sys, e)
    case Admin(e) => AdminEnabled(sys, e)
  }

  ghost function Apply(sys: Sys, step: Step, cfg: Config): Sys
    requires Enabled(sys, step, cfg)
  {
    match step.event
    case Client(e) =>
      Sys(ClientDb(sys, e, step.now, cfg), ClientRequests(sys, e, step.now, cfg), ClientWorkers(sys, e, cfg), step.now)
    case OfWorker(e) => Sys(WorkerDb(sys, e, step.now, cfg), WorkerRequests(sys, e), WorkerWorkers(sys, e), step.now)
    case Admin(e) => Sys(AdminDb(sys.db, e, step.now), sys.requests, sys.workers, step.now)
  }

  ghost function Next(cfg: Config): (Sys, Step) -> Sys {
    (sys: Sys, step: Step) => if Enabled(sys, step, cfg) then Apply(sys, step, cfg) else sys
  }

  /** Steps that are enabled and meet the hypotheses `also`. */
  ghost function Guard(cfg: Config, also: (Sys, Step) -> bool): (Sys, Step) -> bool {
    (sys: Sys, step: Step) => Enabled(sys, step, cfg) && also(sys, step)
  }

  ghost predicate Reachable(cfg: Config, also: (Sys, Step) -> bool, sys: Sys, sys': Sys) {
    Reaches(Guard(cfg, also), Next(cfg), sys, sys')
  }

  /** An invariant of every client, worker and admin step holds in every reachable state. */
  lemma Preserved(inv: Sys -> bool, cfg: Config, also: (Sys, Step) -> bool, sys: Sys, sys': Sys)
    requires inv(sys) && Reachable(cfg, also, sys, sys')
    requires forall z, t :: inv(z) && Enabled(z, t, cfg) && also(z, t) ==> inv(Apply(z, t, cfg))
    ensures inv(sys')
  {
    ReachesKeep(inv, Guard(cfg, also), Next(cfg), sys, sys');
  }
}
