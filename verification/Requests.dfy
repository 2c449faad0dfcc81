/** A client request over whole runs, with workers that report as `executeTask` does: its
    output comes from one attempt, and it never tries a slot twice. */
module Requests {
  import opened Base
  import opened Traces
  import opened Model
  import opened Accounting
  import opened Handlers
  import opened Protocol
  import opened Solvency
  import opened Quarantine

  // ---------- honest workers ----------

  /** The message is the next one its execution sent, and a report's generated ID is not taken. */
  predicate NextMessage(sys: Sys, m: Message) {
    var a := MessageAttempt(m);
    && a in sys.workers && sys.workers[a].outbox != [] && sys.workers[a].outbox[0] == m
    && (m.Reported? ==> m.report.id !in sys.db.reports)
  }

  /** Messages come from the executions, in order; selected slots have IDs from `ids`. */
  ghost function Honest(ids: set<Id>): (Sys, Step) -> bool {
    (sys: Sys, step: Step) =>
      match step.event
      case OfWorker(Deliver(_, m)) => NextMessage(sys, m)
      case Client(Select(_, slotId, _)) => slotId in ids && slotId != ""
      case _ => true
  }

  /** What an execution says about itself in a message is true. */
  predicate Truthful(w: Worker, a: Id, m: Message) {
    && MessageAttempt(m) == a
    && match m
       case Started(_, _) => true
       case Token(_, _) => w.first
       case AttemptFailure(f) => w.finished && f.firstOutputSent == w.first && (f.canRetry ==> !w.first)
       case Reported(r) => w.finished && (r.canRetry ==> !w.first)
  }

  ghost predicate WorkersTruthful(workers: map<Id, Worker>) {
    forall a, m :: a in workers && m in workers[a].outbox ==> Truthful(workers[a], a, m)
  }

  lemma WorkersStep(sys: Sys, e: WorkerEvent)
    requires WorkersTruthful(sys.workers) && WorkerEnabled(sys, e)
    ensures WorkersTruthful(WorkerWorkers(sys, e))
  {
    var workers := WorkerWorkers(sys, e);
    forall a, m | a in workers && m in workers[a].outbox ensures Truthful(workers[a], a, m) {
      if a in sys.workers && m in sys.workers[a].outbox {
        assert Truthful(sys.workers[a], a, m);
      }
    }
  }

  // ---------- output of one request ----------

  predicate OutputOn(db: Database, k: Id) {
    k in db.attempts && db.attempts[k].firstOutputSent
  }

  /** Recorded output is output the execution sent. */
  ghost predicate OutputSent(db: Database, workers: map<Id, Worker>) {
    forall k :: OutputOn(db, k) ==> k in workers && workers[k].first
  }

  predicate AllFrom(output: seq<Id>, a: Id) {
    forall x :: x in output ==> x == a
  }

  /** The client's output so far comes from one attempt; before and between attempts there is none. */
  ghost predicate OneSource(db: Database, workers: map<Id, Worker>, r: Request) {
    match r.phase
    case Waiting(a, first) =>
      AllFrom(r.output, a) && a in workers && (r.output != [] ==> first) && (first ==> OutputOn(db, a))
    case Reserved(a) => r.output == [] && a !in workers
    case Over => exists a :: AllFrom(r.output, a)
    case _ => r.output == []
  }

  ghost predicate Streams(sys: Sys) {
    && WorkersTruthful(sys.workers) && OutputSent(sys.db, sys.workers)
    && forall t :: t in sys.requests ==> OneSource(sys.db, sys.workers, sys.requests[t])
  }

  /** A token of this attempt is its first output on record. */
  predicate RecordsOutput(sys: Sys, m: Message, k: Id) {
    m.Token? && m.attemptId == k && Listens(sys, k) && m.taskId == TaskOf(sys.db, k)
    && !sys.requests[m.taskId].phase.first
  }

  lemma DeliverOutput(sys: Sys, nodeId: Id, m: Message, now: Time, cfg: Config, k: Id)
    requires DbLinked(sys.db) && Accepted(sys.db, nodeId, m)
    ensures OutputOn(DeliverDb(sys, m, now, cfg), k)
         == if m.AttemptFailure? && m.failure.attemptId == k then m.failure.firstOutputSent
            else OutputOn(sys.db, k) || RecordsOutput(sys, m, k)
  {
    match m
    case Reported(r) => ReportOutput(sys.db, r, now, cfg, k);
    case _ =>
  }

  lemma ReportOutput(db: Database, report: Report, now: Time, cfg: Config, k: Id)
    requires DbLinked(db) && report.attemptId in db.attempts
    ensures OutputOn(ComputeReport(db, report, now, cfg), k) == OutputOn(db, k)
  {
  }

  lemma DropOutput(db: Database, id: Id, now: Time, cfg: Config, k: Id)
    requires DbLinked(db) && id in db.attempts
    ensures OutputOn(Dropped(db, id, now, cfg), k) == OutputOn(db, k)
  {
  }

  lemma OtherOutput(sys: Sys, e: WorkerEvent, now: Time, cfg: Config, k: Id)
    requires DbLinked(sys.db) && WorkerEnabled(sys, e) && !e.Deliver?
    ensures OutputOn(WorkerDb(sys, e, now, cfg), k) == OutputOn(sys.db, k)
  {
    if e.Drop? {
      DropOutput(sys.db, e.attemptId, now, cfg, k);
    }
  }

  /** Executions only ever start sending. */
  lemma WorkersGrow(sys: Sys, e: WorkerEvent, k: Id)
    requires WorkerEnabled(sys, e) && k in sys.workers
    ensures k in WorkerWorkers(sys, e) && (sys.workers[k].first ==> WorkerWorkers(sys, e)[k].first)
    ensures WorkerWorkers(sys, e).Keys == sys.workers.Keys
  {
  }

  lemma DeliverSent(sys: Sys, nodeId: Id, m: Message, now: Time, cfg: Config)
    requires DbLinked(sys.db) && Accepted(sys.db, nodeId, m) && Streams(sys) && NextMessage(sys, m)
    ensures OutputSent(DeliverDb(sys, m, now, cfg), sys.workers)
  {
    var w := sys.workers[MessageAttempt(m)];
    assert m in w.outbox && Truthful(w, MessageAttempt(m), m);
    forall k | OutputOn(DeliverDb(sys, m, now, cfg), k) ensures k in sys.workers && sys.workers[k].first {
      DeliverOutput(sys, nodeId, m, now, cfg, k);
    }
  }

  lemma WorkerSent(sys: Sys, e: WorkerEvent, now: Time, cfg: Config)
    requires DbLinked(sys.db) && Streams(sys) && WorkerEnabled(sys, e) && (e.Deliver? ==> NextMessage(sys, e.message))
    ensures OutputSent(WorkerDb(sys, e, now, cfg), WorkerWorkers(sys, e))
  {
    if e.Deliver? && Accepted(sys.db, e.nodeId, e.message) {
      DeliverSent(sys, e.nodeId, e.message, now, cfg);
    }
    forall k | OutputOn(WorkerDb(sys, e, now, cfg), k)
      ensures k in WorkerWorkers(sys, e) && WorkerWorkers(sys, e)[k].first
    {
      if !e.Deliver? {
        OtherOutput(sys, e, now, cfg, k);
      }
      WorkersGrow(sys, e, k);
    }
  }

  /** The request that listens to a message keeps one source: it can only start over before any output. */
  lemma HeardOneSource(sys: Sys, nodeId: Id, m: Message, now: Time, cfg: Config)
    requires Linked(sys) && Streams(sys) && NextMessage(sys, m) && Listens(sys, MessageAttempt(m))
    ensures var e := Deliver(nodeId, m);
            var r := Heard(sys.requests[TaskOf(sys.db, MessageAttempt(m))], sys.db, nodeId, m);
            OneSource(WorkerDb(sys, e, now, cfg), sys.workers, r)
  {
    var a := MessageAttempt(m);
    var r, w := sys.requests[TaskOf(sys.db, a)], sys.workers[a];
    assert OneSource(sys.db, sys.workers, r);
    assert m in w.outbox && Truthful(w, a, m);
    if Accepted(sys.db, nodeId, m) {
      DeliverOutput(sys, nodeId, m, now, cfg, a);
    }
  }

  /** A request that does not listen is not touched by a message. */
  lemma UnheardOneSource(sys: Sys, nodeId: Id, m: Message, now: Time, cfg: Config, t: Id)
    requires Linked(sys) && Streams(sys) && t in sys.requests
    requires !(Listens(sys, MessageAttempt(m)) && TaskOf(sys.db, MessageAttempt(m)) == t)
    ensures OneSource(WorkerDb(sys, Deliver(nodeId, m), now, cfg), sys.workers, sys.requests[t])
  {
    var r := sys.requests[t];
    assert OneSource(sys.db, sys.workers, r) && Faithful(sys.db.tasks, sys.db.attempts, t, r);
    if r.phase.Waiting? && Accepted(sys.db, nodeId, m) {
      DeliverOutput(sys, nodeId, m, now, cfg, r.phase.attemptId);
    }
  }

  lemma SourceWorkers(db: Database, workers: map<Id, Worker>, workers': map<Id, Worker>, r: Request)
    requires OneSource(db, workers, r) && workers'.Keys == workers.Keys
    ensures OneSource(db, workers', r)
  {
  }

  lemma SourceOutput(db: Database, db': Database, workers: map<Id, Worker>, r: Request)
    requires OneSource(db, workers, r) && forall k :: OutputOn(db, k) ==> OutputOn(db', k)
    ensures OneSource(db', workers, r)
  {
  }

  lemma DropOneSource(sys: Sys, a: Id, t: Id)
    requires Linked(sys) && Streams(sys) && t in sys.requests && a in sys.db.attempts
    ensures OneSource(sys.db, sys.workers, WorkerRequests(sys, Drop(a))[t])
  {
    assert OneSource(sys.db, sys.workers, sys.requests[t]);
    WorkerRequestsKeys(sys, Drop(a));
  }

  lemma WorkerOneSource(sys: Sys, e: WorkerEvent, now: Time, cfg: Config, t: Id)
    requires Linked(sys) && Streams(sys) && WorkerEnabled(sys, e) && (e.Deliver? ==> NextMessage(sys, e.message))
    requires t in sys.requests
    ensures OneSource(WorkerDb(sys, e, now, cfg), sys.workers, WorkerRequests(sys, e)[t])
  {
    WorkerRequestsKeys(sys, e);
    if e.Deliver? {
      if Listens(sys, MessageAttempt(e.message)) && TaskOf(sys.db, MessageAttempt(e.message)) == t {
        HeardOneSource(sys, e.nodeId, e.message, now, cfg);
      } else {
        UnheardOneSource(sys, e.nodeId, e.message, now, cfg, t);
      }
    } else {
      if e.Drop? {
        DropOneSource(sys, e.attemptId, t);
      }
      forall k | OutputOn(sys.db, k) ensures OutputOn(WorkerDb(sys, e, now, cfg), k) {
        OtherOutput(sys, e, now, cfg, k);
      }
      assert OneSource(sys.db, sys.workers, sys.requests[t]);
      SourceOutput(sys.db, WorkerDb(sys, e, now, cfg), sys.workers, WorkerRequests(sys, e)[t]);
    }
  }

  lemma WorkerStreams(sys: Sys, e: WorkerEvent, now: Time, cfg: Config)
    requires Linked(sys) && Streams(sys) && WorkerEnabled(sys, e) && (e.Deliver? ==> NextMessage(sys, e.message))
    ensures Streams(Sys(WorkerDb(sys, e, now, cfg), WorkerRequests(sys, e), WorkerWorkers(sys, e), now))
  {
    var db', requests, workers := WorkerDb(sys, e, now, cfg), WorkerRequests(sys, e), WorkerWorkers(sys, e);
    WorkersStep(sys, e);
    WorkerSent(sys, e, now, cfg);
    WorkerRequestsKeys(sys, e);
    WorkersKeys(sys, e);
    forall t | t in requests ensures OneSource(db', workers, requests[t]) {
      WorkerOneSource(sys, e, now, cfg, t);
      SourceWorkers(db', sys.workers, workers, requests[t]);
    }
  }

  lemma WorkersKeys(sys: Sys, e: WorkerEvent)
    requires WorkerEnabled(sys, e)
    ensures WorkerWorkers(sys, e).Keys == sys.workers.Keys
  {
  }

  // ---------- client and admin steps ----------

  lemma ClientOutput(sys: Sys, e: ClientEvent, now: Time, cfg: Config, k: Id)
    requires Linked(sys) && ClientEnabled(sys, e, cfg)
    ensures OutputOn(ClientDb(sys, e, now, cfg), k)
         == (OutputOn(sys.db, k) && !(e.DispatchFail? && sys.requests[e.id].phase.attemptId == k))
  {
    if e.DispatchFail? {
      assert Faithful(sys.db.tasks, sys.db.attempts, e.id, sys.requests[e.id]);
    }
    if e.TryReserve? && ReservesNow(sys, e.id) {
      assert Faithful(sys.db.tasks, sys.db.attempts, e.id, sys.requests[e.id]);
    }
  }

  lemma DispatchOneSource(sys: Sys, id: Id, now: Time, cfg: Config, t: Id)
    requires Linked(sys) && Streams(sys) && ClientEnabled(sys, Dispatch(id), cfg) && t in sys.requests
    ensures OneSource(sys.db, ClientWorkers(sys, Dispatch(id), cfg), ClientRequests(sys, Dispatch(id), now, cfg)[t])
  {
    var r := sys.requests[t];
    assert OneSource(sys.db, sys.workers, r) && Faithful(sys.db.tasks, sys.db.attempts, t, r);
    assert Faithful(sys.db.tasks, sys.db.attempts, id, sys.requests[id]);
  }

  /** The other client steps start no execution; at most they end the request or move it on before any output. */
  lemma MoveOneSource(sys: Sys, e: ClientEvent, now: Time, cfg: Config, t: Id)
    requires Linked(sys) && Streams(sys) && ClientEnabled(sys, e, cfg) && !e.Dispatch? && t in sys.requests
    ensures OneSource(sys.db, sys.workers, ClientRequests(sys, e, now, cfg)[t])
  {
    var r := sys.requests[t];
    assert OneSource(sys.db, sys.workers, r);
    if r.output == [] {
      assert AllFrom(r.output, "");
    }
  }

  lemma ClientOneSource(sys: Sys, e: ClientEvent, now: Time, cfg: Config, t: Id)
    requires Linked(sys) && Streams(sys) && ClientEnabled(sys, e, cfg) && t in ClientRequests(sys, e, now, cfg)
    ensures OneSource(ClientDb(sys, e, now, cfg), ClientWorkers(sys, e, cfg), ClientRequests(sys, e, now, cfg)[t])
  {
    if t in sys.requests {
      if e.Dispatch? {
        DispatchOneSource(sys, e.id, now, cfg, t);
      } else {
        MoveOneSource(sys, e, now, cfg, t);
        WaitingOutput(sys, e, now, cfg, t);
      }
    }
  }

  /** A client step leaves the record of an awaited attempt's output alone. */
  lemma WaitingOutput(sys: Sys, e: ClientEvent, now: Time, cfg: Config, t: Id)
    requires Linked(sys) && ClientEnabled(sys, e, cfg) && t in sys.requests
    ensures var phase := ClientRequests(sys, e, now, cfg)[t].phase;
            phase.Waiting? && !e.Dispatch? ==>
              OutputOn(ClientDb(sys, e, now, cfg), phase.attemptId) == OutputOn(sys.db, phase.attemptId)
  {
    assert Faithful(sys.db.tasks, sys.db.attempts, t, sys.requests[t]);
    if sys.requests[t].phase.Waiting? {
      ClientOutput(sys, e, now, cfg, sys.requests[t].phase.attemptId);
    }
    if e.DispatchFail? {
      assert Faithful(sys.db.tasks, sys.db.attempts, e.id, sys.requests[e.id]);
    }
  }

  lemma ClientStreams(sys: Sys, e: ClientEvent, now: Time, cfg: Config)
    requires Linked(sys) && Streams(sys) && ClientEnabled(sys, e, cfg)
    ensures Streams(Sys(ClientDb(sys, e, now, cfg), ClientRequests(sys, e, now, cfg), ClientWorkers(sys, e, cfg), now))
  {
    var db', workers := ClientDb(sys, e, now, cfg), ClientWorkers(sys, e, cfg);
    forall t | t in ClientRequests(sys, e, now, cfg)
      ensures OneSource(db', workers, ClientRequests(sys, e, now, cfg)[t])
    {
      ClientOneSource(sys, e, now, cfg, t);
    }
    forall k | OutputOn(db', k) ensures k in workers && workers[k].first {
      ClientOutput(sys, e, now, cfg, k);
      if e.Dispatch? {
        assert OneSource(sys.db, sys.workers, sys.requests[e.id]);
      }
    }
  }

  lemma AdminStreams(sys: Sys, e: AdminEvent, now: Time)
    requires Streams(sys)
    ensures Streams(Sys(AdminDb(sys.db, e, now), sys.requests, sys.workers, now))
  {
    var db' := AdminDb(sys.db, e, now);
    forall k ensures OutputOn(db', k) == OutputOn(sys.db, k) {
    }
    forall t | t in sys.requests ensures OneSource(db', sys.workers, sys.requests[t]) {
      SourceOutput(sys.db, db', sys.workers, sys.requests[t]);
    }
  }

  lemma StepStreams(sys: Sys, step: Step, cfg: Config, ids: set<Id>)
    requires Linked(sys) && Streams(sys) && Enabled(sys, step, cfg) && Honest(ids)(sys, step)
    ensures Streams(Apply(sys, step, cfg))
  {
    match step.event
    case Client(e) => ClientStreams(sys, e, step.now, cfg);
    case OfWorker(e) => WorkerStreams(sys, e, step.now, cfg);
    case Admin(e) => AdminStreams(sys, e, step.now);
  }

  /** Over every run with honest workers, whatever fails, disconnects and is retried, no
      client ever receives tokens of two attempts. */
  lemma OutputFromOneAttempt(cfg: Config, ids: set<Id>, sys: Sys, sys': Sys, t: Id)
    requires Linked(sys) && Streams(sys) && Reachable(cfg, Honest(ids), sys, sys') && t in sys'.requests
    ensures exists a :: AllFrom(sys'.requests[t].output, a)
  {
    var inv := (z: Sys) => Linked(z) && Streams(z);
    forall z: Sys, s: Step | inv(z) && Enabled(z, s, cfg) && Honest(ids)(z, s) ensures inv(Apply(z, s, cfg)) {
      StepLinked(z, s, cfg);
      StepStreams(z, s, cfg, ids);
    }
    Preserved(inv, cfg, Honest(ids), sys, sys');
    assert OneSource(sys'.db, sys'.workers, sys'.requests[t]);
    if !sys'.requests[t].phase.Over? && !sys'.requests[t].phase.Waiting? {
      assert AllFrom(sys'.requests[t].output, "");
    }
  }
}
