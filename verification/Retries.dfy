/** A request's loop of attempts over whole runs: every reserved slot differs from all the
    slots the request tried before, so it makes at most as many attempts as there are slots. */
module Retries {
  import opened Base
  import opened Traces
  import opened Model
  import opened Accounting
  import opened Handlers
  import opened Protocol
  import opened Solvency
  import opened Quarantine
  import opened Requests

  // ---------- slots tried and slots excluded ----------

  predicate Tried(db: Database, t: Id, k: Id) {
    k in db.attempts && db.attempts[k].taskId == t
  }

  /** The attempt's slot is on the task's list of failed slots. */
  predicate Excluded(db: Database, t: Id, k: Id) {
    k in db.attempts && db.attempts[k].slotId in TaskAt(db, t).failedSlots
  }

  predicate Current(r: Request, k: Id) {
    (r.phase.Reserved? || r.phase.Waiting?) && r.phase.attemptId == k
  }

  ghost predicate NeverAgain(db: Database, ids: set<Id>, t: Id, r: Request) {
    r.phase.Over? ||
    (&& (forall k :: Tried(db, t, k) && !Current(r, k) ==> Excluded(db, t, k))
     && (r.phase.Picked? ==> r.phase.slot.id in ids && r.phase.slot.id != ""
                             && forall k :: Tried(db, t, k) ==> db.attempts[k].slotId != r.phase.slot.id))
  }

  /** Attempts of one task are on different slots, all with IDs from `ids`. */
  ghost predicate Distinct(db: Database, ids: set<Id>) {
    && (forall k :: k in db.attempts ==> db.attempts[k].slotId in ids && db.attempts[k].slotId != "")
    && (forall j, k ::
          j in db.attempts && k in db.attempts && j != k && db.attempts[j].taskId == db.attempts[k].taskId ==>
          db.attempts[j].slotId != db.attempts[k].slotId)
  }

  ghost predicate Retrying(sys: Sys, ids: set<Id>) {
    && Distinct(sys.db, ids)
    && forall t :: t in sys.requests ==> NeverAgain(sys.db, ids, t, sys.requests[t])
  }

  // ---------- lists of failed slots only grow ----------

  ghost predicate OnlyGrows(db: Database, db': Database) {
    && db'.attempts.Keys == db.attempts.Keys
    && (forall k :: k in db.attempts ==>
          db'.attempts[k].taskId == db.attempts[k].taskId && db'.attempts[k].slotId == db.attempts[k].slotId)
    && (forall t, s :: s in TaskAt(db, t).failedSlots ==> s in TaskAt(db', t).failedSlots)
  }

  lemma SettledGrows(db: Database, db': Database, a: Attempt, t: Task)
    requires DbLinked(db) && a.id in db.attempts && a.taskId == db.attempts[a.id].taskId
    requires a.slotId == db.attempts[a.id].slotId
    requires t.id in db.tasks && forall s :: s in db.tasks[t.id].failedSlots ==> s in t.failedSlots
    requires db'.tasks == db.tasks[t.id := t] && db'.attempts == db.attempts[a.id := a]
    ensures OnlyGrows(db, db')
  {
  }

  lemma FailureGrows(db: Database, f: Failure, now: Time, cfg: Config)
    requires DbLinked(db) && f.attemptId in db.attempts
    ensures OnlyGrows(db, AttemptFailed(db, f, now, cfg))
    ensures db.attempts[f.attemptId].slotId != "" ==>
              Excluded(AttemptFailed(db, f, now, cfg), TaskOf(db, f.attemptId), f.attemptId)
  {
    var attempt := FailedAttempt(db.attempts[f.attemptId], f, now);
    SettledGrows(db, AttemptFailed(db, f, now, cfg), attempt,
                 RequeueOrFail(TaskAt(db, attempt.taskId), f.reason, attempt.slotId, Requeues(f), now));
  }

  lemma DispatchGrows(db: Database, f: Failure, now: Time, cfg: Config)
    requires DbLinked(db) && f.attemptId in db.attempts
    ensures OnlyGrows(db, DispatchFailed(db, f, now, cfg))
  {
    var attempt := FailedAttempt(db.attempts[f.attemptId], f, now);
    SettledGrows(db, DispatchFailed(db, f, now, cfg), attempt,
                 RequeueOrFail(TaskAt(db, attempt.taskId), f.reason, attempt.slotId, Requeues(f), now));
  }

  lemma DropGrows(db: Database, id: Id, now: Time, cfg: Config)
    requires DbLinked(db) && id in db.attempts
    ensures OnlyGrows(db, Dropped(db, id, now, cfg))
    ensures db.attempts[id].slotId != "" ==> Excluded(Dropped(db, id, now, cfg), TaskOf(db, id), id)
  {
    var f := DisconnectFailure(db.attempts[id]);
    var attempt := FailedAttempt(db.attempts[id], f, now);
    SettledGrows(db, Dropped(db, id, now, cfg), attempt,
                 RequeueOrFail(TaskAt(db, attempt.taskId), f.reason, attempt.slotId, Requeues(f), now));
  }

  lemma ReportGrows(db: Database, report: Report, now: Time, cfg: Config)
    requires DbLinked(db) && report.attemptId in db.attempts
    ensures OnlyGrows(db, ComputeReport(db, report, now, cfg))
    ensures report.id !in db.reports && ReportRequeues(db.attempts[report.attemptId], report)
            && db.attempts[report.attemptId].slotId != "" ==>
              Excluded(ComputeReport(db, report, now, cfg), TaskOf(db, report.attemptId), report.attemptId)
  {
    if report.id !in db.reports {
      var attempt, r := db.attempts[report.attemptId], StoredReport(db, report);
      BilledReport(db, report);
      assert r.slotId == attempt.slotId;
      SettledGrows(db, ReportStored(db, report, now, cfg), ReportedAttempt(attempt, r, now),
                   ReportedTask(TaskAt(db, r.taskId), attempt, r, now));
    }
  }

  lemma DeliverGrows(sys: Sys, nodeId: Id, m: Message, now: Time, cfg: Config)
    requires DbLinked(sys.db) && Accepted(sys.db, nodeId, m)
    ensures OnlyGrows(sys.db, DeliverDb(sys, m, now, cfg))
  {
    match m
    case AttemptFailure(f) => FailureGrows(sys.db, f, now, cfg);
    case Reported(r) => ReportGrows(sys.db, r, now, cfg);
    case _ =>
  }

  lemma WorkerGrows(sys: Sys, e: WorkerEvent, now: Time, cfg: Config)
    requires DbLinked(sys.db) && WorkerEnabled(sys, e)
    ensures OnlyGrows(sys.db, WorkerDb(sys, e, now, cfg))
  {
    match e
    case Deliver(nodeId, m) =>
      if Accepted(sys.db, nodeId, m) {
        DeliverGrows(sys, nodeId, m, now, cfg);
      }
    case Drop(a) => DropGrows(sys.db, a, now, cfg);
    case _ =>
  }

  lemma GrowsDistinct(db: Database, db': Database, ids: set<Id>)
    requires Distinct(db, ids) && OnlyGrows(db, db')
    ensures Distinct(db', ids)
  {
  }

  lemma GrowsNeverAgain(db: Database, db': Database, ids: set<Id>, t: Id, r: Request)
    requires NeverAgain(db, ids, t, r) && OnlyGrows(db, db')
    ensures NeverAgain(db', ids, t, r)
  {
    if !r.phase.Over? {
      forall k | Tried(db', t, k) && !Current(r, k) ensures Excluded(db', t, k) {
        assert Tried(db, t, k);
      }
      forall k | Tried(db', t, k) ensures Tried(db, t, k) && db'.attempts[k].slotId == db.attempts[k].slotId {
      }
    }
  }

  // ---------- worker steps ----------

  /** When a request starts over, the slot of the attempt it waited for has been excluded. */
  lemma StartsOver(db': Database, ids: set<Id>, t: Id, r: Request, a: Id, retry: bool)
    requires NeverAgain(db', ids, t, r) && r.phase.Waiting? && r.phase.attemptId == a
    requires retry ==> Excluded(db', t, a)
    ensures NeverAgain(db', ids, t, Ended(r, retry))
  {
    if retry {
      forall k | Tried(db', t, k) ensures Excluded(db', t, k) {
        if k != a {
          assert !Current(r, k);
        }
      }
    }
  }

  lemma HeardNeverAgain(sys: Sys, nodeId: Id, m: Message, now: Time, cfg: Config, ids: set<Id>)
    requires Linked(sys) && Streams(sys) && Retrying(sys, ids) && NextMessage(sys, m) && Listens(sys, MessageAttempt(m))
    requires Accepted(sys.db, nodeId, m)
    ensures var t := TaskOf(sys.db, MessageAttempt(m));
            NeverAgain(DeliverDb(sys, m, now, cfg), ids, t, Heard(sys.requests[t], sys.db, nodeId, m))
  {
    var a := MessageAttempt(m);
    var t, w := TaskOf(sys.db, a), sys.workers[a];
    var r, db' := sys.requests[t], DeliverDb(sys, m, now, cfg);
    assert m in w.outbox && Truthful(w, a, m) && sys.db.attempts[a].slotId != "";
    DeliverGrows(sys, nodeId, m, now, cfg);
    assert NeverAgain(sys.db, ids, t, r);
    GrowsNeverAgain(sys.db, db', ids, t, r);
    match m
    case AttemptFailure(f) =>
      FailureGrows(sys.db, f, now, cfg);
      StartsOver(db', ids, t, r, a, Requeues(f));
    case Reported(report) =>
      ReportRetriesRequeue(sys, report, now, cfg);
      StartsOver(db', ids, t, r, a, ReportRetries(r, report));
    case _ => SamePhaseNeverAgain(db', ids, t, r, Heard(r, sys.db, nodeId, m));
  }

  lemma SamePhaseNeverAgain(db: Database, ids: set<Id>, t: Id, r: Request, r': Request)
    requires NeverAgain(db, ids, t, r) && r.phase.Waiting? && r'.phase.Waiting?
    requires r'.phase.attemptId == r.phase.attemptId
    ensures NeverAgain(db, ids, t, r')
  {
    forall k | Tried(db, t, k) && !Current(r', k) ensures Excluded(db, t, k) {
      assert !Current(r, k);
    }
  }

  /** A report that makes a collecting request start over also queues the task again: a
      truthful worker offers a retry only when it sent no output, so none is on record. */
  lemma ReportRetriesRequeue(sys: Sys, report: Report, now: Time, cfg: Config)
    requires Linked(sys) && Streams(sys) && NextMessage(sys, Reported(report)) && report.attemptId in sys.db.attempts
    requires sys.db.attempts[report.attemptId].slotId != ""
    ensures report.status == Failed && report.canRetry ==>
              Excluded(ComputeReport(sys.db, report, now, cfg), TaskOf(sys.db, report.attemptId), report.attemptId)
  {
    var w := sys.workers[report.attemptId];
    assert Reported(report) in w.outbox && Truthful(w, report.attemptId, Reported(report));
    if report.canRetry {
      assert !OutputOn(sys.db, report.attemptId);
    }
    ReportGrows(sys.db, report, now, cfg);
  }

  lemma DropNeverAgain(sys: Sys, a: Id, now: Time, cfg: Config, ids: set<Id>, t: Id)
    requires Linked(sys) && Retrying(sys, ids) && a in sys.db.attempts && t in sys.requests
    ensures NeverAgain(Dropped(sys.db, a, now, cfg), ids, t, WorkerRequests(sys, Drop(a))[t])
  {
    var r, db' := sys.requests[t], Dropped(sys.db, a, now, cfg);
    DropGrows(sys.db, a, now, cfg);
    assert NeverAgain(sys.db, ids, t, r);
    GrowsNeverAgain(sys.db, db', ids, t, r);
    if Listens(sys, a) && TaskOf(sys.db, a) == t {
      StartsOver(db', ids, t, r, a, Requeues(DisconnectFailure(AttemptAt(sys.db, a))));
    }
  }

  /** A message that is not accepted reaches a listening request only as a later token. */
  lemma UnacceptedNeverAgain(sys: Sys, nodeId: Id, m: Message, ids: set<Id>, t: Id)
    requires Retrying(sys, ids) && t in sys.requests && !Accepted(sys.db, nodeId, m)
    ensures NeverAgain(sys.db, ids, t, WorkerRequests(sys, Deliver(nodeId, m))[t])
  {
    var r := sys.requests[t];
    assert NeverAgain(sys.db, ids, t, r);
    if Listens(sys, MessageAttempt(m)) && TaskOf(sys.db, MessageAttempt(m)) == t {
      SamePhaseNeverAgain(sys.db, ids, t, r, Heard(r, sys.db, nodeId, m));
    }
  }

  lemma DeliverNeverAgain(sys: Sys, nodeId: Id, m: Message, now: Time, cfg: Config, ids: set<Id>, t: Id)
    requires Linked(sys) && Streams(sys) && Retrying(sys, ids) && NextMessage(sys, m) && t in sys.requests
    ensures NeverAgain(WorkerDb(sys, Deliver(nodeId, m), now, cfg), ids, t, WorkerRequests(sys, Deliver(nodeId, m))[t])
  {
    if !Accepted(sys.db, nodeId, m) {
      UnacceptedNeverAgain(sys, nodeId, m, ids, t);
    } else if Listens(sys, MessageAttempt(m)) && TaskOf(sys.db, MessageAttempt(m)) == t {
      HeardNeverAgain(sys, nodeId, m, now, cfg, ids);
    } else {
      UnheardNeverAgain(sys, nodeId, m, now, cfg, ids, t);
    }
  }

  lemma UnheardNeverAgain(sys: Sys, nodeId: Id, m: Message, now: Time, cfg: Config, ids: set<Id>, t: Id)
    requires Linked(sys) && Retrying(sys, ids) && t in sys.requests && Accepted(sys.db, nodeId, m)
    ensures NeverAgain(DeliverDb(sys, m, now, cfg), ids, t, sys.requests[t])
  {
    DeliverGrows(sys, nodeId, m, now, cfg);
    GrowsNeverAgain(sys.db, DeliverDb(sys, m, now, cfg), ids, t, sys.requests[t]);
  }

  lemma WorkerNeverAgain(sys: Sys, e: WorkerEvent, now: Time, cfg: Config, ids: set<Id>, t: Id)
    requires Linked(sys) && Streams(sys) && Retrying(sys, ids) && WorkerEnabled(sys, e) && t in sys.requests
    requires e.Deliver? ==> NextMessage(sys, e.message)
    ensures NeverAgain(WorkerDb(sys, e, now, cfg), ids, t, WorkerRequests(sys, e)[t])
  {
    match e
    case Deliver(nodeId, m) => DeliverNeverAgain(sys, nodeId, m, now, cfg, ids, t);
    case Drop(a) => DropNeverAgain(sys, a, now, cfg, ids, t);
    case _ =>
      WorkerGrows(sys, e, now, cfg);
      GrowsNeverAgain(sys.db, WorkerDb(sys, e, now, cfg), ids, t, sys.requests[t]);
  }

  lemma WorkerRetrying(sys: Sys, e: WorkerEvent, now: Time, cfg: Config, ids: set<Id>)
    requires Linked(sys) && Streams(sys) && Retrying(sys, ids) && WorkerEnabled(sys, e)
    requires e.Deliver? ==> NextMessage(sys, e.message)
    ensures Retrying(Sys(WorkerDb(sys, e, now, cfg), WorkerRequests(sys, e), WorkerWorkers(sys, e), now), ids)
  {
    WorkerGrows(sys, e, now, cfg);
    GrowsDistinct(sys.db, WorkerDb(sys, e, now, cfg), ids);
    WorkerRequestsKeys(sys, e);
    forall t | t in WorkerRequests(sys, e)
      ensures NeverAgain(WorkerDb(sys, e, now, cfg), ids, t, WorkerRequests(sys, e)[t])
    {
      WorkerNeverAgain(sys, e, now, cfg, ids, t);
    }
  }

  // ---------- client steps ----------

  lemma FinishGrows(db: Database, id: Id, reason: string, now: Time)
    requires DbLinked(db)
    ensures id in db.tasks ==> OnlyGrows(db, FailTask(db, id, reason, now))
    ensures OnlyGrows(db, RequestCancel(db, id, reason, now))
  {
    if id in db.tasks {
      TaskGrows(db, db.(tasks := db.tasks[id := Finished(db.tasks[id], Failed, reason, now)]),
                Finished(db.tasks[id], Failed, reason, now));
      TaskGrows(db, db.(tasks := db.tasks[id := Finished(db.tasks[id], Cancelled, reason, now)]),
                Finished(db.tasks[id], Cancelled, reason, now));
    }
    SameGrows(db, db);
  }

  lemma TaskGrows(db: Database, db': Database, t: Task)
    requires DbLinked(db) && t.id in db.tasks && t.failedSlots == db.tasks[t.id].failedSlots
    requires db'.tasks == db.tasks[t.id := t] && db'.attempts == db.attempts
    ensures OnlyGrows(db, db')
  {
  }

  lemma SameGrows(db: Database, db': Database)
    requires db'.tasks == db.tasks && db'.attempts == db.attempts
    ensures OnlyGrows(db, db')
  {
  }

  /** Steps other than a creation or a reservation add no attempt and forget no failed slot. */
  lemma ClientGrows(sys: Sys, e: ClientEvent, now: Time, cfg: Config)
    requires Linked(sys) && ClientEnabled(sys, e, cfg) && !e.Create? && !(e.TryReserve? && ReservesNow(sys, e.id))
    ensures OnlyGrows(sys.db, ClientDb(sys, e, now, cfg))
  {
    match e
    case DispatchFail(id) =>
      assert Faithful(sys.db.tasks, sys.db.attempts, id, sys.requests[id]);
      DispatchGrows(sys.db, DispatchFailure(sys.requests[id].phase.attemptId, id), now, cfg);
    case GiveUp(id) =>
      assert Faithful(sys.db.tasks, sys.db.attempts, id, sys.requests[id]);
      FinishGrows(sys.db, id, FAILURE_NO_CAPACITY, now);
    case Leave(id) => FinishGrows(sys.db, id, FAILURE_CANCELLED_BY_CLIENT, now);
    case Cancel(id) => FinishGrows(sys.db, id, FAILURE_CANCELLED_BY_CLIENT, now);
    case _ =>
  }

  /** A slot the scheduler selects is none of those the request's attempts were on. */
  lemma SelectNeverAgain(sys: Sys, id: Id, slotId: Id, effective: Profile, now: Time, cfg: Config, ids: set<Id>)
    requires Retrying(sys, ids) && SlotsSound(sys.db.slots, sys.clock, cfg) && slotId in ids && slotId != ""
    requires ClientEnabled(sys, Select(id, slotId, effective), cfg) && Selects(sys, Select(id, slotId, effective))
    ensures NeverAgain(sys.db, ids, id, ClientRequests(sys, Select(id, slotId, effective), now, cfg)[id])
  {
    var r := sys.requests[id];
    assert NeverAgain(sys.db, ids, id, r);
    forall k | Tried(sys.db, id, k) ensures Excluded(sys.db, id, k) && sys.db.attempts[k].slotId != slotId {
      assert !Current(r, k);
    }
  }

  lemma UnchangedNeverAgain(sys: Sys, e: ClientEvent, now: Time, cfg: Config, ids: set<Id>, t: Id)
    requires Retrying(sys, ids) && ClientEnabled(sys, e, cfg) && t in sys.requests
    requires !e.Select? && !e.Create? && !(e.TryReserve? && ReservesNow(sys, e.id))
    ensures NeverAgain(sys.db, ids, t, ClientRequests(sys, e, now, cfg)[t])
  {
    var r, r' := sys.requests[t], ClientRequests(sys, e, now, cfg)[t];
    assert NeverAgain(sys.db, ids, t, r);
    if !r.phase.Over? && !r'.phase.Over? {
      forall k | Tried(sys.db, t, k) && !Current(r', k) ensures Excluded(sys.db, t, k) {
        assert !Current(r, k);
      }
    }
  }

  lemma ReservedDistinct(sys: Sys, id: Id, attemptId: Id, now: Time, cfg: Config, ids: set<Id>)
    requires Linked(sys) && Retrying(sys, ids) && ClientEnabled(sys, TryReserve(id, attemptId), cfg)
    requires ReservesNow(sys, id)
    ensures Distinct(ClientDb(sys, TryReserve(id, attemptId), now, cfg), ids)
  {
    assert NeverAgain(sys.db, ids, id, sys.requests[id]);
    assert Faithful(sys.db.tasks, sys.db.attempts, id, sys.requests[id]);
    forall k | k in sys.db.attempts && sys.db.attempts[k].taskId == id
      ensures sys.db.attempts[k].slotId != sys.requests[id].phase.slot.id
    {
      assert Tried(sys.db, id, k);
    }
  }

  lemma ReservedNeverAgain(sys: Sys, id: Id, attemptId: Id, now: Time, cfg: Config, ids: set<Id>, t: Id)
    requires Linked(sys) && Retrying(sys, ids) && ClientEnabled(sys, TryReserve(id, attemptId), cfg)
    requires ReservesNow(sys, id)
    requires t in sys.requests
    ensures NeverAgain(ClientDb(sys, TryReserve(id, attemptId), now, cfg), ids, t,
                       ClientRequests(sys, TryReserve(id, attemptId), now, cfg)[t])
  {
    var db' := ClientDb(sys, TryReserve(id, attemptId), now, cfg);
    var r, r' := sys.requests[t], ClientRequests(sys, TryReserve(id, attemptId), now, cfg)[t];
    assert NeverAgain(sys.db, ids, t, r);
    assert Faithful(sys.db.tasks, sys.db.attempts, id, sys.requests[id]);
    forall k | Tried(db', t, k) && k != attemptId ensures Tried(sys.db, t, k) && db'.attempts[k] == sys.db.attempts[k] {
    }
    forall k | Excluded(sys.db, t, k) ensures Excluded(db', t, k) {
    }
    if !r.phase.Over? && !r'.phase.Over? {
      forall k | Tried(db', t, k) && !Current(r', k) ensures Excluded(db', t, k) {
        assert k != attemptId;
        assert !Current(r, k);
      }
    }
  }

  lemma CreatedNeverAgain(sys: Sys, e: ClientEvent, now: Time, cfg: Config, ids: set<Id>, t: Id)
    requires Linked(sys) && Retrying(sys, ids) && ClientEnabled(sys, e, cfg) && e.Create?
    requires t in ClientRequests(sys, e, now, cfg)
    ensures NeverAgain(ClientDb(sys, e, now, cfg), ids, t, ClientRequests(sys, e, now, cfg)[t])
  {
    var db' := ClientDb(sys, e, now, cfg);
    forall k ensures !Tried(sys.db, e.id, k) {
    }
    if t in sys.requests {
      assert NeverAgain(sys.db, ids, t, sys.requests[t]);
      CreateGrows(sys, e, now, cfg);
      GrowsNeverAgain(sys.db, db', ids, t, sys.requests[t]);
    }
  }

  lemma CreateGrows(sys: Sys, e: ClientEvent, now: Time, cfg: Config)
    requires Linked(sys) && ClientEnabled(sys, e, cfg) && e.Create?
    ensures OnlyGrows(sys.db, ClientDb(sys, e, now, cfg))
  {
  }

  lemma ClientNeverAgain(sys: Sys, e: ClientEvent, now: Time, cfg: Config, ids: set<Id>, t: Id)
    requires Linked(sys) && Retrying(sys, ids) && SlotsSound(sys.db.slots, sys.clock, cfg)
    requires ClientEnabled(sys, e, cfg) && Selects(sys, e) && (e.Select? ==> e.slotId in ids && e.slotId != "")
    requires t in ClientRequests(sys, e, now, cfg)
    ensures NeverAgain(ClientDb(sys, e, now, cfg), ids, t, ClientRequests(sys, e, now, cfg)[t])
  {
    if e.Create? {
      CreatedNeverAgain(sys, e, now, cfg, ids, t);
    } else if e.TryReserve? && ReservesNow(sys, e.id) {
      ReservedNeverAgain(sys, e.id, e.attemptId, now, cfg, ids, t);
    } else {
      if e.Select? {
        assert NeverAgain(sys.db, ids, t, sys.requests[t]);
        SelectNeverAgain(sys, e.id, e.slotId, e.effective, now, cfg, ids);
      } else {
        UnchangedNeverAgain(sys, e, now, cfg, ids, t);
      }
      ClientGrows(sys, e, now, cfg);
      GrowsNeverAgain(sys.db, ClientDb(sys, e, now, cfg), ids, t, ClientRequests(sys, e, now, cfg)[t]);
    }
  }

  lemma ClientRetrying(sys: Sys, e: ClientEvent, now: Time, cfg: Config, ids: set<Id>)
    requires Linked(sys) && Retrying(sys, ids) && SlotsSound(sys.db.slots, sys.clock, cfg)
    requires ClientEnabled(sys, e, cfg) && Selects(sys, e) && (e.Select? ==> e.slotId in ids && e.slotId != "")
    ensures Retrying(Sys(ClientDb(sys, e, now, cfg), ClientRequests(sys, e, now, cfg), ClientWorkers(sys, e, cfg),
                         now), ids)
  {
    if e.TryReserve? && ReservesNow(sys, e.id) {
      ReservedDistinct(sys, e.id, e.attemptId, now, cfg, ids);
    } else {
      if e.Create? {
        CreateGrows(sys, e, now, cfg);
      } else {
        ClientGrows(sys, e, now, cfg);
      }
      GrowsDistinct(sys.db, ClientDb(sys, e, now, cfg), ids);
    }
    forall t | t in ClientRequests(sys, e, now, cfg)
      ensures NeverAgain(ClientDb(sys, e, now, cfg), ids, t, ClientRequests(sys, e, now, cfg)[t])
    {
      ClientNeverAgain(sys, e, now, cfg, ids, t);
    }
  }

  lemma AdminSame(db: Database, e: AdminEvent, now: Time)
    ensures AdminDb(db, e, now).tasks == db.tasks && AdminDb(db, e, now).attempts == db.attempts
  {
    match e
    case Adjust(u, amount, reason) => AdjustSame(db, AdjustmentEntry(u, amount, reason, now));
    case _ => OtherAdminSame(db, e, now);
  }

  lemma AdjustSame(db: Database, e: LedgerEntry)
    ensures AppendLedgerEntry(db, e).tasks == db.tasks && AppendLedgerEntry(db, e).attempts == db.attempts
  {
  }

  lemma OtherAdminSame(db: Database, e: AdminEvent, now: Time)
    requires !e.Adjust?
    ensures AdminDb(db, e, now).tasks == db.tasks && AdminDb(db, e, now).attempts == db.attempts
  {
  }

  lemma AdminRetrying(sys: Sys, e: AdminEvent, now: Time, ids: set<Id>)
    requires Retrying(sys, ids)
    ensures Retrying(Sys(AdminDb(sys.db, e, now), sys.requests, sys.workers, now), ids)
  {
    var db' := AdminDb(sys.db, e, now);
    AdminSame(sys.db, e, now);
    SameGrows(sys.db, db');
    GrowsDistinct(sys.db, db', ids);
    forall t | t in sys.requests ensures NeverAgain(db', ids, t, sys.requests[t]) {
      GrowsNeverAgain(sys.db, db', ids, t, sys.requests[t]);
    }
  }

  lemma StepRetrying(sys: Sys, step: Step, cfg: Config, ids: set<Id>)
    requires Linked(sys) && Streams(sys) && Retrying(sys, ids) && SlotsSound(sys.db.slots, sys.clock, cfg)
    requires Enabled(sys, step, cfg) && Honest(ids)(sys, step)
    ensures Retrying(Apply(sys, step, cfg), ids)
  {
    match step.event
    case Client(e) => ClientRetrying(sys, e, step.now, cfg, ids);
    case OfWorker(e) => WorkerRetrying(sys, e, step.now, cfg, ids);
    case Admin(e) => AdminRetrying(sys, e, step.now, ids);
  }

  // ---------- the run theorems ----------

  ghost predicate RetryInv(sys: Sys, cfg: Config, ids: set<Id>) {
    Linked(sys) && Streams(sys) && Retrying(sys, ids) && SlotsSound(sys.db.slots, sys.clock, cfg)
  }

  /** Along every run a request never reserves a slot one of its attempts was on: its attempts are on distinct slots. */
  lemma AttemptsOnDistinctSlots(cfg: Config, ids: set<Id>, sys: Sys, sys': Sys)
    requires RetryInv(sys, cfg, ids) && Reachable(cfg, Honest(ids), sys, sys')
    ensures RetryInv(sys', cfg, ids)
  {
    var inv := (z: Sys) => RetryInv(z, cfg, ids);
    forall z: Sys, s: Step | inv(z) && Enabled(z, s, cfg) && Honest(ids)(z, s) ensures inv(Apply(z, s, cfg)) {
      StepLinked(z, s, cfg);
      StepStreams(z, s, cfg, ids);
      StepKept(z, s, cfg, "slot", 0);
      StepRetrying(z, s, cfg, ids);
    }
    Preserved(inv, cfg, Honest(ids), sys, sys');
  }

  function AttemptsOf(db: Database, t: Id): set<Id> {
    set k | k in db.attempts && db.attempts[k].taskId == t
  }

  lemma {:induction false} InjectiveBound(keys: set<Id>, slot: map<Id, Id>, ids: set<Id>)
    requires keys <= slot.Keys && forall k :: k in keys ==> slot[k] in ids
    requires forall j, k :: j in keys && k in keys && j != k ==> slot[j] != slot[k]
    ensures |keys| <= |ids|
  {
    if keys != {} {
      var k :| k in keys;
      InjectiveBound(keys - {k}, slot, ids - {slot[k]});
    }
  }

  /** With slot IDs from a fixed set, no request ever makes more attempts than there are slots. */
  lemma RetriesAreBounded(cfg: Config, ids: set<Id>, sys: Sys, sys': Sys, t: Id)
    requires RetryInv(sys, cfg, ids) && Reachable(cfg, Honest(ids), sys, sys')
    ensures |AttemptsOf(sys'.db, t)| <= |ids|
  {
    AttemptsOnDistinctSlots(cfg, ids, sys, sys');
    InjectiveBound(AttemptsOf(sys'.db, t), map k | k in sys'.db.attempts :: sys'.db.attempts[k].slotId, ids);
  }

  /** Every invariant holds in a manager that starts without users, tasks, attempts and slots. */
  lemma FreshStart(db: Database, clock: Time, cfg: Config, ids: set<Id>)
    requires db.users == map[] && db.ledger == [] && db.tasks == map[] && db.attempts == map[] && db.slots == map[]
    ensures RetryInv(Sys(db, map[], map[], clock), cfg, ids) && LedgerMatches(db) && Solvent(db)
  {
    forall u ensures Slack(db, u) >= 0 {
      assert Pending(db.tasks, u) == 0;
    }
  }
}
