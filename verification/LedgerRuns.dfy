/** Over every run, with any worker payloads and any admin actions: balances are what the
    ledger says, a replayed report changes nothing, and paid work moves compute between
    users without creating any. */
module LedgerRuns {
  import opened Base
  import opened Totals
  import opened Model
  import opened Accounting
  import opened Handlers
  import opened Protocol

  /** The step leaves users and ledger alone. */
  ghost predicate SameBooks(db: Database, db': Database) {
    db'.users == db.users && db'.ledger == db.ledger
  }

  lemma ClientBooks(sys: Sys, e: ClientEvent, now: Time, cfg: Config)
    requires ClientEnabled(sys, e, cfg)
    ensures SameBooks(sys.db, ClientDb(sys, e, now, cfg))
  {
  }

  lemma ReportBooks(db: Database, report: Report, now: Time, cfg: Config)
    requires LedgerMatches(db)
    ensures LedgerMatches(ComputeReport(db, report, now, cfg))
  {
    BillMatches(db, StoredReport(db, report), now);
  }

  lemma DeliverBooks(sys: Sys, m: Message, now: Time, cfg: Config)
    requires LedgerMatches(sys.db)
    ensures LedgerMatches(DeliverDb(sys, m, now, cfg))
  {
    match m
    case Reported(r) => ReportBooks(sys.db, r, now, cfg);
    case _ => assert SameBooks(sys.db, DeliverDb(sys, m, now, cfg));
  }

  lemma WorkerBooks(sys: Sys, e: WorkerEvent, now: Time, cfg: Config)
    requires LedgerMatches(sys.db)
    ensures LedgerMatches(WorkerDb(sys, e, now, cfg))
  {
    if e.Deliver? {
      DeliverBooks(sys, e.message, now, cfg);
    } else {
      OtherBooks(sys, e, now, cfg);
      SameBooksMatch(sys.db, WorkerDb(sys, e, now, cfg));
    }
  }

  lemma OtherBooks(sys: Sys, e: WorkerEvent, now: Time, cfg: Config)
    requires !e.Deliver?
    ensures SameBooks(sys.db, WorkerDb(sys, e, now, cfg))
  {
  }

  lemma AdjustBooks(db: Database, u: Id, amount: int, reason: string, now: Time)
    requires LedgerMatches(db)
    ensures LedgerMatches(AdminDb(db, Adjust(u, amount, reason), now))
  {
    if u in db.users {
      AppendMatches(db, AdjustmentEntry(u, amount, reason, now));
    }
  }

  lemma AddUserBooks(db: Database, id: Id, name: string, now: Time)
    requires LedgerMatches(db) && id != ""
    ensures LedgerMatches(AdminDb(db, AddUser(id, name), now))
  {
    if id !in db.users {
      NewUserMatches(db, NewUser(id, name));
    }
  }

  lemma OtherAdminBooks(db: Database, e: AdminEvent, now: Time)
    requires !e.Adjust? && !e.AddUser?
    ensures SameBooks(db, AdminDb(db, e, now))
  {
  }

  lemma SameBooksMatch(db: Database, db': Database)
    requires LedgerMatches(db) && SameBooks(db, db')
    ensures LedgerMatches(db')
  {
  }

  lemma AdminBooks(db: Database, e: AdminEvent, now: Time)
    requires LedgerMatches(db) && (e.AddUser? ==> e.id != "")
    ensures LedgerMatches(AdminDb(db, e, now))
  {
    match e
    case AddUser(id, name) => AddUserBooks(db, id, name, now);
    case Adjust(u, amount, reason) => AdjustBooks(db, u, amount, reason, now);
    case _ =>
      OtherAdminBooks(db, e, now);
      SameBooksMatch(db, AdminDb(db, e, now));
  }

  lemma StepBooks(sys: Sys, step: Step, cfg: Config)
    requires LedgerMatches(sys.db) && Enabled(sys, step, cfg)
    ensures LedgerMatches(Apply(sys, step, cfg).db)
  {
    match step.event
    case Client(e) => ClientBooks(sys, e, step.now, cfg);
    case OfWorker(e) => WorkerBooks(sys, e, step.now, cfg);
    case Admin(e) => AdminBooks(sys.db, e, step.now);
  }

  /** In every reachable state each user's balance is the signed sum of their ledger entries. */
  lemma LedgerEqualsBalances(cfg: Config, also: (Sys, Step) -> bool, sys: Sys, sys': Sys)
    requires LedgerMatches(sys.db) && Reachable(cfg, also, sys, sys')
    ensures LedgerMatches(sys'.db)
  {
    forall z: Sys, t: Step | LedgerMatches(z.db) && Enabled(z, t, cfg) && also(z, t)
      ensures LedgerMatches(Apply(z, t, cfg).db)
    {
      StepBooks(z, t, cfg);
    }
    Preserved((z: Sys) => LedgerMatches(z.db), cfg, also, sys, sys');
  }

  /** A report between a known consumer and a known node owner leaves the sum of all balances unchanged. */
  lemma ReportConserves(db: Database, report: Report, now: Time, cfg: Config)
    requires UsersKeyed(db.users)
    requires StoredReport(db, report).userId in db.users
    requires NodeAt(db, AttemptAt(db, report.attemptId).nodeId).ownerUserId in db.users
    ensures Total(ComputeReport(db, report, now, cfg).users, BalanceOf()) == Total(db.users, BalanceOf())
  {
    BillConserves(db, StoredReport(db, report), now);
  }

  // ---------- charges do not depend on the worker's payload ----------

  lemma ComputedBooks(db: Database, report: Report, now: Time, cfg: Config)
    requires report.id !in db.reports
    ensures ComputeReport(db, report, now, cfg).users == Bill(db, StoredReport(db, report), now).users
    ensures ComputeReport(db, report, now, cfg).ledger == Bill(db, StoredReport(db, report), now).ledger
  {
  }

  /** Two reports for one attempt with the same ID and status leave the same ledger and the
      same balances, whatever else they claim. */
  lemma ReportsChargeAlike(db: Database, r: Report, s: Report, now: Time, cfg: Config)
    requires r.id == s.id && r.status == s.status && r.attemptId == s.attemptId
    ensures SameBooks(ComputeReport(db, r, now, cfg), ComputeReport(db, s, now, cfg))
  {
    if r.id !in db.reports {
      ComputedBooks(db, r, now, cfg);
      ComputedBooks(db, s, now, cfg);
      ChargesIgnorePayload(db, r, s, now);
    }
  }

  // ---------- a report is applied and billed at most once ----------

  lemma StepKeepsReports(sys: Sys, step: Step, cfg: Config)
    requires Enabled(sys, step, cfg)
    ensures sys.db.reports.Keys <= Apply(sys, step, cfg).db.reports.Keys
  {
    match step.event
    case Client(e) => ClientReports(sys, e, step.now, cfg);
    case OfWorker(e) => WorkerReports(sys, e, step.now, cfg);
    case Admin(e) => AdminReports(sys.db, e, step.now);
  }

  lemma ClientReports(sys: Sys, e: ClientEvent, now: Time, cfg: Config)
    requires ClientEnabled(sys, e, cfg)
    ensures ClientDb(sys, e, now, cfg).reports == sys.db.reports
  {
  }

  lemma AdminReports(db: Database, e: AdminEvent, now: Time)
    ensures AdminDb(db, e, now).reports == db.reports
  {
  }

  lemma WorkerReports(sys: Sys, e: WorkerEvent, now: Time, cfg: Config)
    ensures sys.db.reports.Keys <= WorkerDb(sys, e, now, cfg).reports.Keys
  {
    if e.Deliver? {
      DeliverReports(sys, e.message, now, cfg);
    } else {
      OtherReports(sys, e, now, cfg);
    }
  }

  lemma DeliverReports(sys: Sys, m: Message, now: Time, cfg: Config)
    ensures sys.db.reports.Keys <= DeliverDb(sys, m, now, cfg).reports.Keys
  {
  }

  lemma OtherReports(sys: Sys, e: WorkerEvent, now: Time, cfg: Config)
    requires !e.Deliver?
    ensures WorkerDb(sys, e, now, cfg).reports == sys.db.reports
  {
  }

  /** A report once handled changes nothing however much later it, or another one with its ID, arrives again. */
  lemma ReplaysChangeNothing(cfg: Config, also: (Sys, Step) -> bool, sys: Sys, sys': Sys, again: Report, now: Time)
    requires again.id in sys.db.reports && Reachable(cfg, also, sys, sys')
    ensures ComputeReport(sys'.db, again, now, cfg) == sys'.db
  {
    var known := (z: Sys) => again.id in z.db.reports;
    forall z: Sys, t: Step | known(z) && Enabled(z, t, cfg) && also(z, t) ensures known(Apply(z, t, cfg)) {
      StepKeepsReports(z, t, cfg);
    }
    Preserved(known, cfg, also, sys, sys');
  }

  /** The entries of one kind that a report caused. */
  function CausedBy(kind: LedgerKind, reportId: Id): LedgerEntry -> int {
    (e: LedgerEntry) => if e.kind == kind && e.reportId == reportId then 1 else 0
  }

  /** No report has two debits or two credits. */
  ghost predicate BilledOnce(ledger: seq<LedgerEntry>) {
    forall id :: Sum(ledger, CausedBy(ConsumeCompute, id)) <= 1 && Sum(ledger, CausedBy(ProduceCompute, id)) <= 1
  }

  lemma {:induction false} UnchargedHasNone(ledger: seq<LedgerEntry>, kind: LedgerKind, id: Id)
    requires !Charged(ledger, id)
    ensures Sum(ledger, CausedBy(kind, id)) == 0
  {
    if ledger != [] {
      var rest := ledger[..|ledger| - 1];
      forall e | e in rest ensures e in ledger {
      }
      UnchargedHasNone(rest, kind, id);
      assert ledger[|ledger| - 1] in ledger;
    }
  }

  lemma ConsumeCounts(db: Database, r: Report, now: Time, kind: LedgerKind, id: Id)
    ensures Sum(Consume(db, r, now).ledger, CausedBy(kind, id)) - Sum(db.ledger, CausedBy(kind, id))
         == if r.userId in db.users && kind == ConsumeCompute && id == r.id then 1 else 0
  {
    SumAppend(db.ledger, ConsumptionEntry(r, now), CausedBy(kind, id));
  }

  lemma ProduceCounts(db: Database, r: Report, now: Time, kind: LedgerKind, id: Id)
    ensures 0 <= Sum(Produce(db, r, now).ledger, CausedBy(kind, id)) - Sum(db.ledger, CausedBy(kind, id))
              <= if kind == ProduceCompute && id == r.id then 1 else 0
  {
    SumAppend(db.ledger, ProductionEntry(r, NodeAt(db, r.nodeId).ownerUserId, now), CausedBy(kind, id));
  }

  lemma BillOnce(db: Database, r: Report, now: Time)
    requires BilledOnce(db.ledger)
    ensures BilledOnce(Bill(db, r, now).ledger)
  {
    if Billable(db, r) {
      var mid := Consume(db, r, now);
      forall id ensures Sum(Produce(mid, r, now).ledger, CausedBy(ConsumeCompute, id)) <= 1
                     && Sum(Produce(mid, r, now).ledger, CausedBy(ProduceCompute, id)) <= 1
      {
        ConsumeCounts(db, r, now, ConsumeCompute, id);
        ConsumeCounts(db, r, now, ProduceCompute, id);
        ProduceCounts(mid, r, now, ConsumeCompute, id);
        ProduceCounts(mid, r, now, ProduceCompute, id);
        if id == r.id {
          UnchargedHasNone(db.ledger, ConsumeCompute, id);
          UnchargedHasNone(db.ledger, ProduceCompute, id);
        }
      }
    }
  }

  lemma AdjustOnce(db: Database, u: Id, amount: int, reason: string, now: Time)
    requires BilledOnce(db.ledger)
    ensures BilledOnce(AppendLedgerEntry(db, AdjustmentEntry(u, amount, reason, now)).ledger)
  {
    var e := AdjustmentEntry(u, amount, reason, now);
    forall id ensures Sum(db.ledger + [e], CausedBy(ConsumeCompute, id)) <= 1
                   && Sum(db.ledger + [e], CausedBy(ProduceCompute, id)) <= 1
    {
      SumAppend(db.ledger, e, CausedBy(ConsumeCompute, id));
      SumAppend(db.ledger, e, CausedBy(ProduceCompute, id));
    }
  }

  lemma DeliverOnce(sys: Sys, m: Message, now: Time, cfg: Config)
    requires BilledOnce(sys.db.ledger)
    ensures BilledOnce(DeliverDb(sys, m, now, cfg).ledger)
  {
    match m
    case Reported(r) =>
      if r.id !in sys.db.reports {
        ComputedBooks(sys.db, r, now, cfg);
        BillOnce(sys.db, StoredReport(sys.db, r), now);
      }
    case _ =>
  }

  lemma WorkerOnce(sys: Sys, e: WorkerEvent, now: Time, cfg: Config)
    requires BilledOnce(sys.db.ledger)
    ensures BilledOnce(WorkerDb(sys, e, now, cfg).ledger)
  {
    if e.Deliver? {
      DeliverOnce(sys, e.message, now, cfg);
    } else {
      OtherBooks(sys, e, now, cfg);
    }
  }

  lemma AdminOnce(db: Database, e: AdminEvent, now: Time)
    requires BilledOnce(db.ledger)
    ensures BilledOnce(AdminDb(db, e, now).ledger)
  {
    match e
    case Adjust(u, amount, reason) => AdjustOnce(db, u, amount, reason, now);
    case AddUser(id, name) =>
    case _ => OtherAdminBooks(db, e, now);
  }

  /** Over every run, replays and repeated IDs included, no report is billed twice. */
  lemma ReportsAreBilledOnce(cfg: Config, also: (Sys, Step) -> bool, sys: Sys, sys': Sys)
    requires BilledOnce(sys.db.ledger) && Reachable(cfg, also, sys, sys')
    ensures BilledOnce(sys'.db.ledger)
  {
    var once := (z: Sys) => BilledOnce(z.db.ledger);
    forall z: Sys, t: Step | once(z) && Enabled(z, t, cfg) && also(z, t) ensures once(Apply(z, t, cfg)) {
      match t.event
      case Client(e) => ClientBooks(z, e, t.now, cfg);
      case OfWorker(e) => WorkerOnce(z, e, t.now, cfg);
      case Admin(e) => AdminOnce(z.db, e, t.now);
    }
    Preserved(once, cfg, also, sys, sys');
  }
}
