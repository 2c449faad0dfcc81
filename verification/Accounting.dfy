/** The compute ledger, user balances and the admission check
    (internal/comrad/compute_accounting.go, internal/comrad/manager_accounting_admin.go). */
module Accounting {
  import opened Base
  import opened Totals
  import opened Model
  import opened Store

  // ---------- balances and pending cost ----------

  predicate Live(s: TaskStatus) {
    s == Queued || s == Running
  }

  /** What a task holds back from its user's balance. */
  function HeldBy(u: Id): Task -> int {
    (t: Task) => if t.userId == u && Live(t.status) then t.computeCost else 0
  }

  function Pending(tasks: map<Id, Task>, u: Id): int {
    Total(tasks, HeldBy(u))
  }

  function Balance(users: map<Id, User>, u: Id): int {
    if u in users then users[u].balance else 0
  }

  method HeldCost(task: Task, u: Id) returns (cost: int)
    ensures cost == HeldBy(u)(task)
  {
    if task.userId != u {
      return 0;
    }
    if task.status == Queued || task.status == Running {
      return task.computeCost;
    }
    return 0;
  }

  /** `pendingComputeCost`, whatever order the task map is walked in. */
  method PendingComputeCost(tasks: map<Id, Task>, u: Id) returns (total: int)
    ensures total == Pending(tasks, u)
  {
    total := 0;
    var todo := tasks.Keys;
    ghost var held := At(tasks, HeldBy(u));
    while todo != {}
      invariant todo <= tasks.Keys
      invariant total + SumOver(todo, held) == Pending(tasks, u)
      decreases |todo|
    {
      var k :| k in todo;
      SumOverRemove(todo, k, held);
      todo := todo - {k};
      var cost := HeldCost(tasks[k], u);
      total := total + cost;
    }
  }

  predicate Sufficient(db: Database, u: Id, cost: int, enforce: bool) {
    !enforce || cost <= 0 || Balance(db.users, u) - Pending(db.tasks, u) >= cost
  }

  method EnsureSufficientAvailableBalance(db: Database, u: Id, cost: int, enforce: bool) returns (ok: bool)
    ensures ok <==> Sufficient(db, u, cost, enforce)
  {
    if !enforce || cost <= 0 {
      return true;
    }
    var pending := PendingComputeCost(db.tasks, u);
    return !(Balance(db.users, u) - pending < cost);
  }

  // ---------- the ledger ----------

  function Moved(user: User, e: LedgerEntry): User {
    user.(balance := if e.direction == Debit then user.balance - e.amount else user.balance + e.amount)
  }

  function ApplyLedgerBalance(users: map<Id, User>, e: LedgerEntry): map<Id, User> {
    if e.userId !in users || users[e.userId].id == "" then users
    else users[users[e.userId].id := Moved(users[e.userId], e)]
  }

  function AppendLedgerEntry(db: Database, e: LedgerEntry): Database {
    db.(ledger := db.ledger + [e], users := ApplyLedgerBalance(db.users, e))
  }

  function ConsumptionEntry(r: Report, now: Time): LedgerEntry {
    LedgerEntry(ConsumeCompute, r.userId, r.taskId, r.attemptId, r.id, r.nodeId, r.slotId, r.profileId,
                r.profileVersion,
                r.computeCost, r.computeCost, Debit, "completed task", now)
  }

  function ProductionEntry(r: Report, owner: Id, now: Time): LedgerEntry {
    LedgerEntry(ProduceCompute, owner, r.taskId, r.attemptId, r.id, r.nodeId, r.slotId, r.profileId, r.profileVersion,
                r.computeCost, r.computeCost, Credit, "completed task on owned node", now)
  }

  function Consume(db: Database, r: Report, now: Time): Database {
    if r.userId in db.users then AppendLedgerEntry(db, ConsumptionEntry(r, now)) else db
  }

  function Produce(db: Database, r: Report, now: Time): Database {
    var owner := NodeAt(db, r.nodeId).ownerUserId;
    if owner == "" || owner !in db.users then db else AppendLedgerEntry(db, ProductionEntry(r, owner, now))
  }

  predicate Charged(ledger: seq<LedgerEntry>, reportId: Id) {
    exists e :: e in ledger && e.reportId == reportId
  }

  const ZERO_ATTEMPT := Attempt(
    "", "", "", "", "", "", 0, "", "", "", 0, OtherStatus(""), "", "", false, false, 0, None)

  function AttemptAt(db: Database, id: Id): Attempt {
    if id in db.attempts then db.attempts[id] else ZERO_ATTEMPT
  }

  /** What the accounting step makes of a report: stored attempt and task win over its own claims. */
  function Authoritative(r: Report, attempt: Attempt, task: Task): Report {
    r.(taskId := attempt.taskId,
       userId := FirstNonEmpty(attempt.userId, task.userId),
       nodeId := attempt.nodeId, slotId := attempt.slotId,
       profileId := FirstNonEmpty(attempt.profileId, task.profileId),
       profileVersion := FirstNonZero(attempt.profileVersion, task.profileVersion),
       logicalModel := FirstNonEmpty(attempt.logicalModel, task.logicalModel),
       runtimeVariantId := FirstNonEmpty(attempt.runtimeVariantId, task.runtimeVariantId),
       adapter := attempt.adapter,
       computeCost := FirstNonZero(attempt.computeCost, task.computeCost))
  }

  function Accounted(db: Database, r: Report): Report {
    var attempt, task := AttemptAt(db, r.attemptId), TaskAt(db, r.taskId);
    r.(userId := FirstNonEmpty(FirstNonEmpty(attempt.userId, task.userId), r.userId),
       profileVersion := FirstNonZero(FirstNonZero(attempt.profileVersion, task.profileVersion), r.profileVersion),
       computeCost := FirstNonZero(FirstNonZero(attempt.computeCost, task.computeCost), r.computeCost))
  }

  predicate Billable(db: Database, r: Report) {
    r.status == Completed && r.computeCost > 0 && !Charged(db.ledger, r.id)
  }

  /** The ledger and balances after `applyReportAccounting` on a report already accounted. */
  function Bill(db: Database, r: Report, now: Time): Database {
    if Billable(db, r) then Produce(Consume(db, r, now), r, now) else db
  }

  method LedgerExistsForReport(ledger: seq<LedgerEntry>, reportId: Id) returns (found: bool)
    ensures found <==> Charged(ledger, reportId)
  {
    for i := 0 to |ledger|
      invariant forall j :: 0 <= j < i ==> ledger[j].reportId != reportId
    {
      if ledger[i].reportId == reportId {
        return true;
      }
    }
    return false;
  }

  method AppendEntry(store: Store, e: LedgerEntry)
    modifies store
    ensures store.db == AppendLedgerEntry(old(store.db), e)
  {
    store.db := store.db.(ledger := store.db.ledger + [e]);
    if e.userId !in store.db.users || store.db.users[e.userId].id == "" {
      return;
    }
    var user := store.db.users[e.userId];
    if e.direction == Debit {
      user := user.(balance := user.balance - e.amount);
    } else if e.direction == Credit {
      user := user.(balance := user.balance + e.amount);
    }
    store.db := store.db.(users := store.db.users[user.id := user]);
  }

  method ApplyReportAccounting(store: Store, report: Report, now: Time) returns (r: Report)
    modifies store
    ensures r == Accounted(old(store.db), report) && store.db == Bill(old(store.db), r, now)
  {
    r := Accounted(store.db, report);
    var charged := LedgerExistsForReport(store.db.ledger, r.id);
    if r.status == Completed && r.computeCost > 0 && !charged {
      if r.userId in store.db.users {
        AppendEntry(store, ConsumptionEntry(r, now));
      }
      var owner := NodeAt(store.db, r.nodeId).ownerUserId;
      if owner != "" && owner in store.db.users {
        AppendEntry(store, ProductionEntry(r, owner, now));
      }
    }
  }

  // ---------- billing touches the books only ----------

  /** Everything but users and ledger is the same. */
  ghost predicate OnlyBooks(db: Database, db': Database) {
    db' == db.(users := db'.users, ledger := db'.ledger)
  }

  lemma AppendOnlyBooks(db: Database, e: LedgerEntry)
    ensures OnlyBooks(db, AppendLedgerEntry(db, e))
  {
  }

  lemma BillOnlyBooks(db: Database, r: Report, now: Time)
    ensures OnlyBooks(db, Bill(db, r, now))
  {
    AppendOnlyBooks(db, ConsumptionEntry(r, now));
    var mid, owner := Consume(db, r, now), NodeAt(db, r.nodeId).ownerUserId;
    AppendOnlyBooks(mid, ProductionEntry(r, owner, now));
  }

  // ---------- ledger equals balances ----------

  function Signed(u: Id): LedgerEntry -> int {
    (e: LedgerEntry) => if e.userId != u then 0 else if e.direction == Debit then -e.amount else e.amount
  }

  ghost predicate UsersKeyed(users: map<Id, User>) {
    forall u :: u in users ==> users[u].id == u && u != ""
  }

  /** Every user's balance is the signed sum of their entries, and entries name known users only. */
  ghost predicate LedgerMatches(db: Database) {
    && UsersKeyed(db.users)
    && (forall e :: e in db.ledger ==> e.userId in db.users)
    && (forall u :: u in db.users ==> db.users[u].balance == Sum(db.ledger, Signed(u)))
  }

  lemma AppendMatches(db: Database, e: LedgerEntry)
    requires LedgerMatches(db) && e.userId in db.users
    ensures LedgerMatches(AppendLedgerEntry(db, e))
    ensures AppendLedgerEntry(db, e).users.Keys == db.users.Keys
  {
    var db' := AppendLedgerEntry(db, e);
    forall u | u in db'.users ensures db'.users[u].balance == Sum(db'.ledger, Signed(u)) {
      SumAppend(db.ledger, e, Signed(u));
    }
  }

  lemma BillMatches(db: Database, r: Report, now: Time)
    requires LedgerMatches(db)
    ensures LedgerMatches(Bill(db, r, now)) && Bill(db, r, now).users.Keys == db.users.Keys
  {
    if Billable(db, r) {
      if r.userId in db.users {
        AppendMatches(db, ConsumptionEntry(r, now));
      }
      var mid, owner := Consume(db, r, now), NodeAt(db, r.nodeId).ownerUserId;
      if owner != "" && owner in mid.users {
        AppendMatches(mid, ProductionEntry(r, owner, now));
      }
    }
  }

  lemma {:induction false} NoEntriesNoSum(ledger: seq<LedgerEntry>, u: Id)
    requires forall e :: e in ledger ==> e.userId != u
    ensures Sum(ledger, Signed(u)) == 0
  {
    if ledger != [] {
      NoEntriesNoSum(ledger[..|ledger| - 1], u);
      assert ledger[|ledger| - 1] in ledger;
    }
  }

  /** A new user starts at zero, and no earlier entry names them. */
  lemma NewUserMatches(db: Database, user: User)
    requires LedgerMatches(db) && user.id !in db.users && user.id != "" && user.balance == 0
    ensures LedgerMatches(db.(users := db.users[user.id := user]))
  {
    NoEntriesNoSum(db.ledger, user.id);
  }

  // ---------- conservation ----------

  function BalanceOf(): User -> int {
    (u: User) => u.balance
  }

  lemma AppendMoves(db: Database, e: LedgerEntry)
    requires UsersKeyed(db.users) && e.userId in db.users
    ensures Total(AppendLedgerEntry(db, e).users, BalanceOf()) == Total(db.users, BalanceOf()) + Signed(e.userId)(e)
    ensures UsersKeyed(AppendLedgerEntry(db, e).users) && AppendLedgerEntry(db, e).users.Keys == db.users.Keys
  {
    TotalUpdate(db.users, e.userId, Moved(db.users[e.userId], e), BalanceOf());
  }

  /** Billing a report between a known consumer and a known owner moves compute and creates none. */
  lemma BillConserves(db: Database, r: Report, now: Time)
    requires UsersKeyed(db.users) && r.userId in db.users && NodeAt(db, r.nodeId).ownerUserId in db.users
    ensures Total(Bill(db, r, now).users, BalanceOf()) == Total(db.users, BalanceOf())
  {
    if Billable(db, r) {
      AppendMoves(db, ConsumptionEntry(r, now));
      var mid := Consume(db, r, now);
      AppendMoves(mid, ProductionEntry(r, NodeAt(db, r.nodeId).ownerUserId, now));
    }
  }

  lemma AppendBalance(db: Database, e: LedgerEntry, u: Id)
    requires UsersKeyed(db.users) && e.userId in db.users
    ensures Balance(AppendLedgerEntry(db, e).users, u) == Balance(db.users, u) + Signed(u)(e)
    ensures UsersKeyed(AppendLedgerEntry(db, e).users) && AppendLedgerEntry(db, e).users.Keys == db.users.Keys
  {
  }

  lemma BillKeyed(db: Database, r: Report, now: Time)
    requires UsersKeyed(db.users)
    ensures UsersKeyed(Bill(db, r, now).users)
  {
    if Billable(db, r) {
      var mid, owner := Consume(db, r, now), NodeAt(db, r.nodeId).ownerUserId;
      if r.userId in db.users {
        AppendBalance(db, ConsumptionEntry(r, now), "");
      }
      assert UsersKeyed(mid.users);
      if owner in mid.users {
        AppendBalance(mid, ProductionEntry(r, owner, now), "");
      }
    }
  }

  /** Exactly what billing does to one balance. */
  lemma BillBalance(db: Database, r: Report, now: Time, u: Id)
    requires UsersKeyed(db.users)
    ensures Balance(Bill(db, r, now).users, u)
         == Balance(db.users, u)
            - (if Billable(db, r) && u in db.users && u == r.userId then r.computeCost else 0)
            + (if Billable(db, r) && u in db.users && u == NodeAt(db, r.nodeId).ownerUserId then r.computeCost else 0)
  {
    if Billable(db, r) {
      var mid, owner := Consume(db, r, now), NodeAt(db, r.nodeId).ownerUserId;
      if r.userId in db.users {
        AppendBalance(db, ConsumptionEntry(r, now), u);
      }
      assert UsersKeyed(mid.users) && mid.users.Keys == db.users.Keys && NodeAt(mid, r.nodeId).ownerUserId == owner;
      if owner in mid.users {
        AppendBalance(mid, ProductionEntry(r, owner, now), u);
      }
    }
  }

  // ---------- charges do not depend on the worker's payload ----------

  /** The reports agree on everything a bill is made of. */
  predicate SameBill(x: Report, y: Report) {
    && x.id == y.id && x.status == y.status && x.attemptId == y.attemptId && x.taskId == y.taskId
    && x.userId == y.userId && x.nodeId == y.nodeId && x.slotId == y.slotId && x.profileId == y.profileId
    && x.profileVersion == y.profileVersion && x.computeCost == y.computeCost
  }

  lemma SameBillSameLedger(db: Database, x: Report, y: Report, now: Time)
    requires SameBill(x, y)
    ensures Bill(db, x, now) == Bill(db, y, now)
  {
    assert ConsumptionEntry(x, now) == ConsumptionEntry(y, now);
    var owner := NodeAt(db, x.nodeId).ownerUserId;
    assert ProductionEntry(x, owner, now) == ProductionEntry(y, owner, now);
  }

  /** Two reports for one attempt with the same ID and status bill the same entries,
      whatever user, cost, node, slot or profile they claim. */
  lemma ChargesIgnorePayload(db: Database, r: Report, s: Report, now: Time)
    requires r.id == s.id && r.status == s.status && r.attemptId == s.attemptId
    ensures var attempt := AttemptAt(db, r.attemptId);
            var task := TaskAt(db, attempt.taskId);
            Bill(db, Accounted(db, Authoritative(r, attempt, task)), now)
            == Bill(db, Accounted(db, Authoritative(s, attempt, task)), now)
  {
    var attempt := AttemptAt(db, r.attemptId);
    var task := TaskAt(db, attempt.taskId);
    SameBillSameLedger(db, Accounted(db, Authoritative(r, attempt, task)),
                       Accounted(db, Authoritative(s, attempt, task)), now);
  }

  /** The bill names the stored attempt's task and node, and the stored attempt's or task's user and cost. */
  lemma BilledFromStore(db: Database, r: Report)
    requires r.attemptId in db.attempts
    ensures var attempt := db.attempts[r.attemptId];
            var task := TaskAt(db, attempt.taskId);
            var x := Accounted(db, Authoritative(r, attempt, task));
            && x.taskId == attempt.taskId && x.nodeId == attempt.nodeId && x.slotId == attempt.slotId
            && x.userId == FirstNonEmpty(attempt.userId, task.userId)
            && x.computeCost == FirstNonZero(attempt.computeCost, task.computeCost)
            && x.id == r.id && x.status == r.status && x.canRetry == r.canRetry
  {
  }
}
