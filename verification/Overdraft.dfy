/** Why the overdraft theorem speaks of live tasks only: from an empty manager, an orderly run
    reaches a state in which one disconnect, of a cancelled task, overdraws its user. */
module Overdraft {
  import opened Base
  import opened Totals
  import opened Traces
  import opened Model
  import opened Fit
  import opened Accounting
  import opened Handlers
  import opened Protocol
  import opened Solvency
  import opened Disconnect

  // ---------- one user, one node with one ready slot, one profile at cost one ----------

  const PROFILE := Profile(
    "p", 1, "", "", "", "", "", "", [], Some(Requirements("", "", 0, 0, 0, 0, [])), None, [], [], 1)

  const NODE := ZERO_NODE.(id := "n", state := Online, approved := true)

  const REPORTED := ZERO_SLOT.(
    id := "s", state := Ready, profileId := "p", profileVersion := 1, logicalModel := "p", runtimeVariantId := "p")

  const EMPTY_DB := Database(
    map[], map[], map[], map[], map[], map[], map[], map[], map[], map[], [], map[], map[])

  const START := Sys(EMPTY_DB, map[], map[], 0)

  predicate HasUser(db: Database) {
    db.users.Keys == {"u"} && db.users["u"].id == "u"
  }

  /** The slot as registered: ready for the profile, current, and open for work. */
  predicate HasSlot(db: Database) {
    && "n" in db.nodes && db.nodes["n"] == NODE
    && "s" in db.slots && db.slots["s"] == REPORTED.(nodeId := "n", acceptsNew := true)
  }

  lemma Begin()
    ensures Linked(START) && Slack(START.db, "u") == 0
  {
  }

  // ---------- orderly steps ----------

  lemma Take(cfg: Config, sys: Sys, step: Step) returns (sys': Sys)
    requires Linked(sys) && Enabled(sys, step, cfg) && !Posthumous(sys, step) && !AdminDebit(step)
    ensures sys' == Apply(sys, step, cfg) && Linked(sys') && Reachable(cfg, Orderly(), sys, sys')
  {
    sys' := Apply(sys, step, cfg);
    StepLinked(sys, step, cfg);
    OneStepReaches(cfg, Orderly(), sys, step);
  }

  lemma TakeClient(cfg: Config, sys: Sys, e: ClientEvent) returns (sys': Sys)
    requires Linked(sys) && sys.clock == 0 && ClientEnabled(sys, e, cfg) && Protocol.Selects(sys, e) && !e.DispatchFail?
    ensures Linked(sys') && Reachable(cfg, Orderly(), sys, sys')
    ensures sys' == Sys(ClientDb(sys, e, 0, cfg), ClientRequests(sys, e, 0, cfg), ClientWorkers(sys, e, cfg), 0)
  {
    var step := Step(0, Client(e));
    assert !Posthumous(sys, step) && !AdminDebit(step);
    sys' := Take(cfg, sys, step);
  }

  lemma TakeAdmin(cfg: Config, sys: Sys, e: AdminEvent) returns (sys': Sys)
    requires Linked(sys) && sys.clock == 0 && AdminEnabled(sys, e) && (e.Adjust? ==> e.amount >= 0)
    ensures Linked(sys') && Reachable(cfg, Orderly(), sys, sys')
    ensures sys' == Sys(AdminDb(sys.db, e, 0), sys.requests, sys.workers, 0)
  {
    var step := Step(0, Admin(e));
    assert !Posthumous(sys, step) && !AdminDebit(step);
    sys' := Take(cfg, sys, step);
  }

  lemma TakeEnrol(cfg: Config, sys: Sys, node: Node, slots: seq<Slot>) returns (sys': Sys)
    requires Linked(sys) && sys.clock == 0 && node.id != ""
    ensures Linked(sys') && Reachable(cfg, Orderly(), sys, sys')
    ensures sys' == Sys(Register(sys.db, node, "", slots, 0), sys.requests, sys.workers, 0)
  {
    var step := Step(0, OfWorker(Enrol(node, "", slots)));
    assert !Posthumous(sys, step) && !AdminDebit(step);
    sys' := Take(cfg, sys, step);
  }

  // ---------- a user with a balance of one, and a ready slot ----------

  predicate NoWork(sys: Sys) {
    sys.db.tasks == map[] && sys.db.attempts == map[] && sys.requests == map[] && sys.workers == map[] && sys.clock == 0
  }

  lemma AddsUser(cfg: Config, sys: Sys) returns (sys': Sys)
    requires Linked(sys) && NoWork(sys) && sys.db.users == map[] && sys.db.slots == map[]
    ensures Linked(sys') && Reachable(cfg, Orderly(), sys, sys')
    ensures NoWork(sys') && HasUser(sys'.db) && sys'.db.slots == map[] && Slack(sys'.db, "u") == Slack(sys.db, "u")
  {
    AddUserSlack(sys.db, "u", "", 0, "u");
    sys' := TakeAdmin(cfg, sys, AddUser("u", ""));
  }

  lemma GrantsOne(cfg: Config, sys: Sys) returns (sys': Sys)
    requires Linked(sys) && NoWork(sys) && HasUser(sys.db) && sys.db.slots == map[]
    ensures Linked(sys') && Reachable(cfg, Orderly(), sys, sys')
    ensures NoWork(sys') && HasUser(sys'.db) && sys'.db.slots == map[] && Slack(sys'.db, "u") == Slack(sys.db, "u") + 1
  {
    AdjustSlack(sys.db, "u", 1, "", 0, "u");
    sys' := TakeAdmin(cfg, sys, Adjust("u", 1, ""));
  }

  lemma RegisteredSlot()
    ensures RegisterSlots(map[], NODE, "", [REPORTED], 0) == map["s" := REPORTED.(nodeId := "n", acceptsNew := true)]
  {
    var register := RegisterSlot(NODE, "", 0);
    FoldCons(register, map[], REPORTED, []);
    assert [REPORTED] + [] == [REPORTED];
  }

  lemma Enrols(cfg: Config, sys: Sys) returns (sys': Sys)
    requires Linked(sys) && NoWork(sys) && HasUser(sys.db) && sys.db.slots == map[]
    ensures Linked(sys') && Reachable(cfg, Orderly(), sys, sys')
    ensures NoWork(sys') && HasUser(sys'.db) && HasSlot(sys'.db) && Slack(sys'.db, "u") == Slack(sys.db, "u")
  {
    RegisteredSlot();
    sys' := TakeEnrol(cfg, sys, NODE, [REPORTED]);
    SameSlack(sys.db, sys'.db, "u");
  }

  lemma Prepares(cfg: Config) returns (sys: Sys)
    ensures Linked(sys) && Reachable(cfg, Orderly(), START, sys)
    ensures NoWork(sys) && HasUser(sys.db) && HasSlot(sys.db) && Slack(sys.db, "u") == 1
  {
    Begin();
    var s1 := AddsUser(cfg, START);
    var s2 := GrantsOne(cfg, s1);
    sys := Enrols(cfg, s2);
    ReachableTrans(cfg, Orderly(), START, s1, s2);
    ReachableTrans(cfg, Orderly(), START, s2, sys);
  }

  // ---------- a task, its attempt, and a second task ----------

  /** The user's task is admitted with exactly its cost left. */
  lemma Creates(cfg: Config, sys: Sys, id: Id, p: Profile) returns (sys': Sys)
    requires Linked(sys) && sys.clock == 0 && id != "" && id !in sys.db.tasks && id !in sys.requests
    requires p.id != "" && p.computeCost == 1 && Slack(sys.db, "u") == 1
    ensures Linked(sys') && Reachable(cfg, Orderly(), sys, sys') && sys'.clock == 0 && sys'.workers == sys.workers
    ensures var task := Handlers.NewTask(id, "u", p, false, 0);
            && sys'.db == sys.db.(tasks := sys.db.tasks[id := task])
            && sys'.requests == sys.requests[id := Request(task, p, Selecting, [])]
    ensures Slack(sys'.db, "u") == 0
  {
    sys' := TakeClient(cfg, sys, Create(id, "u", p, false));
    TaskAdded(sys.db, sys'.db, Handlers.NewTask(id, "u", p, false, 0), "u");
  }

  /** Profile `p` runs on the slot as effective profile `e`. */
  ghost predicate Offers(p: Profile, e: Profile, slot: Slot) {
    && (exists v :: v in ProfileRuntimeVariants(p) && e == EffectiveProfileForVariant(p, v))
    && FitProfileToSlot(e, NODE, slot).fits && SlotProfileCurrent(slot, p.id, e) && e.runtimeVariantId == "p"
  }

  /** What the profile's one variant looks like. */
  predicate IsEffective(e: Profile) {
    && e.requirements == PROFILE.requirements && e.kind == "" && e.adapter == "" && e.artifacts == []
    && e.version == 1 && e.logicalModel == "p" && e.runtimeVariantId == "p"
  }

  lemma EffectiveVariant() returns (e: Profile)
    ensures IsEffective(e)
    ensures exists v :: v in ProfileRuntimeVariants(PROFILE) && e == EffectiveProfileForVariant(PROFILE, v)
  {
    var v := ProfileRuntimeVariants(PROFILE)[0];
    e := EffectiveProfileForVariant(PROFILE, v);
    assert v in ProfileRuntimeVariants(PROFILE);
  }

  lemma EffectiveFits(e: Profile, slot: Slot)
    requires IsEffective(e) && slot == REPORTED.(nodeId := "n", acceptsNew := true)
    ensures FitProfileToSlot(e, NODE, slot).fits
  {
    assert FitReasons(e, NODE, slot) == [];
  }

  lemma EffectiveCurrent(e: Profile, slot: Slot)
    requires IsEffective(e) && slot == REPORTED.(nodeId := "n", acceptsNew := true)
    ensures SlotProfileCurrent(slot, "p", e)
  {
  }

  lemma SlotOffers(slot: Slot) returns (e: Profile)
    requires slot == REPORTED.(nodeId := "n", acceptsNew := true)
    ensures Offers(PROFILE, e, slot)
  {
    e := EffectiveVariant();
    EffectiveFits(e, slot);
    EffectiveCurrent(e, slot);
  }

  predicate Fresh(sys: Sys, p: Profile) {
    && sys.clock == 0 && HasSlot(sys.db) && sys.db.attempts == map[] && sys.workers == map[]
    && sys.db.tasks.Keys == {"t"} && sys.db.tasks["t"] == Handlers.NewTask("t", "u", p, false, 0)
    && sys.requests.Keys == {"t"} && sys.requests["t"].profile == p
  }

  lemma Selects(cfg: Config, sys: Sys, p: Profile, e: Profile) returns (sys': Sys)
    requires Linked(sys) && p.id == "p" && Fresh(sys, p) && sys.requests["t"].phase == Selecting
    requires Offers(p, e, sys.db.slots["s"])
    ensures Linked(sys') && Reachable(cfg, Orderly(), sys, sys') && sys'.db == sys.db && Fresh(sys', p)
    ensures sys'.requests["t"].phase == Picked(sys.db.slots["s"], e)
  {
    SelectFacts(cfg, sys, p, e);
    sys' := TakeClient(cfg, sys, Select("t", "s", e));
  }

  lemma SelectFacts(cfg: Config, sys: Sys, p: Profile, e: Profile)
    requires p.id == "p" && Fresh(sys, p) && sys.requests["t"].phase == Selecting
    requires Offers(p, e, sys.db.slots["s"])
    ensures var select := Select("t", "s", e);
            ClientEnabled(sys, select, cfg) && Protocol.Selects(sys, select)
    ensures var select := Select("t", "s", e);
            var sys' := Sys(ClientDb(sys, select, 0, cfg), ClientRequests(sys, select, 0, cfg),
                            ClientWorkers(sys, select, cfg), 0);
            && sys'.db == sys.db && Fresh(sys', p)
            && sys'.requests["t"].phase == Picked(sys.db.slots["s"], e)
  {
    assert FailedSlots(sys.db, "t") == {};
  }

  predicate AttemptOn(db: Database, status: TaskStatus) {
    && "a" in db.attempts && db.attempts["a"].taskId == "t" && db.attempts["a"].status == Running
    && !db.attempts["a"].firstOutputSent && db.tasks.Keys == {"t"} && db.tasks["t"].status == status
    && db.tasks["t"].userId == "u" && db.tasks["t"].computeCost == 1
  }

  lemma Reserves(cfg: Config, sys: Sys, p: Profile, e: Profile) returns (sys': Sys)
    requires Linked(sys) && p.id == "p" && p.computeCost == 1 && e.runtimeVariantId == "p" && Fresh(sys, p)
    requires sys.requests["t"].phase == Picked(sys.db.slots["s"], e)
    ensures Linked(sys') && Reachable(cfg, Orderly(), sys, sys') && sys'.clock == 0 && sys'.requests.Keys == {"t"}
    ensures AttemptOn(sys'.db, Running) && Slack(sys'.db, "u") == Slack(sys.db, "u")
  {
    var r := sys.requests["t"];
    var attempt := NewAttempt("a", r.task, r.profile, e, r.phase.slot, 0);
    assert Faithful(sys.db.tasks, sys.db.attempts, "t", r);
    ReserveSlack(sys.db, "t", r, e, "s", attempt, 0, "u");
    ReserveFacts(cfg, sys, p, e);
    sys' := TakeClient(cfg, sys, TryReserve("t", "a"));
  }

  lemma ReserveFacts(cfg: Config, sys: Sys, p: Profile, e: Profile)
    requires p.id == "p" && p.computeCost == 1 && e.runtimeVariantId == "p" && Fresh(sys, p)
    requires sys.requests["t"].phase == Picked(sys.db.slots["s"], e) && sys.requests["t"].task.id == "t"
    ensures var reserve, r := TryReserve("t", "a"), sys.requests["t"];
            && ClientEnabled(sys, reserve, cfg) && Protocol.Selects(sys, reserve)
            && ClientRequests(sys, reserve, 0, cfg).Keys == {"t"} && AttemptOn(ClientDb(sys, reserve, 0, cfg), Running)
            && ClientDb(sys, reserve, 0, cfg)
               == Reserve(sys.db, "t", p, e, "s", NewAttempt("a", r.task, p, e, r.phase.slot, 0), 0)
  {
    var r := sys.requests["t"];
    ReservedAttempt(sys.db, p, e, NewAttempt("a", r.task, p, e, r.phase.slot, 0));
  }

  lemma ReservedAttempt(db: Database, p: Profile, e: Profile, attempt: Attempt)
    requires db.tasks.Keys == {"t"} && db.tasks["t"] == Handlers.NewTask("t", "u", p, false, 0) && p.computeCost == 1
    requires attempt.id == "a" && attempt.taskId == "t" && attempt.status == Running && !attempt.firstOutputSent
    ensures AttemptOn(Reserve(db, "t", p, e, "s", attempt, 0), Running)
  {
  }

  lemma Cancels(cfg: Config, sys: Sys) returns (sys': Sys)
    requires Linked(sys) && sys.clock == 0 && AttemptOn(sys.db, Running)
    ensures Linked(sys') && Reachable(cfg, Orderly(), sys, sys') && sys'.clock == 0 && sys'.requests == sys.requests
    ensures AttemptOn(sys'.db, Cancelled) && Slack(sys'.db, "u") == Slack(sys.db, "u") + 1
  {
    CancelFacts(sys.db);
    sys' := TakeClient(cfg, sys, Cancel("t"));
  }

  lemma CancelFacts(db: Database)
    requires AttemptOn(db, Running) && db.tasks["t"].id == "t"
    ensures var after := RequestCancel(db, "t", FAILURE_CANCELLED_BY_CLIENT, 0);
            AttemptOn(after, Cancelled) && Slack(after, "u") == Slack(db, "u") + 1
  {
    var task := Finished(db.tasks["t"], Cancelled, FAILURE_CANCELLED_BY_CLIENT, 0);
    TaskWritten(db, RequestCancel(db, "t", FAILURE_CANCELLED_BY_CLIENT, 0), task, "u");
  }

  lemma CreatedFresh(sys: Sys, sys': Sys, p: Profile)
    requires NoWork(sys) && HasSlot(sys.db) && sys'.clock == 0 && sys'.workers == sys.workers
    requires sys'.db == sys.db.(tasks := sys.db.tasks["t" := Handlers.NewTask("t", "u", p, false, 0)])
    requires sys'.requests
          == sys.requests["t" := Request(Handlers.NewTask("t", "u", p, false, 0), p, Selecting, [])]
    ensures Fresh(sys', p)
  {
  }

  lemma Attempts(cfg: Config, sys: Sys, p: Profile, e: Profile) returns (sys': Sys)
    requires Linked(sys) && NoWork(sys) && HasSlot(sys.db) && Slack(sys.db, "u") == 1
    requires p.id == "p" && p.computeCost == 1 && Offers(p, e, sys.db.slots["s"])
    ensures Linked(sys') && Reachable(cfg, Orderly(), sys, sys') && sys'.clock == 0 && sys'.requests.Keys == {"t"}
    ensures AttemptOn(sys'.db, Running) && Slack(sys'.db, "u") == 0
  {
    var s1 := Creates(cfg, sys, "t", p);
    CreatedFresh(sys, s1, p);
    var s2 := Selects(cfg, s1, p, e);
    sys' := Reserves(cfg, s2, p, e);
    ReachableTrans(cfg, Orderly(), sys, s1, s2);
    ReachableTrans(cfg, Orderly(), sys, s2, sys');
  }

  /** The last state before the overdraft: the cancelled task's attempt still runs, and a
      second task has taken what the cancellation freed. */
  lemma Spends(cfg: Config, sys: Sys, p: Profile) returns (sys': Sys)
    requires Linked(sys) && sys.clock == 0 && sys.requests.Keys == {"t"} && p.id == "p" && p.computeCost == 1
    requires AttemptOn(sys.db, Running) && Slack(sys.db, "u") == 0
    ensures Linked(sys') && Reachable(cfg, Orderly(), sys, sys') && sys'.clock == 0
    ensures "a" in sys'.db.attempts && sys'.db.attempts["a"].status == Running && !sys'.db.attempts["a"].firstOutputSent
    ensures !LiveTask(sys'.db, "a") && CostOf(sys'.db, "a", "u") == 1 && Slack(sys'.db, "u") == 0
  {
    var s1 := Cancels(cfg, sys);
    sys' := Creates(cfg, s1, "t2", p);
    StillCancelled(s1.db, sys'.db, Handlers.NewTask("t2", "u", p, false, 0));
    ReachableTrans(cfg, Orderly(), sys, s1, sys');
  }

  lemma StillCancelled(db: Database, db': Database, task: Task)
    requires AttemptOn(db, Cancelled) && db' == db.(tasks := db.tasks["t2" := task])
    ensures "a" in db'.attempts && db'.attempts["a"].status == Running && !db'.attempts["a"].firstOutputSent
    ensures !LiveTask(db', "a") && CostOf(db', "a", "u") == 1
  {
  }

  // ---------- the overdraft ----------

  lemma StartSolvent()
    ensures Solvent(START.db)
  {
    forall u ensures Slack(START.db, u) >= 0 {
    }
  }

  lemma LastStep(cfg: Config, before: Sys) returns (step: Step)
    requires Linked(before) && before.clock == 0
    requires "a" in before.db.attempts && before.db.attempts["a"].status == Running
    requires !before.db.attempts["a"].firstOutputSent && !LiveTask(before.db, "a")
    requires CostOf(before.db, "a", "u") == 1 && Slack(before.db, "u") == 0
    ensures Enabled(before, step, cfg) && Posthumous(before, step) && !AdminDebit(step)
    ensures Slack(Apply(before, step, cfg).db, "u") == -1
  {
    step := Step(0, OfWorker(Drop("a")));
    assert SettlesDeadTask(before.db, "a");
    DropSlack(before.db, "a", 0, cfg, "u");
  }

  /** From an empty manager, with enforcement on, no admin debits and no outcome of a finished
      task, a run reaches a solvent state in which a disconnect fails the running attempt of a
      cancelled task: one step later the user's tasks cost more than the balance holds. */
  lemma DisconnectOverdraws(cfg: Config) returns (before: Sys, step: Step)
    requires cfg.enforceBalance
    ensures Reachable(cfg, Orderly(), START, before) && Solvent(before.db)
    ensures Enabled(before, step, cfg) && Posthumous(before, step) && !AdminDebit(step)
    ensures Slack(Apply(before, step, cfg).db, "u") == -1
  {
    var ready := Prepares(cfg);
    var e := SlotOffers(ready.db.slots["s"]);
    var running := Attempts(cfg, ready, PROFILE, e);
    before := Spends(cfg, running, PROFILE);
    ReachableTrans(cfg, Orderly(), START, ready, running);
    ReachableTrans(cfg, Orderly(), START, running, before);
    Begin();
    StartSolvent();
    NoOverdraft(cfg, START, before);
    step := LastStep(cfg, before);
  }
}
