/** The atomic disconnect is a run of protocol steps under the hypotheses of every run theorem:
    the same database, and every listening request has heard exactly the published failures. */
module Disconnect {
  import opened Base
  import opened Traces
  import opened Model
  import opened Accounting
  import opened Handlers
  import opened Protocol
  import opened Solvency
  import opened Quarantine
  import opened Requests
  import opened Retries
  import opened ManagerStore
  import Flap

  // ---------- publishing the failures ----------

  /** A published failure ends the attempt for the request that waits for it. */
  function Announce(): (map<Id, Request>, Failure) -> map<Id, Request> {
    (requests: map<Id, Request>, f: Failure) =>
      if f.taskId in requests && requests[f.taskId].phase.Waiting? && requests[f.taskId].phase.attemptId == f.attemptId
      then requests[f.taskId := Ended(requests[f.taskId], Requeues(f))] else requests
  }

  // ---------- dropping attempts one by one ----------

  function DropStep(id: Id, now: Time): Step {
    Step(now, OfWorker(Drop(id)))
  }

  function DownStep(nodeId: Id, flapEvent: string, now: Time): Step {
    Step(now, OfWorker(GoDown(nodeId, flapEvent)))
  }

  /** The hypothesis `also` admits each drop in the state it is taken in. */
  ghost predicate Admits(cfg: Config, also: (Sys, Step) -> bool, sys: Sys, order: seq<Id>, now: Time)
    decreases |order|
  {
    order == [] ||
    (also(sys, DropStep(order[0], now)) && Admits(cfg, also, Next(cfg)(sys, DropStep(order[0], now)), order[1..], now))
  }

  /** The attempts are stored under their IDs and running, and none is listed twice. */
  ghost predicate Droppable(db: Database, order: seq<Id>) {
    && (forall id :: id in order ==> id in db.attempts && db.attempts[id].id == id && db.attempts[id].status == Running)
    && (forall i, j :: 0 <= i < j < |order| ==> order[i] != order[j])
  }

  lemma OneStepReaches(cfg: Config, also: (Sys, Step) -> bool, sys: Sys, step: Step)
    requires Enabled(sys, step, cfg) && also(sys, step)
    ensures Reachable(cfg, also, sys, Apply(sys, step, cfg))
  {
    ReachesSelf(Guard(cfg, also), Next(cfg), Apply(sys, step, cfg));
    ReachesStep(Guard(cfg, also), Next(cfg), sys, step, Apply(sys, step, cfg));
  }

  lemma ReachableSelf(cfg: Config, also: (Sys, Step) -> bool, sys: Sys)
    ensures Reachable(cfg, also, sys, sys)
  {
    ReachesSelf(Guard(cfg, also), Next(cfg), sys);
  }

  lemma ReachableTrans(cfg: Config, also: (Sys, Step) -> bool, sys: Sys, mid: Sys, sys': Sys)
    requires Reachable(cfg, also, sys, mid) && Reachable(cfg, also, mid, sys')
    ensures Reachable(cfg, also, sys, sys')
  {
    ReachesTrans(Guard(cfg, also), Next(cfg), sys, mid, sys');
  }

  lemma RestDroppable(db: Database, db': Database, order: seq<Id>, a: Attempt)
    requires order != [] && Droppable(db, order) && db'.attempts == db.attempts[order[0] := a]
    ensures Droppable(db', order[1..]) && Failures(db', order[1..]) == Failures(db, order[1..])
  {
    var rest := order[1..];
    forall id | id in rest ensures id in order && id != order[0] {
      var k :| 0 <= k < |rest| && rest[k] == id;
      assert order[k + 1] == id && order[0] != order[k + 1];
    }
    forall i, j | 0 <= i < j < |rest| ensures rest[i] != rest[j] {
      assert rest[i] == order[i + 1] && rest[j] == order[j + 1];
    }
    forall i | 0 <= i < |rest| ensures AttemptAt(db', rest[i]) == AttemptAt(db, rest[i]) {
      assert rest[i] in rest;
    }
  }

  lemma DropAnnounces(sys: Sys, a: Id)
    requires a in sys.db.attempts && sys.db.attempts[a].id == a
    ensures WorkerRequests(sys, Drop(a)) == Announce()(sys.requests, DisconnectFailure(AttemptAt(sys.db, a)))
  {
  }

  lemma DropApplies(cfg: Config, sys: Sys, a: Id, now: Time)
    requires a in sys.db.attempts && sys.db.attempts[a].status == Running && sys.clock <= now
    ensures Enabled(sys, DropStep(a, now), cfg)
    ensures Apply(sys, DropStep(a, now), cfg)
         == Sys(Dropped(sys.db, a, now, cfg), WorkerRequests(sys, Drop(a)), sys.workers, now)
  {
  }

  /** What one drop leaves: the attempt failed, the rest of the list still droppable and
      announcing the same failures, and the waiting request told. */
  lemma DropEffect(cfg: Config, sys: Sys, order: seq<Id>, now: Time)
    requires order != [] && Droppable(sys.db, order) && sys.clock <= now
    ensures Enabled(sys, DropStep(order[0], now), cfg)
    ensures var mid := Apply(sys, DropStep(order[0], now), cfg);
            && mid.db == Dropped(sys.db, order[0], now, cfg) && mid.workers == sys.workers && mid.clock == now
            && mid.requests == Announce()(sys.requests, DisconnectFailure(AttemptAt(sys.db, order[0])))
            && Droppable(mid.db, order[1..]) && Failures(mid.db, order[1..]) == Failures(sys.db, order[1..])
  {
    var a := order[0];
    assert a in order;
    DropApplies(cfg, sys, a, now);
    DropAnnounces(sys, a);
    DroppedAttempts(sys.db, a, now, cfg);
    RestDroppable(sys.db, Dropped(sys.db, a, now, cfg), order, Dropped(sys.db, a, now, cfg).attempts[a]);
  }

  lemma FailuresCons(db: Database, order: seq<Id>)
    requires order != []
    ensures Failures(db, order) == [DisconnectFailure(AttemptAt(db, order[0]))] + Failures(db, order[1..])
  {
  }

  lemma FoldCons<S, X>(f: (S, X) -> S, s: S, x: X, xs: seq<X>)
    ensures Fold(f, s, [x] + xs) == Fold(f, f(s, x), xs)
  {
    assert ([x] + xs)[1..] == xs;
  }

  lemma {:induction false} DropsReach(cfg: Config, also: (Sys, Step) -> bool, sys: Sys, order: seq<Id>, now: Time)
    returns (sys': Sys)
    requires sys.clock <= now && Droppable(sys.db, order) && Admits(cfg, also, sys, order, now)
    ensures Reachable(cfg, also, sys, sys') && sys'.workers == sys.workers
    ensures sys'.db == Fold(DropBody(now, cfg), sys.db, order)
    ensures sys'.requests == Fold(Announce(), sys.requests, Failures(sys.db, order))
    decreases |order|
  {
    if order == [] {
      sys' := sys;
      ReachableSelf(cfg, also, sys);
    } else {
      var step := DropStep(order[0], now);
      DropEffect(cfg, sys, order, now);
      var mid := Apply(sys, step, cfg);
      OneStepReaches(cfg, also, sys, step);
      FailuresCons(sys.db, order);
      FoldCons(Announce(), sys.requests, DisconnectFailure(AttemptAt(sys.db, order[0])), Failures(sys.db, order[1..]));
      sys' := DropsReach(cfg, also, mid, order[1..], now);
      ReachableTrans(cfg, also, sys, mid, sys');
    }
  }

  // ---------- the atomic disconnect ----------

  /** The state once the node is down, or the same state when a newer session keeps it up. */
  function AfterDown(cfg: Config, sys: Sys, nodeId: Id, session: Id, flapEvent: string, now: Time): Sys {
    if TakesDown(sys.db, nodeId, session)
    then Sys(Disconnected(sys.db, nodeId, session, flapEvent, now, cfg), sys.requests, sys.workers, now) else sys
  }

  ghost predicate AttemptsKeyed(db: Database) {
    forall k :: k in db.attempts ==> db.attempts[k].id == k
  }

  lemma EnumeratedDroppable(db: Database, nodeId: Id, order: seq<Id>)
    requires AttemptsKeyed(db) && Enumerates(order, db, nodeId)
    ensures Droppable(db, order)
  {
  }

  /** One atomic disconnect, with or without taking the node down, is a run under any hypothesis
      that admits its steps. It ends in the database the handler leaves, and each request has
      heard exactly the failures the handler publishes. */
  lemma DisconnectIsRun(cfg: Config, also: (Sys, Step) -> bool, sys: Sys, nodeId: Id, session: Id, flapEvent: string,
                        order: seq<Id>, now: Time)
    returns (sys': Sys)
    requires sys.clock <= now && AttemptsKeyed(sys.db)
    requires Enumerates(order, Disconnected(sys.db, nodeId, session, flapEvent, now, cfg), nodeId)
    requires TakesDown(sys.db, nodeId, session) ==> also(sys, DownStep(nodeId, flapEvent, now))
    requires Admits(cfg, also, AfterDown(cfg, sys, nodeId, session, flapEvent, now), order, now)
    ensures Reachable(cfg, also, sys, sys') && sys'.workers == sys.workers
    ensures var start := Disconnected(sys.db, nodeId, session, flapEvent, now, cfg);
            && sys'.db == Fold(DropBody(now, cfg), start, order)
            && sys'.requests == Fold(Announce(), sys.requests, Failures(start, order))
  {
    var mid := AfterDown(cfg, sys, nodeId, session, flapEvent, now);
    EnumeratedDroppable(mid.db, nodeId, order);
    sys' := DropsReach(cfg, also, mid, order, now);
    if TakesDown(sys.db, nodeId, session) {
      OneStepReaches(cfg, also, sys, DownStep(nodeId, flapEvent, now));
      ReachableTrans(cfg, also, sys, mid, sys');
    }
  }

  // ---------- under the hypotheses of the run theorems ----------

  lemma {:induction false} AlwaysAdmits(cfg: Config, also: (Sys, Step) -> bool, sys: Sys, order: seq<Id>, now: Time)
    requires forall z, a :: also(z, DropStep(a, now))
    ensures Admits(cfg, also, sys, order, now)
    decreases |order|
  {
    if order != [] {
      AlwaysAdmits(cfg, also, Next(cfg)(sys, DropStep(order[0], now)), order[1..], now);
    }
  }

  /** With honest workers a disconnect needs no further hypothesis: one source of output and
      distinct slots are kept by it. */
  lemma DisconnectKeepsRequests(cfg: Config, ids: set<Id>, sys: Sys, nodeId: Id, session: Id, flapEvent: string,
                                order: seq<Id>, now: Time)
    returns (sys': Sys)
    requires sys.clock <= now && RetryInv(sys, cfg, ids)
    requires Enumerates(order, Disconnected(sys.db, nodeId, session, flapEvent, now, cfg), nodeId)
    ensures Reachable(cfg, Honest(ids), sys, sys') && RetryInv(sys', cfg, ids)
    ensures var start := Disconnected(sys.db, nodeId, session, flapEvent, now, cfg);
            && sys'.db == Fold(DropBody(now, cfg), start, order)
            && sys'.requests == Fold(Announce(), sys.requests, Failures(start, order))
  {
    AlwaysAdmits(cfg, Honest(ids), AfterDown(cfg, sys, nodeId, session, flapEvent, now), order, now);
    sys' := DisconnectIsRun(cfg, Honest(ids), sys, nodeId, session, flapEvent, order, now);
    AttemptsOnDistinctSlots(cfg, ids, sys, sys');
  }

  /** A disconnect before `until` leaves a quarantine until then in force. */
  lemma DisconnectKeepsQuarantine(cfg: Config, sys: Sys, nodeId: Id, session: Id, flapEvent: string,
                                  order: seq<Id>, now: Time, s: Id, until: Time)
    returns (sys': Sys)
    requires sys.clock <= now < until && AttemptsKeyed(sys.db) && SlotsSound(sys.db.slots, sys.clock, cfg)
    requires s != "" && HeldAt(sys.db.slots, s, until)
    requires Enumerates(order, Disconnected(sys.db, nodeId, session, flapEvent, now, cfg), nodeId)
    ensures Reachable(cfg, Undisturbed(s, until), sys, sys') && HeldAt(sys'.db.slots, s, until)
    ensures sys'.db == Fold(DropBody(now, cfg), Disconnected(sys.db, nodeId, session, flapEvent, now, cfg), order)
  {
    AlwaysAdmits(cfg, Undisturbed(s, until), AfterDown(cfg, sys, nodeId, session, flapEvent, now), order, now);
    sys' := DisconnectIsRun(cfg, Undisturbed(s, until), sys, nodeId, session, flapEvent, order, now);
    QuarantineHolds(cfg, sys, sys', s, until);
  }

  /** The dropped attempts' tasks are live, and only a task without recorded output has two of them. */
  ghost predicate DropsLive(db: Database, order: seq<Id>) {
    && (forall id :: id in order ==> LiveTask(db, id))
    && (forall i, j :: 0 <= i < j < |order| && TaskOf(db, order[i]) == TaskOf(db, order[j]) ==> !OutputOn(db, order[i]))
  }

  lemma StepsOrderly(sys: Sys, a: Id, nodeId: Id, flapEvent: string, now: Time)
    ensures LiveTask(sys.db, a) ==> Orderly()(sys, DropStep(a, now))
    ensures Orderly()(sys, DownStep(nodeId, flapEvent, now))
  {
    var drop, down := DropStep(a, now), DownStep(nodeId, flapEvent, now);
    assert drop.event == OfWorker(Drop(a)) && down.event == OfWorker(GoDown(nodeId, flapEvent));
    assert !AdminDebit(drop) && !AdminDebit(down);
    assert LiveTask(sys.db, a) ==> !Posthumous(sys, drop);
    assert !Posthumous(sys, down);
  }

  lemma DropKeepsOthersLive(db: Database, a: Id, b: Id, now: Time, cfg: Config)
    requires DbLinked(db) && a in db.attempts && b in db.attempts && a != b && LiveTask(db, b)
    requires TaskOf(db, a) == TaskOf(db, b) ==> !OutputOn(db, a)
    ensures LiveTask(Dropped(db, a, now, cfg), b) && TaskOf(Dropped(db, a, now, cfg), b) == TaskOf(db, b)
    ensures OutputOn(Dropped(db, a, now, cfg), b) == OutputOn(db, b)
  {
    DroppedAttempts(db, a, now, cfg);
  }

  lemma {:induction false} OrderlyAdmits(cfg: Config, sys: Sys, order: seq<Id>, now: Time)
    requires Linked(sys) && sys.clock <= now && Droppable(sys.db, order) && DropsLive(sys.db, order)
    ensures Admits(cfg, Orderly(), sys, order, now)
    decreases |order|
  {
    if order != [] {
      var a, rest := order[0], order[1..];
      assert a in order;
      DropEffect(cfg, sys, order, now);
      StepsOrderly(sys, a, "", "", now);
      var mid := Apply(sys, DropStep(a, now), cfg);
      StepLinked(sys, DropStep(a, now), cfg);
      forall i | 0 <= i < |rest|
        ensures LiveTask(mid.db, rest[i]) && TaskOf(mid.db, rest[i]) == TaskOf(sys.db, rest[i])
        ensures OutputOn(mid.db, rest[i]) == OutputOn(sys.db, rest[i])
      {
        assert rest[i] == order[i + 1] && order[i + 1] in order && order[0] != order[i + 1];
        DropKeepsOthersLive(sys.db, a, rest[i], now, cfg);
      }
      assert DropsLive(mid.db, rest) by {
        forall i, j | 0 <= i < j < |rest| && TaskOf(mid.db, rest[i]) == TaskOf(mid.db, rest[j])
          ensures !OutputOn(mid.db, rest[i])
        {
          assert rest[i] == order[i + 1] && rest[j] == order[j + 1];
        }
      }
      OrderlyAdmits(cfg, mid, rest, now);
    }
  }

  lemma DownLinked(cfg: Config, sys: Sys, nodeId: Id, session: Id, flapEvent: string, now: Time)
    requires Linked(sys)
    ensures Linked(AfterDown(cfg, sys, nodeId, session, flapEvent, now))
  {
  }

  /** A disconnect whose running attempts belong to live tasks keeps every balance covered. */
  lemma DisconnectKeepsSolvent(cfg: Config, sys: Sys, nodeId: Id, session: Id, flapEvent: string,
                               order: seq<Id>, now: Time)
    returns (sys': Sys)
    requires sys.clock <= now && cfg.enforceBalance && Linked(sys) && Solvent(sys.db)
    requires Enumerates(order, Disconnected(sys.db, nodeId, session, flapEvent, now, cfg), nodeId)
    requires DropsLive(sys.db, order)
    ensures Reachable(cfg, Orderly(), sys, sys') && Linked(sys') && Solvent(sys'.db)
    ensures sys'.db == Fold(DropBody(now, cfg), Disconnected(sys.db, nodeId, session, flapEvent, now, cfg), order)
  {
    var mid := AfterDown(cfg, sys, nodeId, session, flapEvent, now);
    DownLinked(cfg, sys, nodeId, session, flapEvent, now);
    EnumeratedDroppable(mid.db, nodeId, order);
    OrderlyAdmits(cfg, mid, order, now);
    StepsOrderly(sys, "", nodeId, flapEvent, now);
    sys' := DisconnectIsRun(cfg, Orderly(), sys, nodeId, session, flapEvent, order, now);
    NoOverdraft(cfg, sys, sys');
  }
}
