/** The planner's steps are bookkeeping moves under the terms of a planning run, and
    marking drains and the final sort change none of the measures. */
module PlanTerms {
  import opened Base
  import opened Traces
  import opened Model
  import opened Fit
  import opened Demand
  import opened Placement
  import opened Candidates
  import PlanTrace
  import opened Booking

  // ---------- sizes looked up again from an assignment's IDs ----------

  function MemoryOf(db: Database): Assignment -> int {
    (a: Assignment) =>
      if a.profileId in db.profiles then MemoryBytes(EffectiveProfileForAssignment(db.profiles[a.profileId], a)) else 0
  }

  function DiskOf(db: Database): Assignment -> int {
    (a: Assignment) =>
      if a.profileId in db.profiles
      then DiskBytes(db, EffectiveProfileForAssignment(db.profiles[a.profileId], a))
      else 0
  }

  function MemoryBudgetOf(db: Database): Id -> int {
    (n: Id) => if n in db.nodes then MemoryBudget(db.nodes[n]) else 0
  }

  function DiskBudgetOf(db: Database): Id -> int {
    (n: Id) => if n in db.nodes then db.nodes[n].budgets.disk else 0
  }

  // ---------- hypotheses ----------

  ghost predicate Stored(db: Database, items: seq<Item>) {
    forall it :: it in items ==>
          it.profile.id != "" && it.profile.id in db.profiles && db.profiles[it.profile.id] == it.profile
  }

  ghost predicate UniqueIds(items: seq<Item>) {
    forall it :: it in items ==> UniqueVariantIds(it.profile)
  }

  ghost predicate OnePolicyPerProfile(items: seq<Item>) {
    forall x, y :: x in items && y in items && x.profile.id == y.profile.id ==> x == y
  }

  ghost predicate NonNegativeSizes(db: Database, items: seq<Item>) {
    forall it, v :: it in items && v in ProfileRuntimeVariants(it.profile) ==>
      var effective := EffectiveProfileForVariant(it.profile, v);
      MemoryBytes(effective) >= 0 && DiskBytes(db, effective) >= 0
  }

  ghost predicate UniformLimits(items: seq<Item>, warm: int, cached: int) {
    forall it :: it in items ==>
          it.policy.maxWarmProfilesPerNode == warm && it.policy.maxCachedProfilesPerNode == cached
  }

  // ---------- planner steps are bookkeeping moves ----------

  /** The terms agree with what the planner reads for candidate `c` of `item`. */
  predicate Sized(t: Terms, db: Database, item: Item, c: Candidate, a: Assignment) {
    && (t.exact ==> t.memory(a) == MemoryBytes(c.effective) && t.disk(a) == DiskBytes(db, c.effective))
    && t.memoryBudget(c.node.id) == MemoryBudget(c.node) && t.diskBudget(c.node.id) == c.node.budgets.disk
    && (t.limited ==> t.warmLimit(item.profile.id) == item.policy.maxWarmProfilesPerNode)
    && (t.limited ==> t.cacheLimit(item.profile.id) == item.policy.maxCachedProfilesPerNode)
    && (t.growing ==> MemoryBytes(c.effective) >= 0 && DiskBytes(db, c.effective) >= 0)
  }

  lemma MarkCacheEffect(db: Database, st: PlanState, pid: Id, c: Candidate)
    ensures var st' := MarkCache(db, st, pid, c);
            && st'.assignments == st.assignments && st'.warmBy == st.warmBy
            && NoWarmEffect(st, st') && CacheEffect(st, st', pid, c.node.id, DiskBytes(db, c.effective))
  {
  }

  lemma BookCacheEffect(db: Database, st: PlanState, pid: Id, c: Candidate, a: Assignment)
    ensures var st' := BookCache(db, st, pid, c, a);
            && st'.assignments == st.assignments + [a] && st'.warmBy == st.warmBy
            && NoWarmEffect(st, st') && CacheEffect(st, st', pid, c.node.id, DiskBytes(db, c.effective))
  {
    MarkCacheEffect(db, AddAssignment(st, a), pid, c);
  }

  lemma BookWarmEffect(db: Database, st: PlanState, pid: Id, c: Candidate, a: Assignment, protect: bool)
    ensures var st' := BookWarm(db, st, pid, c, a, protect);
            && st'.assignments == st.assignments + [a]
            && WarmEffect(st, st', pid, c.node.id, c.slot.id, MemoryBytes(c.effective))
            && CacheEffect(st, st', pid, c.node.id, DiskBytes(db, c.effective))
  {
    var mid := TakeSlot(
      st.(assignments := st.assignments + [a],
          protectedIds := if protect then st.protectedIds + {a.id} else st.protectedIds), pid, c);
    MarkCacheEffect(db, mid, pid, c);
  }

  lemma CheckedCache(t: Terms, env: Env, st: PlanState, item: Item, c: Candidate, a: Assignment, warm: bool)
    requires Sized(t, env.db, item, c, a) && CanUse(env, st, item, c, warm)
    requires a.profileId == item.profile.id && a.nodeId == c.node.id
    ensures CacheAllowed(t, st, a, DiskBytes(env.db, c.effective))
  {
  }

  lemma CheckedWarm(t: Terms, env: Env, st: PlanState, item: Item, c: Candidate, a: Assignment)
    requires Sized(t, env.db, item, c, a) && CanUse(env, st, item, c, true)
    requires a.profileId == item.profile.id && a.nodeId == c.node.id && (t.exclusive ==> a.slotId !in st.slotUsed)
    ensures WarmAllowed(t, st, a, MemoryBytes(c.effective))
  {
  }

  lemma WarmStepMoves(t: Terms, env: Env, st: PlanState, item: Item, c: Candidate, a: Assignment, protect: bool)
    requires Sized(t, env.db, item, c, a) && CanUse(env, st, item, c, true) && PlanTrace.WarmCopy(a, item, c)
    requires c.node.id == c.slot.nodeId && (t.exclusive ==> c.slot.id !in st.slotUsed)
    ensures MovesBy(t, st, BookWarm(env.db, st, item.profile.id, c, a, protect), a,
                    MemoryBytes(c.effective), DiskBytes(env.db, c.effective))
  {
    BookWarmEffect(env.db, st, item.profile.id, c, a, protect);
    CheckedCache(t, env, st, item, c, a, true);
    CheckedWarm(t, env, st, item, c, a);
  }

  lemma CacheStepMoves(t: Terms, env: Env, st: PlanState, item: Item, c: Candidate, a: Assignment)
    requires Sized(t, env.db, item, c, a) && CanUse(env, st, item, c, false) && PlanTrace.CacheCopy(a, item, c)
    ensures MovesBy(t, st, BookCache(env.db, st, item.profile.id, c, a), a, 0, DiskBytes(env.db, c.effective))
  {
    BookCacheEffect(env.db, st, item.profile.id, c, a);
    CheckedCache(t, env, st, item, c, a, false);
  }

  /** Assignment `a` stands for the variant of real candidate `c`. */
  ghost predicate Names(db: Database, item: Item, c: Candidate, a: Assignment) {
    && RealCandidate(db, item, c)
    && a.profileId == item.profile.id && a.runtimeVariantId == c.effective.runtimeVariantId
  }

  /** The terms agree with everything the planner reads for these items. */
  ghost predicate Suits(t: Terms, env: Env, items: seq<Item>, rules: PlanTrace.Rules) {
    && (forall item, c, a: Assignment :: item in items && Names(env.db, item, c, a) ==> Sized(t, env.db, item, c, a))
    && (forall st, item :: item in items && Exhausted(env, st, item) ==> t.spent(st, item.profile.id))
    && t.exclusive == rules.exclusive && t.blocks == rules.blocks && t.missing == rules.missing
  }

  lemma StepMoves(t: Terms, env: Env, items: seq<Item>, rules: PlanTrace.Rules, st: PlanState, step: PlanTrace.Step)
    requires Suits(t, env, items, rules) && PlanTrace.Enabled(env, items, rules, st, step)
    ensures exists m, d :: MovesBy(t, st, PlanTrace.Apply(env, st, step), step.a, m, d)
  {
    var st' := PlanTrace.Apply(env, st, step);
    match step
    case WarmStep(item, c, a, protect) =>
      WarmStepMoves(t, env, st, item, c, a, protect);
    case CacheStep(item, c, a) =>
      CacheStepMoves(t, env, st, item, c, a);
    case BlockStep(a, _) =>
      assert MovesBy(t, st, st', a, 0, 0);
    case MissingStep(item, a, warm) =>
      assert MovesBy(t, st, st', a, 0, 0);
  }

  lemma LeadsPath(t: Terms, env: Env, items: seq<Item>, rules: PlanTrace.Rules, st: PlanState, st': PlanState)
    requires Suits(t, env, items, rules) && PlanTrace.Leads(env, items, rules, st, st')
    ensures Path(Move(t), st, st')
  {
    var ok, next := PlanTrace.Guard(env, items, rules), PlanTrace.Next(env);
    forall x, s | ok(x, s) ensures Move(t)(x, next(x, s)) {
      StepMoves(t, env, items, rules, x, s);
      var m, d :| MovesBy(t, x, next(x, s), s.a, m, d);
    }
    ReachesPath(ok, next, Move(t), st, st');
  }

  // ---------- the terms of a planning run ----------

  /** Budgets only: nothing assumed of sizes or limits. */
  ghost function PlainTerms(db: Database, rules: PlanTrace.Rules): Terms {
    Terms(false, MemoryOf(db), DiskOf(db), false, MemoryBudgetOf(db), DiskBudgetOf(db),
          false, (pid: Id) => 0, (pid: Id) => 0, (st: PlanState, pid: Id) => true,
          rules.exclusive, rules.blocks, rules.missing)
  }

  lemma PlainSuits(env: Env, items: seq<Item>, rules: PlanTrace.Rules)
    ensures Suits(PlainTerms(env.db, rules), env, items, rules)
  {
  }

  ghost function ExactTerms(db: Database, rules: PlanTrace.Rules): Terms {
    PlainTerms(db, rules).(exact := true)
  }

  /** An accepted assignment reads back as exactly the variant that was placed. */
  lemma CopyReadsBack(db: Database, items: seq<Item>, item: Item, c: Candidate, a: Assignment)
    requires Stored(db, items) && UniqueIds(items) && item in items && Names(db, item, c, a)
    ensures MemoryOf(db)(a) == MemoryBytes(c.effective) && DiskOf(db)(a) == DiskBytes(db, c.effective)
  {
    var v :| v in ProfileRuntimeVariants(item.profile) && c.effective == EffectiveProfileForVariant(item.profile, v);
    AssignmentRoundTrip(item.profile, v, a);
  }

  lemma ExactSuits(env: Env, items: seq<Item>, rules: PlanTrace.Rules)
    requires Stored(env.db, items) && UniqueIds(items)
    ensures Suits(ExactTerms(env.db, rules), env, items, rules)
  {
    var t := ExactTerms(env.db, rules);
    forall item, c, a: Assignment | item in items && Names(env.db, item, c, a) ensures Sized(t, env.db, item, c, a) {
      CopyReadsBack(env.db, items, item, c, a);
    }
  }

  ghost function UniformTerms(db: Database, rules: PlanTrace.Rules, warm: int, cached: int): Terms {
    PlainTerms(db, rules).(limited := true, warmLimit := (pid: Id) => warm, cacheLimit := (pid: Id) => cached)
  }

  lemma UniformSuits(env: Env, items: seq<Item>, rules: PlanTrace.Rules, warm: int, cached: int)
    requires UniformLimits(items, warm, cached)
    ensures Suits(UniformTerms(env.db, rules, warm, cached), env, items, rules)
  {
  }

  /** With one policy per profile: its limits, and spent means that no candidate passes. */
  ghost function PolicyTerms(env: Env, items: seq<Item>, rules: PlanTrace.Rules): Terms {
    PlainTerms(env.db, rules).(
      limited := true, growing := true,
      warmLimit := (pid: Id) =>
        var it := ItemFor(items, pid); if it.Some? then it.value.policy.maxWarmProfilesPerNode else 0,
      cacheLimit := (pid: Id) =>
        var it := ItemFor(items, pid); if it.Some? then it.value.policy.maxCachedProfilesPerNode else 0,
      spent := (st: PlanState, pid: Id) => var it := ItemFor(items, pid); it.Some? && Exhausted(env, st, it.value))
  }

  lemma OwnItem(items: seq<Item>, item: Item)
    requires OnePolicyPerProfile(items) && item in items
    ensures ItemFor(items, item.profile.id) == Some(item)
  {
  }

  lemma SizesOf(db: Database, items: seq<Item>, item: Item, c: Candidate)
    requires NonNegativeSizes(db, items) && item in items && RealCandidate(db, item, c)
    ensures MemoryBytes(c.effective) >= 0 && DiskBytes(db, c.effective) >= 0
  {
    var v :| v in ProfileRuntimeVariants(item.profile) && c.effective == EffectiveProfileForVariant(item.profile, v);
  }

  lemma PolicySuits(env: Env, items: seq<Item>, rules: PlanTrace.Rules)
    requires OnePolicyPerProfile(items) && NonNegativeSizes(env.db, items)
    ensures Suits(PolicyTerms(env, items, rules), env, items, rules)
  {
    var t := PolicyTerms(env, items, rules);
    forall item, c, a: Assignment | item in items && Names(env.db, item, c, a) ensures Sized(t, env.db, item, c, a) {
      OwnItem(items, item);
      SizesOf(env.db, items, item, c);
    }
    forall st, item | item in items && Exhausted(env, st, item) ensures t.spent(st, item.profile.id) {
      OwnItem(items, item);
    }
  }

  lemma LimitReasonRefuses(t: Terms, st: PlanState, item: Item, n: Id)
    requires t.warmLimit(item.profile.id) == item.policy.maxWarmProfilesPerNode
    requires t.cacheLimit(item.profile.id) == item.policy.maxCachedProfilesPerNode
    ensures LimitReason(st, item, n, true) != "" <==> LimitsRefuse(t, st, item.profile.id, n)
  {
  }

  lemma WarmOkShrinks(env: Env, st: PlanState, st': PlanState, item: Item, c: Candidate)
    requires st.slotUsed <= st'.slotUsed
    requires Get(st.memoryUsed, c.node.id) <= Get(st'.memoryUsed, c.node.id)
    requires Get(st.diskUsed, c.node.id) <= Get(st'.diskUsed, c.node.id)
    requires LimitReason(st', item, c.node.id, true) == "" ==> LimitReason(st, item, c.node.id, true) == ""
    requires WarmOk(env, st', item, c)
    ensures WarmOk(env, st, item, c)
  {
  }

  /** A candidate refused in `st` is refused in every later state. */
  lemma RejectionPersists(t: Terms, env: Env, st: PlanState, st': PlanState, item: Item, c: Candidate)
    requires t.warmLimit(item.profile.id) == item.policy.maxWarmProfilesPerNode
    requires t.cacheLimit(item.profile.id) == item.policy.maxCachedProfilesPerNode
    requires Consumes(t, st, st', item.profile.id) && !WarmOk(env, st, item, c)
    ensures !WarmOk(env, st', item, c)
  {
    LimitReasonRefuses(t, st, item, c.node.id);
    LimitReasonRefuses(t, st', item, c.node.id);
    if WarmOk(env, st', item, c) {
      WarmOkShrinks(env, st, st', item, c);
    }
  }

  lemma ExhaustionPersists(env: Env, items: seq<Item>, rules: PlanTrace.Rules, item: Item)
    requires OnePolicyPerProfile(items) && item in items
    ensures SpentPersists(PolicyTerms(env, items, rules), item.profile.id)
  {
    var t, pid := PolicyTerms(env, items, rules), item.profile.id;
    OwnItem(items, item);
    forall x, y | t.spent(x, pid) && Consumes(t, x, y, pid) ensures t.spent(y, pid) {
      forall c | Placeable(env.db, item, c) ensures !WarmOk(env, y, item, c) {
        RejectionPersists(t, env, x, y, item, c);
      }
    }
  }

  // ---------- draining and the final sort change no measure ----------

  /** The measure does not look at the draining flag. */
  ghost predicate DrainBlind(f: Assignment -> int) {
    forall a: Assignment :: f(a.(draining := true)) == f(a)
  }

  lemma {:induction false} DrainSum(
      plan: seq<Assignment>, protectedIds: set<Id>, targets: map<Id, int>, counts: map<Id, int>, f: Assignment -> int)
    requires DrainBlind(f)
    ensures Sum(Drain(plan, protectedIds, targets, counts), f) == Sum(plan, f)
    decreases |plan|
  {
    if plan != [] {
      var a, rest := plan[0], plan[1..];
      var drained := Drain(plan, protectedIds, targets, counts);
      var counts' := Released(a, protectedIds, targets, counts);
      DrainSum(rest, protectedIds, targets, counts', f);
      assert plan == [a] + rest && drained == [drained[0]] + Drain(rest, protectedIds, targets, counts');
      SumConcat([a], rest, f);
      SumConcat([drained[0]], Drain(rest, protectedIds, targets, counts'), f);
      assert f(drained[0]) == f(a);
    }
  }

  lemma FinishSum(st: PlanState, items: seq<Item>, f: Assignment -> int)
    requires DrainBlind(f)
    ensures Sum(Finish(st, items), f) == Sum(st.assignments, f)
  {
    SumStableSort(MarkDraining(st, ByDemand(items)).assignments, AssignmentOrder(), f);
    DrainSum(st.assignments, st.protectedIds, WarmTargets(ByDemand(items)), WarmCounts(st.assignments), f);
  }

  lemma {:induction false} DrainMember(
      plan: seq<Assignment>, protectedIds: set<Id>, targets: map<Id, int>, counts: map<Id, int>, i: nat)
    requires i < |plan|
    ensures var a := Drain(plan, protectedIds, targets, counts)[i]; a == plan[i] || a == plan[i].(draining := true)
    decreases |plan|
  {
    if i > 0 {
      DrainMember(plan[1..], protectedIds, targets, Released(plan[0], protectedIds, targets, counts), i - 1);
    }
  }

  /** The same assignments, up to the draining flag. */
  ghost predicate SameCopies(plan: seq<Assignment>, placed: seq<Assignment>) {
    && (forall a :: a in plan ==> exists b :: b in placed && (a == b || a == b.(draining := true)))
    && (forall b :: b in placed ==> exists a :: a in plan && (a == b || a == b.(draining := true)))
  }

  lemma DrainSame(plan: seq<Assignment>, protectedIds: set<Id>, targets: map<Id, int>, counts: map<Id, int>)
    ensures SameCopies(Drain(plan, protectedIds, targets, counts), plan)
  {
    var drained := Drain(plan, protectedIds, targets, counts);
    forall i | 0 <= i < |plan| ensures drained[i] == plan[i] || drained[i] == plan[i].(draining := true) {
      DrainMember(plan, protectedIds, targets, counts, i);
    }
    forall a | a in drained ensures exists b :: b in plan && (a == b || a == b.(draining := true)) {
      var i :| 0 <= i < |drained| && drained[i] == a;
      assert plan[i] in plan;
    }
    forall b | b in plan ensures exists a :: a in drained && (a == b || a == b.(draining := true)) {
      var i :| 0 <= i < |plan| && plan[i] == b;
      assert drained[i] in drained;
    }
  }

  lemma FinishSame(st: PlanState, items: seq<Item>)
    ensures SameCopies(Finish(st, items), st.assignments)
  {
    var drained := MarkDraining(st, ByDemand(items)).assignments;
    DrainSame(st.assignments, st.protectedIds, WarmTargets(ByDemand(items)), WarmCounts(st.assignments));
    forall a ensures a in Finish(st, items) <==> a in drained {
      StableSortMember(drained, AssignmentOrder(), a);
    }
  }

  /** The assignment without its draining mark. */
  function Undrained(): Assignment -> Assignment {
    (a: Assignment) => a.(draining := false)
  }

  lemma MapCons<T, U>(x: T, s: seq<T>, f: T -> U)
    ensures Map([x] + s, f) == [f(x)] + Map(s, f)
  {
  }

  lemma {:induction false} MapInsertPermutes<T, U>(x: T, s: seq<T>, less: (T, T) -> bool, f: T -> U)
    ensures multiset(Map(Insert(x, s, less), f)) == multiset(Map(s, f)) + multiset{f(x)}
  {
    MapCons(x, s, f);
    if s != [] && less(s[0], x) {
      MapInsertPermutes(x, s[1..], less, f);
      MapCons(s[0], s[1..], f);
      MapCons(s[0], Insert(x, s[1..], less), f);
      assert s == [s[0]] + s[1..];
    }
  }

  /** Sorting permutes what is read off the elements. */
  lemma {:induction false} MapSortPermutes<T, U>(s: seq<T>, less: (T, T) -> bool, f: T -> U)
    ensures multiset(Map(StableSort(s, less), f)) == multiset(Map(s, f))
  {
    if s != [] {
      MapSortPermutes(s[1..], less, f);
      MapInsertPermutes(s[0], StableSort(s[1..], less), less, f);
      MapCons(s[0], s[1..], f);
      assert s == [s[0]] + s[1..];
    }
  }

  lemma UndrainDrain(plan: seq<Assignment>, protectedIds: set<Id>, targets: map<Id, int>, counts: map<Id, int>)
    requires forall a :: a in plan ==> !a.draining
    ensures Map(Drain(plan, protectedIds, targets, counts), Undrained()) == plan
  {
    var drained := Drain(plan, protectedIds, targets, counts);
    forall i | 0 <= i < |plan| ensures Undrained()(drained[i]) == plan[i] {
      DrainMember(plan, protectedIds, targets, counts, i);
      assert plan[i] in plan;
    }
  }

  /** The finished plan holds the placed assignments, in another order and with draining marks. */
  lemma FinishPermutes(st: PlanState, items: seq<Item>)
    requires forall a :: a in st.assignments ==> !a.draining
    ensures multiset(Map(Finish(st, items), Undrained())) == multiset(st.assignments)
  {
    var targets, counts := WarmTargets(ByDemand(items)), WarmCounts(st.assignments);
    UndrainDrain(st.assignments, st.protectedIds, targets, counts);
    MapSortPermutes(MarkDraining(st, ByDemand(items)).assignments, AssignmentOrder(), Undrained());
  }

  lemma SameSets(plan: seq<Assignment>, placed: seq<Assignment>, n: Id, pid: Id)
    requires SameCopies(plan, placed)
    ensures ProfilesOn(plan, n) == ProfilesOn(placed, n) && WarmProfilesOn(plan, n) == WarmProfilesOn(placed, n)
    ensures CachedNodes(plan, pid) == CachedNodes(placed, pid)
  {
  }
}
