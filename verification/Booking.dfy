/** The planner's bookkeeping on its own: four kinds of moves over the planner state,
    with sizes, budgets and limits as parameters, and what every path of moves keeps.
    Each invariant ties a mutable counter to the emitted assignments. */
module Booking {
  import opened Base
  import opened Traces
  import opened Model
  import opened Placement

  // ---------- measures read off the assignments alone ----------

  function MemoryOn(memory: Assignment -> int, n: Id): Assignment -> int {
    (a: Assignment) => if UnblockedWarm(a) && a.nodeId == n then memory(a) else 0
  }

  function CopyOf(pid: Id): Assignment -> int {
    (a: Assignment) => if UnblockedWarm(a) && a.profileId == pid then 1 else 0
  }

  function BlockedWarmOf(pid: Id): Assignment -> int {
    (a: Assignment) => if a.desiredWarm && !Unblocked(a) && a.profileId == pid then 1 else 0
  }

  function BlockedOf(pid: Id): Assignment -> int {
    (a: Assignment) => if !Unblocked(a) && a.profileId == pid then 1 else 0
  }

  function OnSlot(s: Id): Assignment -> int {
    (a: Assignment) => if UnblockedWarm(a) && a.slotId == s then 1 else 0
  }

  predicate CachesOn(a: Assignment, n: Id) {
    Unblocked(a) && a.desiredCached && a.nodeId == n
  }

  function ProfilesOn(plan: seq<Assignment>, n: Id): set<Id> {
    set a | a in plan && CachesOn(a, n) :: a.profileId
  }

  function WarmProfilesOn(plan: seq<Assignment>, n: Id): set<Id> {
    set a | a in plan && UnblockedWarm(a) && a.nodeId == n :: a.profileId
  }

  /** Nodes that hold a cached copy of the profile. */
  function CachedNodes(plan: seq<Assignment>, pid: Id): set<Id> {
    set a | a in plan && Unblocked(a) && a.desiredCached && a.profileId == pid :: a.nodeId
  }

  /** Disk on a node, counted once per profile at the first variant placed there. */
  function DiskOn(disk: Assignment -> int, plan: seq<Assignment>, n: Id): int {
    if plan == [] then 0
    else
      var a, before := plan[|plan| - 1], plan[..|plan| - 1];
      DiskOn(disk, before, n) + if CachesOn(a, n) && a.profileId !in ProfilesOn(before, n) then disk(a) else 0
  }

  // ---------- moves ----------

  /** What a path respects (whether booked sizes are the given ones, never negative, and
      within limits) and which kinds of moves it takes: whether warm copies take unused
      slots only, whether copies may be blocked or missing. */
  datatype Terms = Terms(
    exact: bool, memory: Assignment -> int, disk: Assignment -> int, growing: bool,
    memoryBudget: Id -> int, diskBudget: Id -> int,
    limited: bool, warmLimit: Id -> int, cacheLimit: Id -> int,
    spent: (PlanState, Id) -> bool,
    exclusive: bool, blocks: bool, missing: bool)

  predicate Below(limit: int, held: set<Id>, pid: Id) {
    limit > 0 && pid !in held ==> |held| < limit
  }

  /** The cached copy is booked unless the node already holds the profile. */
  predicate CacheEffect(st: PlanState, st': PlanState, pid: Id, n: Id, bytes: int) {
    if pid in GetSet(st.nodeCache, n) then
      st'.diskUsed == st.diskUsed && st'.nodeCache == st.nodeCache && st'.cacheBy == st.cacheBy
    else
      && st'.diskUsed == st.diskUsed[n := Get(st.diskUsed, n) + bytes]
      && st'.nodeCache == st.nodeCache[n := GetSet(st.nodeCache, n) + {pid}]
      && st'.cacheBy == st.cacheBy[pid := Get(st.cacheBy, pid) + 1]
  }

  predicate WarmEffect(st: PlanState, st': PlanState, pid: Id, n: Id, slot: Id, bytes: int) {
    && st'.slotUsed == st.slotUsed + {slot}
    && st'.memoryUsed == st.memoryUsed[n := Get(st.memoryUsed, n) + bytes]
    && st'.nodeWarm == st.nodeWarm[n := GetSet(st.nodeWarm, n) + {pid}]
    && st'.warmBy == st.warmBy[pid := Get(st.warmBy, pid) + 1]
  }

  predicate NoWarmEffect(st: PlanState, st': PlanState) {
    st'.slotUsed == st.slotUsed && st'.memoryUsed == st.memoryUsed && st'.nodeWarm == st.nodeWarm
  }

  predicate WithinBudget(budget: int, used: int, bytes: int) {
    budget <= 0 || bytes <= 0 || used + bytes <= budget
  }

  predicate CacheAllowed(t: Terms, st: PlanState, a: Assignment, d: int) {
    && WithinBudget(t.diskBudget(a.nodeId), Get(st.diskUsed, a.nodeId), d)
    && (t.limited ==> Below(t.cacheLimit(a.profileId), GetSet(st.nodeCache, a.nodeId), a.profileId))
    && (t.growing ==> d >= 0) && (t.exact ==> d == t.disk(a))
  }

  predicate WarmAllowed(t: Terms, st: PlanState, a: Assignment, m: int) {
    && WithinBudget(t.memoryBudget(a.nodeId), Get(st.memoryUsed, a.nodeId), m)
    && (t.limited ==> Below(t.warmLimit(a.profileId), GetSet(st.nodeWarm, a.nodeId), a.profileId))
    && (t.growing ==> m >= 0) && (t.exact ==> m == t.memory(a))
    && (t.exclusive ==> a.slotId !in st.slotUsed)
  }

  predicate WarmMove(t: Terms, st: PlanState, st': PlanState, a: Assignment, m: int, d: int) {
    && UnblockedWarm(a) && a.desiredCached
    && WarmAllowed(t, st, a, m) && CacheAllowed(t, st, a, d)
    && WarmEffect(st, st', a.profileId, a.nodeId, a.slotId, m)
    && CacheEffect(st, st', a.profileId, a.nodeId, d)
  }

  predicate CacheMove(t: Terms, st: PlanState, st': PlanState, a: Assignment, d: int) {
    && Unblocked(a) && !a.desiredWarm && a.desiredCached
    && CacheAllowed(t, st, a, d)
    && NoWarmEffect(st, st') && st'.warmBy == st.warmBy
    && CacheEffect(st, st', a.profileId, a.nodeId, d)
  }

  predicate Inert(st: PlanState, st': PlanState) {
    NoWarmEffect(st, st') && st'.diskUsed == st.diskUsed && st'.nodeCache == st.nodeCache
  }

  predicate BlockMove(t: Terms, st: PlanState, st': PlanState, a: Assignment) {
    && t.blocks && !Unblocked(a) && Inert(st, st')
    && st'.warmBy == st.warmBy && st'.cacheBy == st.cacheBy
  }

  predicate MissingMove(t: Terms, st: PlanState, st': PlanState, a: Assignment) {
    && t.missing && !Unblocked(a) && Inert(st, st')
    && st'.warmBy == (if a.desiredWarm then st.warmBy[a.profileId := Get(st.warmBy, a.profileId) + 1] else st.warmBy)
    && st'.cacheBy == st.cacheBy[a.profileId := Get(st.cacheBy, a.profileId) + 1]
    && (a.desiredWarm ==> t.spent(st, a.profileId))
  }

  predicate MovesBy(t: Terms, st: PlanState, st': PlanState, a: Assignment, m: int, d: int) {
    && st'.assignments == st.assignments + [a] && !a.draining
    && (|| WarmMove(t, st, st', a, m, d) || CacheMove(t, st, st', a, d)
        || BlockMove(t, st, st', a) || MissingMove(t, st, st', a))
  }

  ghost function Move(t: Terms): (PlanState, PlanState) -> bool {
    (st: PlanState, st': PlanState) => exists a, m, d :: MovesBy(t, st, st', a, m, d)
  }

  ghost function NoneDraining(): PlanState -> bool {
    (st: PlanState) => forall a :: a in st.assignments ==> !a.draining
  }

  /** No move drains anything: draining is decided only once all copies are placed. */
  lemma DrainingKept(t: Terms, st: PlanState, st': PlanState)
    requires Path(Move(t), st, st') && NoneDraining()(st)
    ensures NoneDraining()(st')
  {
    forall x, y | NoneDraining()(x) && Move(t)(x, y) ensures NoneDraining()(y) {
      var a, m, d :| MovesBy(t, x, y, a, m, d);
    }
    PathKeeps(NoneDraining(), Move(t), st, st');
  }

  // ---------- memory ----------

  ghost function MemoryInv(t: Terms, n: Id): PlanState -> bool {
    (st: PlanState) =>
      && Get(st.memoryUsed, n) == Sum(st.assignments, MemoryOn(t.memory, n))
      && (t.memoryBudget(n) > 0 ==> Get(st.memoryUsed, n) <= t.memoryBudget(n))
  }

  lemma MemoryStep(t: Terms, st: PlanState, st': PlanState, a: Assignment, m: int, d: int, n: Id)
    requires t.exact && MovesBy(t, st, st', a, m, d) && MemoryInv(t, n)(st)
    ensures MemoryInv(t, n)(st')
  {
    SumAppend(st.assignments, a, MemoryOn(t.memory, n));
  }

  lemma MemoryKept(t: Terms, st: PlanState, st': PlanState, n: Id)
    requires t.exact && Path(Move(t), st, st') && MemoryInv(t, n)(st)
    ensures MemoryInv(t, n)(st')
  {
    forall x, y | MemoryInv(t, n)(x) && Move(t)(x, y) ensures MemoryInv(t, n)(y) {
      var a, m, d :| MovesBy(t, x, y, a, m, d);
      MemoryStep(t, x, y, a, m, d, n);
    }
    PathKeeps(MemoryInv(t, n), Move(t), st, st');
  }

  // ---------- disk ----------

  ghost function DiskInv(t: Terms, n: Id): PlanState -> bool {
    (st: PlanState) =>
      && GetSet(st.nodeCache, n) == ProfilesOn(st.assignments, n)
      && Get(st.diskUsed, n) == DiskOn(t.disk, st.assignments, n)
      && (t.diskBudget(n) > 0 ==> Get(st.diskUsed, n) <= t.diskBudget(n))
  }

  lemma ProfilesAppend(plan: seq<Assignment>, a: Assignment, n: Id)
    ensures ProfilesOn(plan + [a], n) == ProfilesOn(plan, n) + if CachesOn(a, n) then {a.profileId} else {}
  {
    assert forall x :: x in plan + [a] <==> x in plan || x == a;
  }

  lemma WarmProfilesAppend(plan: seq<Assignment>, a: Assignment, n: Id)
    ensures WarmProfilesOn(plan + [a], n)
         == WarmProfilesOn(plan, n) + if UnblockedWarm(a) && a.nodeId == n then {a.profileId} else {}
  {
    assert forall x :: x in plan + [a] <==> x in plan || x == a;
  }

  lemma DiskAppend(disk: Assignment -> int, plan: seq<Assignment>, a: Assignment, n: Id)
    ensures DiskOn(disk, plan + [a], n)
         == DiskOn(disk, plan, n) + if CachesOn(a, n) && a.profileId !in ProfilesOn(plan, n) then disk(a) else 0
  {
    assert (plan + [a])[..|plan|] == plan;
  }

  lemma DiskAccept(t: Terms, st: PlanState, st': PlanState, a: Assignment, d: int, n: Id)
    requires DiskInv(t, n)(st) && st'.assignments == st.assignments + [a] && CachesOn(a, a.nodeId)
    requires t.exact && CacheAllowed(t, st, a, d) && CacheEffect(st, st', a.profileId, a.nodeId, d)
    ensures DiskInv(t, n)(st')
  {
    ProfilesAppend(st.assignments, a, n);
    DiskAppend(t.disk, st.assignments, a, n);
  }

  lemma DiskInert(t: Terms, st: PlanState, st': PlanState, a: Assignment, n: Id)
    requires DiskInv(t, n)(st) && st'.assignments == st.assignments + [a] && !Unblocked(a) && Inert(st, st')
    ensures DiskInv(t, n)(st')
  {
    ProfilesAppend(st.assignments, a, n);
    DiskAppend(t.disk, st.assignments, a, n);
  }

  lemma DiskStep(t: Terms, st: PlanState, st': PlanState, a: Assignment, m: int, d: int, n: Id)
    requires t.exact && MovesBy(t, st, st', a, m, d) && DiskInv(t, n)(st)
    ensures DiskInv(t, n)(st')
  {
    if Unblocked(a) {
      DiskAccept(t, st, st', a, d, n);
    } else {
      DiskInert(t, st, st', a, n);
    }
  }

  lemma DiskKept(t: Terms, st: PlanState, st': PlanState, n: Id)
    requires t.exact && Path(Move(t), st, st') && DiskInv(t, n)(st)
    ensures DiskInv(t, n)(st')
  {
    forall x, y | DiskInv(t, n)(x) && Move(t)(x, y) ensures DiskInv(t, n)(y) {
      var a, m, d :| MovesBy(t, x, y, a, m, d);
      DiskStep(t, x, y, a, m, d, n);
    }
    PathKeeps(DiskInv(t, n), Move(t), st, st');
  }

  // ---------- per-node limits ----------

  ghost function WarmLimitInv(n: Id, limit: int): PlanState -> bool {
    (st: PlanState) => GetSet(st.nodeWarm, n) == WarmProfilesOn(st.assignments, n) && |GetSet(st.nodeWarm, n)| <= limit
  }

  ghost function CacheLimitInv(n: Id, limit: int): PlanState -> bool {
    (st: PlanState) => GetSet(st.nodeCache, n) == ProfilesOn(st.assignments, n) && |GetSet(st.nodeCache, n)| <= limit
  }

  /** A node's set of profiles stays, or takes in one profile its limit admits. */
  predicate Admits(limited: bool, limit: int, held: set<Id>, held': set<Id>, pid: Id) {
    held' == held || (held' == held + {pid} && (limited ==> Below(limit, held, pid)))
  }

  lemma WarmSetAfter(t: Terms, st: PlanState, st': PlanState, a: Assignment, m: int, d: int, n: Id)
    requires MovesBy(t, st, st', a, m, d)
    ensures Admits(t.limited, t.warmLimit(a.profileId), GetSet(st.nodeWarm, n), GetSet(st'.nodeWarm, n), a.profileId)
  {
  }

  lemma CacheSetAfter(t: Terms, st: PlanState, st': PlanState, a: Assignment, m: int, d: int, n: Id)
    requires MovesBy(t, st, st', a, m, d)
    ensures Admits(t.limited, t.cacheLimit(a.profileId), GetSet(st.nodeCache, n), GetSet(st'.nodeCache, n), a.profileId)
  {
  }

  lemma AdmitsWithin(limit: int, held: set<Id>, held': set<Id>, pid: Id)
    requires limit > 0 && |held| <= limit && Admits(true, limit, held, held', pid)
    ensures |held'| <= limit
  {
    if pid in held {
      assert held + {pid} == held;
    }
  }

  /** A profile refused by the limit stays refused when an admitted profile moves in. */
  lemma AdmitsRefused(limit: int, held: set<Id>, held': set<Id>, pid: Id, other: Id, otherLimit: int)
    requires Admits(true, otherLimit, held, held', other) && (other == pid ==> otherLimit == limit)
    requires !Below(limit, held, pid)
    ensures !Below(limit, held', pid)
  {
    SubsetSize(held, held');
  }

  lemma WarmSetsAgree(t: Terms, st: PlanState, st': PlanState, a: Assignment, m: int, d: int, n: Id)
    requires MovesBy(t, st, st', a, m, d) && GetSet(st.nodeWarm, n) == WarmProfilesOn(st.assignments, n)
    ensures GetSet(st'.nodeWarm, n) == WarmProfilesOn(st'.assignments, n)
  {
    WarmProfilesAppend(st.assignments, a, n);
  }

  lemma WarmLimitStep(t: Terms, st: PlanState, st': PlanState, a: Assignment, m: int, d: int, n: Id, limit: int)
    requires MovesBy(t, st, st', a, m, d) && WarmLimitInv(n, limit)(st)
    requires t.limited && limit > 0 && t.warmLimit(a.profileId) == limit
    ensures WarmLimitInv(n, limit)(st')
  {
    WarmSetsAgree(t, st, st', a, m, d, n);
    WarmSetAfter(t, st, st', a, m, d, n);
    AdmitsWithin(limit, GetSet(st.nodeWarm, n), GetSet(st'.nodeWarm, n), a.profileId);
  }

  lemma CacheSetsMatch(t: Terms, st: PlanState, st': PlanState, a: Assignment, m: int, d: int, n: Id)
    requires MovesBy(t, st, st', a, m, d) && GetSet(st.nodeCache, n) == ProfilesOn(st.assignments, n)
    ensures GetSet(st'.nodeCache, n) == ProfilesOn(st'.assignments, n)
  {
    ProfilesAppend(st.assignments, a, n);
  }

  lemma CacheLimitStep(t: Terms, st: PlanState, st': PlanState, a: Assignment, m: int, d: int, n: Id, limit: int)
    requires MovesBy(t, st, st', a, m, d) && CacheLimitInv(n, limit)(st)
    requires t.limited && limit > 0 && t.cacheLimit(a.profileId) == limit
    ensures CacheLimitInv(n, limit)(st')
  {
    CacheSetsMatch(t, st, st', a, m, d, n);
    CacheSetAfter(t, st, st', a, m, d, n);
    AdmitsWithin(limit, GetSet(st.nodeCache, n), GetSet(st'.nodeCache, n), a.profileId);
  }

  lemma LimitsKept(t: Terms, st: PlanState, st': PlanState, n: Id, warm: int, cached: int)
    requires t.limited && warm > 0 && cached > 0
    requires forall pid :: t.warmLimit(pid) == warm && t.cacheLimit(pid) == cached
    requires Path(Move(t), st, st') && WarmLimitInv(n, warm)(st) && CacheLimitInv(n, cached)(st)
    ensures WarmLimitInv(n, warm)(st') && CacheLimitInv(n, cached)(st')
  {
    forall x, y | WarmLimitInv(n, warm)(x) && Move(t)(x, y) ensures WarmLimitInv(n, warm)(y) {
      var a, m, d :| MovesBy(t, x, y, a, m, d);
      WarmLimitStep(t, x, y, a, m, d, n, warm);
    }
    PathKeeps(WarmLimitInv(n, warm), Move(t), st, st');
    forall x, y | CacheLimitInv(n, cached)(x) && Move(t)(x, y) ensures CacheLimitInv(n, cached)(y) {
      var a, m, d :| MovesBy(t, x, y, a, m, d);
      CacheLimitStep(t, x, y, a, m, d, n, cached);
    }
    PathKeeps(CacheLimitInv(n, cached), Move(t), st, st');
  }

  // ---------- slots ----------

  ghost function SlotInv(s: Id): PlanState -> bool {
    (st: PlanState) => Sum(st.assignments, OnSlot(s)) == if s in st.slotUsed then 1 else 0
  }

  lemma SlotStep(t: Terms, st: PlanState, st': PlanState, a: Assignment, m: int, d: int, s: Id)
    requires t.exclusive && MovesBy(t, st, st', a, m, d) && SlotInv(s)(st)
    ensures SlotInv(s)(st')
  {
    SumAppend(st.assignments, a, OnSlot(s));
  }

  lemma SlotKept(t: Terms, st: PlanState, st': PlanState, s: Id)
    requires t.exclusive && Path(Move(t), st, st') && SlotInv(s)(st)
    ensures SlotInv(s)(st')
  {
    forall x, y | SlotInv(s)(x) && Move(t)(x, y) ensures SlotInv(s)(y) {
      var a, m, d :| MovesBy(t, x, y, a, m, d);
      SlotStep(t, x, y, a, m, d, s);
    }
    PathKeeps(SlotInv(s), Move(t), st, st');
  }

  // ---------- copy accounting ----------

  /** The warm counter is the unblocked copies plus, without blocking, the blocked ones beyond the first `k`. */
  ghost function WarmAccount(pid: Id, k: int): PlanState -> bool {
    (st: PlanState) =>
      Get(st.warmBy, pid) == Sum(st.assignments, CopyOf(pid)) + Sum(st.assignments, BlockedWarmOf(pid)) - k
  }

  ghost function WarmCountsCopies(pid: Id): PlanState -> bool {
    (st: PlanState) => Get(st.warmBy, pid) == Sum(st.assignments, CopyOf(pid))
  }

  lemma WarmAccountStep(t: Terms, st: PlanState, st': PlanState, a: Assignment, m: int, d: int, pid: Id, k: int)
    requires MovesBy(t, st, st', a, m, d) && !t.blocks && WarmAccount(pid, k)(st)
    ensures WarmAccount(pid, k)(st')
  {
    SumAppend(st.assignments, a, CopyOf(pid));
    SumAppend(st.assignments, a, BlockedWarmOf(pid));
  }

  lemma WarmAccountKept(t: Terms, st: PlanState, st': PlanState, pid: Id, k: int)
    requires !t.blocks && Path(Move(t), st, st') && WarmAccount(pid, k)(st)
    ensures WarmAccount(pid, k)(st')
  {
    forall x, y | WarmAccount(pid, k)(x) && Move(t)(x, y) ensures WarmAccount(pid, k)(y) {
      var a, m, d :| MovesBy(t, x, y, a, m, d);
      WarmAccountStep(t, x, y, a, m, d, pid, k);
    }
    PathKeeps(WarmAccount(pid, k), Move(t), st, st');
  }

  lemma WarmCopiesStep(t: Terms, st: PlanState, st': PlanState, a: Assignment, m: int, d: int, pid: Id)
    requires MovesBy(t, st, st', a, m, d) && !t.missing && WarmCountsCopies(pid)(st)
    ensures WarmCountsCopies(pid)(st')
  {
    SumAppend(st.assignments, a, CopyOf(pid));
  }

  lemma WarmCopiesKept(t: Terms, st: PlanState, st': PlanState, pid: Id)
    requires !t.missing && Path(Move(t), st, st') && WarmCountsCopies(pid)(st)
    ensures WarmCountsCopies(pid)(st')
  {
    forall x, y | WarmCountsCopies(pid)(x) && Move(t)(x, y) ensures WarmCountsCopies(pid)(y) {
      var a, m, d :| MovesBy(t, x, y, a, m, d);
      WarmCopiesStep(t, x, y, a, m, d, pid);
    }
    PathKeeps(WarmCountsCopies(pid), Move(t), st, st');
  }

  ghost predicate CacheSetsAgree(st: PlanState, pid: Id) {
    forall n :: pid in GetSet(st.nodeCache, n) <==> n in CachedNodes(st.assignments, pid)
  }

  ghost function CacheAccount(pid: Id, k: int): PlanState -> bool {
    (st: PlanState) =>
      && CacheSetsAgree(st, pid)
      && Get(st.cacheBy, pid) == |CachedNodes(st.assignments, pid)| + Sum(st.assignments, BlockedOf(pid)) - k
  }

  ghost function CacheCountsNodes(pid: Id): PlanState -> bool {
    (st: PlanState) => CacheSetsAgree(st, pid) && Get(st.cacheBy, pid) == |CachedNodes(st.assignments, pid)|
  }

  lemma CachedNodesAppend(plan: seq<Assignment>, a: Assignment, pid: Id)
    ensures CachedNodes(plan + [a], pid)
         == CachedNodes(plan, pid) + if Unblocked(a) && a.desiredCached && a.profileId == pid then {a.nodeId} else {}
  {
    assert forall x :: x in plan + [a] <==> x in plan || x == a;
  }

  lemma CacheAcceptAgrees(st: PlanState, st': PlanState, a: Assignment, pid: Id, bytes: int)
    requires CacheSetsAgree(st, pid) && st'.assignments == st.assignments + [a]
    requires CacheEffect(st, st', a.profileId, a.nodeId, bytes) && Unblocked(a) && a.desiredCached
    ensures CacheSetsAgree(st', pid)
  {
    CachedNodesAppend(st.assignments, a, pid);
    forall n ensures pid in GetSet(st'.nodeCache, n) <==> n in CachedNodes(st'.assignments, pid) {
      assert pid in GetSet(st.nodeCache, n) <==> n in CachedNodes(st.assignments, pid);
    }
  }

  lemma GrowBy(s: set<Id>, x: Id)
    ensures |s + {x}| == |s| + if x in s then 0 else 1
  {
    if x in s {
      assert s + {x} == s;
    }
  }

  /** Booking a cached copy counts exactly the node it adds. */
  lemma CacheAccept(st: PlanState, st': PlanState, a: Assignment, pid: Id, bytes: int)
    requires CacheSetsAgree(st, pid) && st'.assignments == st.assignments + [a]
    requires CacheEffect(st, st', a.profileId, a.nodeId, bytes) && Unblocked(a) && a.desiredCached
    ensures CacheSetsAgree(st', pid)
    ensures Get(st'.cacheBy, pid) - Get(st.cacheBy, pid)
         == |CachedNodes(st'.assignments, pid)| - |CachedNodes(st.assignments, pid)|
  {
    var nodes := CachedNodes(st.assignments, pid);
    CacheAcceptAgrees(st, st', a, pid, bytes);
    CachedNodesAppend(st.assignments, a, pid);
    assert pid in GetSet(st.nodeCache, a.nodeId) <==> a.nodeId in nodes;
    if a.profileId == pid {
      GrowBy(nodes, a.nodeId);
    } else {
      assert nodes + {} == nodes;
    }
  }

  lemma CacheInert(st: PlanState, st': PlanState, a: Assignment, pid: Id)
    requires CacheSetsAgree(st, pid) && st'.assignments == st.assignments + [a] && !Unblocked(a) && Inert(st, st')
    ensures CacheSetsAgree(st', pid) && CachedNodes(st'.assignments, pid) == CachedNodes(st.assignments, pid)
  {
    CachedNodesAppend(st.assignments, a, pid);
  }

  lemma CacheAccountStep(t: Terms, st: PlanState, st': PlanState, a: Assignment, m: int, d: int, pid: Id, k: int)
    requires MovesBy(t, st, st', a, m, d) && !t.blocks && CacheAccount(pid, k)(st)
    ensures CacheAccount(pid, k)(st')
  {
    SumAppend(st.assignments, a, BlockedOf(pid));
    if Unblocked(a) {
      CacheAccept(st, st', a, pid, d);
    } else {
      CacheInert(st, st', a, pid);
    }
  }

  lemma CacheAccountKept(t: Terms, st: PlanState, st': PlanState, pid: Id, k: int)
    requires !t.blocks && Path(Move(t), st, st') && CacheAccount(pid, k)(st)
    ensures CacheAccount(pid, k)(st')
  {
    forall x, y | CacheAccount(pid, k)(x) && Move(t)(x, y) ensures CacheAccount(pid, k)(y) {
      var a, m, d :| MovesBy(t, x, y, a, m, d);
      CacheAccountStep(t, x, y, a, m, d, pid, k);
    }
    PathKeeps(CacheAccount(pid, k), Move(t), st, st');
  }

  lemma CacheNodesStep(t: Terms, st: PlanState, st': PlanState, a: Assignment, m: int, d: int, pid: Id)
    requires MovesBy(t, st, st', a, m, d) && !t.missing && CacheCountsNodes(pid)(st)
    ensures CacheCountsNodes(pid)(st')
  {
    if Unblocked(a) {
      CacheAccept(st, st', a, pid, d);
    } else {
      CacheInert(st, st', a, pid);
    }
  }

  lemma CacheNodesKept(t: Terms, st: PlanState, st': PlanState, pid: Id)
    requires !t.missing && Path(Move(t), st, st') && CacheCountsNodes(pid)(st)
    ensures CacheCountsNodes(pid)(st')
  {
    forall x, y | CacheCountsNodes(pid)(x) && Move(t)(x, y) ensures CacheCountsNodes(pid)(y) {
      var a, m, d :| MovesBy(t, x, y, a, m, d);
      CacheNodesStep(t, x, y, a, m, d, pid);
    }
    PathKeeps(CacheCountsNodes(pid), Move(t), st, st');
  }

  // ---------- moves only consume ----------

  predicate LimitsRefuse(t: Terms, st: PlanState, pid: Id, n: Id) {
    !Below(t.warmLimit(pid), GetSet(st.nodeWarm, n), pid) || !Below(t.cacheLimit(pid), GetSet(st.nodeCache, n), pid)
  }

  /** What was refused to profile `pid` in `st` for want of a slot, room or limit is refused in `st'`. */
  ghost predicate Consumes(t: Terms, st: PlanState, st': PlanState, pid: Id) {
    && st.slotUsed <= st'.slotUsed
    && (forall n :: Get(st.memoryUsed, n) <= Get(st'.memoryUsed, n))
    && (forall n :: Get(st.diskUsed, n) <= Get(st'.diskUsed, n))
    && (forall n :: LimitsRefuse(t, st, pid, n) ==> LimitsRefuse(t, st', pid, n))
  }

  lemma SubsetSize(a: set<Id>, b: set<Id>)
    requires a <= b
    ensures |a| <= |b|
  {
    assert b == a + (b - a);
  }

  lemma LimitsPersist(t: Terms, st: PlanState, st': PlanState, a: Assignment, m: int, d: int, pid: Id, n: Id)
    requires t.limited && MovesBy(t, st, st', a, m, d) && LimitsRefuse(t, st, pid, n)
    ensures LimitsRefuse(t, st', pid, n)
  {
    if !Below(t.warmLimit(pid), GetSet(st.nodeWarm, n), pid) {
      WarmSetAfter(t, st, st', a, m, d, n);
      AdmitsRefused(t.warmLimit(pid), GetSet(st.nodeWarm, n), GetSet(st'.nodeWarm, n), pid,
                    a.profileId, t.warmLimit(a.profileId));
    } else {
      CacheSetAfter(t, st, st', a, m, d, n);
      AdmitsRefused(t.cacheLimit(pid), GetSet(st.nodeCache, n), GetSet(st'.nodeCache, n), pid,
                    a.profileId, t.cacheLimit(a.profileId));
    }
  }

  lemma MoveUses(t: Terms, st: PlanState, st': PlanState, a: Assignment, m: int, d: int)
    requires t.growing && MovesBy(t, st, st', a, m, d)
    ensures st.slotUsed <= st'.slotUsed
    ensures forall n :: Get(st.memoryUsed, n) <= Get(st'.memoryUsed, n)
    ensures forall n :: Get(st.diskUsed, n) <= Get(st'.diskUsed, n)
  {
  }

  lemma MoveConsumes(t: Terms, st: PlanState, st': PlanState, a: Assignment, m: int, d: int, pid: Id)
    requires t.limited && t.growing && MovesBy(t, st, st', a, m, d)
    ensures Consumes(t, st, st', pid)
  {
    MoveUses(t, st, st', a, m, d);
    forall n | LimitsRefuse(t, st, pid, n) ensures LimitsRefuse(t, st', pid, n) {
      LimitsPersist(t, st, st', a, m, d, pid, n);
    }
  }

  /** Once the counter of a profile runs ahead of its copies, the profile is spent. */
  ghost function MissingInv(t: Terms, pid: Id): PlanState -> bool {
    (st: PlanState) => Get(st.warmBy, pid) != Sum(st.assignments, CopyOf(pid)) ==> t.spent(st, pid)
  }

  /** Being spent survives whatever only consumes. */
  ghost predicate SpentPersists(t: Terms, pid: Id) {
    forall x, y :: t.spent(x, pid) && Consumes(t, x, y, pid) ==> t.spent(y, pid)
  }

  lemma MissingStep(t: Terms, st: PlanState, st': PlanState, a: Assignment, m: int, d: int, pid: Id)
    requires t.limited && t.growing && SpentPersists(t, pid)
    requires MovesBy(t, st, st', a, m, d) && MissingInv(t, pid)(st)
    ensures MissingInv(t, pid)(st')
  {
    SumAppend(st.assignments, a, CopyOf(pid));
    MoveConsumes(t, st, st', a, m, d, pid);
  }

  lemma MissingKept(t: Terms, st: PlanState, st': PlanState, pid: Id)
    requires t.limited && t.growing && SpentPersists(t, pid)
    requires Path(Move(t), st, st') && MissingInv(t, pid)(st)
    ensures MissingInv(t, pid)(st')
  {
    forall x, y | MissingInv(t, pid)(x) && Move(t)(x, y) ensures MissingInv(t, pid)(y) {
      var a, m, d :| MovesBy(t, x, y, a, m, d);
      MissingStep(t, x, y, a, m, d, pid);
    }
    PathKeeps(MissingInv(t, pid), Move(t), st, st');
  }
}
