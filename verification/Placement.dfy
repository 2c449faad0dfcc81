/** The placement planner as functions over its state: candidates and their order,
    budget and limit checks, and every planning phase
    (internal/comrad/placement_plan.go and internal/comrad/placement_explain.go).
    Class `Planner` in PlannerLoops.dfy is the imperative form, proved equal to it. */
module Placement {
  import opened Base
  import opened Model
  import opened Fit
  import opened Demand

  datatype Item = Item(profile: Profile, policy: Policy, capacity: Capacity, scarcity: int, size: int, demand: int)

  datatype Candidate = Candidate(slot: Slot, node: Node, effective: Profile, fit: FitResult)

  /** What a planning run reads: the snapshot, the clock and whether it explains itself. */
  datatype Env = Env(db: Database, now: Time, explain: bool)

  /** The planner's mutable fields. Go maps to bool that only ever hold true are sets. */
  datatype PlanState = PlanState(
    assignments: seq<Assignment>, protectedIds: set<Id>,
    warmBy: map<Id, int>, cacheBy: map<Id, int>, slotUsed: set<Id>,
    memoryUsed: map<Id, int>, diskUsed: map<Id, int>,
    nodeWarm: map<Id, set<Id>>, nodeCache: map<Id, set<Id>>, missing: map<Id, int>)

  const EMPTY_STATE := PlanState([], {}, map[], map[], {}, map[], map[], map[], map[], map[])

  // ---------- sizes and budgets ----------

  function MemoryBytes(p: Profile): int {
    if p.requirements.None? then 0
    else if p.requirements.value.unified > 0 then p.requirements.value.unified
    else p.requirements.value.ram
  }

  function ArtifactSize(db: Database): Id -> int {
    (id: Id) => if id in db.artifacts then db.artifacts[id].sizeBytes else 0
  }

  function DiskBytes(db: Database, p: Profile): int {
    if p.requirements.Some? && p.requirements.value.disk > 0 then p.requirements.value.disk
    else Sum(p.artifacts, ArtifactSize(db))
  }

  function MemoryBudget(node: Node): int {
    if node.budgets.unified > 0 then node.budgets.unified else node.budgets.ram
  }

  function PlacementBudget(node: Node): int {
    Max(MemoryBudget(node), node.budgets.disk)
  }

  // ---------- predicates on nodes and slots ----------

  predicate Denied(node: Node, policy: Policy) {
    node.id in policy.denyNodes || node.name in policy.denyNodes
  }

  predicate NodeUsable(node: Node, policy: Policy) {
    && node.state == Online && node.approved && !node.quarantined
    && !Denied(node, policy)
    && HasAll(node.tags, policy.requireTags)
  }

  predicate WarmSuppressed(node: Node, now: Time) {
    node.suppressed && node.suppressionUntil.Some? && node.suppressionUntil.value > now
  }

  predicate SlotAvailableForWarm(slot: Slot, profileId: Id, effective: Profile) {
    if slot.activeTaskId != "" then false
    else if slot.state == Serving then SlotProfileCurrent(slot, profileId, effective)
    else slot.state != Unavailable && slot.state != SlotError
  }

  predicate RuntimeCopyProtected(slot: Slot) {
    slot.activeTaskId != "" || slot.state == Serving || slot.state == Loading || slot.state == Warming
  }

  // ---------- candidates ----------

  function SortedSlots(db: Database): seq<Slot> {
    var keys := SortedKeys(db.slots.Keys);
    seq(|keys|, i requires 0 <= i < |keys| => assert keys[i] in keys; db.slots[keys[i]])
  }

  function PlacementScore(profileId: Id, policy: Policy, c: Candidate): int {
    (if c.node.id in policy.preferNodes || c.node.name in policy.preferNodes then 1_000_000 else 0)
    + (if SlotProfileCurrent(c.slot, profileId, c.effective) then 100_000 else 0)
    + TruncDiv(PlacementBudget(c.node), 0x4000_0000)
    - c.slot.failureCount * 100
  }

  function CandidateOrder(profileId: Id, policy: Policy): (Candidate, Candidate) -> bool {
    (a: Candidate, b: Candidate) =>
      var x, y := PlacementScore(profileId, policy, a), PlacementScore(profileId, policy, b);
      if x == y then LexLess(a.slot.id, b.slot.id) else x > y
  }

  function ExplainOrder(profileId: Id, policy: Policy): (Candidate, Candidate) -> bool {
    (a: Candidate, b: Candidate) =>
      var x, y := PlacementScore(profileId, policy, a), PlacementScore(profileId, policy, b);
      if x != y then x > y
      else if a.slot.id != b.slot.id then LexLess(a.slot.id, b.slot.id)
      else LexLess(a.effective.runtimeVariantId, b.effective.runtimeVariantId)
  }

  function VariantCandidate(profile: Profile, node: Node, slot: Slot, v: Variant): Candidate {
    var effective := EffectiveProfileForVariant(profile, v);
    Candidate(slot, node, effective, FitProfileToSlot(effective, node, slot))
  }

  function VariantCandidates(profile: Profile, node: Node, slot: Slot): seq<Candidate> {
    Map(ProfileRuntimeVariants(profile), (v: Variant) => VariantCandidate(profile, node, slot, v))
  }

  function Fits(): Candidate -> bool {
    (c: Candidate) => c.fit.fits
  }

  function SlotCandidates(db: Database, profile: Profile, policy: Policy): Slot -> seq<Candidate> {
    (slot: Slot) =>
      if slot.nodeId in db.nodes && NodeUsable(db.nodes[slot.nodeId], policy)
      then Filter(VariantCandidates(profile, db.nodes[slot.nodeId], slot), Fits())
      else []
  }

  function RawCandidates(db: Database, profile: Profile, policy: Policy): seq<Candidate> {
    FlatMap(SortedSlots(db), SlotCandidates(db, profile, policy))
  }

  function PlacementCandidates(db: Database, profile: Profile, policy: Policy): seq<Candidate> {
    StableSort(RawCandidates(db, profile, policy), CandidateOrder(profile.id, policy))
  }

  // ---------- limits and budgets against the state ----------

  function LimitReason(st: PlanState, item: Item, nodeId: Id, warm: bool): string {
    var pid := item.profile.id;
    if warm && item.policy.maxWarmProfilesPerNode > 0 && pid !in GetSet(st.nodeWarm, nodeId)
       && |GetSet(st.nodeWarm, nodeId)| >= item.policy.maxWarmProfilesPerNode
    then "per_node_warm_profile_limit"
    else if pid !in GetSet(st.nodeCache, nodeId) && item.policy.maxCachedProfilesPerNode > 0
       && |GetSet(st.nodeCache, nodeId)| >= item.policy.maxCachedProfilesPerNode
    then "per_node_cached_profile_limit"
    else ""
  }

  predicate WithinDisk(db: Database, st: PlanState, node: Node, p: Profile) {
    node.budgets.disk <= 0 || Get(st.diskUsed, node.id) + DiskBytes(db, p) <= node.budgets.disk
  }

  predicate WithinMemory(st: PlanState, node: Node, p: Profile) {
    MemoryBudget(node) <= 0 || MemoryBytes(p) <= 0 || Get(st.memoryUsed, node.id) + MemoryBytes(p) <= MemoryBudget(node)
  }

  predicate CanUse(env: Env, st: PlanState, item: Item, c: Candidate, warm: bool) {
    && !(warm && WarmSuppressed(c.node, env.now))
    && LimitReason(st, item, c.node.id, warm) == ""
    && WithinDisk(env.db, st, c.node, c.effective)
    && (!warm || WithinMemory(st, c.node, c.effective))
  }

  /** A warm copy of `item` may be placed on candidate `c` in state `st`. */
  predicate WarmOk(env: Env, st: PlanState, item: Item, c: Candidate) {
    && c.slot.id !in st.slotUsed
    && SlotAvailableForWarm(c.slot, item.profile.id, c.effective)
    && CanUse(env, st, item, c, true)
  }

  // ---------- rejection reasons ----------

  function NodeRejectionReasons(node: Node, policy: Policy): seq<string> {
    if node.id == "" then ["node_missing"]
    else
      (if node.state == Disabled || node.mode == "disabled" then ["node_disabled"]
       else if node.state == Offline then ["node_offline"]
       else if node.state != Online then ["node_not_online"] else [])
      + If(!node.approved, "node_not_approved")
      + If(node.quarantined, FAILURE_QUARANTINED)
      + If(Denied(node, policy), "node_denied")
      + If(!HasAll(node.tags, policy.requireTags), "missing_required_tags")
  }

  function BaseRejectionReasons(item: Item, c: Candidate): seq<string> {
    UniqueSorted(NodeRejectionReasons(c.node, item.policy) + if c.fit.fits then [] else c.fit.reasons)
  }

  function UnavailableReasons(slot: Slot, profileId: Id, effective: Profile): seq<string> {
    If(slot.activeTaskId != "", "slot_active_task")
    + If(slot.state == Serving && !SlotProfileCurrent(slot, profileId, effective), "slot_serving_other_profile")
    + If(slot.state == Unavailable, "slot_unavailable")
    + If(slot.state == SlotError, "slot_error")
    + (if slot.mismatchReason != "" then [slot.mismatchReason] else [])
  }

  function BudgetRejectionReasons(env: Env, st: PlanState, item: Item, c: Candidate, warm: bool): seq<string> {
    var limit := LimitReason(st, item, c.node.id, warm);
    If(warm && WarmSuppressed(c.node, env.now), FAILURE_WORKER_FLAPPING)
    + (if limit != "" then [limit] else [])
    + If(!WithinDisk(env.db, st, c.node, c.effective), "resource_exhausted_disk")
    + (if warm && !WithinMemory(st, c.node, c.effective) then
         [if c.effective.requirements.Some? && c.effective.requirements.value.unified > 0
          then "resource_exhausted_unified_memory" else "resource_exhausted_ram"]
       else [])
  }

  function HardPinRejectionReasons(env: Env, st: PlanState, item: Item, c: Candidate): seq<string> {
    UniqueSorted(BaseRejectionReasons(item, c) + BudgetRejectionReasons(env, st, item, c, true))
  }

  function WarmRejectionReasons(env: Env, st: PlanState, item: Item, c: Candidate): seq<string> {
    UniqueSorted(
      BaseRejectionReasons(item, c)
      + If(c.slot.id in st.slotUsed, "slot_already_reserved")
      + (if !SlotAvailableForWarm(c.slot, item.profile.id, c.effective)
         then UnavailableReasons(c.slot, item.profile.id, c.effective) else [])
      + BudgetRejectionReasons(env, st, item, c, true))
  }

  function CacheRejectionReasons(env: Env, st: PlanState, item: Item, c: Candidate): seq<string> {
    UniqueSorted(BaseRejectionReasons(item, c) + BudgetRejectionReasons(env, st, item, c, false))
  }

  // ---------- the explaining planner's candidates ----------

  function ExplainCandidate(profile: Profile, node: Node, nodeOk: bool, slot: Slot, v: Variant): Candidate {
    if nodeOk then VariantCandidate(profile, node, slot, v)
    else Candidate(slot, node, EffectiveProfileForVariant(profile, v), FitResult(false, ["node_missing"]))
  }

  function SlotExplainCandidates(db: Database, profile: Profile): Slot -> seq<Candidate> {
    (slot: Slot) =>
      Map(ProfileRuntimeVariants(profile), (v: Variant) =>
        ExplainCandidate(profile, NodeAt(db, slot.nodeId), slot.nodeId in db.nodes, slot, v))
  }

  function AllCandidates(db: Database, profile: Profile): seq<Candidate> {
    FlatMap(SortedSlots(db), SlotExplainCandidates(db, profile))
  }

  function ExplainCandidates(db: Database, profile: Profile, policy: Policy): seq<Candidate> {
    StableSort(AllCandidates(db, profile), ExplainOrder(profile.id, policy))
  }

  // ---------- choosing the next candidate ----------

  function First(cands: seq<Candidate>, ok: Candidate -> bool): (r: Option<Candidate>)
    ensures r.Some? ==> r.value in cands && ok(r.value)
    ensures r.None? ==> forall c :: c in cands ==> !ok(c)
  {
    if cands == [] then None else if ok(cands[0]) then Some(cands[0]) else First(cands[1..], ok)
  }

  function WarmChoice(env: Env, st: PlanState, item: Item): Candidate -> bool {
    (c: Candidate) => WarmOk(env, st, item, c)
  }

  function WarmAdmission(env: Env, st: PlanState, item: Item): Candidate -> bool {
    (c: Candidate) => WarmRejectionReasons(env, st, item, c) == []
  }

  function NextWarm(env: Env, st: PlanState, item: Item): Option<Candidate> {
    if env.explain then First(ExplainCandidates(env.db, item.profile, item.policy), WarmAdmission(env, st, item))
    else First(PlacementCandidates(env.db, item.profile, item.policy), WarmChoice(env, st, item))
  }

  /** One node is tried once: the first of its candidates decides. */
  function FirstNode(
      cands: seq<Candidate>, held: Id -> bool, ok: Candidate -> bool, seen: set<Id>): (r: Option<Candidate>)
    ensures r.Some? ==> r.value in cands && ok(r.value) && !held(r.value.node.id)
  {
    if cands == [] then None
    else
      var c := cands[0];
      if c.node.id in seen || held(c.node.id) then FirstNode(cands[1..], held, ok, seen)
      else if ok(c) then Some(c)
      else FirstNode(cands[1..], held, ok, seen + {c.node.id})
  }

  /** The explaining planner passes over candidates it does not admit before it looks at their node. */
  function FirstAdmittedNode(
      cands: seq<Candidate>, admitted: Candidate -> bool, held: Id -> bool, ok: Candidate -> bool, seen: set<Id>):
      (r: Option<Candidate>)
    ensures r.Some? ==> r.value in cands && ok(r.value) && !held(r.value.node.id)
  {
    if cands == [] then None
    else
      var c := cands[0];
      if !admitted(c) || c.node.id in seen || held(c.node.id)
      then FirstAdmittedNode(cands[1..], admitted, held, ok, seen)
      else if ok(c) then Some(c)
      else FirstAdmittedNode(cands[1..], admitted, held, ok, seen + {c.node.id})
  }

  function Admitted(item: Item): Candidate -> bool {
    (c: Candidate) => BaseRejectionReasons(item, c) == []
  }

  /** The nodes that already hold the profile. */
  function Holds(st: PlanState, pid: Id): Id -> bool {
    (n: Id) => pid in GetSet(st.nodeCache, n)
  }

  function CacheChoice(env: Env, st: PlanState, item: Item): Candidate -> bool {
    (c: Candidate) => CanUse(env, st, item, c, false)
  }

  function CacheAdmission(env: Env, st: PlanState, item: Item): Candidate -> bool {
    (c: Candidate) => CacheRejectionReasons(env, st, item, c) == []
  }

  function NextCache(env: Env, st: PlanState, item: Item): (r: Option<Candidate>)
    ensures r.Some? ==> item.profile.id !in GetSet(st.nodeCache, r.value.node.id)
  {
    if env.explain then
      FirstAdmittedNode(ExplainCandidates(env.db, item.profile, item.policy), Admitted(item),
                        Holds(st, item.profile.id),
                        CacheAdmission(env, st, item), {})
    else
      FirstNode(PlacementCandidates(env.db, item.profile, item.policy), Holds(st, item.profile.id),
                CacheChoice(env, st, item), {})
  }

  // ---------- assignments ----------

  function AssignmentId(profileId: Id, nodeId: Id, slotId: Id): Id {
    "asg_" + FoldSeparators(profileId + "_" + nodeId + "_" + slotId)
  }

  function Decimal(n: nat): string {
    if n < 10 then [('0' as int + n) as char] else Decimal(n / 10) + [('0' as int + n % 10) as char]
  }

  /** `assignmentFromFit` followed by the caller's `DesiredCached = DesiredWarm = true`. Its
      copy of the slot's mismatch reason is dead code: `DesiredWarm` is still false there. */
  function WarmAssignment(profileId: Id, effective: Profile, slot: Slot, fit: FitResult, now: Time): Assignment {
    var current := SlotProfileCurrent(slot, profileId, effective);
    var warm := current && (slot.state == Ready || slot.state == Serving);
    Assignment(
      AssignmentId(profileId, slot.nodeId, slot.id), profileId, ProfileLogicalModel(effective),
      effective.runtimeVariantId, ConcreteModelArtifactId(effective), ConcreteModelSHA256(effective),
      slot.nodeId, slot.id, true, true,
      (current && (slot.state == Cached || slot.state == Warming)) || warm, warm,
      current && slot.state == Ready && slot.activeTaskId == "" && !slot.quarantined,
      false, if fit.fits then "" else Join(fit.reasons), now)
  }

  function NodeHasArtifacts(node: Node, artifacts: seq<Id>): bool {
    artifacts != [] &&
    forall a :: a in artifacts ==> exists x :: x in node.cachedArtifacts && NormalizeSHA256(x) == NormalizeSHA256(a)
  }

  function CacheAssignment(profileId: Id, c: Candidate, now: Time): Assignment {
    Assignment(
      AssignmentId(profileId, c.node.id, "cache"), profileId, ProfileLogicalModel(c.effective),
      c.effective.runtimeVariantId, ConcreteModelArtifactId(c.effective), ConcreteModelSHA256(c.effective),
      c.node.id, "", true, false, NodeHasArtifacts(c.node, c.effective.artifacts), false, false, false, "", now)
  }

  function MissingAssignment(profileId: Id, n: int, warm: bool, now: Time): Assignment {
    Assignment(
      AssignmentId(profileId, "", "missing-" + if n < 0 then "-" + Decimal(-n) else Decimal(n)),
      profileId, "", "", "", "", "", "", true, warm, false, false, false, false, "insufficient_compatible_slots", now)
  }

  // ---------- elementary state changes ----------

  function MarkCache(db: Database, st: PlanState, pid: Id, c: Candidate): PlanState {
    var n := c.node.id;
    if pid in GetSet(st.nodeCache, n) then st
    else st.(diskUsed := st.diskUsed[n := Get(st.diskUsed, n) + DiskBytes(db, c.effective)],
             nodeCache := st.nodeCache[n := GetSet(st.nodeCache, n) + {pid}],
             cacheBy := st.cacheBy[pid := Get(st.cacheBy, pid) + 1])
  }

  /** The warm copy's slot and memory are taken, and the copy is counted. */
  function TakeSlot(st: PlanState, pid: Id, c: Candidate): PlanState {
    var n := c.node.id;
    st.(slotUsed := st.slotUsed + {c.slot.id},
        memoryUsed := st.memoryUsed[n := Get(st.memoryUsed, n) + MemoryBytes(c.effective)],
        nodeWarm := st.nodeWarm[n := GetSet(st.nodeWarm, n) + {pid}],
        warmBy := st.warmBy[pid := Get(st.warmBy, pid) + 1])
  }

  function MarkWarm(db: Database, st: PlanState, pid: Id, c: Candidate): PlanState {
    MarkCache(db, TakeSlot(st, pid, c), pid, c)
  }

  function AddAssignment(st: PlanState, a: Assignment): PlanState {
    st.(assignments := st.assignments + [a])
  }

  /** Appends warm assignment `a` of profile `pid` on candidate `c` and books its resources. */
  function BookWarm(db: Database, st: PlanState, pid: Id, c: Candidate, a: Assignment, protect: bool): PlanState {
    MarkWarm(db,
      st.(assignments := st.assignments + [a],
          protectedIds := if protect then st.protectedIds + {a.id} else st.protectedIds),
      pid, c)
  }

  function BookCache(db: Database, st: PlanState, pid: Id, c: Candidate, a: Assignment): PlanState {
    MarkCache(db, AddAssignment(st, a), pid, c)
  }

  /** A copy the placement loops could not place: reported, and counted so that the loop ends. */
  function BookMissing(st: PlanState, pid: Id, a: Assignment, warm: bool): PlanState {
    st.(assignments := st.assignments + [a],
        missing := st.missing[pid := Get(st.missing, pid) + 1],
        cacheBy := st.cacheBy[pid := Get(st.cacheBy, pid) + 1],
        warmBy := if warm then st.warmBy[pid := Get(st.warmBy, pid) + 1] else st.warmBy)
  }

  function AcceptWarm(env: Env, st: PlanState, item: Item, c: Candidate, protect: bool): PlanState {
    BookWarm(env.db, st, item.profile.id, c, WarmAssignment(item.profile.id, c.effective, c.slot, c.fit, env.now),
             protect)
  }

  function AcceptCache(env: Env, st: PlanState, item: Item, c: Candidate): PlanState {
    BookCache(env.db, st, item.profile.id, c, CacheAssignment(item.profile.id, c, env.now))
  }

  /** A hard-pinned slot that does not exist: reported, but not counted as a copy. */
  function AddMissingPin(env: Env, st: PlanState, pid: Id): PlanState {
    AddAssignment(st, MissingAssignment(pid, Get(st.missing, pid), true, env.now)).(
      missing := st.missing[pid := Get(st.missing, pid) + 1])
  }

  function AddMissing(env: Env, st: PlanState, pid: Id, warm: bool): PlanState {
    BookMissing(st, pid, MissingAssignment(pid, Get(st.missing, pid), warm, env.now), warm)
  }

  // ---------- phases ----------

  function PinCandidate(db: Database, item: Item, slot: Slot): Candidate {
    var node := NodeAt(db, slot.nodeId);
    var best := BestVariantForSlot(item.profile, node, slot);
    Candidate(slot, node, best.0, best.1)
  }

  function PlacePinned(env: Env, st: PlanState, item: Item, c: Candidate): PlanState {
    var a := WarmAssignment(item.profile.id, c.effective, c.slot, c.fit, env.now);
    if WarmSuppressed(c.node, env.now) then AddAssignment(st, a.(mismatchReason := FAILURE_WORKER_FLAPPING))
    else if HardPinRejectionReasons(env, st, item, c) != [] then
      AddAssignment(st, a.(mismatchReason := FirstNonEmpty(a.mismatchReason, "resource_exhausted_node_budget")))
    else AcceptWarm(env, st, item, c, false)
  }

  function PlaceHardPin(env: Env, st: PlanState, item: Item, pin: Id): PlanState {
    if pin !in env.db.slots then AddMissingPin(env, st, item.profile.id)
    else PlacePinned(env, st, item, PinCandidate(env.db, item, env.db.slots[pin]))
  }

  function PinsOf(): Item -> seq<(Item, Id)> {
    (item: Item) => Map(item.policy.hardPinnedSlots, (pin: Id) => (item, pin))
  }

  function PinBody(env: Env): (PlanState, (Item, Id)) -> PlanState {
    (st: PlanState, pin: (Item, Id)) => PlaceHardPin(env, st, pin.0, pin.1)
  }

  function PlaceHardPins(env: Env, st: PlanState, items: seq<Item>): PlanState {
    Fold(PinBody(env), st, FlatMap(items, PinsOf()))
  }

  /** The entry of `policyItemsByProfile`: the last item wins. */
  function ItemFor(items: seq<Item>, pid: Id): (r: Option<Item>)
    ensures r.Some? ==> r.value in items && r.value.profile.id == pid
    ensures r.None? ==> forall it :: it in items ==> it.profile.id != pid
  {
    if items == [] then None
    else if items[|items| - 1].profile.id == pid then Some(items[|items| - 1])
    else ItemFor(items[..|items| - 1], pid)
  }

  /** The variants of the profile that the slot is running. */
  function CurrentOn(profile: Profile, slot: Slot): Variant -> bool {
    (v: Variant) => SlotProfileCurrent(slot, profile.id, EffectiveProfileForVariant(profile, v))
  }

  function ProtectedCandidate(env: Env, item: Item, slot: Slot): Option<Candidate> {
    if slot.nodeId !in env.db.nodes || !NodeUsable(env.db.nodes[slot.nodeId], item.policy) then None
    else
      var vs := ProfileRuntimeVariants(item.profile);
      var k := FirstIndex(vs, CurrentOn(item.profile, slot));
      if k == |vs| then None
      else
        var c := VariantCandidate(item.profile, env.db.nodes[slot.nodeId], slot, vs[k]);
        if c.fit.fits then Some(c) else None
  }

  function PreserveSlot(env: Env, st: PlanState, items: seq<Item>, slot: Slot): PlanState {
    if !RuntimeCopyProtected(slot) || slot.id in st.slotUsed then st
    else match ItemFor(items, slot.profileId)
      case None => st
      case Some(item) =>
        match ProtectedCandidate(env, item, slot)
        case None => st
        case Some(c) => if CanUse(env, st, item, c, true) then AcceptWarm(env, st, item, c, true) else st
  }

  function PreserveBody(env: Env, items: seq<Item>): (PlanState, Slot) -> PlanState {
    (st: PlanState, slot: Slot) => PreserveSlot(env, st, items, slot)
  }

  function PreserveRuntimeCopies(env: Env, st: PlanState, items: seq<Item>): PlanState {
    Fold(PreserveBody(env, items), st, SortedSlots(env.db))
  }

  function PlaceOneWarm(env: Env, st: PlanState, item: Item): PlanState {
    match NextWarm(env, st, item)
    case None => AddMissing(env, st, item.profile.id, true)
    case Some(c) => AcceptWarm(env, st, item, c, false)
  }

  function PlaceOneCache(env: Env, st: PlanState, item: Item): PlanState {
    match NextCache(env, st, item)
    case None => AddMissing(env, st, item.profile.id, false)
    case Some(c) => AcceptCache(env, st, item, c)
  }

  function WarmCount(pid: Id): PlanState -> int {
    (st: PlanState) => Get(st.warmBy, pid)
  }

  function CacheCount(pid: Id): PlanState -> int {
    (st: PlanState) => Get(st.cacheBy, pid)
  }

  function WarmBody(env: Env, item: Item): PlanState -> PlanState {
    (st: PlanState) => PlaceOneWarm(env, st, item)
  }

  function CacheBody(env: Env, item: Item): PlanState -> PlanState {
    (st: PlanState) => PlaceOneCache(env, st, item)
  }

  lemma BookWarmCounts(db: Database, st: PlanState, pid: Id, c: Candidate, a: Assignment, protect: bool)
    ensures BookWarm(db, st, pid, c, a, protect).warmBy == st.warmBy[pid := Get(st.warmBy, pid) + 1]
  {
  }

  lemma BookCacheCounts(db: Database, st: PlanState, pid: Id, c: Candidate, a: Assignment)
    requires pid !in GetSet(st.nodeCache, c.node.id)
    ensures BookCache(db, st, pid, c, a).cacheBy == st.cacheBy[pid := Get(st.cacheBy, pid) + 1]
  {
  }

  lemma OneWarmCounts(env: Env, st: PlanState, item: Item)
    ensures PlaceOneWarm(env, st, item).warmBy == st.warmBy[item.profile.id := Get(st.warmBy, item.profile.id) + 1]
  {
    var next := NextWarm(env, st, item);
    if next.Some? {
      var c := next.value;
      BookWarmCounts(env.db, st, item.profile.id, c,
                     WarmAssignment(item.profile.id, c.effective, c.slot, c.fit, env.now), false);
    }
  }

  lemma OneCacheCounts(env: Env, st: PlanState, item: Item)
    ensures PlaceOneCache(env, st, item).cacheBy == st.cacheBy[item.profile.id := Get(st.cacheBy, item.profile.id) + 1]
  {
    var next := NextCache(env, st, item);
    if next.Some? {
      BookCacheCounts(env.db, st, item.profile.id, next.value, CacheAssignment(item.profile.id, next.value, env.now));
    }
  }

  lemma WarmBodyCounts(env: Env, item: Item)
    ensures Counts(WarmCount(item.profile.id), WarmBody(env, item))
  {
    forall st: PlanState
      ensures WarmCount(item.profile.id)(WarmBody(env, item)(st)) == WarmCount(item.profile.id)(st) + 1
    {
      OneWarmCounts(env, st, item);
    }
  }

  /** The cache loop makes progress only because a chosen node never holds the profile
      yet, so that marking it always counts the new copy. */
  lemma CacheBodyCounts(env: Env, item: Item)
    ensures Counts(CacheCount(item.profile.id), CacheBody(env, item))
  {
    forall st: PlanState
      ensures CacheCount(item.profile.id)(CacheBody(env, item)(st)) == CacheCount(item.profile.id)(st) + 1
    {
      OneCacheCounts(env, st, item);
    }
  }

  function PlaceWarmUntil(env: Env, st: PlanState, item: Item, target: int): PlanState {
    WarmBodyCounts(env, item);
    Until(WarmCount(item.profile.id), WarmBody(env, item), target, st)
  }

  function PlaceCacheUntil(env: Env, st: PlanState, item: Item, target: int): PlanState {
    CacheBodyCounts(env, item);
    Until(CacheCount(item.profile.id), CacheBody(env, item), target, st)
  }

  /** Which of the two targets of a policy a placement round works toward. */
  datatype Round = Minimum | Full

  function WarmTarget(item: Item, round: Round): int {
    if round == Minimum then item.capacity.minWarm else item.capacity.warm
  }

  function CacheTarget(item: Item, round: Round): int {
    if round == Minimum then item.capacity.minCached else item.capacity.cached
  }

  function AllWarmBody(env: Env, round: Round): (PlanState, Item) -> PlanState {
    (st: PlanState, item: Item) => PlaceWarmUntil(env, st, item, WarmTarget(item, round))
  }

  function AllCacheBody(env: Env, round: Round): (PlanState, Item) -> PlanState {
    (st: PlanState, item: Item) => PlaceCacheUntil(env, st, item, CacheTarget(item, round))
  }

  function PlaceAllWarm(env: Env, st: PlanState, items: seq<Item>, round: Round): PlanState {
    Fold(AllWarmBody(env, round), st, items)
  }

  function PlaceAllCache(env: Env, st: PlanState, items: seq<Item>, round: Round): PlanState {
    Fold(AllCacheBody(env, round), st, items)
  }

  function ItemOrder(extras: bool): (Item, Item) -> bool {
    (a: Item, b: Item) =>
      if extras && a.demand != b.demand then a.demand > b.demand
      else if a.scarcity != b.scarcity then a.scarcity < b.scarcity
      else if a.size != b.size then a.size > b.size
      else LexLess(a.profile.id, b.profile.id)
  }

  function ByNeed(items: seq<Item>): seq<Item> {
    StableSort(items, ItemOrder(false))
  }

  function ByDemand(items: seq<Item>): seq<Item> {
    StableSort(ByNeed(items), ItemOrder(true))
  }

  /** State after the pins and the preserved copies. */
  function Fixed(env: Env, items: seq<Item>): PlanState {
    PreserveRuntimeCopies(env, PlaceHardPins(env, EMPTY_STATE, items), items)
  }

  /** State after all placement rounds, before draining is marked. */
  function Placed(env: Env, items: seq<Item>): PlanState {
    var byNeed := ByNeed(items);
    var byDemand := ByDemand(items);
    var minimum := PlaceAllCache(env, PlaceAllWarm(env, Fixed(env, items), byNeed, Minimum), byNeed, Minimum);
    PlaceAllCache(env, PlaceAllWarm(env, minimum, byDemand, Full), byDemand, Full)
  }

  // ---------- draining ----------

  predicate Unblocked(a: Assignment) {
    a.mismatchReason == ""
  }

  predicate UnblockedWarm(a: Assignment) {
    a.desiredWarm && Unblocked(a)
  }

  function WarmTargets(items: seq<Item>): map<Id, int> {
    if items == [] then map[]
    else WarmTargets(items[..|items| - 1])[items[|items| - 1].profile.id := items[|items| - 1].capacity.warm]
  }

  function WarmCounts(assignments: seq<Assignment>): map<Id, int> {
    if assignments == [] then map[]
    else
      var a, rest := assignments[|assignments| - 1], WarmCounts(assignments[..|assignments| - 1]);
      if UnblockedWarm(a) then rest[a.profileId := Get(rest, a.profileId) + 1] else rest
  }

  /** A preserved copy beyond the target of its profile. */
  predicate Surplus(a: Assignment, protectedIds: set<Id>, targets: map<Id, int>, counts: map<Id, int>) {
    a.id in protectedIds && UnblockedWarm(a) && Get(counts, a.profileId) > Get(targets, a.profileId)
  }

  function Released(a: Assignment, protectedIds: set<Id>, targets: map<Id, int>, counts: map<Id, int>): map<Id, int> {
    if Surplus(a, protectedIds, targets, counts) then counts[a.profileId := Get(counts, a.profileId) - 1] else counts
  }

  function Drain(
      assignments: seq<Assignment>, protectedIds: set<Id>, targets: map<Id, int>, counts: map<Id, int>):
      (r: seq<Assignment>)
    ensures |r| == |assignments|
    decreases |assignments|
  {
    if assignments == [] then []
    else
      var a := assignments[0];
      [if Surplus(a, protectedIds, targets, counts) then a.(draining := true) else a]
      + Drain(assignments[1..], protectedIds, targets, Released(a, protectedIds, targets, counts))
  }

  function MarkDraining(st: PlanState, items: seq<Item>): PlanState {
    st.(assignments := Drain(st.assignments, st.protectedIds, WarmTargets(items), WarmCounts(st.assignments)))
  }

  // ---------- the whole plan ----------

  function Scarcity(db: Database, profile: Profile, policy: Policy): int {
    var nodes := set c | c in PlacementCandidates(db, profile, policy) :: c.node.id;
    if nodes == {} then 0x4000_0000 else |nodes|
  }

  function LargestVariant(db: Database, p: Profile, variants: seq<Variant>): int {
    if variants == [] then 0
    else
      var effective := EffectiveProfileForVariant(p, variants[|variants| - 1]);
      Max(LargestVariant(db, p, variants[..|variants| - 1]), MemoryBytes(effective) + DiskBytes(db, effective))
  }

  function PolicyItem(db: Database, policy: Policy, now: Time, cooldown: int): Item
    requires policy.profileId in db.profiles
  {
    var profile := db.profiles[policy.profileId];
    var capacity := EffectiveCapacity(db.tasks, policy, now, cooldown);
    Item(profile, policy, capacity, Scarcity(db, profile, policy),
         LargestVariant(db, profile, ProfileRuntimeVariants(profile)),
         capacity.demandQueued + capacity.demandRunning + capacity.demandSmoothed)
  }

  /** The item of a policy, when its profile exists. */
  function ItemOf(db: Database, now: Time, cooldown: int): Id -> seq<Item> {
    (key: Id) =>
      if key in db.policies && db.policies[key].profileId in db.profiles
      then [PolicyItem(db, db.policies[key], now, cooldown)] else []
  }

  function PolicyItems(db: Database, now: Time, cooldown: int): seq<Item> {
    FlatMap(SortedKeys(db.policies.Keys), ItemOf(db, now, cooldown))
  }

  function AssignmentOrder(): (Assignment, Assignment) -> bool {
    (a: Assignment, b: Assignment) =>
      if a.profileId == b.profileId then LexLess(a.slotId, b.slotId) else LexLess(a.profileId, b.profileId)
  }

  /** Marks draining and sorts. Go's final sort may order assignments of equal profile and
      slot either way; the model keeps their order, and no result below depends on it. */
  function Finish(st: PlanState, items: seq<Item>): seq<Assignment> {
    StableSort(MarkDraining(st, ByDemand(items)).assignments, AssignmentOrder())
  }

  /** `planPlacementWithCooldown`. */
  function PlanPlacement(db: Database, now: Time, cooldown: int, explain: bool): seq<Assignment> {
    var items := PolicyItems(db, now, cooldown);
    Finish(Placed(Env(db, now, explain), items), items)
  }
}
