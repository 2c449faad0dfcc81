/** The records the manager stores, as values. Free-form status strings become
    datatypes with an escape constructor, pointers become options. */
module Model {
  import opened Base

  datatype NodeState = Expected | Registered | Online | Offline | Disabled | NodeError | OtherNodeState(name: string)

  datatype SlotState =
    | Unavailable | Idle | DownloadQueued | Downloading | Cached | Loading | Warming
    | Ready | Serving | SlotError | OtherSlotState(name: string)

  datatype TaskStatus = Queued | Running | Completed | Failed | Cancelled | OtherStatus(name: string)

  datatype Budget = Budget(ram: int, vram: int, unified: int, disk: int)

  datatype FlapEvent = FlapEvent(kind: string, at: Time)

  datatype Node = Node(
    id: Id, ownerUserId: Id, name: string, mode: string, tags: seq<string>, state: NodeState,
    adapters: seq<string>, budgets: Budget, cachedArtifacts: seq<Id>, approved: bool,
    lastFailure: string, lastFailureAt: Option<Time>,
    quarantined: bool, quarantineReason: string, quarantineUntil: Option<Time>,
    flapEvents: seq<FlapEvent>, suppressed: bool, suppressionReason: string, suppressionUntil: Option<Time>,
    connectedSession: Id)

  datatype Slot = Slot(
    id: Id, nodeId: Id, target: string, adapter: string, resources: Budget, state: SlotState,
    profileId: Id, profileVersion: int, logicalModel: string, runtimeVariantId: Id,
    modelArtifactId: Id, modelSha256: string, activeTaskId: Id, acceptsNew: bool, mismatchReason: string,
    lastReady: Time, lastTaskAt: Time,
    failureCount: int, failureCounters: map<string, int>, lastFailure: string, lastFailureAt: Option<Time>,
    quarantined: bool, quarantineReason: string, quarantineUntil: Option<Time>)

  datatype Requirements = Requirements(
    target: string, adapter: string, ram: int, vram: int, unified: int, disk: int, requireTags: seq<string>)

  datatype Variant = Variant(
    id: Id, target: string, adapter: string, artifacts: seq<Id>, requirements: Option<Requirements>,
    llm: Option<int>, args: seq<string>)

  datatype Profile = Profile(
    id: Id, version: int, name: string, alias: string, logicalModel: string, runtimeVariantId: Id,
    kind: string, adapter: string, artifacts: seq<Id>, requirements: Option<Requirements>, llm: Option<int>,
    args: seq<string>, variants: seq<Variant>, computeCost: int)

  datatype Policy = Policy(
    id: Id, profileId: Id, cachedCount: int, warmCount: int, autoBalance: bool,
    minCachedCount: int, maxCachedCount: int, minWarmCount: int, maxWarmCount: int,
    maxCachedProfilesPerNode: int, maxWarmProfilesPerNode: int,
    requireTags: seq<string>, preferNodes: seq<string>, denyNodes: seq<string>, hardPinnedSlots: seq<Id>)

  datatype Assignment = Assignment(
    id: Id, profileId: Id, logicalModel: string, runtimeVariantId: Id, modelArtifactId: Id, modelSha256: string,
    nodeId: Id, slotId: Id, desiredCached: bool, desiredWarm: bool, actualCached: bool, actualWarm: bool,
    ready: bool, draining: bool, mismatchReason: string, updatedAt: Time)

  datatype Artifact = Artifact(id: Id, sha256: string, sizeBytes: int)

  datatype Task = Task(
    id: Id, userId: Id, profileId: Id, profileVersion: int, logicalModel: string, runtimeVariantId: Id,
    computeCost: int, failedSlots: seq<Id>, status: TaskStatus, failureReason: string, stream: bool,
    createdAt: Time, updatedAt: Time, completedAt: Option<Time>)

  datatype Attempt = Attempt(
    id: Id, taskId: Id, userId: Id, nodeId: Id, slotId: Id, profileId: Id, profileVersion: int,
    logicalModel: string, runtimeVariantId: Id, adapter: string, computeCost: int, status: TaskStatus,
    phase: string, failureReason: string, canRetry: bool, firstOutputSent: bool,
    startedAt: Time, completedAt: Option<Time>)

  datatype Report = Report(
    id: Id, taskId: Id, attemptId: Id, userId: Id, nodeId: Id, slotId: Id, profileId: Id, profileVersion: int,
    logicalModel: string, runtimeVariantId: Id, adapter: string, computeCost: int, status: TaskStatus,
    phase: string, failureReason: string, canRetry: bool)

  datatype Direction = Debit | Credit

  datatype LedgerKind = ConsumeCompute | ProduceCompute | AdminAdjustment

  /** Entry IDs are generated and carry no meaning, so they are not part of the record. */
  datatype LedgerEntry = LedgerEntry(
    kind: LedgerKind, userId: Id, taskId: Id, attemptId: Id, reportId: Id, nodeId: Id, slotId: Id,
    profileId: Id, profileVersion: int, computeCost: int, amount: int, direction: Direction, reason: string,
    createdAt: Time)

  datatype User = User(id: Id, name: string, balance: int, disabled: bool)

  datatype Update = Update(id: Id, artifactId: Id, sha256: string, targetNodes: seq<Id>)

  datatype IntentAction = Keep | EvictWhenIdle

  datatype Database = Database(
    nodes: map<Id, Node>, slots: map<Id, Slot>, profiles: map<Id, Profile>, policies: map<Id, Policy>,
    artifacts: map<Id, Artifact>, assignments: map<Id, Assignment>, tasks: map<Id, Task>,
    attempts: map<Id, Attempt>, reports: map<Id, Report>, users: map<Id, User>, ledger: seq<LedgerEntry>,
    updates: map<Id, Update>, cacheIntents: map<Id, IntentAction>)

  // ---------- zero values: what a Go map lookup yields for a missing key ----------

  const ZERO_BUDGET := Budget(0, 0, 0, 0)

  const ZERO_NODE := Node(
    "", "", "", "", [], OtherNodeState(""), [], ZERO_BUDGET, [], false, "", None,
    false, "", None, [], false, "", None, "")

  const ZERO_SLOT := Slot(
    "", "", "", "", ZERO_BUDGET, OtherSlotState(""), "", 0, "", "", "", "", "", false, "", 0, 0,
    0, map[], "", None, false, "", None)

  const ZERO_TASK := Task("", "", "", 0, "", "", 0, [], OtherStatus(""), "", false, 0, 0, None)

  function NodeAt(db: Database, id: Id): Node {
    if id in db.nodes then db.nodes[id] else ZERO_NODE
  }

  function SlotAt(db: Database, id: Id): Slot {
    if id in db.slots then db.slots[id] else ZERO_SLOT
  }

  function TaskAt(db: Database, id: Id): Task {
    if id in db.tasks then db.tasks[id] else ZERO_TASK
  }

  /** Every record is stored under its own, non-empty ID. */
  ghost predicate WellKeyed(db: Database) {
    && (forall k :: k in db.nodes ==> db.nodes[k].id == k && k != "")
    && (forall k :: k in db.slots ==> db.slots[k].id == k && k != "")
    && (forall k :: k in db.profiles ==> db.profiles[k].id == k && k != "")
    && (forall k :: k in db.policies ==> db.policies[k].id == k && k != "")
  }

  // ---------- small string helpers ----------

  const FAILURE_QUARANTINED := "quarantined"
  const FAILURE_WORKER_FLAPPING := "worker_flapping"
  const FAILURE_WORKER_DISCONNECTED := "worker_disconnected"
  const FAILURE_RUNTIME_ERROR := "runtime_error"
  const FAILURE_CANCELLED_BY_CLIENT := "cancelled_by_client"
  const FAILURE_NO_CAPACITY := "no_capacity"

  function FirstNonEmpty(a: string, b: string): string {
    if a != "" then a else b
  }

  function FirstNonZero(a: int, b: int): int {
    if a != 0 then a else b
  }

  function AppendUnique(items: seq<string>, item: string): seq<string> {
    if item == "" || item in items then items else items + [item]
  }

  predicate HasAll(list: seq<string>, required: seq<string>) {
    forall r :: r in required ==> r in list
  }

  function Join(items: seq<string>): string {
    if items == [] then "" else if |items| == 1 then items[0] else items[0] + "," + Join(items[1..])
  }

  /** `strings.NewReplacer("/", "_", ":", "_")`. */
  function FoldSeparators(s: string): string {
    seq(|s|, i requires 0 <= i < |s| => if s[i] == '/' || s[i] == ':' then '_' else s[i])
  }

  predicate IsSpace(c: char) {
    c == ' ' || c == '\t' || c == '\n' || c == '\r'
  }

  function TrimLeft(s: string): string {
    if s != "" && IsSpace(s[0]) then TrimLeft(s[1..]) else s
  }

  function TrimRight(s: string): string {
    if s != "" && IsSpace(s[|s| - 1]) then TrimRight(s[..|s| - 1]) else s
  }

  function LowerCase(s: string): string {
    seq(|s|, i requires 0 <= i < |s| => if 'A' <= s[i] <= 'Z' then s[i] - 'A' + 'a' else s[i])
  }

  function NormalizeSHA256(s: string): string {
    var t := TrimRight(TrimLeft(LowerCase(s)));
    if t == "" then "" else if "sha256:" <= t then t else "sha256:" + t
  }
}
