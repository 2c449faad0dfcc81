/** Reference integrity over all admin operations: profiles, updates and policies never
    refer to something that is not stored (internal/comrad/manager_admin.go,
    manager_artifact_admin.go, manager_profile_delete.go, manager_accounting_admin.go). */
module References {
  import opened Base
  import opened Traces
  import opened Model
  import opened Fit
  import opened Demand
  import opened Store

  // ---------- the invariant ----------

  /** Every artifact of every profile (all variants, normalised) and of every update is stored, and
      every policy's profile is. */
  ghost predicate Closed(db: Database) {
    && (forall p, x :: p in db.profiles && x in ProfileArtifactIds(db.profiles[p]) ==> x in db.artifacts)
    && (forall u :: u in db.updates ==> db.updates[u].artifactId in db.artifacts)
    && (forall k :: k in db.policies ==> db.policies[k].profileId in db.profiles)
  }

  // ---------- operations ----------

  datatype Outcome = Done(db: Database) | Refused(error: string)

  function Apply(db: Database, o: Outcome): Database {
    match o
    case Done(after) => after
    case Refused(_) => db
  }

  /** `upsertProfile`; whether the runtime section is valid is a parameter. */
  function UpsertProfile(db: Database, profile: Profile, runtimeValid: bool): Outcome {
    if profile.computeCost < 0 then Refused("computeCost must be non-negative")
    else if !runtimeValid then Refused("runtime invalid")
    else if exists x :: x in ProfileArtifactIds(profile) && x !in db.artifacts then Refused("artifact not found")
    else
      var version := if profile.id in db.profiles then db.profiles[profile.id].version + 1 else profile.version;
      Done(db.(profiles := db.profiles[profile.id := profile.(version := if version == 0 then 1 else version)]))
  }

  function Costed(p: Profile, cost: int): Profile {
    p.(version := p.version + 1, computeCost := cost)
  }

  function SetComputeCost(db: Database, id: Id, cost: int): Outcome {
    if id !in db.profiles then Refused("profile not found")
    else if cost < 0 then Refused("computeCost must be non-negative")
    else
      var profile := Costed(db.profiles[id], cost);
      Done(db.(profiles := db.profiles[profile.id := profile]))
  }

  function UpsertPolicy(db: Database, policy: Policy): Outcome {
    if policy.profileId !in db.profiles then Refused("profile not found")
    else if !ValidPolicy(policy) then Refused("policy invalid")
    else Done(db.(policies := db.policies[policy.id := policy]))
  }

  predicate Referenced(db: Database, artifactId: Id) {
    || (exists p :: p in db.profiles && artifactId in ProfileArtifactIds(db.profiles[p]))
    || (exists u :: u in db.updates && db.updates[u].artifactId == artifactId)
  }

  function DeleteArtifact(db: Database, id: Id): Outcome {
    if id !in db.artifacts then Refused("artifact not found")
    else if Referenced(db, id) then Refused("artifact_in_use")
    else Done(db.(artifacts := db.artifacts - {id}))
  }

  predicate LiveWork(db: Database, pid: Id) {
    || (exists t :: t in db.tasks && db.tasks[t].profileId == pid
                    && (db.tasks[t].status == Queued || db.tasks[t].status == Running))
    || (exists a :: a in db.attempts && db.attempts[a].profileId == pid && db.attempts[a].status == Running)
  }

  function WithoutProfile(db: Database, pid: Id): Database {
    db.(profiles := db.profiles - {pid},
        policies := map k | k in db.policies && db.policies[k].profileId != pid :: db.policies[k],
        assignments := map k | k in db.assignments && db.assignments[k].profileId != pid :: db.assignments[k])
  }

  function DeleteProfile(db: Database, pid: Id): Outcome {
    if pid !in db.profiles then Refused("profile not found")
    else if LiveWork(db, pid) then Refused("profile_in_use")
    else Done(WithoutProfile(db, pid))
  }

  function CreateUpdate(db: Database, update: Update): Outcome {
    if update.artifactId !in db.artifacts then Refused("artifact not found")
    else if NormalizeSHA256(db.artifacts[update.artifactId].sha256) != update.sha256 then
      Refused("artifact sha mismatch")
    else Done(db.(updates := db.updates[update.id := update]))
  }

  function StoreArtifact(db: Database, artifact: Artifact): Outcome {
    Done(db.(artifacts := db.artifacts[artifact.id := artifact]))
  }

  // ---------- every operation keeps the invariant ----------

  /** Version and cost play no part in which artifacts a profile names. */
  lemma SameArtifacts(p: Profile, version: int, cost: int)
    ensures ProfileArtifactIds(p.(version := version, computeCost := cost)) == ProfileArtifactIds(p)
  {
    assert ProfileRuntimeVariants(p.(version := version, computeCost := cost)) == ProfileRuntimeVariants(p) by {
      forall v: Variant
        ensures NormalizeVariant(p.(version := version, computeCost := cost), v) == NormalizeVariant(p, v)
      {
      }
    }
  }

  ghost predicate Sound(db: Database) {
    Closed(db) && forall p :: p in db.profiles ==> db.profiles[p].id == p
  }

  /** Storing a profile whose artifacts are all stored keeps the invariant. */
  lemma ProfileStored(db: Database, profile: Profile)
    requires Sound(db) && forall x :: x in ProfileArtifactIds(profile) ==> x in db.artifacts
    ensures Sound(db.(profiles := db.profiles[profile.id := profile]))
  {
  }

  lemma UpsertProfileSound(db: Database, profile: Profile, runtimeValid: bool)
    requires Sound(db)
    ensures Sound(Apply(db, UpsertProfile(db, profile, runtimeValid)))
  {
    var o := UpsertProfile(db, profile, runtimeValid);
    if o.Done? {
      var stored := o.db.profiles[profile.id];
      SameArtifacts(profile, stored.version, profile.computeCost);
      assert stored == profile.(version := stored.version, computeCost := profile.computeCost);
      ProfileStored(db, stored);
    }
  }

  lemma SetComputeCostSound(db: Database, id: Id, cost: int)
    requires Sound(db)
    ensures Sound(Apply(db, SetComputeCost(db, id, cost)))
  {
    if id in db.profiles && cost >= 0 {
      CostedSound(db, db.profiles[id], cost);
    }
  }

  lemma CostedSound(db: Database, p: Profile, cost: int)
    requires Sound(db) && p.id in db.profiles && db.profiles[p.id] == p
    ensures Sound(db.(profiles := db.profiles[p.id := Costed(p, cost)]))
  {
    var stored := Costed(p, cost);
    forall x | x in ProfileArtifactIds(stored) ensures x in db.artifacts {
      SameArtifacts(p, p.version + 1, cost);
      assert x in ProfileArtifactIds(db.profiles[p.id]);
    }
    ProfileStored(db, stored);
  }

  lemma DeleteArtifactSound(db: Database, id: Id)
    requires Sound(db)
    ensures Sound(Apply(db, DeleteArtifact(db, id)))
  {
  }

  lemma DeleteProfileSound(db: Database, pid: Id)
    requires Sound(db)
    ensures Sound(Apply(db, DeleteProfile(db, pid)))
  {
  }

  lemma UpsertPolicySound(db: Database, policy: Policy)
    requires Sound(db)
    ensures Sound(Apply(db, UpsertPolicy(db, policy)))
  {
  }

  lemma CreateUpdateSound(db: Database, update: Update)
    requires Sound(db)
    ensures Sound(Apply(db, CreateUpdate(db, update)))
  {
  }

  lemma StoreArtifactSound(db: Database, artifact: Artifact)
    requires Sound(db)
    ensures Sound(Apply(db, StoreArtifact(db, artifact)))
  {
  }

  /** An artifact can be deleted exactly when neither a profile's own list, nor a variant
      after normalisation, nor an update names it. */
  lemma DeletableIffUnnamed(db: Database, id: Id)
    requires id in db.artifacts && id != ""
    ensures DeleteArtifact(db, id).Done? <==>
            && (forall p :: p in db.profiles ==> id !in db.profiles[p].artifacts)
            && (forall p, v :: p in db.profiles && v in ProfileRuntimeVariants(db.profiles[p]) ==> id !in v.artifacts)
            && (forall u :: u in db.updates ==> db.updates[u].artifactId != id)
  {
    forall p | p in db.profiles
      ensures id in ProfileArtifactIds(db.profiles[p]) <==>
              id in db.profiles[p].artifacts
              || exists v :: v in ProfileRuntimeVariants(db.profiles[p]) && id in v.artifacts
    {
      ProfileArtifactIdsMember(db.profiles[p], id);
    }
  }

  // ---------- what is accepted, and what it changes ----------

  ghost predicate Unused(db: Database, pid: Id) {
    && (forall t :: t in db.tasks && db.tasks[t].profileId == pid ==>
          db.tasks[t].status != Queued && db.tasks[t].status != Running)
    && (forall a :: a in db.attempts && db.attempts[a].profileId == pid ==> db.attempts[a].status != Running)
  }

  /** The profile is gone, and with it every policy and assignment that names it, and nothing else. */
  ghost predicate ProfileGone(db: Database, db': Database, pid: Id) {
    && db' == db.(profiles := db'.profiles, policies := db'.policies, assignments := db'.assignments)
    && (forall k :: k in db'.profiles <==> k in db.profiles && k != pid)
    && (forall k :: k in db'.profiles ==> db'.profiles[k] == db.profiles[k])
    && (forall k :: k in db'.policies <==> k in db.policies && db.policies[k].profileId != pid)
    && (forall k :: k in db'.policies ==> db'.policies[k] == db.policies[k])
    && (forall k :: k in db'.assignments <==> k in db.assignments && db.assignments[k].profileId != pid)
    && (forall k :: k in db'.assignments ==> db'.assignments[k] == db.assignments[k])
  }

  /** A stored profile is deleted exactly when no queued or running task and no running attempt needs it. */
  lemma ProfileDeletion(db: Database, pid: Id)
    ensures var o := DeleteProfile(db, pid);
            if pid in db.profiles && Unused(db, pid) then o.Done? && ProfileGone(db, o.db, pid) else o.Refused?
  {
  }

  ghost predicate OnlyProfile(db: Database, db': Database, pid: Id) {
    && db' == db.(profiles := db'.profiles) && db'.profiles.Keys == db.profiles.Keys + {pid}
    && forall k :: k in db.profiles && k != pid ==> db'.profiles[k] == db.profiles[k]
  }

  /** A profile is stored exactly when its cost is not negative, its runtime section is valid and every artifact
      it or a variant names is stored; it is stored as given, under a version after the one it replaces. */
  lemma ProfileUpsert(db: Database, profile: Profile, runtimeValid: bool)
    ensures var o := UpsertProfile(db, profile, runtimeValid);
            if profile.computeCost >= 0 && runtimeValid
               && (forall x :: x in ProfileArtifactIds(profile) ==> x in db.artifacts)
            then
              o.Done? && OnlyProfile(db, o.db, profile.id) &&
              var stored := o.db.profiles[profile.id];
              && stored == profile.(version := stored.version) && stored.version != 0
              && (profile.id in db.profiles ==> stored.version > db.profiles[profile.id].version)
              && (profile.id !in db.profiles && profile.version != 0 ==> stored.version == profile.version)
            else o.Refused?
  {
  }

  /** A policy is stored exactly when its profile is and its counts are valid. */
  lemma PolicyUpsert(db: Database, policy: Policy)
    ensures var o := UpsertPolicy(db, policy);
            if policy.profileId in db.profiles && ValidPolicy(policy)
            then o.Done? && o.db == db.(policies := o.db.policies) && o.db.policies == db.policies[policy.id := policy]
            else o.Refused?
  {
  }

  /** An update is stored exactly when its artifact is and carries the update's checksum. */
  lemma UpdateCreated(db: Database, update: Update)
    ensures var o := CreateUpdate(db, update);
            if update.artifactId in db.artifacts
               && NormalizeSHA256(db.artifacts[update.artifactId].sha256) == update.sha256
            then o.Done? && o.db == db.(updates := o.db.updates) && o.db.updates == db.updates[update.id := update]
            else o.Refused?
  {
  }

  // ---------- over whole runs ----------

  datatype Operation =
    | PutProfile(profile: Profile, runtimeValid: bool)
    | PutCost(profileId: Id, cost: int)
    | PutPolicy(policy: Policy)
    | RemoveArtifact(artifactId: Id)
    | RemoveProfile(profileId: Id)
    | PutUpdate(update: Update)
    | PutArtifact(artifact: Artifact)

  function Perform(db: Database, op: Operation): Outcome {
    match op
    case PutProfile(profile, valid) => UpsertProfile(db, profile, valid)
    case PutCost(id, cost) => SetComputeCost(db, id, cost)
    case PutPolicy(policy) => UpsertPolicy(db, policy)
    case RemoveArtifact(id) => DeleteArtifact(db, id)
    case RemoveProfile(id) => DeleteProfile(db, id)
    case PutUpdate(update) => CreateUpdate(db, update)
    case PutArtifact(artifact) => StoreArtifact(db, artifact)
  }

  lemma PerformSound(db: Database, op: Operation)
    requires Sound(db)
    ensures Sound(Apply(db, Perform(db, op)))
  {
    match op
    case PutProfile(profile, valid) => UpsertProfileSound(db, profile, valid);
    case PutCost(id, cost) => SetComputeCostSound(db, id, cost);
    case PutPolicy(policy) => UpsertPolicySound(db, policy);
    case RemoveArtifact(id) => DeleteArtifactSound(db, id);
    case RemoveProfile(id) => DeleteProfileSound(db, id);
    case PutUpdate(update) => CreateUpdateSound(db, update);
    case PutArtifact(artifact) => StoreArtifactSound(db, artifact);
  }

  ghost function Always(): (Database, Operation) -> bool {
    (db: Database, op: Operation) => true
  }

  ghost function Performed(): (Database, Operation) -> Database {
    (db: Database, op: Operation) => Apply(db, Perform(db, op))
  }

  /** In every state reachable by admin operations, accepted or refused, no reference dangles. */
  lemma ReferencesHold(db: Database, db': Database)
    requires Sound(db) && Reaches(Always(), Performed(), db, db')
    ensures Sound(db')
  {
    forall z: Database, op: Operation | Sound(z) ensures Sound(Performed()(z, op)) {
      PerformSound(z, op);
    }
    ReachesKeep((z: Database) => Sound(z), Always(), Performed(), db, db');
  }

  /** Replaced, or not, but never by another record with a version that is not later. */
  predicate Succeeds(before: Profile, after: Profile) {
    after == before || after.version > before.version
  }

  ghost predicate StillNewer(db: Database, pid: Id, before: Profile) {
    pid in db.profiles && Succeeds(before, db.profiles[pid])
  }

  ghost function KeepsProfile(pid: Id): (Database, Operation) -> bool {
    (db: Database, op: Operation) => op != RemoveProfile(pid)
  }

  lemma PutKeepsVersions(db: Database, stored: Profile, pid: Id, before: Profile)
    requires StillNewer(db, pid, before) && (stored.id == pid ==> stored.version > db.profiles[pid].version)
    ensures StillNewer(db.(profiles := db.profiles[stored.id := stored]), pid, before)
  {
  }

  lemma UpsertKeepsVersions(db: Database, profile: Profile, valid: bool, pid: Id, before: Profile)
    requires StillNewer(db, pid, before)
    ensures StillNewer(Apply(db, UpsertProfile(db, profile, valid)), pid, before)
  {
    var o := UpsertProfile(db, profile, valid);
    if o.Done? {
      ProfileUpsert(db, profile, valid);
      PutKeepsVersions(db, o.db.profiles[profile.id], pid, before);
    }
  }

  lemma CostKeepsVersions(db: Database, id: Id, cost: int, pid: Id, before: Profile)
    requires Sound(db) && StillNewer(db, pid, before)
    ensures StillNewer(Apply(db, SetComputeCost(db, id, cost)), pid, before)
  {
    if id in db.profiles && cost >= 0 {
      PutKeepsVersions(db, Costed(db.profiles[id], cost), pid, before);
    }
  }

  lemma DeletionKeepsVersions(db: Database, id: Id, pid: Id, before: Profile)
    requires StillNewer(db, pid, before) && id != pid
    ensures StillNewer(Apply(db, DeleteProfile(db, id)), pid, before)
  {
  }

  lemma PerformKeepsVersions(db: Database, op: Operation, pid: Id, before: Profile)
    requires Sound(db) && StillNewer(db, pid, before) && op != RemoveProfile(pid)
    ensures StillNewer(Apply(db, Perform(db, op)), pid, before)
  {
    match op
    case PutProfile(profile, valid) => UpsertKeepsVersions(db, profile, valid, pid, before);
    case PutCost(id, cost) => CostKeepsVersions(db, id, cost, pid, before);
    case RemoveProfile(id) => DeletionKeepsVersions(db, id, pid, before);
    case _ =>
  }

  /** Over every run of admin operations that does not delete it, a profile is the same record as
      before or has a later version: no two contents share a version. */
  lemma VersionsGrow(db: Database, db': Database, pid: Id)
    requires Sound(db) && pid in db.profiles && Reaches(KeepsProfile(pid), Performed(), db, db')
    ensures pid in db'.profiles && Succeeds(db.profiles[pid], db'.profiles[pid])
  {
    var before := db.profiles[pid];
    var inv := (z: Database) => Sound(z) && StillNewer(z, pid, before);
    forall z: Database, op: Operation | inv(z) && KeepsProfile(pid)(z, op) ensures inv(Performed()(z, op)) {
      PerformSound(z, op);
      PerformKeepsVersions(z, op, pid, before);
    }
    ReachesKeep(inv, KeepsProfile(pid), Performed(), db, db');
  }

  // ---------- the operations as they run ----------

  method ArtifactDeleteBlocked(db: Database, id: Id) returns (blocked: bool)
    ensures blocked <==> Referenced(db, id)
  {
    blocked := UsedByProfile(db.profiles, id);
    if blocked {
      return;
    }
    blocked := UsedByUpdate(db.updates, id);
  }

  method UsedByProfile(profiles: map<Id, Profile>, id: Id) returns (used: bool)
    ensures used <==> exists p :: p in profiles && id in ProfileArtifactIds(profiles[p])
  {
    var todo := profiles.Keys;
    while todo != {}
      invariant todo <= profiles.Keys
      invariant forall p :: p in profiles && p !in todo ==> id !in ProfileArtifactIds(profiles[p])
      decreases |todo|
    {
      var p :| p in todo;
      todo := todo - {p};
      if id in ProfileArtifactIds(profiles[p]) {
        return true;
      }
    }
    return false;
  }

  method UsedByUpdate(updates: map<Id, Update>, id: Id) returns (used: bool)
    ensures used <==> exists u :: u in updates && updates[u].artifactId == id
  {
    var todo := updates.Keys;
    while todo != {}
      invariant todo <= updates.Keys
      invariant forall u :: u in updates && u !in todo ==> updates[u].artifactId != id
      decreases |todo|
    {
      var u :| u in todo;
      todo := todo - {u};
      if updates[u].artifactId == id {
        return true;
      }
    }
    return false;
  }

  method DeleteArtifactRecord(store: Store, id: Id) returns (ok: bool)
    modifies store
    ensures ok <==> DeleteArtifact(old(store.db), id).Done?
    ensures store.db == Apply(old(store.db), DeleteArtifact(old(store.db), id))
  {
    if id !in store.db.artifacts {
      return false;
    }
    var blocked := ArtifactDeleteBlocked(store.db, id);
    if blocked {
      return false;
    }
    store.db := store.db.(artifacts := store.db.artifacts - {id});
    return true;
  }

  method ProfileHasLiveWork(db: Database, pid: Id) returns (live: bool)
    ensures live <==> LiveWork(db, pid)
  {
    var tasks := db.tasks.Keys;
    while tasks != {}
      invariant tasks <= db.tasks.Keys
      invariant forall t :: t in db.tasks && t !in tasks ==>
                  !(db.tasks[t].profileId == pid && (db.tasks[t].status == Queued || db.tasks[t].status == Running))
      decreases |tasks|
    {
      var t :| t in tasks;
      tasks := tasks - {t};
      if db.tasks[t].profileId == pid && (db.tasks[t].status == Queued || db.tasks[t].status == Running) {
        return true;
      }
    }
    var attempts := db.attempts.Keys;
    while attempts != {}
      invariant attempts <= db.attempts.Keys
      invariant forall a :: a in db.attempts && a !in attempts ==>
                  !(db.attempts[a].profileId == pid && db.attempts[a].status == Running)
      decreases |attempts|
    {
      var a :| a in attempts;
      attempts := attempts - {a};
      if db.attempts[a].profileId == pid && db.attempts[a].status == Running {
        return true;
      }
    }
    return false;
  }

  method RemovePolicies(store: Store, pid: Id)
    modifies store
    ensures store.db == old(store.db).(
              policies := map k | k in old(store.db).policies && old(store.db).policies[k].profileId != pid
                          :: old(store.db).policies[k])
  {
    ghost var before := store.db;
    var todo := store.db.policies.Keys;
    while todo != {}
      invariant store.db == before.(policies := store.db.policies) && todo <= before.policies.Keys
      invariant store.db.policies
             == map k | k in before.policies && (k in todo || before.policies[k].profileId != pid) :: before.policies[k]
      decreases |todo|
    {
      var id :| id in todo;
      todo := todo - {id};
      if store.db.policies[id].profileId == pid {
        store.db := store.db.(policies := store.db.policies - {id});
      }
    }
  }

  method RemoveAssignments(store: Store, pid: Id)
    modifies store
    ensures store.db == old(store.db).(
              assignments := map k | k in old(store.db).assignments && old(store.db).assignments[k].profileId != pid
                             :: old(store.db).assignments[k])
  {
    ghost var before := store.db;
    var todo := store.db.assignments.Keys;
    while todo != {}
      invariant store.db == before.(assignments := store.db.assignments) && todo <= before.assignments.Keys
      invariant store.db.assignments
             == map k | k in before.assignments && (k in todo || before.assignments[k].profileId != pid)
                :: before.assignments[k]
      decreases |todo|
    {
      var id :| id in todo;
      todo := todo - {id};
      if store.db.assignments[id].profileId == pid {
        store.db := store.db.(assignments := store.db.assignments - {id});
      }
    }
  }

  method DeleteStoredProfile(store: Store, pid: Id) returns (ok: bool)
    modifies store
    ensures ok <==> DeleteProfile(old(store.db), pid).Done?
    ensures store.db == Apply(old(store.db), DeleteProfile(old(store.db), pid))
    ensures ok <==> pid in old(store.db).profiles && Unused(old(store.db), pid)
    ensures ok ==> ProfileGone(old(store.db), store.db, pid)
  {
    ProfileDeletion(store.db, pid);
    if pid !in store.db.profiles {
      return false;
    }
    var live := ProfileHasLiveWork(store.db, pid);
    if live {
      return false;
    }
    store.db := store.db.(profiles := store.db.profiles - {pid});
    RemovePolicies(store, pid);
    RemoveAssignments(store, pid);
    return true;
  }

  method UpsertStoredProfile(store: Store, profile: Profile, runtimeValid: bool) returns (ok: bool)
    modifies store
    ensures ok <==> UpsertProfile(old(store.db), profile, runtimeValid).Done?
    ensures store.db == Apply(old(store.db), UpsertProfile(old(store.db), profile, runtimeValid))
  {
    if profile.computeCost < 0 || !runtimeValid {
      return false;
    }
    var ids := ProfileArtifactIds(profile);
    for i := 0 to |ids|
      invariant forall j :: 0 <= j < i ==> ids[j] in store.db.artifacts
    {
      if ids[i] !in store.db.artifacts {
        return false;
      }
    }
    var stored := profile;
    if profile.id in store.db.profiles {
      stored := stored.(version := store.db.profiles[profile.id].version + 1);
    }
    if stored.version == 0 {
      stored := stored.(version := 1);
    }
    store.db := store.db.(profiles := store.db.profiles[stored.id := stored]);
    return true;
  }
}
