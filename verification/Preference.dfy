/** Which candidate both planners choose, said of nodes and slots: a preferred node first, then
    a slot that already runs the profile, then the larger budget and the fewer failures, and
    the smallest slot ID among equals. */
module Preference {
  import opened Base
  import opened Model
  import opened Fit
  import opened Placement
  import opened Candidates
  import opened Explain
  import opened Divergence
  import opened Lockstep
  import opened Targets

  const GIB: int := 1_073_741_824

  /** What speaks for a candidate: the policy prefers its node, its slot runs the variant,
      the whole GiB of its node's largest budget, and the failures of its slot. */
  datatype Standing = Standing(preferred: bool, current: bool, gib: int, failures: int)

  /** The larger of memory (unified, or else RAM) and disk is `g` whole GiB, cut off toward zero. */
  predicate HasRoom(node: Node, g: int) {
    var memory := if node.budgets.unified > 0 then node.budgets.unified else node.budgets.ram;
    var room := if memory > node.budgets.disk then memory else node.budgets.disk;
    if room >= 0 then g * GIB <= room < (g + 1) * GIB else (g - 1) * GIB < room <= g * GIB
  }

  /** The slot holds this very variant of the profile: same version, names and model. */
  predicate HoldsVariant(slot: Slot, pid: Id, p: Profile) {
    && slot.profileId == pid && slot.profileVersion == (if p.version > 0 then p.version else 1)
    && slot.logicalModel == ProfileLogicalModel(p) && slot.runtimeVariantId == p.runtimeVariantId
    && (if p.artifacts == [] then slot.modelArtifactId == "" && slot.modelSha256 == NormalizeSHA256("")
        else slot.modelArtifactId == p.artifacts[0] && slot.modelSha256 == NormalizeSHA256(p.artifacts[0]))
  }

  predicate Stands(item: Item, c: Candidate, s: Standing) {
    && (s.preferred <==> c.node.id in item.policy.preferNodes || c.node.name in item.policy.preferNodes)
    && (s.current <==> HoldsVariant(c.slot, item.profile.id, c.effective))
    && HasRoom(c.node, s.gib) && s.failures == c.slot.failureCount
  }

  /** Nothing speaks more for `t`, and something speaks more for `s`. */
  predicate Outranks(s: Standing, t: Standing) {
    && (t.preferred ==> s.preferred) && (t.current ==> s.current) && s.gib >= t.gib && s.failures <= t.failures
    && s != t
  }

  /** What a preferred node, a current slot and a lower failure count make up for. */
  predicate Outweighs(s: Standing, t: Standing) {
    || (s.preferred && !t.preferred && s.failures == t.failures
        && t.gib - s.gib < if s.current || !t.current then 1_000_000 else 900_000)
    || (s.preferred && !t.preferred && s.gib == t.gib && s.current == t.current && s.failures - t.failures < 10_000)
    || (s.preferred == t.preferred && s.current && !t.current && s.failures == t.failures && t.gib - s.gib < 100_000)
    || (s.preferred == t.preferred && s.current && !t.current && s.gib == t.gib && s.failures - t.failures < 1_000)
    || (s.preferred == t.preferred && s.current == t.current && t.gib - s.gib < 100 * (t.failures - s.failures))
    || (s.preferred == t.preferred && s.current == t.current && 100 * (s.failures - t.failures) < s.gib - t.gib)
  }

  /** Candidate `d` should have been taken instead of `c`. */
  predicate Better(item: Item, d: Candidate, s: Standing, c: Candidate, t: Standing) {
    || Outranks(s, t) || Outweighs(s, t) || (s == t && LexLess(d.slot.id, c.slot.id))
  }

  // ---------- the sort keys agree with that ----------

  lemma RoomIs(node: Node, g: int)
    requires HasRoom(node, g)
    ensures TruncDiv(PlacementBudget(node), 0x4000_0000) == g
  {
    assert GIB == 0x4000_0000;
  }

  lemma VariantIsCurrent(slot: Slot, pid: Id, p: Profile)
    ensures HoldsVariant(slot, pid, p) <==> SlotProfileCurrent(slot, pid, p)
  {
  }

  lemma ScoreOf(item: Item, c: Candidate, s: Standing)
    requires Stands(item, c, s)
    ensures PlacementScore(item.profile.id, item.policy, c)
         == (if s.preferred then 1_000_000 else 0) + (if s.current then 100_000 else 0) + s.gib - 100 * s.failures
  {
    RoomIs(c.node, s.gib);
    VariantIsCurrent(c.slot, item.profile.id, c.effective);
  }

  lemma BetterComesFirst(item: Item, d: Candidate, s: Standing, c: Candidate, t: Standing)
    requires Stands(item, d, s) && Stands(item, c, t) && Better(item, d, s, c, t)
    ensures CandidateOrder(item.profile.id, item.policy)(d, c) && ExplainOrder(item.profile.id, item.policy)(d, c)
  {
    ScoreOf(item, d, s);
    ScoreOf(item, c, t);
    LexIrreflexive(c.slot.id);
  }

  // ---------- warm copies ----------

  lemma ChosenIsHead(db: Database, now: Time, explain: bool, st: PlanState, item: Item, d: Candidate)
    requires WellKeyed(db) && NextWarm(Env(db, now, explain), st, item).Some?
    requires Placeable(db, item, d) && WarmOk(Env(db, now, false), st, item, d)
    ensures var c := NextWarm(Env(db, now, explain), st, item).value;
            !CandidateOrder(item.profile.id, item.policy)(d, c) || !ExplainOrder(item.profile.id, item.policy)(d, c)
  {
    var coarse, fine := CandidateOrder(item.profile.id, item.policy), ExplainOrder(item.profile.id, item.policy);
    AdmissibleMember(db, now, st, item, d);
    CandidateOrderWeak(item.profile.id, item.policy);
    ExplainOrderWeak(item.profile.id, item.policy);
    if explain {
      ExplainedChoice(db, now, st, item);
      NotBelowHead(Admissible(db, now, st, item), fine, d);
    } else {
      PlainChoice(db, now, st, item);
      NotBelowHead(Admissible(db, now, st, item), coarse, d);
    }
  }

  /** With or without an explainer, no admissible candidate for a warm copy is better than the chosen one. */
  lemma WarmChoicePrefers(
      db: Database, now: Time, explain: bool, st: PlanState, item: Item, d: Candidate, s: Standing, t: Standing)
    requires WellKeyed(db) && NextWarm(Env(db, now, explain), st, item).Some?
    requires Placeable(db, item, d) && WarmOk(Env(db, now, false), st, item, d) && Stands(item, d, s)
    requires Stands(item, NextWarm(Env(db, now, explain), st, item).value, t)
    ensures !Better(item, d, s, NextWarm(Env(db, now, explain), st, item).value, t)
  {
    var c := NextWarm(Env(db, now, explain), st, item).value;
    if Better(item, d, s, c, t) {
      BetterComesFirst(item, d, s, c, t);
      ChosenIsHead(db, now, explain, st, item, d);
    }
  }

  /** The chosen slot is not yet taken in this plan, has no task, is not unavailable or broken,
      and if it is serving, it serves this very variant. */
  lemma WarmChoiceIsFree(env: Env, st: PlanState, item: Item)
    requires WellKeyed(env.db) && NextWarm(env, st, item).Some?
    ensures var c := NextWarm(env, st, item).value;
            && c.slot.id !in st.slotUsed && c.slot.activeTaskId == ""
            && c.slot.state != Unavailable && c.slot.state != SlotError
            && (c.slot.state == Serving ==> HoldsVariant(c.slot, item.profile.id, c.effective))
  {
    var c := NextWarm(env, st, item).value;
    NextWarmSome(env, st, item);
    VariantIsCurrent(c.slot, item.profile.id, c.effective);
  }

  // ---------- cached copies ----------

  /** In a sorted list nothing is below the first candidate of its node. */
  lemma NodeHeadLeast(
      cands: seq<Candidate>, less: (Candidate, Candidate) -> bool, upTo: (Candidate, Candidate) -> bool, d: Candidate)
    requires StrictWeakOrder(less) && (forall x, y :: upTo(x, y) <==> !less(y, x))
    requires Pairwise(cands, upTo) && d in cands
    ensures Filter(cands, OnNode(d.node.id)) != [] && !less(d, Filter(cands, OnNode(d.node.id))[0])
    ensures Filter(cands, OnNode(d.node.id))[0].node.id == d.node.id
    ensures Filter(cands, OnNode(d.node.id))[0] in cands
  {
    var here := Filter(cands, OnNode(d.node.id));
    FilterMember(cands, OnNode(d.node.id), d);
    FilterMember(cands, OnNode(d.node.id), here[0]);
    PairwiseFilter(cands, OnNode(d.node.id), upTo);
    NotBelowItself(less, d);
    var k :| 0 <= k < |here| && here[k] == d;
    if k > 0 {
      PairwiseAt(here, upTo, 0, k);
    }
  }

  /** The node of `d` is the one chosen, or it could be chosen whichever candidate decides for it. */
  ghost predicate Eligible(
      db: Database, item: Item, held: Id -> bool, ok: Candidate -> bool, c: Candidate, d: Candidate) {
    || d.node.id == c.node.id
    || (!held(d.node.id) && forall x :: Placeable(db, item, x) && x.node.id == d.node.id ==> ok(x))
  }

  lemma NodeSearchPrefers(
      db: Database, item: Item, cands: seq<Candidate>, less: (Candidate, Candidate) -> bool, held: Id -> bool,
      ok: Candidate -> bool, d: Candidate)
    requires StrictWeakOrder(less) && SortedBy(cands, less)
    requires forall x :: x in cands <==> Placeable(db, item, x)
    requires FirstNode(cands, held, ok, {}).Some? && d in cands
    requires Eligible(db, item, held, ok, FirstNode(cands, held, ok, {}).value, d)
    ensures !less(d, FirstNode(cands, held, ok, {}).value)
  {
    var c, upTo := FirstNode(cands, held, ok, {}).value, (x: Candidate, y: Candidate) => !less(y, x);
    PairwiseFrom(cands, upTo);
    NodeHeadLeast(cands, less, upTo, d);
    var first := Filter(cands, OnNode(d.node.id))[0];
    if d.node.id == c.node.id {
      FirstOfNode(cands, held, ok, {});
    } else {
      FirstNodePasses(cands, held, ok, {}, first, upTo);
    }
  }

  lemma RawMember(db: Database, item: Item, less: (Candidate, Candidate) -> bool, x: Candidate)
    requires WellKeyed(db)
    ensures x in StableSort(RawCandidates(db, item.profile, item.policy), less) <==> Placeable(db, item, x)
  {
    var raw := RawCandidates(db, item.profile, item.policy);
    CandidatesComplete(db, item, x);
    StableSortMember(raw, CandidateOrder(item.profile.id, item.policy), x);
    StableSortMember(raw, less, x);
  }

  lemma CacheChosenIsHead(db: Database, now: Time, explain: bool, st: PlanState, item: Item, d: Candidate)
    requires WellKeyed(db) && NextCache(Env(db, now, explain), st, item).Some? && Placeable(db, item, d)
    requires Eligible(db, item, Holds(st, item.profile.id), CacheChoice(Env(db, now, false), st, item),
                      NextCache(Env(db, now, explain), st, item).value, d)
    ensures var c := NextCache(Env(db, now, explain), st, item).value;
            !CandidateOrder(item.profile.id, item.policy)(d, c) || !ExplainOrder(item.profile.id, item.policy)(d, c)
  {
    var raw, held := RawCandidates(db, item.profile, item.policy), Holds(st, item.profile.id);
    var ok := CacheChoice(Env(db, now, false), st, item);
    CandidateOrderWeak(item.profile.id, item.policy);
    ExplainOrderWeak(item.profile.id, item.policy);
    var less := if explain then ExplainOrder(item.profile.id, item.policy)
                else CandidateOrder(item.profile.id, item.policy);
    if explain {
      ExplainCacheSearch(db, now, st, item);
    }
    StableSortSorted(raw, less);
    forall x ensures x in StableSort(raw, less) <==> Placeable(db, item, x) {
      RawMember(db, item, less, x);
    }
    NodeSearchPrefers(db, item, StableSort(raw, less), less, held, ok, d);
  }

  /** With or without an explainer, no candidate on the node chosen for a cached copy, and none on
      a node that would take any variant, is better than the chosen one. */
  lemma CacheChoicePrefers(
      db: Database, now: Time, explain: bool, st: PlanState, item: Item, d: Candidate, s: Standing, t: Standing)
    requires WellKeyed(db) && NextCache(Env(db, now, explain), st, item).Some? && Placeable(db, item, d)
    requires Eligible(db, item, Holds(st, item.profile.id), CacheChoice(Env(db, now, false), st, item),
                      NextCache(Env(db, now, explain), st, item).value, d)
    requires Stands(item, d, s) && Stands(item, NextCache(Env(db, now, explain), st, item).value, t)
    ensures !Better(item, d, s, NextCache(Env(db, now, explain), st, item).value, t)
  {
    var c := NextCache(Env(db, now, explain), st, item).value;
    if Better(item, d, s, c, t) {
      BetterComesFirst(item, d, s, c, t);
      CacheChosenIsHead(db, now, explain, st, item, d);
    }
  }

  // ---------- the order in which profiles are served ----------

  /** Fewer nodes to go to, then the larger size, then the smaller profile ID. */
  predicate NeedsFirst(a: Item, b: Item) {
    || a.scarcity < b.scarcity
    || (a.scarcity == b.scarcity && a.size > b.size)
    || (a.scarcity == b.scarcity && a.size == b.size && LexLess(a.profile.id, b.profile.id))
  }

  /** Higher demand, and need among equals. */
  predicate WantsFirst(a: Item, b: Item) {
    a.demand > b.demand || (a.demand == b.demand && NeedsFirst(a, b))
  }

  predicate NeedLess(c: int, z: int, s: string, c': int, z': int, s': string) {
    if c != c' then c < c' else if z != z' then z > z' else LexLess(s, s')
  }

  lemma NeedLessAsymmetric(c: int, z: int, s: string, c': int, z': int, s': string)
    requires NeedLess(c, z, s, c', z', s')
    ensures !NeedLess(c', z', s', c, z, s)
  {
    if c == c' && z == z' {
      LexAsymmetric(s, s');
    }
  }

  lemma NeedLessNegative(
      c: int, z: int, s: string, c': int, z': int, s': string, c'': int, z'': int, s'': string)
    requires !NeedLess(c, z, s, c', z', s') && !NeedLess(c', z', s', c'', z'', s'')
    ensures !NeedLess(c, z, s, c'', z'', s'')
  {
    if c == c' == c'' && z == z' == z'' {
      LexNegTransitive(s, s', s'');
    }
  }

  lemma ItemOrderIs(extras: bool, a: Item, b: Item)
    ensures ItemOrder(extras)(a, b) <==> if extras then WantsFirst(a, b) else NeedsFirst(a, b)
    ensures NeedsFirst(a, b) <==> NeedLess(a.scarcity, a.size, a.profile.id, b.scarcity, b.size, b.profile.id)
  {
  }

  lemma ItemOrderWeak(extras: bool)
    ensures StrictWeakOrder(ItemOrder(extras))
  {
    var less := ItemOrder(extras);
    forall a, b | less(a, b) ensures !less(b, a) {
      ItemOrderIs(extras, a, b);
      ItemOrderIs(extras, b, a);
      if NeedsFirst(a, b) {
        NeedLessAsymmetric(a.scarcity, a.size, a.profile.id, b.scarcity, b.size, b.profile.id);
      }
    }
    forall a, b, c | !less(a, b) && !less(b, c) ensures !less(a, c) {
      ItemOrderIs(extras, a, b);
      ItemOrderIs(extras, b, c);
      ItemOrderIs(extras, a, c);
      if !NeedsFirst(a, b) && !NeedsFirst(b, c) {
        NeedLessNegative(a.scarcity, a.size, a.profile.id, b.scarcity, b.size, b.profile.id,
                         c.scarcity, c.size, c.profile.id);
      }
    }
  }

  /** Minimum copies are placed for the profiles with the fewest nodes first, then for the largest; the
      full targets for those with the highest demand first. Every item is served in both rounds. */
  lemma ServedInOrder(items: seq<Item>, i: nat, j: nat)
    requires i < j < |items|
    ensures multiset(ByNeed(items)) == multiset(items) && multiset(ByDemand(items)) == multiset(items)
    ensures |ByNeed(items)| == |items| && !NeedsFirst(ByNeed(items)[j], ByNeed(items)[i])
    ensures |ByDemand(items)| == |items| && !WantsFirst(ByDemand(items)[j], ByDemand(items)[i])
  {
    ItemOrderWeak(false);
    ItemOrderWeak(true);
    StableSortSorted(items, ItemOrder(false));
    StableSortSorted(ByNeed(items), ItemOrder(true));
    StableSortPermutes(items, ItemOrder(false));
    StableSortPermutes(ByNeed(items), ItemOrder(true));
    assert |multiset(ByNeed(items))| == |items| && |multiset(ByDemand(items))| == |items|;
    ItemOrderIs(false, ByNeed(items)[j], ByNeed(items)[i]);
    ItemOrderIs(true, ByDemand(items)[j], ByDemand(items)[i]);
  }

  /** The nodes on which a copy of the item could be placed. */
  ghost predicate CouldGo(db: Database, item: Item, n: Id) {
    exists c :: Placeable(db, item, c) && c.node.id == n
  }

  lemma NodesOfList(db: Database, item: Item, cands: seq<Candidate>, nodes: set<Id>)
    requires forall c :: c in cands <==> Placeable(db, item, c)
    requires forall n :: n in nodes <==> CouldGo(db, item, n)
    ensures (set c | c in cands :: c.node.id) == nodes
  {
    var listed := set c | c in cands :: c.node.id;
    forall n ensures n in listed <==> n in nodes {
      if n in listed {
        var c :| c in cands && c.node.id == n;
      }
      if n in nodes {
        var c :| Placeable(db, item, c) && c.node.id == n;
        assert c in cands;
      }
    }
  }

  /** An item's scarcity counts exactly the nodes it could go to; with none it comes after all others
      of fewer than 2^30 nodes. */
  lemma ScarcityCounts(db: Database, policy: Policy, now: Time, cooldown: int, nodes: set<Id>)
    requires WellKeyed(db) && policy.profileId in db.profiles
    requires forall n :: n in nodes <==> CouldGo(db, PolicyItem(db, policy, now, cooldown), n)
    ensures PolicyItem(db, policy, now, cooldown).scarcity == if nodes == {} then 1_073_741_824 else |nodes|
  {
    var item := PolicyItem(db, policy, now, cooldown);
    forall c ensures c in PlacementCandidates(db, item.profile, item.policy) <==> Placeable(db, item, c) {
      CandidatesComplete(db, item, c);
    }
    NodesOfList(db, item, PlacementCandidates(db, item.profile, item.policy), nodes);
  }

  /** An auto-balancing item's demand is its profile's queued and running tasks and its smoothed recent
      demand; any other item has none. */
  lemma DemandCounts(db: Database, policy: Policy, now: Time, cooldown: int)
    requires policy.profileId in db.profiles
    ensures var item, pid := PolicyItem(db, policy, now, cooldown), policy.profileId;
            if !policy.autoBalance then item.demand == 0
            else
              && SmoothedDemandOf(db.tasks, pid, now, item.capacity.demandSmoothed)
              && item.demand == |WorkFor(db.tasks, pid)| + item.capacity.demandSmoothed
  {
    WorkIsCounted(db.tasks, policy.profileId);
    SmoothedIs(db.tasks, policy.profileId, now);
  }
}
