/** When the two planners choose differently: exactly when another admissible variant, equally
    scored on the chosen slot, has a smaller ID. A database on which the plans differ. */
module Divergence {
  import opened Base
  import opened Model
  import opened Fit
  import opened Demand
  import opened Placement
  import opened Candidates
  import opened Explain
  import PlanTerms
  import PlannerLoops

  // ---------- heads of stable sorts ----------

  /** The head of a stable sort: nothing is below it, and everything before it in the input is above it. */
  lemma {:induction false} SortHead<T(!new)>(s: seq<T>, less: (T, T) -> bool) returns (k: nat)
    requires StrictWeakOrder(less) && s != []
    ensures k < |s| && StableSort(s, less) != [] && StableSort(s, less)[0] == s[k]
    ensures forall j :: 0 <= j < |s| ==> !less(s[j], s[k])
    ensures forall j :: 0 <= j < k ==> less(s[k], s[j])
  {
    var rest := s[1..];
    NotBelowItself(less, s[0]);
    if rest == [] {
      k := 0;
    } else {
      var m := SortHead(rest, less);
      var head := StableSort(rest, less)[0];
      assert head == s[m + 1];
      forall j | 0 <= j < |s| ensures !less(s[j], head) || (j == 0 && less(s[0], head)) {
        if j > 0 {
          assert s[j] == rest[j - 1];
        }
      }
      if less(head, s[0]) {
        k := m + 1;
        forall j | 0 <= j < k ensures less(s[k], s[j]) {
          if j > 0 {
            assert s[j] == rest[j - 1];
          }
        }
      } else {
        k := 0;
        forall j | 0 <= j < |s| ensures !less(s[j], s[0]) {
          if j > 0 {
            assert s[j] == rest[j - 1];
          }
        }
      }
    }
  }

  /** Both sorts have the same head exactly when the finer order puts nothing below the coarse head. */
  lemma SameHead<T(!new)>(s: seq<T>, coarse: (T, T) -> bool, fine: (T, T) -> bool)
    requires StrictWeakOrder(coarse) && StrictWeakOrder(fine) && s != []
    requires forall a, b :: coarse(a, b) ==> fine(a, b)
    ensures StableSort(s, coarse) != [] && StableSort(s, fine) != []
    ensures StableSort(s, coarse)[0] == StableSort(s, fine)[0] <==>
            forall x :: x in s ==> !fine(x, StableSort(s, coarse)[0])
  {
    var k := SortHead(s, coarse);
    var m := SortHead(s, fine);
    var c, e := s[k], s[m];
    if forall x :: x in s ==> !fine(x, c) {
      assert s[k] in s && s[m] in s;
      assert k == m;
    }
    if c == e {
      forall x | x in s ensures !fine(x, c) {
        var j :| 0 <= j < |s| && s[j] == x;
      }
    }
  }

  function Head<T>(s: seq<T>): Option<T> {
    if s == [] then None else Some(s[0])
  }

  lemma {:induction false} FirstIsHead(cands: seq<Candidate>, ok: Candidate -> bool)
    ensures First(cands, ok) == Head(Filter(cands, ok))
  {
    if cands != [] {
      FirstIsHead(cands[1..], ok);
      FilterCons(cands[0], cands[1..], ok);
      assert cands == [cands[0]] + cands[1..];
    }
  }

  // ---------- the two choices ----------

  /** The candidates a warm copy may be placed on, in the order of slots and variants. */
  function Admissible(db: Database, now: Time, st: PlanState, item: Item): seq<Candidate> {
    Filter(RawCandidates(db, item.profile, item.policy), WarmChoice(Env(db, now, false), st, item))
  }

  lemma AdmissibleMember(db: Database, now: Time, st: PlanState, item: Item, c: Candidate)
    requires WellKeyed(db)
    ensures c in Admissible(db, now, st, item) <==> Placeable(db, item, c) && WarmOk(Env(db, now, false), st, item, c)
  {
    var raw := RawCandidates(db, item.profile, item.policy);
    CandidatesComplete(db, item, c);
    StableSortMember(raw, CandidateOrder(item.profile.id, item.policy), c);
    FilterMember(raw, WarmChoice(Env(db, now, false), st, item), c);
  }

  lemma PlainChoice(db: Database, now: Time, st: PlanState, item: Item)
    ensures NextWarm(Env(db, now, false), st, item)
         == Head(StableSort(Admissible(db, now, st, item), CandidateOrder(item.profile.id, item.policy)))
  {
    var plain, less := Env(db, now, false), CandidateOrder(item.profile.id, item.policy);
    var ok := WarmChoice(plain, st, item);
    CandidateOrderWeak(item.profile.id, item.policy);
    FilterStableSort(RawCandidates(db, item.profile, item.policy), ok, less);
    FirstIsHead(PlacementCandidates(db, item.profile, item.policy), ok);
  }

  /** The explainer's candidates without base reasons are the planner's, sorted by the finer order. */
  lemma AdmittedSorted(db: Database, item: Item)
    requires WellKeyed(db)
    ensures Filter(ExplainCandidates(db, item.profile, item.policy), Admitted(item))
         == StableSort(RawCandidates(db, item.profile, item.policy), ExplainOrder(item.profile.id, item.policy))
  {
    ExplainOrderWeak(item.profile.id, item.policy);
    RawFiltered(db, item);
    FilterStableSort(AllCandidates(db, item.profile), Admitted(item), ExplainOrder(item.profile.id, item.policy));
  }

  lemma ExplainSearch(db: Database, now: Time, st: PlanState, item: Item)
    requires WellKeyed(db)
    ensures NextWarm(Env(db, now, true), st, item)
         == First(Filter(ExplainCandidates(db, item.profile, item.policy), Admitted(item)),
                  WarmChoice(Env(db, now, false), st, item))
  {
    var env, plain := Env(db, now, true), Env(db, now, false);
    var cands := ExplainCandidates(db, item.profile, item.policy);
    var ok, both := WarmChoice(plain, st, item), WarmAdmission(env, st, item);
    forall c | c in cands ensures both(c) == (Admitted(item)(c) && ok(c)) {
      ExplainedAllHonest(db, item, c);
      NoWarmReasons(env, st, item, c);
    }
    FirstFiltered(cands, Admitted(item), ok, both);
  }

  lemma ExplainedChoice(db: Database, now: Time, st: PlanState, item: Item)
    requires WellKeyed(db)
    ensures NextWarm(Env(db, now, true), st, item)
         == Head(StableSort(Admissible(db, now, st, item), ExplainOrder(item.profile.id, item.policy)))
  {
    var raw, less := RawCandidates(db, item.profile, item.policy), ExplainOrder(item.profile.id, item.policy);
    var ok := WarmChoice(Env(db, now, false), st, item);
    ExplainSearch(db, now, st, item);
    AdmittedSorted(db, item);
    ExplainOrderWeak(item.profile.id, item.policy);
    FilterStableSort(raw, ok, less);
    FirstIsHead(StableSort(raw, less), ok);
  }

  /** Candidate `d` is on the slot of `c`, scores the same, and its variant has the smaller ID. */
  predicate Shadows(item: Item, d: Candidate, c: Candidate) {
    && d.slot.id == c.slot.id
    && PlacementScore(item.profile.id, item.policy, d) == PlacementScore(item.profile.id, item.policy, c)
    && LexLess(d.effective.runtimeVariantId, c.effective.runtimeVariantId)
  }

  lemma FinerMeansShadows(item: Item, d: Candidate, c: Candidate)
    requires !CandidateOrder(item.profile.id, item.policy)(d, c)
    ensures ExplainOrder(item.profile.id, item.policy)(d, c) <==> Shadows(item, d, c)
  {
  }

  /** The two planners choose the same candidate for a warm copy exactly when no admissible
      candidate shadows the one chosen without an explainer. */
  lemma ChoicesAgree(db: Database, now: Time, st: PlanState, item: Item)
    requires WellKeyed(db)
    ensures var plain, explained := NextWarm(Env(db, now, false), st, item), NextWarm(Env(db, now, true), st, item);
            && (plain.None? <==> explained.None?)
            && (plain.Some? ==>
                  (explained == plain <==>
                   forall d :: Placeable(db, item, d) && WarmOk(Env(db, now, false), st, item, d) ==>
                     !Shadows(item, d, plain.value)))
  {
    var pid, policy, admissible := item.profile.id, item.policy, Admissible(db, now, st, item);
    PlainChoice(db, now, st, item);
    ExplainedChoice(db, now, st, item);
    if admissible != [] {
      CandidateOrderWeak(pid, policy);
      ExplainOrderWeak(pid, policy);
      SameHead(admissible, CandidateOrder(pid, policy), ExplainOrder(pid, policy));
      var c := StableSort(admissible, CandidateOrder(pid, policy))[0];
      forall d ensures d in admissible && ExplainOrder(pid, policy)(d, c) <==>
                       Placeable(db, item, d) && WarmOk(Env(db, now, false), st, item, d) && Shadows(item, d, c)
      {
        AdmissibleMember(db, now, st, item, d);
        if d in admissible {
          NotBelowHead(admissible, CandidateOrder(pid, policy), d);
          FinerMeansShadows(item, d, c);
        }
      }
    }
  }

  lemma NotBelowHead<T(!new)>(s: seq<T>, less: (T, T) -> bool, x: T)
    requires StrictWeakOrder(less) && x in s
    ensures StableSort(s, less) != [] && !less(x, StableSort(s, less)[0])
  {
    var k := SortHead(s, less);
    var j :| 0 <= j < |s| && s[j] == x;
  }

  /** For any database: when an admissible candidate shadows the choice, the explaining planner
      takes a variant with a smaller ID on the same slot. */
  lemma OutOfOrderDiverges(db: Database, now: Time, st: PlanState, item: Item, c: Candidate, d: Candidate)
    requires WellKeyed(db) && NextWarm(Env(db, now, false), st, item) == Some(c)
    requires Placeable(db, item, d) && WarmOk(Env(db, now, false), st, item, d) && Shadows(item, d, c)
    ensures var explained := NextWarm(Env(db, now, true), st, item);
            explained.Some? && Shadows(item, explained.value, c)
  {
    var pid, policy, admissible := item.profile.id, item.policy, Admissible(db, now, st, item);
    PlainChoice(db, now, st, item);
    ExplainedChoice(db, now, st, item);
    CandidateOrderWeak(pid, policy);
    ExplainOrderWeak(pid, policy);
    AdmissibleMember(db, now, st, item, d);
    NotBelowHead(admissible, ExplainOrder(pid, policy), d);
    var e := StableSort(admissible, ExplainOrder(pid, policy))[0];
    StableSortMember(admissible, ExplainOrder(pid, policy), e);
    NotBelowHead(admissible, CandidateOrder(pid, policy), e);
    NotBelowHead(admissible, CandidateOrder(pid, policy), d);
    FinerMeansShadows(item, d, c);
    assert ExplainOrder(pid, policy)(e, c);
    FinerMeansShadows(item, e, c);
  }

  // ---------- a plan with one copy ----------

  lemma WarmUntilDone(env: Env, st: PlanState, item: Item, target: int)
    requires Get(st.warmBy, item.profile.id) >= target
    ensures PlaceWarmUntil(env, st, item, target) == st
  {
    WarmBodyCounts(env, item);
  }

  lemma CacheUntilDone(env: Env, st: PlanState, item: Item, target: int)
    requires Get(st.cacheBy, item.profile.id) >= target
    ensures PlaceCacheUntil(env, st, item, target) == st
  {
    CacheBodyCounts(env, item);
  }

  lemma FoldOne<S, X>(f: (S, X) -> S, s: S, x: X)
    ensures Fold(f, s, [x]) == f(s, x)
  {
    assert [x][1..] == [];
  }

  lemma RoundsOfOne(env: Env, st: PlanState, item: Item, round: Round)
    ensures PlaceAllWarm(env, st, [item], round) == PlaceWarmUntil(env, st, item, WarmTarget(item, round))
    ensures PlaceAllCache(env, st, [item], round) == PlaceCacheUntil(env, st, item, CacheTarget(item, round))
  {
    FoldOne(AllWarmBody(env, round), st, item);
    FoldOne(AllCacheBody(env, round), st, item);
  }

  lemma FirstCopy(env: Env, item: Item, c: Candidate)
    requires NextWarm(env, EMPTY_STATE, item) == Some(c)
    ensures var st := AcceptWarm(env, EMPTY_STATE, item, c, false);
            && PlaceWarmUntil(env, EMPTY_STATE, item, 1) == st
            && Get(st.warmBy, item.profile.id) == 1 && Get(st.cacheBy, item.profile.id) == 1
            && st.assignments == [WarmAssignment(item.profile.id, c.effective, c.slot, c.fit, env.now)]
  {
    var pid, st := item.profile.id, AcceptWarm(env, EMPTY_STATE, item, c, false);
    PlanTerms.BookWarmEffect(env.db, EMPTY_STATE, pid, c, WarmAssignment(pid, c.effective, c.slot, c.fit, env.now),
                             false);
    PlannerLoops.WarmUnfold(env, EMPTY_STATE, item, 1);
    WarmUntilDone(env, st, item, 1);
  }

  lemma SortOne<T>(x: T, less: (T, T) -> bool)
    ensures StableSort([x], less) == [x]
  {
    assert [x][1..] == [];
  }

  lemma OneInOrder(item: Item)
    ensures ByNeed([item]) == [item] && ByDemand([item]) == [item]
  {
    SortOne(item, ItemOrder(false));
    SortOne(item, ItemOrder(true));
  }

  predicate AllTargetsOne(item: Item) {
    item.capacity.minWarm == item.capacity.warm == item.capacity.minCached == item.capacity.cached == 1
  }

  /** A pair of rounds whose warm loop ends with one copy, which is cached too. */
  lemma PairOfRounds(env: Env, start: PlanState, st: PlanState, item: Item, round: Round)
    requires AllTargetsOne(item) && PlaceWarmUntil(env, start, item, 1) == st
    requires Get(st.cacheBy, item.profile.id) == 1
    ensures PlaceAllCache(env, PlaceAllWarm(env, start, [item], round), [item], round) == st
  {
    RoundsOfOne(env, start, item, round);
    RoundsOfOne(env, st, item, round);
    CacheUntilDone(env, st, item, 1);
  }

  /** One item with all targets at one, nothing pinned and nothing preserved: the plan is its one warm copy. */
  lemma PlacedOne(env: Env, item: Item, c: Candidate)
    requires Fixed(env, [item]) == EMPTY_STATE && NextWarm(env, EMPTY_STATE, item) == Some(c) && AllTargetsOne(item)
    ensures Placed(env, [item]) == AcceptWarm(env, EMPTY_STATE, item, c, false)
    ensures Placed(env, [item]).assignments == [WarmAssignment(item.profile.id, c.effective, c.slot, c.fit, env.now)]
  {
    var st := AcceptWarm(env, EMPTY_STATE, item, c, false);
    OneInOrder(item);
    FirstCopy(env, item, c);
    PairOfRounds(env, EMPTY_STATE, st, item, Minimum);
    WarmUntilDone(env, st, item, 1);
    PairOfRounds(env, st, st, item, Full);
  }

  // ---------- a database on which the plans differ ----------

  lemma SortPair<T>(x: T, y: T, less: (T, T) -> bool)
    ensures StableSort([x, y], less) == if less(y, x) then [y, x] else [x, y]
  {
    assert [x, y][1..] == [y] && [y][1..] == [];
    assert StableSort([y], less) == Insert(y, [], less) == [y];
    assert StableSort([x, y], less) == Insert(x, [y], less);
    assert Insert(x, [], less) == [x];
  }

  const SAMPLE_NODE := ZERO_NODE.(id := "n", state := Online, approved := true)

  const SAMPLE_SLOT := ZERO_SLOT.(id := "s", nodeId := "n", state := Idle)

  const SAMPLE_PROFILE := Profile(
    "p", 1, "", "", "", "", "", "", [], Some(Requirements("", "", 0, 0, 0, 0, [])), None, [],
    [Variant("b", "", "", [], None, None, []), Variant("a", "", "", [], None, None, [])], 0)

  const SAMPLE_POLICY := Policy("q", "p", 0, 1, false, 0, 0, 0, 0, 0, 0, [], [], [], [])

  const SAMPLE_DB := Database(
    map["n" := SAMPLE_NODE], map["s" := SAMPLE_SLOT], map["p" := SAMPLE_PROFILE], map["q" := SAMPLE_POLICY],
    map[], map[], map[], map[], map[], map[], [], map[], map[])

  /** The planner's one item for the sample database. */
  function SampleItem(now: Time, cooldown: int): Item {
    PolicyItem(SAMPLE_DB, SAMPLE_POLICY, now, cooldown)
  }

  lemma SampleSlots()
    ensures SortedSlots(SAMPLE_DB) == [SAMPLE_SLOT]
  {
    assert SAMPLE_DB.slots.Keys == {"s"} && MinKey({"s"}) == "s" && {"s"} - {"s"} == {};
    assert SortedKeys({"s"}) == ["s"] + SortedKeys({}) == ["s"];
  }

  lemma SampleFits(id: Id)
    ensures var v := Variant(id, "", "", [], None, None, []);
            FitReasons(EffectiveProfileForVariant(SAMPLE_PROFILE, v), SAMPLE_NODE, SAMPLE_SLOT) == []
  {
  }

  function SampleCandidate(id: Id): Candidate {
    VariantCandidate(SAMPLE_PROFILE, SAMPLE_NODE, SAMPLE_SLOT,
                     NormalizeVariant(SAMPLE_PROFILE, Variant(id, "", "", [], None, None, [])))
  }

  lemma SampleCandidateFits(id: Id)
    requires id != ""
    ensures var c := SampleCandidate(id);
            && c.fit.fits && c.effective.runtimeVariantId == id
            && c.effective.requirements == SAMPLE_PROFILE.requirements && c.effective.artifacts == []
  {
    SampleFits(id);
  }

  lemma FilterBoth<T>(x: T, y: T, p: T -> bool)
    requires p(x) && p(y)
    ensures Filter([x, y], p) == [x, y]
  {
    FilterCons(y, [], p);
    FilterCons(x, [y], p);
    assert [x] + [y] == [x, y] && [y] + [] == [y];
  }

  lemma FlatMapOne<T, U>(x: T, f: T -> seq<U>)
    ensures FlatMap([x], f) == f(x)
  {
    assert [x][1..] == [] && f(x) + [] == f(x);
  }

  lemma SampleVariants()
    ensures VariantCandidates(SAMPLE_PROFILE, SAMPLE_NODE, SAMPLE_SLOT) == [SampleCandidate("b"), SampleCandidate("a")]
  {
    TwoVariants(SAMPLE_PROFILE, SAMPLE_NODE, SAMPLE_SLOT, SAMPLE_PROFILE.variants[0], SAMPLE_PROFILE.variants[1]);
  }

  lemma TwoVariants(p: Profile, node: Node, slot: Slot, v: Variant, w: Variant)
    requires p.variants == [v, w]
    ensures VariantCandidates(p, node, slot)
         == [VariantCandidate(p, node, slot, NormalizeVariant(p, v)),
             VariantCandidate(p, node, slot, NormalizeVariant(p, w))]
  {
    TwoRuntimeVariants(p, v, w);
    MapTwo(NormalizeVariant(p, v), NormalizeVariant(p, w), (u: Variant) => VariantCandidate(p, node, slot, u));
  }

  lemma TwoRuntimeVariants(p: Profile, v: Variant, w: Variant)
    requires p.variants == [v, w]
    ensures ProfileRuntimeVariants(p) == [NormalizeVariant(p, v), NormalizeVariant(p, w)]
  {
  }

  lemma MapTwo<T, U>(x: T, y: T, f: T -> U)
    ensures Map([x, y], f) == [f(x), f(y)]
  {
  }

  lemma SampleFilter()
    ensures Filter([SampleCandidate("b"), SampleCandidate("a")], Fits()) == [SampleCandidate("b"), SampleCandidate("a")]
  {
    SampleCandidateFits("b");
    SampleCandidateFits("a");
    FilterBoth(SampleCandidate("b"), SampleCandidate("a"), Fits());
  }

  lemma UsableSlot(db: Database, profile: Profile, policy: Policy, slot: Slot, node: Node)
    requires slot.nodeId in db.nodes && db.nodes[slot.nodeId] == node && NodeUsable(node, policy)
    ensures SlotCandidates(db, profile, policy)(slot) == Filter(VariantCandidates(profile, node, slot), Fits())
  {
  }

  lemma SampleCandidates()
    ensures RawCandidates(SAMPLE_DB, SAMPLE_PROFILE, SAMPLE_POLICY) == [SampleCandidate("b"), SampleCandidate("a")]
  {
    SampleSlots();
    FlatMapOne(SAMPLE_SLOT, SlotCandidates(SAMPLE_DB, SAMPLE_PROFILE, SAMPLE_POLICY));
    UsableSlot(SAMPLE_DB, SAMPLE_PROFILE, SAMPLE_POLICY, SAMPLE_SLOT, SAMPLE_NODE);
    SampleVariants();
    SampleFilter();
  }

  lemma SampleWarmOk(now: Time, item: Item, id: Id)
    requires id != "" && item.profile == SAMPLE_PROFILE && item.policy == SAMPLE_POLICY
    ensures WarmOk(Env(SAMPLE_DB, now, false), EMPTY_STATE, item, SampleCandidate(id))
    ensures PlacementScore("p", SAMPLE_POLICY, SampleCandidate(id)) == 0
  {
    SampleCandidateFits(id);
  }

  lemma SampleKeys()
    ensures WellKeyed(SAMPLE_DB)
  {
  }

  lemma SampleItems(now: Time, cooldown: int)
    ensures PolicyItems(SAMPLE_DB, now, cooldown) == [SampleItem(now, cooldown)]
  {
    assert SAMPLE_DB.policies.Keys == {"q"} && MinKey({"q"}) == "q" && {"q"} - {"q"} == {};
    assert SortedKeys({"q"}) == ["q"] + SortedKeys({}) == ["q"];
    FlatMapOne("q", ItemOf(SAMPLE_DB, now, cooldown));
  }

  lemma SampleFixed(env: Env, item: Item)
    requires env.db == SAMPLE_DB && item.policy == SAMPLE_POLICY
    ensures Fixed(env, [item]) == EMPTY_STATE
  {
    FlatMapOne(item, PinsOf());
    assert PinsOf()(item) == [];
    SampleSlots();
    FoldOne(PreserveBody(env, [item]), EMPTY_STATE, SAMPLE_SLOT);
  }

  /** The planner without an explainer takes variant "b", and variant "a" shadows it. */
  lemma SampleChoice(now: Time, item: Item) returns (c: Candidate, d: Candidate)
    requires item.profile == SAMPLE_PROFILE && item.policy == SAMPLE_POLICY
    ensures NextWarm(Env(SAMPLE_DB, now, false), EMPTY_STATE, item) == Some(c) && c.effective.runtimeVariantId == "b"
    ensures Placeable(SAMPLE_DB, item, d) && WarmOk(Env(SAMPLE_DB, now, false), EMPTY_STATE, item, d)
    ensures Shadows(item, d, c)
  {
    c, d := SampleCandidate("b"), SampleCandidate("a");
    SampleCandidateFits("b");
    SampleCandidateFits("a");
    SampleWarmOk(now, item, "b");
    SampleWarmOk(now, item, "a");
    SampleSorted(c, d);
    SampleKeys();
    CandidatesComplete(SAMPLE_DB, item, d);
  }

  lemma SampleSorted(c: Candidate, d: Candidate)
    requires c == SampleCandidate("b") && d == SampleCandidate("a")
    ensures PlacementCandidates(SAMPLE_DB, SAMPLE_PROFILE, SAMPLE_POLICY) == [c, d]
  {
    SampleCandidates();
    SampleCandidateFits("b");
    SampleCandidateFits("a");
    LexIrreflexive("s");
    SortPair(c, d, CandidateOrder("p", SAMPLE_POLICY));
  }

  function NamesVariant(id: Id): Assignment -> int {
    (a: Assignment) => if a.runtimeVariantId == id then 1 else 0
  }

  lemma FinishOne(st: PlanState, items: seq<Item>, a: Assignment, f: Assignment -> int)
    requires st.assignments == [a] && PlanTerms.DrainBlind(f)
    ensures Sum(Finish(st, items), f) == f(a)
  {
    PlanTerms.FinishSum(st, items, f);
    SumAppend([], a, f);
    assert [] + [a] == [a];
  }

  lemma PlanFinishes(db: Database, now: Time, cooldown: int, explain: bool, item: Item, st: PlanState)
    requires PolicyItems(db, now, cooldown) == [item] && st == Placed(Env(db, now, explain), [item])
    ensures PlanPlacement(db, now, cooldown, explain) == Finish(st, [item])
  {
  }

  /** Plans of one copy of different variants differ. */
  lemma FinishedApart(st: PlanState, st': PlanState, items: seq<Item>, a: Assignment, b: Assignment)
    requires st.assignments == [a] && st'.assignments == [b] && a.runtimeVariantId != b.runtimeVariantId
    ensures Finish(st, items) != Finish(st', items)
  {
    FinishOne(st, items, a, NamesVariant(a.runtimeVariantId));
    FinishOne(st', items, b, NamesVariant(a.runtimeVariantId));
  }

  lemma SampleItemFacts(now: Time, cooldown: int)
    ensures var item := SampleItem(now, cooldown);
            item.profile == SAMPLE_PROFILE && item.policy == SAMPLE_POLICY && AllTargetsOne(item)
  {
  }

  lemma SamplePlan(now: Time, cooldown: int, explain: bool, item: Item, c: Candidate) returns (st: PlanState)
    requires PolicyItems(SAMPLE_DB, now, cooldown) == [item] && item.policy == SAMPLE_POLICY && AllTargetsOne(item)
    requires NextWarm(Env(SAMPLE_DB, now, explain), EMPTY_STATE, item) == Some(c)
    ensures PlanPlacement(SAMPLE_DB, now, cooldown, explain) == Finish(st, [item])
    ensures st.assignments == [WarmAssignment(item.profile.id, c.effective, c.slot, c.fit, now)]
  {
    var env := Env(SAMPLE_DB, now, explain);
    SampleFixed(env, item);
    PlacedOne(env, item, c);
    st := Placed(env, [item]);
    PlanFinishes(SAMPLE_DB, now, cooldown, explain, item, st);
  }

  /** On the sample database, whose profile lists variant "b" before variant "a", explaining changes the plan. */
  lemma ExplainCanDiffer(now: Time, cooldown: int)
    ensures WellKeyed(SAMPLE_DB)
    ensures PlanPlacement(SAMPLE_DB, now, cooldown, true) != PlanPlacement(SAMPLE_DB, now, cooldown, false)
  {
    var item := SampleItem(now, cooldown);
    SampleItemFacts(now, cooldown);
    SampleKeys();
    var c, d := SampleChoice(now, item);
    OutOfOrderDiverges(SAMPLE_DB, now, EMPTY_STATE, item, c, d);
    var e := NextWarm(Env(SAMPLE_DB, now, true), EMPTY_STATE, item).value;
    LexIrreflexive("b");
    SampleItems(now, cooldown);
    var plain := SamplePlan(now, cooldown, false, item, c);
    var explained := SamplePlan(now, cooldown, true, item, e);
    FinishedApart(explained, plain, [item], WarmAssignment(item.profile.id, e.effective, e.slot, e.fit, now),
                  WarmAssignment(item.profile.id, c.effective, c.slot, c.fit, now));
  }
}
