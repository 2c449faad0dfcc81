/** The planner that explains itself refines the one that does not: exactly when equally
    scored variants on a slot are listed in order of their IDs do both see the same
    candidates in the same order, and then both emit the same plan. */
module Explain {
  import opened Base
  import opened Model
  import opened Fit
  import opened Demand
  import opened Placement
  import opened Candidates
  import PlanTerms
  import PlanTheorems

  // ---------- relations on lists ----------

  ghost predicate Pairwise<T>(s: seq<T>, r: (T, T) -> bool) {
    s == [] || ((forall y :: y in s[1..] ==> r(s[0], y)) && Pairwise(s[1..], r))
  }

  lemma {:induction false} PairwiseAt<T>(s: seq<T>, r: (T, T) -> bool, i: nat, j: nat)
    requires Pairwise(s, r) && i < j < |s|
    ensures r(s[i], s[j])
  {
    if i == 0 {
      assert s[1..][j - 1] == s[j];
    } else {
      PairwiseAt(s[1..], r, i - 1, j - 1);
    }
  }

  lemma {:induction false} PairwiseFrom<T>(s: seq<T>, r: (T, T) -> bool)
    requires forall i, j :: 0 <= i < j < |s| ==> r(s[i], s[j])
    ensures Pairwise(s, r)
  {
    if s != [] {
      var rest := s[1..];
      forall i, j | 0 <= i < j < |rest| ensures r(rest[i], rest[j]) {
        assert rest[i] == s[i + 1] && rest[j] == s[j + 1];
      }
      PairwiseFrom(rest, r);
      forall y | y in rest ensures r(s[0], y) {
        var k :| 0 <= k < |rest| && rest[k] == y;
        assert s[k + 1] == y;
      }
    }
  }

  lemma {:induction false} PairwiseFilter<T>(s: seq<T>, p: T -> bool, r: (T, T) -> bool)
    requires Pairwise(s, r)
    ensures Pairwise(Filter(s, p), r)
  {
    if s != [] {
      var x, rest := s[0], s[1..];
      PairwiseFilter(rest, p, r);
      FilterCons(x, rest, p);
      assert s == [x] + rest;
      forall y | y in Filter(rest, p) ensures r(x, y) {
        FilterMember(rest, p, y);
      }
      assert ([x] + Filter(rest, p))[1..] == Filter(rest, p);
    }
  }

  /** What holds between the kept elements holds between them in the full list. */
  lemma {:induction false} PairwiseUnfilter<T>(s: seq<T>, p: T -> bool, r: (T, T) -> bool, i: nat, j: nat)
    requires Pairwise(Filter(s, p), r) && i < j < |s| && p(s[i]) && p(s[j])
    ensures r(s[i], s[j])
  {
    var x, rest := s[0], s[1..];
    FilterCons(x, rest, p);
    assert s == [x] + rest;
    assert ([x] + Filter(rest, p))[1..] == Filter(rest, p);
    if i == 0 {
      assert rest[j - 1] == s[j];
      FilterMember(rest, p, s[j]);
    } else {
      PairwiseUnfilter(rest, p, r, i - 1, j - 1);
    }
  }

  lemma {:induction false} PairwiseConcat<T>(s: seq<T>, t: seq<T>, r: (T, T) -> bool)
    requires Pairwise(s, r) && Pairwise(t, r) && forall x, y :: x in s && y in t ==> r(x, y)
    ensures Pairwise(s + t, r)
  {
    if s == [] {
      assert s + t == t;
    } else {
      assert (s + t)[0] == s[0] && (s + t)[1..] == s[1..] + t;
      PairwiseConcat(s[1..], t, r);
    }
  }

  lemma {:induction false} PairwiseFlatMap<T, U>(s: seq<T>, f: T -> seq<U>, r: (U, U) -> bool)
    requires forall x :: x in s ==> Pairwise(f(x), r)
    requires forall i, j, y, z :: 0 <= i < j < |s| && y in f(s[i]) && z in f(s[j]) ==> r(y, z)
    ensures Pairwise(FlatMap(s, f), r)
  {
    if s != [] {
      var rest := s[1..];
      forall i, j, y, z | 0 <= i < j < |rest| && y in f(rest[i]) && z in f(rest[j]) ensures r(y, z) {
        assert rest[i] == s[i + 1] && rest[j] == s[j + 1];
      }
      PairwiseFlatMap(rest, f, r);
      forall y, z | y in f(s[0]) && z in FlatMap(rest, f) ensures r(y, z) {
        FlatMapMember(rest, f, z);
        var x :| x in rest && z in f(x);
        var k :| 0 <= k < |rest| && rest[k] == x;
        assert s[k + 1] == x;
      }
      PairwiseConcat(f(s[0]), FlatMap(rest, f), r);
    }
  }

  lemma {:induction false} FilterAgree<T>(s: seq<T>, p: T -> bool, q: T -> bool)
    requires forall x :: x in s ==> p(x) == q(x)
    ensures Filter(s, p) == Filter(s, q)
  {
    if s != [] {
      FilterAgree(s[1..], p, q);
    }
  }

  /** A list of ties is left as it is by a stable sort. */
  lemma {:induction false} SortTies<T>(s: seq<T>, less: (T, T) -> bool)
    requires forall x, y :: x in s && y in s ==> !less(x, y)
    ensures StableSort(s, less) == s
  {
    if s != [] {
      SortTies(s[1..], less);
      assert s == [s[0]] + s[1..];
      InsertFirst(s[0], s[1..], less);
    }
  }

  ghost function Tied<T(!new)>(less: (T, T) -> bool, x: T): T -> bool {
    (y: T) => !less(x, y) && !less(y, x)
  }

  lemma TieClass<T(!new)>(less: (T, T) -> bool, x: T, y: T, z: T)
    requires StrictWeakOrder(less) && Tied(less, x)(y) && Tied(less, x)(z)
    ensures !less(y, z)
  {
  }

  /** Sorting by the finer order gives the coarse result only if the input already orders the ties. */
  lemma SameSortOrdersTies<T(!new)>(s: seq<T>, coarse: (T, T) -> bool, fine: (T, T) -> bool)
    requires StrictWeakOrder(coarse) && StrictWeakOrder(fine)
    requires StableSort(s, coarse) == StableSort(s, fine)
    ensures TiesOrdered(s, coarse, fine)
  {
    var r := (x: T, y: T) => !fine(y, x);
    var sorted := StableSort(s, fine);
    StableSortSorted(s, fine);
    PairwiseFrom(sorted, r);
    forall i, j | 0 <= i < j < |s| && !coarse(s[i], s[j]) && !coarse(s[j], s[i]) ensures !fine(s[j], s[i]) {
      var tied := Tied(coarse, s[i]);
      PairwiseFilter(sorted, tied, r);
      FilterStableSort(s, tied, coarse);
      var ties := Filter(s, tied);
      forall y, z | y in ties && z in ties ensures !coarse(y, z) {
        FilterMember(s, tied, y);
        FilterMember(s, tied, z);
        TieClass(coarse, s[i], y, z);
      }
      SortTies(ties, coarse);
      PairwiseUnfilter(s, tied, r, i, j);
    }
  }

  /** A finer order sorts like the coarse one exactly when the input orders the ties. */
  lemma SameSort<T(!new)>(s: seq<T>, coarse: (T, T) -> bool, fine: (T, T) -> bool)
    requires StrictWeakOrder(coarse) && StrictWeakOrder(fine)
    requires forall a, b :: coarse(a, b) ==> fine(a, b)
    ensures StableSort(s, coarse) == StableSort(s, fine) <==> TiesOrdered(s, coarse, fine)
  {
    if TiesOrdered(s, coarse, fine) {
      StableSortRefines(s, coarse, fine);
    }
    if StableSort(s, coarse) == StableSort(s, fine) {
      SameSortOrdersTies(s, coarse, fine);
    }
  }

  // ---------- both comparisons are strict weak orders ----------

  predicate SlotLess(x: int, s: string, x': int, s': string) {
    if x == x' then LexLess(s, s') else x > x'
  }

  predicate VariantLess(x: int, s: string, v: string, x': int, s': string, v': string) {
    if x != x' then x > x' else if s != s' then LexLess(s, s') else LexLess(v, v')
  }

  lemma SlotLessAsymmetric(x: int, s: string, x': int, s': string)
    requires SlotLess(x, s, x', s')
    ensures !SlotLess(x', s', x, s)
  {
    if x == x' {
      LexAsymmetric(s, s');
    }
  }

  lemma SlotLessNegative(x: int, s: string, y: int, t: string, z: int, u: string)
    requires !SlotLess(x, s, y, t) && !SlotLess(y, t, z, u)
    ensures !SlotLess(x, s, z, u)
  {
    if x == y == z {
      LexNegTransitive(s, t, u);
    }
  }

  lemma VariantLessAsymmetric(x: int, s: string, v: string, x': int, s': string, v': string)
    requires VariantLess(x, s, v, x', s', v')
    ensures !VariantLess(x', s', v', x, s, v)
  {
    if x == x' && s != s' {
      LexAsymmetric(s, s');
    } else if x == x' {
      LexAsymmetric(v, v');
    }
  }

  lemma VariantLessNegative(x: int, s: string, v: string, y: int, t: string, w: string, z: int, u: string, q: string)
    requires !VariantLess(x, s, v, y, t, w) && !VariantLess(y, t, w, z, u, q)
    ensures !VariantLess(x, s, v, z, u, q)
  {
    if x == y == z {
      LexIrreflexive(s);
      LexIrreflexive(u);
      if s == t && t == u {
        LexNegTransitive(v, w, q);
      } else if s == u && s != t {
        LexTotal(s, t);
      } else {
        LexNegTransitive(s, t, u);
      }
    }
  }

  lemma CandidateOrderWeak(pid: Id, policy: Policy)
    ensures StrictWeakOrder(CandidateOrder(pid, policy))
  {
    var less := CandidateOrder(pid, policy);
    forall a, b | less(a, b) ensures !less(b, a) {
      SlotLessAsymmetric(PlacementScore(pid, policy, a), a.slot.id, PlacementScore(pid, policy, b), b.slot.id);
    }
    forall a, b, c | !less(a, b) && !less(b, c) ensures !less(a, c) {
      SlotLessNegative(PlacementScore(pid, policy, a), a.slot.id, PlacementScore(pid, policy, b), b.slot.id,
                       PlacementScore(pid, policy, c), c.slot.id);
    }
  }

  lemma ExplainOrderWeak(pid: Id, policy: Policy)
    ensures StrictWeakOrder(ExplainOrder(pid, policy))
    ensures forall a, b :: CandidateOrder(pid, policy)(a, b) ==> ExplainOrder(pid, policy)(a, b)
  {
    var less := ExplainOrder(pid, policy);
    forall a, b | less(a, b) ensures !less(b, a) {
      VariantLessAsymmetric(
        PlacementScore(pid, policy, a), a.slot.id, a.effective.runtimeVariantId,
        PlacementScore(pid, policy, b), b.slot.id, b.effective.runtimeVariantId);
    }
    forall a, b, c | !less(a, b) && !less(b, c) ensures !less(a, c) {
      VariantLessNegative(
        PlacementScore(pid, policy, a), a.slot.id, a.effective.runtimeVariantId,
        PlacementScore(pid, policy, b), b.slot.id, b.effective.runtimeVariantId,
        PlacementScore(pid, policy, c), c.slot.id, c.effective.runtimeVariantId);
    }
    forall a, b | CandidateOrder(pid, policy)(a, b) ensures less(a, b) {
      LexIrreflexive(a.slot.id);
    }
  }

  // ---------- filtering the explainer's list gives the planner's ----------

  lemma SlotFiltered(db: Database, item: Item, slot: Slot)
    requires WellKeyed(db)
    ensures SlotCandidates(db, item.profile, item.policy)(slot)
         == Filter(SlotExplainCandidates(db, item.profile)(slot), Admitted(item))
  {
    var all := SlotExplainCandidates(db, item.profile)(slot);
    forall c | c in all ensures Admitted(item)(c) <==>
        slot.nodeId in db.nodes && NodeUsable(db.nodes[slot.nodeId], item.policy) && c.fit.fits
    {
      SlotExplainMember(db, item.profile, slot, c);
      VariantHonest(db, item.profile, slot, c);
      NoBaseReasons(item, c);
    }
    if slot.nodeId in db.nodes && NodeUsable(db.nodes[slot.nodeId], item.policy) {
      assert all == VariantCandidates(item.profile, db.nodes[slot.nodeId], slot);
      FilterAgree(all, Admitted(item), Fits());
    } else {
      FilterAgree(all, Admitted(item), (c: Candidate) => false);
      FilterNone(all);
    }
  }

  lemma {:induction false} FilterNone<T>(s: seq<T>)
    ensures Filter(s, (x: T) => false) == []
  {
    if s != [] {
      FilterNone(s[1..]);
    }
  }

  lemma VariantHonest(db: Database, profile: Profile, slot: Slot, c: Candidate)
    requires VariantOn(db, profile, slot, c)
    ensures HonestFit(c) && c.node == NodeAt(db, slot.nodeId)
    ensures slot.nodeId !in db.nodes ==> !c.fit.fits
  {
    if slot.nodeId in db.nodes {
      FitIsHonest(c);
    }
  }

  lemma RawFiltered(db: Database, item: Item)
    requires WellKeyed(db)
    ensures Filter(AllCandidates(db, item.profile), Admitted(item)) == RawCandidates(db, item.profile, item.policy)
  {
    var slots := SortedSlots(db);
    var f, g := SlotExplainCandidates(db, item.profile), SlotCandidates(db, item.profile, item.policy);
    forall s | s in slots ensures g(s) == Filter(f(s), Admitted(item)) {
      SlotFiltered(db, item, s);
    }
    FilterFlatMap(slots, f, g, Admitted(item));
  }

  /** Equally scored variants on one slot come in non-decreasing order of their IDs. */
  ghost predicate TiesInOrder(db: Database, item: Item) {
    TiesOrdered(RawCandidates(db, item.profile, item.policy), CandidateOrder(item.profile.id, item.policy),
                ExplainOrder(item.profile.id, item.policy))
  }

  /** The explaining planner sees the other planner's candidates in the same order exactly when ties are in order. */
  lemma SameCandidates(db: Database, item: Item)
    requires WellKeyed(db)
    ensures TiesInOrder(db, item) <==>
            Filter(ExplainCandidates(db, item.profile, item.policy), Admitted(item))
            == PlacementCandidates(db, item.profile, item.policy)
  {
    var pid, policy := item.profile.id, item.policy;
    CandidateOrderWeak(pid, policy);
    ExplainOrderWeak(pid, policy);
    RawFiltered(db, item);
    FilterStableSort(AllCandidates(db, item.profile), Admitted(item), ExplainOrder(pid, policy));
    SameSort(RawCandidates(db, item.profile, policy), CandidateOrder(pid, policy), ExplainOrder(pid, policy));
  }

  // ---------- the same next candidate ----------

  lemma {:induction false} FirstFiltered(
      cands: seq<Candidate>, p: Candidate -> bool, ok: Candidate -> bool, both: Candidate -> bool)
    requires forall c :: c in cands ==> both(c) == (p(c) && ok(c))
    ensures First(cands, both) == First(Filter(cands, p), ok)
  {
    if cands != [] {
      FirstFiltered(cands[1..], p, ok, both);
      FilterCons(cands[0], cands[1..], p);
      assert cands == [cands[0]] + cands[1..];
      assert ([cands[0]] + Filter(cands[1..], p))[1..] == Filter(cands[1..], p);
    }
  }

  lemma {:induction false} FirstNodeFiltered(
      cands: seq<Candidate>, base: Candidate -> bool, held: Id -> bool, ok: Candidate -> bool,
      both: Candidate -> bool, seen: set<Id>)
    requires forall c :: c in cands ==> both(c) == (base(c) && ok(c))
    ensures FirstAdmittedNode(cands, base, held, both, seen) == FirstNode(Filter(cands, base), held, ok, seen)
  {
    if cands != [] {
      var c, rest := cands[0], cands[1..];
      assert cands == [c] + rest && c in cands;
      FilterCons(c, rest, base);
      assert ([c] + Filter(rest, base))[1..] == Filter(rest, base);
      FirstNodeFiltered(rest, base, held, ok, both, seen);
      FirstNodeFiltered(rest, base, held, ok, both, seen + {c.node.id});
    }
  }

  lemma ExplainedAllHonest(db: Database, item: Item, c: Candidate)
    requires WellKeyed(db) && c in ExplainCandidates(db, item.profile, item.policy)
    ensures HonestFit(c)
  {
    ExplainComplete(db, item.profile, item.policy, c);
    ExplainedHonest(db, item.profile, c);
  }

  lemma SameNextWarm(db: Database, now: Time, st: PlanState, item: Item)
    requires WellKeyed(db) && TiesInOrder(db, item)
    ensures NextWarm(Env(db, now, true), st, item) == NextWarm(Env(db, now, false), st, item)
  {
    var env, plain := Env(db, now, true), Env(db, now, false);
    var cands := ExplainCandidates(db, item.profile, item.policy);
    var ok := WarmChoice(plain, st, item);
    var both := WarmAdmission(env, st, item);
    forall c | c in cands ensures both(c) == (Admitted(item)(c) && ok(c)) {
      ExplainedAllHonest(db, item, c);
      NoWarmReasons(env, st, item, c);
    }
    SameCandidates(db, item);
    FirstFiltered(cands, Admitted(item), ok, both);
  }

  lemma SameNextCache(db: Database, now: Time, st: PlanState, item: Item)
    requires WellKeyed(db) && TiesInOrder(db, item)
    ensures NextCache(Env(db, now, true), st, item) == NextCache(Env(db, now, false), st, item)
  {
    var env, plain := Env(db, now, true), Env(db, now, false);
    var cands := ExplainCandidates(db, item.profile, item.policy);
    var ok := CacheChoice(plain, st, item);
    var both := CacheAdmission(env, st, item);
    forall c | c in cands ensures both(c) == (Admitted(item)(c) && ok(c)) {
      ExplainedAllHonest(db, item, c);
      NoCacheReasons(env, st, item, c);
    }
    SameCandidates(db, item);
    FirstNodeFiltered(cands, Admitted(item), Holds(st, item.profile.id), ok, both, {});
  }

  // ---------- the same plan ----------

  lemma {:induction false} FoldAgree<S(!new), X(!new)>(f: (S, X) -> S, g: (S, X) -> S, s: S, xs: seq<X>)
    requires forall z, x :: x in xs ==> f(z, x) == g(z, x)
    ensures Fold(f, s, xs) == Fold(g, s, xs)
    decreases |xs|
  {
    if xs != [] {
      assert xs[0] in xs;
      FoldAgree(f, g, f(s, xs[0]), xs[1..]);
    }
  }

  lemma {:induction false} UntilAgree<S(!new)>(count: S -> int, f: S -> S, g: S -> S, target: int, s: S)
    requires Counts(count, f) && Counts(count, g) && forall z :: f(z) == g(z)
    ensures Until(count, f, target, s) == Until(count, g, target, s)
    decreases target - count(s)
  {
    if count(s) < target {
      UntilAgree(count, f, g, target, f(s));
    }
  }

  lemma SameWarmUntil(db: Database, now: Time, st: PlanState, item: Item, target: int)
    requires WellKeyed(db) && TiesInOrder(db, item)
    ensures PlaceWarmUntil(Env(db, now, true), st, item, target)
          == PlaceWarmUntil(Env(db, now, false), st, item, target)
  {
    var env, plain := Env(db, now, true), Env(db, now, false);
    WarmBodyCounts(env, item);
    WarmBodyCounts(plain, item);
    forall z ensures WarmBody(env, item)(z) == WarmBody(plain, item)(z) {
      SameNextWarm(db, now, z, item);
    }
    UntilAgree(WarmCount(item.profile.id), WarmBody(env, item), WarmBody(plain, item), target, st);
  }

  lemma SameCacheUntil(db: Database, now: Time, st: PlanState, item: Item, target: int)
    requires WellKeyed(db) && TiesInOrder(db, item)
    ensures PlaceCacheUntil(Env(db, now, true), st, item, target)
          == PlaceCacheUntil(Env(db, now, false), st, item, target)
  {
    var env, plain := Env(db, now, true), Env(db, now, false);
    CacheBodyCounts(env, item);
    CacheBodyCounts(plain, item);
    forall z ensures CacheBody(env, item)(z) == CacheBody(plain, item)(z) {
      SameNextCache(db, now, z, item);
    }
    UntilAgree(CacheCount(item.profile.id), CacheBody(env, item), CacheBody(plain, item), target, st);
  }

  ghost predicate AllInOrder(db: Database, items: seq<Item>) {
    forall it :: it in items ==> TiesInOrder(db, it)
  }

  lemma SameAllWarm(db: Database, now: Time, st: PlanState, items: seq<Item>, round: Round)
    requires WellKeyed(db) && AllInOrder(db, items)
    ensures PlaceAllWarm(Env(db, now, true), st, items, round) == PlaceAllWarm(Env(db, now, false), st, items, round)
  {
    var f, g := AllWarmBody(Env(db, now, true), round), AllWarmBody(Env(db, now, false), round);
    forall z, it | it in items ensures f(z, it) == g(z, it) {
      SameWarmUntil(db, now, z, it, WarmTarget(it, round));
    }
    FoldAgree(f, g, st, items);
  }

  lemma SameAllCache(db: Database, now: Time, st: PlanState, items: seq<Item>, round: Round)
    requires WellKeyed(db) && AllInOrder(db, items)
    ensures PlaceAllCache(Env(db, now, true), st, items, round) == PlaceAllCache(Env(db, now, false), st, items, round)
  {
    var f, g := AllCacheBody(Env(db, now, true), round), AllCacheBody(Env(db, now, false), round);
    forall z, it | it in items ensures f(z, it) == g(z, it) {
      SameCacheUntil(db, now, z, it, CacheTarget(it, round));
    }
    FoldAgree(f, g, st, items);
  }

  lemma SamePin(db: Database, now: Time, st: PlanState, item: Item, pin: Id)
    ensures PlaceHardPin(Env(db, now, true), st, item, pin) == PlaceHardPin(Env(db, now, false), st, item, pin)
  {
  }

  lemma SamePreserve(db: Database, now: Time, st: PlanState, items: seq<Item>, slot: Slot)
    ensures PreserveSlot(Env(db, now, true), st, items, slot) == PreserveSlot(Env(db, now, false), st, items, slot)
  {
  }

  lemma SameFixed(db: Database, now: Time, items: seq<Item>)
    ensures Fixed(Env(db, now, true), items) == Fixed(Env(db, now, false), items)
  {
    var env, plain := Env(db, now, true), Env(db, now, false);
    forall z, p ensures PinBody(env)(z, p) == PinBody(plain)(z, p) {
      SamePin(db, now, z, p.0, p.1);
    }
    FoldAgree(PinBody(env), PinBody(plain), EMPTY_STATE, FlatMap(items, PinsOf()));
    forall z, s ensures PreserveBody(env, items)(z, s) == PreserveBody(plain, items)(z, s) {
      SamePreserve(db, now, z, items, s);
    }
    FoldAgree(PreserveBody(env, items), PreserveBody(plain, items), PlaceHardPins(env, EMPTY_STATE, items),
              SortedSlots(db));
  }

  lemma SamePlaced(db: Database, now: Time, items: seq<Item>)
    requires WellKeyed(db) && AllInOrder(db, items)
    ensures Placed(Env(db, now, true), items) == Placed(Env(db, now, false), items)
  {
    var env, plain := Env(db, now, true), Env(db, now, false);
    var byNeed := ByNeed(items);
    var byDemand := ByDemand(items);
    SortedInOrder(db, items);
    SameFixed(db, now, items);
    var s0 := Fixed(plain, items);
    var s1 := PlaceAllWarm(plain, s0, byNeed, Minimum);
    var s2 := PlaceAllCache(plain, s1, byNeed, Minimum);
    var s3 := PlaceAllWarm(plain, s2, byDemand, Full);
    SameAllWarm(db, now, s0, byNeed, Minimum);
    SameAllCache(db, now, s1, byNeed, Minimum);
    SameAllWarm(db, now, s2, byDemand, Full);
    SameAllCache(db, now, s3, byDemand, Full);
  }

  lemma SortedInOrder(db: Database, items: seq<Item>)
    requires AllInOrder(db, items)
    ensures AllInOrder(db, ByNeed(items))
    ensures AllInOrder(db, ByDemand(items))
  {
    var byNeed := ByNeed(items);
    forall it | it in byNeed ensures TiesInOrder(db, it) {
      StableSortMember(items, ItemOrder(false), it);
    }
    forall it | it in StableSort(byNeed, ItemOrder(true)) ensures TiesInOrder(db, it) {
      StableSortMember(byNeed, ItemOrder(true), it);
    }
  }

  /** Explaining does not change the plan when every policy's ties are in order. */
  lemma ExplainRefinesPlan(db: Database, now: Time, cooldown: int)
    requires WellKeyed(db) && AllInOrder(db, PolicyItems(db, now, cooldown))
    ensures PlanPlacement(db, now, cooldown, true) == PlanPlacement(db, now, cooldown, false)
  {
    SamePlaced(db, now, PolicyItems(db, now, cooldown));
  }

  // ---------- variants listed in order of their IDs ----------

  /** Every profile lists its runtime variants in non-decreasing order of their IDs. */
  ghost predicate VariantsInOrder(p: Profile) {
    var vs := ProfileRuntimeVariants(p);
    forall i, j :: 0 <= i < j < |vs| ==> !LexLess(vs[j].id, vs[i].id)
  }

  ghost function InOrder(): (Candidate, Candidate) -> bool {
    (a: Candidate, b: Candidate) =>
      a.slot.id == b.slot.id ==> !LexLess(b.effective.runtimeVariantId, a.effective.runtimeVariantId)
  }

  lemma VariantsPairwise(p: Profile, node: Node, slot: Slot)
    requires p.id != "" && VariantsInOrder(p)
    ensures Pairwise(VariantCandidates(p, node, slot), InOrder())
  {
    var vs, cands := ProfileRuntimeVariants(p), VariantCandidates(p, node, slot);
    forall i, j | 0 <= i < j < |cands| ensures InOrder()(cands[i], cands[j]) {
      assert vs[i] in vs && vs[j] in vs;
      VariantIdKept(p, vs[i]);
      VariantIdKept(p, vs[j]);
    }
    PairwiseFrom(cands, InOrder());
  }

  lemma SlotPairwise(db: Database, item: Item, slot: Slot)
    requires item.profile.id != "" && VariantsInOrder(item.profile)
    ensures Pairwise(SlotCandidates(db, item.profile, item.policy)(slot), InOrder())
  {
    if slot.nodeId in db.nodes && NodeUsable(db.nodes[slot.nodeId], item.policy) {
      VariantsPairwise(item.profile, db.nodes[slot.nodeId], slot);
      PairwiseFilter(VariantCandidates(item.profile, db.nodes[slot.nodeId], slot), Fits(), InOrder());
    }
  }

  lemma SlotsDiffer(db: Database, i: nat, j: nat)
    requires WellKeyed(db) && i < j < |SortedSlots(db)|
    ensures SortedSlots(db)[i].id != SortedSlots(db)[j].id
  {
    var keys := SortedKeys(db.slots.Keys);
    assert keys[i] in keys && keys[j] in keys;
    assert LexLess(keys[i], keys[j]);
    LexIrreflexive(keys[i]);
  }

  lemma RawPairwise(db: Database, item: Item)
    requires WellKeyed(db) && item.profile.id != "" && VariantsInOrder(item.profile)
    ensures Pairwise(RawCandidates(db, item.profile, item.policy), InOrder())
  {
    var slots, f := SortedSlots(db), SlotCandidates(db, item.profile, item.policy);
    forall s | s in slots ensures Pairwise(f(s), InOrder()) {
      SlotPairwise(db, item, s);
    }
    forall i, j, y, z | 0 <= i < j < |slots| && y in f(slots[i]) && z in f(slots[j]) ensures InOrder()(y, z) {
      assert slots[i] in slots && slots[j] in slots;
      SortedSlotsMember(db, slots[i]);
      SortedSlotsMember(db, slots[j]);
      SlotMember(db, item, slots[i], y);
      SlotMember(db, item, slots[j], z);
      SlotsDiffer(db, i, j);
    }
    PairwiseFlatMap(slots, f, InOrder());
  }

  lemma TiesShareSlot(pid: Id, policy: Policy, a: Candidate, b: Candidate)
    requires !CandidateOrder(pid, policy)(a, b) && !CandidateOrder(pid, policy)(b, a)
    requires InOrder()(a, b)
    ensures !ExplainOrder(pid, policy)(b, a)
  {
    if a.slot.id != b.slot.id {
      LexTotal(a.slot.id, b.slot.id);
    }
  }

  lemma OrderedTies(db: Database, item: Item)
    requires WellKeyed(db) && item.profile.id != "" && VariantsInOrder(item.profile)
    ensures TiesInOrder(db, item)
  {
    var pid, policy, raw := item.profile.id, item.policy, RawCandidates(db, item.profile, item.policy);
    RawPairwise(db, item);
    var coarse, fine := CandidateOrder(pid, policy), ExplainOrder(pid, policy);
    forall i, j | 0 <= i < j < |raw| && !coarse(raw[i], raw[j]) && !coarse(raw[j], raw[i])
      ensures !fine(raw[j], raw[i])
    {
      PairwiseAt(raw, InOrder(), i, j);
      TiesShareSlot(pid, policy, raw[i], raw[j]);
    }
  }

  /** Explaining never changes the plan of a database whose profiles list their variants in order of their IDs. */
  lemma ExplainRefinesOrderedPlan(db: Database, now: Time, cooldown: int)
    requires WellKeyed(db) && forall k :: k in db.profiles ==> VariantsInOrder(db.profiles[k])
    ensures PlanPlacement(db, now, cooldown, true) == PlanPlacement(db, now, cooldown, false)
  {
    var items := PolicyItems(db, now, cooldown);
    PlanTheorems.ItemsStored(db, now, cooldown);
    forall it | it in items ensures TiesInOrder(db, it) {
      OrderedTies(db, it);
    }
    ExplainRefinesPlan(db, now, cooldown);
  }

  // ---------- the planner takes the best candidate ----------

  lemma {:induction false} FirstAt(cands: seq<Candidate>, ok: Candidate -> bool) returns (k: nat)
    requires First(cands, ok).Some?
    ensures k < |cands| && cands[k] == First(cands, ok).value && forall i :: 0 <= i < k ==> !ok(cands[i])
  {
    if ok(cands[0]) {
      k := 0;
    } else {
      var rest := FirstAt(cands[1..], ok);
      k := rest + 1;
    }
  }

  lemma NotBelowItself<T(!new)>(less: (T, T) -> bool, x: T)
    requires StrictWeakOrder(less)
    ensures !less(x, x)
  {
  }

  /** No admissible candidate comes before the one chosen for a warm copy. */
  lemma NextWarmIsBest(env: Env, st: PlanState, item: Item, other: Candidate)
    requires WellKeyed(env.db) && !env.explain && NextWarm(env, st, item).Some?
    requires Placeable(env.db, item, other) && WarmOk(env, st, item, other)
    ensures !CandidateOrder(item.profile.id, item.policy)(other, NextWarm(env, st, item).value)
  {
    var less, ok := CandidateOrder(item.profile.id, item.policy), WarmChoice(env, st, item);
    var cands := PlacementCandidates(env.db, item.profile, item.policy);
    CandidateOrderWeak(item.profile.id, item.policy);
    StableSortSorted(RawCandidates(env.db, item.profile, item.policy), less);
    CandidatesComplete(env.db, item, other);
    var k := FirstAt(cands, ok);
    var j :| 0 <= j < |cands| && cands[j] == other;
    assert ok(cands[j]);
    NotBelowItself(less, other);
  }
}
