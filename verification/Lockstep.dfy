/** The two planners side by side. They stay in step as long as they choose alike; after the
    first different choice their plans never meet again. So explaining keeps the plan exactly
    when no choice along the run without an explainer is shadowed by a candidate that the
    explaining search sees first. */
module Lockstep {
  import opened Base
  import opened Model
  import opened Fit
  import opened Placement
  import opened Candidates
  import opened Explain
  import opened Divergence
  import Drain
  import PlanTerms

  // ---------- states that never meet again ----------

  /** Two assignments that the final sort does not tell apart. */
  predicate Rivals(a: Assignment, b: Assignment) {
    a != b && a.profileId == b.profileId && a.slotId == b.slotId
  }

  /** After a common beginning the states hold rival assignments. */
  ghost predicate Apart(x: PlanState, y: PlanState) {
    exists k: nat :: ApartAt(x.assignments, y.assignments, k)
  }

  predicate ApartAt(s: seq<Assignment>, t: seq<Assignment>, k: nat) {
    k < |s| && k < |t| && s[..k] == t[..k] && Rivals(s[k], t[k])
  }

  predicate Extends(x: PlanState, x': PlanState) {
    x.assignments <= x'.assignments
  }

  lemma ApartKept(x: PlanState, y: PlanState, x': PlanState, y': PlanState)
    requires Apart(x, y) && Extends(x, x') && Extends(y, y')
    ensures Apart(x', y')
  {
    var k: nat :| ApartAt(x.assignments, y.assignments, k);
    var s, t := x.assignments, y.assignments;
    assert x'.assignments[..k] == x'.assignments[..|s|][..k];
    assert y'.assignments[..k] == y'.assignments[..|t|][..k];
    assert ApartAt(x'.assignments, y'.assignments, k);
  }

  /** Equal states when the choices agree, states apart when they do not. */
  ghost predicate Split(agree: bool, x: PlanState, y: PlanState) {
    if agree then x == y else Apart(x, y)
  }

  // ---------- loops in step ----------

  ghost predicate Grows(f: PlanState -> PlanState) {
    forall z :: Extends(z, f(z))
  }

  ghost predicate GrowsBy<X(!new)>(f: (PlanState, X) -> PlanState) {
    forall z, x :: Extends(z, f(z, x))
  }

  /** Along the counting loop `g` every round satisfies `ok`. */
  ghost predicate AlongUntil(
      count: PlanState -> int, g: PlanState -> PlanState, ok: PlanState -> bool, target: int, s: PlanState)
    requires Counts(count, g)
    decreases target - count(s)
  {
    count(s) < target ==> ok(s) && AlongUntil(count, g, ok, target, g(s))
  }

  /** Along the loop `g` over a list every round satisfies `ok`. */
  ghost predicate AlongFold<X(!new)>(
      g: (PlanState, X) -> PlanState, ok: (PlanState, X) -> bool, s: PlanState, xs: seq<X>)
    decreases |xs|
  {
    xs != [] ==> ok(s, xs[0]) && AlongFold(g, ok, g(s, xs[0]), xs[1..])
  }

  lemma {:induction false} UntilGrows(count: PlanState -> int, f: PlanState -> PlanState, target: int, s: PlanState)
    requires Counts(count, f) && Grows(f)
    ensures Extends(s, Until(count, f, target, s))
    decreases target - count(s)
  {
    if count(s) < target {
      UntilGrows(count, f, target, f(s));
      assert Extends(s, f(s));
    }
  }

  lemma {:induction false} FoldGrows<X(!new)>(f: (PlanState, X) -> PlanState, s: PlanState, xs: seq<X>)
    requires GrowsBy(f)
    ensures Extends(s, Fold(f, s, xs))
    decreases |xs|
  {
    if xs != [] {
      FoldGrows(f, f(s, xs[0]), xs[1..]);
      assert Extends(s, f(s, xs[0]));
    }
  }

  lemma {:induction false} UntilSplits(
      count: PlanState -> int, f: PlanState -> PlanState, g: PlanState -> PlanState, ok: PlanState -> bool,
      target: int, s: PlanState)
    requires Counts(count, f) && Counts(count, g) && Grows(f) && Grows(g)
    requires forall z :: Split(ok(z), f(z), g(z))
    ensures Split(AlongUntil(count, g, ok, target, s), Until(count, f, target, s), Until(count, g, target, s))
    decreases target - count(s)
  {
    if count(s) < target {
      assert Split(ok(s), f(s), g(s));
      if ok(s) {
        UntilSplits(count, f, g, ok, target, g(s));
      } else {
        UntilGrows(count, f, target, f(s));
        UntilGrows(count, g, target, g(s));
        ApartKept(f(s), g(s), Until(count, f, target, s), Until(count, g, target, s));
      }
    }
  }

  lemma {:induction false} FoldSplits<X(!new)>(
      f: (PlanState, X) -> PlanState, g: (PlanState, X) -> PlanState, ok: (PlanState, X) -> bool,
      s: PlanState, xs: seq<X>)
    requires GrowsBy(f) && GrowsBy(g) && forall z, x :: Split(ok(z, x), f(z, x), g(z, x))
    ensures Split(AlongFold(g, ok, s, xs), Fold(f, s, xs), Fold(g, s, xs))
    decreases |xs|
  {
    if xs != [] {
      var x, rest := xs[0], xs[1..];
      assert Split(ok(s, x), f(s, x), g(s, x));
      if ok(s, x) {
        FoldSplits(f, g, ok, g(s, x), rest);
      } else {
        FoldGrows(f, f(s, x), rest);
        FoldGrows(g, g(s, x), rest);
        ApartKept(f(s, x), g(s, x), Fold(f, s, xs), Fold(g, s, xs));
      }
    }
  }

  // ---------- the first candidate of a node ----------

  ghost function OnNode(n: Id): Candidate -> bool {
    (c: Candidate) => c.node.id == n
  }

  lemma {:induction false} FirstOfNode(
      cands: seq<Candidate>, held: Id -> bool, ok: Candidate -> bool, seen: set<Id>)
    requires FirstNode(cands, held, ok, seen).Some?
    ensures var c := FirstNode(cands, held, ok, seen).value;
            c.node.id !in seen && Head(Filter(cands, OnNode(c.node.id))) == Some(c)
  {
    var c, rest := cands[0], cands[1..];
    var found := FirstNode(cands, held, ok, seen).value;
    assert cands == [c] + rest;
    FilterCons(c, rest, OnNode(found.node.id));
    if c.node.id in seen || held(c.node.id) {
      FirstOfNode(rest, held, ok, seen);
    } else if !ok(c) {
      FirstOfNode(rest, held, ok, seen + {c.node.id});
    }
  }

  /** Both sides judge a node by its first candidate; two different first candidates of one node
      have different variants. */
  lemma FirstsDiffer(db: Database, item: Item, c: Candidate, e: Candidate, n: Id)
    requires var raw := RawCandidates(db, item.profile, item.policy);
             && Head(Filter(StableSort(raw, CandidateOrder(item.profile.id, item.policy)), OnNode(n))) == Some(c)
             && Head(Filter(StableSort(raw, ExplainOrder(item.profile.id, item.policy)), OnNode(n))) == Some(e)
    requires c != e
    ensures c.effective.runtimeVariantId != e.effective.runtimeVariantId
  {
    var raw, pid, policy := RawCandidates(db, item.profile, item.policy), item.profile.id, item.policy;
    var coarse, fine, here := CandidateOrder(pid, policy), ExplainOrder(pid, policy), Filter(raw, OnNode(n));
    CandidateOrderWeak(pid, policy);
    ExplainOrderWeak(pid, policy);
    FilterStableSort(raw, OnNode(n), coarse);
    FilterStableSort(raw, OnNode(n), fine);
    StableSortMember(here, coarse, c);
    StableSortMember(here, fine, e);
    SameHead(here, coarse, fine);
    var x :| x in here && fine(x, c);
    NotBelowHead(here, fine, x);
    NotBelowHead(here, coarse, e);
    FinerMeansShadows(item, e, c);
    LexIrreflexive(c.effective.runtimeVariantId);
  }

  lemma PlainCacheSearch(db: Database, now: Time, st: PlanState, item: Item, c: Candidate)
    requires NextCache(Env(db, now, false), st, item) == Some(c)
    ensures Head(Filter(StableSort(RawCandidates(db, item.profile, item.policy),
                                   CandidateOrder(item.profile.id, item.policy)), OnNode(c.node.id))) == Some(c)
  {
    FirstOfNode(PlacementCandidates(db, item.profile, item.policy), Holds(st, item.profile.id),
                CacheChoice(Env(db, now, false), st, item), {});
  }

  // ---------- the two choices for a cached copy ----------

  /** The candidate that decides for its node when equally scored variants go by their IDs. */
  ghost predicate DecidesNode(db: Database, item: Item, e: Candidate) {
    Head(Filter(StableSort(RawCandidates(db, item.profile, item.policy), ExplainOrder(item.profile.id, item.policy)),
                OnNode(e.node.id))) == Some(e)
  }

  /** It decides for its node, the node does not hold the profile yet, and it may be cached there. */
  ghost predicate Contender(db: Database, now: Time, st: PlanState, item: Item, e: Candidate) {
    && DecidesNode(db, item, e) && !Holds(st, item.profile.id)(e.node.id)
    && CanUse(Env(db, now, false), st, item, e, false)
  }

  /** A search by nodes passes over no candidate that decides for its node and would do. */
  lemma {:induction false} FirstNodePasses(
      cands: seq<Candidate>, held: Id -> bool, ok: Candidate -> bool, seen: set<Id>, e: Candidate,
      upTo: (Candidate, Candidate) -> bool)
    requires Head(Filter(cands, OnNode(e.node.id))) == Some(e) && ok(e) && !held(e.node.id) && e.node.id !in seen
    requires Pairwise(cands, upTo)
    ensures var found := FirstNode(cands, held, ok, seen); found.Some? && (found.value == e || upTo(found.value, e))
  {
    var c, rest := cands[0], cands[1..];
    assert cands == [c] + rest;
    FilterCons(c, rest, OnNode(e.node.id));
    if c.node.id in seen || held(c.node.id) {
      FirstNodePasses(rest, held, ok, seen, e, upTo);
    } else if !ok(c) {
      FirstNodePasses(rest, held, ok, seen + {c.node.id}, e, upTo);
    } else if c != e {
      FilterMember(rest, OnNode(e.node.id), e);
    }
  }

  lemma ExplainCacheSearch(db: Database, now: Time, st: PlanState, item: Item)
    requires WellKeyed(db)
    ensures NextCache(Env(db, now, true), st, item)
         == FirstNode(StableSort(RawCandidates(db, item.profile, item.policy),
                                 ExplainOrder(item.profile.id, item.policy)),
                      Holds(st, item.profile.id), CacheChoice(Env(db, now, false), st, item), {})
  {
    var env, plain := Env(db, now, true), Env(db, now, false);
    var cands := ExplainCandidates(db, item.profile, item.policy);
    var ok, both := CacheChoice(plain, st, item), CacheAdmission(env, st, item);
    forall c | c in cands ensures both(c) == (Admitted(item)(c) && ok(c)) {
      ExplainedAllHonest(db, item, c);
      NoCacheReasons(env, st, item, c);
    }
    FirstNodeFiltered(cands, Admitted(item), Holds(st, item.profile.id), ok, both, {});
    AdmittedSorted(db, item);
  }

  lemma ExplainedContends(db: Database, now: Time, st: PlanState, item: Item, e: Candidate)
    requires WellKeyed(db) && NextCache(Env(db, now, true), st, item) == Some(e)
    ensures Contender(db, now, st, item, e)
  {
    ExplainCacheSearch(db, now, st, item);
    FirstOfNode(StableSort(RawCandidates(db, item.profile, item.policy), ExplainOrder(item.profile.id, item.policy)),
                Holds(st, item.profile.id), CacheChoice(Env(db, now, false), st, item), {});
  }

  /** No contender comes before the one the explaining search takes. */
  lemma ExplainedIsFirst(db: Database, now: Time, st: PlanState, item: Item, e: Candidate)
    requires WellKeyed(db) && Contender(db, now, st, item, e)
    ensures var found := NextCache(Env(db, now, true), st, item);
            found.Some? && !ExplainOrder(item.profile.id, item.policy)(e, found.value)
  {
    var raw, fine := RawCandidates(db, item.profile, item.policy), ExplainOrder(item.profile.id, item.policy);
    ExplainCacheSearch(db, now, st, item);
    ExplainOrderWeak(item.profile.id, item.policy);
    StableSortSorted(raw, fine);
    NotBelowItself(fine, e);
    var upTo := (x: Candidate, y: Candidate) => !fine(y, x);
    PairwiseFrom(StableSort(raw, fine), upTo);
    FirstNodePasses(StableSort(raw, fine), Holds(st, item.profile.id), CacheChoice(Env(db, now, false), st, item), {},
                    e, upTo);
  }

  lemma DecidesMember(db: Database, item: Item, e: Candidate)
    requires DecidesNode(db, item, e)
    ensures e in RawCandidates(db, item.profile, item.policy)
  {
    var raw, fine := RawCandidates(db, item.profile, item.policy), ExplainOrder(item.profile.id, item.policy);
    FilterMember(StableSort(raw, fine), OnNode(e.node.id), e);
    StableSortMember(raw, fine, e);
  }

  lemma SlotGivesNode(db: Database, item: Item, c: Candidate, e: Candidate)
    requires WellKeyed(db) && c.slot.id == e.slot.id
    requires c in RawCandidates(db, item.profile, item.policy) && e in RawCandidates(db, item.profile, item.policy)
    ensures c.node == e.node
  {
    var raw, coarse := RawCandidates(db, item.profile, item.policy), CandidateOrder(item.profile.id, item.policy);
    StableSortMember(raw, coarse, c);
    StableSortMember(raw, coarse, e);
    CandidatesComplete(db, item, c);
    CandidatesComplete(db, item, e);
  }

  /** Contenders that tie are the same candidate. */
  lemma ContendersDiffer(db: Database, now: Time, st: PlanState, item: Item, c: Candidate, e: Candidate)
    requires WellKeyed(db) && Contender(db, now, st, item, c) && Contender(db, now, st, item, e)
    requires var fine := ExplainOrder(item.profile.id, item.policy); !fine(c, e) && !fine(e, c)
    ensures c == e
  {
    if c.slot.id != e.slot.id {
      LexTotal(c.slot.id, e.slot.id);
    }
    DecidesMember(db, item, c);
    DecidesMember(db, item, e);
    SlotGivesNode(db, item, c, e);
  }

  /** The choice for a cached copy is itself a contender, and no contender comes before it. */
  ghost function CacheUnshadowed(db: Database, now: Time, item: Item): PlanState -> bool {
    (st: PlanState) =>
      var next := NextCache(Env(db, now, false), st, item);
      && (next.Some? ==> Contender(db, now, st, item, next.value))
      && forall e :: Contender(db, now, st, item, e) ==>
           next.Some? && !ExplainOrder(item.profile.id, item.policy)(e, next.value)
  }

  /** The two planners choose the same candidate for a cached copy exactly when the choice
      without an explainer is the first contender. */
  lemma CacheChoicesAgree(db: Database, now: Time, st: PlanState, item: Item)
    requires WellKeyed(db)
    ensures NextCache(Env(db, now, true), st, item) == NextCache(Env(db, now, false), st, item) <==>
            CacheUnshadowed(db, now, item)(st)
  {
    var explained, next := NextCache(Env(db, now, true), st, item), NextCache(Env(db, now, false), st, item);
    if explained.Some? {
      ExplainedContends(db, now, st, item, explained.value);
    }
    forall e | Contender(db, now, st, item, e)
      ensures explained.Some? && !ExplainOrder(item.profile.id, item.policy)(e, explained.value)
    {
      ExplainedIsFirst(db, now, st, item, e);
    }
    if CacheUnshadowed(db, now, item)(st) && next.Some? {
      ContendersDiffer(db, now, st, item, next.value, explained.value);
    }
  }

  // ---------- rounds for warm copies ----------

  /** No admissible candidate shadows the one chosen for a warm copy. */
  ghost function WarmUnshadowed(db: Database, now: Time, item: Item): PlanState -> bool {
    (st: PlanState) =>
      var next := NextWarm(Env(db, now, false), st, item);
      next.Some? ==>
        forall d :: Placeable(db, item, d) && WarmOk(Env(db, now, false), st, item, d) ==> !Shadows(item, d, next.value)
  }

  lemma AppendApart(x: PlanState, y: PlanState, st: PlanState, a: Assignment, b: Assignment)
    requires x.assignments == st.assignments + [a] && y.assignments == st.assignments + [b] && Rivals(a, b)
    ensures Apart(x, y)
  {
    var k := |st.assignments|;
    assert x.assignments[..k] == st.assignments == y.assignments[..k];
    assert ApartAt(x.assignments, y.assignments, k);
  }

  lemma WarmAppends(env: Env, st: PlanState, item: Item, c: Candidate)
    ensures AcceptWarm(env, st, item, c, false).assignments
         == st.assignments + [WarmAssignment(item.profile.id, c.effective, c.slot, c.fit, env.now)]
  {
  }

  lemma CacheAppends(db: Database, st: PlanState, pid: Id, c: Candidate, a: Assignment)
    ensures BookCache(db, st, pid, c, a).assignments == st.assignments + [a]
  {
  }

  lemma ShadowedWarmRivals(item: Item, d: Candidate, c: Candidate, now: Time)
    requires Shadows(item, d, c)
    ensures Rivals(WarmAssignment(item.profile.id, d.effective, d.slot, d.fit, now),
                   WarmAssignment(item.profile.id, c.effective, c.slot, c.fit, now))
  {
    LexIrreflexive(c.effective.runtimeVariantId);
  }

  lemma SameWarmRound(db: Database, now: Time, st: PlanState, item: Item)
    requires NextWarm(Env(db, now, true), st, item) == NextWarm(Env(db, now, false), st, item)
    ensures PlaceOneWarm(Env(db, now, true), st, item) == PlaceOneWarm(Env(db, now, false), st, item)
  {
  }

  lemma WarmRoundSplits(db: Database, now: Time, st: PlanState, item: Item)
    requires WellKeyed(db)
    ensures Split(WarmUnshadowed(db, now, item)(st), PlaceOneWarm(Env(db, now, true), st, item),
                  PlaceOneWarm(Env(db, now, false), st, item))
  {
    var env, plain := Env(db, now, true), Env(db, now, false);
    ChoicesAgree(db, now, st, item);
    if WarmUnshadowed(db, now, item)(st) {
      SameWarmRound(db, now, st, item);
    } else {
      var c := NextWarm(plain, st, item).value;
      var d :| Placeable(db, item, d) && WarmOk(plain, st, item, d) && Shadows(item, d, c);
      OutOfOrderDiverges(db, now, st, item, c, d);
      var e := NextWarm(env, st, item).value;
      WarmAppends(env, st, item, e);
      WarmAppends(plain, st, item, c);
      ShadowedWarmRivals(item, e, c, now);
      AppendApart(PlaceOneWarm(env, st, item), PlaceOneWarm(plain, st, item), st,
                  WarmAssignment(item.profile.id, e.effective, e.slot, e.fit, now),
                  WarmAssignment(item.profile.id, c.effective, c.slot, c.fit, now));
    }
  }

  // ---------- rounds for cached copies ----------

  lemma CacheRivals(db: Database, now: Time, st: PlanState, item: Item, e: Candidate, c: Candidate)
    requires WellKeyed(db) && c != e
    requires NextCache(Env(db, now, true), st, item) == Some(e) && NextCache(Env(db, now, false), st, item) == Some(c)
    ensures Rivals(CacheAssignment(item.profile.id, e, now), CacheAssignment(item.profile.id, c, now))
  {
    ExplainedContends(db, now, st, item, e);
    PlainCacheSearch(db, now, st, item, c);
    if c.node.id == e.node.id {
      FirstsDiffer(db, item, c, e, c.node.id);
    }
  }

  /** What a round for a cached copy emits. */
  function CacheEmits(env: Env, st: PlanState, item: Item): Assignment {
    match NextCache(env, st, item)
    case None => MissingAssignment(item.profile.id, Get(st.missing, item.profile.id), false, env.now)
    case Some(c) => CacheAssignment(item.profile.id, c, env.now)
  }

  lemma CacheRoundAppends(env: Env, st: PlanState, item: Item)
    ensures PlaceOneCache(env, st, item).assignments == st.assignments + [CacheEmits(env, st, item)]
  {
    var next := NextCache(env, st, item);
    if next.Some? {
      CacheAppends(env.db, st, item.profile.id, next.value, CacheAssignment(item.profile.id, next.value, env.now));
    }
  }

  lemma MissingRivals(pid: Id, n: int, c: Candidate, now: Time)
    ensures var missing := MissingAssignment(pid, n, false, now);
            Rivals(missing, CacheAssignment(pid, c, now)) && Rivals(CacheAssignment(pid, c, now), missing)
  {
  }

  lemma EmitsDiffer(db: Database, now: Time, st: PlanState, item: Item)
    requires WellKeyed(db) && !CacheUnshadowed(db, now, item)(st)
    ensures Rivals(CacheEmits(Env(db, now, true), st, item), CacheEmits(Env(db, now, false), st, item))
  {
    var explained, chosen := NextCache(Env(db, now, true), st, item), NextCache(Env(db, now, false), st, item);
    CacheChoicesAgree(db, now, st, item);
    if explained.Some? && chosen.Some? {
      CacheRivals(db, now, st, item, explained.value, chosen.value);
    } else {
      var c := if explained.Some? then explained.value else chosen.value;
      MissingRivals(item.profile.id, Get(st.missing, item.profile.id), c, now);
    }
  }

  lemma SameCacheRound(db: Database, now: Time, st: PlanState, item: Item)
    requires NextCache(Env(db, now, true), st, item) == NextCache(Env(db, now, false), st, item)
    ensures PlaceOneCache(Env(db, now, true), st, item) == PlaceOneCache(Env(db, now, false), st, item)
  {
  }

  lemma CacheRoundSplits(db: Database, now: Time, st: PlanState, item: Item)
    requires WellKeyed(db)
    ensures Split(CacheUnshadowed(db, now, item)(st), PlaceOneCache(Env(db, now, true), st, item),
                  PlaceOneCache(Env(db, now, false), st, item))
  {
    var env, plain := Env(db, now, true), Env(db, now, false);
    CacheChoicesAgree(db, now, st, item);
    if CacheUnshadowed(db, now, item)(st) {
      SameCacheRound(db, now, st, item);
    } else {
      CacheRoundAppends(env, st, item);
      CacheRoundAppends(plain, st, item);
      EmitsDiffer(db, now, st, item);
      AppendApart(PlaceOneCache(env, st, item), PlaceOneCache(plain, st, item), st,
                  CacheEmits(env, st, item), CacheEmits(plain, st, item));
    }
  }

  // ---------- the rounds ----------

  lemma WarmGrows(env: Env, item: Item)
    ensures Grows(WarmBody(env, item))
  {
    forall z ensures Extends(z, WarmBody(env, item)(z)) {
      if NextWarm(env, z, item).Some? {
        WarmAppends(env, z, item, NextWarm(env, z, item).value);
      }
    }
  }

  lemma CacheGrows(env: Env, item: Item)
    ensures Grows(CacheBody(env, item))
  {
    forall z ensures Extends(z, CacheBody(env, item)(z)) {
      CacheRoundAppends(env, z, item);
    }
  }

  /** No choice for a warm copy of the item is shadowed while its copies are placed. */
  ghost function WarmItemUnshadowed(db: Database, now: Time, round: Round): (PlanState, Item) -> bool {
    (st: PlanState, item: Item) =>
      WarmBodyCounts(Env(db, now, false), item);
      AlongUntil(WarmCount(item.profile.id), WarmBody(Env(db, now, false), item), WarmUnshadowed(db, now, item),
                 WarmTarget(item, round), st)
  }

  ghost function CacheItemUnshadowed(db: Database, now: Time, round: Round): (PlanState, Item) -> bool {
    (st: PlanState, item: Item) =>
      CacheBodyCounts(Env(db, now, false), item);
      AlongUntil(CacheCount(item.profile.id), CacheBody(Env(db, now, false), item), CacheUnshadowed(db, now, item),
                 CacheTarget(item, round), st)
  }

  lemma WarmItemSplits(db: Database, now: Time, round: Round, st: PlanState, item: Item)
    requires WellKeyed(db)
    ensures Split(WarmItemUnshadowed(db, now, round)(st, item), AllWarmBody(Env(db, now, true), round)(st, item),
                  AllWarmBody(Env(db, now, false), round)(st, item))
  {
    var env, plain := Env(db, now, true), Env(db, now, false);
    WarmBodyCounts(env, item);
    WarmBodyCounts(plain, item);
    WarmGrows(env, item);
    WarmGrows(plain, item);
    forall z ensures Split(WarmUnshadowed(db, now, item)(z), WarmBody(env, item)(z), WarmBody(plain, item)(z)) {
      WarmRoundSplits(db, now, z, item);
    }
    UntilSplits(WarmCount(item.profile.id), WarmBody(env, item), WarmBody(plain, item), WarmUnshadowed(db, now, item),
                WarmTarget(item, round), st);
  }

  lemma CacheItemSplits(db: Database, now: Time, round: Round, st: PlanState, item: Item)
    requires WellKeyed(db)
    ensures Split(CacheItemUnshadowed(db, now, round)(st, item), AllCacheBody(Env(db, now, true), round)(st, item),
                  AllCacheBody(Env(db, now, false), round)(st, item))
  {
    var env, plain := Env(db, now, true), Env(db, now, false);
    CacheBodyCounts(env, item);
    CacheBodyCounts(plain, item);
    CacheGrows(env, item);
    CacheGrows(plain, item);
    forall z ensures Split(CacheUnshadowed(db, now, item)(z), CacheBody(env, item)(z), CacheBody(plain, item)(z)) {
      CacheRoundSplits(db, now, z, item);
    }
    UntilSplits(CacheCount(item.profile.id), CacheBody(env, item), CacheBody(plain, item),
                CacheUnshadowed(db, now, item), CacheTarget(item, round), st);
  }

  lemma WarmPhaseGrows(env: Env, round: Round)
    ensures GrowsBy(AllWarmBody(env, round))
  {
    forall z, item ensures Extends(z, AllWarmBody(env, round)(z, item)) {
      WarmBodyCounts(env, item);
      WarmGrows(env, item);
      UntilGrows(WarmCount(item.profile.id), WarmBody(env, item), WarmTarget(item, round), z);
    }
  }

  lemma CachePhaseGrows(env: Env, round: Round)
    ensures GrowsBy(AllCacheBody(env, round))
  {
    forall z, item ensures Extends(z, AllCacheBody(env, round)(z, item)) {
      CacheBodyCounts(env, item);
      CacheGrows(env, item);
      UntilGrows(CacheCount(item.profile.id), CacheBody(env, item), CacheTarget(item, round), z);
    }
  }

  /** A placement round: the warm copies of all items, then their cached copies. */
  function PlaceRound(env: Env, st: PlanState, items: seq<Item>, round: Round): PlanState {
    PlaceAllCache(env, PlaceAllWarm(env, st, items, round), items, round)
  }

  ghost predicate RoundUnshadowed(db: Database, now: Time, st: PlanState, items: seq<Item>, round: Round) {
    var plain := Env(db, now, false);
    && AlongFold(AllWarmBody(plain, round), WarmItemUnshadowed(db, now, round), st, items)
    && AlongFold(AllCacheBody(plain, round), CacheItemUnshadowed(db, now, round),
                 PlaceAllWarm(plain, st, items, round), items)
  }

  lemma RoundGrows(env: Env, st: PlanState, items: seq<Item>, round: Round)
    ensures Extends(PlaceAllWarm(env, st, items, round), PlaceRound(env, st, items, round))
    ensures Extends(st, PlaceRound(env, st, items, round))
  {
    WarmPhaseGrows(env, round);
    CachePhaseGrows(env, round);
    FoldGrows(AllWarmBody(env, round), st, items);
    FoldGrows(AllCacheBody(env, round), PlaceAllWarm(env, st, items, round), items);
  }

  lemma WarmPhaseSplits(db: Database, now: Time, st: PlanState, items: seq<Item>, round: Round)
    requires WellKeyed(db)
    ensures Split(AlongFold(AllWarmBody(Env(db, now, false), round), WarmItemUnshadowed(db, now, round), st, items),
                  PlaceAllWarm(Env(db, now, true), st, items, round),
                  PlaceAllWarm(Env(db, now, false), st, items, round))
  {
    var f, g := AllWarmBody(Env(db, now, true), round), AllWarmBody(Env(db, now, false), round);
    WarmPhaseGrows(Env(db, now, true), round);
    WarmPhaseGrows(Env(db, now, false), round);
    forall z, x ensures Split(WarmItemUnshadowed(db, now, round)(z, x), f(z, x), g(z, x)) {
      WarmItemSplits(db, now, round, z, x);
    }
    FoldSplits(f, g, WarmItemUnshadowed(db, now, round), st, items);
  }

  lemma CachePhaseSplits(db: Database, now: Time, st: PlanState, items: seq<Item>, round: Round)
    requires WellKeyed(db)
    ensures Split(AlongFold(AllCacheBody(Env(db, now, false), round), CacheItemUnshadowed(db, now, round), st, items),
                  PlaceAllCache(Env(db, now, true), st, items, round),
                  PlaceAllCache(Env(db, now, false), st, items, round))
  {
    var f, g := AllCacheBody(Env(db, now, true), round), AllCacheBody(Env(db, now, false), round);
    CachePhaseGrows(Env(db, now, true), round);
    CachePhaseGrows(Env(db, now, false), round);
    forall z, x ensures Split(CacheItemUnshadowed(db, now, round)(z, x), f(z, x), g(z, x)) {
      CacheItemSplits(db, now, round, z, x);
    }
    FoldSplits(f, g, CacheItemUnshadowed(db, now, round), st, items);
  }

  lemma RoundSplits(db: Database, now: Time, st: PlanState, items: seq<Item>, round: Round)
    requires WellKeyed(db)
    ensures Split(RoundUnshadowed(db, now, st, items, round), PlaceRound(Env(db, now, true), st, items, round),
                  PlaceRound(Env(db, now, false), st, items, round))
  {
    var env, plain := Env(db, now, true), Env(db, now, false);
    var x, y := PlaceAllWarm(env, st, items, round), PlaceAllWarm(plain, st, items, round);
    WarmPhaseSplits(db, now, st, items, round);
    if x == y {
      CachePhaseSplits(db, now, y, items, round);
    }
    if Apart(x, y) {
      RoundGrows(env, st, items, round);
      RoundGrows(plain, st, items, round);
      ApartKept(x, y, PlaceRound(env, st, items, round), PlaceRound(plain, st, items, round));
    }
  }

  // ---------- the whole placement ----------

  /** Along the placement without an explainer no choice is shadowed. */
  ghost predicate NeverShadowed(db: Database, now: Time, items: seq<Item>) {
    var plain := Env(db, now, false);
    var fixed := Fixed(plain, items);
    && RoundUnshadowed(db, now, fixed, ByNeed(items), Minimum)
    && RoundUnshadowed(db, now, PlaceRound(plain, fixed, ByNeed(items), Minimum), ByDemand(items), Full)
  }

  lemma PlacedSplits(db: Database, now: Time, items: seq<Item>)
    requires WellKeyed(db)
    ensures Split(NeverShadowed(db, now, items), Placed(Env(db, now, true), items), Placed(Env(db, now, false), items))
  {
    var env, plain := Env(db, now, true), Env(db, now, false);
    var byNeed := ByNeed(items);
    var byDemand := ByDemand(items);
    SameFixed(db, now, items);
    var fixed := Fixed(plain, items);
    var x, y := PlaceRound(env, fixed, byNeed, Minimum), PlaceRound(plain, fixed, byNeed, Minimum);
    RoundSplits(db, now, fixed, byNeed, Minimum);
    if x == y {
      RoundSplits(db, now, y, byDemand, Full);
    }
    if Apart(x, y) {
      RoundGrows(env, x, byDemand, Full);
      RoundGrows(plain, y, byDemand, Full);
      ApartKept(x, y, PlaceRound(env, x, byDemand, Full), PlaceRound(plain, y, byDemand, Full));
    }
  }

  // ---------- the final sort keeps rivals in order ----------

  lemma AssignmentOrderWeak()
    ensures StrictWeakOrder(AssignmentOrder())
  {
    var less := AssignmentOrder();
    forall a, b | less(a, b) ensures !less(b, a) {
      if a.profileId == b.profileId {
        LexAsymmetric(a.slotId, b.slotId);
      } else {
        LexAsymmetric(a.profileId, b.profileId);
      }
    }
    forall a, b, c | !less(a, b) && !less(b, c) ensures !less(a, c) {
      KeysNegTransitive(a.profileId, a.slotId, b.profileId, b.slotId, c.profileId, c.slotId);
    }
  }

  predicate KeyLess(p: string, s: string, q: string, t: string) {
    if p == q then LexLess(s, t) else LexLess(p, q)
  }

  lemma KeysNegTransitive(p: string, s: string, q: string, t: string, r: string, u: string)
    requires !KeyLess(p, s, q, t) && !KeyLess(q, t, r, u)
    ensures !KeyLess(p, s, r, u)
  {
    LexIrreflexive(p);
    LexIrreflexive(r);
    if p == q == r {
      LexNegTransitive(s, t, u);
    } else if p == r {
      LexTotal(p, q);
    } else {
      LexNegTransitive(p, q, r);
    }
  }

  ghost function Keyed(pid: Id, slotId: Id): Assignment -> bool {
    (a: Assignment) => a.profileId == pid && a.slotId == slotId
  }

  lemma {:induction false} FilterMap<T>(s: seq<T>, p: T -> bool, f: T -> T)
    requires forall x :: x in s ==> p(f(x)) == p(x)
    ensures Filter(Map(s, f), p) == Map(Filter(s, p), f)
  {
    if s != [] {
      var x, rest := s[0], s[1..];
      assert s == [x] + rest;
      FilterMap(rest, p, f);
      PlanTerms.MapCons(x, rest, f);
      FilterCons(f(x), Map(rest, f), p);
      FilterCons(x, rest, p);
      PlanTerms.MapCons(x, Filter(rest, p), f);
    }
  }

  /** Among assignments of one profile and slot, the finished plan keeps the order of placement. */
  lemma FinishKeepsOrder(st: PlanState, items: seq<Item>, pid: Id, slotId: Id)
    requires forall a :: a in st.assignments ==> !a.draining
    ensures Map(Filter(Finish(st, items), Keyed(pid, slotId)), PlanTerms.Undrained())
         == Filter(st.assignments, Keyed(pid, slotId))
  {
    var p, less, drained := Keyed(pid, slotId), AssignmentOrder(), MarkDraining(st, ByDemand(items)).assignments;
    AssignmentOrderWeak();
    FilterStableSort(drained, p, less);
    forall x, y | x in Filter(drained, p) && y in Filter(drained, p) ensures !less(x, y) {
      FilterMember(drained, p, x);
      FilterMember(drained, p, y);
      LexIrreflexive(slotId);
    }
    SortTies(Filter(drained, p), less);
    FilterMap(drained, p, PlanTerms.Undrained());
    PlanTerms.UndrainDrain(st.assignments, st.protectedIds, WarmTargets(ByDemand(items)), WarmCounts(st.assignments));
  }

  lemma FilterPast(s: seq<Assignment>, p: Assignment -> bool, k: nat)
    requires k < |s| && p(s[k])
    ensures |Filter(s[..k], p)| < |Filter(s, p)| && Filter(s, p)[|Filter(s[..k], p)|] == s[k]
  {
    assert s == s[..k] + s[k..] && s[k..] == [s[k]] + s[k + 1..];
    FilterConcat(s[..k], s[k..], p);
    FilterCons(s[k], s[k + 1..], p);
  }

  lemma ApartFinish(x: PlanState, y: PlanState, items: seq<Item>)
    requires Apart(x, y)
    requires forall a :: a in x.assignments || a in y.assignments ==> !a.draining
    ensures Finish(x, items) != Finish(y, items)
  {
    var k: nat :| ApartAt(x.assignments, y.assignments, k);
    var a := x.assignments[k];
    var p := Keyed(a.profileId, a.slotId);
    FinishKeepsOrder(x, items, a.profileId, a.slotId);
    FinishKeepsOrder(y, items, a.profileId, a.slotId);
    FilterPast(x.assignments, p, k);
    FilterPast(y.assignments, p, k);
  }

  // ---------- the plans ----------

  /** Explaining leaves the plan as it is exactly when no choice along the run without an
      explainer is shadowed. */
  lemma PlansAgree(db: Database, now: Time, cooldown: int)
    requires WellKeyed(db)
    ensures PlanPlacement(db, now, cooldown, true) == PlanPlacement(db, now, cooldown, false) <==>
            NeverShadowed(db, now, PolicyItems(db, now, cooldown))
  {
    var items := PolicyItems(db, now, cooldown);
    PlacedSplits(db, now, items);
    var x, y := Placed(Env(db, now, true), items), Placed(Env(db, now, false), items);
    if Apart(x, y) {
      Drain.PlacedUndrained(Env(db, now, true), items);
      Drain.PlacedUndrained(Env(db, now, false), items);
      ApartFinish(x, y, items);
    }
  }
}
