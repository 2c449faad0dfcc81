/** The fit check and the scans over variants as they run: a verdict filled in place, and
    loops over variants and artifacts (internal/comrad/fit.go, internal/comrad/profile_fit.go,
    internal/comrad/placement_capacity.go). */
module FitLoops {
  import opened Base
  import opened Model
  import opened Fit
  import opened Demand
  import opened Placement
  import PlannerLoops

  lemma Append3<T>(r: seq<T>, a: seq<T>, b: seq<T>, c: seq<T>)
    ensures r + (a + b + c) == r + a + b + c
  {
  }

  lemma Append4<T>(r: seq<T>, a: seq<T>, b: seq<T>, c: seq<T>, d: seq<T>)
    ensures r + (a + b + c + d) == r + a + b + c + d
  {
    Append3(r, a, b, c);
  }

  /** The result the checks write to. */
  class Verdict {
    var fits: bool
    var reasons: seq<string>

    constructor ()
      ensures fits && reasons == []
    {
      fits, reasons := true, [];
    }

    /** The verdict holds exactly these reasons, and fits exactly when there are none. */
    ghost predicate Holds(r: seq<string>)
      reads this
    {
      reasons == r && (fits <==> r == [])
    }

    method Mark(reason: string)
      requires Holds(reasons)
      modifies this
      ensures Holds(old(reasons) + [reason])
    {
      fits := false;
      reasons := reasons + [reason];
    }

    method MarkIf(condition: bool, reason: string) returns (ghost added: seq<string>)
      requires Holds(reasons) && reason != ""
      modifies this
      ensures added == If(condition, reason) && Holds(old(reasons) + added)
    {
      added := If(condition, reason);
      if condition {
        Mark(reason);
      }
    }

    method CheckNodeAdmission(node: Node, slot: Slot, req: Requirements) returns (ghost added: seq<string>)
      requires Holds(reasons)
      modifies this
      ensures added == NodeAdmissionReasons(node, slot, req) && Holds(old(reasons) + added)
    {
      added := NodeAdmissionReasons(node, slot, req);
      ghost var before := reasons;
      var a := MarkIf(node.state == Disabled || node.mode == "disabled", "node_disabled");
      var b := MarkIf(node.quarantined, FAILURE_QUARANTINED);
      var c := MarkIf(slot.quarantined, FAILURE_QUARANTINED);
      var d := MarkIf(!node.approved, "node_not_approved");
      var e := MarkIf(req.target != "" && slot.target != req.target, "target_unsupported");
      var f := MarkIf(!HasAll(node.tags, req.requireTags), "missing_required_tags");
      Append4(before, a, b, c, d);
      Append3(before, a + b + c + d, e, f);
    }

    method CheckRuntimeAdapter(p: Profile, node: Node, slot: Slot, req: Requirements) returns (ghost added: seq<string>)
      requires Holds(reasons)
      modifies this
      ensures added == AdapterReasons(p, node, slot, req) && Holds(old(reasons) + added)
    {
      added := AdapterReasons(p, node, slot, req);
      var adapter := req.adapter;
      if adapter == "" {
        adapter := p.adapter;
      }
      if adapter == "" {
        return;
      }
      if slot.adapter != "" && slot.adapter != adapter {
        Mark("runtime_adapter_missing");
        return;
      }
      var _ := MarkIf(adapter !in node.adapters, "runtime_adapter_missing");
    }

    method CheckResources(have: Budget, req: Requirements) returns (ghost added: seq<string>)
      requires Holds(reasons)
      modifies this
      ensures added == ResourceReasons(have, req) && Holds(old(reasons) + added)
    {
      added := ResourceReasons(have, req);
      ghost var before := reasons;
      var a := MarkIf(req.ram > 0 && have.ram > 0 && have.ram < req.ram, "resource_exhausted_ram");
      var b := MarkIf(req.vram > 0 && have.vram > 0 && have.vram < req.vram, "resource_exhausted_vram");
      var c := MarkIf(req.unified > 0 && have.unified > 0 && have.unified < req.unified,
                      "resource_exhausted_unified_memory");
      var d := MarkIf(req.disk > 0 && have.disk > 0 && have.disk < req.disk, "resource_exhausted_disk");
      Append4(before, a, b, c, d);
    }

    method CheckLLMRequirements(p: Profile) returns (ghost added: seq<string>)
      requires Holds(reasons)
      modifies this
      ensures added == LLMReasons(p) && Holds(old(reasons) + added)
    {
      added := LLMReasons(p);
      if p.kind != "llm.chat" {
        return;
      }
      if p.llm == None {
        Mark("missing_llm_section");
        return;
      }
      var _ := MarkIf(ConcreteModelArtifactId(p) == "", "missing_model_artifact");
    }

    method CheckAll(p: Profile, node: Node, slot: Slot)
      requires Holds([])
      modifies this
      ensures Holds(FitReasons(p, node, slot))
    {
      if p.requirements == None {
        Mark("unknown_requirements");
        return;
      }
      var req := p.requirements.value;
      ghost var a := CheckNodeAdmission(node, slot, req);
      ghost var b := CheckRuntimeAdapter(p, node, slot, req);
      ghost var c := CheckResources(slot.resources, req);
      ghost var d := CheckLLMRequirements(p);
      Append4([], a, b, c, d);
    }
  }

  /** `FitProfileToSlot` on an effective profile. */
  method CheckFit(p: Profile, node: Node, slot: Slot) returns (r: FitResult)
    ensures r == FitProfileToSlot(p, node, slot) && (r.fits <==> SuitsSlot(p, node, slot))
  {
    FitsExactly(p, node, slot);
    var verdict := new Verdict();
    verdict.CheckAll(p, node, slot);
    r := FitResult(verdict.fits, StableSort(verdict.reasons, LexLess));
  }

  // ---------- scans over variants ----------

  /** The scan of `BestVariantForSlot`: it stops at the first variant that fits and collects the
      reasons of those before. */
  method ScanVariants(p: Profile, node: Node, slot: Slot) returns (k: nat, miss: seq<string>)
    ensures k == FirstFit(p, ProfileRuntimeVariants(p), node, slot)
    ensures k == |ProfileRuntimeVariants(p)| ==> miss == AllFitReasons(p, ProfileRuntimeVariants(p), node, slot)
  {
    var vs := ProfileRuntimeVariants(p);
    ghost var fits, reasons := FitsOn(p, node, slot), ReasonsOn(p, node, slot);
    k, miss := 0, [];
    while k < |vs|
      invariant k <= |vs| && k + FirstIndex(vs[k..], fits) == FirstIndex(vs, fits)
      invariant miss + FlatMap(vs[k..], reasons) == FlatMap(vs, reasons)
    {
      var fit := FitProfileToSlot(EffectiveProfileForVariant(p, vs[k]), node, slot);
      PlannerLoops.FirstIndexStep(vs, fits, k);
      FlatMapStep(vs, reasons, k, miss);
      if fit.fits {
        return;
      }
      miss := miss + fit.reasons;
      k := k + 1;
    }
    assert vs[k..] == [];
  }

  method FindBestVariant(p: Profile, node: Node, slot: Slot) returns (best: Profile, fit: FitResult)
    ensures (best, fit) == BestVariantForSlot(p, node, slot)
  {
    var vs := ProfileRuntimeVariants(p);
    var k, miss := ScanVariants(p, node, slot);
    if k < |vs| {
      best := EffectiveProfileForVariant(p, vs[k]);
      fit := FitProfileToSlot(best, node, slot);
    } else {
      best := if p.id == "" then p else EffectiveProfileForVariant(p, vs[|vs| - 1]);
      fit := FitResult(false, UniqueSorted(miss));
    }
  }

  /** `profileArtifactIDs`. */
  method CollectArtifactIds(p: Profile) returns (ids: seq<Id>)
    ensures ids == ProfileArtifactIds(p) && NoRepeats(ids)
  {
    ProfileArtifactIdsNoRepeats(p);
    ids := AppendIds([], p.artifacts);
    var vs := ProfileRuntimeVariants(p);
    ghost var goal := ProfileArtifactIds(p);
    for i := 0 to |vs|
      invariant VariantArtifacts(vs[i..], ids) == goal
    {
      assert vs[i..][0] == vs[i] && vs[i..][1..] == vs[i + 1..];
      ids := AppendIds(ids, vs[i].artifacts);
    }
  }

  method AppendIds(acc: seq<Id>, more: seq<Id>) returns (ids: seq<Id>)
    ensures ids == AppendAllUnique(acc, more)
  {
    ids := acc;
    for i := 0 to |more|
      invariant AppendAllUnique(ids, more[i..]) == AppendAllUnique(acc, more)
    {
      assert more[i..][0] == more[i] && more[i..][1..] == more[i + 1..];
      if more[i] == "" || more[i] in ids {
        continue;
      }
      ids := ids + [more[i]];
    }
  }

  // ---------- sizes ----------

  /** `profileDiskBytes`. */
  method SumDiskBytes(db: Database, p: Profile) returns (total: int)
    ensures total == DiskBytes(db, p)
  {
    if p.requirements != None && p.requirements.value.disk > 0 {
      return p.requirements.value.disk;
    }
    total := 0;
    for i := 0 to |p.artifacts|
      invariant total == Sum(p.artifacts[..i], ArtifactSize(db))
    {
      assert p.artifacts[..i + 1][..i] == p.artifacts[..i];
      total := total + if p.artifacts[i] in db.artifacts then db.artifacts[p.artifacts[i]].sizeBytes else 0;
    }
    assert p.artifacts[..|p.artifacts|] == p.artifacts;
  }

  function VariantSize(db: Database, p: Profile, v: Variant): int {
    var effective := EffectiveProfileForVariant(p, v);
    MemoryBytes(effective) + DiskBytes(db, effective)
  }

  /** The size bounds every variant's memory and disk from above, and is one of them, or 0 when all are negative. */
  lemma {:induction false} LargestVariantIs(db: Database, p: Profile, vs: seq<Variant>)
    ensures LargestVariant(db, p, vs) >= 0
    ensures forall v :: v in vs ==> VariantSize(db, p, v) <= LargestVariant(db, p, vs)
    ensures LargestVariant(db, p, vs) == 0 || exists v :: v in vs && VariantSize(db, p, v) == LargestVariant(db, p, vs)
  {
    if vs != [] {
      var last, rest := vs[|vs| - 1], vs[..|vs| - 1];
      assert vs == rest + [last];
      LargestVariantIs(db, p, rest);
      if LargestVariant(db, p, vs) == LargestVariant(db, p, rest) && LargestVariant(db, p, rest) != 0 {
        var v :| v in rest && VariantSize(db, p, v) == LargestVariant(db, p, rest);
        assert v in vs;
      } else {
        assert LargestVariant(db, p, vs) == 0 || VariantSize(db, p, last) == LargestVariant(db, p, vs);
      }
    }
  }

  /** `profilePlacementSize`: the largest variant. */
  method PlacementSize(db: Database, p: Profile) returns (size: int)
    ensures size == LargestVariant(db, p, ProfileRuntimeVariants(p)) && size >= 0
    ensures forall v :: v in ProfileRuntimeVariants(p) ==> VariantSize(db, p, v) <= size
    ensures size == 0 || exists v :: v in ProfileRuntimeVariants(p) && VariantSize(db, p, v) == size
  {
    var vs := ProfileRuntimeVariants(p);
    LargestVariantIs(db, p, vs);
    size := 0;
    for i := 0 to |vs|
      invariant size == LargestVariant(db, p, vs[..i])
    {
      assert vs[..i + 1][..i] == vs[..i];
      var effective := EffectiveProfileForVariant(p, vs[i]);
      size := Max(size, MemoryBytes(effective) + DiskBytes(db, effective));
    }
    assert vs[..|vs|] == vs;
  }

  /** `profileScarcity`: the number of nodes with a candidate. */
  method CountCandidateNodes(db: Database, p: Profile, policy: Policy) returns (n: int)
    ensures n == Scarcity(db, p, policy)
  {
    var cands := PlannerLoops.ListCandidates(db, p, policy);
    n := CountNodes(cands);
  }

  method CountNodes(cands: seq<Candidate>) returns (n: int)
    ensures n == var nodes := set c | c in cands :: c.node.id; if nodes == {} then 0x4000_0000 else |nodes|
  {
    var nodes: set<Id> := {};
    for i := 0 to |cands|
      invariant nodes == set c | c in cands[..i] :: c.node.id
    {
      assert cands[..i + 1] == cands[..i] + [cands[i]];
      nodes := nodes + {cands[i].node.id};
    }
    assert cands[..|cands|] == cands;
    n := if |nodes| == 0 then 0x4000_0000 else |nodes|;
  }
}
