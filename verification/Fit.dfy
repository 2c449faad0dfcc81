/** Runtime variants of a profile and whether an effective profile fits a slot
    (internal/comrad/profile_fit.go and internal/comrad/fit.go). */
module Fit {
  import opened Base
  import opened Model

  // ---------- variants ----------

  function ProfileVersion(p: Profile): int {
    if p.version > 0 then p.version else 1
  }

  function ProfileLogicalModel(p: Profile): string {
    if p.logicalModel != "" then p.logicalModel
    else if p.alias != "" then p.alias
    else if p.name != "" then p.name
    else p.id
  }

  function NormalizeVariant(p: Profile, v: Variant): Variant {
    var id := FirstNonEmpty(FirstNonEmpty(v.id, p.runtimeVariantId), p.id);
    var requirements := if v.requirements.None? then p.requirements else v.requirements;
    Variant(
      id,
      if v.target == "" && requirements.Some? then requirements.value.target else v.target,
      FirstNonEmpty(v.adapter, p.adapter),
      if v.artifacts == [] then p.artifacts else v.artifacts,
      requirements,
      if v.llm.None? then p.llm else v.llm,
      if v.args == [] then p.args else v.args)
  }

  function ProfileRuntimeVariants(p: Profile): (r: seq<Variant>)
    ensures r != []
  {
    if p.variants != [] then
      seq(|p.variants|, i requires 0 <= i < |p.variants| => NormalizeVariant(p, p.variants[i]))
    else
      [NormalizeVariant(p, Variant(p.runtimeVariantId, "", p.adapter, p.artifacts, p.requirements, p.llm, p.args))]
  }

  function EffectiveProfileForVariant(p: Profile, variant: Variant): Profile {
    var v := NormalizeVariant(p, variant);
    p.(logicalModel := ProfileLogicalModel(p), runtimeVariantId := v.id, adapter := v.adapter,
       artifacts := v.artifacts, requirements := v.requirements, llm := v.llm, args := v.args, variants := [])
  }

  function ConcreteModelArtifactId(p: Profile): Id {
    if p.artifacts != [] then p.artifacts[0] else ""
  }

  function ConcreteModelSHA256(p: Profile): string {
    NormalizeSHA256(ConcreteModelArtifactId(p))
  }

  /** The runtime profile an assignment stands for. */
  function EffectiveProfileForAssignment(p: Profile, a: Assignment): Profile {
    if a.runtimeVariantId == "" then p else FindVariant(p, ProfileRuntimeVariants(p), a.runtimeVariantId)
  }

  function FindVariant(p: Profile, variants: seq<Variant>, id: Id): Profile {
    if variants == [] then p
    else if variants[0].id == id then EffectiveProfileForVariant(p, variants[0])
    else FindVariant(p, variants[1..], id)
  }

  ghost predicate UniqueVariantIds(p: Profile) {
    var vs := ProfileRuntimeVariants(p);
    forall i, j :: 0 <= i < j < |vs| ==> vs[i].id != vs[j].id
  }

  lemma {:induction false} FindVariantFinds(p: Profile, variants: seq<Variant>, k: nat)
    requires k < |variants|
    requires forall i, j :: 0 <= i < j < |variants| ==> variants[i].id != variants[j].id
    ensures FindVariant(p, variants, variants[k].id) == EffectiveProfileForVariant(p, variants[k])
  {
    if k > 0 {
      assert variants[1..][k - 1] == variants[k];
      FindVariantFinds(p, variants[1..], k - 1);
    }
  }

  /** A normalised variant of a profile with an ID has an ID, and keeps it. */
  lemma VariantIdKept(p: Profile, v: Variant)
    requires p.id != "" && v in ProfileRuntimeVariants(p)
    ensures v.id != "" && EffectiveProfileForVariant(p, v).runtimeVariantId == v.id
  {
  }

  /** What the variant states wins over the profile, what it leaves out comes from the profile, and the rest of
      the effective profile is the profile's. */
  lemma VariantInherits(p: Profile, v: Variant)
    ensures var e := EffectiveProfileForVariant(p, v);
            && e.artifacts == (if v.artifacts != [] then v.artifacts else p.artifacts)
            && e.requirements == (if v.requirements.Some? then v.requirements else p.requirements)
            && e.adapter == (if v.adapter != "" then v.adapter else p.adapter)
            && e.llm == (if v.llm.Some? then v.llm else p.llm)
            && e.args == (if v.args != [] then v.args else p.args)
            && (v.id != "" ==> e.runtimeVariantId == v.id)
            && e.id == p.id && e.version == p.version && e.kind == p.kind && e.computeCost == p.computeCost
            && e.logicalModel == ProfileLogicalModel(p) && e.variants == []
  {
  }

  /** An assignment that carries a variant's ID is read back as that variant. */
  lemma AssignmentRoundTrip(p: Profile, v: Variant, a: Assignment)
    requires p.id != "" && UniqueVariantIds(p) && v in ProfileRuntimeVariants(p)
    requires a.runtimeVariantId == EffectiveProfileForVariant(p, v).runtimeVariantId
    ensures EffectiveProfileForAssignment(p, a) == EffectiveProfileForVariant(p, v)
  {
    VariantIdKept(p, v);
    var vs := ProfileRuntimeVariants(p);
    var k :| 0 <= k < |vs| && vs[k] == v;
    FindVariantFinds(p, vs, k);
  }

  // ---------- fit ----------

  datatype FitResult = FitResult(fits: bool, reasons: seq<string>)

  function If(b: bool, reason: string): (r: seq<string>)
    requires reason != ""
    ensures "" !in r
    ensures r == [] <==> !b
  {
    if b then [reason] else []
  }

  function NodeAdmissionReasons(node: Node, slot: Slot, req: Requirements): (r: seq<string>)
    ensures "" !in r
  {
    If(node.state == Disabled || node.mode == "disabled", "node_disabled")
    + If(node.quarantined, FAILURE_QUARANTINED)
    + If(slot.quarantined, FAILURE_QUARANTINED)
    + If(!node.approved, "node_not_approved")
    + If(req.target != "" && slot.target != req.target, "target_unsupported")
    + If(!HasAll(node.tags, req.requireTags), "missing_required_tags")
  }

  function AdapterReasons(p: Profile, node: Node, slot: Slot, req: Requirements): (r: seq<string>)
    ensures "" !in r
  {
    var adapter := FirstNonEmpty(req.adapter, p.adapter);
    if adapter == "" then []
    else if slot.adapter != "" && slot.adapter != adapter then ["runtime_adapter_missing"]
    else If(adapter !in node.adapters, "runtime_adapter_missing")
  }

  function ResourceReasons(have: Budget, req: Requirements): (r: seq<string>)
    ensures "" !in r
  {
    If(req.ram > 0 && have.ram > 0 && have.ram < req.ram, "resource_exhausted_ram")
    + If(req.vram > 0 && have.vram > 0 && have.vram < req.vram, "resource_exhausted_vram")
    + If(req.unified > 0 && have.unified > 0 && have.unified < req.unified, "resource_exhausted_unified_memory")
    + If(req.disk > 0 && have.disk > 0 && have.disk < req.disk, "resource_exhausted_disk")
  }

  function LLMReasons(p: Profile): (r: seq<string>)
    ensures "" !in r
  {
    if p.kind != "llm.chat" then []
    else if p.llm.None? then ["missing_llm_section"]
    else If(ConcreteModelArtifactId(p) == "", "missing_model_artifact")
  }

  function FitReasons(p: Profile, node: Node, slot: Slot): (r: seq<string>)
    ensures "" !in r
  {
    if p.requirements.None? then ["unknown_requirements"]
    else
      var req := p.requirements.value;
      NodeAdmissionReasons(node, slot, req) + AdapterReasons(p, node, slot, req)
      + ResourceReasons(slot.resources, req) + LLMReasons(p)
  }

  /** `FitProfileToSlot` on an effective profile (one without variants of its own). */
  function FitProfileToSlot(p: Profile, node: Node, slot: Slot): FitResult {
    var reasons := FitReasons(p, node, slot);
    FitResult(reasons == [], StableSort(reasons, LexLess))
  }

  lemma SortEmpty(reasons: seq<string>)
    ensures StableSort(reasons, LexLess) == [] <==> reasons == []
  {
    StableSortPermutes(reasons, LexLess);
    assert |multiset(StableSort(reasons, LexLess))| == |multiset(reasons)|;
  }

  lemma UnfitHasReasons(p: Profile, node: Node, slot: Slot)
    ensures var fit := FitProfileToSlot(p, node, slot); fit.fits <==> fit.reasons == []
    ensures "" !in FitProfileToSlot(p, node, slot).reasons
  {
    var reasons := FitReasons(p, node, slot);
    SortEmpty(reasons);
    StableSortMember(reasons, LexLess, "");
  }

  /** A size of zero or less is no demand, and nothing known of the slot. */
  predicate Enough(have: int, need: int) {
    need <= 0 || have <= 0 || have >= need
  }

  /** The adapter asked for, by the requirements or else by the profile, runs on the slot and its node. */
  predicate AdapterRuns(p: Profile, node: Node, slot: Slot, req: Requirements) {
    var adapter := if req.adapter != "" then req.adapter else p.adapter;
    adapter == "" || ((slot.adapter == "" || slot.adapter == adapter) && adapter in node.adapters)
  }

  /** The node and slot take work at all, and offer what the profile requires. */
  predicate SuitsSlot(p: Profile, node: Node, slot: Slot) {
    p.requirements.Some? && (
    var req := p.requirements.value;
    && node.state != Disabled && node.mode != "disabled" && node.approved && !node.quarantined && !slot.quarantined
    && (req.target == "" || slot.target == req.target) && (forall t :: t in req.requireTags ==> t in node.tags)
    && AdapterRuns(p, node, slot, req)
    && Enough(slot.resources.ram, req.ram) && Enough(slot.resources.vram, req.vram)
    && Enough(slot.resources.unified, req.unified) && Enough(slot.resources.disk, req.disk)
    && (p.kind == "llm.chat" ==> p.llm.Some? && p.artifacts != [] && p.artifacts[0] != ""))
  }

  lemma NoneOfSix<T>(a: seq<T>, b: seq<T>, c: seq<T>, d: seq<T>, e: seq<T>, f: seq<T>)
    ensures a + b + c + d + e + f == [] <==> a == [] && b == [] && c == [] && d == [] && e == [] && f == []
  {
  }

  lemma NoneOfFour<T>(a: seq<T>, b: seq<T>, c: seq<T>, d: seq<T>)
    ensures a + b + c + d == [] <==> a == [] && b == [] && c == [] && d == []
  {
  }

  lemma AdmitsExactly(node: Node, slot: Slot, req: Requirements)
    ensures NodeAdmissionReasons(node, slot, req) == [] <==>
            && node.state != Disabled && node.mode != "disabled" && node.approved && !node.quarantined
            && !slot.quarantined && (req.target == "" || slot.target == req.target)
            && forall t :: t in req.requireTags ==> t in node.tags
  {
    NoneOfSix(If(node.state == Disabled || node.mode == "disabled", "node_disabled"),
              If(node.quarantined, FAILURE_QUARANTINED), If(slot.quarantined, FAILURE_QUARANTINED),
              If(!node.approved, "node_not_approved"),
              If(req.target != "" && slot.target != req.target, "target_unsupported"),
              If(!HasAll(node.tags, req.requireTags), "missing_required_tags"));
  }

  lemma OffersExactly(have: Budget, req: Requirements)
    ensures ResourceReasons(have, req) == [] <==>
            && Enough(have.ram, req.ram) && Enough(have.vram, req.vram)
            && Enough(have.unified, req.unified) && Enough(have.disk, req.disk)
  {
    NoneOfFour(
      If(req.ram > 0 && have.ram > 0 && have.ram < req.ram, "resource_exhausted_ram"),
      If(req.vram > 0 && have.vram > 0 && have.vram < req.vram, "resource_exhausted_vram"),
      If(req.unified > 0 && have.unified > 0 && have.unified < req.unified, "resource_exhausted_unified_memory"),
      If(req.disk > 0 && have.disk > 0 && have.disk < req.disk, "resource_exhausted_disk"));
  }

  lemma AdaptsExactly(p: Profile, node: Node, slot: Slot, req: Requirements)
    ensures AdapterReasons(p, node, slot, req) == [] <==> AdapterRuns(p, node, slot, req)
    ensures LLMReasons(p) == [] <==> (p.kind == "llm.chat" ==> p.llm.Some? && p.artifacts != [] && p.artifacts[0] != "")
  {
  }

  /** The check passes exactly when node and slot suit the profile. */
  lemma FitsExactly(p: Profile, node: Node, slot: Slot)
    ensures FitProfileToSlot(p, node, slot).fits <==> SuitsSlot(p, node, slot)
  {
    if p.requirements.Some? {
      var req := p.requirements.value;
      AdmitsExactly(node, slot, req);
      OffersExactly(slot.resources, req);
      AdaptsExactly(p, node, slot, req);
      NoneOfFour(NodeAdmissionReasons(node, slot, req), AdapterReasons(p, node, slot, req),
                 ResourceReasons(slot.resources, req), LLMReasons(p));
    }
  }

  function UniqueSorted(items: seq<string>): seq<string> {
    SortedKeys((set x | x in items) - {""})
  }

  function ReasonsOn(p: Profile, node: Node, slot: Slot): Variant -> seq<string> {
    (v: Variant) => FitProfileToSlot(EffectiveProfileForVariant(p, v), node, slot).reasons
  }

  function FitsOn(p: Profile, node: Node, slot: Slot): Variant -> bool {
    (v: Variant) => FitProfileToSlot(EffectiveProfileForVariant(p, v), node, slot).fits
  }

  function AllFitReasons(p: Profile, variants: seq<Variant>, node: Node, slot: Slot): seq<string> {
    FlatMap(variants, ReasonsOn(p, node, slot))
  }

  /** The index of the first variant that fits, or the number of variants. */
  function FirstFit(p: Profile, variants: seq<Variant>, node: Node, slot: Slot): (k: nat)
    ensures k <= |variants|
    ensures k < |variants| ==> FitProfileToSlot(EffectiveProfileForVariant(p, variants[k]), node, slot).fits
  {
    FirstIndex(variants, FitsOn(p, node, slot))
  }

  function BestVariantForSlot(p: Profile, node: Node, slot: Slot): (Profile, FitResult) {
    var vs := ProfileRuntimeVariants(p);
    var k := FirstFit(p, vs, node, slot);
    if k < |vs| then
      var effective := EffectiveProfileForVariant(p, vs[k]);
      (effective, FitProfileToSlot(effective, node, slot))
    else
      (if p.id == "" then p else EffectiveProfileForVariant(p, vs[|vs| - 1]),
       FitResult(false, UniqueSorted(AllFitReasons(p, vs, node, slot))))
  }

  predicate SlotProfileCurrent(slot: Slot, profileId: Id, p: Profile) {
    && slot.profileId == profileId
    && slot.profileVersion == ProfileVersion(p)
    && slot.logicalModel == ProfileLogicalModel(p)
    && slot.runtimeVariantId == p.runtimeVariantId
    && slot.modelArtifactId == ConcreteModelArtifactId(p)
    && slot.modelSha256 == ConcreteModelSHA256(p)
  }

  /** All non-empty artifact IDs of a profile and of its normalised variants. */
  function ProfileArtifactIds(p: Profile): seq<Id> {
    VariantArtifacts(ProfileRuntimeVariants(p), AppendAllUnique([], p.artifacts))
  }

  function AppendAllUnique(acc: seq<Id>, ids: seq<Id>): seq<Id>
    decreases |ids|
  {
    if ids == [] then acc else AppendAllUnique(AppendUnique(acc, ids[0]), ids[1..])
  }

  function VariantArtifacts(variants: seq<Variant>, acc: seq<Id>): seq<Id> {
    if variants == [] then acc else VariantArtifacts(variants[1..], AppendAllUnique(acc, variants[0].artifacts))
  }

  lemma {:induction false} AppendAllUniqueMember(acc: seq<Id>, ids: seq<Id>, x: Id)
    ensures x in AppendAllUnique(acc, ids) <==> x in acc || (x != "" && x in ids)
    decreases |ids|
  {
    if ids != [] {
      AppendAllUniqueMember(AppendUnique(acc, ids[0]), ids[1..], x);
      assert ids == [ids[0]] + ids[1..];
    }
  }

  lemma {:induction false} VariantArtifactsMember(variants: seq<Variant>, acc: seq<Id>, x: Id)
    ensures x in VariantArtifacts(variants, acc) <==>
            x in acc || (x != "" && exists v :: v in variants && x in v.artifacts)
  {
    if variants != [] {
      AppendAllUniqueMember(acc, variants[0].artifacts, x);
      VariantArtifactsMember(variants[1..], AppendAllUnique(acc, variants[0].artifacts), x);
      assert variants == [variants[0]] + variants[1..];
    }
  }

  /** Membership, both ways: the profile's own artifacts and those of every variant. */
  lemma ProfileArtifactIdsMember(p: Profile, x: Id)
    ensures x in ProfileArtifactIds(p) <==>
            x != "" && (x in p.artifacts || exists v :: v in ProfileRuntimeVariants(p) && x in v.artifacts)
  {
    AppendAllUniqueMember([], p.artifacts, x);
    VariantArtifactsMember(ProfileRuntimeVariants(p), AppendAllUnique([], p.artifacts), x);
  }

  ghost predicate NoRepeats(ids: seq<Id>) {
    forall i, j :: 0 <= i < j < |ids| ==> ids[i] != ids[j]
  }

  lemma {:induction false} AppendAllUniqueNoRepeats(acc: seq<Id>, ids: seq<Id>)
    requires NoRepeats(acc)
    ensures NoRepeats(AppendAllUnique(acc, ids))
    decreases |ids|
  {
    if ids != [] {
      AppendAllUniqueNoRepeats(AppendUnique(acc, ids[0]), ids[1..]);
    }
  }

  lemma {:induction false} VariantArtifactsNoRepeats(variants: seq<Variant>, acc: seq<Id>)
    requires NoRepeats(acc)
    ensures NoRepeats(VariantArtifacts(variants, acc))
  {
    if variants != [] {
      AppendAllUniqueNoRepeats(acc, variants[0].artifacts);
      VariantArtifactsNoRepeats(variants[1..], AppendAllUnique(acc, variants[0].artifacts));
    }
  }

  /** No artifact is listed twice, however many variants name it. */
  lemma ProfileArtifactIdsNoRepeats(p: Profile)
    ensures NoRepeats(ProfileArtifactIds(p))
  {
    AppendAllUniqueNoRepeats([], p.artifacts);
    VariantArtifactsNoRepeats(ProfileRuntimeVariants(p), AppendAllUnique([], p.artifacts));
  }
}
