# comrad in Dafny

A model of comrad's manager and of the worker steps it depends on, with proofs about
whole plans and whole runs.

- **Placement planner.** `Placement` gives every phase as a function on the planner's state
  (ten counters, sets and maps and the emitted assignments); `PlannerLoops` is the planner as it
  runs, a class with those fields and the source's loops, proved equal to it. `PlanTrace` shows
  that the whole placement is a run of four kinds of elementary steps, and `Booking` proves what
  each step keeps, with sizes, budgets and limits as parameters. `PlanTheorems`, `PlanCounts` and
  `Drain` then speak about the finished plan only: budgets recomputed from it, slot exclusivity,
  per-node limits, exact copy counts, justified missing copies, exact draining. All of these
  hold with and without an explainer. `Preference` says which candidate is chosen and which profile
  goes first, `Grounds` what every planned copy stands on, `Shortage` why a copy is missing, `Pins`
  what becomes of hard pins, all in terms of nodes, slots and the plan. `Explain`, `Divergence` and
  `Lockstep` compare the two planners. `Planning` puts the results on the plan that the loops return.
- **Demand and fit.** `Demand`, `Fit`, `FitLoops`: the arithmetic and the checks that feed the planner.
  `Targets` says what the targets mean, read off the task map.
- **Task, attempt and slot protocol.** `Handlers` gives each handler as a function on the
  database, `ManagerStore` the handler as it updates the store in place, proved equal to it.
  `Protocol` is one transition system over the database, every request's own loop and every
  worker's execution with its queue of messages. `Outcomes`, `Reservations`, `SlotFailures` and `Fleet` say
  what each step leaves on the stored records, field by field and apart from the functions in `Handlers`.
  `LedgerRuns`, `Solvency`, `Quarantine`, `SlotFailures`, `Reservations`, `Requests` and `Retries` prove
  theorems over all runs; `Disconnect` and `Overdraft` say what those mean for a disconnect.
- **Flap detector, cache eviction, admin references.** `Flap`, `Eviction`, `References`.

Maps are Go maps; a loop over one picks keys in an arbitrary order, and no result depends on it.
A Go lookup of a missing key yields the zero record, and the handlers' habit of writing such a
record back under the empty ID is part of the model. Times are integers (nanoseconds; 0 is the zero
time), sizes, costs and balances are mathematical integers, pointers are options. The clock, generated
IDs, the configuration and the worker's registration record are parameters. Planner results assume
that nodes, slots, profiles and policies are stored under their own, non-empty IDs.

Each handler is one atomic step together with the delivery of its event. A disconnect is one step
for the node and one for each attempt it fails, in any order and with anything in between.
`Disconnect.DisconnectIsRun` shows that the atomic disconnect is such a run under any hypothesis that
admits its steps, with the same database and the same failures heard; three corollaries do so for the
hypotheses of `Requests` and `Retries`, of `Quarantine` and of `Solvency`.

What the run theorems assume is stated in their guards:

- `Solvency.NoOverdraft`: enforcement on, no admin debits, and failures, reports, disconnects and
  dispatch failures only for tasks that are queued or running. The handlers do not look at the
  old status, so the last one is needed: `Overdraft.DisconnectOverdraws` is a run that meets all
  the others and overdraws. `Solvency.DisconnectRevivesTask` and `Solvency.LateReport` give the exact
  conditions under which a disconnect of a finished task, and a late report on one, keep balances covered.
- `Requests` and `Retries`: messages are those the executions sent, in order for each attempt, and
  the generated ID of a report is not taken; messages may be lost. Selected slots have non-empty IDs,
  for the bound from a fixed set.
- `Reservations.ReservedOnce`: no step that releases the slot, which is an outcome of an attempt on it
  other than a lost worker, or its worker's word that it is ready.
- `SlotFailures.CountersFollowRun`: no deletion of the slot's node, which takes the counters with it.
- `Quarantine.QuarantineHolds`: steps before the quarantine ends, no unban of the slot, and no
  deletion of its node. Clock readings never go back.

Two statements one might expect are false of the code. A policy that passes validation can plan fewer
warm copies than its minimum, which falls back to a count that validation does not compare with the
maximum (`Demand.ValidPolicyBelowMinimum`; `Demand.CapacityBounds` has the exact condition). And
explaining a plan can change it when a profile lists equally scored variants against the order of
their IDs (`Divergence.ExplainCanDiffer` has a database). The exact conditions: for the lists of candidates
`Explain.SameCandidates`, for one choice `Divergence.ChoicesAgree` and `Lockstep.CacheChoicesAgree`,
and for the whole plan `Lockstep.PlansAgree`.

## Model

| member | source | states |
|---|---|---|
| `Planning.PlanWithGuarantees` | internal/comrad/placement_plan.go:51-88 | The plan as computed by the loops: memory and disk budgets kept (unique variant IDs), slots exclusive (distinct pins), uniform per-node limits kept, warm targets met or reported short, no draining below a target |
| `Planning.MeetsDisk` | internal/comrad/placement_plan.go:389-427 | Some order of the returned plan, draining marks aside, keeps disk within every positive budget when each node and profile is charged at its first variant (unique variant IDs) |
| `Planning.PlanAndExplain` | internal/comrad/placement_explain.go:60-75 | Planning with and without an explainer on one snapshot gives the same plan if and only if no choice is shadowed, and always when variants are listed in order of their IDs |
| `Planning.DistinctPins` | internal/comrad/placement_plan.go:143-149 | Policies that never pin a slot twice give the planner distinct pins |
| `PlanTheorems.MemoryOfPath` | internal/comrad/placement_plan.go:397-415 | Any run of planner moves, finished, keeps the recomputed memory of a node within a positive budget |
| `PlanTheorems.DiskOfPath` | internal/comrad/placement_plan.go:389-427 | Any run of planner moves keeps disk, counted once per node and profile, within a positive budget |
| `PlanTheorems.SlotOfPath` | internal/comrad/placement_plan.go:291-304 | Any exclusive run of planner moves, finished, gives a slot at most one unblocked warm assignment |
| `PlanTheorems.LimitsOfPath` | internal/comrad/placement_explain.go:341-353 | Any limited run of planner moves, finished, keeps the distinct profiles of a node within the limits |
| `PlanCounts.WarmOfPath` | internal/comrad/placement_plan.go:262-275 | The warm counter equals unblocked copies plus the missing ones added since |
| `PlanCounts.SpentPath` | internal/comrad/placement_plan.go:262-304 | Once a plan falls short of a profile, the profile stays spent in every later state |
| `PlanTerms.StepMoves` | internal/comrad/placement_plan.go:224-321 | Every elementary planner step is a bookkeeping move within budgets and limits |
| `PlanTerms.FinishSum` | internal/comrad/placement_plan.go:82-87 | Marking drains and sorting change no measure of the plan |
| `PlanTerms.FinishPermutes` | internal/comrad/placement_plan.go:82-87 | The finished plan is a permutation of the placed assignments, apart from draining marks |
| `Drain.FinishDrains` | internal/comrad/placement_plan.go:208-222 | For any placed state: what the finished plan drains is exact |
| `Explain.SameSort` | internal/comrad/placement_explain.go:231-243 | A finer order sorts like the coarse one if and only if the input already orders the ties |
| `Divergence.SameHead` | internal/comrad/placement_explain.go:231-243 | The sorts by a coarse and a finer order have the same head exactly when the finer order puts nothing below the coarse head |
| `Explain.FirstNodeFiltered` | internal/comrad/placement_explain.go:183-208 | Searching the full list with an early filter finds what searching the filtered list finds |
| `PlannerLoops.Plan` | internal/comrad/placement_plan.go:63-88 | The planner's loops over items, pins, slots, variants and candidates, on its ten mutable counters and maps, end in exactly the plan all planner theorems speak of, with and without an explainer |
| `PlannerLoops.Planner.PlacePins` | internal/comrad/placement_plan.go:143-149 | Nested loops over items and pins: the whole new planner state, as the pins placed one by one |
| `PlannerLoops.Planner.PlacePin` | internal/comrad/placement_plan.go:224-260 | One hard pin: missing slot, flapping node, refused, or accepted and booked |
| `PlannerLoops.Planner.PreserveAll` | internal/comrad/placement_plan.go:151-175 | Loop over the slots in ID order: running copies are kept, protected and booked |
| `PlannerLoops.Planner.FindProtected` | internal/comrad/placement_plan.go:192-206 | The first variant current on the slot, if it fits on a usable node |
| `PlannerLoops.Planner.PlaceWarm` | internal/comrad/placement_plan.go:262-275 | The warm loop terminates and leaves the state of the counting loop run to its target |
| `PlannerLoops.Planner.PlaceCache` | internal/comrad/placement_plan.go:277-289 | The cache loop terminates and leaves the state of the counting loop run to its target |
| `PlannerLoops.Planner.ScanWarm` | internal/comrad/placement_plan.go:291-304 | The first listed candidate with a free, available slot within limits and budgets |
| `PlannerLoops.Planner.ScanCache` | internal/comrad/placement_plan.go:306-321 | The first candidate that may be cached, each node judged by its first candidate only |
| `PlannerLoops.Planner.ScanWarmExplain` | internal/comrad/placement_explain.go:165-181 | The explaining search goes through all candidates and still returns the first without a reason |
| `PlannerLoops.Planner.ScanCacheExplain` | internal/comrad/placement_explain.go:183-208 | The explaining cache search, with its own `seen` set and early filter |
| `PlannerLoops.ListCandidates` | internal/comrad/placement_plan.go:323-347 | Nested loops over slots and variants, then the stable sort by score and slot ID |
| `PlannerLoops.ListExplainCandidates` | internal/comrad/placement_explain.go:210-243 | All variants on all slots, missing nodes included, sorted by score, slot ID and variant ID |
| `PlannerLoops.Planner.MarkDrainingAssignments` | internal/comrad/placement_plan.go:208-222 | The in-place loop marks exactly the surplus preserved copies, counting down as it goes |
| `PlannerLoops.Planner.MarkWarm` | internal/comrad/placement_plan.go:406-427 | Slot, memory, warm set and warm count, then disk, cache set and cache count when new on the node |
| `PlannerLoops.CollectItems` | internal/comrad/placement_plan.go:108-126 | One item for each policy in ID order whose profile exists |
| `Placement.CacheBodyCounts` | internal/comrad/placement_plan.go:277-289 | Every round of the cache loop counts one more copy, only because a chosen node never holds the profile yet: why the loop ends |
| `Placement.WarmBodyCounts` | internal/comrad/placement_plan.go:262-275 | Every round of the warm loop counts one more copy |
| `Candidates.CandidatesComplete` | internal/comrad/placement_plan.go:323-357 | The sorted list holds exactly the stored slots on usable nodes with a fitting variant, both ways |
| `Candidates.NoWarmReasons` | internal/comrad/placement_explain.go:251-261 | No rejection reason against a warm copy exactly when base checks, slot, limits, disk and memory all pass |
| `Candidates.NoCacheReasons` | internal/comrad/placement_explain.go:263-267 | No rejection reason against a cached copy exactly when base checks, limits and disk pass |
| `Candidates.NoPinReasons` | internal/comrad/placement_explain.go:245-249 | No reason against a hard pin exactly when the node is identified and usable, the variant fits and the budgets allow it |
| `Candidates.NoBaseReasons` | internal/comrad/placement_explain.go:269-302 | No base reason exactly for an identified, usable node with a fitting variant |
| `Explain.ExplainRefinesPlan` | internal/comrad/placement_explain.go:165-243 | The plan with an explainer equals the plan without, when equally scored variants on a slot are listed in order of their IDs |
| `Explain.ExplainRefinesOrderedPlan` | internal/comrad/placement_explain.go:231-243 | The same for every database whose profiles list their variants in non-decreasing order of ID |
| `Explain.SameCandidates` | internal/comrad/placement_explain.go:210-243 | Filtering the explainer's sorted list gives the planner's sorted list if and only if ties are in order |
| `Lockstep.PlansAgree` | internal/comrad/placement_explain.go:60-243 | For any database the plans with and without an explainer are equal if and only if, along the run without one, no warm choice is shadowed and every cache choice is the first contender |
| `Lockstep.CacheChoicesAgree` | internal/comrad/placement_explain.go:183-208 | For any database and state both cache searches find the same candidate, or none, exactly when the plain choice decides for its node by variant ID and no other such candidate comes before it |
| `Lockstep.PlacedSplits` | internal/comrad/placement_plan.go:63-88 | Both placements end in equal states, or in states that differ for good after a common beginning, with the same exact condition |
| `Lockstep.FinishKeepsOrder` | internal/comrad/placement_plan.go:82-87 | Among assignments of one profile and slot, draining and sorting keep the order of placement |
| `Divergence.ChoicesAgree` | internal/comrad/placement_explain.go:165-181 | For any database and state both planners choose the same warm candidate, or none, exactly when no admissible candidate on the chosen slot scores the same under a smaller variant ID |
| `Divergence.ExplainCanDiffer` | internal/comrad/placement_explain.go:231-243 | A concrete database with variants out of order whose plan with an explainer differs from the plan without |
| `Divergence.OutOfOrderDiverges` | internal/comrad/placement_explain.go:231-243 | For any database, when an admissible candidate shadows the choice, the explaining planner takes one that shadows it too |
| `Explain.NextWarmIsBest` | internal/comrad/placement_plan.go:291-304 | No admissible candidate comes before the chosen one in score and slot order |
| `Preference.WarmChoicePrefers` | internal/comrad/placement_plan.go:291-370 | In both planners no admissible warm candidate is better than the chosen one: a preferred node, then a slot that runs the variant, then budget and failures, with what each makes up for, and the smallest slot ID among equals |
| `Preference.CacheChoicePrefers` | internal/comrad/placement_plan.go:306-370 | The same for cached copies, against every candidate on the chosen node and on every node that would take any variant |
| `Preference.WarmChoiceIsFree` | internal/comrad/placement_plan.go:479-487 | The chosen slot is not taken, has no task, is neither unavailable nor broken, and serves nothing else |
| `Preference.ServedInOrder` | internal/comrad/placement_plan.go:128-141 | Both rounds serve every item: minimum copies by fewest nodes, then size; full targets by demand first |
| `Preference.ScarcityCounts` | internal/comrad/placement_capacity.go:159-168 | An item's scarcity is the number of nodes it could go to, or 2^30 when there is none |
| `Preference.DemandCounts` | internal/comrad/placement_plan.go:108-126 | An item's demand is its profile's queued and running tasks and its smoothed recent demand |
| `PlanTheorems.NoMemoryOvercommit` | internal/comrad/placement_plan.go:397-415 | On every node with a positive budget the memory of all unblocked warm assignments, looked up again from the finished plan, is within budget, hard pins included |
| `PlanTheorems.NoDiskOvercommit` | internal/comrad/placement_plan.go:389-427 | In the order of placement, disk counted once per node and profile at the first variant is within every positive disk budget |
| `PlanTheorems.SlotExclusive` | internal/comrad/placement_plan.go:143-175 | With hard pins on distinct slots no two unblocked warm assignments of the plan share a slot |
| `PlanTheorems.PerNodeLimits` | internal/comrad/placement_explain.go:341-353 | With the same positive limits in all policies no node holds more distinct warm or cached profiles |
| `PlanCounts.WarmCopyAccounting` | internal/comrad/placement_plan.go:262-275 | Unblocked warm copies plus missing ones are exactly the highest of pinned and preserved copies and the profile's MinWarm and Warm targets |
| `PlanCounts.CacheCopyAccounting` | internal/comrad/placement_plan.go:277-289 | Nodes with a cached copy plus missing ones reach MinCached and Cached |
| `PlanCounts.MissingIsJustified` | internal/comrad/placement_plan.go:262-304 | When the plan is short of a profile, every slot and variant for it is refused in the final planner state |
| `Shortage.WarmShortageIsReal` | internal/comrad/placement_plan.go:262-447 | When the finished plan is short of warm copies, every slot that could hold a variant has a warm copy, is closed, or is on a node that is flapping, at a limit, or out of disk or memory as read off the plan |
| `Shortage.CacheShortageIsReal` | internal/comrad/placement_plan.go:277-321 | When the plan reports a missing cached copy, every node that could hold one has the profile cached or refuses a variant for its limit or its disk |
| `Shortage.BusyCopiesKept` | internal/comrad/placement_plan.go:151-206 | A busy slot that runs a variant its policy asks for keeps a warm copy, unless its node is flapping or full in the finished plan |
| `Pins.PinsHonoured` | internal/comrad/placement_plan.go:224-260 | A hard pin whose slot could hold a variant is an unblocked warm copy in the plan, unless its node is flapping or full in the finished plan |
| `Pins.PinsReported` | internal/comrad/placement_plan.go:143-149 | Every hard pin shows in the plan: a warm assignment of its profile on the slot, or a blocked one when there is no such slot |
| `Shortage.UsableExactly` | internal/comrad/placement_plan.go:372-404 | A candidate is refused for a flapping node, a limit, full disk or full memory, and for nothing else |
| `Shortage.PlannedBooks` | internal/comrad/placement_plan.go:406-435 | What the planner has booked on a node can be read off the finished plan |
| `Grounds.PlanGrounded` | internal/comrad/placement_plan.go:323-357 | Every unblocked assignment names a variant of a profile some policy asks for, on an online, approved, admitted node with a slot that suits it; no warm one is on a flapping node |
| `Booking.MoveConsumes` | internal/comrad/placement_plan.go:406-447 | Every later step only consumes: slots, memory and disk grow, and a limit refusal stays |
| `Booking.CacheAccept` | internal/comrad/placement_plan.go:417-427 | Marking a cached copy counts exactly the node it adds |
| `PlanTerms.CopyReadsBack` | internal/comrad/profile_fit.go:177-187 | An accepted assignment is read back as exactly the variant that was placed |
| `PlanTrace.PlacedLeads` | internal/comrad/placement_plan.go:63-88 | The whole placement is one run of elementary steps, exclusive in slots when pins are distinct |
| `Drain.DrainingIsExact` | internal/comrad/placement_plan.go:208-222 | Draining assignments are exactly min(preserved copies, max(0, copies - Warm target)) |
| `Drain.DrainingStopsAtTarget` | internal/comrad/placement_plan.go:208-222 | Exact draining never goes below the target, and below the surplus it takes all preserved copies |
| `Drain.ApplyPlacementDrainState` | internal/comrad/placement_drain.go:23-46 | An idle, ready, unquarantined slot whose profile has a policy accepts tasks iff it has an unblocked warm assignment and none is draining; nothing else changes |
| `Drain.WarmSlotIntent` | internal/comrad/placement_drain.go:48-61 | The two sets single out exactly the wanted slots, whatever order the map is read in |
| `Demand.ProfileDemand` | internal/comrad/placement_capacity.go:68-87 | Queued, running, recent and smoothed demand as counts independent of map order |
| `Demand.RecentlyFinishedDemand` | internal/comrad/placement_cooldown.go:22-39 | The number of tasks that finished within the cooldown and are no longer in the demand window |
| `Demand.SmoothedBounds` | internal/comrad/placement_capacity.go:122-134 | With recent > 0 the smoothed demand lies in [1, ceil(recent/4)] |
| `Demand.QueueingNeverLowersCapacity` | internal/comrad/placement_capacity.go:36-66 | One more queued task never lowers Warm or Cached of any policy |
| `Demand.ReservingKeepsCapacity` | internal/comrad/placement_capacity.go:36-66 | Moving a task from queued to running leaves Warm and Cached of every policy unchanged |
| `Demand.CapacityBounds` | internal/comrad/placement_capacity.go:36-66 | Cached >= Warm; Warm <= MaxWarm when positive; Warm reaches the minimum if and only if the maximum allows it |
| `Targets.WarmCoversWork` | internal/comrad/placement_capacity.go:36-66 | Warm covers all queued and running tasks of the profile, up to a positive maximum |
| `Targets.WarmIsAskedFor` | internal/comrad/placement_capacity.go:36-66 | Beyond the minimum Warm is no more than present work and smoothed demand, or cooldown demand, ask for |
| `Targets.CooldownHoldsWarm` | internal/comrad/placement_cooldown.go:14-39 | Within the cooldown Warm stays at what just finished and at the smoothed demand of a cooldown ago, unless the maximum is lower |
| `Targets.QueueingRaisesWarm` | internal/comrad/placement_capacity.go:51-53 | While Warm is present demand and below the maximum, one more queued task raises it |
| `Targets.SmoothedIs` | internal/comrad/placement_capacity.go:106-134 | Smoothed demand is a twentieth, rounded up, of the tasks of the last ten minutes times the two-minute stretches they fall into |
| `Targets.CachedTarget` | internal/comrad/placement_capacity.go:36-66 | Cached covers Warm and the minimum as far as a positive maximum lets it, and no more |
| `Targets.FixedTargets` | internal/comrad/placement_capacity.go:37-41 | Without auto-balancing the targets are the policy's counts, whatever the tasks |
| `Targets.MinimumWarmIs` | internal/comrad/placement_capacity.go:43-50 | The minimum is the policy's own, or its plain count when it states none |
| `Demand.ValidPolicyBelowMinimum` | internal/comrad/placement_capacity.go:8-66 | A policy that passes validation but plans fewer warm copies than its own minimum |
| `FitLoops.CheckFit` | internal/comrad/fit.go:9-106 | The verdict filled in place by all checks: fits exactly when node and slot suit the profile |
| `Fit.FitsExactly` | internal/comrad/fit.go:9-106 | A profile fits exactly when node and slot are in service, unbanned and approved, target, tags and adapter match, every known resource is large enough, and a chat profile names its model |
| `Fit.VariantInherits` | internal/comrad/profile_fit.go:84-124 | What a variant states wins over its profile, and the rest is the profile's |
| `FitLoops.Verdict.CheckNodeAdmission` | internal/comrad/fit.go:42-61 | Appends exactly the admission reasons and clears the flag when there are any |
| `FitLoops.FindBestVariant` | internal/comrad/profile_fit.go:126-151 | The first variant that fits, or the last with all collected reasons |
| `FitLoops.CollectArtifactIds` | internal/comrad/profile_fit.go:164-175 | The artifacts of the profile and of all normalised variants, without repeats |
| `FitLoops.PlacementSize` | internal/comrad/placement_capacity.go:150-157 | An upper bound of the sizes of all variants that one of them attains, or 0 |
| `FitLoops.LargestVariantIs` | internal/comrad/placement_capacity.go:150-157 | The running maximum bounds every variant size and is attained, or 0 |
| `FitLoops.SumDiskBytes` | internal/comrad/placement_capacity.go:180-189 | The stated disk requirement, or the sum of the sizes of the stored artifacts |
| `FitLoops.CountCandidateNodes` | internal/comrad/placement_capacity.go:159-168 | The number of nodes with a candidate, or the sentinel when there is none |
| `Fit.AssignmentRoundTrip` | internal/comrad/profile_fit.go:177-187 | With unique variant IDs, looking up an assignment's variant gives back the effective profile it was made from |
| `Fit.ProfileArtifactIdsMember` | internal/comrad/profile_fit.go:164-175 | Membership, both ways: own artifacts and those of every normalised variant, never the empty ID |
| `Fit.ProfileArtifactIdsNoRepeats` | internal/comrad/profile_fit.go:164-175 | No artifact is listed twice |
| `Fit.UnfitHasReasons` | internal/comrad/fit.go:9-31 | A slot fits exactly when there are no reasons, and no reason is empty |
| `Accounting.PendingComputeCost` | internal/comrad/compute_accounting.go:118-129 | The cost of the user's queued and running tasks, whatever order the map is walked in |
| `Accounting.EnsureSufficientAvailableBalance` | internal/comrad/compute_accounting.go:107-116 | Admitted exactly when enforcement is off, the cost is not positive, or balance minus pending covers it |
| `Accounting.ApplyReportAccounting` | internal/comrad/compute_accounting.go:34-92 | The report is overwritten from attempt and task, and billed once: a debit for the user and a credit for the node's owner |
| `Accounting.AppendEntry` | internal/comrad/compute_accounting.go:10-32 | The entry is appended and its user's balance moves by the signed amount |
| `Accounting.ChargesIgnorePayload` | internal/comrad/manager_worker_security.go:57-68 | Two reports with the same attempt, ID and status bill identically, whatever they claim |
| `LedgerRuns.ReportsChargeAlike` | internal/comrad/manager_worker_messages.go:379-437 | Handling two reports with the same attempt, ID and status leaves the same ledger and the same balances |
| `Accounting.BilledFromStore` | internal/comrad/manager_worker_security.go:57-68 | What is billed is the stored attempt's task, node and slot, and the stored user and cost |
| `Accounting.BillBalance` | internal/comrad/compute_accounting.go:34-92 | Exactly what billing does to each user's balance |
| `LedgerRuns.LedgerEqualsBalances` | internal/comrad/compute_accounting.go:10-32 | Over every run each balance is the signed sum of the user's entries |
| `LedgerRuns.ReportConserves` | internal/comrad/compute_accounting.go:34-92 | A report between a known consumer and a known owner leaves the sum of all balances unchanged |
| `Handlers.ReplayChangesNothing` | internal/comrad/manager_worker_messages.go:387-398 | Replaying a report whose ID is known changes nothing in the database |
| `LedgerRuns.ReplaysChangeNothing` | internal/comrad/manager_worker_messages.go:387-398 | Once a report is known, handling it again in any later state of any run changes nothing |
| `LedgerRuns.ReportsAreBilledOnce` | internal/comrad/compute_accounting.go:34-92 | Over every run no report ID has two debit or two credit entries |
| `Solvency.NoOverdraft` | internal/comrad/manager_client.go:141-153 | With enforcement, no admin debits, and outcomes of live tasks only, every balance covers its queued and running tasks in every reachable state |
| `Solvency.FailureSlack` | internal/comrad/manager_worker_messages.go:329-370 | Exact effect of a failed attempt on what is left of each balance |
| `Solvency.DropSlack` | internal/comrad/manager_ws.go:303-339 | Exact effect of a disconnect on what is left of each balance |
| `Solvency.ReportSlack` | internal/comrad/manager_worker_messages.go:379-437 | Exact effect of a report on what is left of each balance: the task's cost freed or kept, the bill, the credit to the owner |
| `Solvency.LateReport` | internal/comrad/manager_worker_messages.go:379-437 | A late report on a finished task keeps balances covered if and only if the task's user can pay what it bills and revives |
| `Solvency.DisconnectRevivesTask` | internal/comrad/manager_ws.go:325-339 | Without the live hypothesis a disconnect requeues a finished task; balances stay covered if and only if its user can pay once more |
| `Overdraft.DisconnectOverdraws` | internal/comrad/manager_ws.go:303-339 | From an empty manager an orderly run reaches a solvent state in which a disconnect on a cancelled task leaves its user at -1 |
| `Solvency.CreateSlack` | internal/comrad/manager_client.go:146-153 | An admitted task leaves every balance covered |
| `Solvency.ReserveSlack` | internal/comrad/manager_chat.go:257-289 | Reserving does not change what is left of any balance |
| `Quarantine.QuarantineHolds` | internal/comrad/quarantine.go:5-37 | A slot quarantined until T stays quarantined at least until T and gets no reservation over every run of steps before T without an unban or its node's deletion |
| `Quarantine.FailuresAddUp` | internal/comrad/manager_worker_state.go:93-135 | Over every run each slot's failure count is the sum of its counters, through re-registration too |
| `Quarantine.EvolvesHeld` | internal/comrad/quarantine.go:5-55 | No step moves a quarantine's end earlier |
| `SlotFailures.RepeatedFailuresBan` | internal/comrad/quarantine.go:5-37 | Over every run: the failure that makes a slot's failures of one kind reach the threshold bans it for that reason and the full duration |
| `SlotFailures.BanHolds` | internal/comrad/quarantine.go:5-37 | Over every run of steps before a ban's end, without an unban or its node's deletion, the ban stays and nobody reserves the slot |
| `SlotFailures.CountersFollowRun` | internal/comrad/quarantine.go:5-37 | Over every run a slot's counter for a reason grows by exactly the failures recorded for that reason |
| `SlotFailures.FailedSlotRecords` | internal/comrad/quarantine.go:5-37 | One more failure under its own reason; banned and closed when the counter reaches what is needed, otherwise as before |
| `SlotFailures.StepTracks` | internal/comrad/manager_worker_messages.go:329-437 | Every step counts exactly the failures it records: worker failures, new failed reports, lost workers and failed dispatches |
| `Fleet.ExpiryIs` | internal/comrad/quarantine.go:39-85 | Expiry lifts exactly the bans that are over, and a ready slot without a task takes work again |
| `Fleet.UnbanIs` | internal/comrad/manager_admin.go:368-417 | An unban lifts exactly that slot's ban |
| `ManagerStore.RecordSlotFailure` | internal/comrad/quarantine.go:5-37 | Counts the failure under its reason, bans the slot exactly when the counter reaches the threshold, and notes it on the node |
| `ManagerStore.ClearExpiredQuarantines` | internal/comrad/quarantine.go:63-85 | Loops over nodes and slots lift exactly the bans that are over |
| `Requests.OutputFromOneAttempt` | internal/comrad/manager_chat.go:94-162 | No client ever receives tokens of two attempts, over every run with workers that report as their execution does |
| `Requests.HeardOneSource` | internal/comrad/manager_worker_messages.go:282-327 | A token, failure or report keeps the listening request at one source of output |
| `Requests.WorkersStep` | internal/comrad/worker_task.go:26-55 | What an execution says about its output in its last messages is true when it is sent and stays true until delivered |
| `Requests.DropOneSource` | internal/comrad/manager_ws.go:303-351 | A disconnect retries a request only before any output |
| `Retries.RetriesAreBounded` | internal/comrad/manager_scheduler.go:34-67 | A request never makes more attempts than there are slots |
| `Retries.AttemptsOnDistinctSlots` | internal/comrad/manager_scheduler.go:34-67 | Along every run the attempts of a request are on distinct slots |
| `Retries.SelectNeverAgain` | internal/comrad/manager_scheduler.go:34-67 | A selected slot is none the request's attempts were on |
| `Retries.ReportRetriesRequeue` | internal/comrad/manager_worker_messages.go:407-415 | A report that makes a collecting request try again has put its slot on the list of failed slots |
| `Retries.DropGrows` | internal/comrad/manager_ws.go:325-339 | A disconnect excludes the attempt's slot and forgets no other |
| `Retries.FreshStart` | internal/comrad/manager_chat.go:12-30 | All invariants hold in a manager that starts empty |
| `ManagerStore.HandleAttemptFailed` | internal/comrad/manager_worker_messages.go:329-370 | The handler's updates in place: attempt failed, task waiting again or failed, slot released and the failure recorded, or nothing changes and an error is returned |
| `ManagerStore.HandleComputeReport` | internal/comrad/manager_worker_messages.go:379-437 | The handler's updates in place: a new report closes or requeues its task, releases its slot and is billed; a replayed one changes nothing; a foreign one is refused |
| `Outcomes.ReportIs` | internal/comrad/manager_worker_messages.go:379-437 | After a new report task and attempt have its status and reason; only a retryable failure before output queues the task again, away from the slot; the slot is ready and open, or idle when it has moved on |
| `Outcomes.ReportBills` | internal/comrad/compute_accounting.go:34-92 | A new report is billed exactly when it is a completion of positive cost no entry mentions: a debit for the user, a credit for the owner, and balances moved by them |
| `Outcomes.FailureIs` | internal/comrad/manager_worker_messages.go:329-370 | After a failure the attempt has failed, the task waits again off this slot or has failed, and the slot is released with the failure on record |
| `Outcomes.DispatchFailureIs` | internal/comrad/manager_scheduler.go:123-154 | The same for a failed dispatch, whose slot is ready and without a task |
| `Outcomes.DropIs` | internal/comrad/manager_ws.go:303-343 | The same for a lost worker, whose slot is unavailable; the task waits again exactly when no output was sent |
| `Outcomes.AttemptUnderWay` | internal/comrad/manager_worker_messages.go:309-327 | A first output is on record for good and rules out another try |
| `Outcomes.TaskEndIs` | internal/comrad/manager_scheduler.go:107-181 | A stored task that has not ended is cancelled or fails with the reason; one that has ended stays |
| `Outcomes.AdjustmentMoves` | internal/comrad/manager_accounting_admin.go:274-301 | An adjustment moves exactly that user's balance by exactly that amount |
| `ManagerStore.RecordFirstOutput` | internal/comrad/manager_worker_messages.go:309-327 | First output is recorded once, for the worker's own attempt only |
| `ManagerStore.ReserveAttemptInDB` | internal/comrad/manager_chat.go:257-289 | Cancelled, unavailable or reserved, with exact conditions; a reserved slot serves the task and is closed, the task runs, the attempt is stored, and all else is as before |
| `Reservations.ReservedOnce` | internal/comrad/manager_chat.go:257-289 | Over every run a reserved slot serves its task and nobody can reserve it again before a step that releases it |
| `Reservations.ReservedState` | internal/comrad/manager_chat.go:257-289 | A reservation makes the slot serve the task and closes it, starts the task at the profile's cost, stores the attempt, and touches nothing else |
| `Reservations.ReservableExactly` | internal/comrad/manager_chat.go:257-271 | A reservation is possible exactly for a queued task on a ready, idle, open, unbanned slot of its profile and variant |
| `Reservations.TakenIsClosed` | internal/comrad/manager_chat.go:266-275 | A taken slot cannot be reserved for any task, profile or variant |
| `Reservations.ReservationStored` | internal/comrad/manager_chat.go:240-242 | The stored attempt runs the task on the slot for the task's user and cost, and has sent nothing |
| `Reservations.SelectedSlot` | internal/comrad/manager_scheduler.go:16-67 | A selected slot is ready, idle, open and unbanned, none of the task's failed slots, on an online, approved, unbanned node, and fits |
| `Reservations.StepUnready` | internal/comrad/manager_worker_messages.go:329-437 | Only an outcome of an attempt on it, or its worker's word, makes a slot ready |
| `Reservations.AdmittedExactly` | internal/comrad/manager_client.go:141-153 | With enforcement a task that costs something is admitted exactly when its user's balance still covers all queued and running tasks; a refused one leaves no trace |
| `Reservations.AdmittedTask` | internal/comrad/manager_client.go:141-153 | An admitted task is queued for its user and profile at the profile's cost |
| `ManagerStore.FailRunningAttempts` | internal/comrad/manager_ws.go:268-287 | The disconnect fails every running attempt of the node once, in whatever order the map is walked, and publishes exactly their failures |
| `Disconnect.DisconnectIsRun` | internal/comrad/manager_ws.go:268-287 | The atomic disconnect, with or without taking the node down, is a run under any hypothesis that admits its steps: same database, and requests have heard exactly the published failures |
| `Disconnect.DisconnectKeepsRequests` | internal/comrad/manager_ws.go:268-339 | It is an honest run: one source of output and distinct slots are kept by the atomic disconnect |
| `Disconnect.DisconnectKeepsQuarantine` | internal/comrad/manager_ws.go:268-339 | Before a quarantine ends it is an undisturbed run and leaves the quarantine in force |
| `Disconnect.DisconnectKeepsSolvent` | internal/comrad/manager_ws.go:268-339 | When the tasks it fails are queued or running it is an orderly run and leaves every balance covered |
| `ManagerStore.MarkAttemptFailed` | internal/comrad/manager_scheduler.go:123-154 | The dispatch failure's updates: attempt failed, task waiting again, slot ready, failure recorded; the protocol step when the attempt is stored under its ID |
| `ManagerStore.FailStoredTask` | internal/comrad/manager_scheduler.go:107-121 | A task that is not completed, failed or cancelled fails with the given reason, a missing one as the zero record; others are left alone |
| `ManagerStore.FailedSlotsForTask` | internal/comrad/manager_scheduler.go:34-45 | The listed slots and those of the failed attempts, whatever order the map is walked in |
| `ManagerStore.MarkTaskCancelRequested` | internal/comrad/manager_scheduler.go:166-181 | A task that exists and is not done becomes cancelled; others are left alone |
| `ManagerStore.StoreNewTask` | internal/comrad/manager_client.go:146-153 | Stored exactly when the admission check passes |
| `ManagerStore.UpsertWorkerSlots` | internal/comrad/manager_worker_state.go:67-73 | Each reported slot is normalised and merged with the stored one, in order |
| `Fleet.RegisteredOnce` | internal/comrad/manager_worker_state.go:67-135 | A slot the worker mentions once is stored as registered, with the failures and the unexpired ban on record, and takes work exactly when ready and not banned |
| `Fleet.RegistrationIs` | internal/comrad/manager_worker_state.go:67-73 | Slots the worker does not mention stay as they were |
| `Fleet.SlotStateIs` | internal/comrad/manager_worker_messages.go:80-124 | A slot message changes exactly that slot, to what the worker said |
| `Fleet.ForeignMessagesChangeNothing` | internal/comrad/manager_worker_security.go:40-55 | A message about another node's slot or attempt changes nothing |
| `Fleet.NodeDownIs` | internal/comrad/manager_ws.go:289-301 | Exactly the node's slots that are not serving go down with it, and the node is offline |
| `Fleet.DownIsClosed` | internal/comrad/manager_ws.go:289-301 | No slot of a node that went down can be reserved |
| `Fleet.NodeDeleted` | internal/comrad/manager_admin.go:28-61 | With a node go its slots and assignments, and nothing else |
| `Fleet.OnlineNodeStays` | internal/comrad/manager_admin.go:34-41 | An online node is not deleted |
| `ManagerStore.MarkDisconnectedNode` | internal/comrad/manager_ws.go:289-301 | The loop takes down exactly the node's slots that are not serving |
| `ManagerStore.UpdateStoredSlotState` | internal/comrad/manager_worker_messages.go:80-124 | Only the owner node's slot is updated; it keeps its quarantine and accepts work exactly when it is ready and not quarantined |
| `Flap.DetectorRefinesHistory` | internal/comrad/manager_worker_flapping.go:11-34 | Over any run with ordered clock readings the pruned list is the history within the window, and a node is suppressed exactly when the history says so |
| `Flap.SuppressionIsExact` | internal/comrad/manager_worker_flapping.go:67-69 | Suppressed at t if and only if some event had a threshold of events in its window and its cooldown lasts beyond t |
| `Flap.MaintenanceNeededOnlyIfStale` | internal/comrad/manager_worker_flapping.go:94-116 | The cheap check says there is work exactly when maintenance would change a node |
| `Flap.PruneInPlace` | internal/comrad/manager_worker_flapping.go:25-34 | The in-place filter keeps exactly the events within the window and touches nothing after the list |
| `Flap.ClearExpiredWorkerSuppressions` | internal/comrad/manager_worker_flapping.go:84-116 | The guarded loop equals maintenance of every node |
| `Flap.StepRefines` | internal/comrad/manager_worker_state.go:27-65 | Recording, maintenance and re-registration keep the refinement of the full history |
| `Flap.Defaults` | internal/comrad/manager_worker_flapping.go:46-65 | Threshold, window and cooldown as configured where positive, or else four events, five minutes, five minutes |
| `Eviction.StaleArtifactEvictions` | internal/comrad/manager_cache_eviction.go:28-43 | The targets are exactly the cached artifacts neither desired, nor busy, nor marked keep on their node, each with its reason |
| `Eviction.EvictionSpares` | internal/comrad/manager_cache_eviction.go:28-144 | No target is in use by a working slot or a running attempt, wanted by an assignment or an update, or marked keep |
| `Eviction.DesiredArtifactsByNode` | internal/comrad/manager_cache_eviction.go:52-70 | Exactly what assignments and updates want cached, per node |
| `Eviction.EvictionBusyArtifactsByNode` | internal/comrad/manager_cache_eviction.go:72-116 | Exactly what running attempts and busy slots use, per node |
| `Eviction.EvictingWorker.Evict` | internal/comrad/worker_cache_evict.go:65-113 | Refuses iff a using slot is serving or has a task; otherwise no slot, assignment, warm profile or cache entry uses the artifact and everything unrelated is untouched |
| `Eviction.EvictingWorker.PlanEviction` | internal/comrad/worker_cache_evict.go:65-92 | The plan names exactly the slots and keys that use the artifact |
| `Eviction.NothingNeeds` | internal/comrad/worker_cache_evict.go:115-144 | After the plan is applied neither a cleared nor an untouched slot uses the artifact |
| `References.ReferencesHold` | internal/comrad/manager_admin.go:238-260 | In every state reachable by admin operations no profile artifact, update artifact or policy profile dangles |
| `References.DeletableIffUnnamed` | internal/comrad/manager_artifact_admin.go:116-128 | An artifact can be deleted exactly when no profile, normalised variant or update names it |
| `References.UpsertProfileSound` | internal/comrad/manager_admin.go:238-260 | Storing a profile, accepted or refused, keeps all references closed |
| `References.SetComputeCostSound` | internal/comrad/manager_accounting_admin.go:27-45 | A cost change keeps all references closed |
| `References.UpsertPolicySound` | internal/comrad/manager_admin.go:297-310 | A stored policy names a stored profile |
| `References.CreateUpdateSound` | internal/comrad/manager_admin.go:451-468 | A stored update names a stored artifact |
| `References.DeleteProfileSound` | internal/comrad/manager_profile_delete.go:23-45 | Deleting a profile deletes the policies that name it |
| `References.DeleteArtifactRecord` | internal/comrad/manager_artifact_admin.go:77-98 | Deletes exactly the unreferenced artifact, or changes nothing |
| `References.DeleteStoredProfile` | internal/comrad/manager_profile_delete.go:23-59 | Refused exactly when missing or needed by live work; otherwise the profile, its policies and its assignments go, and nothing else |
| `References.ProfileDeletion` | internal/comrad/manager_profile_delete.go:23-59 | A stored profile is deleted exactly when no queued or running task and no running attempt needs it; its policies and assignments go, and nothing else |
| `References.ProfileUpsert` | internal/comrad/manager_admin.go:238-260 | Stored exactly with a non-negative cost, a valid runtime and stored artifacts, as given, under a later version |
| `References.PolicyUpsert` | internal/comrad/manager_admin.go:297-310 | A policy is stored exactly when its profile is and its counts are valid |
| `References.UpdateCreated` | internal/comrad/manager_admin.go:451-468 | An update is stored exactly when its artifact is and carries the update's checksum |
| `References.VersionsGrow` | internal/comrad/manager_admin.go:238-260 | Over every run of admin operations a profile that is not deleted is unchanged or has a later version |
| `References.UpsertStoredProfile` | internal/comrad/manager_admin.go:238-260 | Accepted exactly with a non-negative cost, a valid runtime and stored artifacts; versions go up by one |

## Left out

- Audit events, log and explanation texts, metrics: the explainer's lists are written but never read by the planner.
- HTTP, SSE, JSON and YAML encoding, dashboards, websockets, sessions and heartbeats: input and output. A missing session shows up as a failed dispatch or a disconnect.
- Artifact transfer, runtime processes, files, self-update and storage: foreign calls.
- Tokens, enrolment and the registration of a node's own fields: the registration step stores an arbitrary node record, so the run theorems hold for every such record.
- Goroutine interleavings finer than one store update with its event delivery.
- 64-bit wrap-around of sizes, costs and balances.
- Unicode case folding and white space beyond ASCII in the normalisation of digests.
- The order of equal elements in the final, unstable sort of assignments and in the scheduler's sort of ready slots: the first is kept stable, the second is any ready candidate. Only the "only if" of `Lockstep.PlansAgree` uses the first.
- Validation of a profile's runtime section: a parameter of the upsert.
- Node flags set by worker updates, torrent refresh of stored artifacts, and the policy decoration used for display: they add or remove no reference.
- PlanTheorems.NoDiskOvercommit: counts disk in the order of placement, because the first variant placed on a node decides what is charged; of the sorted plan `Planning.PlanWithGuarantees` says that some order of it meets the budget.
- Drain.DrainingIsExact: counts preserved copies by assignment ID, as the code does; two copies whose folded IDs collide count alike.
- Accounting.ApplyReportAccounting: ledger entry IDs are generated and not part of the model.
