# Communication Planner: a verified model

This project models the core of the Communication Planner in Dafny and proves what its parts promise,
over all inputs, all runs and all interleavings. `dafny verify dfyconfig.toml` checks everything.

## What is modelled

* **Planning.** A request is planned against an evidence snapshot: a bounded depth-first search enumerates
  routes, a hard filter rejects the infeasible ones, the rest are costed and ranked, and the best are built into
  a plan bound to the generations it rests on (`Enumeration`, `SimplePaths`, `RouteOrder`, `FeasibilityFilter`,
  `FilterTerms`, `Cost`, `CostBreakdown`, `Ranking`, `RankLevels`, `StrictRanking`, `Planner`, `PlannerCode`,
  `PlanFacts`, `PlanTerms`, `FanOut`, `Determinism`, `Alternatives`, `OverflowExample`).
* **Revalidation.** A plan is checked against a later snapshot by comparing generations instead of filtering
  again (`Revalidation`, `RevalidationTerms`, `RevalidationTheorems`).
* **The store.** Plans, supersessions and requests are written as a nested, checksummed binary format, and read
  back by a parser that refuses anything malformed (`Wire`, `EnumCodes`, `Ieee`, `Checksum`, `StoreCodec`,
  `StoreFormat`, `StoreSizes`, `StoreValidity`, `StoreTheorems`, `StoreWriter`, `StoreReader`, `StoreChecker`,
  `StoreCodes`, `PlannedStores`).
* **The wire.** Checksummed frames and the payload of each message type (`Frames`, `Messages`).
* **The coordinator.** Every handler is an atomic step of a state machine, except commit, which is two locked
  phases with the broker's acquisition between them; runs interleave the steps of all connections, and start
  empty or from a recovered store (`Broker`, `Coordinator`, `CoordinatorCode`, `CoordinatorInvariants`,
  `CoordinatorRuns`, `EvidenceEffects`, `PlanEffects`, `EvidenceSteps`, `EvidenceHistory`, `CommitGrants`,
  `Recoveries`, `ExecutionHistory`, `Cancellation`, `Staleness`, `SavedRuns` for what a restart makes of a save, and
  `EndToEnd` for runs that go all the way).

Code that works by changing things is imperative here too: classes with the source's fields for the search, the
writer, the reader, the broker and the coordinator, and methods with the source's loops. Each such method is
proved equal to a function on values, and the theorems are about those functions.

What those functions compute is stated a second time, without them: each verdict, cost component, rank level, plan
field and effect of a step in the fields of the request, the snapshot and the state it depends on (`FilterTerms`,
`CostBreakdown`, `RankLevels`, `RouteOrder`, `PlanTerms`, `RevalidationTerms`, `StoreCodes`, `Recoveries`,
`EvidenceEffects`, `PlanEffects`, `CommitGrants`).

Identifiers, generations and sizes are 64-bit numbers that wrap around as in the source, 0 being "null".
Floating-point figures are exact reals extended with NaN and the infinities inside the planner, where a total
above the largest double becomes infinite as `CostSummary::of` makes it, and 64-bit
patterns read by IEEE 754 binary64 inside the store. Strings are byte sequences. The counters that number plans
and stages are passed in and out.

## Where the code and its intent part

* `release` forgets the whole holding on a resource, whoever claimed it, so what is proved of the broker across
  runs is the upper bound, not that each plan keeps what it acquired.
* The broker checks each claim against what was held before any of them, so repeated claims can overrun the
  capacity (`Broker.RepeatedClaimOverruns`); it is the planner's duplicate-free claims that make runs safe.
* The broker's sum of a holding and a claim is 64 bits wide, so a payload close to 2^64 is granted and leaves the
  resource looking free (`CommitGrants.WrappedShareIsGranted`, exactly when by `CommitGrants.RoomIff`).
* A frame's checksum covers its length, but a changed length moves the place where the checksum is looked for
  (`Frames.LengthByteCanGoUnnoticed`).
* Revalidation skips a generation that was null when the plan was made, so it implies feasibility only if the
  reservation generation was not (`RevalidationTheorems.NullReservationGenerationIsNotEnough`). A coordinator
  starts it at 1.
* A candidate whose total overflows is ranked at MAX_COST = 10^18, before every candidate with a larger finite
  total. So congestion on a link off the primary path can make that link the primary
  (`OverflowExample.CongestionCanChangeTheBest`), exactly when something overflows and overtakes
  (`Alternatives.IrrelevantAlternativesIff`).
* Weights that pass `allWeightsFinite` can overflow a plan's total; the plan succeeds, and the store then refuses
  its record (`OverflowExample.ValidWeightsCanBeRefused`, `PlannedStores.PlannedRecordIsReady`).
* Revalidation asks the snapshot's resource capacities for every claimed staging resource, and no handler fills
  them. So in a running coordinator a plan whose primary path relays, or a fan-out plan with any relay, is never
  executed (`ExecutionHistory.ExecutedNeedsNoStaging`, `Staleness.ClaimingPlansNeverRun`).
* A registration with a new boot does not fence the boot it replaces, which may register again and take over
  (`EndToEnd.SomeOldBootReturns`).
* A lost connection fences the worker's current boot, also when the connection was that of an earlier one
  (`EndToEnd.SomeNewBootIsFenced`).
* PUBLISH_CAPACITY and PUBLISH_CONGESTION do not carry the publisher's identity on the wire
  (`Messages.PublishCapacityMsg`), so over a connection the coordinator's check of it is never made.
* A committed, awaiting or active plan that claims nothing is refused on load
  (`PlannedStores.PlannedRecordIsValid`), and in a run only plans that claim nothing await execution or are active.
  So a coordinator saved while any plan of its run is in these states starts empty next time, all plans lost
  (`SavedRuns.LiveSaveIsLost`); what it takes back otherwise is stated exactly (`SavedRuns.SaveIsTakenBackIff`).

## Model

| member | source | states |
|---|---|---|
| `Enumeration.Search.Dfs` | src/planner.cpp:62-87 | The search that pushes and pops the shared `visited`, `hops` and `out` adds exactly the routes below the current endpoint, cut at the candidate limit, and leaves `visited` and `hops` as it found them. |
| `Enumeration.BuildAdjacency` | src/planner.cpp:45-56 | The adjacency lists, sorted in place, hold every outgoing edge of each endpoint and nothing else. |
| `Enumeration.EnumerateCandidatePaths` | src/planner.cpp:42-101 | The code returns the sorted, truncated enumeration that the following rows characterise. |
| `SimplePaths.SearchIsExact` | src/planner.cpp:62-90 | Without the candidate limit, a hop sequence is found iff it is a contiguous simple directed path over published links within the depth and relay bounds. |
| `SimplePaths.EnumerationIsExact` | src/planner.cpp:42-101 | At most `maxCandidates` paths, all admissible, shortest first; all of them when the limit was not reached; none twice when link ids are unique. |
| `RouteOrder.KeepsTheEarliest` | src/planner.cpp:45-90 | With unique link ids, a route left out at the candidate limit parts from every route kept by going on to a larger endpoint, or to the same one by a larger link. |
| `RouteOrder.ListIsSorted` | src/planner.cpp:91-101 | The list goes by length, and among equally long routes by the smaller link id where they first part. |
| `FeasibilityFilter.EvaluateRelays` | src/feasibility.cpp:80-111 | The relay loop permits a path iff every relay is a known endpoint whose kind the request lets the payload rest at. |
| `FeasibilityFilter.SumReservations` | src/feasibility.cpp:158-163 | The accumulator holds the sum of the reservations on the resource, modulo 2^64. |
| `FeasibilityFilter.EvaluateHop` | src/feasibility.cpp:113-197 | The first failing check of a hop, in the order of the code, with its label. |
| `FeasibilityFilter.EvaluateCandidateFeasibility` | src/feasibility.cpp:51-207 | The label of the first hard constraint the candidate breaks, or FEASIBLE. |
| `FeasibilityFilter.VerdictDecides` | src/feasibility.cpp:51-207 | A candidate is found feasible iff the plain conjunction of all hard constraints holds of it. |
| `FilterTerms.FeasibleIff` | src/feasibility.cpp:51-207 | A candidate is feasible iff, in the fields of request, endpoints and links: it is neither empty nor too long; it may relay, and its relays may rest the payload by kind; every hop follows its directed, healthy, uncongested link of a permitted transport and domain with bandwidth left, between endpoints whose stamps are the registered ones and that can serve it; and the policy is not outdated. |
| `FilterTerms.ReservationsAddUp` | src/feasibility.cpp:158-163 | What is reserved on a resource adds up, reservation by reservation, modulo 2^64. |
| `FilterTerms.LinkLabels` | src/feasibility.cpp:120-168 | Each label of a rejected link is given iff its check is the first to fail. |
| `FilterTerms.EndpointLabels` | src/feasibility.cpp:178-196 | Each label of a rejected end likewise. |
| `FilterTerms.HopLabels` | src/feasibility.cpp:113-197 | A hop carries the label of its link, else that of a missing end, else that of the end it leaves, else of the one it enters. |
| `FilterTerms.ShapeLabels` | src/feasibility.cpp:51-111 | An empty, too long or impermissibly relaying candidate is labelled by that, in this order. |
| `FilterTerms.FirstBadHopLabels` | src/feasibility.cpp:113-197 | Otherwise the first bad hop labels the candidate. |
| `FilterTerms.PolicyLabels` | src/feasibility.cpp:199-206 | And if there is none, an outdated policy does. |
| `Cost.EvaluateCandidateCost` | src/cost.cpp:24-145 | The loops over relays and hops yield the nineteen weighted, clamped components and their checked total, infinite if the weighted sum overflows. |
| `Cost.ChargeHop` | src/cost.cpp:60-102 | One round of the hop loop, accumulator by accumulator. |
| `Cost.TallyIsSums` | src/cost.cpp:60-102 | Latency, transfer, queueing and congestion are sums of one clamped charge per hop; a hop over an estimated, forecast, synthetic or unknown link is charged a tenth of everything transferred so far. |
| `Cost.HeadroomIsSum` | src/cost.cpp:72-79 | The contention figure is the sum over the hops of what scarce headroom adds to each transfer time. |
| `CostBreakdown.TallyLabel` | src/cost.cpp:100-101 | The figures carry the label of the last synthetic or unknown link, MEASURED if there is none. |
| `Cost.LocalityIsSums` | src/cost.cpp:60-102 | The NUMA, PCIe, NIC and storage accumulators of the same loop are sums, over the hops whose link and ends are known, of the clamped charges for NUMA distance apart, different PCIe roots, different NICs and storage at either end. |
| `Cost.SummaryOf` | include/communication_planner/model/component.hpp:37-48 | The total is the weighted sum if every component is valid and no partial sum exceeds the largest double, and infinite otherwise. |
| `CostBreakdown.TotalIff` | include/communication_planner/model/component.hpp:37-48 | A total is finite iff every weight and figure is a non-negative number and the weighted sum is one a double can hold, and then it is that sum; it is infinite otherwise. |
| `CostBreakdown.ClampIsNearest` | src/cost.cpp:10-15 | The clamp gives the nearest number between 0 and 10^18. |
| `CostBreakdown.ClampOfDouble` | src/cost.cpp:10-15 | NaN and positive infinity count as 10^18, negative infinity as nothing. |
| `CostBreakdown.TransferTime` | src/cost.cpp:17-22 | Time times bandwidth is payload times 10^9, unless the time would exceed 10^18; no payload takes no time, and no bandwidth takes 10^18. |
| `CostBreakdown.SomeHeadroom` | src/cost.cpp:73-76 | Declared headroom adds the transfer time times bandwidth over headroom plus one, counted at most a hundred times. |
| `CostBreakdown.OtherHeadroom` | src/cost.cpp:73-79 | No headroom adds twice the time, or nothing when its provenance is unknown; the largest headroom divides by zero. |
| `CostBreakdown.WeightOf` | include/communication_planner/ranking/weights.hpp:15-42 | A configured weight stands; else HOP_COUNT weighs a half, UNKNOWN nothing and every other factor one. |
| `CostBreakdown.LinkComponents` | src/cost.cpp:60-145 | The cost has exactly one component each for latency, transfer, congestion, queueing and health risk, with its weight, the label of the path, and its value as a clamped sum over the fields of the links. |
| `CostBreakdown.HeadroomComponents` | src/cost.cpp:72-79 | Likewise for residual bandwidth and capacity headroom, which show the same figure. |
| `CostBreakdown.LocalityComponents` | src/cost.cpp:82-94 | Likewise for NUMA, PCIe, NIC and storage locality, over the fields of the endpoints, with the storage relay surcharge. |
| `CostBreakdown.StagingComponents` | src/cost.cpp:104-121 | Likewise for staging, host staging and movement, by whether the path relays and at which kinds of endpoint. |
| `CostBreakdown.CountComponents` | src/cost.cpp:115-145 | Likewise for hops, stages, reliability and the two factors that are always zero; and there are nineteen components in all. |
| `CostBreakdown.SlowerIsNoCheaper` | src/cost.cpp:60-145 | Raising the latency of links never lowers the total of any candidate. |
| `CostBreakdown.SlowerIsDearer` | src/cost.cpp:60-145 | It raises the total when the path runs over such a link, latency weighs something, and neither the clamp nor the largest double is reached. |
| `Cost.CostsAreFinite` | src/cost.cpp:10-22 | Whatever the evidence, NaN and infinities included, no component value is NaN, infinite or negative; with valid weights the total is finite iff the weighted sum does not exceed the largest double. |
| `Cost.LightWeightsDoNotOverflow` | include/communication_planner/model/component.hpp:37-48 | Weights of at most a nineteenth of the largest double over MAX_COST never overflow, whatever the evidence. |
| `Ieee.PatternsAreBounded` | include/communication_planner/model/component.hpp:37-48 | Every 64-bit pattern that denotes a number denotes one of at most the largest double in magnitude: the bound the overflow branch is taken at. |
| `Ieee.LargestPattern` | include/communication_planner/model/component.hpp:37-48 | One pattern denotes exactly that largest double. |
| `Ieee.SignBit` | src/persistence.cpp:403-416 | The highest bit of a pattern is its sign. |
| `Ieee.NextExponentDoubles` | src/persistence.cpp:403-416 | One more in the exponent field of a normal number doubles it. |
| `Ranking.WorstProvenanceOf` | src/ranking.cpp:12-18 | The loop returns the worst provenance among the components. |
| `Ranking.KeyLessIsTotal` | src/ranking.cpp:52-62 | On NaN-free keys the eight-level comparison orders any two different keys, one way only. |
| `Ranking.KeyLessIsTransitive` | src/ranking.cpp:52-62 | On NaN-free keys the comparison is transitive. |
| `RankLevels.KeyOrder` | src/ranking.cpp:52-84 | The key orders two candidates as their eight levels do, said in what the candidates show. |
| `RankLevels.AheadIsBefore` | src/ranking.cpp:64-91 | The ranking lists a feasible candidate before another over different links iff it is ahead at the first level at which they differ. |
| `RankLevels.CheaperFirst` | src/ranking.cpp:53 | The cheaper candidate comes first, an infinite total counting as 10^18. |
| `RankLevels.FewerUnknownsFirst` | src/ranking.cpp:54 | At equal totals, the one with fewer components of unknown provenance. |
| `RankLevels.BetterLabelledFirst` | src/ranking.cpp:55 | Then the one whose least trusted label comes earlier in the list of provenances. |
| `RankLevels.ShorterFirst` | src/ranking.cpp:56 | Then the one with the smaller hop count. |
| `RankLevels.LessCongestedFirst` | src/ranking.cpp:57 | Then the less congested one. |
| `RankLevels.MoreResidualFirst` | src/ranking.cpp:58 | Then the one with the larger residual-bandwidth figure. |
| `RankLevels.FewerLinksFirst` | src/ranking.cpp:59 | Then the one over fewer links. |
| `RankLevels.LowerIdsFirst` | src/ranking.cpp:60-61 | And last, of two equally long ones, the one with the smaller link id where they first part. |
| `Ranking.RankFeasible` | src/ranking.cpp:64-91 | The code returns the indices of the feasible items, stably sorted by key. |
| `Ranking.RankingSelectsTheFeasible` | src/ranking.cpp:64-91 | Every feasible index is returned exactly once and no infeasible one is. |
| `Ranking.RankingIsOrdered` | src/ranking.cpp:64-91 | No later index ranks before an earlier one; with distinct link sequences each ranks strictly before the next. |
| `Ranking.HeadIsBest` | src/ranking.cpp:64-91 | The head is a feasible candidate that ranks strictly before every other. |
| `Ranking.BestIsUnique` | src/ranking.cpp:52-91 | There is only one such candidate. |
| `Ranking.HeadIgnoresInputOrder` | src/ranking.cpp:64-91 | Rearranging the candidates does not change which one comes first. |
| `PlannerCode.BuildStages` | src/planner.cpp:107-136 | One stage per hop, numbered onward from the counter, with the link's transport, bandwidth and latency, and a staging resource at every relay. |
| `PlannerCode.MakePath` | src/planner.cpp:138-149 | A path with those stages, the candidate's ends, payload and cost, and its worst provenance. |
| `PlannerCode.AssessCandidates` | src/planner.cpp:170-194 | One report per candidate, in order, and the feasible ones with their positions. |
| `PlannerCode.BindGenerations` | src/planner.cpp:242-259 | The bound endpoint and link pairs of all retained paths, as ordered sets. |
| `PlannerCode.CollectClaims` | src/planner.cpp:252-257 | The staging resources of the relays, as an ordered set. |
| `PlannerCode.PlanPointToPoint` | src/planner.cpp:165-281 | The point-to-point branch: rank, keep the primary and up to `maxFallbacks`, build the paths, bind generations and claims. |
| `PlannerCode.GatherDestinations` | src/multicast.cpp:58-96 | The per-destination loop: reports, retained paths, components, ranked indices and the failure flag. |
| `PlannerCode.BuildMulticastPlan` | src/multicast.cpp:37-130 | The multicast plan, also the rejected one that is still handed back. |
| `PlannerCode.ParticipantsReady` | src/collective.cpp:47-65 | All participants are known, fresh, reachable, ready and of a known kind. |
| `PlannerCode.GatherMembers` | src/collective.cpp:77-116 | Paths from the root to the other participants in order, up to the first one out of reach. |
| `PlannerCode.BuildCollectivePlan` | src/collective.cpp:15-148 | The collective plan, or the partially filled plan of each rejection. |
| `PlannerCode.PlanRequest` | src/planner.cpp:155-282 | Dispatch on the effective shape; an invalid request throws. |
| `PlanFacts.SuccessIsBuilt` | src/planner.cpp:208-281 | Every successful plan of any shape is built over enumerated, feasible, costed candidates and binds the snapshot's generations. |
| `PlanTerms.PlanPathsServe` | src/planner.cpp:107-149 | Every path of a successful plan keeps its candidate, cost and least trusted label, and its stages serve the hops one by one with the fields of their links, staging at every relay, numbered through. |
| `PlanTerms.PlanSays` | src/planner.cpp:208-281 | Every successful plan names its request and numbers, binds the generations, executes its first path, falls back on the others in order, and has the shape asked for with its destinations or participants. |
| `PlanTerms.SameStagingIff` | src/planner.cpp:25-27 | The staging resource of an endpoint is twice its id plus one; two endpoints share one iff they are equal but for the highest bit. |
| `PlanTerms.PointReports` | src/planner.cpp:170-206 | Every enumerated path is reported with its verdict, cost and label, and the ranked indices point at the reports of the feasible ones, best first. |
| `PlanTerms.NumbersMoveOn` | src/planner.cpp:208-236 | A success takes one plan number, one generation and one stage number for each stage. |
| `PlanTerms.FailuresSay` | src/collective.cpp:28-116 | A failed point-to-point request yields no plan; a failed fan-out yields one labelled REJECT_ENDPOINT, and a collective one bound to nothing. |
| `PlanTerms.ThrowsIff` | include/communication_planner/model/request.hpp:57-97 | The planner throws iff the request has one of the listed faults, or is of unknown shape and names no destination. |
| `PlanFacts.BoundEndpointsExact` | src/planner.cpp:244-259 | An endpoint pair is bound iff some retained hop touches that endpoint. |
| `PlanFacts.BoundLinksExact` | src/planner.cpp:242-259 | A link pair is bound iff some retained hop runs over that link. |
| `PlanFacts.ClaimsExact` | src/planner.cpp:25-27 | The claims are exactly the staging resources of the relays, each once. |
| `FanOut.ReachableMeansFeasible` | src/planner.cpp:196-206 | Some candidate is ranked iff some enumerated path is feasible. |
| `FanOut.HeadIsRankMinimal` | src/ranking.cpp:64-91 | The first ranked path is feasible and ranks strictly before every other feasible enumerated path. |
| `FanOut.PointToPointIsExact` | src/planner.cpp:155-281 | A point-to-point request succeeds iff a feasible path is enumerated; then the primary path follows, stage by stage, the rank-minimal one. |
| `FanOut.PointToPointKeepsTheBest` | src/planner.cpp:208-236 | Its paths follow, hop by hop, the best feasible paths in strict rank order: each ranks before the next and before every feasible path left out, and one is left out only if `1 + maxFallbacks` are kept. |
| `FanOut.MulticastIsExact` | src/multicast.cpp:37-130 | A multicast succeeds iff every destination has a feasible path; then path i ends at destination i and is rank-minimal for it, and the claims are exactly the staging resources of all relays used. |
| `FanOut.CollectiveIsExact` | src/collective.cpp:15-148 | A collective succeeds iff its count matches and is in bounds, its participants are ready and each has a feasible path from the first; then path i is the rank-minimal one to member i, in order. |
| `PlanTerms.MembersGoOn` | src/collective.cpp:77-84 | The members are the participants but for the root, one by one and in order. |
| `PlanTerms.ReadyIff` | src/collective.cpp:47-65 | A participant is ready iff it is known, its stamps stand, it is reachable and ready, and of a known kind. |
| `PlanTerms.FanOutGoesOn` | src/multicast.cpp:86-119 | The components and the relays of a fan-out are those of its paths, one path after the other. |
| `FanOut.KeptAreAhead` | src/planner.cpp:208-236 | Each path a point-to-point plan keeps is ahead, at the first level at which they differ, of the next and of every feasible path left out. |
| `FanOut.MinimalIsAhead` | src/ranking.cpp:52-91 | The best path to a destination is ahead of every other feasible one. |
| `Determinism.PlanningIgnoresInsertionOrder` | src/planner.cpp:155-282 | With unique ids, permuting endpoints, links and reservations yields the identical outcome, for every request shape. |
| `StrictRanking.PlannerRanksStrictly` | src/ranking.cpp:52-91 | The candidates the planner ranks have NaN-free keys and distinct link sequences, so the order on them is strict. |
| `Alternatives.IrrelevantAlternativesIff` | src/ranking.cpp:66-84 | Raising the congestion penalty of a link off the best path leaves the best candidate and its cost unchanged iff no path over that link overflows to an infinite total and, ranked at MAX_COST, overtakes it. |
| `Alternatives.IrrelevantAlternatives` | src/cost.cpp:60-145 | So it leaves them unchanged whenever the best total is below MAX_COST, or no total overflows. |
| `Alternatives.OverflowOvertakes` | src/ranking.cpp:66-84 | With a best total above MAX_COST the best candidate stays the best iff no feasible total overflows. |
| `Alternatives.LightWeightsAreSafe` | src/cost.cpp:60-145 | Under light weights it always stays the best. |
| `OverflowExample.CongestionCanChangeTheBest` | src/ranking.cpp:66-84 | With valid weights, two parallel links and a penalty raised from 10^5 to 10^9, the congested link becomes the best path: an input at which the property fails. |
| `Alternatives.PrimaryIgnoresIrrelevantCongestion` | src/planner.cpp:155-281 | The replanned point-to-point plan has the same ordered stages at the same cost iff the best candidate is not overtaken in this way. |
| `Revalidation.RevalidatePath` | src/revalidation.cpp:13-52 | The label of the first stage that no longer stands, if any. |
| `Revalidation.ResourceCheck` | src/revalidation.cpp:121-133 | A staging resource is offered iff it is listed and no listing of it is exhausted. |
| `Revalidation.RevalidatePlan` | src/revalidation.cpp:54-137 | The label of the first bound fact that no longer stands, if any. |
| `Revalidation.PlanVerdictDecides` | src/revalidation.cpp:54-137 | A plan revalidates iff the conjunction of everything it is bound to holds. |
| `RevalidationTerms.RevalidatesIff` | src/revalidation.cpp:54-137 | A plan revalidates iff, in the fields of plan, endpoints and links: the topology has not gone back and no bound capacity, reservation or congestion generation has moved; every bound endpoint and link is there in its generation and usable; every stage of every path stands; and every staging resource is listed with something left. |
| `RevalidationTerms.StageLabels` | src/revalidation.cpp:13-52 | Which label the first stage that does not stand gives. |
| `RevalidationTerms.PlanLabels` | src/revalidation.cpp:54-110 | A plan on other ground needs revalidation; the first bad endpoint makes it need revalidation if gone or moved on, and stale if it merely does not stand. |
| `RevalidationTheorems.FreshPlanRevalidates` | src/revalidation.cpp:54-137 | A plan of any shape revalidates on the snapshot it was made from iff every staging resource it claims is offered there. |
| `RevalidationTheorems.DirectPlanRevalidates` | src/revalidation.cpp:54-137 | A point-to-point plan with a direct primary path, whatever its fallbacks, and a fan-out plan over single links always do. |
| `RevalidationTheorems.RevalidationRefinesFeasibility` | src/revalidation.cpp:54-137 | If equal generations mean equal facts, the reservation generation is not null and the policy generation has not gone back, every retained path of a plan that revalidates later is fully feasible there. |
| `RevalidationTheorems.NullReservationGenerationIsNotEnough` | src/revalidation.cpp:77-79 | With a null reservation generation the refinement fails for every plan: on a later snapshot it revalidates while a link of its primary path is reserved out. |
| `RevalidationTheorems.RefinesIff` | src/revalidation.cpp:77-79 | A plan that retains a path keeps all its paths feasible on every later snapshot it revalidates on iff its reservation generation is not null. |
| `Checksum.Fnv1a` | src/persistence.cpp:88-92 | The loop computes the FNV-style fold of the bytes, modulo 2^64. |
| `Checksum.OneByteChangesChecksum` | src/persistence.cpp:88-92 | Changing any one byte of any data changes its checksum, whatever follows it. |
| `StoreWriter.Writer.LittleEndian` | src/persistence.cpp:48-49 | The byte loop appends the little-endian form of the value. |
| `StoreWriter.Writer.Str` | src/persistence.cpp:52-55 | A string goes out as its length and its bytes. |
| `StoreWriter.Writer.Cost` | src/persistence.cpp:94-103 | The buffer grows by the encoded cost. |
| `StoreWriter.Writer.StageFields` | src/persistence.cpp:124-133 | The buffer grows by the encoded stage. |
| `StoreWriter.Writer.PathFields` | src/persistence.cpp:155-165 | The buffer grows by the encoded path. |
| `StoreWriter.Writer.RecordFields` | src/persistence.cpp:190-239 | The buffer grows by the encoded plan record. |
| `StoreWriter.SerializeStore` | src/persistence.cpp:186-266 | The growing buffers end up holding the framed, checksummed form of the store. |
| `StoreReader.Reader.LittleEndian` | src/persistence.cpp:66-67 | The cursor advances over the field and returns its value, or reports truncation. |
| `StoreReader.Reader.Str` | src/persistence.cpp:70-76 | The cursor advances over a string of at most the limit, or refuses it. |
| `StoreReader.Reader.Cost` | src/persistence.cpp:104-122 | The cursor reader agrees with the format on costs, failures included. |
| `StoreReader.Reader.StageFields` | src/persistence.cpp:134-153 | Likewise on stages. |
| `StoreReader.Reader.PathFields` | src/persistence.cpp:166-183 | Likewise on paths. |
| `StoreReader.Reader.Records` | src/persistence.cpp:289-365 | Likewise on the plan loop, which refuses null and repeated ids before reading on. |
| `StoreReader.ParseStore` | src/persistence.cpp:268-401 | The cursor parser returns the store, or the error code of the first fault it meets. |
| `StoreChecker.ValidateChain` | src/persistence.cpp:425-438 | The stage loop finds the first break of the chain, loop or revisit. |
| `StoreChecker.ValidateRecord` | src/persistence.cpp:406-454 | The first fault of a record, in the order of the code. |
| `StoreChecker.ValidateStore` | src/persistence.cpp:403-461 | The first fault of a store, in the order of the code; none iff the store is valid. |
| `StoreValidity.StoreVerdictDecides` | src/persistence.cpp:403-461 | Validation passes iff ids are distinct, costs finite, stages chain without revisits to the destination, payloads match, endpoints are bound, the primary is a candidate and executing plans hold claims. |
| `StoreCodes.MagicCodes` | src/persistence.cpp:268-276 | A header too short for its magic, with the wrong magic, or with the wrong version, is refused for that, in this order. |
| `StoreCodes.LengthCodes` | src/persistence.cpp:276-281 | Else it is refused for a length past the end, and then for a checksum that is not that of the body. |
| `StoreCodes.StageCode` | src/persistence.cpp:425-434 | The first stage that does not go on gives INVALID_STAGE_ORDER if it starts elsewhere, and CYCLE_FORBIDDEN if it stays or returns. |
| `StoreCodes.EndCode` | src/persistence.cpp:435-438 | A path that goes on to the end, but not to its destination, gives PATH_MISSING_ENDPOINT. |
| `StoreCodes.PathCodes` | src/persistence.cpp:417-445 | A path is faulted for a payload first, then for its chain, then for an unbound endpoint. |
| `StoreCodes.RecordCodes` | src/persistence.cpp:406-454 | A record is faulted for its figures first, then for a path, then for an unlisted primary, then for executing without claims. |
| `StoreCodes.RestoredRequest` | src/persistence.cpp:371-394 | A restored request has what is stored of it and the defaults of a new one everywhere else. |
| `StoreValidity.ConservativeRecovery` | src/persistence.cpp:463-472 | The in-place loop moves every executable state to REVALIDATION_REQUIRED and keeps the others. |
| `StoreValidity.RecoveryIsConservative` | src/persistence.cpp:463-472 | A recovered store is still valid and holds no plan that can be committed or executed. |
| `Recoveries.RecoveredState` | src/persistence.cpp:463-472 | The five executable states become REVALIDATION_REQUIRED and every other one stays. |
| `Recoveries.RecoveryKeepsPlans` | src/coordinator.cpp:111-133 | A start from a valid store has every stored plan under its id with everything it was bound to and claimed, no other plan, the last plan of a request as its current one, no evidence, nothing held, and a new epoch. |
| `StoreTheorems.StoreRoundTrip` | src/persistence.cpp:186-401 | Every valid store within the count and string limits parses back to itself, requests on their persisted fields; one within the limits that is not valid is refused. |
| `StoreTheorems.AcceptedIsValid` | src/persistence.cpp:268-401 | Whatever is accepted is valid and within the limits. |
| `StoreTheorems.AcceptedStoreReserializes` | src/persistence.cpp:186-401 | The store of every accepted buffer serialises and parses to the same result. |
| `StoreTheorems.AcceptedIsPrefixFree` | src/persistence.cpp:268-281 | No proper prefix or extension of an accepted buffer is accepted. |
| `StoreTheorems.EveryByteCounts` | src/persistence.cpp:268-401 | Any single-byte substitution anywhere in an accepted buffer is refused. |
| `PlannedStores.PlannedRecordIsValid` | src/persistence.cpp:403-454 | A planned record of any shape and state is valid iff its cost figures are and, in an executing state, it claims something. |
| `PlannedStores.PlannedRecordIsReady` | src/persistence.cpp:403-454 | With valid weights a successful plan is valid in state PLAN_READY iff its weighted sum does not overflow. |
| `OverflowExample.ValidWeightsCanBeRefused` | src/persistence.cpp:403-416 | With valid weights a plan can succeed whose record the store refuses: an input at which the sum overflows. |
| `PlannedStores.PlannedRecordSurvives` | src/persistence.cpp:186-401 | A ready plan with finite cost, within the size limits, comes back from the store unchanged. |
| `Frames.EncodeFrame` | src/protocol.cpp:180-191 | The code emits header, payload and checksum, or refuses an oversized payload. |
| `Frames.DecodeFrame` | src/protocol.cpp:193-209 | The code accepts iff magic, version, type, length and checksum are right, and returns type and payload. |
| `Frames.DecodesIffStartsWithEncoding` | src/protocol.cpp:180-209 | A buffer decodes to a frame iff it starts with that frame's encoding. |
| `Frames.FrameNoticesEveryByte` | src/protocol.cpp:193-209 | Any changed byte outside the length field is noticed, whatever follows the frame. |
| `Frames.LengthByteNoticedIff` | src/protocol.cpp:199-206 | Whatever follows the frame, a changed length byte goes unnoticed iff the new length is permitted and a checksum of the bytes before it stands at the new end. |
| `Frames.OnlyShorterGoesUnnoticed` | src/protocol.cpp:199-206 | In a buffer that holds just the frame, only a shortened frame can go unnoticed. |
| `Frames.LengthByteCanGoUnnoticed` | src/protocol.cpp:199-206 | For every message type there is a frame and a length byte whose change is accepted. |
| `Messages.MessageRoundTrip` | src/protocol.cpp:211-334 | Every message within the limits is decoded, whatever bytes follow it, to what its type carries. |
| `Messages.ArrivesUnchangedIff` | src/protocol.cpp:68-106 | What arrives is what was sent iff it is not an endpoint, or one with a NUL-terminated architecture and a non-negative NUMA distance. |
| `Messages.FramedMessageRoundTrip` | src/protocol.cpp:180-334 | The same through a frame followed by other bytes. |
| `Broker.MemoryResourceBroker.TryAcquire` | include/communication_planner/adapters/broker.hpp:26-37 | All claims or none: the new table and the answer, including the scripted failure countdown. |
| `Broker.MemoryResourceBroker.Free` | include/communication_planner/adapters/broker.hpp:38-40 | Everything held on the named resources is forgotten. |
| `Broker.RefusalHoldsNothing` | include/communication_planner/adapters/broker.hpp:26-37 | A refused acquisition leaves the held table unchanged. |
| `Broker.AcquisitionIff` | include/communication_planner/adapters/broker.hpp:26-37 | Granted iff no failure is due and every claim by itself finds room in the 64-bit sum; then every resource holds what it held and everything claimed on it. |
| `Broker.GrantStaysWithinIff` | include/communication_planner/adapters/broker.hpp:26-37 | A granted acquisition stays within capacity iff, resource by resource, the wrapped total fits. |
| `Broker.DistinctClaimsStayWithin` | include/communication_planner/adapters/broker.hpp:26-37 | Claims without repetitions always stay within capacity, 64-bit wrap-around included. |
| `Broker.RepeatedClaimOverruns` | include/communication_planner/adapters/broker.hpp:30-35 | Repeated claims can overrun it. |
| `CoordinatorCode.CoordinatorServer.constructor` | src/coordinator.cpp:68-80 | A new coordinator is in the empty state. |
| `CoordinatorCode.CoordinatorServer.ReplaceEndpoint` | src/coordinator.cpp:99-103 | The loop replaces the endpoint with this id or appends it. |
| `CoordinatorCode.CoordinatorServer.ReplaceLink` | src/coordinator.cpp:104-109 | Likewise for a link, and the topology generation moves on. |
| `CoordinatorCode.CoordinatorServer.LoadStoreIfAny` | src/coordinator.cpp:111-133 | Whatever bytes the store file holds, the coordinator starts in an initial state: empty, or with recovered plans, a new epoch and no evidence. |
| `CoordinatorCode.CoordinatorServer.FenceWorker` | src/coordinator.cpp:135-151 | The worker's incarnation is fenced, its endpoints are disabled, its links removed and its boots forgotten. |
| `CoordinatorCode.CoordinatorServer.BeginCommitOn` | src/coordinator.cpp:204-217 | First locked phase: a committable plan of a request not cancelled starts waiting for its claims. |
| `CoordinatorCode.CoordinatorServer.AcquireFor` | src/coordinator.cpp:215-220 | The acquisition between the phases, one claim size per resource. |
| `CoordinatorCode.CoordinatorServer.EndCommitOn` | src/coordinator.cpp:221-241 | Second locked phase: committed, failed, or cancelled with the claims released. |
| `CoordinatorCode.CoordinatorServer.HandleRegister` | src/coordinator.cpp:247-258 | Registration, refused for null or fenced identities. |
| `CoordinatorCode.CoordinatorServer.HandlePublishEndpoint` | src/coordinator.cpp:259-268 | Endpoint publication by the live incarnation only, stamped with it. |
| `CoordinatorCode.CoordinatorServer.HandlePublishLink` | src/coordinator.cpp:269-278 | Link publication by the live incarnation only. |
| `CoordinatorCode.CoordinatorServer.HandlePublishCapacity` | src/coordinator.cpp:279-289 | Capacity evidence, anonymous or by a live incarnation, moves its generation. |
| `CoordinatorCode.CoordinatorServer.HandlePublishCongestion` | src/coordinator.cpp:290-300 | Congestion evidence likewise. |
| `CoordinatorCode.CoordinatorServer.HandleSubmitRequest` | src/coordinator.cpp:309-334 | The request is recorded and planned; a successful plan is filed with its executor; the answer is positive iff the request was admitted and planned. |
| `CoordinatorCode.CoordinatorServer.HandleRevalidate` | src/coordinator.cpp:336-350 | The plan awaits execution iff it revalidates, and needs revalidation otherwise. |
| `CoordinatorCode.CoordinatorServer.HandleHandoff` | src/coordinator.cpp:351-380 | The plan becomes active iff it revalidates, and needs revalidation otherwise. |
| `CoordinatorCode.CoordinatorServer.HandleResult` | src/coordinator.cpp:381-398 | Only an active plan, and a named worker only for its own incarnation, is completed or failed. |
| `CoordinatorCode.CoordinatorServer.HandleCancel` | src/coordinator.cpp:399-416 | The request is marked, and the named plan's claims and state are given up. |
| `CoordinatorCode.CoordinatorServer.HandleSupersede` | src/coordinator.cpp:417-433 | The named plan and the request's other current plan are superseded. |
| `CoordinatorCode.CoordinatorServer.HandleDisconnect` | src/coordinator.cpp:177-185 | A lost connection fences the worker last registered on it. |
| `CoordinatorCode.CoordinatorServer.Handle` | src/coordinator.cpp:245-457 | Each critical section of the object is one step of the state machine, and keeps the run invariants. |
| `EvidenceEffects.RegistrationTakesEffect` | src/coordinator.cpp:247-258 | A registration that is not refused makes the worker live under its boot, owning nothing, on that connection, and changes nothing else. |
| `EvidenceEffects.EndpointIsTakenIn` | src/coordinator.cpp:259-268 | An accepted endpoint, stamped, takes the place of the first with its id or the last place; a refused one changes nothing. |
| `EvidenceEffects.LinkIsTakenIn` | src/coordinator.cpp:269-278 | An accepted link likewise, and the topology moves on. |
| `EvidenceEffects.CapacityIsTakenIn` | src/coordinator.cpp:279-289 | Accepted capacity evidence is on every link with that id and no other afterwards; refused evidence changes nothing. |
| `EvidenceEffects.CongestionIsTakenIn` | src/coordinator.cpp:290-300 | Accepted congestion evidence likewise. |
| `EvidenceEffects.LossTakesEffect` | src/coordinator.cpp:135-151 | A lost connection disables exactly its worker's endpoints, drops exactly its links, forgets its boots, bars its incarnation and moves the topology on. |
| `PlanEffects.SubmissionTakesEffect` | src/coordinator.cpp:309-334 | A submission is recorded, and files exactly the plan that planning yields, with the publisher of the endpoint its data leaves from; it ends the process iff planning throws. |
| `PlanEffects.CommitBegins` | src/coordinator.cpp:204-217 | A ready or waiting plan of a request not cancelled waits for a commit of its claims, each by the payload of its first stage; any other commit changes nothing. |
| `PlanEffects.RevalidationTakesEffect` | src/coordinator.cpp:336-350 | A revalidated plan awaits execution iff everything it is bound to stands, and needs revalidation otherwise, whatever its state was. |
| `PlanEffects.HandoffTakesEffect` | src/coordinator.cpp:351-380 | A handed-off plan becomes active likewise. |
| `PlanEffects.ResultTakesEffect` | src/coordinator.cpp:381-398 | An active plan is completed or failed as reported, anonymously or by its incarnation; any other result changes nothing. |
| `PlanEffects.CancellationTakesEffect` | src/coordinator.cpp:399-416 | A cancellation marks the request; the named plan gives its claims back iff it waits for them, is committed, awaits execution or is active, and is cancelled unless completed. |
| `PlanEffects.SupersessionTakesEffect` | src/coordinator.cpp:417-433 | A supersession marks the named plan and gives its claims back, unless it is completed or cancelled, and marks and records the request's other current plan. |
| `CoordinatorInvariants.AuthorityStep` | src/coordinator.cpp:135-151 | Every step keeps: snapshot boots are those of live workers, no live incarnation is fenced, every dead one is, every endpoint carries a registered, non-null stamp. |
| `CoordinatorInvariants.UniqueStep` | src/coordinator.cpp:99-109 | Every step keeps endpoint and link ids unique. |
| `CoordinatorInvariants.PlansSoundStep` | src/coordinator.cpp:200-242 | Every step keeps: records filed under their id, committable plans and commits in flight without repeated claims, the broker within capacity. |
| `CoordinatorInvariants.NumberedStep` | src/coordinator.cpp:200-242 | Every step that does not wrap the plan counter around keeps: a commit in flight still names the claims of its own, existing plan, and plan ids in use stay below the counter. |
| `CoordinatorInvariants.LastNumberEndsNumbering` | src/coordinator.cpp:309-329 | A submission that takes the last number wraps the counter, and then the invariant fails: the condition is needed. |
| `CoordinatorInvariants.SubmittedPlan` | src/coordinator.cpp:309-329 | A submission that succeeds adds one plan, newly numbered, bound to the current generations, without repeated claims. |
| `CoordinatorRuns.InitialFacts` | src/coordinator.cpp:111-133 | Every start, also from a recovered store, satisfies all invariants and has no executable plan. |
| `CoordinatorRuns.RunsAreSound` | src/coordinator.cpp:245-457 | All these invariants hold in every state of every run. |
| `CoordinatorRuns.HeldStaysWithinCapacity` | src/coordinator.cpp:200-242 | In every state of every run no resource is held beyond its capacity. |
| `CoordinatorRuns.FencedForGood` | src/coordinator.cpp:247-278 | Once an incarnation is fenced, no later registration or publication in its name is accepted and nothing it stamped is ever fresh again. |
| `CoordinatorRuns.ShortRunsDoNotWrap` | src/coordinator.cpp:309-329 | No run wraps the plan counter around in its first 2^64 - 2 steps. |
| `CoordinatorRuns.StepExplains` | src/coordinator.cpp:200-433 | For each new state of a plan there is one kind of step, and one condition, that can have caused it. |
| `EvidenceSteps.StepEvolves` | src/coordinator.cpp:135-300 | What each step does to the snapshot: which generation it moves, and that all but generations, endpoints, links and boots stays as it was. |
| `EvidenceSteps.RunsAreUnattended` | src/coordinator.cpp:245-457 | In every state of every run no resource is offered, nothing is reserved, and the reservation and policy generations are 1. |
| `EvidenceHistory.LinksAreLastPublished` | src/coordinator.cpp:269-300 | In every run a link in the snapshot is the one last published under its id and not taken away since, with the capacity and congestion last published for it since. |
| `EvidenceHistory.PublishedLinksRemain` | src/coordinator.cpp:99-151 | A link published and not taken away since is there. |
| `EvidenceHistory.EndpointsAreLastPublished` | src/coordinator.cpp:259-268 | In every run an endpoint in the snapshot is the one last published under its id, stamped; neither reachable nor ready iff its publisher's connection was lost since. |
| `EvidenceHistory.PublishedEndpointsRemain` | src/coordinator.cpp:99-151 | An endpoint once published is there for good. |
| `EvidenceHistory.HardLimitKeepsPlansOff` | src/feasibility.cpp:148-151 | Once a link is reported at its hard limit, no plan made before the next report or publication of it retains a path over it. |
| `CommitGrants.BrokerIsPlain` | include/communication_planner/adapters/broker.hpp:20-24 | In every run every resource has the default capacity and no failure is ever scripted. |
| `CommitGrants.CommitIsGrantedIff` | src/coordinator.cpp:215-220 | In every run the acquisition of a commit is granted iff every resource its plan claims has room for the payload of the plan's first stage; then each claim's holding grows by exactly that, and nothing else changes. |
| `CommitGrants.RoomIff` | include/communication_planner/adapters/broker.hpp:30-35 | There is room iff the sum is within the capacity, or wraps around to something that is. |
| `CommitGrants.WrappedShareIsGranted` | include/communication_planner/adapters/broker.hpp:30-35 | A payload close to 2^64 wraps a holding around to nothing, and is granted. |
| `CommitGrants.CommitEnds` | src/coordinator.cpp:221-241 | A commit ends with its plan cancelled iff it was lost, and else committed or failed as the broker answered; what was granted for a lost plan is given back. |
| `CommitGrants.CommittedWasGranted` | src/coordinator.cpp:200-242 | In every run a plan is committed only at the end of a commit whose acquisition, earlier in the run, found room on every claim and held the plan's share of each. |
| `ExecutionHistory.ExecutableOnlyWhenSupported` | src/coordinator.cpp:336-380 | In every run a plan starts awaiting execution or becomes active only at a revalidation or handoff of that plan at which all bound endpoints are vouched for by live, unfenced incarnations and all bound links are present, unchanged and healthy. |
| `ExecutionHistory.CompletedWasHandedOff` | src/coordinator.cpp:351-398 | A plan completed in a run, also a recovered one, had been active and unaltered since such a handoff in that run. |
| `ExecutionHistory.ExecutedNeedsNoStaging` | src/revalidation.cpp:121-133 | In every run a plan that awaits execution, becomes active or completes needs no staging resource, because none is ever offered. |
| `Cancellation.NoCommitAfterCancel` | src/coordinator.cpp:226-241 | Once a request is cancelled, no later step of any interleaving commits a plan of it. |
| `Cancellation.CommittedBeforeCancelled` | src/coordinator.cpp:226-241 | A plan found committed after its request was cancelled was committed before and has not been touched since. |
| `Cancellation.CancelWinsOverCommit` | src/coordinator.cpp:200-242 | A commit in flight when its request is cancelled ends, in every interleaving in which the plan counter has not wrapped around, with the plan cancelled and nothing it acquired still held. |
| `Staleness.GenerationsNeverDecreaseIff` | src/coordinator.cpp:104-109 | Topology, capacity and congestion generations never decrease, and no other generation moves, from moment to moment of a run iff no step moves one from its last value. |
| `Staleness.GenerationsNeverDecrease` | src/coordinator.cpp:104-109 | So from any moment to any later one, each having started. |
| `Staleness.PermanentlyStale` | src/coordinator.cpp:279-300 | After capacity or congestion evidence is taken in, no plan made earlier in the run revalidates, is let through or is handed off again; asking for it marks it REVALIDATION_REQUIRED. Counters and generations have not wrapped around. |
| `Staleness.ClaimingPlansNeverRun` | src/revalidation.cpp:121-133 | A plan made in a run revalidates at once iff it claims nothing; one that claims anything is never let through, handed off or completed. |
| `Staleness.HandedOffIsStillFeasible` | src/coordinator.cpp:336-380 | A plan made at one step and let through or handed off at a later one is there still feasible on every path it retained, if endpoints and links of equal id and generation agree on their static fields. |
| `ExecutionHistory.ExecutableNeedsNoStaging` | src/revalidation.cpp:121-133 | At no moment of a run does a plan that needs a staging resource await execution or stand active, also after a recovery. |
| `SavedRuns.SavedRecordIsValidIff` | src/persistence.cpp:406-454 | At any later moment the record of a plan made in the run is valid iff its cost figures are, it neither awaits execution nor is active, and if committed it claims something. |
| `SavedRuns.SaveIsTakenBackIff` | src/coordinator.cpp:434-449 | The save of any moment of a run that started empty, within the size limits, parses iff every record is such and no request was recorded twice. |
| `SavedRuns.LiveSaveIsLost` | src/coordinator.cpp:111-133 | A save taken while a plan made in the run awaits execution or is active is refused as a whole. |
| `EndToEnd.TheRequestIsPlanned` | src/planner.cpp:155-281 | Over two live endpoints and one link between them the request is planned, whatever the weights, and its plan revalidates there: the hypotheses of the planning and revalidation theorems are met. |
| `EndToEnd.SomeRunCompletes` | src/coordinator.cpp:245-457 | From the empty start some run registers a worker, publishes two endpoints and a link, plans, hands off and completes, whatever the weights. |
| `EndToEnd.SomeCommitIsCancelledInFlight` | src/coordinator.cpp:200-242 | Some run cancels a request between the phases of its commit and then ends the commit: the race the cancellation theorems speak of does happen. |
| `EndToEnd.SomePlanIsOvertaken` | src/coordinator.cpp:290-300 | Some run plans and then takes in congestion evidence. |
| `EndToEnd.SomeOldBootReturns` | src/coordinator.cpp:247-258 | For any worker and any two boots, some run registers the one, then the other, then the first again, which takes over. |
| `EndToEnd.SomeNewBootIsFenced` | src/coordinator.cpp:177-185 | For any worker and any two boots, some run registers both from two connections, loses the first connection, and thereby fences the second boot only. |
| `EndToEnd.SomeStoreIsAccepted` | src/persistence.cpp:186-401 | The empty store of any epoch is written and accepted. |

## Left out

- Rounding of floating-point arithmetic: sums, products and quotients are exact reals, compared with the largest
  double where the code tests a total for overflow.
- Overflow of the 32-bit difference of two NUMA distances in the cost of a hop.
- Explanations, stage descriptions, provenance labels, handoff texts, worker names and enum-to-string tables: the
  planner's text fields are empty here; the store and message codecs carry arbitrary ones.
- Endpoint, link and request fields that neither the filter, the cost, the ranking nor revalidation reads; the
  message codec has them.
- Sockets, threads, the accept loop, file access, clients, replies' contents, worker processes and CUDA code.
- QUERY_PLAN and SHUTDOWN, which leave the modelled state alone; SAVE does too, and what it writes is modelled.
- The lifecycle table of src/lifecycle.cpp: the handlers never consult it.
- SavedRuns.SaveIsTakenBackIff: for runs that start empty, while plan numbers have not wrapped around, and within the
  reader's count and string limits.
- A second request handled by a crashed process: a request the planner throws on ends the run (`crashed`).
- `setCapacity` and `setFailNext` of the broker during a run; a single ledger may have any capacities and countdown.
- Messages.MessageRoundTrip: the payload codec is modelled on values; the growth of its buffer and the advance of
  its cursor are those of the store's writer and reader, shown there and for frames.
- PlannerCode.BuildStages: leaves the stage description text empty.
- PlannerCode.PlanPointToPoint: leaves explanations, provenance label and handoff text empty.
- PlannerCode.BuildMulticastPlan: leaves explanations and the provenance label empty.
- PlannerCode.BuildCollectivePlan: leaves explanations and the provenance label empty.
- Cancellation.CancelWinsOverCommit: as long as the plan counter has not wrapped around, which
  `CoordinatorRuns.ShortRunsDoNotWrap` gives for the first 2^64 - 2 steps of every run; with reused numbers two plans
  share a record.
- CommitGrants.CommitIsGrantedIff: likewise while the plan counter has not wrapped around.
- CommitGrants.CommitEnds: likewise.
- CommitGrants.CommittedWasGranted: likewise.
- Staleness.PermanentlyStale: for plans made in the run, while neither plan numbers nor generations have wrapped
  around; a recovered plan's generations are those of another process.
- Staleness.HandedOffIsStillFeasible: for plans made in the run, while plan numbers have not wrapped around; that
  publishers change a generation with the static fields is a hypothesis, since nothing in the coordinator checks it.
- CoordinatorRuns.FencedForGood: speaks of endpoints by their stamps; links carry no owner, and a re-registered
  worker's link list starts empty.
- PlannedStores.PlannedRecordSurvives: the planner's real-valued figures are stored through an arbitrary encoding of
  doubles, since rounding is not modelled.
- PlannedStores.PlannedRecordIsReady: likewise, through any encoding that keeps magnitudes up to the largest double
  finite and non-negative, and what is not finite not finite.
- CoordinatorCode.CoordinatorServer.HandleSupersede: states what the handler does; which of the two plans is the newer
  one is not a property it has.
