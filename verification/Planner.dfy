/** src/planner.cpp above the enumeration: assess every candidate, rank the feasible ones, and build a
    plan bound to the generations it was made from. Explanations and descriptions stay empty. */
module Planner {
  import opened Core
  import opened Model
  import opened Sorting
  import opened Enumeration
  import opened FeasibilityFilter
  import opened Cost
  import opened Ranking

  /** The process-wide counters behind `CommunicationPlanId::next`, `nextPlanGeneration`, `StageId::next`. */
  datatype Ids = Ids(plan: u64, generation: u64, stage: u64)

  datatype Report = Report(
    path: CandidatePath, feasibility: Feasibility, cost: CostSummary<Double>, provenance: Provenance)

  datatype PlanOutcome = PlanOutcome(
    success: bool, plan: Option<Plan<Double>>, candidates: seq<Report>, rankedIndices: seq<nat>)

  /** `planCommunication` throws on a malformed request, before it consumes an id. */
  datatype Planned = Threw | Planned(outcome: PlanOutcome, ids: Ids)

  const NO_COST: CostSummary<Double> := CostSummary([], Fin(0.0))

  /** `stagingResourceFor`, in 64-bit arithmetic. */
  function StagingResourceFor(relay: u64): (r: u64)
    ensures r % 2 == 1
  {
    (relay * 2 + 1) % TWO64
  }

  // ----- assessing and ranking -----

  function Assess(req: Request, snap: Snapshot, w: Weights, b: Bounds, c: CandidatePath): Report {
    var v := Verdict(req, snap, c, b);
    if v.Feasible? then
      var cost := CandidateCost(req, snap, c, w);
      Report(c, v, cost, WorstProvenance(cost.components))
    else Report(c, v, NO_COST, UnknownProvenance)
  }

  function Reports(req: Request, snap: Snapshot, w: Weights, b: Bounds, cands: seq<CandidatePath>)
    : (r: seq<Report>)
    ensures |r| == |cands|
  {
    if cands == [] then []
    else
      Reports(req, snap, w, b, cands[..|cands| - 1]) + [Assess(req, snap, w, b, cands[|cands| - 1])]
  }

  lemma {:induction false} ReportAt(req: Request, snap: Snapshot, w: Weights, b: Bounds, cands: seq<CandidatePath>,
                                    i: nat)
    requires i < |cands|
    ensures Reports(req, snap, w, b, cands)[i] == Assess(req, snap, w, b, cands[i])
  {
    if i < |cands| - 1 { ReportAt(req, snap, w, b, cands[..|cands| - 1], i); }
  }

  /** Positions of the feasible reports. */
  function FeasibleAt(reports: seq<Report>): (r: seq<nat>)
    ensures forall k :: 0 <= k < |r| ==> r[k] < |reports| && reports[r[k]].feasibility.Feasible?
    ensures forall i :: 0 <= i < |reports| && reports[i].feasibility.Feasible? ==> i in r
    ensures forall j, k :: 0 <= j < k < |r| ==> r[j] < r[k]
  {
    if reports == [] then []
    else
      FeasibleAt(reports[..|reports| - 1])
      + if reports[|reports| - 1].feasibility.Feasible? then [|reports| - 1] else []
  }

  function Rankables(reports: seq<Report>): (r: seq<Rankable>)
    ensures |r| == |FeasibleAt(reports)|
    ensures forall k :: 0 <= k < |r| ==>
      r[k] == Rankable(reports[FeasibleAt(reports)[k]].path, Feasible, reports[FeasibleAt(reports)[k]].cost)
  {
    if reports == [] then []
    else
      var last := reports[|reports| - 1];
      Rankables(reports[..|reports| - 1])
      + if last.feasibility.Feasible? then [Rankable(last.path, Feasible, last.cost)] else []
  }

  function Pick<T>(s: seq<T>, order: seq<nat>): (r: seq<T>)
    requires forall k :: 0 <= k < |order| ==> order[k] < |s|
    ensures |r| == |order| && forall k :: 0 <= k < |r| ==> r[k] == s[order[k]]
  {
    seq(|order|, k requires 0 <= k < |order| => s[order[k]])
  }

  lemma RankOrderInRange(rs: seq<Rankable>)
    ensures forall k :: 0 <= k < |RankOrder(rs)| ==> RankOrder(rs)[k] < |rs|
  {
    RankingSelectsTheFeasible(rs);
    forall k | 0 <= k < |RankOrder(rs)| ensures RankOrder(rs)[k] < |rs| {
      assert RankOrder(rs)[k] in RankOrder(rs);
    }
  }

  /** The feasible candidates of the reports, best first. */
  function BestFirst(reports: seq<Report>): seq<Rankable> {
    RankOrderInRange(Rankables(reports));
    Pick(Rankables(reports), RankOrder(Rankables(reports)))
  }

  /** Where those candidates stand among the reports. */
  function BestFirstAt(reports: seq<Report>): (r: seq<nat>)
    ensures |r| == |BestFirst(reports)|
  {
    RankOrderInRange(Rankables(reports));
    Pick(FeasibleAt(reports), RankOrder(Rankables(reports)))
  }

  function ReportsBetween(req: Request, snap: Snapshot, w: Weights, b: Bounds, src: u64, dst: u64): seq<Report> {
    Reports(req, snap, w, b, Enumerate(snap.links, src, dst, b))
  }

  /** The feasible candidates between two endpoints, best first. */
  function RankedBetween(req: Request, snap: Snapshot, w: Weights, b: Bounds, src: u64, dst: u64): seq<Rankable> {
    BestFirst(ReportsBetween(req, snap, w, b, src, dst))
  }

  // ----- building -----

  function StageOf(hop: Hop, link: Link, id: u64, payload: u64, last: bool): Stage {
    Stage(id, 1, hop.from, hop.to, hop.link, link.transport, payload, Bandwidth(link), link.latency,
          if last then 0 else StagingResourceFor(hop.to), true, link.provenance, [])
  }

  ghost predicate Linked(lmap: map<u64, Link>, hops: seq<Hop>) {
    forall i :: 0 <= i < |hops| ==> hops[i].link in lmap
  }

  /** `buildStages`; `lmap.at` throws on an unknown link. */
  function StagesOf(hops: seq<Hop>, lmap: map<u64, Link>, payload: u64, firstId: u64): (r: seq<Stage>)
    requires Linked(lmap, hops)
    ensures |r| == |hops|
    ensures forall i :: 0 <= i < |r| ==>
      r[i] == StageOf(hops[i], lmap[hops[i].link], Add64(firstId, i), payload, i + 1 == |hops|)
  {
    seq(|hops|, i requires 0 <= i < |hops| =>
      StageOf(hops[i], lmap[hops[i].link], Add64(firstId, i), payload, i + 1 == |hops|))
  }

  /** `makePath`. */
  function PathOf(id: u64, r: Rankable, lmap: map<u64, Link>, payload: u64, firstStage: u64): Path<Double>
    requires Linked(lmap, r.path.hops)
  {
    Path(id, 1, r.path.source, r.path.destination, StagesOf(r.path.hops, lmap, payload, firstStage), payload,
         r.cost, WorstProvenance(r.cost.components), [], [])
  }

  function TotalHops(rs: seq<Rankable>): nat {
    if rs == [] then 0 else TotalHops(rs[..|rs| - 1]) + |rs[|rs| - 1].path.hops|
  }

  /** The paths of the retained candidates, numbered from 1. */
  function PathsOf(rs: seq<Rankable>, lmap: map<u64, Link>, payload: u64, firstStage: u64): (r: seq<Path<Double>>)
    requires forall k :: 0 <= k < |rs| ==> Linked(lmap, rs[k].path.hops)
    requires |rs| < TWO64
    ensures |r| == |rs|
  {
    if rs == [] then []
    else
      var front := rs[..|rs| - 1];
      PathsOf(front, lmap, payload, firstStage)
      + [PathOf(|rs|, rs[|rs| - 1], lmap, payload, Add64(firstStage, TotalHops(front)))]
  }

  lemma {:induction false} PathAt(rs: seq<Rankable>, lmap: map<u64, Link>, payload: u64, firstStage: u64, k: nat)
    requires forall j :: 0 <= j < |rs| ==> Linked(lmap, rs[j].path.hops)
    requires k < |rs| < TWO64
    ensures PathsOf(rs, lmap, payload, firstStage)[k]
         == PathOf(k + 1, rs[k], lmap, payload, Add64(firstStage, TotalHops(rs[..k])))
  {
    if k < |rs| - 1 {
      PathAt(rs[..|rs| - 1], lmap, payload, firstStage, k);
      assert rs[..|rs| - 1][..k] == rs[..k];
    }
  }

  /** Insertion into a `std::set`, kept as an ordered sequence without repetitions. */
  function AddToSet<T(==)>(less: (T, T) -> bool, x: T, s: seq<T>): seq<T> {
    if x in s then s else Insert(less, x, s)
  }

  predicate PairLess(a: (u64, u64), b: (u64, u64)) { a.0 < b.0 || (a.0 == b.0 && a.1 < b.1) }

  predicate IdLess(a: u64, b: u64) { a < b }

  function BindEndpoint(emap: map<u64, Endpoint>, id: u64, s: seq<(u64, u64)>): seq<(u64, u64)> {
    if id in emap then AddToSet(PairLess, (emap[id].id, emap[id].generation), s) else s
  }

  /** The (endpoint, generation) pairs of every endpoint the hops touch. */
  function BoundEndpoints(emap: map<u64, Endpoint>, hops: seq<Hop>): seq<(u64, u64)> {
    if hops == [] then []
    else
      var h := hops[|hops| - 1];
      BindEndpoint(emap, h.to, BindEndpoint(emap, h.from, BoundEndpoints(emap, hops[..|hops| - 1])))
  }

  function BindLink(lmap: map<u64, Link>, id: u64, s: seq<(u64, u64)>): seq<(u64, u64)> {
    if id in lmap then AddToSet(PairLess, (lmap[id].id, lmap[id].generation), s) else s
  }

  function BoundLinks(lmap: map<u64, Link>, hops: seq<Hop>): seq<(u64, u64)> {
    if hops == [] then []
    else BindLink(lmap, hops[|hops| - 1].link, BoundLinks(lmap, hops[..|hops| - 1]))
  }

  /** One staging resource for each endpoint in `relays`. */
  function Claims(relays: seq<u64>): seq<u64> {
    if relays == [] then []
    else AddToSet(IdLess, StagingResourceFor(relays[|relays| - 1]), Claims(relays[..|relays| - 1]))
  }

  /** The endpoints at which a path rests. */
  function Relays(hops: seq<Hop>): (r: seq<u64>)
    ensures |r| == if hops == [] then 0 else |hops| - 1
    ensures forall i :: 0 <= i < |r| ==> r[i] == hops[i].to
  {
    seq(if hops == [] then 0 else |hops| - 1, i requires 0 <= i < |hops| => hops[i].to)
  }

  function AllHops(rs: seq<Rankable>): seq<Hop> {
    if rs == [] then [] else AllHops(rs[..|rs| - 1]) + rs[|rs| - 1].path.hops
  }

  /** How many of the ranked candidates a point-to-point plan keeps. */
  function Kept(b: Bounds, ranked: nat): nat
    requires ranked > 0
  {
    1 + if b.maxFallbacks < ranked - 1 then b.maxFallbacks else ranked - 1
  }

  function FallbackIds(n: nat): (r: seq<u64>)
    requires 0 < n < TWO64
    ensures |r| == n - 1 && forall k :: 0 <= k < |r| ==> r[k] == k + 2
  {
    seq(n - 1, k requires 0 <= k < n - 1 => k + 2)
  }

  /** A plan over the retained candidates `kept`, first one primary, bound to the snapshot. */
  function PlanOver(req: Request, snap: Snapshot, ids: Ids, shape: RequestShape, kept: seq<Rankable>,
                    fallbacks: seq<u64>, relays: seq<u64>, cost: CostSummary<Double>, verdict: Feasibility)
    : Plan<Double>
    requires |kept| < TWO64
    requires forall k :: 0 <= k < |kept| ==> Linked(LinkMap(snap.links), kept[k].path.hops)
  {
    var lmap, emap := LinkMap(snap.links), EndpointMap(snap.endpoints);
    var paths := PathsOf(kept, lmap, req.payloadSize, ids.stage);
    Plan(ids.plan, ids.generation, req.id, req.generation, shape,
         if kept == [] then 0 else 1, fallbacks, paths, if kept == [] then [] else paths[0].stages,
         verdict, snap.generations,
         BoundEndpoints(emap, AllHops(kept)), BoundLinks(lmap, AllHops(kept)), Claims(relays), Claims(relays),
         cost, [], [], 1, true, [], [],
         if shape.Multicast? then req.destinations else [],
         if shape.Collective? then req.collectiveShape else UnknownCollective,
         if shape.Collective? then req.participants else [], [])
  }

  function IdsAfter(ids: Ids, rs: seq<Rankable>): Ids {
    Ids(Next64(ids.plan), Next64(ids.generation), Add64(ids.stage, TotalHops(rs)))
  }

  function PointPlan(req: Request, snap: Snapshot, ids: Ids, kept: seq<Rankable>): Plan<Double>
    requires 0 < |kept| < TWO64
    requires forall k :: 0 <= k < |kept| ==> Linked(LinkMap(snap.links), kept[k].path.hops)
  {
    PlanOver(req, snap, ids, PointToPoint, kept, FallbackIds(|kept|), Relays(kept[0].path.hops), kept[0].cost,
             Feasible)
  }

  /** The point-to-point branch of `planCommunication`. */
  function PlanBetween(req: Request, snap: Snapshot, w: Weights, b: Bounds, ids: Ids, dst: u64): Planned {
    var reports := ReportsBetween(req, snap, w, b, req.source, dst);
    var ranked := RankedBetween(req, snap, w, b, req.source, dst);
    if ranked == [] then Planned(PlanOutcome(false, None, reports, BestFirstAt(reports)), ids)
    else
      var kept := ranked[..Kept(b, |ranked|)];
      RankedAreLinked(req, snap, w, b, req.source, dst);
      RankedAreFew(req, snap, w, b, req.source, dst);
      Planned(PlanOutcome(true, Some(PointPlan(req, snap, ids, kept)), reports, BestFirstAt(reports)),
              IdsAfter(ids, kept))
  }

  // ----- fan-out: src/multicast.cpp and src/collective.cpp -----

  /** The best candidate to each destination that has one. */
  function Chosen(req: Request, snap: Snapshot, w: Weights, b: Bounds, src: u64, dests: seq<u64>): seq<Rankable> {
    if dests == [] then []
    else
      var ranked := RankedBetween(req, snap, w, b, src, dests[|dests| - 1]);
      Chosen(req, snap, w, b, src, dests[..|dests| - 1]) + if ranked == [] then [] else [ranked[0]]
  }

  predicate Reachable(req: Request, snap: Snapshot, w: Weights, b: Bounds, src: u64, dst: u64) {
    RankedBetween(req, snap, w, b, src, dst) != []
  }

  function AllComponents(rs: seq<Rankable>): seq<CostComponent<Double>> {
    if rs == [] then [] else AllComponents(rs[..|rs| - 1]) + rs[|rs| - 1].cost.components
  }

  function AllRelays(rs: seq<Rankable>): seq<u64> {
    if rs == [] then [] else AllRelays(rs[..|rs| - 1]) + Relays(rs[|rs| - 1].path.hops)
  }

  function FanOutPlan(req: Request, snap: Snapshot, ids: Ids, shape: RequestShape, kept: seq<Rankable>,
                      verdict: Feasibility): Plan<Double>
    requires |kept| < TWO64
    requires forall k :: 0 <= k < |kept| ==> Linked(LinkMap(snap.links), kept[k].path.hops)
  {
    PlanOver(req, snap, ids, shape, kept, [], AllRelays(kept), Summarize(AllComponents(kept)), verdict)
  }

  function MulticastReports(req: Request, snap: Snapshot, w: Weights, b: Bounds, dests: seq<u64>): seq<Report> {
    if dests == [] then []
    else
      MulticastReports(req, snap, w, b, dests[..|dests| - 1])
      + ReportsBetween(req, snap, w, b, req.source, dests[|dests| - 1])
  }

  /** Where the chosen candidates stand among the reports. */
  function MulticastRanked(req: Request, snap: Snapshot, w: Weights, b: Bounds, dests: seq<u64>): seq<nat> {
    if dests == [] then []
    else
      var front := dests[..|dests| - 1];
      var best := BestFirstAt(ReportsBetween(req, snap, w, b, req.source, dests[|dests| - 1]));
      MulticastRanked(req, snap, w, b, front)
      + if best == [] then [] else [|MulticastReports(req, snap, w, b, front)| + best[0]]
  }

  function PlanMulticast(req: Request, snap: Snapshot, w: Weights, b: Bounds, ids: Ids): Planned
    requires |req.destinations| < TWO64
  {
    var kept := Chosen(req, snap, w, b, req.source, req.destinations);
    var success := forall d :: d in req.destinations ==> Reachable(req, snap, w, b, req.source, d);
    ChosenAreLinked(req, snap, w, b, req.source, req.destinations);
    Planned(PlanOutcome(success,
                        Some(FanOutPlan(req, snap, ids, Multicast, kept, if success then Feasible else RejectEndpoint)),
                        MulticastReports(req, snap, w, b, req.destinations),
                        MulticastRanked(req, snap, w, b, req.destinations)),
            IdsAfter(ids, kept))
  }

  predicate ParticipantReady(emap: map<u64, Endpoint>, snap: Snapshot, id: u64) {
    && id in emap && EndpointFresh(emap[id], snap)
    && emap[id].reachable && emap[id].ready && !emap[id].kind.UnknownKind?
  }

  /** The participants other than the root, in order. */
  function Members(root: u64, participants: seq<u64>): (ms: seq<u64>)
    ensures |ms| <= |participants|
  {
    if participants == [] then []
    else
      Members(root, participants[..|participants| - 1])
      + if participants[|participants| - 1] == root then [] else [participants[|participants| - 1]]
  }

  /** How many members are reachable before the first that is not. */
  function ReachablePrefix(req: Request, snap: Snapshot, w: Weights, b: Bounds, root: u64, members: seq<u64>,
                           i: nat): (n: nat)
    requires i <= |members|
    ensures i <= n <= |members|
    decreases |members| - i
  {
    if i < |members| && Reachable(req, snap, w, b, root, members[i])
    then ReachablePrefix(req, snap, w, b, root, members, i + 1) else i
  }

  /** The plan handed back with a rejected collective: only what was filled in before the rejection. */
  function RejectedCollective(req: Request, snap: Snapshot, ids: Ids, kept: seq<Rankable>): Plan<Double>
    requires |kept| < TWO64
    requires forall k :: 0 <= k < |kept| ==> Linked(LinkMap(snap.links), kept[k].path.hops)
  {
    Plan(ids.plan, ids.generation, req.id, req.generation, Collective, 0, [],
         PathsOf(kept, LinkMap(snap.links), req.payloadSize, ids.stage), [], RejectEndpoint,
         Generations(0, 0, 0, 0, 0, 0, 0, 0), [], [], [], [], NO_COST, [], [], 0, true, [], [], [],
         req.collectiveShape, req.participants, [])
  }

  function Rejection(req: Request, snap: Snapshot, ids: Ids, kept: seq<Rankable>): Planned
    requires |kept| < TWO64
    requires forall k :: 0 <= k < |kept| ==> Linked(LinkMap(snap.links), kept[k].path.hops)
  {
    Planned(PlanOutcome(false, Some(RejectedCollective(req, snap, ids, kept)), [], []), IdsAfter(ids, kept))
  }

  function Upto(n: nat): (r: seq<nat>)
    ensures |r| == n && forall i :: 0 <= i < n ==> r[i] == i
  {
    seq(n, i => i)
  }

  function PlanCollective(req: Request, snap: Snapshot, w: Weights, b: Bounds, ids: Ids): Planned
    requires req.participants != []
  {
    var emap := EndpointMap(snap.endpoints);
    if req.collectiveCount != |req.participants| || req.collectiveCount > b.maxCollectiveParticipants then
      Rejection(req, snap, ids, [])
    else if exists p :: p in req.participants && !ParticipantReady(emap, snap, p) then
      Rejection(req, snap, ids, [])
    else
      var root := req.participants[0];
      var members := Members(root, req.participants);
      var n := ReachablePrefix(req, snap, w, b, root, members, 0);
      var kept := Chosen(req, snap, w, b, root, members[..n]);
      ChosenAreLinked(req, snap, w, b, root, members[..n]);
      if n < |members| then Rejection(req, snap, ids, kept)
      else
        Planned(PlanOutcome(true, Some(FanOutPlan(req, snap, ids, Collective, kept, Feasible)), [], Upto(|kept|)),
                IdsAfter(ids, kept))
  }

  /** `planCommunication`. */
  function PlanCommunication(req: Request, snap: Snapshot, w: Weights, b: Bounds, ids: Ids): Planned {
    if !req.Valid() then Threw
    else if req.EffectiveShape().Multicast? then PlanMulticast(req, snap, w, b, ids)
    else if req.EffectiveShape().Collective? then PlanCollective(req, snap, w, b, ids)
    else if req.destinations == [] then Threw
    else PlanBetween(req, snap, w, b, ids, req.destinations[0])
  }

  // ----- what ranking hands to construction -----

  /** Everything ranked between two endpoints is an enumerated candidate that passes the filter, with
      its own cost. */
  lemma RankedAreAssessed(req: Request, snap: Snapshot, w: Weights, b: Bounds, src: u64, dst: u64, r: Rankable)
    requires r in RankedBetween(req, snap, w, b, src, dst)
    ensures r.path in Enumerate(snap.links, src, dst, b)
    ensures r.feasibility.Feasible? && Verdict(req, snap, r.path, b).Feasible?
    ensures r.cost == CandidateCost(req, snap, r.path, w)
  {
    var cands := Enumerate(snap.links, src, dst, b);
    var reports := Reports(req, snap, w, b, cands);
    var rs := Rankables(reports);
    RankOrderInRange(rs);
    var k :| 0 <= k < |RankOrder(rs)| && rs[RankOrder(rs)[k]] == r;
    var i := FeasibleAt(reports)[RankOrder(rs)[k]];
    ReportAt(req, snap, w, b, cands, i);
    assert cands[i] in cands;
  }

  lemma FeasibleIsLinked(req: Request, snap: Snapshot, c: CandidatePath, b: Bounds)
    requires Verdict(req, snap, c, b).Feasible?
    ensures Linked(LinkMap(snap.links), c.hops) && c.hops != []
  {
    VerdictDecides(req, snap, EndpointMap(snap.endpoints), LinkMap(snap.links), c.hops, b);
  }

  lemma RankedAreLinked(req: Request, snap: Snapshot, w: Weights, b: Bounds, src: u64, dst: u64)
    ensures forall r :: r in RankedBetween(req, snap, w, b, src, dst) ==> Linked(LinkMap(snap.links), r.path.hops)
  {
    forall r | r in RankedBetween(req, snap, w, b, src, dst) ensures Linked(LinkMap(snap.links), r.path.hops) {
      RankedAreAssessed(req, snap, w, b, src, dst, r);
      FeasibleIsLinked(req, snap, r.path, b);
    }
  }

  lemma RankedAreFew(req: Request, snap: Snapshot, w: Weights, b: Bounds, src: u64, dst: u64)
    ensures |RankedBetween(req, snap, w, b, src, dst)| <= b.maxCandidates
  {
    var reports := Reports(req, snap, w, b, Enumerate(snap.links, src, dst, b));
    EnumerationIsBounded(snap.links, src, dst, b);
    FeasibleAtIsShort(reports);
    RankOrderIsShort(Rankables(reports));
  }

  lemma EnumerationIsBounded(links: seq<Link>, src: u64, dst: u64, b: Bounds)
    ensures |Enumerate(links, src, dst, b)| <= b.maxCandidates
  {
    SortKeepsElements(CandidateLess, Found(links, src, dst, b));
  }

  lemma RankOrderIsShort(rs: seq<Rankable>)
    ensures |RankOrder(rs)| <= |rs|
  {
    ItemsAreFew(rs);
    SortKeepsElements(ItemLess, Items(rs));
  }

  lemma {:induction false} FeasibleAtIsShort(reports: seq<Report>)
    ensures |FeasibleAt(reports)| <= |reports|
  {
    if reports != [] { FeasibleAtIsShort(reports[..|reports| - 1]); }
  }

  lemma {:induction false} ItemsAreFew(rs: seq<Rankable>)
    ensures |Items(rs)| <= |rs|
  {
    if rs != [] { ItemsAreFew(rs[..|rs| - 1]); }
  }

  lemma {:induction false} ChosenAreLinked(req: Request, snap: Snapshot, w: Weights, b: Bounds, src: u64,
                                           dests: seq<u64>)
    ensures var kept := Chosen(req, snap, w, b, src, dests);
      |kept| <= |dests| && forall k :: 0 <= k < |kept| ==> Linked(LinkMap(snap.links), kept[k].path.hops)
  {
    if dests != [] {
      ChosenAreLinked(req, snap, w, b, src, dests[..|dests| - 1]);
      RankedAreLinked(req, snap, w, b, src, dests[|dests| - 1]);
    }
  }
}
