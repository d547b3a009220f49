/** The planner's loops, each proved to compute what module Planner says. */
module PlannerCode {
  import opened Core
  import opened Model
  import opened Enumeration
  import opened FeasibilityFilter
  import opened Cost
  import opened Ranking
  import opened Planner

  method AssessOne(req: Request, snap: Snapshot, w: Weights, b: Bounds, c: CandidatePath) returns (rep: Report)
    ensures rep == Assess(req, snap, w, b, c)
  {
    var v := EvaluateCandidateFeasibility(req, snap, c, b);
    rep := Report(c, v, NO_COST, UnknownProvenance);
    if v.Feasible? {
      var cost := EvaluateCandidateCost(req, snap, c, w);
      var worst := WorstProvenanceOf(cost.components);
      rep := rep.(cost := cost, provenance := worst);
    }
  }

  method AssessCandidates(req: Request, snap: Snapshot, w: Weights, b: Bounds, cands: seq<CandidatePath>)
    returns (reports: seq<Report>, rankables: seq<Rankable>, at: seq<nat>)
    ensures reports == Reports(req, snap, w, b, cands)
    ensures at == FeasibleAt(reports) && rankables == Rankables(reports)
  {
    hide Assess;
    reports, rankables, at := [], [], [];
    for i := 0 to |cands|
      invariant |reports| == i && reports == Reports(req, snap, w, b, cands[..i])
      invariant at == FeasibleAt(reports) && rankables == Rankables(reports)
    {
      assert cands[..i + 1][..i] == cands[..i];
      var rep := AssessOne(req, snap, w, b, cands[i]);
      if rep.feasibility.Feasible? {
        rankables := rankables + [Rankable(rep.path, rep.feasibility, rep.cost)];
        at := at + [i];
      }
      OneMoreReport(reports, rep);
      reports := reports + [rep];
    }
    assert cands[..|cands|] == cands;
  }

  lemma OneMoreReport(reports: seq<Report>, rep: Report)
    ensures rep.feasibility.Feasible? ==>
      && FeasibleAt(reports + [rep]) == FeasibleAt(reports) + [|reports|]
      && Rankables(reports + [rep]) == Rankables(reports) + [Rankable(rep.path, Feasible, rep.cost)]
    ensures !rep.feasibility.Feasible? ==>
      && FeasibleAt(reports + [rep]) == FeasibleAt(reports)
      && Rankables(reports + [rep]) == Rankables(reports)
  {
    assert (reports + [rep])[..|reports|] == reports;
  }

  method BuildStages(hops: seq<Hop>, lmap: map<u64, Link>, payload: u64, firstId: u64)
    returns (stages: seq<Stage>)
    requires Linked(lmap, hops)
    ensures stages == StagesOf(hops, lmap, payload, firstId)
  {
    stages := [];
    for i := 0 to |hops|
      invariant |stages| == i
      invariant forall j :: 0 <= j < i ==>
        stages[j] == StageOf(hops[j], lmap[hops[j].link], Add64(firstId, j), payload, j + 1 == |hops|)
    {
      var h := hops[i];
      var link := lmap[h.link];
      var st := Stage(Add64(firstId, i), 1, h.from, h.to, h.link, link.transport, payload,
                      if link.effectiveBandwidth != 0 then link.effectiveBandwidth else link.capacity,
                      link.latency, 0, true, link.provenance, []);
      if i + 1 < |hops| { st := st.(stagingResource := StagingResourceFor(h.to)); }
      stages := stages + [st];
    }
  }

  method MakePath(id: u64, r: Rankable, lmap: map<u64, Link>, payload: u64, firstStage: u64)
    returns (p: Path<Double>)
    requires Linked(lmap, r.path.hops)
    ensures p == PathOf(id, r, lmap, payload, firstStage)
  {
    var stages := BuildStages(r.path.hops, lmap, payload, firstStage);
    var worst := WorstProvenanceOf(r.cost.components);
    p := Path(id, 1, r.path.source, r.path.destination, stages, payload, r.cost, worst, [], []);
  }

  /** One more path, with the next number and the next stage ids. */
  method AppendPath(paths: seq<Path<Double>>, ghost kept: seq<Rankable>, r: Rankable, lmap: map<u64, Link>,
                    payload: u64, stageIds: u64, ghost firstStage: u64)
    returns (longer: seq<Path<Double>>, nextStage: u64)
    requires |kept| + 1 < TWO64 && Linked(lmap, r.path.hops)
    requires forall k :: 0 <= k < |kept| ==> Linked(lmap, kept[k].path.hops)
    requires paths == PathsOf(kept, lmap, payload, firstStage)
    requires stageIds == Add64(firstStage, TotalHops(kept))
    ensures longer == PathsOf(kept + [r], lmap, payload, firstStage)
    ensures nextStage == Add64(firstStage, TotalHops(kept + [r]))
  {
    hide PathOf, StagesOf, WorstProvenance;
    var p := MakePath(|paths| + 1, r, lmap, payload, stageIds);
    longer := paths + [p];
    nextStage := Add64(stageIds, |r.path.hops|);
    assert (kept + [r])[..|kept|] == kept;
    assert Add64(Add64(firstStage, TotalHops(kept)), |r.path.hops|)
        == Add64(firstStage, TotalHops(kept) + |r.path.hops|);
  }

  lemma OneMoreHop(emap: map<u64, Endpoint>, lmap: map<u64, Link>, hops: seq<Hop>, h: Hop)
    ensures BoundEndpoints(emap, hops + [h]) ==
      BindEndpoint(emap, h.to, BindEndpoint(emap, h.from, BoundEndpoints(emap, hops)))
    ensures BoundLinks(lmap, hops + [h]) == BindLink(lmap, h.link, BoundLinks(lmap, hops))
  {
    assert (hops + [h])[..|hops|] == hops;
  }

  method BindPath(hops: seq<Hop>, emap: map<u64, Endpoint>, lmap: map<u64, Link>, ghost before: seq<Hop>,
                  egs0: seq<(u64, u64)>, lgs0: seq<(u64, u64)>)
    returns (egs: seq<(u64, u64)>, lgs: seq<(u64, u64)>)
    requires egs0 == BoundEndpoints(emap, before) && lgs0 == BoundLinks(lmap, before)
    ensures egs == BoundEndpoints(emap, before + hops)
    ensures lgs == BoundLinks(lmap, before + hops)
  {
    egs, lgs := egs0, lgs0;
    assert before + hops[..0] == before;
    for i := 0 to |hops|
      invariant egs == BoundEndpoints(emap, before + hops[..i])
      invariant lgs == BoundLinks(lmap, before + hops[..i])
    {
      var h := hops[i];
      OneMoreHop(emap, lmap, before + hops[..i], h);
      assert before + hops[..i + 1] == before + hops[..i] + [h];
      lgs := BindLink(lmap, h.link, lgs);
      egs := BindEndpoint(emap, h.from, egs);
      egs := BindEndpoint(emap, h.to, egs);
    }
    assert hops[..|hops|] == hops;
  }

  method BindGenerations(kept: seq<Rankable>, emap: map<u64, Endpoint>, lmap: map<u64, Link>)
    returns (egs: seq<(u64, u64)>, lgs: seq<(u64, u64)>)
    ensures egs == BoundEndpoints(emap, AllHops(kept))
    ensures lgs == BoundLinks(lmap, AllHops(kept))
  {
    egs, lgs := [], [];
    for ci := 0 to |kept|
      invariant egs == BoundEndpoints(emap, AllHops(kept[..ci]))
      invariant lgs == BoundLinks(lmap, AllHops(kept[..ci]))
    {
      assert kept[..ci + 1][..ci] == kept[..ci];
      egs, lgs := BindPath(kept[ci].path.hops, emap, lmap, AllHops(kept[..ci]), egs, lgs);
    }
    assert kept[..|kept|] == kept;
  }

  method CollectClaims(relays: seq<u64>) returns (claims: seq<u64>)
    ensures claims == Claims(relays)
  {
    claims := [];
    for i := 0 to |relays|
      invariant claims == Claims(relays[..i])
    {
      assert relays[..i + 1][..i] == relays[..i];
      claims := AddToSet(IdLess, StagingResourceFor(relays[i]), claims);
    }
    assert relays[..|relays|] == relays;
  }

  method CompletePlan(req: Request, snap: Snapshot, ids: Ids, shape: RequestShape, kept: seq<Rankable>,
                      paths: seq<Path<Double>>, fallbacks: seq<u64>, relays: seq<u64>, cost: CostSummary<Double>,
                      verdict: Feasibility)
    returns (plan: Plan<Double>)
    requires |kept| < TWO64
    requires forall k :: 0 <= k < |kept| ==> Linked(LinkMap(snap.links), kept[k].path.hops)
    requires paths == PathsOf(kept, LinkMap(snap.links), req.payloadSize, ids.stage)
    ensures plan == PlanOver(req, snap, ids, shape, kept, fallbacks, relays, cost, verdict)
  {
    var emap := BuildEndpointMap(snap.endpoints);
    var lmap := BuildLinkMap(snap.links);
    var egs, lgs := BindGenerations(kept, emap, lmap);
    var claims := CollectClaims(relays);
    plan := Plan(ids.plan, ids.generation, req.id, req.generation, shape,
                 if kept == [] then 0 else 1, fallbacks, paths, if paths == [] then [] else paths[0].stages,
                 verdict, snap.generations, egs, lgs, claims, claims, cost, [], [], 1, true, [], [],
                 if shape.Multicast? then req.destinations else [],
                 if shape.Collective? then req.collectiveShape else UnknownCollective,
                 if shape.Collective? then req.participants else [], []);
  }

  /** Enumerate, assess and rank the candidates between two endpoints. */
  method RankCandidates(req: Request, snap: Snapshot, w: Weights, b: Bounds, src: u64, dst: u64)
    returns (reports: seq<Report>, ranked: seq<Rankable>, indices: seq<nat>)
    ensures reports == ReportsBetween(req, snap, w, b, src, dst)
    ensures ranked == RankedBetween(req, snap, w, b, src, dst)
    ensures indices == BestFirstAt(reports) && |indices| == |ranked|
    ensures |ranked| <= b.maxCandidates
    ensures forall k :: 0 <= k < |ranked| ==> Linked(LinkMap(snap.links), ranked[k].path.hops)
  {
    hide Enumerate, Reports, FeasibleAt, Rankables, RankOrder;
    var cands := EnumerateCandidatePaths(snap.links, src, dst, b);
    var rankables, at;
    reports, rankables, at := AssessCandidates(req, snap, w, b, cands);
    var order := RankFeasible(rankables);
    RankOrderInRange(rankables);
    ranked, indices := [], [];
    for k := 0 to |order|
      invariant |indices| == |ranked| == k
      invariant forall j :: 0 <= j < k ==> indices[j] == at[order[j]] && ranked[j] == rankables[order[j]]
    {
      indices, ranked := indices + [at[order[k]]], ranked + [rankables[order[k]]];
    }
    assert indices == Pick(at, order) && ranked == Pick(rankables, order);
    RankedAreLinked(req, snap, w, b, src, dst);
    RankedAreFew(req, snap, w, b, src, dst);
  }

  lemma NoPaths(lmap: map<u64, Link>, payload: u64, firstStage: u64)
    ensures PathsOf([], lmap, payload, firstStage) == [] && firstStage == Add64(firstStage, TotalHops([]))
  {
  }

  method KeepPaths(kept: seq<Rankable>, lmap: map<u64, Link>, payload: u64, firstStage: u64)
    returns (paths: seq<Path<Double>>, fallbacks: seq<u64>, stageIds: u64)
    requires 0 < |kept| < TWO64
    requires forall k :: 0 <= k < |kept| ==> Linked(lmap, kept[k].path.hops)
    ensures paths == PathsOf(kept, lmap, payload, firstStage) && fallbacks == FallbackIds(|kept|)
    ensures stageIds == Add64(firstStage, TotalHops(kept))
  {
    hide PathsOf, TotalHops, Linked;
    NoPaths(lmap, payload, firstStage);
    assert kept[..0] == [];
    paths, fallbacks, stageIds := [], [], firstStage;
    for k := 0 to |kept|
      invariant |fallbacks| == (if k == 0 then 0 else k - 1)
      invariant forall j :: 0 <= j < |fallbacks| ==> fallbacks[j] == j + 2
      invariant paths == PathsOf(kept[..k], lmap, payload, firstStage)
      invariant stageIds == Add64(firstStage, TotalHops(kept[..k]))
    {
      assert kept[..k + 1] == kept[..k] + [kept[k]];
      paths, stageIds := AppendPath(paths, kept[..k], kept[k], lmap, payload, stageIds, firstStage);
      if k > 0 { fallbacks := fallbacks + [k + 1]; }
    }
    assert kept[..|kept|] == kept;
  }

  method PlanPointToPoint(req: Request, snap: Snapshot, w: Weights, b: Bounds, ids: Ids, dst: u64)
    returns (r: Planned)
    ensures r == PlanBetween(req, snap, w, b, ids, dst)
  {
    var reports, ranked, indices := RankCandidates(req, snap, w, b, req.source, dst);
    if ranked == [] {
      return Planned(PlanOutcome(false, None, reports, indices), ids);
    }
    var kept := ranked[..Kept(b, |ranked|)];
    var lmap := BuildLinkMap(snap.links);
    var paths, fallbacks, stageIds := KeepPaths(kept, lmap, req.payloadSize, ids.stage);
    var plan := CompletePlan(req, snap, ids, PointToPoint, kept, paths, fallbacks, Relays(kept[0].path.hops),
                             kept[0].cost, Feasible);
    r := Planned(PlanOutcome(true, Some(plan), reports, indices),
                 Ids(Next64(ids.plan), Next64(ids.generation), stageIds));
  }

  /** What a fan-out loop has gathered: the chosen candidates, their paths, and the next stage id. */
  datatype Gathered = Gathered(
    kept: seq<Rankable>, paths: seq<Path<Double>>, stageIds: u64, comps: seq<CostComponent<Double>>,
    relays: seq<u64>)

  ghost predicate GatheredFrom(g: Gathered, chosen: seq<Rankable>, lmap: map<u64, Link>, payload: u64,
                               firstStage: u64) {
    && |chosen| < TWO64 && (forall k :: 0 <= k < |chosen| ==> Linked(lmap, chosen[k].path.hops))
    && g.kept == chosen && g.paths == PathsOf(chosen, lmap, payload, firstStage)
    && g.stageIds == Add64(firstStage, TotalHops(chosen))
    && g.comps == AllComponents(chosen) && g.relays == AllRelays(chosen)
  }

  method GatherNothing(lmap: map<u64, Link>, payload: u64, firstStage: u64) returns (g: Gathered)
    ensures GatheredFrom(g, [], lmap, payload, firstStage)
  {
    g := Gathered([], [], firstStage, [], []);
  }

  method Gather(g: Gathered, best: Rankable, lmap: map<u64, Link>, payload: u64, ghost firstStage: u64)
    returns (g': Gathered)
    requires GatheredFrom(g, g.kept, lmap, payload, firstStage)
    requires |g.kept| + 1 < TWO64 && Linked(lmap, best.path.hops)
    ensures GatheredFrom(g', g.kept + [best], lmap, payload, firstStage)
  {
    var paths, stageIds := AppendPath(g.paths, g.kept, best, lmap, payload, g.stageIds, firstStage);
    assert (g.kept + [best])[..|g.kept|] == g.kept;
    g' := Gathered(g.kept + [best], paths, stageIds, g.comps + best.cost.components,
                   g.relays + Relays(best.path.hops));
  }

  lemma OneMoreDestination(req: Request, snap: Snapshot, w: Weights, b: Bounds, src: u64, dests: seq<u64>, d: u64)
    ensures var ranked := RankedBetween(req, snap, w, b, src, d);
      var before, after := Chosen(req, snap, w, b, src, dests), Chosen(req, snap, w, b, src, dests + [d]);
      if ranked == [] then after == before else after == before + [ranked[0]]
  {
    assert (dests + [d])[..|dests|] == dests;
  }

  lemma OneMoreReported(req: Request, snap: Snapshot, w: Weights, b: Bounds, dests: seq<u64>, d: u64)
    ensures MulticastReports(req, snap, w, b, dests + [d])
         == MulticastReports(req, snap, w, b, dests) + ReportsBetween(req, snap, w, b, req.source, d)
  {
    hide ReportsBetween;
    assert (dests + [d])[..|dests|] == dests;
  }

  lemma OneMoreRanked(req: Request, snap: Snapshot, w: Weights, b: Bounds, dests: seq<u64>, d: u64)
    ensures var best := BestFirstAt(ReportsBetween(req, snap, w, b, req.source, d));
      var before, after := MulticastRanked(req, snap, w, b, dests), MulticastRanked(req, snap, w, b, dests + [d]);
      if best == [] then after == before else after == before + [|MulticastReports(req, snap, w, b, dests)| + best[0]]
  {
    hide BestFirstAt, BestFirst, ReportsBetween, MulticastReports;
    assert (dests + [d])[..|dests|] == dests;
  }

  lemma NothingChosen(req: Request, snap: Snapshot, w: Weights, b: Bounds, src: u64)
    ensures Chosen(req, snap, w, b, src, []) == []
    ensures MulticastReports(req, snap, w, b, []) == [] && MulticastRanked(req, snap, w, b, []) == []
  {
  }

  method GatherDestinations(req: Request, snap: Snapshot, w: Weights, b: Bounds, lmap: map<u64, Link>, firstStage: u64)
    returns (g: Gathered, reports: seq<Report>, ranked: seq<nat>, anyFail: bool)
    requires lmap == LinkMap(snap.links) && |req.destinations| < TWO64
    ensures GatheredFrom(g, Chosen(req, snap, w, b, req.source, req.destinations), lmap, req.payloadSize, firstStage)
    ensures anyFail <==> exists d :: d in req.destinations && !Reachable(req, snap, w, b, req.source, d)
    ensures reports == MulticastReports(req, snap, w, b, req.destinations)
    ensures ranked == MulticastRanked(req, snap, w, b, req.destinations)
  {
    hide RankedBetween, ReportsBetween, BestFirstAt, BestFirst, PathsOf, TotalHops, AllComponents, AllRelays, Chosen,
      MulticastReports, MulticastRanked, Linked;
    var dests := req.destinations;
    reports, ranked, anyFail := [], [], false;
    g := GatherNothing(lmap, req.payloadSize, firstStage);
    NothingChosen(req, snap, w, b, req.source);
    for i := 0 to |dests|
      invariant GatheredFrom(g, Chosen(req, snap, w, b, req.source, dests[..i]), lmap, req.payloadSize, firstStage)
      invariant |g.kept| <= i
      invariant anyFail <==> exists d :: d in dests[..i] && !Reachable(req, snap, w, b, req.source, d)
      invariant reports == MulticastReports(req, snap, w, b, dests[..i])
      invariant ranked == MulticastRanked(req, snap, w, b, dests[..i])
    {
      assert dests[..i + 1] == dests[..i] + [dests[i]];
      var local, best, at := RankCandidates(req, snap, w, b, req.source, dests[i]);
      OneMoreDestination(req, snap, w, b, req.source, dests[..i], dests[i]);
      OneMoreReported(req, snap, w, b, dests[..i], dests[i]);
      OneMoreRanked(req, snap, w, b, dests[..i], dests[i]);
      assert Reachable(req, snap, w, b, req.source, dests[i]) <==> best != [];
      if best == [] {
        assert dests[i] in dests[..i + 1];
        anyFail := true;
      } else {
        ranked := ranked + [|reports| + at[0]];
        g := Gather(g, best[0], lmap, req.payloadSize, firstStage);
      }
      reports := reports + local;
    }
    assert dests[..|dests|] == dests;
  }

  method BuildMulticastPlan(req: Request, snap: Snapshot, w: Weights, b: Bounds, ids: Ids) returns (r: Planned)
    requires |req.destinations| < TWO64
    ensures r == PlanMulticast(req, snap, w, b, ids)
  {
    hide RankedBetween, Chosen, MulticastReports, MulticastRanked, PlanOver, Summarize, PathsOf, TotalHops,
      AllComponents, AllRelays;
    var lmap := BuildLinkMap(snap.links);
    var g, reports, ranked, anyFail := GatherDestinations(req, snap, w, b, lmap, ids.stage);
    var cost := SummaryOf(g.comps);
    var plan := CompletePlan(req, snap, ids, Multicast, g.kept, g.paths, [], g.relays, cost,
                             if anyFail then RejectEndpoint else Feasible);
    r := Planned(PlanOutcome(!anyFail, Some(plan), reports, ranked),
                 Ids(Next64(ids.plan), Next64(ids.generation), g.stageIds));
  }

  method RejectCollective(req: Request, snap: Snapshot, ids: Ids, g: Gathered) returns (r: Planned)
    requires GatheredFrom(g, g.kept, LinkMap(snap.links), req.payloadSize, ids.stage)
    ensures r == Rejection(req, snap, ids, g.kept)
  {
    var plan := Plan(ids.plan, ids.generation, req.id, req.generation, Collective, 0, [], g.paths, [], RejectEndpoint,
                     Generations(0, 0, 0, 0, 0, 0, 0, 0), [], [], [], [], NO_COST, [], [], 0, true, [], [], [],
                     req.collectiveShape, req.participants, []);
    r := Planned(PlanOutcome(false, Some(plan), [], []), Ids(Next64(ids.plan), Next64(ids.generation), g.stageIds));
  }

  method ParticipantsReady(req: Request, snap: Snapshot) returns (ready: bool)
    ensures ready <==> forall p :: p in req.participants ==> ParticipantReady(EndpointMap(snap.endpoints), snap, p)
  {
    var emap := BuildEndpointMap(snap.endpoints);
    for i := 0 to |req.participants|
      invariant forall j :: 0 <= j < i ==> ParticipantReady(emap, snap, req.participants[j])
    {
      var pid := req.participants[i];
      assert pid in req.participants;
      if pid !in emap { return false; }
      var e := emap[pid];
      if !EndpointFresh(e, snap) || !e.reachable || !e.ready || e.kind.UnknownKind? { return false; }
    }
    return true;
  }

  /** Routes the root to each other participant in turn; the first one it cannot reach ends the loop. */
  method GatherMembers(req: Request, snap: Snapshot, w: Weights, b: Bounds, lmap: map<u64, Link>, firstStage: u64)
    returns (g: Gathered, reached: bool)
    requires req.participants != [] && |req.participants| < TWO64 && lmap == LinkMap(snap.links)
    ensures var root := req.participants[0];
      var members := Members(root, req.participants);
      var n := ReachablePrefix(req, snap, w, b, root, members, 0);
      && (reached <==> n == |members|)
      && GatheredFrom(g, Chosen(req, snap, w, b, root, members[..n]), lmap, req.payloadSize, firstStage)
  {
    hide RankedBetween, ReportsBetween, BestFirstAt, BestFirst, MulticastReports, MulticastRanked, PathsOf, TotalHops,
      AllComponents, AllRelays, Chosen, Linked, Members;
    var root := req.participants[0];
    NoMembers(root, req.participants);
    NothingChosen(req, snap, w, b, root);
    g := GatherNothing(lmap, req.payloadSize, firstStage);
    ghost var members := Members(root, req.participants);
    ghost var n := 0;
    for i := 0 to |req.participants|
      invariant n <= |members| && n <= i && members[..n] == Members(root, req.participants[..i])
      invariant ReachablePrefix(req, snap, w, b, root, members, 0) == ReachablePrefix(req, snap, w, b, root, members, n)
      invariant GatheredFrom(g, Chosen(req, snap, w, b, root, members[..n]), lmap, req.payloadSize, firstStage)
      invariant |g.kept| <= n
    {
      var member := req.participants[i];
      NextMember(root, req.participants, i, n);
      if member != root {
        var local, best, at := RankCandidates(req, snap, w, b, root, member);
        if best == [] { return g, false; }
        OneMoreDestination(req, snap, w, b, root, members[..n], member);
        g := Gather(g, best[0], lmap, req.payloadSize, firstStage);
        n := n + 1;
      }
    }
    assert req.participants[..|req.participants|] == req.participants;
    assert n == |members| && members[..n] == members;
    return g, true;
  }

  method BuildCollectivePlan(req: Request, snap: Snapshot, w: Weights, b: Bounds, ids: Ids) returns (r: Planned)
    requires req.participants != []
    ensures r == PlanCollective(req, snap, w, b, ids)
  {
    hide RankedBetween, PlanOver, RejectedCollective, Summarize, PathsOf, TotalHops, AllComponents, AllRelays, Chosen,
      ReachablePrefix, Members, Linked;
    var lmap := BuildLinkMap(snap.links);
    var g := GatherNothing(lmap, req.payloadSize, ids.stage);
    if req.collectiveCount != |req.participants| { r := RejectCollective(req, snap, ids, g); return; }
    if req.collectiveCount > b.maxCollectiveParticipants { r := RejectCollective(req, snap, ids, g); return; }
    var ready := ParticipantsReady(req, snap);
    if !ready { r := RejectCollective(req, snap, ids, g); return; }
    var reached;
    g, reached := GatherMembers(req, snap, w, b, lmap, ids.stage);
    if !reached { r := RejectCollective(req, snap, ids, g); return; }
    ghost var members := Members(req.participants[0], req.participants);
    assert members[..|members|] == members;
    var cost := SummaryOf(g.comps);
    var plan := CompletePlan(req, snap, ids, Collective, g.kept, g.paths, [], g.relays, cost, Feasible);
    r := Planned(PlanOutcome(true, Some(plan), [], Upto(|g.kept|)),
                 Ids(Next64(ids.plan), Next64(ids.generation), g.stageIds));
  }

  /** The members among the first `i + 1` participants extend those among the first `i`, and both are
      prefixes of all members. */
  lemma {:induction false} MembersGrow(root: u64, participants: seq<u64>, i: nat)
    requires i < |participants|
    ensures Members(root, participants[..i + 1])
         == Members(root, participants[..i]) + if participants[i] == root then [] else [participants[i]]
    ensures Members(root, participants[..i + 1]) <= Members(root, participants)
    decreases |participants| - i
  {
    assert participants[..i + 1][..i] == participants[..i];
    if i + 1 < |participants| {
      MembersGrow(root, participants, i + 1);
    } else {
      assert participants[..i + 1] == participants;
    }
  }

  lemma NoMembers(root: u64, participants: seq<u64>)
    ensures Members(root, participants[..0]) == []
  {
  }

  /** The next participant other than the root is the next member. */
  lemma NextMember(root: u64, participants: seq<u64>, i: nat, n: nat)
    requires i < |participants| && n <= |Members(root, participants)|
    requires Members(root, participants)[..n] == Members(root, participants[..i])
    ensures var members := Members(root, participants);
      if participants[i] == root then members[..n] == Members(root, participants[..i + 1])
      else n < |members| && members[n] == participants[i] && members[..n + 1] == members[..n] + [participants[i]]
           && members[..n + 1] == Members(root, participants[..i + 1])
  {
    hide Members;
    MembersGrow(root, participants, i);
    var members, longer := Members(root, participants), Members(root, participants[..i + 1]);
    if participants[i] != root {
      assert |longer| == n + 1 && longer[n] == participants[i] && members[..n + 1] == longer;
    }
  }

  method PlanRequest(req: Request, snap: Snapshot, w: Weights, b: Bounds, ids: Ids) returns (r: Planned)
    ensures r == PlanCommunication(req, snap, w, b, ids)
  {
    if !req.Valid() { return Threw; }
    var shape := req.EffectiveShape();
    if shape.Multicast? { r := BuildMulticastPlan(req, snap, w, b, ids); return; }
    if shape.Collective? { r := BuildCollectivePlan(req, snap, w, b, ids); return; }
    if req.destinations == [] { return Threw; }
    r := PlanPointToPoint(req, snap, w, b, ids, req.destinations[0]);
  }
}
