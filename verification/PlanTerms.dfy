/** What a plan says, field by field, in the terms of the request, the snapshot and the paths it keeps. */
module PlanTerms {
  import opened Core
  import opened Model
  import opened Enumeration
  import opened FeasibilityFilter
  import opened FilterTerms
  import opened Cost
  import opened Ranking
  import opened RankLevels
  import opened Planner
  import opened PlanFacts

  // ----- stages -----

  /** A stage moves the payload over its hop's link, expecting of it what the link was published with, and rests it
      at the far end unless that is where the path ends. */
  ghost predicate StageServes(s: Stage, h: Hop, l: Link, payload: u64, last: bool) {
    && s.link == h.link && s.source == h.from && s.destination == h.to && s.generation == 1
    && s.transport == l.transport && s.payload == payload && s.expectedLatency == l.latency
    && (l.effectiveBandwidth != 0 ==> s.expectedBandwidth == l.effectiveBandwidth)
    && (l.effectiveBandwidth == 0 ==> s.expectedBandwidth == l.capacity)
    && (last ==> s.stagingResource == 0)
    && (!last ==> s.stagingResource == (2 * h.to + 1) % TWO64)
    && s.provenance == l.provenance && s.requiresAuthority
  }

  /** Two endpoints share a staging resource exactly if they are equal but for the highest bit. */
  lemma SameStagingIff(a: u64, b: u64)
    ensures StagingResourceFor(a) == (2 * a + 1) % TWO64
    ensures StagingResourceFor(a) == StagingResourceFor(b) <==> a % 0x8000_0000_0000_0000 == b % 0x8000_0000_0000_0000
  {
    Doubled(a);
    Doubled(b);
  }

  lemma Doubled(a: u64)
    ensures (2 * a + 1) % TWO64 == 2 * (a % 0x8000_0000_0000_0000) + 1
  {
    if a >= 0x8000_0000_0000_0000 {
      assert a % 0x8000_0000_0000_0000 == a - 0x8000_0000_0000_0000;
      assert (2 * a + 1) % TWO64 == 2 * a + 1 - TWO64;
    }
  }

  /** The path keeps the candidate's ends, payload and cost, carries its least trusted label, and its stages serve
      the candidate's hops, numbered one after the other. */
  ghost predicate PathServes(p: Path<Double>, k: nat, r: Rankable, lmap: map<u64, Link>, payload: u64,
                             firstStage: u64)
  {
    && p.id == k + 1 && p.generation == 1 && p.source == r.path.source && p.destination == r.path.destination
    && p.totalPayload == payload && p.cost == r.cost
    && (forall n :: 1 <= n <= 7 ==> (p.provenance in BY_TRUST[..n] <==> Trusts(r.cost.components, n)))
    && |p.stages| == |r.path.hops|
    && forall j :: 0 <= j < |p.stages| ==>
         && r.path.hops[j].link in lmap
         && StageServes(p.stages[j], r.path.hops[j], lmap[r.path.hops[j].link], payload, j == |p.stages| - 1)
         && p.stages[j].id == (firstStage + j) % TWO64
  }

  lemma PathOfServes(k: nat, r: Rankable, lmap: map<u64, Link>, payload: u64, firstStage: u64)
    requires Linked(lmap, r.path.hops) && k + 1 < TWO64
    ensures PathServes(PathOf(k + 1, r, lmap, payload, firstStage), k, r, lmap, payload, firstStage)
  {
    hide WorstProvenance, ProvenanceRank, Trusts;
    var p := PathOf(k + 1, r, lmap, payload, firstStage);
    forall n | 1 <= n <= 7 ensures p.provenance in BY_TRUST[..n] <==> Trusts(r.cost.components, n) {
      TrustsIff(r.cost.components, n);
      RankIsPlace(p.provenance, n);
    }
    forall j | 0 <= j < |p.stages|
      ensures StageServes(p.stages[j], r.path.hops[j], lmap[r.path.hops[j].link], payload, j == |p.stages| - 1)
    {
      SameStagingIff(r.path.hops[j].to, 0);
    }
  }

  /** The stages of a plan's paths are numbered through: the next path goes on where the last one ended. */
  function StagesBefore(kept: seq<Rankable>, k: nat): nat
    requires k <= |kept|
  {
    if k == 0 then 0 else StagesBefore(kept, k - 1) + |kept[k - 1].path.hops|
  }

  lemma {:induction false} TotalIsBefore(kept: seq<Rankable>, k: nat)
    requires k <= |kept|
    ensures TotalHops(kept[..k]) == StagesBefore(kept, k)
  {
    if k > 0 {
      TotalIsBefore(kept, k - 1);
      assert kept[..k][..k - 1] == kept[..k - 1];
    }
  }

  lemma BuiltPathServes(plan: Plan<Double>, req: Request, snap: Snapshot, kept: seq<Rankable>, firstStage: u64, k: nat)
    requires BuiltOver(plan, req, snap, kept, firstStage) && k < |kept|
    ensures |plan.candidatePaths| == |kept|
    ensures PathServes(plan.candidatePaths[k], k, kept[k], LinkMap(snap.links), req.payloadSize,
                       Add64(firstStage, StagesBefore(kept, k)))
  {
    hide PathsOf, BoundEndpoints, BoundLinks, Claims, Summarize, EndpointMap, LinkMap, TotalHops, PathServes, Linked,
      PathOf, StagesBefore, AllHops, ClaimedRelays;
    PathAt(kept, LinkMap(snap.links), req.payloadSize, firstStage, k);
    TotalIsBefore(kept, k);
    PathOfServes(k, kept[k], LinkMap(snap.links), req.payloadSize, Add64(firstStage, TotalHops(kept[..k])));
  }

  /** Every path of a successful plan, of any shape, serves the candidate it was built from. */
  lemma PlanPathsServe(req: Request, snap: Snapshot, w: Weights, b: Bounds, ids: Ids, k: nat)
    requires Succeeds(req, snap, w, b, ids) && k < |Retained(req, snap, w, b)|
    ensures var plan, kept := ThePlan(req, snap, w, b, ids), Retained(req, snap, w, b);
      && |plan.candidatePaths| == |kept|
      && PathServes(plan.candidatePaths[k], k, kept[k], LinkMap(snap.links), req.payloadSize,
                    Add64(ids.stage, StagesBefore(kept, k)))
  {
    hide Succeeds, ThePlan, Retained, BuiltOver, AllRetainable, PathServes, StagesBefore;
    SuccessIsBuilt(req, snap, w, b, ids);
    BuiltPathServes(ThePlan(req, snap, w, b, ids), req, snap, Retained(req, snap, w, b), ids.stage, k);
  }

  // ----- the plan itself -----

  /** What every successful plan says of itself. */
  ghost predicate SaysOfItself(plan: Plan<Double>, req: Request, snap: Snapshot, ids: Ids) {
    && plan.id == ids.plan && plan.generation == ids.generation
    && plan.requestId == req.id && plan.requestGeneration == req.generation
    && plan.feasibility == Feasible && plan.bound == snap.generations
    && plan.revalidateBeforeExecute && plan.revalidationGeneration == 1
    && plan.requiredResourceClaims == plan.requiredStagingResources
    && (plan.candidatePaths == [] ==> plan.primaryPath == 0 && plan.orderedStages == [])
    && (plan.candidatePaths != [] ==>
          plan.primaryPath == plan.candidatePaths[0].id && plan.orderedStages == plan.candidatePaths[0].stages)
  }

  /** The shape it has, and what goes with it. */
  ghost predicate HasShape(plan: Plan<Double>, req: Request) {
    if req.shape == Multicast || req.allowMulticast then
      && plan.shape == Multicast && plan.multicastDestinations == req.destinations && plan.fallbackPaths == []
      && plan.collectiveParticipants == []
    else if req.shape == Collective then
      && plan.shape == Collective && plan.collectiveShape == req.collectiveShape && plan.fallbackPaths == []
      && plan.collectiveParticipants == req.participants && plan.multicastDestinations == []
    else
      && plan.shape == PointToPoint && plan.multicastDestinations == [] && plan.collectiveParticipants == []
      && |plan.fallbackPaths| + 1 == |plan.candidatePaths|
      && forall k :: 0 <= k < |plan.fallbackPaths| ==> plan.fallbackPaths[k] == plan.candidatePaths[k + 1].id
  }

  lemma PlanOverSays(req: Request, snap: Snapshot, ids: Ids, shape: RequestShape, kept: seq<Rankable>,
                     fallbacks: seq<u64>, relays: seq<u64>, cost: CostSummary<Double>)
    requires |kept| < TWO64
    requires forall k :: 0 <= k < |kept| ==> Linked(LinkMap(snap.links), kept[k].path.hops)
    ensures var plan := PlanOver(req, snap, ids, shape, kept, fallbacks, relays, cost, Feasible);
      && SaysOfItself(plan, req, snap, ids) && |plan.candidatePaths| == |kept|
      && (forall k :: 0 <= k < |kept| ==> plan.candidatePaths[k].id == k + 1)
      && plan.shape == shape && plan.fallbackPaths == fallbacks && plan.cost == cost
      && plan.multicastDestinations == (if shape == Multicast then req.destinations else [])
      && (shape == Collective ==> plan.collectiveShape == req.collectiveShape)
      && plan.collectiveParticipants == (if shape == Collective then req.participants else [])
  {
    hide PathsOf, BoundEndpoints, BoundLinks, Claims, EndpointMap, LinkMap, TotalHops, Linked, PathOf, AllHops;
    forall k | 0 <= k < |kept|
      ensures PathsOf(kept, LinkMap(snap.links), req.payloadSize, ids.stage)[k].id == k + 1
    {
      PathAt(kept, LinkMap(snap.links), req.payloadSize, ids.stage, k);
      PathOfHasId(k, kept[k], LinkMap(snap.links), req.payloadSize, Add64(ids.stage, TotalHops(kept[..k])));
    }
  }

  lemma PathOfHasId(k: nat, r: Rankable, lmap: map<u64, Link>, payload: u64, firstStage: u64)
    requires Linked(lmap, r.path.hops) && k + 1 < TWO64
    ensures PathOf(k + 1, r, lmap, payload, firstStage).id == k + 1
  {
    hide WorstProvenance;
  }

  lemma PointSays(req: Request, snap: Snapshot, w: Weights, b: Bounds, ids: Ids)
    requires Succeeds(req, snap, w, b, ids)
    requires !req.EffectiveShape().Multicast? && !req.EffectiveShape().Collective?
    ensures var plan := ThePlan(req, snap, w, b, ids); SaysOfItself(plan, req, snap, ids) && HasShape(plan, req)
  {
    hide PlanOver, RankedBetween, ReportsBetween, BestFirstAt, IdsAfter, LinkMap, Linked, SaysOfItself;
    var ranked := RankedBetween(req, snap, w, b, req.source, req.destinations[0]);
    var kept := ranked[..Kept(b, |ranked|)];
    RankedAreLinked(req, snap, w, b, req.source, req.destinations[0]);
    RankedAreFew(req, snap, w, b, req.source, req.destinations[0]);
    PlanOverSays(req, snap, ids, PointToPoint, kept, FallbackIds(|kept|), Relays(kept[0].path.hops), kept[0].cost);
  }

  lemma MulticastSays(req: Request, snap: Snapshot, w: Weights, b: Bounds, ids: Ids)
    requires Succeeds(req, snap, w, b, ids) && req.EffectiveShape().Multicast?
    ensures var plan := ThePlan(req, snap, w, b, ids); SaysOfItself(plan, req, snap, ids) && HasShape(plan, req)
  {
    hide PlanOver, Chosen, Reachable, MulticastReports, MulticastRanked, IdsAfter, LinkMap, Linked, SaysOfItself,
      AllComponents, AllRelays, Summarize;
    var kept := Chosen(req, snap, w, b, req.source, req.destinations);
    ChosenAreLinked(req, snap, w, b, req.source, req.destinations);
    PlanOverSays(req, snap, ids, Multicast, kept, [], AllRelays(kept), Summarize(AllComponents(kept)));
  }

  lemma CollectiveSays(req: Request, snap: Snapshot, w: Weights, b: Bounds, ids: Ids)
    requires Succeeds(req, snap, w, b, ids) && req.EffectiveShape().Collective?
    ensures var plan := ThePlan(req, snap, w, b, ids); SaysOfItself(plan, req, snap, ids) && HasShape(plan, req)
  {
    hide PlanOver, Chosen, ReachablePrefix, Members, RejectedCollective, ParticipantReady, IdsAfter, LinkMap, Linked,
      SaysOfItself, AllComponents, AllRelays, Summarize, EndpointMap;
    var root := req.participants[0];
    var members := Members(root, req.participants);
    var n := ReachablePrefix(req, snap, w, b, root, members, 0);
    var kept := Chosen(req, snap, w, b, root, members[..n]);
    ChosenAreLinked(req, snap, w, b, root, members[..n]);
    PlanOverSays(req, snap, ids, Collective, kept, [], AllRelays(kept), Summarize(AllComponents(kept)));
  }

  /** Every successful plan names its request and its numbers, is bound to the snapshot's generations, executes its
      first path and falls back on the others, and has the shape that was asked for. */
  lemma PlanSays(req: Request, snap: Snapshot, w: Weights, b: Bounds, ids: Ids)
    requires Succeeds(req, snap, w, b, ids)
    ensures var plan := ThePlan(req, snap, w, b, ids); SaysOfItself(plan, req, snap, ids) && HasShape(plan, req)
  {
    hide Succeeds, ThePlan, SaysOfItself, HasShape;
    if req.EffectiveShape().Multicast? {
      MulticastSays(req, snap, w, b, ids);
    } else if req.EffectiveShape().Collective? {
      CollectiveSays(req, snap, w, b, ids);
    } else {
      PointSays(req, snap, w, b, ids);
    }
  }

  // ----- reports -----

  /** A report gives a feasible path its cost and its least trusted label; one of a rejected path, no cost and
      UNKNOWN. */
  ghost predicate Tells(rep: Report, req: Request, snap: Snapshot, w: Weights, b: Bounds, c: CandidatePath) {
    && rep.path == c && rep.feasibility == Verdict(req, snap, c, b)
    && (rep.feasibility == Feasible ==>
          && rep.cost == CandidateCost(req, snap, c, w)
          && forall n :: 1 <= n <= 7 ==> (rep.provenance in BY_TRUST[..n] <==> Trusts(rep.cost.components, n)))
    && (rep.feasibility != Feasible ==>
          rep.cost.components == [] && rep.cost.total == Fin(0.0) && rep.provenance == UnknownProvenance)
  }

  lemma AssessTells(req: Request, snap: Snapshot, w: Weights, b: Bounds, c: CandidatePath)
    ensures Tells(Assess(req, snap, w, b, c), req, snap, w, b, c)
  {
    hide Verdict, CandidateCost, WorstProvenance, ProvenanceRank, Trusts;
    var rep := Assess(req, snap, w, b, c);
    if rep.feasibility.Feasible? {
      forall n | 1 <= n <= 7 ensures rep.provenance in BY_TRUST[..n] <==> Trusts(rep.cost.components, n) {
        TrustsIff(rep.cost.components, n);
        RankIsPlace(rep.provenance, n);
      }
    }
  }

  /** Planning point to point reports every enumerated path, in order, and its ranked indices point at the reports of
      the feasible ones, best first. */
  lemma PointReports(req: Request, snap: Snapshot, w: Weights, b: Bounds, ids: Ids)
    requires PlanCommunication(req, snap, w, b, ids).Planned?
    requires !req.EffectiveShape().Multicast? && !req.EffectiveShape().Collective?
    ensures var cands := Enumerate(snap.links, req.source, req.destinations[0], b);
      var ranked := RankedBetween(req, snap, w, b, req.source, req.destinations[0]);
      var outcome := PlanCommunication(req, snap, w, b, ids).outcome;
      && |outcome.candidates| == |cands|
      && (forall i :: 0 <= i < |cands| ==> Tells(outcome.candidates[i], req, snap, w, b, cands[i]))
      && |outcome.rankedIndices| == |ranked|
      && forall k :: 0 <= k < |ranked| ==>
           && outcome.rankedIndices[k] < |cands| && cands[outcome.rankedIndices[k]] == ranked[k].path
           && outcome.candidates[outcome.rankedIndices[k]].cost == ranked[k].cost
  {
    hide Enumerate, Assess, RankOrder, Tells, PointPlan, Linked, IdsAfter;
    var cands := Enumerate(snap.links, req.source, req.destinations[0], b);
    var reports := ReportsBetween(req, snap, w, b, req.source, req.destinations[0]);
    forall i | 0 <= i < |cands|
      ensures reports[i].path == cands[i] && Tells(reports[i], req, snap, w, b, cands[i])
    {
      ReportAt(req, snap, w, b, cands, i);
      AssessTells(req, snap, w, b, cands[i]);
      TellsOfItsPath(reports[i], req, snap, w, b, cands[i]);
    }
    RankOrderInRange(Rankables(reports));
  }

  lemma TellsOfItsPath(rep: Report, req: Request, snap: Snapshot, w: Weights, b: Bounds, c: CandidatePath)
    requires Tells(rep, req, snap, w, b, c)
    ensures rep.path == c
  {
  }

  // ----- malformed requests -----

  /** What `validate` finds wrong with a request. */
  ghost predicate Malformed(req: Request) {
    || req.id == 0 || req.generation == 0 || req.payloadSize == 0
    || req.maxHops == 0 || req.maxHops > 255 || req.maxStages == 0 || req.maxStages > 255
    || (req.shape == Collective && (req.collectiveCount == 0 || req.collectiveCount > 1_048_576
                                    || req.collectiveShape == UnknownCollective || req.participants == []))
    || ((req.shape == Multicast || req.allowMulticast) && (|req.destinations| < 2 || |req.destinations| > 65_536))
    || (req.shape != Multicast && !req.allowMulticast && (req.shape == PointToPoint || req.shape == Staged)
        && (req.source == 0 || |req.destinations| != 1))
    || (exists t :: t in req.allowed && t in req.forbidden) || UnknownTransport in req.forbidden
  }

  /** The planner throws exactly on malformed requests, and on one of unknown shape that names no destination. */
  lemma ThrowsIff(req: Request, snap: Snapshot, w: Weights, b: Bounds, ids: Ids)
    ensures PlanCommunication(req, snap, w, b, ids).Threw? <==>
      Malformed(req) || (req.shape == UnknownShape && !req.allowMulticast && req.destinations == [])
  {
    hide RankedBetween, ReportsBetween, PlanMulticast, BestFirstAt, PointPlan, IdsAfter, Kept, Chosen, ReachablePrefix,
      Members, RejectedCollective, ParticipantReady, FanOutPlan, EndpointMap;
    MalformedIff(req);
    MulticastDoesNotThrow(req, snap, w, b, ids);
  }

  lemma MalformedIff(req: Request)
    ensures req.Valid() <==> !Malformed(req)
  {
    assert req.allowed !! req.forbidden <==> !exists t :: t in req.allowed && t in req.forbidden;
  }

  lemma MulticastDoesNotThrow(req: Request, snap: Snapshot, w: Weights, b: Bounds, ids: Ids)
    ensures |req.destinations| < TWO64 ==> PlanMulticast(req, snap, w, b, ids).Planned?
  {
    hide Chosen, Reachable, FanOutPlan, MulticastReports, MulticastRanked, IdsAfter, LinkMap, Linked;
  }

  // ----- participants, relays and components of a fan-out -----

  /** The members are the participants but for the root, one by one and in order. */
  lemma MembersGoOn(root: u64, ps: seq<u64>, p: u64)
    ensures Members(root, []) == []
    ensures Members(root, ps + [p]) == if p == root then Members(root, ps) else Members(root, ps) + [p]
  {
    assert (ps + [p])[..|ps|] == ps;
  }

  /** A participant is ready if it is known, its stamps stand, it is reachable and ready, and of a known kind. */
  lemma ReadyIff(emap: map<u64, Endpoint>, snap: Snapshot, id: u64)
    ensures ParticipantReady(emap, snap, id) <==>
      id in emap && StampsStand(emap[id], snap) && emap[id].reachable && emap[id].ready && emap[id].kind != UnknownKind
  {
  }

  /** The components of a fan-out are those of its paths, one path after the other, and so are its relays: every end
      of a hop but the last. */
  lemma FanOutGoesOn(rs: seq<Rankable>, r: Rankable)
    ensures AllComponents([]) == [] && AllComponents(rs + [r]) == AllComponents(rs) + r.cost.components
    ensures AllRelays([]) == [] && |AllRelays(rs + [r])| ==
      |AllRelays(rs)| + if r.path.hops == [] then 0 else |r.path.hops| - 1
    ensures forall i :: 0 <= i < |AllRelays(rs)| ==> AllRelays(rs + [r])[i] == AllRelays(rs)[i]
    ensures forall i :: 0 <= i < |r.path.hops| - 1 ==> AllRelays(rs + [r])[|AllRelays(rs)| + i] == r.path.hops[i].to
  {
    assert (rs + [r])[..|rs|] == rs;
  }

  // ----- numbers -----

  /** A successful plan takes one plan number, one generation and one stage number for each of its stages. */
  lemma NumbersMoveOn(req: Request, snap: Snapshot, w: Weights, b: Bounds, ids: Ids)
    requires Succeeds(req, snap, w, b, ids)
    ensures var after, kept := PlanCommunication(req, snap, w, b, ids).ids, Retained(req, snap, w, b);
      && after.plan == (ids.plan + 1) % TWO64 && after.generation == (ids.generation + 1) % TWO64
      && after.stage == (ids.stage + StagesBefore(kept, |kept|)) % TWO64
  {
    hide Succeeds, Retained, PlanCommunication, TotalHops, StagesBefore;
    var kept := Retained(req, snap, w, b);
    NumbersTaken(req, snap, w, b, ids);
    TotalIsBefore(kept, |kept|);
    assert kept[..|kept|] == kept;
  }

  lemma NumbersTaken(req: Request, snap: Snapshot, w: Weights, b: Bounds, ids: Ids)
    requires Succeeds(req, snap, w, b, ids)
    ensures PlanCommunication(req, snap, w, b, ids).ids == IdsAfter(ids, Retained(req, snap, w, b))
  {
    hide RankedBetween, ReportsBetween, BestFirstAt, PointPlan, Kept, Chosen, Reachable, FanOutPlan, MulticastReports,
      MulticastRanked, Members, ParticipantReady, RejectedCollective, LinkMap, EndpointMap, Linked, IdsAfter;
    if req.EffectiveShape().Collective? {
      var members := Members(req.participants[0], req.participants);
      FullPrefix(req, snap, w, b, req.participants[0], members);
    }
  }

  // ----- failures -----

  /** A point-to-point request that fails yields no plan. A fan-out that fails still yields one, labelled
      REJECT_ENDPOINT; a failed collective's is bound to nothing, claims nothing and executes nothing. */
  lemma FailuresSay(req: Request, snap: Snapshot, w: Weights, b: Bounds, ids: Ids)
    requires var p := PlanCommunication(req, snap, w, b, ids); p.Planned? && !p.outcome.success
    ensures var plan := PlanCommunication(req, snap, w, b, ids).outcome.plan;
      if req.shape == Multicast || req.allowMulticast then
        plan.Some? && plan.value.feasibility == RejectEndpoint && plan.value.shape == Multicast
      else if req.shape == Collective then
        && plan.Some? && plan.value.feasibility == RejectEndpoint && plan.value.shape == Collective
        && plan.value.orderedStages == [] && plan.value.requiredResourceClaims == []
        && plan.value.endpointGenerations == [] && plan.value.linkGenerations == []
        && plan.value.bound == Generations(0, 0, 0, 0, 0, 0, 0, 0)
      else plan.None?
  {
    hide RankedBetween, ReportsBetween, BestFirstAt, PointPlan, Chosen, Reachable, MulticastReports, MulticastRanked,
      Members, ParticipantReady, ReachablePrefix, LinkMap, EndpointMap, Linked, TotalHops, IdsAfter, AllComponents,
      AllRelays, Summarize, PathsOf, BoundEndpoints, BoundLinks, Claims, AllHops;
  }
}
