/** Revalidation compares generations; the filter looks at facts. These lemmas connect the two. */
module RevalidationTheorems {
  import opened Core
  import opened Model
  import opened FeasibilityFilter
  import opened Cost
  import opened Ranking
  import opened Planner
  import opened PlanFacts
  import opened Revalidation

  lemma RetainedHopIsUsable(req: Request, snap: Snapshot, w: Weights, b: Bounds, r: Rankable)
    requires Retainable(req, snap, w, b, r)
    ensures Passes(req, snap, EndpointMap(snap.endpoints), LinkMap(snap.links), r.path.hops, b)
  {
    VerdictDecides(req, snap, EndpointMap(snap.endpoints), LinkMap(snap.links), r.path.hops, b);
  }

  /** Everything a hop of a retained candidate touches is bound by the plan. */
  lemma HopIsBound(plan: Plan<Double>, req: Request, snap: Snapshot, kept: seq<Rankable>, firstStage: u64,
                   k: nat, h: Hop)
    requires BuiltOver(plan, req, snap, kept, firstStage) && k < |kept| && h in kept[k].path.hops
    ensures var emap, lmap := EndpointMap(snap.endpoints), LinkMap(snap.links);
      && (h.link in lmap ==> (h.link, lmap[h.link].generation) in plan.linkGenerations)
      && (h.from in emap ==> (h.from, emap[h.from].generation) in plan.endpointGenerations)
      && (h.to in emap ==> (h.to, emap[h.to].generation) in plan.endpointGenerations)
  {
    hide EndpointMap, LinkMap, PathsOf, BoundEndpoints, BoundLinks, AllHops, Claims, Summarize;
    var emap, lmap := EndpointMap(snap.endpoints), LinkMap(snap.links);
    EndpointMapKeys(snap.endpoints);
    LinkMapKeys(snap.links);
    AllHopsExact(kept, h);
    if h.link in lmap { BoundLinksExact(lmap, AllHops(kept), (h.link, lmap[h.link].generation)); }
    if h.from in emap { BoundEndpointsExact(emap, AllHops(kept), (h.from, emap[h.from].generation)); }
    if h.to in emap { BoundEndpointsExact(emap, AllHops(kept), (h.to, emap[h.to].generation)); }
  }

  // ----- a fresh plan against its own snapshot -----

  lemma BoundEndpointsAreLive(plan: Plan<Double>, req: Request, snap: Snapshot, w: Weights, b: Bounds,
                              kept: seq<Rankable>, firstStage: u64, eg: (u64, u64))
    requires BuiltOver(plan, req, snap, kept, firstStage) && AllRetainable(req, snap, w, b, kept)
    requires eg in plan.endpointGenerations
    ensures EndpointUnchanged(eg, snap, EndpointMap(snap.endpoints))
  {
    hide EndpointMap, LinkMap, PathsOf, BoundEndpoints, BoundLinks, AllHops, Claims, Summarize, Retainable,
      EndpointFresh;
    var emap, lmap := EndpointMap(snap.endpoints), LinkMap(snap.links);
    EndpointMapKeys(snap.endpoints);
    BoundEndpointsExact(emap, AllHops(kept), eg);
    var h :| h in AllHops(kept) && ((h.from in emap && eg == (emap[h.from].id, emap[h.from].generation))
                                    || (h.to in emap && eg == (emap[h.to].id, emap[h.to].generation)));
    AllHopsExact(kept, h);
    var k :| 0 <= k < |kept| && h in kept[k].path.hops;
    RetainedHopIsUsable(req, snap, w, b, kept[k]);
    assert HopUsable(req, snap, emap, lmap, h);
  }

  lemma BoundLinksAreUnchanged(plan: Plan<Double>, req: Request, snap: Snapshot, w: Weights, b: Bounds,
                               kept: seq<Rankable>, firstStage: u64, lg: (u64, u64))
    requires BuiltOver(plan, req, snap, kept, firstStage) && AllRetainable(req, snap, w, b, kept)
    requires lg in plan.linkGenerations
    ensures LinkUnchanged(lg, LinkMap(snap.links))
  {
    hide EndpointMap, LinkMap, PathsOf, BoundEndpoints, BoundLinks, AllHops, Claims, Summarize, Retainable,
      EndpointFresh;
    var emap, lmap := EndpointMap(snap.endpoints), LinkMap(snap.links);
    LinkMapKeys(snap.links);
    BoundLinksExact(lmap, AllHops(kept), lg);
    var h :| h in AllHops(kept) && h.link in lmap && lg == (lmap[h.link].id, lmap[h.link].generation);
    AllHopsExact(kept, h);
    var k :| 0 <= k < |kept| && h in kept[k].path.hops;
    RetainedHopIsUsable(req, snap, w, b, kept[k]);
    assert HopUsable(req, snap, emap, lmap, h);
  }

  lemma RetainedPathsAreCurrent(plan: Plan<Double>, req: Request, snap: Snapshot, w: Weights, b: Bounds,
                                kept: seq<Rankable>, firstStage: u64, p: Path<Double>)
    requires BuiltOver(plan, req, snap, kept, firstStage) && AllRetainable(req, snap, w, b, kept)
    requires p in plan.candidatePaths
    ensures PathCurrent(p, snap, EndpointMap(snap.endpoints), LinkMap(snap.links))
  {
    hide EndpointMap, LinkMap, PathsOf, BoundEndpoints, BoundLinks, AllHops, Claims, Summarize, Retainable,
      EndpointFresh, WorstProvenance, TotalHops;
    var emap, lmap := EndpointMap(snap.endpoints), LinkMap(snap.links);
    var k :| 0 <= k < |plan.candidatePaths| && plan.candidatePaths[k] == p;
    PathAt(kept, lmap, req.payloadSize, firstStage, k);
    RetainedHopIsUsable(req, snap, w, b, kept[k]);
    forall i | 0 <= i < |p.stages| ensures StageCurrent(p.stages[i], snap, emap, lmap) {
      assert HopUsable(req, snap, emap, lmap, kept[k].path.hops[i]);
    }
  }

  /** A plan passes revalidation against the snapshot it was made from exactly when every staging
      resource it claims is listed there and not exhausted. */
  lemma FreshPlanRevalidates(req: Request, snap: Snapshot, w: Weights, b: Bounds, ids: Ids)
    requires Succeeds(req, snap, w, b, ids)
    ensures var plan := ThePlan(req, snap, w, b, ids);
      Revalidates(plan, snap) <==>
      forall v :: v in ClaimedRelays(plan.shape, Retained(req, snap, w, b)) ==>
        ResourceOffered(snap.resourceCapacities, StagingResourceFor(v))
  {
    SuccessIsBuilt(req, snap, w, b, ids);
    FreshPlanRevalidatesOver(ThePlan(req, snap, w, b, ids), req, snap, w, b, Retained(req, snap, w, b), ids.stage);
  }

  /** Everything the plan is bound to, staging resources apart, still stands. */
  ghost predicate Stands(plan: Plan<Double>, snap: Snapshot) {
    var emap, lmap := EndpointMap(snap.endpoints), LinkMap(snap.links);
    && GenerationsCurrent(plan.bound, snap.generations)
    && (forall eg :: eg in plan.endpointGenerations ==> EndpointUnchanged(eg, snap, emap))
    && (forall lg :: lg in plan.linkGenerations ==> LinkUnchanged(lg, lmap))
    && (forall p :: p in plan.candidatePaths ==> PathCurrent(p, snap, emap, lmap))
  }

  ghost predicate AllOffered(caps: seq<(u64, Capacity)>, rids: seq<u64>) {
    forall rid :: rid in rids ==> ResourceOffered(caps, rid)
  }

  lemma RevalidatesInTwo(plan: Plan<Double>, snap: Snapshot)
    ensures Revalidates(plan, snap) <==>
      Stands(plan, snap) && AllOffered(snap.resourceCapacities, plan.requiredStagingResources)
  {
    hide EndpointMap, LinkMap, EndpointUnchanged, LinkUnchanged, PathCurrent, ResourceOffered;
  }

  lemma FreshPlanStands(plan: Plan<Double>, req: Request, snap: Snapshot, w: Weights, b: Bounds, kept: seq<Rankable>,
                        firstStage: u64)
    requires BuiltOver(plan, req, snap, kept, firstStage) && AllRetainable(req, snap, w, b, kept)
    ensures Stands(plan, snap)
  {
    hide EndpointMap, LinkMap, PathsOf, BoundEndpoints, BoundLinks, AllHops, Claims, Summarize, AllRetainable,
      EndpointUnchanged, LinkUnchanged, PathCurrent, ClaimedRelays, Linked;
    var emap, lmap := EndpointMap(snap.endpoints), LinkMap(snap.links);
    forall eg | eg in plan.endpointGenerations ensures EndpointUnchanged(eg, snap, emap) {
      BoundEndpointsAreLive(plan, req, snap, w, b, kept, firstStage, eg);
    }
    forall lg | lg in plan.linkGenerations ensures LinkUnchanged(lg, lmap) {
      BoundLinksAreUnchanged(plan, req, snap, w, b, kept, firstStage, lg);
    }
    forall p | p in plan.candidatePaths ensures PathCurrent(p, snap, emap, lmap) {
      RetainedPathsAreCurrent(plan, req, snap, w, b, kept, firstStage, p);
    }
  }

  lemma FreshPlanRevalidatesOver(plan: Plan<Double>, req: Request, snap: Snapshot, w: Weights, b: Bounds,
                                 kept: seq<Rankable>, firstStage: u64)
    requires BuiltOver(plan, req, snap, kept, firstStage) && AllRetainable(req, snap, w, b, kept)
    ensures Revalidates(plan, snap) <==>
      forall v :: v in ClaimedRelays(plan.shape, kept) ==>
        ResourceOffered(snap.resourceCapacities, StagingResourceFor(v))
  {
    hide EndpointMap, LinkMap, PathsOf, BoundEndpoints, BoundLinks, AllHops, Claims, Summarize, AllRetainable, Stands,
      Revalidates, ResourceOffered, ClaimedRelays, Linked;
    FreshPlanStands(plan, req, snap, w, b, kept, firstStage);
    RevalidatesInTwo(plan, snap);
    ClaimsExact(ClaimedRelays(plan.shape, kept));
  }

  /** A point-to-point plan runs directly if its primary path does, whatever its fallbacks; a fan-out plan
      if all its paths do. */
  ghost predicate RunsDirectly(shape: RequestShape, kept: seq<Rankable>) {
    if shape.PointToPoint? then kept != [] && |kept[0].path.hops| == 1
    else forall k :: 0 <= k < |kept| ==> |kept[k].path.hops| == 1
  }

  /** In particular a direct plan always does. */
  lemma DirectPlanRevalidates(req: Request, snap: Snapshot, w: Weights, b: Bounds, ids: Ids)
    requires Succeeds(req, snap, w, b, ids)
    requires RunsDirectly(ThePlan(req, snap, w, b, ids).shape, Retained(req, snap, w, b))
    ensures Revalidates(ThePlan(req, snap, w, b, ids), snap)
  {
    hide Retained, ThePlan, Succeeds, Revalidates;
    FreshPlanRevalidates(req, snap, w, b, ids);
    var kept := Retained(req, snap, w, b);
    var plan := ThePlan(req, snap, w, b, ids);
    forall v | v in ClaimedRelays(plan.shape, kept) ensures false {
      if !plan.shape.PointToPoint? { AllRelaysExact(kept, v); }
    }
  }

  // ----- a plan against a later snapshot -----

  /** Endpoints and links with equal id and generation agree on their static fields. */
  ghost predicate StaticsAgree(s1: Snapshot, s2: Snapshot) {
    var e1, l1, e2, l2 := EndpointMap(s1.endpoints), LinkMap(s1.links), EndpointMap(s2.endpoints), LinkMap(s2.links);
    && (forall id :: id in e1 && id in e2 && e1[id].generation == e2[id].generation ==>
          e1[id].kind == e2[id].kind && e1[id].transports == e2[id].transports)
    && (forall id :: id in l1 && id in l2 && l1[id].generation == l2[id].generation ==> SameStatics(l1[id], l2[id]))
  }

  /** "Same generation means same facts", for everything a generation stands for. */
  ghost predicate GenerationsSpeak(s1: Snapshot, s2: Snapshot) {
    && StaticsAgree(s1, s2)
    && (s1.generations.reservation != 0 && s1.generations.reservation == s2.generations.reservation ==>
          s1.reservations == s2.reservations)
  }

  predicate SameStatics(a: Link, b: Link) {
    && a.source == b.source && a.destination == b.destination && a.transport == b.transport
    && a.directed == b.directed && a.capacity == b.capacity && a.failureDomain == b.failureDomain
  }

  lemma HopStaysUsable(plan: Plan<Double>, req: Request, s1: Snapshot, s2: Snapshot, w: Weights, b: Bounds,
                       kept: seq<Rankable>, firstStage: u64, k: nat, h: Hop)
    requires BuiltOver(plan, req, s1, kept, firstStage) && AllRetainable(req, s1, w, b, kept)
    requires Revalidates(plan, s2) && GenerationsSpeak(s1, s2) && s1.generations.reservation != 0
    requires k < |kept| && h in kept[k].path.hops
    ensures HopUsable(req, s2, EndpointMap(s2.endpoints), LinkMap(s2.links), h)
    ensures EndpointMap(s1.endpoints).Keys >= {h.to} && h.to in EndpointMap(s2.endpoints)
    ensures EndpointMap(s1.endpoints)[h.to].kind == EndpointMap(s2.endpoints)[h.to].kind
  {
    hide EndpointMap, LinkMap, PathsOf, BoundEndpoints, BoundLinks, AllHops, Claims, Summarize, Retainable,
      EndpointFresh, ReservedOn, TransportAllowed, Linked, PathCurrent, ResourceOffered;
    var e1, l1, e2, l2 := EndpointMap(s1.endpoints), LinkMap(s1.links), EndpointMap(s2.endpoints), LinkMap(s2.links);
    RetainedHopIsUsable(req, s1, w, b, kept[k]);
    assert HopUsable(req, s1, e1, l1, h);
    HopIsBound(plan, req, s1, kept, firstStage, k, h);
    assert LinkUnchanged((h.link, l1[h.link].generation), l2);
    assert EndpointUnchanged((h.from, e1[h.from].generation), s2, e2);
    assert EndpointUnchanged((h.to, e1[h.to].generation), s2, e2);
    LinkMapKeys(s1.links);
    LinkMapKeys(s2.links);
  }

  /** If generations speak for the facts, a plan of any shape that revalidates on a later snapshot
      retains only paths that pass the whole filter there. */
  lemma RevalidationRefinesFeasibility(req: Request, s1: Snapshot, s2: Snapshot, w: Weights, b: Bounds, ids: Ids,
                                       k: nat)
    requires Succeeds(req, s1, w, b, ids) && Revalidates(ThePlan(req, s1, w, b, ids), s2)
    requires GenerationsSpeak(s1, s2) && s1.generations.reservation != 0
    requires s2.policyGeneration >= s1.policyGeneration
    requires k < |Retained(req, s1, w, b)|
    ensures Verdict(req, s2, Retained(req, s1, w, b)[k].path, b).Feasible?
  {
    hide Retained, Succeeds, Revalidates, GenerationsSpeak, BuiltOver, AllRetainable, EndpointMap, LinkMap, HopUsable;
    SuccessIsBuilt(req, s1, w, b, ids);
    var plan, kept := ThePlan(req, s1, w, b, ids), Retained(req, s1, w, b);
    RetainedStaysFeasible(plan, req, s1, s2, w, b, kept, ids.stage, k);
  }

  lemma RetainedStaysFeasible(plan: Plan<Double>, req: Request, s1: Snapshot, s2: Snapshot, w: Weights, b: Bounds,
                              kept: seq<Rankable>, firstStage: u64, k: nat)
    requires BuiltOver(plan, req, s1, kept, firstStage) && AllRetainable(req, s1, w, b, kept)
    requires Revalidates(plan, s2) && GenerationsSpeak(s1, s2) && s1.generations.reservation != 0
    requires s2.policyGeneration >= s1.policyGeneration && k < |kept|
    ensures Verdict(req, s2, kept[k].path, b).Feasible?
  {
    hide Revalidates, GenerationsSpeak, BuiltOver, EndpointMap, LinkMap, HopUsable, Retainable;
    var hops := kept[k].path.hops;
    var e1, e2, l2 := EndpointMap(s1.endpoints), EndpointMap(s2.endpoints), LinkMap(s2.links);
    RetainedHopIsUsable(req, s1, w, b, kept[k]);
    forall i | 0 <= i < |hops|
      ensures HopUsable(req, s2, e2, l2, hops[i])
      ensures i < |hops| - 1 ==> RelayPermitted(req, e2, hops[i].to)
    {
      assert i < |hops| - 1 ==> RelayPermitted(req, e1, hops[i].to);
      HopStaysUsable(plan, req, s1, s2, w, b, kept, firstStage, k, hops[i]);
    }
    VerdictDecides(req, s2, e2, l2, hops, b);
  }

  // ----- why the reservation generation must not be null -----

  function OfferAll(rids: seq<u64>): (r: seq<(u64, Capacity)>)
    ensures |r| == |rids| && forall i :: 0 <= i < |r| ==> r[i].0 == rids[i] && r[i].1.usable == 1
  {
    seq(|rids|, i requires 0 <= i < |rids| => (rids[i], Capacity(1, 1, 0, Measured)))
  }

  /** `s` with all of the capacity of one link reserved, and every resource the plan needs offered. */
  function Exhausted(s: Snapshot, link: Link, rids: seq<u64>): Snapshot {
    s.(reservations := [Reservation(link.id, link.capacity)], resourceCapacities := OfferAll(rids))
  }

  lemma ReservationsAreNotRevalidated(plan: Plan<Double>, s: Snapshot, link: Link)
    requires Stands(plan, s)
    ensures Revalidates(plan, Exhausted(s, link, plan.requiredStagingResources))
  {
    hide EndpointMap, LinkMap, Revalidates, OfferAll;
    var rids := plan.requiredStagingResources;
    var s2 := Exhausted(s, link, rids);
    forall eg ensures EndpointUnchanged(eg, s2, EndpointMap(s.endpoints))
                 <==> EndpointUnchanged(eg, s, EndpointMap(s.endpoints)) {}
    forall p: Path<Double> ensures PathCurrent(p, s2, EndpointMap(s.endpoints), LinkMap(s.links))
                             <==> PathCurrent(p, s, EndpointMap(s.endpoints), LinkMap(s.links)) {}
    forall rid | rid in rids ensures ResourceOffered(s2.resourceCapacities, rid) {
      var i :| 0 <= i < |rids| && rids[i] == rid;
      assert s2.resourceCapacities[i].0 == rid;
    }
    RevalidatesInTwo(plan, s2);
  }

  ghost predicate AllFeasibleOn(req: Request, s: Snapshot, kept: seq<Rankable>, b: Bounds) {
    forall k :: 0 <= k < |kept| ==> Verdict(req, s, kept[k].path, b).Feasible?
  }

  /** A plan made while the reservation generation was null revalidates on a later snapshot on which a link
      of its primary path is reserved out, although the filter rejects that path there. */
  lemma NullReservationGenerationIsNotEnough(req: Request, s: Snapshot, w: Weights, b: Bounds, ids: Ids)
    requires Succeeds(req, s, w, b, ids) && s.generations.reservation == 0 && Retained(req, s, w, b) != []
    ensures exists s2 :: && GenerationsSpeak(s, s2) && s2.policyGeneration >= s.policyGeneration
                         && Revalidates(ThePlan(req, s, w, b, ids), s2)
                         && !AllFeasibleOn(req, s2, Retained(req, s, w, b), b)
  {
    hide Retained, Succeeds, Revalidates, BuiltOver, EndpointMap, LinkMap, Retainable, Stands, OfferAll;
    SuccessIsBuilt(req, s, w, b, ids);
    var plan, kept := ThePlan(req, s, w, b, ids), Retained(req, s, w, b);
    FreshPlanStands(plan, req, s, w, b, kept, ids.stage);
    RetainedHopIsUsable(req, s, w, b, kept[0]);
    var lmap, h := LinkMap(s.links), kept[0].path.hops[0];
    assert HopUsable(req, s, EndpointMap(s.endpoints), lmap, h);
    var s2 := Exhausted(s, lmap[h.link], plan.requiredStagingResources);
    ReservationsAreNotRevalidated(plan, s, lmap[h.link]);
    FullyReserved(lmap[h.link]);
    assert !HopUsable(req, s2, EndpointMap(s2.endpoints), LinkMap(s2.links), h);
    VerdictDecides(req, s2, EndpointMap(s2.endpoints), LinkMap(s2.links), kept[0].path.hops, b);
    assert GenerationsSpeak(s, s2);
  }

  /** On every later snapshot on which generations speak for the facts, revalidation implies the filter. */
  ghost predicate Refines(req: Request, s: Snapshot, w: Weights, b: Bounds, ids: Ids)
    requires Succeeds(req, s, w, b, ids)
  {
    forall s2 ::
      GenerationsSpeak(s, s2) && s2.policyGeneration >= s.policyGeneration
        && Revalidates(ThePlan(req, s, w, b, ids), s2)
      ==> AllFeasibleOn(req, s2, Retained(req, s, w, b), b)
  }

  /** It does exactly when the reservation generation was not null when the plan was made. */
  lemma RefinesIff(req: Request, s: Snapshot, w: Weights, b: Bounds, ids: Ids)
    requires Succeeds(req, s, w, b, ids) && Retained(req, s, w, b) != []
    ensures Refines(req, s, w, b, ids) <==> s.generations.reservation != 0
  {
    hide Retained, Succeeds, Revalidates, GenerationsSpeak, Verdict;
    if s.generations.reservation == 0 {
      NullReservationGenerationIsNotEnough(req, s, w, b, ids);
    } else {
      forall s2 | GenerationsSpeak(s, s2) && s2.policyGeneration >= s.policyGeneration
                  && Revalidates(ThePlan(req, s, w, b, ids), s2)
        ensures AllFeasibleOn(req, s2, Retained(req, s, w, b), b)
      {
        forall k | 0 <= k < |Retained(req, s, w, b)|
          ensures Verdict(req, s2, Retained(req, s, w, b)[k].path, b).Feasible?
        {
          RevalidationRefinesFeasibility(req, s, s2, w, b, ids, k);
        }
      }
    }
  }

  lemma FullyReserved(link: Link)
    ensures ReservedOn([Reservation(link.id, link.capacity)], link.id) == link.capacity
  {
    var rs := [Reservation(link.id, link.capacity)];
    assert rs[..0] == [];
    assert Sum(rs, link.id) == link.capacity;
  }
}
