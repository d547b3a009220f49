/** What every successful plan is made of, whatever the shape of the request. */
module PlanFacts {
  import opened Core
  import opened Model
  import opened Sorting
  import opened Enumeration
  import opened SimplePaths
  import opened FeasibilityFilter
  import opened Cost
  import opened Ranking
  import opened Planner

  // ----- the sets a plan binds -----

  lemma AddToSetElements<T>(less: (T, T) -> bool, x: T, s: seq<T>)
    ensures forall y :: y in AddToSet(less, x, s) <==> y in s || y == x
    ensures Distinct(s) ==> Distinct(AddToSet(less, x, s))
  {
    if x !in s {
      InsertKeepsElements(less, x, s);
      var r := Insert(less, x, s);
      forall y ensures y in r <==> y in s || y == x {
        assert y in r <==> y in multiset(r);
        assert y in s <==> y in multiset(s);
      }
      if Distinct(s) {
        var t := [x] + s;
        assert multiset(t) == multiset(r);
        DistinctSurvivesRearrangement(t, r);
      }
    }
  }

  /** An endpoint pair is bound exactly when one of the hops touches that endpoint. */
  lemma {:induction false} BoundEndpointsExact(emap: map<u64, Endpoint>, hops: seq<Hop>, eg: (u64, u64))
    ensures eg in BoundEndpoints(emap, hops) <==>
      exists h :: h in hops && ((h.from in emap && eg == (emap[h.from].id, emap[h.from].generation))
                                || (h.to in emap && eg == (emap[h.to].id, emap[h.to].generation)))
  {
    if hops != [] {
      var front, h := hops[..|hops| - 1], hops[|hops| - 1];
      BoundEndpointsExact(emap, front, eg);
      assert hops == front + [h];
      var s := BoundEndpoints(emap, front);
      var s' := BindEndpoint(emap, h.from, s);
      if h.from in emap { AddToSetElements(PairLess, (emap[h.from].id, emap[h.from].generation), s); }
      if h.to in emap { AddToSetElements(PairLess, (emap[h.to].id, emap[h.to].generation), s'); }
      assert h in hops && forall k :: k in hops <==> k in front || k == h;
    }
  }

  lemma {:induction false} BoundLinksExact(lmap: map<u64, Link>, hops: seq<Hop>, lg: (u64, u64))
    ensures lg in BoundLinks(lmap, hops) <==>
      exists h :: h in hops && h.link in lmap && lg == (lmap[h.link].id, lmap[h.link].generation)
  {
    if hops != [] {
      var front, h := hops[..|hops| - 1], hops[|hops| - 1];
      BoundLinksExact(lmap, front, lg);
      assert hops == front + [h];
      if h.link in lmap {
        AddToSetElements(PairLess, (lmap[h.link].id, lmap[h.link].generation), BoundLinks(lmap, front));
      }
      assert h in hops && forall k :: k in hops <==> k in front || k == h;
    }
  }

  /** The claims are the staging resources of the relays, each once. */
  lemma {:induction false} ClaimsExact(relays: seq<u64>)
    ensures Distinct(Claims(relays))
    ensures forall c :: c in Claims(relays) <==> exists r :: r in relays && c == StagingResourceFor(r)
  {
    if relays != [] {
      var front, r := relays[..|relays| - 1], relays[|relays| - 1];
      ClaimsExact(front);
      AddToSetElements(IdLess, StagingResourceFor(r), Claims(front));
      assert relays == front + [r];
      assert r in relays && forall k :: k in relays <==> k in front || k == r;
    }
  }

  lemma {:induction false} AllHopsExact(rs: seq<Rankable>, h: Hop)
    ensures h in AllHops(rs) <==> exists k :: 0 <= k < |rs| && h in rs[k].path.hops
  {
    if rs != [] {
      AllHopsExact(rs[..|rs| - 1], h);
      var front := rs[..|rs| - 1];
      assert forall k :: 0 <= k < |front| ==> front[k] == rs[k];
      if h in rs[|rs| - 1].path.hops { assert 0 <= |rs| - 1 < |rs|; }
    }
  }

  lemma {:induction false} AllRelaysExact(rs: seq<Rankable>, v: u64)
    ensures v in AllRelays(rs) <==> exists k :: 0 <= k < |rs| && v in Relays(rs[k].path.hops)
  {
    if rs != [] {
      AllRelaysExact(rs[..|rs| - 1], v);
      var front := rs[..|rs| - 1];
      assert forall k :: 0 <= k < |front| ==> front[k] == rs[k];
      if v in Relays(rs[|rs| - 1].path.hops) { assert 0 <= |rs| - 1 < |rs|; }
    }
  }

  // ----- the candidates a plan retains -----

  /** The candidates a successful plan keeps, primary first. */
  function Retained(req: Request, snap: Snapshot, w: Weights, b: Bounds): seq<Rankable> {
    if req.EffectiveShape().Multicast? then Chosen(req, snap, w, b, req.source, req.destinations)
    else if req.EffectiveShape().Collective? then
      if req.participants == [] then []
      else Chosen(req, snap, w, b, req.participants[0], Members(req.participants[0], req.participants))
    else if req.destinations == [] then []
    else
      var ranked := RankedBetween(req, snap, w, b, req.source, req.destinations[0]);
      if ranked == [] then [] else ranked[..Kept(b, |ranked|)]
  }

  ghost predicate Succeeds(req: Request, snap: Snapshot, w: Weights, b: Bounds, ids: Ids) {
    var p := PlanCommunication(req, snap, w, b, ids);
    p.Planned? && p.outcome.success
  }

  /** The plan a successful request yields. */
  function ThePlan(req: Request, snap: Snapshot, w: Weights, b: Bounds, ids: Ids): Plan<Double>
    requires Succeeds(req, snap, w, b, ids)
  {
    PlanCommunication(req, snap, w, b, ids).outcome.plan.value
  }

  /** A candidate the planner may retain: enumerated between its own endpoints, feasible, costed. */
  ghost predicate Retainable(req: Request, snap: Snapshot, w: Weights, b: Bounds, r: Rankable) {
    && r.path in Enumerate(snap.links, r.path.source, r.path.destination, b)
    && Verdict(req, snap, r.path, b).Feasible?
    && r.cost == CandidateCost(req, snap, r.path, w)
  }

  lemma RankedAreRetainable(req: Request, snap: Snapshot, w: Weights, b: Bounds, src: u64, dst: u64)
    ensures forall r :: r in RankedBetween(req, snap, w, b, src, dst) ==>
      Retainable(req, snap, w, b, r) && r.path.source == src && r.path.destination == dst
  {
    hide RankedBetween, Verdict, CandidateCost, Enumerate, Admissible;
    forall r | r in RankedBetween(req, snap, w, b, src, dst)
      ensures Retainable(req, snap, w, b, r) && r.path.source == src && r.path.destination == dst
    {
      RankedAreAssessed(req, snap, w, b, src, dst, r);
      EnumerationIsExact(snap.links, src, dst, b);
    }
  }

  lemma {:induction false} ChosenAreRetainable(req: Request, snap: Snapshot, w: Weights, b: Bounds, src: u64,
                                               dests: seq<u64>)
    ensures var kept := Chosen(req, snap, w, b, src, dests);
      |kept| <= |dests| && forall k :: 0 <= k < |kept| ==> Retainable(req, snap, w, b, kept[k])
  {
    hide RankedBetween, Retainable;
    if dests != [] {
      ChosenAreRetainable(req, snap, w, b, src, dests[..|dests| - 1]);
      RankedAreRetainable(req, snap, w, b, src, dests[|dests| - 1]);
    }
  }

  /** `plan` is what construction makes of the retained candidates. */
  ghost predicate BuiltOver(plan: Plan<Double>, req: Request, snap: Snapshot, kept: seq<Rankable>, firstStage: u64) {
    var emap, lmap := EndpointMap(snap.endpoints), LinkMap(snap.links);
    && |kept| < TWO64 && (forall k :: 0 <= k < |kept| ==> Linked(lmap, kept[k].path.hops))
    && plan.candidatePaths == PathsOf(kept, lmap, req.payloadSize, firstStage)
    && plan.primaryPath == (if kept == [] then 0 else 1)
    && plan.bound == snap.generations
    && plan.endpointGenerations == BoundEndpoints(emap, AllHops(kept))
    && plan.linkGenerations == BoundLinks(lmap, AllHops(kept))
    && plan.requiredResourceClaims == plan.requiredStagingResources == Claims(ClaimedRelays(plan.shape, kept))
    && (if plan.shape.PointToPoint? then kept != [] && plan.cost == kept[0].cost
        else plan.cost == Summarize(AllComponents(kept)))
  }

  /** A point-to-point plan claims the relays of its primary path, a fan-out plan those of all paths. */
  function ClaimedRelays(shape: RequestShape, kept: seq<Rankable>): seq<u64> {
    if !shape.PointToPoint? then AllRelays(kept)
    else if kept == [] then [] else Relays(kept[0].path.hops)
  }

  lemma RetainableIsLinked(req: Request, snap: Snapshot, w: Weights, b: Bounds, r: Rankable)
    requires Retainable(req, snap, w, b, r)
    ensures Linked(LinkMap(snap.links), r.path.hops)
  {
    FeasibleIsLinked(req, snap, r.path, b);
  }

  lemma FullPrefix(req: Request, snap: Snapshot, w: Weights, b: Bounds, root: u64, members: seq<u64>)
    requires ReachablePrefix(req, snap, w, b, root, members, 0) == |members|
    ensures members[..ReachablePrefix(req, snap, w, b, root, members, 0)] == members
  {
  }

  ghost predicate IsBuilt(req: Request, snap: Snapshot, w: Weights, b: Bounds, ids: Ids)
    requires Succeeds(req, snap, w, b, ids)
  {
    var plan := ThePlan(req, snap, w, b, ids);
    BuiltOver(plan, req, snap, Retained(req, snap, w, b), ids.stage) && plan.id == ids.plan && plan.requestId == req.id
  }

  ghost predicate AllRetainable(req: Request, snap: Snapshot, w: Weights, b: Bounds, kept: seq<Rankable>) {
    forall k :: 0 <= k < |kept| ==> Retainable(req, snap, w, b, kept[k])
  }

  lemma AllRetainableAreLinked(req: Request, snap: Snapshot, w: Weights, b: Bounds, kept: seq<Rankable>)
    requires AllRetainable(req, snap, w, b, kept)
    ensures forall k :: 0 <= k < |kept| ==> Linked(LinkMap(snap.links), kept[k].path.hops)
  {
    hide Retainable, Linked;
    forall k | 0 <= k < |kept| ensures Linked(LinkMap(snap.links), kept[k].path.hops) {
      assert Retainable(req, snap, w, b, kept[k]);
      RetainableIsLinked(req, snap, w, b, kept[k]);
    }
  }

  lemma PointIsBuilt(req: Request, snap: Snapshot, w: Weights, b: Bounds, ids: Ids)
    requires Succeeds(req, snap, w, b, ids)
    requires !req.EffectiveShape().Multicast? && !req.EffectiveShape().Collective?
    ensures IsBuilt(req, snap, w, b, ids) && AllRetainable(req, snap, w, b, Retained(req, snap, w, b))
  {
    hide RankedBetween, Retainable, Chosen, Members, Linked, PathsOf, BoundEndpoints, BoundLinks, Claims, Summarize,
      ReachablePrefix, TotalHops, AllRelays, AllHops, AllComponents, MulticastReports, MulticastRanked;
    RankedAreRetainable(req, snap, w, b, req.source, req.destinations[0]);
    RankedAreFew(req, snap, w, b, req.source, req.destinations[0]);
    AllRetainableAreLinked(req, snap, w, b, Retained(req, snap, w, b));
  }

  lemma MulticastIsBuilt(req: Request, snap: Snapshot, w: Weights, b: Bounds, ids: Ids)
    requires Succeeds(req, snap, w, b, ids)
    requires req.EffectiveShape().Multicast?
    ensures IsBuilt(req, snap, w, b, ids) && AllRetainable(req, snap, w, b, Retained(req, snap, w, b))
  {
    hide RankedBetween, Retainable, Chosen, Members, Linked, PathsOf, BoundEndpoints, BoundLinks, Claims, Summarize,
      ReachablePrefix, TotalHops, AllRelays, AllHops, AllComponents, MulticastReports, MulticastRanked;
    ChosenAreRetainable(req, snap, w, b, req.source, req.destinations);
    AllRetainableAreLinked(req, snap, w, b, Retained(req, snap, w, b));
  }

  lemma CollectiveIsBuilt(req: Request, snap: Snapshot, w: Weights, b: Bounds, ids: Ids)
    requires Succeeds(req, snap, w, b, ids)
    requires req.EffectiveShape().Collective?
    ensures IsBuilt(req, snap, w, b, ids) && AllRetainable(req, snap, w, b, Retained(req, snap, w, b))
  {
    hide RankedBetween, Retainable, Chosen, Members, Linked, PathsOf, BoundEndpoints, BoundLinks, Claims, Summarize,
      ReachablePrefix, TotalHops, AllRelays, AllHops, AllComponents, MulticastReports, MulticastRanked;
    var root := req.participants[0];
    var members := Members(root, req.participants);
    FullPrefix(req, snap, w, b, root, members);
    ChosenAreRetainable(req, snap, w, b, root, members);
    AllRetainableAreLinked(req, snap, w, b, Retained(req, snap, w, b));
  }

  /** Every successful plan, of any shape, is built over retainable candidates. */
  lemma SuccessIsBuilt(req: Request, snap: Snapshot, w: Weights, b: Bounds, ids: Ids)
    requires Succeeds(req, snap, w, b, ids)
    ensures IsBuilt(req, snap, w, b, ids) && AllRetainable(req, snap, w, b, Retained(req, snap, w, b))
  {
    hide Succeeds, IsBuilt, AllRetainable, Retained;
    if req.EffectiveShape().Multicast? {
      MulticastIsBuilt(req, snap, w, b, ids);
    } else if req.EffectiveShape().Collective? {
      CollectiveIsBuilt(req, snap, w, b, ids);
    } else {
      PointIsBuilt(req, snap, w, b, ids);
    }
  }
}
