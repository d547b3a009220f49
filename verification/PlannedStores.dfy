/** Plans the planner makes are plans the store accepts. The store holds cost figures as bit patterns, so
    a plan is stored through some encoding of doubles; only its cost can make it invalid. */
module PlannedStores {
  import opened Core
  import opened Model
  import opened Enumeration
  import opened SimplePaths
  import opened FeasibilityFilter
  import opened Cost
  import opened Ranking
  import opened Planner
  import opened PlanFacts
  import opened RevalidationTheorems
  import opened StoreCodec
  import opened StoreValidity
  import opened StoreFormat
  import opened StoreTheorems
  import opened Ieee

  // ----- storing a plan -----

  function StoredComponent(c: CostComponent<Double>, enc: Double -> u64): CostComponent<u64> {
    CostComponent(c.factor, enc(c.weight), enc(c.value), c.provenance)
  }

  function StoredCost(c: CostSummary<Double>, enc: Double -> u64): (r: CostSummary<u64>)
    ensures |r.components| == |c.components|
  {
    CostSummary(seq(|c.components|, i requires 0 <= i < |c.components| => StoredComponent(c.components[i], enc)),
                enc(c.total))
  }

  function StoredPath(p: Path<Double>, enc: Double -> u64): Path<u64> {
    Path(p.id, p.generation, p.source, p.destination, p.stages, p.totalPayload, StoredCost(p.cost, enc), p.provenance,
         p.failureDomain, p.reason)
  }

  function StoredPaths(ps: seq<Path<Double>>, enc: Double -> u64): (r: seq<Path<u64>>)
    ensures |r| == |ps| && forall i :: 0 <= i < |r| ==> r[i] == StoredPath(ps[i], enc)
  {
    seq(|ps|, i requires 0 <= i < |ps| => StoredPath(ps[i], enc))
  }

  function StoredPlan(p: Plan<Double>, enc: Double -> u64): Plan<u64> {
    Plan(p.id, p.generation, p.requestId, p.requestGeneration, p.shape, p.primaryPath, p.fallbackPaths,
         StoredPaths(p.candidatePaths, enc), p.orderedStages, p.feasibility, p.bound, p.endpointGenerations,
         p.linkGenerations, p.requiredStagingResources, p.requiredResourceClaims, StoredCost(p.cost, enc),
         p.explanations, p.provenance, p.revalidationGeneration, p.revalidateBeforeExecute, p.handoffRequirement,
         p.createdProvenance, p.multicastDestinations, p.collectiveShape, p.collectiveParticipants, p.description)
  }

  // ----- why it is valid -----

  lemma RetainedChains(req: Request, snap: Snapshot, w: Weights, b: Bounds, r: Rankable, lmap: map<u64, Link>,
                       payload: u64, id: u64, firstStage: u64, enc: Double -> u64)
    requires Retainable(req, snap, w, b, r) && Linked(lmap, r.path.hops)
    ensures Chains(StoredPath(PathOf(id, r, lmap, payload, firstStage), enc))
  {
    hide Enumerate, Verdict, CandidateCost, WorstProvenance, StoredCost, Edge, EndpointMap, LinkMap;
    EnumerationIsExact(snap.links, r.path.source, r.path.destination, b);
    var hops := r.path.hops;
    assert SimplePath(snap.links, r.path.source, r.path.destination, hops);
    var p := StoredPath(PathOf(id, r, lmap, payload, firstStage), enc);
    forall k | 0 <= k < |p.stages| ensures Follows(p, k) {
      assert hops[k].to != r.path.source;
      if k > 0 { assert hops[k].from == hops[k - 1].to && hops[k - 1].to != hops[k].to; }
    }
  }

  lemma RetainedIsBound(plan: Plan<Double>, req: Request, snap: Snapshot, w: Weights, b: Bounds, kept: seq<Rankable>,
                        firstStage: u64, enc: Double -> u64, k: nat, i: nat)
    requires BuiltOver(plan, req, snap, kept, firstStage) && AllRetainable(req, snap, w, b, kept)
    requires k < |kept| && i < |kept[k].path.hops|
    ensures BindsEndpoint(StoredPlan(plan, enc), kept[k].path.hops[i].from)
    ensures BindsEndpoint(StoredPlan(plan, enc), kept[k].path.hops[i].to)
  {
    hide PathsOf, BoundEndpoints, BoundLinks, AllHops, Claims, Summarize, Retainable, EndpointMap, LinkMap, StoredCost,
      Linked;
    var h := kept[k].path.hops[i];
    var emap, lmap := EndpointMap(snap.endpoints), LinkMap(snap.links);
    RetainedHopIsUsable(req, snap, w, b, kept[k]);
    assert HopUsable(req, snap, emap, lmap, h);
    HopIsBound(plan, req, snap, kept, firstStage, k, h);
    var egs := plan.endpointGenerations;
    var x :| 0 <= x < |egs| && egs[x] == (h.from, emap[h.from].generation);
    var y :| 0 <= y < |egs| && egs[y] == (h.to, emap[h.to].generation);
  }

  lemma RetainedPathIsValid(plan: Plan<Double>, req: Request, snap: Snapshot, w: Weights, b: Bounds,
                            kept: seq<Rankable>,
                            firstStage: u64, enc: Double -> u64, k: nat)
    requires BuiltOver(plan, req, snap, kept, firstStage) && AllRetainable(req, snap, w, b, kept) && k < |kept|
    ensures PathValid(StoredPlan(plan, enc), StoredPlan(plan, enc).candidatePaths[k])
    ensures StoredPlan(plan, enc).candidatePaths[k].id == k + 1
  {
    hide PathsOf, BoundEndpoints, BoundLinks, AllHops, Claims, Summarize, Retainable, EndpointMap, LinkMap, StoredCost,
      WorstProvenance, TotalHops, BindsEndpoint, Chains;
    var lmap := LinkMap(snap.links);
    PathAt(kept, lmap, req.payloadSize, firstStage, k);
    var stage := Add64(firstStage, TotalHops(kept[..k]));
    RetainedChains(req, snap, w, b, kept[k], lmap, req.payloadSize, k + 1, stage, enc);
    var p := StoredPlan(plan, enc).candidatePaths[k];
    forall i | 0 <= i < |p.stages| ensures Carries(p, i) && BindsStage(StoredPlan(plan, enc), p.stages[i]) {
      RetainedIsBound(plan, req, snap, w, b, kept, firstStage, enc, k, i);
    }
  }

  /** A stored plan of the planner is valid exactly when its cost figures are finite and, in a state
      that claims to hold resources, it has a relay to hold them for. */
  lemma PlannedRecordIsValid(req: Request, snap: Snapshot, w: Weights, b: Bounds, ids: Ids, enc: Double -> u64,
                             state: PlanState)
    requires Succeeds(req, snap, w, b, ids)
    ensures var plan := ThePlan(req, snap, w, b, ids);
      RecordValid(Record(StoredPlan(plan, enc), state)) <==>
      && CostValid(StoredCost(plan.cost, enc))
      && (Executing(state) ==> ClaimedRelays(plan.shape, Retained(req, snap, w, b)) != [])
  {
    hide Succeeds, Retained, AllRetainable, ThePlan, StoredPlan, CostValid, BuiltOver, RecordValid, ClaimedRelays;
    SuccessIsBuilt(req, snap, w, b, ids);
    var plan, kept := ThePlan(req, snap, w, b, ids), Retained(req, snap, w, b);
    BuiltRecordIsValid(plan, req, snap, w, b, kept, ids.stage, enc, state);
  }

  lemma BuiltRecordIsValid(plan: Plan<Double>, req: Request, snap: Snapshot, w: Weights, b: Bounds, kept: seq<Rankable>,
                           firstStage: u64, enc: Double -> u64, state: PlanState)
    requires BuiltOver(plan, req, snap, kept, firstStage) && AllRetainable(req, snap, w, b, kept)
    ensures RecordValid(Record(StoredPlan(plan, enc), state)) <==>
      CostValid(StoredCost(plan.cost, enc)) && (Executing(state) ==> ClaimedRelays(plan.shape, kept) != [])
  {
    hide PathsOf, BoundEndpoints, BoundLinks, AllHops, Claims, Summarize, AllRetainable, EndpointMap, LinkMap,
      StoredCost, CostValid, PathValid, Linked, ClaimedRelays;
    var stored := StoredPlan(plan, enc);
    forall k | 0 <= k < |stored.candidatePaths|
      ensures PathValid(stored, stored.candidatePaths[k]) && stored.candidatePaths[k].id == k + 1
    {
      RetainedPathIsValid(plan, req, snap, w, b, kept, firstStage, enc, k);
    }
    if kept != [] { assert stored.candidatePaths[0].id == 1; }
    ClaimsEmptyIff(ClaimedRelays(plan.shape, kept));
  }

  lemma ClaimsEmptyIff(relays: seq<u64>)
    ensures Claims(relays) == [] <==> relays == []
  {
    ClaimsExact(relays);
    if relays != [] {
      assert relays[0] in relays;
      assert StagingResourceFor(relays[0]) in Claims(relays);
    }
  }

  /** The encoding gives finite non-negative doubles finite non-negative patterns, and gives none to what is
      not finite. */
  ghost predicate KeepsFigures(enc: Double -> u64) {
    && (forall d: Double :: Magnitude(d) ==> DoubleOf(enc(d)).NonNegFinite())
    && (forall d: Double :: !d.Finite() ==> !DoubleOf(enc(d)).Finite())
  }

  /** The crudest such encoding: zero, or infinity. */
  function CrudePattern(d: Double): u64 { if d.Finite() then 0 else 0x7FF0_0000_0000_0000 }

  lemma SomeEncodingKeepsFigures()
    ensures KeepsFigures(CrudePattern)
  {
    hide MaxDouble, Scale;
    assert DoubleOf(0) == Fin(0.0) && DoubleOf(0x7FF0_0000_0000_0000) == PosInf;
  }

  lemma {:induction false} GatheredComponents(kept: seq<Rankable>, c: CostComponent<Double>)
    requires c in AllComponents(kept)
    ensures exists k :: 0 <= k < |kept| && c in kept[k].cost.components
  {
    if kept != [] {
      var front := kept[..|kept| - 1];
      if c in AllComponents(front) {
        GatheredComponents(front, c);
        var k :| 0 <= k < |front| && c in front[k].cost.components;
        assert kept[k] == front[k];
      }
    }
  }

  /** Every figure of the components is a finite non-negative double. */
  ghost predicate FiguresFit(cs: seq<CostComponent<Double>>) {
    forall c :: c in cs ==> Magnitude(c.weight) && Magnitude(c.value)
  }

  lemma FiguresAreValid(cs: seq<CostComponent<Double>>)
    requires FiguresFit(cs)
    ensures AllValid(cs)
  {
    hide MaxDouble;
  }

  lemma RetainedFiguresFit(req: Request, snap: Snapshot, w: Weights, b: Bounds, r: Rankable)
    requires Retainable(req, snap, w, b, r) && ValidWeights(w)
    ensures FiguresFit(r.cost.components) && r.cost == Summarize(r.cost.components)
  {
    hide Enumerate, Verdict, ComponentsOver, ValidWeights, EndpointMap, LinkMap, WeightedSum, MaxDouble;
    CostsAreFinite(req, EndpointMap(snap.endpoints), LinkMap(snap.links), r.path.hops, w);
    assert MaxDouble() >= MAX_COST;
  }

  /** The cost of a plan of any shape summarises components whose figures all fit. */
  lemma PlannedFiguresFit(req: Request, snap: Snapshot, w: Weights, b: Bounds, ids: Ids)
    requires Succeeds(req, snap, w, b, ids) && ValidWeights(w)
    ensures var cost := ThePlan(req, snap, w, b, ids).cost;
      FiguresFit(cost.components) && cost == Summarize(cost.components)
  {
    hide Succeeds, Retained, ThePlan, Retainable, PathsOf, BoundEndpoints, BoundLinks, Claims, AllHops, EndpointMap,
      LinkMap, ValidWeights, MaxDouble, WeightedSum, AllValid;
    SuccessIsBuilt(req, snap, w, b, ids);
    var kept := Retained(req, snap, w, b);
    forall k | 0 <= k < |kept|
      ensures FiguresFit(kept[k].cost.components) && kept[k].cost == Summarize(kept[k].cost.components)
    {
      RetainedFiguresFit(req, snap, w, b, kept[k]);
    }
    forall c | c in AllComponents(kept) ensures Magnitude(c.weight) && Magnitude(c.value) {
      GatheredComponents(kept, c);
      var k :| 0 <= k < |kept| && c in kept[k].cost.components;
    }
  }

  /** With valid weights a successful plan of any shape is a valid store record in state PLAN_READY exactly
      when its weighted sum does not overflow. */
  lemma PlannedRecordIsReady(req: Request, snap: Snapshot, w: Weights, b: Bounds, ids: Ids, enc: Double -> u64)
    requires Succeeds(req, snap, w, b, ids) && ValidWeights(w) && KeepsFigures(enc)
    ensures var plan := ThePlan(req, snap, w, b, ids);
      RecordValid(Record(StoredPlan(plan, enc), PlanReady)) <==> !Overflows(plan.cost.components)
  {
    hide Succeeds, Retained, ThePlan, StoredPlan, CostValid, RecordValid, ClaimedRelays, ValidWeights, KeepsFigures,
      StoredCost, FiguresFit, Summarize, Overflows;
    PlannedFiguresFit(req, snap, w, b, ids);
    PlannedRecordIsValid(req, snap, w, b, ids, enc, PlanReady);
    StoredCostIsValidIff(ThePlan(req, snap, w, b, ids).cost, enc);
  }

  lemma StoredCostIsValidIff(c: CostSummary<Double>, enc: Double -> u64)
    requires KeepsFigures(enc) && FiguresFit(c.components) && c == Summarize(c.components)
    ensures CostValid(StoredCost(c, enc)) <==> !Overflows(c.components)
  {
    hide DoubleOf, WeightedSum, MaxDouble;
    FiguresAreValid(c.components);
    SumGrows(c.components, 0);
    var s := StoredCost(c, enc);
    forall i | 0 <= i < |s.components| ensures ComponentValid(s.components[i]) {
      assert c.components[i] in c.components;
    }
    if !Overflows(c.components) { assert Magnitude(c.total); }
  }

  /** A ready plan with finite cost, within the size limits, survives the store unchanged. */
  lemma PlannedRecordSurvives(req: Request, snap: Snapshot, w: Weights, b: Bounds, ids: Ids, enc: Double -> u64,
                              epoch: u64)
    requires Succeeds(req, snap, w, b, ids) && ids.plan != 0
    requires CostValid(StoredCost(ThePlan(req, snap, w, b, ids).cost, enc))
    requires var rec := Record(StoredPlan(ThePlan(req, snap, w, b, ids), enc), PlanReady);
      RecordFits(rec) && |PutBody(Store(epoch, [rec], [], []))| < TWO64
    ensures var s := Store(epoch, [Record(StoredPlan(ThePlan(req, snap, w, b, ids), enc), PlanReady)], [], []);
      Parse(Serialize(s)) == Parsed(s)
  {
    hide Succeeds, Retained, CostValid, RecordValid, ClaimedRelays, RecordFits, PutBody, Parse, Serialize, StoredCost,
      ThePlan;
    PlannedRecordIsValid(req, snap, w, b, ids, enc, PlanReady);
    PlanIdIs(req, snap, w, b, ids);
    var s := Store(epoch, [Record(StoredPlan(ThePlan(req, snap, w, b, ids), enc), PlanReady)], [], []);
    assert PersistedStore(s) == s;
    StoreRoundTrip(s);
  }

  lemma PlanIdIs(req: Request, snap: Snapshot, w: Weights, b: Bounds, ids: Ids)
    requires Succeeds(req, snap, w, b, ids)
    ensures ThePlan(req, snap, w, b, ids).id == ids.plan
  {
    hide Succeeds, ThePlan, BuiltOver, AllRetainable, Retained;
    SuccessIsBuilt(req, snap, w, b, ids);
  }
}
