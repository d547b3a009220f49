/** The loops of `validateStore`. */
module StoreChecker {
  import opened Core
  import opened Model
  import opened Wire
  import opened StoreCodec
  import opened StoreValidity
  import opened Ieee

  method ValidateCost(c: CostSummary<u64>) returns (ok: bool)
    ensures ok == CostValid(c)
  {
    hide DoubleOf;
    if !DoubleOf(c.total).Finite() { return false; }
    for i := 0 to |c.components|
      invariant forall j :: 0 <= j < i ==> ComponentValid(c.components[j])
    {
      if !ComponentValid(c.components[i]) { return false; }
    }
    return true;
  }

  /** The endpoints the plan binds. */
  method BoundSet(plan: Plan<u64>) returns (bound: set<u64>)
    ensures forall id: u64 :: id in bound <==> BindsEndpoint(plan, id)
  {
    bound := {};
    for i := 0 to |plan.endpointGenerations|
      invariant forall id: u64 :: id in bound <==> exists j :: 0 <= j < i && plan.endpointGenerations[j].0 == id
    {
      bound := bound + {plan.endpointGenerations[i].0};
    }
  }

  method ValidateChain(p: Path<u64>) returns (v: Option<Code>)
    ensures v == ChainVerdict(p, 0, p.source, {})
  {
    var prev := p.source;
    var seen: set<u64> := {};
    for i := 0 to |p.stages|
      invariant ChainVerdict(p, 0, p.source, {}) == ChainVerdict(p, i, prev, seen)
    {
      var s := p.stages[i];
      if s.source != prev { return Some(InvalidStageOrder); }
      if s.source == s.destination { return Some(CycleForbidden); }
      if s.destination in seen { return Some(CycleForbidden); }
      seen := seen + {s.destination};
      prev := s.destination;
    }
    return if p.stages != [] && prev != p.destination then Some(PathMissingEndpoint) else None;
  }

  method ValidatePath(plan: Plan<u64>, p: Path<u64>) returns (v: Option<Code>)
    ensures v == PathVerdict(plan, p)
  {
    hide ChainVerdict, BindsEndpoint;
    for i := 0 to |p.stages|
      invariant forall j :: 0 <= j < i ==> Carries(p, j)
    {
      if p.stages[i].payload != p.totalPayload {
        assert !Carries(p, i);
        return Some(PayloadMismatch);
      }
    }
    v := ValidateChain(p);
    if v.Some? { return; }
    var bound := BoundSet(plan);
    for i := 0 to |p.stages|
      invariant forall j :: 0 <= j < i ==> BindsStage(plan, p.stages[j])
    {
      if p.stages[i].source !in bound || p.stages[i].destination !in bound {
        assert !BindsStage(plan, p.stages[i]);
        return Some(PathMissingEndpoint);
      }
    }
    return None;
  }

  method ValidateRecord(rec: Record) returns (v: Option<Code>)
    ensures v == RecordVerdict(rec)
  {
    hide PathVerdict, CostValid;
    var ok := ValidateCost(rec.plan.cost);
    if !ok { return Some(NanInfCost); }
    var foundPrimary := false;
    var pathIds: set<u64> := {};
    var paths := rec.plan.candidatePaths;
    for i := 0 to |paths|
      invariant foundPrimary <==> exists j :: 0 <= j < i && paths[j].id == rec.plan.primaryPath
      invariant PathsVerdict(rec.plan, 0, {}) == PathsVerdict(rec.plan, i, pathIds)
    {
      if paths[i].id == rec.plan.primaryPath { foundPrimary := true; }
      if paths[i].id in pathIds { return Some(DuplicateId); }
      v := ValidatePath(rec.plan, paths[i]);
      if v.Some? { return; }
      pathIds := pathIds + {paths[i].id};
    }
    if !foundPrimary && rec.plan.primaryPath != 0 { return Some(SelectedPlanNotInCandidateSet); }
    if rec.state.Committed? || rec.state.AwaitingExecution? || rec.state.Active? {
      if rec.plan.requiredResourceClaims == [] { return Some(CommittedPlanNoEvidence); }
    }
    return None;
  }

  /** `validateStore`: the first fault, or none exactly when the store is valid. */
  method ValidateStore(s: Store) returns (v: Option<Code>)
    ensures v == StoreVerdict(s) && (v.None? <==> StoreValid(s))
  {
    hide RecordVerdict, StoreValid;
    StoreVerdictDecides(s);
    var planIds: set<u64> := {};
    for i := 0 to |s.plans|
      invariant RecordsVerdict(s.plans, 0, {}) == RecordsVerdict(s.plans, i, planIds)
    {
      if s.plans[i].plan.id in planIds { return Some(DuplicateId); }
      planIds := planIds + {s.plans[i].plan.id};
      v := ValidateRecord(s.plans[i]);
      if v.Some? { return; }
    }
    var reqIds: set<u64> := {};
    for i := 0 to |s.requests|
      invariant forall id: u64 :: id in reqIds <==> exists j :: 0 <= j < i && s.requests[j].id == id
      invariant DistinctRequests(s.requests[..i])
    {
      if s.requests[i].id in reqIds {
        var j :| 0 <= j < i && s.requests[j].id == s.requests[i].id;
        assert !DistinctRequests(s.requests);
        return Some(DuplicateId);
      }
      reqIds := reqIds + {s.requests[i].id};
    }
    assert s.requests[..|s.requests|] == s.requests;
    return None;
  }
}
