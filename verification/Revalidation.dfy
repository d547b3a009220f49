/** src/revalidation.cpp. A rejection is `Some(label)`, the feasibility label the result carries; a plan
    that revalidates is `None`. */
module Revalidation {
  import opened Core
  import opened Model
  import opened FeasibilityFilter

  predicate Live(e: Endpoint, snap: Snapshot) {
    EndpointFresh(e, snap) && e.reachable && e.ready
  }

  function StageVerdict(st: Stage, snap: Snapshot, emap: map<u64, Endpoint>, lmap: map<u64, Link>)
    : Option<Feasibility>
  {
    if st.link !in lmap then Some(NeedsRevalidation)
    else if !lmap[st.link].healthy then Some(Feasible)
    else if lmap[st.link].congestion.hardLimitExceeded then Some(Feasible)
    else if st.source !in emap || st.destination !in emap then Some(Feasible)
    else if !EndpointFresh(emap[st.source], snap) || !EndpointFresh(emap[st.destination], snap) then
      Some(RejectStaleEndpoint)
    else if !Live(emap[st.source], snap) || !Live(emap[st.destination], snap) then Some(Feasible)
    else None
  }

  /** `revalidatePath`. */
  function PathVerdict(stages: seq<Stage>, i: nat, snap: Snapshot, emap: map<u64, Endpoint>, lmap: map<u64, Link>)
    : Option<Feasibility>
    requires i <= |stages|
    decreases |stages| - i
  {
    if i == |stages| then None
    else
      var v := StageVerdict(stages[i], snap, emap, lmap);
      if v.Some? then v else PathVerdict(stages, i + 1, snap, emap, lmap)
  }

  function PathsVerdict(paths: seq<Path<Double>>, i: nat, snap: Snapshot, emap: map<u64, Endpoint>,
                        lmap: map<u64, Link>)
    : Option<Feasibility>
    requires i <= |paths|
    decreases |paths| - i
  {
    if i == |paths| then None
    else
      var v := PathVerdict(paths[i].stages, 0, snap, emap, lmap);
      if v.Some? then v else PathsVerdict(paths, i + 1, snap, emap, lmap)
  }

  function EndpointsVerdict(egs: seq<(u64, u64)>, i: nat, snap: Snapshot, emap: map<u64, Endpoint>)
    : Option<Feasibility>
    requires i <= |egs|
    decreases |egs| - i
  {
    if i == |egs| then None
    else if egs[i].0 !in emap || emap[egs[i].0].generation != egs[i].1 then Some(NeedsRevalidation)
    else if !Live(emap[egs[i].0], snap) then Some(RejectStaleEndpoint)
    else EndpointsVerdict(egs, i + 1, snap, emap)
  }

  predicate LinkUnchanged(lg: (u64, u64), lmap: map<u64, Link>) {
    && lg.0 in lmap && lmap[lg.0].generation == lg.1
    && lmap[lg.0].healthy && !lmap[lg.0].congestion.hardLimitExceeded
  }

  /** The topology has not gone back, and each dynamic generation the plan binds is still current. */
  predicate GenerationsCurrent(bound: Generations, now: Generations) {
    && now.topology >= bound.topology
    && (bound.congestion == 0 || now.congestion == bound.congestion)
    && (bound.capacity == 0 || now.capacity == bound.capacity)
    && (bound.reservation == 0 || now.reservation == bound.reservation)
  }

  /** A staging resource is listed, and no listing of it is exhausted. */
  predicate ResourceOffered(caps: seq<(u64, Capacity)>, rid: u64) {
    && (exists i :: 0 <= i < |caps| && caps[i].0 == rid)
    && (forall i :: 0 <= i < |caps| && caps[i].0 == rid ==> caps[i].1.usable >= 1)
  }

  function PlanVerdict(plan: Plan<Double>, snap: Snapshot): Option<Feasibility> {
    var emap, lmap := EndpointMap(snap.endpoints), LinkMap(snap.links);
    if !GenerationsCurrent(plan.bound, snap.generations) then Some(NeedsRevalidation)
    else
      var ev := EndpointsVerdict(plan.endpointGenerations, 0, snap, emap);
      if ev.Some? then ev
      else if exists i :: 0 <= i < |plan.linkGenerations| && !LinkUnchanged(plan.linkGenerations[i], lmap) then
        Some(NeedsRevalidation)
      else
        var pv := PathsVerdict(plan.candidatePaths, 0, snap, emap, lmap);
        if pv.Some? then pv
        else if exists i :: 0 <= i < |plan.requiredStagingResources|
                            && !ResourceOffered(snap.resourceCapacities, plan.requiredStagingResources[i]) then
          Some(NeedsRevalidation)
        else None
  }

  // ----- the checks as a conjunction -----

  ghost predicate EndpointUnchanged(eg: (u64, u64), snap: Snapshot, emap: map<u64, Endpoint>) {
    eg.0 in emap && emap[eg.0].generation == eg.1 && Live(emap[eg.0], snap)
  }

  ghost predicate StageCurrent(st: Stage, snap: Snapshot, emap: map<u64, Endpoint>, lmap: map<u64, Link>) {
    && st.link in lmap && lmap[st.link].healthy && !lmap[st.link].congestion.hardLimitExceeded
    && st.source in emap && st.destination in emap
    && Live(emap[st.source], snap) && Live(emap[st.destination], snap)
  }

  ghost predicate PathCurrent(p: Path<Double>, snap: Snapshot, emap: map<u64, Endpoint>, lmap: map<u64, Link>) {
    forall i :: 0 <= i < |p.stages| ==> StageCurrent(p.stages[i], snap, emap, lmap)
  }

  /** Everything the plan is bound to still stands. */
  ghost predicate Revalidates(plan: Plan<Double>, snap: Snapshot) {
    var emap, lmap := EndpointMap(snap.endpoints), LinkMap(snap.links);
    && GenerationsCurrent(plan.bound, snap.generations)
    && (forall eg :: eg in plan.endpointGenerations ==> EndpointUnchanged(eg, snap, emap))
    && (forall lg :: lg in plan.linkGenerations ==> LinkUnchanged(lg, lmap))
    && (forall p :: p in plan.candidatePaths ==> PathCurrent(p, snap, emap, lmap))
    && (forall rid :: rid in plan.requiredStagingResources ==> ResourceOffered(snap.resourceCapacities, rid))
  }

  lemma {:induction false} PathVerdictDecides(p: Path<Double>, i: nat, snap: Snapshot, emap: map<u64, Endpoint>,
                                              lmap: map<u64, Link>)
    requires i <= |p.stages|
    ensures PathVerdict(p.stages, i, snap, emap, lmap).None?
       <==> forall j :: i <= j < |p.stages| ==> StageCurrent(p.stages[j], snap, emap, lmap)
    decreases |p.stages| - i
  {
    if i < |p.stages| { PathVerdictDecides(p, i + 1, snap, emap, lmap); }
  }

  lemma {:induction false} PathsVerdictDecides(paths: seq<Path<Double>>, i: nat, snap: Snapshot,
                                               emap: map<u64, Endpoint>, lmap: map<u64, Link>)
    requires i <= |paths|
    ensures PathsVerdict(paths, i, snap, emap, lmap).None?
       <==> forall j :: i <= j < |paths| ==> PathCurrent(paths[j], snap, emap, lmap)
    decreases |paths| - i
  {
    if i < |paths| {
      PathVerdictDecides(paths[i], 0, snap, emap, lmap);
      PathsVerdictDecides(paths, i + 1, snap, emap, lmap);
    }
  }

  lemma {:induction false} EndpointsVerdictDecides(egs: seq<(u64, u64)>, i: nat, snap: Snapshot,
                                                   emap: map<u64, Endpoint>)
    requires i <= |egs|
    ensures EndpointsVerdict(egs, i, snap, emap).None?
       <==> forall j :: i <= j < |egs| ==> EndpointUnchanged(egs[j], snap, emap)
    decreases |egs| - i
  {
    if i < |egs| { EndpointsVerdictDecides(egs, i + 1, snap, emap); }
  }

  /** The plan passes exactly when every bound fact still stands. */
  lemma PlanVerdictDecides(plan: Plan<Double>, snap: Snapshot)
    ensures PlanVerdict(plan, snap).None? <==> Revalidates(plan, snap)
  {
    hide EndpointMap, LinkMap, EndpointUnchanged, LinkUnchanged, PathCurrent, ResourceOffered;
    var emap, lmap := EndpointMap(snap.endpoints), LinkMap(snap.links);
    EndpointsVerdictDecides(plan.endpointGenerations, 0, snap, emap);
    PathsVerdictDecides(plan.candidatePaths, 0, snap, emap, lmap);
    assert (forall eg :: eg in plan.endpointGenerations ==> EndpointUnchanged(eg, snap, emap))
      <==> (forall j :: 0 <= j < |plan.endpointGenerations| ==>
              EndpointUnchanged(plan.endpointGenerations[j], snap, emap));
    assert (forall p :: p in plan.candidatePaths ==> PathCurrent(p, snap, emap, lmap))
      <==> (forall j :: 0 <= j < |plan.candidatePaths| ==> PathCurrent(plan.candidatePaths[j], snap, emap, lmap));
    assert (forall lg :: lg in plan.linkGenerations ==> LinkUnchanged(lg, lmap))
      <==> (forall j :: 0 <= j < |plan.linkGenerations| ==> LinkUnchanged(plan.linkGenerations[j], lmap));
    assert (forall r :: r in plan.requiredStagingResources ==> ResourceOffered(snap.resourceCapacities, r))
      <==> (forall j :: 0 <= j < |plan.requiredStagingResources|
                        ==> ResourceOffered(snap.resourceCapacities, plan.requiredStagingResources[j]));
  }

  // ----- the code -----

  method RevalidatePath(stages: seq<Stage>, snap: Snapshot, emap: map<u64, Endpoint>, lmap: map<u64, Link>)
    returns (v: Option<Feasibility>)
    ensures v == PathVerdict(stages, 0, snap, emap, lmap)
  {
    for i := 0 to |stages|
      invariant PathVerdict(stages, 0, snap, emap, lmap) == PathVerdict(stages, i, snap, emap, lmap)
    {
      var st := stages[i];
      if st.link !in lmap { return Some(NeedsRevalidation); }
      var link := lmap[st.link];
      if !link.healthy { return Some(Feasible); }
      if link.congestion.hardLimitExceeded { return Some(Feasible); }
      if st.source !in emap || st.destination !in emap { return Some(Feasible); }
      var s, d := emap[st.source], emap[st.destination];
      if !EndpointFresh(s, snap) || !EndpointFresh(d, snap) { return Some(RejectStaleEndpoint); }
      if !s.reachable || !s.ready || !d.reachable || !d.ready { return Some(Feasible); }
    }
    return None;
  }

  method ResourceCheck(caps: seq<(u64, Capacity)>, rid: u64) returns (ok: bool)
    ensures ok <==> ResourceOffered(caps, rid)
  {
    var found := false;
    for i := 0 to |caps|
      invariant found <==> exists j :: 0 <= j < i && caps[j].0 == rid
      invariant forall j :: 0 <= j < i && caps[j].0 == rid ==> caps[j].1.usable >= 1
    {
      if caps[i].0 == rid {
        found := true;
        if caps[i].1.usable < 1 { return false; }
      }
    }
    return found;
  }

  method RevalidatePlan(plan: Plan<Double>, snap: Snapshot) returns (v: Option<Feasibility>)
    ensures v == PlanVerdict(plan, snap)
  {
    var emap := BuildEndpointMap(snap.endpoints);
    var lmap := BuildLinkMap(snap.links);
    var now, bound := snap.generations, plan.bound;
    if now.topology < bound.topology { return Some(NeedsRevalidation); }
    if bound.congestion != 0 && now.congestion != bound.congestion { return Some(NeedsRevalidation); }
    if bound.capacity != 0 && now.capacity != bound.capacity { return Some(NeedsRevalidation); }
    if bound.reservation != 0 && now.reservation != bound.reservation { return Some(NeedsRevalidation); }
    var egs := plan.endpointGenerations;
    for i := 0 to |egs|
      invariant EndpointsVerdict(egs, 0, snap, emap) == EndpointsVerdict(egs, i, snap, emap)
    {
      if egs[i].0 !in emap { return Some(NeedsRevalidation); }
      var e := emap[egs[i].0];
      if e.generation != egs[i].1 { return Some(NeedsRevalidation); }
      if !EndpointFresh(e, snap) || !e.reachable || !e.ready { return Some(RejectStaleEndpoint); }
    }
    var lgs := plan.linkGenerations;
    for i := 0 to |lgs|
      invariant forall j :: 0 <= j < i ==> LinkUnchanged(lgs[j], lmap)
    {
      if lgs[i].0 !in lmap { return Some(NeedsRevalidation); }
      var l := lmap[lgs[i].0];
      if l.generation != lgs[i].1 { return Some(NeedsRevalidation); }
      if !l.healthy || l.congestion.hardLimitExceeded { return Some(NeedsRevalidation); }
    }
    for i := 0 to |plan.candidatePaths|
      invariant PathsVerdict(plan.candidatePaths, 0, snap, emap, lmap) ==
        PathsVerdict(plan.candidatePaths, i, snap, emap, lmap)
    {
      v := RevalidatePath(plan.candidatePaths[i].stages, snap, emap, lmap);
      if v.Some? { return; }
    }
    for i := 0 to |plan.requiredStagingResources|
      invariant forall j :: 0 <= j < i ==> ResourceOffered(snap.resourceCapacities, plan.requiredStagingResources[j])
    {
      var ok := ResourceCheck(snap.resourceCapacities, plan.requiredStagingResources[i]);
      if !ok { return Some(NeedsRevalidation); }
    }
    return None;
  }
}
