/** Revalidation in the terms of the plan, the endpoints and the links alone. */
module RevalidationTerms {
  import opened Core
  import opened Model
  import opened FeasibilityFilter
  import opened FilterTerms
  import opened Revalidation

  /** The generations a plan was made on: the topology has not gone back, and capacity, reservations and
      congestion, where the plan had any, have not moved at all. */
  ghost predicate SameGround(bound: Generations, now: Generations) {
    && bound.topology <= now.topology
    && (bound.capacity != 0 ==> bound.capacity == now.capacity)
    && (bound.reservation != 0 ==> bound.reservation == now.reservation)
    && (bound.congestion != 0 ==> bound.congestion == now.congestion)
  }

  ghost predicate Standing(e: Endpoint, snap: Snapshot) { StampsStand(e, snap) && e.reachable && e.ready }

  /** The stage's link is there, healthy and not congested to its limit, and both its ends stand. */
  ghost predicate StageStands(st: Stage, snap: Snapshot, emap: map<u64, Endpoint>, lmap: map<u64, Link>) {
    && st.link in lmap && lmap[st.link].healthy && !lmap[st.link].congestion.hardLimitExceeded
    && st.source in emap && Standing(emap[st.source], snap)
    && st.destination in emap && Standing(emap[st.destination], snap)
  }

  /** The resource is listed, and every listing of it has something left. */
  ghost predicate Offered(caps: seq<(u64, Capacity)>, resource: u64) {
    (exists c :: c in caps && c.0 == resource) && forall c :: c in caps && c.0 == resource ==> c.1.usable > 0
  }

  lemma OfferedIff(caps: seq<(u64, Capacity)>, resource: u64)
    ensures ResourceOffered(caps, resource) <==> Offered(caps, resource)
  {
    if ResourceOffered(caps, resource) {
      var i :| 0 <= i < |caps| && caps[i].0 == resource;
      assert caps[i] in caps;
    }
    if Offered(caps, resource) {
      var c :| c in caps && c.0 == resource;
      var i :| 0 <= i < |caps| && caps[i] == c;
      forall k | 0 <= k < |caps| && caps[k].0 == resource ensures caps[k].1.usable >= 1 { assert caps[k] in caps; }
    }
  }

  lemma StageIff(st: Stage, snap: Snapshot, emap: map<u64, Endpoint>, lmap: map<u64, Link>)
    ensures StageCurrent(st, snap, emap, lmap) <==> StageStands(st, snap, emap, lmap)
  {
  }

  ghost predicate PathStands(p: Path<Double>, snap: Snapshot, emap: map<u64, Endpoint>, lmap: map<u64, Link>) {
    forall st :: st in p.stages ==> StageStands(st, snap, emap, lmap)
  }

  lemma PathIff(p: Path<Double>, snap: Snapshot, emap: map<u64, Endpoint>, lmap: map<u64, Link>)
    ensures PathCurrent(p, snap, emap, lmap) <==> PathStands(p, snap, emap, lmap)
  {
    hide StageCurrent, StageStands;
    forall i | 0 <= i < |p.stages|
      ensures StageCurrent(p.stages[i], snap, emap, lmap) <==> StageStands(p.stages[i], snap, emap, lmap)
    {
      StageIff(p.stages[i], snap, emap, lmap);
    }
    if PathStands(p, snap, emap, lmap) {
      forall i | 0 <= i < |p.stages| ensures StageStands(p.stages[i], snap, emap, lmap) {
        assert p.stages[i] in p.stages;
      }
    }
  }

  lemma EndpointIff(eg: (u64, u64), snap: Snapshot, emap: map<u64, Endpoint>)
    ensures EndpointUnchanged(eg, snap, emap) <==>
      eg.0 in emap && emap[eg.0].generation == eg.1 && Standing(emap[eg.0], snap)
  {
  }

  /** A plan revalidates exactly when it stands on the same ground, every endpoint and every link it is bound to is
      there in the same generation and usable, every stage of every path it retains stands, and every staging
      resource it needs is offered. */
  lemma RevalidatesIff(plan: Plan<Double>, snap: Snapshot)
    ensures var emap, lmap := EndpointMap(snap.endpoints), LinkMap(snap.links);
      PlanVerdict(plan, snap).None? <==>
      && SameGround(plan.bound, snap.generations)
      && (forall eg :: eg in plan.endpointGenerations ==>
            eg.0 in emap && emap[eg.0].generation == eg.1 && Standing(emap[eg.0], snap))
      && (forall lg :: lg in plan.linkGenerations ==>
            && lg.0 in lmap && lmap[lg.0].generation == lg.1
            && lmap[lg.0].healthy && !lmap[lg.0].congestion.hardLimitExceeded)
      && (forall p :: p in plan.candidatePaths ==> PathStands(p, snap, emap, lmap))
      && (forall rid :: rid in plan.requiredStagingResources ==> Offered(snap.resourceCapacities, rid))
  {
    hide EndpointMap, LinkMap, EndpointUnchanged, PathCurrent, ResourceOffered, PlanVerdict, Standing, PathStands,
      Offered;
    var emap, lmap := EndpointMap(snap.endpoints), LinkMap(snap.links);
    PlanVerdictDecides(plan, snap);
    forall eg ensures EndpointUnchanged(eg, snap, emap) <==>
                      eg.0 in emap && emap[eg.0].generation == eg.1 && Standing(emap[eg.0], snap) {
      EndpointIff(eg, snap, emap);
    }
    forall p ensures PathCurrent(p, snap, emap, lmap) <==> PathStands(p, snap, emap, lmap) {
      PathIff(p, snap, emap, lmap);
    }
    forall rid ensures ResourceOffered(snap.resourceCapacities, rid) <==> Offered(snap.resourceCapacities, rid) {
      OfferedIff(snap.resourceCapacities, rid);
    }
  }

  /** What a rejection says of the first stage that does not stand: NEEDS_REVALIDATION if its link is gone,
      REJECT_STALE_ENDPOINT if an end's stamps do not stand, and the default label otherwise. */
  lemma StageLabels(st: Stage, snap: Snapshot, emap: map<u64, Endpoint>, lmap: map<u64, Link>)
    ensures var v := StageVerdict(st, snap, emap, lmap);
      && (v.None? <==> StageStands(st, snap, emap, lmap))
      && (v == Some(NeedsRevalidation) <==> st.link !in lmap)
      && (v == Some(RejectStaleEndpoint) <==>
            && st.link in lmap && lmap[st.link].healthy && !lmap[st.link].congestion.hardLimitExceeded
            && st.source in emap && st.destination in emap
            && !(StampsStand(emap[st.source], snap) && StampsStand(emap[st.destination], snap)))
      && (v.Some? ==> v.value in [NeedsRevalidation, RejectStaleEndpoint, Feasible])
  {
  }

  // ----- what a rejection of the plan says -----

  ghost predicate Same(eg: (u64, u64), emap: map<u64, Endpoint>) {
    eg.0 in emap && emap[eg.0].generation == eg.1
  }

  lemma {:induction false} FirstBadEndpoint(egs: seq<(u64, u64)>, i: nat, k: nat, snap: Snapshot,
                                            emap: map<u64, Endpoint>)
    requires i <= k < |egs|
    requires forall j :: i <= j < k ==> Same(egs[j], emap) && Standing(emap[egs[j].0], snap)
    requires !Same(egs[k], emap) || !Standing(emap[egs[k].0], snap)
    ensures EndpointsVerdict(egs, i, snap, emap) ==
      Some(if Same(egs[k], emap) then RejectStaleEndpoint else NeedsRevalidation)
    decreases k - i
  {
    hide StampsStand, EndpointFresh;
    StampsIff(snap);
    if i < k { FirstBadEndpoint(egs, i + 1, k, snap, emap); }
  }

  lemma StampsIff(snap: Snapshot)
    ensures forall e :: EndpointFresh(e, snap) <==> StampsStand(e, snap)
  {
  }

  /** A plan on other ground, or with a missing link, or lacking a resource, NEEDS_REVALIDATION; so does one whose
      first bad endpoint is gone or has moved on, while one that merely does not stand makes it a
      REJECT_STALE_ENDPOINT. */
  lemma PlanLabels(plan: Plan<Double>, snap: Snapshot, k: nat)
    ensures !SameGround(plan.bound, snap.generations) ==> PlanVerdict(plan, snap) == Some(NeedsRevalidation)
    ensures var emap, egs := EndpointMap(snap.endpoints), plan.endpointGenerations;
      && SameGround(plan.bound, snap.generations) && k < |egs|
      && (forall j :: 0 <= j < k ==> Same(egs[j], emap) && Standing(emap[egs[j].0], snap))
      && (!Same(egs[k], emap) || !Standing(emap[egs[k].0], snap)) ==>
      PlanVerdict(plan, snap) == Some(if Same(egs[k], emap) then RejectStaleEndpoint else NeedsRevalidation)
  {
    hide EndpointMap, LinkMap, EndpointsVerdict, PathsVerdict, Standing;
    var emap, egs := EndpointMap(snap.endpoints), plan.endpointGenerations;
    if && SameGround(plan.bound, snap.generations) && k < |egs|
       && (forall j :: 0 <= j < k ==> Same(egs[j], emap) && Standing(emap[egs[j].0], snap))
       && (!Same(egs[k], emap) || !Standing(emap[egs[k].0], snap)) {
      FirstBadEndpoint(egs, 0, k, snap, emap);
    }
  }
}
