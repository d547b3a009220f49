/** The hard filter of src/feasibility.cpp: the verdict of each check in the order the code makes
    them, and the plain conjunction of constraints that verdict decides. */
module FeasibilityFilter {
  import opened Core
  import opened Model

  predicate BootCurrent(owner: u64, boot: u64, current: map<u64, u64>) {
    boot == 0 || (owner != 0 && owner in current && current[owner] == boot)
  }

  /** `endpointFresh`: the publishing incarnations, where stamped, are the current ones. */
  predicate EndpointFresh(e: Endpoint, snap: Snapshot) {
    && BootCurrent(e.worker, e.workerBoot, snap.workerBoots)
    && BootCurrent(e.source, e.sourceBoot, snap.sourceBoots)
  }

  /** `transportAllowed`. */
  predicate TransportAllowed(req: Request, t: Transport) {
    t !in req.forbidden && (req.allowed == {} || t in req.allowed)
  }

  /** A relay that stores rather than forwards. */
  predicate StagingKind(k: EndpointKind) {
    !k.GpuDevice? && !k.Nic? && !k.UnknownKind?
  }

  /** Whether the request lets the payload rest at a relay of this kind. */
  predicate StagingPermitted(req: Request, k: EndpointKind) {
    StagingKind(k) ==> if k.Storage? then req.allowStorageStaging else req.allowHostStaging
  }

  function Sum(rs: seq<Reservation>, resource: u64): nat {
    if rs == [] then 0
    else
      Sum(rs[..|rs| - 1], resource)
      + if rs[|rs| - 1].resource == resource then rs[|rs| - 1].reserved else 0
  }

  /** The bandwidth reserved on a link's resource; the accumulator is 64 bits wide. */
  function ReservedOn(rs: seq<Reservation>, resource: u64): u64 {
    Sum(rs, resource) % TWO64
  }

  function EndpointVerdict(e: Endpoint, t: Transport, snap: Snapshot): Feasibility {
    if !EndpointFresh(e, snap) then RejectStaleEndpoint
    else if !e.reachable || !e.ready then RejectEndpoint
    else if e.kind.UnknownKind? then RejectEndpoint
    else if t !in e.transports then RejectCapability
    else Feasible
  }

  function LinkVerdict(req: Request, snap: Snapshot, link: Link, hop: Hop): Feasibility {
    if hop.from != link.source || hop.to != link.destination then RejectDirection
    else if !link.directed then RejectDirection
    else if !TransportAllowed(req, link.transport) then RejectTransport
    else if link.capacity == 0 then RejectCapacity
    else if link.transport.UnknownTransport? then RejectTransport
    else if !link.healthy then RejectHealth
    else if link.congestion.hardLimitExceeded then RejectCongestionHardLimit
    else if req.requiredFailureDomain != [] && link.failureDomain != req.requiredFailureDomain then
      RejectFailureDomain
    else if ReservedOn(snap.reservations, link.id) >= link.capacity then RejectReservation
    else Feasible
  }

  function HopVerdict(req: Request, snap: Snapshot, emap: map<u64, Endpoint>, lmap: map<u64, Link>, hop: Hop)
    : Feasibility
  {
    if hop.link !in lmap then RejectTopology
    else
      var link := lmap[hop.link];
      var v := LinkVerdict(req, snap, link, hop);
      if !v.Feasible? then v
      else if hop.from !in emap || hop.to !in emap then RejectEndpoint
      else
        var s := EndpointVerdict(emap[hop.from], link.transport, snap);
        if !s.Feasible? then s else EndpointVerdict(emap[hop.to], link.transport, snap)
  }

  function HopsVerdict(req: Request, snap: Snapshot, emap: map<u64, Endpoint>, lmap: map<u64, Link>,
                       hops: seq<Hop>, i: nat): Feasibility
    requires i <= |hops|
    decreases |hops| - i
  {
    if i == |hops| then Feasible
    else
      var v := HopVerdict(req, snap, emap, lmap, hops[i]);
      if !v.Feasible? then v else HopsVerdict(req, snap, emap, lmap, hops, i + 1)
  }

  predicate RelayPermitted(req: Request, emap: map<u64, Endpoint>, relay: u64) {
    relay in emap && StagingPermitted(req, emap[relay].kind)
  }

  predicate RelaysPermitted(req: Request, emap: map<u64, Endpoint>, hops: seq<Hop>) {
    forall i :: 0 <= i < |hops| - 1 ==> RelayPermitted(req, emap, hops[i].to)
  }

  predicate PolicyCurrent(req: Request, snap: Snapshot) {
    req.policyGeneration == 0 || snap.policyGeneration >= req.policyGeneration
  }

  /** The verdict on a candidate: the first check that fails, in the order of the code. */
  function VerdictOver(req: Request, snap: Snapshot, emap: map<u64, Endpoint>, lmap: map<u64, Link>,
                       hops: seq<Hop>, b: Bounds): Feasibility
  {
    if hops == [] then InsufficientEvidence
    else if |hops| > b.maxPathDepth || |hops| > req.maxStages || |hops| > req.maxHops then RejectStageLimit
    else if |hops| > 1 && ((!req.allowStaging && !req.allowHostStaging) || !req.allowRelay) then RejectEndpoint
    else if !RelaysPermitted(req, emap, hops) then RejectEndpoint
    else
      var v := HopsVerdict(req, snap, emap, lmap, hops, 0);
      if !v.Feasible? then v
      else if !PolicyCurrent(req, snap) then RejectPolicy
      else Feasible
  }

  function Verdict(req: Request, snap: Snapshot, cand: CandidatePath, b: Bounds): Feasibility {
    VerdictOver(req, snap, EndpointMap(snap.endpoints), LinkMap(snap.links), cand.hops, b)
  }

  // ----- the filter as a conjunction -----

  ghost predicate EndpointUsable(e: Endpoint, t: Transport, snap: Snapshot) {
    EndpointFresh(e, snap) && e.reachable && e.ready && !e.kind.UnknownKind? && t in e.transports
  }

  ghost predicate HopUsable(req: Request, snap: Snapshot, emap: map<u64, Endpoint>, lmap: map<u64, Link>,
                            hop: Hop) {
    && hop.link in lmap && hop.from in emap && hop.to in emap
    && var link := lmap[hop.link];
    && hop.from == link.source && hop.to == link.destination && link.directed
    && TransportAllowed(req, link.transport) && !link.transport.UnknownTransport?
    && ReservedOn(snap.reservations, link.id) < link.capacity
    && link.healthy && !link.congestion.hardLimitExceeded
    && (req.requiredFailureDomain == [] || link.failureDomain == req.requiredFailureDomain)
    && EndpointUsable(emap[hop.from], link.transport, snap)
    && EndpointUsable(emap[hop.to], link.transport, snap)
  }

  /** Every hard constraint holds. */
  ghost predicate Passes(req: Request, snap: Snapshot, emap: map<u64, Endpoint>, lmap: map<u64, Link>,
                         hops: seq<Hop>, b: Bounds) {
    && 0 < |hops| <= b.maxPathDepth && |hops| <= req.maxStages && |hops| <= req.maxHops
    && (|hops| > 1 ==> (req.allowStaging || req.allowHostStaging) && req.allowRelay)
    && RelaysPermitted(req, emap, hops)
    && (forall i :: 0 <= i < |hops| ==> HopUsable(req, snap, emap, lmap, hops[i]))
    && PolicyCurrent(req, snap)
  }

  lemma HopVerdictDecides(req: Request, snap: Snapshot, emap: map<u64, Endpoint>, lmap: map<u64, Link>, hop: Hop)
    ensures HopVerdict(req, snap, emap, lmap, hop).Feasible? <==> HopUsable(req, snap, emap, lmap, hop)
  {
  }

  lemma {:induction false} HopsVerdictDecides(req: Request, snap: Snapshot, emap: map<u64, Endpoint>,
                                              lmap: map<u64, Link>, hops: seq<Hop>, i: nat)
    requires i <= |hops|
    ensures HopsVerdict(req, snap, emap, lmap, hops, i).Feasible?
       <==> forall j :: i <= j < |hops| ==> HopUsable(req, snap, emap, lmap, hops[j])
    decreases |hops| - i
  {
    if i < |hops| {
      HopVerdictDecides(req, snap, emap, lmap, hops[i]);
      HopsVerdictDecides(req, snap, emap, lmap, hops, i + 1);
    }
  }

  /** A candidate is found feasible exactly when every hard constraint holds of it. */
  lemma VerdictDecides(req: Request, snap: Snapshot, emap: map<u64, Endpoint>, lmap: map<u64, Link>,
                       hops: seq<Hop>, b: Bounds)
    ensures VerdictOver(req, snap, emap, lmap, hops, b).Feasible? <==> Passes(req, snap, emap, lmap, hops, b)
  {
    HopsVerdictDecides(req, snap, emap, lmap, hops, 0);
  }

  // ----- the code -----

  method SumReservations(rs: seq<Reservation>, resource: u64) returns (reserved: u64)
    ensures reserved == ReservedOn(rs, resource)
  {
    reserved := 0;
    for i := 0 to |rs|
      invariant reserved == ReservedOn(rs[..i], resource)
    {
      assert rs[..i + 1][..i] == rs[..i];
      if rs[i].resource == resource {
        ghost var before := Sum(rs[..i], resource);
        assert (before % TWO64 + rs[i].reserved) % TWO64 == (before + rs[i].reserved) % TWO64;
        reserved := Add64(reserved, rs[i].reserved);
      }
    }
    assert rs[..|rs|] == rs;
  }

  method EvaluateHop(req: Request, snap: Snapshot, emap: map<u64, Endpoint>, lmap: map<u64, Link>, hop: Hop)
    returns (v: Feasibility)
    ensures v == HopVerdict(req, snap, emap, lmap, hop)
  {
    if hop.link !in lmap { return RejectTopology; }
    var link := lmap[hop.link];
    if hop.from != link.source || hop.to != link.destination { return RejectDirection; }
    if !link.directed { return RejectDirection; }
    if !TransportAllowed(req, link.transport) { return RejectTransport; }
    if link.capacity == 0 { return RejectCapacity; }
    if link.transport.UnknownTransport? { return RejectTransport; }
    if !link.healthy { return RejectHealth; }
    if link.congestion.hardLimitExceeded { return RejectCongestionHardLimit; }
    if req.requiredFailureDomain != [] && link.failureDomain != req.requiredFailureDomain {
      return RejectFailureDomain;
    }
    var reserved := SumReservations(snap.reservations, link.id);
    if reserved >= link.capacity { return RejectReservation; }
    if hop.from !in emap || hop.to !in emap { return RejectEndpoint; }
    for k := 0 to 2
      invariant k > 0 ==> EndpointVerdict(emap[hop.from], link.transport, snap).Feasible?
      invariant k > 1 ==> EndpointVerdict(emap[hop.to], link.transport, snap).Feasible?
    {
      var e := if k == 0 then emap[hop.from] else emap[hop.to];
      if !EndpointFresh(e, snap) { return RejectStaleEndpoint; }
      if !e.reachable || !e.ready { return RejectEndpoint; }
      if e.kind.UnknownKind? { return RejectEndpoint; }
      if link.transport !in e.transports { return RejectCapability; }
    }
    return Feasible;
  }

  method EvaluateRelays(req: Request, emap: map<u64, Endpoint>, hops: seq<Hop>) returns (ok: bool)
    ensures ok == RelaysPermitted(req, emap, hops)
  {
    if |hops| > 1 {
      for i := 0 to |hops| - 1
        invariant forall j :: 0 <= j < i ==> RelayPermitted(req, emap, hops[j].to)
      {
        if hops[i].to !in emap { return false; }
        var kind := emap[hops[i].to].kind;
        if StagingKind(kind) {
          if kind.Storage? {
            if !req.allowStorageStaging { return false; }
          } else if !req.allowHostStaging {
            return false;
          }
        }
      }
    }
    return true;
  }

  method EvaluateCandidateFeasibility(req: Request, snap: Snapshot, cand: CandidatePath, b: Bounds)
    returns (v: Feasibility)
    ensures v == Verdict(req, snap, cand, b)
  {
    hide RelaysPermitted, HopVerdict, EndpointMap, LinkMap;
    var emap := BuildEndpointMap(snap.endpoints);
    var lmap := BuildLinkMap(snap.links);
    var hops := cand.hops;
    if hops == [] { return InsufficientEvidence; }
    if |hops| > b.maxPathDepth { return RejectStageLimit; }
    if |hops| > req.maxStages { return RejectStageLimit; }
    if |hops| > req.maxHops { return RejectStageLimit; }
    if |hops| > 1 {
      if !req.allowStaging && !req.allowHostStaging { return RejectEndpoint; }
      if !req.allowRelay { return RejectEndpoint; }
    }
    var permitted := EvaluateRelays(req, emap, hops);
    if !permitted { return RejectEndpoint; }
    for i := 0 to |hops|
      invariant HopsVerdict(req, snap, emap, lmap, hops, 0) == HopsVerdict(req, snap, emap, lmap, hops, i)
    {
      v := EvaluateHop(req, snap, emap, lmap, hops[i]);
      if !v.Feasible? { return; }
    }
    if req.policyGeneration != 0 && snap.policyGeneration < req.policyGeneration { return RejectPolicy; }
    return Feasible;
  }
}
