/** The filter in the terms of the request, the endpoints and the links alone: what a feasible candidate meets,
    and what each label says of a rejected one. */
module FilterTerms {
  import opened Core
  import opened Model
  import opened FeasibilityFilter

  /** The worker and the source the endpoint is stamped with are registered under those very boots. */
  ghost predicate StampsStand(e: Endpoint, snap: Snapshot) {
    && (e.workerBoot != 0 ==>
          e.worker != 0 && e.worker in snap.workerBoots && snap.workerBoots[e.worker] == e.workerBoot)
    && (e.sourceBoot != 0 ==>
          e.source != 0 && e.source in snap.sourceBoots && snap.sourceBoots[e.source] == e.sourceBoot)
  }

  /** The endpoint can send or take data over this transport. */
  ghost predicate CanServe(e: Endpoint, t: Transport, snap: Snapshot) {
    StampsStand(e, snap) && e.reachable && e.ready && e.kind != UnknownKind && t in e.transports
  }

  /** The request lets data travel by this transport. */
  ghost predicate Permits(req: Request, t: Transport) {
    t !in req.forbidden && (req.allowed != {} ==> t in req.allowed)
  }

  /** The hop follows the link, which is usable and not used up, between two endpoints that can serve it. */
  ghost predicate Clear(req: Request, snap: Snapshot, emap: map<u64, Endpoint>, lmap: map<u64, Link>, h: Hop) {
    && h.link in lmap && h.from in emap && h.to in emap
    && var l := lmap[h.link];
    && h.from == l.source && h.to == l.destination && l.directed
    && Permits(req, l.transport) && l.transport != UnknownTransport
    && l.healthy && !l.congestion.hardLimitExceeded
    && (req.requiredFailureDomain != [] ==> l.failureDomain == req.requiredFailureDomain)
    && ReservedOn(snap.reservations, l.id) < l.capacity
    && CanServe(emap[h.from], l.transport, snap) && CanServe(emap[h.to], l.transport, snap)
  }

  /** The request lets the payload rest at this relay. */
  ghost predicate MayRest(req: Request, emap: map<u64, Endpoint>, relay: u64) {
    && relay in emap
    && (emap[relay].kind == EndpointKind.Storage ==> req.allowStorageStaging)
    && (emap[relay].kind in HOST_KINDS ==> req.allowHostStaging)
  }

  ghost predicate MayRelay(req: Request, emap: map<u64, Endpoint>, hops: seq<Hop>) {
    && (|hops| > 1 ==> req.allowRelay && (req.allowStaging || req.allowHostStaging))
    && forall i :: 0 <= i < |hops| - 1 ==> MayRest(req, emap, hops[i].to)
  }

  /** The bandwidth reserved on a resource adds up reservation by reservation, in 64 bits. */
  lemma ReservationsAddUp(rs: seq<Reservation>, r: Reservation, resource: u64)
    ensures ReservedOn([], resource) == 0
    ensures ReservedOn(rs + [r], resource) ==
      if r.resource == resource then Add64(ReservedOn(rs, resource), r.reserved) else ReservedOn(rs, resource)
  {
    assert (rs + [r])[..|rs|] == rs;
    var before := Sum(rs, resource);
    assert (before % TWO64 + r.reserved) % TWO64 == (before + r.reserved) % TWO64;
  }

  lemma ServesIff(e: Endpoint, t: Transport, snap: Snapshot)
    ensures EndpointUsable(e, t, snap) <==> CanServe(e, t, snap)
  {
  }

  lemma ClearIff(req: Request, snap: Snapshot, emap: map<u64, Endpoint>, lmap: map<u64, Link>, h: Hop)
    ensures HopUsable(req, snap, emap, lmap, h) <==> Clear(req, snap, emap, lmap, h)
  {
    hide EndpointUsable, CanServe, ReservedOn;
    if h.link in lmap && h.from in emap && h.to in emap {
      ServesIff(emap[h.from], lmap[h.link].transport, snap);
      ServesIff(emap[h.to], lmap[h.link].transport, snap);
    }
  }

  lemma RestIff(req: Request, emap: map<u64, Endpoint>, relay: u64)
    ensures RelayPermitted(req, emap, relay) <==> MayRest(req, emap, relay)
  {
    if relay in emap { HostKindsAre(emap[relay].kind); }
  }

  /** A candidate is feasible exactly when it is neither empty nor too long, the payload may rest where it has
      to, every hop is clear, and the snapshot's policy is no older than the request's. */
  lemma FeasibleIff(req: Request, snap: Snapshot, c: CandidatePath, b: Bounds)
    ensures var emap, lmap := EndpointMap(snap.endpoints), LinkMap(snap.links);
      Verdict(req, snap, c, b).Feasible? <==>
      && 0 < |c.hops| <= b.maxPathDepth && |c.hops| <= req.maxStages && |c.hops| <= req.maxHops
      && MayRelay(req, emap, c.hops)
      && (forall i :: 0 <= i < |c.hops| ==> Clear(req, snap, emap, lmap, c.hops[i]))
      && (req.policyGeneration != 0 ==> req.policyGeneration <= snap.policyGeneration)
  {
    hide EndpointMap, LinkMap, HopUsable, Clear, RelayPermitted, MayRest;
    var emap, lmap := EndpointMap(snap.endpoints), LinkMap(snap.links);
    VerdictDecides(req, snap, emap, lmap, c.hops, b);
    forall i | 0 <= i < |c.hops|
      ensures HopUsable(req, snap, emap, lmap, c.hops[i]) <==> Clear(req, snap, emap, lmap, c.hops[i])
      ensures RelayPermitted(req, emap, c.hops[i].to) <==> MayRest(req, emap, c.hops[i].to)
    {
      ClearIff(req, snap, emap, lmap, c.hops[i]);
      RestIff(req, emap, c.hops[i].to);
    }
  }

  // ----- the labels -----

  ghost predicate Aligned(l: Link, h: Hop) { h.from == l.source && h.to == l.destination && l.directed }

  /** What each label of a rejected link says. */
  lemma LinkLabels(req: Request, snap: Snapshot, l: Link, h: Hop)
    ensures var v := LinkVerdict(req, snap, l, h);
      && (v == RejectDirection <==> !Aligned(l, h))
      && (v == RejectTransport <==>
            Aligned(l, h) && (!Permits(req, l.transport) || (l.capacity > 0 && l.transport == UnknownTransport)))
      && (v == RejectCapacity <==> Aligned(l, h) && Permits(req, l.transport) && l.capacity == 0)
      && var sound := Aligned(l, h) && Permits(req, l.transport) && l.capacity > 0 && l.transport != UnknownTransport;
      && (v == RejectHealth <==> sound && !l.healthy)
      && (v == RejectCongestionHardLimit <==> sound && l.healthy && l.congestion.hardLimitExceeded)
      && var fit := sound && l.healthy && !l.congestion.hardLimitExceeded;
      && (v == RejectFailureDomain <==>
            fit && req.requiredFailureDomain != [] && l.failureDomain != req.requiredFailureDomain)
      && (v == RejectReservation <==>
            && fit && (req.requiredFailureDomain != [] ==> l.failureDomain == req.requiredFailureDomain)
            && ReservedOn(snap.reservations, l.id) >= l.capacity)
      && v in [Feasible, RejectDirection, RejectTransport, RejectCapacity, RejectHealth, RejectCongestionHardLimit,
               RejectFailureDomain, RejectReservation]
  {
    hide ReservedOn;
  }

  /** What each label of a rejected end says. */
  lemma EndpointLabels(e: Endpoint, t: Transport, snap: Snapshot)
    ensures var v := EndpointVerdict(e, t, snap);
      && (v == RejectStaleEndpoint <==> !StampsStand(e, snap))
      && (v == RejectEndpoint <==> StampsStand(e, snap) && (!e.reachable || !e.ready || e.kind == UnknownKind))
      && (v == RejectCapability <==>
            StampsStand(e, snap) && e.reachable && e.ready && e.kind != UnknownKind && t !in e.transports)
      && v in [Feasible, RejectStaleEndpoint, RejectEndpoint, RejectCapability]
  {
  }

  /** A hop carries the label of its link; if the link is usable, that of a missing end; else that of the end
      it leaves, or of the one it enters. */
  lemma HopLabels(req: Request, snap: Snapshot, emap: map<u64, Endpoint>, lmap: map<u64, Link>, h: Hop)
    ensures var v := HopVerdict(req, snap, emap, lmap, h);
      && (v == RejectTopology <==> h.link !in lmap)
      && (h.link in lmap ==>
            var l := lmap[h.link];
            var link := LinkVerdict(req, snap, l, h);
            && (link != Feasible ==> v == link)
            && (link == Feasible && (h.from !in emap || h.to !in emap) ==> v == RejectEndpoint)
            && (link == Feasible && h.from in emap && h.to in emap ==>
                  var from := EndpointVerdict(emap[h.from], l.transport, snap);
                  v == if from != Feasible then from else EndpointVerdict(emap[h.to], l.transport, snap)))
  {
    if h.link in lmap {
      LinkLabels(req, snap, lmap[h.link], h);
      hide LinkVerdict, EndpointVerdict;
      if h.from in emap && h.to in emap {
        EndpointLabels(emap[h.from], lmap[h.link].transport, snap);
        EndpointLabels(emap[h.to], lmap[h.link].transport, snap);
      }
    }
  }

  ghost predicate Fits(req: Request, n: nat, b: Bounds) {
    0 < n <= b.maxPathDepth && n <= req.maxStages && n <= req.maxHops
  }

  /** A candidate that is empty, too long, or relays where it may not, is labelled by that. */
  lemma ShapeLabels(req: Request, snap: Snapshot, c: CandidatePath, b: Bounds)
    ensures var v := Verdict(req, snap, c, b);
      && (c.hops == [] ==> v == InsufficientEvidence)
      && (c.hops != [] && !Fits(req, |c.hops|, b) ==> v == RejectStageLimit)
      && (Fits(req, |c.hops|, b) && !MayRelay(req, EndpointMap(snap.endpoints), c.hops) ==> v == RejectEndpoint)
  {
    hide EndpointMap, LinkMap, RelayPermitted, MayRest, HopsVerdict;
    var emap := EndpointMap(snap.endpoints);
    forall i | 0 <= i < |c.hops| ensures RelayPermitted(req, emap, c.hops[i].to) <==> MayRest(req, emap, c.hops[i].to) {
      RestIff(req, emap, c.hops[i].to);
    }
  }

  lemma PastShape(req: Request, snap: Snapshot, c: CandidatePath, b: Bounds)
    requires Fits(req, |c.hops|, b) && MayRelay(req, EndpointMap(snap.endpoints), c.hops)
    ensures var v := HopsVerdict(req, snap, EndpointMap(snap.endpoints), LinkMap(snap.links), c.hops, 0);
      Verdict(req, snap, c, b) ==
        if v != Feasible then v else if PolicyCurrent(req, snap) then Feasible else RejectPolicy
  {
    hide EndpointMap, LinkMap, RelayPermitted, MayRest, HopsVerdict;
    var emap := EndpointMap(snap.endpoints);
    forall i | 0 <= i < |c.hops| ensures RelayPermitted(req, emap, c.hops[i].to) <==> MayRest(req, emap, c.hops[i].to) {
      RestIff(req, emap, c.hops[i].to);
    }
  }

  ghost predicate ClearUpTo(req: Request, snap: Snapshot, hops: seq<Hop>, n: nat)
    requires n <= |hops|
  {
    forall j :: 0 <= j < n ==> Clear(req, snap, EndpointMap(snap.endpoints), LinkMap(snap.links), hops[j])
  }

  lemma PastClearHops(req: Request, snap: Snapshot, hops: seq<Hop>, n: nat)
    requires n <= |hops| && ClearUpTo(req, snap, hops, n)
    ensures var emap, lmap := EndpointMap(snap.endpoints), LinkMap(snap.links);
      HopsVerdict(req, snap, emap, lmap, hops, 0) == HopsVerdict(req, snap, emap, lmap, hops, n)
  {
    hide EndpointMap, LinkMap, HopUsable, Clear, HopVerdict;
    var emap, lmap := EndpointMap(snap.endpoints), LinkMap(snap.links);
    forall j | 0 <= j < n ensures HopVerdict(req, snap, emap, lmap, hops[j]).Feasible? {
      ClearIff(req, snap, emap, lmap, hops[j]);
      HopVerdictDecides(req, snap, emap, lmap, hops[j]);
    }
    SkipsGoodHops(req, snap, emap, lmap, hops, n);
  }

  /** Otherwise its first bad hop labels it. */
  lemma FirstBadHopLabels(req: Request, snap: Snapshot, c: CandidatePath, b: Bounds, i: nat)
    requires Fits(req, |c.hops|, b) && MayRelay(req, EndpointMap(snap.endpoints), c.hops)
    requires i < |c.hops| && ClearUpTo(req, snap, c.hops, i)
    requires !Clear(req, snap, EndpointMap(snap.endpoints), LinkMap(snap.links), c.hops[i])
    ensures Verdict(req, snap, c, b) ==
      HopVerdict(req, snap, EndpointMap(snap.endpoints), LinkMap(snap.links), c.hops[i])
  {
    hide EndpointMap, LinkMap, HopUsable, Clear, HopVerdict, Verdict, MayRelay, PolicyCurrent, ClearUpTo;
    var emap, lmap := EndpointMap(snap.endpoints), LinkMap(snap.links);
    PastShape(req, snap, c, b);
    PastClearHops(req, snap, c.hops, i);
    ClearIff(req, snap, emap, lmap, c.hops[i]);
    HopVerdictDecides(req, snap, emap, lmap, c.hops[i]);
  }

  /** And if there is none, an outdated policy does. */
  lemma PolicyLabels(req: Request, snap: Snapshot, c: CandidatePath, b: Bounds)
    requires Fits(req, |c.hops|, b) && MayRelay(req, EndpointMap(snap.endpoints), c.hops)
    requires ClearUpTo(req, snap, c.hops, |c.hops|)
    ensures Verdict(req, snap, c, b) ==
      if 0 < req.policyGeneration && snap.policyGeneration < req.policyGeneration then RejectPolicy else Feasible
  {
    hide EndpointMap, LinkMap, HopUsable, Clear, HopVerdict, Verdict, MayRelay, ClearUpTo;
    PastShape(req, snap, c, b);
    PastClearHops(req, snap, c.hops, |c.hops|);
  }

  lemma {:induction false} SkipsGoodHops(req: Request, snap: Snapshot, emap: map<u64, Endpoint>, lmap: map<u64, Link>,
                                         hops: seq<Hop>, i: nat)
    requires i <= |hops| && forall j :: 0 <= j < i ==> HopVerdict(req, snap, emap, lmap, hops[j]).Feasible?
    ensures HopsVerdict(req, snap, emap, lmap, hops, 0) == HopsVerdict(req, snap, emap, lmap, hops, i)
  {
    hide HopVerdict;
    if i > 0 { SkipsGoodHops(req, snap, emap, lmap, hops, i - 1); }
  }
}
