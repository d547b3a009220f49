/** The cost of a candidate, component by component, in the fields of the request, the links and the
    endpoints; and the arithmetic behind each charge. */
module CostBreakdown {
  import opened Core
  import opened Ieee
  import opened Model
  import opened Cost

  // ----- the arithmetic -----

  function Apart(x: real, y: real): real { if x < y then y - x else x - y }

  /** `clampCost` gives the nearest number between 0 and 10^18. */
  lemma ClampIsNearest(v: real, x: real)
    requires 0.0 <= x <= 1_000_000_000_000_000_000.0
    ensures 0.0 <= Clamp(v) <= 1_000_000_000_000_000_000.0 && Apart(v, Clamp(v)) <= Apart(v, x)
  {
  }

  /** NaN and positive infinity count as 10^18, negative infinity as nothing. */
  lemma ClampOfDouble(d: Double)
    ensures d.NaN? || d.PosInf? ==> ClampDouble(d) == 1_000_000_000_000_000_000.0
    ensures d.NegInf? ==> ClampDouble(d) == 0.0
    ensures d.Fin? ==> ClampDouble(d) == Clamp(d.r)
  {
  }

  /** The time the bandwidth takes for the payload, in nanoseconds, at most 10^18 of them. */
  lemma TransferTime(payload: u64, bandwidth: u64)
    ensures var t := TransferNs(payload, bandwidth);
      && (payload == 0 ==> t == 0.0)
      && (payload > 0 && bandwidth == 0 ==> t == 1_000_000_000_000_000_000.0)
      && (payload > 0 && bandwidth > 0 ==>
            || (t <= 1_000_000_000_000_000_000.0 && t * bandwidth as real == payload as real * 1_000_000_000.0)
            || (t == 1_000_000_000_000_000_000.0
                && t * bandwidth as real < payload as real * 1_000_000_000.0))
  {
    if payload > 0 && bandwidth > 0 {
      var n, b := payload as real * 1_000_000_000.0, bandwidth as real;
      Quotient(n, b);
      if n / b > MAX_COST { LargerProduct(MAX_COST, n / b, b); }
    }
  }

  lemma Quotient(n: real, b: real)
    requires b > 0.0
    ensures n / b * b == n
  {
  }

  lemma LargerProduct(x: real, y: real, b: real)
    requires x < y && b > 0.0
    ensures x * b < y * b
  {
  }

  /** Declared headroom adds the share of the bandwidth that is left, counted at most a hundred times. */
  lemma SomeHeadroom(t: real, bandwidth: u64, evidence: Capacity)
    requires 0 < evidence.headroom < TWO64 - 1
    ensures var left := evidence.headroom + 1;
      HeadroomNs(t, bandwidth, evidence) ==
        if bandwidth >= 100 * left then Clamp(t * 100.0) else Clamp(t * (bandwidth as real / left as real))
  {
    hide Clamp, HeadroomNs;
    HeadroomIsContention(t, bandwidth, evidence);
    CappedShare(bandwidth, evidence.headroom + 1);
  }

  lemma HeadroomIsContention(t: real, bandwidth: u64, evidence: Capacity)
    requires 0 < evidence.headroom < TWO64 - 1
    ensures HeadroomNs(t, bandwidth, evidence) == Contention(t, bandwidth, evidence.headroom + 1)
  {
    hide Clamp, Contention;
    assert Add64(evidence.headroom, 1) == evidence.headroom + 1;
  }

  /** No declared headroom adds twice the time, or nothing when nothing is known; and the largest declared
      headroom makes the divisor wrap around to nothing. */
  lemma OtherHeadroom(t: real, bandwidth: u64, evidence: Capacity)
    ensures evidence.headroom == 0 && evidence.provenance == UnknownProvenance ==>
      HeadroomNs(t, bandwidth, evidence) == 0.0
    ensures evidence.headroom == 0 && evidence.provenance != UnknownProvenance ==>
      HeadroomNs(t, bandwidth, evidence) == Clamp(t * 2.0)
    ensures evidence.headroom == TWO64 - 1 ==>
      HeadroomNs(t, bandwidth, evidence) ==
        if bandwidth == 0 then 1_000_000_000_000_000_000.0 else Clamp(t * 100.0)
  {
    hide Clamp;
  }

  lemma CappedShare(bandwidth: u64, left: u64)
    requires left > 0
    ensures bandwidth >= 100 * left ==> bandwidth as real / left as real >= 100.0
    ensures bandwidth < 100 * left ==> bandwidth as real / left as real < 100.0
  {
    var b, h := bandwidth as real, left as real;
    Quotient(b, h);
    if bandwidth >= 100 * left && b / h < 100.0 { LargerProduct(b / h, 100.0, h); }
    if bandwidth < 100 * left {
      assert b < 100.0 * h;
      if b / h > 100.0 { LargerProduct(100.0, b / h, h); }
    }
  }

  /** A configured weight stands; else the hop count weighs a half, UNKNOWN nothing, and everything else one. */
  lemma WeightOf(w: Weights, f: CostFactor)
    ensures f in w.configured ==> w.Of(f) == w.configured[f]
    ensures f !in w.configured && f == HopCount ==> w.Of(f) == Fin(0.5)
    ensures f !in w.configured && f == UnknownFactor ==> w.Of(f) == Fin(0.0)
    ensures f !in w.configured && f != HopCount && f != UnknownFactor ==> w.Of(f) == Fin(1.0)
  {
  }

  // ----- labels -----

  ghost predicate Unsure(lmap: map<u64, Link>, h: Hop) {
    h.link in lmap && (lmap[h.link].provenance == Synthetic || lmap[h.link].provenance == UnknownProvenance)
  }

  /** The label of the path's figures: that of its last synthetic or unknown link, MEASURED if it has none. */
  ghost predicate Label(lmap: map<u64, Link>, hops: seq<Hop>, p: Provenance) {
    if forall h :: h in hops ==> !Unsure(lmap, h) then p == Measured
    else exists i :: && 0 <= i < |hops| && Unsure(lmap, hops[i]) && p == lmap[hops[i].link].provenance
                     && forall j :: i < j < |hops| ==> !Unsure(lmap, hops[j])
  }

  lemma {:induction false} TallyLabel(payload: u64, emap: map<u64, Endpoint>, lmap: map<u64, Link>, hops: seq<Hop>)
    ensures Label(lmap, hops, TallyOf(payload, emap, lmap, hops).worst)
  {
    hide TransferNs, HeadroomNs, ClampDouble, Clamp, AddLocality;
    if hops != [] {
      var front, h := hops[..|hops| - 1], hops[|hops| - 1];
      TallyLabel(payload, emap, lmap, front);
      AddKeepsLabel(TallyOf(payload, emap, lmap, front), payload, emap, lmap, h);
      assert hops == front + [h];
      LabelStep(lmap, front, h, TallyOf(payload, emap, lmap, front).worst);
    }
  }

  lemma LabelStep(lmap: map<u64, Link>, front: seq<Hop>, h: Hop, p: Provenance)
    requires Label(lmap, front, p)
    ensures Label(lmap, front + [h], if Unsure(lmap, h) then lmap[h.link].provenance else p)
  {
    var hops := front + [h];
    assert h in hops && hops[|front|] == h;
    if !Unsure(lmap, h) {
      if forall g :: g in front ==> !Unsure(lmap, g) {
        assert forall g :: g in hops ==> !Unsure(lmap, g);
      } else {
        var i :| && 0 <= i < |front| && Unsure(lmap, front[i]) && p == lmap[front[i].link].provenance
                 && forall j :: i < j < |front| ==> !Unsure(lmap, front[j]);
        assert hops[i] == front[i] && hops[i] in hops;
      }
    }
  }

  lemma AddKeepsLabel(a: Tally, payload: u64, emap: map<u64, Endpoint>, lmap: map<u64, Link>, h: Hop)
    ensures AddHop(a, payload, emap, lmap, h).worst ==
      if Unsure(lmap, h) then lmap[h.link].provenance else a.worst
  {
    hide TransferNs, HeadroomNs, ClampDouble, Clamp;
  }

  lemma LabelIsUnique(lmap: map<u64, Link>, hops: seq<Hop>, p: Provenance, q: Provenance)
    requires Label(lmap, hops, p) && Label(lmap, hops, q)
    ensures p == q
  {
    if !forall h :: h in hops ==> !Unsure(lmap, h) {
      var i :| && 0 <= i < |hops| && Unsure(lmap, hops[i]) && p == lmap[hops[i].link].provenance
               && forall j :: i < j < |hops| ==> !Unsure(lmap, hops[j]);
      var k :| && 0 <= k < |hops| && Unsure(lmap, hops[k]) && q == lmap[hops[k].link].provenance
               && forall j :: k < j < |hops| ==> !Unsure(lmap, hops[j]);
      assert i == k;
    }
  }

  // ----- the nineteen components -----

  /** The summary has exactly one component for the factor: this one. */
  ghost predicate Only(cs: seq<CostComponent<Double>>, w: Weights, f: CostFactor, value: real, origin: Provenance) {
    exists i :: && 0 <= i < |cs| && cs[i] == CostComponent(f, w.Of(f), Fin(value), origin)
                && forall j :: 0 <= j < |cs| && cs[j].factor == f ==> j == i
  }

  lemma OnlyAt(cs: seq<CostComponent<Double>>, w: Weights, i: nat, value: real, origin: Provenance)
    requires i < |cs| && cs[i] == CostComponent(cs[i].factor, w.Of(cs[i].factor), Fin(value), origin)
    requires forall j :: 0 <= j < |cs| && cs[j].factor == cs[i].factor ==> j == i
    ensures Only(cs, w, cs[i].factor, value, origin)
  {
  }

  lemma Places(w: Weights, payload: u64, n: nat, a: Tally, host: bool, storage: bool)
    ensures var fs, cs := Factors(payload, n, a, host, storage), Weigh(w, Factors(payload, n, a, host, storage));
      && |cs| == |fs| == 19
      && (forall i :: 0 <= i < 19 ==>
            cs[i] == CostComponent(fs[i].factor, w.Of(fs[i].factor), Fin(Clamp(fs[i].value)), fs[i].provenance))
      && (forall i, j :: 0 <= i < 19 && 0 <= j < 19 && i != j ==> cs[i].factor != cs[j].factor)
  {
    hide Clamp;
  }

  lemma OnlyNth(w: Weights, payload: u64, n: nat, a: Tally, host: bool, storage: bool, i: nat)
    requires i < |Factors(payload, n, a, host, storage)|
    ensures var f := Factors(payload, n, a, host, storage)[i];
      Only(Weigh(w, Factors(payload, n, a, host, storage)), w, f.factor, Clamp(f.value), f.provenance)
  {
    hide Only, Weigh, Clamp, Factors;
    var cs, f := Weigh(w, Factors(payload, n, a, host, storage)), Factors(payload, n, a, host, storage)[i];
    Places(w, payload, n, a, host, storage);
    OnlyAt(cs, w, i, Clamp(f.value), f.provenance);
  }

  lemma ClampStays(v: real)
    ensures Clamp(Clamp(v)) == Clamp(v) && Clamp(0.0) == 0.0
  {
  }

  lemma LinkFactors(w: Weights, payload: u64, n: nat, a: Tally, host: bool, storage: bool)
    ensures var cs := Weigh(w, Factors(payload, n, a, host, storage));
      && Only(cs, w, PathLatency, Clamp(a.latency), a.worst)
      && Only(cs, w, EffectiveBandwidth, Clamp(a.transfer), a.worst)
      && Only(cs, w, ResidualBandwidth, Clamp(a.headroom), a.worst)
      && Only(cs, w, CongestionPenalty, Clamp(a.congestion), a.worst)
      && Only(cs, w, QueueingEstimate, Clamp(a.queue), a.worst)
      && Only(cs, w, EndpointHealth, Clamp(a.healthRisk), a.worst)
      && Only(cs, w, CapacityHeadroom, Clamp(a.headroom), a.worst)
  {
    hide Only, Weigh, Clamp, Factors;
    LinkPlaces(payload, n, a, host, storage);
    forall i: nat | i < 5 || i == 13 || i == 15
      ensures var f := Factors(payload, n, a, host, storage)[i];
        Only(Weigh(w, Factors(payload, n, a, host, storage)), w, f.factor, Clamp(f.value), f.provenance)
    {
      OnlyNth(w, payload, n, a, host, storage, i);
    }
  }

  lemma LinkPlaces(payload: u64, n: nat, a: Tally, host: bool, storage: bool)
    ensures var fs := Factors(payload, n, a, host, storage);
      && |fs| == 19
      && fs[0] == Factor(PathLatency, a.latency, a.worst)
      && fs[1] == Factor(EffectiveBandwidth, a.transfer, a.worst)
      && fs[2] == Factor(ResidualBandwidth, a.headroom, a.worst)
      && fs[3] == Factor(CongestionPenalty, a.congestion, a.worst)
      && fs[4] == Factor(QueueingEstimate, a.queue, a.worst)
      && fs[13] == Factor(EndpointHealth, a.healthRisk, a.worst)
      && fs[15] == Factor(CapacityHeadroom, a.headroom, a.worst)
  {
    hide Clamp;
  }

  lemma LocalFactors(w: Weights, payload: u64, n: nat, a: Tally, host: bool, storage: bool)
    ensures var cs := Weigh(w, Factors(payload, n, a, host, storage));
      && Only(cs, w, CostFactor.NumaDistance, Clamp(a.numa), Derived)
      && Only(cs, w, PcieLocality, Clamp(a.pcie), Derived)
      && Only(cs, w, NicLocality, Clamp(a.nic), Derived)
      && Only(cs, w, StorageLocality,
              Clamp(a.storage + if storage then Clamp(payload as real * 0.000006) else 0.0), Derived)
  {
    hide Only, Weigh, Clamp;
    OnlyNth(w, payload, n, a, host, storage, 9);
    OnlyNth(w, payload, n, a, host, storage, 10);
    OnlyNth(w, payload, n, a, host, storage, 11);
    OnlyNth(w, payload, n, a, host, storage, 12);
  }

  lemma CountFactors(w: Weights, payload: u64, n: nat, a: Tally, host: bool, storage: bool)
    ensures var cs := Weigh(w, Factors(payload, n, a, host, storage));
      && |cs| == 19
      && Only(cs, w, CostFactor.HopCount, Clamp(n as real), Derived)
      && Only(cs, w, StageCount, Clamp(n as real), Derived)
      && Only(cs, w, ReservationFit, 0.0, Derived)
      && Only(cs, w, FailureDomainRisk, 0.0, Derived)
      && Only(cs, w, Reliability, Clamp(n as real * 0.001), Derived)
  {
    hide Only, Weigh, Clamp;
    ClampStays(n as real * 0.001);
    OnlyNth(w, payload, n, a, host, storage, 5);
    OnlyNth(w, payload, n, a, host, storage, 6);
    OnlyNth(w, payload, n, a, host, storage, 14);
    OnlyNth(w, payload, n, a, host, storage, 16);
    OnlyNth(w, payload, n, a, host, storage, 17);
  }

  lemma StagingFactors(w: Weights, payload: u64, n: nat, a: Tally, host: bool, storage: bool)
    ensures var cs := Weigh(w, Factors(payload, n, a, host, storage));
      var copying := if n > 1 then Clamp(payload as real * 0.000004) else 0.0;
      var hosting := if host then Clamp(payload as real * 0.000003) else 0.0;
      && Only(cs, w, StagingOverhead, copying, if n > 1 then a.worst else Derived)
      && Only(cs, w, HostStagingCost, hosting, if host then a.worst else Derived)
      && Only(cs, w, MovementCost, Clamp(a.transfer + copying + hosting), a.worst)
  {
    hide Only, Weigh, Clamp;
    var copying := if n > 1 then Clamp(payload as real * 0.000004) else 0.0;
    var hosting := if host then Clamp(payload as real * 0.000003) else 0.0;
    ClampStays(payload as real * 0.000004);
    ClampStays(payload as real * 0.000003);
    ClampStays(a.transfer + copying + hosting);
    OnlyNth(w, payload, n, a, host, storage, 7);
    OnlyNth(w, payload, n, a, host, storage, 8);
    OnlyNth(w, payload, n, a, host, storage, 18);
  }

  // ----- the components of a candidate -----

  /** What each link of the path adds to its figures. */
  lemma LinkComponents(req: Request, snap: Snapshot, c: CandidatePath, w: Weights, p: Provenance)
    requires Label(LinkMap(snap.links), c.hops, p)
    ensures var cs, lmap := CandidateCost(req, snap, c, w).components, LinkMap(snap.links);
      && Only(cs, w, PathLatency, Clamp(Total((l: Link) => Clamp(l.latency as real), lmap, c.hops)), p)
      && Only(cs, w, EffectiveBandwidth, Clamp(Total((l: Link) =>
                TransferNs(req.payloadSize, if l.effectiveBandwidth != 0 then l.effectiveBandwidth else l.capacity),
                lmap, c.hops)), p)
      && Only(cs, w, CongestionPenalty,
              Clamp(Total((l: Link) => ClampDouble(l.congestion.penalty), lmap, c.hops)), p)
      && Only(cs, w, QueueingEstimate,
              Clamp(Total((l: Link) => ClampDouble(l.congestion.penalty), lmap, c.hops)), p)
      && Only(cs, w, EndpointHealth, Clamp(DoubtTotal(req.payloadSize, lmap, c.hops)), p)
  {
    hide TallyOf, TransferNs, ClampDouble, Clamp, HostStaged, StorageStaged, Label, Total, DoubtTotal, Factors, Weigh,
      WeightedSum, Only, EndpointMap, LinkMap;
    var emap, lmap := EndpointMap(snap.endpoints), LinkMap(snap.links);
    var a := TallyOf(req.payloadSize, emap, lmap, c.hops);
    TallyIsSums(req.payloadSize, emap, lmap, c.hops);
    TallyLabel(req.payloadSize, emap, lmap, c.hops);
    LabelIsUnique(lmap, c.hops, p, a.worst);
    LinkFactors(w, req.payloadSize, |c.hops|, a, HostStaged(emap, c.hops), StorageStaged(emap, c.hops));
  }

  /** Scarce headroom is charged twice, as residual bandwidth and as capacity headroom. */
  lemma HeadroomComponents(req: Request, snap: Snapshot, c: CandidatePath, w: Weights, p: Provenance)
    requires Label(LinkMap(snap.links), c.hops, p)
    ensures var cs, lmap := CandidateCost(req, snap, c, w).components, LinkMap(snap.links);
      var charge := Clamp(Total((l: Link) =>
        var bw := if l.effectiveBandwidth != 0 then l.effectiveBandwidth else l.capacity;
        HeadroomNs(TransferNs(req.payloadSize, bw), bw, l.capacityEvidence), lmap, c.hops));
      && Only(cs, w, ResidualBandwidth, charge, p)
      && Only(cs, w, CapacityHeadroom, charge, p)
  {
    hide TallyOf, TransferNs, HeadroomNs, Clamp, HostStaged, StorageStaged, Label, Total, Factors, Weigh, WeightedSum,
      Only, EndpointMap, LinkMap;
    var emap, lmap := EndpointMap(snap.endpoints), LinkMap(snap.links);
    var a := TallyOf(req.payloadSize, emap, lmap, c.hops);
    HeadroomIsSum(req.payloadSize, emap, lmap, c.hops);
    TallyLabel(req.payloadSize, emap, lmap, c.hops);
    LabelIsUnique(lmap, c.hops, p, a.worst);
    LinkFactors(w, req.payloadSize, |c.hops|, a, HostStaged(emap, c.hops), StorageStaged(emap, c.hops));
  }

  /** The payload rests at a relay of one of these kinds. */
  ghost predicate RestsAt(emap: map<u64, Endpoint>, hops: seq<Hop>, kinds: seq<EndpointKind>) {
    exists i :: 0 <= i < |hops| - 1 && hops[i].to in emap && emap[hops[i].to].kind in kinds
  }

  lemma StagedMeans(emap: map<u64, Endpoint>, hops: seq<Hop>)
    ensures HostStaged(emap, hops) <==> RestsAt(emap, hops, HOST_KINDS)
    ensures StorageStaged(emap, hops) <==> RestsAt(emap, hops, [EndpointKind.Storage])
  {
    forall k ensures HostKind(k) <==> k in HOST_KINDS { HostKindsAre(k); }
  }

  /** What the ends of each hop, and storage relays, add. */
  lemma LocalityComponents(req: Request, snap: Snapshot, c: CandidatePath, w: Weights)
    ensures var cs := CandidateCost(req, snap, c, w).components;
      var emap, lmap, bytes := EndpointMap(snap.endpoints), LinkMap(snap.links), req.payloadSize as real;
      && Only(cs, w, CostFactor.NumaDistance, Clamp(LocalTotal((s: Endpoint, d: Endpoint) =>
           Clamp((if s.numaDistance < d.numaDistance then d.numaDistance - s.numaDistance
                  else s.numaDistance - d.numaDistance) as real * 200.0), emap, lmap, c.hops)), Derived)
      && Only(cs, w, PcieLocality, Clamp(LocalTotal((s: Endpoint, d: Endpoint) =>
           if s.pcieRoot == d.pcieRoot then 0.0 else Clamp(bytes * 0.000001), emap, lmap, c.hops)), Derived)
      && Only(cs, w, NicLocality, Clamp(LocalTotal((s: Endpoint, d: Endpoint) =>
           if s.nic == d.nic then 0.0 else Clamp(bytes * 0.000002), emap, lmap, c.hops)), Derived)
      && Only(cs, w, StorageLocality, Clamp(LocalTotal((s: Endpoint, d: Endpoint) =>
             if s.kind.Storage? || d.kind.Storage? then Clamp(bytes * 0.000001) else 0.0, emap, lmap, c.hops)
           + if RestsAt(emap, c.hops, [EndpointKind.Storage]) then Clamp(bytes * 0.000006) else 0.0), Derived)
  {
    hide TallyOf, Clamp, HostStaged, StorageStaged, LocalTotal, Factors, Weigh, WeightedSum, Only, EndpointMap, LinkMap,
      RestsAt;
    var emap, lmap := EndpointMap(snap.endpoints), LinkMap(snap.links);
    var a := TallyOf(req.payloadSize, emap, lmap, c.hops);
    LocalityIsSums(req.payloadSize, emap, lmap, c.hops);
    StagedMeans(emap, c.hops);
    LocalFactors(w, req.payloadSize, |c.hops|, a, HostStaged(emap, c.hops), StorageStaged(emap, c.hops));
  }

  /** What the number of hops adds; and that there are nineteen components in all. */
  lemma CountComponents(req: Request, snap: Snapshot, c: CandidatePath, w: Weights)
    ensures var cs, n := CandidateCost(req, snap, c, w).components, |c.hops| as real;
      && |cs| == 19
      && Only(cs, w, CostFactor.HopCount, Clamp(n), Derived)
      && Only(cs, w, StageCount, Clamp(n), Derived)
      && Only(cs, w, Reliability, Clamp(n * 0.001), Derived)
      && Only(cs, w, ReservationFit, 0.0, Derived)
      && Only(cs, w, FailureDomainRisk, 0.0, Derived)
  {
    hide TallyOf, Clamp, HostStaged, StorageStaged, Factors, Weigh, WeightedSum, Only, EndpointMap, LinkMap;
    var emap, lmap := EndpointMap(snap.endpoints), LinkMap(snap.links);
    CountFactors(w, req.payloadSize, |c.hops|, TallyOf(req.payloadSize, emap, lmap, c.hops),
                 HostStaged(emap, c.hops), StorageStaged(emap, c.hops));
  }

  /** What staging adds, and the cost of moving the data at all. */
  lemma StagingComponents(req: Request, snap: Snapshot, c: CandidatePath, w: Weights, p: Provenance)
    requires Label(LinkMap(snap.links), c.hops, p)
    ensures var cs := CandidateCost(req, snap, c, w).components;
      var emap, lmap, bytes := EndpointMap(snap.endpoints), LinkMap(snap.links), req.payloadSize as real;
      var relayed, hosted := |c.hops| > 1, RestsAt(emap, c.hops, HOST_KINDS);
      var copying := if relayed then Clamp(bytes * 0.000004) else 0.0;
      var hosting := if hosted then Clamp(bytes * 0.000003) else 0.0;
      var moving := Total((l: Link) =>
        TransferNs(req.payloadSize, if l.effectiveBandwidth != 0 then l.effectiveBandwidth else l.capacity),
        lmap, c.hops);
      && Only(cs, w, StagingOverhead, copying, if relayed then p else Derived)
      && Only(cs, w, HostStagingCost, hosting, if hosted then p else Derived)
      && Only(cs, w, MovementCost, Clamp(moving + copying + hosting), p)
  {
    hide TallyOf, TransferNs, Clamp, HostStaged, StorageStaged, Label, Total, Factors, Weigh, WeightedSum, Only,
      EndpointMap, LinkMap, RestsAt;
    var emap, lmap := EndpointMap(snap.endpoints), LinkMap(snap.links);
    var a := TallyOf(req.payloadSize, emap, lmap, c.hops);
    TallyIsSums(req.payloadSize, emap, lmap, c.hops);
    TallyLabel(req.payloadSize, emap, lmap, c.hops);
    LabelIsUnique(lmap, c.hops, p, a.worst);
    StagedMeans(emap, c.hops);
    StagingFactors(w, req.payloadSize, |c.hops|, a, HostStaged(emap, c.hops), StorageStaged(emap, c.hops));
  }

  // ----- a slower link never makes a path cheaper -----

  /** `m` is `l` with no smaller latency. */
  ghost predicate Slower(l: Link, m: Link) { m == l.(latency := m.latency) && l.latency <= m.latency }

  ghost predicate SlowerLinks(s: seq<Link>, t: seq<Link>) {
    |s| == |t| && forall i :: 0 <= i < |s| ==> Slower(s[i], t[i])
  }

  ghost predicate SlowerMap(l1: map<u64, Link>, l2: map<u64, Link>) {
    l1.Keys == l2.Keys && forall id :: id in l1 ==> Slower(l1[id], l2[id])
  }

  lemma {:induction false} SlowerMaps(s: seq<Link>, t: seq<Link>)
    requires SlowerLinks(s, t)
    ensures SlowerMap(LinkMap(s), LinkMap(t))
  {
    if s != [] { SlowerMaps(s[..|s| - 1], t[..|t| - 1]); }
  }

  lemma {:induction false} SlowerTally(payload: u64, emap: map<u64, Endpoint>, l1: map<u64, Link>, l2: map<u64, Link>,
                                       hops: seq<Hop>)
    requires SlowerMap(l1, l2)
    ensures var a, b := TallyOf(payload, emap, l1, hops), TallyOf(payload, emap, l2, hops);
      a.latency <= b.latency && b == a.(latency := b.latency)
  {
    hide TransferNs, HeadroomNs, ClampDouble;
    if hops != [] { SlowerTally(payload, emap, l1, l2, hops[..|hops| - 1]); }
  }

  /** `d` charges no less than `c`, place by place. */
  ghost predicate NoLess(c: seq<CostComponent<Double>>, d: seq<CostComponent<Double>>) {
    |c| == |d| && forall i :: 0 <= i < |c| ==> Charge(c[i]) <= Charge(d[i])
  }

  lemma {:induction false} NoLessSum(c: seq<CostComponent<Double>>, d: seq<CostComponent<Double>>)
    requires NoLess(c, d)
    ensures WeightedSum(c) <= WeightedSum(d)
    ensures (exists i :: 0 <= i < |c| && Charge(c[i]) < Charge(d[i])) ==> WeightedSum(c) < WeightedSum(d)
  {
    hide Charge;
    if c != [] { NoLessSum(c[..|c| - 1], d[..|d| - 1]); }
  }

  lemma OnlyLatencyDiffers(payload: u64, n: nat, a: Tally, b: Tally, host: bool, storage: bool)
    requires b == a.(latency := b.latency)
    ensures var f, g := Factors(payload, n, a, host, storage), Factors(payload, n, b, host, storage);
      && |f| == |g| == 19 && (forall i :: 0 < i < 19 ==> f[i] == g[i])
      && f[0] == Factor(PathLatency, a.latency, a.worst) && g[0] == Factor(PathLatency, b.latency, a.worst)
  {
    hide Clamp;
  }

  lemma SlowerComponents(w: Weights, payload: u64, n: nat, a: Tally, b: Tally, host: bool, storage: bool)
    requires a.latency <= b.latency && b == a.(latency := b.latency)
    ensures var c := Weigh(w, Factors(payload, n, a, host, storage));
      var d := Weigh(w, Factors(payload, n, b, host, storage));
      && |c| == |d| == 19 && (forall i :: 0 < i < 19 ==> c[i] == d[i])
      && c[0] == CostComponent(PathLatency, w.Of(PathLatency), Fin(Clamp(a.latency)), a.worst)
      && d[0] == CostComponent(PathLatency, w.Of(PathLatency), Fin(Clamp(b.latency)), a.worst)
      && NoLess(c, d) && (AllValid(c) <==> AllValid(d))
  {
    hide Weigh, Factors, Charge, ValidComponent;
    Places(w, payload, n, a, host, storage);
    Places(w, payload, n, b, host, storage);
    OnlyLatencyDiffers(payload, n, a, b, host, storage);
    var c, d := Weigh(w, Factors(payload, n, a, host, storage)), Weigh(w, Factors(payload, n, b, host, storage));
    ChargesMore(c[0], d[0]);
    assert ValidComponent(c[0]) <==> ValidComponent(d[0]);
    SameValidity(c, d);
  }

  lemma ChargesMore(x: CostComponent<Double>, y: CostComponent<Double>)
    requires y == x.(value := y.value) && x.value.NonNegFinite() && y.value.NonNegFinite() && x.value.r <= y.value.r
    ensures Charge(x) <= Charge(y) && (ValidComponent(x) <==> ValidComponent(y))
    ensures x.weight.Fin? && x.weight.r > 0.0 && x.value.r < y.value.r ==> Charge(x) < Charge(y)
  {
    if x.weight.Fin? && x.weight.r >= 0.0 {
      if x.weight.r > 0.0 && x.value.r < y.value.r { LargerProduct(x.value.r, y.value.r, x.weight.r); }
      assert x.weight.r * x.value.r <= x.weight.r * y.value.r;
    }
  }

  lemma SameValidity(c: seq<CostComponent<Double>>, d: seq<CostComponent<Double>>)
    requires |c| == |d| && forall i :: 0 <= i < |c| ==> (ValidComponent(c[i]) <==> ValidComponent(d[i]))
    ensures AllValid(c) <==> AllValid(d)
  {
    hide ValidComponent;
    if AllValid(c) {
      forall x | x in d ensures ValidComponent(x) {
        var i :| 0 <= i < |d| && d[i] == x;
        assert c[i] in c;
      }
    }
    if AllValid(d) {
      forall x | x in c ensures ValidComponent(x) {
        var i :| 0 <= i < |c| && c[i] == x;
        assert d[i] in d;
      }
    }
  }

  /** Raising the latency of links never lowers the total of any candidate. */
  lemma SlowerIsNoCheaper(req: Request, s: Snapshot, t: Snapshot, c: CandidatePath, w: Weights)
    requires t == s.(links := t.links) && SlowerLinks(s.links, t.links)
    ensures var x, y := CandidateCost(req, s, c, w).total, CandidateCost(req, t, c, w).total;
      y.PosInf? || (x.Fin? && y.Fin? && x.r <= y.r)
  {
    hide TallyOf, Clamp, HostStaged, StorageStaged, Factors, Weigh, WeightedSum, AllValid, EndpointMap, LinkMap, NoLess,
      MaxDouble;
    var emap, l1, l2 := EndpointMap(s.endpoints), LinkMap(s.links), LinkMap(t.links);
    var a, b := TallyOf(req.payloadSize, emap, l1, c.hops), TallyOf(req.payloadSize, emap, l2, c.hops);
    SlowerMaps(s.links, t.links);
    SlowerTally(req.payloadSize, emap, l1, l2, c.hops);
    SlowerComponents(w, req.payloadSize, |c.hops|, a, b, HostStaged(emap, c.hops), StorageStaged(emap, c.hops));
    NoLessSum(ComponentsOver(req, emap, l1, c.hops, w), ComponentsOver(req, emap, l2, c.hops, w));
  }

  lemma {:induction false} SlowerOnPath(payload: u64, emap: map<u64, Endpoint>, l1: map<u64, Link>, l2: map<u64, Link>,
                                        hops: seq<Hop>, h: Hop)
    requires SlowerMap(l1, l2) && h in hops && h.link in l1
    requires Clamp(l1[h.link].latency as real) < Clamp(l2[h.link].latency as real)
    ensures TallyOf(payload, emap, l1, hops).latency < TallyOf(payload, emap, l2, hops).latency
  {
    hide TransferNs, HeadroomNs, ClampDouble, Clamp;
    var front, last := hops[..|hops| - 1], hops[|hops| - 1];
    SlowerTally(payload, emap, l1, l2, front);
    assert hops == front + [last];
    if last.link in l1 { ClampGrows(l1[last.link].latency as real, l2[last.link].latency as real); }
    if h != last { SlowerOnPath(payload, emap, l1, l2, front, h); }
  }

  lemma ClampGrows(x: real, y: real)
    requires x <= y
    ensures Clamp(x) <= Clamp(y)
    ensures x < y && 0.0 <= y <= MAX_COST ==> Clamp(x) < Clamp(y) || x < 0.0
  {
  }

  /** And raises it, when the path runs over such a link, latency weighs something, and neither the clamp nor
      the largest double is reached. */
  lemma SlowerIsDearer(req: Request, s: Snapshot, t: Snapshot, c: CandidatePath, w: Weights, h: Hop)
    requires t == s.(links := t.links) && SlowerLinks(s.links, t.links)
    requires h in c.hops && h.link in LinkMap(s.links) && h.link in LinkMap(t.links)
    requires LinkMap(s.links)[h.link].latency < LinkMap(t.links)[h.link].latency
    requires Total((l: Link) => Clamp(l.latency as real), LinkMap(t.links), c.hops) <= MAX_COST
    requires LinkMap(t.links)[h.link].latency as real <= MAX_COST
    requires w.Of(PathLatency).Fin? && w.Of(PathLatency).r > 0.0 && CandidateCost(req, t, c, w).total.Fin?
    ensures var x, y := CandidateCost(req, s, c, w).total, CandidateCost(req, t, c, w).total;
      x.Fin? && y.Fin? && x.r < y.r
  {
    hide TallyOf, Clamp, HostStaged, StorageStaged, Factors, Weigh, WeightedSum, AllValid, EndpointMap, LinkMap, NoLess,
      MaxDouble, SlowerMap, Charge, Total;
    var emap, l1, l2 := EndpointMap(s.endpoints), LinkMap(s.links), LinkMap(t.links);
    var a, b := TallyOf(req.payloadSize, emap, l1, c.hops), TallyOf(req.payloadSize, emap, l2, c.hops);
    SlowerMaps(s.links, t.links);
    SlowerTally(req.payloadSize, emap, l1, l2, c.hops);
    ClampGrows(l1[h.link].latency as real, l2[h.link].latency as real);
    SlowerOnPath(req.payloadSize, emap, l1, l2, c.hops, h);
    TallyIsSums(req.payloadSize, emap, l2, c.hops);
    SlowerIsNoCheaper(req, s, t, c, w);
    SlowerComponents(w, req.payloadSize, |c.hops|, a, b, HostStaged(emap, c.hops), StorageStaged(emap, c.hops));
    var x, y := ComponentsOver(req, emap, l1, c.hops, w), ComponentsOver(req, emap, l2, c.hops, w);
    LatencyIsNotNegative(req.payloadSize, emap, l1, c.hops);
    assert Clamp(a.latency) < Clamp(b.latency) by { ClampGrows(a.latency, b.latency); }
    ChargesMore(x[0], y[0]);
    NoLessSum(x, y);
  }

  lemma {:induction false} LatencyIsNotNegative(payload: u64, emap: map<u64, Endpoint>, lmap: map<u64, Link>,
                                                hops: seq<Hop>)
    ensures TallyOf(payload, emap, lmap, hops).latency >= 0.0
  {
    hide TransferNs, HeadroomNs, ClampDouble;
    if hops != [] { LatencyIsNotNegative(payload, emap, lmap, hops[..|hops| - 1]); }
  }

  // ----- the total -----

  /** A total is the weighted sum of its components if every weight and every figure is a number not below zero and
      the sum is one a double can hold; it is infinite otherwise. */
  lemma TotalIff(cs: seq<CostComponent<Double>>)
    ensures var t := Summarize(cs).total;
      && (t.Fin? <==>
            && (forall c :: c in cs ==> c.weight.Fin? && c.weight.r >= 0.0 && c.value.Fin? && c.value.r >= 0.0)
            && WeightedSum(cs) <= MaxDouble())
      && (t.Fin? ==> t.r == WeightedSum(cs)) && (!t.Fin? ==> t.PosInf?)
  {
    hide MaxDouble, WeightedSum;
  }

  /** The weighted sum adds up component by component. */
  lemma SumAddsUp(cs: seq<CostComponent<Double>>, c: CostComponent<Double>)
    requires c.weight.Fin? && c.weight.r >= 0.0 && c.value.Fin? && c.value.r >= 0.0
    ensures WeightedSum([]) == 0.0 && WeightedSum(cs + [c]) == WeightedSum(cs) + c.weight.r * c.value.r
  {
    assert (cs + [c])[..|cs|] == cs;
  }
}
