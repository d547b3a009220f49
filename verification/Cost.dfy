/** src/cost.cpp and model/component.hpp over the reals: rounding is left out; NaN, the infinities and
    overflow are kept where the code looks for them. */
module Cost {
  import opened Core
  import opened Ieee
  import opened Model

  const MAX_COST: real := 1_000_000_000_000_000_000.0

  /** `clampCost` on a number that is neither NaN nor infinite. */
  function Clamp(v: real): (r: real)
    ensures 0.0 <= r <= MAX_COST
    ensures 0.0 <= v <= MAX_COST ==> r == v
  {
    if v < 0.0 then 0.0 else if v > MAX_COST then MAX_COST else v
  }

  /** `clampCost`. */
  function ClampDouble(v: Double): (r: real)
    ensures 0.0 <= r <= MAX_COST
  {
    match v
    case NaN => MAX_COST
    case PosInf => MAX_COST
    case NegInf => 0.0
    case Fin(x) => Clamp(x)
  }

  function TransferNs(payload: u64, bandwidth: u64): (r: real)
    ensures 0.0 <= r <= MAX_COST
  {
    if payload == 0 then 0.0
    else if bandwidth == 0 then MAX_COST
    else Clamp(payload as real * 1_000_000_000.0 / bandwidth as real)
  }

  datatype Weights = Weights(configured: map<CostFactor, Double>) {
    function Of(f: CostFactor): Double {
      if f in configured then configured[f]
      else if f.HopCount? then Fin(0.5)
      else if f.UnknownFactor? then Fin(0.0)
      else Fin(1.0)
    }
  }

  predicate ValidComponent(c: CostComponent<Double>) {
    c.weight.NonNegFinite() && c.value.NonNegFinite()
  }

  /** `weight * value` of a valid component. */
  function Charge(c: CostComponent<Double>): real {
    if ValidComponent(c) then c.weight.r * c.value.r else 0.0
  }

  function WeightedSum(cs: seq<CostComponent<Double>>): real {
    if cs == [] then 0.0 else WeightedSum(cs[..|cs| - 1]) + Charge(cs[|cs| - 1])
  }

  predicate AllValid(cs: seq<CostComponent<Double>>) { forall c :: c in cs ==> ValidComponent(c) }

  /** The weighted sum is more than a double can hold. */
  predicate Overflows(cs: seq<CostComponent<Double>>) { WeightedSum(cs) > MaxDouble() }

  /** `CostSummary::of`: an invalid component makes the total infinite, and so does a sum that overflows. */
  function Summarize(cs: seq<CostComponent<Double>>): CostSummary<Double> {
    CostSummary(cs, if AllValid(cs) && !Overflows(cs) then Fin(WeightedSum(cs)) else PosInf)
  }

  lemma ChargeIsNotNegative(c: CostComponent<Double>)
    ensures Charge(c) >= 0.0
  {
  }

  /** The running sum only grows, so once over the largest double it stays there. */
  lemma {:induction false} SumGrows(cs: seq<CostComponent<Double>>, i: nat)
    requires i <= |cs|
    ensures 0.0 <= WeightedSum(cs[..i]) <= WeightedSum(cs)
    decreases |cs|
  {
    hide Charge;
    if i == |cs| {
      assert cs[..i] == cs;
      if cs != [] {
        SumGrows(cs[..|cs| - 1], |cs| - 1);
        ChargeIsNotNegative(cs[|cs| - 1]);
      }
    } else {
      assert cs[..|cs| - 1][..i] == cs[..i];
      SumGrows(cs[..|cs| - 1], i);
      ChargeIsNotNegative(cs[|cs| - 1]);
    }
  }

  lemma SumUpTo(cs: seq<CostComponent<Double>>, i: nat)
    requires i <= |cs|
    ensures WeightedSum(cs[..0]) == 0.0
    ensures i < |cs| && ValidComponent(cs[i]) ==>
      WeightedSum(cs[..i + 1]) == WeightedSum(cs[..i]) + cs[i].weight.r * cs[i].value.r
  {
    if i < |cs| { assert cs[..i + 1][..i] == cs[..i]; }
  }

  method SummaryOf(cs: seq<CostComponent<Double>>) returns (s: CostSummary<Double>)
    ensures s == Summarize(cs)
  {
    hide MaxDouble, WeightedSum, Charge;
    SumUpTo(cs, 0);
    var t := 0.0;
    for i := 0 to |cs|
      invariant AllValid(cs[..i])
      invariant t == WeightedSum(cs[..i]) && t <= MaxDouble()
    {
      if !ValidComponent(cs[i]) {
        assert cs[i] in cs;
        return CostSummary(cs, PosInf);
      }
      assert cs[..i + 1] == cs[..i] + [cs[i]];
      SumUpTo(cs, i);
      t := t + cs[i].weight.r * cs[i].value.r;
      if t > MaxDouble() {
        SumGrows(cs, i + 1);
        return CostSummary(cs, PosInf);
      }
    }
    assert cs[..|cs|] == cs;
    return CostSummary(cs, Fin(t));
  }

  // ----- the per-hop accumulators -----

  datatype Tally = Tally(
    latency: real, transfer: real, queue: real, congestion: real, headroom: real, numa: real,
    pcie: real, nic: real, storage: real, healthRisk: real, worst: Provenance)

  const EMPTY: Tally := Tally(0.0, 0.0, 0.0, 0.0, 0.0, 0.0, 0.0, 0.0, 0.0, 0.0, Measured)

  function Bandwidth(link: Link): u64 {
    if link.effectiveBandwidth != 0 then link.effectiveBandwidth else link.capacity
  }

  /** The share of the bandwidth that the headroom leaves, counted at most a hundred times. */
  function Contention(t: real, bandwidth: u64, divisor: u64): real
    requires divisor > 0
  {
    var ratio := bandwidth as real / divisor as real;
    if ratio < 100.0 then Clamp(t * ratio) else Clamp(t * 100.0)
  }

  /** Contention charged for scarce headroom. `headroom + 1` is a 64-bit sum, so the largest headroom
      divides by zero: the ratio is then infinite, or NaN when the bandwidth is zero too. */
  function HeadroomNs(t: real, bandwidth: u64, evidence: Capacity): real {
    if evidence.headroom > 0 then
      var divisor := Add64(evidence.headroom, 1);
      if divisor == 0 then (if bandwidth == 0 then MAX_COST else Clamp(t * 100.0))
      else Contention(t, bandwidth, divisor)
    else if !evidence.provenance.UnknownProvenance? then Clamp(t * 2.0)
    else 0.0
  }

  function Distance(a: int, b: int): nat { if a < b then b - a else a - b }

  predicate Doubtful(p: Provenance) {
    p.UnknownProvenance? || p.Estimated? || p.Forecast? || p.Synthetic?
  }

  /** The locality charges of one hop, made only when both ends are known. */
  function AddLocality(a: Tally, payload: u64, emap: map<u64, Endpoint>, hop: Hop): Tally {
    if hop.from in emap && hop.to in emap then
      var s, d := emap[hop.from], emap[hop.to];
      a.(numa := a.numa + Clamp(Distance(d.numaDistance, s.numaDistance) as real * 200.0),
         pcie := a.pcie + if s.pcieRoot != d.pcieRoot then Clamp(payload as real * 0.000001) else 0.0,
         nic := a.nic + if s.nic != d.nic then Clamp(payload as real * 0.000002) else 0.0,
         storage := a.storage
                    + if s.kind.Storage? || d.kind.Storage? then Clamp(payload as real * 0.000001) else 0.0)
    else a
  }

  function AddLink(a: Tally, payload: u64, link: Link): Tally {
    var t := TransferNs(payload, Bandwidth(link));
    var transfer := a.transfer + t;
    a.(transfer := transfer,
       latency := a.latency + Clamp(link.latency as real),
       queue := a.queue + ClampDouble(link.congestion.penalty),
       congestion := a.congestion + ClampDouble(link.congestion.penalty),
       headroom := a.headroom + HeadroomNs(t, Bandwidth(link), link.capacityEvidence),
       healthRisk := a.healthRisk + if Doubtful(link.provenance) then Clamp(transfer * 0.1) else 0.0,
       worst := if link.provenance.UnknownProvenance? || link.provenance.Synthetic? then link.provenance
                else a.worst)
  }

  function AddHop(a: Tally, payload: u64, emap: map<u64, Endpoint>, lmap: map<u64, Link>, hop: Hop): Tally {
    if hop.link in lmap then AddLocality(AddLink(a, payload, lmap[hop.link]), payload, emap, hop) else a
  }

  function TallyOf(payload: u64, emap: map<u64, Endpoint>, lmap: map<u64, Link>, hops: seq<Hop>): Tally {
    if hops == [] then EMPTY
    else AddHop(TallyOf(payload, emap, lmap, hops[..|hops| - 1]), payload, emap, lmap, hops[|hops| - 1])
  }

  predicate HostKind(k: EndpointKind) {
    !k.GpuDevice? && !k.Nic? && !k.UnknownKind? && !k.Storage?
  }

  predicate HostStaged(emap: map<u64, Endpoint>, hops: seq<Hop>) {
    exists i :: 0 <= i < |hops| - 1 && hops[i].to in emap && HostKind(emap[hops[i].to].kind)
  }

  predicate StorageStaged(emap: map<u64, Endpoint>, hops: seq<Hop>) {
    exists i :: 0 <= i < |hops| - 1 && hops[i].to in emap && emap[hops[i].to].kind.Storage?
  }

  datatype Factor = Factor(factor: CostFactor, value: real, provenance: Provenance)

  /** The named factors of a candidate, before clamping and weighting. */
  function Factors(payload: u64, hops: nat, a: Tally, host: bool, storage: bool): seq<Factor> {
    var n := hops as real;
    var stage := if hops > 1 then Clamp(payload as real * 0.000004) else 0.0;
    var hostStage := if host then Clamp(payload as real * 0.000003) else 0.0;
    var stored := a.storage + if storage then Clamp(payload as real * 0.000006) else 0.0;
    [ Factor(PathLatency, a.latency, a.worst),
      Factor(EffectiveBandwidth, a.transfer, a.worst),
      Factor(ResidualBandwidth, a.headroom, a.worst),
      Factor(CongestionPenalty, a.congestion, a.worst),
      Factor(QueueingEstimate, a.queue, a.worst),
      Factor(HopCount, n, Derived),
      Factor(StageCount, n, Derived),
      Factor(StagingOverhead, stage, if hops > 1 then a.worst else Derived),
      Factor(HostStagingCost, hostStage, if host then a.worst else Derived),
      Factor(NumaDistance, a.numa, Derived),
      Factor(PcieLocality, a.pcie, Derived),
      Factor(NicLocality, a.nic, Derived),
      Factor(StorageLocality, stored, Derived),
      Factor(EndpointHealth, a.healthRisk, a.worst),
      Factor(ReservationFit, 0.0, Derived),
      Factor(CapacityHeadroom, a.headroom, a.worst),
      Factor(FailureDomainRisk, 0.0, Derived),
      Factor(Reliability, Clamp(n * 0.001), Derived),
      Factor(MovementCost, Clamp(a.transfer + stage + hostStage), a.worst) ]
  }

  function Weigh(w: Weights, fs: seq<Factor>): (cs: seq<CostComponent<Double>>)
    ensures |cs| == |fs|
    ensures forall i :: 0 <= i < |cs| ==> cs[i].value.NonNegFinite() && cs[i].weight == w.Of(fs[i].factor)
  {
    seq(|fs|, i requires 0 <= i < |fs| =>
      CostComponent(fs[i].factor, w.Of(fs[i].factor), Fin(Clamp(fs[i].value)), fs[i].provenance))
  }

  function ComponentsOver(req: Request, emap: map<u64, Endpoint>, lmap: map<u64, Link>, hops: seq<Hop>,
                          w: Weights): seq<CostComponent<Double>> {
    Weigh(w, Factors(req.payloadSize, |hops|, TallyOf(req.payloadSize, emap, lmap, hops),
                     HostStaged(emap, hops), StorageStaged(emap, hops)))
  }

  function CandidateCost(req: Request, snap: Snapshot, cand: CandidatePath, w: Weights): CostSummary<Double> {
    Summarize(ComponentsOver(req, EndpointMap(snap.endpoints), LinkMap(snap.links), cand.hops, w))
  }

  /** One round of the hop loop, accumulator by accumulator. */
  method ChargeHop(a: Tally, payload: u64, emap: map<u64, Endpoint>, lmap: map<u64, Link>, hop: Hop) returns (b: Tally)
    ensures b == AddHop(a, payload, emap, lmap, hop)
  {
    if hop.link !in lmap { return a; }
    var link := lmap[hop.link];
    var bw := link.effectiveBandwidth;
    if bw == 0 { bw := link.capacity; }
    var t := TransferNs(payload, bw);
    var transfer, latency := a.transfer + Clamp(t), a.latency + Clamp(link.latency as real);
    var penalty := ClampDouble(link.congestion.penalty);
    var queue, congestion := a.queue + penalty, a.congestion + penalty;
    var contention := ChargeHeadroom(a.headroom, t, bw, link.capacityEvidence);
    var numa, pcie, nic, storage := a.numa, a.pcie, a.nic, a.storage;
    if hop.from in emap && hop.to in emap {
      var s, d := emap[hop.from], emap[hop.to];
      var apart := if d.numaDistance < s.numaDistance then s.numaDistance - d.numaDistance
        else d.numaDistance - s.numaDistance;
      numa := numa + Clamp(apart as real * 200.0);
      if s.pcieRoot != d.pcieRoot { pcie := pcie + Clamp(payload as real * 0.000001); }
      if s.nic != d.nic { nic := nic + Clamp(payload as real * 0.000002); }
      if s.kind.Storage? || d.kind.Storage? { storage := storage + Clamp(payload as real * 0.000001); }
    }
    var risk, worst, p := a.healthRisk, a.worst, link.provenance;
    if p.UnknownProvenance? || p.Estimated? || p.Forecast? || p.Synthetic? { risk := risk + Clamp(transfer * 0.1); }
    if p.Synthetic? { worst := Synthetic; }
    if p.UnknownProvenance? { worst := UnknownProvenance; }
    b := Tally(latency, transfer, queue, congestion, contention, numa, pcie, nic, storage, risk, worst);
  }

  method ChargeHeadroom(before: real, t: real, bw: u64, evidence: Capacity) returns (after: real)
    ensures after == before + HeadroomNs(t, bw, evidence)
  {
    hide Contention, Clamp;
    after := before;
    if evidence.headroom > 0 {
      var divisor := Add64(evidence.headroom, 1);
      if divisor == 0 {
        after := after + if bw == 0 then MAX_COST else Clamp(t * 100.0);
      } else {
        after := after + Contention(t, bw, divisor);
      }
    } else if !evidence.provenance.UnknownProvenance? {
      after := after + Clamp(t * 2.0);
    }
  }

  /** `evaluateCandidateCost`. */
  method EvaluateCandidateCost(req: Request, snap: Snapshot, cand: CandidatePath, w: Weights)
    returns (cost: CostSummary<Double>)
    ensures cost == CandidateCost(req, snap, cand, w)
  {
    hide AddHop, Weigh, Factors, Summarize, EndpointMap, LinkMap;
    var lmap := BuildLinkMap(snap.links);
    var emap := BuildEndpointMap(snap.endpoints);
    var hops := cand.hops;
    var host, storage := false, false;
    for i := 0 to |hops| - (if hops == [] then 0 else 1)
      invariant host <==> exists j :: 0 <= j < i && hops[j].to in emap && HostKind(emap[hops[j].to].kind)
      invariant storage <==> exists j :: 0 <= j < i && hops[j].to in emap && emap[hops[j].to].kind.Storage?
    {
      if hops[i].to in emap {
        var kind := emap[hops[i].to].kind;
        if kind.Storage? { storage := true; } else if HostKind(kind) { host := true; }
      }
    }
    var tally := EMPTY;
    for i := 0 to |hops|
      invariant tally == TallyOf(req.payloadSize, emap, lmap, hops[..i])
    {
      assert hops[..i + 1][..i] == hops[..i];
      tally := ChargeHop(tally, req.payloadSize, emap, lmap, hops[i]);
    }
    assert hops[..|hops|] == hops;
    cost := SummaryOf(Weigh(w, Factors(req.payloadSize, |hops|, tally, host, storage)));
  }

  // ----- the accumulators as sums -----

  /** The sum of a charge over the known links of a path. */
  function Total(charge: Link -> real, lmap: map<u64, Link>, hops: seq<Hop>): real {
    if hops == [] then 0.0
    else
      var h := hops[|hops| - 1];
      Total(charge, lmap, hops[..|hops| - 1]) + if h.link in lmap then charge(lmap[h.link]) else 0.0
  }

  /** A hop over a doubtful link is charged a tenth of everything transferred up to and including it. */
  function DoubtTotal(payload: u64, lmap: map<u64, Link>, hops: seq<Hop>): real {
    if hops == [] then 0.0
    else
      var h := hops[|hops| - 1];
      DoubtTotal(payload, lmap, hops[..|hops| - 1])
      + if h.link in lmap && lmap[h.link].provenance in [Estimated, Forecast, Synthetic, UnknownProvenance]
        then Clamp(Total((l: Link) =>
               TransferNs(payload, if l.effectiveBandwidth != 0 then l.effectiveBandwidth else l.capacity), lmap, hops)
             * 0.1) else 0.0
  }

  /** The sum of a charge over the hops of a path whose link and both ends are known. */
  function LocalTotal(charge: (Endpoint, Endpoint) -> real, emap: map<u64, Endpoint>, lmap: map<u64, Link>,
                      hops: seq<Hop>): real
  {
    if hops == [] then 0.0
    else
      var h := hops[|hops| - 1];
      LocalTotal(charge, emap, lmap, hops[..|hops| - 1])
      + if h.link in lmap && h.from in emap && h.to in emap then charge(emap[h.from], emap[h.to]) else 0.0
  }

  /** The locality accumulators are sums of one charge per hop, too. */
  lemma {:induction false} LocalityIsSums(payload: u64, emap: map<u64, Endpoint>, lmap: map<u64, Link>, hops: seq<Hop>)
    ensures var a := TallyOf(payload, emap, lmap, hops);
      && a.numa == LocalTotal((s: Endpoint, d: Endpoint) =>
           Clamp((if s.numaDistance < d.numaDistance then d.numaDistance - s.numaDistance
                  else s.numaDistance - d.numaDistance) as real * 200.0), emap, lmap, hops)
      && a.pcie == LocalTotal((s: Endpoint, d: Endpoint) =>
           if s.pcieRoot == d.pcieRoot then 0.0 else Clamp(payload as real * 0.000001), emap, lmap, hops)
      && a.nic == LocalTotal((s: Endpoint, d: Endpoint) =>
           if s.nic == d.nic then 0.0 else Clamp(payload as real * 0.000002), emap, lmap, hops)
      && a.storage == LocalTotal((s: Endpoint, d: Endpoint) =>
           if s.kind.Storage? || d.kind.Storage? then Clamp(payload as real * 0.000001) else 0.0, emap, lmap, hops)
  {
    hide TransferNs, HeadroomNs, ClampDouble, Clamp;
    if hops != [] { LocalityIsSums(payload, emap, lmap, hops[..|hops| - 1]); }
  }

  /** The link accumulators are sums of one charge per hop. */
  lemma {:induction false} TallyIsSums(payload: u64, emap: map<u64, Endpoint>, lmap: map<u64, Link>, hops: seq<Hop>)
    ensures var a := TallyOf(payload, emap, lmap, hops);
      && a.latency == Total((l: Link) => Clamp(l.latency as real), lmap, hops)
      && a.transfer == Total((l: Link) =>
           TransferNs(payload, if l.effectiveBandwidth != 0 then l.effectiveBandwidth else l.capacity), lmap, hops)
      && a.queue == a.congestion == Total((l: Link) => ClampDouble(l.congestion.penalty), lmap, hops)
      && a.healthRisk == DoubtTotal(payload, lmap, hops)
  {
    hide TransferNs, HeadroomNs, ClampDouble, Clamp, AddLocality;
    if hops != [] {
      TallyIsSums(payload, emap, lmap, hops[..|hops| - 1]);
      LocalityApart(AddLinkAt(payload, emap, lmap, hops), payload, emap, hops[|hops| - 1]);
    }
  }

  /** The charges of the last hop's link, on top of the hops before it. */
  ghost function AddLinkAt(payload: u64, emap: map<u64, Endpoint>, lmap: map<u64, Link>, hops: seq<Hop>): Tally
    requires hops != []
  {
    var before, h := TallyOf(payload, emap, lmap, hops[..|hops| - 1]), hops[|hops| - 1];
    if h.link in lmap then AddLink(before, payload, lmap[h.link]) else before
  }

  lemma LocalityApart(a: Tally, payload: u64, emap: map<u64, Endpoint>, hop: Hop)
    ensures var b := AddLocality(a, payload, emap, hop);
      b == a.(numa := b.numa, pcie := b.pcie, nic := b.nic, storage := b.storage)
  {
  }

  lemma {:induction false} HeadroomIsSum(payload: u64, emap: map<u64, Endpoint>, lmap: map<u64, Link>, hops: seq<Hop>)
    ensures TallyOf(payload, emap, lmap, hops).headroom == Total((l: Link) =>
      var bw := if l.effectiveBandwidth != 0 then l.effectiveBandwidth else l.capacity;
      HeadroomNs(TransferNs(payload, bw), bw, l.capacityEvidence), lmap, hops)
  {
    hide TransferNs, HeadroomNs, ClampDouble, Clamp, AddLocality;
    if hops != [] {
      HeadroomIsSum(payload, emap, lmap, hops[..|hops| - 1]);
      LocalityApart(AddLinkAt(payload, emap, lmap, hops), payload, emap, hops[|hops| - 1]);
    }
  }

  // ----- what is known of every cost -----

  /** A finite non-negative double. */
  predicate Magnitude(d: Double) { d.NonNegFinite() && d.r <= MaxDouble() }

  /** Every configured weight is one. */
  predicate ValidWeights(w: Weights) {
    forall f :: f in w.configured ==> Magnitude(w.configured[f])
  }

  lemma WeightsInUse(w: Weights, f: CostFactor)
    requires ValidWeights(w)
    ensures Magnitude(w.Of(f))
  {
    hide MaxDouble;
    assert MaxDouble() >= 1.0;
  }

  /** Whatever the evidence, no component value is NaN, infinite, negative or beyond the clamp. With valid
      weights the total is finite exactly when the weighted sum does not overflow. */
  lemma CostsAreFinite(req: Request, emap: map<u64, Endpoint>, lmap: map<u64, Link>, hops: seq<Hop>, w: Weights)
    ensures var s := Summarize(ComponentsOver(req, emap, lmap, hops, w));
      && (forall c :: c in s.components ==> c.value.NonNegFinite() && c.value.r <= MAX_COST)
      && (ValidWeights(w) ==>
            && (forall c :: c in s.components ==> ValidComponent(c) && Magnitude(c.weight))
            && (s.total.Finite() <==> !Overflows(s.components)))
  {
    hide MaxDouble, TallyOf, Factors, HostStaged, StorageStaged, WeightedSum;
    var cs := ComponentsOver(req, emap, lmap, hops, w);
    forall c | c in cs
      ensures c.value.NonNegFinite() && c.value.r <= MAX_COST
      ensures ValidWeights(w) ==> ValidComponent(c) && Magnitude(c.weight)
    {
      var i :| 0 <= i < |cs| && cs[i] == c;
      if ValidWeights(w) { WeightsInUse(w, c.factor); }
    }
  }

  /** Weights small enough for nineteen components at the clamp. */
  ghost predicate LightWeights(w: Weights) {
    ValidWeights(w) && forall f :: w.Of(f).r <= LightestCap()
  }

  function LightestCap(): real { MaxDouble() / (19.0 * MAX_COST) }

  lemma {:induction false} LightSum(cs: seq<CostComponent<Double>>, each: real)
    requires forall c :: c in cs ==> Charge(c) <= each
    ensures WeightedSum(cs) <= |cs| as real * each
  {
    hide Charge;
    if cs != [] {
      var front := cs[..|cs| - 1];
      assert cs[|cs| - 1] in cs && forall c :: c in front ==> c in cs;
      LightSum(front, each);
      OneMoreTimes(|front|, each);
    }
  }

  lemma OneMoreTimes(n: nat, each: real)
    ensures (n + 1) as real * each == n as real * each + each
  {
  }

  lemma LightCharge(c: CostComponent<Double>, cap: real)
    requires ValidComponent(c) && c.weight.r <= cap && c.value.r <= MAX_COST
    ensures Charge(c) <= cap * MAX_COST
  {
    LargerBoth(c.weight.r, c.value.r, cap, MAX_COST);
  }

  lemma NineteenCharges(req: Request, emap: map<u64, Endpoint>, lmap: map<u64, Link>, hops: seq<Hop>, w: Weights)
    ensures |ComponentsOver(req, emap, lmap, hops, w)| == 19
    ensures 19.0 * (LightestCap() * MAX_COST) == MaxDouble()
  {
    hide MaxDouble, TallyOf, HostStaged, StorageStaged, Weigh;
  }

  /** Such weights never make a total overflow, whatever the evidence. */
  lemma LightWeightsDoNotOverflow(req: Request, emap: map<u64, Endpoint>, lmap: map<u64, Link>, hops: seq<Hop>,
                                  w: Weights)
    requires LightWeights(w)
    ensures !Overflows(ComponentsOver(req, emap, lmap, hops, w))
  {
    hide MaxDouble, WeightedSum, TallyOf, HostStaged, StorageStaged, ValidComponent, Charge, LightestCap, Factors,
      Weigh, ValidWeights;
    var cs := ComponentsOver(req, emap, lmap, hops, w);
    CostsAreFinite(req, emap, lmap, hops, w);
    NineteenCharges(req, emap, lmap, hops, w);
    forall c | c in cs ensures Charge(c) <= LightestCap() * MAX_COST {
      var i :| 0 <= i < |cs| && cs[i] == c;
      LightCharge(c, LightestCap());
    }
    LightSum(cs, LightestCap() * MAX_COST);
  }
}
