/** Which error a faulty store is refused with. */
module StoreCodes {
  import opened Core
  import opened Model
  import opened Wire
  import opened Checksum
  import opened Ieee
  import opened StoreCodec
  import opened StoreValidity
  import opened StoreFormat

  // ----- the header -----

  /** A header too short for its magic, with the wrong magic, or with the wrong version, is refused for that. */
  lemma MagicCodes(data: Bytes)
    ensures |data| < 4 ==> Parse(data) == Refused(Truncation)
    ensures |data| >= 4 && ReadLE(4, data).value != 0x43504C52 ==> Parse(data) == Refused(BadMagic)
    ensures |data| >= 4 && ReadLE(4, data).value == 0x43504C52 ==>
      && (|data| < 8 ==> Parse(data) == Refused(Truncation))
      && (|data| >= 8 && ReadLE(4, data[4..]).value != 1 ==> Parse(data) == Refused(UnsupportedVersion))
  {
    hide Fnv, ParsePayload, ReadLE;
    if |data| >= 4 { PutLEOfReadLE(4, data); }
  }

  /** Else it is refused for its length, if that is past the end, and then for its checksum, if that is not the one of
      the body. */
  lemma LengthCodes(data: Bytes)
    requires |data| >= 8 && ReadLE(4, data).value == 0x43504C52 && ReadLE(4, data[4..]).value == 1
    ensures |data| < 24 ==> Parse(data) == Refused(Truncation)
    ensures |data| >= 24 ==>
      var length := ReadLE(8, data[16..]).value;
      && (24 + length > |data| ==> Parse(data) == Refused(Truncation))
      && (24 + length <= |data| && Fnv(data[24..24 + length]) != ReadLE(8, data[8..]).value ==>
            Parse(data) == Refused(ChecksumMismatch))
  {
    hide Fnv, ParsePayload, ReadLE;
    PutLEOfReadLE(4, data);
    PutLEOfReadLE(4, data[4..]);
    assert data[4..][4..] == data[8..];
    SumAndLength(data);
  }

  lemma SumAndLength(data: Bytes)
    requires |data| >= 8
    ensures |data| >= 16 ==> ReadLE(8, data[8..]).rest == data[16..]
    ensures |data| >= 24 ==> ReadLE(8, data[16..]).rest == data[24..]
    ensures forall n: nat :: 24 + n <= |data| ==> data[24..][..n] == data[24..24 + n]
  {
    hide ReadLE;
    if |data| >= 16 {
      PutLEOfReadLE(8, data[8..]);
      assert data[8..][8..] == data[16..];
      if |data| >= 24 {
        PutLEOfReadLE(8, data[16..]);
        assert data[16..][8..] == data[24..];
      }
    }
  }

  // ----- paths -----

  function Before(p: Path<u64>, k: nat): u64
    requires k <= |p.stages|
  {
    if k == 0 then p.source else p.stages[k - 1].destination
  }

  /** The stage goes on from where the path stands, to an endpoint not entered before. */
  ghost predicate GoesOn(p: Path<u64>, k: nat)
    requires k < |p.stages|
  {
    && p.stages[k].source == Before(p, k) && p.stages[k].destination != p.stages[k].source
    && forall j :: 0 <= j < k ==> p.stages[j].destination != p.stages[k].destination
  }

  /** The endpoints entered by the first `n` stages. */
  ghost function Entered(p: Path<u64>, n: nat): set<u64>
    requires n <= |p.stages|
  {
    set j | 0 <= j < n :: p.stages[j].destination
  }

  lemma EnteredNext(p: Path<u64>, n: nat)
    requires n < |p.stages|
    ensures Entered(p, 0) == {} && Entered(p, n + 1) == Entered(p, n) + {p.stages[n].destination}
    ensures p.stages[n].destination in Entered(p, n) <==>
      exists j :: 0 <= j < n && p.stages[j].destination == p.stages[n].destination
  {
  }

  lemma {:induction false} ChainGoesOn(p: Path<u64>, i: nat, k: nat)
    requires i <= k <= |p.stages| && forall j :: i <= j < k ==> GoesOn(p, j)
    ensures ChainVerdict(p, i, Before(p, i), Entered(p, i)) == ChainVerdict(p, k, Before(p, k), Entered(p, k))
    decreases k - i
  {
    hide Entered;
    if i < k {
      ChainGoesOn(p, i + 1, k);
      EnteredNext(p, i);
      assert GoesOn(p, i);
    }
  }

  /** The first stage that does not go on makes its path INVALID_STAGE_ORDER if it starts elsewhere, and
      CYCLE_FORBIDDEN if it stays or returns. */
  lemma StageCode(p: Path<u64>, k: nat)
    requires k < |p.stages| && !GoesOn(p, k) && forall j :: 0 <= j < k ==> GoesOn(p, j)
    ensures ChainVerdict(p, 0, p.source, {}) ==
      Some(if p.stages[k].source != Before(p, k) then InvalidStageOrder else CycleForbidden)
  {
    hide Entered;
    EnteredNext(p, k);
    ChainGoesOn(p, 0, k);
  }

  /** A path that goes on to the end, but not to its destination, is PATH_MISSING_ENDPOINT. */
  lemma EndCode(p: Path<u64>)
    requires forall j :: 0 <= j < |p.stages| ==> GoesOn(p, j)
    ensures ChainVerdict(p, 0, p.source, {}) ==
      if Before(p, |p.stages|) != p.destination && p.stages != [] then Some(PathMissingEndpoint) else None
  {
    assert Entered(p, 0) == {};
    ChainGoesOn(p, 0, |p.stages|);
  }

  /** A path is faulted for a stage's payload first, then for its chain, then for an endpoint the plan does not
      bind. */
  lemma PathCodes(plan: Plan<u64>, p: Path<u64>)
    ensures var v := StoreValidity.PathVerdict(plan, p);
      var chain := ChainVerdict(p, 0, p.source, {});
      var carried := forall s :: s in p.stages ==> s.payload == p.totalPayload;
      var bound := forall s :: s in p.stages ==> Binds(plan, s.source) && Binds(plan, s.destination);
      v == if !carried then Some(PayloadMismatch) else if chain.Some? then chain
           else if !bound then Some(PathMissingEndpoint) else None
  {
    hide ChainVerdict, Binds, BindsEndpoint;
    forall i | 0 <= i < |p.stages|
      ensures p.stages[i] in p.stages && (Carries(p, i) <==> p.stages[i].payload == p.totalPayload)
      ensures BindsStage(plan, p.stages[i]) <==> Binds(plan, p.stages[i].source) && Binds(plan, p.stages[i].destination)
    {
      BindsIff(plan, p.stages[i].source);
      BindsIff(plan, p.stages[i].destination);
    }
    assert (forall s :: s in p.stages ==> s.payload == p.totalPayload)
      <==> forall i :: 0 <= i < |p.stages| ==> Carries(p, i);
    assert (forall s :: s in p.stages ==> Binds(plan, s.source) && Binds(plan, s.destination))
      <==> forall i :: 0 <= i < |p.stages| ==> BindsStage(plan, p.stages[i]);
  }

  ghost predicate Binds(plan: Plan<u64>, id: u64) { exists eg :: eg in plan.endpointGenerations && eg.0 == id }

  lemma BindsIff(plan: Plan<u64>, id: u64)
    ensures BindsEndpoint(plan, id) <==> Binds(plan, id)
  {
    if BindsEndpoint(plan, id) {
      var j :| 0 <= j < |plan.endpointGenerations| && plan.endpointGenerations[j].0 == id;
      assert plan.endpointGenerations[j] in plan.endpointGenerations;
    }
  }

  // ----- records -----

  /** No figure is NaN, infinite or, but for the total, negative. */
  ghost predicate SoundFigures(c: CostSummary<u64>) {
    && DoubleOf(c.total).Fin?
    && forall k :: k in c.components ==>
         && DoubleOf(k.weight).Fin? && DoubleOf(k.weight).r >= 0.0
         && DoubleOf(k.value).Fin? && DoubleOf(k.value).r >= 0.0
  }

  lemma FiguresIff(c: CostSummary<u64>)
    ensures CostValid(c) <==> SoundFigures(c)
  {
    hide DoubleOf;
    if SoundFigures(c) {
      forall i | 0 <= i < |c.components| ensures ComponentValid(c.components[i]) {
        assert c.components[i] in c.components;
      }
    }
  }

  /** A record is faulted for its figures first, then for a path, then for a primary path that is not among them,
      then for executing without claims. */
  lemma RecordCodes(rec: Record)
    ensures var v := RecordVerdict(rec);
      var paths := StoreValidity.PathsVerdict(rec.plan, 0, {});
      var listed := exists p :: p in rec.plan.candidatePaths && p.id == rec.plan.primaryPath;
      v == if !SoundFigures(rec.plan.cost) then Some(NanInfCost) else if paths.Some? then paths
           else if rec.plan.primaryPath != 0 && !listed then Some(SelectedPlanNotInCandidateSet)
           else if rec.state in [Committed, AwaitingExecution, Active] && rec.plan.requiredResourceClaims == []
           then Some(CommittedPlanNoEvidence) else None
  {
    hide DoubleOf, StoreValidity.PathsVerdict, CostValid, SoundFigures;
    FiguresIff(rec.plan.cost);
    if HasPath(rec.plan, rec.plan.primaryPath) {
      var i :| 0 <= i < |rec.plan.candidatePaths| && rec.plan.candidatePaths[i].id == rec.plan.primaryPath;
      assert rec.plan.candidatePaths[i] in rec.plan.candidatePaths;
    }
  }

  // ----- requests -----

  /** A restored request has the identity, ends, payload, direction and collective of the one that was stored, and
      the defaults of a new one everywhere else: staging through hosts and relays, but neither storage nor multicast,
      any transport, any failure domain, sixteen hops and stages, no policy, and no participants. */
  lemma RestoredRequest(r: Request)
    ensures var q := Persisted(r);
      && q.id == r.id && q.generation == r.generation && q.shape == r.shape && q.source == r.source
      && q.destinations == r.destinations && q.payloadSize == r.payloadSize && q.direction == r.direction
      && q.collectiveShape == r.collectiveShape && q.collectiveCount == r.collectiveCount
      && q.allowStaging && q.allowHostStaging && q.allowRelay && !q.allowStorageStaging && !q.allowMulticast
      && q.allowed == {} && q.forbidden == {} && q.requiredFailureDomain == []
      && q.maxHops == 16 && q.maxStages == 16 && q.policyGeneration == 0 && q.participants == []
  {
  }
}
