/** `validateStore`, and `conservativeRecovery`. */
module StoreValidity {
  import opened Core
  import opened Model
  import opened Wire
  import opened StoreCodec
  import opened Ieee

  // ----- the first error, in the order of the code -----

  /** Walks the stages: each starts where the last ended, none is a loop, no destination comes twice. */
  function ChainVerdict(p: Path<u64>, i: nat, prev: u64, seen: set<u64>): Option<Code>
    requires i <= |p.stages|
    decreases |p.stages| - i
  {
    if i == |p.stages| then
      if p.stages != [] && prev != p.destination then Some(PathMissingEndpoint) else None
    else
      var s := p.stages[i];
      if s.source != prev then Some(InvalidStageOrder)
      else if s.source == s.destination then Some(CycleForbidden)
      else if s.destination in seen then Some(CycleForbidden)
      else ChainVerdict(p, i + 1, s.destination, seen + {s.destination})
  }

  predicate Carries(p: Path<u64>, i: nat)
    requires i < |p.stages|
  {
    p.stages[i].payload == p.totalPayload
  }

  predicate BindsEndpoint(plan: Plan<u64>, id: u64) {
    exists j :: 0 <= j < |plan.endpointGenerations| && plan.endpointGenerations[j].0 == id
  }

  predicate BindsStage(plan: Plan<u64>, s: Stage) {
    BindsEndpoint(plan, s.source) && BindsEndpoint(plan, s.destination)
  }

  function PathVerdict(plan: Plan<u64>, p: Path<u64>): Option<Code> {
    if exists i :: 0 <= i < |p.stages| && !Carries(p, i) then Some(PayloadMismatch)
    else
      var v := ChainVerdict(p, 0, p.source, {});
      if v.Some? then v
      else if exists i :: 0 <= i < |p.stages| && !BindsStage(plan, p.stages[i]) then Some(PathMissingEndpoint)
      else None
  }

  function PathsVerdict(plan: Plan<u64>, i: nat, ids: set<u64>): Option<Code>
    requires i <= |plan.candidatePaths|
    decreases |plan.candidatePaths| - i
  {
    if i == |plan.candidatePaths| then None
    else
      var p := plan.candidatePaths[i];
      if p.id in ids then Some(DuplicateId)
      else
        var v := PathVerdict(plan, p);
        if v.Some? then v else PathsVerdict(plan, i + 1, ids + {p.id})
  }

  predicate ComponentValid(c: CostComponent<u64>) {
    DoubleOf(c.weight).NonNegFinite() && DoubleOf(c.value).NonNegFinite()
  }

  predicate CostValid(c: CostSummary<u64>) {
    DoubleOf(c.total).Finite() && forall i :: 0 <= i < |c.components| ==> ComponentValid(c.components[i])
  }

  predicate HasPath(plan: Plan<u64>, id: u64) {
    exists i :: 0 <= i < |plan.candidatePaths| && plan.candidatePaths[i].id == id
  }

  predicate Executing(s: PlanState) { s.Committed? || s.AwaitingExecution? || s.Active? }

  function RecordVerdict(rec: Record): Option<Code> {
    if !CostValid(rec.plan.cost) then Some(NanInfCost)
    else
      var v := PathsVerdict(rec.plan, 0, {});
      if v.Some? then v
      else if !HasPath(rec.plan, rec.plan.primaryPath) && rec.plan.primaryPath != 0 then
        Some(SelectedPlanNotInCandidateSet)
      else if Executing(rec.state) && rec.plan.requiredResourceClaims == [] then Some(CommittedPlanNoEvidence)
      else None
  }

  function RecordsVerdict(recs: seq<Record>, i: nat, ids: set<u64>): Option<Code>
    requires i <= |recs|
    decreases |recs| - i
  {
    if i == |recs| then None
    else if recs[i].plan.id in ids then Some(DuplicateId)
    else
      var v := RecordVerdict(recs[i]);
      if v.Some? then v else RecordsVerdict(recs, i + 1, ids + {recs[i].plan.id})
  }

  predicate DistinctRequests(rs: seq<Request>) {
    forall i, j :: 0 <= i < j < |rs| ==> rs[i].id != rs[j].id
  }

  function StoreVerdict(s: Store): Option<Code> {
    var v := RecordsVerdict(s.plans, 0, {});
    if v.Some? then v else if !DistinctRequests(s.requests) then Some(DuplicateId) else None
  }

  // ----- validity as a conjunction -----

  predicate Follows(p: Path<u64>, k: nat)
    requires k < |p.stages|
  {
    && p.stages[k].source == (if k == 0 then p.source else p.stages[k - 1].destination)
    && p.stages[k].source != p.stages[k].destination
  }

  /** From stage `i` on, each stage starts where the last ended and enters an endpoint not entered
      before; and the last one ends at the path's destination. */
  ghost predicate ChainsFrom(p: Path<u64>, i: nat) {
    && (forall k :: i <= k < |p.stages| ==> Follows(p, k))
    && (forall j, k :: 0 <= j < k < |p.stages| && i <= k ==> p.stages[j].destination != p.stages[k].destination)
    && (p.stages != [] ==> p.stages[|p.stages| - 1].destination == p.destination)
  }

  ghost predicate Chains(p: Path<u64>) { ChainsFrom(p, 0) }

  ghost predicate PathValid(plan: Plan<u64>, p: Path<u64>) {
    && (forall i :: 0 <= i < |p.stages| ==> Carries(p, i) && BindsStage(plan, p.stages[i]))
    && Chains(p)
  }

  ghost predicate RecordValid(rec: Record) {
    && CostValid(rec.plan.cost)
    && (forall i :: 0 <= i < |rec.plan.candidatePaths| ==> PathValid(rec.plan, rec.plan.candidatePaths[i]))
    && (forall i, j :: 0 <= i < j < |rec.plan.candidatePaths| ==>
          rec.plan.candidatePaths[i].id != rec.plan.candidatePaths[j].id)
    && (rec.plan.primaryPath != 0 ==> HasPath(rec.plan, rec.plan.primaryPath))
    && (Executing(rec.state) ==> rec.plan.requiredResourceClaims != [])
  }

  ghost predicate DistinctPlans(recs: seq<Record>) {
    forall i, j :: 0 <= i < j < |recs| ==> recs[i].plan.id != recs[j].plan.id
  }

  ghost predicate StoreValid(s: Store) {
    && (forall i :: 0 <= i < |s.plans| ==> RecordValid(s.plans[i]))
    && DistinctPlans(s.plans) && DistinctRequests(s.requests)
  }

  lemma {:induction false} ChainVerdictDecides(p: Path<u64>, i: nat, prev: u64, seen: set<u64>)
    requires i <= |p.stages|
    requires prev == (if i == 0 then p.source else p.stages[i - 1].destination)
    requires seen == set j | 0 <= j < i :: p.stages[j].destination
    ensures ChainVerdict(p, i, prev, seen).None? <==> ChainsFrom(p, i)
    decreases |p.stages| - i
  {
    if i < |p.stages| {
      var s := p.stages[i];
      assert Follows(p, i) <==> s.source == prev && s.source != s.destination;
      if Follows(p, i) && s.destination !in seen {
        ChainVerdictDecides(p, i + 1, s.destination, seen + {s.destination});
      } else if s.destination in seen {
        var j :| 0 <= j < i && p.stages[j].destination == s.destination;
      }
    }
  }

  lemma PathVerdictDecides(plan: Plan<u64>, p: Path<u64>)
    ensures PathVerdict(plan, p).None? <==> PathValid(plan, p)
  {
    hide Carries, BindsStage, ChainVerdict;
    ChainVerdictDecides(p, 0, p.source, {});
    assert ChainVerdict(p, 0, p.source, {}).None? <==> Chains(p);
    if PathVerdict(plan, p).None? {
      forall i | 0 <= i < |p.stages| ensures Carries(p, i) && BindsStage(plan, p.stages[i]) {}
    }
  }

  lemma {:induction false} PathsVerdictDecides(plan: Plan<u64>, i: nat, ids: set<u64>)
    requires i <= |plan.candidatePaths|
    requires ids == set j | 0 <= j < i :: plan.candidatePaths[j].id
    ensures PathsVerdict(plan, i, ids).None? <==>
      && (forall k :: i <= k < |plan.candidatePaths| ==> PathValid(plan, plan.candidatePaths[k]))
      && (forall j, k :: 0 <= j < k < |plan.candidatePaths| && i <= k ==>
            plan.candidatePaths[j].id != plan.candidatePaths[k].id)
    decreases |plan.candidatePaths| - i
  {
    hide PathValid, PathVerdict;
    if i < |plan.candidatePaths| {
      var p := plan.candidatePaths[i];
      PathVerdictDecides(plan, p);
      if p.id !in ids {
        PathsVerdictDecides(plan, i + 1, ids + {p.id});
      } else {
        var j :| 0 <= j < i && plan.candidatePaths[j].id == p.id;
      }
    }
  }

  lemma RecordVerdictDecides(rec: Record)
    ensures RecordVerdict(rec).None? <==> RecordValid(rec)
  {
    hide PathValid, PathsVerdict, CostValid;
    PathsVerdictDecides(rec.plan, 0, {});
  }

  lemma {:induction false} RecordsVerdictDecides(recs: seq<Record>, i: nat, ids: set<u64>)
    requires i <= |recs|
    requires ids == set j | 0 <= j < i :: recs[j].plan.id
    ensures RecordsVerdict(recs, i, ids).None? <==>
      && (forall k :: i <= k < |recs| ==> RecordValid(recs[k]))
      && (forall j, k :: 0 <= j < k < |recs| && i <= k ==> recs[j].plan.id != recs[k].plan.id)
    decreases |recs| - i
  {
    hide RecordValid, RecordVerdict;
    if i < |recs| {
      RecordVerdictDecides(recs[i]);
      if recs[i].plan.id !in ids {
        RecordsVerdictDecides(recs, i + 1, ids + {recs[i].plan.id});
      } else {
        var j :| 0 <= j < i && recs[j].plan.id == recs[i].plan.id;
      }
    }
  }

  /** `validateStore` accepts exactly the valid stores. */
  lemma StoreVerdictDecides(s: Store)
    ensures StoreVerdict(s).None? <==> StoreValid(s)
  {
    hide RecordValid, RecordsVerdict;
    RecordsVerdictDecides(s.plans, 0, {});
  }

  // ----- recovery -----

  predicate Executable(s: PlanState) {
    s.PlanReady? || s.AwaitingResourceCommit? || Executing(s)
  }

  function Recover(s: PlanState): PlanState { if Executable(s) then RevalidationRequired else s }

  function RecoverRecord(rec: Record): Record { rec.(state := Recover(rec.state)) }

  function Recovered(recs: seq<Record>): (r: seq<Record>)
    ensures |r| == |recs| && forall i :: 0 <= i < |r| ==> r[i] == RecoverRecord(recs[i])
  {
    seq(|recs|, i requires 0 <= i < |recs| => RecoverRecord(recs[i]))
  }

  /** `conservativeRecovery` rewrites the states in place. */
  method ConservativeRecovery(recs: array<Record>)
    modifies recs
    ensures recs[..] == Recovered(old(recs[..]))
  {
    for i := 0 to recs.Length
      invariant forall j :: 0 <= j < i ==> recs[j] == RecoverRecord(old(recs[j]))
      invariant forall j :: i <= j < recs.Length ==> recs[j] == old(recs[j])
    {
      var s := recs[i].state;
      if s.PlanReady? || s.AwaitingResourceCommit? || s.Committed? || s.AwaitingExecution? || s.Active? {
        recs[i] := recs[i].(state := RevalidationRequired);
      }
    }
  }

  /** A recovered store is as valid as it was, and none of its plans can be committed or executed
      without passing revalidation again. */
  lemma RecoveryIsConservative(s: Store)
    requires StoreValid(s)
    ensures StoreValid(s.(plans := Recovered(s.plans)))
    ensures forall rec :: rec in Recovered(s.plans) ==> !Executable(rec.state)
  {
    hide PathValid, CostValid, HasPath;
    forall i | 0 <= i < |s.plans| ensures RecordValid(Recovered(s.plans)[i]) {
      assert RecordValid(s.plans[i]);
    }
  }
}
