/** What a commit asks of the broker, when it is granted, and what becomes of the plan. */
module CommitGrants {
  import opened Core
  import opened Model
  import opened Sorting
  import opened Broker
  import opened StoreValidity
  import opened Coordinator
  import opened CoordinatorInvariants
  import opened CoordinatorRuns
  import opened ExecutionHistory
  import opened Cancellation

  // ----- the broker of a run -----

  /** In a run every resource has the default capacity, and no failure is ever scripted. */
  ghost predicate Plain(l: Ledger) { l.defaultCap == 0x4000_0000 && l.caps == map[] && l.failAfter == -1 }

  lemma AcquireKeepsPlain(l: Ledger, resources: seq<u64>, sizes: seq<u64>)
    requires Plain(l) && |resources| == |sizes|
    ensures Plain(Acquire(l, resources, sizes).0)
  {
    hide ChargeAll;
  }

  lemma CancelLedger(st: State, request: u64, plan: u64)
    ensures var after := Cancel(st, request, plan);
      after.broker == st.broker || (plan in st.plans
                                    && after.broker == Release(st.broker, st.plans[plan].plan.requiredResourceClaims))
    ensures var after := Supersede(st, request, plan);
      after.broker == st.broker || (plan in st.plans
                                    && after.broker == Release(st.broker, st.plans[plan].plan.requiredResourceClaims))
  {
    hide Release;
  }

  lemma PlainStep(cfg: Config, st: State, e: Event)
    requires Enabled(st, e) && Plain(st.broker)
    ensures Plain(Step(cfg, st, e).broker)
  {
    hide SubmitRequest, BeginCommit, EndCommit, Cancel, Supersede, Revalidate, Handoff, ExecutionResult, Acquire;
    if !PlanStep(e) {
      EvidenceStepKeepsPlans(cfg, st, e);
    } else {
      match e
      case ESubmitRequest(_, req) => SubmitTouchesOnlyPlans(cfg, st, req);
      case EBeginCommit(s, plan) => BeginKeepsLedger(st, s, plan);
      case EAskBroker(s) =>
        AcquireKeepsPlain(st.broker, st.commits[s].claims, Repeat(st.commits[s].size, |st.commits[s].claims|));
      case EEndCommit(s) => EndCommitIsTame(st, s);
      case ERevalidate(_, plan) => RevalidationIsTame(st, plan);
      case EHandoff(_, plan) => RevalidationIsTame(st, plan);
      case EResult(_, plan, worker, boot, ok) => ResultKeepsLedger(st, plan, worker, boot, ok);
      case ECancel(_, request, plan) => CancelLedger(st, request, plan);
      case ESupersede(_, request, plan) => CancelLedger(st, request, plan);
    }
  }

  lemma BeginKeepsLedger(st: State, s: Socket, plan: u64)
    ensures BeginCommit(st, s, plan).broker == st.broker
  {
  }

  lemma {:induction false} BrokerIsPlain(cfg: Config, r: Run, i: nat)
    requires IsRun(cfg, r) && i < |r.states|
    ensures Plain(r.states[i].broker)
    decreases i
  {
    hide Initial, Step, Enabled;
    if i == 0 {
      InitialLedger(r.states[0]);
    } else {
      BrokerIsPlain(cfg, r, i - 1);
      PlainStep(cfg, r.states[i - 1], r.events[i - 1]);
    }
  }

  lemma InitialLedger(st: State)
    requires Initial(st)
    ensures st.broker == Ledger(0x4000_0000, map[], map[], -1)
  {
    hide LoadRecords, Recovered;
    if st != EMPTY_STATE {
      var store :| StoreValid(store) && st == Load(store);
      RecoveryIsConservative(store);
      LoadedRecords(Recovered(store.plans));
    }
  }

  // ----- what is asked -----

  /** The payload of the plan's first stage, or 1024 if it has none: what each of its claims asks for. */
  function Share(plan: Plan<Double>): u64 {
    if plan.orderedStages != [] then plan.orderedStages[0].payload else 1024
  }

  /** Every commit that has yet to ask asks for its own plan's claims, each by that plan's share. */
  ghost predicate AsksItsShare(st: State) {
    forall s :: s in st.commits && st.commits[s].Asking? ==>
      st.commits[s].plan in st.plans && st.commits[s].size == Share(st.plans[st.commits[s].plan].plan)
  }

  lemma AskingCommits(cfg: Config, st: State, e: Event, s: Socket)
    requires Enabled(st, e) && s in Step(cfg, st, e).commits && Step(cfg, st, e).commits[s].Asking?
    ensures var c := Step(cfg, st, e).commits[s];
      || (s in st.commits && st.commits[s] == c)
      || (e == EBeginCommit(s, c.plan) && c.plan in st.plans && Committable(st.plans[c.plan].state)
          && c.size == Share(st.plans[c.plan].plan))
  {
    hide SubmitRequest, EndCommit, Cancel, Supersede, Revalidate, Handoff, ExecutionResult, Acquire;
    if !PlanStep(e) {
      EvidenceStepKeepsPlans(cfg, st, e);
    } else {
      match e
      case ESubmitRequest(_, req) => SubmitTouchesOnlyPlans(cfg, st, req);
      case EBeginCommit(_, plan) =>
      case EAskBroker(_) =>
      case EEndCommit(s') => EndCommitIsTame(st, s');
      case ERevalidate(_, plan) => RevalidationIsTame(st, plan);
      case EHandoff(_, plan) => RevalidationIsTame(st, plan);
      case EResult(_, plan, worker, boot, ok) => ResultKeepsLedger(st, plan, worker, boot, ok);
      case ECancel(_, request, plan) => CancelKeepsCommits(st, request, plan);
      case ESupersede(_, request, plan) => CancelKeepsCommits(st, request, plan);
    }
  }

  lemma {:induction false} CommitsAskTheirShare(cfg: Config, r: Run, i: nat)
    requires IsRun(cfg, r) && i < |r.states| && NumbersLast(r, i)
    ensures AsksItsShare(r.states[i])
    decreases i
  {
    hide Initial, Step, Enabled, Share, Numbered;
    if i == 0 {
      InitialFacts(r.states[0]);
    } else {
      var st, e, after := r.states[i - 1], r.events[i - 1], r.states[i];
      CommitsAskTheirShare(cfg, r, i - 1);
      RunsAreNumbered(cfg, r, i);
      RunsAreNumbered(cfg, r, i - 1);
      forall s | s in after.commits && after.commits[s].Asking?
        ensures after.commits[s].plan in after.plans
        ensures after.commits[s].size == Share(after.plans[after.commits[s].plan].plan)
      {
        AskingCommits(cfg, st, e, s);
        NumberedCommit(st, e, after.commits[s]);
        PlanStays(cfg, st, e, after.commits[s].plan);
      }
    }
  }

  lemma NumberedCommit(st: State, e: Event, c: Commit)
    requires Numbered(st)
    requires (exists s :: s in st.commits && st.commits[s] == c)
      || (c.plan in st.plans && Committable(st.plans[c.plan].state))
    ensures c.plan in st.plans && c.plan < st.ids.plan
  {
    if s :| s in st.commits && st.commits[s] == c { assert InFlight(st, st.commits[s]); }
  }

  // ----- what is granted -----

  /** What is held of a resource. */
  function Holding(l: Ledger, resource: u64): u64 { if resource in l.held then l.held[resource] else 0 }

  /** What is held and the share together are within the capacity, in the 64-bit sum the broker takes. */
  predicate HasRoom(held: u64, share: u64) { (held + share) % TWO64 <= 0x4000_0000 }

  /** In plain numbers: the sum is within the capacity, or wraps around to something that is. */
  lemma RoomIff(held: u64, share: u64)
    ensures HasRoom(held, share) <==> held + share <= 0x4000_0000 || TWO64 <= held + share <= TWO64 + 0x4000_0000
  {
    if held + share >= TWO64 { assert (held + share) % TWO64 == held + share - TWO64; }
  }

  lemma GrantIff(l: Ledger, claims: seq<u64>, share: u64)
    requires Plain(l)
    ensures Acquire(l, claims, Repeat(share, |claims|)).1 <==>
      forall x :: x in claims ==> HasRoom(Holding(l, x), share)
  {
    hide ChargeAll;
    var sizes := Repeat(share, |claims|);
    forall i | 0 <= i < |claims| ensures l.Affords(claims[i], sizes[i]) <==> HasRoom(Holding(l, claims[i]), share) {
      assert share % TWO64 == share;
    }
    if forall x :: x in claims ==> HasRoom(Holding(l, x), share) {
      forall i | 0 <= i < |claims| ensures l.Affords(claims[i], sizes[i]) { assert claims[i] in claims; }
    }
    if Acquire(l, claims, sizes).1 {
      forall x | x in claims ensures HasRoom(Holding(l, x), share) {
        var i :| 0 <= i < |claims| && claims[i] == x;
        assert l.Affords(claims[i], sizes[i]);
      }
    }
  }

  lemma GrantedHoldings(l: Ledger, claims: seq<u64>, share: u64, x: u64)
    requires Distinct(claims) && Acquire(l, claims, Repeat(share, |claims|)).1
    ensures Holding(Acquire(l, claims, Repeat(share, |claims|)).0, x) ==
      if x in claims then (Holding(l, x) + share) % TWO64 else Holding(l, x)
  {
    hide ChargeAll, Acquire, Claimed;
    var sizes := Repeat(share, |claims|);
    Granted(l, claims, sizes);
    ChargedTotals(l.held, claims, sizes, x);
    if x in claims {
      var i :| 0 <= i < |claims| && claims[i] == x;
      DistinctTotals(claims, sizes, i);
    } else {
      UnclaimedTotals(claims, sizes, x);
      assert Holding(l, x) % TWO64 == Holding(l, x);
    }
  }

  /** The acquisition of a commit in flight is granted exactly when every resource its plan claims has room for the
      payload of the plan's first stage. Then each claim's holding grows by that payload; otherwise, and on all
      other resources, the holdings stay. The commit has its answer, and nothing else changes. */
  lemma CommitIsGrantedIff(cfg: Config, r: Run, i: nat, s: Socket)
    requires IsRun(cfg, r) && i < |r.events| && NumbersLast(r, i) && r.events[i] == EAskBroker(s)
    ensures var st, after := r.states[i], r.states[i + 1];
      && s in st.commits && st.commits[s].plan in st.plans && s in after.commits
      && var plan := st.plans[st.commits[s].plan].plan;
      && after.commits[s].Answered? && after.commits[s].plan == st.commits[s].plan
      && (after.commits[s].acquired <==>
            forall x :: x in plan.requiredResourceClaims ==> HasRoom(Holding(st.broker, x), Share(plan)))
      && (forall x :: Holding(after.broker, x) ==
            if after.commits[s].acquired && x in plan.requiredResourceClaims
            then (Holding(st.broker, x) + Share(plan)) % TWO64 else Holding(st.broker, x))
      && after == st.(broker := after.broker, commits := st.commits[s := after.commits[s]])
  {
    hide Initial, Acquire, Numbered, Holding, HasRoom, Share, Repeat, Authority, UniqueEvidence, Plain;
    var st, after := r.states[i], r.states[i + 1];
    assert Enabled(st, r.events[i]);
    var c := st.commits[s];
    RunsAreNumbered(cfg, r, i);
    CommitsOfNumbered(st, s);
    CommitsAskTheirShare(cfg, r, i);
    RunsAreSound(cfg, r, i);
    BrokerIsPlain(cfg, r, i);
    GrantIff(st.broker, c.claims, c.size);
    if Acquire(st.broker, c.claims, Repeat(c.size, |c.claims|)).1 {
      forall x ensures Holding(after.broker, x) ==
        if x in c.claims then (Holding(st.broker, x) + c.size) % TWO64 else Holding(st.broker, x)
      {
        GrantedHoldings(st.broker, c.claims, c.size, x);
      }
    } else {
      forall x ensures Holding(after.broker, x) == Holding(st.broker, x) {
        RefusedHoldings(st.broker, c.claims, c.size, x);
      }
    }
  }

  lemma RefusedHoldings(l: Ledger, claims: seq<u64>, share: u64, x: u64)
    requires !Acquire(l, claims, Repeat(share, |claims|)).1
    ensures Holding(Acquire(l, claims, Repeat(share, |claims|)).0, x) == Holding(l, x)
  {
    RefusalHoldsNothing(l, claims, Repeat(share, |claims|));
  }

  lemma CommitsOfNumbered(st: State, s: Socket)
    requires Numbered(st) && s in st.commits
    ensures InFlight(st, st.commits[s])
  {
  }

  /** A payload close to 2^64 can wrap a holding around to nothing, and is granted. */
  lemma WrappedShareIsGranted()
    ensures var l := Ledger(0x4000_0000, map[], map[7 := 1], -1);
      && Plain(l) && l.Within()
      && Acquire(l, [7], Repeat(TWO64 - 1, 1)).1 && Holding(Acquire(l, [7], Repeat(TWO64 - 1, 1)).0, 7) == 0
  {
    var l := Ledger(0x4000_0000, map[], map[7 := 1], -1);
    GrantIff(l, [7], TWO64 - 1);
    assert HasRoom(1, TWO64 - 1);
    GrantedHoldings(l, [7], TWO64 - 1, 7);
  }

  // ----- what becomes of the plan -----

  /** The plan is lost to the commit: its request was cancelled, or it was, or it was superseded or retired. */
  ghost predicate Lost(st: State, id: u64)
    requires id in st.plans
  {
    || st.plans[id].plan.requestId in st.cancelled
    || st.plans[id].state == Cancelled || st.plans[id].state == Superseded || st.plans[id].state == Retired
  }

  /** A commit ends with its plan cancelled if it was lost, and else committed or failed as the broker answered;
      claims granted for a lost plan are given back, and nothing else changes. */
  lemma CommitEnds(cfg: Config, r: Run, i: nat, s: Socket)
    requires IsRun(cfg, r) && i < |r.events| && NumbersLast(r, i) && r.events[i] == EEndCommit(s)
    ensures var st, after := r.states[i], r.states[i + 1];
      && s in st.commits && st.commits[s].Answered? && st.commits[s].plan in st.plans
      && var id, granted := st.commits[s].plan, st.commits[s].acquired;
      && after.plans == st.plans[id := st.plans[id].(state :=
           if Lost(st, id) then Cancelled else if granted then Committed else Failed)]
      && (forall x :: Holding(after.broker, x) ==
            if granted && Lost(st, id) && x in st.plans[id].plan.requiredResourceClaims then 0
            else Holding(st.broker, x))
      && after == st.(plans := after.plans, broker := after.broker, commits := st.commits - {s})
  {
    hide Initial, Numbered, Step, Enabled;
    var st := r.states[i];
    EndsInRun(cfg, r, i, s);
    RunsAreNumbered(cfg, r, i);
    CommitsOfNumbered(st, s);
  }

  lemma EndsInRun(cfg: Config, r: Run, i: nat, s: Socket)
    requires IsRun(cfg, r) && i < |r.events| && r.events[i] == EEndCommit(s)
    ensures s in r.states[i].commits && r.states[i].commits[s].Answered?
    ensures r.states[i + 1] == EndCommit(r.states[i], s)
  {
    hide Initial, EndCommit;
    assert Enabled(r.states[i], r.events[i]);
  }

  // ----- a committed plan was granted its claims -----

  /** Step `j` asked the broker for the commit answered on `s` at moment `i`, and got that answer. */
  ghost predicate AnsweredAt(r: Run, j: nat, i: nat, s: Socket)
    requires |r.states| == |r.events| + 1 && i < |r.states| && s in r.states[i].commits
  {
    && j < i && r.events[j] == EAskBroker(s) && s in r.states[j].commits && s in r.states[j + 1].commits
    && r.states[j].commits[s].plan == r.states[i].commits[s].plan
    && r.states[j + 1].commits[s] == r.states[i].commits[s]
    && forall k :: j <= k < i ==> r.events[k] != EEndCommit(s)
  }

  lemma AnsweredCommits(cfg: Config, st: State, e: Event, s: Socket)
    requires Enabled(st, e) && s in Step(cfg, st, e).commits && Step(cfg, st, e).commits[s].Answered?
    ensures s in st.commits && st.commits[s].plan == Step(cfg, st, e).commits[s].plan
    ensures st.commits[s] == Step(cfg, st, e).commits[s] || e == EAskBroker(s)
    ensures e != EEndCommit(s)
  {
    hide SubmitRequest, EndCommit, Cancel, Supersede, Revalidate, Handoff, ExecutionResult, Acquire;
    if !PlanStep(e) {
      EvidenceStepKeepsPlans(cfg, st, e);
    } else {
      match e
      case ESubmitRequest(_, req) => SubmitTouchesOnlyPlans(cfg, st, req);
      case EBeginCommit(_, plan) =>
      case EAskBroker(_) =>
      case EEndCommit(s') => EndCommitIsTame(st, s');
      case ERevalidate(_, plan) => RevalidationIsTame(st, plan);
      case EHandoff(_, plan) => RevalidationIsTame(st, plan);
      case EResult(_, plan, worker, boot, ok) => ResultKeepsLedger(st, plan, worker, boot, ok);
      case ECancel(_, request, plan) => CancelKeepsCommits(st, request, plan);
      case ESupersede(_, request, plan) => CancelKeepsCommits(st, request, plan);
    }
  }

  lemma {:induction false} AnswerCameFrom(cfg: Config, r: Run, i: nat, s: Socket) returns (j: nat)
    requires IsRun(cfg, r) && i < |r.states| && s in r.states[i].commits && r.states[i].commits[s].Answered?
    ensures AnsweredAt(r, j, i, s)
    decreases i
  {
    hide Initial, Step, Enabled;
    if i == 0 {
      InitialFacts(r.states[0]);
      assert false;
    } else {
      AnsweredCommits(cfg, r.states[i - 1], r.events[i - 1], s);
      if r.events[i - 1] == EAskBroker(s) {
        j := i - 1;
      } else {
        j := AnswerCameFrom(cfg, r, i - 1, s);
      }
    }
  }

  /** In every run a plan is committed only at the end of a commit whose acquisition, earlier in the run, found room
      for the plan's share on every resource the plan claims. */
  lemma CommittedWasGranted(cfg: Config, r: Run, i: nat, id: u64)
    requires IsRun(cfg, r) && i < |r.events| && NumbersLast(r, i) && Enters(r, i, id, Committed)
    ensures exists j: nat, s: Socket ::
      && j < i && r.events[i] == EEndCommit(s) && r.events[j] == EAskBroker(s)
      && id in r.states[j].plans && r.states[j].plans[id].plan == r.states[i + 1].plans[id].plan
      && var plan := r.states[j].plans[id].plan;
      && (forall x :: x in plan.requiredResourceClaims ==> HasRoom(Holding(r.states[j].broker, x), Share(plan)))
      && (forall x :: x in plan.requiredResourceClaims ==>
            Holding(r.states[j + 1].broker, x) == (Holding(r.states[j].broker, x) + Share(plan)) % TWO64)
  {
    hide Initial, Step, Enabled, HasRoom, Holding, Share, Numbered;
    StepExplains(cfg, r.states[i], r.events[i], id);
    var s := r.events[i].sock;
    var j := AnswerCameFrom(cfg, r, i, s);
    CommitIsGrantedIff(cfg, r, j, s);
    StillInFlight(cfg, r, j, i, s);
  }
}
