/** Where the evidence a snapshot holds comes from, over whole runs. */
module EvidenceHistory {
  import opened Core
  import opened Model
  import opened Enumeration
  import opened FeasibilityFilter
  import opened FilterTerms
  import opened Cost
  import opened Ranking
  import opened PlanFacts
  import opened Coordinator
  import opened CoordinatorInvariants
  import opened CoordinatorRuns
  import opened EvidenceEffects

  // ----- what a step takes in, and what it takes away -----

  ghost predicate TakesLink(st: State, e: Event, id: u64) {
    e.EPublishLink? && Speaks(st, e.worker, e.boot) && e.link.id == id
  }

  ghost predicate TakesEndpoint(st: State, e: Event, id: u64) {
    e.EPublishEndpoint? && Speaks(st, e.worker, e.boot) && e.endpoint.id == id
  }

  ghost predicate TakesCapacity(st: State, e: Event, link: u64) {
    e.EPublishCapacity? && (e.worker == 0 || Speaks(st, e.worker, e.boot)) && e.linkId == link
  }

  ghost predicate TakesCongestion(st: State, e: Event, link: u64) {
    e.EPublishCongestion? && (e.worker == 0 || Speaks(st, e.worker, e.boot)) && e.linkId == link
  }

  ghost predicate DropsLink(st: State, e: Event, id: u64) {
    exists w :: Loses(st, e, w) && id in st.workers[w].links
  }

  ghost predicate DisablesEndpoint(st: State, e: Event, id: u64) {
    exists w :: Loses(st, e, w) && id in st.workers[w].endpoints
  }

  // ----- links, one step -----

  /** `m` is what this step makes of `l`. */
  ghost predicate LinkFrom(st: State, e: Event, l: Link, m: Link) {
    m == l.(congestion := if TakesCongestion(st, e, l.id) then e.congestion else l.congestion,
            capacityEvidence := if TakesCapacity(st, e, l.id) then e.capacity else l.capacityEvidence)
  }

  /** After a step each link is the one just published under its id, or one from before, which the step did not
      take away. */
  ghost predicate LinkOrigin(st: State, e: Event, m: Link) {
    if TakesLink(st, e, m.id) then m == e.link.(workerBoot := e.boot)
    else !DropsLink(st, e, m.id) && exists l :: l in st.snap.links && LinkFrom(st, e, l, m)
  }

  /** What is published is there, and nothing else goes but what is taken away. */
  ghost predicate LinksStay(st: State, e: Event, after: State) {
    && (forall id :: TakesLink(st, e, id) ==> HasLink(after, id))
    && (forall l :: l in st.snap.links && !DropsLink(st, e, l.id) ==> HasLink(after, l.id))
  }

  ghost predicate HasLink(st: State, id: u64) { exists l :: l in st.snap.links && l.id == id }

  lemma NothingDropped(st: State, e: Event)
    requires forall w :: !Loses(st, e, w)
    ensures forall id :: !DropsLink(st, e, id)
  {
  }

  lemma SameLinks(st: State, e: Event, after: State)
    requires after.snap.links == st.snap.links
    requires !e.EPublishLink? && !e.EPublishCapacity? && !e.EPublishCongestion? && forall w :: !Loses(st, e, w)
    ensures (forall m :: m in after.snap.links ==> LinkOrigin(st, e, m)) && LinksStay(st, e, after)
  {
    hide Speaks, Loses, DropsLink;
    NothingDropped(st, e);
    forall m | m in after.snap.links ensures LinkOrigin(st, e, m) {
      assert LinkFrom(st, e, m, m);
    }
    forall l | l in st.snap.links ensures HasLink(after, l.id) {
      assert l in after.snap.links;
    }
  }

  /** `r` is `ls` with `l` in the place of the first link with its id, or behind them all. */
  ghost predicate Placed(ls: seq<Link>, l: Link, r: seq<Link>) {
    || (r == ls + [l] && forall k :: 0 <= k < |ls| ==> ls[k].id != l.id)
    || exists i :: && 0 <= i < |ls| && ls[i].id == l.id && r == ls[i := l]
                   && forall k :: 0 <= k < i ==> ls[k].id != l.id
  }

  lemma PlacedElements(ls: seq<Link>, l: Link, r: seq<Link>)
    requires Placed(ls, l, r) && UniqueLinks(ls)
    ensures l in r
    ensures forall m :: m in r ==> m == l || (m in ls && m.id != l.id)
    ensures forall x :: x in ls && x.id != l.id ==> x in r
  {
    if r == ls + [l] && forall k :: 0 <= k < |ls| ==> ls[k].id != l.id {
    } else {
      var i :| 0 <= i < |ls| && ls[i].id == l.id && r == ls[i := l] && forall k :: 0 <= k < i ==> ls[k].id != l.id;
      assert r[i] == l;
      forall x | x in ls && x.id != l.id ensures x in r {
        var k :| 0 <= k < |ls| && ls[k] == x;
        assert r[k] == x;
      }
    }
  }

  lemma LinkPublished(cfg: Config, st: State, e: Event)
    requires Enabled(st, e) && e.EPublishLink? && UniqueEvidence(st)
    ensures var after := Step(cfg, st, e);
      (forall m :: m in after.snap.links ==> LinkOrigin(st, e, m)) && LinksStay(st, e, after)
  {
    hide Step, Enabled, Speaks, DropsLink;
    NothingDropped(st, e);
    LinkIsTakenIn(cfg, st, e);
    var l, ls, after := e.link.(workerBoot := e.boot), st.snap.links, Step(cfg, st, e);
    if Speaks(st, e.worker, e.boot) {
      assert Placed(ls, l, after.snap.links);
      PlacedElements(ls, l, after.snap.links);
    }
    forall m | m in after.snap.links ensures LinkOrigin(st, e, m) {
      assert LinkFrom(st, e, m, m);
    }
    forall x | x in ls ensures HasLink(after, x.id) {
      assert x in after.snap.links || l in after.snap.links;
    }
  }

  lemma EvidencePublished(cfg: Config, st: State, e: Event)
    requires Enabled(st, e) && (e.EPublishCapacity? || e.EPublishCongestion?)
    ensures var after := Step(cfg, st, e);
      (forall m :: m in after.snap.links ==> LinkOrigin(st, e, m)) && LinksStay(st, e, after)
  {
    hide Step, Enabled, Speaks, DropsLink;
    NothingDropped(st, e);
    if e.EPublishCapacity? { CapacityIsTakenIn(cfg, st, e); } else { CongestionIsTakenIn(cfg, st, e); }
    var after := Step(cfg, st, e);
    forall m | m in after.snap.links ensures LinkOrigin(st, e, m) {
      var k :| 0 <= k < |after.snap.links| && after.snap.links[k] == m;
      assert st.snap.links[k] in st.snap.links && LinkFrom(st, e, st.snap.links[k], m);
    }
    forall l | l in st.snap.links ensures HasLink(after, l.id) {
      var k :| 0 <= k < |st.snap.links| && st.snap.links[k] == l;
      assert after.snap.links[k] in after.snap.links && after.snap.links[k].id == l.id;
    }
  }

  lemma ConnectionLost(cfg: Config, st: State, e: Event, w: u64)
    requires Enabled(st, e) && Loses(st, e, w)
    ensures var after := Step(cfg, st, e);
      (forall m :: m in after.snap.links ==> LinkOrigin(st, e, m)) && LinksStay(st, e, after)
  {
    hide Step, Enabled;
    LossTakesEffect(cfg, st, e, w);
    var after := Step(cfg, st, e);
    forall m | m in after.snap.links ensures LinkOrigin(st, e, m) {
      assert LinkFrom(st, e, m, m);
    }
  }

  /** What one step does to the links. */
  lemma LinksStep(cfg: Config, st: State, e: Event)
    requires Enabled(st, e) && UniqueEvidence(st)
    ensures var after := Step(cfg, st, e);
      (forall m :: m in after.snap.links ==> LinkOrigin(st, e, m)) && LinksStay(st, e, after)
  {
    hide Step, Enabled, LinkOrigin, LinksStay;
    if e.EPublishLink? {
      LinkPublished(cfg, st, e);
    } else if e.EPublishCapacity? || e.EPublishCongestion? {
      EvidencePublished(cfg, st, e);
    } else if w :| Loses(st, e, w) {
      ConnectionLost(cfg, st, e, w);
    } else {
      if PlanStep(e) { PlanStepKeepsEvidence(cfg, st, e); }
      else if e.ERegister? { RegistrationTakesEffect(cfg, st, e); }
      else if e.EPublishEndpoint? { EndpointIsTakenIn(cfg, st, e); }
      else { OtherLossesAreHarmless(cfg, st, e); }
      SameLinks(st, e, Step(cfg, st, e));
    }
  }

  // ----- links, over a run -----

  /** Step `j` is the last one before moment `n` that published a link with this id, and none since has taken it
      away. */
  ghost predicate LinkSince(r: Run, j: nat, n: nat, id: u64)
    requires |r.states| == |r.events| + 1 && n < |r.states|
  {
    && j < n && TakesLink(r.states[j], r.events[j], id)
    && forall k :: j < k < n ==> !TakesLink(r.states[k], r.events[k], id) && !DropsLink(r.states[k], r.events[k], id)
  }

  /** The congestion is that of the last accepted congestion publication for the link since step `j`, or what
      the link was published with. */
  ghost predicate CongestionSince(r: Run, j: nat, n: nat, id: u64, c: Congestion)
    requires |r.states| == |r.events| + 1 && j < n < |r.states| && r.events[j].EPublishLink?
  {
    || (c == r.events[j].link.congestion && forall k :: j < k < n ==> !TakesCongestion(r.states[k], r.events[k], id))
    || exists m: nat :: && j < m < n && TakesCongestion(r.states[m], r.events[m], id) && c == r.events[m].congestion
                        && forall k :: m < k < n ==> !TakesCongestion(r.states[k], r.events[k], id)
  }

  ghost predicate CapacitySince(r: Run, j: nat, n: nat, id: u64, c: Capacity)
    requires |r.states| == |r.events| + 1 && j < n < |r.states| && r.events[j].EPublishLink?
  {
    || (c == r.events[j].link.capacityEvidence
        && forall k :: j < k < n ==> !TakesCapacity(r.states[k], r.events[k], id))
    || exists m: nat :: && j < m < n && TakesCapacity(r.states[m], r.events[m], id) && c == r.events[m].capacity
                        && forall k :: m < k < n ==> !TakesCapacity(r.states[k], r.events[k], id)
  }

  /** The link is as published at step `j`, under the publisher's boot, with the latest evidence since. */
  ghost predicate AsPublished(r: Run, j: nat, n: nat, l: Link)
    requires |r.states| == |r.events| + 1 && j < n < |r.states| && r.events[j].EPublishLink?
  {
    && l == r.events[j].link.(workerBoot := r.events[j].boot, congestion := l.congestion,
                              capacityEvidence := l.capacityEvidence)
    && CongestionSince(r, j, n, l.id, l.congestion) && CapacitySince(r, j, n, l.id, l.capacityEvidence)
  }

  lemma CongestionMovesOn(r: Run, j: nat, n: nat, l: Link, m: Link)
    requires |r.states| == |r.events| + 1 && j < n && n + 1 < |r.states| && r.events[j].EPublishLink?
    requires CongestionSince(r, j, n, l.id, l.congestion) && LinkFrom(r.states[n], r.events[n], l, m)
    ensures CongestionSince(r, j, n + 1, m.id, m.congestion)
  {
    hide Speaks, Loses;
    if !TakesCongestion(r.states[n], r.events[n], l.id) {
      if k: nat :| && j < k < n && TakesCongestion(r.states[k], r.events[k], l.id)
                   && l.congestion == r.events[k].congestion
                   && forall i :: k < i < n ==> !TakesCongestion(r.states[i], r.events[i], l.id) {
        assert j < k < n + 1;
      }
    }
  }

  lemma CapacityMovesOn(r: Run, j: nat, n: nat, l: Link, m: Link)
    requires |r.states| == |r.events| + 1 && j < n && n + 1 < |r.states| && r.events[j].EPublishLink?
    requires CapacitySince(r, j, n, l.id, l.capacityEvidence) && LinkFrom(r.states[n], r.events[n], l, m)
    ensures CapacitySince(r, j, n + 1, m.id, m.capacityEvidence)
  {
    hide Speaks, Loses;
    if !TakesCapacity(r.states[n], r.events[n], l.id) {
      if k: nat :| && j < k < n && TakesCapacity(r.states[k], r.events[k], l.id)
                   && l.capacityEvidence == r.events[k].capacity
                   && forall i :: k < i < n ==> !TakesCapacity(r.states[i], r.events[i], l.id) {
        assert j < k < n + 1;
      }
    }
  }

  /** In every run a link in the snapshot is the one last published under its id, with the capacity and the
      congestion last published for it since. */
  lemma {:induction false} LinksAreLastPublished(cfg: Config, r: Run, n: nat, l: Link) returns (j: nat)
    requires IsRun(cfg, r) && n < |r.states| && l in r.states[n].snap.links
    ensures LinkSince(r, j, n, l.id) && AsPublished(r, j, n, l)
    decreases n
  {
    hide Initial, Step, Enabled, UniqueEvidence, Speaks, TakesCongestion, TakesCapacity, DropsLink, LinksStay,
      Authority, PlansSound, CongestionSince, CapacitySince;
    if n == 0 {
      InitialSnapshot(r.states[0]);
      assert false;
    } else {
      var st, e := r.states[n - 1], r.events[n - 1];
      RunsAreSound(cfg, r, n - 1);
      LinksStep(cfg, st, e);
      if TakesLink(st, e, l.id) {
        j := n - 1;
        JustPublished(r, j, l);
      } else {
        var before :| before in st.snap.links && LinkFrom(st, e, before, l);
        j := LinksAreLastPublished(cfg, r, n - 1, before);
        CongestionMovesOn(r, j, n - 1, before, l);
        CapacityMovesOn(r, j, n - 1, before, l);
      }
    }
  }

  lemma JustPublished(r: Run, j: nat, l: Link)
    requires |r.states| == |r.events| + 1 && j + 1 < |r.states| && TakesLink(r.states[j], r.events[j], l.id)
    requires l == r.events[j].link.(workerBoot := r.events[j].boot)
    ensures LinkSince(r, j, j + 1, l.id) && AsPublished(r, j, j + 1, l)
  {
  }

  /** And a link that was published and not taken away since is there. */
  lemma {:induction false} PublishedLinksRemain(cfg: Config, r: Run, j: nat, n: nat, id: u64)
    requires IsRun(cfg, r) && n < |r.states| && LinkSince(r, j, n, id)
    ensures HasLink(r.states[n], id)
    decreases n
  {
    hide Initial, Step, Enabled, UniqueEvidence, TakesLink, DropsLink, LinkOrigin, Authority, PlansSound;
    RunsAreSound(cfg, r, n - 1);
    LinksStep(cfg, r.states[n - 1], r.events[n - 1]);
    if j < n - 1 {
      PublishedLinksRemain(cfg, r, j, n - 1, id);
      var l :| l in r.states[n - 1].snap.links && l.id == id;
      assert !DropsLink(r.states[n - 1], r.events[n - 1], l.id);
    }
  }

  // ----- endpoints, one step -----

  /** After a step each endpoint is the one just published under its id, or one from before, disabled if the step
      took its worker away. */
  ghost predicate EndpointOrigin(st: State, e: Event, y: Endpoint) {
    if TakesEndpoint(st, e, y.id) then y == e.endpoint.(worker := e.worker, workerBoot := e.boot)
    else exists x :: x in st.snap.endpoints && EndpointFrom(st, e, x, y)
  }

  ghost predicate EndpointFrom(st: State, e: Event, x: Endpoint, y: Endpoint) {
    y == if DisablesEndpoint(st, e, x.id) then x.(reachable := false, ready := false) else x
  }

  ghost predicate HasEndpoint(st: State, id: u64) { exists x :: x in st.snap.endpoints && x.id == id }

  /** What is published is there, and no endpoint ever goes. */
  ghost predicate EndpointsStay(st: State, e: Event, after: State) {
    && (forall id :: TakesEndpoint(st, e, id) ==> HasEndpoint(after, id))
    && (forall x :: x in st.snap.endpoints ==> HasEndpoint(after, x.id))
  }

  lemma NothingDisabled(st: State, e: Event)
    requires forall w :: !Loses(st, e, w)
    ensures forall id :: !DisablesEndpoint(st, e, id)
  {
  }

  lemma SameEndpoints(st: State, e: Event, after: State)
    requires after.snap.endpoints == st.snap.endpoints && !e.EPublishEndpoint? && forall w :: !Loses(st, e, w)
    ensures (forall y :: y in after.snap.endpoints ==> EndpointOrigin(st, e, y)) && EndpointsStay(st, e, after)
  {
    hide Speaks, Loses, DisablesEndpoint;
    NothingDisabled(st, e);
    forall y | y in after.snap.endpoints ensures EndpointOrigin(st, e, y) && HasEndpoint(after, y.id) {
      assert EndpointFrom(st, e, y, y);
    }
  }

  ghost predicate PlacedEndpoint(es: seq<Endpoint>, x: Endpoint, r: seq<Endpoint>) {
    || (r == es + [x] && forall k :: 0 <= k < |es| ==> es[k].id != x.id)
    || exists i :: && 0 <= i < |es| && es[i].id == x.id && r == es[i := x]
                   && forall k :: 0 <= k < i ==> es[k].id != x.id
  }

  lemma PlacedEndpointElements(es: seq<Endpoint>, x: Endpoint, r: seq<Endpoint>)
    requires PlacedEndpoint(es, x, r) && UniqueEndpoints(es)
    ensures x in r
    ensures forall y :: y in r ==> y == x || (y in es && y.id != x.id)
    ensures forall y :: y in es && y.id != x.id ==> y in r
  {
    if r == es + [x] && forall k :: 0 <= k < |es| ==> es[k].id != x.id {
    } else {
      var i :| 0 <= i < |es| && es[i].id == x.id && r == es[i := x] && forall k :: 0 <= k < i ==> es[k].id != x.id;
      assert r[i] == x;
      forall y | y in es && y.id != x.id ensures y in r {
        var k :| 0 <= k < |es| && es[k] == y;
        assert r[k] == y;
      }
    }
  }

  lemma EndpointPublished(cfg: Config, st: State, e: Event)
    requires Enabled(st, e) && e.EPublishEndpoint? && UniqueEvidence(st)
    ensures var after := Step(cfg, st, e);
      (forall y :: y in after.snap.endpoints ==> EndpointOrigin(st, e, y)) && EndpointsStay(st, e, after)
  {
    hide Step, Enabled, Speaks, DisablesEndpoint;
    NothingDisabled(st, e);
    EndpointIsTakenIn(cfg, st, e);
    var x, es, after := e.endpoint.(worker := e.worker, workerBoot := e.boot), st.snap.endpoints, Step(cfg, st, e);
    if Speaks(st, e.worker, e.boot) {
      assert PlacedEndpoint(es, x, after.snap.endpoints);
      PlacedEndpointElements(es, x, after.snap.endpoints);
    }
    forall y | y in after.snap.endpoints ensures EndpointOrigin(st, e, y) {
      assert EndpointFrom(st, e, y, y);
    }
    forall y | y in es ensures HasEndpoint(after, y.id) {
      assert y in after.snap.endpoints || x in after.snap.endpoints;
    }
  }

  lemma EndpointsDisabled(cfg: Config, st: State, e: Event, w: u64)
    requires Enabled(st, e) && Loses(st, e, w)
    ensures var after := Step(cfg, st, e);
      (forall y :: y in after.snap.endpoints ==> EndpointOrigin(st, e, y)) && EndpointsStay(st, e, after)
  {
    hide Step, Enabled;
    LossTakesEffect(cfg, st, e, w);
    var after := Step(cfg, st, e);
    forall y | y in after.snap.endpoints ensures EndpointOrigin(st, e, y) {
      var k :| 0 <= k < |after.snap.endpoints| && after.snap.endpoints[k] == y;
      var x := st.snap.endpoints[k];
      assert DisablesEndpoint(st, e, x.id) <==> x.id in st.workers[w].endpoints;
      assert x in st.snap.endpoints && EndpointFrom(st, e, x, y);
    }
    forall x | x in st.snap.endpoints ensures HasEndpoint(after, x.id) {
      var k :| 0 <= k < |st.snap.endpoints| && st.snap.endpoints[k] == x;
      assert after.snap.endpoints[k] in after.snap.endpoints;
    }
  }

  /** What one step does to the endpoints. */
  lemma EndpointsStep(cfg: Config, st: State, e: Event)
    requires Enabled(st, e) && UniqueEvidence(st)
    ensures var after := Step(cfg, st, e);
      (forall y :: y in after.snap.endpoints ==> EndpointOrigin(st, e, y)) && EndpointsStay(st, e, after)
  {
    hide Step, Enabled, EndpointOrigin, EndpointsStay;
    if e.EPublishEndpoint? {
      EndpointPublished(cfg, st, e);
    } else if w :| Loses(st, e, w) {
      EndpointsDisabled(cfg, st, e, w);
    } else {
      if PlanStep(e) { PlanStepKeepsEvidence(cfg, st, e); }
      else if e.ERegister? { RegistrationTakesEffect(cfg, st, e); }
      else if e.EPublishLink? { LinkIsTakenIn(cfg, st, e); }
      else if e.EPublishCapacity? { CapacityIsTakenIn(cfg, st, e); }
      else if e.EPublishCongestion? { CongestionIsTakenIn(cfg, st, e); }
      else { OtherLossesAreHarmless(cfg, st, e); }
      SameEndpoints(st, e, Step(cfg, st, e));
    }
  }

  // ----- endpoints, over a run -----

  ghost predicate EndpointSince(r: Run, j: nat, n: nat, id: u64)
    requires |r.states| == |r.events| + 1 && n < |r.states|
  {
    && j < n && TakesEndpoint(r.states[j], r.events[j], id)
    && forall k :: j < k < n ==> !TakesEndpoint(r.states[k], r.events[k], id)
  }

  /** Its worker was taken away since step `j`. */
  ghost predicate DisabledSince(r: Run, j: nat, n: nat, id: u64)
    requires |r.states| == |r.events| + 1 && n < |r.states|
  {
    exists k :: j < k < n && DisablesEndpoint(r.states[k], r.events[k], id)
  }

  /** The endpoint is as published at step `j`, under the publisher's incarnation; or no longer usable, if that
      was taken away since. */
  ghost predicate EndpointAsPublished(r: Run, j: nat, n: nat, x: Endpoint)
    requires |r.states| == |r.events| + 1 && j < n < |r.states| && r.events[j].EPublishEndpoint?
  {
    var published := r.events[j].endpoint.(worker := r.events[j].worker, workerBoot := r.events[j].boot);
    x == if DisabledSince(r, j, n, x.id) then published.(reachable := false, ready := false) else published
  }

  lemma EndpointMovesOn(r: Run, j: nat, n: nat, x: Endpoint, y: Endpoint)
    requires |r.states| == |r.events| + 1 && j < n && n + 1 < |r.states| && r.events[j].EPublishEndpoint?
    requires EndpointAsPublished(r, j, n, x) && EndpointFrom(r.states[n], r.events[n], x, y)
    ensures EndpointAsPublished(r, j, n + 1, y)
  {
    hide DisablesEndpoint;
    var id := x.id;
    assert y.id == id;
    assert DisabledSince(r, j, n + 1, id) <==>
      DisabledSince(r, j, n, id) || DisablesEndpoint(r.states[n], r.events[n], id);
  }

  /** In every run an endpoint in the snapshot is the one last published under its id, stamped with its publisher;
      neither reachable nor ready exactly if that publisher was lost since. */
  lemma {:induction false} EndpointsAreLastPublished(cfg: Config, r: Run, n: nat, y: Endpoint) returns (j: nat)
    requires IsRun(cfg, r) && n < |r.states| && y in r.states[n].snap.endpoints
    ensures EndpointSince(r, j, n, y.id) && EndpointAsPublished(r, j, n, y)
    decreases n
  {
    hide Initial, Step, Enabled, UniqueEvidence, Speaks, DisablesEndpoint, EndpointsStay, Authority, PlansSound,
      EndpointAsPublished;
    if n == 0 {
      InitialSnapshot(r.states[0]);
      assert false;
    } else {
      var st, e := r.states[n - 1], r.events[n - 1];
      RunsAreSound(cfg, r, n - 1);
      EndpointsStep(cfg, st, e);
      assert EndpointOrigin(st, e, y);
      if TakesEndpoint(st, e, y.id) {
        j := n - 1;
        JustPublishedEndpoint(r, j, y);
      } else {
        var before :| before in st.snap.endpoints && EndpointFrom(st, e, before, y);
        j := EndpointsAreLastPublished(cfg, r, n - 1, before);
        EndpointMovesOn(r, j, n - 1, before, y);
      }
    }
  }

  lemma JustPublishedEndpoint(r: Run, j: nat, y: Endpoint)
    requires |r.states| == |r.events| + 1 && j + 1 < |r.states| && TakesEndpoint(r.states[j], r.events[j], y.id)
    requires y == r.events[j].endpoint.(worker := r.events[j].worker, workerBoot := r.events[j].boot)
    ensures EndpointSince(r, j, j + 1, y.id) && EndpointAsPublished(r, j, j + 1, y)
  {
  }

  /** And an endpoint once published is there for good. */
  lemma {:induction false} PublishedEndpointsRemain(cfg: Config, r: Run, j: nat, n: nat, id: u64)
    requires IsRun(cfg, r) && j < n < |r.states| && TakesEndpoint(r.states[j], r.events[j], id)
    ensures HasEndpoint(r.states[n], id)
    decreases n
  {
    hide Initial, Step, Enabled, UniqueEvidence, TakesEndpoint, EndpointOrigin, Authority, PlansSound;
    RunsAreSound(cfg, r, n - 1);
    EndpointsStep(cfg, r.states[n - 1], r.events[n - 1]);
    if j < n - 1 {
      PublishedEndpointsRemain(cfg, r, j, n - 1, id);
      var x :| x in r.states[n - 1].snap.endpoints && x.id == id;
    }
  }

  // ----- what the planner makes of it -----

  /** Once a link is reported to be at its hard congestion limit, no plan made before the next report on it, or the
      next publication of it, retains a path over it. */
  lemma HardLimitKeepsPlansOff(cfg: Config, r: Run, m: nat, n: nat, id: u64, k: nat)
    requires IsRun(cfg, r) && m < n < |r.events|
    requires TakesCongestion(r.states[m], r.events[m], id) && r.events[m].congestion.hardLimitExceeded
    requires forall i :: m < i < n ==>
      !TakesCongestion(r.states[i], r.events[i], id) && !TakesLink(r.states[i], r.events[i], id)
    requires r.events[n].ESubmitRequest?
    requires Succeeds(r.events[n].request, r.states[n].snap, cfg.weights, cfg.bounds, r.states[n].ids)
    requires k < |Retained(r.events[n].request, r.states[n].snap, cfg.weights, cfg.bounds)|
    ensures id !in LinkIds(Retained(r.events[n].request, r.states[n].snap, cfg.weights, cfg.bounds)[k].path.hops)
  {
    hide Initial, Step, Enabled, Succeeds, Retained, TakesLink, DropsLink, CapacitySince, Enumerate, Verdict,
      CandidateCost;
    var req, snap := r.events[n].request, r.states[n].snap;
    SuccessIsBuilt(req, snap, cfg.weights, cfg.bounds, r.states[n].ids);
    var c := Retained(req, snap, cfg.weights, cfg.bounds)[k].path;
    FeasibleIff(req, snap, c, cfg.bounds);
    if id in LinkIds(c.hops) {
      var i :| 0 <= i < |c.hops| && LinkIds(c.hops)[i] == id;
      assert Clear(req, snap, EndpointMap(snap.endpoints), LinkMap(snap.links), c.hops[i]);
      LinkMapKeys(snap.links);
      ReportedLimitStands(cfg, r, m, n, LinkMap(snap.links)[c.hops[i].link]);
      assert false;
    }
  }

  lemma ReportedLimitStands(cfg: Config, r: Run, m: nat, n: nat, l: Link)
    requires IsRun(cfg, r) && m < n < |r.states| && l in r.states[n].snap.links
    requires TakesCongestion(r.states[m], r.events[m], l.id)
    requires forall i :: m < i < n ==>
      !TakesCongestion(r.states[i], r.events[i], l.id) && !TakesLink(r.states[i], r.events[i], l.id)
    ensures l.congestion == r.events[m].congestion
  {
    hide IsRun, Speaks, DropsLink, CapacitySince;
    var j := LinksAreLastPublished(cfg, r, n, l);
    assert j < m;
  }
}
