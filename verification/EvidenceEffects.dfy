/** What registrations, publications and lost connections do to the evidence, in the fields of the state. */
module EvidenceEffects {
  import opened Core
  import opened Model
  import opened Coordinator

  /** A registered, living worker under its current boot. */
  ghost predicate Speaks(st: State, worker: u64, boot: u64) {
    worker in st.workers && st.workers[worker].boot == boot && st.workers[worker].alive
  }

  /** The two states differ at most in the evidence. */
  ghost predicate OnlyEvidence(st: State, after: State) {
    && after.broker == st.broker && after.plans == st.plans && after.currentByRequest == st.currentByRequest
    && after.cancelled == st.cancelled && after.supersessions == st.supersessions && after.requests == st.requests
    && after.commits == st.commits && after.ids == st.ids && after.crashed == st.crashed
  }

  // ----- capacity and congestion -----

  /** Accepted congestion evidence ends up, whole, on every link with that id and on no other; refused evidence
      changes nothing. */
  lemma CongestionIsTakenIn(cfg: Config, st: State, e: Event)
    requires Enabled(st, e) && e.EPublishCongestion?
    ensures var after := Step(cfg, st, e);
      if e.worker == 0 || Speaks(st, e.worker, e.boot) then
        && |after.snap.links| == |st.snap.links|
        && (forall i :: 0 <= i < |st.snap.links| ==>
              after.snap.links[i] == if st.snap.links[i].id == e.linkId then
                                       st.snap.links[i].(congestion := e.congestion)
                                     else st.snap.links[i])
        && after.snap == st.snap.(links := after.snap.links, generations := after.snap.generations)
        && after.snap.generations == st.snap.generations.(congestion := (st.snap.generations.congestion + 1) % TWO64)
        && after == st.(snap := after.snap)
      else after == st
  {
  }

  /** Accepted capacity evidence likewise. */
  lemma CapacityIsTakenIn(cfg: Config, st: State, e: Event)
    requires Enabled(st, e) && e.EPublishCapacity?
    ensures var after := Step(cfg, st, e);
      if e.worker == 0 || Speaks(st, e.worker, e.boot) then
        && |after.snap.links| == |st.snap.links|
        && (forall i :: 0 <= i < |st.snap.links| ==>
              after.snap.links[i] == if st.snap.links[i].id == e.linkId then
                                       st.snap.links[i].(capacityEvidence := e.capacity)
                                     else st.snap.links[i])
        && after.snap == st.snap.(links := after.snap.links, generations := after.snap.generations)
        && after.snap.generations == st.snap.generations.(capacity := (st.snap.generations.capacity + 1) % TWO64)
        && after == st.(snap := after.snap)
      else after == st
  {
  }

  // ----- endpoints and links -----

  lemma {:induction false} PutLinkPlaces(ls: seq<Link>, l: Link)
    ensures var r := PutLink(ls, l);
      || (r == ls + [l] && forall k :: 0 <= k < |ls| ==> ls[k].id != l.id)
      || exists i :: && 0 <= i < |ls| && ls[i].id == l.id && r == ls[i := l]
                     && forall k :: 0 <= k < i ==> ls[k].id != l.id
  {
    if ls != [] && ls[0].id != l.id {
      PutLinkPlaces(ls[1..], l);
      assert ls == [ls[0]] + ls[1..];
      if i :| && 0 <= i < |ls| - 1 && ls[1..][i].id == l.id && PutLink(ls[1..], l) == ls[1..][i := l]
              && forall k :: 0 <= k < i ==> ls[1..][k].id != l.id {
        assert PutLink(ls, l) == ls[i + 1 := l];
        assert forall k :: 1 <= k < i + 1 ==> ls[k] == ls[1..][k - 1];
      } else {
        assert PutLink(ls, l) == ls + [l];
        assert forall k :: 1 <= k < |ls| ==> ls[k] == ls[1..][k - 1];
      }
    } else if ls != [] {
      assert PutLink(ls, l) == ls[0 := l];
    }
  }

  lemma {:induction false} PutEndpointPlaces(es: seq<Endpoint>, e: Endpoint)
    ensures var r := PutEndpoint(es, e);
      || (r == es + [e] && forall k :: 0 <= k < |es| ==> es[k].id != e.id)
      || exists i :: && 0 <= i < |es| && es[i].id == e.id && r == es[i := e]
                     && forall k :: 0 <= k < i ==> es[k].id != e.id
  {
    if es != [] && es[0].id != e.id {
      PutEndpointPlaces(es[1..], e);
      assert es == [es[0]] + es[1..];
      if i :| && 0 <= i < |es| - 1 && es[1..][i].id == e.id && PutEndpoint(es[1..], e) == es[1..][i := e]
              && forall k :: 0 <= k < i ==> es[1..][k].id != e.id {
        assert PutEndpoint(es, e) == es[i + 1 := e];
        assert forall k :: 1 <= k < i + 1 ==> es[k] == es[1..][k - 1];
      } else {
        assert PutEndpoint(es, e) == es + [e];
        assert forall k :: 1 <= k < |es| ==> es[k] == es[1..][k - 1];
      }
    } else if es != [] {
      assert PutEndpoint(es, e) == es[0 := e];
    }
  }

  /** An accepted link, stamped with the publisher's boot, takes the place of the first link with its id, or the
      last place; the publisher owns it, and the topology moves on. */
  lemma LinkIsTakenIn(cfg: Config, st: State, e: Event)
    requires Enabled(st, e) && e.EPublishLink?
    ensures var after := Step(cfg, st, e);
      if Speaks(st, e.worker, e.boot) then
        var l, ls := e.link.(workerBoot := e.boot), st.snap.links;
        && (|| (after.snap.links == ls + [l] && forall k :: 0 <= k < |ls| ==> ls[k].id != l.id)
            || exists i :: && 0 <= i < |ls| && ls[i].id == l.id && after.snap.links == ls[i := l]
                           && forall k :: 0 <= k < i ==> ls[k].id != l.id)
        && after.snap == st.snap.(links := after.snap.links, generations := after.snap.generations)
        && after.snap.generations == st.snap.generations.(topology := (st.snap.generations.topology + 1) % TWO64)
        && after.workers == st.workers[e.worker := after.workers[e.worker]]
        && after.workers[e.worker] == st.workers[e.worker].(links := st.workers[e.worker].links + [e.link.id])
        && after == st.(snap := after.snap, workers := after.workers)
      else after == st
  {
    hide PutLink, Register, PublishEndpoint, PublishCapacity, PublishCongestion, Disconnect, SubmitRequest, BeginCommit,
      AskBroker, EndCommit, Revalidate, Handoff, ExecutionResult, Cancel, Supersede;
    PutLinkPlaces(st.snap.links, e.link.(workerBoot := e.boot));
  }

  /** An accepted endpoint, stamped with the publishing incarnation, likewise; no generation moves. */
  lemma EndpointIsTakenIn(cfg: Config, st: State, e: Event)
    requires Enabled(st, e) && e.EPublishEndpoint?
    ensures var after := Step(cfg, st, e);
      if Speaks(st, e.worker, e.boot) then
        var x, es := e.endpoint.(worker := e.worker, workerBoot := e.boot), st.snap.endpoints;
        && (|| (after.snap.endpoints == es + [x] && forall k :: 0 <= k < |es| ==> es[k].id != x.id)
            || exists i :: && 0 <= i < |es| && es[i].id == x.id && after.snap.endpoints == es[i := x]
                           && forall k :: 0 <= k < i ==> es[k].id != x.id)
        && after.snap == st.snap.(endpoints := after.snap.endpoints)
        && after.workers == st.workers[e.worker := after.workers[e.worker]]
        && after.workers[e.worker] == st.workers[e.worker].(endpoints := st.workers[e.worker].endpoints + [x.id])
        && after == st.(snap := after.snap, workers := after.workers)
      else after == st
  {
    hide PutEndpoint, Register, PublishLink, PublishCapacity, PublishCongestion, Disconnect, SubmitRequest, BeginCommit,
      AskBroker, EndCommit, Revalidate, Handoff, ExecutionResult, Cancel, Supersede;
    PutEndpointPlaces(st.snap.endpoints, e.endpoint.(worker := e.worker, workerBoot := e.boot));
  }

  // ----- registrations and lost connections -----

  /** A registration that is not refused makes the worker live under its boot, owning nothing yet, on that
      connection. */
  lemma RegistrationTakesEffect(cfg: Config, st: State, e: Event)
    requires Enabled(st, e) && e.ERegister?
    ensures var after := Step(cfg, st, e);
      if e.worker == 0 || e.boot == 0 || (e.worker, e.boot) in st.fenced then after == st
      else
        && Speaks(after, e.worker, e.boot)
        && after.workers[e.worker].endpoints == [] && after.workers[e.worker].links == []
        && after.workers - {e.worker} == st.workers - {e.worker}
        && after.socketToWorker == st.socketToWorker[e.sock := e.worker]
        && after.snap.workerBoots == st.snap.workerBoots[e.worker := e.boot]
        && after.snap.sourceBoots == st.snap.sourceBoots[e.worker := e.boot]
        && after.snap.endpoints == st.snap.endpoints && after.snap.links == st.snap.links
        && after.snap.generations == st.snap.generations && after.fenced == st.fenced && OnlyEvidence(st, after)
  {
  }

  lemma {:induction false} WithoutDrops(ids: seq<u64>, ls: seq<Link>)
    ensures forall l :: l in Without(ids, ls) <==> l in ls && l.id !in ids
  {
    if ls != [] {
      WithoutDrops(ids, ls[..|ls| - 1]);
      assert ls == ls[..|ls| - 1] + [ls[|ls| - 1]];
    }
  }

  /** The worker whose evidence goes when the connection is lost, if any. */
  ghost predicate Loses(st: State, e: Event, worker: u64) {
    && e.EDisconnect? && e.sock in st.socketToWorker && st.socketToWorker[e.sock] == worker && worker in st.workers
  }

  /** A lost connection fences its worker: its boots are forgotten, its endpoints neither reachable nor ready, its
      links gone, its incarnation barred, and the topology moves on. */
  lemma LossTakesEffect(cfg: Config, st: State, e: Event, w: u64)
    requires Enabled(st, e) && Loses(st, e, w)
    ensures var after, gone := Step(cfg, st, e), st.workers[w];
      && after.snap.workerBoots == st.snap.workerBoots - {w} && after.snap.sourceBoots == st.snap.sourceBoots - {w}
      && |after.snap.endpoints| == |st.snap.endpoints|
      && (forall i :: 0 <= i < |st.snap.endpoints| ==>
            var x, y := st.snap.endpoints[i], after.snap.endpoints[i];
            if x.id in gone.endpoints then y == x.(reachable := false, ready := false) else y == x)
      && (forall l :: l in after.snap.links <==> l in st.snap.links && l.id !in gone.links)
      && after.snap.generations == st.snap.generations.(topology := (st.snap.generations.topology + 1) % TWO64)
      && after.fenced == st.fenced + {(w, gone.boot)} && after.workers == st.workers[w := gone.(alive := false)]
      && after.socketToWorker == st.socketToWorker - {e.sock} && OnlyEvidence(st, after)
  {
    hide Without, Register, PublishEndpoint, PublishLink, PublishCapacity, PublishCongestion, SubmitRequest,
      BeginCommit, AskBroker, EndCommit, Revalidate, Handoff, ExecutionResult, Cancel, Supersede;
    WithoutDrops(st.workers[w].links, st.snap.links);
  }

  /** A connection no worker registered on takes nothing with it. */
  lemma OtherLossesAreHarmless(cfg: Config, st: State, e: Event)
    requires Enabled(st, e) && e.EDisconnect? && forall w :: !Loses(st, e, w)
    ensures var after := Step(cfg, st, e);
      && after.snap.endpoints == st.snap.endpoints && after.snap.links == st.snap.links
      && after.snap.generations == st.snap.generations
      && after.workers == st.workers && after.fenced == st.fenced && OnlyEvidence(st, after)
  {
    hide Register, PublishEndpoint, PublishLink, PublishCapacity, PublishCongestion, SubmitRequest, BeginCommit,
      AskBroker, EndCommit, Revalidate, Handoff, ExecutionResult, Cancel, Supersede;
    if e.sock in st.socketToWorker { assert !Loses(st, e, st.socketToWorker[e.sock]); }
  }
}
