/** What multicast and collective planning deliver. */
module FanOut {
  import opened Core
  import opened Model
  import opened Sorting
  import opened Enumeration
  import opened FeasibilityFilter
  import opened Cost
  import opened Ranking
  import opened Planner
  import opened PlanFacts
  import opened StrictRanking
  import opened RankLevels

  /** A path the enumeration offers from `src` to `dst` that passes the filter. */
  ghost predicate FeasiblePath(req: Request, snap: Snapshot, b: Bounds, src: u64, dst: u64, c: CandidatePath) {
    c in Enumerate(snap.links, src, dst, b) && Verdict(req, snap, c, b).Feasible?
  }

  function RankKey(req: Request, snap: Snapshot, w: Weights, c: CandidatePath): Key {
    KeyOf(c, CandidateCost(req, snap, c, w))
  }

  /** `c` is a feasible path that ranks strictly before every other. */
  ghost predicate RankMinimal(req: Request, snap: Snapshot, w: Weights, b: Bounds, src: u64, dst: u64,
                              c: CandidatePath) {
    && FeasiblePath(req, snap, b, src, dst, c)
    && forall d :: FeasiblePath(req, snap, b, src, dst, d) && d != c ==>
         KeyLess(RankKey(req, snap, w, c), RankKey(req, snap, w, d))
  }

  lemma FeasibleIsRanked(req: Request, snap: Snapshot, w: Weights, b: Bounds, src: u64, dst: u64, c: CandidatePath)
    requires FeasiblePath(req, snap, b, src, dst, c)
    ensures var rs := Rankables(ReportsBetween(req, snap, w, b, src, dst));
      Rankable(c, Feasible, CandidateCost(req, snap, c, w)) in rs
    ensures Reachable(req, snap, w, b, src, dst)
  {
    hide Enumerate, Verdict, CandidateCost, WorstProvenance, RankOrder, FeasibleAt, Rankables;
    var cands := Enumerate(snap.links, src, dst, b);
    var reports := ReportsBetween(req, snap, w, b, src, dst);
    var i :| 0 <= i < |cands| && cands[i] == c;
    ReportAt(req, snap, w, b, cands, i);
    assert i in FeasibleAt(reports);
    var k :| 0 <= k < |FeasibleAt(reports)| && FeasibleAt(reports)[k] == i;
    var rs := Rankables(reports);
    assert rs[k] in rs;
    RankingSelectsTheFeasible(rs);
    assert Ranked(rs, k) && k in RankOrder(rs);
  }

  /** Some candidate is ranked exactly when some enumerated path is feasible. */
  lemma ReachableMeansFeasible(req: Request, snap: Snapshot, w: Weights, b: Bounds, src: u64, dst: u64)
    ensures Reachable(req, snap, w, b, src, dst) <==> exists c :: FeasiblePath(req, snap, b, src, dst, c)
  {
    hide Enumerate, Verdict, CandidateCost, RankedBetween;
    if Reachable(req, snap, w, b, src, dst) {
      var r := RankedBetween(req, snap, w, b, src, dst)[0];
      RankedAreAssessed(req, snap, w, b, src, dst, r);
      assert FeasiblePath(req, snap, b, src, dst, r.path);
    }
    if c :| FeasiblePath(req, snap, b, src, dst, c) {
      FeasibleIsRanked(req, snap, w, b, src, dst, c);
    }
  }

  /** Every destination has a feasible path. */
  ghost predicate AllFeasible(req: Request, snap: Snapshot, b: Bounds, src: u64, dests: seq<u64>) {
    forall d :: d in dests ==> exists c :: FeasiblePath(req, snap, b, src, d, c)
  }

  lemma AllReachableMeansAllFeasible(req: Request, snap: Snapshot, w: Weights, b: Bounds, src: u64, dests: seq<u64>)
    ensures (forall d :: d in dests ==> Reachable(req, snap, w, b, src, d)) <==> AllFeasible(req, snap, b, src, dests)
  {
    hide Reachable, FeasiblePath;
    forall d | d in dests
      ensures Reachable(req, snap, w, b, src, d) <==> exists c :: FeasiblePath(req, snap, b, src, d, c)
    {
      ReachableMeansFeasible(req, snap, w, b, src, d);
    }
  }

  lemma HeadIsRankMinimal(req: Request, snap: Snapshot, w: Weights, b: Bounds, src: u64, dst: u64)
    requires UniqueLinks(snap.links) && Reachable(req, snap, w, b, src, dst)
    ensures RankMinimal(req, snap, w, b, src, dst, RankedBetween(req, snap, w, b, src, dst)[0].path)
  {
    hide Enumerate, Verdict, CandidateCost, KeyOf, KeyLess, RankOrder, Rankables, ReportsBetween, NanFreeInput,
      DistinctLinkIds;
    var rs := Rankables(ReportsBetween(req, snap, w, b, src, dst));
    PlannerRanksStrictly(req, snap, w, b, src, dst);
    HeadIsBest(rs);
    var best := RankedBetween(req, snap, w, b, src, dst)[0];
    RankedAreAssessed(req, snap, w, b, src, dst, best);
    forall d | FeasiblePath(req, snap, b, src, dst, d) && d != best.path
      ensures KeyLess(RankKey(req, snap, w, best.path), RankKey(req, snap, w, d))
    {
      FeasibleIsRanked(req, snap, w, b, src, dst, d);
      assert IsBest(rs, best);
    }
  }

  /** When every destination is reachable, the choice has one entry for each, in order. */
  lemma {:induction false} ChosenFollowDestinations(req: Request, snap: Snapshot, w: Weights, b: Bounds, src: u64,
                                                    dests: seq<u64>)
    requires forall d :: d in dests ==> Reachable(req, snap, w, b, src, d)
    ensures var kept := Chosen(req, snap, w, b, src, dests);
      |kept| == |dests| && forall i :: 0 <= i < |dests| ==>
        var ranked := RankedBetween(req, snap, w, b, src, dests[i]); ranked != [] && kept[i] == ranked[0]
  {
    hide RankedBetween;
    if dests != [] {
      var front := dests[..|dests| - 1];
      assert forall d :: d in front ==> d in dests;
      ChosenFollowDestinations(req, snap, w, b, src, front);
      assert dests[|dests| - 1] in dests;
    }
  }

  /** Path `i` runs from `src` to `dests[i]` and is the best there is. */
  ghost predicate Serves(req: Request, snap: Snapshot, w: Weights, b: Bounds, src: u64, dests: seq<u64>,
                         plan: Plan<Double>) {
    var kept := Chosen(req, snap, w, b, src, dests);
    && |plan.candidatePaths| == |kept| == |dests|
    && forall i :: 0 <= i < |dests| ==>
         && plan.candidatePaths[i].source == src && plan.candidatePaths[i].destination == dests[i]
         && RankMinimal(req, snap, w, b, src, dests[i], kept[i].path)
         && |plan.candidatePaths[i].stages| == |kept[i].path.hops|
         && forall j :: 0 <= j < |kept[i].path.hops| ==>
              var st, h := plan.candidatePaths[i].stages[j], kept[i].path.hops[j];
              st.link == h.link && st.source == h.from && st.destination == h.to
  }

  lemma BuiltServes(plan: Plan<Double>, req: Request, snap: Snapshot, w: Weights, b: Bounds, src: u64, dests: seq<u64>,
                    firstStage: u64)
    requires UniqueLinks(snap.links) && forall d :: d in dests ==> Reachable(req, snap, w, b, src, d)
    requires BuiltOver(plan, req, snap, Chosen(req, snap, w, b, src, dests), firstStage)
    ensures Serves(req, snap, w, b, src, dests, plan)
  {
    hide RankedBetween, Chosen, PathsOf, BoundEndpoints, BoundLinks, Claims, Summarize, EndpointMap, LinkMap,
      RankMinimal, TotalHops, WorstProvenance, AllRetainable, Enumerate;
    var kept := Chosen(req, snap, w, b, src, dests);
    ChosenFollowDestinations(req, snap, w, b, src, dests);
    forall i | 0 <= i < |dests|
      ensures plan.candidatePaths[i] ==
        PathOf(i + 1, kept[i], LinkMap(snap.links), req.payloadSize, Add64(firstStage, TotalHops(kept[..i])))
      ensures kept[i].path.source == src && kept[i].path.destination == dests[i]
      ensures RankMinimal(req, snap, w, b, src, dests[i], kept[i].path)
    {
      assert dests[i] in dests;
      PathAt(kept, LinkMap(snap.links), req.payloadSize, firstStage, i);
      HeadIsRankMinimal(req, snap, w, b, src, dests[i]);
      RankedAreRetainable(req, snap, w, b, src, dests[i]);
    }
  }

  /** A multicast request succeeds exactly when every destination has a feasible path; then path `i` is
      the best one to destination `i`, and the claims are the staging resources of all relays used. */
  lemma MulticastIsExact(req: Request, snap: Snapshot, w: Weights, b: Bounds, ids: Ids)
    requires req.Valid() && req.EffectiveShape().Multicast? && UniqueLinks(snap.links)
    ensures Succeeds(req, snap, w, b, ids) <==> AllFeasible(req, snap, b, req.source, req.destinations)
    ensures Succeeds(req, snap, w, b, ids) ==>
      var plan := ThePlan(req, snap, w, b, ids);
      && Serves(req, snap, w, b, req.source, req.destinations, plan)
      && Distinct(plan.requiredResourceClaims)
      && forall c :: c in plan.requiredResourceClaims <==>
           exists v :: v in AllRelays(Chosen(req, snap, w, b, req.source, req.destinations))
             && c == StagingResourceFor(v)
  {
    hide Reachable, Chosen, MulticastReports, MulticastRanked, AllFeasible, Serves, BuiltOver, AllRetainable,
      FanOutPlan, IdsAfter;
    AllReachableMeansAllFeasible(req, snap, w, b, req.source, req.destinations);
    if Succeeds(req, snap, w, b, ids) {
      SuccessIsBuilt(req, snap, w, b, ids);
      var plan := ThePlan(req, snap, w, b, ids);
      BuiltServes(plan, req, snap, w, b, req.source, req.destinations, ids.stage);
      MulticastShape(req, snap, w, b, ids);
      ClaimsOfFanOut(plan, req, snap, Chosen(req, snap, w, b, req.source, req.destinations), ids.stage);
    }
  }

  lemma MulticastShape(req: Request, snap: Snapshot, w: Weights, b: Bounds, ids: Ids)
    requires Succeeds(req, snap, w, b, ids)
    ensures req.EffectiveShape().Multicast? ==> ThePlan(req, snap, w, b, ids).shape.Multicast?
    ensures req.EffectiveShape().Collective? ==> ThePlan(req, snap, w, b, ids).shape.Collective?
  {
    hide RankedBetween, Chosen, MulticastReports, MulticastRanked, PathsOf, BoundEndpoints, BoundLinks, Claims,
      Summarize, EndpointMap, LinkMap, TotalHops, Linked, ReachablePrefix, Members;
  }

  lemma ClaimsOfFanOut(plan: Plan<Double>, req: Request, snap: Snapshot, kept: seq<Rankable>, firstStage: u64)
    requires BuiltOver(plan, req, snap, kept, firstStage) && !plan.shape.PointToPoint?
    ensures Distinct(plan.requiredResourceClaims)
    ensures forall c :: c in plan.requiredResourceClaims <==>
      exists v :: v in AllRelays(kept) && c == StagingResourceFor(v)
  {
    hide PathsOf, BoundEndpoints, BoundLinks, Claims, Summarize, EndpointMap, LinkMap;
    ClaimsExact(AllRelays(kept));
  }

  ghost predicate CollectiveAdmitted(req: Request, snap: Snapshot, b: Bounds) {
    && req.collectiveCount == |req.participants| && req.collectiveCount <= b.maxCollectiveParticipants
    && forall p :: p in req.participants ==> ParticipantReady(EndpointMap(snap.endpoints), snap, p)
  }

  lemma {:induction false} PrefixIsFullWhenReachable(req: Request, snap: Snapshot, w: Weights, b: Bounds, root: u64,
                                                     members: seq<u64>, i: nat)
    requires i <= |members|
    ensures ReachablePrefix(req, snap, w, b, root, members, i) == |members| <==>
      forall j :: i <= j < |members| ==> Reachable(req, snap, w, b, root, members[j])
    decreases |members| - i
  {
    hide RankedBetween;
    if i < |members| { PrefixIsFullWhenReachable(req, snap, w, b, root, members, i + 1); }
  }

  /** A collective succeeds exactly when its participants are complete and ready and every member has a
      feasible path from the first participant; then path `i` is the best one to member `i`, in order. */
  lemma CollectiveIsExact(req: Request, snap: Snapshot, w: Weights, b: Bounds, ids: Ids)
    requires req.Valid() && req.EffectiveShape().Collective? && UniqueLinks(snap.links)
    ensures var root := req.participants[0];
      var members := Members(root, req.participants);
      && (Succeeds(req, snap, w, b, ids) <==>
            CollectiveAdmitted(req, snap, b) && AllFeasible(req, snap, b, root, members))
      && (Succeeds(req, snap, w, b, ids) ==> Serves(req, snap, w, b, root, members, ThePlan(req, snap, w, b, ids)))
  {
    hide Reachable, Chosen, Members, AllFeasible, Serves, BuiltOver, AllRetainable, FanOutPlan, RejectedCollective,
      IdsAfter, ReachablePrefix, EndpointMap, ParticipantReady;
    var root := req.participants[0];
    var members := Members(root, req.participants);
    AllReachableMeansAllFeasible(req, snap, w, b, root, members);
    PrefixIsFullWhenReachable(req, snap, w, b, root, members, 0);
    assert (forall m :: m in members ==> Reachable(req, snap, w, b, root, m))
      <==> (forall j :: 0 <= j < |members| ==> Reachable(req, snap, w, b, root, members[j]));
    if Succeeds(req, snap, w, b, ids) {
      SuccessIsBuilt(req, snap, w, b, ids);
      BuiltServes(ThePlan(req, snap, w, b, ids), req, snap, w, b, root, members, ids.stage);
    }
  }

  /** A point-to-point request succeeds exactly when some enumerated path is feasible; then the primary
      path is the best one there is, and its stages follow that path's hops. */
  lemma PointToPointIsExact(req: Request, snap: Snapshot, w: Weights, b: Bounds, ids: Ids)
    requires req.Valid() && !req.EffectiveShape().Multicast? && !req.EffectiveShape().Collective?
    requires req.destinations != [] && UniqueLinks(snap.links)
    ensures Succeeds(req, snap, w, b, ids) <==>
      exists c :: FeasiblePath(req, snap, b, req.source, req.destinations[0], c)
    ensures Succeeds(req, snap, w, b, ids) ==>
      var plan := ThePlan(req, snap, w, b, ids);
      exists c :: RankMinimal(req, snap, w, b, req.source, req.destinations[0], c) && Leads(plan, c)
  {
    hide RankedBetween, FeasiblePath, RankMinimal, Leads, ReportsBetween, BestFirstAt, PointPlan, IdsAfter, Linked;
    var dst := req.destinations[0];
    ReachableMeansFeasible(req, snap, w, b, req.source, dst);
    if Succeeds(req, snap, w, b, ids) {
      HeadIsRankMinimal(req, snap, w, b, req.source, dst);
      HeadLeads(req, snap, w, b, ids);
    }
  }

  /** The path moves the data over the hops of `c`, stage by stage. */
  ghost predicate Follows(path: Path<Double>, c: CandidatePath) {
    && path.source == c.source && path.destination == c.destination && |path.stages| == |c.hops|
    && forall j :: 0 <= j < |c.hops| ==>
         var st := path.stages[j];
         st.link == c.hops[j].link && st.source == c.hops[j].from && st.destination == c.hops[j].to
  }

  /** The plan's primary path follows `c`. */
  ghost predicate Leads(plan: Plan<Double>, c: CandidatePath) {
    && plan.candidatePaths != [] && plan.primaryPath == plan.candidatePaths[0].id
    && Follows(plan.candidatePaths[0], c)
  }

  lemma HeadLeads(req: Request, snap: Snapshot, w: Weights, b: Bounds, ids: Ids)
    requires Succeeds(req, snap, w, b, ids)
    requires !req.EffectiveShape().Multicast? && !req.EffectiveShape().Collective?
    ensures var ranked := RankedBetween(req, snap, w, b, req.source, req.destinations[0]);
      ranked != [] && Leads(ThePlan(req, snap, w, b, ids), ranked[0].path)
  {
    hide RankedBetween, PathsOf, BoundEndpoints, BoundLinks, Claims, Summarize, EndpointMap, LinkMap, AllRetainable,
      TotalHops, Linked, WorstProvenance, ReportsBetween, BestFirstAt;
    SuccessIsBuilt(req, snap, w, b, ids);
    PathAt(Retained(req, snap, w, b), LinkMap(snap.links), req.payloadSize, ids.stage, 0);
  }

  // ----- the fallbacks -----

  /** Of all feasible paths, `kept` are the `room` best, best first. */
  ghost predicate BestOf(req: Request, snap: Snapshot, w: Weights, b: Bounds, src: u64, dst: u64,
                         kept: seq<CandidatePath>, room: nat) {
    && |kept| <= room && (forall k :: 0 <= k < |kept| ==> FeasiblePath(req, snap, b, src, dst, kept[k]))
    && (forall j, k :: 0 <= j < k < |kept| ==> KeyLess(RankKey(req, snap, w, kept[j]), RankKey(req, snap, w, kept[k])))
    && (forall d :: FeasiblePath(req, snap, b, src, dst, d) && d !in kept ==>
          && |kept| == room
          && forall k :: 0 <= k < |kept| ==> KeyLess(RankKey(req, snap, w, kept[k]), RankKey(req, snap, w, d)))
  }

  lemma RankedStrictly(req: Request, snap: Snapshot, w: Weights, b: Bounds, src: u64, dst: u64, p: nat, q: nat)
    requires UniqueLinks(snap.links) && p < q < |RankedBetween(req, snap, w, b, src, dst)|
    ensures var ranked := RankedBetween(req, snap, w, b, src, dst);
      KeyLess(RankKey(req, snap, w, ranked[p].path), RankKey(req, snap, w, ranked[q].path))
  {
    hide Enumerate, Verdict, CandidateCost, KeyOf, KeyLess, RankOrder, Rankables, ReportsBetween, NanFreeInput,
      DistinctLinkIds;
    var rs := Rankables(ReportsBetween(req, snap, w, b, src, dst));
    var ranked := RankedBetween(req, snap, w, b, src, dst);
    PlannerRanksStrictly(req, snap, w, b, src, dst);
    RankingIsOrdered(rs);
    assert Beats(rs, RankOrder(rs)[p], RankOrder(rs)[q]);
    RankedAreAssessed(req, snap, w, b, src, dst, ranked[p]);
    RankedAreAssessed(req, snap, w, b, src, dst, ranked[q]);
  }

  lemma FeasibleHasRank(req: Request, snap: Snapshot, w: Weights, b: Bounds, src: u64, dst: u64, d: CandidatePath)
    returns (q: nat)
    requires FeasiblePath(req, snap, b, src, dst, d)
    ensures q < |RankedBetween(req, snap, w, b, src, dst)| && RankedBetween(req, snap, w, b, src, dst)[q].path == d
  {
    hide Enumerate, Verdict, CandidateCost, RankOrder, Rankables, ReportsBetween;
    var rs := Rankables(ReportsBetween(req, snap, w, b, src, dst));
    FeasibleIsRanked(req, snap, w, b, src, dst, d);
    var i: nat :| i < |rs| && rs[i] == Rankable(d, Feasible, CandidateCost(req, snap, d, w));
    RankingSelectsTheFeasible(rs);
    assert Ranked(rs, i) && i in RankOrder(rs);
    q :| q < |RankOrder(rs)| && RankOrder(rs)[q] == i;
  }

  function PathsIn(rs: seq<Rankable>): (r: seq<CandidatePath>)
    ensures |r| == |rs| && forall k :: 0 <= k < |r| ==> r[k] == rs[k].path
  {
    seq(|rs|, k requires 0 <= k < |rs| => rs[k].path)
  }

  lemma PrefixIsBest(req: Request, snap: Snapshot, w: Weights, b: Bounds, src: u64, dst: u64)
    requires UniqueLinks(snap.links) && RankedBetween(req, snap, w, b, src, dst) != []
    ensures var ranked := RankedBetween(req, snap, w, b, src, dst);
      BestOf(req, snap, w, b, src, dst, PathsIn(ranked[..Kept(b, |ranked|)]), 1 + b.maxFallbacks)
  {
    hide RankedBetween, RankKey, KeyLess, FeasiblePath;
    var ranked := RankedBetween(req, snap, w, b, src, dst);
    var n := Kept(b, |ranked|);
    var kept := PathsIn(ranked[..n]);
    assert forall q :: 0 <= q < n ==> ranked[q].path == kept[q] && kept[q] in kept;
    forall k | 0 <= k < n ensures FeasiblePath(req, snap, b, src, dst, kept[k]) {
      RankedIsFeasible(req, snap, w, b, src, dst, k);
    }
    forall j, k | 0 <= j < k < n ensures KeyLess(RankKey(req, snap, w, kept[j]), RankKey(req, snap, w, kept[k])) {
      RankedStrictly(req, snap, w, b, src, dst, j, k);
    }
    forall d | FeasiblePath(req, snap, b, src, dst, d) && d !in kept
      ensures n == 1 + b.maxFallbacks
      ensures forall k :: 0 <= k < n ==> KeyLess(RankKey(req, snap, w, kept[k]), RankKey(req, snap, w, d))
    {
      var q := FeasibleHasRank(req, snap, w, b, src, dst, d);
      assert n <= q;
      forall k | 0 <= k < n ensures KeyLess(RankKey(req, snap, w, kept[k]), RankKey(req, snap, w, d)) {
        RankedStrictly(req, snap, w, b, src, dst, k, q);
      }
    }
  }

  lemma RankedIsFeasible(req: Request, snap: Snapshot, w: Weights, b: Bounds, src: u64, dst: u64, k: nat)
    requires k < |RankedBetween(req, snap, w, b, src, dst)|
    ensures FeasiblePath(req, snap, b, src, dst, RankedBetween(req, snap, w, b, src, dst)[k].path)
  {
    hide RankedBetween, Enumerate, Verdict;
    RankedAreAssessed(req, snap, w, b, src, dst, RankedBetween(req, snap, w, b, src, dst)[k]);
  }

  /** A point-to-point plan holds the best feasible paths, as many as it has room for, best first: the
      primary and then the fallbacks, each following its path hop by hop. */
  lemma PointToPointKeepsTheBest(req: Request, snap: Snapshot, w: Weights, b: Bounds, ids: Ids)
    requires Succeeds(req, snap, w, b, ids) && UniqueLinks(snap.links)
    requires !req.EffectiveShape().Multicast? && !req.EffectiveShape().Collective?
    ensures var plan := ThePlan(req, snap, w, b, ids);
      exists kept ::
        && kept != [] && BestOf(req, snap, w, b, req.source, req.destinations[0], kept, 1 + b.maxFallbacks)
        && |plan.candidatePaths| == |kept| && plan.primaryPath == plan.candidatePaths[0].id
        && forall k :: 0 <= k < |kept| ==> Follows(plan.candidatePaths[k], kept[k])
  {
    hide Succeeds, ThePlan, Retained, BestOf, RankedBetween, PathsOf, BoundEndpoints, BoundLinks, Claims, Summarize,
      EndpointMap, LinkMap, AllRetainable, TotalHops, Linked, WorstProvenance, Follows;
    SuccessIsBuilt(req, snap, w, b, ids);
    RetainedIsPrefix(req, snap, w, b, ids);
    PrefixIsBest(req, snap, w, b, req.source, req.destinations[0]);
    var kept, plan := Retained(req, snap, w, b), ThePlan(req, snap, w, b, ids);
    forall k | 0 <= k < |kept|
      ensures |plan.candidatePaths| == |kept| && Follows(plan.candidatePaths[k], kept[k].path)
    {
      PathFollows(kept, LinkMap(snap.links), req.payloadSize, ids.stage, k);
    }
    assert PathsIn(kept) != [];
    PathFollows(kept, LinkMap(snap.links), req.payloadSize, ids.stage, 0);
  }

  lemma RetainedIsPrefix(req: Request, snap: Snapshot, w: Weights, b: Bounds, ids: Ids)
    requires Succeeds(req, snap, w, b, ids)
    requires !req.EffectiveShape().Multicast? && !req.EffectiveShape().Collective?
    ensures req.destinations != []
    ensures var ranked := RankedBetween(req, snap, w, b, req.source, req.destinations[0]);
      ranked != [] && Retained(req, snap, w, b) == ranked[..Kept(b, |ranked|)]
  {
    hide RankedBetween, ReportsBetween, BestFirstAt, PointPlan, IdsAfter;
  }

  lemma PathFollows(kept: seq<Rankable>, lmap: map<u64, Link>, payload: u64, firstStage: u64, k: nat)
    requires k < |kept| < TWO64 && forall i :: 0 <= i < |kept| ==> Linked(lmap, kept[i].path.hops)
    ensures var paths := PathsOf(kept, lmap, payload, firstStage);
      |paths| == |kept| && paths[k].id == k + 1 && Follows(paths[k], kept[k].path)
  {
    hide PathsOf, TotalHops, Linked, WorstProvenance;
    PathAt(kept, lmap, payload, firstStage, k);
  }

  // ----- in the terms of the levels -----

  /** A feasible path as the ranking sees it. */
  function Costed(req: Request, snap: Snapshot, w: Weights, c: CandidatePath): Rankable {
    Rankable(c, Feasible, CandidateCost(req, snap, c, w))
  }

  lemma RankKeyIsAhead(req: Request, snap: Snapshot, w: Weights, c: CandidatePath, d: CandidatePath)
    ensures KeyLess(RankKey(req, snap, w, c), RankKey(req, snap, w, d)) <==>
      Ahead(Costed(req, snap, w, c), Costed(req, snap, w, d))
  {
    hide CandidateCost, KeyLess, Ahead, ComponentValue;
    PlannerShowsNumbers(req, snap, w, c);
    PlannerShowsNumbers(req, snap, w, d);
    KeyOrder(Costed(req, snap, w, c), Costed(req, snap, w, d));
  }

  lemma PlannerShowsNumbers(req: Request, snap: Snapshot, w: Weights, c: CandidatePath)
    ensures ShowsNumbers(Costed(req, snap, w, c))
  {
    hide ComponentsOver, EndpointMap, LinkMap, Summarize, ComponentValue;
    var cs := CandidateCost(req, snap, c, w).components;
    CostsAreFinite(req, EndpointMap(snap.endpoints), LinkMap(snap.links), c.hops, w);
    ComponentValueIsNumber(cs, CostFactor.HopCount, Fin(|c.hops| as real));
    ComponentValueIsNumber(cs, CongestionPenalty, Fin(0.0));
    ComponentValueIsNumber(cs, ResidualBandwidth, Fin(0.0));
  }

  /** The paths a point-to-point plan keeps are each ahead of the next, and of every feasible path left out, at
      the first level at which they differ. */
  lemma KeptAreAhead(req: Request, snap: Snapshot, w: Weights, b: Bounds, src: u64, dst: u64,
                     kept: seq<CandidatePath>, room: nat)
    requires BestOf(req, snap, w, b, src, dst, kept, room)
    ensures forall j, k :: 0 <= j < k < |kept| ==> Ahead(Costed(req, snap, w, kept[j]), Costed(req, snap, w, kept[k]))
    ensures forall d, k :: FeasiblePath(req, snap, b, src, dst, d) && d !in kept && 0 <= k < |kept| ==>
      Ahead(Costed(req, snap, w, kept[k]), Costed(req, snap, w, d))
  {
    hide Ahead, FeasiblePath, RankKey, KeyLess, Costed;
    forall c, d ensures KeyLess(RankKey(req, snap, w, c), RankKey(req, snap, w, d)) <==>
                        Ahead(Costed(req, snap, w, c), Costed(req, snap, w, d)) {
      RankKeyIsAhead(req, snap, w, c, d);
    }
  }

  /** The best path to a destination is ahead of every other feasible one. */
  lemma MinimalIsAhead(req: Request, snap: Snapshot, w: Weights, b: Bounds, src: u64, dst: u64, c: CandidatePath)
    requires RankMinimal(req, snap, w, b, src, dst, c)
    ensures forall d :: FeasiblePath(req, snap, b, src, dst, d) && d != c ==>
      Ahead(Costed(req, snap, w, c), Costed(req, snap, w, d))
  {
    hide Ahead, FeasiblePath, RankKey, KeyLess, Costed;
    forall d | FeasiblePath(req, snap, b, src, dst, d) && d != c
      ensures Ahead(Costed(req, snap, w, c), Costed(req, snap, w, d))
    {
      RankKeyIsAhead(req, snap, w, c, d);
    }
  }
}
