/** An input on which congesting a link off the best path does change the best path: the rival's total
    overflows, and is then ranked at MAX_COST, before a best total that is above it. */
module OverflowExample {
  import opened Core
  import opened Ieee
  import opened Model
  import opened Sorting
  import opened Enumeration
  import opened SimplePaths
  import opened FeasibilityFilter
  import opened Cost
  import opened Ranking
  import opened Planner
  import opened FanOut
  import opened Alternatives
  import Coordinator
  import opened EndToEnd
  import opened EnumCodes
  import opened PlanFacts
  import opened PlannedStores
  import opened StoreCodec
  import opened StoreValidity

  // ----- two parallel links -----

  const QUIET: Link := WIRE.(congestion := WIRE.congestion.(penalty := Fin(1_000.0)))

  /** The rival, with a penalty to choose. */
  function Busy(penalty: real): Link {
    WIRE.(id := 6, congestion := WIRE.congestion.(penalty := Fin(penalty)))
  }

  function Parallel(penalty: real): Snapshot {
    Snapshot(Coordinator.FIRST, 1, [HERE, THERE], [QUIET, Busy(penalty)], [], [], map[WORKER := BOOT], map[], 1)
  }

  const OVER_QUIET: CandidatePath := CandidatePath(1, 2, [Hop(5, 1, 2)])
  const OVER_BUSY: CandidatePath := CandidatePath(1, 2, [Hop(6, 1, 2)])

  lemma OnlyTheTwo(penalty: real, hops: seq<Hop>)
    ensures Admissible([QUIET, Busy(penalty)], 1, 2, BOUNDS, hops) <==> hops == [Hop(5, 1, 2)] || hops == [Hop(6, 1, 2)]
  {
    var links := [QUIET, Busy(penalty)];
    if Admissible(links, 1, 2, BOUNDS, hops) {
      forall i | 0 <= i < |hops| ensures hops[i] == Hop(5, 1, 2) || hops[i] == Hop(6, 1, 2) {
        assert Edge(links, hops[i]);
      }
      OneStep(hops);
    }
    assert QUIET in links && Edge(links, Hop(5, 1, 2));
    assert Busy(penalty) in links && Edge(links, Hop(6, 1, 2));
  }

  lemma OneStep(hops: seq<Hop>)
    requires hops != [] && forall i :: 0 <= i < |hops| ==> hops[i].to == 2
    requires forall i, j :: 0 <= i < j < |hops| ==> hops[i].to != hops[j].to
    ensures |hops| == 1
  {
    if |hops| > 1 { FirstTwoDiffer(hops); }
  }

  lemma FirstTwoDiffer(hops: seq<Hop>)
    requires |hops| > 1 && forall i, j :: 0 <= i < j < |hops| ==> hops[i].to != hops[j].to
    ensures hops[0].to != hops[1].to
  {
  }

  lemma AtMostTwo<T>(s: seq<T>, a: T, b: T)
    requires Distinct(s) && forall x :: x in s ==> x == a || x == b
    ensures |s| <= 2
  {
    if |s| > 2 { ThreeDiffer(s); }
  }

  lemma ThreeDiffer<T>(s: seq<T>)
    requires Distinct(s) && |s| > 2
    ensures s[0] in s && s[1] in s && s[2] in s && s[0] != s[1] && s[0] != s[2] && s[1] != s[2]
  {
  }

  lemma TheTwoAreEnumerated(penalty: real)
    ensures var r := Enumerate([QUIET, Busy(penalty)], 1, 2, BOUNDS);
      && OVER_QUIET in r && OVER_BUSY in r && forall c :: c in r ==> c == OVER_QUIET || c == OVER_BUSY
  {
    hide Enumerate, Admissible, CandidateLess;
    var links := [QUIET, Busy(penalty)];
    var r := Enumerate(links, 1, 2, BOUNDS);
    EnumerationIsExact(links, 1, 2, BOUNDS);
    OnlyTheTwo(penalty, OVER_QUIET.hops);
    OnlyTheTwo(penalty, OVER_BUSY.hops);
    forall c | c in r ensures c == OVER_QUIET || c == OVER_BUSY { OnlyTheTwo(penalty, c.hops); }
    AtMostTwo(r, OVER_QUIET, OVER_BUSY);
  }

  lemma ParallelMaps(penalty: real)
    ensures var s := Parallel(penalty);
      && EndpointMap(s.endpoints) == map[1 := HERE, 2 := THERE]
      && LinkMap(s.links) == map[5 := QUIET, 6 := Busy(penalty)]
  {
    var s := Parallel(penalty);
    EndpointMapKeys(s.endpoints);
    LinkMapKeys(s.links);
    EndpointMapFindsUnique(s.endpoints, HERE);
    EndpointMapFindsUnique(s.endpoints, THERE);
    LinkMapFindsUnique(s.links, QUIET);
    LinkMapFindsUnique(s.links, Busy(penalty));
  }

  lemma TheTwoAreFeasible(penalty: real)
    ensures FeasiblePath(REQUEST, Parallel(penalty), BOUNDS, 1, 2, OVER_QUIET)
    ensures FeasiblePath(REQUEST, Parallel(penalty), BOUNDS, 1, 2, OVER_BUSY)
    ensures forall c :: FeasiblePath(REQUEST, Parallel(penalty), BOUNDS, 1, 2, c) ==> c == OVER_QUIET || c == OVER_BUSY
  {
    hide Enumerate, VerdictOver, EndpointMap, LinkMap;
    var s := Parallel(penalty);
    TheTwoAreEnumerated(penalty);
    ParallelMaps(penalty);
    var emap, lmap := EndpointMap(s.endpoints), LinkMap(s.links);
    assert Passes(REQUEST, s, emap, lmap, OVER_QUIET.hops, BOUNDS);
    assert Passes(REQUEST, s, emap, lmap, OVER_BUSY.hops, BOUNDS);
    VerdictDecides(REQUEST, s, emap, lmap, OVER_QUIET.hops, BOUNDS);
    VerdictDecides(REQUEST, s, emap, lmap, OVER_BUSY.hops, BOUNDS);
  }

  // ----- their totals, when only congestion has a weight -----

  /** Only congestion counts, at a millionth of the largest double. */
  function Heavy(): real { MaxDouble() / 1_000_000.0 }

  function OneWeight(x: real): Weights {
    Weights(map f | f in ALL_COSTFACTORS :: if f == CongestionPenalty then Fin(x) else Fin(0.0))
  }

  lemma WeightIs(x: real, f: CostFactor)
    ensures OneWeight(x).Of(f) == if f == CongestionPenalty then Fin(x) else Fin(0.0)
  {
    assert ALL_COSTFACTORS[CostFactorCode(f)] == f;
  }

  lemma {:induction false} SumOfOne(cs: seq<CostComponent<Double>>, k: nat)
    requires k < |cs| && forall i :: 0 <= i < |cs| && i != k ==> Charge(cs[i]) == 0.0
    ensures WeightedSum(cs) == Charge(cs[k])
    decreases |cs|
  {
    hide Charge;
    var front := cs[..|cs| - 1];
    if k < |cs| - 1 { SumOfOne(front, k); } else { SumOfNone(front); }
  }

  lemma {:induction false} SumOfNone(cs: seq<CostComponent<Double>>)
    requires forall i :: 0 <= i < |cs| ==> Charge(cs[i]) == 0.0
    ensures WeightedSum(cs) == 0.0
  {
    hide Charge;
    if cs != [] { SumOfNone(cs[..|cs| - 1]); }
  }

  lemma OnlyCongestionCounts(emap: map<u64, Endpoint>, lmap: map<u64, Link>, hops: seq<Hop>, x: real)
    requires x >= 0.0
    ensures var cs := ComponentsOver(REQUEST, emap, lmap, hops, OneWeight(x));
      AllValid(cs) && WeightedSum(cs) == x * Clamp(TallyOf(REQUEST.payloadSize, emap, lmap, hops).congestion)
  {
    hide TallyOf, HostStaged, StorageStaged, Clamp, WeightedSum, OneWeight;
    var cs := ComponentsOver(REQUEST, emap, lmap, hops, OneWeight(x));
    assert |cs| == 19 && cs[3].factor == CongestionPenalty;
    forall i | 0 <= i < |cs| ensures ValidComponent(cs[i]) && (i != 3 ==> Charge(cs[i]) == 0.0) {
      WeightIs(x, cs[i].factor);
    }
    WeightIs(x, CongestionPenalty);
    SumOfOne(cs, 3);
  }

  lemma PathTotal(penalty: real, id: u64, cost: real, x: real)
    requires (id == 5 && cost == 1_000.0) || (id == 6 && cost == penalty)
    requires 0.0 <= cost <= MAX_COST && x >= 0.0
    ensures var cs := CandidateCost(REQUEST, Parallel(penalty), CandidatePath(1, 2, [Hop(id, 1, 2)]), OneWeight(x));
      cs.total == if x * cost <= MaxDouble() then Fin(x * cost) else PosInf
  {
    hide ComponentsOver, WeightedSum, MaxDouble, EndpointMap, LinkMap, TallyOf;
    var s, hops := Parallel(penalty), [Hop(id, 1, 2)];
    ParallelMaps(penalty);
    var emap, lmap := EndpointMap(s.endpoints), LinkMap(s.links);
    OnlyCongestionCounts(emap, lmap, hops, x);
    TallyIsSums(REQUEST.payloadSize, emap, lmap, hops);
    OneCharge((l: Link) => ClampDouble(l.congestion.penalty), lmap, hops[0]);
  }

  lemma OneCharge(charge: Link -> real, lmap: map<u64, Link>, h: Hop)
    requires h.link in lmap
    ensures Total(charge, lmap, [h]) == charge(lmap[h.link])
  {
    assert [h][..0] == [];
  }

  // ----- the best path changes -----

  lemma Magnitudes()
    ensures Heavy() * 1_000.0 > MAX_COST && Heavy() >= 0.0
    ensures Heavy() * 1_000.0 < Heavy() * 100_000.0 <= MaxDouble() < Heavy() * 1_000_000_000.0
  {
    hide MaxDouble;
  }

  lemma KeyTotal(s: Snapshot, w: Weights, c: CandidatePath)
    requires CandidateCost(REQUEST, s, c, w).total.Finite()
    ensures RankKey(REQUEST, s, w, c).total == CandidateCost(REQUEST, s, c, w).total
  {
    hide CandidateCost;
  }

  lemma CheaperFirst(k: Key, m: Key)
    requires k.total.Finite() && m.total.Finite() && k.total.r < m.total.r
    ensures KeyLess(k, m)
  {
  }

  lemma QuietTotals()
    ensures var s, w := Parallel(100_000.0), OneWeight(Heavy());
      && CandidateCost(REQUEST, s, OVER_QUIET, w).total == Fin(Heavy() * 1_000.0)
      && CandidateCost(REQUEST, s, OVER_BUSY, w).total == Fin(Heavy() * 100_000.0)
      && CandidateCost(REQUEST, Parallel(1_000_000_000.0), OVER_BUSY, w).total == PosInf
  {
    hide CandidateCost, Heavy, OneWeight, Parallel, MaxDouble;
    Magnitudes();
    PathTotal(100_000.0, 5, 1_000.0, Heavy());
    PathTotal(100_000.0, 6, 100_000.0, Heavy());
    PathTotal(1_000_000_000.0, 6, 1_000_000_000.0, Heavy());
  }

  /** Before: the quiet link is best. */
  lemma QuietIsBest()
    ensures var s := Parallel(100_000.0);
      && RankMinimal(REQUEST, s, OneWeight(Heavy()), BOUNDS, 1, 2, OVER_QUIET)
      && AboveCap(RankKey(REQUEST, s, OneWeight(Heavy()), OVER_QUIET))
  {
    hide CandidateCost, FeasiblePath, Heavy, OneWeight, Parallel, KeyOf, KeyLess, RankKey, MaxDouble;
    var s, w := Parallel(100_000.0), OneWeight(Heavy());
    Magnitudes();
    TheTwoAreFeasible(100_000.0);
    QuietTotals();
    KeyTotal(s, w, OVER_QUIET);
    KeyTotal(s, w, OVER_BUSY);
    CheaperFirst(RankKey(REQUEST, s, w, OVER_QUIET), RankKey(REQUEST, s, w, OVER_BUSY));
  }

  /** The raise on the other link makes its total overflow, and that link the best. */
  lemma CongestionCanChangeTheBest()
    ensures var s, t, w := Parallel(100_000.0), Parallel(1_000_000_000.0), OneWeight(Heavy());
      && ValidWeights(w) && Congests(s, t, 1) && BestAvoids(REQUEST, s, w, BOUNDS, 1, 2, s.links[1].id)
      && Overflown(REQUEST, s, t, w, OVER_BUSY) && !SameBest(REQUEST, s, t, w, BOUNDS, 1, 2)
  {
    hide CandidateCost, FeasiblePath, RankMinimal, RankedBetween, SameBest, KeyOf, Heavy, OneWeight, MaxDouble,
      Parallel, Congests, ValidWeights, AboveCap, RankKey;
    var s, t, w := Parallel(100_000.0), Parallel(1_000_000_000.0), OneWeight(Heavy());
    QuietIsBest();
    QuietTotals();
    OneLinkCongested();
    TheTwoAreFeasible(100_000.0);
    FeasibleIsRanked(REQUEST, s, w, BOUNDS, 1, 2, OVER_QUIET);
    HeadIsRankMinimal(REQUEST, s, w, BOUNDS, 1, 2);
    MinimalIsUnique(REQUEST, s, w, BOUNDS, 1, 2, OVER_QUIET, RankedBetween(REQUEST, s, w, BOUNDS, 1, 2)[0].path);
    OverflowOvertakes(REQUEST, s, t, 1, w, BOUNDS, 1, 2);
  }

  lemma OneLinkCongested()
    ensures var s, t := Parallel(100_000.0), Parallel(1_000_000_000.0);
      Congests(s, t, 1) && UniqueLinks(s.links) && s.links[1].id == 6 && ValidWeights(OneWeight(Heavy()))
  {
    hide MaxDouble;
    var s, t := Parallel(100_000.0), Parallel(1_000_000_000.0);
    assert t.links == s.links[1 := t.links[1]];
    assert MaxDouble() >= 0.0 && Heavy() <= MaxDouble();
  }

  // ----- a plan the store refuses -----

  function Half(): real { MaxDouble() / 2.0 }

  /** Valid weights, a successful plan, and yet a record the store refuses: both paths overflow. */
  lemma ValidWeightsCanBeRefused(ids: Ids, enc: Double -> u64)
    requires KeepsFigures(enc)
    ensures var s, w := Parallel(1_000.0), OneWeight(Half());
      && ValidWeights(w) && Succeeds(REQUEST, s, w, BOUNDS, ids)
      && !RecordValid(Record(StoredPlan(ThePlan(REQUEST, s, w, BOUNDS, ids), enc), PlanReady))
  {
    hide CandidateCost, FeasiblePath, RankMinimal, OneWeight, Parallel, Half, Succeeds, ThePlan, KeepsFigures,
      StoredPlan, RecordValid, ValidWeights, Leads, Overflows, Summarize, FiguresFit;
    var s, w := Parallel(1_000.0), OneWeight(Half());
    ParallelIsUnique(1_000.0);
    TheTwoAreFeasible(1_000.0);
    assert REQUEST.source == 1 && REQUEST.destinations[0] == 2;
    PointToPointIsExact(REQUEST, s, w, BOUNDS, ids);
    BothOverflow(s, w, ids);
    PlannedRecordIsReady(REQUEST, s, w, BOUNDS, ids, enc);
  }

  lemma ParallelIsUnique(penalty: real)
    ensures UniqueLinks(Parallel(penalty).links) && ValidWeights(OneWeight(Half()))
  {
    hide MaxDouble;
    assert 0.0 <= Half() <= MaxDouble();
  }

  lemma BothOverflow(s: Snapshot, w: Weights, ids: Ids)
    requires s == Parallel(1_000.0) && w == OneWeight(Half()) && Succeeds(REQUEST, s, w, BOUNDS, ids) && ValidWeights(w)
    ensures Overflows(ThePlan(REQUEST, s, w, BOUNDS, ids).cost.components)
  {
    hide CandidateCost, OneWeight, Parallel, MaxDouble, Succeeds, ThePlan, ValidWeights, WeightedSum, AllValid,
      FiguresFit, Retained, BoundEndpoints, BoundLinks, Claims, PathsOf, Enumerate, Verdict, EndpointMap, LinkMap,
      AllHops;
    SuccessIsBuilt(REQUEST, s, w, BOUNDS, ids);
    PointShape(s, w, ids);
    var plan, kept := ThePlan(REQUEST, s, w, BOUNDS, ids), Retained(REQUEST, s, w, BOUNDS);
    assert Retainable(REQUEST, s, w, BOUNDS, kept[0]);
    assert FeasiblePath(REQUEST, s, BOUNDS, 1, 2, kept[0].path);
    TheTwoAreFeasible(1_000.0);
    assert Half() * 1_000.0 > MaxDouble();
    PathTotal(1_000.0, 5, 1_000.0, Half());
    PathTotal(1_000.0, 6, 1_000.0, Half());
    PlannedFiguresFit(REQUEST, s, w, BOUNDS, ids);
    FiguresAreValid(plan.cost.components);
  }

  lemma PointShape(s: Snapshot, w: Weights, ids: Ids)
    requires Succeeds(REQUEST, s, w, BOUNDS, ids)
    ensures ThePlan(REQUEST, s, w, BOUNDS, ids).shape.PointToPoint? && Retained(REQUEST, s, w, BOUNDS) != []
    ensures Retained(REQUEST, s, w, BOUNDS)[0].path.source == 1
      && Retained(REQUEST, s, w, BOUNDS)[0].path.destination == 2
  {
    hide RankedBetween, ReportsBetween, BestFirstAt, BoundEndpoints, BoundLinks, Claims, PathsOf, TotalHops, LinkMap,
      EndpointMap, Retainable;
    RankedAreRetainable(REQUEST, s, w, BOUNDS, 1, 2);
    var ranked := RankedBetween(REQUEST, s, w, BOUNDS, 1, 2);
    if ranked != [] { assert ranked[0] in ranked; }
  }
}
