/** Independence of irrelevant alternatives: making a link that the best path does not use look more
    congested does not change which path is best, exactly unless a rival's total overflows. */
module Alternatives {
  import opened Core
  import opened Model
  import opened Sorting
  import opened Enumeration
  import opened SimplePaths
  import opened FeasibilityFilter
  import opened Cost
  import opened Ranking
  import opened Planner
  import opened Determinism
  import opened StrictRanking
  import opened FanOut
  import opened Ieee

  // ----- raising a penalty -----

  predicate Dynamic(f: CostFactor) { f.CongestionPenalty? || f.QueueingEstimate? }

  /** `d` charges what `c` charges, and no less for congestion and queueing. */
  ghost predicate Heavier(c: seq<CostComponent<Double>>, d: seq<CostComponent<Double>>) {
    && |c| == |d|
    && forall i :: 0 <= i < |c| ==>
         && d[i] == c[i].(value := d[i].value)
         && c[i].value.NonNegFinite() && d[i].value.NonNegFinite() && c[i].value.r <= d[i].value.r
         && (Dynamic(c[i].factor) || c[i].value == d[i].value)
  }

  lemma HeavierPrefix(c: seq<CostComponent<Double>>, d: seq<CostComponent<Double>>)
    requires Heavier(c, d) && c != []
    ensures Heavier(c[..|c| - 1], d[..|d| - 1]) && Heavier(c[1..], d[1..])
  {
  }

  lemma {:induction false} HeavierLabels(c: seq<CostComponent<Double>>, d: seq<CostComponent<Double>>)
    requires Heavier(c, d)
    ensures UncertaintyCount(c) == UncertaintyCount(d) && WorstProvenance(c) == WorstProvenance(d)
  {
    if c != [] {
      HeavierPrefix(c, d);
      HeavierLabels(c[..|c| - 1], d[..|d| - 1]);
    }
  }

  lemma {:induction false} HeavierValue(c: seq<CostComponent<Double>>, d: seq<CostComponent<Double>>, f: CostFactor,
                                        default: Double)
    requires Heavier(c, d) && default.Finite()
    ensures var x, y := ComponentValue(c, f, default), ComponentValue(d, f, default);
      x.Finite() && y.Finite() && x.r <= y.r && (Dynamic(f) || x == y)
  {
    if c != [] {
      HeavierPrefix(c, d);
      HeavierValue(c[1..], d[1..], f, default);
    }
  }

  lemma {:induction false} HeavierSum(c: seq<CostComponent<Double>>, d: seq<CostComponent<Double>>)
    requires Heavier(c, d)
    ensures WeightedSum(c) <= WeightedSum(d)
  {
    if c != [] {
      HeavierPrefix(c, d);
      HeavierSum(c[..|c| - 1], d[..|d| - 1]);
      var x, y := c[|c| - 1], d[|d| - 1];
      if ValidComponent(x) {
        assert x.weight.r * x.value.r <= x.weight.r * y.value.r;
      }
    }
  }

  lemma HeavierIsAsValid(c: seq<CostComponent<Double>>, d: seq<CostComponent<Double>>)
    requires Heavier(c, d)
    ensures AllValid(c) <==> AllValid(d)
  {
    if AllValid(c) {
      forall x | x in d ensures ValidComponent(x) {
        var i :| 0 <= i < |d| && d[i] == x;
        assert c[i] in c;
      }
    }
    if AllValid(d) {
      forall x | x in c ensures ValidComponent(x) {
        var i :| 0 <= i < |c| && c[i] == x;
        assert d[i] in d;
      }
    }
  }

  /** A finite total grows, or overflows; an infinite one stays. */
  lemma HeavierTotal(c: seq<CostComponent<Double>>, d: seq<CostComponent<Double>>)
    requires Heavier(c, d)
    ensures var s, t := Summarize(c).total, Summarize(d).total;
      (s.Finite() && t.Finite() && s.r <= t.r) || (s.Finite() && t.PosInf? && Overflows(d)) || (s.PosInf? && t.PosInf?)
  {
    hide MaxDouble, AllValid, WeightedSum, Heavier;
    HeavierSum(c, d);
    HeavierIsAsValid(c, d);
  }

  /** Unless the total overflows, the key does not get smaller; if it does, it is put back to MAX_COST. */
  lemma HeavierKey(path: CandidatePath, c: seq<CostComponent<Double>>, d: seq<CostComponent<Double>>)
    requires Heavier(c, d)
    ensures var k, m := KeyOf(path, Summarize(c)), KeyOf(path, Summarize(d));
      if Summarize(c).total.Finite() && !Summarize(d).total.Finite() then m.total == Fin(MAX_COST)
      else k == m || KeyLess(k, m)
  {
    hide UncertaintyCount, WorstProvenance, ComponentValue, WeightedSum, LexLess, MaxDouble, AllValid;
    HeavierTotal(c, d);
    HeavierLabels(c, d);
    HeavierValue(c, d, CostFactor.HopCount, Fin(|path.hops| as real));
    HeavierValue(c, d, CongestionPenalty, Fin(0.0));
    HeavierValue(c, d, ResidualBandwidth, Fin(0.0));
  }

  /** `m` is `l` with no smaller congestion penalty. */
  predicate Raised(l: Link, m: Link) {
    && m == l.(congestion := l.congestion.(penalty := m.congestion.penalty))
    && ClampDouble(l.congestion.penalty) <= ClampDouble(m.congestion.penalty)
  }

  ghost predicate RaisedMap(l1: map<u64, Link>, l2: map<u64, Link>) {
    l1.Keys == l2.Keys && forall id :: id in l1 ==> Raised(l1[id], l2[id])
  }

  lemma {:induction false} RaisedTally(payload: u64, emap: map<u64, Endpoint>, l1: map<u64, Link>, l2: map<u64, Link>,
                                       hops: seq<Hop>)
    requires RaisedMap(l1, l2)
    ensures var s, t := TallyOf(payload, emap, l1, hops), TallyOf(payload, emap, l2, hops);
      t == s.(queue := t.queue, congestion := t.congestion) && s.queue <= t.queue && s.congestion <= t.congestion
  {
    hide TransferNs, HeadroomNs, ClampDouble, Distance;
    if hops != [] { RaisedTally(payload, emap, l1, l2, hops[..|hops| - 1]); }
  }

  lemma RaisedFactors(payload: u64, w: Weights, n: nat, s: Tally, t: Tally, host: bool, storage: bool)
    requires t == s.(queue := t.queue, congestion := t.congestion) && s.queue <= t.queue && s.congestion <= t.congestion
    ensures Heavier(Weigh(w, Factors(payload, n, s, host, storage)), Weigh(w, Factors(payload, n, t, host, storage)))
  {
    var f, g := Factors(payload, n, s, host, storage), Factors(payload, n, t, host, storage);
    assert |f| == |g| == 19;
    assert forall i :: 0 <= i < 19 ==> g[i] == f[i].(value := g[i].value) && f[i].value <= g[i].value
                                       && (Dynamic(f[i].factor) || f[i].value == g[i].value);
  }

  lemma RaisedCost(req: Request, emap: map<u64, Endpoint>, l1: map<u64, Link>, l2: map<u64, Link>, hops: seq<Hop>,
                   w: Weights)
    requires RaisedMap(l1, l2)
    ensures Heavier(ComponentsOver(req, emap, l1, hops, w), ComponentsOver(req, emap, l2, hops, w))
  {
    hide TallyOf, Weigh, Factors, Heavier, RaisedMap;
    RaisedTally(req.payloadSize, emap, l1, l2, hops);
    RaisedFactors(req.payloadSize, w, |hops|, TallyOf(req.payloadSize, emap, l1, hops),
                  TallyOf(req.payloadSize, emap, l2, hops), HostStaged(emap, hops), StorageStaged(emap, hops));
  }

  lemma {:induction false} UntouchedTally(payload: u64, emap: map<u64, Endpoint>, l1: map<u64, Link>,
                                          l2: map<u64, Link>,
                                          hops: seq<Hop>)
    requires forall h :: h in hops ==> (h.link in l1 <==> h.link in l2) && (h.link in l1 ==> l1[h.link] == l2[h.link])
    ensures TallyOf(payload, emap, l1, hops) == TallyOf(payload, emap, l2, hops)
  {
    hide AddLink, AddLocality;
    if hops != [] {
      assert forall h :: h in hops[..|hops| - 1] ==> h in hops;
      UntouchedTally(payload, emap, l1, l2, hops[..|hops| - 1]);
    }
  }

  lemma UntouchedCost(req: Request, emap: map<u64, Endpoint>, l1: map<u64, Link>, l2: map<u64, Link>, hops: seq<Hop>,
                      w: Weights)
    requires forall h :: h in hops ==> (h.link in l1 <==> h.link in l2) && (h.link in l1 ==> l1[h.link] == l2[h.link])
    ensures ComponentsOver(req, emap, l1, hops, w) == ComponentsOver(req, emap, l2, hops, w)
  {
    hide TallyOf, Factors;
    UntouchedTally(req.payloadSize, emap, l1, l2, hops);
  }

  // ----- the same planning problem, one link more congested -----

  /** `t` is `s` with a penalty on link `i` that is no smaller, and nothing else changed. */
  ghost predicate Congests(s: Snapshot, t: Snapshot, i: nat) {
    && i < |s.links| == |t.links|
    && t == s.(links := s.links[i := t.links[i]]) && Raised(s.links[i], t.links[i])
    && UniqueLinks(s.links)
  }

  lemma {:induction false} SameEndsSameEdges(l1: seq<Link>, l2: seq<Link>, v: u64)
    requires |l1| == |l2|
    requires forall j :: 0 <= j < |l1| ==>
      l1[j].id == l2[j].id && l1[j].source == l2[j].source && l1[j].destination == l2[j].destination
    ensures OutEdges(l1, v) == OutEdges(l2, v)
  {
    if l1 != [] { SameEndsSameEdges(l1[..|l1| - 1], l2[..|l2| - 1], v); }
  }

  lemma CongestionKeepsTheGraph(s: Snapshot, t: Snapshot, i: nat)
    requires Congests(s, t, i)
    ensures UniqueLinks(t.links) && SameEdges(s.links, t.links)
    ensures forall j :: 0 <= j < |s.links| ==> Raised(s.links[j], t.links[j]) && s.links[j].id == t.links[j].id
    ensures forall j :: 0 <= j < |s.links| && j != i ==> s.links[j] == t.links[j]
  {
    hide OutEdges, Sort;
    assert forall j :: 0 <= j < |t.links| ==> t.links[j] == if j == i then t.links[i] else s.links[j];
    forall v ensures SortedEdges(s.links, v) == SortedEdges(t.links, v) {
      SameEndsSameEdges(s.links, t.links, v);
    }
  }

  lemma LinkMapAt(links: seq<Link>, j: nat)
    requires UniqueLinks(links) && j < |links|
    ensures links[j].id in LinkMap(links) && LinkMap(links)[links[j].id] == links[j]
  {
    LinkMapFindsUnique(links, links[j]);
  }

  lemma CongestionRaisesTheMap(s: Snapshot, t: Snapshot, i: nat)
    requires Congests(s, t, i)
    ensures RaisedMap(LinkMap(s.links), LinkMap(t.links))
    ensures forall id :: id in LinkMap(s.links) && id != s.links[i].id ==> LinkMap(s.links)[id] == LinkMap(t.links)[id]
  {
    hide LinkMap, SameEdges, Raised;
    CongestionKeepsTheGraph(s, t, i);
    var l1, l2 := LinkMap(s.links), LinkMap(t.links);
    LinkMapKeys(s.links);
    LinkMapKeys(t.links);
    forall id | id in l1 ensures id in l2 && Raised(l1[id], l2[id]) && (id != s.links[i].id ==> l1[id] == l2[id]) {
      var j :| 0 <= j < |s.links| && s.links[j] == l1[id];
      LinkMapAt(t.links, j);
      assert Raised(s.links[j], t.links[j]);
    }
    forall id | id in l2 ensures id in l1 {
      var j :| 0 <= j < |t.links| && t.links[j] == l2[id];
      LinkMapAt(s.links, j);
      assert Raised(s.links[j], t.links[j]);
    }
  }

  lemma {:induction false} CongestionKeepsHopsVerdict(req: Request, s: Snapshot, t: Snapshot, emap: map<u64, Endpoint>,
                                                      l1: map<u64, Link>, l2: map<u64, Link>, hops: seq<Hop>, k: nat)
    requires t == s.(links := t.links) && RaisedMap(l1, l2) && k <= |hops|
    ensures HopsVerdict(req, s, emap, l1, hops, k) == HopsVerdict(req, t, emap, l2, hops, k)
    decreases |hops| - k
  {
    hide HopVerdict;
    if k < |hops| {
      CongestionKeepsHopVerdict(req, s, t, emap, l1, l2, hops[k]);
      CongestionKeepsHopsVerdict(req, s, t, emap, l1, l2, hops, k + 1);
    }
  }

  lemma CongestionKeepsHopVerdict(req: Request, s: Snapshot, t: Snapshot, emap: map<u64, Endpoint>, l1: map<u64, Link>,
                                  l2: map<u64, Link>, hop: Hop)
    requires t == s.(links := t.links) && RaisedMap(l1, l2)
    ensures HopVerdict(req, s, emap, l1, hop) == HopVerdict(req, t, emap, l2, hop)
  {
    hide ReservedOn, ClampDouble, TransportAllowed;
    if hop.link in l1 {
      assert Raised(l1[hop.link], l2[hop.link]);
      assert LinkVerdict(req, s, l1[hop.link], hop) == LinkVerdict(req, t, l2[hop.link], hop);
    }
  }

  lemma CongestionKeepsVerdict(req: Request, s: Snapshot, t: Snapshot, i: nat, c: CandidatePath, b: Bounds)
    requires Congests(s, t, i)
    ensures Verdict(req, s, c, b) == Verdict(req, t, c, b)
  {
    hide EndpointMap, LinkMap, HopsVerdict, RaisedMap, SameEdges;
    CongestionRaisesTheMap(s, t, i);
    CongestionKeepsHopsVerdict(req, s, t, EndpointMap(s.endpoints), LinkMap(s.links), LinkMap(t.links), c.hops, 0);
  }

  /** The raise pushes the candidate's total over the largest double. */
  ghost predicate Overflown(req: Request, s: Snapshot, t: Snapshot, w: Weights, c: CandidatePath) {
    CandidateCost(req, s, c, w).total.Finite() && !CandidateCost(req, t, c, w).total.Finite()
  }

  /** Unless its total overflows, the candidate ranks no earlier than before; and exactly as before when it
      avoids the link. */
  lemma CongestionRaisesKeys(req: Request, s: Snapshot, t: Snapshot, i: nat, c: CandidatePath, w: Weights)
    requires Congests(s, t, i)
    ensures var k, m := RankKey(req, s, w, c), RankKey(req, t, w, c);
      if Overflown(req, s, t, w, c) then m.total == Fin(MAX_COST) else k == m || KeyLess(k, m)
    ensures s.links[i].id !in LinkIds(c.hops) ==> CandidateCost(req, s, c, w) == CandidateCost(req, t, c, w)
  {
    hide EndpointMap, LinkMap, ComponentsOver, KeyOf, Summarize, RaisedMap, SameEdges, KeyLess;
    CongestionRaisesTheMap(s, t, i);
    var emap, l1, l2 := EndpointMap(s.endpoints), LinkMap(s.links), LinkMap(t.links);
    RaisedCost(req, emap, l1, l2, c.hops, w);
    HeavierKey(c, ComponentsOver(req, emap, l1, c.hops, w), ComponentsOver(req, emap, l2, c.hops, w));
    if s.links[i].id !in LinkIds(c.hops) {
      forall h | h in c.hops ensures (h.link in l1 <==> h.link in l2) && (h.link in l1 ==> l1[h.link] == l2[h.link]) {
        var j :| 0 <= j < |c.hops| && c.hops[j] == h;
        assert LinkIds(c.hops)[j] == h.link && h.link in LinkIds(c.hops);
        SameKeys(l1, l2);
      }
      UntouchedCost(req, emap, l1, l2, c.hops, w);
    }
  }

  lemma SameKeys(l1: map<u64, Link>, l2: map<u64, Link>)
    requires RaisedMap(l1, l2)
    ensures forall id :: id in l1 <==> id in l2
  {
  }

  // ----- when the best path stays the best -----

  /** Both snapshots offer the same feasible paths. */
  lemma SameFeasiblePaths(req: Request, s: Snapshot, t: Snapshot, i: nat, b: Bounds, src: u64, dst: u64,
                          c: CandidatePath)
    requires Congests(s, t, i)
    ensures FeasiblePath(req, s, b, src, dst, c) <==> FeasiblePath(req, t, b, src, dst, c)
  {
    hide Enumerate, Verdict, SameEdges, Congests;
    CongestionKeepsTheGraph(s, t, i);
    EnumerationSeesEdges(s.links, t.links, src, dst, b);
    CongestionKeepsVerdict(req, s, t, i, c, b);
  }

  /** Different feasible paths have different keys, whatever they cost. */
  lemma FeasibleKeysDiffer(req: Request, s: Snapshot, b: Bounds, src: u64, dst: u64, c: CandidatePath, d: CandidatePath)
    requires UniqueLinks(s.links) && FeasiblePath(req, s, b, src, dst, c) && FeasiblePath(req, s, b, src, dst, d)
      && c != d
    ensures LinkIds(c.hops) != LinkIds(d.hops)
  {
    hide Enumerate, Verdict, SimplePath;
    EnumerationIsExact(s.links, src, dst, b);
    if LinkIds(c.hops) == LinkIds(d.hops) { LinksDetermineHops(s.links, src, dst, c.hops, d.hops); }
  }

  /** Some feasible path whose total the raise makes overflow, and which is therefore ranked at MAX_COST,
      ranks before `best`. */
  ghost predicate Overtaken(req: Request, s: Snapshot, t: Snapshot, w: Weights, b: Bounds, src: u64, dst: u64,
                            best: CandidatePath)
  {
    exists c :: && FeasiblePath(req, s, b, src, dst, c) && Overflown(req, s, t, w, c)
                && KeyLess(RankKey(req, t, w, c), RankKey(req, s, w, best))
  }

  lemma RivalStaysBehind(req: Request, s: Snapshot, t: Snapshot, i: nat, w: Weights, b: Bounds, src: u64, dst: u64,
                         best: CandidatePath, c: CandidatePath)
    requires Congests(s, t, i) && RankMinimal(req, s, w, b, src, dst, best) && s.links[i].id !in LinkIds(best.hops)
    requires !Overtaken(req, s, t, w, b, src, dst, best) && FeasiblePath(req, s, b, src, dst, c) && c != best
    ensures KeyLess(RankKey(req, t, w, best), RankKey(req, t, w, c))
  {
    hide FeasiblePath, CandidateCost, KeyOf, KeyLess, NanFree, Overflown, Congests;
    CongestionRaisesKeys(req, s, t, i, best, w);
    CongestionRaisesKeys(req, s, t, i, c, w);
    CongestsIsUnique(s, t, i);
    PlannerKeysAreNanFree(req, s, best, w);
    PlannerKeysAreNanFree(req, s, c, w);
    PlannerKeysAreNanFree(req, t, c, w);
    var k, m, n := RankKey(req, s, w, best), RankKey(req, s, w, c), RankKey(req, t, w, c);
    if Overflown(req, s, t, w, c) {
      FeasibleKeysDiffer(req, s, b, src, dst, best, c);
      KeyHoldsLinks(req, s, best, w);
      KeyHoldsLinks(req, t, c, w);
      KeyLessIsTotal(k, n);
    } else if m != n {
      KeyLessIsTransitive(k, m, n);
    }
  }

  lemma KeyHoldsLinks(req: Request, s: Snapshot, c: CandidatePath, w: Weights)
    ensures RankKey(req, s, w, c).ids == LinkIds(c.hops)
  {
    hide CandidateCost;
  }

  lemma CongestsIsUnique(s: Snapshot, t: Snapshot, i: nat)
    requires Congests(s, t, i)
    ensures UniqueLinks(s.links)
  {
  }

  lemma StaysMinimalIff(req: Request, s: Snapshot, t: Snapshot, i: nat, w: Weights, b: Bounds, src: u64, dst: u64,
                        best: CandidatePath)
    requires Congests(s, t, i) && RankMinimal(req, s, w, b, src, dst, best) && s.links[i].id !in LinkIds(best.hops)
    ensures RankMinimal(req, t, w, b, src, dst, best) <==> !Overtaken(req, s, t, w, b, src, dst, best)
  {
    hide FeasiblePath, CandidateCost, KeyOf, KeyLess, NanFree, Overflown, Congests;
    SameFeasiblePaths(req, s, t, i, b, src, dst, best);
    CongestionRaisesKeys(req, s, t, i, best, w);
    if !Overtaken(req, s, t, w, b, src, dst, best) {
      forall c | FeasiblePath(req, t, b, src, dst, c) && c != best
        ensures KeyLess(RankKey(req, t, w, best), RankKey(req, t, w, c))
      {
        SameFeasiblePaths(req, s, t, i, b, src, dst, c);
        RivalStaysBehind(req, s, t, i, w, b, src, dst, best, c);
      }
    } else {
      var c :| && FeasiblePath(req, s, b, src, dst, c) && Overflown(req, s, t, w, c)
               && KeyLess(RankKey(req, t, w, c), RankKey(req, s, w, best));
      SameFeasiblePaths(req, s, t, i, b, src, dst, c);
      PlannerKeysAreNanFree(req, s, best, w);
      PlannerKeysAreNanFree(req, t, c, w);
      KeyLessIsTotal(RankKey(req, s, w, best), RankKey(req, t, w, c));
    }
  }

  lemma MinimalIsUnique(req: Request, s: Snapshot, w: Weights, b: Bounds, src: u64, dst: u64, c: CandidatePath,
                        d: CandidatePath)
    requires RankMinimal(req, s, w, b, src, dst, c) && RankMinimal(req, s, w, b, src, dst, d)
    ensures c == d
  {
    hide FeasiblePath, CandidateCost, KeyOf, KeyLess, NanFree;
    PlannerKeysAreNanFree(req, s, c, w);
    PlannerKeysAreNanFree(req, s, d, w);
    KeyLessIsTotal(RankKey(req, s, w, c), RankKey(req, s, w, d));
  }

  /** The best path does not use the link. */
  ghost predicate BestAvoids(req: Request, s: Snapshot, w: Weights, b: Bounds, src: u64, dst: u64, link: u64) {
    var ranked := RankedBetween(req, s, w, b, src, dst);
    ranked != [] && link !in LinkIds(ranked[0].path.hops)
  }

  /** `t` ranks first what `s` ranks first, at the same cost. */
  ghost predicate SameBest(req: Request, s: Snapshot, t: Snapshot, w: Weights, b: Bounds, src: u64, dst: u64) {
    var r, q := RankedBetween(req, s, w, b, src, dst), RankedBetween(req, t, w, b, src, dst);
    r != [] && q != [] && q[0] == r[0]
  }

  /** Raising the congestion penalty of a link off the best path leaves the best path, and its cost, as they
      were, exactly unless a path over that link overflows and overtakes it. */
  lemma IrrelevantAlternativesIff(req: Request, s: Snapshot, t: Snapshot, i: nat, w: Weights, b: Bounds, src: u64,
                                  dst: u64)
    requires Congests(s, t, i) && BestAvoids(req, s, w, b, src, dst, s.links[i].id)
    ensures RankedBetween(req, t, w, b, src, dst) != []
    ensures SameBest(req, s, t, w, b, src, dst) <==>
      !Overtaken(req, s, t, w, b, src, dst, RankedBetween(req, s, w, b, src, dst)[0].path)
  {
    hide RankedBetween, Congests, CandidateCost, FeasiblePath, RankMinimal, Overtaken;
    var r := RankedBetween(req, s, w, b, src, dst)[0];
    CongestsIsUnique(s, t, i);
    CongestionKeepsTheGraph(s, t, i);
    HeadIsRankMinimal(req, s, w, b, src, dst);
    StaysReachable(req, s, t, i, w, b, src, dst);
    HeadIsRankMinimal(req, t, w, b, src, dst);
    var q := RankedBetween(req, t, w, b, src, dst)[0];
    StaysMinimalIff(req, s, t, i, w, b, src, dst, r.path);
    if RankMinimal(req, t, w, b, src, dst, r.path) {
      MinimalIsUnique(req, t, w, b, src, dst, r.path, q.path);
      RankedAreAssessed(req, s, w, b, src, dst, r);
      RankedAreAssessed(req, t, w, b, src, dst, q);
      CongestionRaisesKeys(req, s, t, i, r.path, w);
    }
  }

  lemma StaysReachable(req: Request, s: Snapshot, t: Snapshot, i: nat, w: Weights, b: Bounds, src: u64, dst: u64)
    requires Congests(s, t, i) && Reachable(req, s, w, b, src, dst)
    ensures Reachable(req, t, w, b, src, dst)
  {
    hide Reachable, FeasiblePath, Congests;
    ReachableMeansFeasible(req, s, w, b, src, dst);
    ReachableMeansFeasible(req, t, w, b, src, dst);
    var c :| FeasiblePath(req, s, b, src, dst, c);
    SameFeasiblePaths(req, s, t, i, b, src, dst, c);
  }

  // ----- the condition, made easy to check -----

  /** A total below MAX_COST is out of reach of anything that overflows. */
  ghost predicate BelowCap(k: Key) { k.total.Finite() && k.total.r < MAX_COST }

  ghost predicate AboveCap(k: Key) { k.total.Finite() && k.total.r > MAX_COST }

  ghost predicate NoneOverflows(req: Request, s: Snapshot, t: Snapshot, w: Weights, b: Bounds, src: u64, dst: u64) {
    forall c :: FeasiblePath(req, s, b, src, dst, c) ==> !Overflown(req, s, t, w, c)
  }

  /** A best path below MAX_COST is never overtaken, one above it exactly when something overflows. (At
      MAX_COST itself the later levels of the key decide.) */
  lemma OvertakenIff(req: Request, s: Snapshot, t: Snapshot, i: nat, w: Weights, b: Bounds, src: u64, dst: u64,
                     best: CandidatePath)
    requires Congests(s, t, i)
    ensures var k := RankKey(req, s, w, best);
      && (BelowCap(k) ==> !Overtaken(req, s, t, w, b, src, dst, best))
      && (AboveCap(k) ==> (Overtaken(req, s, t, w, b, src, dst, best) <==> !NoneOverflows(req, s, t, w, b, src, dst)))
      && (NoneOverflows(req, s, t, w, b, src, dst) ==> !Overtaken(req, s, t, w, b, src, dst, best))
  {
    hide FeasiblePath, CandidateCost, KeyOf, LexLess, Overflown, Congests;
    forall c | FeasiblePath(req, s, b, src, dst, c) && Overflown(req, s, t, w, c)
      ensures RankKey(req, t, w, c).total == Fin(MAX_COST)
    {
      CongestionRaisesKeys(req, s, t, i, c, w);
    }
  }

  /** So with a best total below MAX_COST, or when nothing overflows, the best path stays the best. */
  lemma IrrelevantAlternatives(req: Request, s: Snapshot, t: Snapshot, i: nat, w: Weights, b: Bounds, src: u64,
                               dst: u64)
    requires Congests(s, t, i) && BestAvoids(req, s, w, b, src, dst, s.links[i].id)
    requires BelowCap(RankKey(req, s, w, RankedBetween(req, s, w, b, src, dst)[0].path))
      || NoneOverflows(req, s, t, w, b, src, dst)
    ensures SameBest(req, s, t, w, b, src, dst)
  {
    hide RankedBetween, Congests, FeasiblePath, Overtaken, KeyOf, CandidateCost, SameBest, Overflown;
    IrrelevantAlternativesIff(req, s, t, i, w, b, src, dst);
    OvertakenIff(req, s, t, i, w, b, src, dst, RankedBetween(req, s, w, b, src, dst)[0].path);
  }

  /** And with a best total above MAX_COST it does not stay the best as soon as anything overflows. */
  lemma OverflowOvertakes(req: Request, s: Snapshot, t: Snapshot, i: nat, w: Weights, b: Bounds, src: u64, dst: u64)
    requires Congests(s, t, i) && BestAvoids(req, s, w, b, src, dst, s.links[i].id)
    requires AboveCap(RankKey(req, s, w, RankedBetween(req, s, w, b, src, dst)[0].path))
    ensures SameBest(req, s, t, w, b, src, dst) <==> NoneOverflows(req, s, t, w, b, src, dst)
  {
    hide RankedBetween, Congests, FeasiblePath, Overtaken, KeyOf, CandidateCost, SameBest, Overflown;
    IrrelevantAlternativesIff(req, s, t, i, w, b, src, dst);
    OvertakenIff(req, s, t, i, w, b, src, dst, RankedBetween(req, s, w, b, src, dst)[0].path);
  }

  /** Light weights rule overflow out: then no raise of any link off the best path ever moves it. */
  lemma LightWeightsAreSafe(req: Request, s: Snapshot, t: Snapshot, i: nat, w: Weights, b: Bounds, src: u64, dst: u64)
    requires Congests(s, t, i) && BestAvoids(req, s, w, b, src, dst, s.links[i].id) && LightWeights(w)
    ensures SameBest(req, s, t, w, b, src, dst)
  {
    hide RankedBetween, Congests, FeasiblePath, SameBest, LightWeights, KeyOf, ComponentsOver, EndpointMap, LinkMap;
    forall c | FeasiblePath(req, s, b, src, dst, c) ensures !Overflown(req, s, t, w, c) {
      LightTotal(req, t, c, w);
    }
    IrrelevantAlternatives(req, s, t, i, w, b, src, dst);
  }

  lemma LightTotal(req: Request, t: Snapshot, c: CandidatePath, w: Weights)
    requires LightWeights(w)
    ensures CandidateCost(req, t, c, w).total.Finite()
  {
    hide ComponentsOver, EndpointMap, LinkMap, WeightedSum, MaxDouble;
    CostsAreFinite(req, EndpointMap(t.endpoints), LinkMap(t.links), c.hops, w);
    LightWeightsDoNotOverflow(req, EndpointMap(t.endpoints), LinkMap(t.links), c.hops, w);
  }

  // ----- the plan -----

  ghost predicate SameRoute(p: PlanOutcome, q: PlanOutcome) {
    && p.success && q.success && p.plan.Some? && q.plan.Some?
    && p.plan.value.orderedStages == q.plan.value.orderedStages && p.plan.value.cost == q.plan.value.cost
  }

  /** What a point-to-point plan takes from its best candidate. */
  lemma PlanFollowsBest(req: Request, s: Snapshot, w: Weights, b: Bounds, ids: Ids, dst: u64)
    requires RankedBetween(req, s, w, b, req.source, dst) != []
    ensures var o := PlanBetween(req, s, w, b, ids, dst).outcome;
      var best := RankedBetween(req, s, w, b, req.source, dst)[0];
      && o.success && o.plan.Some? && o.plan.value.cost == best.cost && Linked(LinkMap(s.links), best.path.hops)
      && o.plan.value.orderedStages == StagesOf(best.path.hops, LinkMap(s.links), req.payloadSize, ids.stage)
  {
    hide RankedBetween, ReportsBetween, BestFirstAt, BoundEndpoints, BoundLinks, Claims, PathsOf, TotalHops, LinkMap,
      EndpointMap, StagesOf;
    RankedAreLinked(req, s, w, b, req.source, dst);
    RankedAreFew(req, s, w, b, req.source, dst);
    var r := RankedBetween(req, s, w, b, req.source, dst);
    assert r[0] in r;
    FirstPathOf(r[..Kept(b, |r|)], LinkMap(s.links), req.payloadSize, ids.stage);
  }

  /** The replanned point-to-point plan moves the data over the same stages at the same cost exactly when the
      best candidate is not overtaken. */
  lemma PrimaryIgnoresIrrelevantCongestion(req: Request, s: Snapshot, t: Snapshot, i: nat, w: Weights, b: Bounds,
                                           ids: Ids, dst: u64)
    requires Congests(s, t, i) && BestAvoids(req, s, w, b, req.source, dst, s.links[i].id)
    ensures SameRoute(PlanBetween(req, s, w, b, ids, dst).outcome, PlanBetween(req, t, w, b, ids, dst).outcome) <==>
      !Overtaken(req, s, t, w, b, req.source, dst, RankedBetween(req, s, w, b, req.source, dst)[0].path)
  {
    hide RankedBetween, PlanBetween, RaisedMap, Congests, LinkMap, StagesOf, Overtaken, RankMinimal;
    IrrelevantAlternativesIff(req, s, t, i, w, b, req.source, dst);
    PlanFollowsBest(req, s, w, b, ids, dst);
    PlanFollowsBest(req, t, w, b, ids, dst);
    var r, q := RankedBetween(req, s, w, b, req.source, dst)[0], RankedBetween(req, t, w, b, req.source, dst)[0];
    if r == q {
      SameStages(req, s, t, i, r.path.hops, ids.stage);
    } else if StagesOf(r.path.hops, LinkMap(s.links), req.payloadSize, ids.stage)
           == StagesOf(q.path.hops, LinkMap(t.links), req.payloadSize, ids.stage) {
      SameLinksSameBest(req, s, t, i, w, b, ids, dst);
    }
  }

  lemma SameStages(req: Request, s: Snapshot, t: Snapshot, i: nat, hops: seq<Hop>, firstStage: u64)
    requires Congests(s, t, i) && s.links[i].id !in LinkIds(hops)
    requires Linked(LinkMap(s.links), hops) && Linked(LinkMap(t.links), hops)
    ensures StagesOf(hops, LinkMap(s.links), req.payloadSize, firstStage)
         == StagesOf(hops, LinkMap(t.links), req.payloadSize, firstStage)
  {
    hide LinkMap, RaisedMap, Congests;
    CongestionRaisesTheMap(s, t, i);
    forall k | 0 <= k < |hops| ensures LinkMap(s.links)[hops[k].link] == LinkMap(t.links)[hops[k].link] {
      assert LinkIds(hops)[k] in LinkIds(hops);
    }
  }

  lemma SameLinksSameBest(req: Request, s: Snapshot, t: Snapshot, i: nat, w: Weights, b: Bounds, ids: Ids, dst: u64)
    requires Congests(s, t, i) && BestAvoids(req, s, w, b, req.source, dst, s.links[i].id)
    requires RankedBetween(req, t, w, b, req.source, dst) != []
    requires var r := RankedBetween(req, s, w, b, req.source, dst)[0];
      var q := RankedBetween(req, t, w, b, req.source, dst)[0];
      && Linked(LinkMap(s.links), r.path.hops) && Linked(LinkMap(t.links), q.path.hops)
      && StagesOf(r.path.hops, LinkMap(s.links), req.payloadSize, ids.stage)
         == StagesOf(q.path.hops, LinkMap(t.links), req.payloadSize, ids.stage)
    ensures SameBest(req, s, t, w, b, req.source, dst)
  {
    hide RankedBetween, Congests, LinkMap, CandidateCost, FeasiblePath, KeyOf, KeyLess;
    var r, q := RankedBetween(req, s, w, b, req.source, dst)[0], RankedBetween(req, t, w, b, req.source, dst)[0];
    CongestsIsUnique(s, t, i);
    CongestionKeepsTheGraph(s, t, i);
    HeadIsRankMinimal(req, s, w, b, req.source, dst);
    HeadIsRankMinimal(req, t, w, b, req.source, dst);
    SameFeasiblePaths(req, s, t, i, b, req.source, dst, q.path);
    SameStageLinks(r.path.hops, q.path.hops, LinkMap(s.links), LinkMap(t.links), req.payloadSize, ids.stage);
    if r.path != q.path { FeasibleKeysDiffer(req, s, b, req.source, dst, r.path, q.path); }
    RankedAreAssessed(req, s, w, b, req.source, dst, r);
    RankedAreAssessed(req, t, w, b, req.source, dst, q);
    CongestionRaisesKeys(req, s, t, i, r.path, w);
  }

  lemma SameStageLinks(p: seq<Hop>, q: seq<Hop>, l1: map<u64, Link>, l2: map<u64, Link>, payload: u64, firstStage: u64)
    requires Linked(l1, p) && Linked(l2, q)
      && StagesOf(p, l1, payload, firstStage) == StagesOf(q, l2, payload, firstStage)
    ensures LinkIds(p) == LinkIds(q)
  {
    var x, y := StagesOf(p, l1, payload, firstStage), StagesOf(q, l2, payload, firstStage);
    forall k | 0 <= k < |p| ensures p[k].link == q[k].link { assert x[k].link == p[k].link && y[k].link == q[k].link; }
  }

  lemma FirstPathOf(kept: seq<Rankable>, lmap: map<u64, Link>, payload: u64, firstStage: u64)
    requires 0 < |kept| < TWO64 && forall k :: 0 <= k < |kept| ==> Linked(lmap, kept[k].path.hops)
    ensures PathsOf(kept, lmap, payload, firstStage)[0].stages == StagesOf(kept[0].path.hops, lmap, payload, firstStage)
  {
    hide PathsOf, StagesOf;
    PathAt(kept, lmap, payload, firstStage, 0);
  }
}
