/** The planner ranks strictly: its keys hold no NaN, and no two of its candidates run over the same links. */
module StrictRanking {
  import opened Core
  import opened Model
  import opened Enumeration
  import opened SimplePaths
  import opened FeasibilityFilter
  import opened Cost
  import opened Ranking
  import opened Planner

  lemma {:induction false} ComponentValueIsNumber(cs: seq<CostComponent<Double>>, f: CostFactor, default: Double)
    requires forall c :: c in cs ==> c.value.NonNegFinite()
    requires default.Finite()
    ensures ComponentValue(cs, f, default).Finite()
  {
    if cs != [] {
      assert cs[0] in cs;
      ComponentValueIsNumber(cs[1..], f, default);
    }
  }

  lemma PlannerKeysAreNanFree(req: Request, snap: Snapshot, c: CandidatePath, w: Weights)
    ensures NanFree(KeyOf(c, CandidateCost(req, snap, c, w)))
  {
    hide ComponentsOver, EndpointMap, LinkMap, Summarize, UncertaintyCount, WorstProvenance;
    var emap, lmap := EndpointMap(snap.endpoints), LinkMap(snap.links);
    CostsAreFinite(req, emap, lmap, c.hops, w);
    var cs := CandidateCost(req, snap, c, w).components;
    ComponentValueIsNumber(cs, CostFactor.HopCount, Fin(|c.hops| as real));
    ComponentValueIsNumber(cs, CongestionPenalty, Fin(0.0));
    ComponentValueIsNumber(cs, ResidualBandwidth, Fin(0.0));
  }

  /** With unique link ids a path is determined by its link sequence. */
  lemma LinksDetermineHops(links: seq<Link>, src: u64, dst: u64, p: seq<Hop>, q: seq<Hop>)
    requires UniqueLinks(links) && SimplePath(links, src, dst, p) && SimplePath(links, src, dst, q)
    requires LinkIds(p) == LinkIds(q)
    ensures p == q
  {
    assert |p| == |LinkIds(p)| == |LinkIds(q)| == |q|;
    forall i | 0 <= i < |p| ensures p[i] == q[i] {
      assert Edge(links, p[i]) && Edge(links, q[i]);
      assert LinkIds(p)[i] == p[i].link && LinkIds(q)[i] == q[i].link;
      var l :| l in links && l.id == p[i].link && l.source == p[i].from && l.destination == p[i].to;
      var m :| m in links && m.id == q[i].link && m.source == q[i].from && m.destination == q[i].to;
    }
  }

  ghost predicate StrictlyRanked(rs: seq<Rankable>) { NanFreeInput(rs) && DistinctLinkIds(rs) }

  lemma RankableIsCandidate(req: Request, snap: Snapshot, w: Weights, b: Bounds, src: u64, dst: u64, k: nat)
    returns (i: nat)
    requires k < |Rankables(ReportsBetween(req, snap, w, b, src, dst))|
    ensures i == FeasibleAt(ReportsBetween(req, snap, w, b, src, dst))[k]
    ensures i < |Enumerate(snap.links, src, dst, b)|
    ensures var r := Rankables(ReportsBetween(req, snap, w, b, src, dst))[k];
      && r.path == Enumerate(snap.links, src, dst, b)[i] && r.feasibility.Feasible?
      && Verdict(req, snap, r.path, b).Feasible? && r.cost == CandidateCost(req, snap, r.path, w)
  {
    hide Enumerate, Verdict, CandidateCost, WorstProvenance;
    var reports := ReportsBetween(req, snap, w, b, src, dst);
    i := FeasibleAt(reports)[k];
    ReportAt(req, snap, w, b, Enumerate(snap.links, src, dst, b), i);
  }

  lemma PlannerRanksStrictly(req: Request, snap: Snapshot, w: Weights, b: Bounds, src: u64, dst: u64)
    requires UniqueLinks(snap.links)
    ensures StrictlyRanked(Rankables(ReportsBetween(req, snap, w, b, src, dst)))
  {
    hide Enumerate, Verdict, CandidateCost, WorstProvenance, ReportsBetween, FeasibleAt, Rankables, NanFree, KeyOf,
      SimplePath, CandidateLess;
    var reports := ReportsBetween(req, snap, w, b, src, dst);
    var cands := Enumerate(snap.links, src, dst, b);
    var rs := Rankables(reports);
    EnumerationIsExact(snap.links, src, dst, b);
    forall k | 0 <= k < |rs| ensures NanFree(KeyAt(rs, k)) {
      var i := RankableIsCandidate(req, snap, w, b, src, dst, k);
      PlannerKeysAreNanFree(req, snap, rs[k].path, w);
    }
    forall j, k | 0 <= j < k < |rs| ensures LinkIds(rs[j].path.hops) != LinkIds(rs[k].path.hops) {
      var p := RankableIsCandidate(req, snap, w, b, src, dst, j);
      var q := RankableIsCandidate(req, snap, w, b, src, dst, k);
      assert p < q && cands[p] != cands[q] && cands[p] in cands && cands[q] in cands;
      if LinkIds(cands[p].hops) == LinkIds(cands[q].hops) {
        LinksDetermineHops(snap.links, src, dst, cands[p].hops, cands[q].hops);
      }
    }
  }
}
